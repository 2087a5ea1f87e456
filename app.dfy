/** The in-memory prediction service of `app.py`: the `prediction_history`
    dict (kept in insertion order) and the `prediction_stats` accumulator, and
    the endpoints that read and change them. The classifier (scaler, model and
    `predict_proba`) is an opaque function parameter; the clock reading, the
    generated prediction ids and the request body are parameters too. */
module App {
  import opened Basics
  import opened Json
  import opened Validators
  import opened Utils
  import opened Models
  import opened HistoryPage

  // ---------------------------------------------------------------------------
  // Replies
  // ---------------------------------------------------------------------------

  /** A JSON reply with status 200, or a `ResponseFormatter.error` body with its
      HTTP status. */
  datatype Response<T> = Ok(body: T) | Failure(envelope: ErrorEnvelope, status: int)

  function ErrorReply<T>(message: string, code: Option<string>, status: int, now: string): Response<T>
  {
    Failure(FormatError(message, code, now), status)
  }

  /** The text of the `IndexError` raised by `prob_value[1]` on a row with fewer
      than two class probabilities (exceptions are modelled by class name). */
  const IndexErrorText: string := "IndexError"

  /** The text of the `TypeError` that `float()` raises on a numpy array of more
      than one element. */
  const TypeErrorText: string := "TypeError"

  // ---------------------------------------------------------------------------
  // The classifier
  // ---------------------------------------------------------------------------

  /** What the classifier is given: the age in days and the measurements (the
      BMI derived from height and weight is computed on the classifier's side). */
  datatype Features = Features(ageDays: int, measurements: Measurements)

  /** `model.predict` and `model.predict_proba` on one feature row: the class
      and the row of class probabilities, or the exception they raised. */
  datatype Classification = Classified(prediction: int, probabilities: seq<real>) | Failed(exception: string)

  /** Python's `int(x)` on a number: truncation toward zero. */
  function Truncate(x: real): int
  {
    if x >= 0.0 then x.Floor else -((-x).Floor)
  }

  function MeasurementsOf(m: map<string, Value>): Measurements
    requires HasRequired(m)
  {
    Measurements(m["gender"], m["height"], m["weight"], m["ap_hi"], m["ap_lo"],
                 m["cholesterol"], m["gluc"], m["smoke"], m["alco"], m["active"])
  }

  /** `int(data['age'])` on a request that `validate` accepted. */
  function AgeYearsOf(m: map<string, Value>): (years: int)
    requires Acceptable(m)
    ensures 1 <= years <= 120
    ensures years as real <= NumberOf(m["age"]) < years as real + 1.0
  {
    Truncate(NumberOf(m["age"]))
  }

  /** A request body `validate` accepts is a dict with every required field. */
  lemma AcceptedBodyIsDict(body: Value)
    requires Validate(body) == Valid
    ensures body.Object? && Acceptable(body.fields)
  {
    ValidIffAcceptable(body);
  }

  // ---------------------------------------------------------------------------
  // POST /api/predict
  // ---------------------------------------------------------------------------

  /** The 200 body of `/api/predict`. */
  datatype PredictAnswer = PredictAnswer(predictionId: string, prediction: int, hasDisease: bool,
                                         diseaseProbability: real, healthyProbability: real,
                                         riskPercentage: real, riskLevel: string, color: string,
                                         timestamp: string)

  /** What one call to `/api/predict` amounts to: an error reply, or the record
      to store together with its dict form and the reply. */
  datatype Attempt =
    | Refused(envelope: ErrorEnvelope, status: int)
    | Accepted(record: PredictionRecord, dict: RecordDict, answer: PredictAnswer)

  function PredictionFailed(exception: string, now: string): Attempt
  {
    Refused(FormatError("Prediction error: " + exception, Some("PREDICTION_ERROR"), now), 400)
  }

  /** Scoring a request `validate` accepted: the classifier is run on the age in
      days and the measurements, the risk is read off `p[1]`, and the record is
      built from the probability row and serialised. */
  function Score(m: map<string, Value>, classify: Features -> Classification, newId: string, now: string): (a: Attempt)
    requires Acceptable(m)
    ensures a.Refused? ==> a.status == 400
  {
    var ageYears := AgeYearsOf(m);
    var ageDays := YearsToDays(ageYears);
    var measurements := MeasurementsOf(m);
    match classify(Features(ageDays, measurements))
    case Failed(e) => PredictionFailed(e, now)
    case Classified(prediction, p) =>
      if |p| < 2 then PredictionFailed(IndexErrorText, now)
      else
        var risk := GetRiskLevel(p[1]);
        RowRecordSerialises(newId, prediction, ArrayRow(p), risk.percentage, risk.level, risk.color,
                            ageDays, ageYears, measurements, NoPatientInfo, now);
        var rec := NewRecord(newId, prediction, ArrayRow(p), risk.percentage, risk.level, risk.color,
                             ageDays, ageYears, measurements, NoPatientInfo, now).value;
        Accepted(rec, ToDict(rec).value,
                 PredictAnswer(newId, prediction, prediction != 0, p[1], p[0],
                               risk.percentage, risk.level, risk.color, now))
  }

  /** The checks of `/api/predict` before scoring, in code order: the model
      must be loaded (503 `MODEL_NOT_LOADED`), the body must be truthy (400
      without a code), and `validate` must accept it (400 `VALIDATION_ERROR`);
      an exception from `validate` is a 400 `PREDICTION_ERROR`. `None`: the
      request goes on to the classifier. */
  function Gate(modelLoaded: bool, body: Value, now: string): (g: Option<Attempt>)
    ensures g.None? ==> modelLoaded && body.Object? && Acceptable(body.fields)
    ensures g.Some? ==> g.value.Refused?
  {
    if !modelLoaded then
      Some(Refused(FormatError("Model not loaded. Please train the model first.", Some("MODEL_NOT_LOADED"), now), 503))
    else if !Truthy(body) then
      Some(Refused(FormatError("No JSON data provided", None, now), 400))
    else match Validate(body)
      case Invalid(msg) => Some(Refused(FormatError(msg, Some("VALIDATION_ERROR"), now), 400))
      case Raised(e) => Some(PredictionFailed(e, now))
      case Valid =>
        AcceptedBodyIsDict(body);
        None
  }

  /** `/api/predict`: the checks, then scoring. Only a request that passed all
      three checks is scored. */
  function PredictAttempt(modelLoaded: bool, body: Value, classify: Features -> Classification,
                          newId: string, now: string): (a: Attempt)
    ensures !modelLoaded ==>
      a == Refused(FormatError("Model not loaded. Please train the model first.", Some("MODEL_NOT_LOADED"), now), 503)
    ensures modelLoaded && !Truthy(body) ==> a == Refused(FormatError("No JSON data provided", None, now), 400)
    ensures modelLoaded && Truthy(body) && Validate(body).Invalid? ==>
      a == Refused(FormatError(Validate(body).message, Some("VALIDATION_ERROR"), now), 400)
    ensures modelLoaded && Truthy(body) && Validate(body).Raised? ==>
      a == PredictionFailed(Validate(body).exception, now)
    ensures a.Accepted? ==> modelLoaded && body.Object? && Acceptable(body.fields)
    ensures a.Refused? ==> a.status == 400 || a.status == 503
  {
    match Gate(modelLoaded, body, now)
    case Some(refusal) => refusal
    case None => Score(body.fields, classify, newId, now)
  }

  /** `Score` with the record built as lines 18-19 of `models.py` are written:
      the numpy row is stored whole, and `to_dict` then raises unless the row
      has a single entry. */
  function ScoreAsWritten(m: map<string, Value>, classify: Features -> Classification, newId: string, now: string)
    : (a: Attempt)
    requires Acceptable(m)
    ensures a.Refused? ==> a.status == 400
  {
    var ageYears := AgeYearsOf(m);
    var ageDays := YearsToDays(ageYears);
    var measurements := MeasurementsOf(m);
    match classify(Features(ageDays, measurements))
    case Failed(e) => PredictionFailed(e, now)
    case Classified(prediction, p) =>
      if |p| < 2 then PredictionFailed(IndexErrorText, now)
      else
        var risk := GetRiskLevel(p[1]);
        var rec := NewRecordAsWritten(newId, prediction, ArrayRow(p), risk.percentage, risk.level, risk.color,
                                      ageDays, ageYears, measurements, NoPatientInfo, now).value;
        match ToDict(rec)
        case None => PredictionFailed(TypeErrorText, now)
        case Some(d) =>
          Accepted(rec, d, PredictAnswer(newId, prediction, prediction != 0, p[1], p[0],
                                         risk.percentage, risk.level, risk.color, now))
  }

  /** `/api/predict` as written: the same checks, then `ScoreAsWritten`. */
  function PredictAttemptAsWritten(modelLoaded: bool, body: Value, classify: Features -> Classification,
                                   newId: string, now: string): (a: Attempt)
    ensures a.Refused? ==> a.status == 400 || a.status == 503
  {
    match Gate(modelLoaded, body, now)
    case Some(refusal) => refusal
    case None => ScoreAsWritten(body.fields, classify, newId, now)
  }

  /** As written, `/api/predict` never stores a prediction: a request that
      passes every check and gets a row of two or more class probabilities is
      answered 400 `PREDICTION_ERROR` with the `TypeError` of `float()`, and
      every other request gets the reply the corrected handler gives. */
  lemma AsWrittenNeverAccepts(modelLoaded: bool, body: Value, classify: Features -> Classification,
                              newId: string, now: string)
    ensures PredictAttemptAsWritten(modelLoaded, body, classify, newId, now).Refused?
    ensures var scored := modelLoaded && body.Object? && Acceptable(body.fields) &&
              var c := classify(Features(YearsToDays(AgeYearsOf(body.fields)), MeasurementsOf(body.fields)));
              c.Classified? && |c.probabilities| >= 2;
      if scored then PredictAttemptAsWritten(modelLoaded, body, classify, newId, now) == PredictionFailed(TypeErrorText, now)
      else PredictAttemptAsWritten(modelLoaded, body, classify, newId, now) == PredictAttempt(modelLoaded, body, classify, newId, now)
  {
    GateOpensIff(modelLoaded, body, now);
    if Gate(modelLoaded, body, now).None? {
      ScoreAsWrittenRefuses(body.fields, classify, newId, now);
    }
  }

  /** The checks let a request through exactly when the model is loaded and the
      body is a dict `validate` accepts. */
  lemma GateOpensIff(modelLoaded: bool, body: Value, now: string)
    ensures Gate(modelLoaded, body, now).None? <==> modelLoaded && body.Object? && Acceptable(body.fields)
  {
    if modelLoaded && body.Object? && Acceptable(body.fields) {
      ValidIffAcceptable(body);
      assert Truthy(body) by {
        assert "age" in body.fields;
      }
    }
  }

  /** Scoring as written refuses every request: with a row of two or more
      probabilities by the `TypeError` of `to_dict`, otherwise as `Score` does. */
  lemma ScoreAsWrittenRefuses(m: map<string, Value>, classify: Features -> Classification, newId: string, now: string)
    requires Acceptable(m)
    ensures ScoreAsWritten(m, classify, newId, now).Refused?
    ensures var c := classify(Features(YearsToDays(AgeYearsOf(m)), MeasurementsOf(m)));
      if c.Classified? && |c.probabilities| >= 2
      then ScoreAsWritten(m, classify, newId, now) == PredictionFailed(TypeErrorText, now)
      else ScoreAsWritten(m, classify, newId, now) == Score(m, classify, newId, now)
  {
  }

  /** A request is scored exactly when the model is loaded, the body is a dict
      `validate` accepts, and the classifier answers with a row of at least two
      probabilities; the stored dict and the reply then agree with each other
      and with the classifier: disease probability `p[1]`, healthy `p[0]`,
      `has_disease` for any class other than 0, the risk tier of `100·p[1]`,
      the age truncated to whole years and converted to days. */
  lemma AcceptedIffScored(modelLoaded: bool, body: Value, classify: Features -> Classification,
                          newId: string, now: string)
    ensures var a := PredictAttempt(modelLoaded, body, classify, newId, now);
      a.Accepted? <==>
        modelLoaded && body.Object? && Acceptable(body.fields) &&
        var c := classify(Features(YearsToDays(AgeYearsOf(body.fields)), MeasurementsOf(body.fields)));
        c.Classified? && |c.probabilities| >= 2
    ensures var a := PredictAttempt(modelLoaded, body, classify, newId, now);
      a.Accepted? ==>
        var m := body.fields;
        var c := classify(Features(YearsToDays(AgeYearsOf(m)), MeasurementsOf(m)));
        var p := c.probabilities;
        && a.dict.id == newId && a.answer.predictionId == newId
        && a.dict.timestamp == now && a.dict.status == "completed"
        && a.dict.prediction == c.prediction && a.answer.prediction == c.prediction
        && a.dict.hasDisease == (c.prediction != 0) && a.answer.hasDisease == a.dict.hasDisease
        && a.dict.diseaseProbability == p[1] && a.answer.diseaseProbability == p[1]
        && a.dict.healthyProbability == p[0] && a.answer.healthyProbability == p[0]
        && a.dict.riskPercentage == 100.0 * p[1] && a.answer.riskPercentage == a.dict.riskPercentage
        && a.answer.riskLevel == LevelName(TierOf(100.0 * p[1]))
        && a.answer.color == Colour(TierOf(100.0 * p[1]))
        && a.dict.ageYears == AgeYearsOf(m) && a.dict.ageDays == YearsToDays(AgeYearsOf(m))
        && a.dict.bpSystolic == m["ap_hi"] && a.dict.bpDiastolic == m["ap_lo"]
        && a.record.riskPercentage == a.dict.riskPercentage && a.record.prediction == c.prediction
  {
    if modelLoaded && Truthy(body) && Validate(body) == Valid {
      AcceptedBodyIsDict(body);
    }
    if modelLoaded && body.Object? && Acceptable(body.fields) {
      ValidIffAcceptable(body);
      assert Truthy(body) by {
        assert "age" in body.fields;
      }
    }
  }

  // ---------------------------------------------------------------------------
  // POST /api/batch-predict
  // ---------------------------------------------------------------------------

  datatype BatchResult = BatchResult(predictionId: string, prediction: int, riskPercentage: real, riskLevel: string)
  datatype FailedEntry = FailedEntry(index: nat, error: string)

  /** What the loop body does with one record. */
  datatype ItemOutcome = Scored(result: BatchResult) | Dropped(entry: FailedEntry)

  /** One pass of the batch loop: the record is validated again (its message
      goes to `failed`), then scored; an exception from either lands in
      `failed` with its text. */
  function ScoreItem(item: Value, index: nat, classify: Features -> Classification, predictionId: string): (o: ItemOutcome)
    ensures o.Dropped? ==> o.entry.index == index
    ensures Validate(item).Invalid? ==> o == Dropped(FailedEntry(index, Validate(item).message))
    ensures Validate(item).Raised? ==> o == Dropped(FailedEntry(index, Validate(item).exception))
    ensures o.Scored? ==> Validate(item) == Valid && o.result.predictionId == predictionId
  {
    match Validate(item)
    case Invalid(msg) => Dropped(FailedEntry(index, msg))
    case Raised(e) => Dropped(FailedEntry(index, e))
    case Valid =>
      AcceptedBodyIsDict(item);
      var m := item.fields;
      match classify(Features(YearsToDays(AgeYearsOf(m)), MeasurementsOf(m)))
      case Failed(e) => Dropped(FailedEntry(index, e))
      case Classified(prediction, p) =>
        if |p| < 2 then Dropped(FailedEntry(index, IndexErrorText))
        else
          var risk := GetRiskLevel(p[1]);
          Scored(BatchResult(predictionId, prediction, risk.percentage, risk.level))
  }

  /** What the loop does with each record of `items`, by position. */
  function Outcomes(items: seq<Value>, classify: Features -> Classification, idFor: nat -> string): (os: seq<ItemOutcome>)
    ensures |os| == |items|
    ensures forall i :: 0 <= i < |items| ==> os[i] == ScoreItem(items[i], i, classify, idFor(i))
  {
    seq(|items|, i requires 0 <= i < |items| => ScoreItem(items[i], i, classify, idFor(i)))
  }

  /** The `results` and `failed` lists after the loop has seen the outcomes `os`. */
  datatype Partition = Partition(results: seq<BatchResult>, failed: seq<FailedEntry>)

  function Split(os: seq<ItemOutcome>): Partition
  {
    if os == [] then Partition([], [])
    else
      var prev := Split(os[..|os| - 1]);
      match os[|os| - 1]
      case Scored(r) => Partition(prev.results + [r], prev.failed)
      case Dropped(f) => Partition(prev.results, prev.failed + [f])
  }

  /** Outcomes that carry their own position, as `ScoreItem` makes them. */
  ghost predicate Positioned(os: seq<ItemOutcome>)
  {
    forall i :: 0 <= i < |os| && os[i].Dropped? ==> os[i].entry.index == i
  }

  /** Every record lands in exactly one of the two lists: `failed` holds one
      entry per dropped record, in increasing index order, and `results` holds
      the rest. */
  lemma {:induction false} SplitIsExact(os: seq<ItemOutcome>)
    requires Positioned(os)
    ensures |Split(os).results| + |Split(os).failed| == |os|
    ensures forall j :: 0 <= j < |Split(os).failed| ==>
      Split(os).failed[j].index < |os| && os[Split(os).failed[j].index] == Dropped(Split(os).failed[j])
    ensures forall j, k :: 0 <= j < k < |Split(os).failed| ==> Split(os).failed[j].index < Split(os).failed[k].index
    ensures forall i :: 0 <= i < |os| && os[i].Dropped? ==> os[i].entry in Split(os).failed
  {
    SplitSizes(os);
    SplitFailedSound(os);
    SplitFailedComplete(os);
  }

  lemma {:induction false} SplitSizes(os: seq<ItemOutcome>)
    ensures |Split(os).results| + |Split(os).failed| == |os|
  {
    if os != [] {
      SplitSizes(os[..|os| - 1]);
    }
  }

  /** Each entry of `failed` names a dropped record, and the names increase. */
  lemma {:induction false} SplitFailedSound(os: seq<ItemOutcome>)
    requires Positioned(os)
    ensures forall j :: 0 <= j < |Split(os).failed| ==>
      Split(os).failed[j].index < |os| && os[Split(os).failed[j].index] == Dropped(Split(os).failed[j])
    ensures forall j, k :: 0 <= j < k < |Split(os).failed| ==> Split(os).failed[j].index < Split(os).failed[k].index
  {
    if os != [] {
      var last := |os| - 1;
      var init := os[..last];
      assert forall i :: 0 <= i < last ==> init[i] == os[i];
      SplitFailedSound(init);
      match os[last]
      case Scored(r) =>
      case Dropped(f) =>
        assert Split(os).failed == Split(init).failed + [f];
    }
  }

  /** Every dropped record has its entry in `failed`. */
  lemma {:induction false} SplitFailedComplete(os: seq<ItemOutcome>)
    ensures forall i :: 0 <= i < |os| && os[i].Dropped? ==> os[i].entry in Split(os).failed
  {
    if os != [] {
      var last := |os| - 1;
      var init := os[..last];
      assert forall i :: 0 <= i < last ==> init[i] == os[i];
      SplitFailedComplete(init);
      match os[last]
      case Scored(r) =>
        assert Split(os).failed == Split(init).failed;
      case Dropped(f) =>
        assert Split(os).failed == Split(init).failed + [f];
    }
  }

  /** The partition of a batch of records. */
  function PartitionOf(items: seq<Value>, classify: Features -> Classification, idFor: nat -> string): (p: Partition)
    ensures |p.results| + |p.failed| == |items|
    ensures forall j :: 0 <= j < |p.failed| ==>
      p.failed[j].index < |items| &&
      ScoreItem(items[p.failed[j].index], p.failed[j].index, classify, idFor(p.failed[j].index)) == Dropped(p.failed[j])
    ensures forall j, k :: 0 <= j < k < |p.failed| ==> p.failed[j].index < p.failed[k].index
    ensures forall i :: 0 <= i < |items| && ScoreItem(items[i], i, classify, idFor(i)).Dropped? ==>
      ScoreItem(items[i], i, classify, idFor(i)).entry in p.failed
  {
    var os := Outcomes(items, classify, idFor);
    SplitIsExact(os);
    Split(os)
  }

  /** The 200 body of `/api/batch-predict`. */
  datatype BatchAnswer = BatchAnswer(results: seq<BatchResult>, successCount: nat, failedCount: nat,
                                     failed: Option<seq<FailedEntry>>, timestamp: string)

  function Answer(p: Partition, now: string): BatchAnswer
  {
    BatchAnswer(p.results, |p.results|, |p.failed|, if p.failed != [] then Some(p.failed) else None, now)
  }

  /** `/api/batch-predict` on the request body `body`. The `in` test and the
      subscript raise on a body that is not a dict (400 with the exception's
      text); a dict without `predictions` and a batch `validate_batch` refuses
      are answered 400 without a code. `idFor(i)` is the id generated for
      record `i`. Nothing is stored. */
  function BatchReply(body: Value, classify: Features -> Classification, idFor: nat -> string, now: string): (r: Response<BatchAnswer>)
    ensures body.Object? && "predictions" !in body.fields ==> r == ErrorReply("Missing predictions field", None, 400, now)
    ensures r.Failure? ==> r.status == 400 && r.envelope.errorCode.None?
    ensures r.Ok? ==> (body.Object? && "predictions" in body.fields &&
                       BatchVerdict(body.fields["predictions"]) == Valid &&
                       r.body.successCount + r.body.failedCount == |body.fields["predictions"].items| &&
                       (r.body.failed.None? <==> r.body.failedCount == 0))
  {
    match Contains(body, "predictions")
    case NotIterable => ErrorReply("TypeError", None, 400, now)
    case Member(present) =>
      if !present then ErrorReply("Missing predictions field", None, 400, now)
      else if !body.Object? then ErrorReply("TypeError", None, 400, now)
      else
        var predictions := body.fields["predictions"];
        match BatchVerdict(predictions)
        case Invalid(msg) => ErrorReply(msg, None, 400, now)
        case Raised(e) => ErrorReply(e, None, 400, now)
        case Valid =>
          Ok(Answer(PartitionOf(predictions.items, classify, idFor), now))
  }

  /** `batch_predict`, with its loop over the records. */
  method BatchPredict(body: Value, classify: Features -> Classification, idFor: nat -> string, now: string)
    returns (r: Response<BatchAnswer>)
    ensures r == BatchReply(body, classify, idFor, now)
  {
    var membership := Contains(body, "predictions");
    if membership.NotIterable? {
      return ErrorReply("TypeError", None, 400, now);
    }
    if !membership.present {
      return ErrorReply("Missing predictions field", None, 400, now);
    }
    if !body.Object? {
      return ErrorReply("TypeError", None, 400, now);
    }
    var predictions := body.fields["predictions"];
    var verdict := ValidateBatch(predictions);
    if verdict.Invalid? {
      return ErrorReply(verdict.message, None, 400, now);
    }
    if verdict.Raised? {
      return ErrorReply(verdict.exception, None, 400, now);
    }
    var partition := ScoreAll(predictions.items, classify, idFor);
    r := Ok(Answer(partition, now));
  }

  /** The loop of `batch_predict` over the records, appending to `results` or
      `failed`. */
  method ScoreAll(items: seq<Value>, classify: Features -> Classification, idFor: nat -> string)
    returns (p: Partition)
    ensures p == PartitionOf(items, classify, idFor)
  {
    ghost var os := Outcomes(items, classify, idFor);
    var results: seq<BatchResult> := [];
    var failed: seq<FailedEntry> := [];
    var idx := 0;
    while idx < |items|
      invariant 0 <= idx <= |items|
      invariant Split(os[..idx]) == Partition(results, failed)
    {
      assert os[..idx + 1][..idx] == os[..idx];
      var o := ScoreItem(items[idx], idx, classify, idFor(idx));
      assert o == os[idx];
      match o {
        case Scored(res) =>
          results := results + [res];
        case Dropped(f) =>
          failed := failed + [f];
      }
      idx := idx + 1;
    }
    assert os[..idx] == os;
    p := Partition(results, failed);
  }

  /** One record that `validate` does not accept is enough to refuse the whole
      batch with 400, before anything is scored. */
  lemma InvalidRecordRefusesBatch(body: Value, classify: Features -> Classification, idFor: nat -> string,
                                  now: string, i: nat)
    requires body.Object? && "predictions" in body.fields
    requires var p := body.fields["predictions"]; p.Array? && i < |p.items| && Validate(p.items[i]) != Valid
    ensures var r := BatchReply(body, classify, idFor, now);
      r.Failure? && r.status == 400
  {
    BatchValidIffAllValid(body.fields["predictions"]);
  }

  // ---------------------------------------------------------------------------
  // The service state
  // ---------------------------------------------------------------------------

  /** The stored dicts in the order of their ids. */
  function ValuesOf(ids: seq<string>, records: map<string, RecordDict>): (vs: seq<RecordDict>)
    requires forall i :: 0 <= i < |ids| ==> ids[i] in records
    ensures |vs| == |ids|
    ensures forall i :: 0 <= i < |ids| ==> vs[i] == records[ids[i]]
  {
    if ids == [] then [] else [records[ids[0]]] + ValuesOf(ids[1..], records)
  }

  /** A reply to `GET /api/prediction/<id>`. */
  datatype Lookup = Lookup(status: string, data: RecordDict, timestamp: string)

  /** A reply to `GET /api/prediction-status`. */
  datatype StatusAnswer = StatusAnswer(status: string, summary: Summary, recent: seq<RecordDict>, timestamp: string)

  /** A reply to `POST /api/clear-history`. */
  datatype ClearAnswer = ClearAnswer(status: string, message: string, clearedCount: nat, timestamp: string)

  /** `values[-10:]`: the last ten values, or all of them when there are fewer. */
  function LastTen<T>(s: seq<T>): (r: seq<T>)
    ensures |r| == Min(10, |s|) && r == s[|s| - |r|..]
  {
    PySlice(s, -10, |s|)
  }

  /** `ids` lists the keys of `records`, each once. */
  ghost predicate IndexOf(ids: seq<string>, records: map<string, RecordDict>)
  {
    Distinct(ids) && (forall id :: id in records <==> id in ids)
  }

  /** Storing under an id, and listing the id when it is new, keeps the index. */
  lemma StoreKeepsIndex(ids: seq<string>, records: map<string, RecordDict>, id: string, d: RecordDict)
    requires IndexOf(ids, records)
    ensures IndexOf(if id in ids then ids else ids + [id], records[id := d])
  {
    if id !in ids {
      var ids' := ids + [id];
      forall i, j | 0 <= i < j < |ids'|
        ensures ids'[i] != ids'[j]
      {
        if j < |ids| {
          assert ids'[i] == ids[i] && ids'[j] == ids[j];
        } else {
          assert ids'[i] == ids[i] && ids[i] in ids;
        }
      }
    }
  }

  class PredictionService {
    const modelLoaded: bool
    /** The keys of `prediction_history` in insertion order. */
    var ids: seq<string>
    var records: map<string, RecordDict>
    var stats: StatisticsRecord

    /** The ids list the dict's keys, each once. */
    ghost predicate Indexed()
      reads this
    {
      IndexOf(ids, records)
    }

    ghost predicate Valid()
      reads this, stats
    {
      Indexed() && stats.Valid()
    }

    constructor (modelLoaded: bool)
      ensures Valid() && fresh(stats)
      ensures this.modelLoaded == modelLoaded && ids == [] && records == map[] && stats.predictions == []
    {
      this.modelLoaded := modelLoaded;
      ids := [];
      records := map[];
      stats := new StatisticsRecord();
    }

    /** `list(prediction_history.values())`. */
    function History(): (h: seq<RecordDict>)
      reads this
      requires Indexed()
      ensures |h| == |ids| == |records|
      ensures forall i :: 0 <= i < |h| ==> h[i] == records[ids[i]]
    {
      DistinctCard(ids);
      assert records.Keys == Elems(ids);
      ValuesOf(ids, records)
    }

    /** `get_prediction`: 404 `NOT_FOUND` exactly for an unknown id, otherwise
        the stored dict as it was stored. */
    function GetPrediction(id: string, now: string): (r: Response<Lookup>)
      reads this
      ensures r.Failure? <==> id !in records
      ensures r.Failure? ==> r == ErrorReply("Prediction not found", Some("NOT_FOUND"), 404, now)
      ensures r.Ok? ==> r.body.status == "success" && r.body.data == records[id] && r.body.timestamp == now
    {
      if id !in records then ErrorReply("Prediction not found", Some("NOT_FOUND"), 404, now)
      else Ok(Lookup("success", records[id], now))
    }

    /** `predict`: an accepted request stores its dict under the new id (a
        reused id keeps its place in the dict) and adds the record to the
        statistics; a refused one changes nothing. */
    method Predict(body: Value, classify: Features -> Classification, newId: string, now: string)
      returns (reply: Response<PredictAnswer>)
      requires Valid()
      modifies this, stats
      ensures Valid() && stats == old(stats)
      ensures var a := PredictAttempt(modelLoaded, body, classify, newId, now);
        a.Refused? ==>
          reply == Failure(a.envelope, a.status) &&
          ids == old(ids) && records == old(records) && unchanged(stats)
      ensures var a := PredictAttempt(modelLoaded, body, classify, newId, now);
        a.Accepted? ==>
          reply == Ok(a.answer) &&
          records == old(records)[newId := a.dict] &&
          ids == (if newId in old(ids) then old(ids) else old(ids) + [newId]) &&
          stats.predictions == old(stats.predictions) + [a.record] &&
          stats.totalPredictions == old(stats.totalPredictions) + 1
      ensures reply.Ok? ==> GetPrediction(newId, now).Ok? && GetPrediction(newId, now).body.data == records[newId]
      ensures forall id :: id != newId ==> GetPrediction(id, now) == old(GetPrediction(id, now))
    {
      // the checks and the scoring, in the order of `PredictAttempt`
      var a := PredictAttempt(modelLoaded, body, classify, newId, now);
      if a.Refused? {
        reply := Failure(a.envelope, a.status);
        return;
      }
      Store(newId, a.dict, a.record);
      reply := Ok(a.answer);
    }

    /** What `predict` keeps of an accepted request: the dict under its id (a
        reused id keeps its place in the dict) and the record in the
        statistics. */
    method Store(id: string, d: RecordDict, rec: PredictionRecord)
      requires Valid()
      modifies this, stats
      ensures Valid() && stats == old(stats)
      ensures records == old(records)[id := d]
      ensures ids == (if id in old(ids) then old(ids) else old(ids) + [id])
      ensures stats.predictions == old(stats.predictions) + [rec]
      ensures stats.totalPredictions == old(stats.totalPredictions) + 1
    {
      StoreKeepsIndex(ids, records, id, d);
      records := records[id := d];
      if id !in ids {
        ids := ids + [id];
      }
      stats.AddPrediction(rec);
    }

    /** `prediction_status`: the summary of the statistics and the last ten
        stored dicts (fewer when fewer are stored), in insertion order. */
    function PredictionStatus(now: string): (r: StatusAnswer)
      reads this, stats
      requires Indexed()
      ensures r.summary == stats.GetSummary()
      ensures |r.recent| == Min(10, |records|)
      ensures r.recent == History()[|records| - |r.recent|..]
    {
      StatusAnswer("active", stats.GetSummary(), LastTen(History()), now)
    }

    /** `prediction_history_endpoint` on the stored dicts. */
    function PredictionHistory(limitArg: Option<int>, offsetArg: Option<int>): (r: HistoryReply)
      reads this
      requires Indexed()
      ensures r.totalRecords == |records|
      ensures forall d :: d in r.predictions ==> exists id :: id in records && records[id] == d
    {
      var values := History();
      var r := HistoryResponse(values, limitArg, offsetArg);
      PageDrawnFromHistory(values, limitArg, offsetArg);
      forall d | d in r.predictions
        ensures exists id :: id in records && records[id] == d
      {
        var i :| 0 <= i < |values| && values[i] == d;
        assert records[ids[i]] == d;
      }
      r
    }

    /** `clear_history`: reports how many dicts were stored, then empties the
        history and starts the statistics afresh. */
    method ClearHistory(now: string) returns (answer: ClearAnswer)
      modifies this
      ensures answer.clearedCount == |old(records)| && answer.status == "success"
      ensures ids == [] && records == map[] && fresh(stats) && Valid()
      ensures stats.predictions == [] && stats.totalPredictions == 0
      ensures stats.totalHighRisk == 0 && stats.totalModerateRisk == 0 && stats.totalLowRisk == 0
      ensures stats.totalDisease == 0 && stats.totalHealthy == 0
      ensures forall id :: GetPrediction(id, now).Failure?
    {
      var cleared := |records|;
      ids := [];
      records := map[];
      stats := new StatisticsRecord();
      answer := ClearAnswer("success", "Prediction history cleared", cleared, now);
    }
  }
}
