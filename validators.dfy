/** `PredictionValidator`: the ordered chain of presence, type, range and option
    checks on one prediction request, and the batch variant. */
module Validators {
  import opened Basics
  import opened Json

  /** What `validate` does: returns `(True, None)`, returns `(False, message)`,
      or lets a Python exception escape (its class name is kept). */
  datatype Verdict = Valid | Invalid(message: string) | Raised(exception: string)

  const RequiredFields: seq<string> :=
    ["age", "gender", "height", "weight", "ap_hi", "ap_lo", "cholesterol", "gluc", "smoke", "alco", "active"]

  const AgeMin: real := 1.0
  const AgeMax: real := 120.0
  const HeightMin: real := 100.0
  const HeightMax: real := 250.0
  const WeightMin: real := 20.0
  const WeightMax: real := 300.0
  const BpMin: real := 40.0
  const BpMax: real := 300.0
  const GenderOptions: set<int> := {1, 2}
  const LevelOptions: set<int> := {0, 1, 2, 3}
  const FlagOptions: set<int> := {0, 1}

  /** Every required field is a key of `m`. */
  predicate HasRequired(m: map<string, Value>)
  {
    && "age" in m && "gender" in m && "height" in m && "weight" in m
    && "ap_hi" in m && "ap_lo" in m && "cholesterol" in m && "gluc" in m
    && "smoke" in m && "alco" in m && "active" in m
  }

  /** Holding each entry of `RequiredFields` is holding every required field. */
  lemma HasRequiredIndexed(m: map<string, Value>)
    ensures HasRequired(m) <==> forall j :: 0 <= j < |RequiredFields| ==> RequiredFields[j] in m
  {
    if forall j :: 0 <= j < |RequiredFields| ==> RequiredFields[j] in m {
      assert RequiredFields[0] in m && RequiredFields[1] in m && RequiredFields[2] in m;
      assert RequiredFields[3] in m && RequiredFields[4] in m && RequiredFields[5] in m;
      assert RequiredFields[6] in m && RequiredFields[7] in m && RequiredFields[8] in m;
      assert RequiredFields[9] in m && RequiredFields[10] in m;
    }
  }

  /** `lo <= v <= hi` for a value already known to be a number. */
  predicate InRange(v: Value, lo: real, hi: real)
    requires IsNumber(v)
  {
    lo <= NumberOf(v) <= hi
  }

  /** The presence loop: the first required field (from index `k` on) that
      `data` does not contain, or the `TypeError` of `in` on a non-container. */
  function FirstMissing(data: Value, k: nat): (r: Verdict)
    requires k <= |RequiredFields|
    decreases |RequiredFields| - k
  {
    if k == |RequiredFields| then Valid
    else match Contains(data, RequiredFields[k])
      case NotIterable => Raised("TypeError")
      case Member(present) =>
        if !present then Invalid("Missing required field: " + RequiredFields[k])
        else FirstMissing(data, k + 1)
  }

  /** The type, range and option checks of `validate`, in code order, on a
      dict that holds every required field. */
  function CheckFields(m: map<string, Value>): Verdict
    requires HasRequired(m)
  {
    var measures := CheckMeasures(m);
    if measures != Valid then measures else CheckOptions(m)
  }

  /** The checks on age, gender, height, weight and the two pressures. */
  function CheckMeasures(m: map<string, Value>): Verdict
    requires HasRequired(m)
  {
    var age, gender, height, weight := m["age"], m["gender"], m["height"], m["weight"];
    var apHi, apLo := m["ap_hi"], m["ap_lo"];
    if !IsNumber(age) then Invalid("Age must be a number")
    else if !InRange(age, AgeMin, AgeMax) then Invalid("Age must be between 1 and 120 years")
    else if !InOptions(gender, GenderOptions) then Invalid("Gender must be (1, 2)")
    else if !IsNumber(height) then Invalid("Height must be a number")
    else if !InRange(height, HeightMin, HeightMax) then Invalid("Height must be between 100 and 250 cm")
    else if !IsNumber(weight) then Invalid("Weight must be a number")
    else if !InRange(weight, WeightMin, WeightMax) then Invalid("Weight must be between 20 and 300 kg")
    else if !IsNumber(apHi) || !IsNumber(apLo) then Invalid("Blood pressure values must be numbers")
    else if !InRange(apHi, BpMin, BpMax) then Invalid("Systolic BP must be between 40 and 300")
    else if !InRange(apLo, BpMin, BpMax) then Invalid("Diastolic BP must be between 40 and 300")
    else if NumberOf(apLo) >= NumberOf(apHi) then Invalid("Diastolic BP must be less than Systolic BP")
    else Valid
  }

  /** The checks on the cholesterol, glucose and lifestyle options. */
  function CheckOptions(m: map<string, Value>): Verdict
    requires HasRequired(m)
  {
    if !InOptions(m["cholesterol"], LevelOptions) then Invalid("Cholesterol must be one of (0, 1, 2, 3)")
    else if !InOptions(m["gluc"], LevelOptions) then Invalid("Glucose must be one of (0, 1, 2, 3)")
    else if !InOptions(m["smoke"], FlagOptions) then Invalid("Smoke must be 0 or 1")
    else if !InOptions(m["alco"], FlagOptions) then Invalid("Alco must be 0 or 1")
    else if !InOptions(m["active"], FlagOptions) then Invalid("Active must be 0 or 1")
    else Valid
  }

  lemma {:induction false} FirstMissingPresent(data: Value, k: nat)
    requires k <= |RequiredFields|
    requires data.Object? && FirstMissing(data, k) == Valid
    ensures forall j :: k <= j < |RequiredFields| ==> RequiredFields[j] in data.fields
    decreases |RequiredFields| - k
  {
    if k < |RequiredFields| {
      FirstMissingPresent(data, k + 1);
    }
  }

  /** `PredictionValidator.validate(data)`. After the presence loop, `data.get`
      exists only on a dict: a list or string body that passes the loop raises
      `AttributeError`. */
  function Validate(data: Value): Verdict
  {
    match FirstMissing(data, 0)
    case Valid =>
      if data.Object? then
        FirstMissingPresent(data, 0);
        HasRequiredIndexed(data.fields);
        CheckFields(data.fields)
      else Raised("AttributeError")
    case other => other
  }

  // ---------------------------------------------------------------------------
  // Reference definition of an acceptable request, written as one conjunction
  // ---------------------------------------------------------------------------

  predicate Acceptable(m: map<string, Value>)
  {
    HasRequired(m) && MeasuresAcceptable(m) && OptionsAcceptable(m)
  }

  predicate MeasuresAcceptable(m: map<string, Value>)
    requires HasRequired(m)
  {
    && IsNumber(m["age"]) && AgeMin <= NumberOf(m["age"]) <= AgeMax
    && InOptions(m["gender"], GenderOptions)
    && IsNumber(m["height"]) && HeightMin <= NumberOf(m["height"]) <= HeightMax
    && IsNumber(m["weight"]) && WeightMin <= NumberOf(m["weight"]) <= WeightMax
    && IsNumber(m["ap_hi"]) && BpMin <= NumberOf(m["ap_hi"]) <= BpMax
    && IsNumber(m["ap_lo"]) && BpMin <= NumberOf(m["ap_lo"]) <= BpMax
    && NumberOf(m["ap_lo"]) < NumberOf(m["ap_hi"])
  }

  predicate OptionsAcceptable(m: map<string, Value>)
    requires HasRequired(m)
  {
    && InOptions(m["cholesterol"], LevelOptions)
    && InOptions(m["gluc"], LevelOptions)
    && InOptions(m["smoke"], FlagOptions)
    && InOptions(m["alco"], FlagOptions)
    && InOptions(m["active"], FlagOptions)
  }

  lemma {:induction false} FirstMissingAllPresent(data: Value, k: nat)
    requires k <= |RequiredFields|
    requires data.Object?
    requires forall j :: k <= j < |RequiredFields| ==> RequiredFields[j] in data.fields
    ensures FirstMissing(data, k) == Valid
    decreases |RequiredFields| - k
  {
    if k < |RequiredFields| {
      FirstMissingAllPresent(data, k + 1);
    }
  }

  /** On a dict holding every field, the chain of checks passes exactly when
      the conjunction holds. */
  lemma CheckFieldsIff(m: map<string, Value>)
    requires HasRequired(m)
    ensures CheckFields(m) == Valid <==> Acceptable(m)
  {
    CheckMeasuresIff(m);
    CheckOptionsIff(m);
  }

  lemma CheckMeasuresIff(m: map<string, Value>)
    requires HasRequired(m)
    ensures CheckMeasures(m) == Valid <==> MeasuresAcceptable(m)
  {
  }

  lemma CheckOptionsIff(m: map<string, Value>)
    requires HasRequired(m)
    ensures CheckOptions(m) == Valid <==> OptionsAcceptable(m)
  {
  }

  /** `validate` returns `(True, None)` exactly for a dict that passes every check. */
  lemma ValidIffAcceptable(data: Value)
    ensures Validate(data) == Valid <==> data.Object? && Acceptable(data.fields)
  {
    if data.Object? {
      HasRequiredIndexed(data.fields);
      if Acceptable(data.fields) {
        FirstMissingAllPresent(data, 0);
      }
      if FirstMissing(data, 0) == Valid {
        FirstMissingPresent(data, 0);
        CheckFieldsIff(data.fields);
      }
    }
  }

  /** The first required field missing from a dict is reported, whatever the
      other fields hold: no type or range check runs before the presence loop. */
  lemma {:induction false} MissingFieldReportedFirst(m: map<string, Value>, k: nat)
    requires k < |RequiredFields|
    requires RequiredFields[k] !in m
    requires forall j :: 0 <= j < k ==> RequiredFields[j] in m
    ensures Validate(Object(m)) == Invalid("Missing required field: " + RequiredFields[k])
  {
    MissingFrom(m, 0, k);
  }

  lemma {:induction false} MissingFrom(m: map<string, Value>, i: nat, k: nat)
    requires i <= k < |RequiredFields|
    requires RequiredFields[k] !in m
    requires forall j :: i <= j < k ==> RequiredFields[j] in m
    ensures FirstMissing(Object(m), i) == Invalid("Missing required field: " + RequiredFields[k])
    decreases k - i
  {
    if i < k {
      MissingFrom(m, i + 1, k);
    }
  }

  /** An accepted request has a numeric age in [1, 120], height in [100, 250],
      weight in [20, 300], both pressures in [40, 300] (all ends included) and
      diastolic below systolic. */
  lemma AcceptedRanges(m: map<string, Value>)
    requires Validate(Object(m)) == Valid
    ensures Acceptable(m)
    ensures IsNumber(m["age"]) && 1.0 <= NumberOf(m["age"]) <= 120.0
    ensures IsNumber(m["height"]) && 100.0 <= NumberOf(m["height"]) <= 250.0
    ensures IsNumber(m["weight"]) && 20.0 <= NumberOf(m["weight"]) <= 300.0
    ensures IsNumber(m["ap_hi"]) && 40.0 <= NumberOf(m["ap_hi"]) <= 300.0
    ensures IsNumber(m["ap_lo"]) && 40.0 <= NumberOf(m["ap_lo"]) < NumberOf(m["ap_hi"])
  {
    ValidIffAcceptable(Object(m));
  }

  /** Each option field of an accepted request holds one of its options. */
  lemma AcceptedOptions(m: map<string, Value>)
    requires Validate(Object(m)) == Valid
    ensures Acceptable(m)
    ensures NumberOf(m["gender"]) in {1.0, 2.0}
    ensures NumberOf(m["cholesterol"]) in {0.0, 1.0, 2.0, 3.0} && NumberOf(m["gluc"]) in {0.0, 1.0, 2.0, 3.0}
    ensures NumberOf(m["smoke"]) in {0.0, 1.0} && NumberOf(m["alco"]) in {0.0, 1.0} && NumberOf(m["active"]) in {0.0, 1.0}
  {
    ValidIffAcceptable(Object(m));
    AcceptableOptions(m);
  }

  lemma AcceptableOptions(m: map<string, Value>)
    requires Acceptable(m)
    ensures NumberOf(m["gender"]) in {1.0, 2.0}
    ensures NumberOf(m["cholesterol"]) in {0.0, 1.0, 2.0, 3.0} && NumberOf(m["gluc"]) in {0.0, 1.0, 2.0, 3.0}
    ensures NumberOf(m["smoke"]) in {0.0, 1.0} && NumberOf(m["alco"]) in {0.0, 1.0} && NumberOf(m["active"]) in {0.0, 1.0}
  {
  }

  /** Diastolic pressure at or above systolic is refused even when both are in
      range and every earlier check passed. */
  lemma DiastolicNotBelowSystolicRejected(m: map<string, Value>)
    requires HasRequired(m)
    requires IsNumber(m["age"]) && InRange(m["age"], AgeMin, AgeMax) && InOptions(m["gender"], GenderOptions)
    requires IsNumber(m["height"]) && InRange(m["height"], HeightMin, HeightMax)
    requires IsNumber(m["weight"]) && InRange(m["weight"], WeightMin, WeightMax)
    requires IsNumber(m["ap_hi"]) && IsNumber(m["ap_lo"])
    requires InRange(m["ap_hi"], BpMin, BpMax) && InRange(m["ap_lo"], BpMin, BpMax)
    requires NumberOf(m["ap_lo"]) >= NumberOf(m["ap_hi"])
    ensures Validate(Object(m)) == Invalid("Diastolic BP must be less than Systolic BP")
  {
    HasRequiredIndexed(m);
    FirstMissingAllPresent(Object(m), 0);
  }

  // ---------------------------------------------------------------------------
  // validate_batch
  // ---------------------------------------------------------------------------

  const MaxBatch: nat := 1000

  /** The `errors` list of `validate_batch` after the records in `items`, or the
      exception that escaped from the first record that raised. */
  datatype Collected = Errors(errors: seq<string>) | Aborted(exception: string)

  function RecordError(index: nat, message: string): string
  {
    "Record " + IntToString(index) + ": " + message
  }

  /** What `validate` says of each record, in order. */
  function VerdictsOf(items: seq<Value>): (vs: seq<Verdict>)
    ensures |vs| == |items|
    ensures forall i :: 0 <= i < |items| ==> vs[i] == Validate(items[i])
  {
    seq(|items|, i requires 0 <= i < |items| => Validate(items[i]))
  }

  /** One turn of the loop of `validate_batch`: record `index` rejected with
      `msg` adds `"Record index: msg"`, and an exception ends the loop. */
  function Step(c: Collected, index: nat, v: Verdict): Collected
  {
    match c
    case Aborted(e) => Aborted(e)
    case Errors(errs) =>
      match v
      case Raised(e) => Aborted(e)
      case Invalid(msg) => Errors(errs + [RecordError(index, msg)])
      case Valid => Errors(errs)
  }

  /** The loop of `validate_batch` over the verdicts of the records. */
  function Collect(vs: seq<Verdict>): Collected
  {
    if vs == [] then Errors([])
    else Step(Collect(vs[..|vs| - 1]), |vs| - 1, vs[|vs| - 1])
  }

  lemma CollectPrefix(vs: seq<Verdict>, k: nat)
    requires k < |vs|
    ensures Collect(vs[..k + 1]) == Step(Collect(vs[..k]), k, vs[k])
  {
    assert vs[..k + 1][..k] == vs[..k];
  }

  function CollectErrors(items: seq<Value>): Collected
  {
    Collect(VerdictsOf(items))
  }

  /** What `validate_batch(predictions)` returns (or raises). */
  function BatchVerdict(predictions: Value): Verdict
  {
    if !predictions.Array? then Invalid("Predictions must be a list")
    else if |predictions.items| == 0 then Invalid("Predictions list cannot be empty")
    else if |predictions.items| > MaxBatch then Invalid("Maximum 1000 predictions per batch")
    else match CollectErrors(predictions.items)
      case Aborted(e) => Raised(e)
      case Errors(errs) =>
        if errs == [] then Valid else Invalid(Join("; ", errs[..Min(3, |errs|)]))
  }

  /** `validate_batch`. */
  method ValidateBatch(predictions: Value) returns (r: Verdict)
    ensures r == BatchVerdict(predictions)
  {
    if !predictions.Array? {
      return Invalid("Predictions must be a list");
    }
    var items := predictions.items;
    if |items| == 0 {
      return Invalid("Predictions list cannot be empty");
    }
    if |items| > MaxBatch {
      return Invalid("Maximum 1000 predictions per batch");
    }
    var collected := CollectBatchErrors(items);
    match collected {
      case Aborted(e) =>
        return Raised(e);
      case Errors(errors) =>
        if errors != [] {
          return Invalid(Join("; ", errors[..Min(3, |errors|)]));
        }
        return Valid;
    }
  }

  /** The loop of `validate_batch` over the records: the error list, or the
      exception the first raising record let escape. */
  method CollectBatchErrors(items: seq<Value>) returns (c: Collected)
    ensures c == CollectErrors(items)
  {
    ghost var vs := VerdictsOf(items);
    var errors: seq<string> := [];
    var idx := 0;
    while idx < |items|
      invariant 0 <= idx <= |items|
      invariant Collect(vs[..idx]) == Errors(errors)
    {
      var v := Validate(items[idx]);
      CollectPrefix(vs, idx);
      assert Collect(vs[..idx + 1]) == Step(Errors(errors), idx, v);
      if v.Raised? {
        AbortedStaysAborted(vs, idx + 1, v.exception);
        return Aborted(v.exception);
      }
      if v.Invalid? {
        errors := errors + [RecordError(idx, v.message)];
      }
      idx := idx + 1;
    }
    assert vs[..idx] == vs;
    return Errors(errors);
  }

  /** Once a record raised, the whole batch raises the same exception. */
  lemma {:induction false} AbortedStaysAborted(vs: seq<Verdict>, k: nat, e: string)
    requires k <= |vs|
    requires Collect(vs[..k]) == Aborted(e)
    ensures Collect(vs) == Aborted(e)
    decreases |vs| - k
  {
    if k < |vs| {
      assert vs[..k + 1][..k] == vs[..k];
      AbortedStaysAborted(vs, k + 1, e);
    } else {
      assert vs[..k] == vs;
    }
  }

  lemma {:induction false} ErrorsOnlyGrow(vs: seq<Verdict>, k: nat)
    requires k <= |vs|
    requires Collect(vs[..k]) != Errors([])
    ensures Collect(vs) != Errors([])
    decreases |vs| - k
  {
    if k < |vs| {
      assert vs[..k + 1][..k] == vs[..k];
      ErrorsOnlyGrow(vs, k + 1);
    } else {
      assert vs[..k] == vs;
    }
  }

  lemma {:induction false} NoErrorsIffAllValidVerdicts(vs: seq<Verdict>)
    ensures Collect(vs) == Errors([]) <==> forall i :: 0 <= i < |vs| ==> vs[i] == Valid
  {
    if vs != [] {
      var last := |vs| - 1;
      NoErrorsIffAllValidVerdicts(vs[..last]);
      assert forall i :: 0 <= i < last ==> vs[..last][i] == vs[i];
      match Collect(vs[..last])
      case Aborted(e) =>
      case Errors(errs) =>
        if errs != [] {
          ErrorsOnlyGrow(vs, last);
        }
    }
  }

  /** The error list is empty, with no exception, exactly when every record is
      valid. */
  lemma NoErrorsIffAllValid(items: seq<Value>)
    ensures CollectErrors(items) == Errors([]) <==> forall i :: 0 <= i < |items| ==> Validate(items[i]) == Valid
  {
    NoErrorsIffAllValidVerdicts(VerdictsOf(items));
  }

  /** A body that is not a list, an empty list and a list of more than 1000
      records are refused on their size alone: the verdict is the same whatever
      the records hold. */
  lemma SizeChecksComeFirst(predictions: Value, others: seq<Value>)
    ensures !predictions.Array? ==> BatchVerdict(predictions) == Invalid("Predictions must be a list")
    ensures (predictions.Array? && (|predictions.items| == 0 || |predictions.items| > MaxBatch)
             && |others| == |predictions.items|) ==>
      BatchVerdict(predictions) == BatchVerdict(Array(others)) &&
      BatchVerdict(predictions) ==
        Invalid(if |others| == 0 then "Predictions list cannot be empty" else "Maximum 1000 predictions per batch")
  {
  }

  /** `validate_batch` accepts exactly a list of 1 to 1000 records each of which
      `validate` accepts. */
  lemma BatchValidIffAllValid(predictions: Value)
    ensures BatchVerdict(predictions) == Valid <==>
      && predictions.Array?
      && 1 <= |predictions.items| <= MaxBatch
      && forall i :: 0 <= i < |predictions.items| ==> Validate(predictions.items[i]) == Valid
  {
    if predictions.Array? {
      NoErrorsIffAllValid(predictions.items);
    }
  }

  /** Positions of the rejections in a list of verdicts, in increasing order. */
  function InvalidPositions(vs: seq<Verdict>): (r: seq<nat>)
    ensures forall j :: 0 <= j < |r| ==> r[j] < |vs| && vs[r[j]].Invalid?
    ensures forall j, k :: 0 <= j < k < |r| ==> r[j] < r[k]
    ensures forall i :: 0 <= i < |vs| && vs[i].Invalid? ==> i in r
  {
    if vs == [] then []
    else
      var last := |vs| - 1;
      var prev := InvalidPositions(vs[..last]);
      assert forall i :: 0 <= i < last ==> vs[..last][i] == vs[i];
      prev + (if vs[last].Invalid? then [last] else [])
  }

  /** Positions of the records `validate` rejects, in increasing order. */
  function InvalidIndices(items: seq<Value>): (r: seq<nat>)
    ensures forall j :: 0 <= j < |r| ==> r[j] < |items| && Validate(items[r[j]]).Invalid?
    ensures forall j, k :: 0 <= j < k < |r| ==> r[j] < r[k]
    ensures forall i :: 0 <= i < |items| && Validate(items[i]).Invalid? ==> i in r
  {
    InvalidPositions(VerdictsOf(items))
  }

  lemma {:induction false} ErrorsFollowRejections(vs: seq<Verdict>)
    requires Collect(vs).Errors?
    ensures |Collect(vs).errors| == |InvalidPositions(vs)|
    ensures forall j :: 0 <= j < |InvalidPositions(vs)| ==>
      Collect(vs).errors[j] == RecordError(InvalidPositions(vs)[j], vs[InvalidPositions(vs)[j]].message)
  {
    if vs != [] {
      var last := |vs| - 1;
      ErrorsFollowRejections(vs[..last]);
      assert forall i :: 0 <= i < last ==> vs[..last][i] == vs[i];
    }
  }

  /** When no record raised, the error list has exactly one `"Record i: ..."`
      entry per rejected record, in index order. */
  lemma ErrorsFollowInvalidRecords(items: seq<Value>)
    requires CollectErrors(items).Errors?
    ensures |CollectErrors(items).errors| == |InvalidIndices(items)|
    ensures forall j :: 0 <= j < |InvalidIndices(items)| ==>
      CollectErrors(items).errors[j] == RecordError(InvalidIndices(items)[j], Validate(items[InvalidIndices(items)[j]]).message)
  {
    ErrorsFollowRejections(VerdictsOf(items));
  }

  /** A well-sized batch in which no record raised and some record was rejected
      is refused with the first three record errors (at most) joined by "; ";
      `ErrorsFollowInvalidRecords` says which records those are. */
  lemma BatchMessageJoinsFirstThree(predictions: Value)
    requires predictions.Array? && 1 <= |predictions.items| <= MaxBatch
    requires CollectErrors(predictions.items).Errors?
    requires InvalidIndices(predictions.items) != []
    ensures |CollectErrors(predictions.items).errors| == |InvalidIndices(predictions.items)|
    ensures BatchVerdict(predictions) ==
      Invalid(Join("; ", CollectErrors(predictions.items).errors[..Min(3, |InvalidIndices(predictions.items)|)]))
  {
    ErrorsFollowInvalidRecords(predictions.items);
  }
}
