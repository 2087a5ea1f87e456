/** The prediction page of the browser client (`static/predict.js`): the form
    checks run before a request is sent, the list of predictions kept in the
    browser's local storage (most recent first, one entry per id, at most 100),
    the separate list of saved predictions (at most 50), and the tier and
    recommendation rules of the result panel. Local storage is modelled as
    the sequences it holds; its JSON encoding is not modelled. */
module PredictPage {
  import opened Basics
  import Json
  import Utils
  import Validators

  // ---------------------------------------------------------------------------
  // Form checks
  // ---------------------------------------------------------------------------

  /** The form fields after `parseInt`/`parseFloat`; `None` is `NaN`. */
  datatype FormFields = FormFields(age: Option<int>, gender: Option<int>, height: Option<real>, weight: Option<real>,
                                   apHi: Option<int>, apLo: Option<int>, cholesterol: Option<int>, gluc: Option<int>)

  /** The checks of the submit handler, in code order: the message of the
      first one that fails, or `None` when the request is sent. */
  function FormError(f: FormFields): (r: Option<string>)
    ensures f.age.None? || f.age.value < 1 || f.age.value > 120 ==> r == Some("Age must be a number between 1 and 120")
    ensures r.None? <==>
      && f.age.Some? && 1 <= f.age.value <= 120
      && f.gender.Some? && f.gender.value in {1, 2}
      && f.height.Some? && f.weight.Some? && f.apHi.Some? && f.apLo.Some?
      && f.cholesterol.Some? && f.gluc.Some?
  {
    if f.age.None? || f.age.value < 1 || f.age.value > 120 then Some("Age must be a number between 1 and 120")
    else if f.gender.None? || (f.gender.value != 1 && f.gender.value != 2) then Some("Please select a valid gender")
    else if f.height.None? || f.weight.None? || f.apHi.None? || f.apLo.None? then
      Some("Please fill in all required health information")
    else if f.cholesterol.None? || f.gluc.None? then Some("Please select valid cholesterol and glucose levels")
    else None
  }

  /** A form the browser sends has an age and a gender the server's validator
      accepts as well. */
  lemma FormAgreesWithServerOnAgeAndGender(f: FormFields)
    requires FormError(f).None?
    ensures Validators.InRange(Json.Int(f.age.value), Validators.AgeMin, Validators.AgeMax)
    ensures Json.InOptions(Json.Int(f.gender.value), Validators.GenderOptions)
  {
    assert Json.NumberOf(Json.Int(f.gender.value)).Floor == f.gender.value;
  }

  // ---------------------------------------------------------------------------
  // Records kept in the browser
  // ---------------------------------------------------------------------------

  /** The optional patient fields; an empty string is a missing one. */
  datatype Patient = Patient(patientName: string, fatherName: string, bloodGroup: string, phoneNumber: string,
                             altPhoneNumber: string, doctorName: string)

  /** The request the page sent. */
  datatype InputData = InputData(age: int, gender: int, height: real, weight: real, apHi: int, apLo: int,
                                 cholesterol: int, gluc: int, smoke: int, alco: int, active: int, patient: Patient)

  /** The part of the server's reply the page keeps; an empty id is a missing one. */
  datatype ServerPrediction = ServerPrediction(predictionId: string, prediction: int, hasDisease: bool,
                                               riskPercentage: real, riskLevel: string, color: string,
                                               ageYears: int)

  /** An entry of the `cardio_predictions` list. */
  datatype StoredPrediction = StoredPrediction(predictionId: string, prediction: ServerPrediction, patient: Patient,
                                               healthData: InputData, savedAt: string, timestamp: int)

  /** An entry of the `savedPredictions` list. */
  datatype SavedPrediction = SavedPrediction(data: ServerPrediction, savedAt: string, notes: string)

  const MaxStored: nat := 100
  const MaxSaved: nat := 50

  /** Every id occurs at most once. */
  predicate UniqueIds(s: seq<StoredPrediction>)
  {
    forall i, j :: 0 <= i < j < |s| ==> s[i].predictionId != s[j].predictionId
  }

  /** `list.filter(p => p.prediction_id !== id)`. */
  function Without(s: seq<StoredPrediction>, id: string): (r: seq<StoredPrediction>)
    ensures |r| <= |s|
  {
    if s == [] then []
    else (if s[0].predictionId != id then [s[0]] else []) + Without(s[1..], id)
  }

  /** The filter keeps exactly the records that do not carry the id. */
  lemma {:induction false} WithoutMembers(s: seq<StoredPrediction>, id: string)
    ensures forall x :: x in Without(s, id) <==> x in s && x.predictionId != id
  {
    if s != [] {
      WithoutMembers(s[1..], id);
      assert s == [s[0]] + s[1..];
    }
  }

  /** No record the filter keeps carries the id. */
  lemma WithoutOmitsId(s: seq<StoredPrediction>, id: string)
    ensures forall i :: 0 <= i < |Without(s, id)| ==> Without(s, id)[i].predictionId != id
  {
    WithoutMembers(s, id);
    var w := Without(s, id);
    assert forall i :: 0 <= i < |w| ==> w[i] in w;
  }

  /** The filter distributes over concatenation, so the records it keeps stay in
      their order. */
  lemma {:induction false} WithoutAppend(a: seq<StoredPrediction>, b: seq<StoredPrediction>, id: string)
    ensures Without(a + b, id) == Without(a, id) + Without(b, id)
  {
    if a != [] {
      WithoutAppend(a[1..], b, id);
      var ab := a + b;
      assert ab[0] == a[0] && ab[1..] == a[1..] + b;
      var head := if a[0].predictionId != id then [a[0]] else [];
      assert Without(ab, id) == head + Without(a[1..] + b, id);
      assert Without(a, id) == head + Without(a[1..], id);
    } else {
      assert a + b == b;
    }
  }

  /** Without a record carrying the id, the filter changes nothing. */
  lemma {:induction false} WithoutAbsent(s: seq<StoredPrediction>, id: string)
    requires forall i :: 0 <= i < |s| ==> s[i].predictionId != id
    ensures Without(s, id) == s
  {
    if s != [] {
      WithoutAbsent(s[1..], id);
    }
  }

  lemma {:induction false} WithoutKeepsUnique(s: seq<StoredPrediction>, id: string)
    ensures UniqueIds(s) ==> UniqueIds(Without(s, id))
  {
    if s != [] && UniqueIds(s) {
      var tail := s[1..];
      assert UniqueIds(tail) by {
        forall i, j | 0 <= i < j < |tail|
          ensures tail[i].predictionId != tail[j].predictionId
        {
          assert tail[i] == s[i + 1] && tail[j] == s[j + 1];
        }
      }
      WithoutKeepsUnique(tail, id);
      var rest := Without(tail, id);
      if s[0].predictionId != id {
        assert Without(s, id) == [s[0]] + rest;
        WithoutMembers(tail, id);
        forall i | 0 <= i < |rest|
          ensures rest[i].predictionId != s[0].predictionId
        {
          assert rest[i] in rest;
          var k :| 0 <= k < |tail| && tail[k] == rest[i];
          assert s[k + 1] == rest[i];
        }
        PrependKeepsUnique(s[0], rest, |rest| + 1);
        assert ([s[0]] + rest)[..|rest| + 1] == [s[0]] + rest;
      } else {
        assert Without(s, id) == rest;
      }
    }
  }

  /** A record whose id the others do not carry can go in front of them, and
      any prefix of the result has unique ids too. */
  lemma PrependKeepsUnique(x: StoredPrediction, t: seq<StoredPrediction>, k: nat)
    requires k <= |t| + 1
    ensures UniqueIds(t) && (forall i :: 0 <= i < |t| ==> t[i].predictionId != x.predictionId) ==>
      UniqueIds(([x] + t)[..k])
  {
    if UniqueIds(t) && (forall i :: 0 <= i < |t| ==> t[i].predictionId != x.predictionId) {
      var r := ([x] + t)[..k];
      forall i, j | 0 <= i < j < |r|
        ensures r[i].predictionId != r[j].predictionId
      {
        assert r[j] == t[j - 1];
        if i > 0 {
          assert r[i] == t[i - 1];
        }
      }
    }
  }

  /** The id `storePredictionData` stores under: the reply's own, or, when it is
      missing, `pred_<milliseconds>_<random suffix>`. */
  function FilledId(id: string, nowMillis: nat, randomPart: string): (r: string)
    ensures id != "" ==> r == id
    ensures id == "" ==> StartsWith(r, "pred_") && |r| > |"pred_"|
  {
    if id != "" then id else "pred_" + NatToString(nowMillis) + "_" + randomPart
  }

  /** `inputData.patientName || 'Unknown Patient'` and the other defaults. */
  function PatientOf(p: Patient): (r: Patient)
    ensures r.patientName != ""
    ensures p.patientName != "" ==> r == p
  {
    p.(patientName := if p.patientName == "" then "Unknown Patient" else p.patientName)
  }

  /** The list after `storePredictionData` put `full` in front. */
  function StoredList(list: seq<StoredPrediction>, full: StoredPrediction): (r: seq<StoredPrediction>)
    ensures |r| == Min(MaxStored, 1 + |Without(list, full.predictionId)|)
    ensures 1 <= |r| <= MaxStored && r[0] == full
    ensures forall i :: 1 <= i < |r| ==> r[i].predictionId != full.predictionId
    ensures r[1..] == Without(list, full.predictionId)[..|r| - 1]
    ensures UniqueIds(list) ==> UniqueIds(r)
  {
    var others := Without(list, full.predictionId);
    WithoutOmitsId(list, full.predictionId);
    WithoutKeepsUnique(list, full.predictionId);
    PrependKeepsUnique(full, others, Min(MaxStored, 1 + |others|));
    InFront(full, others, MaxStored)
  }

  /** `x` followed by as much of `t` as fits in `n` places. */
  function InFront<T>(x: T, t: seq<T>, n: nat): (r: seq<T>)
    requires n >= 1
    ensures |r| == Min(n, 1 + |t|) && r == ([x] + t)[..|r|]
    ensures r[0] == x && r[1..] == t[..|r| - 1]
    ensures forall i :: 1 <= i < |r| ==> r[i] == t[i - 1]
  {
    var r := ([x] + t)[..Min(n, 1 + |t|)];
    assert r[1..] == t[..|r| - 1];
    r
  }

  /** `savedPredictions.some(p => p.prediction_id === predictionId)`. */
  predicate IsSaved(saved: seq<SavedPrediction>, predictionId: string)
  {
    exists i :: 0 <= i < |saved| && saved[i].data.predictionId == predictionId
  }

  /** The saved list after `savePredictionLocalStorage`: untouched when the id
      is already saved; otherwise the new entry first and at most 50 in all. */
  function SavedList(saved: seq<SavedPrediction>, predictionId: string, entry: SavedPrediction): (r: seq<SavedPrediction>)
    ensures IsSaved(saved, predictionId) ==> r == saved
    ensures !IsSaved(saved, predictionId) ==>
      |r| == Min(MaxSaved, 1 + |saved|) && 1 <= |r| <= MaxSaved && r[0] == entry && r[1..] == saved[..|r| - 1]
  {
    if IsSaved(saved, predictionId) then saved
    else
      var all := [entry] + saved;
      var r := all[..Min(MaxSaved, |all|)];
      assert r[1..] == saved[..|r| - 1];
      r
  }

  /** The browser's local storage: the `cardio_predictions` and
      `savedPredictions` lists. */
  class BrowserStorage {
    var predictions: seq<StoredPrediction>
    var saved: seq<SavedPrediction>

    constructor ()
      ensures predictions == [] && saved == []
    {
      predictions := [];
      saved := [];
    }

    /** `storePredictionData`: fills a missing id, removes every earlier
        record with that id, puts the new record first and keeps the first
        100. The clock reading and the random suffix are parameters. */
    method StorePredictionData(prediction: ServerPrediction, input: InputData, nowMillis: nat,
                               randomPart: string, savedAt: string)
      modifies this
      ensures var id := FilledId(prediction.predictionId, nowMillis, randomPart);
        predictions == StoredList(old(predictions),
                                  StoredPrediction(id, prediction.(predictionId := id), PatientOf(input.patient),
                                                   input, savedAt, nowMillis))
      ensures saved == old(saved)
    {
      var id := FilledId(prediction.predictionId, nowMillis, randomPart);
      var p := prediction.(predictionId := id);
      var full := StoredPrediction(id, p, PatientOf(input.patient), input, savedAt, nowMillis);
      var all := Without(predictions, p.predictionId);
      all := [full] + all;
      if |all| > MaxStored {
        all := all[..MaxStored];
      }
      assert all == ([full] + Without(old(predictions), id))[..Min(MaxStored, 1 + |Without(old(predictions), id)|)];
      predictions := all;
    }

    /** `savePredictionLocalStorage`; `added` is false when the id was already
        saved (the "already saved" alert). */
    method SavePredictionLocalStorage(predictionId: string, data: ServerPrediction, savedAt: string)
      returns (added: bool)
      modifies this
      ensures added <==> !IsSaved(old(saved), predictionId)
      ensures saved == SavedList(old(saved), predictionId, SavedPrediction(data, savedAt, ""))
      ensures predictions == old(predictions)
    {
      if IsSaved(saved, predictionId) {
        return false;
      }
      var entry := SavedPrediction(data, savedAt, "");
      var all := [entry] + saved;
      saved := all[..Min(MaxSaved, |all|)];
      added := true;
    }
  }

  // ---------------------------------------------------------------------------
  // The result panel
  // ---------------------------------------------------------------------------

  /** `getRiskClass`. */
  function GetRiskClass(percentage: real): string
  {
    if percentage < 30.0 then "low-risk"
    else if percentage < 60.0 then "moderate-risk"
    else "high-risk"
  }

  function ClassOf(t: Utils.RiskTier): string
  {
    match t
    case Low => "low-risk"
    case Moderate => "moderate-risk"
    case High => "high-risk"
  }

  /** The page's risk class is the server's risk tier. */
  lemma RiskClassFollowsTier(percentage: real)
    ensures GetRiskClass(percentage) == ClassOf(Utils.TierOf(percentage))
    ensures GetRiskClass(percentage) == "low-risk" <==> percentage < 30.0
    ensures GetRiskClass(percentage) == "high-risk" <==> percentage >= 60.0
  {
  }

  /** The lines `getRecommendations` can produce: three per tier, then the
      extra lines, named rather than quoted. */
  datatype Recommendation =
    | TierLine(tier: Utils.RiskTier, line: nat)
    | BloodPressure
    | Cholesterol
    | Smoking
    | Inactivity
    | WeightManagement

  /** The position of an extra line in the code. */
  function ExtraRank(r: Recommendation): nat
  {
    match r
    case TierLine(_, _) => 0
    case BloodPressure => 1
    case Cholesterol => 2
    case Smoking => 3
    case Inactivity => 4
    case WeightManagement => 5
  }

  /** `x.toFixed(2)` read back as a number, in hundredths: the integer `n`
      nearest to `100 * x`, the larger one on a tie. */
  function Hundredths(x: real): (n: int)
    ensures n as real - 0.5 <= 100.0 * x < n as real + 0.5
  {
    (100.0 * x + 0.5).Floor
  }

  /** `weight / (height / 100) ** 2` on exact reals. */
  function Bmi(weight: real, height: real): real
    requires height != 0.0
  {
    weight * 10000.0 / (height * height)
  }

  /** `(weight / (height / 100) ** 2).toFixed(2) > 25`: the BMI is rounded to
      two places before the comparison, and JavaScript's division by zero gives
      `Infinity`, whose text compares above 25. The weight is above 80 wherever
      this is asked. */
  predicate BmiAbove25(weight: real, height: real)
  {
    height == 0.0 || Hundredths(Bmi(weight, height)) > 2500
  }

  /** Rounding to two places first makes the test "at least 25.005". */
  lemma BmiAbove25Iff(weight: real, height: real)
    ensures BmiAbove25(weight, height) <==> height == 0.0 || Bmi(weight, height) >= 25.005
  {
    if height != 0.0 {
      var n := Hundredths(Bmi(weight, height));
      assert n > 2500 <==> n >= 2501;
    }
  }

  /** 81.01 kg at 180 cm: the BMI, 25.0031, is above 25, but its two-place text
      "25.00" is not, so no weight line is added. */
  lemma BmiRoundedBeforeComparing()
    ensures Bmi(81.01, 180.0) > 25.0
    ensures !BmiAbove25(81.01, 180.0)
  {
    BmiAbove25Iff(81.01, 180.0);
  }

  /** When each extra line applies. */
  predicate Applies(r: Recommendation, input: InputData)
  {
    match r
    case TierLine(_, _) => false
    case BloodPressure => input.apHi > 140 || input.apLo > 90
    case Cholesterol => input.cholesterol >= 2
    case Smoking => input.smoke == 1
    case Inactivity => input.active == 0
    case WeightManagement => input.weight > 80.0 && BmiAbove25(input.weight, input.height)
  }

  /** The extra line the code considers in position `k`. */
  function RankedExtra(k: nat): (r: Recommendation)
    requires 1 <= k <= 5
    ensures !r.TierLine? && ExtraRank(r) == k
  {
    if k == 1 then BloodPressure
    else if k == 2 then Cholesterol
    else if k == 3 then Smoking
    else if k == 4 then Inactivity
    else WeightManagement
  }

  /** The extra lines of the first `k` positions, appended where they apply. */
  function ExtrasUpTo(input: InputData, k: nat): seq<Recommendation>
    requires k <= 5
  {
    if k == 0 then []
    else ExtrasUpTo(input, k - 1) + (if Applies(RankedExtra(k), input) then [RankedExtra(k)] else [])
  }

  /** Exactly the extras of rank at most `k` that apply, in increasing rank. */
  ghost predicate ApplicableInOrder(extras: seq<Recommendation>, input: InputData, k: nat)
  {
    && (forall r :: r in extras <==> !r.TierLine? && Applies(r, input) && ExtraRank(r) <= k)
    && (forall i :: 0 <= i < |extras| ==> 1 <= ExtraRank(extras[i]) <= k)
    && (forall i, j :: 0 <= i < j < |extras| ==> ExtraRank(extras[i]) < ExtraRank(extras[j]))
  }

  lemma {:induction false} ExtrasUpToInOrder(input: InputData, k: nat)
    requires k <= 5
    ensures ApplicableInOrder(ExtrasUpTo(input, k), input, k)
  {
    if k > 0 {
      ExtrasUpToInOrder(input, k - 1);
      var prev := ExtrasUpTo(input, k - 1);
      var r := RankedExtra(k);
      var next := ExtrasUpTo(input, k);
      assert next == prev + (if Applies(r, input) then [r] else []);
      forall r': Recommendation | !r'.TierLine? && ExtraRank(r') == k
        ensures r' == r
      {
      }
      forall x: Recommendation
        ensures x in next <==> !x.TierLine? && Applies(x, input) && ExtraRank(x) <= k
      {
        if ExtraRank(x) == k && !x.TierLine? {
          assert x == r;
        }
      }
    }
  }

  /** The extra lines `getRecommendations` appends, in code order. */
  function Extras(input: InputData): seq<Recommendation>
  {
    ExtrasUpTo(input, 5)
  }

  /** The extra lines are exactly the ones that apply, each once, in the fixed
      order blood pressure, cholesterol, smoking, activity, weight. */
  lemma ExtrasAreTheApplicableOnes(input: InputData)
    ensures forall r :: r in Extras(input) <==> !r.TierLine? && Applies(r, input)
    ensures forall i, j :: 0 <= i < j < |Extras(input)| ==> ExtraRank(Extras(input)[i]) < ExtraRank(Extras(input)[j])
  {
    ExtrasUpToInOrder(input, 5);
    forall r: Recommendation
      ensures r in Extras(input) <==> !r.TierLine? && Applies(r, input)
    {
      assert ExtraRank(r) <= 5;
    }
  }

  function TierLines(t: Utils.RiskTier): seq<Recommendation>
  {
    [TierLine(t, 0), TierLine(t, 1), TierLine(t, 2)]
  }

  /** Appending the extra line of position `k` where it applies extends the
      lines of the first `k - 1` positions to the first `k`. */
  lemma AppendExtra(lines: seq<Recommendation>, before: seq<Recommendation>, input: InputData, k: nat)
    requires 1 <= k <= 5 && before == lines + ExtrasUpTo(input, k - 1)
    ensures before + (if Applies(RankedExtra(k), input) then [RankedExtra(k)] else []) == lines + ExtrasUpTo(input, k)
  {
  }

  /** `getRecommendations`: the three lines of the tier of the percentage
      (thresholds 60 and 30), then the extra lines that apply. */
  method GetRecommendations(riskPercentage: real, input: InputData) returns (recs: seq<Recommendation>)
    ensures recs == TierLines(Utils.TierOf(riskPercentage)) + Extras(input)
  {
    var tier := if riskPercentage >= 60.0 then Utils.High
                else if riskPercentage >= 30.0 then Utils.Moderate
                else Utils.Low;
    recs := [TierLine(tier, 0), TierLine(tier, 1), TierLine(tier, 2)];
    ghost var lines := recs;
    assert recs == lines + ExtrasUpTo(input, 0);
    AppendExtra(lines, recs, input, 1);
    if input.apHi > 140 || input.apLo > 90 {
      recs := recs + [BloodPressure];
    }
    AppendExtra(lines, recs, input, 2);
    if input.cholesterol >= 2 {
      recs := recs + [Cholesterol];
    }
    AppendExtra(lines, recs, input, 3);
    if input.smoke == 1 {
      recs := recs + [Smoking];
    }
    AppendExtra(lines, recs, input, 4);
    if input.active == 0 {
      recs := recs + [Inactivity];
    }
    AppendExtra(lines, recs, input, 5);
    if input.weight > 80.0 {
      if BmiAbove25(input.weight, input.height) {
        recs := recs + [WeightManagement];
      }
    }
  }
}
