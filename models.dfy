/** `models.py`: the record kept for each prediction and the running
    statistics over all predictions. */
module Models {
  import opened Basics
  import opened Json
  import Utils

  // ---------------------------------------------------------------------------
  // PredictionRecord
  // ---------------------------------------------------------------------------

  /** The `probability` argument as the constructor can receive it: a Python
      list or tuple, a numpy row (which is neither), or a plain number. */
  datatype ProbabilityArg =
    | Sequence(items: seq<real>)
    | ArrayRow(row: seq<real>)
    | Scalar(p: real)

  /** A stored probability: a number, or a numpy array when the constructor
      took the scalar branch with an array in hand. */
  datatype Number = Real(r: real) | Array1D(items: seq<real>)

  datatype Probabilities = Probabilities(disease: Number, healthy: Number)

  function OneMinus(xs: seq<real>): (ys: seq<real>)
    ensures |ys| == |xs| && forall i :: 0 <= i < |xs| ==> ys[i] == 1.0 - xs[i]
  {
    if xs == [] then [] else [1.0 - xs[0]] + OneMinus(xs[1..])
  }

  /** Lines 18-19 of `models.py` as written: only a list or a tuple is indexed;
      anything else, a numpy row included, takes the `1 - probability` branch.
      `None` is the `IndexError` of a list shorter than two. */
  function SplitProbabilityAsWritten(p: ProbabilityArg): (r: Option<Probabilities>)
    ensures p.Sequence? ==> (r.Some? <==> |p.items| >= 2)
    ensures p.Sequence? && r.Some? ==> r.value == Probabilities(Real(p.items[1]), Real(p.items[0]))
    ensures p.Scalar? ==> r == Some(Probabilities(Real(p.p), Real(1.0 - p.p)))
    ensures p.ArrayRow? ==> r.Some? && r.value.disease == Array1D(p.row)
  {
    match p
    case Sequence(items) =>
      if |items| >= 2 then Some(Probabilities(Real(items[1]), Real(items[0]))) else None
    case ArrayRow(row) => Some(Probabilities(Array1D(row), Array1D(OneMinus(row))))
    case Scalar(x) => Some(Probabilities(Real(x), Real(1.0 - x)))
  }

  /** The evident intent: any indexable row of class probabilities, a numpy row
      included, gives `disease = p[1]` and `healthy = p[0]`. */
  function SplitProbability(p: ProbabilityArg): (r: Option<Probabilities>)
    ensures !p.Scalar? ==> (r.Some? <==> |if p.Sequence? then p.items else p.row| >= 2)
    ensures p.Sequence? && r.Some? ==> r.value == Probabilities(Real(p.items[1]), Real(p.items[0]))
    ensures p.ArrayRow? && r.Some? ==> r.value == Probabilities(Real(p.row[1]), Real(p.row[0]))
    ensures p.Scalar? ==> r == Some(Probabilities(Real(p.p), Real(1.0 - p.p)))
    ensures r.Some? ==> r.value.disease.Real? && r.value.healthy.Real?
  {
    match p
    case Sequence(items) =>
      if |items| >= 2 then Some(Probabilities(Real(items[1]), Real(items[0]))) else None
    case ArrayRow(row) =>
      if |row| >= 2 then Some(Probabilities(Real(row[1]), Real(row[0]))) else None
    case Scalar(x) => Some(Probabilities(Real(x), Real(1.0 - x)))
  }

  /** The two definitions differ only on numpy rows. */
  lemma SplitProbabilityAgreesOffArrays(p: ProbabilityArg)
    requires !p.ArrayRow?
    ensures SplitProbability(p) == SplitProbabilityAsWritten(p)
  {
  }

  /** A scalar probability and its complement add up to one. */
  lemma ScalarProbabilitiesSumToOne(x: real)
    ensures var r := SplitProbability(Scalar(x)).value;
      r.disease.r + r.healthy.r == 1.0
  {
  }

  /** Python's `float(x)`: a number converts; a numpy array converts only when it
      holds exactly one element, and otherwise raises `TypeError` (`None`). */
  function ToFloat(n: Number): (r: Option<real>)
    ensures n.Real? ==> r == Some(n.r)
    ensures n.Array1D? ==> (r.Some? <==> |n.items| == 1)
  {
    match n
    case Real(x) => Some(x)
    case Array1D(items) => if |items| == 1 then Some(items[0]) else None
  }

  /** The optional patient fields; `predict` never passes them. */
  datatype PatientInfo = PatientInfo(patientName: Option<string>, fatherName: Option<string>,
                                     bloodGroup: Option<string>, phoneNumber: Option<string>,
                                     altPhoneNumber: Option<string>, doctorName: Option<string>)

  const NoPatientInfo := PatientInfo(None, None, None, None, None, None)

  /** The measurements as they arrived in the request body. */
  datatype Measurements = Measurements(gender: Value, height: Value, weight: Value, apHi: Value, apLo: Value,
                                       cholesterol: Value, gluc: Value, smoke: Value, alco: Value, active: Value)

  datatype PredictionRecord = PredictionRecord(
    id: string, prediction: int, diseaseProbability: Number, healthyProbability: Number,
    riskPercentage: real, riskLevel: string, color: string, ageDays: int, ageYears: int,
    measurements: Measurements, patient: PatientInfo, timestamp: string, status: string)

  /** `PredictionRecord.__init__` as written (`None`: the `IndexError`); the
      clock reading is the parameter `timestamp`. */
  function NewRecordAsWritten(id: string, prediction: int, probability: ProbabilityArg, riskPercentage: real,
                              riskLevel: string, color: string, ageDays: int, ageYears: int,
                              m: Measurements, patient: PatientInfo, timestamp: string): (r: Option<PredictionRecord>)
    ensures r.Some? <==> SplitProbabilityAsWritten(probability).Some?
    ensures r.Some? ==> (r.value.status == "completed" && r.value.measurements == m &&
                         r.value.diseaseProbability == SplitProbabilityAsWritten(probability).value.disease)
  {
    match SplitProbabilityAsWritten(probability)
    case None => None
    case Some(pr) =>
      Some(PredictionRecord(id, prediction, pr.disease, pr.healthy, riskPercentage, riskLevel, color,
                            ageDays, ageYears, m, patient, timestamp, "completed"))
  }

  /** `PredictionRecord.__init__` with the probability row indexed whatever its
      container. */
  function NewRecord(id: string, prediction: int, probability: ProbabilityArg, riskPercentage: real,
                     riskLevel: string, color: string, ageDays: int, ageYears: int,
                     m: Measurements, patient: PatientInfo, timestamp: string): (r: Option<PredictionRecord>)
    ensures r.Some? <==> SplitProbability(probability).Some?
    ensures r.Some? ==> (r.value.status == "completed" && r.value.measurements == m && r.value.id == id &&
                         r.value.prediction == prediction && r.value.riskPercentage == riskPercentage &&
                         r.value.diseaseProbability == SplitProbability(probability).value.disease &&
                         r.value.healthyProbability == SplitProbability(probability).value.healthy)
  {
    match SplitProbability(probability)
    case None => None
    case Some(pr) =>
      Some(PredictionRecord(id, prediction, pr.disease, pr.healthy, riskPercentage, riskLevel, color,
                            ageDays, ageYears, m, patient, timestamp, "completed"))
  }

  /** The dictionary `to_dict` builds, one field per key; the blood-pressure
      readings are carried under the names `bp_systolic` and `bp_diastolic`. */
  datatype RecordDict = RecordDict(
    id: string, prediction: int, hasDisease: bool, diseaseProbability: real, healthyProbability: real,
    riskPercentage: real, riskLevel: string, color: string, ageDays: int, ageYears: int,
    gender: Value, height: Value, weight: Value, bpSystolic: Value, bpDiastolic: Value,
    cholesterol: Value, gluc: Value, smoke: Value, alco: Value, active: Value,
    patient: PatientInfo, timestamp: string, status: string)

  /** `to_dict`: `None` when one of the `float()` conversions raises. Otherwise
      `has_disease` is `bool(prediction)`, the probabilities are plain numbers,
      `ap_hi`/`ap_lo` appear as `bp_systolic`/`bp_diastolic`, and every other
      field is copied. */
  function ToDict(rec: PredictionRecord): (r: Option<RecordDict>)
    ensures r.Some? <==> ToFloat(rec.diseaseProbability).Some? && ToFloat(rec.healthyProbability).Some?
    ensures r.Some? ==> r.value.hasDisease == (rec.prediction != 0) && r.value.prediction == rec.prediction
    ensures r.Some? ==> r.value.diseaseProbability == ToFloat(rec.diseaseProbability).value &&
                        r.value.healthyProbability == ToFloat(rec.healthyProbability).value
    ensures r.Some? ==> r.value.bpSystolic == rec.measurements.apHi && r.value.bpDiastolic == rec.measurements.apLo
    ensures r.Some? ==> r.value.id == rec.id && r.value.timestamp == rec.timestamp && r.value.status == rec.status
    ensures r.Some? ==> r.value.riskPercentage == rec.riskPercentage && r.value.patient == rec.patient
    ensures r.Some? ==> r.value.riskLevel == rec.riskLevel && r.value.color == rec.color &&
                        r.value.ageDays == rec.ageDays && r.value.ageYears == rec.ageYears
    ensures r.Some? ==> r.value.gender == rec.measurements.gender && r.value.height == rec.measurements.height &&
                        r.value.weight == rec.measurements.weight
    ensures r.Some? ==> r.value.cholesterol == rec.measurements.cholesterol && r.value.gluc == rec.measurements.gluc &&
                        r.value.smoke == rec.measurements.smoke && r.value.alco == rec.measurements.alco &&
                        r.value.active == rec.measurements.active
  {
    var disease := ToFloat(rec.diseaseProbability);
    var healthy := ToFloat(rec.healthyProbability);
    if disease.None? || healthy.None? then None
    else
      var m := rec.measurements;
      Some(RecordDict(rec.id, rec.prediction, rec.prediction != 0, disease.value, healthy.value,
                      rec.riskPercentage, rec.riskLevel, rec.color, rec.ageDays, rec.ageYears,
                      m.gender, m.height, m.weight, m.apHi, m.apLo, m.cholesterol, m.gluc, m.smoke, m.alco,
                      m.active, rec.patient, rec.timestamp, rec.status))
  }

  /** As written, a record built from a numpy row of two class probabilities
      (what `/api/predict` passes) cannot be serialised: `to_dict` raises. */
  lemma ArrayRowRecordCannotBeSerialised(id: string, prediction: int, row: seq<real>, riskPercentage: real,
                                         riskLevel: string, color: string, ageDays: int, ageYears: int,
                                         m: Measurements, patient: PatientInfo, timestamp: string)
    requires |row| == 2
    ensures var r := NewRecordAsWritten(id, prediction, ArrayRow(row), riskPercentage, riskLevel, color,
                                        ageDays, ageYears, m, patient, timestamp);
      r.Some? && ToDict(r.value).None?
  {
  }

  /** With the row indexed, every record built from a row of two or more
      probabilities serialises, carrying `p[1]` as the disease probability and
      `p[0]` as the healthy one. */
  lemma RowRecordSerialises(id: string, prediction: int, probability: ProbabilityArg, riskPercentage: real,
                            riskLevel: string, color: string, ageDays: int, ageYears: int,
                            m: Measurements, patient: PatientInfo, timestamp: string)
    requires probability.ArrayRow? && |probability.row| >= 2
    ensures var r := NewRecord(id, prediction, probability, riskPercentage, riskLevel, color,
                               ageDays, ageYears, m, patient, timestamp);
      r.Some? && ToDict(r.value).Some? &&
      ToDict(r.value).value.diseaseProbability == probability.row[1] &&
      ToDict(r.value).value.healthyProbability == probability.row[0]
  {
  }

  // ---------------------------------------------------------------------------
  // StatisticsRecord
  // ---------------------------------------------------------------------------

  /** The bucketing of `add_prediction`: at least 60 is high, at least 30 moderate. */
  function Bucket(riskPercentage: real): (t: Utils.RiskTier)
    ensures t == Utils.High <==> riskPercentage >= 60.0
    ensures t == Utils.Moderate <==> 30.0 <= riskPercentage < 60.0
    ensures t == Utils.Low <==> riskPercentage < 30.0
  {
    if riskPercentage >= 60.0 then Utils.High
    else if riskPercentage >= 30.0 then Utils.Moderate
    else Utils.Low
  }

  /** The statistics buckets are the risk tiers of `RiskAssessor` applied to
      the stored percentage. */
  lemma BucketIsTier(riskPercentage: real)
    ensures Bucket(riskPercentage) == Utils.TierOf(riskPercentage)
  {
  }

  /** `prediction == 1` counts as disease; every other value as healthy. */
  predicate CountsAsDisease(rec: PredictionRecord)
  {
    rec.prediction == 1
  }

  function CountTier(ps: seq<PredictionRecord>, t: Utils.RiskTier): (n: nat)
    ensures n <= |ps|
  {
    if ps == [] then 0
    else CountTier(ps[..|ps| - 1], t) + (if Bucket(ps[|ps| - 1].riskPercentage) == t then 1 else 0)
  }

  function CountDisease(ps: seq<PredictionRecord>): (n: nat)
    ensures n <= |ps|
  {
    if ps == [] then 0
    else CountDisease(ps[..|ps| - 1]) + (if CountsAsDisease(ps[|ps| - 1]) then 1 else 0)
  }

  /** Every record falls in exactly one of the three buckets. */
  lemma {:induction false} TiersPartition(ps: seq<PredictionRecord>)
    ensures CountTier(ps, Utils.Low) + CountTier(ps, Utils.Moderate) + CountTier(ps, Utils.High) == |ps|
  {
    if ps != [] {
      TiersPartition(ps[..|ps| - 1]);
    }
  }

  lemma CountsAppend(ps: seq<PredictionRecord>, rec: PredictionRecord)
    ensures CountTier(ps + [rec], Utils.Low) == CountTier(ps, Utils.Low) + (if Bucket(rec.riskPercentage) == Utils.Low then 1 else 0)
    ensures CountTier(ps + [rec], Utils.Moderate) == CountTier(ps, Utils.Moderate) + (if Bucket(rec.riskPercentage) == Utils.Moderate then 1 else 0)
    ensures CountTier(ps + [rec], Utils.High) == CountTier(ps, Utils.High) + (if Bucket(rec.riskPercentage) == Utils.High then 1 else 0)
    ensures CountDisease(ps + [rec]) == CountDisease(ps) + (if CountsAsDisease(rec) then 1 else 0)
  {
    assert (ps + [rec])[..|ps + [rec]| - 1] == ps;
  }

  /** `get_summary`. */
  datatype Summary = Summary(totalPredictions: nat, lowRisk: nat, moderateRisk: nat, highRisk: nat,
                             withDisease: nat, withoutDisease: nat, percentage: real)

  class StatisticsRecord {
    var totalPredictions: nat
    var totalHighRisk: nat
    var totalModerateRisk: nat
    var totalLowRisk: nat
    var totalDisease: nat
    var totalHealthy: nat
    var predictions: seq<PredictionRecord>

    /** Each counter counts the stored records it describes. */
    ghost predicate Valid()
      reads this
    {
      totalPredictions == |predictions| &&
      totalLowRisk == CountTier(predictions, Utils.Low) &&
      totalModerateRisk == CountTier(predictions, Utils.Moderate) &&
      totalHighRisk == CountTier(predictions, Utils.High) &&
      totalDisease == CountDisease(predictions) &&
      totalHealthy == |predictions| - CountDisease(predictions)
    }

    constructor ()
      ensures Valid() && predictions == []
      ensures totalPredictions == 0 && totalHighRisk == 0 && totalModerateRisk == 0
      ensures totalLowRisk == 0 && totalDisease == 0 && totalHealthy == 0
    {
      totalPredictions, totalHighRisk, totalModerateRisk, totalLowRisk := 0, 0, 0, 0;
      totalDisease, totalHealthy := 0, 0;
      predictions := [];
    }

    /** `add_prediction`: one more prediction, exactly one risk counter and one of
        disease/healthy go up by one, and the record is appended. */
    method AddPrediction(rec: PredictionRecord)
      requires Valid()
      modifies this
      ensures Valid()
      ensures predictions == old(predictions) + [rec]
      ensures totalPredictions == old(totalPredictions) + 1
      ensures var t := Bucket(rec.riskPercentage);
        totalHighRisk == old(totalHighRisk) + (if t == Utils.High then 1 else 0) &&
        totalModerateRisk == old(totalModerateRisk) + (if t == Utils.Moderate then 1 else 0) &&
        totalLowRisk == old(totalLowRisk) + (if t == Utils.Low then 1 else 0)
      ensures CountsAsDisease(rec) ==> totalDisease == old(totalDisease) + 1 && totalHealthy == old(totalHealthy)
      ensures !CountsAsDisease(rec) ==> totalHealthy == old(totalHealthy) + 1 && totalDisease == old(totalDisease)
    {
      CountsAppend(predictions, rec);
      totalPredictions := totalPredictions + 1;
      if rec.riskPercentage >= 60.0 {
        totalHighRisk := totalHighRisk + 1;
      } else if rec.riskPercentage >= 30.0 {
        totalModerateRisk := totalModerateRisk + 1;
      } else {
        totalLowRisk := totalLowRisk + 1;
      }
      if rec.prediction == 1 {
        totalDisease := totalDisease + 1;
      } else {
        totalHealthy := totalHealthy + 1;
      }
      predictions := predictions + [rec];
    }

    /** The partition invariants: the risk counters and the disease/healthy
        counters each add up to the number of predictions. */
    lemma Partitions()
      requires Valid()
      ensures totalLowRisk + totalModerateRisk + totalHighRisk == totalPredictions
      ensures totalDisease + totalHealthy == totalPredictions
    {
      TiersPartition(predictions);
    }

    /** `get_summary`: the counters as they are, and the disease percentage,
        0 before the first prediction (kept unrounded). */
    function GetSummary(): (s: Summary)
      reads this
      ensures s.totalPredictions == totalPredictions
      ensures s.lowRisk == totalLowRisk && s.moderateRisk == totalModerateRisk && s.highRisk == totalHighRisk
      ensures s.withDisease == totalDisease && s.withoutDisease == totalHealthy
      ensures totalPredictions == 0 ==> s.percentage == 0.0
      ensures totalPredictions > 0 ==> s.percentage * totalPredictions as real == totalDisease as real * 100.0
      ensures Valid() ==> 0.0 <= s.percentage <= 100.0
    {
      var pct := if totalPredictions > 0 then Percentage(totalDisease, totalPredictions) else 0.0;
      Summary(totalPredictions, totalLowRisk, totalModerateRisk, totalHighRisk, totalDisease, totalHealthy, pct)
    }
  }
}
