/** `utils.py`: age conversion, risk tiers, BMI bands, response envelopes,
    pagination arithmetic and the health summary. All arithmetic is exact: the
    constant 365.25 is the rational 1461/4, and Python's `round` on a rational
    is written out as round-half-to-even. */
module Utils {
  import opened Basics

  // ---------------------------------------------------------------------------
  // Rounding
  // ---------------------------------------------------------------------------

  /** Python's `round(n / d)` for `d > 0`: the nearest integer, ties to even. */
  function RoundHalfEven(n: int, d: int): (r: int)
    requires d > 0
    ensures 2 * (r * d - n) <= d && 2 * (n - r * d) <= d
    ensures 2 * (r * d - n) == d || 2 * (n - r * d) == d ==> r % 2 == 0
  {
    var q, rem := n / d, n % d;
    assert n == q * d + rem;
    if 2 * rem < d then q
    else if 2 * rem > d then q + 1
    else if q % 2 == 0 then q
    else q + 1
  }

  /** The nearest integer is unique once it is strictly nearer than one half. */
  lemma RoundHalfEvenUnique(n: int, d: int, a: int)
    requires d > 0
    requires 2 * (a * d - n) < d && 2 * (n - a * d) < d
    ensures RoundHalfEven(n, d) == a
  {
    var r := RoundHalfEven(n, d);
    if r > a {
      assert r * d - a * d == (r - a) * d;
      MulGrows(r - a, d);
      assert false;
    } else if r < a {
      assert a * d - r * d == (a - r) * d;
      MulGrows(a - r, d);
      assert false;
    }
  }

  lemma MulGrows(k: int, d: int)
    requires k >= 1 && d > 0
    ensures k * d >= d
  {
  }

  // ---------------------------------------------------------------------------
  // AgeConverter
  // ---------------------------------------------------------------------------

  /** `years_to_days(years) = round(years * 365.25)` for an integer age. */
  function YearsToDays(years: int): int
  {
    RoundHalfEven(1461 * years, 4)
  }

  /** `days_to_years(days) = round(days / 365.25)` for an integer day count. */
  function DaysToYears(days: int): int
  {
    RoundHalfEven(4 * days, 1461)
  }

  /** Integer day counts never fall on a tie, so `days_to_years` is plain
      floor arithmetic. */
  lemma DaysToYearsIsFloor(days: int)
    ensures DaysToYears(days) == (8 * days + 1461) / 2922
  {
    var q := (8 * days + 1461) / 2922;
    var rem := (8 * days + 1461) % 2922;
    assert 8 * days + 1461 == 2922 * q + rem;
    // 8 * days + 1461 is odd and 2922 even, so the remainder is odd, never 0:
    // 2 * (q * 1461 - 4 * days) = 1461 - rem lies strictly between -1461 and 1461
    assert rem != 0 by {
      assert (8 * days + 1461) % 2 == 1;
    }
    assert 2 * (q * 1461 - 4 * days) == 1461 - rem;
    RoundHalfEvenUnique(4 * days, 1461, q);
  }

  /** The worked values: 2 years is 730.5 days, rounded to even 730; 6 years is
      2191.5 days, rounded to even 2192. */
  lemma YearsToDaysExamples()
    ensures YearsToDays(2) == 730 && YearsToDays(6) == 2192
    ensures YearsToDays(1) == 365 && YearsToDays(3) == 1096
  {
  }

  /** Converting an age to days and back gives the age again. */
  lemma AgeRoundTrip(years: int)
    ensures DaysToYears(YearsToDays(years)) == years
  {
    var d := YearsToDays(years);
    assert -2 <= 4 * d - 1461 * years <= 2;
    RoundHalfEvenUnique(4 * d, 1461, years);
  }

  // ---------------------------------------------------------------------------
  // RiskAssessor
  // ---------------------------------------------------------------------------

  datatype RiskTier = Low | Moderate | High

  const LowThreshold: real := 30.0
  const ModerateThreshold: real := 60.0

  /** The tier of a percentage: below 30 is low, below 60 moderate, else high. */
  function TierOf(percentage: real): (t: RiskTier)
    ensures t == Low <==> percentage < 30.0
    ensures t == Moderate <==> 30.0 <= percentage < 60.0
    ensures t == High <==> percentage >= 60.0
  {
    if percentage < LowThreshold then Low
    else if percentage < ModerateThreshold then Moderate
    else High
  }

  function Rank(t: RiskTier): nat
  {
    match t
    case Low => 0
    case Moderate => 1
    case High => 2
  }

  /** A higher percentage never lands in a lower tier. */
  lemma TierMonotone(p: real, q: real)
    requires p <= q
    ensures Rank(TierOf(p)) <= Rank(TierOf(q))
  {
  }

  function LevelName(t: RiskTier): string
  {
    match t
    case Low => "Low Risk"
    case Moderate => "Moderate Risk"
    case High => "High Risk"
  }

  /** `RISK_COLORS`. */
  function Colour(t: RiskTier): (c: string)
    ensures c == "green" <==> t == Low
    ensures c == "orange" <==> t == Moderate
    ensures c == "red" <==> t == High
  {
    match t
    case Low => "green"
    case Moderate => "orange"
    case High => "red"
  }

  /** What `get_risk_level` returns; the percentage is kept unrounded. */
  datatype RiskInfo = RiskInfo(level: string, color: string, percentage: real)

  function GetRiskLevel(probability: real): (r: RiskInfo)
    ensures r.percentage == probability * 100.0
    ensures r.level == LevelName(TierOf(probability * 100.0)) && r.color == Colour(TierOf(probability * 100.0))
  {
    var percentage := probability * 100.0;
    var t := TierOf(percentage);
    RiskInfo(LevelName(t), Colour(t), percentage)
  }

  /** Exactly 30 and exactly 60 belong to the higher tier; 0.29 is low, 0.59 moderate. */
  lemma RiskBoundaries()
    ensures GetRiskLevel(0.29) == RiskInfo("Low Risk", "green", 29.0)
    ensures GetRiskLevel(0.30) == RiskInfo("Moderate Risk", "orange", 30.0)
    ensures GetRiskLevel(0.59).level == "Moderate Risk"
    ensures GetRiskLevel(0.60) == RiskInfo("High Risk", "red", 60.0)
  {
  }

  // ---------------------------------------------------------------------------
  // BMICalculator.get_category
  // ---------------------------------------------------------------------------

  /** A half-open band `[low, high)`; `high == None` stands for `float('inf')`. */
  datatype Band = Band(name: string, low: real, high: Option<real>)

  predicate InBand(b: Band, bmi: real)
  {
    b.low <= bmi && (b.high.None? || bmi < b.high.value)
  }

  /** `CATEGORIES`, in dict order. */
  const Categories: seq<Band> := [
    Band("underweight", 0.0, Some(18.5)),
    Band("normal", 18.5, Some(25.0)),
    Band("overweight", 25.0, Some(30.0)),
    Band("obese", 30.0, None)
  ]

  /** The loop of `get_category`: the first band holding `bmi`, else "obese". */
  function FirstBand(bands: seq<Band>, bmi: real): (name: string)
    ensures (forall i :: 0 <= i < |bands| ==> !InBand(bands[i], bmi)) ==> name == "obese"
    ensures (exists i :: 0 <= i < |bands| && InBand(bands[i], bmi)) ==>
      exists i :: 0 <= i < |bands| && InBand(bands[i], bmi) && name == bands[i].name
  {
    if bands == [] then "obese"
    else if InBand(bands[0], bmi) then bands[0].name
    else
      var rest := FirstBand(bands[1..], bmi);
      assert forall i :: 1 <= i < |bands| ==> bands[i] == bands[1..][i - 1];
      rest
  }

  function GetCategory(bmi: real): string
  {
    FirstBand(Categories, bmi)
  }

  /** For a non-negative BMI exactly one band contains it and that band's name is
      returned; a negative BMI matches no band and gets "obese". */
  lemma CategoryIsTheUniqueBand(bmi: real)
    ensures bmi >= 0.0 ==> exists i :: 0 <= i < |Categories| && InBand(Categories[i], bmi)
    ensures forall i, j ::
      (0 <= i < |Categories| && 0 <= j < |Categories| && InBand(Categories[i], bmi) && InBand(Categories[j], bmi)) ==> i == j
    ensures forall i :: 0 <= i < |Categories| && InBand(Categories[i], bmi) ==> GetCategory(bmi) == Categories[i].name
    ensures bmi < 0.0 ==> GetCategory(bmi) == "obese"
  {
    if bmi >= 0.0 {
      var k := if bmi < 18.5 then 0 else if bmi < 25.0 then 1 else if bmi < 30.0 then 2 else 3;
      assert InBand(Categories[k], bmi);
    }
  }

  // ---------------------------------------------------------------------------
  // ResponseFormatter and HealthCheck
  // ---------------------------------------------------------------------------

  /** Python's `a // b` (floor division); `b != 0`. */
  function FloorDiv(a: int, b: int): (q: int)
    requires b != 0
    ensures b > 0 ==> q * b <= a < q * b + b
    ensures b < 0 ==> q * b >= a > q * b + b
  {
    if b > 0 then a / b else (-a) / (-b)
  }

  datatype Pagination = Pagination(total: int, limit: int, offset: int, pages: int, hasNext: bool)

  /** `list_response`'s pagination block; `None` when `limit == 0`, where the
      floor division raises `ZeroDivisionError`. */
  function ListPagination(total: int, limit: int, offset: int): Option<Pagination>
  {
    if limit == 0 then None
    else Some(Pagination(total, limit, offset, FloorDiv(total + limit - 1, limit), offset + limit < total))
  }

  /** For a positive limit the page count is the ceiling of `total / limit`, and
      `has_next` holds exactly when a further page starts before `total`. */
  lemma PagesIsCeiling(total: int, limit: int, offset: int)
    requires limit > 0
    ensures ListPagination(total, limit, offset).Some?
    ensures var p := ListPagination(total, limit, offset).value;
      (p.pages - 1) * limit < total <= p.pages * limit && (p.hasNext <==> offset + limit < total)
  {
    var pages := FloorDiv(total + limit - 1, limit);
    assert pages * limit <= total + limit - 1 < pages * limit + limit;
    assert (pages - 1) * limit == pages * limit - limit;
  }

  datatype ErrorEnvelope = ErrorEnvelope(message: string, errorCode: Option<string>, timestamp: string)

  /** `ResponseFormatter.error`: the code is attached only when it is non-empty. */
  function FormatError(message: string, errorCode: Option<string>, timestamp: string): (e: ErrorEnvelope)
    ensures e.message == message
    ensures e.errorCode.Some? <==> errorCode.Some? && errorCode.value != ""
    ensures e.errorCode.Some? ==> e.errorCode == errorCode
  {
    ErrorEnvelope(message, if errorCode.Some? && errorCode.value != "" then errorCode else None, timestamp)
  }

  datatype SystemStatus = SystemStatus(status: string, timestamp: string, modelLoaded: bool,
                                       predictionsMade: int, uptime: string, message: string)

  /** `get_system_status`: healthy exactly when the model is loaded. */
  function GetSystemStatus(modelLoaded: bool, predictionCount: int, timestamp: string): (s: SystemStatus)
    ensures s.status == "healthy" <==> modelLoaded
    ensures s.status == "unhealthy" <==> !modelLoaded
    ensures s.message == (if modelLoaded then "All systems operational" else "Model not loaded")
    ensures s.modelLoaded == modelLoaded && s.predictionsMade == predictionCount
  {
    SystemStatus(if modelLoaded then "healthy" else "unhealthy", timestamp, modelLoaded, predictionCount,
                 "Check server logs", if modelLoaded then "All systems operational" else "Model not loaded")
  }
}
