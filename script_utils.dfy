/** The age and risk helpers of the browser-side `Utils` object
    (`static/script.js`). JavaScript's `Math.round(x)` is `floor(x + 1/2)`, so
    a half rounds up, where Python's `round` rounds it to even. */
module ScriptUtils {
  import Utils

  /** `Math.round(n / d)` for `d > 0`. */
  function MathRound(n: int, d: int): (r: int)
    requires d > 0
    ensures r * 2 * d <= 2 * n + d < (r + 1) * 2 * d
  {
    (2 * n + d) / (2 * d)
  }

  /** `yearsToAgeDays(years) = Math.round(years * 365.25)`. */
  function YearsToAgeDays(years: int): int
  {
    MathRound(1461 * years, 4)
  }

  /** `ageInYears(days) = Math.round(days / 365.25)`. */
  function AgeInYears(days: int): int
  {
    MathRound(4 * days, 1461)
  }

  /** `ageInYears` is the integer nearest to `days / 365.25` (a half goes up). */
  lemma AgeInYearsIsNearest(days: int)
    ensures -1461 <= 8 * days - 2922 * AgeInYears(days) < 1461
  {
  }

  /** The quotient of `k*d + r` by `d` is `k` when `0 <= r < d`. */
  lemma DivOfMultiplePlus(k: int, r: int, d: int)
    requires d > 0 && 0 <= r < d
    ensures (k * d + r) / d == k
  {
    var q := (k * d + r) / d;
    var m := (k * d + r) % d;
    assert k * d + r == q * d + m;
    if q > k {
      assert (q - k) * d == r - m;
      Utils.MulGrows(q - k, d);
      assert false;
    } else if q < k {
      assert (k - q) * d == m - r;
      Utils.MulGrows(k - q, d);
      assert false;
    }
  }

  /** Converting whole years to days and back gives the years again, for every
      integer age (the browser only uses 1 to 120). */
  lemma AgeRoundTrip(years: int)
    ensures AgeInYears(YearsToAgeDays(years)) == years
  {
    var d := YearsToAgeDays(years);
    var rem := (2922 * years + 4) % 8;
    assert d == (2922 * years + 4) / 8;
    assert 2922 * years + 4 == 8 * d + rem;
    assert 2 * (4 * d) + 1461 == years * 2922 + (1465 - rem);
    DivOfMultiplePlus(years, 1465 - rem, 2922);
  }

  /** The browser and the server convert days to years identically: no
      integer day count lies on a half. */
  lemma AgeInYearsAgreesWithServer(days: int)
    ensures AgeInYears(days) == Utils.DaysToYears(days)
  {
    Utils.DaysToYearsIsFloor(days);
  }

  /** In the browser, `365.25 * y` rounds to `365 * y` plus the quarter years
      rounded with halves up. */
  lemma BrowserDays(years: int)
    ensures YearsToAgeDays(years) == 365 * years + (years + 2) / 4
  {
    var q, r := (years + 2) / 4, (years + 2) % 4;
    assert years + 2 == 4 * q + r;
    assert 2 * (1461 * years) + 4 == (365 * years + q) * 8 + 2 * r;
    DivOfMultiplePlus(365 * years + q, 2 * r, 8);
  }

  /** On the server, the same with the quarter years rounded half to even. */
  lemma ServerDays(years: int)
    ensures Utils.YearsToDays(years) == 365 * years + Utils.RoundHalfEven(years, 4)
  {
    ShiftRounding(years, Utils.RoundHalfEven(years, 4), Utils.YearsToDays(years));
  }

  /** Whatever `q` and `r` satisfy the contract of round-half-to-even for
      `years / 4` and `1461 * years / 4` respectively, `r` is `365 * years + q`. */
  lemma ShiftRounding(years: int, q: int, r: int)
    requires 2 * (q * 4 - years) <= 4 && 2 * (years - q * 4) <= 4
    requires 2 * (q * 4 - years) == 4 || 2 * (years - q * 4) == 4 ==> q % 2 == 0
    requires 2 * (r * 4 - 1461 * years) <= 4 && 2 * (1461 * years - r * 4) <= 4
    requires 2 * (r * 4 - 1461 * years) == 4 || 2 * (1461 * years - r * 4) == 4 ==> r % 2 == 0
    ensures r == 365 * years + q
  {
    var t := 365 * years + q;
    var off := years - 4 * q;
    assert 1461 * years - 4 * t == off;
    assert -2 <= 4 * (r - t) - off <= 2;
    if off == 2 || off == -2 {
      // a tie on both sides: `t` is the even one of the two candidates
      var sg := off / 2;
      assert r == t || r == t + sg;
      var hq := q / 2;
      assert q == 2 * hq;
      var u := 365 * (4 * hq + sg) + hq;
      assert t == 2 * u;
      assert r == 2 * u || r == 2 * u + sg;
    }
  }

  /** The server's quarter years, rounded half to even, fall one short of the
      browser's rounded-up ones exactly when `y % 8 == 2`. */
  lemma QuarterRounding(years: int)
    ensures Utils.RoundHalfEven(years, 4) + (if years % 8 == 2 then 1 else 0) == (years + 2) / 4
  {
    var r := Utils.RoundHalfEven(years, 4);
    var q, rm := (years + 2) / 4, (years + 2) % 4;
    assert years == 4 * q + rm - 2;
    var k, m := years / 8, years % 8;
    assert years == 8 * k + m;
    if m == 2 {
      // `y % 8 == 2` is never strictly between two quarters
      assert years + 2 == 4 * (2 * k + 1);
      DivOfMultiplePlus(2 * k + 1, 0, 4);
      assert rm == 0;
    }
    if rm != 0 {
      Utils.RoundHalfEvenUnique(years, 4, q);
    } else {
      // a tie: r is whichever of q - 1 and q is even
      assert r == q - 1 || r == q;
      assert r % 2 == 0;
      if m == 2 {
        assert q == 2 * k + 1;
      } else {
        assert m == 6 && q == 2 * k + 2;
      }
    }
  }

  /** Years to days, on the other hand, differ on the ties: `365.25 * y` is a
      half exactly when `y % 4 == 2`, and the server's round-half-to-even then
      rounds down when `y % 8 == 2` (2 years: 730 against 731), up when
      `y % 8 == 6` (6 years: 2192 on both). */
  lemma YearsToAgeDaysAgainstServer(years: int)
    ensures YearsToAgeDays(years) == Utils.YearsToDays(years) + (if years % 8 == 2 then 1 else 0)
  {
    BrowserDays(years);
    ServerDays(years);
    QuarterRounding(years);
  }

  /** The worked values of the two conversions. */
  lemma AgeDaysExamples()
    ensures YearsToAgeDays(2) == 731 && Utils.YearsToDays(2) == 730
    ensures YearsToAgeDays(6) == 2192 && YearsToAgeDays(50) == 18263
  {
    YearsToAgeDaysAgainstServer(2);
    Utils.YearsToDaysExamples();
  }

  datatype DiseaseRisk = DiseaseRisk(level: string, color: string)

  /** `getDiseaseRisk`: below 30 is low and green, below 60 moderate and
      orange, otherwise high and red. */
  function GetDiseaseRisk(percentage: real): (r: DiseaseRisk)
    ensures percentage < 30.0 ==> r == DiseaseRisk("Low Risk", "green")
    ensures 30.0 <= percentage < 60.0 ==> r == DiseaseRisk("Moderate Risk", "orange")
    ensures percentage >= 60.0 ==> r == DiseaseRisk("High Risk", "red")
  {
    if percentage < 30.0 then DiseaseRisk("Low Risk", "green")
    else if percentage < 60.0 then DiseaseRisk("Moderate Risk", "orange")
    else DiseaseRisk("High Risk", "red")
  }

  /** The browser names and colours a percentage exactly as the server's
      `RiskAssessor` does. */
  lemma DiseaseRiskAgreesWithServer(probability: real)
    ensures var server := Utils.GetRiskLevel(probability);
      GetDiseaseRisk(server.percentage) == DiseaseRisk(server.level, server.color)
  {
  }
}
