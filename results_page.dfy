/** The results page (`static/results.js`): the statistics over the
    `cardio_predictions` list, the table that shows it ten rows at a time, and
    the deletion of one entry. */
module ResultsPage {
  import opened Basics
  import Utils
  import opened PredictPage
  import HistoryPage

  // ---------------------------------------------------------------------------
  // calculateAndDisplayStatistics
  // ---------------------------------------------------------------------------

  /** How many entries of `ps` satisfy `keep` (`ps.filter(keep).length`). */
  function CountWhere(ps: seq<StoredPrediction>, keep: StoredPrediction -> bool): (n: nat)
    ensures n <= |ps|
  {
    if ps == [] then 0 else (if keep(ps[0]) then 1 else 0) + CountWhere(ps[1..], keep)
  }

  /** The three filters of the risk cards, on the stored `risk_percentage`. */
  predicate IsHigh(p: StoredPrediction) { p.prediction.riskPercentage >= 60.0 }
  predicate IsModerate(p: StoredPrediction) { p.prediction.riskPercentage >= 30.0 && p.prediction.riskPercentage < 60.0 }
  predicate IsLow(p: StoredPrediction) { p.prediction.riskPercentage < 30.0 }

  predicate HasDisease(p: StoredPrediction) { p.prediction.hasDisease }
  predicate IsHealthy(p: StoredPrediction) { !p.prediction.hasDisease }

  /** The three risk filters split the list: every entry is counted once. */
  lemma {:induction false} RiskCountsPartition(ps: seq<StoredPrediction>)
    ensures CountWhere(ps, IsHigh) + CountWhere(ps, IsModerate) + CountWhere(ps, IsLow) == |ps|
  {
    if ps != [] {
      RiskCountsPartition(ps[1..]);
    }
  }

  /** Every entry either has the disease or is healthy. */
  lemma {:induction false} DiseaseCountsPartition(ps: seq<StoredPrediction>)
    ensures CountWhere(ps, HasDisease) + CountWhere(ps, IsHealthy) == |ps|
  {
    if ps != [] {
      DiseaseCountsPartition(ps[1..]);
    }
  }

  /** Two filters that agree on every entry count the same. */
  lemma {:induction false} CountWhereExtensional(ps: seq<StoredPrediction>, f: StoredPrediction -> bool,
                                                 g: StoredPrediction -> bool)
    requires forall p :: f(p) == g(p)
    ensures CountWhere(ps, f) == CountWhere(ps, g)
  {
    if ps != [] {
      CountWhereExtensional(ps[1..], f, g);
    }
  }

  /** The counts of the cards; `diseaseRate` is `None` where the division by
      an empty length gives `NaN`. */
  datatype Statistics = Statistics(total: nat, highRisk: nat, moderateRisk: nat, lowRisk: nat,
                                   diseaseCount: nat, healthyCount: int, diseaseRate: Option<real>)

  /** `calculateAndDisplayStatistics`, without the rendering of the averages. */
  function CalculateStatistics(ps: seq<StoredPrediction>): (s: Statistics)
    ensures s.total == |ps|
    ensures s.highRisk + s.moderateRisk + s.lowRisk == s.total
    ensures s.healthyCount == CountWhere(ps, IsHealthy) && s.diseaseCount + s.healthyCount == s.total
    ensures s.diseaseRate.Some? <==> |ps| > 0
    ensures s.diseaseRate.Some? ==> 0.0 <= s.diseaseRate.value <= 100.0
  {
    RiskCountsPartition(ps);
    DiseaseCountsPartition(ps);
    var disease := CountWhere(ps, HasDisease);
    Statistics(|ps|, CountWhere(ps, IsHigh), CountWhere(ps, IsModerate), CountWhere(ps, IsLow),
               disease, |ps| - disease,
               if |ps| == 0 then None else Some(Percentage(disease, |ps|)))
  }

  /** The entries whose percentage the server puts in tier `t`. */
  function InTier(t: Utils.RiskTier): StoredPrediction -> bool
  {
    (p: StoredPrediction) => Utils.TierOf(p.prediction.riskPercentage) == t
  }

  /** The cards count by the same tiers as the server's risk assessment. */
  lemma CountsFollowTiers(ps: seq<StoredPrediction>)
    ensures CalculateStatistics(ps).highRisk == CountWhere(ps, InTier(Utils.High))
    ensures CalculateStatistics(ps).moderateRisk == CountWhere(ps, InTier(Utils.Moderate))
    ensures CalculateStatistics(ps).lowRisk == CountWhere(ps, InTier(Utils.Low))
  {
    CountWhereExtensional(ps, IsHigh, InTier(Utils.High));
    CountWhereExtensional(ps, IsModerate, InTier(Utils.Moderate));
    CountWhereExtensional(ps, IsLow, InTier(Utils.Low));
  }

  // ---------------------------------------------------------------------------
  // The table
  // ---------------------------------------------------------------------------

  /** The row colour of `addRowToTable`. */
  function RowColour(percentage: real): string
  {
    if percentage >= 60.0 then "#FF6B6B" else if percentage >= 30.0 then "#F39C12" else "#2ECC71"
  }

  function TierHex(t: Utils.RiskTier): string
  {
    match t
    case High => "#FF6B6B"
    case Moderate => "#F39C12"
    case Low => "#2ECC71"
  }

  /** The row colour follows the server's tier, and so the prediction page's
      risk class. */
  lemma RowColourFollowsTier(percentage: real)
    ensures RowColour(percentage) == TierHex(Utils.TierOf(percentage))
    ensures RowColour(percentage) == "#FF6B6B" <==> GetRiskClass(percentage) == "high-risk"
    ensures RowColour(percentage) == "#F39C12" <==> GetRiskClass(percentage) == "moderate-risk"
    ensures RowColour(percentage) == "#2ECC71" <==> GetRiskClass(percentage) == "low-risk"
  {
  }

  /** A row of the table body: one entry, or the "No predictions yet" line. */
  datatype Row = PredictionRow(entry: StoredPrediction, colour: string) | Placeholder

  /** The row `addRowToTable` builds for an entry. */
  function RowOf(p: StoredPrediction): Row
  {
    PredictionRow(p, RowColour(p.prediction.riskPercentage))
  }

  /** The rows of a list of entries, in order. */
  function RowsOf(ps: seq<StoredPrediction>): (r: seq<Row>)
    ensures |r| == |ps|
    ensures forall i :: 0 <= i < |ps| ==> r[i] == RowOf(ps[i])
  {
    seq(|ps|, i requires 0 <= i < |ps| => RowOf(ps[i]))
  }

  lemma RowsOfAppend(a: seq<StoredPrediction>, b: seq<StoredPrediction>)
    ensures RowsOf(a + b) == RowsOf(a) + RowsOf(b)
  {
  }

  const PageSize: nat := 10

  /** `allPredictions.slice(currentRows, currentRows + 10)`. */
  function NextPage(all: seq<StoredPrediction>, currentRows: nat): (r: seq<StoredPrediction>)
    ensures |r| <= PageSize
    ensures currentRows <= |all| ==> r == all[currentRows..Min(currentRows + PageSize, |all|)]
    ensures currentRows >= |all| ==> r == []
  {
    HistoryPage.PySlice(all, currentRows, currentRows + PageSize)
  }

  /** The table body and the "Load more" button. */
  class ResultsTable {
    var rows: seq<Row>
    var loadMoreShown: bool

    /** An empty body, the button shown as the page is served. */
    constructor ()
      ensures rows == [] && loadMoreShown
    {
      rows := [];
      loadMoreShown := true;
    }

    /** `addRowToTable` for each entry, in order. */
    method AppendRows(ps: seq<StoredPrediction>)
      modifies this
      ensures rows == old(rows) + RowsOf(ps)
      ensures loadMoreShown == old(loadMoreShown)
    {
      var i := 0;
      while i < |ps|
        invariant 0 <= i <= |ps|
        invariant rows == old(rows) + RowsOf(ps[..i])
        invariant loadMoreShown == old(loadMoreShown)
      {
        RowsOfAppend(ps[..i], [ps[i]]);
        assert ps[..i + 1] == ps[..i] + [ps[i]];
        rows := rows + [RowOf(ps[i])];
        i := i + 1;
      }
      assert ps[..i] == ps;
    }

    /** `loadPredictionsFromLocalStorage`: the placeholder line for an empty
        list, the first ten entries otherwise. */
    method Load(all: seq<StoredPrediction>)
      modifies this
      ensures rows == if all == [] then [Placeholder] else RowsOf(all[..Min(PageSize, |all|)])
      ensures loadMoreShown == old(loadMoreShown)
    {
      if |all| == 0 {
        rows := [Placeholder];
        return;
      }
      rows := [];
      AppendRows(all[..Min(PageSize, |all|)]);
    }

    /** `displayMorePredictions`: appends the next ten entries after as many as
        there are rows (the placeholder line counts as one), and hides the
        button once the rows reach the end of the list; nothing shows it
        again. */
    method DisplayMore(all: seq<StoredPrediction>)
      modifies this
      ensures rows == old(rows) + RowsOf(NextPage(all, |old(rows)|))
      ensures loadMoreShown <==> old(loadMoreShown) && |old(rows)| + |NextPage(all, |old(rows)|)| < |all|
    {
      var currentRows := |rows|;
      var next := NextPage(all, currentRows);
      AppendRows(next);
      if currentRows + |next| >= |all| {
        loadMoreShown := false;
      }
    }
  }

  /** Paging through the list: when the table shows the first `k` entries,
      "Load more" makes it show the first `k + 10`, and the button goes
      exactly when the whole list is shown. */
  lemma DisplayMoreExtendsPrefix(all: seq<StoredPrediction>, k: nat)
    requires k <= |all|
    ensures |RowsOf(all[..k])| == k
    ensures RowsOf(all[..k]) + RowsOf(NextPage(all, k)) == RowsOf(all[..Min(k + PageSize, |all|)])
    ensures k + |NextPage(all, k)| >= |all| <==> Min(k + PageSize, |all|) == |all|
  {
    var m := Min(k + PageSize, |all|);
    assert all[..k] + all[k..m] == all[..m];
    RowsOfAppend(all[..k], all[k..m]);
  }

  /** An empty list: the placeholder line, then "Load more" adds nothing and
      hides the button. */
  lemma EmptyListHidesButton(all: seq<StoredPrediction>)
    requires all == []
    ensures NextPage(all, |[Placeholder]|) == [] && !(|[Placeholder]| + 0 < |all|)
  {
  }

  // ---------------------------------------------------------------------------
  // deletePrediction
  // ---------------------------------------------------------------------------

  /** `deletePrediction`: once confirmed, every entry with the id goes and the
      others stay in order. */
  method DeletePrediction(storage: BrowserStorage, predictionId: string, confirmed: bool)
    modifies storage
    ensures storage.predictions == if confirmed then Without(old(storage.predictions), predictionId)
                                   else old(storage.predictions)
    ensures storage.saved == old(storage.saved)
  {
    if confirmed {
      storage.predictions := Without(storage.predictions, predictionId);
    }
  }

  /** The "Clear history" button: once confirmed, the `cardio_predictions` list
      is removed, and the saved predictions stay. */
  method ClearStoredHistory(storage: BrowserStorage, confirmed: bool)
    modifies storage
    ensures storage.predictions == if confirmed then [] else old(storage.predictions)
    ensures storage.saved == old(storage.saved)
  {
    if confirmed {
      storage.predictions := [];
    }
  }

  /** After the history is cleared, the reloaded page shows the placeholder
      line alone. */
  method ClearThenLoad(storage: BrowserStorage, table: ResultsTable)
    modifies storage, table
    ensures storage.predictions == [] && table.rows == [Placeholder]
  {
    ClearStoredHistory(storage, true);
    table.Load(storage.predictions);
  }

  /** Deleting twice is deleting once. */
  lemma DeleteIsIdempotent(s: seq<StoredPrediction>, id: string)
    ensures Without(Without(s, id), id) == Without(s, id)
  {
    WithoutMembers(s, id);
    var w := Without(s, id);
    assert forall i :: 0 <= i < |w| ==> w[i] in w;
    WithoutAbsent(w, id);
  }

  /** Deleting one id leaves the entries with any other id as they were. */
  lemma DeleteKeepsOtherIds(s: seq<StoredPrediction>, id: string, other: string)
    requires other != id
    ensures forall x :: x in Without(s, id) && x.predictionId == other <==> x in s && x.predictionId == other
  {
    WithoutMembers(s, id);
  }

  /** Deleting the entry `storePredictionData` just put first gives the earlier
      list without that id, cut to the 99 entries that were kept beside it. */
  lemma DeleteUndoesStore(list: seq<StoredPrediction>, full: StoredPrediction)
    ensures var id := full.predictionId;
      var others := Without(list, id);
      Without(StoredList(list, full), id) == others[..Min(MaxStored - 1, |others|)]
  {
    var id := full.predictionId;
    var others := Without(list, id);
    var r := StoredList(list, full);
    var kept := others[..|r| - 1];
    assert r == [full] + kept;
    WithoutAppend([full], kept, id);
    assert Without([full], id) == [] by {
      assert [full][1..] == [];
    }
    WithoutOmitsId(list, id);
    assert forall i :: 0 <= i < |kept| ==> kept[i] == others[i];
    WithoutAbsent(kept, id);
  }
}
