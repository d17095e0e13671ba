/**
 * The quarterback projection pipeline end to end (fantasy_optimizer.py): the
 * script's statements in order, proved against a per-row reference that
 * looks each projected player up in the historical tables.
 */
module Pipeline {
  import opened Wrappers
  import opened Scoring
  import opened Tables
  import opened Historical
  import opened Projection

  /**
   * What the exported table must hold for projection row `p`: the player's
   * mean profile (zero without history), the projected score over it, and
   * that score plus the player's bias (zero without history).
   */
  function ExpectedRow(p: ProjRow, h: seq<SeasonRow>): OutRow
  {
    var adv := Lookup(AdvancedProfile(h), p.name).GetOr(Zero);
    var bias := Lookup(BiasTable(h), p.name).GetOr(0.0);
    OutRow(p.name, p.projectedFpts, AddBias(CustomScoreProj(p, adv), bias))
  }

  function ExpectedRows(proj: seq<ProjRow>, h: seq<SeasonRow>): (r: seq<OutRow>)
    ensures |r| == |proj| && forall i :: 0 <= i < |proj| ==> r[i] == ExpectedRow(proj[i], h)
  {
    seq(|proj|, i requires 0 <= i < |proj| => ExpectedRow(proj[i], h))
  }

  /**
   * The script from normalisation to the ranked export. `historical` is the
   * concatenated season table, normalised in place; `proj` is the coerced
   * projection table. The result holds one row per projection row, ranked.
   */
  method Run(historical: array<SeasonRow>, proj: seq<ProjRow>) returns (ranked: seq<OutRow>)
    requires forall i :: 0 <= i < historical.Length ==> historical[i].g > 0
    modifies historical
    ensures historical[..] == Normalized(old(historical[..]))
    ensures |ranked| == |proj|
    ensures multiset(ranked) == multiset(ExpectedRows(proj, historical[..]))
    ensures SortedDesc(ranked)
  {
    NormalizePerGame(historical);
    var h := historical[..];
    var advancedStatsAvg := AdvancedProfile(h);
    var qbPerformance := BiasTable(h);
    var merged := MergeProfile(proj, advancedStatsAvg);
    var scored := ScoreProjections(merged);
    var adjusted := MergeBias(scored, qbPerformance);
    var selected := SelectColumns(adjusted);
    ranked := SortDesc(selected);

    AdvancedProfileSpec(h, "");
    BiasTableSpec(h, "");
    MergeSpec(proj, advancedStatsAvg, qbPerformance);
    assert selected == ExpectedRows(proj, h);
    assert |ranked| == |multiset(ranked)| == |multiset(selected)| == |proj|;
  }

  /**
   * Player "A" with two seasons overestimated by 10 and 15 points has bias
   * 12.5, so a projected custom score of 200 is adjusted to 212.5.
   */
  lemma TwoSeasonExample(r1: SeasonRow, r2: SeasonRow, p: ProjRow)
    requires r1.name == "A" && r2.name == "A" && p.name == "A"
    requires Diff(r1) == 10.0 && Diff(r2) == 15.0
    ensures var custom := CustomScoreProj(p, Lookup(AdvancedProfile([r1, r2]), "A").GetOr(Zero));
      ExpectedRow(p, [r1, r2]).adjusted == AddBias(custom, 12.5) &&
      (custom == Some(200.0) ==> ExpectedRow(p, [r1, r2]).adjusted == Some(212.5))
  {
    BiasTwoSeasons(r1, r2);
  }

  /**
   * A projected player with no historical seasons gets a zero profile and
   * zero bias: the adjusted score is the five counting-stat terms alone.
   */
  lemma NoHistoryPlayer(p: ProjRow, h: seq<SeasonRow>)
    requires !Played(h, p.name)
    ensures ExpectedRow(p, h).adjusted == CustomScoreProj(p, Zero)
    ensures Complete(p) ==> ExpectedRow(p, h).adjusted == Some(
      Coef(PassTd) * p.passTd.value + Coef(PassYards) * p.passYards.value + Coef(Int) * p.ints.value +
      Coef(RushTds) * p.rushTds.value + Coef(RushYds) * p.rushYds.value)
  {
    AdvancedProfileSpec(h, p.name);
    BiasTableSpec(h, p.name);
    if Complete(p) {
      NoHistoryScore(p);
    }
  }

  /** A projection missing any counting stat has no adjusted score (NaN), whatever the history. */
  lemma IncompleteHasNoScore(p: ProjRow, h: seq<SeasonRow>)
    requires !Complete(p)
    ensures ExpectedRow(p, h).adjusted == None
  {
  }
}
