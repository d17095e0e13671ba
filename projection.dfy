/**
 * The projection half of the pipeline (fantasy_optimizer.py, steps 4 to 8):
 * the projected score, the two left merges with their zero fills, the
 * adjusted score and the final ranking.
 */
module Projection {
  import opened Wrappers
  import opened Scoring
  import opened Tables

  /**
   * One row of the projection table after `pd.to_numeric(..., errors="coerce")`:
   * each counting stat is a number or None (NaN). "Projected_FPTS" is carried
   * through for the output only.
   */
  datatype ProjRow = ProjRow(
    name: string,
    passTd: Option<real>, passYards: Option<real>, ints: Option<real>,
    rushTds: Option<real>, rushYds: Option<real>,
    projectedFpts: real)

  function ProjName(p: ProjRow): string
  {
    p.name
  }

  /** All five counting stats parsed as numbers. */
  predicate Complete(p: ProjRow)
  {
    p.passTd.Some? && p.passYards.Some? && p.ints.Some? && p.rushTds.Some? && p.rushYds.Some?
  }

  /** The projected value of a counting column. */
  function Counting(p: ProjRow, f: Field): real
    requires Complete(p) && f in CountingCols
  {
    match f
    case PassTd => p.passTd.value
    case PassYards => p.passYards.value
    case Int => p.ints.value
    case RushTds => p.rushTds.value
    case RushYds => p.rushYds.value
  }

  /**
   * The line the projected score reads: the five counting stats from the
   * projection, every other column from the player's `_adv` profile.
   */
  function Blend(p: ProjRow, adv: StatLine): (b: StatLine)
    requires Complete(p)
    ensures forall f :: Get(b, f) == if f in CountingCols then Counting(p, f) else Get(adv, f)
  {
    adv.(passTd := p.passTd.value, passYards := p.passYards.value, ints := p.ints.value,
         rushTds := p.rushTds.value, rushYds := p.rushYds.value)
  }

  /**
   * `calculate_custom_score_proj`, term by term as the source writes it; NaN
   * in any counting stat makes the whole sum NaN (None).
   */
  function CustomScoreProj(p: ProjRow, adv: StatLine): (r: Option<real>)
    ensures r.Some? <==> Complete(p)
  {
    if !Complete(p) then None
    else Some(
      p.passTd.value * 2.0 +
      p.passYards.value / 40.0 +
      p.ints.value * -2.0 +
      p.rushTds.value * 3.0 +
      p.rushYds.value / 20.0 +
      adv.cmpPct / 100.0 * 10.0 +
      adv.successPct * 10.0 +
      adv.epaPerPlay * 25.0 +
      adv.totalEpa * 5.0 +
      adv.sackPct * -12.0 +
      adv.hrry * -5.0 +
      adv.blitz * -3.0 +
      adv.poor * -15.0 +
      adv.drop * -8.0 +
      adv.adot * 4.0)
  }

  /** The projected score is the historical score applied to the blended line. */
  lemma ProjScoreIsScore(p: ProjRow, adv: StatLine)
    ensures CustomScoreProj(p, adv) == if Complete(p) then Some(Score(Blend(p, adv))) else None
  {
  }

  /** With no history (all `_adv` zero) only the five counting-stat terms remain. */
  lemma NoHistoryScore(p: ProjRow)
    requires Complete(p)
    ensures CustomScoreProj(p, Zero) == Some(
      Coef(PassTd) * p.passTd.value + Coef(PassYards) * p.passYards.value + Coef(Int) * p.ints.value +
      Coef(RushTds) * p.rushTds.value + Coef(RushYds) * p.rushYds.value)
  {
  }

  /** `proj` after the first merge and `fillna(0)` of the `_adv` columns. */
  datatype ProfiledRow = ProfiledRow(proj: ProjRow, adv: StatLine)

  /** `proj` after the `custom_expected_2025` column is assigned. */
  datatype ScoredRow = ScoredRow(proj: ProjRow, adv: StatLine, custom: Option<real>)

  /** `proj` after the second merge, `fillna(0)` of the bias and the `Adjusted_Custom_2025` column. */
  datatype AdjustedRow = AdjustedRow(proj: ProjRow, adv: StatLine, custom: Option<real>, bias: real, adjusted: Option<real>)

  /** The exported columns: "Player Name", "Projected_FPTS", "Adjusted_Custom_2025". */
  datatype OutRow = OutRow(name: string, projectedFpts: real, adjusted: Option<real>)

  function ScoredName(s: ScoredRow): string
  {
    s.proj.name
  }

  /**
   * `custom_expected_2025 + avg_diff_per_season`; NaN plus a number is NaN.
   * Its contract is close to its body; MergeSpec and Pipeline.Run state
   * what the adjusted column means for each projection row.
   */
  function AddBias(custom: Option<real>, bias: real): (r: Option<real>)
    ensures r.Some? <==> custom.Some?
    ensures r.Some? ==> r.value - bias == custom.value
  {
    match custom
    case None => None
    case Some(c) => Some(c + bias)
  }

  function FillAdv(j: Joined<ProjRow, StatLine>): ProfiledRow
  {
    ProfiledRow(j.left, j.right.GetOr(Zero))
  }

  function AssignCustom(p: ProfiledRow): ScoredRow
  {
    ScoredRow(p.proj, p.adv, CustomScoreProj(p.proj, p.adv))
  }

  function FillBias(j: Joined<ScoredRow, real>): AdjustedRow
  {
    var bias := j.right.GetOr(0.0);
    AdjustedRow(j.left.proj, j.left.adv, j.left.custom, bias, AddBias(j.left.custom, bias))
  }

  function SelectFinal(a: AdjustedRow): OutRow
  {
    OutRow(a.proj.name, a.proj.projectedFpts, a.adjusted)
  }

  /** `proj.merge(advanced_stats_avg, how="left")` followed by `fillna(0)` on the `_adv` columns. */
  function MergeProfile(proj: seq<ProjRow>, profile: seq<Keyed<StatLine>>): seq<ProfiledRow>
  {
    var j := LeftJoin(proj, ProjName, profile);
    seq(|j|, i requires 0 <= i < |j| => FillAdv(j[i]))
  }

  /** `proj["custom_expected_2025"] = calculate_custom_score_proj(proj)`. */
  function ScoreProjections(rows: seq<ProfiledRow>): seq<ScoredRow>
  {
    seq(|rows|, i requires 0 <= i < |rows| => AssignCustom(rows[i]))
  }

  /** `proj.merge(qb_performance, how="left")`, `fillna(0)` on the bias, then the adjusted column. */
  function MergeBias(rows: seq<ScoredRow>, bias: seq<Keyed<real>>): seq<AdjustedRow>
  {
    var j := LeftJoin(rows, ScoredName, bias);
    seq(|j|, i requires 0 <= i < |j| => FillBias(j[i]))
  }

  /**
   * `proj[final_cols]`. The contract is the column projection itself;
   * Pipeline.Run ties the exported rows to their per-player reference.
   */
  function SelectColumns(rows: seq<AdjustedRow>): (r: seq<OutRow>)
    ensures |r| == |rows| && forall i :: 0 <= i < |rows| ==> r[i] == SelectFinal(rows[i])
  {
    seq(|rows|, i requires 0 <= i < |rows| => SelectFinal(rows[i]))
  }

  /**
   * With the profile and bias tables keyed uniquely (as a group-by makes
   * them), the merges keep each projection row once, in order; a player
   * missing from a table gets zeros; and the adjusted score is the custom
   * score plus the bias.
   */
  lemma {:induction false} MergeSpec(proj: seq<ProjRow>, profile: seq<Keyed<StatLine>>, bias: seq<Keyed<real>>)
    requires UniqueKeys(profile) && UniqueKeys(bias)
    ensures var r := MergeBias(ScoreProjections(MergeProfile(proj, profile)), bias);
      |r| == |proj| &&
      forall i :: 0 <= i < |proj| ==>
        r[i].proj == proj[i] &&
        r[i].adv == Lookup(profile, proj[i].name).GetOr(Zero) &&
        r[i].custom == CustomScoreProj(proj[i], r[i].adv) &&
        r[i].bias == Lookup(bias, proj[i].name).GetOr(0.0) &&
        r[i].adjusted == AddBias(r[i].custom, r[i].bias)
  {
    LeftJoinOneToOne(proj, ProjName, profile);
    var s := ScoreProjections(MergeProfile(proj, profile));
    LeftJoinOneToOne(s, ScoredName, bias);
  }

  /**
   * Order of `sort_values(ascending=False)` on one key: larger first, and
   * NaN (None) after every number.
   */
  predicate RanksAtLeast(a: Option<real>, b: Option<real>)
  {
    match a
    case None => b.None?
    case Some(x) => b.None? || x >= b.value
  }

  /** Non-increasing in "Adjusted_Custom_2025", NaN last. */
  predicate SortedDesc(s: seq<OutRow>)
  {
    forall i, j :: 0 <= i < j < |s| ==> RanksAtLeast(s[i].adjusted, s[j].adjusted)
  }

  lemma RanksTransitive(a: Option<real>, b: Option<real>, c: Option<real>)
    requires RanksAtLeast(a, b) && RanksAtLeast(b, c)
    ensures RanksAtLeast(a, c)
  {
  }

  lemma RanksTotal(a: Option<real>, b: Option<real>)
    ensures RanksAtLeast(a, b) || RanksAtLeast(b, a)
  {
  }

  /** A row that ranks at least every row of a ranked table can head it. */
  lemma ConsSorted(h: OutRow, t: seq<OutRow>)
    requires SortedDesc(t)
    requires forall y :: y in t ==> RanksAtLeast(h.adjusted, y.adjusted)
    ensures SortedDesc([h] + t)
  {
    var r := [h] + t;
    forall i, j | 0 <= i < j < |r| ensures RanksAtLeast(r[i].adjusted, r[j].adjusted) {
      if i == 0 {
        assert r[j] == t[j - 1];
      } else {
        assert r[i] == t[i - 1] && r[j] == t[j - 1];
      }
    }
  }

  /** Insert `x` into a ranked table, keeping it ranked. */
  function Insert(x: OutRow, s: seq<OutRow>): (r: seq<OutRow>)
    requires SortedDesc(s)
    ensures SortedDesc(r)
    ensures multiset(r) == multiset(s) + multiset{x}
  {
    if s == [] then [x]
    else
      assert s == [s[0]] + s[1..];
      if RanksAtLeast(x.adjusted, s[0].adjusted) then
        assert forall y :: y in s ==> RanksAtLeast(x.adjusted, y.adjusted) by {
          forall y | y in s ensures RanksAtLeast(x.adjusted, y.adjusted) {
            if y != s[0] {
              var k :| 0 <= k < |s| && s[k] == y;
              RanksTransitive(x.adjusted, s[0].adjusted, y.adjusted);
            }
          }
        }
        ConsSorted(x, s);
        [x] + s
      else
        var t := Insert(x, s[1..]);
        assert forall y :: y in t ==> RanksAtLeast(s[0].adjusted, y.adjusted) by {
          forall y | y in t ensures RanksAtLeast(s[0].adjusted, y.adjusted) {
            assert y in multiset(t);
            if y == x {
              RanksTotal(x.adjusted, s[0].adjusted);
            } else {
              var k :| 1 <= k < |s| && s[k] == y;
            }
          }
        }
        ConsSorted(s[0], t);
        [s[0]] + t
  }

  /**
   * `sort_values("Adjusted_Custom_2025", ascending=False)`: a permutation of
   * the rows, ranked. The order among equal keys is not specified.
   */
  function SortDesc(s: seq<OutRow>): (r: seq<OutRow>)
    ensures SortedDesc(r)
    ensures multiset(r) == multiset(s)
  {
    if s == [] then []
    else
      assert s == [s[0]] + s[1..];
      Insert(s[0], SortDesc(s[1..]))
  }
}
