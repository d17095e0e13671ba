/**
 * The historical half of the pipeline (fantasy_optimizer.py, steps 2 and 3):
 * per-game normalisation of the season table, the per-player advanced
 * profile, and the per-player bias of the score against realized points.
 */
module Historical {
  import opened Wrappers
  import opened Scoring
  import opened Tables

  /**
   * One player-season of the concatenated season sheets: "Player Name",
   * "Season" (the sheet label), games played "G", realized "Fpts/G", and the
   * fifteen statistic columns.
   */
  datatype SeasonRow = SeasonRow(name: string, season: int, g: int, fptsPerGame: real, stats: StatLine)

  function PlayerName(r: SeasonRow): string
  {
    r.name
  }

  predicate DistinctFields(cols: seq<Field>)
  {
    forall i, j :: 0 <= i < j < |cols| ==> cols[i] != cols[j]
  }

  /** `historical[col] = historical[col] / historical["G"]`, on one row. */
  function DivideCol(r: SeasonRow, col: Field): (d: SeasonRow)
    requires r.g > 0
    ensures d.name == r.name && d.season == r.season && d.g == r.g && d.fptsPerGame == r.fptsPerGame
  {
    r.(stats := With(r.stats, col, Get(r.stats, col) / (r.g as real)))
  }

  /** The row after the normalisation loop has handled the columns `cols`, in that order. */
  function DivideCols(r: SeasonRow, cols: seq<Field>): (d: SeasonRow)
    requires r.g > 0
    ensures d.name == r.name && d.season == r.season && d.g == r.g && d.fptsPerGame == r.fptsPerGame
  {
    if cols == [] then r else DivideCol(DivideCols(r, cols[..|cols| - 1]), cols[|cols| - 1])
  }

  /** A row once every per-game column has been divided by its games played. */
  function NormalizeRow(r: SeasonRow): SeasonRow
    requires r.g > 0
  {
    DivideCols(r, PerGameCols)
  }

  function Normalized(rows: seq<SeasonRow>): (n: seq<SeasonRow>)
    requires forall i :: 0 <= i < |rows| ==> rows[i].g > 0
    ensures |n| == |rows|
  {
    seq(|rows|, i requires 0 <= i < |rows| => NormalizeRow(rows[i]))
  }

  /** Dividing a list of distinct columns divides each of them once and leaves the others alone. */
  lemma {:induction false} DivideColsSpec(r: SeasonRow, cols: seq<Field>, f: Field)
    requires r.g > 0
    requires DistinctFields(cols)
    ensures Get(DivideCols(r, cols).stats, f) ==
      if f in cols then Get(r.stats, f) / (r.g as real) else Get(r.stats, f)
  {
    if cols != [] {
      var init := cols[..|cols| - 1];
      var last := cols[|cols| - 1];
      assert cols == init + [last];
      DivideColsSpec(r, init, f);
      if f == last {
        assert f !in init;
      }
    }
  }

  /**
   * Normalisation replaces exactly `Total Epa`, `Hrry`, `Blitz`, `Poor` and
   * `Drop` with their per-game value and changes nothing else in the row.
   */
  lemma NormalizeRowSpec(r: SeasonRow)
    requires r.g > 0
    ensures NormalizeRow(r).name == r.name && NormalizeRow(r).season == r.season
    ensures NormalizeRow(r).g == r.g && NormalizeRow(r).fptsPerGame == r.fptsPerGame
    ensures forall f :: (Get(NormalizeRow(r).stats, f) ==
      if f in PerGameCols then Get(r.stats, f) / (r.g as real) else Get(r.stats, f))
  {
    forall f ensures Get(NormalizeRow(r).stats, f) ==
      if f in PerGameCols then Get(r.stats, f) / (r.g as real) else Get(r.stats, f)
    {
      DivideColsSpec(r, PerGameCols, f);
    }
  }

  /** A row with one game played comes out of normalisation unchanged. */
  lemma NormalizeOneGame(r: SeasonRow)
    requires r.g == 1
    ensures NormalizeRow(r) == r
  {
    NormalizeRowSpec(r);
    LineExt(NormalizeRow(r).stats, r.stats);
  }

  /**
   * The normalisation loop: for each per-game column in turn, the whole
   * column is divided by "G" (the inner `forall` is the vectorised update).
   */
  method NormalizePerGame(table: array<SeasonRow>)
    requires forall i :: 0 <= i < table.Length ==> table[i].g > 0
    modifies table
    ensures table[..] == Normalized(old(table[..]))
  {
    var c := 0;
    while c < |PerGameCols|
      invariant 0 <= c <= |PerGameCols|
      invariant forall i :: 0 <= i < table.Length ==> old(table[i]).g > 0
      invariant forall i :: 0 <= i < table.Length ==> table[i] == DivideCols(old(table[i]), PerGameCols[..c])
    {
      var col := PerGameCols[c];
      assert PerGameCols[..c + 1][..c] == PerGameCols[..c];
      forall i | 0 <= i < table.Length {
        table[i] := DivideCol(table[i], col);
      }
      c := c + 1;
    }
    assert PerGameCols[..c] == PerGameCols;
  }

  /** `expected_fantasy`: the custom score of the (normalised) season row. */
  function ExpectedFantasy(r: SeasonRow): real
  {
    Score(r.stats)
  }

  /** `fantasy_actual`: realized points, per-game points times games played. */
  function FantasyActual(r: SeasonRow): real
  {
    r.fptsPerGame * (r.g as real)
  }

  /** `diff`: how far the custom score overestimates the realized points. */
  function Diff(r: SeasonRow): real
  {
    ExpectedFantasy(r) - FantasyActual(r)
  }

  /** The column `f` of a table of season rows. */
  function Values(rows: seq<SeasonRow>, f: Field): (v: seq<real>)
    ensures |v| == |rows| && forall i :: 0 <= i < |rows| ==> v[i] == Get(rows[i].stats, f)
  {
    seq(|rows|, i requires 0 <= i < |rows| => Get(rows[i].stats, f))
  }

  /** The `diff` column of a table of season rows. */
  function Diffs(rows: seq<SeasonRow>): (v: seq<real>)
    ensures |v| == |rows| && forall i :: 0 <= i < |rows| ==> v[i] == Diff(rows[i])
  {
    seq(|rows|, i requires 0 <= i < |rows| => Diff(rows[i]))
  }

  /** The column-wise mean of one player's seasons. */
  function MeanLine(rows: seq<SeasonRow>): StatLine
    requires |rows| > 0
  {
    Tabulate(f => Mean(Values(rows, f)))
  }

  /** `avg_diff_per_season` of one player's seasons. */
  function MeanDiff(rows: seq<SeasonRow>): real
    requires |rows| > 0
  {
    Mean(Diffs(rows))
  }

  /** `advanced_stats_avg`: `groupby("Player Name")[advanced_cols].mean()`, columns read as `<col>_adv`. */
  function AdvancedProfile(h: seq<SeasonRow>): seq<Keyed<StatLine>>
  {
    GroupBy(h, PlayerName, MeanLine)
  }

  /** `qb_performance`: `groupby("Player Name")[["diff"]].mean()`. */
  function BiasTable(h: seq<SeasonRow>): seq<Keyed<real>>
  {
    GroupBy(h, PlayerName, MeanDiff)
  }

  /** The seasons of player `n`, in table order. */
  function SeasonsOf(h: seq<SeasonRow>, n: string): seq<SeasonRow>
  {
    Where(h, PlayerName, n)
  }

  /** `n` is a player of the historical table. */
  predicate Played(h: seq<SeasonRow>, n: string)
  {
    n in KeysOf(h, PlayerName)
  }

  /**
   * The advanced profile has exactly one row per distinct player of the
   * historical table, and its `<col>_adv` is the mean of `<col>` over that
   * player's seasons.
   */
  lemma AdvancedProfileSpec(h: seq<SeasonRow>, n: string)
    ensures UniqueKeys(AdvancedProfile(h))
    ensures Lookup(AdvancedProfile(h), n).Some? <==> Played(h, n)
    ensures Played(h, n) ==> (|SeasonsOf(h, n)| > 0 && forall f ::
      Get(Lookup(AdvancedProfile(h), n).value, f) == Mean(Values(SeasonsOf(h, n), f)))
  {
  }

  /** Per-player bias is the mean of `expected_fantasy - Fpts/G * G` over that player's seasons. */
  lemma BiasTableSpec(h: seq<SeasonRow>, n: string)
    ensures UniqueKeys(BiasTable(h))
    ensures Lookup(BiasTable(h), n).Some? <==> Played(h, n)
    ensures Played(h, n) ==>
      (|SeasonsOf(h, n)| > 0 && Lookup(BiasTable(h), n) == Some(Mean(Diffs(SeasonsOf(h, n)))))
  {
  }

  lemma {:induction false} WhereOnly(h: seq<SeasonRow>, i: nat)
    requires i < |h|
    requires forall j :: 0 <= j < |h| && j != i ==> h[j].name != h[i].name
    ensures Where(h, PlayerName, h[i].name) == [h[i]]
  {
    var n := h[i].name;
    if i == 0 {
      assert Where(h[1..], PlayerName, n) == [] by {
        assert n !in KeysOf(h[1..], PlayerName);
      }
    } else {
      WhereOnly(h[1..], i - 1);
      assert h[1..][i - 1] == h[i];
    }
  }

  lemma MeanLineSingle(r: SeasonRow)
    ensures MeanLine([r]) == r.stats
  {
    var m := MeanLine([r]);
    forall f ensures Get(m, f) == Get(r.stats, f) {
      var v := Get(r.stats, f);
      assert Values([r], f) == [v];
      assert Sum([v]) == v + Sum([]);
    }
    LineExt(m, r.stats);
  }

  /** A player with a single season has that season's values as their profile. */
  lemma SingleSeasonProfile(h: seq<SeasonRow>, i: nat)
    requires i < |h|
    requires forall j :: 0 <= j < |h| && j != i ==> h[j].name != h[i].name
    ensures Lookup(AdvancedProfile(h), h[i].name) == Some(h[i].stats)
  {
    WhereOnly(h, i);
    assert h[i].name in KeysOf(h, PlayerName);
    MeanLineSingle(h[i]);
  }

  /** When the score matches the realized points in every season of player `n`, that player's bias is zero. */
  lemma BiasZeroWhenExact(h: seq<SeasonRow>, n: string)
    requires forall i :: 0 <= i < |h| && h[i].name == n ==> ExpectedFantasy(h[i]) == FantasyActual(h[i])
    ensures Lookup(BiasTable(h), n) == if Played(h, n) then Some(0.0) else None
  {
    BiasTableSpec(h, n);
    if Played(h, n) {
      var d := Diffs(SeasonsOf(h, n));
      forall i | 0 <= i < |d| ensures d[i] == 0.0 {
        assert SeasonsOf(h, n)[i] in h;
      }
      MeanConstant(d, 0.0);
    }
  }

  /** Two seasons that overestimate by 10 and 15 points give a bias of 12.5. */
  lemma BiasTwoSeasons(r1: SeasonRow, r2: SeasonRow)
    requires r1.name == "A" && r2.name == "A"
    requires Diff(r1) == 10.0 && Diff(r2) == 15.0
    ensures Lookup(BiasTable([r1, r2]), "A") == Some(12.5)
  {
    var h := [r1, r2];
    assert Played(h, "A");
    BiasTableSpec(h, "A");
    WhereAll(h, PlayerName, "A");
    assert Diffs([r1, r2]) == [10.0, 15.0];
    assert Sum([10.0, 15.0]) == 10.0 + Sum([15.0]);
    assert Sum([15.0]) == 15.0 + Sum([]);
  }
}
