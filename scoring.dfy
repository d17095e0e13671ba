/**
 * The custom fantasy score: a fixed linear combination of fifteen quarterback
 * statistics (fantasy_optimizer.py, `calculate_custom_fantasy_score`).
 */
module Scoring {

  /** The fifteen statistic columns the score and the advanced profile use (`advanced_cols`). */
  datatype Field =
    | PassTd | PassYards | Int | RushTds | RushYds
    | CmpPct | SuccessPct | EpaPerPlay | TotalEpa | SackPct
    | Hrry | Blitz | Poor | Drop | Adot

  /** One value per statistic column ("Pass Td", "Pass Yards", "Int", ...). */
  datatype StatLine = StatLine(
    passTd: real, passYards: real, ints: real, rushTds: real, rushYds: real,
    cmpPct: real, successPct: real, epaPerPlay: real, totalEpa: real, sackPct: real,
    hrry: real, blitz: real, poor: real, drop: real, adot: real)

  /** `per_game_normalize`: the season totals that are turned into per-game rates. */
  const PerGameCols: seq<Field> := [TotalEpa, Hrry, Blitz, Poor, Drop]

  /** The five counting stats a projection supplies (and coerces to numbers). */
  const CountingCols: seq<Field> := [PassYards, PassTd, Int, RushYds, RushTds]

  function Get(s: StatLine, f: Field): real
  {
    match f
    case PassTd => s.passTd
    case PassYards => s.passYards
    case Int => s.ints
    case RushTds => s.rushTds
    case RushYds => s.rushYds
    case CmpPct => s.cmpPct
    case SuccessPct => s.successPct
    case EpaPerPlay => s.epaPerPlay
    case TotalEpa => s.totalEpa
    case SackPct => s.sackPct
    case Hrry => s.hrry
    case Blitz => s.blitz
    case Poor => s.poor
    case Drop => s.drop
    case Adot => s.adot
  }

  /** The line with column `f` overwritten by `v`; every other column is kept. */
  function With(s: StatLine, f: Field, v: real): (r: StatLine)
    ensures Get(r, f) == v
    ensures forall g :: g != f ==> Get(r, g) == Get(s, g)
  {
    match f
    case PassTd => s.(passTd := v)
    case PassYards => s.(passYards := v)
    case Int => s.(ints := v)
    case RushTds => s.(rushTds := v)
    case RushYds => s.(rushYds := v)
    case CmpPct => s.(cmpPct := v)
    case SuccessPct => s.(successPct := v)
    case EpaPerPlay => s.(epaPerPlay := v)
    case TotalEpa => s.(totalEpa := v)
    case SackPct => s.(sackPct := v)
    case Hrry => s.(hrry := v)
    case Blitz => s.(blitz := v)
    case Poor => s.(poor := v)
    case Drop => s.(drop := v)
    case Adot => s.(adot := v)
  }

  /** The line whose column `f` holds `g(f)`. */
  function Tabulate(g: Field -> real): (r: StatLine)
    ensures forall f :: Get(r, f) == g(f)
  {
    StatLine(g(PassTd), g(PassYards), g(Int), g(RushTds), g(RushYds),
             g(CmpPct), g(SuccessPct), g(EpaPerPlay), g(TotalEpa), g(SackPct),
             g(Hrry), g(Blitz), g(Poor), g(Drop), g(Adot))
  }

  /** The all-zero line, which `fillna(0)` gives a player with no history. */
  const Zero: StatLine := Tabulate(_ => 0.0)

  /** Two lines that agree on every column are the same line. */
  lemma {:induction false} LineExt(s: StatLine, t: StatLine)
    requires forall f :: Get(s, f) == Get(t, f)
    ensures s == t
  {
    assert Get(s, PassTd) == Get(t, PassTd) && Get(s, PassYards) == Get(t, PassYards);
    assert Get(s, Int) == Get(t, Int) && Get(s, RushTds) == Get(t, RushTds);
    assert Get(s, RushYds) == Get(t, RushYds) && Get(s, CmpPct) == Get(t, CmpPct);
    assert Get(s, SuccessPct) == Get(t, SuccessPct) && Get(s, EpaPerPlay) == Get(t, EpaPerPlay);
    assert Get(s, TotalEpa) == Get(t, TotalEpa) && Get(s, SackPct) == Get(t, SackPct);
    assert Get(s, Hrry) == Get(t, Hrry) && Get(s, Blitz) == Get(t, Blitz);
    assert Get(s, Poor) == Get(t, Poor) && Get(s, Drop) == Get(t, Drop);
    assert Get(s, Adot) == Get(t, Adot);
  }

  /** The weight the score gives each column, as a coefficient table. */
  function Coef(f: Field): real
  {
    match f
    case PassTd => 2.0
    case PassYards => 1.0 / 40.0
    case Int => -2.0
    case RushTds => 3.0
    case RushYds => 1.0 / 20.0
    case CmpPct => 10.0 / 100.0
    case SuccessPct => 10.0
    case EpaPerPlay => 25.0
    case TotalEpa => 5.0
    case SackPct => -12.0
    case Hrry => -5.0
    case Blitz => -3.0
    case Poor => -15.0
    case Drop => -8.0
    case Adot => 4.0
  }

  /** `calculate_custom_fantasy_score`, term by term as the source writes it. */
  function Score(s: StatLine): real
  {
    s.passTd * 2.0 +
    s.passYards / 40.0 +
    s.ints * -2.0 +
    s.rushTds * 3.0 +
    s.rushYds / 20.0 +
    s.cmpPct / 100.0 * 10.0 +
    s.successPct * 10.0 +
    s.epaPerPlay * 25.0 +
    s.totalEpa * 5.0 +
    s.sackPct * -12.0 +
    s.hrry * -5.0 +
    s.blitz * -3.0 +
    s.poor * -15.0 +
    s.drop * -8.0 +
    s.adot * 4.0
  }

  /** Linearity: moving one column by `d`, the others fixed, moves the score by `Coef(f) * d`. */
  lemma ScoreLinear(s: StatLine, f: Field, d: real)
    ensures Score(With(s, f, Get(s, f) + d)) == Score(s) + Coef(f) * d
  {
  }

  /** The all-zero line scores zero. */
  lemma ScoreZero()
    ensures Score(Zero) == 0.0
  {
  }
}
