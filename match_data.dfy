/** The shape of the match records that the data source supplies: overs of
    ball outcomes, batting and bowling cards grouped by team. */
module MatchData {

  /** One entry of an over's `runs` list: a run count, or the string "W"
      for a wicket. */
  datatype Ball = Runs(n: nat) | Wicket

  /** `{ over, runs }`: the over number and its balls in the order bowled. */
  datatype Over = Over(over: int, runs: seq<Ball>)

  /** A ball's contribution to the score: "W" counts as 0. */
  function BallRuns(b: Ball): nat
  {
    match b
    case Runs(n) => n
    case Wicket => 0
  }

  /** The sum of the non-"W" balls. */
  function OverRuns(balls: seq<Ball>): nat
    decreases |balls|
  {
    if balls == [] then 0 else OverRuns(balls[..|balls| - 1]) + BallRuns(balls[|balls| - 1])
  }

  /** The number of "W" balls. */
  function WicketCount(balls: seq<Ball>): nat
    decreases |balls|
  {
    if balls == [] then 0
    else WicketCount(balls[..|balls| - 1]) + (if balls[|balls| - 1].Wicket? then 1 else 0)
  }

  function TotalRuns(overs: seq<Over>): nat
    decreases |overs|
  {
    if overs == [] then 0 else TotalRuns(overs[..|overs| - 1]) + OverRuns(overs[|overs| - 1].runs)
  }

  function TotalWickets(overs: seq<Over>): nat
    decreases |overs|
  {
    if overs == [] then 0 else TotalWickets(overs[..|overs| - 1]) + WicketCount(overs[|overs| - 1].runs)
  }

  lemma {:induction false} TotalsConcat(a: seq<Over>, b: seq<Over>)
    ensures TotalRuns(a + b) == TotalRuns(a) + TotalRuns(b)
    ensures TotalWickets(a + b) == TotalWickets(a) + TotalWickets(b)
    decreases |b|
  {
    if b == [] {
      assert a + b == a;
    } else {
      assert (a + b)[..|a + b| - 1] == a + b[..|b| - 1];
      TotalsConcat(a, b[..|b| - 1]);
    }
  }

  /** Totals over a longer prefix are at least those over a shorter one. */
  lemma {:induction false} TotalsMonotone(s: seq<Over>, i: nat, j: nat)
    requires i <= j <= |s|
    ensures TotalRuns(s[..i]) <= TotalRuns(s[..j])
    ensures TotalWickets(s[..i]) <= TotalWickets(s[..j])
  {
    assert s[..j] == s[..i] + s[i..j];
    TotalsConcat(s[..i], s[i..j]);
  }

  /** A batting-card line. `strikeRate` is the stored figure, never
      recomputed; `status` is the dismissal text. */
  datatype BattingEntry = BattingEntry(
    name: string, runs: int, balls: int, fours: int, sixes: int,
    strikeRate: real, status: string)

  /** A bowling-card line; `overs` is the stored text such as "9.3". */
  datatype BowlingEntry = BowlingEntry(
    name: string, overs: string, maidens: int, runs: int, wickets: int,
    economy: real)

  /** `{ team, players }` groups of the batting and bowling cards. */
  datatype TeamBatting = TeamBatting(team: string, players: seq<BattingEntry>)
  datatype TeamBowling = TeamBowling(team: string, players: seq<BowlingEntry>)

  /** The fields of a match-detail record that the core reads. */
  datatype MatchDetail = MatchDetail(
    id: int, team1: string, team2: string, score1: string, score2: string,
    status: string, venue: string,
    batting: seq<TeamBatting>, bowling: seq<TeamBowling>,
    recentOvers: seq<Over>)
}
