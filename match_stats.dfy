/** The scorecard aggregations behind the match statistics charts: the
    current run rate, the runs progression, the top performers, the team
    comparison read from the score strings, boundary totals, the bowler
    table sorted by wickets and the approximate runs-type split. */
module MatchStats {
  import opened Wrappers
  import opened Text
  import Seqs
  import opened MatchData
  import MatchTimeline
  import Helpers

  // ---------------------------------------------------------------------
  // calculateRunRate

  /** `calculateRunRate(recentOvers)`: the runs of the listed overs ("W"
      scoring nothing) per listed over; 0 when the list is absent or empty. */
  function CalculateRunRate(recentOvers: Option<seq<Over>>): (r: real)
    ensures recentOvers.None? || recentOvers.value == [] ==> r == 0.0
    ensures recentOvers.Some? && recentOvers.value != [] ==>
      r * |recentOvers.value| as real == TotalRuns(recentOvers.value) as real
  {
    if recentOvers.None? || |recentOvers.value| == 0 then 0.0
    else TotalRuns(recentOvers.value) as real / |recentOvers.value| as real
  }

  /** The run rate is the score that the timeline's last 'over' event shows
      divided by the number of overs, whatever order they are listed in. */
  lemma {:induction false} RunRateMatchesTimeline(recentOvers: seq<Over>)
    requires recentOvers != []
    ensures var ends := MatchTimeline.OfTag(MatchTimeline.TimelineEvents(recentOvers), MatchTimeline.OverTag);
      |ends| == |recentOvers| &&
      CalculateRunRate(Some(recentOvers)) == ends[|ends| - 1].runs as real / |recentOvers| as real
  {
    MatchTimeline.FinalTotals(recentOvers);
  }

  // ---------------------------------------------------------------------
  // generateRunsProgressionData

  datatype ProgressPoint = ProgressPoint(over: int, runs: nat, overRuns: nat, wickets: nat)

  /** The point that the `map` callback builds for the over at index `k`:
      by then `team1Runs` has absorbed every over up to and including `k`. */
  function PointAt(overs: seq<Over>, k: nat): ProgressPoint
    requires k < |overs|
  {
    ProgressPoint(overs[k].over, TotalRuns(overs[..k + 1]), OverRuns(overs[k].runs), WicketCount(overs[k].runs))
  }

  /** `generateRunsProgressionData()`: one point per over, accumulated in the
      order given and then reversed. */
  method GenerateRunsProgressionData(recentOvers: Option<seq<Over>>) returns (data: seq<ProgressPoint>)
    ensures recentOvers.None? ==> data == []
    ensures recentOvers.Some? ==> |data| == |recentOvers.value|
    ensures recentOvers.Some? ==>
      forall i :: 0 <= i < |data| ==> data[i] == PointAt(recentOvers.value, |data| - 1 - i)
  {
    if recentOvers.None? {
      return [];
    }
    var overs := recentOvers.value;
    var team1Runs := 0;
    var mapped: seq<ProgressPoint> := [];
    for index := 0 to |overs|
      invariant |mapped| == index
      invariant team1Runs == TotalRuns(overs[..index])
      invariant forall k :: 0 <= k < index ==> mapped[k] == PointAt(overs, k)
    {
      var over := overs[index];
      var overRuns := OverRuns(over.runs);
      var wickets := WicketCount(over.runs);
      assert overs[..index + 1][..index] == overs[..index];
      team1Runs := team1Runs + overRuns;
      mapped := mapped + [ProgressPoint(over.over, team1Runs, overRuns, wickets)];
    }
    data := seq(|mapped|, i requires 0 <= i < |mapped| => mapped[|mapped| - 1 - i]);
  }

  /** The running total only grows along the input order, so after the
      reversal the points' `runs` never increase. */
  lemma {:induction false} ProgressionRunsNonIncreasing(overs: seq<Over>, i: nat, j: nat)
    requires i <= j < |overs|
    ensures PointAt(overs, |overs| - 1 - i).runs >= PointAt(overs, |overs| - 1 - j).runs
  {
    TotalsMonotone(overs, |overs| - j, |overs| - i);
  }

  /** Each point's `runs` is the previous input over's `runs` plus its own
      `overRuns`; the first point shows the runs of all the listed overs. */
  lemma {:induction false} ProgressionSteps(overs: seq<Over>, k: nat)
    requires 0 < k < |overs|
    ensures PointAt(overs, k).runs == PointAt(overs, k - 1).runs + PointAt(overs, k).overRuns
    ensures PointAt(overs, |overs| - 1).runs == TotalRuns(overs)
  {
    assert overs[..k + 1][..k] == overs[..k];
    assert overs[..|overs|] == overs;
  }

  /** With the overs listed most recent first, as the data source lists them,
      the earliest over is shown with the runs of all three overs and the
      latest with its own runs only. */
  lemma {:induction false} ProgressionOfMostRecentFirst()
    ensures var s := [Over(42, [Runs(6)]), Over(41, [Runs(1)]), Over(40, [Runs(4)])];
      PointAt(s, 2) == ProgressPoint(40, 11, 4, 0) && PointAt(s, 0) == ProgressPoint(42, 6, 6, 0)
  {
    var s := [Over(42, [Runs(6)]), Over(41, [Runs(1)]), Over(40, [Runs(4)])];
    assert [Runs(6)][..0] == [] && [Runs(1)][..0] == [] && [Runs(4)][..0] == [];
    assert s[..3] == s;
    assert s[..3][..2] == s[..2] && s[..2][..1] == s[..1] && s[..1][..0] == [];
    assert TotalRuns(s[..1]) == 6;
    assert TotalRuns(s[..2]) == 7;
  }

  /** The running total that a progression chart is evidently meant to show:
      over the input reversed into ascending order, the point at position
      `i` carries the runs of that over and of every earlier one. */
  function CorrectedPointAt(overs: seq<Over>, i: nat): ProgressPoint
    requires i < |overs|
  {
    var k := |overs| - 1 - i;
    ProgressPoint(overs[k].over, TotalRuns(overs[k..]), OverRuns(overs[k].runs), WicketCount(overs[k].runs))
  }

  /** The corrected points' runs never decrease along the output, and the
      last one carries the runs of all the overs. */
  lemma {:induction false} CorrectedProgressionAscends(overs: seq<Over>, i: nat, j: nat)
    requires i <= j < |overs|
    ensures CorrectedPointAt(overs, i).runs <= CorrectedPointAt(overs, j).runs
  {
    var a, b := |overs| - 1 - j, |overs| - 1 - i;
    assert overs[a..] == overs[a..b] + overs[b..];
    TotalsConcat(overs[a..b], overs[b..]);
    assert CorrectedPointAt(overs, i).runs == TotalRuns(overs[b..]);
    assert CorrectedPointAt(overs, j).runs == TotalRuns(overs[a..]);
  }

  /** The last corrected point carries the runs of all the overs. */
  lemma {:induction false} CorrectedProgressionEndsAtTotal(overs: seq<Over>)
    requires overs != []
    ensures CorrectedPointAt(overs, |overs| - 1).runs == TotalRuns(overs)
  {
    assert overs[0..] == overs;
  }

  /** On the same input the corrected chart shows the earliest over with its
      own runs and the latest with the runs of all three. */
  lemma {:induction false} CorrectedProgressionOfMostRecentFirst()
    ensures var s := [Over(42, [Runs(6)]), Over(41, [Runs(1)]), Over(40, [Runs(4)])];
      CorrectedPointAt(s, 0) == ProgressPoint(40, 4, 4, 0) && CorrectedPointAt(s, 2) == ProgressPoint(42, 11, 6, 0)
  {
    var s := [Over(42, [Runs(6)]), Over(41, [Runs(1)]), Over(40, [Runs(4)])];
    assert [Runs(6)][..0] == [] && [Runs(1)][..0] == [] && [Runs(4)][..0] == [];
    assert s[2..] == [Over(40, [Runs(4)])] && s[0..] == s;
    assert s[..3] == s;
    assert s[..3][..2] == s[..2] && s[..2][..1] == s[..1] && s[..1][..0] == [];
    assert s[2..][..0] == [];
    assert TotalRuns(s[..1]) == 6;
    assert TotalRuns(s[..2]) == 7;
    assert TotalRuns(s[2..]) == 4;
  }

  // ---------------------------------------------------------------------
  // findTopScorer and findTopWicketTaker

  /** Position `k` holds the greatest key and no earlier position holds it:
      the element that a running maximum with a strict `>` settles on. */
  predicate IsFirstMax(keys: seq<int>, k: nat)
  {
    k < |keys| &&
    (forall j :: 0 <= j < |keys| ==> keys[j] <= keys[k]) &&
    (forall j :: 0 <= j < k ==> keys[j] < keys[k])
  }

  /** At most one position is the first maximum, so the result is determined. */
  lemma {:induction false} FirstMaxUnique(keys: seq<int>, k1: nat, k2: nat)
    requires IsFirstMax(keys, k1) && IsFirstMax(keys, k2)
    ensures k1 == k2
  {
    assert keys[k1] == keys[k2];
  }

  /** The state of a running maximum that starts at -1, after the keys
      `keys`: either no key exceeded -1, or `best` is the first maximum and
      `maxKey` its key. */
  ghost predicate RunningMax(keys: seq<int>, found: bool, maxKey: int, best: nat)
  {
    if found then IsFirstMax(keys, best) && maxKey == keys[best] && maxKey >= 0
    else maxKey == -1 && forall j :: 0 <= j < |keys| ==> keys[j] < 0
  }

  lemma {:induction false} RunningMaxStep(keys: seq<int>, found: bool, maxKey: int, best: nat, x: int)
    requires RunningMax(keys, found, maxKey, best)
    ensures x > maxKey ==> RunningMax(keys + [x], true, x, |keys|)
    ensures x <= maxKey ==> RunningMax(keys + [x], found, maxKey, best)
  {
    var ks := keys + [x];
    if x > maxKey {
      forall j | 0 <= j < |ks| ensures ks[j] <= x {
        if j < |keys| {
          assert ks[j] == keys[j];
        }
      }
    } else if found {
      assert ks[best] == keys[best];
    }
  }

  /** A batting-card line together with the name of its team. */
  datatype BattingRow = BattingRow(team: string, player: BattingEntry)

  function TeamBattingRows(t: TeamBatting): seq<BattingRow>
  {
    seq(|t.players|, j requires 0 <= j < |t.players| => BattingRow(t.team, t.players[j]))
  }

  /** Every batting line of every team, in the order of the nested `forEach`. */
  function BattingRows(teams: seq<TeamBatting>): seq<BattingRow>
    decreases |teams|
  {
    if teams == [] then [] else BattingRows(teams[..|teams| - 1]) + TeamBattingRows(teams[|teams| - 1])
  }

  function RunsOf(rows: seq<BattingRow>): seq<int>
  {
    seq(|rows|, j requires 0 <= j < |rows| => rows[j].player.runs)
  }

  /** The rows of the first `t` teams come first, in team-then-player order. */
  lemma {:induction false} BattingRowsPrefix(teams: seq<TeamBatting>, t: nat)
    requires t <= |teams|
    ensures |BattingRows(teams[..t])| <= |BattingRows(teams)|
    ensures BattingRows(teams[..t]) == BattingRows(teams)[..|BattingRows(teams[..t])|]
    decreases |teams|
  {
    if t < |teams| {
      var init := teams[..|teams| - 1];
      assert init[..t] == teams[..t];
      BattingRowsPrefix(init, t);
    } else {
      assert teams[..t] == teams;
    }
  }

  /** Player `p` of team `t` sits right after all the rows of the teams
      before `t`. */
  lemma {:induction false} BattingRowOf(teams: seq<TeamBatting>, t: nat, p: nat)
    requires t < |teams| && p < |teams[t].players|
    ensures var k := |BattingRows(teams[..t])| + p;
      k < |BattingRows(teams)| && BattingRows(teams)[k] == BattingRow(teams[t].team, teams[t].players[p])
  {
    BattingRowsPrefix(teams, t + 1);
    assert teams[..t + 1][..t] == teams[..t];
  }

  /** When no team has any player there are no rows at all. */
  lemma {:induction false} BattingRowsEmpty(teams: seq<TeamBatting>)
    requires forall i :: 0 <= i < |teams| ==> teams[i].players == []
    ensures BattingRows(teams) == []
    decreases |teams|
  {
    if teams != [] {
      BattingRowsEmpty(teams[..|teams| - 1]);
    }
  }

  /** `{ name, runs, balls, team, strikeRate }` */
  datatype TopScorer = TopScorer(name: string, runs: int, balls: int, team: string, strikeRate: real)

  function ScorerOf(row: BattingRow): TopScorer
  {
    TopScorer(row.player.name, row.player.runs, row.player.balls, row.team, row.player.strikeRate)
  }

  /** The running state of `findTopScorer` after the rows `rows`. */
  ghost predicate ScorerState(rows: seq<BattingRow>, top: Option<TopScorer>, maxRuns: int, best: nat)
  {
    && RunningMax(RunsOf(rows), top.Some?, maxRuns, best)
    && (top.Some? ==> best < |rows| && top.value == ScorerOf(rows[best]))
  }

  lemma {:induction false} ScorerStep(rows: seq<BattingRow>, top: Option<TopScorer>, maxRuns: int, best: nat, row: BattingRow)
    requires ScorerState(rows, top, maxRuns, best)
    ensures row.player.runs > maxRuns ==> ScorerState(rows + [row], Some(ScorerOf(row)), row.player.runs, |rows|)
    ensures row.player.runs <= maxRuns ==> ScorerState(rows + [row], top, maxRuns, best)
  {
    assert RunsOf(rows + [row]) == RunsOf(rows) + [row.player.runs];
    RunningMaxStep(RunsOf(rows), top.Some?, maxRuns, best, row.player.runs);
    if top.Some? {
      assert (rows + [row])[best] == rows[best];
    }
  }

  /** The inner `forEach` of `findTopScorer` over the batters of one team. */
  method ScanTeamBatters(team: TeamBatting, ghost seen: seq<BattingRow>, top0: Option<TopScorer>, max0: int, ghost best0: nat)
    returns (top: Option<TopScorer>, maxRuns: int, ghost best: nat)
    requires ScorerState(seen, top0, max0, best0)
    ensures ScorerState(seen + TeamBattingRows(team), top, maxRuns, best)
  {
    var rows := TeamBattingRows(team);
    top, maxRuns, best := top0, max0, best0;
    assert seen + rows[..0] == seen;
    for p := 0 to |team.players|
      invariant ScorerState(seen + rows[..p], top, maxRuns, best)
    {
      var player := team.players[p];
      ghost var before := seen + rows[..p];
      ScorerStep(before, top, maxRuns, best, BattingRow(team.team, player));
      if player.runs > maxRuns {
        maxRuns := player.runs;
        top := Some(TopScorer(player.name, player.runs, player.balls, team.team, player.strikeRate));
        best := |before|;
      }
      assert seen + rows[..p + 1] == before + [BattingRow(team.team, player)];
    }
    assert rows[..|team.players|] == rows;
  }

  /** `findTopScorer(battingData)`: `None` (null) for an absent list and when no
      player has at least 0 runs (in particular when there are no players);
      otherwise the first player, in team-then-player order, with the most
      runs, carrying its team's name and its stored strike rate. */
  method FindTopScorer(battingData: Option<seq<TeamBatting>>) returns (top: Option<TopScorer>)
    ensures battingData.None? ==> top.None?
    ensures battingData.Some? ==>
      (top.None? <==> forall j :: 0 <= j < |BattingRows(battingData.value)| ==> BattingRows(battingData.value)[j].player.runs < 0)
    ensures battingData.Some? && top.Some? ==>
      exists k: nat :: IsFirstMax(RunsOf(BattingRows(battingData.value)), k) &&
        BattingRows(battingData.value)[k].player.runs >= 0 &&
        top.value == ScorerOf(BattingRows(battingData.value)[k])
  {
    if battingData.None? || |battingData.value| == 0 {
      return None;
    }
    var teams := battingData.value;
    top := None;
    var maxRuns := -1;
    ghost var best: nat := 0;
    for t := 0 to |teams|
      invariant ScorerState(BattingRows(teams[..t]), top, maxRuns, best)
    {
      top, maxRuns, best := ScanTeamBatters(teams[t], BattingRows(teams[..t]), top, maxRuns, best);
      assert teams[..t + 1][..t] == teams[..t];
    }
    assert teams[..|teams|] == teams;
    ghost var rows := BattingRows(teams);
    if top.Some? {
      assert RunsOf(rows)[best] == rows[best].player.runs;
    } else {
      forall j | 0 <= j < |rows| ensures rows[j].player.runs < 0 {
        assert RunsOf(rows)[j] == rows[j].player.runs;
      }
    }
  }

  /** A bowling-card line together with the name of its team. */
  datatype BowlingRow = BowlingRow(team: string, player: BowlingEntry)

  function TeamBowlingRows(t: TeamBowling): seq<BowlingRow>
  {
    seq(|t.players|, j requires 0 <= j < |t.players| => BowlingRow(t.team, t.players[j]))
  }

  /** Every bowling line of every team, in the order of the nested `forEach`. */
  function BowlingRows(teams: seq<TeamBowling>): seq<BowlingRow>
    decreases |teams|
  {
    if teams == [] then [] else BowlingRows(teams[..|teams| - 1]) + TeamBowlingRows(teams[|teams| - 1])
  }

  function WicketsOf(rows: seq<BowlingRow>): seq<int>
  {
    seq(|rows|, j requires 0 <= j < |rows| => rows[j].player.wickets)
  }

  lemma {:induction false} BowlingRowsPrefix(teams: seq<TeamBowling>, t: nat)
    requires t <= |teams|
    ensures |BowlingRows(teams[..t])| <= |BowlingRows(teams)|
    ensures BowlingRows(teams[..t]) == BowlingRows(teams)[..|BowlingRows(teams[..t])|]
    decreases |teams|
  {
    if t < |teams| {
      var init := teams[..|teams| - 1];
      assert init[..t] == teams[..t];
      BowlingRowsPrefix(init, t);
    } else {
      assert teams[..t] == teams;
    }
  }

  /** Bowler `p` of team `t` sits right after all the rows of the teams
      before `t`. */
  lemma {:induction false} BowlingRowOf(teams: seq<TeamBowling>, t: nat, p: nat)
    requires t < |teams| && p < |teams[t].players|
    ensures var k := |BowlingRows(teams[..t])| + p;
      k < |BowlingRows(teams)| && BowlingRows(teams)[k] == BowlingRow(teams[t].team, teams[t].players[p])
  {
    BowlingRowsPrefix(teams, t + 1);
    assert teams[..t + 1][..t] == teams[..t];
  }

  lemma {:induction false} BowlingRowsEmpty(teams: seq<TeamBowling>)
    requires forall i :: 0 <= i < |teams| ==> teams[i].players == []
    ensures BowlingRows(teams) == []
    decreases |teams|
  {
    if teams != [] {
      BowlingRowsEmpty(teams[..|teams| - 1]);
    }
  }

  /** `{ name, wickets, overs, team, economy }` */
  datatype TopWicketTaker = TopWicketTaker(name: string, wickets: int, overs: string, team: string, economy: real)

  function TakerOf(row: BowlingRow): TopWicketTaker
  {
    TopWicketTaker(row.player.name, row.player.wickets, row.player.overs, row.team, row.player.economy)
  }

  /** The running state of `findTopWicketTaker` after the rows `rows`. */
  ghost predicate TakerState(rows: seq<BowlingRow>, top: Option<TopWicketTaker>, maxWickets: int, best: nat)
  {
    && RunningMax(WicketsOf(rows), top.Some?, maxWickets, best)
    && (top.Some? ==> best < |rows| && top.value == TakerOf(rows[best]))
  }

  lemma {:induction false} TakerStep(rows: seq<BowlingRow>, top: Option<TopWicketTaker>, maxWickets: int, best: nat, row: BowlingRow)
    requires TakerState(rows, top, maxWickets, best)
    ensures row.player.wickets > maxWickets ==> TakerState(rows + [row], Some(TakerOf(row)), row.player.wickets, |rows|)
    ensures row.player.wickets <= maxWickets ==> TakerState(rows + [row], top, maxWickets, best)
  {
    assert WicketsOf(rows + [row]) == WicketsOf(rows) + [row.player.wickets];
    RunningMaxStep(WicketsOf(rows), top.Some?, maxWickets, best, row.player.wickets);
    if top.Some? {
      assert (rows + [row])[best] == rows[best];
    }
  }

  /** The inner `forEach` of `findTopWicketTaker` over the bowlers of one team. */
  method ScanTeamBowlers(team: TeamBowling, ghost seen: seq<BowlingRow>, top0: Option<TopWicketTaker>, max0: int, ghost best0: nat)
    returns (top: Option<TopWicketTaker>, maxWickets: int, ghost best: nat)
    requires TakerState(seen, top0, max0, best0)
    ensures TakerState(seen + TeamBowlingRows(team), top, maxWickets, best)
  {
    var rows := TeamBowlingRows(team);
    top, maxWickets, best := top0, max0, best0;
    assert seen + rows[..0] == seen;
    for p := 0 to |team.players|
      invariant TakerState(seen + rows[..p], top, maxWickets, best)
    {
      var player := team.players[p];
      ghost var before := seen + rows[..p];
      TakerStep(before, top, maxWickets, best, BowlingRow(team.team, player));
      if player.wickets > maxWickets {
        maxWickets := player.wickets;
        top := Some(TopWicketTaker(player.name, player.wickets, player.overs, team.team, player.economy));
        best := |before|;
      }
      assert seen + rows[..p + 1] == before + [BowlingRow(team.team, player)];
    }
    assert rows[..|team.players|] == rows;
  }

  /** `findTopWicketTaker(bowlingData)`: as `FindTopScorer`, on wickets, carrying
      the stored overs text and economy. */
  method FindTopWicketTaker(bowlingData: Option<seq<TeamBowling>>) returns (top: Option<TopWicketTaker>)
    ensures bowlingData.None? ==> top.None?
    ensures bowlingData.Some? ==>
      (top.None? <==> forall j :: 0 <= j < |BowlingRows(bowlingData.value)| ==> BowlingRows(bowlingData.value)[j].player.wickets < 0)
    ensures bowlingData.Some? && top.Some? ==>
      exists k: nat :: IsFirstMax(WicketsOf(BowlingRows(bowlingData.value)), k) &&
        BowlingRows(bowlingData.value)[k].player.wickets >= 0 &&
        top.value == TakerOf(BowlingRows(bowlingData.value)[k])
  {
    if bowlingData.None? || |bowlingData.value| == 0 {
      return None;
    }
    var teams := bowlingData.value;
    top := None;
    var maxWickets := -1;
    ghost var best: nat := 0;
    for t := 0 to |teams|
      invariant TakerState(BowlingRows(teams[..t]), top, maxWickets, best)
    {
      top, maxWickets, best := ScanTeamBowlers(teams[t], BowlingRows(teams[..t]), top, maxWickets, best);
      assert teams[..t + 1][..t] == teams[..t];
    }
    assert teams[..|teams|] == teams;
    ghost var rows := BowlingRows(teams);
    if top.Some? {
      assert WicketsOf(rows)[best] == rows[best].player.wickets;
    } else {
      forall j | 0 <= j < |rows| ensures rows[j].player.wickets < 0 {
        assert WicketsOf(rows)[j] == rows[j].player.wickets;
      }
    }
  }

  // ---------------------------------------------------------------------
  // generateTeamComparisonData

  /** The characters that JavaScript's `.` does not match. */
  predicate IsLineTerminator(c: char)
  {
    c == '\n' || c == '\r' || c == 0x2028 as char || c == 0x2029 as char
  }

  /** The lazy `(.*?)` followed by `close`, started at `from`: the first
      position where `close` occurs, provided no line terminator comes
      before it. */
  function LazyUpTo(s: string, from: nat, close: string): (r: Option<nat>)
    requires from <= |s|
    ensures r.Some? ==> from <= r.value <= |s|
    decreases |s| - from
  {
    if OccursAt(s, close, from) then Some(from)
    else if from == |s| || IsLineTerminator(s[from]) then None
    else LazyUpTo(s, from + 1, close)
  }

  /** `s.match(/\((.*?)<close>/)` searched from position `i`: the group
      captured from the leftmost '(' at which the lazy group reaches `close`. */
  function GroupFrom(s: string, i: nat, close: string): (r: Option<string>)
    requires i <= |s|
    ensures r.Some? ==> |r.value| < |s| - i
    decreases |s| - i
  {
    if i == |s| then None
    else if s[i] == '(' && LazyUpTo(s, i + 1, close).Some? then Some(s[i + 1..LazyUpTo(s, i + 1, close).value])
    else GroupFrom(s, i + 1, close)
  }

  lemma {:induction false} LazyUpToFinds(s: string, from: nat, k: nat, close: string)
    requires from <= k <= |s| && OccursAt(s, close, k)
    requires forall m :: from <= m < k ==> !IsLineTerminator(s[m]) && !OccursAt(s, close, m)
    ensures LazyUpTo(s, from, close) == Some(k)
    decreases k - from
  {
    if from < k {
      LazyUpToFinds(s, from + 1, k, close);
    }
  }

  lemma {:induction false} GroupFromFinds(s: string, i: nat, j: nat, close: string)
    requires i <= j < |s| && s[j] == '(' && LazyUpTo(s, j + 1, close).Some?
    requires forall m :: i <= m < j ==> s[m] != '('
    ensures GroupFrom(s, i, close) == Some(s[j + 1..LazyUpTo(s, j + 1, close).value])
    decreases j - i
  {
    if i < j {
      GroupFromFinds(s, i + 1, j, close);
    }
  }

  /** The overs text inside a score's parenthesis: no blank, no ')' and no
      line terminator. */
  predicate PlainOvers(c: string)
  {
    forall m :: 0 <= m < |c| ==> c[m] != ' ' && c[m] != ')' && !IsLineTerminator(c[m])
  }

  /** The lazy group stops at the first `close` when nothing before it can
      start `close` or end the line. */
  lemma {:induction false} LazyUpToFirstChar(s: string, from: nat, k: nat, close: string)
    requires from <= k <= |s| && OccursAt(s, close, k) && close != []
    requires forall m :: from <= m < k ==> !IsLineTerminator(s[m]) && s[m] != close[0]
    ensures LazyUpTo(s, from, close) == Some(k)
  {
    forall m | from <= m < k
      ensures !IsLineTerminator(s[m]) && !OccursAt(s, close, m)
    {
      if m + |close| <= |s| {
        assert s[m..m + |close|][0] != close[0];
      }
    }
    LazyUpToFinds(s, from, k, close);
  }

  /** `s` holds plain overs text from `from` to `k` and then " ov)". */
  predicate OversShape(s: string, from: nat, k: nat)
  {
    from <= k && k + 4 <= |s| && PlainOvers(s[from..k])
    && s[k] == ' ' && s[k + 1] == 'o' && s[k + 2] == 'v' && s[k + 3] == ')'
  }

  /** "<a>(<c> ov)" has that shape after the '('. */
  lemma {:induction false} ScoreLayout(a: string, c: string)
    requires PlainOvers(c)
    ensures OversShape(a + "(" + c + " ov)", |a| + 1, |a| + 1 + |c|)
  {
    var s := a + "(" + c + " ov)";
    assert s[|a| + 1..|a| + 1 + |c|] == c;
  }

  /** A window of `s` holding plain overs text has neither a blank, nor a
      ')', nor a line terminator. */
  lemma {:induction false} PlainWindow(s: string, from: nat, k: nat)
    requires from <= k <= |s| && PlainOvers(s[from..k])
    ensures forall m :: from <= m < k ==> s[m] != ' ' && s[m] != ')' && !IsLineTerminator(s[m])
  {
    forall m | from <= m < k
      ensures s[m] != ' ' && s[m] != ')' && !IsLineTerminator(s[m])
    {
      assert s[m] == s[from..k][m - from];
    }
  }

  /** After a '(' at `from - 1`, plain overs text up to `k` and then " ov)",
      the lazy group meets " ov" at `k` and ')' three characters later. */
  lemma {:induction false} LazyAfterPlain(s: string, from: nat, k: nat)
    requires OversShape(s, from, k)
    ensures LazyUpTo(s, from, " ov") == Some(k)
    ensures LazyUpTo(s, from, ")") == Some(k + 3)
  {
    assert s[k..k + 3] == " ov";
    assert s[k + 3..k + 4] == ")";
    PlainWindow(s, from, k);
    LazyUpToFirstChar(s, from, k, " ov");
    LazyUpToFirstChar(s, from, k + 3, ")");
  }

  /** In "<a>(<c> ov)" the lazy group from the '(' first meets " ov" right
      after `c`. */
  lemma {:induction false} OvAfterOvers(a: string, c: string)
    requires PlainOvers(c)
    ensures LazyUpTo(a + "(" + c + " ov)", |a| + 1, " ov") == Some(|a| + 1 + |c|)
  {
    var s := a + "(" + c + " ov)";
    assert OversShape(s, |a| + 1, |a| + 1 + |c|) by {
      ScoreLayout(a, c);
    }
    LazyAfterPlain(s, |a| + 1, |a| + 1 + |c|);
  }

  /** In "<a>(<c> ov)" the lazy group from the '(' first meets ')' at the
      end. */
  lemma {:induction false} CloseAfterOvers(a: string, c: string)
    requires PlainOvers(c)
    ensures LazyUpTo(a + "(" + c + " ov)", |a| + 1, ")") == Some(|a| + 4 + |c|)
  {
    var s := a + "(" + c + " ov)";
    assert OversShape(s, |a| + 1, |a| + 1 + |c|) by {
      ScoreLayout(a, c);
    }
    LazyAfterPlain(s, |a| + 1, |a| + 1 + |c|);
  }

  /** In "<a>(<c> ov)", with no '(' in `a`, both patterns match and " ov"
      captures `c`. */
  lemma {:induction false} OversGroup(a: string, c: string)
    requires '(' !in a && PlainOvers(c)
    ensures GroupFrom(a + "(" + c + " ov)", 0, ")").Some?
    ensures GroupFrom(a + "(" + c + " ov)", 0, " ov") == Some(c)
  {
    var s := a + "(" + c + " ov)";
    var j := |a|;
    assert s[j] == '(';
    forall m | 0 <= m < j ensures s[m] != '(' {
      assert s[m] == a[m];
    }
    OvAfterOvers(a, c);
    CloseAfterOvers(a, c);
    GroupFromFinds(s, 0, j, " ov");
    GroupFromFinds(s, 0, j, ")");
    assert s[j + 1..j + 1 + |c|] == c;
  }

  /** The team comparison would throw when a "(...)" group has no " ov" to
      end the overs capture. */
  predicate OversReadable(score: string)
  {
    GroupFrom(score, 0, ")").Some? ==> GroupFrom(score, 0, " ov").Some?
  }

  /** `parseInt(score.split(' ')[0].split('/')[0], 10)`; `None` for NaN. */
  function ScoreRuns(score: string): Option<int>
  {
    ParseInt(Split(Split(score, ' ')[0], '/')[0])
  }

  /** `parseInt(score.split(' ')[0].split('/')[1], 10) || 0`: 0 when there
      is no '/' or nothing parseable after it. */
  function ScoreWickets(score: string): (w: int)
    ensures '/' !in Split(score, ' ')[0] ==> w == 0
  {
    var parts := Split(Split(score, ' ')[0], '/');
    if |parts| > 1 then ParseIntOrZero(parts[1]) else 0
  }

  /** The overs: `parseFloat` of the "(... ov" capture when the score has a
      "(...)" group, 0 otherwise; `None` for NaN. */
  function ScoreOvers(score: string): (ov: Option<real>)
    requires OversReadable(score)
    ensures GroupFrom(score, 0, ")").None? ==> ov == Some(0.0)
  {
    if GroupFrom(score, 0, ")").Some? then ParseFloat(GroupFrom(score, 0, " ov").value) else Some(0.0)
  }

  /** `overs > 0 ? (runs / overs).toFixed(2) : 0`, read back with
      `parseFloat`: runs per over, 0 unless the overs are positive, NaN
      when the runs are. */
  function ComparisonRunRate(runs: Option<int>, overs: Option<real>): (r: Option<real>)
    ensures overs.Some? && overs.value > 0.0 ==>
      (r.Some? <==> runs.Some?) && (runs.Some? ==> r.value * overs.value == runs.value as real)
    ensures !(overs.Some? && overs.value > 0.0) ==> r == Some(0.0)
  {
    if overs.Some? && overs.value > 0.0 then
      (if runs.Some? then Some(runs.value as real / overs.value) else None)
    else Some(0.0)
  }

  /** `{ name, runs, wickets, runRate, overs }`; `None` stands for NaN. */
  datatype TeamComparison = TeamComparison(name: string, runs: Option<int>, wickets: int, runRate: Option<real>, overs: Option<real>)

  /** One entry of `generateTeamComparisonData()`. */
  function ComparisonEntry(name: string, score: string): (e: TeamComparison)
    requires OversReadable(score)
  {
    var runs := ScoreRuns(score);
    var overs := ScoreOvers(score);
    TeamComparison(name, runs, ScoreWickets(score), ComparisonRunRate(runs, overs), overs)
  }

  /** `generateTeamComparisonData()`: team 1's entry, then team 2's. */
  function GenerateTeamComparisonData(m: MatchDetail): (r: seq<TeamComparison>)
    requires OversReadable(m.score1) && OversReadable(m.score2)
    ensures |r| == 2 && r[0].name == m.team1 && r[1].name == m.team2
  {
    [ComparisonEntry(m.team1, m.score1), ComparisonEntry(m.team2, m.score2)]
  }

  /** The score text "<runs>/<wickets> (<c> ov)". */
  function ScoreText(runs: nat, wickets: nat, c: string): string
  {
    NatToString(runs) + "/" + NatToString(wickets) + " " + "(" + c + " ov)"
  }

  /** The runs and wickets of "<runs>/<wickets> (<c> ov)" are read back. */
  lemma {:induction false} ScoreTextCounts(runs: nat, wickets: nat, c: string)
    ensures ScoreRuns(ScoreText(runs, wickets, c)) == Some(runs)
    ensures ScoreWickets(ScoreText(runs, wickets, c)) == wickets
  {
    var token := NatToString(runs) + "/" + NatToString(wickets);
    assert ScoreText(runs, wickets, c) == token + [' '] + ("(" + c + " ov)");
    NatToStringNoSeparator(runs, ' ');
    NatToStringNoSeparator(wickets, ' ');
    SplitAt(token, ' ', "(" + c + " ov)");
    NatToStringNoSeparator(runs, '/');
    NatToStringNoSeparator(wickets, '/');
    SplitAt(NatToString(runs), '/', NatToString(wickets));
    SplitNone(NatToString(wickets), '/');
    ParseIntOfNatAlone(runs);
    ParseIntOfNatAlone(wickets);
  }

  /** The overs of "<runs>/<wickets> (<c> ov)" are `parseFloat` of `c`. */
  lemma {:induction false} ScoreTextOvers(runs: nat, wickets: nat, c: string)
    requires PlainOvers(c)
    ensures OversReadable(ScoreText(runs, wickets, c))
    ensures ScoreOvers(ScoreText(runs, wickets, c)) == ParseFloat(c)
  {
    var a := NatToString(runs) + "/" + NatToString(wickets) + " ";
    NatToStringNoSeparator(runs, '(');
    NatToStringNoSeparator(wickets, '(');
    assert '(' !in a;
    OversGroup(a, c);
    assert ScoreText(runs, wickets, c) == a + "(" + c + " ov)";
  }

  /** A score "<runs>/<wickets> (<c> ov)" is read back: the runs, the wickets,
      `parseFloat` of `c` as the overs, and runs per over as the rate. */
  lemma {:induction false} ComparisonOfScore(name: string, runs: nat, wickets: nat, c: string)
    requires PlainOvers(c)
    ensures OversReadable(ScoreText(runs, wickets, c))
    ensures var ov := ParseFloat(c);
      ComparisonEntry(name, ScoreText(runs, wickets, c))
      == TeamComparison(name, Some(runs), wickets, ComparisonRunRate(Some(runs), ov), ov)
  {
    ScoreTextCounts(runs, wickets, c);
    ScoreTextOvers(runs, wickets, c);
  }

  /** The overs text "<o>.<b>" is read as the decimal o + b/10. */
  lemma {:induction false} OversNotationDecimal(o: nat, b: nat)
    requires b < 10
    ensures PlainOvers(NatToString(o) + "." + [DigitChar(b)])
    ensures ParseFloat(NatToString(o) + "." + [DigitChar(b)]) == Some(o as real + b as real / 10.0)
  {
    var c := NatToString(o) + "." + [DigitChar(b)];
    forall m | 0 <= m < |c| ensures c[m] != ' ' && c[m] != ')' && !IsLineTerminator(c[m]) {
      if m < |NatToString(o)| {
        assert c[m] == NatToString(o)[m];
      }
    }
    ParseFloatOfDecimal(o, b, []);
    assert c + [] == c;
  }

  /** "<runs>/<wickets> (<o>.<b> ov)" gives o + b/10 overs, and a rate of runs
      per that many overs. */
  lemma {:induction false} ComparisonOfOversNotation(name: string, runs: nat, wickets: nat, o: nat, b: nat)
    requires b < 10
    ensures OversReadable(ScoreText(runs, wickets, NatToString(o) + "." + [DigitChar(b)]))
    ensures var ov := o as real + b as real / 10.0;
      ComparisonEntry(name, ScoreText(runs, wickets, NatToString(o) + "." + [DigitChar(b)]))
      == TeamComparison(name, Some(runs), wickets, ComparisonRunRate(Some(runs), Some(ov)), Some(ov))
  {
    OversNotationDecimal(o, b);
    ComparisonOfScore(name, runs, wickets, NatToString(o) + "." + [DigitChar(b)]);
  }

  /** The first mock score "275/4 (42.3 ov)" has the shape that
      `ComparisonReadsOversAsDecimal` and `CorrectedRateIsPerSixBalls` take. */
  lemma {:induction false} ScoreTextOfMock()
    ensures ScoreText(275, 4, NatToString(42) + "." + NatToString(3)) == "275/4 (42.3 ov)"
  {
    assert NatToString(42) + "." + NatToString(3) == "42.3" by {
      assert NatToString(42) == "42";
      assert NatToString(3) == "3";
    }
    assert NatToString(275) + "/" + NatToString(4) == "275/4" by {
      assert NatToString(275) == "275";
      assert NatToString(4) == "4";
    }
  }

  /** As written, "<runs>/<wickets> (<o>.<b> ov)" with b > 0 balls gets the
      decimal o + b/10 as its overs, and its rate is taken over that, not over
      the o + b/6 overs that `parseOvers` reads from the same notation: for
      "275/4 (42.3 ov)", 275 / 42.3 instead of the 275 / 42.5 that the stored
      rate 6.47 is. */
  lemma {:induction false} ComparisonReadsOversAsDecimal(name: string, runs: nat, wickets: nat, o: nat, b: nat)
    requires 0 < b < 10
    ensures OversReadable(ScoreText(runs, wickets, NatToString(o) + "." + NatToString(b)))
    ensures var e := ComparisonEntry(name, ScoreText(runs, wickets, NatToString(o) + "." + NatToString(b)));
      && e.overs == Some(o as real + b as real / 10.0)
      && e.runRate == ComparisonRunRate(Some(runs), e.overs)
    ensures o as real + b as real / 10.0 != Helpers.ParseOvers(Some(NatToString(o) + "." + NatToString(b)))
  {
    assert NatToString(b) == [DigitChar(b)];
    ComparisonOfOversNotation(name, runs, wickets, o, b);
    Helpers.ParseOversOfNotation(o, b);
  }

  /** The overs the notation evidently stands for: the "(... ov" capture
      read with `parseOvers` ("N.B" is N + B/6), 0 without a "(...)" group. */
  function CorrectedOvers(score: string): (ov: real)
    requires OversReadable(score)
    ensures GroupFrom(score, 0, ")").None? ==> ov == 0.0
  {
    if GroupFrom(score, 0, ")").Some? then Helpers.ParseOvers(GroupFrom(score, 0, " ov")) else 0.0
  }

  /** The run rate that the overs notation evidently calls for: runs over
      `CorrectedOvers` by `calculateRunRate`, NaN when the runs are. */
  function CorrectedRunRate(score: string): (r: Option<real>)
    requires OversReadable(score)
    ensures r.Some? <==> ScoreRuns(score).Some?
  {
    var runs := ScoreRuns(score);
    if runs.Some? then Some(Helpers.CalculateRunRate(runs.value as real, Some(CorrectedOvers(score)))) else None
  }

  /** The entry with the corrected run rate. */
  function CorrectedComparisonEntry(name: string, score: string): (e: TeamComparison)
    requires OversReadable(score)
  {
    var entry := ComparisonEntry(name, score);
    TeamComparison(name, entry.runs, entry.wickets, CorrectedRunRate(score), entry.overs)
  }

  /** The corrected entry differs from the one as written in its rate only. */
  lemma {:induction false} CorrectedEntryRate(name: string, score: string)
    requires OversReadable(score)
    ensures CorrectedComparisonEntry(name, score).runRate == CorrectedRunRate(score)
    ensures CorrectedComparisonEntry(name, score) == ComparisonEntry(name, score).(runRate := CorrectedRunRate(score))
  {
  }

  /** "<runs>/<wickets> (<o>.<b> ov)" stands for 6o + b balls. */
  lemma {:induction false} CorrectedOversOfNotation(runs: nat, wickets: nat, o: nat, b: nat)
    requires b < 10
    ensures OversReadable(ScoreText(runs, wickets, NatToString(o) + "." + NatToString(b)))
    ensures CorrectedOvers(ScoreText(runs, wickets, NatToString(o) + "." + NatToString(b))) == (6 * o + b) as real / 6.0
  {
    var c := NatToString(o) + "." + NatToString(b);
    assert NatToString(b) == [DigitChar(b)];
    OversNotationDecimal(o, b);
    var a := NatToString(runs) + "/" + NatToString(wickets) + " ";
    NatToStringNoSeparator(runs, '(');
    NatToStringNoSeparator(wickets, '(');
    assert '(' !in a;
    OversGroup(a, c);
    assert ScoreText(runs, wickets, c) == a + "(" + c + " ov)";
    Helpers.ParseOversOfNotation(o, b);
  }

  /** With the correction, a score "<runs>/<wickets> (<o>.<b> ov)" covering
      6o + b > 0 balls gets 6 · runs / balls as its rate. */
  lemma {:induction false} CorrectedRateIsPerSixBalls(name: string, runs: nat, wickets: nat, o: nat, b: nat)
    requires b < 10 && 6 * o + b > 0
    ensures OversReadable(ScoreText(runs, wickets, NatToString(o) + "." + NatToString(b)))
    ensures CorrectedComparisonEntry(name, ScoreText(runs, wickets, NatToString(o) + "." + NatToString(b))).runRate
            == Some(PerSixBalls(runs as real, (6 * o + b) as real))
  {
    var score := ScoreText(runs, wickets, NatToString(o) + "." + NatToString(b));
    assert OversReadable(score) && CorrectedOvers(score) == (6 * o + b) as real / 6.0 by {
      CorrectedOversOfNotation(runs, wickets, o, b);
    }
    assert ScoreRuns(score) == Some(runs) by {
      ScoreTextCounts(runs, wickets, NatToString(o) + "." + NatToString(b));
    }
    CorrectedRunRateOf(score, runs as real, (6 * o + b) as real);
    CorrectedEntryRate(name, score);
  }

  /** Runs per six balls. */
  function PerSixBalls(runs: real, balls: real): real
    requires balls > 0.0
  {
    6.0 * runs / balls
  }

  /** The corrected rate of a score whose overs come to `balls` balls is runs
      per six balls. */
  lemma {:induction false} CorrectedRunRateOf(score: string, runs: real, balls: real)
    requires OversReadable(score) && balls > 0.0
    requires ScoreRuns(score).Some? && ScoreRuns(score).value as real == runs
    requires CorrectedOvers(score) == balls / 6.0
    ensures CorrectedRunRate(score) == Some(PerSixBalls(runs, balls))
  {
    Helpers.RunRateOverBalls(runs, balls);
  }

  // ---------------------------------------------------------------------
  // Sums over a batting card

  function Fours(p: BattingEntry): int { p.fours }
  function Sixes(p: BattingEntry): int { p.sixes }

  /** `(player.fours * 4) + (player.sixes * 6)` */
  function BoundaryRuns(p: BattingEntry): int { p.fours * 4 + p.sixes * 6 }

  /** `player.runs - boundaryruns`; negative when the card is inconsistent. */
  function RemainingRuns(p: BattingEntry): int { p.runs - BoundaryRuns(p) }

  /** `Math.round(x)`: the nearest integer, halves rounded up. */
  function Round(x: real): (n: int)
    ensures x - 0.5 < n as real <= x + 0.5
  {
    (x + 0.5).Floor
  }

  function OnesPart(p: BattingEntry): int { Round(RemainingRuns(p) as real * 0.6) }
  function TwosPart(p: BattingEntry): int { Round(RemainingRuns(p) as real * 0.3) }
  function ThreesPart(p: BattingEntry): int { Round(RemainingRuns(p) as real * 0.1) }

  /** The sum of `f` over the players, as the `forEach` accumulates it. */
  function Sum(players: seq<BattingEntry>, f: BattingEntry -> int): int
    decreases |players|
  {
    if players == [] then 0 else Sum(players[..|players| - 1], f) + f(players[|players| - 1])
  }

  /** Four times the fours plus six times the sixes are the players'
      boundary runs: the boundary total and the '4s' and '6s' bars agree. */
  lemma {:induction false} BoundaryTotal(players: seq<BattingEntry>)
    ensures 4 * Sum(players, Fours) + 6 * Sum(players, Sixes) == Sum(players, BoundaryRuns)
    decreases |players|
  {
    if players != [] {
      BoundaryTotal(players[..|players| - 1]);
    }
  }

  // ---------------------------------------------------------------------
  // generateBoundaryData

  /** `{ name, fours, sixes, total }` */
  datatype BoundaryEntry = BoundaryEntry(name: string, fours: int, sixes: int, total: int)

  /** `generateBoundaryData()`: one entry per team in order, with the summed
      fours and sixes and the runs they are worth. */
  method GenerateBoundaryData(batting: seq<TeamBatting>) returns (boundaryData: seq<BoundaryEntry>)
    ensures |boundaryData| == |batting|
    ensures forall i :: 0 <= i < |batting| ==>
      && boundaryData[i].name == batting[i].team
      && boundaryData[i].fours == Sum(batting[i].players, Fours)
      && boundaryData[i].sixes == Sum(batting[i].players, Sixes)
      && boundaryData[i].total == 4 * boundaryData[i].fours + 6 * boundaryData[i].sixes
      && boundaryData[i].total == Sum(batting[i].players, BoundaryRuns)
  {
    boundaryData := [];
    for t := 0 to |batting|
      invariant |boundaryData| == t
      invariant forall i :: 0 <= i < t ==>
        && boundaryData[i].name == batting[i].team
        && boundaryData[i].fours == Sum(batting[i].players, Fours)
        && boundaryData[i].sixes == Sum(batting[i].players, Sixes)
        && boundaryData[i].total == 4 * boundaryData[i].fours + 6 * boundaryData[i].sixes
        && boundaryData[i].total == Sum(batting[i].players, BoundaryRuns)
    {
      var team := batting[t];
      var fours, sixes := 0, 0;
      for p := 0 to |team.players|
        invariant fours == Sum(team.players[..p], Fours)
        invariant sixes == Sum(team.players[..p], Sixes)
      {
        var player := team.players[p];
        assert team.players[..p + 1][..p] == team.players[..p];
        fours := fours + player.fours;
        sixes := sixes + player.sixes;
      }
      assert team.players[..|team.players|] == team.players;
      BoundaryTotal(team.players);
      boundaryData := boundaryData + [BoundaryEntry(team.team, fours, sixes, fours * 4 + sixes * 6)];
    }
  }

  // ---------------------------------------------------------------------
  // calculateBowlerStats

  /** `{ name, team, overs, wickets, economy, maidens, runs }`: `overs` is
      `parseFloat` of the overs text, so "8.3" is 8.3 (`None` for NaN). */
  datatype BowlerStat = BowlerStat(
    name: string, team: string, overs: Option<real>, wickets: int,
    economy: real, maidens: int, runs: int)

  function StatOf(row: BowlingRow): BowlerStat
  {
    BowlerStat(row.player.name, row.team, ParseFloat(row.player.overs), row.player.wickets,
               row.player.economy, row.player.maidens, row.player.runs)
  }

  /** The rows in the order the nested `forEach` pushes them. */
  function StatsOf(rows: seq<BowlingRow>): (stats: seq<BowlerStat>)
    ensures |stats| == |rows|
    decreases |rows|
  {
    if rows == [] then [] else StatsOf(rows[..|rows| - 1]) + [StatOf(rows[|rows| - 1])]
  }

  /** The sort key of `(a, b) => b.wickets - a.wickets`. */
  function ByWickets(s: BowlerStat): int { -s.wickets }

  /** The `forEach` loops of `calculateBowlerStats()`, which push one row per
      bowler in card order. */
  method CollectBowlers(bowling: seq<TeamBowling>) returns (bowlerData: seq<BowlerStat>)
    ensures bowlerData == StatsOf(BowlingRows(bowling))
  {
    bowlerData := [];
    for t := 0 to |bowling|
      invariant bowlerData == StatsOf(BowlingRows(bowling[..t]))
    {
      assert BowlingRows(bowling[..t + 1]) == BowlingRows(bowling[..t]) + TeamBowlingRows(bowling[t]) by {
        assert bowling[..t + 1][..t] == bowling[..t];
      }
      bowlerData := CollectTeamBowlers(bowling[t], bowlerData, BowlingRows(bowling[..t]));
    }
    assert bowling[..|bowling|] == bowling;
  }

  /** The inner `forEach` over one team's bowlers. */
  method CollectTeamBowlers(team: TeamBowling, bowlerData: seq<BowlerStat>, ghost seen: seq<BowlingRow>)
    returns (r: seq<BowlerStat>)
    requires bowlerData == StatsOf(seen)
    ensures r == StatsOf(seen + TeamBowlingRows(team))
  {
    r := bowlerData;
    var rows := TeamBowlingRows(team);
    assert seen + rows[..0] == seen;
    for p := 0 to |team.players|
      invariant r == StatsOf(seen + rows[..p])
    {
      var player := team.players[p];
      var oversStr := player.overs;
      r := r + [BowlerStat(player.name, team.team, ParseFloat(oversStr), player.wickets,
                           player.economy, player.maidens, player.runs)];
      TeamStatsStep(seen, team, p);
    }
    assert rows[..|team.players|] == rows;
  }

  /** One more bowler of a team adds its stat. */
  lemma {:induction false} TeamStatsStep(seen: seq<BowlingRow>, team: TeamBowling, p: nat)
    requires p < |team.players|
    ensures StatsOf(seen + TeamBowlingRows(team)[..p + 1])
            == StatsOf(seen + TeamBowlingRows(team)[..p]) + [StatOf(BowlingRow(team.team, team.players[p]))]
  {
    var rows := TeamBowlingRows(team);
    assert rows[..p + 1] == rows[..p] + [rows[p]];
    assert seen + rows[..p + 1] == (seen + rows[..p]) + [rows[p]];
    StatsOfSnoc(seen + rows[..p], rows[p]);
  }

  /** Appending a row appends its stat. */
  lemma {:induction false} StatsOfSnoc(rows: seq<BowlingRow>, row: BowlingRow)
    ensures StatsOf(rows + [row]) == StatsOf(rows) + [StatOf(row)]
  {
    assert (rows + [row])[..|rows|] == rows;
  }

  /** `calculateBowlerStats()`: every bowler of every team, ordered by wickets,
      most first; bowlers with equal wickets keep their card order, whatever
      their economy. */
  method CalculateBowlerStats(bowling: seq<TeamBowling>) returns (stats: seq<BowlerStat>)
    ensures multiset(stats) == multiset(StatsOf(BowlingRows(bowling)))
    ensures forall i, j :: 0 <= i < j < |stats| ==> stats[i].wickets >= stats[j].wickets
    ensures forall k :: Seqs.WithKey(stats, ByWickets, k) == Seqs.WithKey(StatsOf(BowlingRows(bowling)), ByWickets, k)
  {
    var bowlerData := CollectBowlers(bowling);
    stats := Seqs.SortBy(bowlerData, ByWickets);
    Seqs.SortBySorted(bowlerData, ByWickets);
    forall i, j | 0 <= i < j < |stats| ensures stats[i].wickets >= stats[j].wickets {
      assert ByWickets(stats[i]) <= ByWickets(stats[j]);
    }
    forall k ensures Seqs.WithKey(stats, ByWickets, k) == Seqs.WithKey(bowlerData, ByWickets, k) {
      Seqs.SortByStable(bowlerData, ByWickets, k);
    }
  }

  /** `parseInt(fullOvers, 10) * 6 + (parseInt(balls, 10) || 0)`, the ball
      count the bowler loop computes and never uses; `None` for NaN. */
  function TotalBalls(oversStr: string): (r: Option<int>)
    ensures r.None? <==> ParseInt(Split(oversStr, '.')[0]).None?
  {
    var parts := Split(oversStr, '.');
    var fullOvers := ParseInt(parts[0]);
    if fullOvers.None? then None
    else Some(fullOvers.value * 6 + ExtraBalls(parts))
  }

  /** `parseInt(balls, 10) || 0` for the text after the first '.'. */
  function ExtraBalls(parts: seq<string>): int
  {
    if |parts| > 1 then ParseIntOrZero(parts[1]) else 0
  }

  /** For "N.B" the unused ball count is 6N + B. */
  lemma {:induction false} TotalBallsOfNotation(n: nat, b: nat)
    ensures TotalBalls(NatToString(n) + "." + NatToString(b)) == Some(6 * n + b)
  {
    NatToStringNoSeparator(n, '.');
    NatToStringNoSeparator(b, '.');
    SplitAt(NatToString(n), '.', NatToString(b));
    SplitNone(NatToString(b), '.');
    ParseIntOfNatAlone(n);
    ParseIntOfNatAlone(b);
    TotalBallsOfParts(NatToString(n) + "." + NatToString(b), n, b);
  }

  /** The ball count from the two parts of the split overs text. */
  lemma {:induction false} TotalBallsOfParts(text: string, n: int, b: int)
    requires |Split(text, '.')| > 1
    requires ParseInt(Split(text, '.')[0]) == Some(n)
    requires ParseIntOrZero(Split(text, '.')[1]) == b
    ensures TotalBalls(text) == Some(6 * n + b)
  {
  }

  /** For "N.B" the unused ball count is six times what `parseOvers` reads. */
  lemma {:induction false} TotalBallsMatchesParseOvers(n: nat, b: nat)
    ensures TotalBalls(NatToString(n) + "." + NatToString(b)).Some?
    ensures 6.0 * Helpers.ParseOvers(Some(NatToString(n) + "." + NatToString(b)))
            == TotalBalls(NatToString(n) + "." + NatToString(b)).value as real
  {
    TotalBallsOfNotation(n, b);
    Helpers.ParseOversOfNotation(n, b);
  }

  /** The bowler table's `overs` reads "N.B" as the decimal N + B/10, which is
      not the N + B/6 overs that `parseOvers` gives, as soon as B > 0. */
  lemma {:induction false} BowlerOversReadAsDecimal(n: nat, b: nat)
    requires 0 < b < 10
    ensures ParseFloat(NatToString(n) + "." + NatToString(b)) == Some(n as real + b as real / 10.0)
    ensures Helpers.ParseOvers(Some(NatToString(n) + "." + NatToString(b))) == n as real + b as real / 6.0
    ensures n as real + b as real / 10.0 < n as real + b as real / 6.0
  {
    assert NatToString(b) == [DigitChar(b)];
    ParseFloatOfDecimal(n, b, []);
    assert NatToString(n) + "." + [DigitChar(b)] + [] == NatToString(n) + "." + [DigitChar(b)];
    Helpers.ParseOversOfNotation(n, b);
  }

  // ---------------------------------------------------------------------
  // generateRunsDistributionData

  /** A team's bar of the runs-type chart: '1s', '2s', '3s', '4s' and '6s'. */
  datatype RunsSplit = RunsSplit(name: string, ones: int, twos: int, threes: int, fours: int, sixes: int)

  /** `generateRunsDistributionData()`: per team in order, 60%, 30% and 10% of
      each player's non-boundary runs, rounded and summed, with the 30% and
      10% sums then multiplied by 2 and 3; the boundary runs as in
      `GenerateBoundaryData`. */
  method GenerateRunsDistributionData(batting: seq<TeamBatting>) returns (data: seq<RunsSplit>)
    ensures |data| == |batting|
    ensures forall i :: 0 <= i < |batting| ==>
      && data[i].name == batting[i].team
      && data[i].ones == Sum(batting[i].players, OnesPart)
      && data[i].twos == 2 * Sum(batting[i].players, TwosPart)
      && data[i].threes == 3 * Sum(batting[i].players, ThreesPart)
      && data[i].fours + data[i].sixes == Sum(batting[i].players, BoundaryRuns)
      && data[i].fours == 4 * Sum(batting[i].players, Fours)
      && data[i].sixes == 6 * Sum(batting[i].players, Sixes)
  {
    data := [];
    for t := 0 to |batting|
      invariant |data| == t
      invariant forall i :: 0 <= i < t ==>
        && data[i].name == batting[i].team
        && data[i].ones == Sum(batting[i].players, OnesPart)
        && data[i].twos == 2 * Sum(batting[i].players, TwosPart)
        && data[i].threes == 3 * Sum(batting[i].players, ThreesPart)
        && data[i].fours + data[i].sixes == Sum(batting[i].players, BoundaryRuns)
        && data[i].fours == 4 * Sum(batting[i].players, Fours)
        && data[i].sixes == 6 * Sum(batting[i].players, Sixes)
    {
      var team := batting[t];
      var ones, twos, threes, fours, sixes := 0, 0, 0, 0, 0;
      for p := 0 to |team.players|
        invariant ones == Sum(team.players[..p], OnesPart)
        invariant twos == Sum(team.players[..p], TwosPart)
        invariant threes == Sum(team.players[..p], ThreesPart)
        invariant fours == Sum(team.players[..p], Fours)
        invariant sixes == Sum(team.players[..p], Sixes)
      {
        var player := team.players[p];
        assert team.players[..p + 1][..p] == team.players[..p];
        var boundaryruns := (player.fours * 4) + (player.sixes * 6);
        var remainingRuns := player.runs - boundaryruns;
        ones := ones + Round(remainingRuns as real * 0.6);
        twos := twos + Round(remainingRuns as real * 0.3);
        threes := threes + Round(remainingRuns as real * 0.1);
        fours := fours + player.fours;
        sixes := sixes + player.sixes;
      }
      assert team.players[..|team.players|] == team.players;
      BoundaryTotal(team.players);
      data := data + [RunsSplit(team.team, ones, twos * 2, threes * 3, fours * 4, sixes * 6)];
    }
  }

  /** A card of one batter with 10 runs and no boundaries: the '1s', '2s'
      and '3s' bars come to 15 although only 10 runs were not boundaries. */
  lemma {:induction false} SplitOvercountsRuns(p: BattingEntry)
    requires p.runs == 10 && p.fours == 0 && p.sixes == 0
    ensures Sum([p], RemainingRuns) == 10
    ensures Sum([p], OnesPart) + 2 * Sum([p], TwosPart) + 3 * Sum([p], ThreesPart) == 15
  {
    assert RemainingRuns(p) == 10;
    assert OnesPart(p) == 6 by {
      RoundWhole(6);
      assert 10.0 * 0.6 == 6.0;
    }
    assert TwosPart(p) == 3 by {
      RoundWhole(3);
      assert 10.0 * 0.3 == 3.0;
    }
    assert ThreesPart(p) == 1 by {
      RoundWhole(1);
      assert 10.0 * 0.1 == 1.0;
    }
    SumOne(p, RemainingRuns);
    SumOne(p, OnesPart);
    SumOne(p, TwosPart);
    SumOne(p, ThreesPart);
  }

  /** A whole number rounds to itself. */
  lemma {:induction false} RoundWhole(n: int)
    ensures Round(n as real) == n
  {
  }

  lemma {:induction false} SumOne(p: BattingEntry, f: BattingEntry -> int)
    ensures Sum([p], f) == f(p)
  {
    assert [p][..0] == [];
  }

  /** The bar a team evidently should get: the runs ascribed to 1s, 2s and 3s,
      each rounded, without multiplying the 2s and 3s again. */
  function CorrectedRunsSplit(team: TeamBatting): RunsSplit
  {
    var ps := team.players;
    RunsSplit(team.team, Sum(ps, OnesPart), Sum(ps, TwosPart), Sum(ps, ThreesPart),
              4 * Sum(ps, Fours), 6 * Sum(ps, Sixes))
  }

  /** Rounding 60%, 30% and 10% of a whole number separately loses or gains at
      most one in total. */
  lemma {:induction false} PartsAddUp(p: BattingEntry)
    ensures -1 <= OnesPart(p) + TwosPart(p) + ThreesPart(p) - RemainingRuns(p) <= 1
  {
    var r := RemainingRuns(p) as real;
    var d := OnesPart(p) + TwosPart(p) + ThreesPart(p) - RemainingRuns(p);
    assert r * 0.6 + r * 0.3 + r * 0.1 == r;
    assert -1.5 < d as real <= 1.5;
  }

  lemma {:induction false} PartsSumAddUp(ps: seq<BattingEntry>)
    ensures var d := Sum(ps, OnesPart) + Sum(ps, TwosPart) + Sum(ps, ThreesPart) - Sum(ps, RemainingRuns);
      -|ps| <= d <= |ps|
    decreases |ps|
  {
    if ps != [] {
      PartsSumAddUp(ps[..|ps| - 1]);
      PartsAddUp(ps[|ps| - 1]);
    }
  }

  /** With the correction the '1s', '2s' and '3s' bars add up to the team's
      non-boundary runs, up to one run of rounding per player. */
  lemma {:induction false} CorrectedSplitAddsUp(team: TeamBatting)
    ensures var r := CorrectedRunsSplit(team);
      var d := r.ones + r.twos + r.threes - Sum(team.players, RemainingRuns);
      -|team.players| <= d <= |team.players|
  {
    PartsSumAddUp(team.players);
  }
}
