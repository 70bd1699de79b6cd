/** The live-score tick of the live matches list: on every refresh the mock
    matches are fetched afresh, and each live match may have one to six runs
    added to either team's score text, with that team's run rate recomputed.
    The `Math.random()` values are parameters. */
module LiveMatches {
  import opened Wrappers
  import opened Text

  /** The random values one match may draw, in the order the tick asks for
      them: whether the match is touched at all, then for each team whether
      its score moves and by how much. A value the tick does not reach is
      simply not looked at. */
  datatype Draws = Draws(live: real, fire1: real, inc1: real, fire2: real, inc2: real)

  /** `Math.random()` lies in [0, 1). */
  predicate ValidDraw(r: real)
  {
    0.0 <= r < 1.0
  }

  predicate ValidDraws(d: Draws)
  {
    ValidDraw(d.live) && ValidDraw(d.fire1) && ValidDraw(d.inc1) && ValidDraw(d.fire2) && ValidDraw(d.inc2)
  }

  /** An exact run rate `num / den`. */
  datatype Fraction = Fraction(num: int, den: nat)

  /** A match object of the list; a run rate of `None` is NaN. */
  datatype MatchRecord = MatchRecord(
    id: int, team1: string, team2: string, score1: string, score2: string,
    status: string, venue: string, runRate1: Option<Fraction>, runRate2: Option<Fraction>)

  /** `Math.floor(r * 6) + 1` */
  function Increment(r: real): int
  {
    (r * 6.0).Floor + 1
  }

  /** A draw in [0, 1) adds between one and six runs. */
  lemma {:induction false} IncrementRange(r: real)
    requires ValidDraw(r)
    ensures 1 <= Increment(r) <= 6
  {
    var f := (r * 6.0).Floor;
    assert f as real <= r * 6.0 < f as real + 1.0;
  }

  /** `score.split(" ")[0].split("/")` */
  function ScoreParts(score: string): (parts: seq<string>)
    ensures |parts| >= 1
  {
    Split(Split(score, ' ')[0], '/')
  }

  /** The `runs` the tick reads: `parseInt` of the text before the first '/'
      of the first word. */
  function ScoreRuns(score: string): Option<int>
  {
    ParseInt(ScoreParts(score)[0])
  }

  /** The template text of a number that may be NaN. */
  function NumberText(n: Option<int>): string
  {
    if n.None? then "NaN" else IntToString(n.value)
  }

  /** `newRuns / overs * 6` with `overs` given in tenths (42.3 is 423),
      that is `newRuns * 60 / tenths` exactly; NaN when `newRuns` is. */
  function RateOf(runs: Option<int>, tenths: nat): Option<Fraction>
  {
    if runs.None? then None else Some(Fraction(runs.value * 60, tenths))
  }

  /** The update of one team once it fires: the runs are read, one to six are
      added, the first "<runs>/" of the score is replaced by "<newRuns>/" and
      the rate is recomputed over the hard-coded overs, `tenths` tenths of an
      over. */
  function TeamUpdate(score: string, incDraw: real, tenths: nat): (string, Option<Fraction>)
  {
    var runs := ScoreRuns(score);
    var newRuns := if runs.None? then None else Some(runs.value + Increment(incDraw));
    (ReplaceFirst(score, NumberText(runs) + "/", NumberText(newRuns) + "/"), RateOf(newRuns, tenths))
  }

  predicate Touched(m: MatchRecord, d: Draws)
  {
    m.status == "Live" && d.live > 0.5
  }

  predicate Fires1(m: MatchRecord, d: Draws)
  {
    Touched(m, d) && |ScoreParts(m.score1)| == 2 && d.fire1 > 0.7
  }

  predicate Fires2(m: MatchRecord, d: Draws)
  {
    Touched(m, d) && |ScoreParts(m.score2)| == 2 && m.score2 != "--" && d.fire2 > 0.7
  }

  /** The record after one tick with the draws `d`. */
  function Ticked(m: MatchRecord, d: Draws): MatchRecord
  {
    var m1 := if Fires1(m, d) then
        var u := TeamUpdate(m.score1, d.inc1, 423); m.(score1 := u.0, runRate1 := u.1)
      else m;
    if Fires2(m, d) then
      var u := TeamUpdate(m.score2, d.inc2, 214); m1.(score2 := u.0, runRate2 := u.1)
    else m1
  }

  /** A match object that the tick updates in place. */
  class LiveMatch {
    var id: int
    var team1: string
    var team2: string
    var score1: string
    var score2: string
    var status: string
    var venue: string
    var runRate1: Option<Fraction>
    var runRate2: Option<Fraction>

    function Record(): MatchRecord
      reads this
    {
      MatchRecord(id, team1, team2, score1, score2, status, venue, runRate1, runRate2)
    }

    constructor (r: MatchRecord)
      ensures Record() == r
    {
      id, team1, team2 := r.id, r.team1, r.team2;
      score1, score2, status, venue := r.score1, r.score2, r.status, r.venue;
      runRate1, runRate2 := r.runRate1, r.runRate2;
    }

    /** The body of the `map` callback for this match. */
    method Tick(d: Draws)
      modifies this
      ensures Record() == Ticked(old(Record()), d)
    {
      if status == "Live" && d.live > 0.5 {
        var score1Parts := ScoreParts(score1);
        var score2Parts := ScoreParts(score2);
        if |score1Parts| == 2 && d.fire1 > 0.7 {
          var u := TeamUpdate(score1, d.inc1, 423);
          score1, runRate1 := u.0, u.1;
        }
        if |score2Parts| == 2 && score2 != "--" && d.fire2 > 0.7 {
          var u := TeamUpdate(score2, d.inc2, 214);
          score2, runRate2 := u.0, u.1;
        }
      }
    }
  }

  /** The mock list that `fetchLiveMatches()` builds. */
  function MockRecords(): seq<MatchRecord>
  {
    [ MatchRecord(1, "India", "Australia", "275/4 (42.3 ov)", "230/8 (50 ov)", "Live",
                  "Melbourne Cricket Ground", Some(Fraction(647, 100)), Some(Fraction(460, 100))),
      MatchRecord(2, "England", "New Zealand", "310/6 (50 ov)", "120/2 (21.4 ov)", "Live",
                  "Lord's Cricket Ground", Some(Fraction(620, 100)), Some(Fraction(554, 100))),
      MatchRecord(3, "South Africa", "Pakistan", "189/10 (45.2 ov)", "156/7 (38.4 ov)", "Live",
                  "Wanderers Stadium", Some(Fraction(417, 100)), Some(Fraction(403, 100))) ]
  }

  /** `fetchLiveMatches()`: new, distinct objects holding the mock records. */
  method FetchLiveMatches() returns (ms: seq<LiveMatch>)
    ensures |ms| == |MockRecords()|
    ensures forall i :: 0 <= i < |ms| ==> fresh(ms[i]) && ms[i].Record() == MockRecords()[i]
    ensures forall i, j :: 0 <= i < j < |ms| ==> ms[i] != ms[j]
  {
    var records := MockRecords();
    var m0 := new LiveMatch(records[0]);
    var m1 := new LiveMatch(records[1]);
    var m2 := new LiveMatch(records[2]);
    ms := [m0, m1, m2];
  }

  /** `matchData.map(...)`: every match is updated in place with its own
      draws; the list itself, and so its length, order and objects, stays. */
  method TickAll(ms: seq<LiveMatch>, draws: seq<Draws>)
    requires |draws| == |ms|
    requires forall i, j :: 0 <= i < j < |ms| ==> ms[i] != ms[j]
    modifies set i | 0 <= i < |ms| :: ms[i]
    ensures forall i :: 0 <= i < |ms| ==> ms[i].Record() == Ticked(old(ms[i].Record()), draws[i])
  {
    for i := 0 to |ms|
      invariant forall j {:trigger draws[j]} :: 0 <= j < i ==> ms[j].Record() == Ticked(old(ms[j].Record()), draws[j])
      invariant forall j :: i <= j < |ms| ==> ms[j].Record() == old(ms[j].Record())
    {
      TickAt(ms, draws, i);
    }
  }

  /** One step of the `map`: the match at `i` is ticked and, the objects
      being distinct, every other match is left as it was. */
  method TickAt(ms: seq<LiveMatch>, draws: seq<Draws>, i: nat)
    requires i < |draws| == |ms|
    requires forall j, k :: 0 <= j < k < |ms| ==> ms[j] != ms[k]
    modifies ms[i]
    ensures ms[i].Record() == Ticked(old(ms[i].Record()), draws[i])
    ensures forall j :: 0 <= j < |ms| && j != i ==> ms[j].Record() == old(ms[j].Record())
  {
    ms[i].Tick(draws[i]);
  }

  /** `getMatches()`: the mock list fetched afresh and ticked once, so the
      runs never build up from one refresh to the next. */
  method GetMatches(draws: seq<Draws>) returns (ms: seq<LiveMatch>)
    requires |draws| == |MockRecords()|
    ensures |ms| == |draws|
    ensures forall i :: 0 <= i < |ms| ==> fresh(ms[i]) && ms[i].Record() == Ticked(MockRecords()[i], draws[i])
  {
    ms := FetchLiveMatches();
    TickAll(ms, draws);
  }

  // ---------------------------------------------------------------------
  // Properties of the tick

  /** Only a live match can change, and only when its first draw exceeds 0.5. */
  lemma {:induction false} OnlyLiveMatchesChange(m: MatchRecord, d: Draws)
    ensures Ticked(m, d) != m ==> m.status == "Live" && d.live > 0.5
  {
  }

  /** The id, the teams, the status and the venue are never touched. */
  lemma {:induction false} TickKeepsIdentity(m: MatchRecord, d: Draws)
    ensures var t := Ticked(m, d);
      t.id == m.id && t.team1 == m.team1 && t.team2 == m.team2 && t.status == m.status && t.venue == m.venue
  {
  }

  /** A team's score and rate stay as they are unless its update fires; in
      particular a score whose first word does not split into exactly two
      parts, and team 2's "--", are left alone. */
  lemma {:induction false} TeamsChangeOnlyWhenFired(m: MatchRecord, d: Draws)
    ensures !Fires1(m, d) ==> Ticked(m, d).score1 == m.score1 && Ticked(m, d).runRate1 == m.runRate1
    ensures !Fires2(m, d) ==> Ticked(m, d).score2 == m.score2 && Ticked(m, d).runRate2 == m.runRate2
    ensures |ScoreParts(m.score1)| != 2 ==> !Fires1(m, d)
    ensures |ScoreParts(m.score2)| != 2 || m.score2 == "--" ==> !Fires2(m, d)
  {
  }

  /** "--" already splits into a single part, so team 2's extra "--" test
      never decides anything. */
  lemma {:induction false} DashesSplitInOne()
    ensures ScoreParts("--") == ["--"]
  {
    SplitNone("--", ' ');
    SplitNone("--", '/');
  }

  /** A score in canonical form: "<runs>/<wickets> <rest>". */
  function Score(runs: nat, wickets: nat, rest: string): string
  {
    NatToString(runs) + "/" + NatToString(wickets) + " " + rest
  }

  /** The first word of a canonical score splits into the runs and the
      wickets. */
  lemma {:induction false} ScorePartsOf(runs: nat, wickets: nat, rest: string)
    ensures ScoreParts(Score(runs, wickets, rest)) == [NatToString(runs), NatToString(wickets)]
    ensures ScoreRuns(Score(runs, wickets, rest)) == Some(runs)
  {
    var head := NatToString(runs) + "/" + NatToString(wickets);
    NatToStringNoSeparator(runs, ' ');
    NatToStringNoSeparator(wickets, ' ');
    NatToStringNoSeparator(runs, '/');
    NatToStringNoSeparator(wickets, '/');
    assert Split(Score(runs, wickets, rest), ' ')[0] == head by {
      SplitAt(head, ' ', rest);
    }
    SplitAt(NatToString(runs), '/', NatToString(wickets));
    SplitNone(NatToString(wickets), '/');
    ParseIntOfNatAlone(runs);
  }

  /** On a canonical score the update rewrites only the runs: the wickets and
      everything after the first word stay, and the new runs read back. */
  lemma {:induction false} UpdateOfScore(runs: nat, wickets: nat, rest: string, incDraw: real, tenths: nat)
    requires ValidDraw(incDraw)
    ensures var u := TeamUpdate(Score(runs, wickets, rest), incDraw, tenths);
      && u.0 == Score(runs + Increment(incDraw), wickets, rest)
      && u.1 == RateOf(Some(runs + Increment(incDraw)), tenths)
  {
    IncrementRange(incDraw);
    var added: nat := runs + Increment(incDraw);
    ScorePartsOf(runs, wickets, rest);
    var tail := NatToString(wickets) + " " + rest;
    assert Score(runs, wickets, rest) == (NatToString(runs) + "/") + tail;
    assert Score(added, wickets, rest) == (NatToString(added) + "/") + tail;
    ReplaceLeading(NatToString(runs) + "/", tail, NatToString(added) + "/");
  }

  /** The tick on a canonical team-1 score: the runs rise by one to six
      exactly when the update fires, and the rate is recomputed then and only
      then; the score stays canonical with the same wickets and suffix. */
  lemma {:induction false} TickScore1(m: MatchRecord, d: Draws, runs: nat, wickets: nat, rest: string)
    requires ValidDraws(d) && m.score1 == Score(runs, wickets, rest)
    ensures Fires1(m, d) <==> Touched(m, d) && d.fire1 > 0.7
    ensures var t := Ticked(m, d);
      if Fires1(m, d) then
        && t.score1 == Score(runs + Increment(d.inc1), wickets, rest)
        && t.runRate1 == Some(Fraction((runs + Increment(d.inc1)) * 60, 423))
        && 1 <= Increment(d.inc1) <= 6
      else t.score1 == m.score1 && t.runRate1 == m.runRate1
  {
    ScorePartsOf(runs, wickets, rest);
    IncrementRange(d.inc1);
    if Fires1(m, d) {
      UpdateOfScore(runs, wickets, rest, d.inc1, 423);
    }
  }

  /** The same for team 2, whose rate is taken over 21.4 overs. */
  lemma {:induction false} TickScore2(m: MatchRecord, d: Draws, runs: nat, wickets: nat, rest: string)
    requires ValidDraws(d) && m.score2 == Score(runs, wickets, rest)
    ensures Fires2(m, d) <==> Touched(m, d) && d.fire2 > 0.7
    ensures var t := Ticked(m, d);
      if Fires2(m, d) then
        && t.score2 == Score(runs + Increment(d.inc2), wickets, rest)
        && t.runRate2 == Some(Fraction((runs + Increment(d.inc2)) * 60, 214))
        && 1 <= Increment(d.inc2) <= 6
      else t.score2 == m.score2 && t.runRate2 == m.runRate2
  {
    ScorePartsOf(runs, wickets, rest);
    IncrementRange(d.inc2);
    assert m.score2 != "--" by {
      assert |m.score2| > 2;
    }
    if Fires2(m, d) {
      UpdateOfScore(runs, wickets, rest, d.inc2, 214);
    }
  }

  /** On a canonical score the runs never decrease and grow by at most six,
      and the rate changes only when the runs do. */
  lemma {:induction false} RunsNeverDecrease(m: MatchRecord, d: Draws, runs: nat, wickets: nat, rest: string)
    requires ValidDraws(d) && m.score1 == Score(runs, wickets, rest)
    ensures var t := Ticked(m, d);
      exists r: nat :: runs <= r <= runs + 6 && t.score1 == Score(r, wickets, rest)
        && ScoreRuns(t.score1) == Some(r)
        && (t.runRate1 != m.runRate1 ==> r != runs)
  {
    TickScore1(m, d, runs, wickets, rest);
    var t := Ticked(m, d);
    var r: nat := if Fires1(m, d) then runs + Increment(d.inc1) else runs;
    ScorePartsOf(r, wickets, rest);
    assert t.score1 == Score(r, wickets, rest);
  }

  // ---------------------------------------------------------------------
  // The mock scores

  /** The runs, wickets and suffix of the mock scores of team 1 and team 2. */
  function MockRuns1(i: nat): nat
    requires i < 3
  {
    [275, 310, 189][i]
  }

  function MockWickets1(i: nat): nat
    requires i < 3
  {
    [4, 6, 10][i]
  }

  function MockRest1(i: nat): string
    requires i < 3
  {
    ["(42.3 ov)", "(50 ov)", "(45.2 ov)"][i]
  }

  function MockRuns2(i: nat): nat
    requires i < 3
  {
    [230, 120, 156][i]
  }

  function MockWickets2(i: nat): nat
    requires i < 3
  {
    [8, 2, 7][i]
  }

  function MockRest2(i: nat): string
    requires i < 3
  {
    ["(50 ov)", "(21.4 ov)", "(38.4 ov)"][i]
  }

  /** Every mock score is in canonical form. */
  lemma {:induction false} MockScoresCanonical(i: nat)
    requires i < |MockRecords()|
    ensures MockRecords()[i].score1 == Score(MockRuns1(i), MockWickets1(i), MockRest1(i))
    ensures MockRecords()[i].score2 == Score(MockRuns2(i), MockWickets2(i), MockRest2(i))
  {
    if i == 0 {
      MockScoreIndia();
      MockScoreAustralia();
    } else if i == 1 {
      MockScoreEngland();
      MockScoreNewZealand();
    } else {
      MockScoreSouthAfrica();
      MockScorePakistan();
    }
  }

  lemma {:induction false} MockScoreIndia()
    ensures MockRecords()[0].score1 == Score(275, 4, "(42.3 ov)")
  {
    assert NatToString(275) == "275";
    assert NatToString(4) == "4";
  }

  lemma {:induction false} MockScoreAustralia()
    ensures MockRecords()[0].score2 == Score(230, 8, "(50 ov)")
  {
    assert NatToString(230) == "230";
    assert NatToString(8) == "8";
  }

  lemma {:induction false} MockScoreEngland()
    ensures MockRecords()[1].score1 == Score(310, 6, "(50 ov)")
  {
    assert NatToString(310) == "310";
    assert NatToString(6) == "6";
  }

  lemma {:induction false} MockScoreNewZealand()
    ensures MockRecords()[1].score2 == Score(120, 2, "(21.4 ov)")
  {
    assert NatToString(120) == "120";
    assert NatToString(2) == "2";
  }

  lemma {:induction false} MockScoreSouthAfrica()
    ensures MockRecords()[2].score1 == Score(189, 10, "(45.2 ov)")
  {
    assert NatToString(189) == "189";
    assert NatToString(10) == "10";
  }

  lemma {:induction false} MockScorePakistan()
    ensures MockRecords()[2].score2 == Score(156, 7, "(38.4 ov)")
  {
    assert NatToString(156) == "156";
    assert NatToString(7) == "7";
  }

  /** Because every refresh starts from the mock list, after any refresh
      each team's runs lie between the mock runs and six more. */
  lemma {:induction false} RefreshRunsBounded(i: nat, d: Draws)
    requires i < |MockRecords()| && ValidDraws(d)
    ensures var t := Ticked(MockRecords()[i], d);
      && ScoreRuns(t.score1).Some? && MockRuns1(i) <= ScoreRuns(t.score1).value <= MockRuns1(i) + 6
      && ScoreRuns(t.score2).Some? && MockRuns2(i) <= ScoreRuns(t.score2).value <= MockRuns2(i) + 6
  {
    var m := MockRecords()[i];
    MockScoresCanonical(i);
    TeamRunsBounded1(m, d, MockRuns1(i), MockWickets1(i), MockRest1(i));
    TeamRunsBounded2(m, d, MockRuns2(i), MockWickets2(i), MockRest2(i));
  }

  /** On a canonical team-1 score the runs after a tick read back and lie
      between the old runs and six more. */
  lemma {:induction false} TeamRunsBounded1(m: MatchRecord, d: Draws, runs: nat, wickets: nat, rest: string)
    requires ValidDraws(d) && m.score1 == Score(runs, wickets, rest)
    ensures var t := Ticked(m, d);
      ScoreRuns(t.score1).Some? && runs <= ScoreRuns(t.score1).value <= runs + 6
  {
    RunsNeverDecrease(m, d, runs, wickets, rest);
  }

  /** The same for team 2. */
  lemma {:induction false} TeamRunsBounded2(m: MatchRecord, d: Draws, runs: nat, wickets: nat, rest: string)
    requires ValidDraws(d) && m.score2 == Score(runs, wickets, rest)
    ensures var t := Ticked(m, d);
      ScoreRuns(t.score2).Some? && runs <= ScoreRuns(t.score2).value <= runs + 6
  {
    TickScore2(m, d, runs, wickets, rest);
    var n: nat := if Fires2(m, d) then runs + Increment(d.inc2) else runs;
    assert Ticked(m, d).score2 == Score(n, wickets, rest);
    ScorePartsOf(n, wickets, rest);
  }
}
