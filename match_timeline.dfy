/** The scoring timeline of the match timeline chart: `generateTimelineData`
    sorts a copy of the recent overs by over number and walks every ball,
    keeping the cumulative runs, the wickets and the current over's runs, and
    emits an event for every wicket, four and six, one event at the end of
    each over, and a milestone event when the over takes the total past a
    multiple of 50. */
module MatchTimeline {
  import opened Wrappers
  import opened MatchData
  import Seqs

  /** A chart position `over + tenths / 10`: a ball at zero-based index `i`
      sits at tenths `i + 1`; end-of-over and milestone points at tenths 0. */
  datatype Position = Position(over: int, tenths: nat)

  /** The event types 'wicket', 'four', 'six', 'over' and 'milestone'; a
      milestone carries the multiple of 50 that its description names. */
  datatype Kind = WicketFell | Four | Six | OverEnd | Milestone(reached: nat)

  /** `{ ball, type, runs, wickets }` of one timeline point. */
  datatype Event = Event(ball: Position, kind: Kind, runs: nat, wickets: nat)

  predicate IsOverEnd(e: Event) { e.kind.OverEnd? }
  predicate IsMilestone(e: Event) { e.kind.Milestone? }
  predicate IsWicketEvent(e: Event) { e.kind.WicketFell? }
  predicate IsBallKind(k: Kind) { k.WicketFell? || k.Four? || k.Six? }

  /** The `type` field of an event, without the milestone's value. */
  datatype Tag = WicketTag | FourTag | SixTag | OverTag | MilestoneTag

  function TagOf(k: Kind): Tag
  {
    match k
    case WicketFell => WicketTag
    case Four => FourTag
    case Six => SixTag
    case OverEnd => OverTag
    case Milestone(_) => MilestoneTag
  }

  /** The events of one type, in timeline order. */
  function OfTag(ev: seq<Event>, t: Tag): (r: seq<Event>)
    ensures |r| <= |ev|
    decreases |ev|
  {
    if ev == [] then []
    else OfTag(ev[..|ev| - 1], t) + (if TagOf(ev[|ev| - 1].kind) == t then [ev[|ev| - 1]] else [])
  }

  lemma {:induction false} OfTagConcat(a: seq<Event>, b: seq<Event>, t: Tag)
    ensures OfTag(a + b, t) == OfTag(a, t) + OfTag(b, t)
    decreases |b|
  {
    if b == [] {
      assert a + b == a;
    } else {
      assert (a + b)[..|a + b| - 1] == a + b[..|b| - 1];
      OfTagConcat(a, b[..|b| - 1], t);
    }
  }

  /** A ball that produces an event: "W", 4 or 6. */
  predicate Eventful(b: Ball) { b == Wicket || b == Runs(4) || b == Runs(6) }

  function EventfulCount(balls: seq<Ball>): nat
    decreases |balls|
  {
    if balls == [] then 0
    else EventfulCount(balls[..|balls| - 1]) + (if Eventful(balls[|balls| - 1]) then 1 else 0)
  }

  function OverNumber(o: Over): int { o.over }

  /** `[...recentOvers].sort((a, b) => a.over - b.over)`. */
  function SortedOvers(recentOvers: seq<Over>): seq<Over>
  {
    Seqs.SortBy(recentOvers, OverNumber)
  }

  // ---------------------------------------------------------------------
  // The events, defined over-by-over and ball-by-ball

  /** The event of the ball at index `i` of over `number`, if it makes one.
      `cum` is the cumulative total at the start of the over; `overRuns` and
      `wickets` already include this ball. */
  function BallEvent(number: int, i: nat, b: Ball, cum: nat, overRuns: nat, wickets: nat): seq<Event>
  {
    match b
    case Wicket => [Event(Position(number, i + 1), WicketFell, cum, wickets)]
    case Runs(n) =>
      if n == 4 then [Event(Position(number, i + 1), Four, cum + overRuns, wickets)]
      else if n == 6 then [Event(Position(number, i + 1), Six, cum + overRuns, wickets)]
      else []
  }

  /** The ball events of an over whose first balls are `balls`, starting from
      cumulative runs `cum` and `w` wickets. */
  function BallEvents(number: int, balls: seq<Ball>, cum: nat, w: nat): seq<Event>
    decreases |balls|
  {
    if balls == [] then []
    else
      var i := |balls| - 1;
      BallEvents(number, balls[..i], cum, w)
        + BallEvent(number, i, balls[i], cum, OverRuns(balls), w + WicketCount(balls))
  }

  /** The 'over' point and, when the over crosses a multiple of 50, the
      'milestone' point. */
  function OverSummary(o: Over, cum: nat, w: nat): seq<Event>
  {
    var overRuns := OverRuns(o.runs);
    var c := cum + overRuns;
    var wk := w + WicketCount(o.runs);
    [Event(Position(o.over, 0), OverEnd, c, wk)]
      + (if c / 50 > (c - overRuns) / 50
         then [Event(Position(o.over, 0), Milestone(c / 50 * 50), c, wk)]
         else [])
  }

  function OverEvents(o: Over, cum: nat, w: nat): seq<Event>
  {
    BallEvents(o.over, o.runs, cum, w) + OverSummary(o, cum, w)
  }

  /** The events of the overs `s`, processed in the given order. */
  function EventsOf(s: seq<Over>): seq<Event>
    decreases |s|
  {
    if s == [] then []
    else
      var init := s[..|s| - 1];
      EventsOf(init) + OverEvents(s[|s| - 1], TotalRuns(init), TotalWickets(init))
  }

  /** What `generateTimelineData` returns for a present over list. */
  function TimelineEvents(recentOvers: seq<Over>): seq<Event>
  {
    EventsOf(SortedOvers(recentOvers))
  }

  // ---------------------------------------------------------------------
  // The imperative walk

  /** One more ball of an over. */
  lemma {:induction false} BallStep(number: int, balls: seq<Ball>, i: nat, cum: nat, w: nat)
    requires i < |balls|
    ensures OverRuns(balls[..i + 1]) == OverRuns(balls[..i]) + BallRuns(balls[i])
    ensures WicketCount(balls[..i + 1]) == WicketCount(balls[..i]) + (if balls[i] == Wicket then 1 else 0)
    ensures BallEvents(number, balls[..i + 1], cum, w)
            == BallEvents(number, balls[..i], cum, w)
               + BallEvent(number, i, balls[i], cum, OverRuns(balls[..i + 1]), w + WicketCount(balls[..i + 1]))
  {
    assert balls[..i + 1][..i] == balls[..i];
  }

  /** One more over. */
  lemma {:induction false} OverStep(s: seq<Over>, k: nat)
    requires k < |s|
    ensures TotalRuns(s[..k + 1]) == TotalRuns(s[..k]) + OverRuns(s[k].runs)
    ensures TotalWickets(s[..k + 1]) == TotalWickets(s[..k]) + WicketCount(s[k].runs)
    ensures EventsOf(s[..k + 1]) == EventsOf(s[..k]) + OverEvents(s[k], TotalRuns(s[..k]), TotalWickets(s[..k]))
  {
    assert s[..k + 1][..k] == s[..k];
  }

  /** The summary points of an over, in terms of the walk's variables. */
  lemma {:induction false} SummaryStep(o: Over, cum: nat, w: nat, c: nat, overRuns: nat, wk: nat)
    requires overRuns == OverRuns(o.runs) && c == cum + overRuns && wk == w + WicketCount(o.runs)
    ensures c / 50 > (c - overRuns) / 50 ==>
      OverSummary(o, cum, w) == [Event(Position(o.over, 0), OverEnd, c, wk), Event(Position(o.over, 0), Milestone(c / 50 * 50), c, wk)]
    ensures c / 50 <= (c - overRuns) / 50 ==>
      OverSummary(o, cum, w) == [Event(Position(o.over, 0), OverEnd, c, wk)]
  {
  }

  /** The body of `generateTimelineData`'s loop over the sorted overs: walks
      one over's balls from the running totals `cumulativeRuns` and
      `wicketsBefore`, then adds the 'over' point and, when the over crossed
      a multiple of 50, the 'milestone' point. */
  method ScoreOver(over: Over, cumulativeRuns: nat, wicketsBefore: nat)
    returns (cumulativeAfter: nat, wickets: nat, events: seq<Event>)
    ensures cumulativeAfter == cumulativeRuns + OverRuns(over.runs)
    ensures wickets == wicketsBefore + WicketCount(over.runs)
    ensures events == OverEvents(over, cumulativeRuns, wicketsBefore)
  {
    var overRuns := 0;
    wickets, events := wicketsBefore, [];
    var ballIndex := 0;
    while ballIndex < |over.runs|
      invariant 0 <= ballIndex <= |over.runs|
      invariant overRuns == OverRuns(over.runs[..ballIndex])
      invariant wickets == wicketsBefore + WicketCount(over.runs[..ballIndex])
      invariant events == BallEvents(over.over, over.runs[..ballIndex], cumulativeRuns, wicketsBefore)
    {
      var run := over.runs[ballIndex];
      BallStep(over.over, over.runs, ballIndex, cumulativeRuns, wicketsBefore);
      if run == Wicket {
        wickets := wickets + 1;
        events := events + [Event(Position(over.over, ballIndex + 1), WicketFell, cumulativeRuns, wickets)];
      } else {
        overRuns := overRuns + run.n;
        if run.n == 4 {
          events := events + [Event(Position(over.over, ballIndex + 1), Four, cumulativeRuns + overRuns, wickets)];
        } else if run.n == 6 {
          events := events + [Event(Position(over.over, ballIndex + 1), Six, cumulativeRuns + overRuns, wickets)];
        }
      }
      ballIndex := ballIndex + 1;
    }
    assert over.runs[..ballIndex] == over.runs;
    cumulativeAfter := cumulativeRuns + overRuns;
    SummaryStep(over, cumulativeRuns, wicketsBefore, cumulativeAfter, overRuns, wickets);
    events := events + [Event(Position(over.over, 0), OverEnd, cumulativeAfter, wickets)];
    if cumulativeAfter / 50 > (cumulativeAfter - overRuns) / 50 {
      events := events + [Event(Position(over.over, 0), Milestone(cumulativeAfter / 50 * 50), cumulativeAfter, wickets)];
    }
  }

  /** `generateTimelineData`: `recentOvers` is `match.recentOvers`, `None`
      when the record has none. The input is copied before it is sorted. */
  method GenerateTimelineData(recentOvers: Option<seq<Over>>) returns (events: seq<Event>)
    ensures recentOvers.None? ==> events == []
    ensures recentOvers.Some? ==> events == TimelineEvents(recentOvers.value)
  {
    if recentOvers.None? || |recentOvers.value| == 0 {
      return [];
    }
    var sortedOvers := SortedOvers(recentOvers.value);
    events := [];
    var cumulativeRuns := 0;
    var wickets := 0;
    var k := 0;
    while k < |sortedOvers|
      invariant 0 <= k <= |sortedOvers|
      invariant cumulativeRuns == TotalRuns(sortedOvers[..k])
      invariant wickets == TotalWickets(sortedOvers[..k])
      invariant events == EventsOf(sortedOvers[..k])
    {
      OverStep(sortedOvers, k);
      var overEvents;
      cumulativeRuns, wickets, overEvents := ScoreOver(sortedOvers[k], cumulativeRuns, wickets);
      events := events + overEvents;
      k := k + 1;
    }
    assert sortedOvers[..k] == sortedOvers;
  }

  /** The component renders nothing (`None`) without batting or over data;
      otherwise it charts the timeline. */
  method MatchTimelineData(batting: Option<seq<TeamBatting>>, recentOvers: Option<seq<Over>>)
    returns (data: Option<seq<Event>>)
    ensures data.None? <==> batting.None? || recentOvers.None?
    ensures data.Some? ==> data.value == TimelineEvents(recentOvers.value)
  {
    if batting.None? || recentOvers.None? {
      return None;
    }
    var events := GenerateTimelineData(recentOvers);
    data := Some(events);
  }

  // ---------------------------------------------------------------------
  // The order of processing

  /** Overs are processed in ascending over number, equal numbers in input
      order, and every input over is processed exactly once. */
  lemma {:induction false} OversProcessedAscending(recentOvers: seq<Over>)
    ensures Seqs.SortedBy(SortedOvers(recentOvers), OverNumber)
    ensures multiset(SortedOvers(recentOvers)) == multiset(recentOvers)
    ensures forall n :: Seqs.WithKey(SortedOvers(recentOvers), OverNumber, n)
                        == Seqs.WithKey(recentOvers, OverNumber, n)
  {
    Seqs.SortBySorted(recentOvers, OverNumber);
    forall n ensures Seqs.WithKey(SortedOvers(recentOvers), OverNumber, n)
                     == Seqs.WithKey(recentOvers, OverNumber, n)
    {
      Seqs.SortByStable(recentOvers, OverNumber, n);
    }
  }

  lemma {:induction false} InsertTotals(x: Over, t: seq<Over>)
    ensures TotalRuns(Seqs.Insert(x, t, OverNumber)) == TotalRuns(t) + OverRuns(x.runs)
    ensures TotalWickets(Seqs.Insert(x, t, OverNumber)) == TotalWickets(t) + WicketCount(x.runs)
    decreases |t|
  {
    if t == [] || OverNumber(t[|t| - 1]) <= OverNumber(x) {
      assert (t + [x])[..|t|] == t;
    } else {
      var init, last := t[..|t| - 1], t[|t| - 1];
      var u := Seqs.Insert(x, init, OverNumber);
      InsertTotals(x, init);
      assert (u + [last])[..|u|] == u;
    }
  }

  /** Sorting does not change the totals. */
  lemma {:induction false} SortedTotals(s: seq<Over>)
    ensures TotalRuns(SortedOvers(s)) == TotalRuns(s)
    ensures TotalWickets(SortedOvers(s)) == TotalWickets(s)
    decreases |s|
  {
    if s != [] {
      SortedTotals(s[..|s| - 1]);
      InsertTotals(s[|s| - 1], SortedOvers(s[..|s| - 1]));
    }
  }

  // ---------------------------------------------------------------------
  // One over

  lemma {:induction false} OfTagNone(s: seq<Event>, t: Tag)
    requires forall i :: 0 <= i < |s| ==> TagOf(s[i].kind) != t
    ensures OfTag(s, t) == []
    decreases |s|
  {
    if s != [] {
      OfTagNone(s[..|s| - 1], t);
    }
  }

  /** The ball events of an over: one per "W", 4 and 6 ball, in ball order,
      at tenths 1..|balls| of the over, with the running figures of the over. */
  lemma {:induction false} BallEventsShape(number: int, balls: seq<Ball>, cum: nat, w: nat)
    ensures var ev := BallEvents(number, balls, cum, w);
      && |ev| == EventfulCount(balls)
      && (forall j :: 0 <= j < |ev| ==>
            && ev[j].ball.over == number
            && 1 <= ev[j].ball.tenths <= |balls|
            && IsBallKind(ev[j].kind)
            && cum <= ev[j].runs <= cum + OverRuns(balls)
            && w <= ev[j].wickets <= w + WicketCount(balls))
      && (forall j1, j2 :: 0 <= j1 < j2 < |ev| ==> ev[j1].ball.tenths < ev[j2].ball.tenths)
    decreases |balls|
  {
    if balls != [] {
      var i := |balls| - 1;
      BallEventsShape(number, balls[..i], cum, w);
    }
  }

  /** Within an over the wicket events are numbered on from `w` and all
      report the cumulative runs as of the start of the over. */
  lemma {:induction false} BallEventsWickets(number: int, balls: seq<Ball>, cum: nat, w: nat)
    ensures var ws := OfTag(BallEvents(number, balls, cum, w), WicketTag);
      && |ws| == WicketCount(balls) && NumberedFrom(ws, w)
      && forall j :: 0 <= j < |ws| ==> ws[j].runs == cum
    decreases |balls|
  {
    if balls != [] {
      var i := |balls| - 1;
      var prior := BallEvents(number, balls[..i], cum, w);
      var here := BallEvent(number, i, balls[i], cum, OverRuns(balls), w + WicketCount(balls));
      BallEventsWickets(number, balls[..i], cum, w);
      OfTagConcat(prior, here, WicketTag);
      assert OfTag(here, WicketTag) == (if balls[i] == Wicket then here else []) by {
        assert here == [] || here == [here[0]];
        if here != [] {
          assert here[..0] == [];
        }
      }
    }
  }

  /** Four and six events report the cumulative runs including that ball and
      all earlier balls of the over: the runs they add over the start of the
      over are at least the ball's own 4 or 6. */
  lemma {:induction false} BallEventsBoundaryRuns(number: int, balls: seq<Ball>, cum: nat, w: nat)
    ensures var ev := BallEvents(number, balls, cum, w);
      forall j :: 0 <= j < |ev| ==>
        var t := ev[j].ball.tenths;
        && 1 <= t <= |balls|
        && (ev[j].kind.Four? ==> balls[t - 1] == Runs(4) && ev[j].runs == cum + OverRuns(balls[..t]))
        && (ev[j].kind.Six? ==> balls[t - 1] == Runs(6) && ev[j].runs == cum + OverRuns(balls[..t]))
        && (ev[j].kind.WicketFell? ==> balls[t - 1] == Wicket && ev[j].runs == cum)
        && ev[j].wickets == w + WicketCount(balls[..t])
    decreases |balls|
  {
    if balls != [] {
      var i := |balls| - 1;
      BallEventsBoundaryRuns(number, balls[..i], cum, w);
      BallEventsShape(number, balls[..i], cum, w);
      var ev := BallEvents(number, balls, cum, w);
      forall j | 0 <= j < |ev|
        ensures var t := ev[j].ball.tenths;
          && 1 <= t <= |balls|
          && (ev[j].kind.Four? ==> balls[t - 1] == Runs(4) && ev[j].runs == cum + OverRuns(balls[..t]))
          && (ev[j].kind.Six? ==> balls[t - 1] == Runs(6) && ev[j].runs == cum + OverRuns(balls[..t]))
          && (ev[j].kind.WicketFell? ==> balls[t - 1] == Wicket && ev[j].runs == cum)
          && ev[j].wickets == w + WicketCount(balls[..t])
      {
        var t := ev[j].ball.tenths;
        if j < |BallEvents(number, balls[..i], cum, w)| {
          assert balls[..i][..t] == balls[..t];
        } else {
          assert balls[..t] == balls;
        }
      }
    }
  }

  /** One over's events: its ball events, then exactly one 'over' event with
      the new totals, then a 'milestone' event exactly when the over crosses
      a multiple of 50, naming the highest multiple reached. */
  lemma {:induction false} OverEventsShape(o: Over, cum: nat, w: nat)
    ensures var ev := OverEvents(o, cum, w);
      var n := EventfulCount(o.runs);
      var c := cum + OverRuns(o.runs);
      var wk := w + WicketCount(o.runs);
      && (|ev| == n + 1 || |ev| == n + 2)
      && (forall j :: 0 <= j < |ev| ==> ev[j].ball.over == o.over)
      && (forall j :: 0 <= j < n ==> IsBallKind(ev[j].kind))
      && ev[n] == Event(Position(o.over, 0), OverEnd, c, wk)
      && (|ev| == n + 2 <==> c / 50 > cum / 50)
      && (|ev| == n + 2 ==> ev[n + 1] == Event(Position(o.over, 0), Milestone(c / 50 * 50), c, wk))
  {
    BallEventsShape(o.over, o.runs, cum, w);
  }

  /** The milestone rule: it names a multiple of 50 that the over reached
      and that lies above the total at the start of the over. */
  lemma {:induction false} MilestoneCrossed(o: Over, cum: nat, w: nat, m: nat)
    requires Event(Position(o.over, 0), Milestone(m), cum + OverRuns(o.runs), w + WicketCount(o.runs))
             in OverEvents(o, cum, w)
    ensures m % 50 == 0
    ensures cum < m <= cum + OverRuns(o.runs) < m + 50
  {
    var ev := OverEvents(o, cum, w);
    OverEventsShape(o, cum, w);
    BallEventsShape(o.over, o.runs, cum, w);
    var n := EventfulCount(o.runs);
    var j :| 0 <= j < |ev| && ev[j] == Event(Position(o.over, 0), Milestone(m), cum + OverRuns(o.runs), w + WicketCount(o.runs));
    assert j == n + 1;
  }

  // ---------------------------------------------------------------------
  // The whole timeline

  /** The 'over' event of the k-th processed over. */
  function OverEndAt(s: seq<Over>, k: nat): Event
    requires k < |s|
  {
    Event(Position(s[k].over, 0), OverEnd, TotalRuns(s[..k + 1]), TotalWickets(s[..k + 1]))
  }

  /** `ends` are the 'over' events of the overs `s`, in order. */
  predicate OverEndsMatch(ends: seq<Event>, s: seq<Over>)
  {
    |ends| == |s| && forall k :: 0 <= k < |s| ==> ends[k] == OverEndAt(s, k)
  }

  /** The 'over' events are exactly one per over, in processing order, each
      carrying the runs of all non-"W" balls and the count of "W" up to and
      including that over. */
  lemma {:induction false} OverEndsOf(s: seq<Over>)
    ensures OverEndsMatch(OfTag(EventsOf(s), OverTag), s)
    decreases |s|
  {
    if s != [] {
      var init, last := s[..|s| - 1], s[|s| - 1];
      var cum, w := TotalRuns(init), TotalWickets(init);
      var ends := OfTag(EventsOf(init), OverTag);
      OverEndsOf(init);
      assert OfTag(EventsOf(s), OverTag) == ends + [OverEndAt(s, |s| - 1)] by {
        OverEndOfOver(last, cum, w);
        assert EventsOf(s) == EventsOf(init) + OverEvents(last, cum, w);
        OverEndAtLast(s);
        OfTagAppendOne(EventsOf(init), OverEvents(last, cum, w), OverTag, OverEndAt(s, |s| - 1));
      }
      OverEndsExtend(ends, s);
    }
  }

  lemma {:induction false} OverEndsExtend(ends: seq<Event>, s: seq<Over>)
    requires s != [] && OverEndsMatch(ends, s[..|s| - 1])
    ensures OverEndsMatch(ends + [OverEndAt(s, |s| - 1)], s)
  {
    var all := ends + [OverEndAt(s, |s| - 1)];
    forall k | 0 <= k < |s| ensures all[k] == OverEndAt(s, k) {
      if k < |ends| {
        OverEndAtPrefix(s, k);
      }
    }
  }

  lemma {:induction false} OverEndAtLast(s: seq<Over>)
    requires s != []
    ensures OverEndAt(s, |s| - 1)
            == Event(Position(s[|s| - 1].over, 0), OverEnd,
                     TotalRuns(s[..|s| - 1]) + OverRuns(s[|s| - 1].runs),
                     TotalWickets(s[..|s| - 1]) + WicketCount(s[|s| - 1].runs))
  {
    assert s[..|s|] == s;
  }

  lemma {:induction false} OverEndAtPrefix(s: seq<Over>, k: nat)
    requires k + 1 < |s|
    ensures OverEndAt(s, k) == OverEndAt(s[..|s| - 1], k)
  {
    assert s[..k + 1] == s[..|s| - 1][..k + 1];
  }

  lemma {:induction false} OfTagAppendOne(a: seq<Event>, b: seq<Event>, t: Tag, e: Event)
    requires OfTag(b, t) == [e]
    ensures OfTag(a + b, t) == OfTag(a, t) + [e]
  {
    OfTagConcat(a, b, t);
  }

  /** Selecting by type keeps just `e` when it is the only event of type `t`. */
  lemma {:induction false} OfTagSingle(a: seq<Event>, e: Event, b: seq<Event>, t: Tag)
    requires forall i :: 0 <= i < |a| ==> TagOf(a[i].kind) != t
    requires forall i :: 0 <= i < |b| ==> TagOf(b[i].kind) != t
    requires TagOf(e.kind) == t
    ensures OfTag(a + [e] + b, t) == [e]
  {
    OfTagNone(a, t);
    OfTagNone(b, t);
    OfTagConcat(a + [e], b, t);
    OfTagConcat(a, [e], t);
    assert [e][..0] == [];
  }

  /** An over has exactly one 'over' event. */
  lemma {:induction false} OverEndOfOver(o: Over, cum: nat, w: nat)
    ensures OfTag(OverEvents(o, cum, w), OverTag)
            == [Event(Position(o.over, 0), OverEnd, cum + OverRuns(o.runs), w + WicketCount(o.runs))]
  {
    var balls := BallEvents(o.over, o.runs, cum, w);
    var summary := OverSummary(o, cum, w);
    BallEventsShape(o.over, o.runs, cum, w);
    var e := summary[0];
    var rest := summary[1..];
    assert summary == [e] + rest;
    assert balls + summary == balls + [e] + rest;
    OfTagSingle(balls, e, rest, OverTag);
  }

  /** The 'over' totals never decrease from one over to the next. */
  lemma {:induction false} OverEndsMonotone(recentOvers: seq<Over>, k1: nat, k2: nat)
    requires k1 <= k2 < |recentOvers|
    ensures var ends := OfTag(TimelineEvents(recentOvers), OverTag);
      k2 < |ends| && ends[k1].runs <= ends[k2].runs && ends[k1].wickets <= ends[k2].wickets
  {
    var s := SortedOvers(recentOvers);
    OverEndsOf(s);
    TotalsMonotone(s, k1 + 1, k2 + 1);
  }

  /** The last 'over' event carries the totals of the whole input: all its
      non-"W" runs and all its "W" balls, whatever the input order. */
  lemma {:induction false} FinalTotals(recentOvers: seq<Over>)
    requires |recentOvers| > 0
    ensures var ends := OfTag(TimelineEvents(recentOvers), OverTag);
      && |ends| == |recentOvers|
      && ends[|ends| - 1].runs == TotalRuns(recentOvers)
      && ends[|ends| - 1].wickets == TotalWickets(recentOvers)
  {
    var s := SortedOvers(recentOvers);
    OverEndsOf(s);
    SortedTotals(recentOvers);
    assert s[..|s|] == s;
  }

  /** The wicket events `ws` count on from `start`: start + 1, start + 2, ... */
  predicate NumberedFrom(ws: seq<Event>, start: nat)
  {
    forall j :: 0 <= j < |ws| ==> ws[j].wickets == start + j + 1
  }

  lemma {:induction false} NumberedConcat(a: seq<Event>, b: seq<Event>)
    requires NumberedFrom(a, 0) && NumberedFrom(b, |a|)
    ensures NumberedFrom(a + b, 0)
  {
    var ab := a + b;
    forall j | 0 <= j < |ab| ensures ab[j].wickets == j + 1 {
      if j < |a| {
        assert ab[j] == a[j];
      } else {
        assert ab[j] == b[j - |a|];
      }
    }
  }

  /** One over's wicket events: one per "W", numbered on from `w`, each with
      the runs as of the start of the over. */
  lemma {:induction false} WicketsOfOver(o: Over, cum: nat, w: nat)
    ensures var ws := OfTag(OverEvents(o, cum, w), WicketTag);
      && |ws| == WicketCount(o.runs) && NumberedFrom(ws, w)
      && forall j :: 0 <= j < |ws| ==> ws[j].runs == cum
  {
    var balls := BallEvents(o.over, o.runs, cum, w);
    var summary := OverSummary(o, cum, w);
    OfTagConcat(balls, summary, WicketTag);
    BallEventsWickets(o.over, o.runs, cum, w);
    OfTagNone(summary, WicketTag);
  }

  /** Wicket events count the wickets 1, 2, 3, ... in order: the count is
      incremented before the event records it, and there is one per "W". */
  lemma {:induction false} WicketsNumbered(s: seq<Over>)
    ensures var ws := OfTag(EventsOf(s), WicketTag);
      |ws| == TotalWickets(s) && NumberedFrom(ws, 0)
    decreases |s|
  {
    if s != [] {
      var init, last := s[..|s| - 1], s[|s| - 1];
      var cum, w := TotalRuns(init), TotalWickets(init);
      WicketsNumbered(init);
      WicketsOfOver(last, cum, w);
      assert EventsOf(s) == EventsOf(init) + OverEvents(last, cum, w);
      OfTagConcat(EventsOf(init), OverEvents(last, cum, w), WicketTag);
      NumberedConcat(OfTag(EventsOf(init), WicketTag), OfTag(OverEvents(last, cum, w), WicketTag));
    }
  }

  /** The milestone at index `i` follows the 'over' event of its own over,
      at the same position and with the same totals, and names the multiple
      of 50 just at or below that total. */
  predicate MilestoneWellPlaced(ev: seq<Event>, i: nat)
    requires i < |ev|
  {
    && IsMilestone(ev[i])
    && 0 < i && IsOverEnd(ev[i - 1])
    && ev[i - 1].ball == ev[i].ball
    && ev[i - 1].runs == ev[i].runs && ev[i - 1].wickets == ev[i].wickets
    && ev[i].kind.reached % 50 == 0
    && ev[i].kind.reached <= ev[i].runs < ev[i].kind.reached + 50
  }

  predicate MilestonesWellPlaced(ev: seq<Event>)
  {
    forall i :: 0 <= i < |ev| && IsMilestone(ev[i]) ==> MilestoneWellPlaced(ev, i)
  }

  lemma {:induction false} MilestonesWellPlacedConcat(a: seq<Event>, b: seq<Event>)
    requires MilestonesWellPlaced(a) && MilestonesWellPlaced(b)
    ensures MilestonesWellPlaced(a + b)
  {
    var ab := a + b;
    forall i | 0 <= i < |ab| && IsMilestone(ab[i]) ensures MilestoneWellPlaced(ab, i) {
      if i < |a| {
        assert ab[i] == a[i] && MilestoneWellPlaced(a, i);
        assert ab[i - 1] == a[i - 1];
      } else {
        assert ab[i] == b[i - |a|] && MilestoneWellPlaced(b, i - |a|);
        assert ab[i - 1] == b[i - |a| - 1];
      }
    }
  }

  lemma {:induction false} OverMilestonesWellPlaced(o: Over, cum: nat, w: nat)
    ensures MilestonesWellPlaced(OverEvents(o, cum, w))
  {
    var ev := OverEvents(o, cum, w);
    OverEventsShape(o, cum, w);
    var n := EventfulCount(o.runs);
    forall i | 0 <= i < |ev| && IsMilestone(ev[i]) ensures MilestoneWellPlaced(ev, i) {
      assert i == n + 1;
    }
  }

  /** Every milestone of the timeline is well placed. */
  lemma {:induction false} MilestonesFollowOverEnds(s: seq<Over>)
    ensures MilestonesWellPlaced(EventsOf(s))
    decreases |s|
  {
    if s != [] {
      var init, last := s[..|s| - 1], s[|s| - 1];
      MilestonesFollowOverEnds(init);
      OverMilestonesWellPlaced(last, TotalRuns(init), TotalWickets(init));
      MilestonesWellPlacedConcat(EventsOf(init), OverEvents(last, TotalRuns(init), TotalWickets(init)));
    }
  }

  /** Ball events are never milestones. */
  lemma {:induction false} BallEventsNoMilestone(number: int, balls: seq<Ball>, cum: nat, w: nat)
    ensures OfTag(BallEvents(number, balls, cum, w), MilestoneTag) == []
  {
    BallEventsShape(number, balls, cum, w);
    OfTagNone(BallEvents(number, balls, cum, w), MilestoneTag);
  }

  /** The summary of an over holds at most one milestone. */
  lemma {:induction false} SummaryMilestonesAtMostOne(o: Over, cum: nat, w: nat)
    ensures |OfTag(OverSummary(o, cum, w), MilestoneTag)| <= 1
  {
    var summary := OverSummary(o, cum, w);
    var tail := summary[1..];
    assert summary == [summary[0]] + tail;
    OfTagConcat([summary[0]], tail, MilestoneTag);
    assert OfTag([summary[0]], MilestoneTag) == [] by {
      assert [summary[0]][..0] == [];
    }
  }

  /** One over contributes at most one milestone. */
  lemma {:induction false} OverMilestonesAtMostOne(o: Over, cum: nat, w: nat)
    ensures |OfTag(OverEvents(o, cum, w), MilestoneTag)| <= 1
  {
    OfTagConcat(BallEvents(o.over, o.runs, cum, w), OverSummary(o, cum, w), MilestoneTag);
    BallEventsNoMilestone(o.over, o.runs, cum, w);
    SummaryMilestonesAtMostOne(o, cum, w);
  }

  /** At most one milestone per over, even when an over crosses two
      multiples of 50. */
  lemma {:induction false} MilestonesAtMostOnePerOver(s: seq<Over>)
    ensures |OfTag(EventsOf(s), MilestoneTag)| <= |s|
    decreases |s|
  {
    if s != [] {
      var init, last := s[..|s| - 1], s[|s| - 1];
      var cum, w := TotalRuns(init), TotalWickets(init);
      MilestonesAtMostOnePerOver(init);
      OfTagConcat(EventsOf(init), OverEvents(last, cum, w), MilestoneTag);
      OverMilestonesAtMostOne(last, cum, w);
    }
  }

  /** Every event lies in an over numbered at most `bound` when every
      processed over does. */
  lemma {:induction false} EventsBounded(s: seq<Over>, bound: int)
    requires forall k :: 0 <= k < |s| ==> s[k].over <= bound
    ensures forall i :: 0 <= i < |EventsOf(s)| ==> EventsOf(s)[i].ball.over <= bound
    decreases |s|
  {
    if s != [] {
      var init, last := s[..|s| - 1], s[|s| - 1];
      EventsBounded(init, bound);
      OverEventsShape(last, TotalRuns(init), TotalWickets(init));
      var head, ov := EventsOf(init), OverEvents(last, TotalRuns(init), TotalWickets(init));
      assert EventsOf(s) == head + ov;
    }
  }

  ghost predicate OversAscending(ev: seq<Event>)
  {
    forall i, j :: 0 <= i < j < |ev| ==> ev[i].ball.over <= ev[j].ball.over
  }

  /** Processing sorted overs yields events in non-decreasing over number. */
  lemma {:induction false} EventsAscending(s: seq<Over>)
    requires Seqs.SortedBy(s, OverNumber)
    ensures OversAscending(EventsOf(s))
    decreases |s|
  {
    if s != [] {
      var init, last := s[..|s| - 1], s[|s| - 1];
      var cum, w := TotalRuns(init), TotalWickets(init);
      EventsAscending(init);
      assert forall k :: 0 <= k < |init| ==> OverNumber(s[k]) <= OverNumber(s[|s| - 1]);
      EventsBounded(init, last.over);
      OverEventsShape(last, cum, w);
      var head, ov := EventsOf(init), OverEvents(last, cum, w);
      var ev := EventsOf(s);
      assert ev == head + ov;
      forall i, j | 0 <= i < j < |ev| ensures ev[i].ball.over <= ev[j].ball.over {
        if j < |head| {
          assert ev[i] == head[i] && ev[j] == head[j];
        } else if i < |head| {
          assert ev[i] == head[i] && ev[j] == ov[j - |head|];
        } else {
          assert ev[i] == ov[i - |head|] && ev[j] == ov[j - |head|];
        }
      }
    }
  }

  /** Whatever the input order, the timeline runs forward in over number. */
  lemma {:induction false} TimelineAscending(recentOvers: seq<Over>)
    ensures OversAscending(TimelineEvents(recentOvers))
  {
    OversProcessedAscending(recentOvers);
    EventsAscending(SortedOvers(recentOvers));
  }

  // ---------------------------------------------------------------------
  // Examples

  /** A wicket after a four in the same over reports fewer runs than the
      four: the wicket carries the total as of the start of the over. */
  lemma {:induction false} WicketAfterFourReportsOverStart()
    ensures OverEvents(Over(7, [Runs(4), Wicket]), 30, 2)
            == [Event(Position(7, 1), Four, 34, 2),
                Event(Position(7, 2), WicketFell, 30, 3),
                Event(Position(7, 0), OverEnd, 34, 3)]
  {
    var balls := [Runs(4), Wicket];
    assert balls[..1] == [Runs(4)];
    assert balls[..1][..0] == [];
    assert OverRuns(balls[..1]) == 4 && WicketCount(balls[..1]) == 0;
    assert OverRuns(balls) == 4 && WicketCount(balls) == 1;
    assert BallEvents(7, balls[..1], 30, 2) == [Event(Position(7, 1), Four, 34, 2)];
    assert BallEvents(7, balls, 30, 2) == BallEvents(7, balls[..1], 30, 2) + [Event(Position(7, 2), WicketFell, 30, 3)];
  }

  /** Going from 48 to 53 in one over emits exactly one milestone, for 50. */
  lemma {:induction false} CrossingFiftyOnce()
    ensures OverSummary(Over(9, [Runs(1), Runs(4)]), 48, 0)
            == [Event(Position(9, 0), OverEnd, 53, 0),
                Event(Position(9, 0), Milestone(50), 53, 0)]
  {
    var balls := [Runs(1), Runs(4)];
    assert balls[..1] == [Runs(1)];
    assert balls[..1][..0] == [];
    assert OverRuns(balls) == 5 && WicketCount(balls) == 0;
  }

  /** An over worth 60 from 48 crosses both 50 and 100 but emits a single
      milestone, naming 100. */
  lemma {:induction false} CrossingTwoMultiplesOnce()
    ensures OverSummary(Over(9, [Runs(30), Runs(30)]), 48, 0)
            == [Event(Position(9, 0), OverEnd, 108, 0),
                Event(Position(9, 0), Milestone(100), 108, 0)]
  {
    var balls := [Runs(30), Runs(30)];
    assert balls[..1] == [Runs(30)];
    assert balls[..1][..0] == [];
    assert OverRuns(balls) == 60 && WicketCount(balls) == 0;
  }
}
