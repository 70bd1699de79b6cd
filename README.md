# CricApp data logic in Dafny

CricApp is a React front end for following cricket matches: live scores, a
scorecard page with charts, player pages and a search box. Almost all of it
is markup over mock data. This project models the data code inside it and
proves what that code computes:

- **Match timeline** (match_timeline.dfy). `generateTimelineData` sorts a
  copy of the recent overs by over number. It then walks every ball and
  emits wicket, four, six, end-of-over and milestone events.
- **Match statistics** (match_stats.dfy). These are the aggregations behind
  the scorecard charts:
  - the current run rate and the runs progression;
  - the top scorer and the top wicket taker;
  - the team comparison read from the score strings;
  - the boundary totals and the bowler table sorted by wickets;
  - the 60/30/10 runs-type split.
- **Overs helpers** (helpers.dfy). `parseOvers` reads the notation "N.B"
  as N overs and B balls. `calculateRunRate` divides runs by overs.
- **Live-score tick** (live_matches.dfy). On each refresh the mock match
  list is fetched afresh. Each live match may gain one to six runs per team
  in its score text, and that team's run rate is then recomputed. A match is
  a class whose fields the tick updates in place.
- **Match header** (match_header.dfy). `formatTime` gives "HH:MM:SS" and
  `getCurrentOver` gives the over position at four minutes an over.
- **Search** (search_service.dfy, search_results.dfy):
  - `searchMatchesAndPlayers` does case-insensitive substring filtering;
  - the results dropdown has a visibility guard, item keys and link paths.
- **Scorecard page** (scorecard_detail.dfy). It holds the player slug
  `getPlayerId` and the default batsman and bowler selection.
- **Browser utilities** (test_utils.dfy):
  - the ordered user-agent classification;
  - the issue log that keeps the last 20 entries;
  - the accessibility check, with its heading-skip loop.

Shared modules:

- wrappers.dfy holds `Option`.
- text.dfy holds the JavaScript string built-ins the code relies on, in
  the forms the code uses them: ASCII `toLowerCase`, `trim`, `split`,
  `parseInt` with radix 10, `parseFloat` of plain decimal text (no exponent,
  no "Infinity"), `includes`, `replace` of a literal and number formatting.
- seqs.dfy holds filtering, subsequences and a stable sort by an integer
  key.
- match_data.dfy holds the shape of a match record. A ball is `Runs(n)` or
  `Wicket` ("W").

How values are represented:

- A NaN from `parseInt` or `parseFloat` is `None`.
- Random draws, the elapsed time, the user agent, the clock, storage
  failure and the DOM query results are parameters.
- Run rates are exact: `real` in the statistics and a numerator/denominator
  `Fraction` in the live tick. IEEE rounding and `toFixed` are not modelled.

## Model

| member | source | states |
|---|---|---|
| `MatchTimeline.GenerateTimelineData` | src/components/scorecard/MatchTimeline.jsx:19-93 | an absent over list gives no events; otherwise the loop's events are exactly those of the sorted overs, defined over by over |
| `MatchTimeline.ScoreOver` | src/components/scorecard/MatchTimeline.jsx:30-90 | one pass of the outer loop adds the over's non-"W" runs to the cumulative runs and its "W" count to the wickets, and pushes exactly that over's events |
| `MatchTimeline.MatchTimelineData` | src/components/scorecard/MatchTimeline.jsx:16-20 | the component renders nothing exactly when the batting or the over data is absent; otherwise it renders the timeline |
| `MatchTimeline.OversProcessedAscending` | src/components/scorecard/MatchTimeline.jsx:23 | the processed overs are sorted by over number, are a permutation of the input, and keep equal over numbers in input order |
| `MatchTimeline.SortedTotals` | src/components/scorecard/MatchTimeline.jsx:23 | sorting changes neither the total runs nor the total wickets |
| `MatchTimeline.InsertTotals` | src/components/scorecard/MatchTimeline.jsx:23 | inserting an over into the sorted list adds exactly its runs and wickets to the totals |
| `MatchTimeline.BallEventsShape` | src/components/scorecard/MatchTimeline.jsx:33-67 | an over yields one ball event per "W", 4 and 6 ball, in ball order, at tenths 1 to the over's length, with runs and wickets between the over's start and end figures |
| `MatchTimeline.BallEventsWickets` | src/components/scorecard/MatchTimeline.jsx:37-45 | within an over there is one wicket event per "W"; they are numbered on from the wickets before the over and all report the runs at the start of the over |
| `MatchTimeline.BallEventsBoundaryRuns` | src/components/scorecard/MatchTimeline.jsx:47-65 | a four or six event sits at that ball and reports the start-of-over runs plus every non-"W" ball up to and including it; a wicket event reports the start-of-over runs; each carries the wickets so far |
| `MatchTimeline.OverEventsShape` | src/components/scorecard/MatchTimeline.jsx:33-89 | an over's events are its ball events, then exactly one 'over' event with the new totals, then a 'milestone' event exactly when floor(c/50) > floor(start/50), naming floor(c/50)*50 |
| `MatchTimeline.MilestoneCrossed` | src/components/scorecard/MatchTimeline.jsx:81-89 | a milestone names a multiple of 50 above the start-of-over total and at most the new total, which is below the next multiple |
| `MatchTimeline.OverEndsOf` | src/components/scorecard/MatchTimeline.jsx:69-78 | the 'over' events are exactly one per processed over, in order, each carrying the runs and the "W" count of every over up to and including it |
| `MatchTimeline.OverEndOfOver` | src/components/scorecard/MatchTimeline.jsx:72-78 | each over has exactly one 'over' event |
| `MatchTimeline.OverEndsMonotone` | src/components/scorecard/MatchTimeline.jsx:69-78 | the runs and wickets of the 'over' events never decrease from one over to the next |
| `MatchTimeline.FinalTotals` | src/components/scorecard/MatchTimeline.jsx:69-78 | there is one 'over' event per input over, and the last one carries the runs and wickets of the whole input, whatever its order |
| `MatchTimeline.WicketsOfOver` | src/components/scorecard/MatchTimeline.jsx:37-45 | an over's wicket events are one per "W", numbered on from the earlier wickets, each reporting the start-of-over runs |
| `MatchTimeline.WicketsNumbered` | src/components/scorecard/MatchTimeline.jsx:37-45 | over the whole timeline the wicket events number the wickets 1, 2, 3 … in order, one per "W" |
| `MatchTimeline.OverMilestonesWellPlaced` | src/components/scorecard/MatchTimeline.jsx:72-89 | within an over, each milestone directly follows that over's 'over' event, at the same position with the same totals |
| `MatchTimeline.MilestonesFollowOverEnds` | src/components/scorecard/MatchTimeline.jsx:72-89 | in the whole timeline, every milestone directly follows its over's 'over' event, and names the multiple of 50 just at or below that total |
| `MatchTimeline.BallEventsNoMilestone` | src/components/scorecard/MatchTimeline.jsx:33-67 | ball events are never milestones |
| `MatchTimeline.SummaryMilestonesAtMostOne` | src/components/scorecard/MatchTimeline.jsx:80-89 | the summary of an over holds at most one milestone |
| `MatchTimeline.OverMilestonesAtMostOne` | src/components/scorecard/MatchTimeline.jsx:80-89 | one over contributes at most one milestone |
| `MatchTimeline.MilestonesAtMostOnePerOver` | src/components/scorecard/MatchTimeline.jsx:80-89 | the timeline has at most as many milestones as overs |
| `MatchTimeline.EventsBounded` | src/components/scorecard/MatchTimeline.jsx:35 | when every processed over is numbered at most a bound, every event lies in an over at most that bound |
| `MatchTimeline.EventsAscending` | src/components/scorecard/MatchTimeline.jsx:30-90 | sorted overs yield events in non-decreasing over number |
| `MatchTimeline.TimelineAscending` | src/components/scorecard/MatchTimeline.jsx:23-90 | whatever the input order, the timeline runs forward in over number |
| `MatchTimeline.WicketAfterFourReportsOverStart` | src/components/scorecard/MatchTimeline.jsx:42 | example: from 30 runs, a wicket after a four in the same over reports 30 while the four reports 34 |
| `MatchTimeline.CrossingFiftyOnce` | src/components/scorecard/MatchTimeline.jsx:81-89 | example: going from 48 to 53 emits one milestone, for 50 |
| `MatchTimeline.CrossingTwoMultiplesOnce` | src/components/scorecard/MatchTimeline.jsx:81-89 | example: an over of 60 from 48 crosses 50 and 100 but emits one milestone, naming 100 |
| `MatchStats.CalculateRunRate` | src/components/scorecard/MatchStats.jsx:29-38 | 0 for an absent or empty list; otherwise rate × number of overs equals the runs of the listed overs, "W" counting 0 |
| `MatchStats.RunRateMatchesTimeline` | src/components/scorecard/MatchStats.jsx:29-38 | the current run rate is the last timeline 'over' total divided by the number of overs |
| `MatchStats.GenerateRunsProgressionData` | src/components/scorecard/MatchStats.jsx:41-59 | no points without an over list; otherwise one point per over, the i-th being the point accumulated for input index n-1-i (running total in the given order, then reversed) |
| `MatchStats.ProgressionRunsNonIncreasing` | src/components/scorecard/MatchStats.jsx:47-58 | after the reversal the points' runs never increase along the output |
| `MatchStats.ProgressionSteps` | src/components/scorecard/MatchStats.jsx:47-58 | a point's runs are the previous input over's plus its own over runs; the last input over's point carries all the runs |
| `MatchStats.ProgressionOfMostRecentFirst` | src/components/scorecard/MatchStats.jsx:47-58 | as written, a most-recent-first list shows the earliest over with all the runs and the latest with its own runs only |
| `MatchStats.CorrectedProgressionAscends` | src/components/scorecard/MatchStats.jsx:47-58 | with the correction the runs never decrease along the output |
| `MatchStats.CorrectedProgressionEndsAtTotal` | src/components/scorecard/MatchStats.jsx:47-58 | with the correction the last point carries the runs of all the overs |
| `MatchStats.CorrectedProgressionOfMostRecentFirst` | src/components/scorecard/MatchStats.jsx:47-58 | with the correction, on the same input the earliest over shows its own runs and the latest shows all of them |
| `MatchStats.FirstMaxUnique` | src/components/scorecard/MatchStats.jsx:66-79 | at most one position is the first maximum, so a strict `>` running maximum has a single answer |
| `MatchStats.RunningMaxStep` | src/components/scorecard/MatchStats.jsx:70-71 | a strictly greater key takes over the running maximum; an equal or smaller one leaves it |
| `MatchStats.BattingRowsPrefix` | src/components/scorecard/MatchStats.jsx:68-69 | the batting rows of the first t teams are a prefix of all rows, in team-then-player order |
| `MatchStats.BattingRowOf` | src/components/scorecard/MatchStats.jsx:68-69 | player p of team t is the row right after all rows of the earlier teams |
| `MatchStats.BattingRowsEmpty` | src/components/scorecard/MatchStats.jsx:63-83 | with no players in any team there are no rows |
| `MatchStats.ScorerStep` | src/components/scorecard/MatchStats.jsx:70-78 | one batter keeps the top-scorer state consistent: a strictly higher score replaces the scorer with that row |
| `MatchStats.ScanTeamBatters` | src/components/scorecard/MatchStats.jsx:69-80 | the inner loop over a team's batters keeps the top-scorer state over all rows seen so far |
| `MatchStats.FindTopScorer` | src/components/scorecard/MatchStats.jsx:62-84 | null for an absent list, and exactly when no player has at least 0 runs (so with no players); otherwise the first player in team-then-player order with the most runs, with its team name and stored strike rate |
| `MatchStats.BowlingRowsPrefix` | src/components/scorecard/MatchStats.jsx:93-94 | the bowling rows of the first t teams are a prefix of all rows |
| `MatchStats.BowlingRowOf` | src/components/scorecard/MatchStats.jsx:93-94 | bowler p of team t is the row right after all rows of the earlier teams |
| `MatchStats.BowlingRowsEmpty` | src/components/scorecard/MatchStats.jsx:88-108 | with no bowlers in any team there are no rows |
| `MatchStats.TakerStep` | src/components/scorecard/MatchStats.jsx:95-103 | one bowler keeps the top-wicket-taker state consistent: strictly more wickets replace the taker |
| `MatchStats.ScanTeamBowlers` | src/components/scorecard/MatchStats.jsx:94-105 | the inner loop over a team's bowlers keeps the top-wicket-taker state over all rows so far |
| `MatchStats.FindTopWicketTaker` | src/components/scorecard/MatchStats.jsx:87-109 | null for an absent list, and exactly when no bowler has at least 0 wickets; otherwise the first bowler with the most wickets, with team name, overs text and economy as stored |
| `MatchStats.LazyUpTo` | src/components/scorecard/MatchStats.jsx:123-126 | the lazy `(.*?)` ends inside the text at or after its start |
| `MatchStats.GroupFrom` | src/components/scorecard/MatchStats.jsx:123-126 | a captured group is shorter than the text it was searched in |
| `MatchStats.LazyUpToFinds` | src/components/scorecard/MatchStats.jsx:123-126 | the lazy group stops at the first occurrence of its closing text, when no line terminator comes first |
| `MatchStats.GroupFromFinds` | src/components/scorecard/MatchStats.jsx:123-126 | the match starts at the leftmost '(' from which the lazy group succeeds, and captures up to the closing text |
| `MatchStats.LazyUpToFirstChar` | src/components/scorecard/MatchStats.jsx:123-126 | the lazy group stops at the closing text when nothing before it can start that text or end the line |
| `MatchStats.ScoreLayout` | src/components/scorecard/MatchStats.jsx:123-126 | "<a>(<c> ov)" has plain overs text after the '(' followed by " ov)" |
| `MatchStats.PlainWindow` | src/components/scorecard/MatchStats.jsx:123-126 | plain overs text holds no blank, no ')' and no line terminator |
| `MatchStats.LazyAfterPlain` | src/components/scorecard/MatchStats.jsx:123-126 | after the '(' the lazy group meets " ov" right after the overs text and ')' three characters later |
| `MatchStats.OvAfterOvers` | src/components/scorecard/MatchStats.jsx:124 | in "<a>(<c> ov)" the `(.*?) ov` group ends right after c |
| `MatchStats.CloseAfterOvers` | src/components/scorecard/MatchStats.jsx:123 | in "<a>(<c> ov)" the `(.*?)\)` group ends at the closing ')' |
| `MatchStats.OversGroup` | src/components/scorecard/MatchStats.jsx:123-126 | with no '(' before it, both patterns match "<a>(<c> ov)" and the " ov" one captures c |
| `MatchStats.ScoreWickets` | src/components/scorecard/MatchStats.jsx:117 | wickets are 0 when the first word has no '/' |
| `MatchStats.ScoreOvers` | src/components/scorecard/MatchStats.jsx:123-126 | overs are 0 when the score has no "(...)" group |
| `MatchStats.ComparisonRunRate` | src/components/scorecard/MatchStats.jsx:129-130 | for positive overs the rate times the overs equals the runs (NaN exactly when the runs are); otherwise the rate is 0 |
| `MatchStats.GenerateTeamComparisonData` | src/components/scorecard/MatchStats.jsx:112-148 | two entries, team 1 and then team 2 |
| `MatchStats.ScoreTextCounts` | src/components/scorecard/MatchStats.jsx:113-120 | the runs and wickets of "<runs>/<wickets> (<c> ov)" read back |
| `MatchStats.ScoreTextOvers` | src/components/scorecard/MatchStats.jsx:123-126 | the overs of "<runs>/<wickets> (<c> ov)" are `parseFloat` of c |
| `MatchStats.ComparisonOfScore` | src/components/scorecard/MatchStats.jsx:112-148 | a well-formed score gives the entry of its runs, its wickets, `parseFloat` of its overs text and runs per those overs |
| `MatchStats.OversNotationDecimal` | src/components/scorecard/MatchStats.jsx:124 | the overs text "<o>.<b>" is read as the decimal o + b/10 |
| `MatchStats.ComparisonOfOversNotation` | src/components/scorecard/MatchStats.jsx:112-148 | "<runs>/<wickets> (<o>.<b> ov)" gives o + b/10 overs and runs per that many overs |
| `MatchStats.ScoreTextOfMock` | src/services/matchService.js:49 | the first mock match's score has the canonical shape the comparison lemmas take |
| `MatchStats.ComparisonReadsOversAsDecimal` | src/components/scorecard/MatchStats.jsx:123-130 | as written, with b > 0 balls the overs are o + b/10, which is not the o + b/6 that `parseOvers` reads, and the rate is taken over them |
| `MatchStats.CorrectedOvers` | src/components/scorecard/MatchStats.jsx:123-126 | corrected overs are 0 without a "(...)" group |
| `MatchStats.CorrectedRunRate` | src/components/scorecard/MatchStats.jsx:129-130 | the corrected rate is NaN exactly when the runs are |
| `MatchStats.CorrectedEntryRate` | src/components/scorecard/MatchStats.jsx:132-147 | the corrected entry differs from the one as written in its rate only |
| `MatchStats.CorrectedOversOfNotation` | src/components/scorecard/MatchStats.jsx:123-126 | with the correction "(<o>.<b> ov)" comes to (6o + b)/6 overs |
| `MatchStats.CorrectedRateIsPerSixBalls` | src/components/scorecard/MatchStats.jsx:129-130 | with the correction a score covering 6o + b > 0 balls gets 6 · runs / balls as its rate |
| `MatchStats.CorrectedRunRateOf` | src/components/scorecard/MatchStats.jsx:129-130 | a score whose corrected overs are balls/6 gets runs per six balls |
| `MatchStats.Round` | src/components/scorecard/MatchStats.jsx:216-218 | `Math.round` gives the integer within half of x, halves going up |
| `MatchStats.BoundaryTotal` | src/components/scorecard/MatchStats.jsx:167 | 4 · Σfours + 6 · Σsixes is the sum of the players' boundary runs |
| `MatchStats.GenerateBoundaryData` | src/components/scorecard/MatchStats.jsx:151-172 | one entry per team in order, with the team's name, summed fours and sixes, and total 4·fours + 6·sixes, which is the players' boundary runs |
| `MatchStats.StatsOf` | src/components/scorecard/MatchStats.jsx:188-196 | one stat per bowling row |
| `MatchStats.CollectBowlers` | src/components/scorecard/MatchStats.jsx:178-198 | the nested loops push exactly one stat per bowler, in card order |
| `MatchStats.CollectTeamBowlers` | src/components/scorecard/MatchStats.jsx:179-197 | the inner loop appends one stat per bowler of the team |
| `MatchStats.TeamStatsStep` | src/components/scorecard/MatchStats.jsx:188-196 | one more bowler appends its stat |
| `MatchStats.StatsOfSnoc` | src/components/scorecard/MatchStats.jsx:188-196 | appending a row appends its stat |
| `MatchStats.CalculateBowlerStats` | src/components/scorecard/MatchStats.jsx:175-201 | a permutation of all the bowlers, ordered by wickets non-increasing, where bowlers with equal wickets keep card order |
| `MatchStats.TotalBalls` | src/components/scorecard/MatchStats.jsx:182-183 | the unused ball count is NaN exactly when the whole-overs part is |
| `MatchStats.TotalBallsOfNotation` | src/components/scorecard/MatchStats.jsx:182-183 | for "N.B" the unused ball count is 6N + B |
| `MatchStats.TotalBallsOfParts` | src/components/scorecard/MatchStats.jsx:182-183 | the ball count from the two parts of the split text |
| `MatchStats.TotalBallsMatchesParseOvers` | src/components/scorecard/MatchStats.jsx:183 | for "N.B" six times `parseOvers` is that ball count |
| `MatchStats.BowlerOversReadAsDecimal` | src/components/scorecard/MatchStats.jsx:191 | the bowler table's overs read "N.B" as N + B/10, less than the N + B/6 overs of `parseOvers` |
| `MatchStats.GenerateRunsDistributionData` | src/components/scorecard/MatchStats.jsx:204-232 | per team: '1s' = Σround(0.6·rem), '2s' = 2·Σround(0.3·rem), '3s' = 3·Σround(0.1·rem), '4s' = 4·Σfours and '6s' = 6·Σsixes, where '4s' + '6s' match the boundary data |
| `MatchStats.SplitOvercountsRuns` | src/components/scorecard/MatchStats.jsx:216-227 | as written, a batter with 10 non-boundary runs gets 1s, 2s and 3s bars that add up to 15 |
| `MatchStats.RoundWhole` | src/components/scorecard/MatchStats.jsx:216-218 | a whole number rounds to itself |
| `MatchStats.SumOne` | src/components/scorecard/MatchStats.jsx:210-221 | the sum over one player is that player's value |
| `MatchStats.PartsAddUp` | src/components/scorecard/MatchStats.jsx:216-218 | rounding 60%, 30% and 10% separately loses or gains at most one run |
| `MatchStats.PartsSumAddUp` | src/components/scorecard/MatchStats.jsx:216-218 | over a team the three rounded parts differ from the non-boundary runs by at most one per player |
| `MatchStats.CorrectedSplitAddsUp` | src/components/scorecard/MatchStats.jsx:223-230 | with the correction the 1s, 2s and 3s bars add up to the non-boundary runs, within one run per player |
| `Helpers.ParseOvers` | src/utils/helpers.js:13-22 | an empty or absent overs string gives 0 |
| `Helpers.CalculateRunRate` | src/utils/helpers.js:8-11 | 0 when overs are 0 or absent; otherwise rate × overs = runs |
| `Helpers.ParseOversWhole` | src/utils/helpers.js:17-21 | "N" with no '.' reads as N |
| `Helpers.ParseOversOfNotation` | src/utils/helpers.js:17-21 | "N.B" reads as N + B/6, so six times it is the ball count 6N + B |
| `Helpers.ParseOversUnparseableWhole` | src/utils/helpers.js:18 | an unparseable whole part counts as 0 overs |
| `Helpers.ParseOversUnparseableBalls` | src/utils/helpers.js:19 | an unparseable ball part counts as 0 balls |
| `Helpers.ParseOversBallsUnchecked` | src/utils/helpers.js:19-21 | the ball part is not range-checked: "34.7" reads as 34 + 7/6, over 35 |
| `Helpers.RunRateOverBalls` | src/utils/helpers.js:8-11 | over balls/6 overs the run rate is runs per six balls |
| `LiveMatches.IncrementRange` | src/components/matches/LiveMatches.jsx:31 | a draw in [0, 1) adds between one and six runs |
| `LiveMatches.ScoreParts` | src/components/matches/LiveMatches.jsx:21-22 | splitting always yields at least one part |
| `LiveMatches.LiveMatch.constructor` | src/services/matchService.js:5-39 | a match object holds the record it is built from |
| `LiveMatches.LiveMatch.Tick` | src/components/matches/LiveMatches.jsx:17-54 | the callback updates the object in place to the record ticked with the match's draws |
| `LiveMatches.FetchLiveMatches` | src/services/matchService.js:3-40 | three new, distinct objects holding the mock records |
| `LiveMatches.TickAll` | src/components/matches/LiveMatches.jsx:17-54 | every object in the list is ticked with its own draws; the list keeps its length, order and objects |
| `LiveMatches.TickAt` | src/components/matches/LiveMatches.jsx:17-54 | one step of the `map` ticks the match at i in place and, the objects being distinct, leaves every other match as it was |
| `LiveMatches.GetMatches` | src/components/matches/LiveMatches.jsx:11-17 | a refresh returns fresh objects, each the mock record ticked once, so increments never build up across refreshes |
| `LiveMatches.OnlyLiveMatchesChange` | src/components/matches/LiveMatches.jsx:19 | a match changes only when its status is "Live" and its first draw exceeds 0.5 |
| `LiveMatches.TickKeepsIdentity` | src/components/matches/LiveMatches.jsx:17-54 | id, teams, status and venue are never touched |
| `LiveMatches.TeamsChangeOnlyWhenFired` | src/components/matches/LiveMatches.jsx:25-50 | a team's score and rate change only when its update fires; a score not splitting into two parts, and team 2's "--", never fire |
| `LiveMatches.DashesSplitInOne` | src/components/matches/LiveMatches.jsx:39 | "--" splits into one part, so the extra "--" test never decides anything |
| `LiveMatches.ScorePartsOf` | src/components/matches/LiveMatches.jsx:21-26 | a canonical score's first word splits into the runs and the wickets, and the runs read back |
| `LiveMatches.UpdateOfScore` | src/components/matches/LiveMatches.jsx:31-34 | on a canonical score only the runs are rewritten; wickets and suffix stay, and the rate is recomputed from the new runs |
| `LiveMatches.TickScore1` | src/components/matches/LiveMatches.jsx:25-36 | team 1's runs rise by 1 to 6 exactly when its update fires, with the rate newRuns·60/423, and stay with the old rate otherwise |
| `LiveMatches.TickScore2` | src/components/matches/LiveMatches.jsx:39-50 | the same for team 2 with the rate newRuns·60/214 |
| `LiveMatches.RunsNeverDecrease` | src/components/matches/LiveMatches.jsx:30-35 | on a canonical score the runs never decrease, grow by at most six, and the rate changes only when they change |
| `LiveMatches.MockScoresCanonical` | src/services/matchService.js:10-33 | every mock score is canonical "<runs>/<wickets> <rest>" |
| `LiveMatches.MockScoreIndia` | src/services/matchService.js:10 | the mock score "275/4 (42.3 ov)" is canonical |
| `LiveMatches.MockScoreAustralia` | src/services/matchService.js:11 | the mock score "230/8 (50 ov)" is canonical |
| `LiveMatches.MockScoreEngland` | src/services/matchService.js:21 | the mock score "310/6 (50 ov)" is canonical |
| `LiveMatches.MockScoreNewZealand` | src/services/matchService.js:22 | the mock score "120/2 (21.4 ov)" is canonical |
| `LiveMatches.MockScoreSouthAfrica` | src/services/matchService.js:32 | the mock score "189/10 (45.2 ov)" is canonical |
| `LiveMatches.MockScorePakistan` | src/services/matchService.js:33 | the mock score "156/7 (38.4 ov)" is canonical |
| `LiveMatches.RefreshRunsBounded` | src/components/matches/LiveMatches.jsx:14-50 | after any refresh each team's runs lie between the mock runs and six more |
| `LiveMatches.TeamRunsBounded1` | src/components/matches/LiveMatches.jsx:25-36 | after a tick team 1's runs read back and lie within six above the old runs |
| `LiveMatches.TeamRunsBounded2` | src/components/matches/LiveMatches.jsx:39-50 | the same for team 2 |
| `MatchHeader.StartTimeOffsetRange` | src/components/matches/MatchHeader.jsx:8 | a draw in [0, 1) gives a start offset in 0..7199 |
| `MatchHeader.ClockOf` | src/components/matches/MatchHeader.jsx:21-23 | hrs·3600 + mins·60 + secs = seconds, with mins and secs below 60 |
| `MatchHeader.ClockOfUnique` | src/components/matches/MatchHeader.jsx:21-23 | no other split keeps mins and secs below 60 |
| `MatchHeader.PadStart2` | src/components/matches/MatchHeader.jsx:24 | `padStart(2, '0')` gives at least two characters, ending with the input, with only '0's before it |
| `MatchHeader.PaddedNumber` | src/components/matches/MatchHeader.jsx:24 | a padded number is digits that read back as the number |
| `MatchHeader.NatToStringAtMostTwo` | src/components/matches/MatchHeader.jsx:24 | a number takes at most two digits exactly when it is below 100 |
| `MatchHeader.FormatTimeRoundTrip` | src/components/matches/MatchHeader.jsx:20-25 | the clock text reads back as the seconds it was made from |
| `MatchHeader.FormatTimeFields` | src/components/matches/MatchHeader.jsx:24 | three digit fields joined by ':'; minutes and seconds are two digits; hours are two digits exactly below 100 hours, and more from there on |
| `MatchHeader.CurrentOver` | src/components/matches/MatchHeader.jsx:30-32 | balls are in 0..5 and overs·240 + balls·40 ≤ total < overs·240 + (balls+1)·40 |
| `MatchHeader.CurrentOverBallCount` | src/components/matches/MatchHeader.jsx:30-32 | overs·6 + balls is the number of 40-second balls started |
| `MatchHeader.CurrentOverMonotone` | src/components/matches/MatchHeader.jsx:30-32 | (overs, balls) never goes back lexicographically as the total seconds it is given grow |
| `MatchHeader.OverTextAsOvers` | src/components/matches/MatchHeader.jsx:34 | the unpadded text "<overs>.<balls>" reads back through `parseOvers` as overs + balls/6, six times which is the balls started |
| `SearchService.Search` | src/services/searchService.js:123-153 | a blank query finds nothing, and neither list grows |
| `SearchService.ResultsInOrder` | src/services/searchService.js:135-147 | the results are subsequences of the source lists, in their order |
| `SearchService.MatchFoundIff` | src/services/searchService.js:135-140 | a match is found exactly when the query is not blank and its normalized form is in the lower-cased team1, team2, venue or status |
| `SearchService.PlayerFoundIff` | src/services/searchService.js:143-147 | a player is found exactly when the query is not blank and its normalized form is in the lower-cased name, country or role |
| `SearchService.PlayerHitIgnoresIdAndStats` | src/services/searchService.js:143-147 | neither the id nor the career figures take part in the search |
| `SearchService.BlankIffAllSpace` | src/services/searchService.js:124-126 | a present query is blank exactly when it is all whitespace, and then nothing is found |
| `SearchService.BlankIffNormalizedEmpty` | src/services/searchService.js:124-129 | a query is blank exactly when its normalized form is empty |
| `SearchService.SameNormalizedSameResults` | src/services/searchService.js:129 | queries with the same normalized form find the same results |
| `SearchService.PaddingIgnored` | src/services/searchService.js:129 | whitespace around the query does not change the results |
| `SearchService.CaseIgnored` | src/services/searchService.js:129 | the letter case of the query does not change the results |
| `SearchService.ExtendingNarrows` | src/services/searchService.js:135-147 | a query containing a shorter non-blank query finds a subsequence of what that one finds |
| `SearchService.ContainedQueryNarrows` | src/services/searchService.js:135-147 | when a non-blank query occurs in a longer one as typed, its normalized form occurs in the longer one's, so the longer query finds a subsequence of what it finds |
| `TestUtils.DetectBrowser` | src/utils/testUtils.js:6-32 | the record carries the user agent, and `isMobile` is decided by the mobile pattern alone |
| `TestUtils.DetectBrowserIsFirstMatch` | src/utils/testUtils.js:10-22 | the if/else chain is the first matching rule over the five ordered patterns |
| `TestUtils.FirstMatchIff` | src/utils/testUtils.js:10-22 | a rule wins exactly when it matches and no earlier rule does; "Unknown" when none matches |
| `TestUtils.UnknownIffNoneMatch` | src/utils/testUtils.js:20-22 | the browser is "Unknown" exactly when none of the five patterns match |
| `TestUtils.ChromeWins` | src/utils/testUtils.js:10-11 | a user agent containing "chrome" is Chrome whatever else it contains |
| `TestUtils.KeepLast` | src/utils/testUtils.js:76 | `slice(-n)` keeps n entries, or all when there are fewer |
| `TestUtils.KeepLastAppend` | src/utils/testUtils.js:75-76 | after appending, the newest entry is last, preceded by the most recent n-1 earlier ones in order |
| `TestUtils.KeepLastIsSuffix` | src/utils/testUtils.js:76 | the kept entries are a contiguous tail of the list |
| `TestUtils.IssueStore.constructor` | src/utils/testUtils.js:74 | the store holds the initial stored list |
| `TestUtils.IssueStore.LogIssue` | src/utils/testUtils.js:55-82 | the record is built from the browser info and returned even when storage fails; a failure leaves the store unchanged, otherwise the store holds the last 20 of the old list plus the record |
| `TestUtils.Snippets` | src/utils/testUtils.js:111 | each snippet is the element's first 100 characters, or all of it |
| `TestUtils.AdjacentPairs` | src/utils/testUtils.js:131-141 | each heading level paired with the one before it, in document order |
| `TestUtils.SkipIssues` | src/utils/testUtils.js:134-138 | one skip issue per pair, naming the previous and current levels |
| `TestUtils.SkipPairsStep` | src/utils/testUtils.js:132-141 | one more heading adds its pair with the previous one exactly when that pair skips |
| `TestUtils.TestAccessibility` | src/utils/testUtils.js:101-144 | the image issue and the keyboard issue (each only when elements are found), then one skip issue per skipping adjacent pair, in order |
| `TestUtils.HeadingSkips` | src/utils/testUtils.js:130-141 | the heading loop reports exactly the skip issues of the skipping adjacent pairs |
| `TestUtils.HeadingStep` | src/utils/testUtils.js:131-141 | heading i, with the level before it (0 for the first), adds its pair exactly when that pair skips |
| `TestUtils.SkipIssuesAppend` | src/utils/testUtils.js:134-138 | one more pair appends its issue |
| `TestUtils.SkipPairsIff` | src/utils/testUtils.js:131-141 | a pair is reported exactly when it is adjacent in the levels and rises by more than one from a nonzero level |
| `TestUtils.SkipOfHeadingLevels` | src/utils/testUtils.js:131-133 | for levels 1 to 6 a skip is exactly a rise of more than one; a step down or sideways is never reported |
| `TestUtils.ElementIssuesFirst` | src/utils/testUtils.js:104-141 | at most two element issues, all before every heading issue |
| `ScorecardDetail.DashRuns` | src/components/scorecard/ScorecardDetail.jsx:71 | replacing whitespace runs never lengthens the text |
| `ScorecardDetail.GetPlayerIdLength` | src/components/scorecard/ScorecardDetail.jsx:70-72 | the slug is never longer than the name |
| `ScorecardDetail.DashRunsNoSpace` | src/components/scorecard/ScorecardDetail.jsx:71 | the rewritten text holds no whitespace |
| `ScorecardDetail.GetPlayerIdNoSpace` | src/components/scorecard/ScorecardDetail.jsx:70-72 | the slug contains no whitespace |
| `ScorecardDetail.DashRunsOfWord` | src/components/scorecard/ScorecardDetail.jsx:71 | text without whitespace is left unchanged |
| `ScorecardDetail.DashRunsAfterWord` | src/components/scorecard/ScorecardDetail.jsx:71 | a leading word is copied before the rest is rewritten |
| `ScorecardDetail.DashRunsOfRun` | src/components/scorecard/ScorecardDetail.jsx:71 | a whole whitespace run, however long, becomes a single '-' |
| `ScorecardDetail.DashRunsOfWords` | src/components/scorecard/ScorecardDetail.jsx:71 | two words around a whitespace run are joined by one '-'; leading or trailing whitespace gives a leading or trailing '-' (no trimming) |
| `ScorecardDetail.DashRunsKeepsOthers` | src/components/scorecard/ScorecardDetail.jsx:71 | apart from the dashes, the result is exactly the non-whitespace characters, in order |
| `ScorecardDetail.FilterOfSpaces` | src/components/scorecard/ScorecardDetail.jsx:71 | a whitespace run keeps no character |
| `ScorecardDetail.DashRunsOfLower` | src/components/scorecard/ScorecardDetail.jsx:71 | rewriting lower-cased text gives lower-cased text |
| `ScorecardDetail.GetPlayerIdIdempotent` | src/components/scorecard/ScorecardDetail.jsx:70-72 | the slug of a slug is the slug |
| `ScorecardDetail.DefaultSelectionIff` | src/components/scorecard/ScorecardDetail.jsx:22-24 | the batsman is selected exactly when batting[0] has a first player with a non-empty name, and is that name; the bowler likewise from bowling[0], provided batting[0] exists |
| `SearchResults.MatchItems` | src/components/search/SearchResults.jsx:22-25 | one item per match, keyed by its id, linking to "/scorecard/<id>" |
| `SearchResults.MatchPathsReadBack` | src/components/search/SearchResults.jsx:22-25 | each match item is keyed by the match id and links to "/scorecard/" and the id in decimal, which the scorecard route's `parseInt(matchId)` reads back as the id; different ids give different keys and links |
| `SearchResults.PlayerItems` | src/components/search/SearchResults.jsx:54-57 | one item per player, keyed by id or name, linking to "/player/<slug>" |
| `SearchResults.Render` | src/components/search/SearchResults.jsx:3-6 | something renders exactly when visible and at least one list is non-empty |
| `SearchResults.NoResultsUnreachable` | src/components/search/SearchResults.jsx:75-79 | whenever something renders a section is present and "No results found" is not |
| `SearchResults.BlankQueryRendersNothing` | src/components/search/SearchResults.jsx:4 | the results of a blank query render nothing |
| `SearchResults.PlayerPathsHaveNoSpace` | src/components/search/SearchResults.jsx:57 | every player path is "/player/" followed by a slug without whitespace |
| `SearchResults.PlayerKeyChoice` | src/components/search/SearchResults.jsx:55 | the key is the id when present and non-empty, the name otherwise |

## Left out

- Floating point. `toFixed(2)` and the `parseFloat` read-back of run rates
  are exact reals here (MatchStats.jsx:37, 129-130, 137, 144; helpers.js:10).
  The live tick's `newRuns / 42.3 * 6` and `/ 21.4 * 6` are the exact
  fraction newRuns·60/423 (or /214).
- MatchStats.Round: `Math.round` is exact round-half-up on reals. The float
  products `remainingRuns * 0.6` may land just below a half and round
  differently in JavaScript.
- Randomness. Every `Math.random()` value becomes a parameter: the draws of
  the live tick and the header's start offset.
- Timers and polling. `setInterval` in LiveMatches, MatchHeader and
  ScorecardDetail is left out; the header's elapsed seconds are a
  parameter.
- React state, JSX markup and the recharts charts. Only the data they are
  given is modelled. SearchResults is reduced to its items' keys and paths.
- The bowler table's `runsPerOver` and `totalBalls` are computed and never
  used. `runsPerOver` is left out; `totalBalls` is modelled only to relate
  it to `parseOvers`.
- The live tick's `wickets` (LiveMatches.jsx:27, 41) are parsed and never
  used, so they are not modelled.
- `parseFloat(player.economy)` in the bowler table: the economy is taken as
  the stored number.
- Unicode. Lower-casing and `\s` are ASCII only.
- MatchStats.ScoreOvers: a "(...)" group without " ov" makes
  `match(...)[1]` throw. That crash is the precondition `OversReadable`,
  not modelled behaviour.
- MatchStats.ComparisonEntry: requires `OversReadable` for the same crash.
- MatchStats.GenerateTeamComparisonData: requires `OversReadable` of both
  scores for the same crash. The component's `if (!match) return null`
  guard (MatchStats.jsx:26) is not modelled; the record is taken as
  present.
- LiveMatches.GetMatches: the `try`/`catch` and `console.error` around the
  refresh, and the state setters, are not modelled.
- TestUtils.IssueStore.LogIssue: localStorage failures of any kind are one
  `storageFails` flag. The JSON text and the storage key are not modelled;
  `console.warn` and `console.error` are left out. The ISO timestamp is a
  parameter.
- The search's player table and match list are parameters. The mock data
  is not modelled, except the live match list.
- `getPlayerId` appears twice in the source with the same text
  (ScorecardDetail.jsx:70-72, SearchResults.jsx:9-11). One definition,
  `ScorecardDetail.GetPlayerId`, serves both, so the two agree by
  construction.
- TestUtils.TestAccessibility: the DOM queries are inputs. They are the
  outer HTML of the images without alt text and of the clickable elements
  without tabindex, and the heading levels as integers. The `type: 'a11y'`
  field is the same on every issue and is left out.
- Helpers.ParseOvers: `parseInt(parts[0])` and `parseInt(parts[1])`
  (helpers.js:18-19) have no radix, so JavaScript reads a "0x" prefix as
  hexadecimal; the model reads decimal only, so "0x1F.3" gives 0.5 here and
  31 + 3/6 in the source.
- LiveMatches.ScoreRuns: the radix-less `parseInt(score1Parts[0])`
  (LiveMatches.jsx:26, 40) is read as decimal, so for a score like
  "0x10/2 (5 ov)" the model reads 0 runs where the source reads 16. The
  model's `replace` of "0/" then rewrites inside "0x10/"; the source finds
  no "16/", leaves the text alone and still recomputes the rate from
  16 + k. The mock scores are all decimal.
- MatchStats.ScoreOvers: `parseFloat` of the overs text has no exponent
  and no "Infinity" here, so "4.2e1" reads as 4.2 rather than 42.
- MatchStats.StatOf: the same `parseFloat` gap for the bowler's overs
  text (MatchStats.jsx:191).
- MatchHeader.CurrentOverMonotone: holds of the position as a function of
  the total seconds. In the app `startTimeOffset` (MatchHeader.jsx:8) is a
  plain variable of the component body, drawn again on every render, and
  the one-second timer re-renders, so the displayed over and match time
  jump by a fresh random offset every second and are not monotone.
- The timeline events' `description` strings (MatchTimeline.jsx:44, 55, 63,
  77, 87) are not modelled; a milestone keeps only the number reached.
- The float `ball` value `over.over + (ballIndex + 1) / 10`
  (MatchTimeline.jsx:35) is the pair `Position(over, tenths)`. From the
  tenth ball of an over on, the float equals a value of the next over
  (10 + 10/10 is over 11), where the pairs stay distinct.
- TestUtils.Snippets: takes the first 100 characters, where
  `substring(0, 100)` (testUtils.js:111) takes 100 UTF-16 code units.
- TestUtils.KeepLast: mirrors `slice(-n)` only for n > 0; the log only
  uses 20.
- ScorecardDetail.DefaultSelectionIff: the fetch and the React state
  setters are not modelled. The selection is the value the setters receive;
  a thrown error (no batting or bowling card) leaves the initial null.

## Findings

| source | as written | input that shows it | evidently intended | confidence | as-written member | corrected member |
|---|---|---|---|---|---|---|
| src/components/scorecard/MatchStats.jsx:123-130 | the comparison reads the overs "42.3" with `parseFloat`, as 42.3 overs, and divides the runs by that | "275/4 (42.3 ov)": rate 275/42.3 ≈ 6.50, while 42.3 overs are 42.5 overs of six balls and the stored rate is 6.47 | read the overs as `parseOvers` does (N + B/6) and take runs per six balls | high (not executed) | `MatchStats.ComparisonReadsOversAsDecimal` | `MatchStats.CorrectedRateIsPerSixBalls` |
| src/components/scorecard/MatchStats.jsx:216-227 | the rounded 30% and 10% parts are summed and then multiplied again by 2 and 3 | one batter with 10 runs and no boundaries: 1s 6 + 2s 6 + 3s 3 = 15 runs from 10 | bars that add up to the non-boundary runs, within rounding | medium (not executed) | `MatchStats.SplitOvercountsRuns` | `MatchStats.CorrectedSplitAddsUp` |
| src/components/scorecard/MatchStats.jsx:47-58 | the running total accumulates in the supplied most-recent-first order and only then reverses | overs 42, 41, 40 with 6, 1 and 4 runs: over 40 shows 11 runs and over 42 shows 6 | a progression ascending over time, ending at the total | medium (not executed) | `MatchStats.ProgressionOfMostRecentFirst` | `MatchStats.CorrectedProgressionAscends` |
