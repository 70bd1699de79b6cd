/** The browser test utilities: the ordered user-agent classification, the
    issue log kept in storage, and the accessibility check over a page's
    images, clickable elements and heading levels. The DOM queries, the
    user agent, the clock and the storage are inputs. */
module TestUtils {
  import opened Wrappers
  import opened Text
  import Seqs

  // ---------------------------------------------------------------------
  // detectBrowser

  datatype BrowserInfo = BrowserInfo(browser: string, isMobile: bool, userAgent: string)

  /** A case-insensitive regular expression made of literal alternatives
      matches when one alternative, lower-cased, occurs in the lower-cased
      text. */
  predicate MatchesAny(text: string, alternatives: seq<string>)
  {
    exists k :: 0 <= k < |alternatives| && Contains(Lower(text), alternatives[k])
  }

  /** `/chrome|chromium|crios/i` and the other browser patterns, in the order
      the classification tries them, with the name each one gives. */
  function BrowserRules(): seq<(seq<string>, string)>
  {
    [ (["chrome", "chromium", "crios"], "Chrome"),
      (["firefox", "fxios"], "Firefox"),
      (["safari"], "Safari"),
      (["opr/"], "Opera"),
      (["edg"], "Edge") ]
  }

  /** `/Android|webOS|iPhone|iPad|iPod|BlackBerry|IEMobile|Opera Mini/i`, lower-cased. */
  function MobilePattern(): seq<string>
  {
    ["android", "webos", "iphone", "ipad", "ipod", "blackberry", "iemobile", "opera mini"]
  }

  /** `detectBrowser()`: an if/else chain over the patterns, then the
      independent mobile test. */
  function DetectBrowser(userAgent: string): (r: BrowserInfo)
    ensures r.userAgent == userAgent
    ensures r.isMobile <==> MatchesAny(userAgent, MobilePattern())
  {
    var rules := BrowserRules();
    var name :=
      if MatchesAny(userAgent, rules[0].0) then "Chrome"
      else if MatchesAny(userAgent, rules[1].0) then "Firefox"
      else if MatchesAny(userAgent, rules[2].0) then "Safari"
      else if MatchesAny(userAgent, rules[3].0) then "Opera"
      else if MatchesAny(userAgent, rules[4].0) then "Edge"
      else "Unknown";
    BrowserInfo(name, MatchesAny(userAgent, MobilePattern()), userAgent)
  }

  /** The name of the first rule whose pattern matches, "Unknown" when none
      does. */
  function FirstMatch(rules: seq<(seq<string>, string)>, userAgent: string): string
    decreases |rules|
  {
    if rules == [] then "Unknown"
    else if MatchesAny(userAgent, rules[0].0) then rules[0].1
    else FirstMatch(rules[1..], userAgent)
  }

  /** The chain is the first-match rule over the ordered patterns. */
  lemma {:induction false} DetectBrowserIsFirstMatch(userAgent: string)
    ensures DetectBrowser(userAgent).browser == FirstMatch(BrowserRules(), userAgent)
  {
    var rules := BrowserRules();
    assert rules[1..][1..][1..][1..][1..] == [];
  }

  /** A rule wins exactly when it matches and no earlier rule does, and the
      result is "Unknown" exactly when no rule matches. */
  lemma {:induction false} FirstMatchIff(rules: seq<(seq<string>, string)>, userAgent: string, k: nat)
    requires k < |rules|
    ensures (forall j :: 0 <= j < k ==> !MatchesAny(userAgent, rules[j].0)) && MatchesAny(userAgent, rules[k].0)
      ==> FirstMatch(rules, userAgent) == rules[k].1
    ensures (forall j :: 0 <= j < |rules| ==> !MatchesAny(userAgent, rules[j].0))
      ==> FirstMatch(rules, userAgent) == "Unknown"
    decreases |rules|
  {
    if k > 0 && !MatchesAny(userAgent, rules[0].0) {
      FirstMatchIff(rules[1..], userAgent, k - 1);
    } else if k == 0 && |rules| > 1 && !MatchesAny(userAgent, rules[0].0) {
      FirstMatchIff(rules[1..], userAgent, 0);
    }
  }

  /** The classification is "Unknown" exactly when none of the five browser
      patterns match. */
  lemma {:induction false} UnknownIffNoneMatch(userAgent: string)
    ensures DetectBrowser(userAgent).browser == "Unknown"
      <==> forall k :: 0 <= k < |BrowserRules()| ==> !MatchesAny(userAgent, BrowserRules()[k].0)
  {
    var rules := BrowserRules();
    if forall k :: 0 <= k < |rules| ==> !MatchesAny(userAgent, rules[k].0) {
    } else {
      var k :| 0 <= k < |rules| && MatchesAny(userAgent, rules[k].0);
      assert k == 0 || k == 1 || k == 2 || k == 3 || k == 4;
    }
  }

  /** A user agent that matches the Chrome pattern is "Chrome", whatever
      else it contains ("Edg", "OPR/", "Safari"). */
  lemma {:induction false} ChromeWins(userAgent: string)
    requires Contains(Lower(userAgent), "chrome")
    ensures DetectBrowser(userAgent).browser == "Chrome"
  {
    assert BrowserRules()[0].0[0] == "chrome";
  }

  // ---------------------------------------------------------------------
  // logIssue

  /** The record `logIssue` builds; `details` stands for the caller's
      object. */
  datatype LogRecord = LogRecord(
    timestamp: string, component: string, issue: string,
    browserInfo: BrowserInfo, details: map<string, string>)

  /** `list.slice(-n)` for `n > 0`: the last `n` entries, or all of them
      when there are fewer. (The log only uses 20; `slice(-0)` would keep
      the whole list, which this function does not mirror.) */
  function KeepLast<T>(s: seq<T>, n: nat): (r: seq<T>)
    ensures |r| == if |s| < n then |s| else n
  {
    if |s| <= n then s else s[|s| - n..]
  }

  /** Keeping the last `n` entries after appending `x` keeps `x` last, and
      before it the last `n - 1` of the earlier entries, in order. */
  lemma {:induction false} KeepLastAppend<T>(s: seq<T>, x: T, n: nat)
    requires n >= 1
    ensures KeepLast(s + [x], n) == KeepLast(s, n - 1) + [x]
  {
    if |s| + 1 > n {
      assert (s + [x])[|s| + 1 - n..] == s[|s| - (n - 1)..] + [x];
    }
  }

  /** The entries kept are a contiguous tail of the list. */
  lemma {:induction false} KeepLastIsSuffix<T>(s: seq<T>, n: nat)
    ensures var r := KeepLast(s, n); r == s[|s| - |r|..]
  {
  }

  /** The `localStorage` entry holding the log: `None` when the key is
      unset. */
  class IssueStore {
    var stored: Option<seq<LogRecord>>

    constructor (initial: Option<seq<LogRecord>>)
      ensures stored == initial
    {
      stored := initial;
    }

    /** `logIssue(component, issue, details)` with the user agent and the
        time supplied; `storageFails` says whether reading, parsing or
        writing the stored list throws, which is caught and leaves the
        storage as it was. The record is returned either way. */
    method LogIssue(component: string, issue: string, details: map<string, string>,
                    userAgent: string, timestamp: string, storageFails: bool)
      returns (logData: LogRecord)
      modifies this
      ensures logData == LogRecord(timestamp, component, issue, DetectBrowser(userAgent), details)
      ensures storageFails ==> stored == old(stored)
      ensures !storageFails ==> stored == Some(KeepLast(old(stored).GetOr([]) + [logData], 20))
    {
      var browserInfo := DetectBrowser(userAgent);
      logData := LogRecord(timestamp, component, issue, browserInfo, details);
      if !storageFails {
        var existingLogs := stored.GetOr([]);
        existingLogs := existingLogs + [logData];
        stored := Some(KeepLast(existingLogs, 20));
      }
    }
  }

  // ---------------------------------------------------------------------
  // testAccessibility

  datatype A11yIssue =
    | ElementIssue(issue: string, count: nat, elements: seq<string>)
    | HeadingIssue(issue: string, details: string)

  /** `el.outerHTML.substring(0, 100)` for each element. */
  function Snippets(elements: seq<string>): (r: seq<string>)
    ensures |r| == |elements|
    ensures forall k :: 0 <= k < |r| ==>
      |r[k]| == (if |elements[k]| < 100 then |elements[k]| else 100) && r[k] == elements[k][..|r[k]|]
  {
    seq(|elements|, k requires 0 <= k < |elements| => Take(elements[k], 100))
  }

  /** The image issue and the keyboard issue, each present only when some
      element is found. */
  function ElementIssues(images: seq<string>, clickable: seq<string>): seq<A11yIssue>
  {
    (if |images| > 0 then [ElementIssue("Images without alt text", |images|, Snippets(images))] else [])
    + (if |clickable| > 0 then [ElementIssue("Clickable elements without keyboard access", |clickable|, Snippets(clickable))] else [])
  }

  /** The loop's test, with `prev` the previous level (0 before the first
      heading). */
  predicate Skips(prev: int, level: int)
  {
    level > prev + 1 && prev != 0
  }

  predicate SkipsPair(p: (int, int))
  {
    Skips(p.0, p.1)
  }

  /** Each heading level with the one before it, in document order. */
  function AdjacentPairs(levels: seq<int>): (r: seq<(int, int)>)
    ensures |r| == if |levels| == 0 then 0 else |levels| - 1
    ensures forall i :: 0 <= i < |r| ==> r[i] == (levels[i], levels[i + 1])
  {
    if |levels| <= 1 then [] else seq(|levels| - 1, i requires 0 <= i < |levels| - 1 => (levels[i], levels[i + 1]))
  }

  /** The adjacent pairs with a skip, in document order. */
  function SkipPairs(levels: seq<int>): seq<(int, int)>
  {
    Seqs.Filter(AdjacentPairs(levels), SkipsPair)
  }

  function SkipIssue(prev: int, level: int): A11yIssue
  {
    HeadingIssue("Heading structure skip", "Heading jumps from h" + IntToString(prev) + " to h" + IntToString(level))
  }

  function SkipIssues(pairs: seq<(int, int)>): (r: seq<A11yIssue>)
    ensures |r| == |pairs|
    ensures forall k :: 0 <= k < |r| ==> r[k] == SkipIssue(pairs[k].0, pairs[k].1)
  {
    seq(|pairs|, k requires 0 <= k < |pairs| => SkipIssue(pairs[k].0, pairs[k].1))
  }

  /** Extending the headings by one adds the pair it forms with the one
      before, when that pair skips. */
  lemma {:induction false} SkipPairsStep(levels: seq<int>, i: nat)
    requires 1 <= i < |levels|
    ensures SkipPairs(levels[..i + 1])
      == SkipPairs(levels[..i]) + (if Skips(levels[i - 1], levels[i]) then [(levels[i - 1], levels[i])] else [])
  {
    var a, b := AdjacentPairs(levels[..i]), AdjacentPairs(levels[..i + 1]);
    assert b == a + [(levels[i - 1], levels[i])];
    Seqs.FilterConcat(a, [(levels[i - 1], levels[i])], SkipsPair);
    assert Seqs.Filter([(levels[i - 1], levels[i])], SkipsPair)
      == (if Skips(levels[i - 1], levels[i]) then [(levels[i - 1], levels[i])] else []) by {
      assert [(levels[i - 1], levels[i])][..0] == [];
    }
  }

  /** `testAccessibility(root)` over the elements the two queries find and
      the heading levels in document order. */
  method TestAccessibility(images: seq<string>, clickable: seq<string>, levels: seq<int>)
    returns (issues: seq<A11yIssue>)
    ensures issues == ElementIssues(images, clickable) + SkipIssues(SkipPairs(levels))
  {
    issues := [];
    if |images| > 0 {
      issues := issues + [ElementIssue("Images without alt text", |images|, Snippets(images))];
    }
    if |clickable| > 0 {
      issues := issues + [ElementIssue("Clickable elements without keyboard access", |clickable|, Snippets(clickable))];
    }
    var skips := HeadingSkips(levels);
    issues := issues + skips;
  }

  /** The heading loop of `testAccessibility`: `prevLevel` starts at 0 and
      follows the levels; a rise of more than one from a nonzero level is
      reported. */
  method HeadingSkips(levels: seq<int>) returns (issues: seq<A11yIssue>)
    ensures issues == SkipIssues(SkipPairs(levels))
  {
    issues := [];
    ghost var pairs: seq<(int, int)> := [];
    var prevLevel := 0;
    for i := 0 to |levels|
      invariant prevLevel == if i == 0 then 0 else levels[i - 1]
      invariant pairs == SkipPairs(levels[..i])
      invariant issues == SkipIssues(pairs)
    {
      var level := levels[i];
      HeadingStep(levels, i);
      if level > prevLevel + 1 && prevLevel != 0 {
        issues := issues + [SkipIssue(prevLevel, level)];
        SkipIssuesAppend(pairs, (prevLevel, level));
        pairs := pairs + [(prevLevel, level)];
      }
      prevLevel := level;
    }
    assert levels[..|levels|] == levels;
  }

  /** The loop's step: heading `i`, with the level before it (0 for the
      first), adds its pair exactly when that pair skips. */
  lemma {:induction false} HeadingStep(levels: seq<int>, i: nat)
    requires i < |levels|
    ensures var prev := if i == 0 then 0 else levels[i - 1];
      SkipPairs(levels[..i + 1])
      == SkipPairs(levels[..i]) + (if Skips(prev, levels[i]) then [(prev, levels[i])] else [])
  {
    if i > 0 {
      SkipPairsStep(levels, i);
    } else {
      assert AdjacentPairs(levels[..1]) == [];
      assert AdjacentPairs(levels[..0]) == [];
    }
  }

  lemma {:induction false} SkipIssuesAppend(pairs: seq<(int, int)>, p: (int, int))
    ensures SkipIssues(pairs + [p]) == SkipIssues(pairs) + [SkipIssue(p.0, p.1)]
  {
  }

  /** A skip is reported for exactly the adjacent pairs whose level rises by
      more than one from a nonzero level, and for nothing else. */
  lemma {:induction false} SkipPairsIff(levels: seq<int>, prev: int, level: int)
    ensures (prev, level) in SkipPairs(levels)
      <==> exists i :: 1 <= i < |levels| && levels[i - 1] == prev && levels[i] == level && Skips(prev, level)
  {
    var pairs := AdjacentPairs(levels);
    Seqs.FilterMembers(pairs, SkipsPair, (prev, level));
    if (prev, level) in pairs {
      var k :| 0 <= k < |pairs| && pairs[k] == (prev, level);
      assert levels[k + 1 - 1] == prev && levels[k + 1] == level;
    }
    if exists i :: 1 <= i < |levels| && levels[i - 1] == prev && levels[i] == level && Skips(prev, level) {
      var i :| 1 <= i < |levels| && levels[i - 1] == prev && levels[i] == level && Skips(prev, level);
      assert pairs[i - 1] == (prev, level);
    }
  }

  /** For real heading levels (1 to 6) a skip is exactly a rise of more than
      one; the first heading, which has no predecessor, and a step down or
      sideways are never reported. */
  lemma {:induction false} SkipOfHeadingLevels(prev: int, level: int)
    requires 1 <= prev <= 6 && 1 <= level <= 6
    ensures Skips(prev, level) <==> level > prev + 1
    ensures level <= prev ==> !Skips(prev, level)
  {
  }

  /** The image and keyboard issues, at most one of each, come before every
      heading issue. */
  lemma {:induction false} ElementIssuesFirst(images: seq<string>, clickable: seq<string>, levels: seq<int>)
    ensures var issues := ElementIssues(images, clickable) + SkipIssues(SkipPairs(levels));
      var e := |ElementIssues(images, clickable)|;
      && e <= 2
      && (forall k :: 0 <= k < e ==> issues[k].ElementIssue?)
      && (forall k :: e <= k < |issues| ==> issues[k].HeadingIssue?)
  {
  }
}
