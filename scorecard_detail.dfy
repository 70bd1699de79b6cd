/** The scorecard page's player slug and its default batsman and bowler
    selection. */
module ScorecardDetail {
  import opened Wrappers
  import opened Text
  import Seqs
  import opened MatchData

  // ---------------------------------------------------------------------
  // getPlayerId

  /** `s.replace(/\s+/g, '-')`: every maximal run of whitespace becomes one
      '-'; there is no trimming. */
  function DashRuns(s: string): (r: string)
    ensures |r| <= |s|
    decreases |s|
  {
    if s == [] then []
    else if IsSpace(s[0]) then "-" + DashRuns(TrimStart(s[1..]))
    else [s[0]] + DashRuns(s[1..])
  }

  /** `getPlayerId(name)`: lower-case, then one '-' per whitespace run. */
  function GetPlayerId(name: string): string
  {
    DashRuns(Lower(name))
  }

  /** The slug is never longer than the name. */
  lemma {:induction false} GetPlayerIdLength(name: string)
    ensures |GetPlayerId(name)| <= |name|
  {
  }

  lemma {:induction false} DashRunsNoSpace(s: string)
    ensures NoSpace(DashRuns(s))
    decreases |s|
  {
    if s != [] {
      if IsSpace(s[0]) {
        DashRunsNoSpace(TrimStart(s[1..]));
      } else {
        DashRunsNoSpace(s[1..]);
      }
    }
  }

  /** The slug contains no whitespace. */
  lemma {:induction false} GetPlayerIdNoSpace(name: string)
    ensures NoSpace(GetPlayerId(name))
  {
    DashRunsNoSpace(Lower(name));
  }

  /** Text without whitespace is left as it is. */
  lemma {:induction false} DashRunsOfWord(w: string)
    requires NoSpace(w)
    ensures DashRuns(w) == w
    decreases |w|
  {
    if w != [] {
      DashRunsOfWord(w[1..]);
    }
  }

  /** A word is copied and then the rest is rewritten. */
  lemma {:induction false} DashRunsAfterWord(w: string, rest: string)
    requires NoSpace(w)
    ensures DashRuns(w + rest) == w + DashRuns(rest)
    decreases |w|
  {
    if w != [] {
      assert (w + rest)[0] == w[0];
      assert (w + rest)[1..] == w[1..] + rest;
      DashRunsAfterWord(w[1..], rest);
    } else {
      assert w + rest == rest;
    }
  }

  /** A whole run of whitespace, however long, becomes a single '-'. */
  lemma {:induction false} DashRunsOfRun(ws: string, rest: string)
    requires ws != [] && AllSpace(ws)
    requires rest == [] || !IsSpace(rest[0])
    ensures DashRuns(ws + rest) == "-" + DashRuns(rest)
  {
    assert (ws + rest)[0] == ws[0];
    assert (ws + rest)[1..] == ws[1..] + rest;
    TrimStartAfterSpace(ws[1..], rest);
    assert TrimStart(rest) == rest;
  }

  /** Two words separated by any run of whitespace are joined by one '-';
      whitespace at either end gives a '-' at that end. */
  lemma {:induction false} DashRunsOfWords(w1: string, ws: string, w2: string)
    requires NoSpace(w1) && NoSpace(w2) && w2 != []
    requires ws != [] && AllSpace(ws)
    ensures DashRuns(w1 + ws + w2) == w1 + "-" + w2
    ensures DashRuns(ws + w2) == "-" + w2
    ensures DashRuns(w2 + ws) == w2 + "-"
  {
    assert w1 + ws + w2 == w1 + (ws + w2);
    DashRunsAfterWord(w1, ws + w2);
    DashRunsOfRun(ws, w2);
    DashRunsOfWord(w2);
    DashRunsAfterWord(w2, ws);
    DashRunsOfRun(ws, []);
    assert ws + [] == ws;
  }

  predicate NotDash(c: char)
  {
    c != '-'
  }

  predicate Kept(c: char)
  {
    !IsSpace(c) && c != '-'
  }

  /** Apart from the dashes, the slug is exactly the non-whitespace characters
      of the text, in order. */
  lemma {:induction false} DashRunsKeepsOthers(s: string)
    ensures Seqs.Filter(DashRuns(s), NotDash) == Seqs.Filter(s, Kept)
    decreases |s|
  {
    if s != [] {
      var t := s[1..];
      assert s == [s[0]] + t;
      Seqs.FilterConcat([s[0]], t, Kept);
      assert Seqs.Filter([s[0]], Kept) == if Kept(s[0]) then [s[0]] else [] by {
        assert [s[0]][..0] == [];
      }
      if IsSpace(s[0]) {
        DashRunsKeepsOthers(TrimStart(t));
        Seqs.FilterConcat("-", DashRuns(TrimStart(t)), NotDash);
        assert Seqs.Filter("-", NotDash) == [] by {
          assert "-"[..0] == [];
        }
        TrimStartShape(t);
        var dropped := t[..|t| - |TrimStart(t)|];
        assert t == dropped + TrimStart(t);
        Seqs.FilterConcat(dropped, TrimStart(t), Kept);
        FilterOfSpaces(dropped);
      } else {
        DashRunsKeepsOthers(t);
        Seqs.FilterConcat([s[0]], DashRuns(t), NotDash);
        assert Seqs.Filter([s[0]], NotDash) == if NotDash(s[0]) then [s[0]] else [] by {
          assert [s[0]][..0] == [];
        }
      }
    }
  }

  lemma {:induction false} FilterOfSpaces(ws: string)
    requires AllSpace(ws)
    ensures Seqs.Filter(ws, Kept) == []
    decreases |ws|
  {
    if ws != [] {
      FilterOfSpaces(ws[..|ws| - 1]);
    }
  }

  /** Every character of the slug is a '-' or a lower-cased character of the
      name, so lower-casing it changes nothing. */
  lemma {:induction false} DashRunsOfLower(s: string)
    requires Lower(s) == s
    ensures Lower(DashRuns(s)) == DashRuns(s)
    decreases |s|
  {
    if s != [] {
      assert LowerChar(s[0]) == Lower(s)[0];
      if IsSpace(s[0]) {
        TrimStartShape(s[1..]);
        var t := TrimStart(s[1..]);
        assert Lower(t) == t by {
          assert forall i :: 0 <= i < |t| ==> t[i] == s[1..][|s| - 1 - |t| + i];
        }
        DashRunsOfLower(t);
        LowerConcat("-", DashRuns(t));
      } else {
        assert Lower(s[1..]) == s[1..] by {
          assert forall i :: 0 <= i < |s| - 1 ==> s[1..][i] == s[i + 1];
        }
        DashRunsOfLower(s[1..]);
        LowerConcat([s[0]], DashRuns(s[1..]));
      }
    }
  }

  /** The slug of a slug is the slug itself. */
  lemma {:induction false} GetPlayerIdIdempotent(name: string)
    ensures GetPlayerId(GetPlayerId(name)) == GetPlayerId(name)
  {
    var r := GetPlayerId(name);
    LowerIdempotent(name);
    DashRunsOfLower(Lower(name));
    GetPlayerIdNoSpace(name);
    DashRunsOfWord(r);
  }

  // ---------------------------------------------------------------------
  // The default matchup selection

  /** A name as `name || null`: the empty string is falsy. */
  function NameOrNull(name: string): Option<string>
  {
    if name == "" then None else Some(name)
  }

  datatype Selection = Selection(batsman: Option<string>, bowler: Option<string>)

  /** The batsman and bowler selected once the record is fetched: `null`
      (the initial state) for a missing record; `batting[0]` or `bowling[0]`
      missing throws, which is caught, so that selection and any later one
      are never made. */
  function DefaultSelection(matchData: Option<MatchDetail>): Selection
  {
    if matchData.None? || |matchData.value.batting| == 0 then Selection(None, None)
    else
      var players := matchData.value.batting[0].players;
      var batsman := if |players| == 0 then None else NameOrNull(players[0].name);
      if |matchData.value.bowling| == 0 then Selection(batsman, None)
      else
        var bowlers := matchData.value.bowling[0].players;
        Selection(batsman, if |bowlers| == 0 then None else NameOrNull(bowlers[0].name))
  }

  /** A batsman is selected exactly when the first team's batting lists a
      first player with a non-empty name, and it is that name; likewise the
      bowler, which needs the batting card first. */
  lemma {:induction false} DefaultSelectionIff(matchData: Option<MatchDetail>, name: string)
    ensures DefaultSelection(matchData).batsman == Some(name) <==>
      && matchData.Some? && |matchData.value.batting| > 0
      && |matchData.value.batting[0].players| > 0
      && matchData.value.batting[0].players[0].name == name && name != ""
    ensures DefaultSelection(matchData).bowler == Some(name) <==>
      && matchData.Some? && |matchData.value.batting| > 0 && |matchData.value.bowling| > 0
      && |matchData.value.bowling[0].players| > 0
      && matchData.value.bowling[0].players[0].name == name && name != ""
  {
  }
}
