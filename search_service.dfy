/** The search over the listed matches and the player table: a query that is
    absent or only whitespace finds nothing; any other query is lower-cased
    and trimmed, and a match or player is kept when one of its searchable
    fields, lower-cased, contains it. The match list (the mock list freshly
    fetched) and the player table are parameters. */
module SearchService {
  import opened Wrappers
  import opened Text
  import Seqs
  import LiveMatches

  /** The career figures of a player table entry; they are never searched. */
  datatype Stats = Stats(avg: real, rate: real, total: int)

  /** A player table entry; an absent `id` is `None`. */
  datatype Player = Player(
    id: Option<string>, name: string, country: string, role: string,
    batting: Option<Stats>, bowling: Option<Stats>)

  datatype SearchResult = SearchResult(matches: seq<LiveMatches.MatchRecord>, players: seq<Player>)

  /** `!query || query.trim() === ''`, with `None` for null and undefined. */
  predicate Blank(query: Option<string>)
  {
    query.None? || Trim(query.value) == []
  }

  /** `query.toLowerCase().trim()` */
  function Normalized(query: string): string
  {
    Trim(Lower(query))
  }

  predicate MatchHit(m: LiveMatches.MatchRecord, q: string)
  {
    Contains(Lower(m.team1), q) || Contains(Lower(m.team2), q)
    || Contains(Lower(m.venue), q) || Contains(Lower(m.status), q)
  }

  predicate PlayerHit(p: Player, q: string)
  {
    Contains(Lower(p.name), q) || Contains(Lower(p.country), q) || Contains(Lower(p.role), q)
  }

  function MatchesOf(all: seq<LiveMatches.MatchRecord>, q: string): seq<LiveMatches.MatchRecord>
  {
    Seqs.Filter(all, m => MatchHit(m, q))
  }

  function PlayersOf(players: seq<Player>, q: string): seq<Player>
  {
    Seqs.Filter(players, p => PlayerHit(p, q))
  }

  /** `searchMatchesAndPlayers(query)` */
  function Search(query: Option<string>, all: seq<LiveMatches.MatchRecord>, players: seq<Player>): (r: SearchResult)
    ensures Blank(query) ==> r.matches == [] && r.players == []
    ensures |r.matches| <= |all| && |r.players| <= |players|
  {
    if Blank(query) then SearchResult([], [])
    else
      var q := Normalized(query.value);
      SearchResult(MatchesOf(all, q), PlayersOf(players, q))
  }

  // ---------------------------------------------------------------------
  // What is kept

  /** The results keep the order of the lists they come from. */
  lemma {:induction false} ResultsInOrder(query: Option<string>, all: seq<LiveMatches.MatchRecord>, players: seq<Player>)
    ensures var r := Search(query, all, players);
      Seqs.IsSubsequence(r.matches, all) && Seqs.IsSubsequence(r.players, players)
  {
    if !Blank(query) {
      var q := Normalized(query.value);
      Seqs.FilterIsSubsequence(all, m => MatchHit(m, q));
      Seqs.FilterIsSubsequence(players, p => PlayerHit(p, q));
    }
  }

  /** A match is found exactly when the query is not blank and its
      normalized form occurs in the lower-cased first team, second team,
      venue or status. */
  lemma {:induction false} MatchFoundIff(query: Option<string>, all: seq<LiveMatches.MatchRecord>, players: seq<Player>, m: LiveMatches.MatchRecord)
    ensures m in Search(query, all, players).matches
      <==> !Blank(query) && m in all && MatchHit(m, Normalized(query.value))
  {
    if !Blank(query) {
      Seqs.FilterMembers(all, m' => MatchHit(m', Normalized(query.value)), m);
    }
  }

  /** A player is found exactly when the query is not blank and its
      normalized form occurs in the lower-cased name, country or role. */
  lemma {:induction false} PlayerFoundIff(query: Option<string>, all: seq<LiveMatches.MatchRecord>, players: seq<Player>, p: Player)
    ensures p in Search(query, all, players).players
      <==> !Blank(query) && p in players && PlayerHit(p, Normalized(query.value))
  {
    if !Blank(query) {
      Seqs.FilterMembers(players, p' => PlayerHit(p', Normalized(query.value)), p);
    }
  }

  /** Neither the id nor the career figures take part in the search. */
  lemma {:induction false} PlayerHitIgnoresIdAndStats(p: Player, id: Option<string>, batting: Option<Stats>, bowling: Option<Stats>, q: string)
    ensures PlayerHit(p.(id := id, batting := batting, bowling := bowling), q) == PlayerHit(p, q)
  {
  }

  // ---------------------------------------------------------------------
  // The query's case and padding

  lemma {:induction false} TrimEmptyIffAllSpace(s: string)
    ensures Trim(s) == [] <==> AllSpace(s)
  {
    TrimStartShape(s);
    var t := TrimStart(s);
    if t != [] {
      assert !IsSpace(t[0]);
      assert !IsSpace(s[|s| - |t|]);
      TrimEndShape(t);
    } else {
      assert s[..|s|] == s;
    }
  }

  /** A present query is blank exactly when it is all whitespace, so a
      whitespace-only query finds nothing. */
  lemma {:induction false} BlankIffAllSpace(query: string, all: seq<LiveMatches.MatchRecord>, players: seq<Player>)
    ensures Blank(Some(query)) <==> AllSpace(query)
    ensures AllSpace(query) ==> Search(Some(query), all, players) == SearchResult([], [])
  {
    TrimEmptyIffAllSpace(query);
  }

  /** A query is blank exactly when its normalized form is empty. */
  lemma {:induction false} BlankIffNormalizedEmpty(query: string)
    ensures Blank(Some(query)) <==> Normalized(query) == []
  {
    TrimLower(query);
  }

  /** Queries with the same normalized form find the same results. */
  lemma {:induction false} SameNormalizedSameResults(q1: string, q2: string, all: seq<LiveMatches.MatchRecord>, players: seq<Player>)
    requires Normalized(q1) == Normalized(q2)
    ensures Search(Some(q1), all, players) == Search(Some(q2), all, players)
  {
    BlankIffNormalizedEmpty(q1);
    BlankIffNormalizedEmpty(q2);
  }

  /** Whitespace around the query does not change the results. */
  lemma {:induction false} PaddingIgnored(w1: string, q: string, w2: string, all: seq<LiveMatches.MatchRecord>, players: seq<Player>)
    requires AllSpace(w1) && AllSpace(w2)
    ensures Search(Some(w1 + q + w2), all, players) == Search(Some(q), all, players)
  {
    TrimLower(w1 + q + w2);
    TrimLower(q);
    TrimPadded(w1, q, w2);
    SameNormalizedSameResults(w1 + q + w2, q, all, players);
  }

  /** Neither does the letter case of the query. */
  lemma {:induction false} CaseIgnored(q: string, all: seq<LiveMatches.MatchRecord>, players: seq<Player>)
    ensures Search(Some(Upper(q)), all, players) == Search(Some(q), all, players)
    ensures Search(Some(Lower(q)), all, players) == Search(Some(q), all, players)
  {
    LowerOfUpper(q);
    LowerIdempotent(q);
    SameNormalizedSameResults(Upper(q), q, all, players);
    SameNormalizedSameResults(Lower(q), q, all, players);
  }

  // ---------------------------------------------------------------------
  // Narrowing the query

  /** A longer query finds a subsequence of what a shorter query inside it
      finds (the shorter one not blank, which would find nothing). */
  lemma {:induction false} ExtendingNarrows(q1: string, q2: string, all: seq<LiveMatches.MatchRecord>, players: seq<Player>)
    requires Normalized(q1) != [] && Contains(Normalized(q2), Normalized(q1))
    ensures var r1, r2 := Search(Some(q1), all, players), Search(Some(q2), all, players);
      Seqs.IsSubsequence(r2.matches, r1.matches) && Seqs.IsSubsequence(r2.players, r1.players)
  {
    var n1, n2 := Normalized(q1), Normalized(q2);
    BlankIffNormalizedEmpty(q1);
    BlankIffNormalizedEmpty(q2);
    forall m | MatchHit(m, n2)
      ensures MatchHit(m, n1)
    {
      if Contains(Lower(m.team1), n2) {
        ContainsTransitive(Lower(m.team1), n2, n1);
      } else if Contains(Lower(m.team2), n2) {
        ContainsTransitive(Lower(m.team2), n2, n1);
      } else if Contains(Lower(m.venue), n2) {
        ContainsTransitive(Lower(m.venue), n2, n1);
      } else {
        ContainsTransitive(Lower(m.status), n2, n1);
      }
    }
    forall p | PlayerHit(p, n2)
      ensures PlayerHit(p, n1)
    {
      if Contains(Lower(p.name), n2) {
        ContainsTransitive(Lower(p.name), n2, n1);
      } else if Contains(Lower(p.country), n2) {
        ContainsTransitive(Lower(p.country), n2, n1);
      } else {
        ContainsTransitive(Lower(p.role), n2, n1);
      }
    }
    Seqs.FilterStronger(all, m => MatchHit(m, n2), m => MatchHit(m, n1));
    Seqs.FilterStronger(players, p => PlayerHit(p, n2), p => PlayerHit(p, n1));
  }

  /** The same for the raw text typed: when a non-blank query occurs in a
      longer one, its normalized form occurs in the longer one's, since it
      starts and ends with a non-space character that trimming cannot cut
      into; so the longer query finds a subsequence of what it finds. */
  lemma {:induction false} ContainedQueryNarrows(q1: string, q2: string, all: seq<LiveMatches.MatchRecord>, players: seq<Player>)
    requires !Blank(Some(q1)) && Contains(q2, q1)
    ensures Contains(Normalized(q2), Normalized(q1))
    ensures var r1, r2 := Search(Some(q1), all, players), Search(Some(q2), all, players);
      Seqs.IsSubsequence(r2.matches, r1.matches) && Seqs.IsSubsequence(r2.players, r1.players)
  {
    BlankIffNormalizedEmpty(q1);
    var n1 := Normalized(q1);
    ContainsLower(q2, q1);
    TrimOccurs(Lower(q1));
    ContainsTransitive(Lower(q2), Lower(q1), n1);
    ContainsTrimmed(Lower(q2), n1);
    ExtendingNarrows(q1, q2, all, players);
  }
}
