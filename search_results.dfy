/** The search results dropdown: what it renders for the matches and players
    a search found. The markup is reduced to the list items: each item's
    React key and link path. */
module SearchResults {
  import opened Wrappers
  import opened Text
  import LiveMatches
  import SearchService
  import ScorecardDetail

  datatype MatchItem = MatchItem(key: int, path: string)
  datatype PlayerItem = PlayerItem(key: string, path: string)

  /** The rendered dropdown: each section is present only when its list is
      non-empty, and `noResults` is the "No results found" block. */
  datatype View = View(matchSection: Option<seq<MatchItem>>, playerSection: Option<seq<PlayerItem>>, noResults: bool)

  /** The player helper of this component has the same text as the
      scorecard page's `getPlayerId`, so one definition serves both. */
  function PlayerPath(name: string): string
  {
    "/player/" + ScorecardDetail.GetPlayerId(name)
  }

  /** `player.id || player.name`: an absent or empty id falls back to the
      name. */
  function PlayerKey(p: SearchService.Player): string
  {
    if p.id.Some? && p.id.value != "" then p.id.value else p.name
  }

  function MatchItems(matches: seq<LiveMatches.MatchRecord>): (r: seq<MatchItem>)
    ensures |r| == |matches|
    ensures forall k :: 0 <= k < |r| ==> r[k] == MatchItem(matches[k].id, "/scorecard/" + IntToString(matches[k].id))
  {
    seq(|matches|, k requires 0 <= k < |matches| => MatchItem(matches[k].id, "/scorecard/" + IntToString(matches[k].id)))
  }

  function PlayerItems(players: seq<SearchService.Player>): (r: seq<PlayerItem>)
    ensures |r| == |players|
    ensures forall k :: 0 <= k < |r| ==> r[k] == PlayerItem(PlayerKey(players[k]), PlayerPath(players[k].name))
  {
    seq(|players|, k requires 0 <= k < |players| => PlayerItem(PlayerKey(players[k]), PlayerPath(players[k].name)))
  }

  /** `SearchResults({ matches, players, isVisible })`: `None` is the early
      `return null`. */
  function Render(matches: seq<LiveMatches.MatchRecord>, players: seq<SearchService.Player>, isVisible: bool): (v: Option<View>)
    ensures v.Some? <==> isVisible && (|matches| > 0 || |players| > 0)
  {
    if !isVisible || (|matches| == 0 && |players| == 0) then None
    else
      Some(View(
        if |matches| > 0 then Some(MatchItems(matches)) else None,
        if |players| > 0 then Some(PlayerItems(players)) else None,
        |matches| == 0 && |players| == 0))
  }

  /** Whenever anything is rendered, some section is present and the
      "No results found" block is not: the guard has already returned for
      two empty lists. */
  lemma {:induction false} NoResultsUnreachable(matches: seq<LiveMatches.MatchRecord>, players: seq<SearchService.Player>, isVisible: bool)
    ensures var v := Render(matches, players, isVisible);
      v.Some? ==> !v.value.noResults && (v.value.matchSection.Some? || v.value.playerSection.Some?)
  {
  }

  /** A blank query renders nothing, visible or not. */
  lemma {:induction false} BlankQueryRendersNothing(query: Option<string>, all: seq<LiveMatches.MatchRecord>, players: seq<SearchService.Player>, isVisible: bool)
    requires SearchService.Blank(query)
    ensures var r := SearchService.Search(query, all, players);
      Render(r.matches, r.players, isVisible).None?
  {
  }

  /** Every player link path is "/player/" and a slug without whitespace. */
  lemma {:induction false} PlayerPathsHaveNoSpace(players: seq<SearchService.Player>, k: nat)
    requires k < |players|
    ensures var item := PlayerItems(players)[k];
      item.path[..8] == "/player/" && NoSpace(item.path[8..])
  {
    var name := players[k].name;
    ScorecardDetail.GetPlayerIdNoSpace(name);
    assert PlayerPath(name)[8..] == ScorecardDetail.GetPlayerId(name);
  }

  /** Every match link is "/scorecard/" and the id in decimal, and the
      scorecard route's `parseInt(matchId)` reads the id back from it; so
      matches with different ids get different keys and different links. */
  lemma {:induction false} MatchPathsReadBack(matches: seq<LiveMatches.MatchRecord>, k: nat, j: nat)
    requires k < |matches| && j < |matches|
    ensures var item := MatchItems(matches)[k];
      item.key == matches[k].id && item.path[..11] == "/scorecard/"
      && ParseInt(item.path[11..]) == Some(matches[k].id)
    ensures matches[k].id != matches[j].id ==>
      MatchItems(matches)[k].key != MatchItems(matches)[j].key
      && MatchItems(matches)[k].path != MatchItems(matches)[j].path
  {
    var p, q := MatchItems(matches)[k].path, MatchItems(matches)[j].path;
    assert p[11..] == IntToString(matches[k].id);
    assert q[11..] == IntToString(matches[j].id);
    ParseIntOfInt(matches[k].id, []);
    ParseIntOfInt(matches[j].id, []);
    assert IntToString(matches[k].id) + [] == IntToString(matches[k].id);
    assert IntToString(matches[j].id) + [] == IntToString(matches[j].id);
  }

  /** The player key is the id when one is given and the name otherwise. */
  lemma {:induction false} PlayerKeyChoice(p: SearchService.Player)
    ensures p.id.Some? && p.id.value != "" ==> PlayerKey(p) == p.id.value
    ensures p.id.None? || p.id.value == "" ==> PlayerKey(p) == p.name
  {
  }
}
