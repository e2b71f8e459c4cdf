/** Building the search query for a game name and reading the top match off the
    search results (main, get_top_match). */
module Search {
  import opened Wrappers
  import opened PyText
  import opened Failures

  /** bgg_search_url, written as the text before its one replacement field
      {0}, the field, and the text after it. */
  const SearchTemplate := SearchHead + "{0}" + SearchTail

  /** The part of bgg_search_url before {0}, written as three literals that
      concatenate to it so that the proof that it holds no '{' checks three
      short strings instead of one long one. */
  const SearchHead := "https://boardgamegeek.com/" + "geeksearch.php?action=search&" + "objecttype=boardgame&q="
  const SearchTail := "&B1=Go"

  /** `game.replace(" ", "+")`. */
  function EncodeName(game: string): (r: string)
    ensures |r| == |game|
    ensures forall i :: 0 <= i < |game| ==> r[i] == if game[i] == ' ' then '+' else game[i]
    ensures ' ' !in r
    decreases |game|
  {
    if game == [] then [] else [if game[0] == ' ' then '+' else game[0]] + EncodeName(game[1..])
  }

  /** The reverse substitution, `q.replace("+", " ")`. */
  function DecodeName(q: string): (r: string)
    ensures |r| == |q|
    ensures forall i :: 0 <= i < |q| ==> r[i] == if q[i] == '+' then ' ' else q[i]
    decreases |q|
  {
    if q == [] then [] else [if q[0] == '+' then ' ' else q[0]] + DecodeName(q[1..])
  }

  /** A name without '+' is recovered from its encoding. */
  lemma EncodeNameRoundTrip(game: string)
    requires '+' !in game
    ensures DecodeName(EncodeName(game)) == game
  {
    var r := DecodeName(EncodeName(game));
    assert forall i :: 0 <= i < |game| ==> r[i] == game[i];
  }

  /** The search URL for a game: the fixed head, the encoded name, the fixed tail. */
  function SearchQuery(game: string): string
  {
    SearchHead + EncodeName(game) + SearchTail
  }

  /** The name in the query is recoverable: the text between the fixed head
      and the fixed tail is the encoded name, of the name's length. */
  lemma SearchQueryShape(game: string)
    ensures var q := SearchQuery(game);
      |q| == |SearchHead| + |game| + |SearchTail| && q[|SearchHead|..|q| - |SearchTail|] == EncodeName(game)
  {
    var q := SearchQuery(game);
    assert q[|SearchHead|..|q| - |SearchTail|] == EncodeName(game);
  }

  /** The search template is brace-free text around the one field {0}. */
  lemma SearchTemplateParts()
    ensures SearchTemplate == SearchHead + (Field(0) + SearchTail)
    ensures '{' !in SearchHead && '{' !in SearchTail
  {
    assert '{' !in "https://boardgamegeek.com/";
    assert '{' !in "geeksearch.php?action=search&";
    assert '{' !in "objecttype=boardgame&q=";
  }

  /** `bgg_search_url.format(arg)` puts arg in place of {0}; with the encoded
      name it is the search URL. */
  lemma TemplateSubstitution(arg: string)
    ensures Format(SearchTemplate, [arg]) == SearchHead + arg + SearchTail
  {
    SearchTemplateParts();
    FormatOne(SearchHead, 0, SearchTail, [arg]);
  }


  /** What the search results page offers: the href of the first link in the
      element with id "results_objectname1", or nothing when that element is
      absent. */
  datatype SearchPage = NoResults | TopResult(href: string)

  /** get_top_match: the top hit's href, or the run ends with status 2. */
  function GetTopMatch(page: SearchPage, game: string): (r: Result<string, Failure>)
    ensures r.Failure? <==> page.NoResults?
    ensures r.Failure? ==> r.error == NoMatch(game) && ExitStatus(Aborted(r.error)) == 2
    ensures r.Success? ==> r.value == page.href
  {
    match page
    case NoResults => Failure(NoMatch(game))
    case TopResult(href) => Success(href)
  }
}
