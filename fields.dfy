/** The fields read off a game's detail page: get_player_number,
    get_suggested_playtime, get_rank, get_description and get_game_info. The
    parsed HTML is replaced by the texts the script's lookups reach. */
module Fields {
  import opened Wrappers
  import opened PyText
  import opened FirstMatch
  import opened Failures

  const PlayersId := "edit_players"
  const PlaytimeId := "edit_playtime"
  const RankMarker := "Board Game Rank:"
  const DescriptionName := "description"

  /** A <meta> element: its name attribute and its content attribute, the
      content already freed of embedded markup. */
  datatype Meta = Meta(name: string, content: string)

  /** What the script reads from a game's page. */
  datatype GamePage = GamePage(
    divsById: map<string, seq<string>>,  // element id -> texts of the <div>s inside it, in document order
    rankCells: seq<seq<string>>,         // each <td> -> texts of its <div class="mf nw b">s, in document order
    metas: seq<Meta>)                    // the <meta> elements, in document order

  /** The four values get_game_info returns. */
  datatype GameInfo = GameInfo(
    playerNum: Option<string>,
    playTime: Option<string>,
    rank: Option<string>,
    description: Option<string>)

  // ----- player count and play time -------------------------------------------

  /** A <div> of an edit block: its text, stripped, when it starts with a digit. */
  function CountText(div: string): Option<string>
  {
    var text := Strip(RStrip(div));
    if LeadsWithDigit(text) then Some(text) else None
  }

  /** The loop shared by get_player_number and get_suggested_playtime: the first
      stripped <div> text that starts with a digit. */
  method ScanCountDivs(divs: seq<string>) returns (r: Option<string>)
    ensures r == FirstSome(divs, CountText)
    ensures r.Some? ==> LeadsWithDigit(r.value)
    ensures r.Some? ==>
              exists i :: 0 <= i < |divs| && r.value == Strip(RStrip(divs[i]))
                          && forall j :: 0 <= j < i ==> !LeadsWithDigit(Strip(RStrip(divs[j])))
    ensures r.None? <==> forall i :: 0 <= i < |divs| ==> !LeadsWithDigit(Strip(RStrip(divs[i])))
  {
    for i := 0 to |divs|
      invariant FirstSome(divs[i..], CountText) == FirstSome(divs, CountText)
      invariant forall j :: 0 <= j < i ==> !LeadsWithDigit(Strip(RStrip(divs[j])))
    {
      FirstSomeStep(divs, CountText, i);
      var text := Strip(RStrip(divs[i]));
      if LeadsWithDigit(text) {
        return Some(text);
      }
    }
    assert divs[|divs|..] == [];
    return None;
  }

  /** The value of an edit block, or the failure of looking into a block the
      page does not have. */
  function EditBlockValue(page: GamePage, id: string): Result<Option<string>, Failure>
  {
    if id in page.divsById then Success(FirstSome(page.divsById[id], CountText))
    else Failure(MissingContainer(id))
  }

  /** get_player_number. */
  method GetPlayerNumber(page: GamePage) returns (r: Result<Option<string>, Failure>)
    ensures r.Failure? <==> PlayersId !in page.divsById
    ensures r.Failure? ==> r.error == MissingContainer(PlayersId)
    ensures r.Success? ==> r.value == FirstSome(page.divsById[PlayersId], CountText)
  {
    if PlayersId !in page.divsById {
      return Failure(MissingContainer(PlayersId));
    }
    var found := ScanCountDivs(page.divsById[PlayersId]);
    r := Success(found);
  }

  /** get_suggested_playtime. */
  method GetSuggestedPlaytime(page: GamePage) returns (r: Result<Option<string>, Failure>)
    ensures r.Failure? <==> PlaytimeId !in page.divsById
    ensures r.Failure? ==> r.error == MissingContainer(PlaytimeId)
    ensures r.Success? ==> r.value == FirstSome(page.divsById[PlaytimeId], CountText)
  {
    if PlaytimeId !in page.divsById {
      return Failure(MissingContainer(PlaytimeId));
    }
    var found := ScanCountDivs(page.divsById[PlaytimeId]);
    r := Success(found);
  }

  // ----- rank ---------------------------------------------------------------------

  /** `col.isdigit()`. */
  function DigitToken(tok: string): Option<string>
  {
    if IsDigits(tok) then Some(tok) else None
  }

  /** A rank <div>: the first all-digit token of its stripped text, provided
      the text contains "Board Game Rank:". */
  function RankFromText(div: string): Option<string>
  {
    var text := RStrip(Strip(div));
    if Contains(text, RankMarker) then FirstSome(Tokens(text), DigitToken) else None
  }

  function RankInCell(divs: seq<string>): Option<string>
  {
    FirstSome(divs, RankFromText)
  }

  /** The rank get_rank finds in the page's table cells. */
  function RankOf(cells: seq<seq<string>>): Option<string>
  {
    FirstSome(cells, RankInCell)
  }

  /** get_rank: three nested loops (cells, rank <div>s, tokens), leaving at the
      first all-digit token of a qualifying text. */
  method GetRank(cells: seq<seq<string>>) returns (rank: Option<string>)
    ensures rank == RankOf(cells)
    ensures rank.Some? ==> IsDigits(rank.value)
  {
    for i := 0 to |cells|
      invariant FirstSome(cells[i..], RankInCell) == RankOf(cells)
    {
      FirstSomeStep(cells, RankInCell, i);
      var divs := cells[i];
      for j := 0 to |divs|
        invariant FirstSome(divs[j..], RankFromText) == RankInCell(divs)
      {
        FirstSomeStep(divs, RankFromText, j);
        var text := RStrip(Strip(divs[j]));
        if Contains(text, RankMarker) {
          var cols := Tokens(text);
          for k := 0 to |cols|
            invariant FirstSome(cols[k..], DigitToken) == FirstSome(cols, DigitToken)
          {
            FirstSomeStep(cols, DigitToken, k);
            if IsDigits(cols[k]) {
              return Some(cols[k]);
            }
          }
          assert cols[|cols|..] == [];
        }
      }
      assert divs[|divs|..] == [];
    }
    assert cells[|cells|..] == [];
    return None;
  }

  /** A rank that is found is an all-digit token of a text, in some cell, that
      contains "Board Game Rank:". */
  lemma RankIsNumeric(cells: seq<seq<string>>)
    requires RankOf(cells).Some?
    ensures IsDigits(RankOf(cells).value)
    ensures exists i, j :: && 0 <= i < |cells| && 0 <= j < |cells[i]|
                           && Contains(RStrip(Strip(cells[i][j])), RankMarker)
                           && RankOf(cells).value in Tokens(RStrip(Strip(cells[i][j])))
  {
    FirstSomeWitness(cells, RankInCell);
    var i :| 0 <= i < |cells| && RankInCell(cells[i]) == RankOf(cells);
    FirstSomeWitness(cells[i], RankFromText);
    var j :| 0 <= j < |cells[i]| && RankFromText(cells[i][j]) == RankOf(cells);
    var toks := Tokens(RStrip(Strip(cells[i][j])));
    FirstSomeWitness(toks, DigitToken);
    var k :| 0 <= k < |toks| && DigitToken(toks[k]) == RankOf(cells);
  }

  /** In a text that contains "Board Game Rank:", the rank read is the first
      whitespace-delimited run of the text that is all digits. */
  lemma RankIsFirstDigitRun(div: string, text: string, a: nat, b: nat)
    requires text == RStrip(Strip(div)) && Contains(text, RankMarker)
    requires IsRun(text, a, b) && IsDigits(text[a..b])
    requires forall c: nat, d: nat :: IsRun(text, c, d) && c < a ==> !IsDigits(text[c..d])
    ensures RankFromText(div) == Some(text[a..b])
  {
    TokensAreRuns(text);
    var spans := Spans(text);
    var toks := Tokens(text);
    var k :| 0 <= k < |spans| && spans[k] == (a, b);
    forall j | 0 <= j < k
      ensures DigitToken(toks[j]).None?
    {
      assert spans[j].1 <= spans[k].0;
      assert IsRun(text, spans[j].0, spans[j].1);
    }
    FirstSomeAt(toks, DigitToken, k);
  }

  /** A text that carries the marker but no all-digit token does not end the
      search: the next text is looked at. */
  lemma RankSkipsDigitlessText(div: string, rest: seq<string>)
    requires Contains(RStrip(Strip(div)), RankMarker)
    requires forall t :: t in Tokens(RStrip(Strip(div))) ==> !IsDigits(t)
    ensures RankInCell([div] + rest) == RankInCell(rest)
  {
    var toks := Tokens(RStrip(Strip(div)));
    FirstSomeNone(toks, DigitToken);
    assert ([div] + rest)[1..] == rest;
  }

  // ----- description ------------------------------------------------------------

  /** A <meta name="description">: its content reduced to ASCII. */
  function MetaDescription(m: Meta): Option<string>
  {
    if m.name == DescriptionName then Some(AsciiOnly(m.content)) else None
  }

  /** get_description: the first description <meta>, its content reduced to ASCII. */
  method GetDescription(metas: seq<Meta>) returns (d: Option<string>)
    ensures d == FirstSome(metas, MetaDescription)
    ensures d.Some? ==> AllAscii(d.value)
    ensures d.Some? ==>
              exists i :: 0 <= i < |metas| && metas[i].name == DescriptionName && d.value == AsciiOnly(metas[i].content)
    ensures d.None? <==> forall i :: 0 <= i < |metas| ==> metas[i].name != DescriptionName
  {
    for i := 0 to |metas|
      invariant FirstSome(metas[i..], MetaDescription) == FirstSome(metas, MetaDescription)
      invariant forall j :: 0 <= j < i ==> metas[j].name != DescriptionName
    {
      FirstSomeStep(metas, MetaDescription, i);
      if metas[i].name == DescriptionName {
        return Some(AsciiOnly(metas[i].content));
      }
    }
    assert metas[|metas|..] == [];
    return None;
  }

  // ----- the whole page -------------------------------------------------------------

  /** get_game_info: the four lookups in the order the script makes them. */
  function GameInfoOf(page: GamePage): Result<GameInfo, Failure>
  {
    match EditBlockValue(page, PlayersId)
    case Failure(e) => Failure(e)
    case Success(players) =>
      match EditBlockValue(page, PlaytimeId)
      case Failure(e) => Failure(e)
      case Success(time) =>
        Success(GameInfo(players, time, RankOf(page.rankCells), FirstSome(page.metas, MetaDescription)))
  }

  method GetGameInfo(page: GamePage) returns (r: Result<GameInfo, Failure>)
    ensures r == GameInfoOf(page)
  {
    var players := GetPlayerNumber(page);
    if players.Failure? {
      return Failure(players.error);
    }
    var time := GetSuggestedPlaytime(page);
    if time.Failure? {
      return Failure(time.error);
    }
    var rank := GetRank(page.rankCells);
    var description := GetDescription(page.metas);
    r := Success(GameInfo(players.value, time.value, rank, description));
  }

  /** Reading a page fails only when one of the two edit blocks is missing,
      the player block being looked at first. */
  lemma GameInfoFailure(page: GamePage)
    ensures GameInfoOf(page).Failure? <==> PlayersId !in page.divsById || PlaytimeId !in page.divsById
    ensures GameInfoOf(page).Failure? ==>
              GameInfoOf(page).error == MissingContainer(if PlayersId !in page.divsById then PlayersId else PlaytimeId)
  {
  }

  /** Every value that is read has the form its lookup promises. */
  lemma GameInfoValues(page: GamePage)
    requires GameInfoOf(page).Success?
    ensures var info := GameInfoOf(page).value;
      && (info.playerNum.Some? ==> LeadsWithDigit(info.playerNum.value))
      && (info.playTime.Some? ==> LeadsWithDigit(info.playTime.value))
      && (info.rank.Some? ==> IsDigits(info.rank.value))
      && (info.description.Some? ==> AllAscii(info.description.value))
  {
    var info := GameInfoOf(page).value;
    if info.playerNum.Some? {
      FoundCountLeadsWithDigit(page.divsById[PlayersId]);
    }
    if info.playTime.Some? {
      FoundCountLeadsWithDigit(page.divsById[PlaytimeId]);
    }
    if info.rank.Some? {
      RankIsNumeric(page.rankCells);
    }
    if info.description.Some? {
      FirstSomeWitness(page.metas, MetaDescription);
    }
  }

  lemma FoundCountLeadsWithDigit(divs: seq<string>)
    requires FirstSome(divs, CountText).Some?
    ensures LeadsWithDigit(FirstSome(divs, CountText).value)
  {
    FirstSomeWitness(divs, CountText);
  }
}
