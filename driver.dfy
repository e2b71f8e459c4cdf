/** main: parse the notes, write the numbered list of games, then for each
    game in order write a separator, look the game up on the site and write
    its six field lines. The site is a parameter: the result page it returns
    for a search URL and the game page it returns for a game URL. */
module Driver {
  import opened Wrappers
  import opened PyText
  import opened Failures
  import opened Notes
  import opened Search
  import opened Fields
  import opened Report
  import opened Steps

  /** The origin prefixed to the href of the top search result. */
  const SiteOrigin := "http://boardgamegeek.com"

  /** What the site answers: the search result page for a URL and the game
      page for a URL, as already parsed from the HTML. */
  datatype Site = Site(search: string -> SearchPage, detail: string -> GamePage)

  /** A game that was found: the URL of its page and the values read from it. */
  datatype Found = Found(url: string, info: GameInfo)

  /** The body of main's loop for one game, up to the values output_stats needs. */
  function Lookup(game: string, site: Site): Result<Found, Failure>
  {
    match GetTopMatch(site.search(SearchQuery(game)), game)
    case Failure(e) => Failure(e)
    case Success(href) =>
      var url := SiteOrigin + href;
      match GameInfoOf(site.detail(url))
      case Failure(e) => Failure(e)
      case Success(info) => Success(Found(url, info))
  }

  /** What one found game adds to the output: the separator and its six lines. */
  function GameBlock(game: string, notes: map<string, string>, found: Found): (block: seq<string>)
    ensures |block| == 7 && block[0] == SectionBreak()
  {
    [SectionBreak()]
      + OutputStats(game, found.info.playerNum, found.info.playTime, found.info.rank,
                    found.info.description, notes, found.url)
  }

  /** What looking a game up gives: the game found, or the failure that ends the run. */
  type GameLookup = string -> Result<Found, Failure>

  /** The lookups the site answers, one per game name. */
  function SiteLookup(site: Site): GameLookup
  {
    game => Lookup(game, site)
  }

  /** One pass of main's loop, given what looking the game up gives: the
      separator is written before the game is looked up, so a game that fails
      leaves its separator behind. */
  function GameStep(game: string, notes: map<string, string>, lookup: GameLookup)
    : (seq<string>, Option<Failure>)
  {
    match lookup(game)
    case Failure(e) => ([SectionBreak()], Some(e))
    case Success(found) => (GameBlock(game, notes, found), None)
  }

  function GameSteps(notes: map<string, string>, lookup: GameLookup)
    : string -> (seq<string>, Option<Failure>)
  {
    game => GameStep(game, notes, lookup)
  }

  /** A pass of the loop fails exactly when the lookup does; otherwise it
      writes the seven chunks of the game's block. */
  lemma GameStepOutcome(game: string, notes: map<string, string>, lookup: GameLookup)
    ensures GameSteps(notes, lookup)(game).1.None? <==> lookup(game).Success?
    ensures lookup(game).Success? ==> GameSteps(notes, lookup)(game).0 == GameBlock(game, notes, lookup(game).value)
    ensures lookup(game).Failure? ==> GameSteps(notes, lookup)(game) == ([SectionBreak()], Some(lookup(game).error))
    ensures GameSteps(notes, lookup)(game).1.None? ==> |GameSteps(notes, lookup)(game).0| == 7
  {
  }

  /** Everything written to the output handle by one run, and how it ended.
      A malformed note stops the run before the output is opened; a game that
      fails stops it after that game's separator. */
  function RunOutcome(games: seq<string>, additionalNotes: Option<seq<string>>, lookup: GameLookup): (seq<string>, Status)
  {
    match NotesOf(additionalNotes)
    case Failure(e) => ([], Aborted(e))
    case Success(notes) =>
      var blocks := Chain(games, GameSteps(notes, lookup));
      (Header(games) + blocks.0, if blocks.1.None? then Completed else Aborted(blocks.1.value))
  }

  /** The title and the numbered list of games, written before any lookup. */
  method WriteHeader(games: seq<string>) returns (written: seq<string>)
    ensures written == Header(games)
  {
    written := [Printed(HeaderTitle)];
    for i := 0 to |games|
      invariant written == [Printed(HeaderTitle)] + Numbered(games[..i])
    {
      assert games[..i + 1][..i] == games[..i];
      NumberedLineFormat(i + 1, games[i]);
      written := written + [Printed(Format(NumberedTemplate, [NatToString(i + 1), games[i]]))];
    }
    assert games[..|games|] == games;
  }

  /** One pass of main's loop: the separator, the search, the game page and
      the six field lines, or the failure that ends the run. */
  method VisitGame(game: string, notes: map<string, string>, site: Site)
    returns (chunks: seq<string>, failure: Option<Failure>)
    ensures (chunks, failure) == GameStep(game, notes, SiteLookup(site))
  {
    chunks := [SectionBreak()];
    var query := Format(SearchTemplate, [EncodeName(game)]);
    TemplateSubstitution(EncodeName(game));
    var top := GetTopMatch(site.search(query), game);
    if top.Failure? {
      return chunks, Some(top.error);
    }
    var url := SiteOrigin + top.value;
    var info := GetGameInfo(site.detail(url));
    if info.Failure? {
      return chunks, Some(info.error);
    }
    var v := info.value;
    var lines := WriteStats(game, v.playerNum, v.playTime, v.rank, v.description, notes, url);
    chunks := chunks + lines;
    failure := None;
  }

  /** main, writing to a sequence of print chunks. */
  method Run(games: seq<string>, additionalNotes: Option<seq<string>>, site: Site)
    returns (written: seq<string>, status: Status)
    ensures (written, status) == RunOutcome(games, additionalNotes, SiteLookup(site))
  {
    var notes := GetNotes(additionalNotes);
    if notes.Failure? {
      return [], Aborted(notes.error);
    }
    written := WriteHeader(games);
    ghost var header := written;
    ghost var steps := GameSteps(notes.value, SiteLookup(site));
    assert games[..0] == [];
    for i := 0 to |games|
      invariant written == header + Chain(games[..i], steps).0
      invariant Chain(games[..i], steps).1.None?
    {
      var chunks, failure := VisitGame(games[i], notes.value, site);
      ChainLoopStep(games, steps, i, header, written, chunks, failure);
      written := written + chunks;
      if failure.Some? {
        return written, Aborted(failure.value);
      }
    }
    assert games[..|games|] == games;
    status := Completed;
  }

  // ----- whole runs -----------------------------------------------------------------

  /** A run ends normally exactly when every note is well formed and every game
      is found. */
  lemma RunCompletes(games: seq<string>, additionalNotes: Option<seq<string>>, lookup: GameLookup)
    ensures RunOutcome(games, additionalNotes, lookup).1.Completed?
            <==> NotesOf(additionalNotes).Success? && forall k :: 0 <= k < |games| ==> lookup(games[k]).Success?
  {
    if NotesOf(additionalNotes).Success? {
      var notes := NotesOf(additionalNotes).value;
      var steps := GameSteps(notes, lookup);
      ChainCompletes(games, steps);
      forall k | 0 <= k < |games|
        ensures steps(games[k]).1.None? <==> lookup(games[k]).Success?
      {
        GameStepOutcome(games[k], notes, lookup);
      }
    }
  }

  /** A malformed note aborts the run before anything is written, naming the
      first note that does not hold exactly one ':'; the exit status is 1. */
  lemma MalformedNoteWritesNothing(games: seq<string>, notes: seq<string>, lookup: GameLookup, i: nat)
    requires i < |notes| && Count(notes[i], ':') != 1
    requires forall j :: 0 <= j < i ==> Count(notes[j], ':') == 1
    ensures RunOutcome(games, Some(notes), lookup) == ([], Aborted(MalformedNote(notes[i])))
    ensures ExitStatus(RunOutcome(games, Some(notes), lookup).1) == 1
  {
    CollectFailsOnFirstMalformed(notes);
    var w :| 0 <= w < |notes| && Collect(notes).error == MalformedNote(notes[w])
             && Count(notes[w], ':') != 1 && forall j :: 0 <= j < w ==> Count(notes[j], ':') == 1;
    assert !(w < i) && !(i < w);
  }

  /** Every game step that succeeds writes the separator and six lines. */
  lemma GameStepsWidth(notes: map<string, string>, lookup: GameLookup)
    ensures forall x :: GameSteps(notes, lookup)(x).1.None? ==> |GameSteps(notes, lookup)(x).0| == 7
  {
    var steps := GameSteps(notes, lookup);
    forall x
      ensures steps(x).1.None? ==> |steps(x).0| == 7
    {
      GameStepOutcome(x, notes, lookup);
    }
  }
  /** In a loop over the games that got to the end, the block of game k is the
      seven chunks from 7 * k on. */
  lemma CompletedBlockAt(games: seq<string>, notes: map<string, string>, lookup: GameLookup, k: nat)
    requires k < |games| && Chain(games, GameSteps(notes, lookup)).1.None?
    ensures lookup(games[k]).Success?
    ensures var blocks := Chain(games, GameSteps(notes, lookup)).0;
      && |blocks| == 7 * |games|
      && blocks[7 * k..7 * k + 7] == GameBlock(games[k], notes, lookup(games[k]).value)
  {
    GameStepsWidth(notes, lookup);
    ChainAtWidth(games, GameSteps(notes, lookup), 7, k);
    GameStepSucceeded(games[k], notes, lookup);
  }
  /** A pass of the loop that did not fail found the game and wrote its block. */
  lemma GameStepSucceeded(game: string, notes: map<string, string>, lookup: GameLookup)
    requires GameSteps(notes, lookup)(game).1.None?
    ensures lookup(game).Success?
    ensures GameSteps(notes, lookup)(game).0 == GameBlock(game, notes, lookup(game).value)
  {
  }
  /** Chunk j of the block of game k in a loop that got to the end. */
  lemma CompletedChunk(games: seq<string>, notes: map<string, string>, lookup: GameLookup, k: nat, j: nat)
    requires k < |games| && j < 7 && Chain(games, GameSteps(notes, lookup)).1.None?
    ensures lookup(games[k]).Success?
    ensures var blocks := Chain(games, GameSteps(notes, lookup)).0;
      && |blocks| == 7 * |games| && 7 * k + j < |blocks|
      && blocks[7 * k + j] == GameBlock(games[k], notes, lookup(games[k]).value)[j]
  {
    CompletedBlockAt(games, notes, lookup, k);
    var blocks := Chain(games, GameSteps(notes, lookup)).0;
    assert blocks[7 * k + j] == blocks[7 * k..7 * k + 7][j];
  }
  /** A completed run writes the title and one numbered line per game, then
      the seven chunks of each game. */
  lemma CompletedRunWritten(games: seq<string>, additionalNotes: Option<seq<string>>, lookup: GameLookup)
    requires RunOutcome(games, additionalNotes, lookup).1.Completed?
    ensures NotesOf(additionalNotes).Success?
    ensures var blocks := Chain(games, GameSteps(NotesOf(additionalNotes).value, lookup));
      var written := RunOutcome(games, additionalNotes, lookup).0;
      && blocks.1.None?
      && written == Header(games) + blocks.0
      && |written| == 1 + 8 * |games|
      && written[..1 + |games|] == Header(games)
  {
    var notes := NotesOf(additionalNotes).value;
    var blocks := Chain(games, GameSteps(notes, lookup));
    GameStepsWidth(notes, lookup);
    ChainLength(games, GameSteps(notes, lookup), 7);
    assert (Header(games) + blocks.0)[..|Header(games)|] == Header(games);
  }

  /** In a completed run, chunk j of game k's block follows the header and the
      blocks of the games before k. */
  lemma CompletedRunChunk(games: seq<string>, additionalNotes: Option<seq<string>>, lookup: GameLookup, k: nat, j: nat)
    requires RunOutcome(games, additionalNotes, lookup).1.Completed? && k < |games| && j < 7
    ensures lookup(games[k]).Success?
    ensures var written := RunOutcome(games, additionalNotes, lookup).0;
      var block := GameBlock(games[k], NotesOf(additionalNotes).value, lookup(games[k]).value);
      && 1 + |games| + 7 * k + j < |written|
      && written[1 + |games| + 7 * k + j] == block[j]
  {
    CompletedRunWritten(games, additionalNotes, lookup);
    var notes := NotesOf(additionalNotes).value;
    var blocks := Chain(games, GameSteps(notes, lookup)).0;
    CompletedChunk(games, notes, lookup, k, j);
    assert (Header(games) + blocks)[|Header(games)| + (7 * k + j)] == blocks[7 * k + j];
  }

  /** In a completed run, game k's block opens with the separator. */
  lemma CompletedRunSeparator(games: seq<string>, additionalNotes: Option<seq<string>>, lookup: GameLookup, k: nat)
    requires RunOutcome(games, additionalNotes, lookup).1.Completed? && k < |games|
    ensures var written := RunOutcome(games, additionalNotes, lookup).0;
      1 + |games| + 7 * k < |written| && written[1 + |games| + 7 * k] == SectionBreak()
  {
    CompletedRunChunk(games, additionalNotes, lookup, k, 0);
  }

  /** In a completed run, the six lines after game k's separator are its field
      lines: its URL, then the rank, players, play time, description and note,
      each reading back as the value found for the game, or as "None" when
      there is none. */
  lemma CompletedRunLayout(games: seq<string>, additionalNotes: Option<seq<string>>, lookup: GameLookup, k: nat, j: nat)
    requires RunOutcome(games, additionalNotes, lookup).1.Completed? && k < |games| && j < 6
    ensures lookup(games[k]).Success?
    ensures var written := RunOutcome(games, additionalNotes, lookup).0;
      var line := 1 + |games| + 7 * k + 1 + j;
      var found := lookup(games[k]).value;
      var info := found.info;
      var values := StatValues(info.playerNum, info.playTime, info.rank, info.description,
                               NoteFor(NotesOf(additionalNotes).value, games[k]), found.url);
      && line < |written|
      && ParseStatLine(written[line], games[k], Labels[j]) == Some(Show(values[j]))
  {
    CompletedRunChunk(games, additionalNotes, lookup, k, 1 + j);
    var written := RunOutcome(games, additionalNotes, lookup).0;
    BlockLine(games[k], NotesOf(additionalNotes).value, lookup(games[k]).value, j,
              written[1 + |games| + 7 * k + 1 + j]);
  }

  /** In a completed run against the site, the URL line of game k reads back as
      the site origin followed by the href of the game's top search result. */
  lemma CompletedRunUrl(games: seq<string>, additionalNotes: Option<seq<string>>, site: Site, k: nat)
    requires RunOutcome(games, additionalNotes, SiteLookup(site)).1.Completed? && k < |games|
    ensures var written := RunOutcome(games, additionalNotes, SiteLookup(site)).0;
      var top := site.search(SearchQuery(games[k]));
      && top.TopResult?
      && 1 + |games| + 7 * k + 1 < |written|
      && ParseStatLine(written[1 + |games| + 7 * k + 1], games[k], Labels[0]) == Some(SiteOrigin + top.href)
  {
    CompletedRunLayout(games, additionalNotes, SiteLookup(site), k, 0);
    assert SiteLookup(site)(games[k]) == Lookup(games[k], site);
    LookupUrl(games[k], site);
  }

  /** A game that was found was found at the site origin followed by the href
      of the top search result. */
  lemma LookupUrl(game: string, site: Site)
    requires Lookup(game, site).Success?
    ensures var top := site.search(SearchQuery(game));
      top.TopResult? && Lookup(game, site).value.url == SiteOrigin + top.href
  {
  }
  /** Line 1 + j of a game's block reads back as the j-th value of the game. */
  lemma BlockLine(game: string, notes: map<string, string>, found: Found, j: nat, line: string)
    requires j < 6 && line == GameBlock(game, notes, found)[1 + j]
    ensures var info := found.info;
      var values := StatValues(info.playerNum, info.playTime, info.rank, info.description,
                               NoteFor(notes, game), found.url);
      ParseStatLine(line, game, Labels[j]) == Some(Show(values[j]))
  {
    var info := found.info;
    OutputStatsLayout(game, info.playerNum, info.playTime, info.rank, info.description, notes, found.url);
  }
  /** When game i is the first whose lookup fails, the loop writes the blocks of
      the games before it and the separator of game i, and stops with that
      failure. */
  lemma StopsAtFirstFailure(games: seq<string>, notes: map<string, string>, lookup: GameLookup, i: nat)
    requires i < |games| && lookup(games[i]).Failure?
    requires forall k :: 0 <= k < i ==> lookup(games[k]).Success?
    ensures var blocks := Chain(games, GameSteps(notes, lookup));
      && blocks.1 == Some(lookup(games[i]).error)
      && |blocks.0| == 7 * i + 1
      && blocks.0[7 * i] == SectionBreak()
      && Chain(games[..i], GameSteps(notes, lookup)).1.None?
      && blocks.0[..7 * i] == Chain(games[..i], GameSteps(notes, lookup)).0
  {
    var steps := GameSteps(notes, lookup);
    forall k | 0 <= k < i
      ensures steps(games[k]).1.None?
    {
      GameStepOutcome(games[k], notes, lookup);
    }
    GameStepOutcome(games[i], notes, lookup);
    ChainStopsAt(games, steps, i);
    GameStepsWidth(notes, lookup);
    ChainLength(games[..i], steps, 7);
    var before := Chain(games[..i], steps).0;
    assert (before + steps(games[i]).0)[..7 * i] == before;
  }

  /** In a loop stopped at game i, chunk j of the block of an earlier game k
      sits where it does in a loop that gets to the end. */
  lemma StoppedChunk(games: seq<string>, notes: map<string, string>, lookup: GameLookup, i: nat, k: nat, j: nat)
    requires i < |games| && lookup(games[i]).Failure?
    requires forall k :: 0 <= k < i ==> lookup(games[k]).Success?
    requires k < i && j < 7
    ensures var blocks := Chain(games, GameSteps(notes, lookup)).0;
      7 * k + j < |blocks| && blocks[7 * k + j] == GameBlock(games[k], notes, lookup(games[k]).value)[j]
  {
    StopsAtFirstFailure(games, notes, lookup, i);
    var before := games[..i];
    CompletedChunk(before, notes, lookup, k, j);
    assert before[k] == games[k];
    var blocks := Chain(games, GameSteps(notes, lookup)).0;
    assert blocks[7 * k + j] == blocks[..7 * i][7 * k + j];
  }

  /** A run that reaches game i and cannot look it up has written the header,
      the complete blocks of the games before i and the separator of game i,
      and nothing more, and stops with the failure of game i. */
  lemma RunStopsWritten(games: seq<string>, additionalNotes: Option<seq<string>>, lookup: GameLookup, i: nat)
    requires NotesOf(additionalNotes).Success?
    requires i < |games| && lookup(games[i]).Failure?
    requires forall k :: 0 <= k < i ==> lookup(games[k]).Success?
    ensures var outcome := RunOutcome(games, additionalNotes, lookup);
      && outcome.1 == Aborted(lookup(games[i]).error)
      && |outcome.0| == 1 + |games| + 7 * i + 1
      && outcome.0[..1 + |games|] == Header(games)
      && outcome.0[|outcome.0| - 1] == SectionBreak()
      && forall k, j :: 0 <= k < i && 0 <= j < 7 ==>
           outcome.0[1 + |games| + 7 * k + j]
             == GameBlock(games[k], NotesOf(additionalNotes).value, lookup(games[k]).value)[j]
  {
    var notes := NotesOf(additionalNotes).value;
    StopsAtFirstFailure(games, notes, lookup, i);
    var blocks := Chain(games, GameSteps(notes, lookup)).0;
    var header := Header(games);
    var written := header + blocks;
    assert |header| == 1 + |games|;
    assert RunOutcome(games, additionalNotes, lookup) == (written, Aborted(lookup(games[i]).error));
    assert written[..|header|] == header;
    assert written[|written| - 1] == blocks[7 * i];
    forall k, j | 0 <= k < i && 0 <= j < 7
      ensures written[1 + |games| + 7 * k + j] == GameBlock(games[k], notes, lookup(games[k]).value)[j]
    {
      StoppedRunChunk(games, additionalNotes, lookup, i, k, j);
    }
  }

  /** In a run stopped at game i, chunk j of an earlier game k follows the
      header and the blocks of the games before k. */
  lemma StoppedRunChunk(games: seq<string>, additionalNotes: Option<seq<string>>, lookup: GameLookup, i: nat, k: nat, j: nat)
    requires NotesOf(additionalNotes).Success?
    requires i < |games| && lookup(games[i]).Failure?
    requires forall k :: 0 <= k < i ==> lookup(games[k]).Success?
    requires k < i && j < 7
    ensures var written := RunOutcome(games, additionalNotes, lookup).0;
      && 1 + |games| + 7 * k + j < |written|
      && written[1 + |games| + 7 * k + j] == GameBlock(games[k], NotesOf(additionalNotes).value, lookup(games[k]).value)[j]
  {
    var notes := NotesOf(additionalNotes).value;
    StoppedChunk(games, notes, lookup, i, k, j);
    var blocks := Chain(games, GameSteps(notes, lookup)).0;
    var header := Header(games);
    assert |header| == 1 + |games|;
    assert RunOutcome(games, additionalNotes, lookup).0 == header + blocks;
    assert (header + blocks)[|header| + (7 * k + j)] == blocks[7 * k + j];
  }

  /** Why a lookup fails: a result page without results is a failure to match
      the game; a game page without one of the edit blocks is a missing
      container. */
  lemma LookupFailure(game: string, site: Site)
    requires Lookup(game, site).Failure?
    ensures var top := site.search(SearchQuery(game));
      && (top.NoResults? ==> Lookup(game, site).error == NoMatch(game))
      && (top.TopResult? ==> Lookup(game, site).error.MissingContainer?)
  {
    var top := site.search(SearchQuery(game));
    if top.TopResult? {
      GameInfoFailure(site.detail(SiteOrigin + top.href));
    }
  }
  /** The run against the site that stops at game i exits with status 2 when
      the game has no search results, and with status 1 when its page lacks an
      edit block. */
  lemma RunStopsAtFirstFailure(games: seq<string>, additionalNotes: Option<seq<string>>, site: Site, i: nat)
    requires NotesOf(additionalNotes).Success?
    requires i < |games| && Lookup(games[i], site).Failure?
    requires forall k :: 0 <= k < i ==> Lookup(games[k], site).Success?
    ensures var status := RunOutcome(games, additionalNotes, SiteLookup(site)).1;
      var top := site.search(SearchQuery(games[i]));
      && status == Aborted(Lookup(games[i], site).error)
      && (top.NoResults? ==> status == Aborted(NoMatch(games[i])) && ExitStatus(status) == 2)
      && (top.TopResult? ==> status.failure.MissingContainer? && ExitStatus(status) == 1)
  {
    var lookup := SiteLookup(site);
    assert forall k :: 0 <= k < i ==> lookup(games[k]).Success?;
    assert lookup(games[i]) == Lookup(games[i], site);
    RunStopsWritten(games, additionalNotes, lookup, i);
    LookupFailure(games[i], site);
  }
}
