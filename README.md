# bgg_parser: a verified model

`bgg_parser.py` looks board games up on BoardGameGeek and writes a small report.
It takes the names of one or more games on the command line, and optionally `-a` notes of the form
`"Name:Note"`. It writes:

- the title "Suggested Games: ";
- a numbered list of the games;
- for each game, in input order, a separator, then six field lines: URL, rank, player count, play
  time, description and note.

To get those values it builds a search URL from the game's name and takes the href of the top search
result. It then reads four values off the game's page.

This project models that core in Dafny and proves what each step promises. It is one module per
concern:

| module | file | models |
|---|---|---|
| `Wrappers` | wrappers.dfy | `Option` and `Result` |
| `Failures` | failures.dfy | the three ways a run stops early, and the process exit status |
| `PyText` | pytext.dfy | the Python string operations used: `strip`/`rstrip`, `split(":")`, `split()`, `isdigit`, the ASCII filter of `encode("ascii", "ignore")`, `str(n)`, and `str.format` |
| `FirstMatch` | firstmatch.dfy | the "first element that qualifies" search that every field lookup performs |
| `Notes` | notes.dfy | `get_notes` |
| `Search` | search.dfy | the search URL and `get_top_match` |
| `Fields` | fields.dfy | `get_player_number`, `get_suggested_playtime`, `get_rank`, `get_description`, `get_game_info` |
| `Report` | report.dfy | the numbered list, `new_section` and `output_stats` |
| `Steps` | steps.dfy | a loop that runs one step per item and stops after the first step that fails |
| `Driver` | driver.dfy | `main` |

## How the model represents the program

- **Output.** The output handle is a sequence of strings. Each element is exactly the text of one
  `print(..., file=handle)` call, including the line end `print` adds.
  - `new_section` prints three arguments separated by spaces. It therefore writes `"\n "`, 70 dashes,
    `" \n"` and a final line end.
  - Every field line ends in two line ends: the template's and print's.
- **The network.** The site is a parameter, `Site(search, detail)`.
  - `search` maps a search URL to what the script reads from the result page: the href of the first
    link in `results_objectname1`, or nothing.
  - `detail` maps a game URL to a `GamePage`. A `GamePage` holds the texts of the `<div>`s inside
    each element id, the texts of the `mf nw b` divs of each `<td>`, and the `<meta>` elements.
- **The run.** `Driver.RunOutcome` is stated over an arbitrary per-game lookup, a `GameLookup`. That
  lookup gives the game's URL and its four values, or the failure that stops the run.
  - `Driver.Run` carries out the script step by step: the notes, the header loop, then one pass per
    game.
  - `Driver.Run` is proved equal to `RunOutcome` with the site's own lookup, `SiteLookup(site)`.
  - The layout lemmas hold for every lookup. The lemmas about exit statuses and URLs are about the
    site.
- **Errors.** The failures are data (`Failures.Failure`), and `Failures.ExitStatus` maps them to the
  process's exit status:
  - a note that does not split into exactly two parts raises `ValueError` before the output is
    opened: exit status 1, nothing written;
  - a game without search results calls `sys.exit(2)`: exit status 2;
  - a game page without the `edit_players` or `edit_playtime` element raises `AttributeError` on
    `None`: exit status 1.

### Consequences of the code that are easy to miss

- A missing players or play-time container is not an absent value. `find_all` on `None` raises
  `AttributeError`, so the run ends with exit status 1 after that game's separator
  (`Driver.RunStopsAtFirstFailure`).
- An absent value is printed as `None` (`Report.Show`).
- The first failing game ends the run. Everything printed before stays written: the header, the
  blocks of the earlier games and the separator of the failing game (`Driver.RunStopsWritten`).

## Model

| member | source | states |
|---|---|---|
| Failures.ExitStatus | bgg_parser.py:124-126 | status 0 exactly when the run completes; 2 exactly for a game without search results; otherwise 1 (uncaught exception) |
| Failures.Diagnostic | bgg_parser.py:125 | a line goes to standard output only for a game without results, and it names that game after "no item found matching " |
| Notes.ParseNote | bgg_parser.py:61 | the unpacking succeeds exactly when the note holds one ':'; then key ":" value rebuilds the note and neither part contains ':'; otherwise the error names the note |
| Notes.GetNotes | bgg_parser.py:56-63 | the loop returns the dictionary `NotesOf` specifies: empty for no notes or an empty list, otherwise the notes folded in order, or the first error |
| Notes.CollectFailureSticks | bgg_parser.py:60-62 | once a note has raised, the later notes change nothing |
| Notes.CollectFailsOnFirstMalformed | bgg_parser.py:60-62 | parsing fails exactly when some note does not hold exactly one ':', and the error names the first such note |
| Notes.LastNoteWins | bgg_parser.py:60-62 | a note whose key no later note repeats supplies that key's value |
| Notes.KeysComeFromNotes | bgg_parser.py:57-63 | every key of the dictionary, with its value, comes from one of the notes |
| Search.EncodeName | bgg_parser.py:40 | `replace(" ", "+")`: same length, each space becomes '+', every other character kept, no space left |
| Search.EncodeNameRoundTrip | bgg_parser.py:40 | a name without '+' is recovered from its encoding |
| Search.SearchQueryShape | bgg_parser.py:41 | the query is the fixed head, the encoded name and the fixed tail, and the encoded name can be read back from between them |
| Search.SearchTemplateParts | bgg_parser.py:25 | the search URL template is brace-free text around its one field {0} |
| Search.TemplateSubstitution | bgg_parser.py:41 | `bgg_search_url.format(arg)` is the template's head, then arg, then its tail |
| Search.GetTopMatch | bgg_parser.py:121-128 | fails exactly when the results element is absent, with NoMatch(game) and exit status 2; otherwise returns the top link's href |
| Fields.ScanCountDivs | bgg_parser.py:114-118 | the first stripped div text that starts with a digit, and all earlier texts do not; nothing exactly when no text qualifies |
| Fields.GetPlayerNumber | bgg_parser.py:112-118 | fails exactly when the page has no `edit_players` element; otherwise the first qualifying div text in it |
| Fields.GetSuggestedPlaytime | bgg_parser.py:103-109 | fails exactly when the page has no `edit_playtime` element; otherwise the first qualifying div text in it |
| Fields.GetRank | bgg_parser.py:93-101 | the three nested loops return the first all-digit token of the first qualifying text (`RankOf`), which is all digits |
| Fields.RankIsNumeric | bgg_parser.py:96-101 | a rank that is found is all digits and is a token of a cell's text that contains "Board Game Rank:" |
| Fields.RankIsFirstDigitRun | bgg_parser.py:96-101 | in a text containing "Board Game Rank:", the rank read is the first whitespace-delimited run of the text that is all digits |
| Fields.RankSkipsDigitlessText | bgg_parser.py:97-101 | a text with the marker but no all-digit token does not end the search; the next text is tried |
| Fields.GetDescription | bgg_parser.py:87-91 | the content of the first `description` meta, reduced to ASCII; nothing exactly when there is no such meta |
| Fields.GetGameInfo | bgg_parser.py:80-85 | the four lookups in the script's order, as `GameInfoOf` specifies |
| Fields.GameInfoFailure | bgg_parser.py:80-85 | reading a page fails exactly when an edit block is missing, naming `edit_players` first |
| Fields.GameInfoValues | bgg_parser.py:80-85 | each value read has its promised form: counts start with a digit, the rank is all digits, the description is ASCII |
| Fields.FoundCountLeadsWithDigit | bgg_parser.py:117-118 | a count that is found starts with a digit |
| FirstMatch.FirstSomeNone | bgg_parser.py:105-109 | a scan finds nothing exactly when no element qualifies |
| FirstMatch.FirstSomeAt | bgg_parser.py:105-109 | when element i is the first to qualify, the scan returns its value |
| FirstMatch.FirstSomeWitness | bgg_parser.py:105-109 | whatever a scan returns was produced by one of the elements |
| FirstMatch.FirstSomeStep | bgg_parser.py:105-109 | skipping an element that does not qualify leaves the scan's result unchanged |
| PyText.LStripSpec | bgg_parser.py:96 | `lstrip` removes the leading whitespace and nothing else |
| PyText.RStripSpec | bgg_parser.py:96 | `rstrip` removes the trailing whitespace and nothing else |
| PyText.StripIsTrim | bgg_parser.py:96 | `strip` leaves the part between the leading and the trailing whitespace, which neither starts nor ends with whitespace |
| PyText.StripCompositions | bgg_parser.py:96 | `strip().rstrip()` and `rstrip().strip()` are both `strip()` |
| PyText.Split | bgg_parser.py:61 | `split(":")` gives one more part than there are separators, and no part holds the separator |
| PyText.SplitJoin | bgg_parser.py:61 | joining the parts of a split with the separator gives the input back |
| PyText.RunEnd | bgg_parser.py:98 | the run that starts at i ends at the first whitespace at or after i, or at the end of the text |
| PyText.SpansFrom | bgg_parser.py:98 | the spans found from a boundary are maximal runs of non-whitespace, in increasing order |
| PyText.Tokens | bgg_parser.py:98 | `split()` gives one non-empty, whitespace-free token per span |
| PyText.RunInSpansFrom | bgg_parser.py:98 | every maximal run after a boundary is among the spans found from there |
| PyText.TokensAreRuns | bgg_parser.py:98 | the tokens of `split()` are exactly the maximal runs of non-whitespace: each token is the text of a run, in the order the runs occur, and no run is left out |
| PyText.LeadsWithDigitFirst | bgg_parser.py:108 | `s[:1].isdigit()` holds exactly when s is non-empty and starts with a digit |
| PyText.AsciiOnly | bgg_parser.py:91 | the ASCII filter's result is pure ASCII and no longer than the input |
| PyText.AsciiOnlyIsSubsequence | bgg_parser.py:91 | the filter only deletes characters |
| PyText.AsciiOnlyIdentity | bgg_parser.py:91 | the filter leaves a string unchanged exactly when it is pure ASCII |
| PyText.AsciiOnlyIdempotent | bgg_parser.py:91 | filtering twice is filtering once |
| PyText.AsciiOnlyKeepsAscii | bgg_parser.py:91 | every ASCII character is kept as often as it occurs, every other one dropped |
| PyText.NatToString | bgg_parser.py:36 | `str(i+1)` is a non-empty run of digits without a leading zero; it starts with '0' only for 0 |
| PyText.ParseNatToString | bgg_parser.py:36 | reading the printed number back gives the number |
| PyText.FormatLiteral | bgg_parser.py:36 | `format` copies brace-free text unchanged |
| PyText.FormatField | bgg_parser.py:36 | `format` replaces the field {i} by argument i |
| PyText.FormatPair | bgg_parser.py:34-36 | a template with fields {i} and {j} between brace-free text gets both arguments in place |
| PyText.FormatThree | bgg_parser.py:68-69 | a template with fields {0}, {1}, {2} between brace-free text gets the three arguments in place |
| Report.SectionBreakText | bgg_parser.py:53-54 | the separator is "\n", a space, 70 dashes, a space and two line ends |
| Report.Numbered | bgg_parser.py:35-36 | one numbered line per game |
| Report.NumberedLineFormat | bgg_parser.py:34-36 | printing `template.format(i+1, game)` gives the numbered line: number, ".\t", name, line end |
| Report.NumberedLineRoundTrip | bgg_parser.py:36 | a numbered line reads back as exactly its number and its game name |
| Report.NumberedAt | bgg_parser.py:35-36 | line i of the list is the numbered line for i+1 and games[i] |
| Report.HeaderListsGames | bgg_parser.py:33-36 | the header is the title, then one line per game in input order, duplicates included; line i+1 reads back as (i+1, games[i]) |
| Report.StatLineFormat | bgg_parser.py:68-69 | printing `template.format(game, heading, value)` gives the field line: prefix, value, two line ends |
| Report.StatLineRoundTrip | bgg_parser.py:68-74 | a field line reads back as its value verbatim, "None" for an absent one |
| Report.StatLinesAt | bgg_parser.py:69-74 | line k of the field lines pairs heading k with value k |
| Report.OutputStatsLines | bgg_parser.py:65-74 | `output_stats` writes exactly six lines, line k for label k and value k |
| Report.OutputStatsLayout | bgg_parser.py:65-74 | the six lines come in the fixed label order, name the game, and read back as URL, rank, players, play time, description and the game's own note, or "None" |
| Report.WriteStat | bgg_parser.py:68-69 | one print of the template is the field line for that heading and value |
| Report.WriteStats | bgg_parser.py:65-74 | the six prints give what `OutputStats` specifies |
| Driver.GameBlock | bgg_parser.py:38-51 | a found game adds seven chunks, the separator first |
| Driver.GameStepOutcome | bgg_parser.py:38-51 | a pass of the loop fails exactly when the lookup does; a failing pass writes only the separator and carries the lookup's failure; a successful pass writes the game's seven-chunk block |
| Driver.WriteHeader | bgg_parser.py:33-36 | the title and numbered-list loop writes exactly `Header(games)` |
| Driver.VisitGame | bgg_parser.py:39-51 | one pass (separator, search, game page, field lines) is the step `GameStep` specifies for the site |
| Driver.Run | bgg_parser.py:30-51 | `main` writes and ends exactly as `RunOutcome` specifies for the site's lookup |
| Driver.RunCompletes | bgg_parser.py:30-51 | a run completes exactly when every note is well formed and every game is found |
| Driver.MalformedNoteWritesNothing | bgg_parser.py:30-32 | a malformed note aborts before anything is written, naming the first malformed note, with exit status 1 |
| Driver.GameStepsWidth | bgg_parser.py:49-51 | every successful pass writes seven chunks |
| Driver.CompletedBlockAt | bgg_parser.py:38-51 | in a completed loop, chunks 7k to 7k+7 are game k's block |
| Driver.GameStepSucceeded | bgg_parser.py:38-51 | a pass that did not fail found its game and wrote its block |
| Driver.CompletedChunk | bgg_parser.py:38-51 | in a completed loop, chunk 7k+j is chunk j of game k's block |
| Driver.CompletedRunWritten | bgg_parser.py:33-51 | a completed run wrote the header and then 7 chunks per game: 1 + 8·n chunks in all, the header first |
| Driver.CompletedRunChunk | bgg_parser.py:38-51 | in a completed run, game k's chunk j comes after the header and the blocks of the earlier games |
| Driver.CompletedRunSeparator | bgg_parser.py:38-39 | in a completed run, each game's block opens with the separator |
| Driver.CompletedRunLayout | bgg_parser.py:44-51 | in a completed run, the six lines after game k's separator read back as its URL, rank, players, play time, description and note, in that order |
| Driver.CompletedRunUrl | bgg_parser.py:44-45 | in a completed run, game k's URL line reads back as "http://boardgamegeek.com" followed by the href of the top result for the game's search URL |
| Driver.LookupUrl | bgg_parser.py:44-45 | a game that is found had a top search result, and its URL is the origin followed by that href |
| Driver.BlockLine | bgg_parser.py:49-51 | line 1+j of a game's block reads back as value j |
| Driver.StopsAtFirstFailure | bgg_parser.py:38-48 | when game i is the first whose lookup fails, the loop stops with that failure after 7·i + 1 chunks: what the passes over the earlier games wrote, then game i's separator |
| Driver.StoppedChunk | bgg_parser.py:38-51 | in a loop stopped at game i, chunk 7k+j is chunk j of the block of the earlier game k |
| Driver.RunStopsWritten | bgg_parser.py:38-48 | a run stopped at game i has written the header, then the complete block of each earlier game, chunk by chunk, then game i's separator, and nothing more |
| Driver.StoppedRunChunk | bgg_parser.py:38-51 | in a run stopped at game i, chunk j of an earlier game k follows the header and the blocks of the games before k |
| Driver.LookupFailure | bgg_parser.py:44-48 | a lookup fails with NoMatch when there is no search result, and with MissingContainer when there is one |
| Driver.RunStopsAtFirstFailure | bgg_parser.py:38-48 | a run stopped at game i ends with that game's failure: exit status 2 when it has no search result, exit status 1 (missing edit block) otherwise |
| Steps.ChainExtend | bgg_parser.py:38-51 | one more pass after passes that did not fail appends what it writes |
| Steps.ChainSticks | bgg_parser.py:38-51 | after a pass has failed, the remaining games change nothing |
| Steps.ChainCompletes | bgg_parser.py:38-51 | the loop reaches its end exactly when no pass fails |
| Steps.ChainNoneAt | bgg_parser.py:38-51 | in a loop that reached its end, no pass failed |
| Steps.ChainLength | bgg_parser.py:38-51 | when every successful pass writes w chunks, a loop that reached its end wrote w per item |
| Steps.ChainPrefix | bgg_parser.py:38-51 | what the passes over a prefix write is a prefix of what the whole loop writes |
| Steps.ChainAt | bgg_parser.py:38-51 | in a completed loop, pass k's chunks follow those of the earlier passes |
| Steps.ChainAtWidth | bgg_parser.py:38-51 | with w chunks per pass, pass k's chunks are those from w·k on |
| Steps.ChainStopsAt | bgg_parser.py:38-51 | when pass i is the first to fail, the loop writes the earlier passes' chunks and pass i's, and stops with pass i's failure |
| Steps.ChainLoopStep | bgg_parser.py:38-51 | one pass of the imperative loop keeps "written = header + what the passes so far wrote", and a failing pass fixes the whole outcome |

## Left out

- Network access (`open_url`, `get_game_page`) is not modelled. The pages come from the `Site`
  parameter.
- HTML parsing (BeautifulSoup: `find`, `find_all`, `get_text`, attribute access) is replaced by the
  parsed texts a `SearchPage` or `GamePage` holds. The markup stripping that `get_description`'s
  `get_text()` performs is assumed done in `Meta.content`.
- Command-line parsing (argh) is not modelled. `nargs="+"` is not enforced, so an empty game list is
  allowed.
- Opening the output file and standard output are not modelled. The output is a sequence of printed
  chunks, and the diagnostic of `get_top_match` is the separate value `Failures.Diagnostic`.
- A `<meta>` without a `name` attribute raises `KeyError` in `get_description`. The model gives every
  meta a name, so this failure is not represented.
- Search.SearchPage: a results element without an `<a>`, or an `<a>` without an href, is not
  representable. In the script these raise `AttributeError` at bgg_parser.py:128 or `TypeError` at bgg_parser.py:45,
  exit status 1.
- The `encode("UTF-8").decode("UTF-8")` round trips are identities and are not modelled.
- PyText.IsSpace, PyText.IsDigit: whitespace and digits are ASCII only. They are the ten ASCII
  characters `str.isspace` accepts (space, `\t` to `\r`, and 0x1C to 0x1F) and '0' to '9'. Python's
  `strip`, `split()` and `isdigit` also accept non-ASCII whitespace and digits.
- PyText.Format: handles only single-digit positional fields `{d}`, which is all the script's
  templates use. It has no escaping of doubled braces, no named fields and no format specifications.
- Report.Show: a value that is itself the text "None" prints the same as an absent value. The
  model proves that a line reads back as `Show(value)`, not as the value itself.
- Search.EncodeNameRoundTrip: requires a name without '+'. A '+' already in the name cannot be told
  apart from an encoded space, and the script does not percent-encode the name.
