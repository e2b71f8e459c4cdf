/** The text the script writes to its output handle: the numbered list of
    games (main), the separator (new_section) and the six field lines of a
    game (output_stats). Each element of a written sequence is the text of one
    print call. */
module Report {
  import opened Wrappers
  import opened PyText

  /** What `print(s, file=handle)` writes. */
  function Printed(s: string): string
  {
    s + "\n"
  }

  /** What `print(a, b, ..., file=handle)` writes: the arguments separated by
      single spaces, then a newline. */
  function PrintedAll(args: seq<string>): string
    requires |args| >= 1
  {
    Printed(Join(args, ' '))
  }

  /** `c * n` for a one-character string c. */
  function Repeat(c: char, n: nat): (s: string)
    ensures |s| == n
    ensures forall i :: 0 <= i < n ==> s[i] == c
  {
    if n == 0 then [] else [c] + Repeat(c, n - 1)
  }

  const RuleWidth := 70

  /** new_section: `print("\n", "-"*70, "\n", file=handle)`. */
  function SectionBreak(): string
  {
    PrintedAll(["\n", Repeat('-', RuleWidth), "\n"])
  }

  /** The separator is a blank line, a space, the 70-dash rule, a space, and
      two line ends. */
  lemma SectionBreakText()
    ensures SectionBreak() == "\n " + Repeat('-', RuleWidth) + " \n\n"
    ensures |SectionBreak()| == RuleWidth + 5
    ensures SectionBreak()[0] == '\n'
    ensures forall i :: 2 <= i < 2 + RuleWidth ==> SectionBreak()[i] == '-'
  {
    var rule := Repeat('-', RuleWidth);
    assert ["\n", rule, "\n"][1..] == [rule, "\n"];
    assert [rule, "\n"][1..] == ["\n"];
    assert Join([rule, "\n"], ' ') == rule + [' '] + "\n";
    assert Join(["\n", rule, "\n"], ' ') == "\n" + [' '] + (rule + [' '] + "\n");
  }

  // ----- the list of games -------------------------------------------------------

  const HeaderTitle := "Suggested Games: "
  const NumberedTemplate := "{0}.\t{1}"

  /** The printed line for game number n: the number, a full stop and a tab,
      the name, and the line end. */
  function NumberedLine(n: nat, game: string): string
  {
    NatToString(n) + (".\t" + (game + "\n"))
  }

  /** The numbered lines for `games`, numbering from 1. */
  function Numbered(games: seq<string>): (lines: seq<string>)
    ensures |lines| == |games|
    decreases |games|
  {
    if games == [] then []
    else Numbered(games[..|games| - 1]) + [NumberedLine(|games|, games[|games| - 1])]
  }

  /** The header section written before any game is looked up. */
  function Header(games: seq<string>): seq<string>
  {
    [Printed(HeaderTitle)] + Numbered(games)
  }

  /** `template.format(i+1, game)`, printed, is the numbered line for i+1. */
  lemma NumberedLineFormat(n: nat, game: string)
    ensures Printed(Format(NumberedTemplate, [NatToString(n), game])) == NumberedLine(n, game)
  {
    assert NumberedTemplate == [] + (Field(0) + (".\t" + (Field(1) + [])));
    FormatPair([], 0, ".\t", 1, [], [NatToString(n), game]);
    assert Printed(NatToString(n) + (".\t" + (game + []))) == NatToString(n) + (".\t" + (game + "\n"));
  }

  /** Reads a numbered line back: the number before ".\t" and the name after it. */
  function ParseNumberedLine(line: string): Option<(nat, string)>
  {
    var digits := DigitPrefix(line);
    var d := |digits|;
    if d > 0 && |line| >= d + 3 && line[d..d + 2] == ".\t" && line[|line| - 1] == '\n' then
      Some((ParseNat(digits), line[d + 2..|line| - 1]))
    else
      None
  }

  /** A numbered line gives back exactly its number and its game name. */
  lemma NumberedLineRoundTrip(n: nat, game: string)
    ensures ParseNumberedLine(NumberedLine(n, game)) == Some((n, game))
  {
    ParseNatToString(n);
    ParseDigitsLine(NatToString(n), game);
  }

  lemma ParseDigitsLine(num: string, game: string)
    requires IsDigits(num)
    ensures ParseNumberedLine(num + (".\t" + (game + "\n"))) == Some((ParseNat(num), game))
  {
    var rest := ".\t" + (game + "\n");
    var line := num + rest;
    DigitPrefixOf(num, rest);
    assert line[|num|..|num| + 2] == ".\t";
    assert line[|num| + 2..|line| - 1] == game;
  }

  lemma {:induction false} NumberedAt(games: seq<string>, i: nat)
    requires i < |games|
    ensures |Numbered(games)| == |games|
    ensures Numbered(games)[i] == NumberedLine(i + 1, games[i])
    decreases |games|
  {
    var init := games[..|games| - 1];
    if i < |games| - 1 {
      NumberedAt(init, i);
    } else if |games| > 1 {
      NumberedAt(init, 0);
    } else {
      assert init == [];
    }
  }

  /** The header is the title followed by one line per game, in input order,
      duplicates included; line i+1 reads back as (i+1, games[i]). */
  lemma HeaderListsGames(games: seq<string>)
    ensures |Header(games)| == |games| + 1
    ensures Header(games)[0] == "Suggested Games: \n"
    ensures forall i :: 0 <= i < |games| ==> ParseNumberedLine(Header(games)[i + 1]) == Some((i + 1, games[i]))
  {
    if games == [] {
      assert Header(games) == [Printed(HeaderTitle)];
    }
    forall i | 0 <= i < |games|
      ensures |Header(games)| == |games| + 1
      ensures ParseNumberedLine(Header(games)[i + 1]) == Some((i + 1, games[i]))
    {
      NumberedAt(games, i);
      NumberedLineRoundTrip(i + 1, games[i]);
    }
  }

  // ----- the field lines of one game ------------------------------------------------

  const StatTemplate := "Game: {0}\t{1}:\t{2}\n"

  /** The labels of the six field lines, in the order they are written. */
  const Labels := ["BGG URL", "BGG Board Game Ranking", "Players", "Play time", "Description", "Additional Notes"]

  /** `str(value)`: a missing value is written as Python writes None. */
  function Show(value: Option<string>): string
  {
    match value
    case Some(s) => s
    case None => "None"
  }

  /** The printed field line for a heading: the prefix naming the game and the
      heading, the value, and two line ends (the template's and print's). */
  function StatLine(game: string, heading: string, value: Option<string>): string
  {
    StatPrefix(game, heading) + (Show(value) + "\n\n")
  }

  /** `notes.get(game, None)`: the note given for exactly this game name. */
  function NoteFor(notes: map<string, string>, game: string): Option<string>
  {
    if game in notes then Some(notes[game]) else None
  }

  /** The field lines for headings and values taken pairwise, in order. */
  function StatLines(game: string, headings: seq<string>, values: seq<Option<string>>): (lines: seq<string>)
    requires |headings| == |values|
    ensures |lines| == |headings|
  {
    if headings == [] then []
    else [StatLine(game, headings[0], values[0])] + StatLines(game, headings[1..], values[1..])
  }

  /** output_stats: the six field lines of one game, one per heading and value. */
  function OutputStats(game: string, playerNum: Option<string>, playTime: Option<string>,
                       rank: Option<string>, description: Option<string>,
                       notes: map<string, string>, topMatch: string): seq<string>
  {
    StatLines(game, Labels, StatValues(playerNum, playTime, rank, description, NoteFor(notes, game), topMatch))
  }

  /** The text a field line starts with. */
  function StatPrefix(game: string, heading: string): string
  {
    "Game: " + (game + ("\t" + (heading + ":\t")))
  }

  /** `template.format(game, heading, value)`, printed, is the field line. */
  lemma StatLineFormat(game: string, heading: string, value: Option<string>)
    ensures Printed(Format(StatTemplate, [game, heading, Show(value)])) == StatLine(game, heading, value)
  {
    var v := Show(value);
    var template := "Game: " + (Field(0) + ("\t" + (Field(1) + (":\t" + (Field(2) + "\n")))));
    assert StatTemplate == template;
    FormatThree("Game: ", "\t", ":\t", "\n", [game, heading, v]);
    StatBodyRegroup(game, heading, v);
  }

  lemma StatBodyRegroup(game: string, heading: string, v: string)
    ensures Printed("Game: " + (game + ("\t" + (heading + (":\t" + (v + "\n"))))))
            == StatPrefix(game, heading) + (v + "\n\n")
  {
    var h := heading + ":\t";
    assert heading + (":\t" + (v + "\n")) == h + (v + "\n");
    var g := "\t" + h;
    assert "\t" + (h + (v + "\n")) == g + (v + "\n");
    var f := game + g;
    assert game + (g + (v + "\n")) == f + (v + "\n");
    var p := "Game: " + f;
    assert "Game: " + (f + (v + "\n")) == p + (v + "\n");
    assert (p + (v + "\n")) + "\n" == p + (v + "\n\n");
  }

  /** Reads the value back out of the line written for `game` and `heading`. */
  function ParseStatLine(line: string, game: string, heading: string): Option<string>
  {
    var prefix := StatPrefix(game, heading);
    if |line| >= |prefix| + 2 && line[..|prefix|] == prefix && line[|line| - 2..] == "\n\n" then
      Some(line[|prefix|..|line| - 2])
    else
      None
  }

  /** A field line gives back the text of its value verbatim. */
  lemma StatLineRoundTrip(game: string, heading: string, value: Option<string>)
    ensures ParseStatLine(StatLine(game, heading, value), game, heading) == Some(Show(value))
  {
    var prefix := StatPrefix(game, heading);
    var v := Show(value);
    var line := prefix + (v + "\n\n");
    assert line[..|prefix|] == prefix;
    assert line[|prefix|..|line| - 2] == v;
    assert line[|line| - 2..] == "\n\n";
  }

  /** The values of a game's field lines, in heading order. */
  function StatValues(playerNum: Option<string>, playTime: Option<string>, rank: Option<string>,
                      description: Option<string>, note: Option<string>, topMatch: string): seq<Option<string>>
  {
    [Some(topMatch), rank, playerNum, playTime, description, note]
  }

  /** Line k of the field lines is the one for heading k and value k. */
  lemma {:induction false} StatLinesAt(game: string, headings: seq<string>, values: seq<Option<string>>, k: nat)
    requires |headings| == |values| && k < |headings|
    ensures StatLines(game, headings, values)[k] == StatLine(game, headings[k], values[k])
    decreases k
  {
    var first := StatLine(game, headings[0], values[0]);
    var rest := StatLines(game, headings[1..], values[1..]);
    assert StatLines(game, headings, values) == [first] + rest;
    if k > 0 {
      StatLinesAt(game, headings[1..], values[1..], k - 1);
      assert rest[k - 1] == StatLine(game, headings[k], values[k]);
    }
  }

  /** Line k of output_stats is the field line for heading k and value k. */
  lemma OutputStatsLines(game: string, playerNum: Option<string>, playTime: Option<string>,
                         rank: Option<string>, description: Option<string>,
                         notes: map<string, string>, topMatch: string)
    ensures var lines := OutputStats(game, playerNum, playTime, rank, description, notes, topMatch);
      var values := StatValues(playerNum, playTime, rank, description, NoteFor(notes, game), topMatch);
      && |lines| == |Labels| == |values| == 6
      && forall k :: 0 <= k < 6 ==> lines[k] == StatLine(game, Labels[k], values[k])
  {
    var values := StatValues(playerNum, playTime, rank, description, NoteFor(notes, game), topMatch);
    forall k | 0 <= k < 6
      ensures StatLines(game, Labels, values)[k] == StatLine(game, Labels[k], values[k])
    {
      StatLinesAt(game, Labels, values, k);
    }
  }

  /** output_stats writes six lines, one per heading in the fixed order, each
      naming the game and reading back as its value, or as "None" when the
      value is absent; no line is left out. */
  lemma OutputStatsLayout(game: string, playerNum: Option<string>, playTime: Option<string>,
                          rank: Option<string>, description: Option<string>,
                          notes: map<string, string>, topMatch: string)
    ensures var lines := OutputStats(game, playerNum, playTime, rank, description, notes, topMatch);
      var values := StatValues(playerNum, playTime, rank, description, NoteFor(notes, game), topMatch);
      && |lines| == |Labels| == 6
      && forall k :: 0 <= k < 6 ==> ParseStatLine(lines[k], game, Labels[k]) == Some(Show(values[k]))
  {
    var lines := OutputStats(game, playerNum, playTime, rank, description, notes, topMatch);
    var values := StatValues(playerNum, playTime, rank, description, NoteFor(notes, game), topMatch);
    OutputStatsLines(game, playerNum, playTime, rank, description, notes, topMatch);
    forall k | 0 <= k < 6
      ensures ParseStatLine(lines[k], game, Labels[k]) == Some(Show(values[k]))
    {
      StatLineRoundTrip(game, Labels[k], values[k]);
    }
  }

  /** One print call of output_stats: `template.format(game, heading, value)`. */
  method WriteStat(game: string, heading: string, value: Option<string>) returns (line: string)
    ensures line == StatLine(game, heading, value)
  {
    var template := StatTemplate;
    line := Printed(Format(template, [game, heading, Show(value)]));
    StatLineFormat(game, heading, value);
  }

  /** output_stats, one print call after the other. */
  method WriteStats(game: string, playerNum: Option<string>, playTime: Option<string>,
                    rank: Option<string>, description: Option<string>,
                    notes: map<string, string>, topMatch: string)
    returns (lines: seq<string>)
    ensures lines == OutputStats(game, playerNum, playTime, rank, description, notes, topMatch)
  {
    var note := NoteFor(notes, game);
    var url := WriteStat(game, Labels[0], Some(topMatch));
    var ranking := WriteStat(game, Labels[1], rank);
    var players := WriteStat(game, Labels[2], playerNum);
    var time := WriteStat(game, Labels[3], playTime);
    var desc := WriteStat(game, Labels[4], description);
    var extra := WriteStat(game, Labels[5], note);
    lines := [url, ranking, players, time, desc, extra];
    var values := StatValues(playerNum, playTime, rank, description, note, topMatch);
    OutputStatsLines(game, playerNum, playTime, rank, description, notes, topMatch);
    var expected := OutputStats(game, playerNum, playTime, rank, description, notes, topMatch);
    forall k | 0 <= k < 6
      ensures lines[k] == expected[k]
    {
      if k == 0 {
      } else if k == 1 {
      } else if k == 2 {
      } else if k == 3 {
      } else if k == 4 {
      } else {
        assert k == 5;
      }
    }
  }
}
