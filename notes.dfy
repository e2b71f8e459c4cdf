/** get_notes: the "Name:Note" strings given with -a, turned into a dictionary
    from game name to note. */
module Notes {
  import opened Wrappers
  import opened PyText
  import opened Failures

  /** `key, value = note.split(":")`: the unpacking succeeds only when the
      split gives exactly two parts, i.e. when the note holds exactly one ':'. */
  function ParseNote(note: string): (r: Result<(string, string), Failure>)
    ensures r.Success? <==> Count(note, ':') == 1
    ensures r.Failure? ==> r.error == MalformedNote(note)
    ensures r.Success? ==> r.value.0 + ":" + r.value.1 == note
    ensures r.Success? ==> ':' !in r.value.0 && ':' !in r.value.1
  {
    var parts := Split(note, ':');
    if |parts| == 2 then
      SplitJoin(note, ':');
      assert parts[1..] == [parts[1]];
      Success((parts[0], parts[1]))
    else
      Failure(MalformedNote(note))
  }

  /** The dictionary built by the loop after the notes in `notes`, or the error
      raised by the first malformed one. Later notes overwrite earlier ones. */
  function Collect(notes: seq<string>): Result<map<string, string>, Failure>
    decreases |notes|
  {
    if notes == [] then Success(map[])
    else
      match Collect(notes[..|notes| - 1])
      case Failure(e) => Failure(e)
      case Success(d) =>
        match ParseNote(notes[|notes| - 1])
        case Failure(e) => Failure(e)
        case Success((key, value)) => Success(d[key := value])
  }

  /** get_notes: None and the empty list both give the empty dictionary. */
  function NotesOf(additionalNotes: Option<seq<string>>): Result<map<string, string>, Failure>
  {
    match additionalNotes
    case None => Success(map[])
    case Some(notes) => if notes == [] then Success(map[]) else Collect(notes)
  }

  /** The loop of get_notes, over the notes in order. */
  method GetNotes(additionalNotes: Option<seq<string>>) returns (r: Result<map<string, string>, Failure>)
    ensures r == NotesOf(additionalNotes)
  {
    if additionalNotes.None? || additionalNotes.value == [] {
      return Success(map[]);
    }
    var notes := additionalNotes.value;
    var d: map<string, string> := map[];
    for i := 0 to |notes|
      invariant Collect(notes[..i]) == Success(d)
    {
      assert notes[..i + 1][..i] == notes[..i];
      var parsed := ParseNote(notes[i]);
      if parsed.Failure? {
        CollectFailureSticks(notes, i + 1);
        return Failure(parsed.error);
      }
      d := d[parsed.value.0 := parsed.value.1];
    }
    assert notes[..|notes|] == notes;
    r := Success(d);
  }

  /** Once a prefix of the notes has failed, the whole list fails the same way. */
  lemma {:induction false} CollectFailureSticks(notes: seq<string>, n: nat)
    requires n <= |notes| && Collect(notes[..n]).Failure?
    ensures Collect(notes) == Collect(notes[..n])
    decreases |notes| - n
  {
    if n < |notes| {
      assert notes[..n + 1][..n] == notes[..n];
      CollectFailureSticks(notes, n + 1);
    } else {
      assert notes[..n] == notes;
    }
  }

  /** The notes fail exactly when one of them does not hold exactly one ':',
      and the error names the first such note. */
  lemma {:induction false} CollectFailsOnFirstMalformed(notes: seq<string>)
    ensures Collect(notes).Failure? <==> exists i :: 0 <= i < |notes| && Count(notes[i], ':') != 1
    ensures Collect(notes).Failure? ==>
      exists i :: 0 <= i < |notes| && Collect(notes).error == MalformedNote(notes[i])
        && Count(notes[i], ':') != 1 && forall j :: 0 <= j < i ==> Count(notes[j], ':') == 1
    decreases |notes|
  {
    if notes != [] {
      var init := notes[..|notes| - 1];
      CollectFailsOnFirstMalformed(init);
      assert forall i :: 0 <= i < |init| ==> init[i] == notes[i];
    }
  }

  /** A note whose key is not overwritten by a later note supplies that key's value. */
  lemma {:induction false} LastNoteWins(notes: seq<string>, d: map<string, string>, i: nat, key: string, value: string)
    requires Collect(notes) == Success(d)
    requires i < |notes| && ParseNote(notes[i]) == Success((key, value))
    requires forall j :: i < j < |notes| ==> ParseNote(notes[j]).Success? ==> ParseNote(notes[j]).value.0 != key
    ensures key in d && d[key] == value
    decreases |notes|
  {
    var init := notes[..|notes| - 1];
    var last := notes[|notes| - 1];
    if i == |notes| - 1 {
    } else {
      match Collect(init)
      case Success(d') =>
        assert forall j :: i < j < |init| ==> init[j] == notes[j];
        LastNoteWins(init, d', i, key, value);
    }
  }

  /** Every key of the dictionary comes from some note, with that note's value. */
  lemma {:induction false} KeysComeFromNotes(notes: seq<string>, d: map<string, string>, key: string)
    requires Collect(notes) == Success(d) && key in d
    ensures exists i :: 0 <= i < |notes| && ParseNote(notes[i]) == Success((key, d[key]))
    decreases |notes|
  {
    var init := notes[..|notes| - 1];
    var last := notes[|notes| - 1];
    match Collect(init)
    case Success(d') =>
      if ParseNote(last).value.0 == key {
        assert ParseNote(notes[|notes| - 1]) == Success((key, d[key]));
      } else {
        KeysComeFromNotes(init, d', key);
        var i :| 0 <= i < |init| && ParseNote(init[i]) == Success((key, d'[key]));
        assert notes[i] == init[i];
      }
  }
}
