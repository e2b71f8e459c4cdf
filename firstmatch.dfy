/** The search shape shared by every field lookup of the script: walk a
    sequence in document order and stop at the first element that yields a
    value (a `for` loop with an early `return`, falling off the end to None). */
module FirstMatch {
  import opened Wrappers

  /** The value of the first element of `s` for which `f` yields something. */
  function FirstSome<T, U>(s: seq<T>, f: T -> Option<U>): Option<U>
    decreases |s|
  {
    if s == [] then None
    else if f(s[0]).Some? then f(s[0])
    else FirstSome(s[1..], f)
  }

  /** Nothing is found exactly when no element yields a value. */
  lemma {:induction false} FirstSomeNone<T, U>(s: seq<T>, f: T -> Option<U>)
    ensures FirstSome(s, f).None? <==> forall i :: 0 <= i < |s| ==> f(s[i]).None?
    decreases |s|
  {
    if s != [] {
      FirstSomeNone(s[1..], f);
      assert forall i :: 1 <= i < |s| ==> s[i] == s[1..][i - 1];
    }
  }

  /** When element `i` is the first to yield a value, that value is the result. */
  lemma {:induction false} FirstSomeAt<T, U>(s: seq<T>, f: T -> Option<U>, i: nat)
    requires i < |s| && f(s[i]).Some?
    requires forall j :: 0 <= j < i ==> f(s[j]).None?
    ensures FirstSome(s, f) == f(s[i])
    decreases i
  {
    if i > 0 {
      assert f(s[0]).None?;
      assert s[1..][i - 1] == s[i];
      FirstSomeAt(s[1..], f, i - 1);
    }
  }

  /** Whatever is found was yielded by some element, and by the first one that
      yields anything. */
  lemma {:induction false} FirstSomeWitness<T, U>(s: seq<T>, f: T -> Option<U>)
    requires FirstSome(s, f).Some?
    ensures exists i :: 0 <= i < |s| && f(s[i]) == FirstSome(s, f)
                        && forall j :: 0 <= j < i ==> f(s[j]).None?
    decreases |s|
  {
    if f(s[0]).Some? {
      assert f(s[0]) == FirstSome(s, f);
    } else {
      FirstSomeWitness(s[1..], f);
      var i :| 0 <= i < |s[1..]| && f(s[1..][i]) == FirstSome(s[1..], f)
               && forall j :: 0 <= j < i ==> f(s[1..][j]).None?;
      assert f(s[i + 1]) == FirstSome(s, f);
      assert forall j :: 1 <= j < i + 1 ==> s[j] == s[1..][j - 1];
    }
  }

  /** One step of a scan: skipping an element that yields nothing changes nothing. */
  lemma FirstSomeStep<T, U>(s: seq<T>, f: T -> Option<U>, i: nat)
    requires i < |s|
    ensures FirstSome(s[i..], f) == if f(s[i]).Some? then f(s[i]) else FirstSome(s[i + 1..], f)
  {
    assert s[i..][0] == s[i];
    assert s[i..][1..] == s[i + 1..];
  }
}
