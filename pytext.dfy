/** The Python string operations the script relies on, restricted to ASCII:
    whitespace is the ten ASCII characters str.isspace accepts and a digit is
    '0'..'9'. */
module PyText {

  /** An ASCII character str.strip and str.split() treat as whitespace: space,
      tab, line feed, vertical tab, form feed, carriage return and the four
      separators 0x1C..0x1F. */
  predicate IsSpace(c: char)
  {
    c == ' ' || '\t' <= c <= '\r' || '\U{001C}' <= c <= '\U{001F}'
  }

  predicate IsDigit(c: char)
  {
    '0' <= c <= '9'
  }

  /** str.isdigit: non-empty and made of digits only. */
  predicate IsDigits(s: string)
  {
    |s| > 0 && forall i :: 0 <= i < |s| ==> IsDigit(s[i])
  }

  /** `s[:1].isdigit()`: the first character exists and is a digit. */
  predicate LeadsWithDigit(s: string)
  {
    IsDigits(s[..if |s| < 1 then |s| else 1])
  }

  lemma LeadsWithDigitFirst(s: string)
    ensures LeadsWithDigit(s) <==> |s| > 0 && IsDigit(s[0])
  {
  }

  // ----- strip -------------------------------------------------------------

  /** str.lstrip(): drop the leading whitespace. */
  function LStrip(s: string): string
    decreases |s|
  {
    if |s| > 0 && IsSpace(s[0]) then LStrip(s[1..]) else s
  }

  /** lstrip removes the leading whitespace and only that. */
  lemma {:induction false} LStripSpec(s: string)
    ensures var r := LStrip(s);
      && |r| <= |s| && r == s[|s| - |r|..]
      && (forall k :: 0 <= k < |s| - |r| ==> IsSpace(s[k]))
      && (r == [] || !IsSpace(r[0]))
    decreases |s|
  {
    if |s| > 0 && IsSpace(s[0]) {
      LStripSpec(s[1..]);
    }
  }

  /** str.rstrip(): drop the trailing whitespace. */
  function RStrip(s: string): string
    decreases |s|
  {
    if |s| > 0 && IsSpace(s[|s| - 1]) then RStrip(s[..|s| - 1]) else s
  }

  /** rstrip removes the trailing whitespace and only that. */
  lemma {:induction false} RStripSpec(s: string)
    ensures var r := RStrip(s);
      && |r| <= |s| && r == s[..|r|]
      && (forall k :: |r| <= k < |s| ==> IsSpace(s[k]))
      && (r == [] || !IsSpace(r[|r| - 1]))
    decreases |s|
  {
    if |s| > 0 && IsSpace(s[|s| - 1]) {
      RStripSpec(s[..|s| - 1]);
    }
  }

  /** str.strip(): drop whitespace at both ends. */
  function Strip(s: string): string
  {
    LStrip(RStrip(s))
  }

  /** What is left after strip is the part of `s` between its leading and its
      trailing whitespace, and it neither starts nor ends with whitespace. */
  lemma StripIsTrim(s: string)
    ensures var r := Strip(s); var i := |RStrip(s)| - |r|;
      && 0 <= i <= |s| - |r| && r == s[i..i + |r|]
      && (forall k :: 0 <= k < i ==> IsSpace(s[k]))
      && (forall k :: i + |r| <= k < |s| ==> IsSpace(s[k]))
    ensures Strip(s) == [] || (!IsSpace(Strip(s)[0]) && !IsSpace(Strip(s)[|Strip(s)| - 1]))
  {
    var t := RStrip(s);
    var r := LStrip(t);
    RStripSpec(s);
    LStripSpec(t);
    var i := |t| - |r|;
    assert r == s[i..i + |r|] by {
      assert t == s[..|t|];
      assert r == t[i..];
    }
    forall k | 0 <= k < i
      ensures IsSpace(s[k])
    {
      assert IsSpace(t[k]);
      assert t[k] == s[k];
    }
    if r != [] {
      assert r[|r| - 1] == t[|t| - 1];
    }
  }

  /** `text.strip().rstrip()` and `text.rstrip().strip()`, as the script writes
      them, both equal a single strip. */
  lemma StripCompositions(s: string)
    ensures RStrip(Strip(s)) == Strip(s)
    ensures Strip(RStrip(s)) == Strip(s)
  {
    var t := RStrip(s);
    RStripSpec(s);
    assert RStrip(t) == t;
    var r := LStrip(t);
    LStripSpec(t);
    if r != [] {
      assert r[|r| - 1] == t[|t| - 1];
    }
  }

  // ----- split on a separator -----------------------------------------------

  /** Number of occurrences of `c` in `s`. */
  function Count(s: string, c: char): nat
    decreases |s|
  {
    if s == [] then 0 else (if s[0] == c then 1 else 0) + Count(s[1..], c)
  }

  /** str.split(sep) for a one-character separator: every occurrence cuts, so
      there is always one part more than there are separators. */
  function Split(s: string, sep: char): (parts: seq<string>)
    ensures |parts| == Count(s, sep) + 1
    ensures forall p :: p in parts ==> sep !in p
    decreases |s|
  {
    if |s| == 0 then [""]
    else
      var rest := Split(s[1..], sep);
      if s[0] == sep then [""] + rest
      else [[s[0]] + rest[0]] + rest[1..]
  }

  /** sep.join(parts). */
  function Join(parts: seq<string>, sep: char): string
    requires |parts| >= 1
    decreases |parts|
  {
    if |parts| == 1 then parts[0] else parts[0] + [sep] + Join(parts[1..], sep)
  }

  /** Splitting loses nothing: joining the parts back gives the input. */
  lemma {:induction false} SplitJoin(s: string, sep: char)
    ensures Join(Split(s, sep), sep) == s
    decreases |s|
  {
    if |s| > 0 {
      var rest := Split(s[1..], sep);
      SplitJoin(s[1..], sep);
      if s[0] == sep {
        assert ([""] + rest)[1..] == rest;
      } else {
        var parts := [[s[0]] + rest[0]] + rest[1..];
        if |rest| > 1 {
          assert parts[1..] == rest[1..];
          assert Join(rest, sep) == rest[0] + [sep] + Join(rest[1..], sep);
        }
        assert s == [s[0]] + s[1..];
      }
    }
  }

  // ----- split on whitespace --------------------------------------------------

  /** s[a..b] is a maximal run of non-whitespace: it is non-empty, holds no
      whitespace, and has whitespace or an end of s on either side. */
  predicate IsRun(s: string, a: nat, b: nat)
  {
    && a < b <= |s|
    && (forall k :: a <= k < b ==> !IsSpace(s[k]))
    && (a == 0 || IsSpace(s[a - 1]))
    && (b == |s| || IsSpace(s[b]))
  }

  /** Position i of s is not inside a run: no run starts before i and goes on
      at i. */
  predicate Boundary(s: string, i: nat)
  {
    i == 0 || i >= |s| || IsSpace(s[i - 1]) || IsSpace(s[i])
  }

  /** Where the run of non-whitespace that starts at i ends. */
  function RunEnd(s: string, i: nat): (b: nat)
    requires i <= |s|
    ensures i <= b <= |s|
    ensures forall k :: i <= k < b ==> !IsSpace(s[k])
    ensures b == |s| || IsSpace(s[b])
    decreases |s| - i
  {
    if i < |s| && !IsSpace(s[i]) then RunEnd(s, i + 1) else i
  }

  /** The runs of non-whitespace at or after position i, as (start, end) pairs,
      in the order they occur. */
  function SpansFrom(s: string, i: nat): (spans: seq<(nat, nat)>)
    requires i <= |s| && Boundary(s, i)
    ensures forall k :: 0 <= k < |spans| ==> i <= spans[k].0 && IsRun(s, spans[k].0, spans[k].1)
    ensures forall k, l :: 0 <= k < l < |spans| ==> spans[k].1 <= spans[l].0
    decreases |s| - i
  {
    if i == |s| then []
    else if IsSpace(s[i]) then SpansFrom(s, i + 1)
    else
      var b := RunEnd(s, i);
      var rest := SpansFrom(s, b);
      assert forall k :: 0 <= k < |rest| ==> b <= rest[k].0;
      [(i, b)] + rest
  }

  /** The runs of non-whitespace of s, in order. */
  function Spans(s: string): seq<(nat, nat)>
  {
    SpansFrom(s, 0)
  }

  /** str.split() with no argument: the text of each run of non-whitespace. */
  function Tokens(s: string): (toks: seq<string>)
    ensures |toks| == |Spans(s)|
    ensures forall t :: t in toks ==> |t| > 0 && forall k :: 0 <= k < |t| ==> !IsSpace(t[k])
  {
    var spans := Spans(s);
    seq(|spans|, k requires 0 <= k < |spans| => s[spans[k].0..spans[k].1])
  }

  /** Every run at or after a boundary i is among the spans from i. */
  lemma {:induction false} RunInSpansFrom(s: string, i: nat, a: nat, b: nat)
    requires i <= a && Boundary(s, i) && IsRun(s, a, b)
    ensures (a, b) in SpansFrom(s, i)
    decreases |s| - i
  {
    if IsSpace(s[i]) {
      RunInSpansFrom(s, i + 1, a, b);
    } else if i < a {
      var e := RunEnd(s, i);
      assert e < a;
      RunInSpansFrom(s, e, a, b);
    } else {
      assert RunEnd(s, i) == b;
    }
  }

  /** str.split() gives exactly the maximal runs of non-whitespace of s: each
      token is the text of a run, the runs come in the order they occur, and
      no run is left out. */
  lemma TokensAreRuns(s: string)
    ensures |Tokens(s)| == |Spans(s)|
    ensures forall k :: 0 <= k < |Spans(s)| ==>
              IsRun(s, Spans(s)[k].0, Spans(s)[k].1) && Tokens(s)[k] == s[Spans(s)[k].0..Spans(s)[k].1]
    ensures forall k, l :: 0 <= k < l < |Spans(s)| ==> Spans(s)[k].1 <= Spans(s)[l].0
    ensures forall a: nat, b: nat :: IsRun(s, a, b) ==> (a, b) in Spans(s)
  {
    forall a: nat, b: nat | IsRun(s, a, b)
      ensures (a, b) in Spans(s)
    {
      RunInSpansFrom(s, 0, a, b);
    }
  }

  // ----- substring ------------------------------------------------------------

  predicate StartsWith(s: string, p: string)
  {
    |p| <= |s| && s[..|p|] == p
  }

  /** `p in s` for strings. */
  predicate Contains(s: string, p: string)
    decreases |s|
  {
    StartsWith(s, p) || (|s| > 0 && Contains(s[1..], p))
  }

  // ----- ASCII filter -----------------------------------------------------------

  predicate IsAscii(c: char)
  {
    c as int < 128
  }

  predicate AllAscii(s: string)
  {
    forall i :: 0 <= i < |s| ==> IsAscii(s[i])
  }

  /** `s.encode("ascii", "ignore").decode()`: every non-ASCII character dropped. */
  function AsciiOnly(s: string): (r: string)
    ensures AllAscii(r)
    ensures |r| <= |s|
    decreases |s|
  {
    if s == [] then []
    else (if IsAscii(s[0]) then [s[0]] else []) + AsciiOnly(s[1..])
  }

  /** `a` can be obtained from `b` by deleting characters. */
  predicate IsSubsequence(a: string, b: string)
    decreases |b|
  {
    a == [] || (|b| > 0 && ((a[0] == b[0] && IsSubsequence(a[1..], b[1..])) || IsSubsequence(a, b[1..])))
  }

  /** The filter only deletes characters; it never reorders or invents any. */
  lemma {:induction false} AsciiOnlyIsSubsequence(s: string)
    ensures IsSubsequence(AsciiOnly(s), s)
    decreases |s|
  {
    if s != [] {
      AsciiOnlyIsSubsequence(s[1..]);
      var a := AsciiOnly(s);
      if IsAscii(s[0]) {
        assert a == [s[0]] + AsciiOnly(s[1..]);
        assert a[0] == s[0] && a[1..] == AsciiOnly(s[1..]);
      } else {
        assert a == AsciiOnly(s[1..]);
      }
    }
  }

  /** The filter leaves a string unchanged exactly when it is pure ASCII. */
  lemma {:induction false} AsciiOnlyIdentity(s: string)
    ensures AsciiOnly(s) == s <==> AllAscii(s)
    decreases |s|
  {
    if s != [] {
      AsciiOnlyIdentity(s[1..]);
      if !IsAscii(s[0]) {
        assert |AsciiOnly(s)| < |s|;
      } else if AllAscii(s) {
        assert AllAscii(s[1..]);
      }
    }
  }

  /** Filtering twice is filtering once. */
  lemma AsciiOnlyIdempotent(s: string)
    ensures AsciiOnly(AsciiOnly(s)) == AsciiOnly(s)
  {
    AsciiOnlyIdentity(AsciiOnly(s));
  }

  /** Every ASCII character is kept as often as it occurs, and nothing else is. */
  lemma {:induction false} AsciiOnlyKeepsAscii(s: string, c: char)
    ensures Count(AsciiOnly(s), c) == if IsAscii(c) then Count(s, c) else 0
    decreases |s|
  {
    if s != [] {
      AsciiOnlyKeepsAscii(s[1..], c);
      CountAppend(if IsAscii(s[0]) then [s[0]] else [], AsciiOnly(s[1..]), c);
    }
  }

  lemma {:induction false} CountAppend(a: string, b: string, c: char)
    ensures Count(a + b, c) == Count(a, c) + Count(b, c)
    decreases |a|
  {
    if a != [] {
      assert (a + b)[0] == a[0];
      assert (a + b)[1..] == a[1..] + b;
      CountAppend(a[1..], b, c);
      assert Count(a + b, c) == (if a[0] == c then 1 else 0) + Count(a[1..] + b, c);
    } else {
      assert a + b == b;
    }
  }

  // ----- decimal numerals ---------------------------------------------------------

  function DigitChar(d: nat): (c: char)
    requires d < 10
    ensures IsDigit(c)
  {
    ('0' as int + d) as char
  }

  function DigitValue(c: char): nat
    requires IsDigit(c)
  {
    c as int - '0' as int
  }

  /** str(n) for a natural number n. */
  function NatToString(n: nat): (s: string)
    ensures IsDigits(s)
    ensures s[0] == '0' <==> n == 0
    ensures |s| == 1 || s[0] != '0'
    decreases n
  {
    if n < 10 then [DigitChar(n)] else NatToString(n / 10) + [DigitChar(n % 10)]
  }

  /** int(s) for a string of digits. */
  function ParseNat(s: string): nat
    requires forall i :: 0 <= i < |s| ==> IsDigit(s[i])
    decreases |s|
  {
    if s == [] then 0 else 10 * ParseNat(s[..|s| - 1]) + DigitValue(s[|s| - 1])
  }

  /** Reading back a formatted number gives the number. */
  lemma {:induction false} ParseNatToString(n: nat)
    ensures ParseNat(NatToString(n)) == n
    decreases n
  {
    var s := NatToString(n);
    if n >= 10 {
      ParseNatToString(n / 10);
      assert s[..|s| - 1] == NatToString(n / 10);
    } else {
      assert s[..0] == [];
    }
  }

  /** The longest prefix of `s` made of digits. */
  function DigitPrefix(s: string): (d: string)
    ensures |d| <= |s| && d == s[..|d|]
    ensures forall i :: 0 <= i < |d| ==> IsDigit(d[i])
    decreases |s|
  {
    if |s| > 0 && IsDigit(s[0]) then [s[0]] + DigitPrefix(s[1..]) else []
  }

  /** A run of digits followed by a non-digit is read back as exactly that run. */
  lemma {:induction false} DigitPrefixOf(d: string, rest: string)
    requires forall i :: 0 <= i < |d| ==> IsDigit(d[i])
    requires rest == [] || !IsDigit(rest[0])
    ensures DigitPrefix(d + rest) == d
    decreases |d|
  {
    if d != [] {
      assert (d + rest)[1..] == d[1..] + rest;
      DigitPrefixOf(d[1..], rest);
    }
  }

  // ----- str.format ------------------------------------------------------------------

  /** `template.format(*args)` for templates whose replacement fields are all of
      the form {d}, d a single digit below |args|; every other character is
      copied. The substituted text is not itself scanned for fields. */
  function Format(template: string, args: seq<string>): string
    decreases |template|
  {
    if template == [] then []
    else if |template| >= 3 && template[0] == '{' && IsDigit(template[1])
            && DigitValue(template[1]) < |args| && template[2] == '}' then
      args[DigitValue(template[1])] + Format(template[3..], args)
    else [template[0]] + Format(template[1..], args)
  }

  /** Text without braces is copied unchanged. */
  lemma {:induction false} FormatLiteral(lit: string, rest: string, args: seq<string>)
    requires '{' !in lit
    ensures Format(lit + rest, args) == lit + Format(rest, args)
    decreases |lit|
  {
    if lit != [] {
      assert (lit + rest)[0] == lit[0];
      assert (lit + rest)[1..] == lit[1..] + rest;
      FormatLiteral(lit[1..], rest, args);
      assert lit == [lit[0]] + lit[1..];
    } else {
      assert lit + rest == rest;
    }
  }

  /** A field {i} is replaced by the i-th argument. */
  lemma FormatField(i: nat, rest: string, args: seq<string>)
    requires i < |args| && i < 10
    ensures Format(Field(i) + rest, args) == args[i] + Format(rest, args)
  {
    var t := Field(i) + rest;
    assert t[3..] == rest;
  }

  /** The replacement field {i}. */
  function Field(i: nat): string
    requires i < 10
  {
    ['{', DigitChar(i), '}']
  }

  /** A template without fields is its own result. */
  lemma FormatEnd(c: string, args: seq<string>)
    requires '{' !in c
    ensures Format(c, args) == c
  {
    FormatLiteral(c, [], args);
    assert c + [] == c;
  }

  /** Brace-free text followed by the field {i}. */
  lemma FormatTextField(a: string, i: nat, rest: string, args: seq<string>)
    requires i < |args| && i < 10 && '{' !in a
    ensures Format(a + (Field(i) + rest), args) == a + (args[i] + Format(rest, args))
  {
    FormatLiteral(a, Field(i) + rest, args);
    FormatField(i, rest, args);
  }

  /** One field {i} between brace-free text. */
  lemma FormatOne(a: string, i: nat, c: string, args: seq<string>)
    requires i < |args| && i < 10 && '{' !in a && '{' !in c
    ensures Format(a + (Field(i) + c), args) == a + (args[i] + c)
  {
    FormatTextField(a, i, c, args);
    FormatEnd(c, args);
  }

  /** Two fields {i} and {j} between brace-free text. */
  lemma FormatPair(a: string, i: nat, b: string, j: nat, c: string, args: seq<string>)
    requires i < |args| && j < |args| && i < 10 && j < 10
    requires '{' !in a && '{' !in b && '{' !in c
    ensures Format(a + (Field(i) + (b + (Field(j) + c))), args) == a + (args[i] + (b + (args[j] + c)))
  {
    var t1 := b + (Field(j) + c);
    FormatTextField(a, i, t1, args);
    FormatTextField(b, j, c, args);
    FormatEnd(c, args);
  }

  /** A template with the fields {0}, {1} and {2} between brace-free text. */
  lemma FormatThree(a: string, b: string, c: string, d: string, args: seq<string>)
    requires |args| == 3 && '{' !in a && '{' !in b && '{' !in c && '{' !in d
    ensures Format(a + (Field(0) + (b + (Field(1) + (c + (Field(2) + d))))), args)
            == a + (args[0] + (b + (args[1] + (c + (args[2] + d)))))
  {
    var t1 := b + (Field(1) + (c + (Field(2) + d)));
    FormatTextField(a, 0, t1, args);
    FormatPair(b, 1, c, 2, d, args);
  }
}
