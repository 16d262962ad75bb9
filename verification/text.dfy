/** String helpers the batch processor relies on from Python's `str`: whitespace
    stripping, lower-casing, code-point ordering (the order `sorted` uses), list
    rendering, and the sorted sequence of a finite set of strings. */
module Text {
  import opened Common

  /** `c.isspace()` in CPython: the characters of bidirectional class WS, B or S and of
      category Zs. */
  predicate IsSpace(c: char) {
    || ('\t' <= c <= '\r')
    || ('\U{001C}' <= c <= '\U{001F}')
    || c == ' '
    || c == '\U{0085}'
    || c == '\U{00A0}'
    || c == '\U{1680}'
    || ('\U{2000}' <= c <= '\U{200A}')
    || c == '\U{2028}'
    || c == '\U{2029}'
    || c == '\U{202F}'
    || c == '\U{205F}'
    || c == '\U{3000}'
  }

  /** True when every character is whitespace (so also for the empty string). */
  predicate IsBlank(s: string) {
    forall i :: 0 <= i < |s| ==> IsSpace(s[i])
  }

  /** `s.lstrip()`. */
  function StripLeft(s: string): (r: string)
    ensures |r| <= |s|
    ensures r == s[|s| - |r|..]
    ensures |r| > 0 ==> !IsSpace(r[0])
    ensures forall i :: 0 <= i < |s| - |r| ==> IsSpace(s[i])
  {
    if |s| > 0 && IsSpace(s[0]) then StripLeft(s[1..]) else s
  }

  /** `s.rstrip()`. */
  function StripRight(s: string): (r: string)
    ensures |r| <= |s|
    ensures r == s[..|r|]
    ensures |r| > 0 ==> !IsSpace(r[|r| - 1])
    ensures forall i :: |r| <= i < |s| ==> IsSpace(s[i])
  {
    if |s| > 0 && IsSpace(s[|s| - 1]) then StripRight(s[..|s| - 1]) else s
  }

  /** `s.strip()`. */
  function Strip(s: string): string {
    StripRight(StripLeft(s))
  }

  /** `not s or not s.strip()` holds exactly for the blank strings. */
  lemma StripEmptyIffBlank(s: string)
    ensures (|s| == 0 || |Strip(s)| == 0) <==> IsBlank(s)
  {
    if IsBlank(s) {
      BlankStripsToEmpty(s);
    } else {
      var k :| 0 <= k < |s| && !IsSpace(s[k]);
      KeptCharacterSurvivesStrip(s, k);
    }
  }

  lemma BlankStripsToEmpty(s: string)
    requires IsBlank(s)
    ensures |StripLeft(s)| == 0
  {
  }

  lemma KeptCharacterSurvivesStrip(s: string, k: int)
    requires 0 <= k < |s| && !IsSpace(s[k])
    ensures |Strip(s)| > 0
  {
    var l := StripLeft(s);
    assert k >= |s| - |l|;
    assert l[k - (|s| - |l|)] == s[k];
  }

  /** `c.lower()` on the ASCII range; other characters are left as they are. */
  function LowerChar(c: char): char {
    if 'A' <= c <= 'Z' then (c as int + 32) as char else c
  }

  function Lower(s: string): (r: string)
    ensures |r| == |s|
    ensures forall i :: 0 <= i < |s| ==> r[i] == LowerChar(s[i])
  {
    if |s| == 0 then "" else [LowerChar(s[0])] + Lower(s[1..])
  }

  function LowerAll(xs: seq<string>): (r: seq<string>)
    ensures |r| == |xs|
    ensures forall i :: 0 <= i < |xs| ==> r[i] == Lower(xs[i])
  {
    if |xs| == 0 then [] else [Lower(xs[0])] + LowerAll(xs[1..])
  }

  function StartsWith(s: string, prefix: string): bool {
    |prefix| <= |s| && s[..|prefix|] == prefix
  }

  /** `a <= b` on Python strings: lexicographic by code point. */
  predicate Below(a: string, b: string)
    decreases |a|
  {
    |a| == 0 || (|b| > 0 && (a[0] < b[0] || (a[0] == b[0] && Below(a[1..], b[1..]))))
  }

  lemma BelowReflexive(a: string)
    ensures Below(a, a)
  {
  }

  lemma BelowAntisymmetric(a: string, b: string)
    requires Below(a, b) && Below(b, a)
    ensures a == b
  {
    if |a| > 0 {
      BelowAntisymmetric(a[1..], b[1..]);
      assert a == [a[0]] + a[1..];
      assert b == [b[0]] + b[1..];
    }
  }

  lemma BelowTransitive(a: string, b: string, c: string)
    requires Below(a, b) && Below(b, c)
    ensures Below(a, c)
  {
    if |a| > 0 && a[0] == b[0] && b[0] == c[0] {
      BelowTransitive(a[1..], b[1..], c[1..]);
    }
  }

  lemma BelowTotal(a: string, b: string)
    ensures Below(a, b) || Below(b, a)
  {
    if |a| > 0 && |b| > 0 && a[0] == b[0] {
      BelowTotal(a[1..], b[1..]);
    }
  }

  predicate IsLeast(m: string, s: set<string>) {
    m in s && forall y :: y in s ==> Below(m, y)
  }

  lemma LeastExists(s: set<string>)
    requires s != {}
    ensures exists m :: IsLeast(m, s)
    decreases |s|
  {
    var x :| x in s;
    if s == {x} {
      BelowReflexive(x);
      assert IsLeast(x, s);
    } else {
      LeastExists(s - {x});
      var m :| IsLeast(m, s - {x});
      BelowTotal(m, x);
      if Below(m, x) {
        assert IsLeast(m, s);
      } else {
        forall y | y in s
          ensures Below(x, y)
        {
          if y == x {
            BelowReflexive(x);
          } else {
            BelowTransitive(x, m, y);
          }
        }
        assert IsLeast(x, s);
      }
    }
  }

  lemma LeastUnique(s: set<string>, m1: string, m2: string)
    requires IsLeast(m1, s) && IsLeast(m2, s)
    ensures m1 == m2
  {
    BelowAntisymmetric(m1, m2);
  }

  lemma LeastUniqueAll(s: set<string>)
    ensures forall m1, m2 :: IsLeast(m1, s) && IsLeast(m2, s) ==> m1 == m2
  {
    forall m1, m2 | IsLeast(m1, s) && IsLeast(m2, s)
      ensures m1 == m2
    {
      LeastUnique(s, m1, m2);
    }
  }

  /** Strictly increasing: sorted with no repeated element. */
  predicate StrictlySorted(r: seq<string>) {
    forall i, j :: 0 <= i < j < |r| ==> Below(r[i], r[j]) && r[i] != r[j]
  }

  lemma PrependLeast(m: string, s: set<string>, rest: seq<string>)
    requires IsLeast(m, s)
    requires forall x :: x in rest <==> x in s - {m}
    requires StrictlySorted(rest)
    ensures StrictlySorted([m] + rest)
  {
    forall j | 0 <= j < |rest|
      ensures Below(m, rest[j]) && m != rest[j]
    {
      assert rest[j] in rest;
    }
  }

  /** `sorted(s)` for a finite set of strings. */
  function SortedSeqOf(s: set<string>): (r: seq<string>)
    ensures forall x :: x in r <==> x in s
    ensures StrictlySorted(r)
    ensures |r| == |s|
    decreases |s|
  {
    if s == {} then []
    else
      LeastExists(s);
      LeastUniqueAll(s);
      var m :| IsLeast(m, s);
      var rest := SortedSeqOf(s - {m});
      PrependLeast(m, s, rest);
      [m] + rest
  }

  /** A string put between single quotes as is, as the f-string `'{s}'` does. */
  function Quote(s: string): (r: string)
    ensures |r| == |s| + 2 && r[0] == '\'' && r[|r| - 1] == '\'' && r[1..|r| - 1] == s
  {
    "'" + s + "'"
  }

  // ---------------------------------------------------------------------------
  // Python's `repr` of a string

  /** The quote `repr` puts around a string: a double quote when the string holds a
      single quote and no double quote, a single quote otherwise. */
  function ReprQuote(s: string): (q: char)
    ensures q == '"' <==> ('\'' in s && '"' !in s)
    ensures q == '\'' || q == '"'
  {
    if '\'' in s && '"' !in s then '"' else '\''
  }

  /** The lower-case hexadecimal digit of a value below 16. */
  function HexDigit(n: int): char
    requires 0 <= n < 16
  {
    if n < 10 then ('0' as int + n) as char else ('a' as int + n - 10) as char
  }

  /** The value of a lower-case hexadecimal digit. */
  function HexValue(c: char): Option<int> {
    if '0' <= c <= '9' then Some(c as int - '0' as int)
    else if 'a' <= c <= 'f' then Some(c as int - 'a' as int + 10)
    else None
  }

  /** A character that `repr` writes with a backslash escape rather than as itself, given
      the quote `q`: the quote, the backslash and the ASCII control characters. */
  predicate Escaped(c: char, q: char) {
    c == q || c == '\\' || c < ' ' || c as int == 0x7F
  }

  /** One character as `repr` writes it between quotes `q`. */
  function ReprChar(c: char, q: char): (r: string)
    ensures !Escaped(c, q) <==> r == [c]
    ensures Escaped(c, q) ==> |r| >= 2 && r[0] == '\\'
  {
    if c == q || c == '\\' then ['\\', c]
    else if c == '\t' then "\\t"
    else if c == '\n' then "\\n"
    else if c == '\r' then "\\r"
    else if c < ' ' || c as int == 0x7F then ['\\', 'x', HexDigit(c as int / 16), HexDigit(c as int % 16)]
    else [c]
  }

  function ReprBody(s: string, q: char): string
    decreases |s|
  {
    if s == [] then [] else ReprChar(s[0], q) + ReprBody(s[1..], q)
  }

  /** `repr(s)` of a Python `str`. */
  function Repr(s: string): (r: string)
    ensures |r| >= 2 && r[0] == r[|r| - 1] == ReprQuote(s)
  {
    [ReprQuote(s)] + ReprBody(s, ReprQuote(s)) + [ReprQuote(s)]
  }

  /** Reads back the body of a string literal quoted with `q`: the escapes `repr` writes
      are undone; a bare quote, a dangling backslash or an unknown escape is refused. */
  function Unescape(t: string, q: char): Option<string>
    decreases |t|
  {
    if t == [] then Some([])
    else if t[0] == q then None
    else if t[0] != '\\' then Cons(t[0], Unescape(t[1..], q))
    else if |t| < 2 then None
    else if t[1] == q || t[1] == '\\' then Cons(t[1], Unescape(t[2..], q))
    else if t[1] == 't' then Cons('\t', Unescape(t[2..], q))
    else if t[1] == 'n' then Cons('\n', Unescape(t[2..], q))
    else if t[1] == 'r' then Cons('\r', Unescape(t[2..], q))
    else if t[1] == 'x' && |t| >= 4 && HexValue(t[2]).Some? && HexValue(t[3]).Some? then
      Cons((HexValue(t[2]).value * 16 + HexValue(t[3]).value) as char, Unescape(t[4..], q))
    else None
  }

  function Cons(c: char, rest: Option<string>): Option<string> {
    if rest.Some? then Some([c] + rest.value) else None
  }

  /** Reads back a string literal as `repr` writes it. */
  function Unrepr(r: string): Option<string> {
    if |r| >= 2 && r[0] == r[|r| - 1] && (r[0] == '\'' || r[0] == '"') then Unescape(r[1..|r| - 1], r[0])
    else None
  }

  lemma HexDigitValue(n: int)
    requires 0 <= n < 16
    ensures HexValue(HexDigit(n)) == Some(n)
  {
  }

  /** Reading back one written character leaves the rest of the text to read. */
  lemma UnescapeReprChar(c: char, q: char, rest: string)
    requires q == '\'' || q == '"'
    ensures Unescape(ReprChar(c, q) + rest, q) == Cons(c, Unescape(rest, q))
  {
    var t := ReprChar(c, q) + rest;
    if Escaped(c, q) && !(c == q || c == '\\' || c == '\t' || c == '\n' || c == '\r') {
      HexDigitValue(c as int / 16);
      HexDigitValue(c as int % 16);
      assert t[4..] == rest;
    } else if Escaped(c, q) {
      assert t[2..] == rest;
    } else {
      assert t[1..] == rest;
    }
  }

  lemma {:induction false} UnescapeReprBody(s: string, q: char)
    requires q == '\'' || q == '"'
    ensures Unescape(ReprBody(s, q), q) == Some(s)
    decreases |s|
  {
    if s != [] {
      var rest := ReprBody(s[1..], q);
      assert ReprBody(s, q) == ReprChar(s[0], q) + rest;
      UnescapeReprChar(s[0], q, rest);
      UnescapeReprBody(s[1..], q);
      assert [s[0]] + s[1..] == s;
    }
  }

  /** `repr` loses nothing: the literal it writes reads back as the string. */
  lemma ReprRoundTrip(s: string)
    ensures Unrepr(Repr(s)) == Some(s)
  {
    var q := ReprQuote(s);
    var r := Repr(s);
    assert r[1..|r| - 1] == ReprBody(s, q);
    UnescapeReprBody(s, q);
  }

  lemma {:induction false} ReprBodyPlain(s: string, q: char)
    requires forall i :: 0 <= i < |s| ==> !Escaped(s[i], q)
    ensures ReprBody(s, q) == s
    decreases |s|
  {
    if s != [] {
      ReprBodyPlain(s[1..], q);
      assert [s[0]] + s[1..] == s;
    }
  }

  /** A string with no single quote, backslash or control character is written between
      single quotes as it is. */
  lemma ReprOfPlain(s: string)
    requires forall i :: 0 <= i < |s| ==> !Escaped(s[i], '\'')
    ensures Repr(s) == Quote(s)
  {
    ReprBodyPlain(s, '\'');
  }

  /** Python's `repr` of a list of strings, `['a', 'b']`. */
  function ReprList(xs: seq<string>): string {
    "[" + JoinRepr(xs) + "]"
  }

  function JoinRepr(xs: seq<string>): string
    decreases |xs|
  {
    if |xs| == 0 then ""
    else if |xs| == 1 then Repr(xs[0])
    else Repr(xs[0]) + ", " + JoinRepr(xs[1..])
  }
}
