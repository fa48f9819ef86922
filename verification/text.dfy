/** String helpers shared by the device and backend models: Python's
    whitespace stripping, single-character split and join, and decimal
    rendering of integers (Swift `"\(n)"`, Python `str(n)`). */
module Text {
  import opened Common

  /** Python `str.isspace()` on one character. */
  predicate IsSpace(c: char) {
    || ('\t' <= c <= '\r')
    || ('\U{1C}' <= c <= ' ')
    || c == '\U{85}' || c == '\U{A0}' || c == '\U{1680}'
    || ('\U{2000}' <= c <= '\U{200A}')
    || c == '\U{2028}' || c == '\U{2029}' || c == '\U{202F}' || c == '\U{205F}' || c == '\U{3000}'
  }

  predicate AllSpace(s: string) {
    forall i :: 0 <= i < |s| ==> IsSpace(s[i])
  }

  /** Neither end of `s` is whitespace: what `str.strip()` returns. */
  predicate Stripped(s: string) {
    s == [] || (!IsSpace(s[0]) && !IsSpace(s[|s| - 1]))
  }

  function LeadingSpaces(s: string): (n: nat)
    ensures n <= |s|
    ensures AllSpace(s[..n])
    ensures n < |s| ==> !IsSpace(s[n])
  {
    if s == [] || !IsSpace(s[0]) then 0 else 1 + LeadingSpaces(s[1..])
  }

  function TrailingSpaces(s: string): (n: nat)
    ensures n <= |s|
    ensures AllSpace(s[|s| - n..])
    ensures n < |s| ==> !IsSpace(s[|s| - n - 1])
  {
    if s == [] || !IsSpace(s[|s| - 1]) then 0 else 1 + TrailingSpaces(s[..|s| - 1])
  }

  /** Python `str.strip()` with no argument. */
  function Strip(s: string): (r: string)
    ensures Stripped(r)
    ensures |r| <= |s|
    ensures r == [] <==> AllSpace(s)
    ensures forall i :: 0 <= i < |r| ==> r[i] in s
  {
    var a := LeadingSpaces(s);
    var t := s[a..];
    var b := TrailingSpaces(t);
    if a == |s| then
      assert AllSpace(s) by { assert s[..a] == s; }
      []
    else
      assert !AllSpace(s) by { assert !IsSpace(s[a]); }
      t[..|t| - b]
  }

  /** Stripping removes exactly the whitespace padding around a stripped core. */
  lemma {:induction false} StripPadded(pre: string, x: string, post: string)
    requires AllSpace(pre) && AllSpace(post) && Stripped(x) && x != []
    ensures Strip(pre + x + post) == x
  {
    var s := pre + x + post;
    LeadingOfPadded(pre, x + post);
    assert s == pre + (x + post);
    var t := s[|pre|..];
    assert t == x + post;
    TrailingOfPadded(x, post);
    assert t[..|t| - |post|] == x;
  }

  lemma {:induction false} LeadingOfPadded(pre: string, rest: string)
    requires AllSpace(pre) && rest != [] && !IsSpace(rest[0])
    ensures LeadingSpaces(pre + rest) == |pre|
  {
    if pre != [] {
      assert (pre + rest)[1..] == pre[1..] + rest;
      LeadingOfPadded(pre[1..], rest);
    } else {
      assert pre + rest == rest;
    }
  }

  lemma {:induction false} TrailingOfPadded(rest: string, post: string)
    requires AllSpace(post) && rest != [] && !IsSpace(rest[|rest| - 1])
    ensures TrailingSpaces(rest + post) == |post|
  {
    if post != [] {
      var s := rest + post;
      assert s[..|s| - 1] == rest + post[..|post| - 1];
      TrailingOfPadded(rest, post[..|post| - 1]);
    } else {
      assert rest + post == rest;
    }
  }

  lemma StripOfStripped(x: string)
    requires Stripped(x)
    ensures Strip(x) == x
  {
    if x != [] {
      StripPadded([], x, []);
      assert [] + x + [] == x;
    }
  }

  /** The three parts of a concatenation, sliced back out. */
  lemma Slices(p: string, x: string, q: string)
    ensures var s := p + x + q;
      && s[..|p|] == p
      && s[|p|..|p| + |x|] == x
      && s[|p| + |x|..] == q
  {
  }

  /** Index of the first `c` in `s`, or `|s|` when there is none. */
  function IndexOf(s: string, c: char): (i: nat)
    ensures i <= |s|
    ensures i < |s| ==> s[i] == c
    ensures c !in s[..i]
  {
    if s == [] then 0
    else if s[0] == c then 0
    else
      var j := IndexOf(s[1..], c);
      assert s[..j + 1] == [s[0]] + s[1..][..j];
      1 + j
  }

  /** Python `s.split(sep)` for a one-character separator: empty pieces are
      kept, so there is always at least one piece. */
  function Split(s: string, sep: char): (r: seq<string>)
    ensures |r| >= 1
    ensures forall i :: 0 <= i < |r| ==> sep !in r[i]
    decreases |s|
  {
    var i := IndexOf(s, sep);
    if i == |s| then
      assert s[..i] == s;
      [s]
    else [s[..i]] + Split(s[i + 1..], sep)
  }

  /** `sep.join(ps)` / Swift `ps.joined(separator: sep)`. */
  function Join(ps: seq<string>, sep: string): string {
    if |ps| == 0 then ""
    else if |ps| == 1 then ps[0]
    else ps[0] + sep + Join(ps[1..], sep)
  }

  lemma JoinCons(a: string, ps: seq<string>, sep: string)
    requires |ps| >= 1
    ensures Join([a] + ps, sep) == a + sep + Join(ps, sep)
  {
    assert ([a] + ps)[1..] == ps;
  }

  /** Joining the pieces of a split gives back the original string. */
  lemma {:induction false} JoinSplit(s: string, sep: char)
    ensures Join(Split(s, sep), [sep]) == s
    decreases |s|
  {
    var i := IndexOf(s, sep);
    if i == |s| {
      assert s[..i] == s;
    } else {
      var rest := Split(s[i + 1..], sep);
      assert Split(s, sep) == [s[..i]] + rest;
      JoinSplit(s[i + 1..], sep);
      JoinCons(s[..i], rest, [sep]);
      assert s == s[..i] + [sep] + s[i + 1..];
    }
  }

  /** Splitting a join of separator-free pieces gives back the pieces. */
  lemma {:induction false} SplitJoin(ps: seq<string>, sep: char)
    requires |ps| >= 1
    requires forall i :: 0 <= i < |ps| ==> sep !in ps[i]
    ensures Split(Join(ps, [sep]), sep) == ps
  {
    var s := Join(ps, [sep]);
    if |ps| == 1 {
      IndexOfAbsent(ps[0], sep);
    } else {
      var rest := Join(ps[1..], [sep]);
      assert s == ps[0] + ([sep] + rest);
      IndexOfAfter(ps[0], sep, [sep] + rest);
      assert s[|ps[0]| + 1..] == rest;
      assert s[..|ps[0]|] == ps[0];
      SplitJoin(ps[1..], sep);
    }
  }

  /** Two separator-free pieces joined by the separator split back into
      exactly those two. */
  lemma SplitPair(a: string, b: string, sep: char)
    requires sep !in a && sep !in b
    ensures Split(a + [sep] + b, sep) == [a, b]
  {
    var s := a + [sep] + b;
    assert IndexOf(s, sep) == |a| by {
      Assoc(a, [sep], b);
      IndexOfAfter(a, sep, [sep] + b);
    }
    assert s[..|a|] == a && s[|a| + 1..] == b by {
      Slices(a, [sep], b);
    }
    assert Split(b, sep) == [b] by {
      IndexOfAbsent(b, sep);
      assert b[..|b|] == b;
    }
  }

  lemma {:induction false} IndexOfAbsent(s: string, c: char)
    requires c !in s
    ensures IndexOf(s, c) == |s|
  {
    if s != [] {
      IndexOfAbsent(s[1..], c);
    }
  }

  lemma {:induction false} IndexOfAfter(a: string, c: char, b: string)
    requires c !in a && b != [] && b[0] == c
    ensures IndexOf(a + b, c) == |a|
  {
    if a == [] {
      assert a + b == b;
    } else {
      assert (a + b)[1..] == a[1..] + b;
      IndexOfAfter(a[1..], c, b);
    }
  }

  // Decimal rendering of integers.

  predicate IsDigit(c: char) {
    '0' <= c <= '9'
  }

  predicate AllDigits(s: string) {
    forall i :: 0 <= i < |s| ==> IsDigit(s[i])
  }

  function DigitChar(d: nat): (c: char)
    requires d < 10
    ensures IsDigit(c) && c as int - '0' as int == d
  {
    ('0' as int + d) as char
  }

  /** Value of a string of decimal digits. */
  function DigitsValue(s: string): nat
    requires AllDigits(s)
  {
    if s == [] then 0
    else 10 * DigitsValue(s[..|s| - 1]) + (s[|s| - 1] as int - '0' as int)
  }

  /** Shortest decimal rendering of a natural number. */
  function NatToString(n: nat): (r: string)
    ensures r != [] && AllDigits(r)
  {
    if n < 10 then [DigitChar(n)] else NatToString(n / 10) + [DigitChar(n % 10)]
  }

  /** Swift `"\(i)"` / Python `str(i)` for an integer. */
  function IntToString(i: int): (r: string)
    ensures r != []
    ensures forall k :: 0 <= k < |r| ==> IsDigit(r[k]) || (k == 0 && r[k] == '-')
  {
    if i < 0 then "-" + NatToString(-i) else NatToString(i)
  }

  /** Reads back an optionally negative decimal integer. */
  function ParseInt(s: string): Option<int> {
    if s != [] && AllDigits(s) then Some(DigitsValue(s) as int)
    else if |s| >= 2 && s[0] == '-' && AllDigits(s[1..]) then Some(-(DigitsValue(s[1..]) as int))
    else None
  }

  lemma {:induction false} DigitsValueOfNat(n: nat)
    ensures DigitsValue(NatToString(n)) == n
  {
    var r := NatToString(n);
    if n >= 10 {
      assert r[..|r| - 1] == NatToString(n / 10);
      DigitsValueOfNat(n / 10);
    }
  }

  /** Rendering an integer and reading it back yields the same integer. */
  lemma ParseIntToString(i: int)
    ensures ParseInt(IntToString(i)) == Some(i)
  {
    if i < 0 {
      var r := IntToString(i);
      assert r[1..] == NatToString(-i);
      DigitsValueOfNat(-i);
      assert !IsDigit(r[0]);
    } else {
      DigitsValueOfNat(i);
    }
  }

  lemma IntToStringInjective(i: int, j: int)
    requires IntToString(i) == IntToString(j)
    ensures i == j
  {
    ParseIntToString(i);
    ParseIntToString(j);
  }

  /** Swift `"\(d)"` and Python `str(d)` of a double holding an integral
      value of moderate magnitude: the integer's digits and ".0". */
  function FloatText(f: Float): string {
    IntToString(f) + ".0"
  }

  /** Reads back the text of an integral double. */
  function ParseFloatText(s: string): Option<Float> {
    if |s| >= 2 && s[|s| - 2..] == ".0" then ParseInt(s[..|s| - 2]) else None
  }

  /** Rendering an integral double and reading it back yields the same
      value; the text never contains a space. */
  lemma FloatTextRoundTrip(f: Float)
    ensures ParseFloatText(FloatText(f)) == Some(f)
    ensures ' ' !in FloatText(f) && ')' !in FloatText(f)
  {
    var r := FloatText(f);
    assert r[..|r| - 2] == IntToString(f);
    ParseIntToString(f);
    var i := IntToString(f);
    assert forall k :: 0 <= k < |r| ==> r[k] == '.' || r[k] == '0' || k < |i|;
  }
}
