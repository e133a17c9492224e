/** The handful of Python `str` operations the core relies on: `strip()`,
    `startswith`/`endswith`, `lower()`, `capitalize()`, the substring test
    `w in s`, `"\n".join(...)` and `str(int)`. Case mapping is modelled for
    ASCII letters only. */
module PyText {

  /** The characters for which Python's `str.isspace()` holds; `strip()` with
      no argument removes exactly these from both ends. */
  predicate IsSpace(c: char) {
    c == ' ' || ('\t' <= c <= '\r') || ('\U{1c}' <= c <= '\U{1f}')
    || c == '\U{85}' || c == '\U{a0}' || c == '\U{1680}'
    || ('\U{2000}' <= c <= '\U{200a}') || c == '\U{2028}' || c == '\U{2029}'
    || c == '\U{202f}' || c == '\U{205f}' || c == '\U{3000}'
  }

  function TrimStart(s: string): string {
    if s != [] && IsSpace(s[0]) then TrimStart(s[1..]) else s
  }

  function TrimEnd(s: string): string {
    if s != [] && IsSpace(s[|s| - 1]) then TrimEnd(s[..|s| - 1]) else s
  }

  /** Python's `s.strip()`. */
  function Strip(s: string): string {
    TrimEnd(TrimStart(s))
  }

  /** Neither end of `s` is whitespace: what `strip()` leaves behind. */
  predicate Stripped(s: string) {
    s == [] || (!IsSpace(s[0]) && !IsSpace(s[|s| - 1]))
  }

  predicate AllSpace(s: string) {
    forall i :: 0 <= i < |s| ==> IsSpace(s[i])
  }

  lemma {:induction false} TrimEndKeepsFirst(s: string)
    requires s != [] && !IsSpace(s[0])
    ensures TrimEnd(s) != [] && TrimEnd(s)[0] == s[0]
  {
    if IsSpace(s[|s| - 1]) {
      TrimEndKeepsFirst(s[..|s| - 1]);
    }
  }

  lemma {:induction false} TrimEndEnds(s: string)
    ensures TrimEnd(s) == [] || !IsSpace(TrimEnd(s)[|TrimEnd(s)| - 1])
  {
    if s != [] && IsSpace(s[|s| - 1]) {
      TrimEndEnds(s[..|s| - 1]);
    }
  }

  lemma {:induction false} TrimStartStarts(s: string)
    ensures TrimStart(s) == [] || !IsSpace(TrimStart(s)[0])
  {
    if s != [] && IsSpace(s[0]) {
      TrimStartStarts(s[1..]);
    }
  }

  /** `strip()` leaves no whitespace at either end. */
  lemma StripIsStripped(s: string)
    ensures Stripped(Strip(s))
  {
    TrimStartStarts(s);
    TrimEndEnds(TrimStart(s));
    if TrimStart(s) != [] {
      TrimEndKeepsFirst(TrimStart(s));
    }
  }

  /** Stripping pure whitespace off either side of a stripped text gives the
      text back. */
  lemma {:induction false} TrimStartPastSpace(w: string, b: string)
    requires AllSpace(w) && Stripped(b)
    ensures TrimStart(w + b) == b
  {
    if w == [] {
      assert w + b == b;
    } else {
      assert (w + b)[1..] == w[1..] + b;
      TrimStartPastSpace(w[1..], b);
    }
  }

  lemma {:induction false} TrimEndPastSpace(b: string, w: string)
    requires AllSpace(w) && Stripped(b)
    ensures TrimEnd(b + w) == b
  {
    if w == [] {
      assert b + w == b;
    } else {
      assert (b + w)[..|b + w| - 1] == b + w[..|w| - 1];
      TrimEndPastSpace(b, w[..|w| - 1]);
    }
  }

  /** `(w1 + b + w2).strip() == b` when `b` is stripped and `w1`, `w2` are
      whitespace. */
  lemma StripAround(w1: string, b: string, w2: string)
    requires AllSpace(w1) && AllSpace(w2) && Stripped(b)
    ensures Strip(w1 + b + w2) == b
  {
    assert w1 + b + w2 == w1 + (b + w2);
    if b == [] {
      assert AllSpace(w2);
      TrimStartPastSpace(w1 + w2, []);
      assert w1 + w2 + [] == w1 + (b + w2);
      assert TrimStart(w1 + (b + w2)) == [];
    } else {
      TrimStartToFirstSolid(w1, b + w2);
      TrimEndPastSpace(b, w2);
    }
  }

  lemma {:induction false} TrimStartToFirstSolid(w: string, t: string)
    requires AllSpace(w) && t != [] && !IsSpace(t[0])
    ensures TrimStart(w + t) == t
  {
    if w == [] {
      assert w + t == t;
    } else {
      assert (w + t)[1..] == w[1..] + t;
      TrimStartToFirstSolid(w[1..], t);
    }
  }

  /** `strip()` changes nothing on a text that is already stripped. */
  lemma StripOfStripped(s: string)
    requires Stripped(s)
    ensures Strip(s) == s
  {
    StripAround([], s, []);
    assert [] + s + [] == s;
  }

  predicate StartsWith(s: string, prefix: string) {
    |prefix| <= |s| && s[..|prefix|] == prefix
  }

  predicate EndsWith(s: string, suffix: string) {
    |suffix| <= |s| && s[|s| - |suffix|..] == suffix
  }

  /** Python's substring test `w in s`. */
  predicate Contains(s: string, w: string)
    decreases |s|
  {
    StartsWith(s, w) || (s != [] && Contains(s[1..], w))
  }

  /** `any(w in s for w in words)`. */
  predicate ContainsAny(s: string, words: seq<string>) {
    exists k :: 0 <= k < |words| && Contains(s, words[k])
  }

  function LowerChar(c: char): char {
    if 'A' <= c <= 'Z' then (c as int + 32) as char else c
  }

  function UpperChar(c: char): char {
    if 'a' <= c <= 'z' then (c as int - 32) as char else c
  }

  /** Python's `s.lower()` on ASCII letters. */
  function Lower(s: string): (r: string)
    ensures |r| == |s|
  {
    seq(|s|, i requires 0 <= i < |s| => LowerChar(s[i]))
  }

  /** Python's `s.capitalize()`: first character upper case, the rest lower. */
  function Capitalize(s: string): (r: string)
    ensures |r| == |s|
  {
    if s == [] then [] else [UpperChar(s[0])] + Lower(s[1..])
  }

  function DigitChar(d: nat): char
    requires d < 10
  {
    ('0' as int + d) as char
  }

  /** `str(n)` for a natural number. */
  function NatToDecimal(n: nat): (r: string)
    ensures r != []
  {
    if n < 10 then [DigitChar(n)] else NatToDecimal(n / 10) + [DigitChar(n % 10)]
  }

  /** `str(i)` for an integer. */
  function IntToDecimal(i: int): string {
    if i < 0 then "-" + NatToDecimal(-i) else NatToDecimal(i)
  }

  /** `sep.join(parts)`. */
  function Join(parts: seq<string>, sep: string): string {
    if parts == [] then ""
    else if |parts| == 1 then parts[0]
    else parts[0] + sep + Join(parts[1..], sep)
  }

  /** `w in a + w + b`. */
  lemma {:induction false} ContainsInfix(a: string, w: string, b: string)
    ensures Contains(a + w + b, w)
  {
    if a == [] {
      assert a + w + b == w + b;
      assert (w + b)[..|w|] == w;
    } else {
      assert (a + w + b)[1..] == a[1..] + w + b;
      ContainsInfix(a[1..], w, b);
    }
  }

  /** A substring of `t` is a substring of `p + t`. */
  lemma {:induction false} ContainsAfterPrefix(p: string, t: string, w: string)
    requires Contains(t, w)
    ensures Contains(p + t, w)
  {
    if p == [] {
      assert p + t == t;
    } else {
      assert (p + t)[1..] == p[1..] + t;
      ContainsAfterPrefix(p[1..], t, w);
    }
  }

  /** Every part occurs in the joined text. */
  lemma {:induction false} JoinContainsPart(parts: seq<string>, sep: string, k: nat)
    requires k < |parts|
    ensures Contains(Join(parts, sep), parts[k])
  {
    if |parts| == 1 {
      ContainsInfix([], parts[0], []);
      assert [] + parts[0] + [] == Join(parts, sep);
    } else if k == 0 {
      ContainsInfix([], parts[0], sep + Join(parts[1..], sep));
      assert [] + parts[0] + (sep + Join(parts[1..], sep)) == Join(parts, sep);
    } else {
      JoinContainsPart(parts[1..], sep, k - 1);
      ContainsAfterPrefix(parts[0] + sep, Join(parts[1..], sep), parts[k]);
    }
  }

  /** Joining `[h] + rest` puts `h` and the separator first. */
  lemma JoinCons(h: string, rest: seq<string>, sep: string)
    requires rest != []
    ensures Join([h] + rest, sep) == h + sep + Join(rest, sep)
  {
    assert ([h] + rest)[1..] == rest;
  }

  /** Joining `xs + [f]` puts the separator and `f` last. */
  lemma {:induction false} JoinSnoc(xs: seq<string>, f: string, sep: string)
    requires xs != []
    ensures Join(xs + [f], sep) == Join(xs, sep) + sep + f
  {
    if |xs| == 1 {
      assert (xs + [f])[1..] == [f];
    } else {
      assert (xs + [f])[1..] == xs[1..] + [f];
      JoinSnoc(xs[1..], f, sep);
    }
  }

  /** `sep.join([h] + rest)` starts with `h + sep` when `rest` is not empty. */
  lemma JoinStarts(h: string, rest: seq<string>, sep: string)
    requires rest != []
    ensures StartsWith(Join([h] + rest, sep), h + sep)
  {
    JoinCons(h, rest, sep);
    assert (h + sep + Join(rest, sep))[..|h + sep|] == h + sep;
  }

  /** `sep.join(xs + [f])` ends with `sep + f` when `xs` is not empty. */
  lemma JoinEnds(xs: seq<string>, f: string, sep: string)
    requires xs != []
    ensures EndsWith(Join(xs + [f], sep), sep + f)
  {
    JoinSnoc(xs, f, sep);
    var j := Join(xs, sep);
    assert j + sep + f == j + (sep + f);
    assert (j + (sep + f))[|j + (sep + f)| - |sep + f|..] == sep + f;
  }
}
