/** The few pieces of Python's `str` behaviour the services rely on:
    `s.split(",")[0]`, `s.strip()`, `sep.join(xs)`, the substring test
    `t in s`, and the decimal rendering of a whole number. */
module Text {

  /** Python's `str.isspace()` for one character: exactly the characters that
      `str.strip()` with no argument removes (tab to carriage return, the four
      information separators, space, NEL, no-break space and the Unicode
      space separators, line and paragraph separators). */
  predicate IsSpace(c: char) {
    || ('\t' <= c <= '\r')
    || ('\U{1C}' <= c <= ' ')
    || c == '\U{85}'
    || c == '\U{A0}'
    || c == '\U{1680}'
    || ('\U{2000}' <= c <= '\U{200A}')
    || c == '\U{2028}'
    || c == '\U{2029}'
    || c == '\U{202F}'
    || c == '\U{205F}'
    || c == '\U{3000}'
  }

  predicate AllSpace(s: string) {
    forall i :: 0 <= i < |s| ==> IsSpace(s[i])
  }

  /** Neither end of `s` is whitespace (the empty string qualifies). */
  predicate Trimmed(s: string) {
    s == [] || (!IsSpace(s[0]) && !IsSpace(s[|s| - 1]))
  }

  /** `s.split(",")[0]`: the text before the first comma, or all of `s`
      when it has none. The three clauses determine the result. */
  function BeforeFirstComma(s: string): (r: string)
    ensures r <= s
    ensures ',' !in r
    ensures |r| < |s| ==> s[|r|] == ','
  {
    if s == [] || s[0] == ',' then [] else [s[0]] + BeforeFirstComma(s[1..])
  }

  /** The first field of `a + rest` is `a` whenever `a` has no comma and
      `rest` is empty or starts a new field. */
  lemma {:induction false} BeforeFirstCommaOf(a: string, rest: string)
    requires ',' !in a
    requires rest == [] || rest[0] == ','
    ensures BeforeFirstComma(a + rest) == a
  {
    if a != [] {
      assert (a + rest)[1..] == a[1..] + rest;
      BeforeFirstCommaOf(a[1..], rest);
    }
  }

  /** `s.lstrip()`. */
  function TrimStart(s: string): (r: string)
    ensures |r| <= |s| && r == s[|s| - |r|..]
    ensures AllSpace(s[..|s| - |r|])
    ensures r == [] || !IsSpace(r[0])
  {
    if s != [] && IsSpace(s[0]) then TrimStart(s[1..]) else s
  }

  /** `s.rstrip()`. */
  function TrimEnd(s: string): (r: string)
    ensures r <= s
    ensures AllSpace(s[|r|..])
    ensures r == [] || !IsSpace(r[|r| - 1])
  {
    if s != [] && IsSpace(s[|s| - 1]) then TrimEnd(s[..|s| - 1]) else s
  }

  /** `r` sits at offset `i` of `s` with only whitespace around it. */
  ghost predicate PaddedAt(s: string, r: string, i: int) {
    0 <= i <= |s| - |r| && s[i..i + |r|] == r && AllSpace(s[..i]) && AllSpace(s[i + |r|..])
  }

  /** `s.strip()`: `s` with its leading and trailing whitespace removed. */
  function Strip(s: string): (r: string)
    ensures Trimmed(r)
    ensures exists i :: PaddedAt(s, r, i)
    ensures forall c :: c in r ==> c in s
  {
    var t := TrimStart(s);
    var r := TrimEnd(t);
    PaddedPiece(s, t, r);
    r
  }

  /** A whitespace-free end `t` of `s` behind whitespace, cut down to a
      prefix `r` followed by whitespace, is a trimmed piece of `s`. */
  lemma PaddedPiece(s: string, t: string, r: string)
    requires |t| <= |s| && t == s[|s| - |t|..] && AllSpace(s[..|s| - |t|])
    requires t == [] || !IsSpace(t[0])
    requires r <= t && AllSpace(t[|r|..])
    requires r == [] || !IsSpace(r[|r| - 1])
    ensures Trimmed(r)
    ensures PaddedAt(s, r, |s| - |t|)
    ensures forall c :: c in r ==> c in s
  {
    var i := |s| - |t|;
    assert Trimmed(r) by {
      if r != [] {
        assert r[0] == t[0];
      }
    }
    assert r == s[i..i + |r|] by {
      assert s[i..i + |r|] == t[..|r|];
    }
    assert AllSpace(s[i + |r|..]) by {
      assert s[i + |r|..] == t[|r|..];
    }
    forall c | c in r ensures c in s {
      var k :| 0 <= k < |r| && r[k] == c;
      assert s[i + k] == c;
    }
  }

  lemma {:induction false} TrimStartSkipsSpace(p: string, t: string)
    requires AllSpace(p)
    requires t == [] || !IsSpace(t[0])
    ensures TrimStart(p + t) == t
  {
    if p != [] {
      assert (p + t)[1..] == p[1..] + t;
      TrimStartSkipsSpace(p[1..], t);
    }
  }

  lemma {:induction false} TrimEndSkipsSpace(t: string, q: string)
    requires AllSpace(q)
    requires t == [] || !IsSpace(t[|t| - 1])
    ensures TrimEnd(t + q) == t
  {
    if q != [] {
      assert (t + q)[..|t + q| - 1] == t + q[..|q| - 1];
      TrimEndSkipsSpace(t, q[..|q| - 1]);
    }
  }

  /** Stripping whitespace padding gives back exactly what was padded, so the
      ensures of `Strip` determine its result. */
  lemma StripPadded(p: string, r: string, q: string)
    requires AllSpace(p) && AllSpace(q)
    requires Trimmed(r)
    ensures Strip(p + r + q) == r
  {
    if r == [] {
      assert p + r + q == p + q;
      AllSpaceConcat(p, q);
      assert TrimStart(p + q) == [] by {
        TrimStartSkipsSpace(p + q, []);
        assert p + q + [] == p + q;
      }
    } else {
      assert p + r + q == p + (r + q);
      assert (r + q)[0] == r[0];
      TrimStartSkipsSpace(p, r + q);
      TrimEndSkipsSpace(r, q);
    }
  }

  lemma AllSpaceConcat(p: string, q: string)
    requires AllSpace(p) && AllSpace(q)
    ensures AllSpace(p + q)
  {
    forall i | 0 <= i < |p + q| ensures IsSpace((p + q)[i]) {
      if i >= |p| {
        assert (p + q)[i] == q[i - |p|];
      }
    }
  }

  /** Python's substring test `t in s`. */
  predicate Contains(s: string, t: string) {
    t <= s || (s != [] && Contains(s[1..], t))
  }

  lemma {:induction false} ContainsMiddle(p: string, t: string, q: string)
    ensures Contains(p + t + q, t)
  {
    if p == [] {
      assert p + t + q == t + q;
      assert t <= t + q;
    } else {
      assert (p + t + q)[1..] == p[1..] + t + q;
      ContainsMiddle(p[1..], t, q);
    }
  }

  /** `sep.join(xs)`. */
  function Join(xs: seq<string>, sep: string): string {
    if xs == [] then [] else if |xs| == 1 then xs[0] else xs[0] + sep + Join(xs[1..], sep)
  }

  /** Every joined item occurs in the joined text. */
  lemma {:induction false} JoinContains(xs: seq<string>, sep: string, k: nat)
    requires k < |xs|
    ensures Contains(Join(xs, sep), xs[k])
  {
    if |xs| == 1 {
      ContainsMiddle([], xs[0], []);
      assert [] + xs[0] + [] == xs[0];
    } else if k == 0 {
      ContainsMiddle([], xs[0], sep + Join(xs[1..], sep));
      assert [] + xs[0] + (sep + Join(xs[1..], sep)) == Join(xs, sep);
    } else {
      JoinContains(xs[1..], sep, k - 1);
      ContainsSuffix(xs[0] + sep, Join(xs[1..], sep), xs[k]);
      assert xs[0] + sep + Join(xs[1..], sep) == (xs[0] + sep) + Join(xs[1..], sep);
    }
  }

  lemma {:induction false} ContainsSuffix(p: string, s: string, t: string)
    requires Contains(s, t)
    ensures Contains(p + s, t)
  {
    if p != [] {
      assert (p + s)[1..] == p[1..] + s;
      ContainsSuffix(p[1..], s, t);
    } else {
      assert p + s == s;
    }
  }

  /** Containment passes from a prefix to the whole text. */
  lemma {:induction false} ContainsPrefix(t: string, s: string, u: string)
    requires t <= s && Contains(t, u)
    ensures Contains(s, u)
  {
    if !(u <= t) {
      assert t[1..] <= s[1..];
      ContainsPrefix(t[1..], s[1..], u);
    }
  }

  /** Containment is transitive. */
  lemma {:induction false} ContainsWithin(s: string, t: string, u: string)
    requires Contains(s, t) && Contains(t, u)
    ensures Contains(s, u)
  {
    if t <= s {
      ContainsPrefix(t, s, u);
    } else {
      ContainsWithin(s[1..], t, u);
    }
  }

  /** The decimal digit for `d`. */
  function Digit(d: nat): (c: char)
    requires d < 10
    ensures '0' <= c <= '9'
    ensures c as int - '0' as int == d
  {
    ('0' as int + d) as char
  }

  /** `str(n)` for a natural number: its decimal digits, most significant
      first, with no leading zero. */
  function Decimal(n: nat): (s: string)
    ensures s != []
    ensures forall i :: 0 <= i < |s| ==> '0' <= s[i] <= '9'
    ensures |s| > 1 ==> s[0] != '0'
    decreases n
  {
    if n < 10 then [Digit(n)] else Decimal(n / 10) + [Digit(n % 10)]
  }

  /** The number a string of decimal digits denotes. */
  function DigitsValue(s: string): nat
    requires forall i :: 0 <= i < |s| ==> '0' <= s[i] <= '9'
  {
    if s == [] then 0 else 10 * DigitsValue(s[..|s| - 1]) + (s[|s| - 1] as int - '0' as int)
  }

  /** Reading back the rendered digits gives the number: `Decimal` loses nothing. */
  lemma {:induction false} DecimalRoundTrip(n: nat)
    ensures DigitsValue(Decimal(n)) == n
    decreases n
  {
    var s := Decimal(n);
    if n >= 10 {
      DecimalRoundTrip(n / 10);
      assert s[..|s| - 1] == Decimal(n / 10);
    }
  }
}
