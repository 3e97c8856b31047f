/** The few pieces of JavaScript value semantics that both the browser client
    and the serverless gateway lean on: `String.prototype.trim`, the `||`
    fallback on strings and numbers, and decimal rendering of an integer in a
    template literal. */
module JsValues {

  datatype Option<+T> = None | Some(value: T)

  /** ECMAScript WhiteSpace and LineTerminator code points: exactly the
      characters `String.prototype.trim` removes. */
  predicate IsWhitespace(c: char) {
    || c == '\t' || c == '\n' || c == '\U{B}' || c == '\U{C}' || c == '\r'
    || c == ' ' || c == '\U{A0}' || c == '\U{1680}'
    || ('\U{2000}' <= c <= '\U{200A}')
    || c == '\U{2028}' || c == '\U{2029}' || c == '\U{202F}' || c == '\U{205F}'
    || c == '\U{3000}' || c == '\U{FEFF}'
  }

  /** True when `s` is empty or made only of whitespace. */
  predicate IsBlank(s: string) {
    forall i :: 0 <= i < |s| ==> IsWhitespace(s[i])
  }

  /** `t` occurs in `s` starting at index `k`. */
  predicate OccursAt(t: string, s: string, k: int) {
    0 <= k && k + |t| <= |s| && s[k..k + |t|] == t
  }

  ghost predicate IsInfix(t: string, s: string) {
    exists k :: OccursAt(t, s, k)
  }

  predicate IsSuffix(t: string, s: string) {
    |t| <= |s| && s[|s| - |t|..] == t
  }

  /** Drops leading whitespace. */
  function TrimStart(s: string): (r: string)
    ensures |r| <= |s| && r == s[|s| - |r|..]
    ensures r == [] || !IsWhitespace(r[0])
    ensures forall i :: 0 <= i < |s| - |r| ==> IsWhitespace(s[i])
  {
    if |s| > 0 && IsWhitespace(s[0]) then TrimStart(s[1..]) else s
  }

  /** Drops trailing whitespace. */
  function TrimEnd(s: string): (r: string)
    ensures |r| <= |s| && r == s[..|r|]
    ensures r == [] || !IsWhitespace(r[|r| - 1])
    ensures forall i :: |r| <= i < |s| ==> IsWhitespace(s[i])
  {
    if |s| > 0 && IsWhitespace(s[|s| - 1]) then TrimEnd(s[..|s| - 1]) else s
  }

  /** `s.trim()`: the longest substring of `s` that neither starts nor ends
      with whitespace, once all surrounding whitespace is removed. */
  function Trim(s: string): (r: string)
    ensures r == [] <==> IsBlank(s)
    ensures r == [] || (!IsWhitespace(r[0]) && !IsWhitespace(r[|r| - 1]))
    ensures exists lo ::
              && OccursAt(r, s, lo)
              && (forall i :: 0 <= i < lo ==> IsWhitespace(s[i]))
              && (forall i :: lo + |r| <= i < |s| ==> IsWhitespace(s[i]))
  {
    var t := TrimStart(s);
    var r := TrimEnd(t);
    var lo := |s| - |t|;
    assert s[lo..lo + |r|] == r;
    assert OccursAt(r, s, lo);
    r
  }

  /** Trimming twice is trimming once. */
  lemma TrimIdempotent(s: string)
    ensures Trim(Trim(s)) == Trim(s)
  {
    var r := Trim(s);
    if r != [] {
      assert TrimStart(r) == r;
      assert TrimEnd(r) == r;
    }
  }

  /** `s || fallback` for a string `s`: the empty string is falsy. */
  function OrElse(s: string, fallback: string): (r: string)
    ensures r == s || r == fallback
    ensures fallback != "" ==> r != ""
  {
    if s != "" then s else fallback
  }

  /** Applying the same fallback twice is applying it once: a value that
      already went through `|| fallback` is passed through unchanged. */
  lemma OrElseIdempotent(s: string, fallback: string)
    ensures OrElse(OrElse(s, fallback), fallback) == OrElse(s, fallback)
  {
  }

  /** JavaScript truthiness of an optional string field: `undefined` and `""`
      are falsy. */
  predicate Truthy(v: Option<string>) {
    v.Some? && v.value != ""
  }

  /** `v || fallback` for an optional string `v`: an absent or empty value
      gives the fallback. */
  function ValueOr(v: Option<string>, fallback: string): (r: string)
    ensures (v.Some? && r == v.value) || r == fallback
    ensures fallback != "" ==> r != ""
  {
    if Truthy(v) then v.value else fallback
  }

  /** An absent value falls back exactly as the empty string does: `||` on
      an optional string is `||` on the string with `undefined` read as
      `""`. */
  lemma ValueOrAsOrElse(v: Option<string>, fallback: string)
    ensures ValueOr(v, fallback) == OrElse(if v.Some? then v.value else "", fallback)
  {
  }

  /** `Number(x) || 1`, where `n` is the result of `Number(x)` and `None`
      stands for NaN: zero and NaN become 1, every other number, negative
      ones included, passes through. */
  function NumberOrOne(n: Option<int>): (r: int)
    ensures r != 0
    ensures n.Some? && n.value != 0 ==> r == n.value
    ensures (n.None? || n.value == 0) ==> r == 1
  {
    match n
    case None => 1
    case Some(v) => if v == 0 then 1 else v
  }

  /** Coercing an already-coerced count again changes nothing. */
  lemma NumberOrOneIdempotent(n: Option<int>)
    ensures NumberOrOne(Some(NumberOrOne(n))) == NumberOrOne(n)
  {
  }

  function DigitChar(d: nat): (c: char)
    requires d < 10
    ensures '0' <= c <= '9'
  {
    ['0', '1', '2', '3', '4', '5', '6', '7', '8', '9'][d]
  }

  function DigitValue(c: char): (d: nat)
    requires '0' <= c <= '9'
    ensures d < 10
  {
    (c as int) - ('0' as int)
  }

  /** The decimal text of `n`, as `${n}` renders a non-negative integer. */
  function DecimalString(n: nat): (r: string)
    ensures |r| >= 1
    ensures forall i :: 0 <= i < |r| ==> '0' <= r[i] <= '9'
    ensures r[0] == '0' ==> n == 0
  {
    if n < 10 then [DigitChar(n)] else DecimalString(n / 10) + [DigitChar(n % 10)]
  }

  /** The value of a string of decimal digits. */
  function DecimalValue(s: string): nat
    requires forall i :: 0 <= i < |s| ==> '0' <= s[i] <= '9'
  {
    if s == [] then 0 else 10 * DecimalValue(s[..|s| - 1]) + DigitValue(s[|s| - 1])
  }

  /** Reading back the decimal text of `n` gives `n`: distinct statuses
      render as distinct strings. */
  lemma {:induction false} DecimalRoundTrip(n: nat)
    ensures DecimalValue(DecimalString(n)) == n
  {
    var r := DecimalString(n);
    if n >= 10 {
      DecimalRoundTrip(n / 10);
      assert r[..|r| - 1] == DecimalString(n / 10);
    }
  }

  /** A template literal is the concatenation of its segments. */
  function Concat(xs: seq<string>): string {
    if xs == [] then "" else xs[0] + Concat(xs[1..])
  }

  lemma Concat3(a: string, b: string, c: string)
    ensures Concat([a, b, c]) == a + b + c
  {
    assert [a, b, c][1..] == [b, c];
    assert [b, c][1..] == [c];
    assert [c][1..] == [];
    assert Concat([c]) == c;
    assert Concat([b, c]) == b + c;
  }

  lemma Concat4(a: string, b: string, c: string, d: string)
    ensures Concat([a, b, c, d]) == a + b + c + d
  {
    assert [a, b, c, d][1..] == [b, c, d];
    Concat3(b, c, d);
  }

  /** Cutting the segment list anywhere cuts the text at the same place. */
  lemma {:induction false} ConcatSplit(xs: seq<string>, i: nat)
    requires i <= |xs|
    ensures Concat(xs) == Concat(xs[..i]) + Concat(xs[i..])
  {
    if i > 0 {
      ConcatSplit(xs[1..], i - 1);
      assert xs[1..][..i - 1] == xs[..i][1..];
      assert xs[1..][i - 1..] == xs[i..];
    } else {
      assert xs[..0] == [];
      assert xs[0..] == xs;
    }
  }

  /** Any run of consecutive segments occurs in the concatenation. */
  lemma SegmentsInfix(xs: seq<string>, i: nat, j: nat)
    requires i <= j <= |xs|
    ensures IsInfix(Concat(xs[i..j]), Concat(xs))
  {
    var a, m, b := Concat(xs[..i]), Concat(xs[i..j]), Concat(xs[j..]);
    assert Concat(xs[i..]) == m + b by {
      ConcatSplit(xs[i..], j - i);
      assert xs[i..][..j - i] == xs[i..j];
      assert xs[i..][j - i..] == xs[j..];
    }
    assert Concat(xs) == a + (m + b) by {
      ConcatSplit(xs, i);
    }
    InfixOfConcat(a, m, b);
  }

  /** A prefix run of segments is a prefix of the concatenation. */
  lemma SegmentsPrefix(xs: seq<string>, j: nat)
    requires j <= |xs|
    ensures Concat(xs[..j]) <= Concat(xs)
  {
    ConcatSplit(xs, j);
  }

  /** A suffix run of segments is a suffix of the concatenation. */
  lemma SegmentsSuffix(xs: seq<string>, i: nat)
    requires i <= |xs|
    ensures IsSuffix(Concat(xs[i..]), Concat(xs))
  {
    ConcatSplit(xs, i);
    assert (Concat(xs[..i]) + Concat(xs[i..]))[|Concat(xs[..i])|..] == Concat(xs[i..]);
  }

  lemma InfixOfConcat(a: string, t: string, b: string)
    ensures IsInfix(t, a + (t + b)) && IsInfix(t, a + t + b)
  {
    assert (a + (t + b))[|a|..|a| + |t|] == t;
    assert OccursAt(t, a + (t + b), |a|);
    assert a + (t + b) == a + t + b;
  }

  lemma InfixTransitive(t: string, u: string, s: string)
    requires IsInfix(t, u) && IsInfix(u, s)
    ensures IsInfix(t, s)
  {
    var i :| OccursAt(t, u, i);
    var j :| OccursAt(u, s, j);
    forall k | 0 <= k < |t|
      ensures s[j + i + k] == t[k]
    {
      assert s[j..j + |u|][i + k] == u[i + k];
      assert u[i..i + |t|][k] == t[k];
    }
    assert s[j + i..j + i + |t|] == t;
    assert OccursAt(t, s, j + i);
  }
}
