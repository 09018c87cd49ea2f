/** The few JavaScript built-ins the site's logic relies on, given their
    JavaScript meaning over Dafny values: optional values, `x || d` on numbers
    and strings, `String.prototype.slice`/`startsWith`/`endsWith`, a global
    regex replace that deletes a character class, `Array.prototype.find`, and
    the decimal rendering of an integer in a template literal. */
module JsBuiltins {

  datatype Option<+T> = None | Some(value: T)

  /** JavaScript truthiness of an optional string: `undefined` and `''` are falsy. */
  predicate Truthy(s: Option<string>) {
    s.Some? && s.value != ""
  }

  /** `x || d` for an optional number: `undefined` and `0` fall back to `d`. */
  function NumberOr(x: Option<real>, d: real): (r: real)
    ensures x.Some? && x.value != 0.0 ==> r == x.value
    ensures x.None? || x.value == 0.0 ==> r == d
  {
    if x.Some? && x.value != 0.0 then x.value else d
  }

  function Min(a: real, b: real): (r: real)
    ensures r <= a && r <= b && (r == a || r == b)
  {
    if a <= b then a else b
  }

  function Max(a: real, b: real): (r: real)
    ensures r >= a && r >= b && (r == a || r == b)
  {
    if a >= b then a else b
  }

  function Abs(a: real): (r: real)
    ensures r >= 0.0 && (r == a || r == -a)
  {
    if a >= 0.0 then a else -a
  }

  /** `\d` of a JavaScript regular expression without the `u` flag. */
  predicate IsDigit(c: char) {
    '0' <= c <= '9'
  }

  predicate AllDigits(s: string) {
    forall i :: 0 <= i < |s| ==> IsDigit(s[i])
  }

  /** `s.startsWith(p)` */
  predicate StartsWith(s: string, p: string) {
    |p| <= |s| && s[..|p|] == p
  }

  /** `s.endsWith(p)` */
  predicate EndsWith(s: string, p: string) {
    |p| <= |s| && s[|s| - |p|..] == p
  }

  /** A string ends with what was appended to it. */
  lemma EndsWithAppended(a: string, p: string)
    ensures EndsWith(a + p, p)
  {
    assert (a + p)[|a + p| - |p|..] == p;
  }

  /** Strings whose last characters differ do not end one with the other. */
  lemma LastCharDiffers(s: string, p: string)
    requires |s| > 0 && |p| > 0 && s[|s| - 1] != p[|p| - 1]
    ensures !EndsWith(s, p)
  {
    if |p| <= |s| {
      assert s[|s| - |p|..][|p| - 1] == s[|s| - 1];
    }
  }

  /** `s.slice(0, n)` for n >= 0: the first n characters, or all of s. */
  function Take(s: string, n: nat): (r: string)
    ensures |r| == if n <= |s| then n else |s|
    ensures r <= s
  {
    if n <= |s| then s[..n] else s
  }

  /** `s.slice(n)` for n >= 0: everything after the first n characters. */
  function Drop(s: string, n: nat): (r: string)
    ensures |r| == if n <= |s| then |s| - n else 0
    ensures Take(s, n) + r == s
  {
    if n <= |s| then s[n..] else ""
  }

  /** `s.slice(i, j)` for 0 <= i <= j. */
  function Slice(s: string, i: nat, j: nat): (r: string)
    requires i <= j
    ensures j <= |s| ==> r == s[i..j]
    ensures i <= |s| < j ==> r == s[i..]
    ensures |s| < i ==> r == ""
  {
    if i >= |s| then "" else if j <= |s| then s[i..j] else s[i..]
  }

  /** `s.replace(/[^K]/g, '')`: the characters of s that satisfy `keep`, in order. */
  function Filter(s: string, keep: char -> bool): string
  {
    if s == "" then "" else (if keep(s[0]) then [s[0]] else "") + Filter(s[1..], keep)
  }

  /** What a filter returns is no longer than its input and holds only kept
      characters. */
  lemma {:induction false} FilterKeeps(s: string, keep: char -> bool)
    ensures |Filter(s, keep)| <= |s|
    ensures forall i :: 0 <= i < |Filter(s, keep)| ==> keep(Filter(s, keep)[i])
  {
    if s != "" {
      FilterKeeps(s[1..], keep);
    }
  }

  lemma {:induction false} FilterAppend(s: string, t: string, keep: char -> bool)
    ensures Filter(s + t, keep) == Filter(s, keep) + Filter(t, keep)
  {
    if s == "" {
      assert s + t == t;
    } else {
      var u := s + t;
      assert u[0] == s[0] && u[1..] == s[1..] + t;
      FilterAppend(s[1..], t, keep);
      calc {
        Filter(u, keep);
        (if keep(s[0]) then [s[0]] else "") + Filter(s[1..] + t, keep);
        (if keep(s[0]) then [s[0]] else "") + (Filter(s[1..], keep) + Filter(t, keep));
      }
    }
  }

  /** Filtering a string whose every character is kept changes nothing. */
  lemma {:induction false} FilterKeepsAll(s: string, keep: char -> bool)
    requires forall i :: 0 <= i < |s| ==> keep(s[i])
    ensures Filter(s, keep) == s
  {
    if s != "" {
      FilterKeepsAll(s[1..], keep);
    }
  }

  /** Filtering removes everything exactly when no character is kept. */
  lemma {:induction false} FilterEmptyIff(s: string, keep: char -> bool)
    ensures Filter(s, keep) == "" <==> forall i :: 0 <= i < |s| ==> !keep(s[i])
  {
    if s != "" {
      FilterEmptyIff(s[1..], keep);
      assert forall i :: 1 <= i < |s| ==> s[i] == s[1..][i - 1];
    }
  }

  /** Two filters that agree on every character of s give the same result. */
  lemma {:induction false} FilterAgree(s: string, k1: char -> bool, k2: char -> bool)
    requires forall i :: 0 <= i < |s| ==> (k1(s[i]) <==> k2(s[i]))
    ensures Filter(s, k1) == Filter(s, k2)
  {
    if s != "" {
      FilterAgree(s[1..], k1, k2);
    }
  }

  /** Filtering by `k2` after filtering by `k1` keeps what both keep. */
  lemma {:induction false} FilterTwice(s: string, k1: char -> bool, k2: char -> bool, both: char -> bool)
    requires forall c :: both(c) <==> k1(c) && k2(c)
    ensures Filter(Filter(s, k1), k2) == Filter(s, both)
  {
    if s != "" {
      FilterTwice(s[1..], k1, k2, both);
      FilterAppend(if k1(s[0]) then [s[0]] else "", Filter(s[1..], k1), k2);
    }
  }

  /** `s.indexOf(c)` for a single character: its first position, or -1. */
  function IndexOf(s: string, c: char): (k: int)
    ensures -1 <= k < |s|
    ensures k >= 0 ==> s[k] == c && c !in s[..k]
    ensures k == -1 <==> c !in s
  {
    if s == "" then -1
    else if s[0] == c then 0
    else
      var k := IndexOf(s[1..], c);
      assert s[1..] == s[1..][..|s| - 1];
      if k == -1 then -1 else (assert s[..k + 1] == [s[0]] + s[1..][..k]; k + 1)
  }

  /** `s.split(c)` for a single-character separator: the pieces between the
      separators, always at least one. */
  function Split(s: string, c: char): (parts: seq<string>)
    ensures |parts| >= 1
    ensures forall i :: 0 <= i < |parts| ==> c !in parts[i]
    decreases |s|
  {
    var k := IndexOf(s, c);
    if k == -1 then [s] else [s[..k]] + Split(s[k + 1..], c)
  }

  /** `parts.join(c)`: the pieces with the separator between each two. */
  function Join(parts: seq<string>, c: char): string
    requires |parts| >= 1
  {
    if |parts| == 1 then parts[0] else parts[0] + [c] + Join(parts[1..], c)
  }

  /** Joining the pieces again gives back the input; with the pieces free of
      the separator, this fixes the result of a split. */
  lemma {:induction false} SplitJoin(s: string, c: char)
    ensures Join(Split(s, c), c) == s
    decreases |s|
  {
    var k := IndexOf(s, c);
    if k != -1 {
      var rest := Split(s[k + 1..], c);
      SplitJoin(s[k + 1..], c);
      assert Split(s, c) == [s[..k]] + rest;
      assert Join(Split(s, c), c) == s[..k] + [c] + Join(rest, c);
      assert s == s[..k] + [c] + s[k + 1..];
    }
  }

  /** Splitting two separator-free pieces joined by the separator gives the
      two pieces back. */
  lemma SplitJoined(a: string, b: string, c: char)
    requires c !in a && c !in b
    ensures Split(a + [c] + b, c) == [a, b]
  {
    var s := a + [c] + b;
    assert s[|a|] == c && s[..|a|] == a;
    var k := IndexOf(s, c);
    assert k == |a| by {
      assert s[..|a| + 1][|a|] == c;
    }
    assert s[k + 1..] == b;
  }

  /** The index of the first element satisfying p, or -1: `Array.prototype.findIndex`. */
  function FindIndex<T>(s: seq<T>, p: T -> bool): (r: int)
    ensures -1 <= r < |s|
    ensures r >= 0 ==> p(s[r]) && forall j :: 0 <= j < r ==> !p(s[j])
    ensures r == -1 <==> forall j :: 0 <= j < |s| ==> !p(s[j])
  {
    if s == [] then -1
    else if p(s[0]) then 0
    else
      var k := FindIndex(s[1..], p);
      if k == -1 then -1 else k + 1
  }

  /** `Array.prototype.find`: the first element satisfying p, `undefined` if none does. */
  function Find<T>(s: seq<T>, p: T -> bool): (r: Option<T>)
    ensures r.None? <==> forall j :: 0 <= j < |s| ==> !p(s[j])
    ensures r.Some? ==> r.value in s && p(r.value)
    ensures r.Some? ==> r.value == s[FindIndex(s, p)]
  {
    var k := FindIndex(s, p);
    if k == -1 then None else Some(s[k])
  }

  function DigitChar(d: nat): (c: char)
    requires d < 10
    ensures IsDigit(c)
  {
    "0123456789"[d]
  }

  function DigitValue(c: char): (d: nat)
    requires IsDigit(c)
    ensures d < 10 && DigitChar(d) == c
  {
    (c as int - '0' as int) as nat
  }

  /** A non-negative integer as a template literal renders it: decimal, no leading zero. */
  function NatToDecimal(n: nat): (r: string)
    ensures |r| > 0 && AllDigits(r)
    ensures r[0] != '0' || n == 0
    decreases n
  {
    if n < 10 then [DigitChar(n)] else NatToDecimal(n / 10) + [DigitChar(n % 10)]
  }

  /** An integer as a template literal renders it. */
  function IntToDecimal(n: int): (r: string)
    ensures |r| > 0
    ensures n >= 0 <==> IsDigit(r[0])
  {
    if n >= 0 then NatToDecimal(n) else "-" + NatToDecimal(-n)
  }

  /** The value of a string of decimal digits. */
  function DecimalValue(s: string): nat
    requires AllDigits(s)
  {
    if s == "" then 0 else DecimalValue(s[..|s| - 1]) * 10 + DigitValue(s[|s| - 1])
  }

  /** Reading back the rendering of n gives n. */
  lemma {:induction false} NatToDecimalRoundTrip(n: nat)
    ensures DecimalValue(NatToDecimal(n)) == n
    decreases n
  {
    var r := NatToDecimal(n);
    if n >= 10 {
      NatToDecimalRoundTrip(n / 10);
      assert r[..|r| - 1] == NatToDecimal(n / 10);
    }
  }

  /** Distinct naturals have distinct renderings. */
  lemma NatToDecimalInjective(m: nat, n: nat)
    requires NatToDecimal(m) == NatToDecimal(n)
    ensures m == n
  {
    NatToDecimalRoundTrip(m);
    NatToDecimalRoundTrip(n);
  }

  /** The rendering is injective, so distinct slider values give distinct texts. */
  lemma IntToDecimalInjective(m: int, n: int)
    requires IntToDecimal(m) == IntToDecimal(n)
    ensures m == n
  {
    if m >= 0 && n >= 0 {
      NatToDecimalInjective(m, n);
    } else if m < 0 && n < 0 {
      var r := IntToDecimal(m);
      assert r[1..] == NatToDecimal(-m);
      assert r[1..] == NatToDecimal(-n);
      NatToDecimalInjective(-m, -n);
    }
  }
}
