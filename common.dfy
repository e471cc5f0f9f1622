/**
 * Shared vocabulary of the nmk model: an Option type, string helpers
 * (prefix/suffix/substring tests, joining, trimming) and decimal
 * rendering/parsing of natural numbers.
 */
module Common {

  datatype Option<T> = None | Some(value: T)

  /** `suffix` is a suffix of `s` (Rust `str::ends_with`). */
  predicate EndsWith(s: string, suffix: string) {
    |suffix| <= |s| && s[|s| - |suffix|..] == suffix
  }

  /** `sub` occurs somewhere in `s` (Rust `str::contains` with a `&str`). */
  predicate Contains(s: string, sub: string) {
    exists i :: 0 <= i <= |s| && sub <= s[i..]
  }

  /** Joins `parts` with `sep` between consecutive parts (Rust `join`, Python `str.join`). */
  function Join(sep: string, parts: seq<string>): string {
    if |parts| == 0 then ""
    else if |parts| == 1 then parts[0]
    else parts[0] + sep + Join(sep, parts[1..])
  }

  /** `n` copies of `c`. */
  function Repeat(c: char, n: nat): (r: string)
    ensures |r| == n
    ensures forall i :: 0 <= i < n ==> r[i] == c
  {
    seq(n, _ => c)
  }

  /** The strings `f` gives for the elements of `xs`, one after the other. */
  function ConcatMap<T>(f: T -> string, xs: seq<T>): string {
    if xs == [] then "" else f(xs[0]) + ConcatMap(f, xs[1..])
  }

  lemma {:induction false} ConcatMapAppend<T>(f: T -> string, a: seq<T>, b: seq<T>)
    ensures ConcatMap(f, a + b) == ConcatMap(f, a) + ConcatMap(f, b)
  {
    if a == [] {
      assert a + b == b;
    } else {
      assert (a + b)[1..] == a[1..] + b;
      ConcatMapAppend(f, a[1..], b);
    }
  }

  /** Order-preserving filter; the contract pins the result down completely:
      an order-preserving subsequence holding every kept element as often as
      the input does and nothing else. */
  function Filter<T(==,!new)>(p: T -> bool, s: seq<T>): (r: seq<T>)
    ensures |r| <= |s|
    ensures forall i :: 0 <= i < |r| ==> p(r[i])
    ensures forall x :: multiset(r)[x] == if p(x) then multiset(s)[x] else 0
    ensures IsSubsequence(r, s)
  {
    if s == [] then []
    else
      assert s == [s[0]] + s[1..];
      if p(s[0]) then [s[0]] + Filter(p, s[1..]) else Filter(p, s[1..])
  }

  /** `r` can be obtained from `s` by deleting elements. */
  predicate IsSubsequence<T(==)>(r: seq<T>, s: seq<T>)
    decreases |s|
  {
    if r == [] then true
    else if s == [] then false
    else if r[0] == s[0] then IsSubsequence(r[1..], s[1..])
    else IsSubsequence(r, s[1..])
  }

  /** Returns the first element of `cands` satisfying `found`, if any
      (Rust `Iterator::find`). */
  function FirstFound(cands: seq<string>, found: string -> bool): (r: Option<string>)
    ensures r.Some? ==> found(r.value)
    ensures r.Some? ==> exists k :: 0 <= k < |cands| && cands[k] == r.value
                          && forall j :: 0 <= j < k ==> !found(cands[j])
    ensures r.None? <==> forall j :: 0 <= j < |cands| ==> !found(cands[j])
  {
    if cands == [] then None
    else if found(cands[0]) then Some(cands[0])
    else
      var r := FirstFound(cands[1..], found);
      FirstFoundShift(cands, found, r);
      r
  }

  lemma FirstFoundShift(cands: seq<string>, found: string -> bool, r: Option<string>)
    requires cands != [] && !found(cands[0])
    requires r.Some? ==> exists k :: 0 <= k < |cands[1..]| && cands[1..][k] == r.value
                           && forall j :: 0 <= j < k ==> !found(cands[1..][j])
    ensures r.Some? ==> exists k :: 0 <= k < |cands| && cands[k] == r.value
                          && forall j :: 0 <= j < k ==> !found(cands[j])
  {
    if r.Some? {
      var k :| 0 <= k < |cands[1..]| && cands[1..][k] == r.value
               && forall j :: 0 <= j < k ==> !found(cands[1..][j]);
      assert cands[k + 1] == r.value;
      forall j | 0 <= j < k + 1 ensures !found(cands[j]) {
        if j > 0 { assert cands[j] == cands[1..][j - 1]; }
      }
    }
  }

  // ---------------------------------------------------------------------------
  // Decimal numbers

  predicate IsDigit(c: char) { '0' <= c <= '9' }

  function DigitChar(d: nat): (c: char)
    requires d < 10
    ensures IsDigit(c)
  {
    "0123456789"[d]
  }

  function DigitValue(c: char): (d: nat)
    requires IsDigit(c)
    ensures d < 10
  {
    (c as int - '0' as int) as nat
  }

  /** Decimal rendering without leading zeros (Rust `{}` / Python `str` of an integer). */
  function Decimal(n: nat): (r: string)
    ensures |r| > 0
    ensures forall i :: 0 <= i < |r| ==> IsDigit(r[i])
    ensures |r| > 1 ==> r[0] != '0'
  {
    if n < 10 then [DigitChar(n)] else Decimal(n / 10) + [DigitChar(n % 10)]
  }

  /** The first `k` characters of `s` are ASCII digits. */
  predicate DigitsUpTo(s: string, k: nat)
    requires k <= |s|
  {
    k == 0 || (IsDigit(s[k - 1]) && DigitsUpTo(s, k - 1))
  }

  predicate AllDigits(s: string) {
    DigitsUpTo(s, |s|)
  }

  lemma {:induction false} DigitsUpToSpec(s: string, k: nat)
    requires k <= |s|
    ensures DigitsUpTo(s, k) <==> forall i :: 0 <= i < k ==> IsDigit(s[i])
  {
    if k > 0 {
      DigitsUpToSpec(s, k - 1);
    }
  }

  /** Value of the digits `s[..k]`, most significant first. */
  function DigitsValue(s: string, k: nat): nat
    requires k <= |s| && DigitsUpTo(s, k)
  {
    if k == 0 then 0 else DigitsValue(s, k - 1) * 10 + DigitValue(s[k - 1])
  }

  /** Value of a string of decimal digits. */
  function DecimalValue(s: string): nat
    requires AllDigits(s)
  {
    DigitsValue(s, |s|)
  }

  lemma {:induction false} DigitsValuePrefix(s: string, t: string, k: nat)
    requires k <= |s| && k <= |t| && s[..k] == t[..k] && DigitsUpTo(s, k)
    ensures DigitsUpTo(t, k) && DigitsValue(s, k) == DigitsValue(t, k)
  {
    if k > 0 {
      assert s[k - 1] == s[..k][k - 1] == t[..k][k - 1] == t[k - 1];
      assert s[..k - 1] == s[..k][..k - 1] == t[..k][..k - 1] == t[..k - 1];
      DigitsValuePrefix(s, t, k - 1);
    }
  }

  lemma {:induction false} DecimalRoundTrip(n: nat)
    ensures AllDigits(Decimal(n)) && DecimalValue(Decimal(n)) == n
  {
    var s := Decimal(n);
    DigitsUpToSpec(s, |s|);
    if n < 10 {
      assert DigitValue(DigitChar(n)) == n;
      assert DigitsValue(s, 1) == DigitsValue(s, 0) * 10 + DigitValue(s[0]);
    } else {
      var init := Decimal(n / 10);
      assert s[..|s| - 1] == init[..|init|];
      DecimalRoundTrip(n / 10);
      DigitsValuePrefix(init, s, |init|);
      assert DigitValue(DigitChar(n % 10)) == n % 10;
    }
  }

  /** Largest value of the source's `usize` on a 64-bit host, plus one. */
  const USIZE_LIMIT: nat := 0x1_0000_0000_0000_0000

  /** Rust `str::parse::<usize>`: an optional `+`, then at least one ASCII
      digit and nothing else, and a value that fits in 64 bits. */
  function ParseUsize(s: string): (r: Option<nat>)
    ensures r.Some? ==> r.value < USIZE_LIMIT
  {
    var digits := if |s| > 0 && s[0] == '+' then s[1..] else s;
    if |digits| > 0 && AllDigits(digits) && DecimalValue(digits) < USIZE_LIMIT
    then Some(DecimalValue(digits))
    else None
  }

  lemma ParseDecimal(n: nat)
    requires n < USIZE_LIMIT
    ensures ParseUsize(Decimal(n)) == Some(n)
  {
    DecimalRoundTrip(n);
  }

  // ---------------------------------------------------------------------------
  // Whitespace trimming

  /** Unicode White_Space, the set Rust's `str::trim` removes. */
  predicate IsUnicodeWhitespace(c: char) {
    ('\t' <= c <= '\r') || c == ' ' || c == '\U{85}' || c == '\U{A0}'
    || c == '\U{1680}' || ('\U{2000}' <= c <= '\U{200A}') || c == '\U{2028}' || c == '\U{2029}'
    || c == '\U{202F}' || c == '\U{205F}' || c == '\U{3000}'
  }

  /** Length of `s[..k]` once its trailing white space is dropped. */
  function TrimmedEnd(s: string, k: nat): (e: nat)
    requires k <= |s|
    ensures e <= k
  {
    if k > 0 && IsUnicodeWhitespace(s[k - 1]) then TrimmedEnd(s, k - 1) else k
  }

  /** Index of the first character of `s[i..e]` that is not white space, or `e`. */
  function TrimmedStart(s: string, i: nat, e: nat): (b: nat)
    requires i <= e <= |s|
    ensures i <= b <= e
    decreases e - i
  {
    if i < e && IsUnicodeWhitespace(s[i]) then TrimmedStart(s, i + 1, e) else i
  }

  /** Rust `str::trim`: leading and trailing Unicode white space removed. */
  function Trim(s: string): string {
    var e := TrimmedEnd(s, |s|);
    s[TrimmedStart(s, 0, e)..e]
  }

  lemma {:induction false} TrimmedEndSpec(s: string, k: nat)
    requires k <= |s|
    ensures forall j :: TrimmedEnd(s, k) <= j < k ==> IsUnicodeWhitespace(s[j])
    ensures TrimmedEnd(s, k) > 0 ==> !IsUnicodeWhitespace(s[TrimmedEnd(s, k) - 1])
  {
    if k > 0 && IsUnicodeWhitespace(s[k - 1]) {
      TrimmedEndSpec(s, k - 1);
    }
  }

  lemma {:induction false} TrimmedStartSpec(s: string, i: nat, e: nat)
    requires i <= e <= |s|
    ensures forall j :: i <= j < TrimmedStart(s, i, e) ==> IsUnicodeWhitespace(s[j])
    ensures TrimmedStart(s, i, e) < e ==> !IsUnicodeWhitespace(s[TrimmedStart(s, i, e)])
    decreases e - i
  {
    if i < e && IsUnicodeWhitespace(s[i]) {
      TrimmedStartSpec(s, i + 1, e);
    }
  }

  /** `Trim(s)` is the infix `s[b..e]` such that everything outside it is
      white space and it neither starts nor ends with white space. */
  lemma TrimSpec(s: string)
    ensures exists b, e :: 0 <= b <= e <= |s| && Trim(s) == s[b..e]
              && (forall j :: 0 <= j < b ==> IsUnicodeWhitespace(s[j]))
              && (forall j :: e <= j < |s| ==> IsUnicodeWhitespace(s[j]))
              && (b < e ==> !IsUnicodeWhitespace(s[b]) && !IsUnicodeWhitespace(s[e - 1]))
  {
    var e := TrimmedEnd(s, |s|);
    var b := TrimmedStart(s, 0, e);
    TrimmedEndSpec(s, |s|);
    TrimmedStartSpec(s, 0, e);
    assert Trim(s) == s[b..e];
  }

  lemma {:induction false} TrimmedEndOver(s: string, k: nat, m: nat)
    requires 0 < m <= k <= |s| && !IsUnicodeWhitespace(s[m - 1])
    requires forall j :: m <= j < k ==> IsUnicodeWhitespace(s[j])
    ensures TrimmedEnd(s, k) == m
  {
    if k > m {
      TrimmedEndOver(s, k - 1, m);
    }
  }

  /** Trimming a word that neither starts nor ends with white space, followed
      by white space only (such as a line terminator), gives back the word. */
  lemma TrimNoWhitespace(s: string, tail: string)
    requires s != [] && !IsUnicodeWhitespace(s[0]) && !IsUnicodeWhitespace(s[|s| - 1])
    requires forall k :: 0 <= k < |tail| ==> IsUnicodeWhitespace(tail[k])
    ensures Trim(s + tail) == s
  {
    var x := s + tail;
    forall j | |s| <= j < |x| ensures IsUnicodeWhitespace(x[j]) {
      assert x[j] == tail[j - |s|];
    }
    TrimmedEndOver(x, |x|, |s|);
    assert x[..|s|] == s;
  }
}
