/**
 * Values shared by every part of the model: optional values, the outcome of a
 * Python call that may raise, JSON values, IEEE doubles as far as the model
 * needs them, and the Python string operations the backend relies on.
 */
module Common {

  datatype Option<+T> = None | Some(value: T) {
    function GetOr(default: T): T {
      if Some? then value else default
    }
  }

  /** What a Python call does: return a value, or raise an exception whose
      `str(e)` is `error`. */
  datatype Outcome<+T> = Returned(value: T) | Raised(error: string)

  /** A decoded JSON value, as `json.loads` produces it. */
  datatype Json =
    | JNull
    | JBool(b: bool)
    | JNum(n: real)
    | JStr(s: string)
    | JArr(items: seq<Json>)
    | JObj(fields: map<string, Json>)

  /** `d.get(k, default)` on a Python dictionary. */
  function Get<K, V>(d: map<K, V>, k: K, default: V): V {
    if k in d then d[k] else default
  }

  /** `str(e)` of the IndexError pandas raises for `iloc[k]` outside a series. */
  const IndexOutOfBounds: string := "single positional indexer is out-of-bounds"

  function Min(a: int, b: int): int { if a <= b then a else b }

  /** One row of a price history: the OHLCV columns of the provider's frame. */
  datatype Bar = Bar(open: real, high: real, low: real, close: real, volume: real)

  /** A price history, oldest row first. */
  type PriceSeries = seq<Bar>

  function Closes(h: PriceSeries): (c: seq<real>)
    ensures |c| == |h| && forall i | 0 <= i < |h| :: c[i] == h[i].close
  {
    seq(|h|, i requires 0 <= i < |h| => h[i].close)
  }

  /** Python's `int(x)` on a finite float: truncation toward zero. */
  function Trunc(x: real): int {
    if x >= 0.0 then x.Floor else -((-x).Floor)
  }

  /** `int(x)` keeps the whole part and drops the fraction toward zero. */
  lemma {:induction false} TruncTowardZero(x: real)
    ensures x >= 0.0 ==> 0 <= Trunc(x) && Trunc(x) as real <= x < Trunc(x) as real + 1.0
    ensures x < 0.0 ==> Trunc(x) <= 0 && Trunc(x) as real - 1.0 < x <= Trunc(x) as real
  {
  }

  // ---------------------------------------------------------------------
  // IEEE doubles
  // ---------------------------------------------------------------------

  /** A float64 as the indicator and price arithmetic sees it: a finite value,
      an infinity, or NaN (what pandas yields for a rolling window that is
      longer than the series and for 0/0). */
  datatype Float = Finite(v: real) | PosInf | NegInf | NaN

  /** `x < y` on floats: false whenever either side is NaN. */
  predicate Less(x: Float, y: Float) {
    if x.NaN? || y.NaN? then false
    else if x.Finite? && y.Finite? then x.v < y.v
    else (x.NegInf? && !y.NegInf?) || (y.PosInf? && !x.PosInf?)
  }

  /** `a / b` on floats (numpy semantics: no exception on a zero divisor). */
  function Div(a: real, b: real): (r: Float)
    ensures b != 0.0 ==> r == Finite(a / b)
    ensures b == 0.0 ==> (r.PosInf? <==> a > 0.0) && (r.NegInf? <==> a < 0.0) && (r.NaN? <==> a == 0.0)
  {
    if b != 0.0 then Finite(a / b)
    else if a > 0.0 then PosInf
    else if a < 0.0 then NegInf
    else NaN
  }

  /** `x * c` for a positive constant `c`. */
  function Scale(x: Float, c: real): Float
    requires c > 0.0
  {
    match x
    case Finite(v) => Finite(v * c)
    case _ => x
  }

  /** The percentage change `(now - ref) / ref * 100`. */
  function PctChange(now: real, ref: real): Float {
    Scale(Div(now - ref, ref), 100.0)
  }

  // ---------------------------------------------------------------------
  // Python string operations
  // ---------------------------------------------------------------------

  /** `str.isspace()` for one character: the characters Python's `strip()`
      removes and the regular expression `\s` matches. */
  predicate IsSpace(c: char) {
    c == ' ' || ('\t' <= c <= '\r') || ('\U{1c}' <= c <= '\U{1f}')
    || c == '\U{85}' || c == '\U{a0}' || c == '\U{1680}'
    || ('\U{2000}' <= c <= '\U{200a}') || c == '\U{2028}' || c == '\U{2029}'
    || c == '\U{202f}' || c == '\U{205f}' || c == '\U{3000}'
  }

  /** `s.find(c)`: the first index of `c`, or -1. */
  function Find(s: string, c: char): (r: int)
    ensures -1 <= r < |s|
    ensures r == -1 <==> c !in s
    ensures r >= 0 ==> s[r] == c && forall i | 0 <= i < r :: s[i] != c
  {
    if |s| == 0 then -1
    else if s[0] == c then 0
    else
      var k := Find(s[1..], c);
      assert s == [s[0]] + s[1..];
      if k == -1 then -1
      else
        assert s[..k + 1] == [s[0]] + s[1..][..k];
        k + 1
  }

  /** `s.rfind(c)`: the last index of `c`, or -1. */
  function RFind(s: string, c: char): (r: int)
    ensures -1 <= r < |s|
    ensures r == -1 <==> c !in s
    ensures r >= 0 ==> s[r] == c && forall i | r < i < |s| :: s[i] != c
  {
    if |s| == 0 then -1
    else if s[|s| - 1] == c then |s| - 1
    else
      var k := RFind(s[..|s| - 1], c);
      assert s == s[..|s| - 1] + [s[|s| - 1]];
      if k >= 0 then
        assert s[k + 1..] == s[..|s| - 1][k + 1..] + [s[|s| - 1]];
        k
      else k
  }

  /** How Python normalises one bound of a slice `s[i:j]` of a sequence of
      length `n`: negative bounds count from the end, then both are clamped. */
  function SliceBound(i: int, n: nat): (r: nat)
    ensures r <= n
    ensures 0 <= i <= n ==> r == i
    ensures i > n ==> r == n
    ensures i < 0 ==> r == if i + n < 0 then 0 else i + n
  {
    if i < 0 then (if i + n < 0 then 0 else i + n)
    else if i > n then n
    else i
  }

  /** Python's `s[i:j]`. */
  function Slice<T>(s: seq<T>, i: int, j: int): seq<T> {
    var lo, hi := SliceBound(i, |s|), SliceBound(j, |s|);
    if lo < hi then s[lo..hi] else []
  }

  /** Python's `s[:n]` for `n >= 0`. */
  function Take<T>(s: seq<T>, n: nat): (r: seq<T>)
    ensures |r| <= n && |r| <= |s|
    ensures r == s[..|r|]
    ensures |s| <= n ==> r == s
    ensures |s| > n ==> |r| == n
  {
    if |s| <= n then s else s[..n]
  }

  function StripLeft(s: string): (r: string)
    ensures |r| <= |s| && r == s[|s| - |r|..]
    ensures r == [] || !IsSpace(r[0])
  {
    if |s| > 0 && IsSpace(s[0]) then StripLeft(s[1..]) else s
  }

  function StripRight(s: string): (r: string)
    ensures |r| <= |s| && r == s[..|r|]
    ensures r == [] || !IsSpace(r[|r| - 1])
  {
    if |s| > 0 && IsSpace(s[|s| - 1]) then StripRight(s[..|s| - 1]) else s
  }

  /** How many leading characters `strip()` removes. */
  function StripOffset(s: string): nat {
    |s| - |StripLeft(s)|
  }

  /** `s.strip()`: the slice of `s` left after removing leading and trailing
      whitespace. */
  function Strip(s: string): (r: string)
    ensures StripOffset(s) + |r| <= |s|
    ensures r == s[StripOffset(s)..StripOffset(s) + |r|]
    ensures r == [] || (!IsSpace(r[0]) && !IsSpace(r[|r| - 1]))
  {
    var l := StripLeft(s);
    var r := StripRight(l);
    assert r == s[|s| - |l|..][..|r|] == s[|s| - |l|..|s| - |l| + |r|];
    r
  }

  function UpperChar(c: char): char {
    if 'a' <= c <= 'z' then (c as int - 32) as char else c
  }

  function LowerChar(c: char): char {
    if 'A' <= c <= 'Z' then (c as int + 32) as char else c
  }

  /** `s.upper()` on the ASCII letters. */
  function Upper(s: string): (r: string)
    ensures |r| == |s|
    ensures forall i | 0 <= i < |s| :: r[i] == UpperChar(s[i])
  {
    seq(|s|, i requires 0 <= i < |s| => UpperChar(s[i]))
  }

  /** `s.lower()` on the ASCII letters. */
  function Lower(s: string): (r: string)
    ensures |r| == |s|
    ensures forall i | 0 <= i < |s| :: r[i] == LowerChar(s[i])
  {
    seq(|s|, i requires 0 <= i < |s| => LowerChar(s[i]))
  }

  /** `s.startswith(p)`. */
  predicate StartsWith(s: string, p: string) {
    |p| <= |s| && s[..|p|] == p
  }

  /** The decimal text of a natural number, as `str(n)` writes it. */
  function NatToString(n: nat): (r: string)
    ensures |r| >= 1
    ensures forall i | 0 <= i < |r| :: '0' <= r[i] <= '9'
    decreases n
  {
    var d := ['0' + (n % 10) as char];
    if n < 10 then d else NatToString(n / 10) + d
  }

  /** Whether every character of `s` is a decimal digit. */
  predicate AllDigits(s: string) {
    forall i | 0 <= i < |s| :: '0' <= s[i] <= '9'
  }

  /** The number a string of decimal digits denotes, as `int(s)` reads it;
      leading zeros add nothing. */
  function DecimalValue(s: string): nat
    requires AllDigits(s)
    decreases |s|
  {
    if |s| == 0 then 0 else DecimalValue(s[..|s| - 1]) * 10 + (s[|s| - 1] as int - '0' as int)
  }

  /** `str` and `int` are inverse: the decimal text of `n` denotes `n`. */
  lemma {:induction false} NatToStringValue(n: nat)
    ensures AllDigits(NatToString(n)) && DecimalValue(NatToString(n)) == n
    decreases n
  {
    var d := ['0' + (n % 10) as char];
    if n >= 10 {
      NatToStringValue(n / 10);
      var s := NatToString(n / 10) + d;
      assert s[..|s| - 1] == NatToString(n / 10);
    }
  }

  /** Leading zeros do not change the value. */
  lemma {:induction false} LeadingZerosValue(k: nat, s: string)
    requires AllDigits(s)
    ensures AllDigits(seq(k, _ => '0') + s)
    ensures DecimalValue(seq(k, _ => '0') + s) == DecimalValue(s)
    decreases |s|, k
  {
    var z: string := seq(k, _ => '0');
    var t := z + s;
    assert AllDigits(t) by {
      forall i | 0 <= i < |t| ensures '0' <= t[i] <= '9' {
        if i >= k {
          assert t[i] == s[i - k];
        }
      }
    }
    if |s| > 0 {
      var front := s[..|s| - 1];
      LeadingZerosValue(k, front);
      assert t[..|t| - 1] == z + front;
      assert t[|t| - 1] == s[|s| - 1];
    } else if k > 0 {
      var z1: string := seq(k - 1, _ => '0');
      LeadingZerosValue(k - 1, s);
      assert t[..|t| - 1] == z1 + s;
    }
  }

  /** `sep.join(parts)`. */
  function Join(sep: string, parts: seq<string>): string {
    if |parts| == 0 then ""
    else if |parts| == 1 then parts[0]
    else parts[0] + sep + Join(sep, parts[1..])
  }

  /** `"".join(parts)`. */
  function Concat(parts: seq<string>): string {
    if |parts| == 0 then "" else parts[0] + Concat(parts[1..])
  }

  // ---------------------------------------------------------------------
  // Lemmas about the string operations
  // ---------------------------------------------------------------------

  /** Regrouping a concatenation; stated generically so that sequences of
      strings are not compared element by element. */
  lemma {:induction false} AppendAssoc<T>(a: seq<T>, b: seq<T>, c: seq<T>)
    ensures (a + b) + c == a + (b + c)
  {
  }

  /** A Python slice with in-range bounds is Dafny's slice. */
  lemma {:induction false} SliceInRange<T>(s: seq<T>, i: int, j: int)
    requires 0 <= i <= j <= |s|
    ensures Slice(s, i, j) == s[i..j]
  {
  }

  lemma {:induction false} TakeStep<T>(s: seq<T>, i: nat)
    requires i < |s|
    ensures s[..i + 1] == s[..i] + [s[i]]
  {
  }

  lemma {:induction false} TakeAll<T>(s: seq<T>)
    ensures s[..|s|] == s
  {
  }

  /** Dropping a key, recreating it and then setting it is setting it. */
  lemma {:induction false} MapReplace<K, V>(m: map<K, V>, k: K, a: V, b: V)
    ensures (m - {k})[k := a][k := b] == m[k := b]
  {
  }

  /** The blocks `f(x)` of the elements of `xs`, concatenated in order. */
  function FlatMap<S, T>(xs: seq<S>, f: S -> seq<T>): seq<T> {
    if |xs| == 0 then [] else FlatMap(xs[..|xs| - 1], f) + f(xs[|xs| - 1])
  }

  /** One more element adds its block at the end. */
  lemma {:induction false} FlatMapStep<S, T>(xs: seq<S>, f: S -> seq<T>, k: nat)
    requires k < |xs|
    ensures FlatMap(xs[..k + 1], f) == FlatMap(xs[..k], f) + f(xs[k])
  {
    assert xs[..k + 1][..k] == xs[..k];
  }

  /** Element `k`'s block starts right after the blocks of the elements
      before it. */
  lemma {:induction false} FlatMapAt<S, T>(xs: seq<S>, f: S -> seq<T>, k: nat, i: nat)
    requires k < |xs| && i < |f(xs[k])|
    ensures |FlatMap(xs[..k], f)| + i < |FlatMap(xs, f)|
    ensures FlatMap(xs, f)[|FlatMap(xs[..k], f)| + i] == f(xs[k])[i]
    decreases |xs|
  {
    var n := |xs|;
    var front := xs[..n - 1];
    if k == n - 1 {
      assert xs[..k] == front;
      IndexRight(FlatMap(front, f), f(xs[k]), i);
    } else {
      PrefixOfPrefix(xs, n - 1, k);
      FlatMapAt(front, f, k, i);
      IndexLeft(FlatMap(front, f), f(xs[n - 1]), |FlatMap(xs[..k], f)| + i);
    }
  }

  /** Blocks of equal lengths concatenate to equal lengths. */
  lemma {:induction false} FlatMapLength<S, T, U>(xs: seq<S>, f: S -> seq<T>, g: S -> seq<U>)
    requires forall x | x in xs :: |f(x)| == |g(x)|
    ensures |FlatMap(xs, f)| == |FlatMap(xs, g)|
    decreases |xs|
  {
    if |xs| > 0 {
      var front := xs[..|xs| - 1];
      assert forall x | x in front :: x in xs;
      FlatMapLength(front, f, g);
      assert xs[|xs| - 1] in xs;
    }
  }

  /** The first index in `text[lo..hi]` that is not whitespace, or `hi`. */
  function LeftEdge(text: string, lo: nat, hi: nat): (r: nat)
    requires lo <= hi <= |text|
    ensures lo <= r <= hi
    decreases hi - lo
  {
    if lo < hi && IsSpace(text[lo]) then LeftEdge(text, lo + 1, hi) else lo
  }

  /** One past the last index in `text[lo..hi]` that is not whitespace, or
      `lo`. */
  function RightEdge(text: string, lo: nat, hi: nat): (r: nat)
    requires lo <= hi <= |text|
    ensures lo <= r <= hi
    decreases hi - lo
  {
    if lo < hi && IsSpace(text[hi - 1]) then RightEdge(text, lo, hi - 1) else hi
  }

  lemma {:induction false} StripLeftEdge(text: string, lo: nat, hi: nat)
    requires lo <= hi <= |text|
    ensures StripLeft(text[lo..hi]) == text[LeftEdge(text, lo, hi)..hi]
    decreases hi - lo
  {
    var t := text[lo..hi];
    if lo < hi && IsSpace(text[lo]) {
      assert t[0] == text[lo];
      assert t[1..] == text[lo + 1..hi];
      StripLeftStep(t);
      assert LeftEdge(text, lo, hi) == LeftEdge(text, lo + 1, hi);
      StripLeftEdge(text, lo + 1, hi);
    } else {
      assert lo < hi ==> t[0] == text[lo];
      StripLeftStep(t);
      assert LeftEdge(text, lo, hi) == lo;
    }
  }

  lemma {:induction false} StripRightEdge(text: string, lo: nat, hi: nat)
    requires lo <= hi <= |text|
    ensures StripRight(text[lo..hi]) == text[lo..RightEdge(text, lo, hi)]
    decreases hi - lo
  {
    var t := text[lo..hi];
    if lo < hi && IsSpace(text[hi - 1]) {
      assert t[|t| - 1] == text[hi - 1];
      assert t[..|t| - 1] == text[lo..hi - 1];
      StripRightStep(t);
      assert RightEdge(text, lo, hi) == RightEdge(text, lo, hi - 1);
      StripRightEdge(text, lo, hi - 1);
    } else {
      assert lo < hi ==> t[|t| - 1] == text[hi - 1];
      StripRightStep(t);
      assert RightEdge(text, lo, hi) == hi;
    }
  }

  /** One step of `StripLeft`: a leading space goes, anything else stays. */
  lemma {:induction false} StripLeftStep(t: string)
    ensures |t| > 0 && IsSpace(t[0]) ==> StripLeft(t) == StripLeft(t[1..])
    ensures |t| == 0 || !IsSpace(t[0]) ==> StripLeft(t) == t
  {
  }

  /** One step of `StripRight`: a trailing space goes, anything else stays. */
  lemma {:induction false} StripRightStep(t: string)
    ensures |t| > 0 && IsSpace(t[|t| - 1]) ==> StripRight(t) == StripRight(t[..|t| - 1])
    ensures |t| == 0 || !IsSpace(t[|t| - 1]) ==> StripRight(t) == t
  {
  }

  /** Stripping a slice keeps the part between its whitespace edges. */
  lemma {:induction false} StripSlice(text: string, lo: nat, hi: nat)
    requires lo <= hi <= |text|
    ensures Strip(text[lo..hi]) == text[LeftEdge(text, lo, hi)..RightEdge(text, LeftEdge(text, lo, hi), hi)]
  {
    StripLeftEdge(text, lo, hi);
    StripRightEdge(text, LeftEdge(text, lo, hi), hi);
  }

  /** A prefix of a prefix, and an element inside it. */
  lemma {:induction false} PrefixOfPrefix<T>(s: seq<T>, n: nat, k: nat)
    requires k < n <= |s|
    ensures s[..n][..k] == s[..k] && s[..n][k] == s[k]
  {
  }

  /** A prefix of a slice is the shorter slice. */
  lemma {:induction false} SliceOfSlice<T>(s: seq<T>, o: nat, t: seq<T>, r: seq<T>)
    requires o + |t| <= |s| && t == s[o..o + |t|] && |r| <= |t| && r == t[..|r|]
    ensures o + |r| <= |s| && r == s[o..o + |r|]
  {
    assert s[o..o + |t|][..|r|] == s[o..o + |r|];
  }

  lemma {:induction false} PrefixTrans<T>(a: seq<T>, b: seq<T>, c: seq<T>)
    requires a <= b && b <= c
    ensures a <= c
  {
    assert c[..|b|] == b;
    assert b[..|a|] == a;
    assert c[..|a|] == c[..|b|][..|a|];
  }

  lemma {:induction false} PrefixExtend<T>(a: seq<T>, b: seq<T>, c: seq<T>)
    requires a <= b
    ensures a <= b + c
  {
    assert (b + c)[..|b|] == b;
  }

  lemma {:induction false} IndexLeft<T>(a: seq<T>, b: seq<T>, p: nat)
    requires p < |a|
    ensures (a + b)[p] == a[p]
  {
  }

  lemma {:induction false} IndexRight<T>(a: seq<T>, b: seq<T>, i: nat)
    requires i < |b|
    ensures (a + b)[|a| + i] == b[i]
  {
  }

  lemma {:induction false} AppendNil<T>(a: seq<T>)
    ensures a + [] == a
  {
  }

  /** Moving one step from the pending part of a loop's output to the part
      it has collected. */
  lemma {:induction false} Regroup<T>(all: seq<T>, done: seq<T>, todo: seq<T>, step: seq<T>, rest: seq<T>)
    requires all == done + todo && todo == step + rest
    ensures all == (done + step) + rest
  {
  }

  lemma {:induction false} UpperIdempotent(s: string)
    ensures Upper(Upper(s)) == Upper(s)
  {
  }

  lemma {:induction false} StripLeftOfClean(s: string)
    requires s == [] || !IsSpace(s[0])
    ensures StripLeft(s) == s
  {
  }

  lemma {:induction false} StripRightOfClean(s: string)
    requires s == [] || !IsSpace(s[|s| - 1])
    ensures StripRight(s) == s
  {
  }

  /** `lstrip` removes only whitespace. */
  lemma {:induction false} StripLeftRemovesSpaces(s: string)
    ensures forall i | 0 <= i < |s| - |StripLeft(s)| :: IsSpace(s[i])
    decreases |s|
  {
    if |s| > 0 && IsSpace(s[0]) {
      StripLeftRemovesSpaces(s[1..]);
    }
  }

  /** `rstrip` removes only whitespace. */
  lemma {:induction false} StripRightRemovesSpaces(s: string)
    ensures forall i | |StripRight(s)| <= i < |s| :: IsSpace(s[i])
    decreases |s|
  {
    if |s| > 0 && IsSpace(s[|s| - 1]) {
      StripRightRemovesSpaces(s[..|s| - 1]);
    }
  }

  /** Stripping twice is stripping once. */
  lemma {:induction false} StripIdempotent(s: string)
    ensures Strip(Strip(s)) == Strip(s)
  {
    var r := Strip(s);
    StripLeftOfClean(r);
    StripRightOfClean(r);
  }

  lemma {:induction false} UpperKeepsSpaces(c: char)
    ensures IsSpace(UpperChar(c)) <==> IsSpace(c)
  {
  }

  lemma {:induction false} UpperStripLeft(s: string)
    ensures Upper(StripLeft(s)) == StripLeft(Upper(s))
    decreases |s|
  {
    if |s| > 0 {
      UpperKeepsSpaces(s[0]);
      if IsSpace(s[0]) {
        assert Upper(s)[1..] == Upper(s[1..]);
        UpperStripLeft(s[1..]);
      }
    }
  }

  lemma {:induction false} UpperStripRight(s: string)
    ensures Upper(StripRight(s)) == StripRight(Upper(s))
    decreases |s|
  {
    if |s| > 0 {
      UpperKeepsSpaces(s[|s| - 1]);
      if IsSpace(s[|s| - 1]) {
        assert Upper(s)[..|s| - 1] == Upper(s[..|s| - 1]);
        UpperStripRight(s[..|s| - 1]);
      }
    }
  }

  /** Upper-casing commutes with stripping: neither changes which characters
      are whitespace. */
  lemma {:induction false} UpperStripCommute(s: string)
    ensures Upper(Strip(s)) == Strip(Upper(s))
  {
    UpperStripLeft(s);
    UpperStripRight(StripLeft(s));
  }

  /** `s.upper().strip()` applied twice is applied once. */
  lemma {:induction false} NormalizeTickerIdempotent(s: string)
    ensures Strip(Upper(Strip(Upper(s)))) == Strip(Upper(s))
  {
    UpperStripCommute(Upper(s));
    UpperIdempotent(s);
    StripIdempotent(Upper(s));
  }
}
