/**
 * The few Python built-ins the globe's core relies on, stated exactly:
 * whitespace as `str.isspace` sees it, `str.lstrip`/`str.strip`, `str.split()`
 * without arguments, `int(str)` in base 10 over ASCII digits, `round()` (half to even) and the
 * floored `%` that Python applies to a float angle.
 */
module Builtins {
  import opened Common

  /** Python's `str.isspace` for one character (the set also used by
      `strip`, `split` and the regular-expression class `\s`). */
  predicate IsSpace(c: char) {
    var n := c as int;
    (9 <= n <= 13) || (28 <= n <= 32) || n == 0x85 || n == 0xA0 || n == 0x1680
    || (0x2000 <= n <= 0x200A) || n == 0x2028 || n == 0x2029 || n == 0x202F
    || n == 0x205F || n == 0x3000
  }

  /** An ASCII digit, the class `[0-9]` of a regular expression. */
  predicate IsDigit(c: char) {
    '0' <= c <= '9'
  }

  predicate NoSpace(s: string) {
    forall i :: 0 <= i < |s| ==> !IsSpace(s[i])
  }

  predicate AllDigits(s: string) {
    forall i :: 0 <= i < |s| ==> IsDigit(s[i])
  }

  /** `s.lstrip()`: drops leading whitespace. */
  function LStrip(s: string): string {
    if s != [] && IsSpace(s[0]) then LStrip(s[1..]) else s
  }

  /** `LStrip` leaves a suffix, and what it drops is whitespace. */
  lemma {:induction false} LStripSuffix(s: string)
    ensures var r := LStrip(s);
      |r| <= |s| && r == s[|s| - |r|..]
      && (forall i :: 0 <= i < |s| - |r| ==> IsSpace(s[i]))
      && (r == [] || !IsSpace(r[0]))
  {
    if s != [] && IsSpace(s[0]) {
      var t := s[1..];
      LStripSuffix(t);
      var r := LStrip(t);
      assert t[|t| - |r|..] == s[|s| - |r|..];
      forall i | 0 <= i < |s| - |r|
        ensures IsSpace(s[i])
      {
        if i > 0 {
          assert s[i] == t[i - 1];
        }
      }
    }
  }

  /** `s.rstrip()`: drops trailing whitespace. */
  function RStrip(s: string): string {
    if s != [] && IsSpace(s[|s| - 1]) then RStrip(s[..|s| - 1]) else s
  }

  /** `RStrip` leaves a prefix, and what it drops is whitespace. */
  lemma {:induction false} RStripPrefix(s: string)
    ensures var r := RStrip(s);
      |r| <= |s| && r == s[..|r|]
      && (forall i :: |r| <= i < |s| ==> IsSpace(s[i]))
      && (r == [] || !IsSpace(r[|r| - 1]))
  {
    if s != [] && IsSpace(s[|s| - 1]) {
      var t := s[..|s| - 1];
      RStripPrefix(t);
      var r := RStrip(t);
      assert t[..|r|] == s[..|r|];
      forall i | |r| <= i < |s|
        ensures IsSpace(s[i])
      {
        if i < |s| - 1 {
          assert s[i] == t[i];
        }
      }
    }
  }

  /** `s.strip()`. */
  function Strip(s: string): string {
    RStrip(LStrip(s))
  }

  /** A string that neither starts nor ends with whitespace is its own strip. */
  lemma StripUntrimmed(s: string)
    requires s != [] && !IsSpace(s[0]) && !IsSpace(s[|s| - 1])
    ensures LStrip(s) == s && Strip(s) == s
  {
  }

  /** The longest prefix of `s` without whitespace. */
  function TakeWord(s: string): (w: string)
    ensures |w| <= |s| && w == s[..|w|]
    ensures NoSpace(w)
    ensures |w| == |s| || IsSpace(s[|w|])
  {
    if s == [] || IsSpace(s[0]) then [] else [s[0]] + TakeWord(s[1..])
  }

  /** The pieces of `xs`, one after another. */
  function Concat<T>(xs: seq<seq<T>>): seq<T> {
    if xs == [] then [] else Concat(xs[..|xs| - 1]) + xs[|xs| - 1]
  }

  lemma {:induction false} ConcatCons<T>(x: seq<T>, xs: seq<seq<T>>)
    ensures Concat([x] + xs) == x + Concat(xs)
    decreases |xs|
  {
    if xs != [] {
      var front := xs[..|xs| - 1];
      assert ([x] + xs)[..|xs|] == [x] + front;
      ConcatCons(x, front);
    }
  }

  /** The characters of `s` that are not whitespace, in order. */
  function NonSpaceChars(s: string): string {
    if s == [] then [] else (if IsSpace(s[0]) then [] else [s[0]]) + NonSpaceChars(s[1..])
  }

  lemma {:induction false} NonSpaceCharsAppend(a: string, b: string)
    ensures NonSpaceChars(a + b) == NonSpaceChars(a) + NonSpaceChars(b)
  {
    if a != [] {
      assert (a + b)[0] == a[0] && (a + b)[1..] == a[1..] + b;
      NonSpaceCharsAppend(a[1..], b);
    } else {
      assert a + b == b;
    }
  }

  lemma {:induction false} NonSpaceCharsOfWord(w: string)
    requires NoSpace(w)
    ensures NonSpaceChars(w) == w
  {
    if w != [] {
      NonSpaceCharsOfWord(w[1..]);
    }
  }

  /** `s.split()`: the maximal runs of non-whitespace characters, in order.
      Joined, the words give back every non-whitespace character of `s`;
      there are none exactly when `s` is all whitespace. */
  function Split(s: string): (words: seq<string>)
    ensures forall k :: 0 <= k < |words| ==> words[k] != [] && NoSpace(words[k])
    ensures Concat(words) == NonSpaceChars(s)
    ensures words == [] <==> forall i :: 0 <= i < |s| ==> IsSpace(s[i])
    decreases |s|
  {
    if s == [] then []
    else if IsSpace(s[0]) then
      var rest := Split(s[1..]);
      assert forall i :: 1 <= i < |s| ==> s[i] == s[1..][i - 1];
      rest
    else
      var w := TakeWord(s);
      var rest := Split(s[|w|..]);
      assert s == w + s[|w|..];
      NonSpaceCharsAppend(w, s[|w|..]);
      NonSpaceCharsOfWord(w);
      ConcatCons(w, rest);
      [w] + rest
  }

  /** A string with no whitespace at all is one word. */
  lemma TakeWordNoSpace(s: string)
    requires NoSpace(s)
    ensures TakeWord(s) == s
  {
  }

  function DigitValue(c: char): nat
    requires IsDigit(c)
  {
    c as int - '0' as int
  }

  function DigitChar(d: nat): (c: char)
    requires d < 10
    ensures IsDigit(c) && DigitValue(c) == d
  {
    (d + '0' as int) as char
  }

  /** ASCII decimal digits in which single underscores may separate two
      digits, the body Python's `int()` accepts after the sign when it is
      written in ASCII; `None` for anything else. */
  function DigitGroups(s: string): (r: Option<nat>)
    decreases |s|
  {
    if s == [] || !IsDigit(s[|s| - 1]) then None
    else
      var d := DigitValue(s[|s| - 1]);
      var front := s[..|s| - 1];
      if front == [] then Some(d)
      else
        var front' := if front[|front| - 1] == '_' then front[..|front| - 1] else front;
        match DigitGroups(front')
        case None => None
        case Some(v) => Some(10 * v + d)
  }

  /** Python's `int(s)` in base 10 for ASCII digits: surrounding whitespace,
      an optional sign, then digit groups. `None` stands for the ValueError
      Python raises; digits of other scripts, which Python also accepts, are
      read as an error here. */
  function ParseInt(s: string): Option<int> {
    var t := Strip(s);
    if t != [] && (t[0] == '+' || t[0] == '-') then
      match DigitGroups(t[1..])
      case None => None
      case Some(v) => Some(if t[0] == '-' then -(v as int) else v as int)
    else
      match DigitGroups(t)
      case None => None
      case Some(v) => Some(v)
  }

  /** A word that starts with a digit is read without a sign, so its value is never negative. */
  lemma ParseIntUnsigned(w: string)
    requires w != [] && NoSpace(w) && IsDigit(w[0])
    ensures ParseInt(w) == (match DigitGroups(w) case None => None case Some(v) => Some(v as int))
  {
    var last := |w| - 1;
    assert !IsSpace(w[last]);
    StripUntrimmed(w);
  }

  /** The decimal representation of `n`, without sign or leading zeros. */
  function Decimal(n: nat): (s: string)
    ensures s != [] && AllDigits(s)
  {
    if n < 10 then [DigitChar(n)] else Decimal(n / 10) + [DigitChar(n % 10)]
  }

  lemma {:induction false} DigitGroupsDecimal(n: nat)
    ensures DigitGroups(Decimal(n)) == Some(n)
  {
    if n >= 10 {
      DigitGroupsDecimal(n / 10);
      var s := Decimal(n);
      assert s[..|s| - 1] == Decimal(n / 10);
    }
  }

  /** `int(str(n)) == n`: `ParseInt` reads back what `Decimal` writes. */
  lemma {:induction false} ParseIntDecimal(n: nat)
    ensures ParseInt(Decimal(n)) == Some(n)
    ensures ParseInt("-" + Decimal(n)) == Some(-(n as int))
  {
    var s := Decimal(n);
    assert !IsSpace(s[0]) && !IsSpace(s[|s| - 1]);
    StripUntrimmed(s);
    DigitGroupsDecimal(n);
    var m := "-" + s;
    assert !IsSpace(m[0]) && !IsSpace(m[|m| - 1]);
    StripUntrimmed(m);
    assert m[1..] == s;
  }

  predicate IsIntegral(x: real) {
    x.Floor as real == x
  }

  /** Python's `round(x)`: the nearest integer, ties to the even neighbour. */
  function RoundHalfEven(x: real): (n: int)
    ensures n as real - 0.5 <= x <= n as real + 0.5
    ensures (x == n as real - 0.5 || x == n as real + 0.5) ==> n % 2 == 0
  {
    var f := x.Floor;
    var d := x - f as real;
    if d < 0.5 then f
    else if d > 0.5 then f + 1
    else if f % 2 == 0 then f
    else f + 1
  }

  /** Shifting by an even whole number shifts the rounding by as much. */
  lemma RoundHalfEvenShift(x: real, k: int)
    requires k % 2 == 0
    ensures RoundHalfEven(x + k as real) == RoundHalfEven(x) + k
  {
    assert (x + k as real).Floor == x.Floor + k;
    assert (x.Floor + k) % 2 == x.Floor % 2;
  }

  /** Python's `a % 360` on a float: the remainder in [0, 360) of a floored
      division, so `a` and the result differ by a whole number of turns. */
  function Mod360(a: real): (r: real)
    ensures 0.0 <= r < 360.0
    ensures IsIntegral((a - r) / 360.0)
  {
    a - 360.0 * (a / 360.0).Floor as real
  }

  /** When `a` lies in the q-th turn, `Mod360` removes exactly q turns. */
  lemma Mod360InPeriod(a: real, q: int)
    requires q as real * 360.0 <= a < q as real * 360.0 + 360.0
    ensures Mod360(a) == a - q as real * 360.0
  {
    var f := (a / 360.0).Floor;
    assert q as real <= a / 360.0;
    assert a / 360.0 < q as real + 1.0;
    assert f == q;
  }

  /** Reducing an angle twice changes nothing more: `(a % 360) % 360 == a % 360`. */
  lemma Mod360Idempotent(a: real)
    ensures Mod360(Mod360(a)) == Mod360(a)
  {
    Mod360InPeriod(Mod360(a), 0);
  }

  /** Python's `a % m` for a positive modulus, on floats as on ints: the
      remainder of a floored division. */
  function FloorMod(a: real, m: real): (r: real)
    requires m > 0.0
    ensures 0.0 <= r < m
    ensures IsIntegral((a - r) / m)
  {
    var q := (a / m).Floor as real;
    assert q <= a / m < q + 1.0;
    assert m * (a / m) == a;
    MulStrictlyMonotone(m, a / m, q + 1.0);
    assert m * (q + 1.0) == m * q + m;
    assert a - m * q < m;
    assert m * q <= a by {
      if q < a / m {
        MulStrictlyMonotone(m, q, a / m);
      }
    }
    assert (m * q) / m == q;
    a - m * q
  }

  lemma MulStrictlyMonotone(m: real, u: real, v: real)
    requires m > 0.0 && u < v
    ensures m * u < m * v
  {
    assert m * v - m * u == m * (v - u);
  }

  /** A list or numpy axis of length `n` indexed by `i`: a negative index
      counts from the end, and anything else outside raises IndexError (`None`). */
  function PyIndex(i: int, n: nat): (r: Option<nat>)
    ensures r.Some? <==> -(n as int) <= i < n
    ensures r.Some? ==> r.value < n && (r.value == i || r.value == i + n)
  {
    if 0 <= i < n then Some(i) else if -(n as int) <= i < 0 then Some(i + n) else None
  }
}
