/** Shared datatypes, Go's integer division, and the string primitives the program takes from its libraries. */
module Common {

  datatype Option<+T> = None | Some(value: T)

  /** Go's integer division, which truncates toward zero (Dafny's own is Euclidean). */
  function TruncDiv(a: int, b: int): int
    requires b > 0
  {
    if a >= 0 then a / b else -((-a) / b)
  }

  lemma HeadIsIn<T>(a: seq<T>)
    ensures a == [] || a[0] in a
  {
  }

  lemma MulMonotone(x: int, y: int, b: int)
    requires b > 0
    ensures x <= y ==> x * b <= y * b
  {
  }

  lemma DivBounds(a: nat, b: nat)
    requires b > 0
    ensures a / b * b <= a < a / b * b + b
  {
    assert a == a / b * b + a % b;
  }

  /** Bounds on a product bound the factor. */
  lemma CancelFactor(x: int, y: int, b: int)
    requires b > 0 && x * b < y * b + b
    ensures x <= y
  {
    assert (y + 1) * b == y * b + b;
    MulMonotone(y + 1, x, b);
  }

  lemma TruncDivClose(a: int, b: int)
    requires b > 0
    ensures a - b < TruncDiv(a, b) * b < a + b
    ensures if a >= 0 then TruncDiv(a, b) * b <= a else TruncDiv(a, b) * b >= a
  {
    if a >= 0 {
      DivBounds(a, b);
    } else {
      DivBounds(-a, b);
      assert -((-a) / b) * b == -((-a) / b * b);
    }
  }

  /** The quotient is within one unit of the exact one, and stays between any bounds on it. */
  lemma TruncDivFacts(a: int, b: int, lo: int, hi: int)
    requires b > 0
    ensures a - b < TruncDiv(a, b) * b < a + b
    ensures lo * b <= a <= hi * b ==> lo <= TruncDiv(a, b) <= hi
  {
    TruncDivClose(a, b);
    hide TruncDiv;
    if lo * b <= a <= hi * b {
      CancelFactor(lo, TruncDiv(a, b), b);
      CancelFactor(TruncDiv(a, b), hi, b);
    }
  }

  lemma Fraction(a: nat, b: nat)
    requires a <= b && b > 0
    ensures 0.0 <= a as real / b as real <= 1.0
  {
  }

  /** One when `b` holds: what a guarded `++` adds. */
  function Bit(b: bool): nat {
    if b then 1 else 0
  }

  /** The sign of a three-way comparison. */
  function Sign(n: int): int {
    if n < 0 then -1 else if n == 0 then 0 else 1
  }
}

module Strings {

  predicate HasPrefix(s: string, prefix: string) { |prefix| <= |s| && s[..|prefix|] == prefix }

  /** Byte-wise `<` on strings. */
  predicate Less(a: string, b: string) {
    if b == [] then false
    else if a == [] then true
    else a[0] < b[0] || (a[0] == b[0] && Less(a[1..], b[1..]))
  }

  /** Exactly one of `a < b`, `a == b`, `b < a` holds. */
  lemma {:induction false} LessTrichotomy(a: string, b: string)
    ensures Less(a, b) <==> a != b && !Less(b, a)
  {
    if a == [] || b == [] {
    } else {
      LessTrichotomy(a[1..], b[1..]);
      assert a == [a[0]] + a[1..] && b == [b[0]] + b[1..];
    }
  }

  /** `strings.Split(s, sep)` for a one-character separator. */
  function Split(s: string, sep: char): (parts: seq<string>)
    ensures |parts| > 0
  {
    if s == [] then [""]
    else
      var rest := Split(s[1..], sep);
      if s[0] == sep then [""] + rest else [[s[0]] + rest[0]] + rest[1..]
  }

  lemma {:induction false} SplitWhole(s: string, sep: char)
    requires sep !in s
    ensures Split(s, sep) == [s]
  {
    if s == [] {
    } else {
      SplitWhole(s[1..], sep);
      assert [s[0]] + s[1..] == s;
    }
  }

  lemma {:induction false} SplitFirst(a: string, sep: char, rest: string)
    requires sep !in a
    ensures Split(a + [sep] + rest, sep) == [a] + Split(rest, sep)
  {
    var s := a + [sep] + rest;
    if a == [] {
      assert s[1..] == rest;
    } else {
      assert s[1..] == a[1..] + [sep] + rest;
      SplitFirst(a[1..], sep, rest);
      assert [a[0]] + a[1..] == a;
    }
  }
}
