/** IPv4 addresses: from the kernel's 32-bit word to the dotted string every other part compares. */
module Address {
  import opened Strings

  type Uint32 = n: int | 0 <= n < 0x1_0000_0000
  type Byte = n: int | 0 <= n < 256

  /** The four bytes the program stores, least significant first. */
  function Octets(ip: Uint32): seq<Byte> {
    [ip % 256, ip / 0x100 % 256, ip / 0x1_0000 % 256, ip / 0x100_0000 % 256]
  }

  function Decimal(n: nat): string {
    var digit := [(n % 10 + '0' as int) as char];
    if n < 10 then digit else Decimal(n / 10) + digit
  }

  predicate IsDigit(c: char) { '0' <= c <= '9' }

  predicate AllDigits(s: string) { forall i :: 0 <= i < |s| ==> IsDigit(s[i]) }

  /** The number a run of digits denotes. */
  function Value(s: string): nat
    requires AllDigits(s)
  {
    if s == [] then 0 else Value(s[..|s| - 1]) * 10 + (s[|s| - 1] as int - '0' as int)
  }

  /** How `net.IP.String` prints four bytes. */
  function Dotted(o: seq<Byte>): string
    requires |o| == 4
  {
    Decimal(o[0]) + "." + (Decimal(o[1]) + "." + (Decimal(o[2]) + "." + Decimal(o[3])))
  }

  function Printed(ip: Uint32): string { Dotted(Octets(ip)) }

  /** The address read as a number with the first printed octet most significant. */
  function Numeric(o: seq<int>): int
    requires |o| == 4
  {
    ((o[0] * 256 + o[1]) * 256 + o[2]) * 256 + o[3]
  }

  method Uint32ToIP(ip: Uint32) returns (s: string)
    ensures s == Printed(ip)
  {
    var bytes := new Byte[4];
    bytes[0] := ip % 256;
    bytes[1] := ip / 0x100 % 256;
    bytes[2] := ip / 0x1_0000 % 256;
    bytes[3] := ip / 0x100_0000 % 256;
    assert bytes[..] == Octets(ip);
    s := Dotted(bytes[..]);
  }

  lemma {:induction false} DecimalRoundTrip(n: nat)
    ensures AllDigits(Decimal(n)) && Value(Decimal(n)) == n
    ensures |Decimal(n)| > 0 && (n > 0 ==> Decimal(n)[0] != '0') && (n < 10 ==> |Decimal(n)| == 1)
    ensures n < 1000 ==> |Decimal(n)| <= 3
  {
    var s := Decimal(n);
    if n < 10 {
      assert s[..0] == "";
    } else {
      DecimalRoundTrip(n / 10);
      assert s[..|s| - 1] == Decimal(n / 10);
      if n < 1000 && n / 10 >= 10 { DecimalRoundTrip(n / 100); }
    }
  }

  /** Splitting a printed address at its dots gives back the four numbers. */
  lemma SplitDotted(o: seq<Byte>)
    requires |o| == 4
    ensures Split(Dotted(o), '.') == [Decimal(o[0]), Decimal(o[1]), Decimal(o[2]), Decimal(o[3])]
  {
    forall i | 0 <= i < 4 ensures '.' !in Decimal(o[i]) { DecimalRoundTrip(o[i]); }
    var t3 := Decimal(o[3]);
    var t2 := Decimal(o[2]) + "." + t3;
    var t1 := Decimal(o[1]) + "." + t2;
    SplitWhole(t3, '.');
    SplitFirst(Decimal(o[2]), '.', t3);
    SplitFirst(Decimal(o[1]), '.', t2);
    SplitFirst(Decimal(o[0]), '.', t1);
    assert Dotted(o) == Decimal(o[0]) + "." + t1;
  }

  lemma DottedInjective(a: seq<Byte>, b: seq<Byte>)
    requires |a| == |b| == 4 && Dotted(a) == Dotted(b)
    ensures a == b
  {
    SplitDotted(a);
    SplitDotted(b);
    forall i | 0 <= i < 4 ensures a[i] == b[i] {
      assert Split(Dotted(a), '.')[i] == Split(Dotted(b), '.')[i];
      DecimalRoundTrip(a[i]);
      DecimalRoundTrip(b[i]);
    }
  }

  /** Inverse of `Octets`. */
  function Recompose(o: seq<int>): int
    requires |o| == 4
  {
    o[0] + 256 * (o[1] + 256 * (o[2] + 256 * o[3]))
  }

  lemma OctetsRecompose(x: Uint32)
    ensures x == Recompose(Octets(x))
  {
    var q1, q2, q3 := x / 0x100, x / 0x1_0000, x / 0x100_0000;
    assert q2 == q1 / 256 && q3 == q2 / 256;
  }

  /** Two kernel addresses print alike only when they are the same address. */
  lemma PrintedInjective(a: Uint32, b: Uint32)
    ensures Printed(a) == Printed(b) <==> a == b
  {
    if Printed(a) == Printed(b) {
      DottedInjective(Octets(a), Octets(b));
      OctetsRecompose(a);
      OctetsRecompose(b);
    }
  }
}
