/** The two comparators that order client addresses, and the serialised list they determine. */
module ClientOrder {
  import opened Common
  import opened Strings
  import opened Address
  import opened Registry

  // ---------- the server's comparator ----------

  /** A decimal field of an IPv4 address: one to three digits, no leading zero, at most 255. */
  predicate IsField(p: string) {
    0 < |p| <= 3 && AllDigits(p) && (|p| > 1 ==> p[0] != '0') && Value(p) < 256
  }

  /** `net.ParseIP` on IPv4 text. */
  function ParseIP(s: string): Option<seq<Byte>> {
    var f := Split(s, '.');
    if |f| == 4 && IsField(f[0]) && IsField(f[1]) && IsField(f[2]) && IsField(f[3])
    then Some([Value(f[0]), Value(f[1]), Value(f[2]), Value(f[3])]) else None
  }

  const V4_IN_V6: seq<Byte> := [0, 0, 0, 0, 0, 0, 0, 0, 0, 0, 255, 255]

  function To16(o: seq<Byte>): seq<Byte> { V4_IN_V6 + o }

  /** `bytes.Compare`. */
  function CompareBytes(a: seq<Byte>, b: seq<Byte>): int {
    if a == [] then (if b == [] then 0 else -1)
    else if b == [] then 1
    else if a[0] != b[0] then (if a[0] < b[0] then -1 else 1)
    else CompareBytes(a[1..], b[1..])
  }

  /** `strings.Compare`. */
  function CompareStrings(a: string, b: string): int {
    if a == b then 0 else if Less(a, b) then -1 else 1
  }

  function CompareClientIPs(a: string, b: string): int {
    var x, y := ParseIP(a), ParseIP(b);
    if x.Some? && y.Some? then CompareBytes(To16(x.value), To16(y.value)) else CompareStrings(a, b)
  }

  // ---------- the frontend's comparator ----------

  /** JavaScript's `Number` on a run of digits; the empty string is zero and anything else is not a number. */
  function ToNumber(p: string): Option<nat> {
    if AllDigits(p) then Some(Value(p)) else None
  }

  function IPSortKey(ip: string): Option<int> {
    var f := Split(ip, '.');
    if |f| == 4 && ToNumber(f[0]).Some? && ToNumber(f[1]).Some? && ToNumber(f[2]).Some? && ToNumber(f[3]).Some?
    then Some(Numeric([ToNumber(f[0]).value, ToNumber(f[1]).value, ToNumber(f[2]).value, ToNumber(f[3]).value]))
    else None
  }

  /** `locale` stands for `localeCompare`, used when either side has no numeric key. */
  function CompareIPs(a: string, b: string, locale: (string, string) -> int): int {
    var x, y := IPSortKey(a), IPSortKey(b);
    if x.Some? && y.Some? then x.value - y.value else locale(a, b)
  }

  // ---------- they agree ----------

  lemma FieldRoundTrip(b: Byte)
    ensures IsField(Decimal(b)) && Value(Decimal(b)) == b
  {
    DecimalRoundTrip(b);
  }

  lemma PrintedParses(ip: Uint32)
    ensures ParseIP(Printed(ip)) == Some(Octets(ip))
    ensures IPSortKey(Printed(ip)) == Some(Numeric(Octets(ip)))
  {
    var o := Octets(ip);
    SplitDotted(o);
    forall i | 0 <= i < 4 ensures IsField(Decimal(o[i])) && Value(Decimal(o[i])) == o[i] { FieldRoundTrip(o[i]); }
  }

  lemma {:induction false} CommonPrefix(p: seq<Byte>, a: seq<Byte>, b: seq<Byte>)
    ensures CompareBytes(p + a, p + b) == CompareBytes(a, b)
  {
    if p == [] {
      assert p + a == a && p + b == b;
    } else {
      assert (p + a)[1..] == p[1..] + a && (p + b)[1..] == p[1..] + b;
      CommonPrefix(p[1..], a, b);
    }
  }

  lemma FourBytes(a: seq<Byte>, b: seq<Byte>)
    requires |a| == |b| == 4
    ensures CompareBytes(a, b) == Sign(Numeric(a) - Numeric(b))
  {
    var a1, b1 := a[1..], b[1..];
    var a2, b2 := a1[1..], b1[1..];
    var a3, b3 := a2[1..], b2[1..];
    assert a3[1..] == [] && b3[1..] == [];
    assert a3[0] == b3[0] ==> CompareBytes(a3, b3) == CompareBytes([], []);
    assert a2[0] == b2[0] ==> CompareBytes(a2, b2) == CompareBytes(a3, b3);
    assert a1[0] == b1[0] ==> CompareBytes(a1, b1) == CompareBytes(a2, b2);
    assert a[0] == b[0] ==> CompareBytes(a, b) == CompareBytes(a1, b1);
  }

  /** On printed addresses both comparators are the numeric order of the octets. */
  lemma ComparatorsAgree(a: Uint32, b: Uint32, locale: (string, string) -> int)
    ensures CompareClientIPs(Printed(a), Printed(b)) == Sign(Numeric(Octets(a)) - Numeric(Octets(b)))
    ensures Sign(CompareIPs(Printed(a), Printed(b), locale)) == CompareClientIPs(Printed(a), Printed(b))
  {
    PrintedParses(a);
    PrintedParses(b);
    CommonPrefix(V4_IN_V6, Octets(a), Octets(b));
    FourBytes(Octets(a), Octets(b));
  }

  lemma SameOctets(x: seq<Byte>, y: seq<Byte>)
    requires |x| == |y| == 4 && Numeric(x) == Numeric(y)
    ensures x == y
  {
    assert x[0] == y[0] && x[1] == y[1] && x[2] == y[2] && x[3] == y[3];
  }

  lemma NumericInjective(a: Uint32, b: Uint32)
    ensures Numeric(Octets(a)) == Numeric(Octets(b)) <==> a == b
  {
    hide Numeric;
    if Numeric(Octets(a)) == Numeric(Octets(b)) { SameOctets(Octets(a), Octets(b)); }
    OctetsRecompose(a);
    OctetsRecompose(b);
  }

  /** Hence a strict total order on the addresses the registry can hold. */
  lemma StrictTotalOrder(a: Uint32, b: Uint32, c: Uint32)
    ensures CompareClientIPs(Printed(a), Printed(b)) == 0 <==> Printed(a) == Printed(b)
    ensures CompareClientIPs(Printed(a), Printed(b)) == -CompareClientIPs(Printed(b), Printed(a))
    ensures CompareClientIPs(Printed(a), Printed(b)) < 0 && CompareClientIPs(Printed(b), Printed(c)) < 0
        ==> CompareClientIPs(Printed(a), Printed(c)) < 0
  {
    var locale := (x: string, y: string) => 0;
    ComparatorsAgree(a, b, locale);
    ComparatorsAgree(b, a, locale);
    ComparatorsAgree(b, c, locale);
    ComparatorsAgree(a, c, locale);
    NumericInjective(a, b);
    PrintedInjective(a, b);
  }

  // ---------- the serialised list ----------

  ghost predicate IsPrinted(ip: string) { exists a: Uint32 :: Printed(a) == ip }

  predicate Before(x: Entry, y: Entry) { CompareClientIPs(x.ip, y.ip) < 0 }

  predicate SortedByIP(list: seq<Entry>) { forall i, j :: 0 <= i < j < |list| ==> Before(list[i], list[j]) }

  /** The order facts, restated for entries. */
  lemma EntryOrder(x: Entry, y: Entry, z: Entry)
    requires IsPrinted(x.ip) && IsPrinted(y.ip) && IsPrinted(z.ip)
    ensures x.ip != y.ip <==> Before(x, y) || Before(y, x)
    ensures !(Before(x, y) && Before(y, x))
    ensures Before(x, y) && Before(y, z) ==> Before(x, z)
  {
    var a: Uint32 :| Printed(a) == x.ip;
    var b: Uint32 :| Printed(b) == y.ip;
    var c: Uint32 :| Printed(c) == z.ip;
    StrictTotalOrder(a, b, c);
  }

  lemma SameLast(a: seq<Entry>, b: seq<Entry>)
    requires SortedByIP(a) && SortedByIP(b) && a != [] && b != []
    requires forall x :: x in a ==> IsPrinted(x.ip)
    requires forall x :: x in a <==> x in b
    ensures a[|a| - 1] == b[|b| - 1]
  {
    hide Before;
    var x, y := a[|a| - 1], b[|b| - 1];
    assert x in b && y in a;
    var i :| 0 <= i < |b| && b[i] == x;
    var j :| 0 <= j < |a| && a[j] == y;
    EntryOrder(x, y, x);
  }

  lemma LastIsApart(a: seq<Entry>)
    requires a != [] && SortedByIP(a) && IsPrinted(a[|a| - 1].ip)
    ensures SortedByIP(a[..|a| - 1])
    ensures forall z :: z in a[..|a| - 1] <==> z in a && z != a[|a| - 1]
  {
    hide Before;
    var last := a[|a| - 1];
    EntryOrder(last, last, last);
    assert a == a[..|a| - 1] + [last];
  }

  /** The list is determined by which entries are in it, not by the order they were met in. */
  lemma {:induction false} SortedListUnique(a: seq<Entry>, b: seq<Entry>)
    requires SortedByIP(a) && SortedByIP(b)
    requires forall x :: x in a ==> IsPrinted(x.ip)
    requires forall x :: x in a <==> x in b
    ensures a == b
    decreases |a|
  {
    hide Before, SortedByIP, IsPrinted;
    HeadIsIn(a);
    HeadIsIn(b);
    if a == [] || b == [] {
    } else {
      SameLast(a, b);
      var a', b' := a[..|a| - 1], b[..|b| - 1];
      assert b[|b| - 1] in b;
      LastIsApart(a);
      LastIsApart(b);
      forall z ensures z in a' <==> z in b' { assert z in a <==> z in b; }
      SortedListUnique(a', b');
      assert a == a' + [a[|a| - 1]] && b == b' + [b[|b| - 1]];
    }
  }

  /** Where the library sort puts an entry with a new address. */
  function InsertByIP(list: seq<Entry>, x: Entry): seq<Entry> {
    if list == [] || Before(list[|list| - 1], x) then list + [x]
    else InsertByIP(list[..|list| - 1], x) + [list[|list| - 1]]
  }

  lemma {:induction false} InsertKeepsSorted(list: seq<Entry>, x: Entry)
    requires SortedByIP(list) && IsPrinted(x.ip)
    requires forall y :: y in list ==> IsPrinted(y.ip) && y.ip != x.ip
    ensures SortedByIP(InsertByIP(list, x))
    ensures forall y :: y in InsertByIP(list, x) <==> y in list || y == x
  {
    hide Before;
    if list == [] {
    } else {
      var init, last := list[..|list| - 1], list[|list| - 1];
      assert list == init + [last];
      if Before(last, x) {
        forall i | 0 <= i < |list| ensures Before(list[i], x) { EntryOrder(list[i], last, x); }
      } else {
        InsertKeepsSorted(init, x);
        EntryOrder(last, x, last);
        var r := InsertByIP(init, x);
        forall i | 0 <= i < |r| ensures Before(r[i], last) {
          assert r[i] in r;
          if r[i] != x {
            var j :| 0 <= j < |init| && init[j] == r[i];
            assert Before(list[j], list[|list| - 1]);
          }
        }
      }
    }
  }

  /** The client list of a graph response: the registry's entries in whatever order the map yields them, then sorted. */
  method ClientList(entries: Entries) returns (list: seq<Entry>)
    requires forall ip :: ip in entries ==> entries[ip].ip == ip && IsPrinted(ip)
    ensures SortedByIP(list)
    ensures forall x :: x in list <==> x.ip in entries && entries[x.ip] == x
  {
    list := [];
    var todo := entries.Keys;
    while todo != {}
      invariant todo <= entries.Keys && SortedByIP(list)
      invariant forall x :: x in list <==> x.ip in entries && entries[x.ip] == x && x.ip !in todo
      decreases todo
    {
      var ip :| ip in todo;
      todo := todo - {ip};
      InsertKeepsSorted(list, entries[ip]);
      list := InsertByIP(list, entries[ip]);
    }
  }

  /** In any run of the registry fed with printed addresses, every entry has a printed address, so its list exists and
      any two sorted listings of it are the same. */
  lemma {:induction false} RegistryHoldsPrinted(ops: seq<Op>, ip: string)
    requires forall i :: 0 <= i < |ops| ==> IsPrinted(ops[i].ip)
    requires ip in Run(ops)
    ensures IsPrinted(ip) && Run(ops)[ip].ip == ip
  {
    RegistrySound(ops, ip);
    if ip in Run(ops[..|ops| - 1]) {
      RegistryHoldsPrinted(ops[..|ops| - 1], ip);
    }
  }

  lemma ClientListUnique(ops: seq<Op>, a: seq<Entry>, b: seq<Entry>)
    requires forall i :: 0 <= i < |ops| ==> IsPrinted(ops[i].ip)
    requires SortedByIP(a) && forall x :: x in a <==> x.ip in Run(ops) && Run(ops)[x.ip] == x
    requires SortedByIP(b) && forall x :: x in b <==> x.ip in Run(ops) && Run(ops)[x.ip] == x
    ensures a == b
  {
    forall x | x in a ensures IsPrinted(x.ip) { RegistryHoldsPrinted(ops, x.ip); }
    SortedListUnique(a, b);
  }
}
