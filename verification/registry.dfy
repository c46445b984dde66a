/** The registry of unresolved client addresses: what any interleaving of connects and closes keeps. */
module Registry {
  import opened Common
  import opened Strings
  import opened Address
  import opened FlowIdentity

  datatype Entry = Entry(ip: string, connectionCount: int, activeConnections: int, destinations: map<string, int>,
                         lastSeen: int)

  type Entries = map<string, Entry>

  predicate IsLoopbackIP(ip: string) {
    ip == "127.0.0.1" || ip == "::1" || HasPrefix(ip, "127.")
  }

  predicate Tracked(ip: string) { ip != "" && !IsLoopbackIP(ip) }

  function CountOf(destinations: map<string, int>, destination: string): int {
    if destination in destinations then destinations[destination] else 0
  }

  function Counted(e: Entry, destination: string, now: int): Entry {
    Entry(e.ip, e.connectionCount + 1, e.activeConnections + 1,
          e.destinations[destination := CountOf(e.destinations, destination) + 1], now)
  }

  function Connect(r: Entries, ip: string, destination: string, now: int): Entries {
    if !Tracked(ip) then r
    else r[ip := Counted(if ip in r then r[ip] else Entry(ip, 0, 0, map[], now), destination, now)]
  }

  function Close(r: Entries, ip: string, now: int): Entries {
    if !Tracked(ip) || ip !in r then r
    else
      var n := r[ip].activeConnections;
      r[ip := r[ip].(activeConnections := if n > 0 then n - 1 else n, lastSeen := now)]
  }

  // ---------- the heap version ----------

  class UnknownIPEntry {
    const IP: string
    var ConnectionCount: int
    var ActiveConnections: int
    var Destinations: map<string, int>
    var LastSeen: int

    ghost function State(): Entry
      reads this
    {
      Entry(IP, ConnectionCount, ActiveConnections, Destinations, LastSeen)
    }

    constructor (ip: string, now: int)
      ensures State() == Entry(ip, 0, 0, map[], now)
    {
      IP, ConnectionCount, ActiveConnections, Destinations, LastSeen := ip, 0, 0, map[], now;
    }

    method Count(destination: string, now: int)
      modifies this
      ensures State() == Counted(old(State()), destination, now)
    {
      ConnectionCount := ConnectionCount + 1;
      ActiveConnections := ActiveConnections + 1;
      Destinations := Destinations[destination := CountOf(Destinations, destination) + 1];
      LastSeen := now;
    }
  }

  class UnknownIPRegistry {
    var Entries: map<string, UnknownIPEntry>

    /** No entry object is shared between two keys. */
    ghost predicate Valid()
      reads this, Entries.Values
    {
      forall ip :: ip in Entries ==> Entries[ip].IP == ip
    }

    ghost function State(): Entries
      reads this, Entries.Values
    {
      map ip | ip in Entries :: Entries[ip].State()
    }

    constructor ()
      ensures Valid() && State() == map[] && fresh(Entries.Values)
    {
      Entries := map[];
    }

    method CountOn(ip: string, destination: string, now: int)
      requires Valid() && ip in Entries
      modifies Entries[ip]
      ensures Valid() && State() == old(State())[ip := Counted(old(State())[ip], destination, now)]
    {
      hide Counted;
      Entries[ip].Count(destination, now);
      assert State() == old(State())[ip := Entries[ip].State()];
    }

    method FindOrCreate(ip: string, now: int)
      requires Valid()
      modifies this
      ensures Valid() && fresh(Entries.Values - old(Entries.Values)) && old(Entries.Values) <= Entries.Values
      ensures ip in Entries
      ensures State() == if ip in old(State()) then old(State()) else old(State())[ip := Entry(ip, 0, 0, map[], now)]
    {
      if ip !in Entries {
        var created := new UnknownIPEntry(ip, now);
        Entries := Entries[ip := created];
        assert forall other :: other in old(Entries) ==> other in Entries && Entries[other] == old(Entries)[other];
      }
    }

    method RecordConnect(ip: string, destination: string, now: int)
      requires Valid()
      modifies this, Entries.Values
      ensures Valid() && fresh(Entries.Values - old(Entries.Values))
      ensures State() == Connect(old(State()), ip, destination, now)
    {
      hide IsLoopbackIP, Counted;
      if ip == "" || IsLoopbackIP(ip) {
        return;
      }
      FindOrCreate(ip, now);
      CountOn(ip, destination, now);
    }

    method RecordClose(ip: string, destination: string, now: int)
      requires Valid()
      modifies Entries.Values
      ensures Valid()
      ensures State() == Close(old(State()), ip, now)
    {
      if ip == "" || IsLoopbackIP(ip) {
        return;
      }
      if ip !in Entries {
        return;
      }
      var entry := Entries[ip];
      if entry.ActiveConnections > 0 {
        entry.ActiveConnections := entry.ActiveConnections - 1;
      }
      entry.LastSeen := now;
    }
  }

  // ---------- runs of the registry ----------

  /** `RecordClose` is also passed a destination, which it ignores. */
  datatype Op = OpConnect(ip: string, destination: string, now: int) | OpClose(ip: string, now: int)

  function Run(ops: seq<Op>): Entries {
    if ops == [] then map[]
    else
      var r := Run(ops[..|ops| - 1]);
      match ops[|ops| - 1]
      case OpConnect(ip, destination, now) => Connect(r, ip, destination, now)
      case OpClose(ip, now) => Close(r, ip, now)
  }

  /** Connects recorded for an address, and for an address and a destination. */
  function Connects(ops: seq<Op>, ip: string): nat {
    if ops == [] then 0 else Connects(ops[..|ops| - 1], ip) + Bit(ops[|ops| - 1].OpConnect? && ops[|ops| - 1].ip == ip)
  }

  function ConnectsTo(ops: seq<Op>, ip: string, destination: string): nat {
    if ops == [] then 0
    else
      var op := ops[|ops| - 1];
      ConnectsTo(ops[..|ops| - 1], ip, destination) + Bit(op.OpConnect? && op.ip == ip && op.destination == destination)
  }

  ghost function Sum(m: map<string, int>): int {
    if m == map[] then 0 else
      var k :| k in m;
      m[k] + Sum(m - {k})
  }

  lemma {:induction false} SumTakeOut(m: map<string, int>, k: string)
    requires k in m
    ensures Sum(m) == m[k] + Sum(m - {k})
    decreases |m|
  {
    var j :| j in m && Sum(m) == m[j] + Sum(m - {j});
    if j == k {
    } else {
      SumTakeOut(m - {j}, k);
      SumTakeOut(m - {k}, j);
      assert m - {j} - {k} == m - {k} - {j};
    }
  }

  lemma SumWrite(m: map<string, int>, k: string, v: int)
    ensures Sum(m[k := v]) == Sum(m) - CountOf(m, k) + v
  {
    SumTakeOut(m[k := v], k);
    assert m[k := v] - {k} == m - {k};
    if k in m { SumTakeOut(m, k); } else { assert m - {k} == m; }
  }

  ghost predicate SoundEntry(ip: string, e: Entry) {
    && e.ip == ip && Tracked(ip)
    && e.connectionCount == Sum(e.destinations)
    && 0 <= e.activeConnections <= e.connectionCount
  }

  ghost predicate SoundEntries(r: Entries) { forall ip :: ip in r ==> SoundEntry(ip, r[ip]) }

  lemma ConnectKeepsSound(r: Entries, ip: string, destination: string, now: int)
    requires SoundEntries(r)
    ensures SoundEntries(Connect(r, ip, destination, now))
  {
    hide IsLoopbackIP;
    var before := if ip in r then r[ip].destinations else map[];
    SumWrite(before, destination, CountOf(before, destination) + 1);
  }

  lemma CloseKeepsSound(r: Entries, ip: string, now: int)
    requires SoundEntries(r)
    ensures SoundEntries(Close(r, ip, now))
  {
    hide IsLoopbackIP, Sum;
  }

  lemma {:induction false} RunIsSound(ops: seq<Op>)
    ensures SoundEntries(Run(ops))
  {
    if ops == [] {
    } else {
      hide SoundEntries, Connect, Close;
      var r := Run(ops[..|ops| - 1]);
      RunIsSound(ops[..|ops| - 1]);
      match ops[|ops| - 1] {
        case OpConnect(ip, destination, now) => ConnectKeepsSound(r, ip, destination, now);
        case OpClose(ip, now) => CloseKeepsSound(r, ip, now);
      }
    }
  }

  /** Every entry sits under its own non-empty, non-loopback address, its total is the sum over destinations, and its
      active count stays within the total, whatever closes it is credited with. */
  lemma RegistrySound(ops: seq<Op>, ip: string)
    requires ip in Run(ops)
    ensures SoundEntry(ip, Run(ops)[ip])
  {
    RunIsSound(ops);
  }

  /** The totals are exact: an address has an entry exactly when a trackable connect was recorded for it, and the counts
      are the numbers of those connects. */
  lemma {:induction false} CountsAreExact(ops: seq<Op>, ip: string, destination: string)
    ensures ip in Run(ops) <==> Tracked(ip) && Connects(ops, ip) > 0
    ensures ip in Run(ops) ==> Run(ops)[ip].connectionCount == Connects(ops, ip)
    ensures ip in Run(ops) ==> CountOf(Run(ops)[ip].destinations, destination) == ConnectsTo(ops, ip, destination)
    ensures ip !in Run(ops) ==> !Tracked(ip) || ConnectsTo(ops, ip, destination) == 0
  {
    if ops == [] {
    } else {
      CountsAreExact(ops[..|ops| - 1], ip, destination);
    }
  }

  /** Which addresses have an entry, spelt out: those connected from, but for the empty and the loopback ones. */
  lemma EntryIff(ops: seq<Op>, ip: string)
    ensures ip in Run(ops) <==> Connects(ops, ip) > 0 && ip != "" && ip != "::1" && !(|ip| >= 4 && ip[..4] == "127.")
  {
    CountsAreExact(ops, ip, "");
    assert "127.0.0.1"[..4] == "127.";
  }

  /** Closes recorded for an address, and those of them that found its active count at zero. */
  function Closes(ops: seq<Op>, ip: string): nat {
    if ops == [] then 0 else Closes(ops[..|ops| - 1], ip) + Bit(ops[|ops| - 1].OpClose? && ops[|ops| - 1].ip == ip)
  }

  function ActiveOf(r: Entries, ip: string): int { if ip in r then r[ip].activeConnections else 0 }

  function FoundZero(ops: seq<Op>, ip: string): nat {
    if ops == [] then 0
    else
      var init, op := ops[..|ops| - 1], ops[|ops| - 1];
      FoundZero(init, ip) + Bit(op.OpClose? && op.ip == ip && ActiveOf(Run(init), ip) == 0)
  }

  /** An address's active count over any run: connects less closes, but for the closes that came to nothing. It is the
      difference exactly when none did. */
  lemma {:induction false} ActiveIsConnectsLessCloses(ops: seq<Op>, ip: string)
    requires Tracked(ip)
    ensures ActiveOf(Run(ops), ip) == Connects(ops, ip) - Closes(ops, ip) + FoundZero(ops, ip)
    ensures ActiveOf(Run(ops), ip) == Connects(ops, ip) - Closes(ops, ip) <==> FoundZero(ops, ip) == 0
  {
    if ops == [] {
    } else {
      var init := ops[..|ops| - 1];
      ActiveIsConnectsLessCloses(init, ip);
      if ip in Run(init) { RegistrySound(init, ip); }
      hide Tracked, Sum;
    }
  }

  /** An entry was last seen by the last connect or close on its address. */
  lemma {:induction false} LastSeenIsLast(ops: seq<Op>, ip: string) returns (i: nat)
    requires ip in Run(ops)
    ensures i < |ops| && ops[i].ip == ip && Run(ops)[ip].lastSeen == ops[i].now
    ensures forall j :: i < j < |ops| ==> ops[j].ip != ip
  {
    var init, last := ops[..|ops| - 1], |ops| - 1;
    if ops[last].ip == ip {
      i := last;
      RegistrySound(ops, ip);
    } else {
      i := LastSeenIsLast(init, ip);
    }
  }

  // ---------- which entry a close is credited to ----------

  /** The text before the first dot, against the prefix the loopback test looks for. */
  lemma FirstPart(d: string, rest: string)
    requires '.' !in d && d != "" && d[0] != ':'
    ensures IsLoopbackIP(d + "." + rest) <==> d == "127"
  {
    var s := d + "." + rest;
    assert s[|d|] == '.' && s[..|d|] == d;
    if HasPrefix(s, "127.") {
      assert s[..4][3] == '.' && s[..3] == "127";
      assert |d| == 3;
    }
    assert d == "127" ==> s[..4] == "127.";
    assert "127.0.0.1"[..4] == "127.";
  }

  lemma Decimal127()
    ensures Decimal(127) == "127" && forall n: nat :: Decimal(n) == "127" ==> n == 127
  {
    assert Decimal(1) == "1" && Decimal(12) == "12";
    assert Decimal(127) == "127";
    forall n: nat | Decimal(n) == "127" ensures n == 127 {
      DecimalRoundTrip(n);
      DecimalRoundTrip(127);
    }
  }

  /** A printed address is loopback exactly when its first octet is 127. */
  lemma PrintedLoopback(ip: Uint32)
    ensures IsLoopbackIP(Printed(ip)) <==> Octets(ip)[0] == 127
    ensures Printed(ip) != ""
  {
    var o := Octets(ip);
    var d, s := Decimal(o[0]), Dotted(o);
    var rest := Decimal(o[1]) + "." + (Decimal(o[2]) + "." + Decimal(o[3]));
    assert s == d + "." + rest;
    DecimalRoundTrip(o[0]);
    Decimal127();
    hide Decimal, Dotted;
    FirstPart(d, rest);
  }

  /** The close of a connection is credited to the canonical source end of its key, which is the client exactly when
      canonicalisation did not turn the tuple round. */
  lemma CloseCreditedToClientIff(ev: Event)
    ensures BuildFlowKey(ev).sourceIP == ev.sourceIP <==> !Less(ev.destinationIP, ev.sourceIP)
  {
    LessTrichotomy(ev.destinationIP, ev.sourceIP);
  }

  /** One connection from a trackable client, opened and closed, leaves the client's active count where it was if and
      only if the server's address does not sort before the client's as a string. */
  lemma ConnectThenCloseRestoresIff(r: Entries, ev: Event, t1: int, t2: int)
    requires Tracked(ev.sourceIP)
    requires forall ip :: ip in r ==> r[ip].activeConnections >= 0
    ensures var r' := Close(Connect(r, ev.sourceIP, ev.destinationService, t1), BuildFlowKey(ev).sourceIP, t2);
      ev.sourceIP in r' &&
      (r'[ev.sourceIP].activeConnections == (if ev.sourceIP in r then r[ev.sourceIP].activeConnections else 0)
       <==> !Less(ev.destinationIP, ev.sourceIP))
  {
    CloseCreditedToClientIff(ev);
  }

  /** The failing case is an ordinary one: client 172.18.0.1 connecting to 10.0.0.5. */
  lemma CloseCanMissItsClient(ev: Event)
    requires ev.sourceIP == "172.18.0.1" && ev.destinationIP == "10.0.0.5"
    ensures Tracked(ev.sourceIP) && Less(ev.destinationIP, ev.sourceIP)
    ensures BuildFlowKey(ev).sourceIP == "10.0.0.5"
  {
    assert ev.sourceIP[0] == '1' && ev.sourceIP[1] == '7' && ev.destinationIP[1] == '0';
    assert Less(ev.destinationIP[1..], ev.sourceIP[1..]);
    assert ev.sourceIP[..4] != "127.";
  }
}
