/** Flow identity: one canonical key for the two directions of a connection. */
module FlowIdentity {
  import opened Address
  import opened Strings

  type Port = p: int | 0 <= p < 0x1_0000

  datatype FlowKey = FlowKey(sourceIP: string, sourcePort: Port, destinationIP: string, destinationPort: Port) {
    function Reverse(): FlowKey {
      FlowKey(destinationIP, destinationPort, sourceIP, sourcePort)
    }

    /** The orientation the program stores flows under. */
    predicate Canonical() {
      !Less(destinationIP, sourceIP) && (sourceIP == destinationIP ==> sourcePort <= destinationPort)
    }
  }

  /** The fields of an enriched event that the engine reads. Service names are already resolved. */
  datatype Event = Event(sourceIP: string, sourcePort: Port, destinationIP: string, destinationPort: Port,
                         sourceService: string, destinationService: string)

  function BuildFlowKey(ev: Event): FlowKey {
    var key := FlowKey(ev.sourceIP, ev.sourcePort, ev.destinationIP, ev.destinationPort);
    if Less(key.destinationIP, key.sourceIP)
       || (key.sourceIP == key.destinationIP && key.sourcePort > key.destinationPort)
    then key.Reverse() else key
  }

  /** A tuple as a probe reports it. */
  datatype RawTuple = RawTuple(saddr: Uint32, sport: Port, daddr: Uint32, dport: Port) {
    function Swap(): RawTuple { RawTuple(daddr, dport, saddr, sport) }
  }

  /** Normalisation followed by enrichment with any service names. */
  function Normalize(raw: RawTuple, sourceService: string, destinationService: string): Event {
    Event(Printed(raw.saddr), raw.sport, Printed(raw.daddr), raw.dport, sourceService, destinationService)
  }

  /** An event names the two endpoints of its tuple, each on its own side. */
  lemma NormalizeKeepsSides(raw: RawTuple, s: string, d: string, x: Uint32)
    ensures var ev := Normalize(raw, s, d);
      && (ev.sourceIP == Printed(x) <==> x == raw.saddr) && ev.sourcePort == raw.sport
      && (ev.destinationIP == Printed(x) <==> x == raw.daddr) && ev.destinationPort == raw.dport
      && ev.sourceService == s && ev.destinationService == d
  {
    PrintedInjective(raw.saddr, x);
    PrintedInjective(raw.daddr, x);
  }

  lemma BuildFlowKeyCanonical(ev: Event)
    ensures BuildFlowKey(ev).Canonical()
  {
    LessTrichotomy(ev.destinationIP, ev.sourceIP);
  }

  /** End to end: two kernel tuples reach the same record exactly when they name the same two endpoints,
      in either direction and whatever services they were attributed to. */
  lemma SameKeyIffSameEndpoints(a: RawTuple, b: RawTuple, s1: string, d1: string, s2: string, d2: string)
    ensures BuildFlowKey(Normalize(a, s1, d1)) == BuildFlowKey(Normalize(b, s2, d2)) <==> a == b || a == b.Swap()
  {
    PrintedInjective(a.saddr, b.saddr);
    PrintedInjective(a.saddr, b.daddr);
    PrintedInjective(a.daddr, b.saddr);
    PrintedInjective(a.daddr, b.daddr);
    PrintedInjective(a.saddr, a.daddr);
    PrintedInjective(b.saddr, b.daddr);
    LessTrichotomy(Printed(a.saddr), Printed(a.daddr));
    LessTrichotomy(Printed(b.saddr), Printed(b.daddr));
  }

  /** Only a flow between one endpoint and itself is canonical both ways round. */
  lemma CanonicalBothWays(key: FlowKey)
    ensures key.Canonical() && key.Reverse().Canonical() <==> key == key.Reverse()
  {
    LessTrichotomy(key.sourceIP, key.destinationIP);
  }
}
