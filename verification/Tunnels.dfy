/** The in-memory registry of live tunnels: HTTP entries by normalised subdomain, TCP and UDP entries
    by external port. TCP and UDP have the same code and share one member, chosen by `Proto`. */
module Tunnels {
  import opened Wrappers
  import opened Text

  datatype Session = NoSession | Session(id: nat)

  datatype HTTPEntry = HTTPEntry(tunnelID: string, subdomain: string, allowlist: seq<string>, session: Session)

  datatype PortEntry = PortEntry(tunnelID: string, port: int, session: Session)

  datatype Proto = TCP | UDP

  datatype RegisterError = SubdomainRequired | TunnelIDRequired | PortRequired | TunnelExists

  datatype Registration<M> = Registered(entries: M) | Refused(error: RegisterError)

  type HTTPMap = map<string, HTTPEntry>

  type PortMap = map<int, PortEntry>

  function AddHTTP(m: HTTPMap, tunnelID: string, session: Session, subdomain: string,
      allowlist: seq<string>): Registration<HTTPMap>
  {
    var key := Key(subdomain);
    if key == "" then Refused(SubdomainRequired)
    else if key in m then Refused(TunnelExists)
    else Registered(m[key := HTTPEntry(tunnelID, key, allowlist, session)])
  }

  function AddPort(m: PortMap, tunnelID: string, session: Session, port: int): Registration<PortMap> {
    if tunnelID == "" then Refused(TunnelIDRequired)
    else if port == 0 then Refused(PortRequired)
    else if port in m && m[port].tunnelID != tunnelID then Refused(TunnelExists)
    else Registered(m[port := PortEntry(tunnelID, port, session)])
  }

  function WithoutHTTPTunnel(m: HTTPMap, tunnelID: string): HTTPMap {
    if tunnelID == "" then m else map k | k in m && m[k].tunnelID != tunnelID :: m[k]
  }

  function WithoutPortTunnel(m: PortMap, tunnelID: string): PortMap {
    if tunnelID == "" then m else map k | k in m && m[k].tunnelID != tunnelID :: m[k]
  }

  ghost predicate ListsInOrder<K, V>(order: seq<K>, items: seq<V>, m: map<K, V>) {
    && |order| == |items| == |m|
    && (forall i :: 0 <= i < |order| ==> order[i] in m && items[i] == m[order[i]])
    && (forall i, j :: 0 <= i < j < |order| ==> order[i] != order[j])
    && (forall k :: k in m ==> k in order)
  }

  /** `items` lists the values of `m`, each key once, in some order. */
  ghost predicate Lists<K(!new), V>(items: seq<V>, m: map<K, V>) {
    exists order: seq<K> :: ListsInOrder(order, items, m)
  }

  lemma ListsBy<K(!new), V>(order: seq<K>, items: seq<V>, m: map<K, V>)
    requires ListsInOrder(order, items, m)
    ensures Lists(items, m)
  {
  }

  lemma ListsSnoc<K(!new), V>(order: seq<K>, items: seq<V>, m: map<K, V>, k: K, v: V)
    requires ListsInOrder(order, items, m) && k !in m
    ensures ListsInOrder(order + [k], items + [v], m[k := v])
  {
  }

  lemma ListsNothing<K(!new), V>(m: map<K, V>)
    ensures Lists([], m - m.Keys)
  {
    assert ListsInOrder([], [], m - m.Keys);
  }

  /** `keys` are still to be visited, `gone` has been deleted, `rest` is left. */
  ghost predicate Deleting<K(!new), V>(m: map<K, V>, matches: V -> bool, keys: set<K>, rest: map<K, V>, gone: map<K, V>)
  {
    && (forall k :: k in rest <==> k in m && k !in gone)
    && (forall k :: k in rest ==> rest[k] == m[k])
    && (forall k :: k in gone ==> k in m && gone[k] == m[k] && matches(m[k]))
    && (forall k :: k in rest && k !in keys ==> !matches(m[k]))
    && (forall k :: k in keys ==> k in rest)
  }

  lemma DeletingStep<K(!new), V>(m: map<K, V>, matches: V -> bool, keys: set<K>, rest: map<K, V>, gone: map<K, V>, k: K)
    requires Deleting(m, matches, keys, rest, gone) && k in keys
    ensures k in rest && k !in gone
    ensures matches(rest[k]) ==> Deleting(m, matches, keys - {k}, rest - {k}, gone[k := rest[k]])
    ensures !matches(rest[k]) ==> Deleting(m, matches, keys - {k}, rest, gone)
  {
  }

  lemma DeletingDone<K(!new), V>(m: map<K, V>, matches: V -> bool, rest: map<K, V>, gone: map<K, V>)
    requires Deleting(m, matches, {}, rest, gone)
    ensures rest == map k | k in m && !matches(m[k]) :: m[k]
    ensures gone == m - rest.Keys
  {
  }

  /** The loop of the remove-by-tunnel-id methods: visits the keys in any order. */
  method DeleteMatching<K(==, !new), V>(m: map<K, V>, matches: V -> bool) returns (rest: map<K, V>, removed: seq<V>)
    ensures rest == map k | k in m && !matches(m[k]) :: m[k]
    ensures Lists(removed, m - rest.Keys)
  {
    rest, removed := m, [];
    ghost var order: seq<K>, gone: map<K, V> := [], map[];
    assert ListsInOrder(order, removed, gone);
    var keys := m.Keys;
    assert Deleting(m, matches, keys, rest, gone);
    hide ListsInOrder, Lists, Deleting;
    while keys != {}
      invariant Deleting(m, matches, keys, rest, gone)
      invariant ListsInOrder(order, removed, gone)
      decreases keys
    {
      var k :| k in keys;
      DeletingStep(m, matches, keys, rest, gone, k);
      keys := keys - {k};
      if matches(rest[k]) {
        ListsSnoc(order, removed, gone, k, rest[k]);
        removed := removed + [rest[k]];
        order, gone := order + [k], gone[k := rest[k]];
        rest := rest - {k};
      }
    }
    DeletingDone(m, matches, rest, gone);
    ListsBy(order, removed, gone);
  }

  datatype Bindings = Bindings(http: HTTPMap, tcp: PortMap, udp: PortMap) {
    function Ports(proto: Proto): PortMap {
      if proto.TCP? then tcp else udp
    }

    function WithPorts(proto: Proto, m: PortMap): Bindings {
      if proto.TCP? then this.(tcp := m) else this.(udp := m)
    }
  }

  // ---------- the registry ----------

  datatype Op =
    | OpRegisterHTTP(tunnelID: string, session: Session, subdomain: string, allowlist: seq<string>)
    | OpRemoveHTTP(subdomain: string)
    | OpKillHTTP(tunnelID: string)
    | OpRegisterPort(proto: Proto, tunnelID: string, session: Session, port: int)
    | OpRemovePort(proto: Proto, port: int)
    | OpKillPort(proto: Proto, tunnelID: string)

  function Performed(b: Bindings, op: Op): Bindings {
    match op
    case OpRegisterHTTP(tunnelID, session, subdomain, allowlist) =>
      (match AddHTTP(b.http, tunnelID, session, subdomain, allowlist)
       case Refused(_) => b
       case Registered(m) => b.(http := m))
    case OpRemoveHTTP(subdomain) => b.(http := b.http - {Key(subdomain)})
    case OpKillHTTP(tunnelID) => b.(http := WithoutHTTPTunnel(b.http, tunnelID))
    case OpRegisterPort(proto, tunnelID, session, port) =>
      (match AddPort(b.Ports(proto), tunnelID, session, port)
       case Refused(_) => b
       case Registered(m) => b.WithPorts(proto, m))
    case OpRemovePort(proto, port) => b.WithPorts(proto, b.Ports(proto) - {port})
    case OpKillPort(proto, tunnelID) => b.WithPorts(proto, WithoutPortTunnel(b.Ports(proto), tunnelID))
  }

  function PerformedAll(b: Bindings, ops: seq<Op>): Bindings
    decreases |ops|
  {
    if ops == [] then b else PerformedAll(Performed(b, ops[0]), ops[1..])
  }

  class Registry {
    var httpMap: HTTPMap
    var tcpMap: PortMap
    var udpMap: PortMap

    constructor ()
      ensures State() == Bindings(map[], map[], map[])
    {
      httpMap, tcpMap, udpMap := map[], map[], map[];
    }

    ghost function State(): Bindings
      reads this
    {
      Bindings(httpMap, tcpMap, udpMap)
    }

    method RegisterHTTP(tunnelID: string, session: Session, subdomain: string, allowlist: seq<string>)
        returns (err: Option<RegisterError>)
      modifies this
      ensures match AddHTTP(old(httpMap), tunnelID, session, subdomain, allowlist)
        case Refused(e) => err == Some(e) && State() == old(State())
        case Registered(m) => err == None && State() == old(State()).(http := m)
    {
      var key := Key(subdomain);
      if key == "" {
        return Some(SubdomainRequired);
      }
      if key in httpMap {
        return Some(TunnelExists);
      }
      httpMap := httpMap[key := HTTPEntry(tunnelID, key, allowlist, session)];
      return None;
    }

    method RemoveHTTP(subdomain: string)
      modifies this
      ensures State() == old(State()).(http := old(httpMap) - {Key(subdomain)})
    {
      var key := Key(subdomain);
      httpMap := httpMap - {key};
    }

    /** Deletes exactly the tunnel's entries and returns exactly those. */
    method RemoveHTTPByTunnelID(tunnelID: string) returns (removed: seq<HTTPEntry>)
      modifies this
      ensures State() == old(State()).(http := WithoutHTTPTunnel(old(httpMap), tunnelID))
      ensures Lists(removed, old(httpMap) - httpMap.Keys)
    {
      hide Lists;
      if tunnelID == "" {
        ListsNothing(httpMap);
        return [];
      }
      httpMap, removed := DeleteMatching(httpMap, (e: HTTPEntry) => e.tunnelID == tunnelID);
    }

    method LookupHTTP(subdomain: string) returns (entry: Option<HTTPEntry>)
      ensures entry == if Key(subdomain) in httpMap then Some(httpMap[Key(subdomain)]) else None
    {
      var key := Key(subdomain);
      entry := if key in httpMap then Some(httpMap[key]) else None;
    }

    /** Finds an entry of the tunnel exactly when there is one. */
    method LookupHTTPByTunnelID(tunnelID: string) returns (entry: Option<HTTPEntry>)
      ensures entry.Some? <==> tunnelID != "" && exists k :: k in httpMap && httpMap[k].tunnelID == tunnelID
      ensures entry.Some? ==> entry.value.tunnelID == tunnelID && exists k :: k in httpMap && httpMap[k] == entry.value
    {
      if tunnelID == "" {
        return None;
      }
      var keys := httpMap.Keys;
      while keys != {}
        invariant keys <= httpMap.Keys
        invariant forall k :: k in httpMap && k !in keys ==> httpMap[k].tunnelID != tunnelID
        decreases keys
      {
        var k :| k in keys;
        if httpMap[k].tunnelID == tunnelID {
          return Some(httpMap[k]);
        }
        keys := keys - {k};
      }
      return None;
    }

    method RegisterPort(proto: Proto, tunnelID: string, session: Session, port: int)
        returns (err: Option<RegisterError>)
      modifies this
      ensures match AddPort(old(State()).Ports(proto), tunnelID, session, port)
        case Refused(e) => err == Some(e) && State() == old(State())
        case Registered(m) => err == None && State() == old(State()).WithPorts(proto, m)
    {
      if tunnelID == "" {
        return Some(TunnelIDRequired);
      }
      if port == 0 {
        return Some(PortRequired);
      }
      var ports := if proto.TCP? then tcpMap else udpMap;
      if port in ports && ports[port].tunnelID != tunnelID {
        return Some(TunnelExists);
      }
      SetPorts(proto, ports[port := PortEntry(tunnelID, port, session)]);
      return None;
    }

    method SetPorts(proto: Proto, ports: PortMap)
      modifies this
      ensures State() == old(State()).WithPorts(proto, ports)
    {
      if proto.TCP? {
        tcpMap := ports;
      } else {
        udpMap := ports;
      }
    }

    method LookupPort(proto: Proto, port: int) returns (entry: Option<PortEntry>)
      ensures var m := State().Ports(proto); entry == if port in m then Some(m[port]) else None
    {
      var ports := if proto.TCP? then tcpMap else udpMap;
      entry := if port in ports then Some(ports[port]) else None;
    }

    method RemovePort(proto: Proto, port: int)
      modifies this
      ensures State() == old(State()).WithPorts(proto, old(State()).Ports(proto) - {port})
    {
      var ports := if proto.TCP? then tcpMap else udpMap;
      SetPorts(proto, ports - {port});
    }

    method RemovePortByTunnelID(proto: Proto, tunnelID: string) returns (removed: seq<PortEntry>)
      modifies this
      ensures State() == old(State()).WithPorts(proto, WithoutPortTunnel(old(State()).Ports(proto), tunnelID))
      ensures Lists(removed, old(State()).Ports(proto) - State().Ports(proto).Keys)
    {
      var ports := if proto.TCP? then tcpMap else udpMap;
      hide Lists;
      if tunnelID == "" {
        ListsNothing(ports);
        return [];
      }
      ports, removed := DeleteMatching(ports, (e: PortEntry) => e.tunnelID == tunnelID);
      SetPorts(proto, ports);
    }

    method PerformOne(op: Op)
      modifies this
      ensures State() == Performed(old(State()), op)
    {
      match op
      case OpRegisterHTTP(tunnelID, session, subdomain, allowlist) =>
        var _ := RegisterHTTP(tunnelID, session, subdomain, allowlist);
      case OpRemoveHTTP(subdomain) => RemoveHTTP(subdomain);
      case OpKillHTTP(tunnelID) => var _ := RemoveHTTPByTunnelID(tunnelID);
      case OpRegisterPort(proto, tunnelID, session, port) => var _ := RegisterPort(proto, tunnelID, session, port);
      case OpRemovePort(proto, port) => RemovePort(proto, port);
      case OpKillPort(proto, tunnelID) => var _ := RemovePortByTunnelID(proto, tunnelID);
    }

    /** What the rest of the server does to the registry while a request is being handled. */
    method Perform(ops: seq<Op>)
      modifies this
      ensures State() == PerformedAll(old(State()), ops)
    {
      ghost var all := PerformedAll(State(), ops);
      for i := 0 to |ops|
        invariant PerformedAll(State(), ops[i..]) == all
      {
        assert ops[i..][0] == ops[i] && ops[i..][1..] == ops[i + 1..];
        PerformOne(ops[i]);
      }
    }
  }

  // ---------- runs ----------

  ghost predicate HTTPConsistent(m: HTTPMap) {
    forall k :: k in m ==> k == m[k].subdomain && k != "" && Key(k) == k
  }

  ghost predicate PortsConsistent(m: PortMap) {
    forall p :: p in m ==> p == m[p].port && p != 0 && m[p].tunnelID != ""
  }

  /** Keys are normalised, not empty, and equal the entry's own field; ports are never 0. */
  ghost predicate Consistent(b: Bindings) {
    HTTPConsistent(b.http) && PortsConsistent(b.tcp) && PortsConsistent(b.udp)
  }

  lemma StepConsistent(b: Bindings, op: Op)
    requires Consistent(b)
    ensures Consistent(Performed(b, op))
  {
    match op
    case OpRegisterHTTP(tunnelID, session, subdomain, allowlist) =>
      KeyIdempotent(subdomain);
      hide Key;
    case _ =>
      hide Key;
  }

  lemma {:induction false} RunConsistent(b: Bindings, ops: seq<Op>)
    requires Consistent(b)
    ensures Consistent(PerformedAll(b, ops))
    decreases |ops|
  {
    if ops != [] {
      StepConsistent(b, ops[0]);
      RunConsistent(Performed(b, ops[0]), ops[1..]);
    }
  }

  /** The HTTP operations that bind a free key, and those that unbind a bound one. */
  predicate OpBindsHTTP(op: Op, k: string) {
    op.OpRegisterHTTP? && k != "" && Key(op.subdomain) == k
  }

  predicate OpUnbindsHTTP(op: Op, k: string, e: HTTPEntry) {
    || (op.OpRemoveHTTP? && Key(op.subdomain) == k)
    || (op.OpKillHTTP? && op.tunnelID == e.tunnelID != "")
  }

  /** One operation on one key: a registration binds it if it is free and is refused if it is not; a removal by
      name, or by the tunnel that has it, unbinds it; nothing else touches it. */
  lemma HTTPStepIs(b: Bindings, op: Op, k: string)
    ensures var after := Performed(b, op).http;
      && (k !in b.http ==> (k in after <==> OpBindsHTTP(op, k)))
      && (k !in b.http && k in after ==> after[k] == HTTPEntry(op.tunnelID, k, op.allowlist, op.session))
      && (k in b.http ==> (k in after <==> !OpUnbindsHTTP(op, k, b.http[k])))
      && (k in b.http && k in after ==> after[k] == b.http[k])
  {
    hide Key;
  }

  predicate OpBindsPort(op: Op, proto: Proto, p: int) {
    op.OpRegisterPort? && op.proto == proto && op.port == p != 0 && op.tunnelID != ""
  }

  predicate OpUnbindsPort(op: Op, proto: Proto, p: int, e: PortEntry) {
    || (op.OpRemovePort? && op.proto == proto && op.port == p)
    || (op.OpKillPort? && op.proto == proto && op.tunnelID == e.tunnelID != "")
  }

  /** And on one port of one protocol, where a registration by the tunnel that has it replaces the session. */
  lemma PortStepIs(b: Bindings, op: Op, proto: Proto, p: int)
    ensures var before, after := b.Ports(proto), Performed(b, op).Ports(proto);
      && (p !in before ==> (p in after <==> OpBindsPort(op, proto, p)))
      && (p !in before && p in after ==> after[p] == PortEntry(op.tunnelID, p, op.session))
      && (p in before ==> (p in after <==> !OpUnbindsPort(op, proto, p, before[p])))
      && (p in before && p in after ==>
        after[p] == if OpBindsPort(op, proto, p) && op.tunnelID == before[p].tunnelID
                    then PortEntry(op.tunnelID, p, op.session) else before[p])
  {
    hide Key;
  }

  /** The entry was there at the start, or the operation before `i` made it; and none since has unbound it. */
  ghost predicate HeldSince(b: Bindings, ops: seq<Op>, k: string, e: HTTPEntry, i: nat)
    requires i <= |ops|
  {
    && (i == 0 ==> k in b.http && e == b.http[k])
    && (i > 0 ==>
      && k !in PerformedAll(b, ops[..i - 1]).http && OpBindsHTTP(ops[i - 1], k)
      && e == HTTPEntry(ops[i - 1].tunnelID, k, ops[i - 1].allowlist, ops[i - 1].session))
    && (forall j :: i <= j < |ops| ==> !OpUnbindsHTTP(ops[j], k, e))
  }

  lemma {:induction false} RunSnoc(b: Bindings, ops: seq<Op>)
    requires ops != []
    ensures PerformedAll(b, ops) == Performed(PerformedAll(b, ops[..|ops| - 1]), ops[|ops| - 1])
    decreases |ops|
  {
    hide Performed;
    if |ops| > 1 {
      RunSnoc(Performed(b, ops[0]), ops[1..]);
      assert ops[1..][..|ops| - 2] == ops[..|ops| - 1][1..];
    } else {
      assert ops[1..] == [] && ops[..0] == [];
    }
  }

  /** In any run, a key has an entry at the end exactly when it had it at the start or a registration made it
      while the key was free, and no operation since has unbound it. */
  lemma {:induction false} HeldSinceIff(b: Bindings, ops: seq<Op>, k: string, e: HTTPEntry)
    ensures k in PerformedAll(b, ops).http && PerformedAll(b, ops).http[k] == e
      <==> exists i :: 0 <= i <= |ops| && HeldSince(b, ops, k, e, i)
    decreases |ops|
  {
    hide Performed, Key;
    if ops == [] {
      assert HeldSince(b, ops, k, e, 0) <==> k in b.http && e == b.http[k];
    } else {
      var last, init := ops[|ops| - 1], ops[..|ops| - 1];
      var c := PerformedAll(b, init);
      RunSnoc(b, ops);
      HTTPStepIs(c, last, k);
      HeldSinceIff(b, init, k, e);
      forall i | 0 <= i < |ops|
        ensures HeldSince(b, ops, k, e, i) <==> HeldSince(b, init, k, e, i) && !OpUnbindsHTTP(last, k, e)
      {
        assert i > 0 ==> ops[..i - 1] == init[..i - 1];
      }
      assert HeldSince(b, ops, k, e, |ops|) <==>
        k !in c.http && OpBindsHTTP(last, k) && e == HTTPEntry(last.tunnelID, k, last.allowlist, last.session);
    }
  }

  lemma RunPrefix(b: Bindings, ops: seq<Op>, i: nat)
    requires i < |ops|
    ensures PerformedAll(b, ops[..i + 1]) == PerformedAll(Performed(b, ops[0]), ops[1..][..i])
  {
    assert ops[..i + 1][1..] == ops[1..][..i];
  }

  /** In any run, an HTTP key changes hands only by being unbound in between. */
  lemma {:induction false} HTTPMovesThroughUnbound(b: Bindings, ops: seq<Op>, k: string)
    requires k in b.http && k in PerformedAll(b, ops).http && PerformedAll(b, ops).http[k] != b.http[k]
    ensures exists i | 0 <= i <= |ops| :: k !in PerformedAll(b, ops[..i]).http
    decreases |ops|
  {
    var c := Performed(b, ops[0]);
    if k in c.http {
      HTTPMovesThroughUnbound(c, ops[1..], k);
      var i :| 0 <= i <= |ops[1..]| && k !in PerformedAll(c, ops[1..][..i]).http;
      RunPrefix(b, ops, i);
      assert k !in PerformedAll(b, ops[..i + 1]).http;
    } else {
      RunPrefix(b, ops, 0);
      assert k !in PerformedAll(b, ops[..1]).http;
    }
  }

  /** In any run, a port that stays bound stays with its tunnel: only its session can be replaced. */
  lemma {:induction false} PortMovesThroughUnbound(b: Bindings, ops: seq<Op>, proto: Proto, p: int)
    requires p in b.Ports(proto) && p in PerformedAll(b, ops).Ports(proto)
    requires PerformedAll(b, ops).Ports(proto)[p].tunnelID != b.Ports(proto)[p].tunnelID
    ensures exists i | 0 <= i <= |ops| :: p !in PerformedAll(b, ops[..i]).Ports(proto)
    decreases |ops|
  {
    var c := Performed(b, ops[0]);
    if p in c.Ports(proto) {
      PortMovesThroughUnbound(c, ops[1..], proto, p);
      var i :| 0 <= i <= |ops[1..]| && p !in PerformedAll(c, ops[1..][..i]).Ports(proto);
      RunPrefix(b, ops, i);
      assert p !in PerformedAll(b, ops[..i + 1]).Ports(proto);
    } else {
      RunPrefix(b, ops, 0);
      assert p !in PerformedAll(b, ops[..1]).Ports(proto);
    }
  }

  /** Killing a tunnel unbinds exactly its own keys and ports. */
  lemma KillIsExact(b: Bindings, tunnelID: string, k: string, proto: Proto, p: int)
    requires tunnelID != ""
    ensures var c := PerformedAll(b, [OpKillHTTP(tunnelID), OpKillPort(TCP, tunnelID), OpKillPort(UDP, tunnelID)]);
      && (k in c.http <==> k in b.http && b.http[k].tunnelID != tunnelID)
      && (k in c.http ==> c.http[k] == b.http[k])
      && (p in c.Ports(proto) <==> p in b.Ports(proto) && b.Ports(proto)[p].tunnelID != tunnelID)
      && (p in c.Ports(proto) ==> c.Ports(proto)[p] == b.Ports(proto)[p])
  {
    var b1 := Performed(b, OpKillHTTP(tunnelID));
    var b2 := Performed(b1, OpKillPort(TCP, tunnelID));
    var b3 := Performed(b2, OpKillPort(UDP, tunnelID));
    var ops := [OpKillHTTP(tunnelID), OpKillPort(TCP, tunnelID), OpKillPort(UDP, tunnelID)];
    assert PerformedAll(b2, ops[1..][1..]) == b3;
    assert PerformedAll(b, ops) == b3;
  }
}
