/** Traffic counters: the per-minute rollup in the store, the in-memory totals, and how they agree. */
module Rollups {
  import opened Wrappers

  datatype Counters = Counters(reqs: int, conns: int, bytesIn: int, bytesOut: int) {
    function Plus(other: Counters): Counters {
      Counters(reqs + other.reqs, conns + other.conns, bytesIn + other.bytesIn, bytesOut + other.bytesOut)
    }
  }

  const ZERO := Counters(0, 0, 0, 0)

  const TWO_TO_THE_63: int := 0x8000_0000_0000_0000
  const TWO_TO_THE_64: int := 0x1_0000_0000_0000_0000

  /** What an int64 variable holds when `x` is computed into it. */
  function Wrap(x: int): int {
    (x + TWO_TO_THE_63) % TWO_TO_THE_64 - TWO_TO_THE_63
  }

  predicate FitsInt64(x: int) {
    -TWO_TO_THE_63 <= x < TWO_TO_THE_63
  }

  lemma WrapExactIff(x: int)
    ensures Wrap(x) == x <==> FitsInt64(x)
  {
  }

  lemma WrapAdd(x: int, y: int)
    ensures Wrap(Wrap(x) + y) == Wrap(x + y)
  {
    var q := (x + TWO_TO_THE_63) / TWO_TO_THE_64;
    assert Wrap(x) == x - TWO_TO_THE_64 * q;
    assert (x + y + TWO_TO_THE_63 - TWO_TO_THE_64 * q) % TWO_TO_THE_64 == (x + y + TWO_TO_THE_63) % TWO_TO_THE_64;
  }

  lemma PlusLaws(a: Counters, b: Counters, c: Counters)
    ensures a.Plus(b).Plus(c) == a.Plus(b.Plus(c)) && a.Plus(b) == b.Plus(a) && a.Plus(ZERO) == a
  {
  }

  lemma PlusOrder(a: Counters, b: Counters, c: Counters, x: Counters)
    ensures a.Plus(b.Plus(x)).Plus(c) == a.Plus(b).Plus(c).Plus(x)
    ensures a.Plus(x.Plus(b)).Plus(c) == a.Plus(b).Plus(c).Plus(x)
    ensures a.Plus(x).Plus(b).Plus(c) == a.Plus(b).Plus(c).Plus(x)
    ensures a.Plus(b).Plus(c.Plus(x)) == a.Plus(b).Plus(c).Plus(x)
  {
  }

  /** The primary key of metrics_rollup. */
  datatype Key = Key(tunnelID: string, minute: int)

  type Rollup = map<Key, Counters>

  /** Go's integer division truncates toward zero. */
  function MinuteBucket(unix: int): int {
    if unix >= 0 then unix / 60 else -(-unix / 60)
  }

  /** The 60 seconds of a minute; those before and those after 1970 begin on either side of it share one. */
  predicate InMinute(unix: int, minute: int) {
    if unix >= 0 then 60 * minute <= unix < 60 * minute + 60 else 60 * minute - 60 < unix <= 60 * minute
  }

  lemma MinuteBucketIff(unix: int, minute: int)
    ensures MinuteBucket(unix) == minute <==> InMinute(unix, minute)
  {
  }

  function Row(m: Rollup, k: Key): Counters {
    if k in m then m[k] else ZERO
  }

  /** Adds the deltas to the bucket's row, or starts one with them; refused by the foreign key. */
  function Upsert(tunnels: set<string>, m: Rollup, k: Key, delta: Counters): Option<Rollup> {
    if k.tunnelID !in tunnels then None else Some(m[k := Row(m, k).Plus(delta)])
  }

  // ---------- AddMetric over runs ----------

  /** One AddMetric call; `fails` is whether the database refuses or drops it for any reason of its own. */
  datatype Call = Call(tunnelID: string, unix: int, delta: Counters, fails: bool)

  predicate Stored(tunnels: set<string>, c: Call) {
    c.tunnelID != "" && c.tunnelID in tunnels && !c.fails
  }

  function Apply(tunnels: set<string>, m: Rollup, c: Call): Rollup {
    if c.tunnelID == "" || c.fails then m
    else match Upsert(tunnels, m, Key(c.tunnelID, MinuteBucket(c.unix)), c.delta)
      case None => m
      case Some(m') => m'
  }

  function Run(tunnels: set<string>, m: Rollup, calls: seq<Call>): Rollup
    decreases |calls|
  {
    if calls == [] then m else Run(tunnels, Apply(tunnels, m, calls[0]), calls[1..])
  }

  function InBucket(tunnels: set<string>, c: Call, k: Key): Counters {
    if Stored(tunnels, c) && c.tunnelID == k.tunnelID && InMinute(c.unix, k.minute) then c.delta else ZERO
  }

  function InTunnel(tunnels: set<string>, c: Call, t: string): Counters {
    if Stored(tunnels, c) && c.tunnelID == t then c.delta else ZERO
  }

  /** The sum of the deltas of the stored calls that fall into one bucket. */
  function BucketSum(tunnels: set<string>, calls: seq<Call>, k: Key): Counters {
    if calls == [] then ZERO else InBucket(tunnels, calls[0], k).Plus(BucketSum(tunnels, calls[1..], k))
  }

  function TunnelSum(tunnels: set<string>, calls: seq<Call>, t: string): Counters {
    if calls == [] then ZERO else InTunnel(tunnels, calls[0], t).Plus(TunnelSum(tunnels, calls[1..], t))
  }

  lemma CallBucket(tunnels: set<string>, m: Rollup, c: Call, k: Key)
    ensures Row(Apply(tunnels, m, c), k) == Row(m, k).Plus(InBucket(tunnels, c, k))
  {
    MinuteBucketIff(c.unix, k.minute);
    hide MinuteBucket, InMinute;
    PlusLaws(Row(m, k), ZERO, ZERO);
  }

  /** After any calls, every bucket holds its old value plus exactly the stored deltas of its minute. */
  lemma {:induction false} BucketConservation(tunnels: set<string>, m: Rollup, calls: seq<Call>, k: Key)
    ensures Row(Run(tunnels, m, calls), k) == Row(m, k).Plus(BucketSum(tunnels, calls, k))
    decreases |calls|
  {
    hide Counters.Plus, Apply, InBucket, Row;
    PlusLaws(Row(m, k), ZERO, ZERO);
    if calls != [] {
      var c := calls[0];
      BucketConservation(tunnels, Apply(tunnels, m, c), calls[1..], k);
      CallBucket(tunnels, m, c, k);
      PlusLaws(Row(m, k), InBucket(tunnels, c, k), BucketSum(tunnels, calls[1..], k));
    }
  }

  function Share(m: Rollup, t: string, k: Key): Counters {
    if k.tunnelID == t then Row(m, k) else ZERO
  }

  /** The sum of a tunnel's rows over a set of keys, in any order. */
  ghost function SumOver(m: Rollup, t: string, keys: set<Key>): Counters
    decreases |keys|
  {
    if keys == {} then ZERO
    else
      var k :| k in keys;
      Share(m, t, k).Plus(SumOver(m, t, keys - {k}))
  }

  ghost function Total(m: Rollup, t: string): Counters {
    SumOver(m, t, m.Keys)
  }

  lemma {:induction false} SumOverSplit(m: Rollup, t: string, keys: set<Key>, k: Key)
    requires k in keys
    ensures SumOver(m, t, keys) == Share(m, t, k).Plus(SumOver(m, t, keys - {k}))
    decreases |keys|
  {
    hide Counters.Plus, Share;
    var j :| j in keys && SumOver(m, t, keys) == Share(m, t, j).Plus(SumOver(m, t, keys - {j}));
    hide SumOver;
    if j != k {
      SumOverSplit(m, t, keys - {j}, k);
      SumOverSplit(m, t, keys - {k}, j);
      assert keys - {j} - {k} == keys - {k} - {j};
      var rest := SumOver(m, t, keys - {j} - {k});
      PlusLaws(Share(m, t, j), Share(m, t, k), rest);
      PlusLaws(Share(m, t, k), Share(m, t, j), rest);
    }
  }

  lemma SumOverNone(m: Rollup, t: string)
    ensures SumOver(m, t, {}) == ZERO
  {
  }

  lemma {:induction false} SumOverSame(m: Rollup, n: Rollup, t: string, keys: set<Key>)
    requires forall k :: k in keys ==> Share(m, t, k) == Share(n, t, k)
    ensures SumOver(m, t, keys) == SumOver(n, t, keys)
    decreases |keys|
  {
    hide Counters.Plus, Share, SumOver;
    if keys == {} {
      SumOverNone(m, t);
      SumOverNone(n, t);
    } else {
      var k :| k in keys;
      SumOverSplit(m, t, keys, k);
      SumOverSplit(n, t, keys, k);
      SumOverSame(m, n, t, keys - {k});
    }
  }

  lemma TotalUpsert(m: Rollup, k: Key, delta: Counters, t: string)
    ensures Total(m[k := Row(m, k).Plus(delta)], t) == if k.tunnelID == t then Total(m, t).Plus(delta) else Total(m, t)
  {
    hide Counters.Plus, SumOver;
    var n := m[k := Row(m, k).Plus(delta)];
    var rest := m.Keys - {k};
    assert n.Keys - {k} == rest;
    SumOverSplit(n, t, n.Keys, k);
    SumOverSame(m, n, t, rest);
    if k in m {
      SumOverSplit(m, t, m.Keys, k);
    } else {
      assert rest == m.Keys;
      PlusLaws(SumOver(m, t, rest), ZERO, ZERO);
      PlusLaws(ZERO, SumOver(m, t, rest), ZERO);
    }
    PlusLaws(Row(m, k), delta, SumOver(m, t, rest));
    PlusLaws(delta, SumOver(m, t, rest), ZERO);
    PlusLaws(Row(m, k), SumOver(m, t, rest), delta);
  }

  lemma CallTotal(tunnels: set<string>, m: Rollup, c: Call, t: string)
    ensures Total(Apply(tunnels, m, c), t) == Total(m, t).Plus(InTunnel(tunnels, c, t))
  {
    hide Total, Counters.Plus;
    PlusLaws(Total(m, t), ZERO, ZERO);
    if Stored(tunnels, c) {
      TotalUpsert(m, Key(c.tunnelID, MinuteBucket(c.unix)), c.delta, t);
    }
  }

  /** After any calls, a tunnel's buckets sum to its old total plus exactly its stored deltas. */
  lemma {:induction false} TotalConservation(tunnels: set<string>, m: Rollup, calls: seq<Call>, t: string)
    ensures Total(Run(tunnels, m, calls), t) == Total(m, t).Plus(TunnelSum(tunnels, calls, t))
    decreases |calls|
  {
    hide Counters.Plus, Apply, InTunnel, Total;
    PlusLaws(Total(m, t), ZERO, ZERO);
    if calls != [] {
      var c := calls[0];
      TotalConservation(tunnels, Apply(tunnels, m, c), calls[1..], t);
      CallTotal(tunnels, m, c, t);
      PlusLaws(Total(m, t), InTunnel(tunnels, c, t), TunnelSum(tunnels, calls[1..], t));
    }
  }

  // ---------- the in-memory collector ----------

  /** The totals with one tunnel's raised; they are int64 variables and have no count of connections. */
  function Collect(c: map<string, Counters>, t: string, reqs: int, bytesIn: int, bytesOut: int): map<string, Counters> {
    if t == "" then c
    else
      var entry := if t in c then c[t] else ZERO;
      c[t := Counters(Wrap(entry.reqs + reqs), entry.conns, Wrap(entry.bytesIn + bytesIn),
        Wrap(entry.bytesOut + bytesOut))]
  }

  class Collector {
    var byTunnel: map<string, Counters>

    constructor ()
      ensures byTunnel == map[]
    {
      byTunnel := map[];
    }

    method Add(tunnelID: string, reqs: int, bytesIn: int, bytesOut: int)
      modifies this
      ensures byTunnel == Collect(old(byTunnel), tunnelID, reqs, bytesIn, bytesOut)
    {
      if tunnelID == "" {
        return;
      }
      var entry := if tunnelID in byTunnel then byTunnel[tunnelID] else ZERO;
      byTunnel := byTunnel[tunnelID := Counters(
          Wrap(entry.reqs + reqs), entry.conns, Wrap(entry.bytesIn + bytesIn), Wrap(entry.bytesOut + bytesOut))];
    }

    method Snapshot() returns (snap: map<string, Counters>)
      ensures snap == byTunnel
    {
      snap := map[];
      var keys := byTunnel.Keys;
      while keys != {}
        invariant keys <= byTunnel.Keys
        invariant forall k :: k in snap <==> k in byTunnel && k !in keys
        invariant forall k :: k in snap ==> snap[k] == byTunnel[k]
        decreases keys
      {
        var k :| k in keys;
        snap := snap[k := byTunnel[k]];
        keys := keys - {k};
      }
    }
  }

  // ---------- both together ----------

  /** An HTTP request whose response has been written and counted in memory but not yet in the store. */
  datatype Request = Request(tunnelID: string, bytesIn: nat, bytesOut: nat)

  datatype State = State(collector: map<string, Counters>, rollup: Rollup, pending: seq<Request>, lost: seq<Request>)

  datatype Event =
    | Finish(request: Request)                            // Metrics.Add
    | Record(i: nat, unix: int, fails: bool)              // the request's Store.AddMetric
    | Connection(tunnelID: string, unix: int, bytesIn: nat, bytesOut: nat, fails: bool)   // a TCP or UDP AddMetric

  predicate Enabled(s: State, e: Event) {
    e.Record? ==> e.i < |s.pending|
  }

  function RequestCall(r: Request, unix: int, fails: bool): Call {
    Call(r.tunnelID, unix, Counters(1, 0, r.bytesIn, r.bytesOut), fails)
  }

  function Step(tunnels: set<string>, s: State, e: Event): State
    requires Enabled(s, e)
  {
    match e
    case Finish(r) =>
      s.(collector := Collect(s.collector, r.tunnelID, 1, r.bytesIn, r.bytesOut), pending := s.pending + [r])
    case Record(i, unix, fails) =>
      var call := RequestCall(s.pending[i], unix, fails);
      s.(rollup := Apply(tunnels, s.rollup, call),
         pending := s.pending[..i] + s.pending[i + 1..],
         lost := if Stored(tunnels, call) then s.lost else s.lost + [s.pending[i]])
    case Connection(t, unix, bytesIn, bytesOut, fails) =>
      s.(rollup := Apply(tunnels, s.rollup, Call(t, unix, Counters(0, 1, bytesIn, bytesOut), fails)))
  }

  function Execute(tunnels: set<string>, s: State, events: seq<Event>): Option<State>
    decreases |events|
  {
    if events == [] then Some(s)
    else if Enabled(s, events[0]) then Execute(tunnels, Step(tunnels, s, events[0]), events[1..])
    else None
  }

  function SumOne(r: Request, t: string): Counters {
    if r.tunnelID == t then Counters(1, 0, r.bytesIn, r.bytesOut) else ZERO
  }

  /** What some requests add to a tunnel's counters. */
  function Sum(requests: seq<Request>, t: string): Counters {
    if requests == [] then ZERO else SumOne(requests[0], t).Plus(Sum(requests[1..], t))
  }

  lemma SumSingle(r: Request, t: string)
    ensures Sum([r], t) == SumOne(r, t)
  {
    hide Counters.Plus, SumOne;
    PlusLaws(SumOne(r, t), ZERO, ZERO);
    assert [r][1..] == [];
  }

  lemma {:induction false} SumConcat(a: seq<Request>, b: seq<Request>, t: string)
    ensures Sum(a + b, t) == Sum(a, t).Plus(Sum(b, t))
  {
    hide Counters.Plus, SumOne;
    if a == [] {
      assert a + b == b;
      PlusLaws(Sum(b, t), ZERO, ZERO);
    } else {
      assert (a + b)[1..] == a[1..] + b;
      SumConcat(a[1..], b, t);
      PlusLaws(SumOne(a[0], t), Sum(a[1..], t), Sum(b, t));
    }
  }

  lemma SumRemove(a: seq<Request>, i: nat, t: string)
    requires i < |a|
    ensures Sum(a, t) == SumOne(a[i], t).Plus(Sum(a[..i] + a[i + 1..], t))
  {
    hide Counters.Plus, SumOne, Sum;
    SumConcat(a[..i], [a[i]] + a[i + 1..], t);
    SumConcat([a[i]], a[i + 1..], t);
    SumConcat(a[..i], a[i + 1..], t);
    SumSingle(a[i], t);
    assert a == a[..i] + ([a[i]] + a[i + 1..]);
    PlusLaws(Sum(a[..i], t), SumOne(a[i], t), Sum(a[i + 1..], t));
    PlusLaws(SumOne(a[i], t), Sum(a[..i], t), Sum(a[i + 1..], t));
  }

  /** What a TCP or UDP connection adds to a tunnel's stored counters. */
  function ConnectionOne(tunnels: set<string>, e: Event, t: string): Counters {
    if e.Connection? && e.tunnelID == t && t in tunnels && !e.fails then Counters(0, 1, e.bytesIn, e.bytesOut) else ZERO
  }

  function ConnectionSum(tunnels: set<string>, events: seq<Event>, t: string): Counters {
    if events == [] then ZERO
    else ConnectionOne(tunnels, events[0], t).Plus(ConnectionSum(tunnels, events[1..], t))
  }

  function InMemory(s: State, t: string): Counters {
    if t in s.collector then s.collector[t] else ZERO
  }

  /** Everything that is stored for the tunnel, on its way there, or was refused there. */
  ghost function Recorded(s: State, t: string): Counters {
    Total(s.rollup, t).Plus(Sum(s.pending, t)).Plus(Sum(s.lost, t))
  }

  /** The counters in memory are, as int64 values, those recorded without what the connections brought. */
  ghost predicate Balanced(s: State, t: string, connections: Counters) {
    var m, all := InMemory(s, t), Recorded(s, t);
    && m.reqs == Wrap(all.reqs - connections.reqs)
    && m.bytesIn == Wrap(all.bytesIn - connections.bytesIn)
    && m.bytesOut == Wrap(all.bytesOut - connections.bytesOut)
    && all.conns == connections.conns
  }

  lemma RecordedStep(tunnels: set<string>, s: State, e: Event, t: string)
    requires t != "" && Enabled(s, e)
    ensures Recorded(Step(tunnels, s, e), t)
      == Recorded(s, t).Plus(if e.Finish? then SumOne(e.request, t) else ConnectionOne(tunnels, e, t))
  {
    hide Counters.Plus, Total, Apply, Sum, Collect;
    var total, pending, lost := Total(s.rollup, t), Sum(s.pending, t), Sum(s.lost, t);
    match e
    case Finish(r) =>
      SumConcat(s.pending, [r], t);
      SumSingle(r, t);
      PlusOrder(total, pending, lost, SumOne(r, t));
    case Record(i, unix, fails) =>
      var r := s.pending[i];
      var rest := Sum(s.pending[..i] + s.pending[i + 1..], t);
      SumRemove(s.pending, i, t);
      SumConcat(s.lost, [r], t);
      SumSingle(r, t);
      var call := RequestCall(r, unix, fails);
      CallTotal(tunnels, s.rollup, call, t);
      assert InTunnel(tunnels, call, t) == if Stored(tunnels, call) then SumOne(r, t) else ZERO;
      PlusOrder(total, rest, lost, SumOne(r, t));
      PlusLaws(total, ZERO, ZERO);
      PlusLaws(Recorded(s, t), ZERO, ZERO);
    case Connection(tunnelID, unix, bytesIn, bytesOut, fails) =>
      CallTotal(tunnels, s.rollup, Call(tunnelID, unix, Counters(0, 1, bytesIn, bytesOut), fails), t);
      PlusOrder(total, pending, lost, ConnectionOne(tunnels, e, t));
  }

  lemma StepBalanced(tunnels: set<string>, s: State, e: Event, t: string, c: Counters)
    requires t != "" && Balanced(s, t, c) && Enabled(s, e)
    ensures Balanced(Step(tunnels, s, e), t, c.Plus(ConnectionOne(tunnels, e, t)))
  {
    hide Recorded, Apply, Wrap, Sum, ConnectionSum;
    RecordedStep(tunnels, s, e, t);
    if e.Finish? && e.request.tunnelID == t {
      var all := Recorded(s, t);
      WrapAdd(all.reqs - c.reqs, 1);
      WrapAdd(all.bytesIn - c.bytesIn, e.request.bytesIn);
      WrapAdd(all.bytesOut - c.bytesOut, e.request.bytesOut);
    }
  }

  /** In any interleaving, a tunnel's request and byte counts in memory are, as int64 values, its stored ones
      plus those of the requests still in flight and of those the store refused, without what TCP and UDP
      connections brought; and its connection count is that of its connections. */
  lemma {:induction false} RequestsAgree(tunnels: set<string>, s: State, events: seq<Event>, t: string, c: Counters)
    requires t != "" && Balanced(s, t, c) && Execute(tunnels, s, events).Some?
    ensures Balanced(Execute(tunnels, s, events).value, t, c.Plus(ConnectionSum(tunnels, events, t)))
    decreases |events|
  {
    hide Balanced, Step, Counters.Plus, ConnectionOne;
    PlusLaws(c, ZERO, ZERO);
    if events != [] {
      var one, rest := ConnectionOne(tunnels, events[0], t), ConnectionSum(tunnels, events[1..], t);
      StepBalanced(tunnels, s, events[0], t, c);
      RequestsAgree(tunnels, Step(tunnels, s, events[0]), events[1..], t, c.Plus(one));
      PlusLaws(c, one, rest);
    }
  }

  lemma {:induction false} ConnectionsOnly(tunnels: set<string>, events: seq<Event>, t: string)
    ensures ConnectionSum(tunnels, events, t).reqs == 0
  {
    if events != [] {
      ConnectionsOnly(tunnels, events[1..], t);
    }
  }

  lemma RecordedQuiet(s: State, t: string)
    requires s.pending == [] && s.lost == []
    ensures Recorded(s, t) == Total(s.rollup, t)
  {
    hide Counters.Plus, Total;
    PlusLaws(Total(s.rollup, t), ZERO, ZERO);
  }

  lemma StartBalanced(t: string)
    ensures Balanced(State(map[], map[], [], []), t, ZERO)
  {
    var s := State(map[], map[], [], []);
    RecordedQuiet(s, t);
    SumOverNone(s.rollup, t);
    hide Recorded, SumOver, Counters.Plus;
    assert s.rollup.Keys == {};
  }

  /** From an empty start, with nothing in flight and nothing refused, the two request counts are the same
      exactly when the number of requests is an int64, and so are the byte counts without the connections'. */
  lemma QuietTotalsEqualIff(tunnels: set<string>, events: seq<Event>, t: string)
    requires t != "" && Execute(tunnels, State(map[], map[], [], []), events).Some?
    requires var s := Execute(tunnels, State(map[], map[], [], []), events).value; s.pending == [] && s.lost == []
    ensures var s := Execute(tunnels, State(map[], map[], [], []), events).value;
      var m, stored, others := InMemory(s, t), Total(s.rollup, t), ConnectionSum(tunnels, events, t);
      && (m.reqs == stored.reqs <==> FitsInt64(stored.reqs))
      && (m.bytesIn == stored.bytesIn - others.bytesIn <==> FitsInt64(stored.bytesIn - others.bytesIn))
      && (m.bytesOut == stored.bytesOut - others.bytesOut <==> FitsInt64(stored.bytesOut - others.bytesOut))
      && stored.conns == others.conns
  {
    var s0 := State(map[], map[], [], []);
    StartBalanced(t);
    RequestsAgree(tunnels, s0, events, t, ZERO);
    ConnectionsOnly(tunnels, events, t);
    var s := Execute(tunnels, s0, events).value;
    RecordedQuiet(s, t);
    var stored, others := Total(s.rollup, t), ConnectionSum(tunnels, events, t);
    PlusLaws(others, ZERO, ZERO);
    hide Execute, ConnectionSum, Recorded, Total, Counters.Plus, Wrap, FitsInt64;
    assert ZERO.Plus(others) == others;
    WrapExactIff(stored.reqs);
    WrapExactIff(stored.bytesIn - others.bytesIn);
    WrapExactIff(stored.bytesOut - others.bytesOut);
  }
}
