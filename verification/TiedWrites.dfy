/**
 * Writes that overwrite each other: two replicas accept one each, their rounds cross, and both end up with the other's.
 * So replicas agree on last-writer-wins keys exactly when one write bears the latest timestamp.
 */
module TiedWrites {
  import opened Types
  import opened Lattice
  import opened Causal
  import opened Values
  import opened Server
  import opened Spread
  import opened GossipNet
  import opened GossipSteps
  import opened GossipConvergence
  import opened ReplicaRuns
  import opened ConvergenceByType

  // ---- the writes -------------------------------------------------------------------------------

  function WritesTo(key: Key, values: set<Value>): (r: set<GossipNet.Write>) {
    set v | v in values :: GossipNet.Write(key, v)
  }

  /** Thread `t` has accepted `values`, and nothing else has happened. */
  ghost predicate Took(net: Net, net': Net, key: Key, t: ServerThread, values: set<Value>) {
    && t in net'.servers && Only(net, net', t, net'.servers[t])
    && net'.bag == net.bag && net'.accepted == net.accepted + WritesTo(key, values)
  }

  lemma TookNone(net: Net, key: Key, t: ServerThread)
    requires t in net.servers
    ensures Took(net, net, key, t, {})
  {
    assert net.servers[t := net.servers[t]] == net.servers;
    assert net.accepted + WritesTo(key, {}) == net.accepted;
  }

  lemma TookMore(net: Net, before: Net, net': Net, key: Key, t: ServerThread, values: set<Value>, v: Value)
    requires v in values && Took(net, before, key, t, values - {v}) && net'.bag == before.bag
    requires t in net'.servers && Only(before, net', t, net'.servers[t])
    requires net'.accepted == before.accepted + {GossipNet.Write(key, v)}
    ensures Took(net, net', key, t, values)
  {
    WritesMore(net.accepted, key, values, v);
    OnlyTwice(net, before, net', t);
  }

  /** All of `values` are written at `t`. */
  lemma {:induction false} PutAll(d: Deployment, reach: Reach, net: Net, key: Key, t: ServerThread, values: set<Value>)
    returns (net': Net)
    requires Sane(d) && Carries(d, key, reach) && reach(net) && Calm(net, key) && t in net.servers
    requires forall v :: v in values ==> d.carrier(key)(v)
    ensures reach(net') && Calm(net', key) && Took(net, net', key, t, values)
    decreases values
  {
    if values == {} {
      net' := net;
      TookNone(net, key, t);
    } else {
      var v :| v in values;
      var before := PutAll(d, reach, net, key, t, values - {v});
      net' := PutStep(d, reach, before, key, t, v);
      TookMore(net, before, net', key, t, values, v);
    }
  }

  lemma WritesMore(accepted: set<GossipNet.Write>, key: Key, values: set<Value>, v: Value)
    requires v in values
    ensures accepted + WritesTo(key, values - {v}) + {GossipNet.Write(key, v)} == accepted + WritesTo(key, values)
  {
  }

  lemma OnlyTwice(a: Net, b: Net, c: Net, w: ServerThread)
    requires w in b.servers && w in c.servers && Only(a, b, w, b.servers[w]) && Only(b, c, w, c.servers[w])
    ensures Only(a, c, w, c.servers[w])
  {
  }

  /** Each of two values replaces the other. */
  predicate Swap(x: Value, y: Value) {
    Combine(x, y) == y && Combine(y, x) == x && Combine(x, x) == x && Combine(y, y) == y
  }

  lemma JustBuilt(c: Value -> bool, owners: seq<ServerThread>, v: View<Value>, w: ServerThread)
    requires Spreads(c, Below, Combine, owners, v) && w in v.val
    ensures Built(Combine, v.accepted, v.val[w])
  {
  }

  lemma ViewHolds(net: Net, key: Key, w: ServerThread)
    requires w in net.servers && Val(net.servers[w], key).Some?
    ensures w in ViewOf(net, key).val && ViewOf(net, key).val[w] == Val(net.servers[w], key).value
    ensures ViewOf(net, key).accepted == AcceptedFor(net, key)
  {
  }

  /** What a thread holds is made of the writes accepted so far. */
  lemma HeldBuilt(d: Deployment, net: Net, key: Key, w: ServerThread)
    requires Good(d, net, key) && w in net.servers && Val(net.servers[w], key).Some?
    ensures Built(Combine, AcceptedFor(net, key), Val(net.servers[w], key).value)
  {
    ViewHolds(net, key, w);
    JustBuilt(d.carrier(key), Replicas(d, key), ViewOf(net, key), w);
  }

  lemma HeldReplaced(d: Deployment, reach: Reach, net: Net, key: Key, w: ServerThread, others: set<Value>, x: Value)
    requires Carries(d, key, reach) && reach(net) && w in net.servers && net.accepted == WritesTo(key, others)
    requires forall v :: Built(Combine, others, v) ==> Combine(v, x) == x
    ensures Val(net.servers[w], key).Some? ==> Combine(Val(net.servers[w], key).value, x) == x
  {
    if Val(net.servers[w], key).Some? {
      assert NetInv(d, net);
      assert Good(d, net, key);
      AcceptedAre(net, key, others);
      HeldBuilt(d, net, key, w);
    }
  }

  lemma AcceptedAre(net: Net, key: Key, values: set<Value>)
    requires net.accepted == WritesTo(key, values)
    ensures AcceptedFor(net, key) == values
  {
    forall v ensures v in AcceptedFor(net, key) <==> v in values {
      if v in values { assert GossipNet.Write(key, v) in net.accepted; }
    }
  }

  /** Nothing about the key is under way; `t` holds `x` and `u` holds `y`, and they alone owe a round. */
  ghost predicate Poised(net: Net, key: Key, t: ServerThread, u: ServerThread, x: Value, y: Value) {
    && net.bag == multiset{} && t in net.servers && u in net.servers && t != u
    && Val(net.servers[t], key) == Some(x) && key in net.servers[t].changes
    && Val(net.servers[u], key) == Some(y) && key in net.servers[u].changes
    && forall w :: w in net.servers && w != t && w != u ==> net.servers[w].changes == {}
  }

  /** Thread `t` alone has changed, and holds `x` now. */
  ghost predicate FirstWritten(net: Net, key: Key, t: ServerThread, x: Value) {
    && net.bag == multiset{} && t in net.servers && Val(net.servers[t], key) == Some(x) && key in net.servers[t].changes
    && forall w :: w in net.servers && w != t ==> Val(net.servers[w], key).None? && net.servers[w].changes == {}
  }

  lemma AfterFirst(start: Net, some: Net, net: Net, key: Key, t: ServerThread, x: Value, others: set<Value>)
    requires Blank(start, key) && Took(start, some, key, t, others)
    requires Val(some.servers[t], key).Some? ==> Combine(Val(some.servers[t], key).value, x) == x
    requires t in net.servers && Only(some, net, t, net.servers[t]) && net.bag == some.bag
    requires Did(some.servers[t], net.servers[t], key, x, true)
    ensures FirstWritten(net, key, t, x) && net.servers.Keys == start.servers.Keys
  {
  }

  lemma TookFirst(start: Net, some: Net, key: Key, t: ServerThread, others: set<Value>)
    requires Blank(start, key) && Took(start, some, key, t, others)
    ensures some.accepted == WritesTo(key, others)
  {
    assert {} + WritesTo(key, others) == WritesTo(key, others);
  }

  lemma AfterSecond(before: Net, net: Net, key: Key, t: ServerThread, u: ServerThread, x: Value, y: Value)
    requires FirstWritten(before, key, t, x) && t != u && net.bag == before.bag && u in before.servers
    requires u in net.servers && Only(before, net, u, net.servers[u])
    requires Did(before.servers[u], net.servers[u], key, y, true)
    ensures Poised(net, key, t, u, x, y)
  {
  }

  lemma FirstWrites(d: Deployment, reach: Reach, key: Key, start: Net, t: ServerThread, x: Value, others: set<Value>)
    returns (net: Net)
    requires Sane(d) && Carries(d, key, reach) && reach(start) && Calm(start, key) && Blank(start, key)
    requires t in start.servers
    requires d.carrier(key)(x) && forall v :: v in others ==> d.carrier(key)(v)
    requires forall v :: Built(Combine, others, v) ==> Combine(v, x) == x
    ensures reach(net) && Calm(net, key) && net.accepted == WritesTo(key, others) + {GossipNet.Write(key, x)}
    ensures FirstWritten(net, key, t, x) && net.servers.Keys == start.servers.Keys
  {
    var some := PutAll(d, reach, start, key, t, others);
    TookFirst(start, some, key, t, others);
    HeldReplaced(d, reach, some, key, t, others, x);
    net := PutStep(d, reach, some, key, t, x);
    AfterFirst(start, some, net, key, t, x, others);
  }

  lemma AllWrites(key: Key, others: set<Value>, x: Value, y: Value)
    ensures WritesTo(key, others) + {GossipNet.Write(key, x)} + {GossipNet.Write(key, y)}
         == WritesTo(key, others + {x, y})
  {
  }

  /** One replica has accepted `others` and then `x`, another one `y`. */
  lemma Written(d: Deployment, reach: Reach, key: Key, t: ServerThread, u: ServerThread, x: Value, y: Value,
                others: set<Value>) returns (net: Net)
    requires Sane(d) && Carries(d, key, reach) && t in Replicas(d, key) && u in Replicas(d, key) && t != u
    requires d.carrier(key)(x) && d.carrier(key)(y) && forall v :: v in others ==> d.carrier(key)(v)
    requires forall v :: Built(Combine, others, v) ==> Combine(v, x) == x
    ensures reach(net) && Calm(net, key) && Poised(net, key, t, u, x, y)
    ensures AcceptedFor(net, key) == others + {x, y}
  {
    var start := Assembly(d, reach, key, t, u);
    var before := FirstWrites(d, reach, key, start, t, x, others);
    net := PutStep(d, reach, before, key, u, y);
    AfterSecond(before, net, key, t, u, x, y);
    AllWrites(key, others, x, y);
    AcceptedAre(net, key, others + {x, y});
  }

  // ---- the crossing -----------------------------------------------------------------------------

  /** Nobody owes a round; `t` holds `y` or is sent it and nothing else, and `u` likewise `x`. */
  ghost predicate Crossing(net: Net, key: Key, t: ServerThread, u: ServerThread, x: Value, y: Value) {
    && t in net.servers && u in net.servers && t != u
    && (forall w :: w in net.servers ==> net.servers[w].changes == {})
    && (forall o :: o in net.bag ==> o.Gossip? && o.to in net.servers)
    && (forall o :: o in net.bag ==> (o.to == t ==> o.value == y) && (o.to == u ==> o.value == x))
    && Heading(net, key, t, x, y) && Heading(net, key, u, y, x)
  }

  /** Thread `w` holds `to`, or still `from` and is sent `to`. */
  ghost predicate Heading(net: Net, key: Key, w: ServerThread, from: Value, to: Value)
    requires w in net.servers
  {
    Val(net.servers[w], key) == Some(to) || (Val(net.servers[w], key) == Some(from) && Gossip(w, key, to) in net.bag)
  }

  lemma CrossedMail(net: Net, one: Net, key: Key, t: ServerThread, u: ServerThread, x: Value, y: Value,
                    fromT: multiset<Output>, fromU: multiset<Output>, o: Output)
    requires SendsAll(net, key, t, x, fromT) && SendsAll(one, key, u, y, fromU) && o in fromT + fromU && t != u
    ensures o.Gossip? && (o.to in net.servers || o.to in one.servers)
    ensures (o.to == t ==> o.value == y) && (o.to == u ==> o.value == x)
  {
    assert o in fromT || o in fromU;
  }

  lemma CrossedHeads(net: Net, one: Net, two: Net, key: Key, t: ServerThread, u: ServerThread, x: Value, y: Value,
                     fromT: multiset<Output>, fromU: multiset<Output>)
    requires SendsAll(net, key, t, x, fromT) && SendsAll(one, key, u, y, fromU) && two.bag == fromT + fromU && t != u
    requires u in net.servers && t in one.servers && t in two.servers && u in two.servers
    requires Val(two.servers[t], key) == Some(x) && Val(two.servers[u], key) == Some(y)
    ensures Heading(two, key, t, x, y) && Heading(two, key, u, y, x)
  {
    assert Gossip(t, key, y) in fromU && Gossip(u, key, x) in fromT;
  }

  lemma RoundsServers(net: Net, one: Net, two: Net, key: Key, t: ServerThread, u: ServerThread, x: Value, y: Value)
    requires Poised(net, key, t, u, x, y)
    requires Only(net, one, t, net.servers[t].(changes := {})) && Only(one, two, u, net.servers[u].(changes := {}))
    ensures one.servers.Keys == net.servers.Keys && two.servers.Keys == net.servers.Keys
    ensures forall w :: w in two.servers ==> two.servers[w].changes == {}
    ensures Val(two.servers[t], key) == Some(x) && Val(two.servers[u], key) == Some(y)
  {
    RoundHolds(net.servers[t], key);
    RoundHolds(net.servers[u], key);
  }

  lemma RoundsCrossed(net: Net, one: Net, two: Net, key: Key, t: ServerThread, u: ServerThread, x: Value,
                      y: Value, fromT: multiset<Output>, fromU: multiset<Output>)
    requires Poised(net, key, t, u, x, y)
    requires Only(net, one, t, net.servers[t].(changes := {})) && Only(one, two, u, net.servers[u].(changes := {}))
    requires two.bag == fromT + fromU && SendsAll(net, key, t, x, fromT) && SendsAll(one, key, u, y, fromU)
    ensures Crossing(two, key, t, u, x, y)
  {
    RoundsServers(net, one, two, key, t, u, x, y);
    CrossedHeads(net, one, two, key, t, u, x, y, fromT, fromU);
    forall o | o in two.bag
      ensures o.Gossip? && o.to in two.servers && (o.to == t ==> o.value == y) && (o.to == u ==> o.value == x)
    {
      CrossedMail(net, one, key, t, u, x, y, fromT, fromU, o);
    }
  }

  lemma RoundHolds(s: Server, key: Key)
    ensures Val(s.(changes := {}), key) == Val(s, key)
  {
  }

  lemma StillOwes(net: Net, one: Net, key: Key, t: ServerThread, u: ServerThread, x: Value, y: Value)
    requires Poised(net, key, t, u, x, y) && Only(net, one, t, net.servers[t].(changes := {}))
    ensures u in one.servers && one.servers[u] == net.servers[u] && key in one.servers[u].changes
    ensures Val(one.servers[u], key) == Some(y)
  {
  }

  /** The two have their rounds before either hears from the other. */
  lemma RoundsCross(d: Deployment, reach: Reach, net: Net, key: Key, t: ServerThread, u: ServerThread, x: Value,
                    y: Value) returns (net': Net)
    requires Sane(d) && Carries(d, key, reach) && reach(net) && Calm(net, key) && Poised(net, key, t, u, x, y)
    ensures reach(net') && Calm(net', key) && net'.accepted == net.accepted
    ensures Crossing(net', key, t, u, x, y)
  {
    var one, fromT := RoundStep(d, reach, net, key, t, x);
    StillOwes(net, one, key, t, u, x, y);
    var two, fromU := RoundStep(d, reach, one, key, u, y);
    net' := two;
    assert two.bag == fromT + fromU;
    RoundsCrossed(net, one, two, key, t, u, x, y, fromT, fromU);
  }

  lemma CrossOn(net: Net, net': Net, key: Key, t: ServerThread, u: ServerThread, x: Value, y: Value, m: Output)
    requires Crossing(net, key, t, u, x, y) && Swap(x, y) && m in net.bag && m.key == key
    requires net'.bag == net.bag - multiset{m} && m.to in net'.servers && Only(net, net', m.to, net'.servers[m.to])
    requires Did(net.servers[m.to], net'.servers[m.to], key, m.value, false) && net'.servers[m.to].changes <= {key}
    ensures Crossing(net', key, t, u, x, y)
  {
    assert net'.servers[m.to].changes == {};
    HeadOn(net, net', key, t, x, y, m);
    HeadOn(net, net', key, u, y, x, m);
  }

  lemma HeadOn(net: Net, net': Net, key: Key, w: ServerThread, from: Value, to: Value, m: Output)
    requires w in net.servers && w in net'.servers && Heading(net, key, w, from, to) && Swap(from, to)
    requires m in net.bag && m.Gossip? && m.key == key && (m.to == w ==> m.value == to)
    requires net'.bag == net.bag - multiset{m} && m.to in net'.servers && Only(net, net', m.to, net'.servers[m.to])
    requires Did(net.servers[m.to], net'.servers[m.to], key, m.value, false)
    ensures Heading(net', key, w, from, to)
  {
    if m.to != w {
      assert Gossip(w, key, to) in net.bag ==> Gossip(w, key, to) in net'.bag;
    }
  }

  lemma DeliverOne(d: Deployment, reach: Reach, net: Net, key: Key, t: ServerThread, u: ServerThread, x: Value,
                   y: Value, m: Output) returns (next: Net)
    requires Sane(d) && Carries(d, key, reach) && reach(net) && Calm(net, key)
    requires Crossing(net, key, t, u, x, y) && Swap(x, y) && m in net.bag
    ensures reach(next) && Calm(next, key) && next.accepted == net.accepted
    ensures Crossing(next, key, t, u, x, y) && next.bag == net.bag - multiset{m}
  {
    next := DeliverStep(d, reach, net, key, m);
    CrossOn(net, next, key, t, u, x, y, m);
  }

  /** Everything under way arrives, in any order. */
  lemma {:induction false} DeliverAll(d: Deployment, reach: Reach, net: Net, key: Key, t: ServerThread, u: ServerThread,
                                      x: Value, y: Value) returns (net': Net)
    requires Sane(d) && Carries(d, key, reach) && reach(net) && Calm(net, key)
    requires Crossing(net, key, t, u, x, y) && Swap(x, y)
    ensures reach(net') && Calm(net', key) && net'.accepted == net.accepted
    ensures Crossing(net', key, t, u, x, y) && net'.bag == multiset{}
    decreases |net.bag|
  {
    if net.bag == multiset{} {
      net' := net;
    } else {
      var m :| m in net.bag;
      var next := DeliverOne(d, reach, net, key, t, u, x, y, m);
      net' := DeliverAll(d, reach, next, key, t, u, x, y);
    }
  }

  /**
   * Two replicas that accept writes which replace each other can end up, with nothing under way, holding each other's.
   */
  lemma SwappedRun(d: Deployment, reach: Reach, key: Key, t: ServerThread, u: ServerThread, x: Value, y: Value,
                   others: set<Value>) returns (net: Net)
    requires Sane(d) && Carries(d, key, reach) && t in Replicas(d, key) && u in Replicas(d, key) && t != u && Swap(x, y)
    requires d.carrier(key)(x) && d.carrier(key)(y) && forall v :: v in others ==> d.carrier(key)(v)
    requires forall v :: Built(Combine, others, v) ==> Combine(v, x) == x
    ensures reach(net) && Quiet(net, key) && AcceptedFor(net, key) == others + {x, y}
    ensures t in net.servers && Val(net.servers[t], key) == Some(y)
    ensures u in net.servers && Val(net.servers[u], key) == Some(x)
  {
    var written := Written(d, reach, key, t, u, x, y, others);
    var crossing := RoundsCross(d, reach, written, key, t, u, x, y);
    net := DeliverAll(d, reach, crossing, key, t, u, x, y);
    Settled(net, key, t, u, x, y);
    SameAccepted(written, net, key);
  }

  lemma Settled(net: Net, key: Key, t: ServerThread, u: ServerThread, x: Value, y: Value)
    requires Calm(net, key) && Crossing(net, key, t, u, x, y) && net.bag == multiset{}
    ensures Quiet(net, key)
    ensures Val(net.servers[t], key) == Some(y) && Val(net.servers[u], key) == Some(x)
  {
  }

  lemma SameAccepted(a: Net, b: Net, key: Key)
    requires a.accepted == b.accepted
    ensures AcceptedFor(a, key) == AcceptedFor(b, key)
  {
  }

  // ---- last-writer-wins keys --------------------------------------------------------------------

  /** One of the pairs has a later timestamp than all others. */
  ghost predicate OneLatest(accepted: set<Value>) {
    exists p :: p in accepted && IsLatest(accepted, p)
  }

  ghost predicate IsLatest(accepted: set<Value>, p: Value) {
    p.LwwValue? && forall q :: q in accepted && q.LwwValue? && q.lww.timestamp >= p.lww.timestamp ==> q == p
  }

  ghost predicate AllPairs(accepted: set<Value>) {
    forall p :: p in accepted ==> p.LwwValue?
  }

  /** Merging pairs yields one of them. */
  lemma {:induction false} FoldedPair(h: Lineage<Value>, accepted: set<Value>)
    requires MadeOf(h, accepted) && AllPairs(accepted)
    ensures Folded(Combine, h) in accepted
  {
    match h
    case One(_) =>
    case Two(l, r) =>
      FoldedPair(l, accepted);
      FoldedPair(r, accepted);
      PairBelow(Folded(Combine, l), Folded(Combine, r));
  }

  lemma BuiltPair(accepted: set<Value>, x: Value)
    requires Built(Combine, accepted, x) && AllPairs(accepted)
    ensures x in accepted
  {
    var h :| MadeOf(h, accepted) && Folded(Combine, h) == x;
    FoldedPair(h, accepted);
  }

  lemma {:induction false} SomeLast(accepted: set<Value>) returns (p: Value)
    requires accepted != {} && AllPairs(accepted)
    ensures p in accepted && forall q :: q in accepted ==> q.lww.timestamp <= p.lww.timestamp
    decreases accepted
  {
    var a :| a in accepted;
    var rest := accepted - {a};
    p := a;
    assert forall q :: q in accepted ==> q == a || q in rest;
    if rest != {} {
      var r := SomeLast(rest);
      if a.lww.timestamp < r.lww.timestamp { p := r; }
    }
  }

  lemma LatestIs(accepted: set<Value>, p: Value, x: Value)
    requires AllPairs(accepted) && p in accepted && IsLatest(accepted, p) && Built(Combine, accepted, x) && Below(p, x)
    ensures x == p
  {
    BuiltPair(accepted, x);
    PairBelow(p, x);
  }

  /** Whenever nothing about the key is under way, every replica holds the one write with the latest timestamp. */
  lemma LatestHeld(d: Deployment, nets: seq<Net>, steps: seq<NetStep>, i: nat, key: Key, p: Value, w: ServerThread)
    requires Sane(d) && IsNetRun(d, nets, steps) && NetInit(d, nets[0]) && d.kind(key) == LWW
    requires i < |nets| && Quiet(nets[i], key) && w in Replicas(d, key)
    requires p in AcceptedFor(nets[i], key) && IsLatest(AcceptedFor(nets[i], key), p)
    ensures w in nets[i].servers && Val(nets[i].servers[w], key) == Some(p)
  {
    ReplicasConverge(d, nets, steps, i, key);
    AcceptedCarried(d, nets, steps, i, key);
    PairsOnly(d, key, AcceptedFor(nets[i], key));
    LatestIs(AcceptedFor(nets[i], key), p, Val(nets[i].servers[w], key).value);
  }

  lemma PairsOnly(d: Deployment, key: Key, accepted: set<Value>)
    requires Typed(d) && d.kind(key) == LWW && forall p :: p in accepted ==> d.carrier(key)(p)
    ensures AllPairs(accepted)
  {
    assert OneType(d, key);
  }

  /** The `i`-th state of the run has nothing about the key under way, and has accepted exactly these writes of it. */
  ghost predicate QuietWith(d: Deployment, nets: seq<Net>, steps: seq<NetStep>, i: nat, key: Key,
                            accepted: set<Value>) {
    && IsNetRun(d, nets, steps) && NetInit(d, nets[0]) && i < |nets|
    && Quiet(nets[i], key) && AcceptedFor(nets[i], key) == accepted
  }

  /** All replicas hold the same value of the key. */
  ghost predicate Agree(d: Deployment, net: Net, key: Key) {
    forall t, u :: t in Replicas(d, key) && u in Replicas(d, key) ==>
      t in net.servers && u in net.servers && Val(net.servers[t], key) == Val(net.servers[u], key)
  }

  ghost predicate OneReplica(d: Deployment, key: Key) {
    forall t, u :: t in Replicas(d, key) && u in Replicas(d, key) ==> t == u
  }

  lemma PairsAgree(d: Deployment, nets: seq<Net>, steps: seq<NetStep>, i: nat, key: Key, accepted: set<Value>)
    requires Sane(d) && d.kind(key) == LWW && accepted != {} && QuietWith(d, nets, steps, i, key, accepted)
    requires OneLatest(accepted) || OneReplica(d, key)
    ensures Agree(d, nets[i], key)
  {
    ReplicasConverge(d, nets, steps, i, key);
    if OneLatest(accepted) {
      var p :| p in accepted && IsLatest(accepted, p);
      forall w | w in Replicas(d, key) ensures w in nets[i].servers && Val(nets[i].servers[w], key) == Some(p) {
        LatestHeld(d, nets, steps, i, key, p, w);
      }
    }
  }

  lemma TiedPairs(accepted: set<Value>) returns (x: Value, y: Value)
    requires accepted != {} && AllPairs(accepted) && !OneLatest(accepted)
    ensures x in accepted && y in accepted && x != y && x.lww.timestamp == y.lww.timestamp
    ensures forall q :: q in accepted ==> q.lww.timestamp <= x.lww.timestamp
  {
    x := SomeLast(accepted);
    y := AnotherLast(accepted, x);
  }

  lemma AnotherLast(accepted: set<Value>, x: Value) returns (y: Value)
    requires AllPairs(accepted) && x in accepted && !IsLatest(accepted, x)
    ensures y in accepted && y.lww.timestamp >= x.lww.timestamp && y != x
  {
    y :| y in accepted && y.LwwValue? && y.lww.timestamp >= x.lww.timestamp && y != x;
  }

  lemma TiedSwap(x: Value, y: Value)
    requires x.LwwValue? && y.LwwValue? && x.lww.timestamp == y.lww.timestamp
    ensures Swap(x, y)
  {
  }

  lemma LatestReplaces(others: set<Value>, x: Value)
    requires AllPairs(others) && x.LwwValue? && forall q :: q in others ==> q.lww.timestamp <= x.lww.timestamp
    ensures forall v :: Built(Combine, others, v) ==> Combine(v, x) == x
  {
    forall v | Built(Combine, others, v) ensures Combine(v, x) == x {
      BuiltPair(others, v);
      PairBelow(v, x);
    }
  }

  /** A run of the replicas of the key that ends quiet, with `t` holding `y` and `u` holding `x`. */
  lemma SwappedEnd(d: Deployment, key: Key, t: ServerThread, u: ServerThread, x: Value, y: Value, others: set<Value>)
    returns (net: Net)
    requires Sane(d) && t in Replicas(d, key) && u in Replicas(d, key) && t != u && Swap(x, y)
    requires d.carrier(key)(x) && d.carrier(key)(y) && forall v :: v in others ==> d.carrier(key)(v)
    requires forall v :: Built(Combine, others, v) ==> Combine(v, x) == x
    ensures Reachable(d, net) && Quiet(net, key) && AcceptedFor(net, key) == others + {x, y}
    ensures t in net.servers && Val(net.servers[t], key) == Some(y)
    ensures u in net.servers && Val(net.servers[u], key) == Some(x)
  {
    var reach := Reaching(d, key);
    ReachingCarries(d, key);
    net := SwappedRun(d, reach, key, t, u, x, y, others);
  }

  lemma TiedRun(d: Deployment, key: Key, t: ServerThread, u: ServerThread, others: set<Value>, x: Value, y: Value)
    returns (net: Net)
    requires Sane(d) && t in Replicas(d, key) && u in Replicas(d, key) && t != u && AllPairs(others)
    requires x.LwwValue? && y.LwwValue? && x.lww.timestamp == y.lww.timestamp
    requires forall q :: q in others ==> q.lww.timestamp <= x.lww.timestamp
    requires d.carrier(key)(x) && d.carrier(key)(y) && forall q :: q in others ==> d.carrier(key)(q)
    ensures Reachable(d, net) && Quiet(net, key) && AcceptedFor(net, key) == others + {x, y}
    ensures t in net.servers && Val(net.servers[t], key) == Some(y)
    ensures u in net.servers && Val(net.servers[u], key) == Some(x)
  {
    TiedSwap(x, y);
    LatestReplaces(others, x);
    net := SwappedEnd(d, key, t, u, x, y, others);
  }

  lemma PutBack(accepted: set<Value>, x: Value, y: Value)
    requires x in accepted && y in accepted
    ensures (accepted - {x, y}) + {x, y} == accepted
  {
  }

  lemma PairsDisagree(d: Deployment, key: Key, accepted: set<Value>)
    returns (nets: seq<Net>, steps: seq<NetStep>)
    requires Sane(d) && accepted != {} && AllPairs(accepted) && !OneLatest(accepted) && !OneReplica(d, key)
    requires forall p :: p in accepted ==> d.carrier(key)(p)
    ensures QuietWith(d, nets, steps, |steps|, key, accepted) && !Agree(d, nets[|steps|], key)
  {
    var t, u :| t in Replicas(d, key) && u in Replicas(d, key) && t != u;
    var x, y := TiedPairs(accepted);
    PutBack(accepted, x, y);
    var net := TiedRun(d, key, t, u, accepted - {x, y}, x, y);
    nets, steps := RunInto(d, net);
  }

  /** The run ends with nothing about the key under way, and of its two writes `t` holds one and `u` the other. */
  ghost predicate HeldApart(d: Deployment, nets: seq<Net>, steps: seq<NetStep>, key: Key, t: ServerThread, atT: Value,
                        u: ServerThread, atU: Value) {
    && QuietWith(d, nets, steps, |steps|, key, {atT, atU})
    && var last := nets[|steps|].servers;
    && t in last && Val(last[t], key) == Some(atT)
    && u in last && Val(last[u], key) == Some(atU)
  }

  lemma NothingBuilt(x: Value)
    ensures forall v :: Built(Combine, {}, v) ==> Combine(v, x) == x
  {
    forall h: Lineage<Value> ensures !MadeOf(h, {}) { MadeOfNothing(h); }
  }

  lemma SwapEnd(d: Deployment, key: Key, x: Value, y: Value, t: ServerThread, u: ServerThread) returns (net: Net)
    requires Sane(d) && Swap(x, y) && d.carrier(key)(x) && d.carrier(key)(y)
    requires t in Replicas(d, key) && u in Replicas(d, key) && t != u
    ensures Reachable(d, net) && Quiet(net, key) && AcceptedFor(net, key) == {y, x}
    ensures t in net.servers && Val(net.servers[t], key) == Some(y)
    ensures u in net.servers && Val(net.servers[u], key) == Some(x)
  {
    var others: set<Value> := {};
    NothingBuilt(x);
    net := SwappedEnd(d, key, t, u, x, y, others);
    assert others + {x, y} == {y, x};
  }

  /** Two writes that replace each other: some run ends quiet with each of two replicas holding the other's. */
  lemma SwapApart(d: Deployment, key: Key, x: Value, y: Value, t: ServerThread, u: ServerThread)
    returns (nets: seq<Net>, steps: seq<NetStep>)
    requires Sane(d) && Swap(x, y) && d.carrier(key)(x) && d.carrier(key)(y)
    requires t in Replicas(d, key) && u in Replicas(d, key) && t != u
    ensures HeldApart(d, nets, steps, key, t, y, u, x)
  {
    var net := SwapEnd(d, key, x, y, t, u);
    nets, steps := RunInto(d, net);
  }

  /** Two writes with one timestamp: some run ends quiet with each of two replicas holding the other's. */
  lemma TiedStamps(d: Deployment, key: Key, x: Value, y: Value, t: ServerThread, u: ServerThread)
    returns (nets: seq<Net>, steps: seq<NetStep>)
    requires Sane(d) && d.carrier(key)(x) && d.carrier(key)(y)
    requires x.LwwValue? && y.LwwValue? && x.lww.timestamp == y.lww.timestamp
    requires t in Replicas(d, key) && u in Replicas(d, key) && t != u
    ensures HeldApart(d, nets, steps, key, t, y, u, x)
  {
    TiedSwap(x, y);
    nets, steps := SwapApart(d, key, x, y, t, u);
  }

  /**
   * Last-writer-wins keys. For any non-empty set of writes: the replicas agree in every quiet state of every run in
   * which exactly these were accepted, if and only if one of them bears the latest timestamp alone or the key has no
   * two replicas. On a tie two replicas can end up holding each other's write for good.
   */
  lemma PairsAgreeExactly(d: Deployment, key: Key, accepted: set<Value>)
    requires Sane(d) && d.kind(key) == LWW && accepted != {} && forall p :: p in accepted ==> d.carrier(key)(p)
    ensures (forall nets, steps, i :: QuietWith(d, nets, steps, i, key, accepted) ==> Agree(d, nets[i], key))
       <==> OneLatest(accepted) || OneReplica(d, key)
  {
    PairsOnly(d, key, accepted);
    if OneLatest(accepted) || OneReplica(d, key) {
      forall nets, steps, i | QuietWith(d, nets, steps, i, key, accepted) ensures Agree(d, nets[i], key) {
        PairsAgree(d, nets, steps, i, key, accepted);
      }
    } else {
      var nets, steps := PairsDisagree(d, key, accepted);
    }
  }

  // ---- causal keys ------------------------------------------------------------------------------

  /** Two causal values with one clock. */
  predicate SameClock(x: Value, y: Value) {
    match (x, y)
    case (SingleCausalValue(a), SingleCausalValue(b)) => a.clock == b.clock
    case (MultiCausalValue(a), MultiCausalValue(b)) => a.clock == b.clock
    case _ => false
  }

  lemma ClockReplaces<V>(j: Join<V>, a: Version<V>, b: Version<V>)
    requires a.clock == b.clock
    ensures MergeVersions(j, a, b) == b
  {
    ClockLaws(a.clock, b.clock, a.clock);
  }

  lemma SameClockSwaps(x: Value, y: Value)
    requires SameClock(x, y)
    ensures Swap(x, y)
  {
    match (x, y)
    case (SingleCausalValue(a), SingleCausalValue(b)) =>
      ClockReplaces(Union, a, b);
      ClockReplaces(Union, b, a);
      ClockReplaces(Union, a, a);
      ClockReplaces(Union, b, b);
    case (MultiCausalValue(a), MultiCausalValue(b)) =>
      ClockReplaces(TaggedJoin, a, b);
      ClockReplaces(TaggedJoin, b, a);
      ClockReplaces(TaggedJoin, a, a);
      ClockReplaces(TaggedJoin, b, b);
  }

  /** Two writes of a causal key with one clock: some run ends quiet with each of two replicas holding the other's. */
  lemma TiedClocks(d: Deployment, key: Key, x: Value, y: Value, t: ServerThread, u: ServerThread)
    returns (nets: seq<Net>, steps: seq<NetStep>)
    requires Sane(d) && SameClock(x, y) && d.carrier(key)(x) && d.carrier(key)(y)
    requires t in Replicas(d, key) && u in Replicas(d, key) && t != u
    ensures HeldApart(d, nets, steps, key, t, y, u, x)
  {
    SameClockSwaps(x, y);
    nets, steps := SwapApart(d, key, x, y, t, u);
  }
}
