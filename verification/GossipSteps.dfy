/** Every step of the cluster keeps what the gossip protocol needs. */
module GossipSteps {
  import opened Types
  import opened Metadata
  import opened Responsibility
  import opened Values
  import opened Server
  import opened ServerRuns
  import opened Spread
  import opened GossipNet

  ghost predicate AllGood(d: Deployment, net: Net) {
    forall k :: Good(d, net, k)
  }

  /** A thread that sees the agreed rings and factors, and holds only what it may. */
  ghost predicate Loyal(d: Deployment, w: ServerThread, s: Server) {
    && Inv(s) && s.rings == d.rings
    && (forall k :: k in s.reps ==> s.reps[k] == d.agreed(k))
    && (forall k, p :: k in s.requests && p in s.requests[k] ==> Proper(d, p.header, k, p.kind, p.payload))
    && (forall k :: k in s.gossip ==> w in Replicas(d, k))
  }

  ghost predicate Addressed(d: Deployment, bag: multiset<Output>) {
    forall o :: o in bag && o.Gossip? ==> o.to in Replicas(d, o.key)
  }

  ghost predicate NetInv(d: Deployment, net: Net) {
    && (forall w :: w in net.servers ==> Loyal(d, w, net.servers[w]))
    && Addressed(d, net.bag)
    && AllGood(d, net)
  }

  // ---- one thread -------------------------------------------------------------------------------

  lemma OwnTierDecides(byTier: Tier -> seq<ServerThread>, tierOf: ServerThread -> Tier, w: ServerThread)
    requires forall tier, t :: t in byTier(tier) ==> tierOf(t) == tier
    ensures w in Collect([tierOf(w)], byTier) <==> w in Collect(ALL_TIERS, byTier)
  {
    CollectBoth(byTier);
    assert w in byTier(Memory) + byTier(Disk) <==> w in byTier(Memory) || w in byTier(Disk);
  }

  /** A thread of some tier is responsible for a key if and only if it is among that tier's responsible threads. */
  lemma InOwnTier(d: Deployment, w: ServerThread, key: Key)
    requires Tiered(d)
    ensures w in InTiers(d.hs, d.rings, d.agreed(key), key, [d.tierOf(w)])
       <==> w in InTiers(d.hs, d.rings, d.agreed(key), key, ALL_TIERS)
  {
    var byTier := ByTier(d.hs, d.rings, d.agreed(key), key);
    forall tier, t | t in byTier(tier) ensures d.tierOf(t) == tier {
      assert t in ByTier(d.hs, d.rings, d.agreed(key), key)(tier);
    }
    OwnTierDecides(byTier, d.tierOf, w);
  }

  /** A thread's answer to who is responsible decides whether the thread itself is. */
  predicate Decides(d: Deployment, w: ServerThread, s: Server, key: Key, who: Option<seq<ServerThread>>) {
    Fits(s, key, who) && (who.Some? ==> (w in who.value <==> w in Replicas(d, key)))
  }

  lemma WhoMetadata(d: Deployment, w: ServerThread, s: Server, key: Key, tiers: seq<Tier>)
    requires s.rings == d.rings && IsMetadata(key)
    ensures Decides(d, w, s, key, Who(EnvOf(d, w), s, key, tiers))
  {
  }

  lemma WhoKnown(d: Deployment, w: ServerThread, s: Server, key: Key)
    requires Tiered(d) && s.rings == d.rings && !IsMetadata(key) && key in s.reps && s.reps[key] == d.agreed(key)
    ensures Decides(d, w, s, key, Who(EnvOf(d, w), s, key, [d.tierOf(w)]))
  {
    InOwnTier(d, w, key);
  }

  /** What the handlers ask: is this thread among the responsible ones of its own tier. */
  lemma WhoHere(d: Deployment, w: ServerThread, s: Server, key: Key)
    requires Tiered(d) && s.rings == d.rings && (key in s.reps ==> s.reps[key] == d.agreed(key))
    ensures Decides(d, w, s, key, Who(EnvOf(d, w), s, key, [d.tierOf(w)]))
  {
    if IsMetadata(key) {
      WhoMetadata(d, w, s, key, [d.tierOf(w)]);
    } else if key in s.reps {
      WhoKnown(d, w, s, key);
    }
  }

  /** What the gossip round asks: the responsible threads of all tiers. */
  lemma WhoEverywhere(d: Deployment, w: ServerThread, s: Server, key: Key)
    requires s.rings == d.rings && (key in s.reps ==> s.reps[key] == d.agreed(key))
    requires IsMetadata(key) || key in s.reps
    ensures Who(EnvOf(d, w), s, key, ALL_TIERS) == Some(Replicas(d, key))
  {
  }

  lemma PutVal(s: Server, key: Key, x: Value)
    requires Exactly(s.stored, s.store) && Accepts(s, key, TypeOf(x))
    ensures Val(Put(s, key, TypeOf(x), x), key) == MergeVal(Val(s, key), x)
  {
    var slot := Slot(TypeOf(x), key);
    if key in s.stored {
      assert Slot(s.stored[key], key) == slot;
    } else {
      assert slot !in s.store;
      CombineBottom(x);
    }
  }

  lemma PutDid(s: Server, key: Key, x: Value)
    requires Exactly(s.stored, s.store) && Accepts(s, key, TypeOf(x))
    ensures Did(s, Put(s, key, TypeOf(x), x), key, x, false)
    ensures Did(s, Put(s, key, TypeOf(x), x).(changes := s.changes + {key}), key, x, true)
  {
    PutVal(s, key, x);
  }

  lemma HeldCarried(d: Deployment, net: Net, w: ServerThread, key: Key)
    requires Carried(d.carrier(key), ViewOf(net, key)) && w in net.servers
    ensures Val(net.servers[w], key).Some? ==> d.carrier(key)(Val(net.servers[w], key).value)
  {
    var v := ViewOf(net, key);
    assert Val(net.servers[w], key).Some? ==> w in v.val && v.val[w] == Val(net.servers[w], key).value;
  }

  /** What a thread holds of a key has the key's type, so values of that type are merged. */
  lemma TypeFits(d: Deployment, s: Server, key: Key)
    requires Exactly(s.stored, s.store) && OneType(d, key) && (Val(s, key).Some? ==> d.carrier(key)(Val(s, key).value))
    ensures Accepts(s, key, d.kind(key))
  {
    if key in s.stored {
      assert Slot(s.stored[key], key) in s.store;
    }
  }

  /** Values of the key's carrier are merged by whoever holds the key. */
  lemma Merges(d: Deployment, net: Net, w: ServerThread, key: Key)
    requires Typed(d) && Good(d, net, key) && w in net.servers
    requires Exactly(net.servers[w].stored, net.servers[w].store)
    ensures Accepts(net.servers[w], key, d.kind(key))
  {
    HeldCarried(d, net, w, key);
    assert OneType(d, key);
    TypeFits(d, net.servers[w], key);
  }

  // ---- a client request -------------------------------------------------------------------------

  lemma ServeDid(s: Server, header: Header, key: Key, x: Value, invalidate: bool)
    requires Exactly(s.stored, s.store) && Accepts(s, key, TypeOf(x)) && header.kind == PUT
    ensures Did(s, Serve(s, header, key, TypeOf(x), x, invalidate).0, key, x, true)
  {
    PutDid(s, key, x);
  }

  lemma RequestIdle(self: ServerThread, s: Server, header: Header, t: KeyTuple, who: Option<seq<ServerThread>>, k: Key)
    requires !(who.Some? && self in who.value && header.kind == PUT)
    ensures Same(s, RequestAs(self, s, header, t, who).server, k)
  {
  }

  lemma ClientWrites(d: Deployment, net: Net, w: ServerThread, header: Header, t: KeyTuple,
                     who: Option<seq<ServerThread>>, k: Key)
    requires Merging(d) && Good(d, net, k) && w in net.servers && Inv(net.servers[w])
    requires Accepts(net.servers[w], t.key, t.kind) && t.kind == TypeOf(t.payload) && d.carrier(t.key)(t.payload)
    requires who.Some? && w in who.value && header.kind == PUT && w in Replicas(d, t.key)
    ensures var s' := RequestAs(w, net.servers[w], header, t, who).server;
            Good(d, net.(servers := net.servers[w := s'], accepted := net.accepted + {Write(t.key, t.payload)}), k)
  {
    var s' := RequestAs(w, net.servers[w], header, t, who).server;
    ServeDid(net.servers[w], header, t.key, t.payload, t.cacheSize > 0 && t.cacheSize != |who.value|);
    WriteKeeps(d, net, w, s', t.key, t.payload, k);
  }

  lemma ClientIdles(d: Deployment, net: Net, w: ServerThread, header: Header, t: KeyTuple,
                    who: Option<seq<ServerThread>>, k: Key)
    requires Good(d, net, k) && w in net.servers && !(who.Some? && w in who.value && header.kind == PUT)
    ensures var s' := RequestAs(w, net.servers[w], header, t, who).server;
            Good(d, net.(servers := net.servers[w := s'], accepted := net.accepted + {}), k)
  {
    var s' := RequestAs(w, net.servers[w], header, t, who).server;
    RequestIdle(w, net.servers[w], header, t, who, k);
    SameView(net, w, s', k);
    assert net.accepted + {} == net.accepted;
  }

  /** Messages that are no gossip do not matter. */
  lemma Sends(d: Deployment, net: Net, w: ServerThread, r: Outcome, writes: set<Write>, k: Key)
    requires Good(d, net.(servers := net.servers[w := r.server], accepted := net.accepted + writes), k)
    requires forall o :: o in r.out ==> !o.Gossip?
    ensures Good(d, Handled(net, w, r, writes), k)
  {
    BagMore(net.(servers := net.servers[w := r.server], accepted := net.accepted + writes), r.out, k);
  }

  lemma ClientKeeps(d: Deployment, net: Net, w: ServerThread, header: Header, t: KeyTuple,
                    who: Option<seq<ServerThread>>, writes: set<Write>, k: Key)
    requires Merging(d) && Good(d, net, k) && w in net.servers && Inv(net.servers[w])
    requires header.kind == PUT ==>
               Accepts(net.servers[w], t.key, t.kind) && t.kind == TypeOf(t.payload) && d.carrier(t.key)(t.payload)
    requires Fits(net.servers[w], t.key, who) && (who.Some? ==> (w in who.value <==> w in Replicas(d, t.key)))
    requires writes == if who.Some? && w in who.value && header.kind == PUT then {Write(t.key, t.payload)} else {}
    ensures var r := RequestAs(w, net.servers[w], header, t, who);
            Good(d, Handled(net, w, r, writes), k)
  {
    if who.Some? && w in who.value && header.kind == PUT {
      ClientWrites(d, net, w, header, t, who, k);
    } else {
      ClientIdles(d, net, w, header, t, who, k);
    }
    RequestSends(w, net.servers[w], header, t, who);
    Sends(d, net, w, RequestAs(w, net.servers[w], header, t, who), writes, k);
  }

  /** Messages that are no gossip do not show. */
  lemma BagMore(net: Net, out: multiset<Output>, k: Key)
    requires forall o :: o in out ==> !o.Gossip?
    ensures ViewOf(net.(bag := net.bag + out), k) == ViewOf(net, k)
  {
    forall q ensures q in Messages(net.bag + out, k) <==> q in Messages(net.bag, k) {
      assert Gossip(q.to, k, q.value) in net.bag + out <==> Gossip(q.to, k, q.value) in net.bag;
      assert Parcel(q.to, q.value) == q;
    }
    assert Messages(net.bag + out, k) == Messages(net.bag, k);
  }

  lemma RequestSends(self: ServerThread, s: Server, header: Header, t: KeyTuple, who: Option<seq<ServerThread>>)
    ensures forall o :: o in RequestAs(self, s, header, t, who).out ==> !o.Gossip?
  {
  }

  // ---- gossip arrives ---------------------------------------------------------------------------

  lemma AbsorbDid(s: Server, key: Key, x: Value)
    requires Exactly(s.stored, s.store) && Accepts(s, key, TypeOf(x))
    ensures Did(s, Absorb(s, key, x), key, x, false)
  {
    assert key in s.stored ==> Slot(s.stored[key], key) in s.store;
    PutDid(s, key, x);
  }

  /** A delivered message leaves the bag; the view forgets at most its parcel. */
  lemma BagLess(net: Net, m: Output, k: Key)
    requires m in net.bag && m.Gossip?
    ensures var v, v' := ViewOf(net, k), ViewOf(net.(bag := net.bag - multiset{m}), k);
            && v' == v.(transit := v'.transit) && v'.transit <= v.transit
            && (forall q :: q in v.transit && q !in v'.transit ==> m.key == k && q == Parcel(m.to, m.value))
  {
    var bag := net.bag - multiset{m};
    forall q | q in Messages(net.bag, k) && q !in Messages(bag, k)
      ensures m.key == k && q == Parcel(m.to, m.value)
    {
      assert q == Parcel(q.to, q.value) && Gossip(q.to, k, q.value) in net.bag && Gossip(q.to, k, q.value) !in bag;
    }
    forall q | q in Messages(bag, k) ensures q in Messages(net.bag, k) {
      assert q == Parcel(q.to, q.value) && Gossip(q.to, k, q.value) in bag;
    }
  }

  lemma ForgetMessage(d: Deployment, net: Net, m: Output, k: Key)
    requires Merging(d) && Good(d, net, k) && m in net.bag && m.Gossip? && m.to in net.servers
    requires k == m.key ==> Val(net.servers[m.to], k).Some? && Below(m.value, Val(net.servers[m.to], k).value)
    ensures Good(d, net.(bag := net.bag - multiset{m}), k)
  {
    BagLess(net, m, k);
    assert Joins(d, k);
    var v, v' := ViewOf(net, k), ViewOf(net.(bag := net.bag - multiset{m}), k);
    ForgetKeeps(d.carrier(k), Below, Combine, Replicas(d, k), v, v'.transit);
  }

  /** Gossip kept until the factor is known is still on its way. */
  lemma HoldView(net: Net, m: Output, k: Key)
    requires m in net.bag && m.Gossip? && m.to in net.servers
    ensures var s' := Hold(net.servers[m.to], m.key, m.value);
            ViewOf(net.(servers := net.servers[m.to := s'], bag := net.bag - multiset{m}), k) == ViewOf(net, k)
  {
    var s' := Hold(net.servers[m.to], m.key, m.value);
    HoldTransit(net, m, k);
    HoldRest(net, m.to, s', k);
  }

  /** Keeping gossip back changes neither what a thread holds nor what it owes. */
  lemma HoldRest(net: Net, w: ServerThread, s': Server, k: Key)
    requires w in net.servers && s' == net.servers[w].(gossip := s'.gossip)
    ensures var v, v' := ViewOf(net, k), ViewOf(net.(servers := net.servers[w := s']), k);
            v'.val == v.val && v'.dirty == v.dirty
  {
    ValsSame(net.servers, w, s', k);
  }

  lemma HoldTransit(net: Net, m: Output, k: Key)
    requires m in net.bag && m.Gossip? && m.to in net.servers
    ensures var servers := net.servers[m.to := Hold(net.servers[m.to], m.key, m.value)];
            Messages(net.bag - multiset{m}, k) + Kept(servers, k) == Messages(net.bag, k) + Kept(net.servers, k)
  {
    var servers := net.servers[m.to := Hold(net.servers[m.to], m.key, m.value)];
    forall q ensures q in Messages(net.bag - multiset{m}, k) + Kept(servers, k)
                <==> q in Messages(net.bag, k) + Kept(net.servers, k)
    {
      TakenOut(net.bag, m, k, q);
      HeldAfter(net.servers[m.to], m.key, m.value, k);
    }
  }

  lemma TakenOut(bag: multiset<Output>, m: Output, k: Key, q: Parcel<Value>)
    requires m in bag && m.Gossip?
    ensures q in Messages(bag, k) ==> q in Messages(bag - multiset{m}, k) || m == Gossip(q.to, k, q.value)
    ensures q in Messages(bag - multiset{m}, k) || m == Gossip(q.to, k, q.value) ==> q in Messages(bag, k)
  {
    assert Parcel(q.to, q.value) == q;
  }

  lemma HeldAfter(s: Server, key: Key, x: Value, k: Key)
    ensures forall y :: y in HeldBy(Hold(s, key, x), k) <==> y in HeldBy(s, k) || (k == key && y == x)
  {
  }

  lemma DeliverHolds(d: Deployment, net: Net, m: Output, out: multiset<Output>, k: Key)
    requires Good(d, net, k) && m in net.bag && m.Gossip? && m.to in net.servers
    requires forall o :: o in out ==> !o.Gossip?
    ensures var s' := Hold(net.servers[m.to], m.key, m.value);
            Good(d, Net(net.servers[m.to := s'], net.bag - multiset{m} + out, net.accepted), k)
  {
    var s' := Hold(net.servers[m.to], m.key, m.value);
    HoldView(net, m, k);
    BagMore(Net(net.servers[m.to := s'], net.bag - multiset{m}, net.accepted), out, k);
  }

  lemma DeliverMerges(d: Deployment, net: Net, m: Output, k: Key)
    requires Merging(d) && Good(d, net, k) && m in net.bag && m.Gossip? && m.to in net.servers
    requires Exactly(net.servers[m.to].stored, net.servers[m.to].store)
    requires Accepts(net.servers[m.to], m.key, TypeOf(m.value))
    ensures var s' := Absorb(net.servers[m.to], m.key, m.value);
            Good(d, Net(net.servers[m.to := s'], net.bag - multiset{m}, net.accepted), k)
  {
    var s' := Absorb(net.servers[m.to], m.key, m.value);
    AbsorbDid(net.servers[m.to], m.key, m.value);
    assert Gossip(m.to, m.key, m.value) == m;
    ArrivalKeeps(d, net, m.to, s', m.key, m.value, k);
    ForgetMessage(d, net.(servers := net.servers[m.to := s']), m, k);
  }

  lemma MessageCarried(d: Deployment, net: Net, m: Output)
    requires m in net.bag && m.Gossip? && Good(d, net, m.key)
    ensures d.carrier(m.key)(m.value)
  {
    assert Gossip(m.to, m.key, m.value) == m;
    var q := Parcel(m.to, m.value);
    assert q in ViewOf(net, m.key).transit;
    assert d.carrier(m.key)(q.value);
  }

  lemma HandledNet(net: Net, m: Output, r: Outcome)
    requires m.Gossip?
    ensures Handled(net.(bag := net.bag - multiset{m}), m.to, r, {})
         == Net(net.servers[m.to := r.server], net.bag - multiset{m} + r.out, net.accepted)
  {
    assert net.accepted + {} == net.accepted;
  }

  lemma DeliverOutcome(self: ServerThread, s: Server, key: Key, value: Value, who: Option<seq<ServerThread>>)
    requires who.Some? ==> self in who.value
    ensures GossipAs(self, s, key, value, who)
         == if who.Some? then Outcome(Absorb(s, key, value), [], NO_OUTPUT)
            else Outcome(Hold(s, key, value), [], multiset{Lookup(key)})
  {
  }

  lemma DeliverKeeps(d: Deployment, net: Net, m: Output, who: Option<seq<ServerThread>>, k: Key)
    requires Merging(d) && Good(d, net, k) && m in net.bag && m.Gossip? && m.to in net.servers
    requires Exactly(net.servers[m.to].stored, net.servers[m.to].store)
    requires Accepts(net.servers[m.to], m.key, TypeOf(m.value)) && (who.Some? ==> m.to in who.value)
    ensures var r := GossipAs(m.to, net.servers[m.to], m.key, m.value, who);
            Good(d, Handled(net.(bag := net.bag - multiset{m}), m.to, r, {}), k)
  {
    DeliverOutcome(m.to, net.servers[m.to], m.key, m.value, who);
    if who.Some? {
      DeliverMerges(d, net, m, k);
      assert net.bag - multiset{m} + NO_OUTPUT == net.bag - multiset{m};
    } else {
      DeliverHolds(d, net, m, multiset{Lookup(m.key)}, k);
    }
    HandledNet(net, m, GossipAs(m.to, net.servers[m.to], m.key, m.value, who));
  }

  // ---- a factor is learned ----------------------------------------------------------------------

  function With(net: Net, w: ServerThread, s': Server, writes: set<Write>): (r: Net) {
    net.(servers := net.servers[w := s'], accepted := net.accepted + writes)
  }

  function WritesOf(key: Key, ps: seq<PendingRequest>): (r: set<Write>) {
    set p | p in ps && Writes(p) :: Write(key, p.payload)
  }

  lemma WritesLast(key: Key, ps: seq<PendingRequest>)
    requires ps != []
    ensures var last := ps[|ps| - 1];
            WritesOf(key, ps) == WritesOf(key, ps[..|ps| - 1]) + if Writes(last) then {Write(key, last.payload)} else {}
  {
    var front, last := ps[..|ps| - 1], ps[|ps| - 1];
    assert forall p :: p in ps <==> p in front || p == last;
  }

  lemma SettleDid(s: Server, key: Key, p: PendingRequest)
    requires Exactly(s.stored, s.store) && Writes(p) && p.kind == TypeOf(p.payload) && Accepts(s, key, p.kind)
    ensures Did(s, Settle(s, key, p, true).server, key, p.payload, true)
  {
    PutDid(s, key, p.payload);
  }

  lemma SettleIdle(s: Server, key: Key, p: PendingRequest, responsible: bool)
    requires !responsible || !Writes(p)
    ensures Settle(s, key, p, responsible).server == s
  {
  }

  lemma {:induction false} SettleAllIdle(s: Server, key: Key, ps: seq<PendingRequest>)
    ensures SettleAll(s, key, ps, false).server == s
  {
    if ps != [] {
      SettleAllIdle(s, key, ps[..|ps| - 1]);
      SettleIdle(s, key, ps[|ps| - 1], false);
    }
  }

  /** One request served from the pending list. */
  lemma SettleOne(d: Deployment, net: Net, w: ServerThread, key: Key, p: PendingRequest)
    requires Merging(d) && Good(d, net, key) && w in net.servers && w in Replicas(d, key)
    requires Exactly(net.servers[w].stored, net.servers[w].store)
    requires Writes(p) ==>
               Accepts(net.servers[w], key, p.kind) && p.kind == TypeOf(p.payload) && d.carrier(key)(p.payload)
    ensures Good(d, With(net, w, Settle(net.servers[w], key, p, true).server,
                         if Writes(p) then {Write(key, p.payload)} else {}), key)
  {
    var s := net.servers[w];
    var s' := Settle(s, key, p, true).server;
    if Writes(p) {
      SettleDid(s, key, p);
      WriteKeeps(d, net, w, s', key, p.payload, key);
    } else {
      SettleIdle(s, key, p, true);
      WithSame(net, w);
    }
  }

  lemma WithSame(net: Net, w: ServerThread)
    requires w in net.servers
    ensures With(net, w, net.servers[w], {}) == net
  {
    assert net.servers[w := net.servers[w]] == net.servers && net.accepted + {} == net.accepted;
  }

  lemma WithTwice(net: Net, w: ServerThread, s1: Server, a: set<Write>, s2: Server, b: set<Write>)
    ensures With(With(net, w, s1, a), w, s2, b) == With(net, w, s2, a + b)
  {
    assert net.servers[w := s1][w := s2] == net.servers[w := s2];
    assert net.accepted + a + b == net.accepted + (a + b);
  }

  /** A pending write has the key's type, so it is merged. */
  lemma PendingFits(d: Deployment, net: Net, w: ServerThread, key: Key, p: PendingRequest)
    requires Typed(d) && Good(d, net, key) && w in net.servers
    requires Exactly(net.servers[w].stored, net.servers[w].store)
    requires Proper(d, p.header, key, p.kind, p.payload) && Writes(p)
    ensures Accepts(net.servers[w], key, p.kind) && p.kind == TypeOf(p.payload) && d.carrier(key)(p.payload)
  {
    Merges(d, net, w, key);
    assert OneType(d, key);
  }

  lemma {:induction false} SettleNet(d: Deployment, net: Net, w: ServerThread, key: Key, ps: seq<PendingRequest>)
    returns (after: Net)
    requires Merging(d) && Typed(d) && Good(d, net, key) && w in net.servers && w in Replicas(d, key)
    requires Exactly(net.servers[w].stored, net.servers[w].store)
    requires forall p :: p in ps ==> Proper(d, p.header, key, p.kind, p.payload)
    ensures after == With(net, w, SettleAll(net.servers[w], key, ps, true).server, WritesOf(key, ps))
    ensures Good(d, after, key)
    decreases |ps|
  {
    var s := net.servers[w];
    if ps == [] {
      WithSame(net, w);
      after := net;
    } else {
      var front, last := ps[..|ps| - 1], ps[|ps| - 1];
      var before := SettleNet(d, net, w, key, front);
      SettleAllMerges(s, key, front, true);
      after := SettleNext(d, before, w, key, last);
      SettleLast(net, w, key, ps, before);
    }
  }

  lemma SettleLast(net: Net, w: ServerThread, key: Key, ps: seq<PendingRequest>, net1: Net)
    requires w in net.servers && ps != []
    requires net1 == With(net, w, SettleAll(net.servers[w], key, ps[..|ps| - 1], true).server,
                          WritesOf(key, ps[..|ps| - 1]))
    ensures var last := ps[|ps| - 1];
            With(net1, w, Settle(net1.servers[w], key, last, true).server,
                 if Writes(last) then {Write(key, last.payload)} else {})
            == With(net, w, SettleAll(net.servers[w], key, ps, true).server, WritesOf(key, ps))
  {
    var front, last := ps[..|ps| - 1], ps[|ps| - 1];
    var s1 := SettleAll(net.servers[w], key, front, true).server;
    WritesLast(key, ps);
    WithTwice(net, w, s1, WritesOf(key, front), Settle(s1, key, last, true).server,
              if Writes(last) then {Write(key, last.payload)} else {});
  }

  lemma SettleNext(d: Deployment, net: Net, w: ServerThread, key: Key, p: PendingRequest) returns (after: Net)
    requires Merging(d) && Typed(d) && Good(d, net, key) && w in net.servers && w in Replicas(d, key)
    requires Exactly(net.servers[w].stored, net.servers[w].store) && Proper(d, p.header, key, p.kind, p.payload)
    ensures after == With(net, w, Settle(net.servers[w], key, p, true).server,
                          if Writes(p) then {Write(key, p.payload)} else {})
    ensures Good(d, after, key)
  {
    if Writes(p) { PendingFits(d, net, w, key, p); }
    SettleOne(d, net, w, key, p);
    after := With(net, w, Settle(net.servers[w], key, p, true).server,
                  if Writes(p) then {Write(key, p.payload)} else {});
  }
}
