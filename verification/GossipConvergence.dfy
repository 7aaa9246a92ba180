/** Gossip convergence: in every quiet state all replicas of a key hold the join of the writes accepted for it. */
module GossipConvergence {
  import opened Types
  import opened Metadata
  import opened Responsibility
  import opened Values
  import opened Server
  import opened Movement
  import opened ServerRuns
  import opened Runs
  import opened Spread
  import opened GossipNet
  import opened GossipSteps
  import opened GossipDrain

  // ---- a factor reply ---------------------------------------------------------------------------

  /** What serving the requests pending for `key` accepts. */
  function Served(d: Deployment, w: ServerThread, s: Server, key: Key): (r: set<Write>)
    ensures forall a :: a in r ==> a.key == key
  {
    if w in Replicas(d, key) then PendingWrites(s.requests, key) else {}
  }

  /** A reply served by a thread that is not responsible for its key changes no view. */
  lemma RefusedView(net: Net, w: ServerThread, key: Key, who: Option<seq<ServerThread>>, k: Key)
    requires w in net.servers && key !in net.servers[w].gossip && who.Some? && w !in who.value
    ensures ViewOf(With(net, w, Drain(w, net.servers[w], key, who).server, {}), k) == ViewOf(net, k)
  {
    var s' := net.servers[w].(requests := net.servers[w].requests - {key});
    DrainRefuses(w, net.servers[w], key, who);
    SameView(net, w, s', k);
    assert net.accepted + {} == net.accepted;
  }

  /** A reply changes the view of no other key. */
  lemma OtherView(net: Net, w: ServerThread, key: Key, who: Option<seq<ServerThread>>, writes: set<Write>, k: Key)
    requires w in net.servers && Inv(net.servers[w]) && Fits(net.servers[w], key, who) && k != key
    requires forall a :: a in writes ==> a.key == key
    ensures ViewOf(With(net, w, Drain(w, net.servers[w], key, who).server, writes), k) == ViewOf(net, k)
  {
    var s' := Drain(w, net.servers[w], key, who).server;
    DrainElsewhere(w, net.servers[w], key, who, k);
    SameView(net, w, s', k);
    OtherWrites(At(net, w, s'), writes, k);
  }

  lemma AtThenWith(net: Net, w: ServerThread, s1: Server, s2: Server, writes: set<Write>)
    ensures With(At(net, w, s1), w, s2, writes) == With(net, w, s2, writes)
  {
    assert net.servers[w := s1][w := s2] == net.servers[w := s2];
  }

  lemma TaughtLoyal(d: Deployment, w: ServerThread, s: Server, key: Key, reply: FactorReply)
    requires Loyal(d, w, s) && (reply.Found? || reply.NotFound?) && Truthful(d, w, s, key, reply)
    ensures Loyal(d, w, Taught(EnvOf(d, w), s, key, reply))
    ensures key in Taught(EnvOf(d, w), s, key, reply).reps
  {
  }

  /** How the net changes when a reply teaches: the factor is written, then what was pending is served. */
  lemma TaughtNet(net: Net, w: ServerThread, key: Key, s0: Server, who: Option<seq<ServerThread>>, writes: set<Write>)
    requires who.Some? && (w in who.value || key !in s0.gossip)
    ensures var r := Drain(w, s0, key, who);
            Handled(net, w, r, writes) == With(At(net, w, s0), w, r.server, writes)
  {
    DrainSends(w, s0, key, who);
    AtThenWith(net, w, s0, Drain(w, s0, key, who).server, writes);
    assert net.bag + NO_OUTPUT == net.bag;
  }

  /** A reply keeps the view of a key good: where it does not serve writes or gossip of the key it does not show. */
  lemma FactorGood(d: Deployment, net: Net, w: ServerThread, key: Key, who: Option<seq<ServerThread>>, k: Key)
    returns (after: Net)
    requires Merging(d) && Typed(d) && Good(d, net, k) && w in net.servers && Loyal(d, w, net.servers[w])
    requires Fits(net.servers[w], key, who) && who.Some? && (w in who.value <==> w in Replicas(d, key))
    ensures after == With(net, w, Drain(w, net.servers[w], key, who).server, Served(d, w, net.servers[w], key))
    ensures Good(d, after, k)
  {
    if k == key && w in Replicas(d, key) {
      after := DrainServes(d, net, w, key, who);
    } else {
      after := Untouched(d, net, w, key, who, k);
    }
  }

  lemma Untouched(d: Deployment, net: Net, w: ServerThread, key: Key, who: Option<seq<ServerThread>>, k: Key)
    returns (after: Net)
    requires Good(d, net, k) && w in net.servers && Inv(net.servers[w])
    requires key in net.servers[w].gossip ==> w in Replicas(d, key)
    requires Fits(net.servers[w], key, who) && who.Some? && (w in who.value <==> w in Replicas(d, key))
    requires k != key || w !in Replicas(d, key)
    ensures after == With(net, w, Drain(w, net.servers[w], key, who).server, Served(d, w, net.servers[w], key))
    ensures Good(d, after, k)
  {
    after := With(net, w, Drain(w, net.servers[w], key, who).server, Served(d, w, net.servers[w], key));
    if k != key {
      OtherView(net, w, key, who, Served(d, w, net.servers[w], key), k);
    } else {
      RefusedView(net, w, key, who, k);
    }
  }

  // ---- the gossip round -------------------------------------------------------------------------

  lemma RoundErrandsFor(d: Deployment, w: ServerThread, s: Server, k: Key, t: ServerThread)
    requires k in s.changes ==> Who(EnvOf(d, w), s, k, ALL_TIERS) == Some(Replicas(d, k))
    ensures Errand(t, k) in RoundErrands(EnvOf(d, w), s) <==> k in s.changes && t in Replicas(d, k) && t != w
  {
  }

  /** A round sends each changed key to its other replicas, with the value held. */
  lemma RoundMessages(d: Deployment, w: ServerThread, s: Server, k: Key, t: ServerThread, x: Value)
    requires k in s.changes ==> Who(EnvOf(d, w), s, k, ALL_TIERS) == Some(Replicas(d, k))
    ensures Gossip(t, k, x) in OnRound(EnvOf(d, w), s).out
       <==> k in s.changes && t in Replicas(d, k) && t != w && Readout(s, k) == Some(x)
  {
    var env, o := EnvOf(d, w), Gossip(t, k, x);
    RoundErrandsFor(d, w, s, k, t);
    var sent, asked := SendGossip(s, RoundErrands(env, s)), Lookups(Unknown(s, s.changes));
    assert o !in asked;
    assert o in sent + asked <==> o in sent;
  }

  lemma RoundQuiet(net: Net, w: ServerThread, out: multiset<Output>, k: Key)
    requires w in net.servers && k !in net.servers[w].changes
    requires forall t, x :: Gossip(t, k, x) !in out
    ensures ViewOf(Net(net.servers[w := net.servers[w].(changes := {})], net.bag + out, net.accepted), k)
         == ViewOf(net, k)
  {
    SameView(net, w, net.servers[w].(changes := {}), k);
    MessagesSame(net.bag, out, k);
  }

  lemma MessagesSame(bag: multiset<Output>, out: multiset<Output>, k: Key)
    requires forall t, x :: Gossip(t, k, x) !in out
    ensures Messages(bag + out, k) == Messages(bag, k)
  {
    forall q ensures q in Messages(bag + out, k) <==> q in Messages(bag, k) {
      var o := Gossip(q.to, k, q.value);
      assert Parcel(q.to, q.value) == q;
      assert o in bag + out <==> o in bag || o in out;
    }
  }

  lemma MessagesMore(bag: multiset<Output>, out: multiset<Output>, k: Key, replicas: seq<ServerThread>,
                     w: ServerThread, x: Value)
    requires forall t, y :: Gossip(t, k, y) in out <==> t in replicas && t != w && y == x
    ensures Messages(bag + out, k) == Messages(bag, k) + set t | t in replicas && t != w :: Parcel(t, x)
  {
    var more := set t | t in replicas && t != w :: Parcel(t, x);
    forall q ensures q in Messages(bag + out, k) <==> q in Messages(bag, k) + more {
      var o := Gossip(q.to, k, q.value);
      assert Parcel(q.to, q.value) == q;
      assert o in bag + out <==> o in bag || o in out;
      if q.to in replicas && q.to != w && q.value == x { assert Parcel(q.to, x) in more; }
    }
  }

  /** The round of a thread that owes one is the protocol's send. */
  lemma RoundView(net: Net, w: ServerThread, out: multiset<Output>, k: Key, replicas: seq<ServerThread>)
    requires w in net.servers && k in net.servers[w].changes && Val(net.servers[w], k).Some?
    requires forall t, x :: Gossip(t, k, x) in out <==> t in replicas && t != w && x == Val(net.servers[w], k).value
    ensures var v := ViewOf(net, k);
            && w in v.val && w in v.dirty
            && ViewOf(Net(net.servers[w := net.servers[w].(changes := {})], net.bag + out, net.accepted), k)
               == v.(dirty := v.dirty - {w},
                     transit := v.transit + set t | t in replicas && t != w :: Parcel(t, v.val[w]))
  {
    var s' := net.servers[w].(changes := {});
    var v := ViewOf(net, k);
    ViewAfter(net, w, s', k);
    KeptSame(net.servers, w, s', k);
    MessagesMore(net.bag, out, k, replicas, w, v.val[w]);
    assert v.val[w := Val(s', k).value] == v.val;
  }

  lemma KeptSame(servers: map<ServerThread, Server>, w: ServerThread, s': Server, k: Key)
    requires w in servers && HeldBy(s', k) == HeldBy(servers[w], k)
    ensures Kept(servers[w := s'], k) == Kept(servers, k)
  {
    forall q ensures q in Kept(servers[w := s'], k) <==> q in Kept(servers, k) {
    }
  }

  lemma OwesVal(d: Deployment, net: Net, w: ServerThread, k: Key)
    requires Good(d, net, k) && w in net.servers && k in net.servers[w].changes
    ensures Val(net.servers[w], k).Some?
  {
    assert w in ViewOf(net, k).dirty;
    assert w in ViewOf(net, k).val;
  }

  /** What a thread that owes a round of `k` holds of it. */
  lemma OwesHeld(d: Deployment, net: Net, w: ServerThread, k: Key)
    requires OneType(d, k) && Good(d, net, k) && w in net.servers && k in net.servers[w].changes
    ensures Val(net.servers[w], k).Some? && Readout(net.servers[w], k) == Val(net.servers[w], k)
  {
    OwesVal(d, net, w, k);
    HeldCarried(d, net, w, k);
  }

  lemma RoundGood(d: Deployment, net: Net, w: ServerThread, r: Outcome, k: Key)
    requires Typed(d) && Good(d, net, k) && w in net.servers
    requires r.server == net.servers[w].(changes := {})
    requires forall t, x :: Gossip(t, k, x) in r.out
               <==> k in net.servers[w].changes && t in Replicas(d, k) && t != w
                    && Readout(net.servers[w], k) == Some(x)
    ensures Good(d, Handled(net, w, r, {}), k)
  {
    assert net.accepted + {} == net.accepted;
    if k in net.servers[w].changes {
      assert OneType(d, k);
      OwesHeld(d, net, w, k);
      RoundView(net, w, r.out, k, Replicas(d, k));
      SendKeeps(d.carrier(k), Below, Combine, Replicas(d, k), ViewOf(net, k), w);
    } else {
      RoundQuiet(net, w, r.out, k);
    }
  }

  // ---- every step -------------------------------------------------------------------------------

  lemma AcceptedNowIs(d: Deployment, w: ServerThread, s: Server, header: Header, t: KeyTuple,
                      who: Option<seq<ServerThread>>)
    requires Fits(s, t.key, who) && (who.Some? ==> (w in who.value <==> w in Replicas(d, t.key)))
    ensures AcceptedNow(d, w, s, header, t)
         == if who.Some? && w in who.value && header.kind == PUT then {Write(t.key, t.payload)} else {}
  {
  }

  lemma ClientGood(d: Deployment, net: Net, w: ServerThread, header: Header, t: KeyTuple, k: Key)
    requires Merging(d) && Tiered(d) && Good(d, net, k) && w in net.servers && Loyal(d, w, net.servers[w])
    requires header.kind == PUT ==>
               Accepts(net.servers[w], t.key, t.kind) && t.kind == TypeOf(t.payload) && d.carrier(t.key)(t.payload)
    ensures Good(d, Handled(net, w, OnRequest(EnvOf(d, w), net.servers[w], header, t),
                            AcceptedNow(d, w, net.servers[w], header, t)), k)
  {
    var s := net.servers[w];
    var who := Who(EnvOf(d, w), s, t.key, [d.tierOf(w)]);
    WhoHere(d, w, s, t.key);
    AcceptedNowIs(d, w, s, header, t, who);
    ClientKeeps(d, net, w, header, t, who, AcceptedNow(d, w, s, header, t), k);
  }

  lemma ClientFits(d: Deployment, net: Net, w: ServerThread, header: Header, t: KeyTuple)
    requires Typed(d) && Good(d, net, t.key) && w in net.servers && Proper(d, header, t.key, t.kind, t.payload)
    requires Exactly(net.servers[w].stored, net.servers[w].store)
    ensures header.kind == PUT ==>
              Accepts(net.servers[w], t.key, t.kind) && t.kind == TypeOf(t.payload) && d.carrier(t.key)(t.payload)
  {
    if header.kind == PUT {
      assert OneType(d, t.key);
      Merges(d, net, w, t.key);
    }
  }

  lemma DeliverGood(d: Deployment, net: Net, m: Output, k: Key)
    requires Sane(d) && m.Gossip? && m in net.bag && m.to in net.servers && m.to in Replicas(d, m.key)
    requires Good(d, net, k) && Good(d, net, m.key) && Loyal(d, m.to, net.servers[m.to])
    ensures Good(d, Handled(net.(bag := net.bag - multiset{m}), m.to,
                            OnGossip(EnvOf(d, m.to), net.servers[m.to], m.key, m.value), {}), k)
  {
    var s := net.servers[m.to];
    WhoHere(d, m.to, s, m.key);
    DeliverFits(d, net, m);
    DeliverKeeps(d, net, m, Who(EnvOf(d, m.to), s, m.key, [d.tierOf(m.to)]), k);
  }

  lemma DeliverFits(d: Deployment, net: Net, m: Output)
    requires Typed(d) && Good(d, net, m.key) && m in net.bag && m.Gossip? && m.to in net.servers
    requires Exactly(net.servers[m.to].stored, net.servers[m.to].store)
    ensures Accepts(net.servers[m.to], m.key, TypeOf(m.value))
  {
    MessageCarried(d, net, m);
    assert OneType(d, m.key);
    Merges(d, net, m.to, m.key);
  }

  lemma RoundSends(d: Deployment, net: Net, w: ServerThread, k: Key)
    requires Good(d, net, k) && w in net.servers && Loyal(d, w, net.servers[w])
    ensures forall t, x :: Gossip(t, k, x) in OnRound(EnvOf(d, w), net.servers[w]).out <==>
              k in net.servers[w].changes && t in Replicas(d, k) && t != w && Readout(net.servers[w], k) == Some(x)
  {
    var s := net.servers[w];
    if k in s.changes {
      OwesVal(d, net, w, k);
      WhoEverywhere(d, w, s, k);
    }
    forall t, x ensures Gossip(t, k, x) in OnRound(EnvOf(d, w), s).out
      <==> k in s.changes && t in Replicas(d, k) && t != w && Readout(s, k) == Some(x)
    {
      RoundMessages(d, w, s, k, t, x);
    }
  }

  lemma RoundKeepsGood(d: Deployment, net: Net, w: ServerThread, k: Key)
    requires Typed(d) && Good(d, net, k) && w in net.servers && Loyal(d, w, net.servers[w])
    ensures Good(d, Handled(net, w, OnRound(EnvOf(d, w), net.servers[w]), {}), k)
  {
    RoundSends(d, net, w, k);
    RoundGood(d, net, w, OnRound(EnvOf(d, w), net.servers[w]), k);
  }

  lemma TaughtSame(s: Server, s0: Server, k: Key)
    requires s0 == s.(reps := s0.reps)
    ensures Same(s, s0, k)
  {
  }

  lemma TaughtGood(d: Deployment, net: Net, w: ServerThread, key: Key, s0: Server, who: Option<seq<ServerThread>>,
                   k: Key)
    returns (after: Net)
    requires Merging(d) && Typed(d) && Good(d, net, k) && w in net.servers && Loyal(d, w, s0)
    requires Same(net.servers[w], s0, k)
    requires Fits(s0, key, who) && who.Some? && (w in who.value <==> w in Replicas(d, key))
    ensures after == With(At(net, w, s0), w, Drain(w, s0, key, who).server, Served(d, w, s0, key))
    ensures Good(d, after, k)
  {
    var net0 := SameGood(d, net, w, s0, k);
    after := FactorGood(d, net0, w, key, who, k);
  }

  lemma AcceptedLaterIs(d: Deployment, w: ServerThread, s: Server, key: Key, reply: FactorReply, s0: Server)
    requires s0.requests == s.requests
    ensures AcceptedLater(d, w, s, key, reply) == if reply.Found? || reply.NotFound? then Served(d, w, s0, key) else {}
  {
  }

  lemma FactorHandled(d: Deployment, net: Net, w: ServerThread, key: Key, reply: FactorReply, s0: Server,
                      who: Option<seq<ServerThread>>)
    requires w in net.servers && (reply.Found? || reply.NotFound?)
    requires s0 == Taught(EnvOf(d, w), net.servers[w], key, reply)
    requires who == Who(EnvOf(d, w), s0, key, [d.tierOf(w)]) && who.Some? && (w in who.value || key !in s0.gossip)
    ensures Handled(net, w, OnFactor(EnvOf(d, w), net.servers[w], key, reply),
                    AcceptedLater(d, w, net.servers[w], key, reply))
         == With(At(net, w, s0), w, Drain(w, s0, key, who).server, Served(d, w, s0, key))
  {
    OnFactorIs(EnvOf(d, w), net.servers[w], key, reply, s0, who);
    AcceptedLaterIs(d, w, net.servers[w], key, reply, s0);
    TaughtNet(net, w, key, s0, who, Served(d, w, s0, key));
  }

  lemma FactorTeachesGood(d: Deployment, net: Net, w: ServerThread, key: Key, reply: FactorReply, k: Key)
    requires Sane(d) && Good(d, net, k) && w in net.servers && Loyal(d, w, net.servers[w])
    requires (reply.Found? || reply.NotFound?) && Truthful(d, w, net.servers[w], key, reply)
    ensures Good(d, Handled(net, w, OnFactor(EnvOf(d, w), net.servers[w], key, reply),
                            AcceptedLater(d, w, net.servers[w], key, reply)), k)
  {
    var s0 := Taught(EnvOf(d, w), net.servers[w], key, reply);
    TaughtLoyal(d, w, net.servers[w], key, reply);
    var who := Who(EnvOf(d, w), s0, key, [d.tierOf(w)]);
    WhoHere(d, w, s0, key);
    FactorHandled(d, net, w, key, reply, s0, who);
    TaughtSame(net.servers[w], s0, k);
    var after := TaughtGood(d, net, w, key, s0, who, k);
  }

  lemma FactorFailsView(d: Deployment, net: Net, w: ServerThread, key: Key, reply: FactorReply, k: Key)
    requires w in net.servers && (reply.NotMine? || reply.Failed?)
    ensures ViewOf(Handled(net, w, OnFactor(EnvOf(d, w), net.servers[w], key, reply),
                           AcceptedLater(d, w, net.servers[w], key, reply)), k) == ViewOf(net, k)
  {
    AcceptedLaterIs(d, w, net.servers[w], key, reply, net.servers[w]);
    IdleView(net, w, OnFactor(EnvOf(d, w), net.servers[w], key, reply), k);
  }

  lemma FactorFailsGood(d: Deployment, net: Net, w: ServerThread, key: Key, reply: FactorReply, k: Key)
    requires Good(d, net, k) && w in net.servers && (reply.NotMine? || reply.Failed?)
    ensures Good(d, Handled(net, w, OnFactor(EnvOf(d, w), net.servers[w], key, reply),
                            AcceptedLater(d, w, net.servers[w], key, reply)), k)
  {
    FactorFailsView(d, net, w, key, reply, k);
  }

  lemma IdleView(net: Net, w: ServerThread, r: Outcome, k: Key)
    requires w in net.servers && r.server == net.servers[w] && forall o :: o in r.out ==> !o.Gossip?
    ensures ViewOf(Handled(net, w, r, {}), k) == ViewOf(net, k)
  {
    assert net.servers[w := r.server] == net.servers && net.accepted + {} == net.accepted;
    BagMore(net, r.out, k);
  }

  /** Every step keeps every key good. */
  lemma StepKeepsGood(d: Deployment, net: Net, step: NetStep, k: Key)
    requires Sane(d) && NetInv(d, net) && Possible(d, net, step)
    ensures Good(d, Next(d, net, step), k)
  {
    assert Good(d, net, k);
    match step
    case Client(w, header, t) =>
      assert Good(d, net, t.key);
      ClientFits(d, net, w, header, t);
      ClientGood(d, net, w, header, t, k);
    case Factor(w, key, reply) =>
      if reply.Found? || reply.NotFound? {
        FactorTeachesGood(d, net, w, key, reply, k);
      } else {
        FactorFailsGood(d, net, w, key, reply, k);
      }
    case Gossips(w) => RoundKeepsGood(d, net, w, k);
    case Deliver(to, key, value) =>
      assert Good(d, net, key);
      DeliverGood(d, net, Gossip(to, key, value), k);
  }

  // ---- the rest of the invariant ----------------------------------------------------------------

  lemma PendLoyal(d: Deployment, w: ServerThread, s: Server, header: Header, t: KeyTuple)
    requires Loyal(d, w, s) && Proper(d, header, t.key, t.kind, t.payload)
    ensures var requests := Pend(s, t.key, PendingRequest(header, t.kind, t.payload)).requests;
            forall k, p :: k in requests && p in requests[k] ==> Proper(d, p.header, k, p.kind, p.payload)
  {
  }

  lemma RequestLoyal(d: Deployment, w: ServerThread, s: Server, header: Header, t: KeyTuple,
                     who: Option<seq<ServerThread>>)
    requires Loyal(d, w, s) && Proper(d, header, t.key, t.kind, t.payload) && Fits(s, t.key, who)
    ensures Loyal(d, w, RequestAs(w, s, header, t, who).server)
  {
    RequestKeeps(w, s, header, t, who);
    PendLoyal(d, w, s, header, t);
    if who.Some? && w in who.value {
      ServeMerges(s, header, t.key, t.kind, t.payload, t.cacheSize > 0 && t.cacheSize != |who.value|);
    }
  }

  lemma GossipLoyal(d: Deployment, w: ServerThread, s: Server, key: Key, value: Value, who: Option<seq<ServerThread>>)
    requires Loyal(d, w, s) && Fits(s, key, who) && w in Replicas(d, key) && (who.Some? ==> w in who.value)
    ensures Loyal(d, w, GossipAs(w, s, key, value, who).server)
  {
    GossipKeeps(w, s, key, value, who);
    if who.Some? {
      AbsorbKeepsRest(s, key, value);
      LoyalSame(d, w, s, Absorb(s, key, value));
    } else {
      HoldLoyal(d, w, s, key, value);
    }
  }

  lemma GossipAsks(w: ServerThread, s: Server, key: Key, value: Value, who: Option<seq<ServerThread>>)
    requires who.Some? ==> w in who.value
    ensures forall o :: o in GossipAs(w, s, key, value, who).out ==> !o.Gossip?
  {
  }

  lemma LoyalSame(d: Deployment, w: ServerThread, s: Server, s': Server)
    requires Loyal(d, w, s) && Inv(s')
    requires s'.rings == s.rings && s'.reps == s.reps && s'.requests == s.requests && s'.gossip == s.gossip
    ensures Loyal(d, w, s')
  {
  }

  lemma AbsorbKeepsRest(s: Server, key: Key, value: Value)
    ensures var s' := Absorb(s, key, value);
            s'.rings == s.rings && s'.reps == s.reps && s'.requests == s.requests && s'.gossip == s.gossip
  {
  }

  lemma HoldLoyal(d: Deployment, w: ServerThread, s: Server, key: Key, value: Value)
    requires Loyal(d, w, s) && w in Replicas(d, key) && Inv(Hold(s, key, value))
    ensures Loyal(d, w, Hold(s, key, value))
  {
  }

  lemma DrainLoyal(d: Deployment, w: ServerThread, s: Server, key: Key, who: Option<seq<ServerThread>>)
    requires Loyal(d, w, s) && Fits(s, key, who)
    ensures Loyal(d, w, Drain(w, s, key, who).server)
  {
    DrainKeeps(w, s, key, who);
  }

  lemma FactorLoyal(d: Deployment, w: ServerThread, s: Server, key: Key, reply: FactorReply)
    requires Tiered(d) && Loyal(d, w, s) && Truthful(d, w, s, key, reply)
    ensures Loyal(d, w, OnFactor(EnvOf(d, w), s, key, reply).server)
    ensures forall o :: o in OnFactor(EnvOf(d, w), s, key, reply).out ==> !o.Gossip?
  {
    if reply.Found? || reply.NotFound? {
      var s0 := Taught(EnvOf(d, w), s, key, reply);
      var who := Who(EnvOf(d, w), s0, key, [d.tierOf(w)]);
      TaughtLoyal(d, w, s, key, reply);
      WhoHere(d, w, s0, key);
      OnFactorIs(EnvOf(d, w), s, key, reply, s0, who);
      DrainLoyal(d, w, s0, key, who);
      DrainSends(w, s0, key, who);
    }
  }

  /** Every thread is loyal, and gossip goes to replicas only. */
  ghost predicate LoyalNet(d: Deployment, net: Net) {
    (forall v :: v in net.servers ==> Loyal(d, v, net.servers[v])) && Addressed(d, net.bag)
  }

  /** Whoever handles a step stays loyal, and addresses gossip to replicas only. */
  lemma HandlerKeeps(d: Deployment, net: Net, w: ServerThread, r: Outcome, bag: multiset<Output>, writes: set<Write>)
    requires forall v :: v in net.servers ==> Loyal(d, v, net.servers[v])
    requires Addressed(d, bag) && bag <= net.bag && Loyal(d, w, r.server)
    requires forall o :: o in r.out && o.Gossip? ==> o.to in Replicas(d, o.key)
    ensures LoyalNet(d, Handled(net.(bag := bag), w, r, writes))
  {
  }

  /** What every step of the cluster keeps. */
  lemma StepKeepsNet(d: Deployment, net: Net, step: NetStep)
    requires Sane(d) && NetInv(d, net) && Possible(d, net, step)
    ensures NetInv(d, Next(d, net, step))
  {
    forall k ensures Good(d, Next(d, net, step), k) {
      StepKeepsGood(d, net, step, k);
    }
    StepKeepsLoyal(d, net, step);
  }

  lemma ClientKeepsLoyal(d: Deployment, net: Net, step: NetStep)
    requires Sane(d) && NetInv(d, net) && Possible(d, net, step) && step.Client?
    ensures LoyalNet(d, Next(d, net, step))
  {
    var w, header, t := step.w, step.header, step.tuple;
    var s := net.servers[w];
    RequestLoyal(d, w, s, header, t, Who(EnvOf(d, w), s, t.key, [d.tierOf(w)]));
    RequestSends(w, s, header, t, Who(EnvOf(d, w), s, t.key, [d.tierOf(w)]));
    HandlerKeeps(d, net, w, OnRequest(EnvOf(d, w), s, header, t), net.bag, AcceptedNow(d, w, s, header, t));
  }

  lemma DeliverKeepsLoyal(d: Deployment, net: Net, step: NetStep)
    requires Sane(d) && NetInv(d, net) && Possible(d, net, step) && step.Deliver?
    ensures LoyalNet(d, Next(d, net, step))
  {
    var to, key, value := step.to, step.key, step.value;
    var s, m := net.servers[to], Gossip(to, key, value);
    WhoHere(d, to, s, key);
    GossipLoyal(d, to, s, key, value, Who(EnvOf(d, to), s, key, [d.tierOf(to)]));
    GossipAsks(to, s, key, value, Who(EnvOf(d, to), s, key, [d.tierOf(to)]));
    HandlerKeeps(d, net, to, OnGossip(EnvOf(d, to), s, key, value), net.bag - multiset{m}, {});
  }

  lemma StepKeepsLoyal(d: Deployment, net: Net, step: NetStep)
    requires Sane(d) && NetInv(d, net) && Possible(d, net, step)
    ensures LoyalNet(d, Next(d, net, step))
  {
    match step
    case Client(_, _, _) => ClientKeepsLoyal(d, net, step);
    case Factor(w, key, reply) =>
      var s := net.servers[w];
      FactorLoyal(d, w, s, key, reply);
      HandlerKeeps(d, net, w, OnFactor(EnvOf(d, w), s, key, reply), net.bag, AcceptedLater(d, w, s, key, reply));
    case Gossips(w) =>
      RoundAddressed(d, net, w);
      LoyalSame(d, w, net.servers[w], OnRound(EnvOf(d, w), net.servers[w]).server);
      HandlerKeeps(d, net, w, OnRound(EnvOf(d, w), net.servers[w]), net.bag, {});
    case Deliver(_, _, _) => DeliverKeepsLoyal(d, net, step);
  }

  lemma RoundAddressed(d: Deployment, net: Net, w: ServerThread)
    requires NetInv(d, net) && w in net.servers
    ensures forall o :: o in OnRound(EnvOf(d, w), net.servers[w]).out && o.Gossip? ==> o.to in Replicas(d, o.key)
  {
    forall o | o in OnRound(EnvOf(d, w), net.servers[w]).out && o.Gossip? ensures o.to in Replicas(d, o.key) {
      assert Good(d, net, o.key);
      RoundAddressedAt(d, net, w, OnRound(EnvOf(d, w), net.servers[w]).out, o);
    }
  }

  lemma RoundAddressedAt(d: Deployment, net: Net, w: ServerThread, out: multiset<Output>, o: Output)
    requires w in net.servers && Loyal(d, w, net.servers[w]) && out == OnRound(EnvOf(d, w), net.servers[w]).out
    requires o in out && o.Gossip? && Good(d, net, o.key)
    ensures o.to in Replicas(d, o.key)
  {
    RoundSends(d, net, w, o.key);
    assert Gossip(o.to, o.key, o.value) == o;
  }

  // ---- the theorem ------------------------------------------------------------------------------

  /** What a step of the cluster does. */
  ghost function Moving(d: Deployment): (r: Relation<Net, NetStep>) {
    (n: Net, step: NetStep, n': Net) => Possible(d, n, step) && n' == Next(d, n, step)
  }

  ghost predicate IsNetRun(d: Deployment, nets: seq<Net>, steps: seq<NetStep>) {
    && |nets| == |steps| + 1
    && forall i :: 0 <= i < |steps| ==> Possible(d, nets[i], steps[i]) && nets[i + 1] == Next(d, nets[i], steps[i])
  }

  lemma NetRunIsChain(d: Deployment, nets: seq<Net>, steps: seq<NetStep>)
    ensures IsNetRun(d, nets, steps) <==> Chain(Moving(d), nets, steps)
  {
    if Chain(Moving(d), nets, steps) {
      forall i | 0 <= i < |steps| ensures Possible(d, nets[i], steps[i]) && nets[i + 1] == Next(d, nets[i], steps[i]) {
        assert Moving(d)(nets[i], steps[i], nets[i + 1]);
      }
    }
  }

  /** Every thread has the deployment's rings and has stored, heard and sent nothing. */
  ghost predicate NetInit(d: Deployment, net: Net) {
    && (forall w :: w in net.servers ==> Init(net.servers[w]) && net.servers[w].rings == d.rings)
    && net.bag == multiset{} && net.accepted == {}
  }

  lemma InitView(d: Deployment, net: Net, k: Key)
    requires NetInit(d, net)
    ensures ViewOf(net, k) == View(map[], {}, {}, {})
  {
    var v := ViewOf(net, k);
    assert forall w :: w in net.servers ==> Init(net.servers[w]);
    assert v.val == map[] && v.dirty == {} && v.accepted == {};
    forall q ensures q !in v.transit {
      assert q == Parcel(q.to, q.value);
    }
    assert v.transit == {};
  }

  lemma InitLoyal(d: Deployment, net: Net)
    requires NetInit(d, net)
    ensures LoyalNet(d, net)
  {
  }

  lemma InitGood(d: Deployment, net: Net, k: Key)
    requires NetInit(d, net)
    ensures Good(d, net, k)
  {
    InitView(d, net, k);
    NothingSpreads(d.carrier(k), Below, Combine, Replicas(d, k));
  }

  lemma InitKeeps(d: Deployment, net: Net)
    requires NetInit(d, net)
    ensures NetInv(d, net)
  {
    InitLoyal(d, net);
    forall k ensures Good(d, net, k) { InitGood(d, net, k); }
  }

  lemma RunKeepsNet(d: Deployment, nets: seq<Net>, steps: seq<NetStep>)
    requires Sane(d) && IsNetRun(d, nets, steps) && NetInit(d, nets[0])
    ensures forall i :: 0 <= i < |nets| ==> NetInv(d, nets[i])
  {
    InitKeeps(d, nets[0]);
    var inv := (n: Net) => NetInv(d, n);
    forall n, step, n' | inv(n) && Moving(d)(n, step, n') ensures inv(n') {
      StepKeepsNet(d, n, step);
    }
    NetRunIsChain(d, nets, steps);
    InductFrom(Moving(d), inv, nets, steps, 0);
    forall i | 0 <= i < |nets| ensures NetInv(d, nets[i]) { assert inv(nets[i]); }
  }

  /** Nothing about the key is under way: no gossip in flight or kept back, no thread that owes a round. */
  ghost predicate Quiet(net: Net, key: Key) {
    && (forall t, x :: Gossip(t, key, x) !in net.bag)
    && (forall w :: w in net.servers ==> key !in net.servers[w].changes && HeldBy(net.servers[w], key) == [])
  }

  function AcceptedFor(net: Net, key: Key): (r: set<Value>) {
    set a | a in net.accepted && a.key == key :: a.value
  }

  lemma QuietView(net: Net, key: Key)
    requires Quiet(net, key)
    ensures ViewOf(net, key).dirty == {} && ViewOf(net, key).transit == {}
  {
    var v := ViewOf(net, key);
    forall q ensures q !in v.transit {
      assert q == Parcel(q.to, q.value);
    }
  }

  /** All threads responsible for a key hold a join of the writes accepted for it, merged from those writes. */
  ghost predicate Converged(d: Deployment, net: Net, key: Key) {
    forall w :: w in Replicas(d, key) ==>
      && w in net.servers && Val(net.servers[w], key).Some?
      && IsJoinOf(d.carrier(key), Below, AcceptedFor(net, key), Val(net.servers[w], key).value)
      && Built(Combine, AcceptedFor(net, key), Val(net.servers[w], key).value)
  }

  /**
   * In every run with fixed membership and agreed factors, over any interleaving of requests, replies, rounds and
   * deliveries: whenever nothing about a key is under way and some write of it has been accepted, all threads
   * responsible for it hold a join of all writes accepted for it, merged from them. Any two such values are each below
   * the other, so they are equal where the order tells values apart.
   */
  lemma ReplicasConverge(d: Deployment, nets: seq<Net>, steps: seq<NetStep>, i: nat, key: Key)
    requires Sane(d) && IsNetRun(d, nets, steps) && NetInit(d, nets[0])
    requires i < |nets| && Quiet(nets[i], key) && AcceptedFor(nets[i], key) != {}
    ensures Converged(d, nets[i], key)
    ensures Antisymmetric(d.carrier(key), Below) ==>
              forall w, u :: w in Replicas(d, key) && u in Replicas(d, key) ==>
                && w in nets[i].servers && u in nets[i].servers
                && Val(nets[i].servers[w], key) == Val(nets[i].servers[u], key)
  {
    RunKeepsNet(d, nets, steps);
    QuietGood(d, nets[i], key);
    if Antisymmetric(d.carrier(key), Below) { ReplicasAgree(d, nets[i], key); }
  }

  lemma QuietGood(d: Deployment, net: Net, key: Key)
    requires Merging(d) && Good(d, net, key) && Quiet(net, key) && AcceptedFor(net, key) != {}
    ensures Converged(d, net, key)
  {
    QuietView(net, key);
    assert Joins(d, key);
    QuietConverges(d.carrier(key), Below, Combine, Replicas(d, key), ViewOf(net, key));
  }

  lemma ReplicasAgree(d: Deployment, net: Net, key: Key)
    requires Converged(d, net, key) && Antisymmetric(d.carrier(key), Below)
    ensures forall w, u :: w in Replicas(d, key) && u in Replicas(d, key) ==>
              w in net.servers && u in net.servers && Val(net.servers[w], key) == Val(net.servers[u], key)
  {
    forall w, u | w in Replicas(d, key) && u in Replicas(d, key)
      ensures Val(net.servers[w], key) == Val(net.servers[u], key)
    {
      JoinUnique(d.carrier(key), Below, AcceptedFor(net, key), Val(net.servers[w], key).value,
                 Val(net.servers[u], key).value);
    }
  }

  /** A key nobody has written is held by nobody. */
  lemma NothingFromNothing(d: Deployment, nets: seq<Net>, steps: seq<NetStep>, i: nat, key: Key)
    requires Sane(d) && IsNetRun(d, nets, steps) && NetInit(d, nets[0])
    requires i < |nets| && AcceptedFor(nets[i], key) == {}
    ensures forall w :: w in nets[i].servers ==> Val(nets[i].servers[w], key).None?
  {
    RunKeepsNet(d, nets, steps);
    assert Good(d, nets[i], key);
    var v := ViewOf(nets[i], key);
    NothingHeld(d.carrier(key), Below, Combine, Replicas(d, key), v);
    forall w | w in nets[i].servers ensures Val(nets[i].servers[w], key).None? {
      assert Val(nets[i].servers[w], key).Some? ==> w in v.val;
    }
  }

  // ---- what a round does not pass on -------------------------------------------------------------

  /**
   * A changed key is passed on by its thread's round exactly when it has another replica and its value reads as
   * present.
   */
  lemma PassedOnExactly(d: Deployment, w: ServerThread, s: Server, k: Key)
    requires s.rings == d.rings && (k in s.reps ==> s.reps[k] == d.agreed(k)) && (IsMetadata(k) || k in s.reps)
    requires k in s.changes && Val(s, k).Some?
    ensures (exists t, x :: Gossip(t, k, x) in OnRound(EnvOf(d, w), s).out)
       <==> Readable(Val(s, k).value) && exists t :: t in Replicas(d, k) && t != w
  {
    WhoEverywhere(d, w, s, k);
    var out := OnRound(EnvOf(d, w), s).out;
    if t, x :| Gossip(t, k, x) in out {
      RoundMessages(d, w, s, k, t, x);
      assert t in Replicas(d, k) && t != w;
    }
    if t :| Readable(Val(s, k).value) && t in Replicas(d, k) && t != w {
      RoundMessages(d, w, s, k, t, Val(s, k).value);
      assert Gossip(t, k, Val(s, k).value) in out;
    }
  }
}
