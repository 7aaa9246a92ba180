/** The replicas of one key on their own, and what they can do: put writes, have rounds, and deliver to each other. */
module ReplicaRuns {
  import opened Types
  import opened Metadata
  import opened Responsibility
  import opened Values
  import opened Runs
  import opened Server
  import opened Movement
  import opened ServerRuns
  import opened GossipNet
  import opened GossipSteps
  import opened GossipConvergence

  // ---- states that some run ends in -------------------------------------------------------------

  ghost function Starting(d: Deployment): (r: Net -> bool) {
    (n: Net) => NetInit(d, n)
  }

  /** Some run ends in `net`. */
  ghost predicate Reachable(d: Deployment, net: Net) {
    Reached(Moving(d), Starting(d), net)
  }

  lemma RunInto(d: Deployment, net: Net) returns (nets: seq<Net>, steps: seq<NetStep>)
    requires Reachable(d, net)
    ensures IsNetRun(d, nets, steps) && NetInit(d, nets[0]) && nets[|steps|] == net
  {
    nets, steps := RunTo(Moving(d), Starting(d), net);
    NetRunIsChain(d, nets, steps);
  }

  lemma ReachableInv(d: Deployment, net: Net)
    requires Sane(d) && Reachable(d, net)
    ensures NetInv(d, net)
  {
    var nets, steps := RunInto(d, net);
    RunKeepsNet(d, nets, steps);
  }

  /** The threads are the key's replicas. */
  ghost predicate Full(d: Deployment, key: Key, net: Net) {
    forall w :: w in net.servers <==> w in Replicas(d, key)
  }

  /**
   * A property of states of the replicas of a key that steps keep, and that comes with the invariant. Being the end of
   * some run is one; the lemmas below need no more of it than this.
   */
  type Reach = Net -> bool

  ghost predicate Carries(d: Deployment, key: Key, reach: Reach) {
    && (forall n {:trigger NetInit(d, n)} :: NetInit(d, n) && Full(d, key, n) ==> reach(n))
    && (forall n, step, n' {:trigger Moving(d)(n, step, n')} :: reach(n) && Moving(d)(n, step, n') ==> reach(n'))
    && (forall n {:trigger NetInv(d, n)} :: reach(n) ==> NetInv(d, n) && Full(d, key, n))
  }

  lemma ReachOn(d: Deployment, key: Key, reach: Reach, net: Net, step: NetStep)
    requires Carries(d, key, reach) && reach(net) && Possible(d, net, step)
    ensures reach(Next(d, net, step))
  {
    assert Moving(d)(net, step, Next(d, net, step));
  }

  ghost function Reaching(d: Deployment, key: Key): (r: Reach) {
    (n: Net) => Reachable(d, n) && Full(d, key, n)
  }

  lemma SameThreads(d: Deployment, net: Net, step: NetStep)
    requires Possible(d, net, step)
    ensures Next(d, net, step).servers.Keys == net.servers.Keys
  {
  }

  lemma StaysFull(d: Deployment, key: Key, net: Net, net': Net)
    requires Full(d, key, net) && net'.servers.Keys == net.servers.Keys
    ensures Full(d, key, net')
  {
    forall w ensures w in net'.servers <==> w in net.servers {
      assert w in net'.servers <==> w in net'.servers.Keys;
    }
  }

  lemma ReachingCarries(d: Deployment, key: Key)
    requires Sane(d)
    ensures Carries(d, key, Reaching(d, key))
  {
    var reach := Reaching(d, key);
    forall n, step, n' | reach(n) && Moving(d)(n, step, n') ensures reach(n') {
      ReachedNext(Moving(d), Starting(d), n, step, n');
      SameThreads(d, n, step);
      StaysFull(d, key, n, n');
    }
    forall n | reach(n) ensures NetInv(d, n) { ReachableInv(d, n); }
    forall n | NetInit(d, n) && Full(d, key, n) ensures reach(n) { ReachedFirst(Moving(d), Starting(d), n); }
  }

  // ---- one step of each kind --------------------------------------------------------------------

  /** The thread knows the key's factor, keeps nothing of it back, and has changed nothing else. */
  predicate Ready(s: Server, key: Key) {
    (IsMetadata(key) || key in s.reps) && HeldBy(s, key) == [] && s.changes <= {key}
  }

  /** All threads are ready, and only gossip about the key is under way. */
  ghost predicate Calm(net: Net, key: Key) {
    && (forall w :: w in net.servers ==> Ready(net.servers[w], key))
    && (forall o :: o in net.bag ==> o.Gossip? && o.key == key)
  }

  /** Thread `w` has become `s'`, and nobody else has changed. */
  ghost predicate Only(net: Net, net': Net, w: ServerThread, s': Server) {
    w in net.servers && net'.servers == net.servers[w := s']
  }

  lemma ServesPut(self: ServerThread, s: Server, key: Key, x: Value, who: Option<seq<ServerThread>>)
    returns (s': Server)
    requires Exactly(s.stored, s.store) && Accepts(s, key, TypeOf(x)) && Ready(s, key)
    requires who.Some? && self in who.value
    ensures RequestAs(self, s, PUT_NOW, PutOf(key, x), who) == Outcome(s', [], NO_OUTPUT)
    ensures Did(s, s', key, x, true) && Ready(s', key)
  {
    var t := PutOf(key, x);
    s' := Serve(s, PUT_NOW, key, TypeOf(x), x, false).0;
    ServeDid(s, PUT_NOW, key, x, false);
    RequestQueue(self, s, PUT_NOW, t, who);
  }

  lemma PutServed(d: Deployment, net: Net, key: Key, w: ServerThread, x: Value) returns (s': Server)
    requires Sane(d) && NetInv(d, net) && Full(d, key, net) && Calm(net, key) && w in net.servers && d.carrier(key)(x)
    ensures OnRequest(EnvOf(d, w), net.servers[w], PUT_NOW, PutOf(key, x)) == Outcome(s', [], NO_OUTPUT)
    ensures AcceptedNow(d, w, net.servers[w], PUT_NOW, PutOf(key, x)) == {GossipNet.Write(key, x)}
    ensures Did(net.servers[w], s', key, x, true) && Ready(s', key)
  {
    var s, t := net.servers[w], PutOf(key, x);
    var who := Who(EnvOf(d, w), s, key, [d.tierOf(w)]);
    WhoHere(d, w, s, key);
    assert Good(d, net, key) && OneType(d, key);
    ClientFits(d, net, w, PUT_NOW, t);
    s' := ServesPut(w, s, key, x, who);
    AcceptedNowIs(d, w, s, PUT_NOW, t, who);
  }

  /** One thread has changed, and what is under way is still about the key only. */
  lemma StaysCalm(net: Net, net': Net, key: Key, w: ServerThread, s': Server)
    requires Calm(net, key) && Only(net, net', w, s') && Ready(s', key)
    requires forall o :: o in net'.bag ==> o.Gossip? && o.key == key
    ensures Calm(net', key)
  {
  }

  /** What a step has done: the thread that acted, the messages, the writes accepted. */
  ghost predicate Acted(net: Net, net': Net, w: ServerThread, s': Server, bag: multiset<Output>,
                        accepted: set<GossipNet.Write>) {
    Only(net, net', w, s') && net'.bag == bag && net'.accepted == accepted
  }

  lemma ActsAs(net: Net, net0: Net, w: ServerThread, r: Outcome, writes: set<GossipNet.Write>)
    requires w in net.servers && net0 == net.(bag := net0.bag)
    ensures Acted(net, Handled(net0, w, r, writes), w, r.server, net0.bag + r.out, net.accepted + writes)
  {
  }

  lemma PutEffect(d: Deployment, net: Net, w: ServerThread, t: KeyTuple, s': Server, writes: set<GossipNet.Write>)
    requires w in net.servers && Proper(d, PUT_NOW, t.key, t.kind, t.payload)
    requires OnRequest(EnvOf(d, w), net.servers[w], PUT_NOW, t) == Outcome(s', [], NO_OUTPUT)
    requires AcceptedNow(d, w, net.servers[w], PUT_NOW, t) == writes
    ensures Possible(d, net, Client(w, PUT_NOW, t))
    ensures Acted(net, Next(d, net, Client(w, PUT_NOW, t)), w, s', net.bag, net.accepted + writes)
  {
    ClientNext(d, net, w, PUT_NOW, t, Outcome(s', [], NO_OUTPUT), writes);
    ActsAs(net, net, w, Outcome(s', [], NO_OUTPUT), writes);
    assert net.bag + NO_OUTPUT == net.bag;
  }

  lemma ProperPut(d: Deployment, key: Key, x: Value)
    requires Typed(d) && d.carrier(key)(x)
    ensures Proper(d, PUT_NOW, key, TypeOf(x), x)
  {
    assert OneType(d, key);
  }

  lemma PutActs(d: Deployment, net: Net, key: Key, w: ServerThread, x: Value) returns (step: NetStep, s': Server)
    requires Sane(d) && NetInv(d, net) && Full(d, key, net) && Calm(net, key) && w in net.servers && d.carrier(key)(x)
    ensures Possible(d, net, step)
    ensures Acted(net, Next(d, net, step), w, s', net.bag, net.accepted + {GossipNet.Write(key, x)})
    ensures Did(net.servers[w], s', key, x, true) && Ready(s', key)
  {
    var t := PutOf(key, x);
    s' := PutServed(d, net, key, w, x);
    ProperPut(d, key, x);
    step := Client(w, PUT_NOW, t);
    PutEffect(d, net, w, t, s', {GossipNet.Write(key, x)});
  }

  /** A replica accepts a write. */
  lemma PutStep(d: Deployment, reach: Reach, net: Net, key: Key, w: ServerThread, x: Value) returns (net': Net)
    requires Sane(d) && Carries(d, key, reach) && reach(net) && Calm(net, key) && w in net.servers && d.carrier(key)(x)
    ensures reach(net') && Calm(net', key) && net'.bag == net.bag
    ensures w in net'.servers && Only(net, net', w, net'.servers[w])
    ensures Did(net.servers[w], net'.servers[w], key, x, true)
    ensures net'.accepted == net.accepted + {GossipNet.Write(key, x)}
  {
    assert NetInv(d, net);
    var step, s' := PutActs(d, net, key, w, x);
    net' := Next(d, net, step);
    StaysCalm(net, net', key, w, s');
    ReachOn(d, key, reach, net, step);
  }

  /** A round of a ready thread sends nothing but gossip about the key. */
  lemma OnlyAbout(env: Env, s: Server, key: Key)
    requires Ready(s, key)
    ensures forall o :: o in OnRound(env, s).out ==> o.Gossip? && o.key == key
  {
    assert Unknown(s, s.changes) == {};
    forall o | o in OnRound(env, s).out ensures o.Gossip? && o.key == key {
      assert o in SendGossip(s, RoundErrands(env, s)) || o in Lookups({});
    }
  }

  /** What a round of `w` has sent to the other threads, when it holds `x` and owes a round. */
  ghost predicate SendsAll(net: Net, key: Key, w: ServerThread, x: Value, out: multiset<Output>) {
    && (forall o :: o in out ==> o.Gossip? && o.key == key && o.value == x && o.to in net.servers && o.to != w)
    && (forall t :: t in net.servers && t != w ==> Gossip(t, key, x) in out)
  }

  lemma RoundSpreads(d: Deployment, net: Net, key: Key, w: ServerThread, x: Value)
    requires Sane(d) && NetInv(d, net) && Full(d, key, net) && Calm(net, key) && w in net.servers
    requires key in net.servers[w].changes && Val(net.servers[w], key) == Some(x)
    ensures SendsAll(net, key, w, x, OnRound(EnvOf(d, w), net.servers[w]).out)
  {
    var out := OnRound(EnvOf(d, w), net.servers[w]).out;
    assert Good(d, net, key);
    HeldReads(d, net, key, w, x);
    OnlyAbout(EnvOf(d, w), net.servers[w], key);
    RoundSends(d, net, w, key);
    forall o | o in out ensures o.Gossip? && o.key == key && o.value == x && o.to in net.servers && o.to != w {
      assert o == Gossip(o.to, key, o.value);
    }
  }

  lemma HeldReads(d: Deployment, net: Net, key: Key, w: ServerThread, x: Value)
    requires Typed(d) && Good(d, net, key) && w in net.servers && Val(net.servers[w], key) == Some(x)
    ensures Readout(net.servers[w], key) == Some(x)
  {
    HeldCarried(d, net, w, key);
    assert OneType(d, key);
  }

  lemma RoundEffect(d: Deployment, net: Net, w: ServerThread)
    requires w in net.servers
    ensures Possible(d, net, Gossips(w))
    ensures Acted(net, Next(d, net, Gossips(w)), w, net.servers[w].(changes := {}),
                  net.bag + OnRound(EnvOf(d, w), net.servers[w]).out, net.accepted)
  {
    RoundNext(d, net, w);
    ActsAs(net, net, w, OnRound(EnvOf(d, w), net.servers[w]), {});
    assert net.accepted + {} == net.accepted;
  }

  lemma RoundActs(d: Deployment, net: Net, key: Key, w: ServerThread, x: Value) returns (out: multiset<Output>)
    requires Sane(d) && NetInv(d, net) && Full(d, key, net) && Calm(net, key) && w in net.servers
    requires key in net.servers[w].changes && Val(net.servers[w], key) == Some(x)
    ensures Possible(d, net, Gossips(w)) && SendsAll(net, key, w, x, out)
    ensures Acted(net, Next(d, net, Gossips(w)), w, net.servers[w].(changes := {}), net.bag + out, net.accepted)
  {
    RoundSpreads(d, net, key, w, x);
    RoundEffect(d, net, w);
    out := OnRound(EnvOf(d, w), net.servers[w]).out;
  }

  /** A replica has its round. */
  lemma RoundStep(d: Deployment, reach: Reach, net: Net, key: Key, w: ServerThread, x: Value)
    returns (net': Net, out: multiset<Output>)
    requires Sane(d) && Carries(d, key, reach) && reach(net) && Calm(net, key) && w in net.servers
    requires key in net.servers[w].changes && Val(net.servers[w], key) == Some(x)
    ensures reach(net') && Calm(net', key) && net'.accepted == net.accepted
    ensures Only(net, net', w, net.servers[w].(changes := {})) && net'.bag == net.bag + out
    ensures SendsAll(net, key, w, x, out)
  {
    assert NetInv(d, net);
    out := RoundActs(d, net, key, w, x);
    net' := Next(d, net, Gossips(w));
    StaysCalm(net, net', key, w, net.servers[w].(changes := {}));
    ReachOn(d, key, reach, net, Gossips(w));
  }

  lemma RoundNext(d: Deployment, net: Net, w: ServerThread)
    requires w in net.servers
    ensures Possible(d, net, Gossips(w))
    ensures Next(d, net, Gossips(w)) == Handled(net, w, OnRound(EnvOf(d, w), net.servers[w]), {})
  {
  }

  lemma Delivered(d: Deployment, net: Net, key: Key, m: Output) returns (s': Server)
    requires Sane(d) && NetInv(d, net) && Full(d, key, net) && Calm(net, key) && m in net.bag && m.to in net.servers
    ensures OnGossip(EnvOf(d, m.to), net.servers[m.to], key, m.value) == Outcome(s', [], NO_OUTPUT)
    ensures Did(net.servers[m.to], s', key, m.value, false) && Ready(s', key)
  {
    var s := net.servers[m.to];
    var who := Who(EnvOf(d, m.to), s, key, [d.tierOf(m.to)]);
    WhoHere(d, m.to, s, key);
    assert Good(d, net, key);
    DeliverFits(d, net, m);
    DeliverOutcome(m.to, s, key, m.value, who);
    s' := Absorb(s, key, m.value);
    AbsorbDid(s, key, m.value);
    AbsorbQueue(s, key, m.value);
    AbsorbChanges(s, key, m.value);
  }

  lemma AbsorbChanges(s: Server, key: Key, x: Value)
    ensures Absorb(s, key, x).changes == s.changes
  {
  }

  lemma DeliverNext(d: Deployment, net: Net, to: ServerThread, key: Key, x: Value, r: Outcome)
    requires to in net.servers && Gossip(to, key, x) in net.bag
    requires r == OnGossip(EnvOf(d, to), net.servers[to], key, x)
    ensures Possible(d, net, Deliver(to, key, x))
    ensures Next(d, net, Deliver(to, key, x)) == Handled(net.(bag := net.bag - multiset{Gossip(to, key, x)}), to, r, {})
  {
  }

  lemma ActsOnMail(net: Net, m: Output, s': Server)
    requires m.Gossip? && m.to in net.servers
    ensures Acted(net, Handled(net.(bag := net.bag - multiset{m}), m.to, Outcome(s', [], NO_OUTPUT), {}), m.to, s',
                  net.bag - multiset{m}, net.accepted)
  {
    assert net.bag - multiset{m} + NO_OUTPUT == net.bag - multiset{m} && net.accepted + {} == net.accepted;
  }

  lemma DeliverEffect(d: Deployment, net: Net, m: Output, s': Server)
    requires m.Gossip? && m in net.bag && m.to in net.servers
    requires OnGossip(EnvOf(d, m.to), net.servers[m.to], m.key, m.value) == Outcome(s', [], NO_OUTPUT)
    ensures Possible(d, net, Deliver(m.to, m.key, m.value))
    ensures Acted(net, Next(d, net, Deliver(m.to, m.key, m.value)), m.to, s', net.bag - multiset{m}, net.accepted)
  {
    assert m == Gossip(m.to, m.key, m.value);
    DeliverNext(d, net, m.to, m.key, m.value, Outcome(s', [], NO_OUTPUT));
    ActsOnMail(net, m, s');
  }

  lemma DeliverActs(d: Deployment, net: Net, key: Key, m: Output) returns (step: NetStep, s': Server)
    requires Sane(d) && NetInv(d, net) && Full(d, key, net) && Calm(net, key) && m in net.bag && m.to in net.servers
    ensures Possible(d, net, step)
    ensures Acted(net, Next(d, net, step), m.to, s', net.bag - multiset{m}, net.accepted)
    ensures Did(net.servers[m.to], s', key, m.value, false) && Ready(s', key)
  {
    s' := Delivered(d, net, key, m);
    step := Deliver(m.to, m.key, m.value);
    DeliverEffect(d, net, m, s');
  }

  lemma LessMail(bag: multiset<Output>, m: Output, key: Key)
    requires forall o :: o in bag ==> o.Gossip? && o.key == key
    ensures forall o :: o in bag - multiset{m} ==> o.Gossip? && o.key == key
  {
  }

  /** A message arrives and is merged. */
  lemma DeliverStep(d: Deployment, reach: Reach, net: Net, key: Key, m: Output) returns (net': Net)
    requires Sane(d) && Carries(d, key, reach) && reach(net) && Calm(net, key) && m in net.bag && m.to in net.servers
    ensures reach(net') && Calm(net', key) && net'.accepted == net.accepted
    ensures net'.bag == net.bag - multiset{m}
    ensures m.to in net'.servers && Only(net, net', m.to, net'.servers[m.to])
    ensures Did(net.servers[m.to], net'.servers[m.to], key, m.value, false)
  {
    assert NetInv(d, net);
    var step, s' := DeliverActs(d, net, key, m);
    net' := Next(d, net, step);
    LessMail(net.bag, m, key);
    StaysCalm(net, net', key, m.to, s');
    ReachOn(d, key, reach, net, step);
  }

  // ---- all replicas learn the factor ------------------------------------------------------------

  /** A thread that has learned the factor of the key, if there is one to learn. */
  function Informed(d: Deployment, key: Key): (r: Server) {
    if IsMetadata(key) then StartAt(d.rings) else StartAt(d.rings).(reps := map[key := d.agreed(key)])
  }

  /** The threads of `team`, those of `done` informed, and nothing under way. */
  function Assembled(d: Deployment, key: Key, team: set<ServerThread>, done: set<ServerThread>): (r: Net) {
    Net(map w | w in team :: if w in done then Informed(d, key) else StartAt(d.rings), multiset{}, {})
  }

  /** There is a factor to learn, or none is needed. */
  predicate Learnable(d: Deployment, key: Key) {
    IsMetadata(key) || d.agreed(key) != NO_FACTORS
  }

  /** A key with replicas has factors. */
  lemma SomeFactors(d: Deployment, key: Key, w: ServerThread)
    requires w in Replicas(d, key)
    ensures Learnable(d, key)
  {
    if !IsMetadata(key) {
      CollectMembers(ALL_TIERS, ByTier(d.hs, d.rings, d.agreed(key), key), w);
      var tier :| tier in ALL_TIERS && w in ByTier(d.hs, d.rings, d.agreed(key), key)(tier);
      OwnerHasFactor(d.hs, d.rings, d.agreed(key), key, tier, w);
    }
  }

  lemma LearnsAgreed(env: Env, s: Server, key: Key, rep: KeyReplication)
    requires s.requests == map[] && s.gossip == map[] && key !in s.reps && rep != NO_FACTORS
    ensures OnFactor(env, s, key, Found(rep)) == Outcome(s.(reps := s.reps[key := rep]), [], NO_OUTPUT)
    ensures Taught(env, s, key, Found(rep)).reps == s.reps[key := rep]
  {
    assert map[] + rep.global == rep.global && map[] + rep.local == rep.local;
  }

  lemma FactorNext(d: Deployment, net: Net, w: ServerThread, key: Key, reply: FactorReply, r: Outcome)
    requires w in net.servers && Truthful(d, w, net.servers[w], key, reply)
    requires r == OnFactor(EnvOf(d, w), net.servers[w], key, reply) && net.servers[w].requests == map[]
    ensures Possible(d, net, NetStep.Factor(w, key, reply))
    ensures Next(d, net, NetStep.Factor(w, key, reply)) == Handled(net, w, r, {})
  {
  }

  lemma AssembledMore(d: Deployment, key: Key, team: set<ServerThread>, done: set<ServerThread>, w: ServerThread)
    requires w in team && w !in done
    ensures var net := Assembled(d, key, team, done);
            && w in net.servers && net.servers[w] == StartAt(d.rings)
            && Handled(net, w, Outcome(Informed(d, key), [], NO_OUTPUT), {}) == Assembled(d, key, team, done + {w})
  {
    var net, net' := Assembled(d, key, team, done), Assembled(d, key, team, done + {w});
    assert net.servers[w := Informed(d, key)] == net'.servers;
  }

  lemma LearnActs(d: Deployment, key: Key, net: Net, w: ServerThread)
    requires Learnable(d, key) && !IsMetadata(key) && w in net.servers && net.servers[w] == StartAt(d.rings)
    ensures var step := NetStep.Factor(w, key, Found(d.agreed(key)));
            && Possible(d, net, step)
            && Next(d, net, step) == Handled(net, w, Outcome(Informed(d, key), [], NO_OUTPUT), {})
  {
    LearnsAgreed(EnvOf(d, w), StartAt(d.rings), key, d.agreed(key));
    FactorNext(d, net, w, key, Found(d.agreed(key)), Outcome(Informed(d, key), [], NO_OUTPUT));
  }

  lemma HandlesNothing(net: Net, w: ServerThread)
    requires w in net.servers
    ensures Handled(net, w, Outcome(net.servers[w], [], NO_OUTPUT), {}) == net
  {
    assert net.servers[w := net.servers[w]] == net.servers;
    assert net.bag + NO_OUTPUT == net.bag && net.accepted + {} == net.accepted;
  }

  lemma LearnOne(d: Deployment, reach: Reach, key: Key, net: Net, w: ServerThread, net': Net)
    requires Carries(d, key, reach) && reach(net) && Learnable(d, key) && w in net.servers
    requires net.servers[w] == StartAt(d.rings)
    requires net' == Handled(net, w, Outcome(Informed(d, key), [], NO_OUTPUT), {})
    ensures reach(net')
  {
    if IsMetadata(key) {
      HandlesNothing(net, w);
    } else {
      LearnActs(d, key, net, w);
      ReachOn(d, key, reach, net, NetStep.Factor(w, key, Found(d.agreed(key))));
    }
  }

  lemma LearnMore(d: Deployment, reach: Reach, key: Key, team: set<ServerThread>, rest: set<ServerThread>,
                  w: ServerThread, net: Net, net': Net)
    requires Carries(d, key, reach) && reach(net) && Learnable(d, key) && w in team && w !in rest
    requires net == Assembled(d, key, team, rest) && net' == Assembled(d, key, team, rest + {w})
    ensures reach(net')
  {
    AssembledMore(d, key, team, rest, w);
    LearnOne(d, reach, key, net, w, net');
  }

  lemma {:induction false} LearnAll(d: Deployment, reach: Reach, key: Key, team: set<ServerThread>,
                                    done: set<ServerThread>, first: Net, net: Net)
    requires Carries(d, key, reach) && Learnable(d, key) && done <= team
    requires first == Assembled(d, key, team, {}) && reach(first) && net == Assembled(d, key, team, done)
    ensures reach(net)
    decreases done
  {
    if done != {} {
      var w :| w in done;
      var rest := done - {w};
      assert rest + {w} == done;
      LearnAll(d, reach, key, team, rest, first, Assembled(d, key, team, rest));
      LearnMore(d, reach, key, team, rest, w, Assembled(d, key, team, rest), net);
    }
  }

  /** Nobody has written or heard anything. */
  ghost predicate Blank(net: Net, key: Key) {
    && net.bag == multiset{} && net.accepted == {}
    && forall w :: w in net.servers ==> Val(net.servers[w], key).None? && net.servers[w].changes == {}
  }

  lemma InformedReady(d: Deployment, key: Key)
    ensures Ready(Informed(d, key), key) && Val(Informed(d, key), key).None? && Informed(d, key).changes == {}
  {
  }

  lemma AssembledCalm(d: Deployment, key: Key, team: set<ServerThread>, net: Net)
    requires net == Assembled(d, key, team, team)
    ensures Calm(net, key) && Blank(net, key)
  {
    InformedReady(d, key);
    forall w | w in net.servers ensures net.servers[w] == Informed(d, key) {
    }
  }

  lemma AssembledFirst(d: Deployment, key: Key, team: set<ServerThread>, net: Net)
    requires (forall w :: w in team <==> w in Replicas(d, key)) && net == Assembled(d, key, team, {})
    ensures NetInit(d, net) && Full(d, key, net)
  {
    assert net.servers.Keys == team;
  }

  lemma Assembly(d: Deployment, reach: Reach, key: Key, t: ServerThread, u: ServerThread) returns (net: Net)
    requires Carries(d, key, reach) && t in Replicas(d, key) && u in Replicas(d, key)
    ensures reach(net) && Calm(net, key) && Blank(net, key) && t in net.servers && u in net.servers
  {
    var team := set w | w in Replicas(d, key);
    var first := Assembled(d, key, team, {});
    net := Assembled(d, key, team, team);
    AssembledFirst(d, key, team, first);
    SomeFactors(d, key, t);
    LearnAll(d, reach, key, team, team, first, net);
    AssembledCalm(d, key, team, net);
  }
}
