/** What a client of one thread sees: values only rise, and a read served after an accepted write includes it. */
module Sessions {
  import opened Types
  import opened Values
  import opened Server
  import opened Movement
  import opened ServerRuns
  import opened Runs
  import opened Spread
  import opened GossipNet
  import opened GossipSteps
  import opened GossipDrain
  import opened GossipConvergence

  ghost predicate InCarrier(d: Deployment, s: Server, k: Key) {
    Val(s, k).Some? ==> d.carrier(k)(Val(s, k).value)
  }

  /** What the thread holds of `k` belongs to the key and is not lower than before. */
  ghost predicate Rises(d: Deployment, s: Server, s': Server, k: Key) {
    InCarrier(d, s, k) ==>
      InCarrier(d, s', k) && (Val(s, k).Some? ==> HoldsAbove(s', k, Val(s, k).value))
  }

  lemma RisesTrans(d: Deployment, a: Server, b: Server, c: Server, k: Key)
    requires Joins(d, k) && Rises(d, a, b, k) && Rises(d, b, c, k)
    ensures Rises(d, a, c, k)
  {
    if InCarrier(d, a, k) && Val(a, k).Some? {
      OrderTrans(d.carrier(k), Below, Val(a, k).value, Val(b, k).value, Val(c, k).value);
    }
  }

  lemma SameRises(d: Deployment, s: Server, s': Server, k: Key)
    requires Joins(d, k) && Val(s', k) == Val(s, k)
    ensures Rises(d, s, s', k)
  {
  }

  lemma DidRises(d: Deployment, s: Server, s': Server, key: Key, x: Value, write: bool, k: Key)
    requires Joins(d, k) && Did(s, s', key, x, write) && d.carrier(key)(x)
    ensures Rises(d, s, s', k)
    ensures k == key && InCarrier(d, s, key) ==> HoldsAbove(s', key, x)
  {
    if k != key {
      assert Same(s, s', k);
      SameRises(d, s, s', k);
    } else if InCarrier(d, s, key) && Val(s, key).Some? {
      RaisedAbove(d.carrier(key), Below, Combine, Val(s, key).value, x, Val(s, key).value);
    } else if InCarrier(d, s, key) {
      assert Below(x, x);
    }
  }

  // ---- each handler -----------------------------------------------------------------------------

  lemma SettleRises(d: Deployment, s: Server, key: Key, p: PendingRequest, responsible: bool, k: Key)
    requires Joins(d, k) && OneType(d, key) && Exactly(s.stored, s.store) && Proper(d, p.header, key, p.kind, p.payload)
    ensures Rises(d, s, Settle(s, key, p, responsible).server, k)
  {
    if responsible && Writes(p) && Accepts(s, key, p.kind) {
      SettleDid(s, key, p);
      DidRises(d, s, Settle(s, key, p, true).server, key, p.payload, true, k);
    } else {
      SettleRefuses(s, key, p, responsible);
      SameRises(d, s, s, k);
    }
  }

  lemma SettleRefuses(s: Server, key: Key, p: PendingRequest, responsible: bool)
    requires !(responsible && Writes(p) && Accepts(s, key, p.kind))
    ensures Settle(s, key, p, responsible).server == s
  {
  }

  lemma {:induction false} SettleAllRises(d: Deployment, s: Server, key: Key, ps: seq<PendingRequest>,
                                          responsible: bool, k: Key)
    requires Joins(d, k) && OneType(d, key) && Exactly(s.stored, s.store)
    requires forall p :: p in ps ==> Proper(d, p.header, key, p.kind, p.payload)
    ensures Rises(d, s, SettleAll(s, key, ps, responsible).server, k)
  {
    if ps == [] {
      SameRises(d, s, s, k);
    } else {
      var front, last := ps[..|ps| - 1], ps[|ps| - 1];
      var s1 := SettleAll(s, key, front, responsible).server;
      SettleAllRises(d, s, key, front, responsible, k);
      SettleAllMerges(s, key, front, responsible);
      SettleRises(d, s1, key, last, responsible, k);
      RisesTrans(d, s, s1, Settle(s1, key, last, responsible).server, k);
    }
  }

  lemma {:induction false} AbsorbAllRises(d: Deployment, s: Server, key: Key, values: seq<Value>, k: Key)
    requires Joins(d, k) && Exactly(s.stored, s.store) && forall x :: x in values ==> d.carrier(key)(x)
    ensures Rises(d, s, AbsorbAll(s, key, values), k)
  {
    if values == [] {
      SameRises(d, s, s, k);
    } else {
      var front, last := values[..|values| - 1], values[|values| - 1];
      var s1 := AbsorbAll(s, key, front);
      AbsorbAllRises(d, s, key, front, k);
      AbsorbAllMerges(s, key, front);
      if Accepts(s1, key, TypeOf(last)) {
        PutDid(s1, key, last);
        DidRises(d, s1, Put(s1, key, TypeOf(last), last), key, last, false, k);
        RisesTrans(d, s, s1, Put(s1, key, TypeOf(last), last), k);
      }
    }
  }

  lemma DrainRises(d: Deployment, self: ServerThread, s: Server, key: Key, who: Option<seq<ServerThread>>, k: Key)
    requires Joins(d, k) && OneType(d, key) && Inv(s) && Fits(s, key, who) && AllProper(d, s, key)
    requires forall x :: x in HeldBy(s, key) ==> d.carrier(key)(x)
    ensures Rises(d, s, Drain(self, s, key, who).server, k)
  {
    var s1 := DrainRequests(self, s, key, who).server;
    DrainRequestsKeeps(self, s, key, who);
    DrainRequestsRises(d, self, s, key, who, k);
    DrainGossipRises(d, self, s1, key, who, k);
    RisesTrans(d, s, s1, DrainGossip(self, s1, key, who).server, k);
  }

  lemma DrainRequestsRises(d: Deployment, self: ServerThread, s: Server, key: Key, who: Option<seq<ServerThread>>,
                           k: Key)
    requires Joins(d, k) && OneType(d, key) && Exactly(s.stored, s.store) && AllProper(d, s, key)
    ensures Rises(d, s, DrainRequests(self, s, key, who).server, k)
  {
    if key in s.requests && who.Some? {
      SettleAllRises(d, s, key, s.requests[key], self in who.value, k);
    } else {
      SameRises(d, s, DrainRequests(self, s, key, who).server, k);
    }
  }

  lemma DrainGossipRises(d: Deployment, self: ServerThread, s: Server, key: Key, who: Option<seq<ServerThread>>, k: Key)
    requires Joins(d, k) && Exactly(s.stored, s.store) && forall x :: x in HeldBy(s, key) ==> d.carrier(key)(x)
    ensures Rises(d, s, DrainGossip(self, s, key, who).server, k)
  {
    if key in s.gossip && who.Some? && self in who.value {
      AbsorbAllRises(d, s, key, s.gossip[key], k);
    } else {
      SameRises(d, s, DrainGossip(self, s, key, who).server, k);
    }
  }

  lemma RequestRises(d: Deployment, self: ServerThread, s: Server, header: Header, t: KeyTuple,
                     who: Option<seq<ServerThread>>, k: Key)
    requires Joins(d, k) && OneType(d, t.key) && Exactly(s.stored, s.store)
    requires Proper(d, header, t.key, t.kind, t.payload)
    ensures Rises(d, s, RequestAs(self, s, header, t, who).server, k)
    ensures (who.Some? && self in who.value && header.kind == PUT && Accepts(s, t.key, t.kind)) ==>
              (k == t.key && InCarrier(d, s, k) ==> HoldsAbove(RequestAs(self, s, header, t, who).server, k, t.payload))
  {
    if who.Some? && self in who.value && header.kind == PUT && Accepts(s, t.key, t.kind) {
      ServeDid(s, header, t.key, t.payload, t.cacheSize > 0 && t.cacheSize != |who.value|);
      DidRises(d, s, RequestAs(self, s, header, t, who).server, t.key, t.payload, true, k);
    } else {
      RequestRefuses(self, s, header, t, who, k);
      SameRises(d, s, RequestAs(self, s, header, t, who).server, k);
    }
  }

  lemma RequestRefuses(self: ServerThread, s: Server, header: Header, t: KeyTuple, who: Option<seq<ServerThread>>,
                       k: Key)
    requires !(who.Some? && self in who.value && header.kind == PUT && Accepts(s, t.key, t.kind))
    ensures Val(RequestAs(self, s, header, t, who).server, k) == Val(s, k)
  {
  }

  lemma GossipRises(d: Deployment, self: ServerThread, s: Server, key: Key, x: Value, who: Option<seq<ServerThread>>,
                    k: Key)
    requires Joins(d, k) && Exactly(s.stored, s.store) && d.carrier(key)(x) && Accepts(s, key, TypeOf(x))
    ensures Rises(d, s, GossipAs(self, s, key, x, who).server, k)
  {
    if who.Some? && self in who.value {
      AbsorbDid(s, key, x);
      DidRises(d, s, Absorb(s, key, x), key, x, false, k);
    } else {
      SameRises(d, s, GossipAs(self, s, key, x, who).server, k);
    }
  }

  // ---- the cluster ------------------------------------------------------------------------------

  lemma StaysOrRises(d: Deployment, s: Server, s': Server, k: Key)
    requires Merging(d) && Val(s', k) == Val(s, k)
    ensures Rises(d, s, s', k)
  {
    assert Joins(d, k);
    SameRises(d, s, s', k);
  }

  lemma RisesOn(d: Deployment, a: Server, b: Server, c: Server, k: Key)
    requires Merging(d) && Rises(d, a, b, k) && Rises(d, b, c, k)
    ensures Rises(d, a, c, k)
  {
    assert Joins(d, k);
    RisesTrans(d, a, b, c, k);
  }

  lemma TaughtRises(d: Deployment, w: ServerThread, s0: Server, key: Key, who: Option<seq<ServerThread>>, k: Key)
    requires Merging(d) && Typed(d) && Loyal(d, w, s0) && Fits(s0, key, who)
    requires forall x :: x in HeldBy(s0, key) ==> d.carrier(key)(x)
    ensures Rises(d, s0, Drain(w, s0, key, who).server, k)
  {
    assert Joins(d, k) && OneType(d, key) && AllProper(d, s0, key);
    DrainRises(d, w, s0, key, who, k);
  }

  lemma AllKeptCarried(d: Deployment, net: Net, w: ServerThread, key: Key)
    requires Good(d, net, key) && w in net.servers
    ensures forall x :: x in HeldBy(net.servers[w], key) ==> d.carrier(key)(x)
  {
    forall x | x in HeldBy(net.servers[w], key) ensures d.carrier(key)(x) {
      KeptCarried(d, net, w, key, x);
    }
  }

  lemma LearnedRises(d: Deployment, w: ServerThread, s: Server, s0: Server, key: Key, who: Option<seq<ServerThread>>,
                     k: Key)
    requires Merging(d) && Typed(d) && Loyal(d, w, s0) && Fits(s0, key, who) && s0 == s.(reps := s0.reps)
    requires forall x :: x in HeldBy(s0, key) ==> d.carrier(key)(x)
    ensures Rises(d, s, Drain(w, s0, key, who).server, k)
  {
    TaughtRises(d, w, s0, key, who, k);
    StaysOrRises(d, s, s0, k);
    RisesOn(d, s, s0, Drain(w, s0, key, who).server, k);
  }

  lemma FactorRises(d: Deployment, w: ServerThread, s: Server, key: Key, reply: FactorReply, k: Key)
    requires Merging(d) && Typed(d) && Loyal(d, w, s) && Truthful(d, w, s, key, reply)
    requires forall x :: x in HeldBy(s, key) ==> d.carrier(key)(x)
    ensures Rises(d, s, OnFactor(EnvOf(d, w), s, key, reply).server, k)
  {
    if reply.Found? || reply.NotFound? {
      var s0 := Taught(EnvOf(d, w), s, key, reply);
      var who := Who(EnvOf(d, w), s0, key, [d.tierOf(w)]);
      TaughtLoyal(d, w, s, key, reply);
      OnFactorIs(EnvOf(d, w), s, key, reply, s0, who);
      LearnedRises(d, w, s, s0, key, who, k);
    } else {
      StaysOrRises(d, s, s, k);
    }
  }

  lemma ClientRises(d: Deployment, w: ServerThread, s: Server, header: Header, t: KeyTuple, k: Key)
    requires Merging(d) && Typed(d) && Inv(s) && Proper(d, header, t.key, t.kind, t.payload)
    ensures Rises(d, s, OnRequest(EnvOf(d, w), s, header, t).server, k)
  {
    assert Joins(d, k) && OneType(d, t.key);
    RequestRises(d, w, s, header, t, Who(EnvOf(d, w), s, t.key, [d.tierOf(w)]), k);
  }

  lemma DeliverRises(d: Deployment, net: Net, m: Output, k: Key)
    requires Merging(d) && Typed(d) && Good(d, net, m.key) && m in net.bag && m.Gossip? && m.to in net.servers
    requires Inv(net.servers[m.to])
    ensures Rises(d, net.servers[m.to], OnGossip(EnvOf(d, m.to), net.servers[m.to], m.key, m.value).server, k)
  {
    var s := net.servers[m.to];
    MessageCarried(d, net, m);
    DeliverFits(d, net, m);
    assert Joins(d, k);
    GossipRises(d, m.to, s, m.key, m.value, Who(EnvOf(d, m.to), s, m.key, [d.tierOf(m.to)]), k);
  }

  function ActorOf(step: NetStep): (w: ServerThread) {
    if step.Deliver? then step.to else step.w
  }

  /** What a thread makes of what it handles. */
  function Reaction(d: Deployment, net: Net, step: NetStep): (r: Outcome)
    requires Possible(d, net, step)
  {
    match step
    case Client(w, header, t) => OnRequest(EnvOf(d, w), net.servers[w], header, t)
    case Factor(w, key, reply) => OnFactor(EnvOf(d, w), net.servers[w], key, reply)
    case Gossips(w) => OnRound(EnvOf(d, w), net.servers[w])
    case Deliver(to, key, value) => OnGossip(EnvOf(d, to), net.servers[to], key, value)
  }

  /** The thread that handles a step is the only one whose state changes. */
  lemma OnlyActor(d: Deployment, net: Net, step: NetStep)
    requires Possible(d, net, step)
    ensures ActorOf(step) in net.servers
    ensures Next(d, net, step).servers == net.servers[ActorOf(step) := Reaction(d, net, step).server]
  {
  }

  lemma FactorStepRises(d: Deployment, net: Net, step: NetStep, k: Key)
    requires Sane(d) && NetInv(d, net) && Possible(d, net, step) && step.Factor?
    ensures Rises(d, net.servers[step.w], Reaction(d, net, step).server, k)
  {
    assert Good(d, net, step.key);
    AllKeptCarried(d, net, step.w, step.key);
    FactorRises(d, step.w, net.servers[step.w], step.key, step.reply, k);
  }

  lemma DeliverStepRises(d: Deployment, net: Net, step: NetStep, k: Key)
    requires Sane(d) && NetInv(d, net) && Possible(d, net, step) && step.Deliver?
    ensures Rises(d, net.servers[step.to], Reaction(d, net, step).server, k)
  {
    assert Good(d, net, step.key);
    DeliverRises(d, net, Gossip(step.to, step.key, step.value), k);
  }

  lemma RoundRises(d: Deployment, w: ServerThread, s: Server, k: Key)
    requires Merging(d)
    ensures Rises(d, s, OnRound(EnvOf(d, w), s).server, k)
  {
    StaysOrRises(d, s, OnRound(EnvOf(d, w), s).server, k);
  }

  lemma ActorRises(d: Deployment, net: Net, step: NetStep, k: Key)
    requires Sane(d) && NetInv(d, net) && Possible(d, net, step)
    ensures ActorOf(step) in net.servers && Rises(d, net.servers[ActorOf(step)], Reaction(d, net, step).server, k)
  {
    match step
    case Client(w, header, t) => ClientRises(d, w, net.servers[w], header, t, k);
    case Factor(_, _, _) => FactorStepRises(d, net, step, k);
    case Gossips(w) => RoundRises(d, w, net.servers[w], k);
    case Deliver(_, _, _) => DeliverStepRises(d, net, step, k);
  }

  lemma ActsRises(d: Deployment, servers: map<ServerThread, Server>, actor: ServerThread, after: Server,
                  w: ServerThread, k: Key)
    requires Merging(d) && actor in servers && w in servers && Rises(d, servers[actor], after, k)
    ensures Rises(d, servers[w], servers[actor := after][w], k)
  {
    if w != actor {
      StaysOrRises(d, servers[w], servers[w], k);
    }
  }

  /** Every step of the cluster keeps or raises what each thread holds of each key. */
  lemma StepRises(d: Deployment, net: Net, step: NetStep, net': Net, w: ServerThread, k: Key)
    requires Sane(d) && NetInv(d, net) && Possible(d, net, step) && w in net.servers && net' == Next(d, net, step)
    ensures w in net'.servers && Rises(d, net.servers[w], net'.servers[w], k)
  {
    OnlyActor(d, net, step);
    ActorRises(d, net, step, k);
    ActsRises(d, net.servers, ActorOf(step), Reaction(d, net, step).server, w, k);
  }

  lemma {:induction false} RisesAlong(d: Deployment, states: seq<Server>, k: Key, i: nat, j: nat)
    requires Merging(d) && i <= j < |states|
    requires forall n :: 0 <= n < |states| - 1 ==> Rises(d, states[n], states[n + 1], k)
    ensures Rises(d, states[i], states[j], k)
    decreases j
  {
    if i == j {
      StaysOrRises(d, states[i], states[i], k);
    } else {
      RisesAlong(d, states, k, i, j - 1);
      assert Rises(d, states[j - 1], states[j - 1 + 1], k);
      RisesOn(d, states[i], states[j - 1], states[j], k);
    }
  }

  lemma SameThreads(d: Deployment, nets: seq<Net>, steps: seq<NetStep>, n: nat)
    requires IsNetRun(d, nets, steps) && n < |nets|
    ensures nets[n].servers.Keys == nets[0].servers.Keys
  {
    var threads := nets[0].servers.Keys;
    var inv := (net: Net) => net.servers.Keys == threads;
    forall net, step, net' | inv(net) && Moving(d)(net, step, net') ensures inv(net') {
      OnlyActor(d, net, step);
    }
    NetRunIsChain(d, nets, steps);
    InductFrom(Moving(d), inv, nets, steps, 0);
    assert inv(nets[n]);
  }

  /** Over any stretch of any run what a thread holds of a key only rises. */
  lemma ValuesRise(d: Deployment, nets: seq<Net>, steps: seq<NetStep>, w: ServerThread, k: Key, i: nat, j: nat)
    requires Sane(d) && IsNetRun(d, nets, steps) && NetInit(d, nets[0])
    requires i <= j < |nets| && w in nets[i].servers
    ensures w in nets[j].servers && Rises(d, nets[i].servers[w], nets[j].servers[w], k)
  {
    SameThreads(d, nets, steps, i);
    var states := History(d, nets, steps, w, k);
    RisesAlong(d, states, k, i, j);
  }

  lemma History(d: Deployment, nets: seq<Net>, steps: seq<NetStep>, w: ServerThread, k: Key)
    returns (states: seq<Server>)
    requires Sane(d) && IsNetRun(d, nets, steps) && NetInit(d, nets[0]) && w in nets[0].servers
    ensures |states| == |nets|
    ensures forall n :: 0 <= n < |nets| ==> w in nets[n].servers && states[n] == nets[n].servers[w]
    ensures forall n :: 0 <= n < |states| - 1 ==> Rises(d, states[n], states[n + 1], k)
  {
    forall n | 0 <= n < |nets| ensures w in nets[n].servers {
      SameThreads(d, nets, steps, n);
    }
    states := seq(|nets|, n requires 0 <= n < |nets| && w in nets[n].servers => nets[n].servers[w]);
    forall n | 0 <= n < |states| - 1 ensures Rises(d, states[n], states[n + 1], k) {
      RunStepRises(d, nets, steps, w, k, n);
    }
  }

  lemma RunStepRises(d: Deployment, nets: seq<Net>, steps: seq<NetStep>, w: ServerThread, k: Key, n: nat)
    requires Sane(d) && IsNetRun(d, nets, steps) && NetInit(d, nets[0]) && n < |steps| && w in nets[n].servers
    ensures w in nets[n + 1].servers && Rises(d, nets[n].servers[w], nets[n + 1].servers[w], k)
  {
    RunKeepsNet(d, nets, steps);
    StepRises(d, nets[n], steps[n], nets[n + 1], w, k);
  }

  /** A GET at a responsible thread that holds the key is answered at once with what it holds. */
  lemma GetAnswers(d: Deployment, w: ServerThread, s: Server, header: Header, t: KeyTuple)
    requires Tiered(d) && OneType(d, t.key) && Loyal(d, w, s) && w in Replicas(d, t.key)
    requires header.kind == GET && header.address != "" && Val(s, t.key).Some? && InCarrier(d, s, t.key)
    ensures var r := OnRequest(EnvOf(d, w), s, header, t).replies;
            && |r| == 1 && r[0].header == header && r[0].answer.key == t.key
            && r[0].answer.payload == Val(s, t.key) && r[0].answer.error == NO_ERROR
  {
    WhoHere(d, w, s, t.key);
    assert Slot(s.stored[t.key], t.key) in s.store;
  }

  lemma PutHeld(d: Deployment, net: Net, step: NetStep)
    requires Sane(d) && NetInv(d, net) && Possible(d, net, step) && step.Client? && step.header.kind == PUT
    requires AcceptedNow(d, step.w, net.servers[step.w], step.header, step.tuple) != {}
    ensures HoldsAbove(Next(d, net, step).servers[step.w], step.tuple.key, step.tuple.payload)
  {
    var w, t := step.w, step.tuple;
    var s := net.servers[w];
    assert Good(d, net, t.key) && OneType(d, t.key) && Joins(d, t.key);
    WhoHere(d, w, s, t.key);
    ClientFits(d, net, w, step.header, t);
    HeldCarried(d, net, w, t.key);
    RequestRises(d, w, s, step.header, t, Who(EnvOf(d, w), s, t.key, [d.tierOf(w)]), t.key);
  }

  /**
   * In every run of the cluster, a GET served at a thread after a PUT it accepted is answered at once, without error,
   * with a value that includes the PUT.
   */
  lemma ReadsSeeWrites(d: Deployment, nets: seq<Net>, steps: seq<NetStep>, i: nat, j: nat)
    requires Sane(d) && IsNetRun(d, nets, steps) && NetInit(d, nets[0]) && i < j < |steps|
    requires steps[i].Client? && steps[i].header.kind == PUT
    requires AcceptedNow(d, steps[i].w, nets[i].servers[steps[i].w], steps[i].header, steps[i].tuple) != {}
    requires steps[j].Client? && steps[j].w == steps[i].w && steps[j].tuple.key == steps[i].tuple.key
    requires steps[j].header.kind == GET && steps[j].header.address != ""
    ensures var r := OnRequest(EnvOf(d, steps[j].w), nets[j].servers[steps[j].w], steps[j].header,
                               steps[j].tuple).replies;
            && |r| == 1 && r[0].header == steps[j].header && r[0].answer.error == NO_ERROR
            && r[0].answer.payload.Some? && Below(steps[i].tuple.payload, r[0].answer.payload.value)
  {
    var w, key, x := steps[i].w, steps[i].tuple.key, steps[i].tuple.payload;
    RunKeepsNet(d, nets, steps);
    assert Good(d, nets[i + 1], key) && Good(d, nets[j], key) && Joins(d, key) && OneType(d, key);
    PutHeld(d, nets[i], steps[i]);
    ValuesRise(d, nets, steps, w, key, i + 1, j);
    HeldCarried(d, nets[i + 1], w, key);
    OrderTrans(d.carrier(key), Below, x, Val(nets[i + 1].servers[w], key).value, Val(nets[j].servers[w], key).value);
    GetAnswers(d, w, nets[j].servers[w], steps[j].header, steps[j].tuple);
  }
}
