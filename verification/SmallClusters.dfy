/**
 * Runs of small clusters in which a promise is broken: for each condition proved elsewhere, an input the code can
 * receive that falls outside it.
 */
module SmallClusters {
  import opened Types
  import opened Walk
  import opened Ring
  import opened Runs
  import opened RingMap
  import opened Metadata
  import opened Responsibility
  import opened Lattice
  import opened Causal
  import opened Values
  import opened Server
  import opened Movement
  import opened ServerRuns
  import opened Conservation
  import opened Handoff
  import opened FactorChange
  import opened HandoffRuns
  import Membership

  // ---- a cluster whose hashes are easy to see ---------------------------------------------------

  /** All virtual nodes of a server hash to the length of its address; every key hashes to 0. */
  const BY_LENGTH: Hash<Address> := (ip: Address, v: nat) => |ip|

  const HASHES := Hashes(BY_LENGTH, (tid: nat, v: nat) => tid, (k: Key) => 0, (k: Key) => 0)

  /** A memory tier with the given nodes, one thread per server. */
  function Tier1(nodes: seq<Node<Address>>, counts: map<Address, nat>): (r: Rings) {
    Rings(map[Memory := HashRing(nodes, counts.Keys, counts)], map[Memory := HashRing([Node(0, 0)], {0}, map[0 := 0])])
  }

  function ThreadOf(ip: Address): (r: ServerThread) {
    ServerThread(ip, 0)
  }

  lemma {:induction false} PlaceOnce(nodes: seq<Node<Address>>, ip: Address, n: nat)
    requires Sorted(nodes) && n > 0
    ensures Place(BY_LENGTH, nodes, ip, n) == Add(nodes, |ip|, ip)
  {
    PlaceStep(BY_LENGTH, nodes, ip, n - 1);
    if n > 1 {
      PlaceOnce(nodes, ip, n - 1);
      AddSorted(nodes, |ip|, ip);
      AddTwice(nodes, |ip|, ip);
    }
  }

  lemma AddTwice(nodes: seq<Node<Address>>, pos: nat, ip: Address)
    requires Sorted(nodes)
    ensures Add(Add(nodes, pos, ip), pos, ip) == Add(nodes, pos, ip)
  {
    var i := LowerBound(nodes, pos);
    LowerBoundIs(Add(nodes, pos, ip), pos, i);
  }

  lemma {:induction false} LiftOnce(nodes: seq<Node<Address>>, ip: Address, n: nat)
    requires Sorted(nodes) && n > 0
    ensures Lift(BY_LENGTH, nodes, ip, n) == Erase(nodes, |ip|)
  {
    PlaceStep(BY_LENGTH, nodes, ip, n - 1);
    EraseMembers(nodes, |ip|);
    if n > 1 {
      LiftOnce(nodes, ip, n - 1);
      EraseMembers(Erase(nodes, |ip|), |ip|);
      SortedUnique(Erase(Erase(nodes, |ip|), |ip|), Erase(nodes, |ip|));
    }
  }

  lemma InsertOnce(ring: HashRing<Address>, ip: Address, count: nat)
    requires Sorted(ring.nodes) && ip !in ring.servers
    ensures Insert(BY_LENGTH, ring, ip, count)
         == (HashRing(Add(ring.nodes, |ip|, ip), ring.servers + {ip}, ring.joinCounts[ip := count]), true)
  {
    PlaceOnce(ring.nodes, ip, VIRTUAL_THREAD_NUM);
  }

  lemma RemoveOnce(ring: HashRing<Address>, ip: Address)
    requires Sorted(ring.nodes)
    ensures Remove(BY_LENGTH, ring, ip)
         == HashRing(Erase(ring.nodes, |ip|), ring.servers - {ip}, ring.joinCounts - {ip})
  {
    LiftOnce(ring.nodes, ip, VIRTUAL_THREAD_NUM);
  }

  lemma OneOwner<S(!new)>(x: Node<S>, r: nat)
    requires r > 0
    ensures Owners([x], 0, r) == [x.server]
  {
    assert LowerBound([x], 0) == 0 && Met([x], 0) == [x.server];
    assert [x.server][..0] == [] && Distinct([x.server]) == [x.server];
  }

  lemma TwoOwners<S(!new)>(x: Node<S>, y: Node<S>, r: nat)
    requires x.server != y.server && r <= 2
    ensures Owners([x, y], 0, r) == [x.server, y.server][..r]
  {
    assert LowerBound([x, y], 0) == 0 && Met([x, y], 0) == [x.server, y.server];
    assert [x.server, y.server][..1] == [x.server] && [x.server][..0] == [];
    assert Distinct([x.server]) == [x.server];
  }

  // ---- rings ------------------------------------------------------------------------------------

  /** With one server on the ring the walk for two owners never ends. */
  lemma WalkHangs(k: nat)
    ensures |Visit([Node(1, "a")], 0, k).0| < 2
  {
    var nodes := [Node(1, "a")];
    WalkEnds(nodes, 0, 2);
    OneOwner(nodes[0], 2);
    assert Ranking(nodes, 0) == ["a"];
  }

  /** Two servers at one position: removing the one that came second takes the node of the first. */
  lemma CollidingRemoval(first: Address, second: Address, ring: HashRing<Address>)
    requires first != second && |first| == |second|
    requires ring == HashRing([Node(|first|, first)], {first}, map[first := 0])
    ensures Remove(BY_LENGTH, Insert(BY_LENGTH, ring, second, 0).0, second) == ring.(nodes := [])
  {
    InsertOnce(ring, second, 0);
    var grown := Insert(BY_LENGTH, ring, second, 0).0;
    assert grown == HashRing(ring.nodes, {first, second}, ring.joinCounts[second := 0]);
    RemoveOnce(grown, second);
    assert Erase(ring.nodes, |first|) == [];
    assert grown.joinCounts - {second} == ring.joinCounts;
  }

  // ---- ties -------------------------------------------------------------------------------------

  /** Two writes with one timestamp: the later arrival wins. */
  lemma TiedPairs()
    ensures LwwMerge(Lww(1, "x"), Lww(1, "y")) != LwwMerge(Lww(1, "y"), Lww(1, "x"))
  {
    LwwCommutes(Lww(1, "x"), Lww(1, "y"));
  }

  /** Two writes with one clock: the later arrival wins. */
  lemma TiedVersions()
    ensures var a, b := Version(map["p" := 1], {"x"}), Version(map["p" := 1], {"y"});
            MergeVersions(Union, a, b) != MergeVersions(Union, b, a)
  {
    var a: Version<set<string>>, b := Version(map["p" := 1], {"x"}), Version(map["p" := 1], {"y"});
    UnionIsJoin();
    MergeCommutes(Everything<set<string>>(), Union, a, b);
    assert "x" in a.value && "x" !in b.value;
  }

  // ---- a thread and one key ---------------------------------------------------------------------

  /** A thread of a memory server; keys have `factor` replicas unless told otherwise. */
  function EnvAt(ip: Address, factor: nat): (r: Env) {
    Env(HASHES, Defaults(map[Memory := factor], 1), ThreadOf(ip), Memory)
  }

  function FactorsFor(factor: nat): (r: KeyReplication) {
    DefaultFactors(Defaults(map[Memory := factor], 1))
  }

  /** The thread holds one value of one key, whose factor it knows. */
  function Holding(rings: Rings, key: Key, value: Value, factor: nat): (r: Server) {
    StartAt(rings).(reps := map[key := FactorsFor(factor)], stored := map[key := TypeOf(value)],
                    store := map[Slot(TypeOf(value), key) := value], changes := {key})
  }

  /** Who is responsible in a memory tier with one thread per server. */
  lemma WhoIs(env: Env, s: Server, key: Key, factor: nat, owners: seq<Address>)
    requires env.hs == HASHES && env.tier == Memory && !IsMetadata(key) && key in s.reps
    requires LocalNodes(s.rings, Memory) == [Node(0, 0)] && Factor(s.reps[key].local, Memory) == 1
    requires Factor(s.reps[key].global, Memory) == factor && owners == Owners(GlobalNodes(s.rings, Memory), 0, factor)
    ensures Who(env, s, key, [Memory]) == Some(Cross(owners, [0]))
    ensures forall t :: t in Cross(owners, [0]) <==> t.tid == 0 && t.ip in owners
  {
    OneOwner<nat>(Node(0, 0), 1);
    WhoInTier(env, s, key);
    forall t ensures t in Cross(owners, [0]) <==> t.tid == 0 && t.ip in owners {
      CrossMembers(owners, [0], t);
    }
  }

  lemma LearnsFactor(env: Env, s: Server, key: Key)
    requires s.requests == map[] && s.gossip == map[] && key !in s.reps
    ensures OnFactor(env, s, key, NotFound)
         == Outcome(s.(reps := s.reps[key := DefaultFactors(env.defaults)]), [], NO_OUTPUT)
  {
    assert Memory in DefaultFactors(env.defaults).global;
    assert map[] + DefaultFactors(env.defaults).global == DefaultFactors(env.defaults).global;
    assert map[] + DefaultFactors(env.defaults).local == DefaultFactors(env.defaults).local;
  }

  function After(s: Server, key: Key, value: Value): (r: Server) {
    s.(stored := s.stored[key := TypeOf(value)], store := s.store[Slot(TypeOf(value), key) := value],
       changes := s.changes + {key})
  }

  lemma PutFresh(s: Server, key: Key, value: Value)
    requires key !in s.stored && Slot(TypeOf(value), key) !in s.store
    ensures Put(s, key, TypeOf(value), value).(changes := s.changes + {key}) == After(s, key, value)
  {
    CombineBottom(value);
  }

  lemma AcceptsPut(self: ServerThread, s: Server, key: Key, value: Value, who: Option<seq<ServerThread>>)
    requires who.Some? && self in who.value && key !in s.stored && Slot(TypeOf(value), key) !in s.store
    ensures RequestAs(self, s, PUT_NOW, PutOf(key, value), who) == Outcome(After(s, key, value), [], NO_OUTPUT)
  {
    PutFresh(s, key, value);
  }

  /** A fresh thread learns that a key is its own, */
  lemma LearnsOwn(ip: Address, rings: Rings, key: Key, factor: nat, s1: Server)
    requires !IsMetadata(key) && LocalNodes(rings, Memory) == [Node(0, 0)]
    requires ip in Owners(GlobalNodes(rings, Memory), 0, factor)
    requires s1 == StartAt(rings).(reps := map[key := FactorsFor(factor)])
    ensures OnFactor(EnvAt(ip, factor), StartAt(rings), key, NotFound).server == s1 && Mine(EnvAt(ip, factor), s1, key)
  {
    LearnsFactor(EnvAt(ip, factor), StartAt(rings), key);
    WhoIs(EnvAt(ip, factor), s1, key, factor, Owners(GlobalNodes(rings, Memory), 0, factor));
  }

  lemma ServesPut(env: Env, s: Server, key: Key, value: Value)
    requires Mine(env, s, key) && key !in s.stored && Slot(TypeOf(value), key) !in s.store
    ensures OnRequest(env, s, PUT_NOW, PutOf(key, value)) == Outcome(After(s, key, value), [], NO_OUTPUT)
  {
    AcceptsPut(env.self, s, key, value, Who(env, s, key, [env.tier]));
  }

  /** and accepts a write of it. */
  lemma Stores(env: Env, rings: Rings, key: Key, value: Value, factor: nat, s1: Server)
    requires s1 == StartAt(rings).(reps := map[key := FactorsFor(factor)]) && Mine(env, s1, key)
    ensures OnRequest(env, s1, PUT_NOW, PutOf(key, value)).server == Holding(rings, key, value, factor)
  {
    ServesPut(env, s1, key, value);
    HoldingIs(rings, key, value, factor, s1);
  }

  lemma HoldingIs(rings: Rings, key: Key, value: Value, factor: nat, s1: Server)
    requires s1 == StartAt(rings).(reps := map[key := FactorsFor(factor)])
    ensures After(s1, key, value) == Holding(rings, key, value, factor)
  {
  }

  // ---- a key that is given up and comes back ----------------------------------------------------

  function Alone(far: Address): (r: Rings) {
    Tier1([Node(|far|, far)], map[far := 0])
  }

  function Joined(near: Address, far: Address): (r: Rings) {
    Tier1([Node(|near|, near), Node(|far|, far)], map[far := 0, near := 0])
  }

  lemma RingsJoin(near: Address, far: Address, s: Server, factor: nat)
    requires |near| < |far| && s.rings == Alone(far)
    ensures Rejoined(EnvAt(far, factor), s, Membership.Join(Memory, near, 0)) == s.(rings := Joined(near, far))
    ensures Membership.Admit(BY_LENGTH, s.rings.global, Membership.Join(Memory, near, 0)).1
  {
    var ring := Membership.RingOf(s.rings.global, Memory);
    InsertOnce(ring, near, 0);
    assert Add(ring.nodes, |near|, near) == [Node(|near|, near), Node(|far|, far)];
    assert ring.joinCounts[near := 0] == map[far := 0, near := 0];
    assert ring.servers + {near} == map[far := 0, near := 0].Keys;
    assert s.rings.global[Memory := Insert(BY_LENGTH, ring, near, 0).0] == Joined(near, far).global;
  }

  lemma RingDepart(near: Address, far: Address, ring: HashRing<Address>)
    requires |near| < |far| && ring == Joined(near, far).global[Memory]
    ensures Remove(BY_LENGTH, ring, near) == Alone(far).global[Memory]
  {
    RemoveOnce(ring, near);
    assert Erase(ring.nodes, |near|) == [Node(|far|, far)];
    assert ring.joinCounts - {near} == map[far := 0];
    assert ring.servers - {near} == map[far := 0].Keys;
  }

  lemma RingsDepart(near: Address, far: Address, s: Server, factor: nat)
    requires |near| < |far| && s.rings == Joined(near, far)
    ensures OnDepart(EnvAt(far, factor), s, Memory, near) == s.(rings := Alone(far))
  {
    var ring, alone := s.rings.global[Memory], Alone(far).global[Memory];
    RingDepart(near, far, ring);
    assert s.rings.global[Memory := alone] == Alone(far).global;
  }

  /** The state after a nearer server has joined: the key is queued for it, and due for removal. */
  function GivingUp(near: Address, far: Address, key: Key, value: Value): (r: Server) {
    Holding(Joined(near, far), key, value, 1).(joinGossip := {Errand(ThreadOf(near), key)}, joinRemove := {key})
  }

  lemma GivesUp(near: Address, far: Address, key: Key, value: Value)
    requires |near| < |far| && !IsMetadata(key)
    ensures OnJoin(EnvAt(far, 1), Holding(Alone(far), key, value, 1), Membership.Join(Memory, near, 0)).server
         == GivingUp(near, far, key, value)
  {
    var env, s, join := EnvAt(far, 1), Holding(Alone(far), key, value, 1), Membership.Join(Memory, near, 0);
    var s1 := Holding(Joined(near, far), key, value, 1);
    RingsJoin(near, far, s, 1);
    NearOwns(near, far, s1, key);
    TargetsOne(env, s1, join, key, ThreadOf(near));
    QueuesOne(env, s, join, key, ThreadOf(near), s1);
  }

  lemma TargetsOne(env: Env, s1: Server, join: Membership.Join, key: Key, t: ServerThread)
    requires join.count == 0 && t != env.self && Who(env, s1, key, [env.tier]) == Some([t])
    ensures JoinTargets(env, s1, join, key) == [t] && Leaves(env, s1, join, key)
  {
  }

  lemma NearOwns(near: Address, far: Address, s: Server, key: Key)
    requires |near| < |far| && !IsMetadata(key) && s.rings == Joined(near, far)
    requires key in s.reps && s.reps[key] == FactorsFor(1)
    ensures Who(EnvAt(far, 1), s, key, [Memory]) == Some([ThreadOf(near)])
  {
    TwoOwners(Node(|near|, near), Node(|far|, far), 1);
    assert [near, far][..1] == [near];
    WhoIs(EnvAt(far, 1), s, key, 1, [near]);
    JustOne(near);
  }

  lemma JustOne(ip: Address)
    ensures Cross([ip], [0]) == [ThreadOf(ip)]
  {
    assert [ip][..0] == [] && Cross([], [0]) == [];
    assert OnServer(ip, [0]) == [ThreadOf(ip)];
  }

  lemma ErrandStored(env: Env, s: Server, join: Membership.Join, e: Errand)
    requires e in OnJoin(env, s, join).server.joinGossip && s.joinGossip == {}
    ensures e.key in s.stored
  {
  }

  /** What a join queues for a thread's only key is queued for the only thread responsible, */
  lemma QueuesOneErrand(queue: set<Errand>, targets: seq<ServerThread>, key: Key, t: ServerThread)
    requires targets == [t] && (forall u :: Errand(u, key) in queue <==> u in targets)
    requires forall e :: e in queue ==> e.key == key
    ensures queue == {Errand(t, key)}
  {
    assert t in targets;
    forall e | e in queue ensures e == Errand(t, key) {
      assert e == Errand(e.to, key);
    }
  }

  lemma QueuedFor(env: Env, s: Server, join: Membership.Join, key: Key, targets: seq<ServerThread>, s': Server)
    requires Membership.Admit(env.hs.globalNode, s.rings.global, join).1 && join.tier == env.tier
    requires targets == JoinTargets(env, Rejoined(env, s, join), join, key)
    requires s.stored.Keys == {key} && s.joinGossip == {} && s' == OnJoin(env, s, join).server
    ensures forall u :: Errand(u, key) in s'.joinGossip <==> u in targets
    ensures forall e :: e in s'.joinGossip ==> e.key == key
  {
    QueuedExactly(env, s, join, key);
    forall e | e in s'.joinGossip ensures e.key == key { ErrandStored(env, s, join, e); }
  }

  lemma QueueOfOne(env: Env, s: Server, join: Membership.Join, key: Key, t: ServerThread, s1: Server, s': Server)
    requires Membership.Admit(env.hs.globalNode, s.rings.global, join).1 && join.tier == env.tier
    requires s1 == Rejoined(env, s, join)
    requires s.stored.Keys == {key} && s.joinGossip == {} && s' == OnJoin(env, s, join).server
    requires JoinTargets(env, s1, join, key) == [t]
    ensures s'.joinGossip == {Errand(t, key)}
  {
    var targets := JoinTargets(env, s1, join, key);
    QueuedFor(env, s, join, key, targets, s');
    QueuesOneErrand(s'.joinGossip, targets, key, t);
  }

  /** and only that key is due for removal. */
  lemma RemovalOfOne(env: Env, s: Server, join: Membership.Join, key: Key, s1: Server, s': Server)
    requires Membership.Admit(env.hs.globalNode, s.rings.global, join).1 && join.tier == env.tier
    requires s1 == Rejoined(env, s, join)
    requires s.stored.Keys == {key} && s.joinRemove == {} && s' == OnJoin(env, s, join).server
    requires Leaves(env, s1, join, key)
    ensures s'.joinRemove == {key}
  {
    QueuedExactly(env, s, join, key);
    JoinRemoves(env, s, join);
  }

  lemma QueuesOne(env: Env, s: Server, join: Membership.Join, key: Key, t: ServerThread, s1: Server)
    requires Membership.Admit(env.hs.globalNode, s.rings.global, join).1 && join.tier == env.tier
    requires s1 == Rejoined(env, s, join)
    requires s.stored.Keys == {key} && s.joinGossip == {} && s.joinRemove == {}
    requires JoinTargets(env, s1, join, key) == [t] && Leaves(env, s1, join, key)
    ensures OnJoin(env, s, join).server == s1.(joinGossip := {Errand(t, key)}, joinRemove := {key})
  {
    var s' := OnJoin(env, s, join).server;
    QueueOfOne(env, s, join, key, t, s1, s');
    RemovalOfOne(env, s, join, key, s1, s');
    OnlyQueues(env, s, join, s1, s');
  }

  lemma OnlyQueues(env: Env, s: Server, join: Membership.Join, s1: Server, s': Server)
    requires s1 == Rejoined(env, s, join) && s' == OnJoin(env, s, join).server
    ensures s' == s1.(joinGossip := s'.joinGossip, joinRemove := s'.joinRemove)
  {
  }

  /** While a run is put together it is a chain of what the thread's steps do. */
  ghost predicate Goes(env: Env, states: seq<Server>, steps: seq<Step>) {
    Chain(Leading(env), states, steps)
  }

  lemma RunStart(env: Env, s: Server) returns (states: seq<Server>, steps: seq<Step>)
    ensures Goes(env, states, steps) && states == [s] && steps == []
  {
    states, steps := [s], [];
  }

  lemma RunOn(env: Env, before: seq<Server>, done: seq<Step>, step: Step, next: Server)
    returns (states: seq<Server>, steps: seq<Step>)
    requires Goes(env, before, done) && Leading(env)(before[|done|], step, next)
    ensures Goes(env, states, steps) && steps == done + [step] && states == before + [next]
  {
    Append(Leading(env), before, done, step, next);
    states, steps := before + [next], done + [step];
  }

  // one more step of each kind

  lemma LearnsNext(env: Env, s: Server, key: Key, reply: FactorReply, next: Server)
    requires next == OnFactor(env, s, key, reply).server
    ensures Leading(env)(s, FactorIn(key, reply), next)
  {
    var step := FactorIn(key, reply);
    assert Enabled(s, step) && Apply(env, s, step).server == next;
  }

  lemma RunLearns(env: Env, before: seq<Server>, done: seq<Step>, key: Key, reply: FactorReply, s: Server, next: Server)
    returns (states: seq<Server>, steps: seq<Step>)
    requires Goes(env, before, done) && s == before[|done|] && next == OnFactor(env, s, key, reply).server
    ensures Goes(env, states, steps) && steps == done + [FactorIn(key, reply)] && states == before + [next]
  {
    LearnsNext(env, s, key, reply, next);
    states, steps := RunOn(env, before, done, FactorIn(key, reply), next);
  }

  lemma ServesNext(env: Env, s: Server, header: Header, t: KeyTuple, next: Server)
    requires next == OnRequest(env, s, header, t).server
    ensures Leading(env)(s, Request(header, t), next)
  {
    var step := Request(header, t);
    assert Enabled(s, step) && Apply(env, s, step).server == next;
  }

  lemma RunServes(env: Env, before: seq<Server>, done: seq<Step>, header: Header, t: KeyTuple, s: Server, next: Server)
    returns (states: seq<Server>, steps: seq<Step>)
    requires Goes(env, before, done) && s == before[|done|] && next == OnRequest(env, s, header, t).server
    ensures Goes(env, states, steps) && steps == done + [Request(header, t)] && states == before + [next]
  {
    ServesNext(env, s, header, t, next);
    states, steps := RunOn(env, before, done, Request(header, t), next);
  }

  lemma JoinsNext(env: Env, s: Server, join: Membership.Join, next: Server)
    requires next == OnJoin(env, s, join).server
    ensures Leading(env)(s, JoinIn(join), next)
  {
    var step := JoinIn(join);
    assert Enabled(s, step) && Apply(env, s, step).server == next;
  }

  lemma RunJoins(env: Env, before: seq<Server>, done: seq<Step>, join: Membership.Join, s: Server, next: Server)
    returns (states: seq<Server>, steps: seq<Step>)
    requires Goes(env, before, done) && s == before[|done|] && next == OnJoin(env, s, join).server
    ensures Goes(env, states, steps) && steps == done + [JoinIn(join)] && states == before + [next]
  {
    JoinsNext(env, s, join, next);
    states, steps := RunOn(env, before, done, JoinIn(join), next);
  }

  lemma LosesNext(env: Env, s: Server, tier: Tier, ip: Address, next: Server)
    requires next == OnDepart(env, s, tier, ip)
    ensures Leading(env)(s, Depart(tier, ip), next)
  {
    var step := Depart(tier, ip);
    assert Enabled(s, step) && Apply(env, s, step).server == next;
  }

  lemma RunLoses(env: Env, before: seq<Server>, done: seq<Step>, tier: Tier, ip: Address, s: Server, next: Server)
    returns (states: seq<Server>, steps: seq<Step>)
    requires Goes(env, before, done) && s == before[|done|] && next == OnDepart(env, s, tier, ip)
    ensures Goes(env, states, steps) && steps == done + [Depart(tier, ip)] && states == before + [next]
  {
    LosesNext(env, s, tier, ip, next);
    states, steps := RunOn(env, before, done, Depart(tier, ip), next);
  }

  lemma ChangesNext(env: Env, s: Server, updates: seq<Update>, next: Server)
    requires next == OnChange(env, s, updates).server
    ensures Leading(env)(s, Change(updates), next)
  {
    var step := Change(updates);
    assert Enabled(s, step) && Apply(env, s, step).server == next;
  }

  lemma RunChanges(env: Env, before: seq<Server>, done: seq<Step>, updates: seq<Update>, s: Server, next: Server)
    returns (states: seq<Server>, steps: seq<Step>)
    requires Goes(env, before, done) && s == before[|done|] && next == OnChange(env, s, updates).server
    ensures Goes(env, states, steps) && steps == done + [Change(updates)] && states == before + [next]
  {
    ChangesNext(env, s, updates, next);
    states, steps := RunOn(env, before, done, Change(updates), next);
  }

  lemma PassesNext(env: Env, s: Server, batch: set<Errand>, next: Server)
    requires Enabled(s, Redistribute(batch)) && next == OnRedistribute(s, batch).server
    ensures Leading(env)(s, Redistribute(batch), next)
  {
    var step := Redistribute(batch);
    assert Enabled(s, step) && Apply(env, s, step).server == next;
  }

  lemma RunPass(env: Env, before: seq<Server>, done: seq<Step>, batch: set<Errand>, s: Server, next: Server)
    returns (states: seq<Server>, steps: seq<Step>)
    requires Goes(env, before, done) && s == before[|done|]
    requires Enabled(s, Redistribute(batch)) && next == OnRedistribute(s, batch).server
    ensures Goes(env, states, steps) && steps == done + [Redistribute(batch)] && states == before + [next]
  {
    PassesNext(env, s, batch, next);
    states, steps := RunOn(env, before, done, Redistribute(batch), next);
  }

  /** The run up to the write of a key. */
  lemma RunStores(ip: Address, rings: Rings, key: Key, value: Value, factor: nat)
    returns (states: seq<Server>, steps: seq<Step>)
    requires !IsMetadata(key) && LocalNodes(rings, Memory) == [Node(0, 0)]
    requires ip in Owners(GlobalNodes(rings, Memory), 0, factor)
    ensures Goes(EnvAt(ip, factor), states, steps) && Init(states[0]) && |steps| == 2
    ensures states[2] == Holding(rings, key, value, factor)
  {
    var s0, s1 := StartAt(rings), StartAt(rings).(reps := map[key := FactorsFor(factor)]);
    LearnsOwn(ip, rings, key, factor, s1);
    Stores(EnvAt(ip, factor), rings, key, value, factor, s1);
    states, steps := RunStart(EnvAt(ip, factor), s0);
    states, steps := RunLearns(EnvAt(ip, factor), states, steps, key, NotFound, s0, s1);
    states, steps := RunServes(EnvAt(ip, factor), states, steps, PUT_NOW, PutOf(key, value), s1,
                               Holding(rings, key, value, factor));
  }

  /** The run up to the join that takes the key away. */
  lemma RunGivesUp(near: Address, far: Address, key: Key, value: Value) returns (states: seq<Server>, steps: seq<Step>)
    requires |near| < |far| && !IsMetadata(key)
    ensures Goes(EnvAt(far, 1), states, steps) && Init(states[0]) && |steps| == 3
    ensures states[3] == GivingUp(near, far, key, value)
  {
    OneOwner(Node(|far|, far), 1);
    states, steps := RunStores(far, Alone(far), key, value, 1);
    GivesUp(near, far, key, value);
    states, steps := RunJoins(EnvAt(far, 1), states, steps, Membership.Join(Memory, near, 0),
                              Holding(Alone(far), key, value, 1), GivingUp(near, far, key, value));
  }

  /** One pass over a queue of one errand sends it and cleans up. */
  lemma PassOne(s: Server, e: Errand)
    requires s.joinGossip == {e} && s.joinRemove == {e.key} && e.key in s.stored
    ensures Enabled(s, Redistribute({e}))
    ensures var r := OnRedistribute(s, {e});
            e.key !in r.server.stored && forall o :: o in r.out ==> o.Gossip? && o.to == e.to
  {
    assert KeysFor({e}, e.to) == {e.key};
    assert Leftover({e}, {e}) == {};
  }

  /**
   * A key lost to a departure. A nearer server joins and departs before the pass that was to hand the key over: the
   * thread is the only one responsible for the key again, and the pass drops it after sending it to the departed
   * server alone.
   */
  lemma DepartedNewcomer(near: Address, far: Address, key: Key, value: Value)
    returns (states: seq<Server>, steps: seq<Step>)
    requires |near| < |far| && !IsMetadata(key)
    ensures IsRun(EnvAt(far, 1), states, steps) && Init(states[0]) && |steps| == 5
    ensures Who(EnvAt(far, 1), states[4], key, [Memory]) == Some([ThreadOf(far)])
    ensures key in states[4].stored && key !in states[5].stored
    ensures forall o :: o in Apply(EnvAt(far, 1), states[4], steps[4]).out ==> o.Gossip? && o.to == ThreadOf(near)
  {
    var before, done := RunDeparts(near, far, key, value);
    FarOwns(far, before[4], key);
    states, steps := RunPasses(EnvAt(far, 1), before, done, Errand(ThreadOf(near), key));
    RunIsChain(EnvAt(far, 1), states, steps);
  }

  lemma RunDeparts(near: Address, far: Address, key: Key, value: Value) returns (states: seq<Server>, steps: seq<Step>)
    requires |near| < |far| && !IsMetadata(key)
    ensures Goes(EnvAt(far, 1), states, steps) && Init(states[0]) && |steps| == 4
    ensures states[4] == GivingUp(near, far, key, value).(rings := Alone(far))
  {
    var s3 := GivingUp(near, far, key, value);
    states, steps := RunGivesUp(near, far, key, value);
    RingsDepart(near, far, s3, 1);
    states, steps := RunLoses(EnvAt(far, 1), states, steps, Memory, near, s3, s3.(rings := Alone(far)));
  }

  lemma FarOwns(far: Address, s: Server, key: Key)
    requires !IsMetadata(key) && s.rings == Alone(far) && s.reps == map[key := FactorsFor(1)]
    ensures Who(EnvAt(far, 1), s, key, [Memory]) == Some([ThreadOf(far)])
  {
    OneOwner(Node(|far|, far), 1);
    WhoIs(EnvAt(far, 1), s, key, 1, [far]);
    JustOne(far);
  }

  lemma RunPasses(env: Env, before: seq<Server>, done: seq<Step>, e: Errand)
    returns (states: seq<Server>, steps: seq<Step>)
    requires Goes(env, before, done)
    requires var s := before[|done|]; s.joinGossip == {e} && s.joinRemove == {e.key} && e.key in s.stored
    ensures |steps| == |done| + 1 && Goes(env, states, steps) && before == states[..|before|]
    ensures steps == done + [Redistribute({e})]
    ensures e.key !in states[|steps|].stored
    ensures forall o :: o in Apply(env, before[|done|], steps[|done|]).out ==> o.Gossip? && o.to == e.to
  {
    var s := before[|done|];
    PassOne(s, e);
    states, steps := RunPass(env, before, done, {e}, s, OnRedistribute(s, {e}).server);
  }

  lemma PassSilently(s: Server, e: Errand)
    requires s.joinGossip == {e} && Readout(s, e.key).None? && Enabled(s, Redistribute({e}))
    ensures OnRedistribute(s, {e}).out == NO_OUTPUT
  {
    forall o ensures o !in SendGossip(s, {e}) {
    }
    assert SendGossip(s, {e}) == NO_OUTPUT;
  }

  lemma BlankReads(near: Address, far: Address, key: Key, value: Value)
    requires !Readable(value)
    ensures Readout(GivingUp(near, far, key, value), key).None?
  {
  }

  /**
   * A write lost to a join: a thread accepts a value that reads as missing, a nearer server joins and becomes the only
   * one responsible, and the pass drops the key without sending anything.
   */
  lemma BlankDropped(near: Address, far: Address, key: Key, value: Value)
    returns (states: seq<Server>, steps: seq<Step>)
    requires |near| < |far| && !IsMetadata(key) && !Readable(value)
    ensures IsRun(EnvAt(far, 1), states, steps) && Init(states[0]) && |steps| == 4
    ensures Who(EnvAt(far, 1), states[3], key, [Memory]) == Some([ThreadOf(near)])
    ensures states[3].store == map[Slot(TypeOf(value), key) := value] && key in states[3].stored
    ensures key !in states[4].stored && Apply(EnvAt(far, 1), states[3], steps[3]).out == NO_OUTPUT
  {
    var e := Errand(ThreadOf(near), key);
    var before, done := RunGivesUp(near, far, key, value);
    NearOwns(near, far, before[3], key);
    states, steps := RunPasses(EnvAt(far, 1), before, done, e);
    BlankReads(near, far, key, value);
    PassOne(before[3], e);
    PassSilently(before[3], e);
    RunIsChain(EnvAt(far, 1), states, steps);
  }

  /** One replica more, in memory. */
  function Raised(key: Key): (r: Update) {
    Update(key, KeyReplication(map[Memory := 2], map[]))
  }

  lemma RaisedFactors(s: Server, key: Key)
    requires s.reps == map[key := FactorsFor(1)]
    ensures var reps := Learned(s, Raised(key)).reps;
            && key in reps && Factor(reps[key].global, Memory) == 2 && Factor(reps[key].local, Memory) == 1
            && Factor(reps[key].global, Disk) == 0
  {
    assert Memory in Raised(key).rep.global;
  }

  lemma BothOwn(near: Address, far: Address, s: Server, key: Key)
    requires |near| < |far| && !IsMetadata(key) && s.rings == Joined(near, far) && key in s.reps
    requires Factor(s.reps[key].global, Memory) == 2 && Factor(s.reps[key].local, Memory) == 1
    ensures Who(EnvAt(far, 1), s, key, [Memory]).Some? && ThreadOf(far) in Who(EnvAt(far, 1), s, key, [Memory]).value
    ensures ThreadOf(far) in InTier(HASHES, s.rings, s.reps[key], key, Memory)
  {
    TwoOwners(Node(|near|, near), Node(|far|, far), 2);
    assert [near, far][..2] == [near, far];
    WhoIs(EnvAt(far, 1), s, key, 2, [near, far]);
    OneOwner<nat>(Node(0, 0), 1);
  }

  lemma RaiseKeeps(near: Address, far: Address, key: Key, value: Value) returns (s': Server)
    requires |near| < |far| && !IsMetadata(key)
    ensures s' == OnChange(EnvAt(far, 1), GivingUp(near, far, key, value), [Raised(key)]).server
    ensures s'.joinGossip == {Errand(ThreadOf(near), key)} && s'.joinRemove == {key}
    ensures key in s'.stored && Mine(EnvAt(far, 1), s', key)
  {
    var s, env, u := GivingUp(near, far, key, value), EnvAt(far, 1), Raised(key);
    var who := Everywhere(env.hs, env.defaults);
    RaisedFactors(s, key);
    BothOwn(near, far, Learned(s, u), key);
    FarEverywhere(near, far, Learned(s, u), key);
    RaiseStays(env.self, who, s, u);
    s' := OnChange(env, s, [u]).server;
    BothOwn(near, far, s', key);
  }

  lemma FarEverywhere(near: Address, far: Address, s: Server, key: Key)
    requires !IsMetadata(key) && key in s.reps && ThreadOf(far) in InTier(HASHES, s.rings, s.reps[key], key, Memory)
    ensures var who := Everywhere(HASHES, EnvAt(far, 1).defaults)(s, key); who.Some? && ThreadOf(far) in who.value
  {
    EverywhereIs(HASHES, EnvAt(far, 1).defaults, s, key, InTier(HASHES, s.rings, s.reps[key], key, Memory),
                 InTier(HASHES, s.rings, s.reps[key], key, Disk));
  }

  /** An update under which the thread is responsible leaves everything but the factors in place. */
  lemma RaiseStays(self: ServerThread, who: Oracle, s: Server, u: Update)
    requires who(Learned(s, u), u.key).Some? && self in who(Learned(s, u), u.key).value
    ensures var s' := ChangeWith(self, who, s, [u]).server;
            && s'.joinGossip == s.joinGossip && s'.joinRemove == s.joinRemove && s'.stored == s.stored
            && s'.rings == s.rings && s'.reps == Learned(s, u).reps
  {
    assert [u][..0] == [];
    assert ChangeAll(self, who, s, []) == (s, NO_PLAN);
    var (s1, plan) := ChangeAll(self, who, s, [u]);
    assert s1 == Learned(s, u) && plan.removed == {};
    assert s.stored - {} == s.stored;
  }

  /**
   * A key dropped although its factor was raised: the thread is responsible again, and the pass drops the key all the
   * same.
   */
  lemma RaisedFactor(near: Address, far: Address, key: Key, value: Value)
    returns (states: seq<Server>, steps: seq<Step>)
    requires |near| < |far| && !IsMetadata(key)
    ensures IsRun(EnvAt(far, 1), states, steps) && Init(states[0]) && |steps| == 5
    ensures steps[3] == Change([Raised(key)]) && Mine(EnvAt(far, 1), states[4], key)
    ensures key in states[4].stored && key !in states[5].stored
  {
    var s4 := RaiseKeeps(near, far, key, value);
    var before, done := RunRaises(near, far, key, value, [Raised(key)], s4);
    states, steps := RunPasses(EnvAt(far, 1), before, done, Errand(ThreadOf(near), key));
    RunIsChain(EnvAt(far, 1), states, steps);
  }

  lemma RunRaises(near: Address, far: Address, key: Key, value: Value, updates: seq<Update>, s': Server)
    returns (states: seq<Server>, steps: seq<Step>)
    requires |near| < |far| && !IsMetadata(key)
    requires s' == OnChange(EnvAt(far, 1), GivingUp(near, far, key, value), updates).server
    ensures Goes(EnvAt(far, 1), states, steps) && |states| == 5 && Init(states[0]) && states[4] == s'
    ensures steps[3] == Change(updates)
  {
    var before, done := RunGivesUp(near, far, key, value);
    states, steps := RunChanges(EnvAt(far, 1), before, done, updates, GivingUp(near, far, key, value), s');
  }

  // ---- a newcomer that is sent nothing ----------------------------------------------------------

  lemma RingLast(far: Address, last: Address, ring: HashRing<Address>)
    requires |far| < |last| && ring == Joined(far, last).global[Memory]
    ensures Remove(BY_LENGTH, ring, last) == Alone(far).global[Memory]
  {
    RemoveOnce(ring, last);
    LowerBoundIs(ring.nodes, |last|, 1);
    assert Erase(ring.nodes, |last|) == [Node(|far|, far)];
    assert ring.joinCounts - {last} == map[far := 0];
    assert ring.servers - {last} == map[far := 0].Keys;
  }

  lemma LastDeparts(far: Address, last: Address, s: Server, factor: nat)
    requires |far| < |last| && s.rings == Joined(far, last)
    ensures OnDepart(EnvAt(far, factor), s, Memory, last) == s.(rings := Alone(far))
  {
    var ring, alone := s.rings.global[Memory], Alone(far).global[Memory];
    RingLast(far, last, ring);
    assert s.rings.global[Memory := alone] == Alone(far).global;
  }

  lemma TwoReplicas(near: Address, far: Address, s: Server, key: Key)
    requires |near| < |far| && !IsMetadata(key) && s.rings == Joined(near, far) && s.reps == map[key := FactorsFor(2)]
    ensures var who := Who(EnvAt(far, 2), s, key, [Memory]);
            who.Some? && ThreadOf(near) in who.value && ThreadOf(far) in who.value
  {
    TwoOwners(Node(|near|, near), Node(|far|, far), 2);
    assert [near, far][..2] == [near, far];
    WhoIs(EnvAt(far, 2), s, key, 2, [near, far]);
  }

  lemma QueuesNothing(env: Env, s: Server, join: Membership.Join, key: Key, s1: Server)
    requires s.stored.Keys == {key} && s.joinGossip == {} && s.joinRemove == {} && join.count == 0
    requires s1 == Rejoined(env, s, join) && Mine(env, s1, key)
    ensures OnJoin(env, s, join).server == s1
  {
    assert JoinTargets(env, s1, join, key) == [] && !Leaves(env, s1, join, key);
    assert forall k :: k in s1.stored <==> k == key;
    assert JoinErrands(env, s1, join) == {} && (set k | k in s1.stored && Leaves(env, s1, join, k)) == {};
    assert {} + JoinErrands(env, s1, join) == {};
  }

  /** The run up to the departure that leaves a key with fewer servers than its factor asks for. */
  lemma RunShort(far: Address, last: Address, key: Key, value: Value) returns (states: seq<Server>, steps: seq<Step>)
    requires |far| < |last| && !IsMetadata(key)
    ensures Goes(EnvAt(far, 2), states, steps) && |states| == 4 && Init(states[0])
    ensures states[2] == Holding(Joined(far, last), key, value, 2) && states[3] == Holding(Alone(far), key, value, 2)
  {
    TwoOwners(Node(|far|, far), Node(|last|, last), 2);
    assert [far, last][..2] == [far, last];
    var before, done := RunStores(far, Joined(far, last), key, value, 2);
    LastDeparts(far, last, before[2], 2);
    states, steps := RunLoses(EnvAt(far, 2), before, done, Memory, last, before[2], Holding(Alone(far), key, value, 2));
  }

  /**
   * A newcomer that is sent nothing. Of the two servers that replicate a key one departs, and before the key is looked
   * up again another joins: it becomes responsible, and the remaining holder queues nothing for it.
   */
  lemma UnservedNewcomer(near: Address, far: Address, last: Address, key: Key, value: Value)
    returns (states: seq<Server>, steps: seq<Step>)
    requires |near| < |far| < |last| && !IsMetadata(key)
    ensures IsRun(EnvAt(far, 2), states, steps) && |states| == 5 && Init(states[0])
    ensures steps[3] == JoinIn(Membership.Join(Memory, near, 0)) && key in states[3].stored
    ensures var who := Who(EnvAt(far, 2), states[4], key, [Memory]);
            who.Some? && ThreadOf(near) in who.value && ThreadOf(far) in who.value
    ensures states[4].joinGossip == {} && states[4].joinRemove == {}
  {
    var s3, s4 := Holding(Alone(far), key, value, 2), Holding(Joined(near, far), key, value, 2);
    TwoReplicas(near, far, s4, key);
    states, steps := RunUnserved(near, far, last, key, value, s3, s4);
    RunIsChain(EnvAt(far, 2), states, steps);
  }

  lemma RunUnserved(near: Address, far: Address, last: Address, key: Key, value: Value, s3: Server, s4: Server)
    returns (states: seq<Server>, steps: seq<Step>)
    requires |near| < |far| < |last| && !IsMetadata(key)
    requires s3 == Holding(Alone(far), key, value, 2) && s4 == Holding(Joined(near, far), key, value, 2)
    ensures Goes(EnvAt(far, 2), states, steps) && |states| == 5 && Init(states[0]) && states[3] == s3 && states[4] == s4
    ensures steps[3] == JoinIn(Membership.Join(Memory, near, 0))
  {
    var before, done := RunShort(far, last, key, value);
    JoinsUnnoticed(near, far, key, value, s3, s4);
    states, steps := RunJoins(EnvAt(far, 2), before, done, Membership.Join(Memory, near, 0), s3, s4);
  }

  lemma JoinsUnnoticed(near: Address, far: Address, key: Key, value: Value, s3: Server, s4: Server)
    requires |near| < |far| && !IsMetadata(key)
    requires s3 == Holding(Alone(far), key, value, 2) && s4 == Holding(Joined(near, far), key, value, 2)
    ensures OnJoin(EnvAt(far, 2), s3, Membership.Join(Memory, near, 0)).server == s4
  {
    RingsJoin(near, far, s3, 2);
    TwoReplicas(near, far, s4, key);
    QueuesNothing(EnvAt(far, 2), s3, Membership.Join(Memory, near, 0), key, s4);
  }

  // ---- a request that is lost, and one that waits for nothing -----------------------------------

  const ASK := Header(GET, "client", "1")

  function AskFor(key: Key): (r: KeyTuple) {
    KeyTuple(key, NONE, LwwValue(Lww(0, "")), 0)
  }

  /** A fresh thread that was asked for a key whose factor it does not know. */
  function Asked(rings: Rings, key: Key): (r: Server) {
    StartAt(rings).(requests := map[key := [PendingRequest(ASK, NONE, LwwValue(Lww(0, "")))]])
  }

  lemma AsksAround(env: Env, rings: Rings, key: Key)
    requires !IsMetadata(key)
    ensures OnRequest(env, StartAt(rings), ASK, AskFor(key)) == Outcome(Asked(rings, key), [], multiset{Lookup(key)})
  {
    assert Who(env, StartAt(rings), key, [env.tier]).None?;
    assert [] + [PendingRequest(ASK, NONE, LwwValue(Lww(0, "")))] == [PendingRequest(ASK, NONE, LwwValue(Lww(0, "")))];
  }

  lemma RunAsks(env: Env, rings: Rings, key: Key) returns (states: seq<Server>, steps: seq<Step>)
    requires !IsMetadata(key)
    ensures Goes(env, states, steps) && Init(states[0]) && steps == [Request(ASK, AskFor(key))]
    ensures states == [StartAt(rings), Asked(rings, key)]
  {
    AsksAround(env, rings, key);
    states, steps := RunStart(env, StartAt(rings));
    states, steps := RunServes(env, states, steps, ASK, AskFor(key), StartAt(rings), Asked(rings, key));
  }

  lemma NothingLearned(env: Env, rings: Rings, key: Key)
    requires !IsMetadata(key)
    ensures OnFactor(env, Asked(rings, key), key, Found(NO_FACTORS))
         == Outcome(StartAt(rings), [], multiset{Lookup(key)})
  {
    var s := Asked(rings, key);
    assert Taught(env, s, key, Found(NO_FACTORS)) == s && Who(env, s, key, [env.tier]).None?;
    assert s.requests - {key} == map[];
    assert multiset{Lookup(key)} + NO_OUTPUT == multiset{Lookup(key)};
  }

  /**
   * A request that is lost: the lookup it waits for comes back without any factors, and it is neither answered nor
   * held.
   */
  lemma LostRequest(env: Env, rings: Rings, key: Key) returns (states: seq<Server>, steps: seq<Step>)
    requires !IsMetadata(key)
    ensures IsRun(env, states, steps) && Init(states[0])
    ensures steps == [Request(ASK, AskFor(key)), FactorIn(key, Found(NO_FACTORS))]
    ensures TotalReceived(steps, Ticket(ASK, key)) == 1
    ensures TotalAnswered(env, states, steps, 2, Ticket(ASK, key)) == 0
    ensures Held(states[2].requests, Ticket(ASK, key)) == 0
  {
    states, steps := RunAsks(env, rings, key);
    AsksAround(env, rings, key);
    NothingLearned(env, rings, key);
    states, steps := RunLearns(env, states, steps, key, Found(NO_FACTORS), Asked(rings, key), StartAt(rings));
    assert steps[..1] == [Request(ASK, AskFor(key))] && steps[..1][..0] == [];
    assert TotalReceived(steps[..1], Ticket(ASK, key)) == 1;
    TwoAnswers(env, states, steps, Ticket(ASK, key));
    RunIsChain(env, states, steps);
  }

  lemma TwoAnswers(env: Env, states: seq<Server>, steps: seq<Step>, t: Ticket)
    requires IsRun(env, states, steps) && |steps| == 2
    requires Apply(env, states[0], steps[0]).replies == [] && Apply(env, states[1], steps[1]).replies == []
    ensures TotalAnswered(env, states, steps, 2, t) == 0
  {
    assert TotalAnswered(env, states, steps, 1, t) == TotalAnswered(env, states, steps, 0, t) + 0;
  }

  /** The state after gossip about a key of unknown factor: it is kept back. */
  function KeptBack(rings: Rings, key: Key, value: Value): (r: Server) {
    StartAt(rings).(gossip := map[key := [value]])
  }

  lemma KeepsBack(env: Env, rings: Rings, key: Key, value: Value)
    requires !IsMetadata(key)
    ensures OnGossip(env, StartAt(rings), key, value) == Outcome(KeptBack(rings, key, value), [], multiset{Lookup(key)})
  {
    assert Who(env, StartAt(rings), key, [env.tier]).None?;
    assert [] + [value] == [value];
  }

  lemma GossipForgotten(env: Env, rings: Rings, key: Key, value: Value)
    requires !IsMetadata(key)
    ensures OnFactor(env, KeptBack(rings, key, value), key, Found(NO_FACTORS))
         == Outcome(StartAt(rings), [], multiset{Lookup(key)})
  {
    var s := KeptBack(rings, key, value);
    assert Taught(env, s, key, Found(NO_FACTORS)) == s && Who(env, s, key, [env.tier]).None?;
    assert s.gossip - {key} == map[];
    assert NO_OUTPUT + multiset{Lookup(key)} == multiset{Lookup(key)};
  }

  lemma HearsNext(env: Env, s: Server, key: Key, value: Value, next: Server)
    requires next == OnGossip(env, s, key, value).server
    ensures Leading(env)(s, GossipIn(key, value), next)
  {
    var step := GossipIn(key, value);
    assert Enabled(s, step) && Apply(env, s, step).server == next;
  }

  lemma RunKeepsBack(env: Env, rings: Rings, key: Key, value: Value) returns (states: seq<Server>, steps: seq<Step>)
    requires !IsMetadata(key)
    ensures Goes(env, states, steps) && Init(states[0]) && steps == [GossipIn(key, value)]
    ensures states == [StartAt(rings), KeptBack(rings, key, value)]
  {
    KeepsBack(env, rings, key, value);
    states, steps := RunStart(env, StartAt(rings));
    HearsNext(env, StartAt(rings), key, value, KeptBack(rings, key, value));
    states, steps := RunOn(env, states, steps, GossipIn(key, value), KeptBack(rings, key, value));
  }

  /**
   * Gossip that is lost: the lookup it waits for comes back without any factors, and it is neither merged, nor passed
   * on, nor kept.
   */
  lemma LostGossip(env: Env, rings: Rings, key: Key, value: Value) returns (states: seq<Server>, steps: seq<Step>)
    requires !IsMetadata(key)
    ensures IsRun(env, states, steps) && Init(states[0])
    ensures steps == [GossipIn(key, value), FactorIn(key, Found(NO_FACTORS))]
    ensures key in states[1].gossip && states[1].gossip[key] == [value]
    ensures states[2] == states[0] && Apply(env, states[1], steps[1]).out == multiset{Lookup(key)}
  {
    states, steps := RunKeepsBack(env, rings, key, value);
    GossipForgotten(env, rings, key, value);
    states, steps := RunLearns(env, states, steps, key, Found(NO_FACTORS), KeptBack(rings, key, value), StartAt(rings));
    RunIsChain(env, states, steps);
  }

  /** A request that waits for nothing: the only lookup for its key fails, and no other is under way. */
  lemma StrandedRequest(env: Env, rings: Rings, key: Key)
    returns (states: seq<Server>, steps: seq<Step>, bags: seq<multiset<Output>>)
    requires !IsMetadata(key)
    ensures IsRun(env, states, steps) && Init(states[0]) && steps == [Request(ASK, AskFor(key)), FactorIn(key, Failed)]
    ensures Tracks(env, states, steps, bags) && bags[0] == multiset{}
    ensures key in states[2].requests && bags[2] == multiset{} && !Awaited(states[2], bags[2])
  {
    states, steps := RunAsks(env, rings, key);
    AsksAround(env, rings, key);
    states, steps := RunLearns(env, states, steps, key, Failed, Asked(rings, key), Asked(rings, key));
    bags := [multiset{}, multiset{Lookup(key)}, multiset{}];
    assert multiset{} + multiset{Lookup(key)} == multiset{Lookup(key)};
    assert multiset{Lookup(key)} - multiset{Lookup(key)} + NO_OUTPUT == multiset{};
    RunIsChain(env, states, steps);
  }

  // ---- more keys than a pass sends --------------------------------------------------------------

  function KeyNamed(n: nat): (r: Key)
    ensures |r| == n && forall i :: 0 <= i < n ==> r[i] == 'k'
  {
    seq(n, _ => 'k')
  }

  function KeysUpTo(n: nat): (r: set<Key>) {
    if n == 0 then {} else KeysUpTo(n - 1) + {KeyNamed(n - 1)}
  }

  lemma {:induction false} KeysUpToSize(n: nat)
    ensures |KeysUpTo(n)| == n && forall k :: k in KeysUpTo(n) ==> |k| < n && k == KeyNamed(|k|)
  {
    if n > 0 {
      KeysUpToSize(n - 1);
      assert KeyNamed(n - 1) !in KeysUpTo(n - 1);
    }
  }

  lemma PlainName(n: nat)
    ensures !IsMetadata(KeyNamed(n))
  {
    assert FindFrom(KeyNamed(n), 0) == -1;
    assert IDENTIFIER[0] == 'A';
  }

  /** A thread alone in its tier that has stored the first `n` keys and has nothing else to do. */
  ghost predicate Loaded(s: Server, far: Address, n: nat) {
    && s.rings == Alone(far) && s.requests == map[] && s.gossip == map[] && s.joinGossip == {} && s.joinRemove == {}
    && s.stored.Keys == KeysUpTo(n) && s.reps.Keys == KeysUpTo(n)
    && (forall k :: k in s.reps ==> s.reps[k] == FactorsFor(1))
    && (forall slot :: slot in s.store ==> slot.key in KeysUpTo(n))
  }

  lemma LoadedMore(s: Server, far: Address, n: nat, value: Value, s2: Server)
    requires Loaded(s, far, n)
    requires s2 == After(s.(reps := s.reps[KeyNamed(n) := FactorsFor(1)]), KeyNamed(n), value)
    ensures Loaded(s2, far, n + 1)
  {
    var keys := KeysUpTo(n);
    assert KeysUpTo(n + 1) == keys + {KeyNamed(n)};
    assert s2.stored.Keys == keys + {KeyNamed(n)} && s2.reps.Keys == keys + {KeyNamed(n)};
    forall slot | slot in s2.store ensures slot.key in keys + {KeyNamed(n)} {
      assert slot in s.store || slot == Slot(TypeOf(value), KeyNamed(n));
    }
  }

  lemma LoadServed(s: Server, far: Address, n: nat)
    requires s.rings == Alone(far) && KeyNamed(n) in s.reps && s.reps[KeyNamed(n)] == FactorsFor(1)
    ensures Mine(EnvAt(far, 1), s, KeyNamed(n))
  {
    PlainName(n);
    OneOwner(Node(|far|, far), 1);
    WhoIs(EnvAt(far, 1), s, KeyNamed(n), 1, [far]);
  }

  lemma LoadNext(s: Server, far: Address, n: nat, value: Value) returns (s1: Server, s2: Server)
    requires Loaded(s, far, n)
    ensures s1 == OnFactor(EnvAt(far, 1), s, KeyNamed(n), NotFound).server
    ensures s2 == OnRequest(EnvAt(far, 1), s1, PUT_NOW, PutOf(KeyNamed(n), value)).server && Loaded(s2, far, n + 1)
  {
    var env, key := EnvAt(far, 1), KeyNamed(n);
    KeysUpToSize(n);
    LearnsFactor(env, s, key);
    s1 := s.(reps := s.reps[key := FactorsFor(1)]);
    LoadServed(s1, far, n);
    AcceptsPut(env.self, s1, key, value, Who(env, s1, key, [env.tier]));
    s2 := After(s1, key, value);
    LoadedMore(s, far, n, value, s2);
  }

  lemma {:induction false} RunLoads(far: Address, value: Value, n: nat) returns (states: seq<Server>, steps: seq<Step>)
    ensures Goes(EnvAt(far, 1), states, steps) && Init(states[0]) && Loaded(states[|steps|], far, n)
    decreases n
  {
    if n == 0 {
      states, steps := RunStart(EnvAt(far, 1), StartAt(Alone(far)));
    } else {
      states, steps := RunLoads(far, value, n - 1);
      states, steps := RunLoadsOne(states, steps, far, value, n - 1);
    }
  }

  lemma RunLoadsOne(before: seq<Server>, done: seq<Step>, far: Address, value: Value, n: nat)
    returns (states: seq<Server>, steps: seq<Step>)
    requires Goes(EnvAt(far, 1), before, done) && Init(before[0]) && Loaded(before[|done|], far, n)
    ensures Goes(EnvAt(far, 1), states, steps) && Init(states[0]) && Loaded(states[|steps|], far, n + 1)
  {
    var s1, s2 := LoadNext(before[|done|], far, n, value);
    states, steps := RunLearns(EnvAt(far, 1), before, done, KeyNamed(n), NotFound, before[|done|], s1);
    states, steps := RunServes(EnvAt(far, 1), states, steps, PUT_NOW, PutOf(KeyNamed(n), value), s1, s2);
  }

  lemma KeyQueued(near: Address, far: Address, s: Server, k: Key)
    requires |near| < |far| && s.rings == Alone(far) && k == KeyNamed(|k|)
    requires k in s.stored && k in s.reps && s.reps[k] == FactorsFor(1)
    ensures var s' := OnJoin(EnvAt(far, 1), s, Membership.Join(Memory, near, 0)).server;
            Errand(ThreadOf(near), k) in s'.joinGossip && k in s'.joinRemove
  {
    var env, join, s1 := EnvAt(far, 1), Membership.Join(Memory, near, 0), s.(rings := Joined(near, far));
    PlainName(|k|);
    RingsJoin(near, far, s, 1);
    NearOwns(near, far, s1, k);
    QueuedExactly(env, s, join, k);
    assert ThreadOf(near) in [ThreadOf(near)];
    assert JoinTargets(env, s1, join, k) == [ThreadOf(near)];
  }

  lemma AllQueued(near: Address, far: Address, s: Server, n: nat, s': Server)
    requires |near| < |far| && Loaded(s, far, n)
    requires s' == OnJoin(EnvAt(far, 1), s, Membership.Join(Memory, near, 0)).server
    ensures forall k :: k in KeysUpTo(n) ==> Errand(ThreadOf(near), k) in s'.joinGossip && k in s'.joinRemove
    ensures s'.stored == s.stored && s'.joinRemove <= s'.stored.Keys
  {
    KeysUpToSize(n);
    JoinSameData(EnvAt(far, 1), s, Membership.Join(Memory, near, 0));
    forall k | k in KeysUpTo(n) ensures Errand(ThreadOf(near), k) in s'.joinGossip && k in s'.joinRemove {
      assert k in s.stored && k in s.reps;
      KeyQueued(near, far, s, k);
    }
  }

  lemma TooMany(queue: set<Errand>, t: ServerThread, n: nat)
    requires n > DATA_REDISTRIBUTE_THRESHOLD && forall k :: k in KeysUpTo(n) ==> Errand(t, k) in queue
    ensures Oversized(queue)
  {
    KeysUpToSize(n);
    SubsetSize(KeysUpTo(n), KeysFor(queue, t));
    assert Errand(t, KeyNamed(n - 1)) in queue;
  }

  lemma JoinStalls(near: Address, far: Address, s: Server, n: nat, s': Server)
    requires |near| < |far| && n > DATA_REDISTRIBUTE_THRESHOLD && Loaded(s, far, n)
    requires s' == OnJoin(EnvAt(far, 1), s, Membership.Join(Memory, near, 0)).server
    ensures Oversized(s'.joinGossip) && s'.joinRemove == s'.stored.Keys && |s'.joinRemove| == n
  {
    AllQueued(near, far, s, n, s');
    TooMany(s'.joinGossip, ThreadOf(near), n);
    AllDue(s'.joinRemove, s'.stored.Keys, n);
  }

  lemma AllDue(due: set<Key>, stored: set<Key>, n: nat)
    requires stored == KeysUpTo(n) && due <= stored && forall k :: k in KeysUpTo(n) ==> k in due
    ensures due == stored && |due| == n
  {
    KeysUpToSize(n);
  }

  /**
   * A queue that is never worked off: a thread that holds more keys than a pass sends gives them all up to a nearer
   * server, and by `OversizedNeverCleans` no pass will ever drop any of them.
   */
  lemma StalledQueue(near: Address, far: Address, value: Value, n: nat) returns (states: seq<Server>, steps: seq<Step>)
    requires |near| < |far| && n > DATA_REDISTRIBUTE_THRESHOLD
    ensures IsRun(EnvAt(far, 1), states, steps) && Init(states[0])
    ensures var s := states[|steps|]; Oversized(s.joinGossip) && s.joinRemove == s.stored.Keys && |s.joinRemove| == n
  {
    var before, done := RunLoads(far, value, n);
    var s, join := before[|done|], Membership.Join(Memory, near, 0);
    var s' := OnJoin(EnvAt(far, 1), s, join).server;
    JoinStalls(near, far, s, n, s');
    states, steps := RunJoins(EnvAt(far, 1), before, done, join, s, s');
    RunIsChain(EnvAt(far, 1), states, steps);
  }
}
