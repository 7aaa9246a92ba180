/** A cluster of two replicas, and runs of it that leave them apart. */
module SmallNets {
  import opened Types
  import opened Ring
  import opened Runs
  import opened Metadata
  import opened Responsibility
  import opened Lattice
  import opened Values
  import opened Server
  import opened Movement
  import opened ServerRuns
  import opened GossipNet
  import opened GossipConvergence
  import opened SmallClusters
  import opened FactorChange
  import opened ConvergenceByType
  import TiedWrites

  /** Two memory servers that replicate every key, all of them last-writer-wins pairs. */
  function Pair(near: Address, far: Address): (r: Deployment) {
    Deployment(HASHES, Defaults(map[Memory := 2], 1), Joined(near, far), (w: ServerThread) => Memory,
               (k: Key) => FactorsFor(2), (k: Key) => LWW, (k: Key) => (v: Value) => v.LwwValue?)
  }

  /** A write of the empty string. */
  const EMPTY := LwwValue(Lww(1, ""))

  function FreshNet(near: Address, far: Address): (r: Net) {
    var s := StartAt(Joined(near, far));
    Net(map[ThreadOf(near) := s, ThreadOf(far) := s], multiset{}, {})
  }

  /** The far thread in a given state, after it has accepted the given writes. */
  function FarAt(near: Address, far: Address, s: Server, writes: set<GossipNet.Write>): (r: Net) {
    Net(map[ThreadOf(near) := StartAt(Joined(near, far)), ThreadOf(far) := s], multiset{}, writes)
  }

  lemma FarHandles(near: Address, far: Address, s: Server, writes: set<GossipNet.Write>, r: Outcome,
                   more: set<GossipNet.Write>)
    requires near != far && r.out == NO_OUTPUT
    ensures Handled(FarAt(near, far, s, writes), ThreadOf(far), r, more) == FarAt(near, far, r.server, writes + more)
  {
    var n := FarAt(near, far, s, writes);
    assert n.servers[ThreadOf(far) := r.server] == FarAt(near, far, r.server, writes).servers;
    assert n.bag + r.out == multiset{};
  }

  lemma BothReplicate(near: Address, far: Address, key: Key)
    requires |near| < |far| && !IsMetadata(key)
    ensures ThreadOf(near) in Replicas(Pair(near, far), key) && ThreadOf(far) in Replicas(Pair(near, far), key)
  {
    var d := Pair(near, far);
    TwoOwners(Node(|near|, near), Node(|far|, far), 2);
    assert [near, far][..2] == [near, far];
    OneOwner<nat>(Node(0, 0), 1);
    CrossMembers([near, far], [0], ThreadOf(near));
    CrossMembers([near, far], [0], ThreadOf(far));
    CollectBoth(ByTier(d.hs, d.rings, d.agreed(key), key));
  }

  lemma FarOwns(near: Address, far: Address)
    requires |near| < |far|
    ensures far in Owners(GlobalNodes(Joined(near, far), Memory), 0, 2)
  {
    TwoOwners(Node(|near|, near), Node(|far|, far), 2);
    assert [near, far][..2] == [near, far];
  }

  function Learnt(near: Address, far: Address, key: Key): (r: Server) {
    StartAt(Joined(near, far)).(reps := map[key := FactorsFor(2)])
  }

  lemma FarLearns(near: Address, far: Address, key: Key)
    requires near != far
    ensures OnFactor(EnvAt(far, 2), StartAt(Joined(near, far)), key, NotFound)
         == Outcome(Learnt(near, far, key), [], NO_OUTPUT)
    ensures Truthful(Pair(near, far), ThreadOf(far), StartAt(Joined(near, far)), key, NotFound)
    ensures AcceptedLater(Pair(near, far), ThreadOf(far), StartAt(Joined(near, far)), key, NotFound) == {}
  {
    LearnsFactor(EnvAt(far, 2), StartAt(Joined(near, far)), key);
  }

  lemma FarServes(near: Address, far: Address, key: Key, s1: Server)
    requires |near| < |far| && !IsMetadata(key) && s1 == Learnt(near, far, key)
    ensures OnRequest(EnvAt(far, 2), s1, PUT_NOW, PutOf(key, EMPTY))
         == Outcome(Holding(Joined(near, far), key, EMPTY, 2), [], NO_OUTPUT)
  {
    var env := EnvAt(far, 2);
    FarOwns(near, far);
    WhoIs(env, s1, key, 2, Owners(GlobalNodes(s1.rings, Memory), 0, 2));
    AcceptsPut(env.self, s1, key, EMPTY, Who(env, s1, key, [env.tier]));
    AfterIs(near, far, key, s1);
  }

  lemma AfterIs(near: Address, far: Address, key: Key, s1: Server)
    requires s1 == Learnt(near, far, key)
    ensures After(s1, key, EMPTY) == Holding(Joined(near, far), key, EMPTY, 2)
  {
  }

  lemma FarAccepts(near: Address, far: Address, key: Key, s1: Server)
    requires |near| < |far| && !IsMetadata(key) && s1 == Learnt(near, far, key)
    ensures AcceptedNow(Pair(near, far), ThreadOf(far), s1, PUT_NOW, PutOf(key, EMPTY)) == {GossipNet.Write(key, EMPTY)}
  {
    BothReplicate(near, far, key);
  }

  /** Its round sends nothing, as the empty string reads as a missing key. */
  lemma FarRound(near: Address, far: Address, key: Key, s: Server)
    requires s == Holding(Joined(near, far), key, EMPTY, 2)
    ensures OnRound(EnvAt(far, 2), s) == Outcome(s.(changes := {}), [], NO_OUTPUT)
  {
    var env := EnvAt(far, 2);
    assert Readout(s, key).None?;
    forall o ensures o !in SendGossip(s, RoundErrands(env, s)) {
    }
    assert Unknown(s, s.changes) == {};
    assert SendGossip(s, RoundErrands(env, s)) == NO_OUTPUT && Lookups(Unknown(s, s.changes)) == NO_OUTPUT;
  }

  /** What the thread goes through: it learns the factor, accepts the write, and has its round. */
  lemma FarGoesThrough(near: Address, far: Address, key: Key) returns (s1: Server, s2: Server, s3: Server)
    requires |near| < |far| && !IsMetadata(key)
    ensures OnFactor(EnvAt(far, 2), StartAt(Joined(near, far)), key, NotFound) == Outcome(s1, [], NO_OUTPUT)
    ensures OnRequest(EnvAt(far, 2), s1, PUT_NOW, PutOf(key, EMPTY)) == Outcome(s2, [], NO_OUTPUT)
    ensures AcceptedNow(Pair(near, far), ThreadOf(far), s1, PUT_NOW, PutOf(key, EMPTY)) == {GossipNet.Write(key, EMPTY)}
    ensures OnRound(EnvAt(far, 2), s2) == Outcome(s3, [], NO_OUTPUT) && s3.changes == {} && s3.gossip == map[]
  {
    s1, s2 := Learnt(near, far, key), Holding(Joined(near, far), key, EMPTY, 2);
    s3 := s2.(changes := {});
    FarLearns(near, far, key);
    FarServes(near, far, key, s1);
    FarAccepts(near, far, key, s1);
    FarRound(near, far, key, s2);
  }

  lemma StepLearns(near: Address, far: Address, key: Key, s1: Server)
    requires near != far
    requires OnFactor(EnvAt(far, 2), StartAt(Joined(near, far)), key, NotFound) == Outcome(s1, [], NO_OUTPUT)
    ensures var d, n, step := Pair(near, far), FreshNet(near, far), NetStep.Factor(ThreadOf(far), key, NotFound);
            Possible(d, n, step) && Next(d, n, step) == FarAt(near, far, s1, {})
  {
    FarLearns(near, far, key);
    var s0 := StartAt(Joined(near, far));
    FarHandles(near, far, s0, {}, OnFactor(EnvAt(far, 2), s0, key, NotFound), {});
    assert FreshNet(near, far) == FarAt(near, far, s0, {});
  }

  lemma FarWrites(near: Address, far: Address, s: Server, r: Outcome, writes: set<GossipNet.Write>, n: Net, n': Net)
    requires near != far && r.out == NO_OUTPUT
    requires n == FarAt(near, far, s, {}) && n' == FarAt(near, far, r.server, writes)
    ensures Handled(n, ThreadOf(far), r, writes) == n'
  {
    FarHandles(near, far, s, {}, r, writes);
    assert {} + writes == writes;
  }

  lemma FarPuts(near: Address, far: Address, header: Header, t: KeyTuple, s1: Server, s2: Server,
                writes: set<GossipNet.Write>, d: Deployment, n: Net, n': Net)
    requires near != far && d == Pair(near, far) && n == FarAt(near, far, s1, {}) && n' == FarAt(near, far, s2, writes)
    requires Proper(d, header, t.key, t.kind, t.payload)
    requires OnRequest(EnvAt(far, 2), s1, header, t) == Outcome(s2, [], NO_OUTPUT)
    requires AcceptedNow(d, ThreadOf(far), s1, header, t) == writes
    ensures Possible(d, n, Client(ThreadOf(far), header, t)) && Next(d, n, Client(ThreadOf(far), header, t)) == n'
  {
    var r := OnRequest(EnvAt(far, 2), s1, header, t);
    ClientNext(d, n, ThreadOf(far), header, t, r, writes);
    FarWrites(near, far, s1, r, writes, n, n');
  }

  lemma StepPuts(near: Address, far: Address, header: Header, t: KeyTuple, s1: Server, s2: Server,
                 writes: set<GossipNet.Write>)
    requires near != far && Proper(Pair(near, far), header, t.key, t.kind, t.payload)
    requires OnRequest(EnvAt(far, 2), s1, header, t) == Outcome(s2, [], NO_OUTPUT)
    requires AcceptedNow(Pair(near, far), ThreadOf(far), s1, header, t) == writes
    ensures var d, n, step := Pair(near, far), FarAt(near, far, s1, {}), Client(ThreadOf(far), header, t);
            Possible(d, n, step) && Next(d, n, step) == FarAt(near, far, s2, writes)
  {
    FarPuts(near, far, header, t, s1, s2, writes, Pair(near, far), FarAt(near, far, s1, {}),
            FarAt(near, far, s2, writes));
  }

  lemma StepRounds(near: Address, far: Address, s2: Server, s3: Server, writes: set<GossipNet.Write>)
    requires near != far && OnRound(EnvAt(far, 2), s2) == Outcome(s3, [], NO_OUTPUT)
    ensures var d, n, step := Pair(near, far), FarAt(near, far, s2, writes), Gossips(ThreadOf(far));
            Possible(d, n, step) && Next(d, n, step) == FarAt(near, far, s3, writes)
  {
    FarHandles(near, far, s2, writes, Outcome(s3, [], NO_OUTPUT), {});
    assert writes + {} == writes;
  }

  lemma FarQuiet(near: Address, far: Address, key: Key, s3: Server, n: Net)
    requires near != far && s3.changes == {} && s3.gossip == map[]
    requires n == FarAt(near, far, s3, {GossipNet.Write(key, EMPTY)})
    ensures Quiet(n, key) && AcceptedFor(n, key) == {EMPTY}
    ensures ThreadOf(near) in n.servers && Val(n.servers[ThreadOf(near)], key).None?
  {
  }

  lemma StartsFresh(near: Address, far: Address)
    ensures NetInit(Pair(near, far), FreshNet(near, far))
  {
  }

  lemma NetMore(d: Deployment, nets: seq<Net>, steps: seq<NetStep>, step: NetStep, next: Net)
    returns (nets': seq<Net>, steps': seq<NetStep>)
    requires IsNetRun(d, nets, steps) && Possible(d, nets[|steps|], step) && next == Next(d, nets[|steps|], step)
    ensures IsNetRun(d, nets', steps') && |nets'| == |nets| + 1 && nets'[0] == nets[0] && nets'[|nets|] == next
  {
    NetRunIsChain(d, nets, steps);
    Append(Moving(d), nets, steps, step, next);
    nets', steps' := nets + [next], steps + [step];
    NetRunIsChain(d, nets', steps');
  }

  lemma NetLearns(near: Address, far: Address, key: Key, s1: Server) returns (nets: seq<Net>, steps: seq<NetStep>)
    requires near != far
    requires OnFactor(EnvAt(far, 2), StartAt(Joined(near, far)), key, NotFound) == Outcome(s1, [], NO_OUTPUT)
    ensures IsNetRun(Pair(near, far), nets, steps) && |nets| == 2
    ensures nets[0] == FreshNet(near, far) && nets[1] == FarAt(near, far, s1, {})
  {
    StepLearns(near, far, key, s1);
    nets, steps := NetMore(Pair(near, far), [FreshNet(near, far)], [], NetStep.Factor(ThreadOf(far), key, NotFound),
                           FarAt(near, far, s1, {}));
  }

  lemma NetPuts(near: Address, far: Address, key: Key, s1: Server, s2: Server, writes: set<GossipNet.Write>)
    returns (nets: seq<Net>, steps: seq<NetStep>)
    requires near != far
    requires OnFactor(EnvAt(far, 2), StartAt(Joined(near, far)), key, NotFound) == Outcome(s1, [], NO_OUTPUT)
    requires OnRequest(EnvAt(far, 2), s1, PUT_NOW, PutOf(key, EMPTY)) == Outcome(s2, [], NO_OUTPUT)
    requires AcceptedNow(Pair(near, far), ThreadOf(far), s1, PUT_NOW, PutOf(key, EMPTY)) == writes
    ensures IsNetRun(Pair(near, far), nets, steps) && |nets| == 3
    ensures nets[0] == FreshNet(near, far) && nets[2] == FarAt(near, far, s2, writes)
  {
    nets, steps := NetLearns(near, far, key, s1);
    StepPuts(near, far, PUT_NOW, PutOf(key, EMPTY), s1, s2, writes);
    nets, steps := NetMore(Pair(near, far), nets, steps, Client(ThreadOf(far), PUT_NOW, PutOf(key, EMPTY)),
                           FarAt(near, far, s2, writes));
  }

  lemma NetRounds(near: Address, far: Address, before: seq<Net>, done: seq<NetStep>, s2: Server, s3: Server,
                  writes: set<GossipNet.Write>) returns (nets: seq<Net>, steps: seq<NetStep>)
    requires near != far && OnRound(EnvAt(far, 2), s2) == Outcome(s3, [], NO_OUTPUT)
    requires IsNetRun(Pair(near, far), before, done) && before[|done|] == FarAt(near, far, s2, writes)
    ensures IsNetRun(Pair(near, far), nets, steps) && |nets| == |before| + 1
    ensures nets[0] == before[0] && nets[|before|] == FarAt(near, far, s3, writes)
  {
    StepRounds(near, far, s2, s3, writes);
    nets, steps := NetMore(Pair(near, far), before, done, Gossips(ThreadOf(far)), FarAt(near, far, s3, writes));
  }

  /**
   * A write that is not passed on: one of two replicas accepts a write of the empty string and has its round; nothing
   * is under way any more, and the other replica holds nothing.
   */
  lemma EmptyWriteStays(near: Address, far: Address, key: Key) returns (nets: seq<Net>, steps: seq<NetStep>)
    requires |near| < |far| && !IsMetadata(key)
    ensures IsNetRun(Pair(near, far), nets, steps) && |nets| == 4 && NetInit(Pair(near, far), nets[0])
    ensures Quiet(nets[3], key) && AcceptedFor(nets[3], key) == {EMPTY}
    ensures ThreadOf(near) in Replicas(Pair(near, far), key) && ThreadOf(near) in nets[3].servers
    ensures Val(nets[3].servers[ThreadOf(near)], key).None?
  {
    var s1, s2, s3 := FarGoesThrough(near, far, key);
    var writes := {GossipNet.Write(key, EMPTY)};
    var before, done := NetPuts(near, far, key, s1, s2, writes);
    nets, steps := NetRounds(near, far, before, done, s2, s3, writes);
    StartsFresh(near, far);
    FarQuiet(near, far, key, s3, nets[3]);
    BothReplicate(near, far, key);
  }

  // ---- tied writes ------------------------------------------------------------------------------

  /** The same two servers, with writes that read as present. */
  function Writers(near: Address, far: Address): (r: Deployment) {
    Pair(near, far).(carrier := (k: Key) => PairsOf((a: Lww) => a.value != ""))
  }

  lemma WritersTiered(near: Address, far: Address)
    ensures Tiered(Writers(near, far))
  {
    var d := Writers(near, far);
    forall k, tier, t | t in ByTier(d.hs, d.rings, d.agreed(k), k)(tier) ensures d.tierOf(t) == tier {
      if tier == Disk { NoneInTier(d.hs, d.rings, d.agreed(k), k, tier); }
    }
  }

  lemma WritersSane(near: Address, far: Address)
    ensures Sane(Writers(near, far))
  {
    var d := Writers(near, far);
    WritersTiered(near, far);
    PairsMerge((a: Lww) => a.value != "");
    forall k ensures Joins(d, k) {
      PairsRaise((a: Lww) => a.value != "");
    }
  }

  lemma WritersReplicate(near: Address, far: Address, key: Key)
    requires |near| < |far| && !IsMetadata(key)
    ensures ThreadOf(near) in Replicas(Writers(near, far), key) && ThreadOf(far) in Replicas(Writers(near, far), key)
  {
    BothReplicate(near, far, key);
    assert Replicas(Writers(near, far), key) == Replicas(Pair(near, far), key);
  }

  lemma WritersCarry(near: Address, far: Address, key: Key, v: Value)
    requires v.LwwValue? && v.lww.value != ""
    ensures Writers(near, far).carrier(key)(v)
  {
  }

  /**
   * Replicas that stay apart: two writes with one timestamp are accepted, one at each of two servers, and in the end
   * nothing about the key is under way and each server holds the other's write.
   */
  lemma TiedReplicas(near: Address, far: Address, key: Key, stamp: nat, x: string, y: string)
    returns (nets: seq<Net>, steps: seq<NetStep>)
    requires |near| < |far| && !IsMetadata(key) && x != y && x != "" && y != ""
    ensures TiedWrites.HeldApart(Writers(near, far), nets, steps, key, ThreadOf(near), LwwValue(Lww(stamp, y)),
                                 ThreadOf(far), LwwValue(Lww(stamp, x)))
  {
    var a, b := LwwValue(Lww(stamp, x)), LwwValue(Lww(stamp, y));
    WritersCarry(near, far, key, a);
    WritersCarry(near, far, key, b);
    WritersSane(near, far);
    WritersReplicate(near, far, key);
    nets, steps := TiedWrites.TiedStamps(Writers(near, far), key, a, b, ThreadOf(near), ThreadOf(far));
  }
}
