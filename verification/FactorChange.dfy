/** What a change of replication factors sends, and whom it reaches. */
module FactorChange {
  import opened Types
  import opened Walk
  import opened Ring
  import opened Metadata
  import opened Responsibility
  import opened Values
  import opened Server
  import opened Movement
  import opened ServerRuns

  predicate DistinctKeys(updates: seq<Update>) {
    forall i, j :: 0 <= i < j < |updates| ==> updates[i].key != updates[j].key
  }

  predicate SameFactors(s: Server, s': Server, key: Key) {
    && s'.rings == s.rings
    && (key in s'.reps <==> key in s.reps)
    && (key in s.reps ==> s'.reps[key] == s.reps[key])
  }

  /** Responsibility is known for metadata and keys with a factor, and decided by the rings and that factor. */
  ghost predicate Consistent(who: Oracle) {
    && (forall s, key :: Fits(s, key, who(s, key)))
    && (forall s, s', key :: SameFactors(s, s', key) ==> who(s', key) == who(s, key))
  }

  lemma EverywhereConsistent(hs: Hashes, defaults: Defaults)
    ensures Consistent(Everywhere(hs, defaults))
  {
    var who := Everywhere(hs, defaults);
    forall s, s', key | SameFactors(s, s', key) ensures who(s', key) == who(s, key) {
      if !IsMetadata(key) && key in s.reps {
        assert s'.reps[key] == s.reps[key];
      }
    }
  }

  ghost predicate Mentions(plan: Plan, key: Key) {
    key in plan.removed || exists t :: Errand(t, key) in plan.errands
  }

  /** An update of another key. */
  lemma OtherKeyTo(self: ServerThread, s: Server, plan: Plan, u: Update, before: Option<seq<ServerThread>>,
                   after: Option<seq<ServerThread>>, key: Key)
    requires u.key != key
    ensures var plan' := ChangeTo(self, s, plan, u, before, after);
            && (key in plan'.removed <==> key in plan.removed)
            && (forall t :: Errand(t, key) in plan'.errands <==> Errand(t, key) in plan.errands)
    ensures SameFactors(s, Learned(s, u), key)
  {
  }

  lemma {:induction false} OtherKeys(self: ServerThread, who: Oracle, s: Server, updates: seq<Update>, key: Key)
    requires forall u :: u in updates ==> u.key != key
    ensures SameFactors(s, ChangeAll(self, who, s, updates).0, key)
    ensures !Mentions(ChangeAll(self, who, s, updates).1, key)
  {
    if updates != [] {
      var front, u := updates[..|updates| - 1], updates[|updates| - 1];
      OtherKeys(self, who, s, front, key);
      var (s', plan) := ChangeAll(self, who, s, front);
      OtherKeyTo(self, s', plan, u, who(s', u.key), who(Learned(s', u), u.key), key);
    }
  }

  /** No listed factor is lower than it was. */
  ghost predicate NoneFalls(was: KeyReplication, now: KeyReplication) {
    && (forall tier :: tier in now.global ==> Factor(was.global, tier) <= now.global[tier])
    && (forall tier :: tier in now.local ==> Factor(was.local, tier) <= now.local[tier])
  }

  /**
   * Whom the update of a stored key is meant to reach from `self`: everyone responsible now when `self` no longer is,
   * and otherwise those newly responsible, if `self` was the first responsible thread and no listed factor falls.
   */
  ghost predicate MeantFor(self: ServerThread, s: Server, u: Update, was: seq<ServerThread>, now: seq<ServerThread>,
                           t: ServerThread) {
    t in now && (self !in now || (t !in was && was != [] && was[0] == self && NoneFalls(FactorsOf(s, u.key), u.rep)))
  }

  lemma OwnKeyTo(self: ServerThread, s: Server, plan: Plan, u: Update, before: Option<seq<ServerThread>>,
                 after: Option<seq<ServerThread>>)
    requires u.key in s.stored && before.Some? && after.Some? && !Mentions(plan, u.key)
    ensures var plan' := ChangeTo(self, s, plan, u, before, after);
            && (u.key in plan'.removed <==> self !in after.value)
            && (forall t :: Errand(t, u.key) in plan'.errands <==> MeantFor(self, s, u, before.value, after.value, t))
  {
  }

  /** What became of the key of `u`: its new factors, whether it goes, and whom it is sent to. */
  ghost predicate PlannedAs(self: ServerThread, s: Server, u: Update, was: seq<ServerThread>, now: seq<ServerThread>,
                            s': Server, plan: Plan) {
    && SameFactors(Learned(s, u), s', u.key)
    && (u.key in plan.removed <==> self !in now)
    && (forall t :: Errand(t, u.key) in plan.errands <==> MeantFor(self, s, u, was, now, t))
  }

  /** The update of the key itself, when those before it were of other keys. */
  lemma PlanLast(self: ServerThread, who: Oracle, s: Server, s1: Server, plan: Plan, u: Update, was: seq<ServerThread>,
                 now: seq<ServerThread>)
    requires Consistent(who) && SameFactors(s, s1, u.key) && s1.stored == s.stored && u.key in s.stored
    requires !Mentions(plan, u.key) && who(s, u.key) == Some(was) && who(Learned(s, u), u.key) == Some(now)
    ensures PlannedAs(self, s, u, was, now, Learned(s1, u),
                      ChangeTo(self, s1, plan, u, who(s1, u.key), who(Learned(s1, u), u.key)))
  {
    assert SameFactors(Learned(s, u), Learned(s1, u), u.key);
    OwnKeyTo(self, s1, plan, u, Some(was), Some(now));
    assert FactorsOf(s1, u.key) == FactorsOf(s, u.key);
  }

  /** An update of another key changes nothing about it. */
  lemma PlanMore(self: ServerThread, s: Server, u: Update, was: seq<ServerThread>, now: seq<ServerThread>, s1: Server,
                 plan: Plan, v: Update, before: Option<seq<ServerThread>>, after: Option<seq<ServerThread>>)
    requires PlannedAs(self, s, u, was, now, s1, plan) && v.key != u.key
    ensures PlannedAs(self, s, u, was, now, Learned(s1, v), ChangeTo(self, s1, plan, v, before, after))
  {
    OtherKeyTo(self, s1, plan, v, before, after, u.key);
  }

  /** What the whole message does to the key of its `i`-th update: only that update matters. */
  lemma {:induction false} PlanFor(self: ServerThread, who: Oracle, s: Server, updates: seq<Update>, i: nat,
                                   was: seq<ServerThread>, now: seq<ServerThread>)
    requires DistinctKeys(updates) && i < |updates| && updates[i].key in s.stored && Consistent(who)
    requires who(s, updates[i].key) == Some(was) && who(Learned(s, updates[i]), updates[i].key) == Some(now)
    ensures var (s', plan) := ChangeAll(self, who, s, updates);
            PlannedAs(self, s, updates[i], was, now, s', plan)
  {
    var u, last := updates[i], |updates| - 1;
    var front := updates[..last];
    var (s1, plan1) := ChangeAll(self, who, s, front);
    if i == last {
      OtherKeys(self, who, s, front, u.key);
      PlanLast(self, who, s, s1, plan1, u, was, now);
    } else {
      PlanFor(self, who, s, front, i, was, now);
      var v := updates[last];
      PlanMore(self, s, u, was, now, s1, plan1, v, who(s1, v.key), who(Learned(s1, v), v.key));
    }
  }

  /** While the updates are gone through only lookups are sent. */
  lemma {:induction false} NoGossipPlanned(self: ServerThread, who: Oracle, s: Server, updates: seq<Update>)
    ensures forall o :: o in ChangeAll(self, who, s, updates).1.out ==> o.Lookup?
  {
    if updates != [] {
      NoGossipPlanned(self, who, s, updates[..|updates| - 1]);
    }
  }

  lemma DroppedReads(s: Server, removed: set<Key>, key: Key)
    requires removed <= s.stored.Keys && key !in removed
    ensures Readout(DropAll(s, removed), key) == Readout(s, key)
  {
  }

  /** What is sent of a key is the value held, and it goes to the planned threads. */
  lemma SendsExactly(self: ServerThread, who: Oracle, s: Server, updates: seq<Update>, key: Key, t: ServerThread,
                     v: Value)
    ensures Gossip(t, key, v) in ChangeWith(self, who, s, updates).out
       <==> Errand(t, key) in ChangeAll(self, who, s, updates).1.errands && Readout(s, key) == Some(v)
  {
    var (s', plan) := ChangeAll(self, who, s, updates);
    NoGossipPlanned(self, who, s, updates);
    var o := Gossip(t, key, v);
    assert o in plan.out + SendGossip(s', plan.errands) <==> o in SendGossip(s', plan.errands);
    assert Readout(s', key) == Readout(s, key);
  }

  /**
   * What one thread holding the key of an update does with it, when the keys of the message are distinct. It keeps the
   * key exactly when it is responsible under the new factors, with the value it had; everything it sends of the key is
   * that value; and before dropping the key it sends the value, if it reads as present, to every thread responsible
   * now.
   */
  lemma HolderExactly(self: ServerThread, who: Oracle, s: Server, updates: seq<Update>, i: nat,
                      was: seq<ServerThread>, now: seq<ServerThread>)
    requires Consistent(who) && DistinctKeys(updates) && i < |updates| && updates[i].key in s.stored
    requires who(s, updates[i].key) == Some(was) && who(Learned(s, updates[i]), updates[i].key) == Some(now)
    ensures var u := updates[i];
            var r := ChangeWith(self, who, s, updates);
            && who(r.server, u.key) == Some(now)
            && (u.key in r.server.stored <==> self in now)
            && (u.key in r.server.changes <==> u.key in s.changes && self in now)
            && (self in now ==> Readout(r.server, u.key) == Readout(s, u.key))
            && (forall t, v :: Gossip(t, u.key, v) in r.out
                  <==> Readout(s, u.key) == Some(v) && MeantFor(self, s, u, was, now, t))
            && (self !in now && Readout(s, u.key).Some? ==>
                  forall t :: t in now ==> Gossip(t, u.key, Readout(s, u.key).value) in r.out)
  {
    var u := updates[i];
    var (s', plan) := ChangeAll(self, who, s, updates);
    var r := ChangeWith(self, who, s, updates);
    PlanFor(self, who, s, updates, i, was, now);
    assert SameFactors(Learned(s, u), r.server, u.key);
    if self in now { DroppedReads(s', plan.removed, u.key); }
    forall t, v
      ensures Gossip(t, u.key, v) in r.out <==> Readout(s, u.key) == Some(v) && MeantFor(self, s, u, was, now, t)
    {
      SendsExactly(self, who, s, updates, u.key, t, v);
    }
  }

  /** The handler, with responsibility decided by the rings of all tiers. */
  lemma ChangeHolderExactly(env: Env, s: Server, updates: seq<Update>, i: nat)
    requires Inv(s) && DistinctKeys(updates) && i < |updates| && updates[i].key in s.stored
    ensures var u, who := updates[i], Everywhere(env.hs, env.defaults);
            var was, now := who(s, u.key), who(Learned(s, u), u.key);
            var r := OnChange(env, s, updates);
            && was.Some? && now.Some? && who(r.server, u.key) == now
            && (u.key in r.server.stored <==> env.self in now.value)
            && (u.key in r.server.changes <==> u.key in s.changes && env.self in now.value)
            && (env.self in now.value ==> Readout(r.server, u.key) == Readout(s, u.key))
            && (forall t, v :: Gossip(t, u.key, v) in r.out
                  <==> Readout(s, u.key) == Some(v) && MeantFor(env.self, s, u, was.value, now.value, t))
            && (env.self !in now.value && Readout(s, u.key).Some? ==>
                  forall t :: t in now.value ==> Gossip(t, u.key, Readout(s, u.key).value) in r.out)
  {
    var u, who := updates[i], Everywhere(env.hs, env.defaults);
    EverywhereConsistent(env.hs, env.defaults);
    assert Fits(s, u.key, who(s, u.key)) && Fits(Learned(s, u), u.key, who(Learned(s, u), u.key));
    HolderExactly(env.self, who, s, updates, i, who(s, u.key).value, who(Learned(s, u), u.key).value);
  }

  /** A key that no update names stays as it was, and nothing is sent of it. */
  lemma UnlistedKept(env: Env, s: Server, updates: seq<Update>, key: Key)
    requires forall u :: u in updates ==> u.key != key
    ensures var r := OnChange(env, s, updates);
            && (key in r.server.stored <==> key in s.stored) && Val(r.server, key) == Val(s, key)
            && (key in r.server.changes <==> key in s.changes)
            && forall t, v :: Gossip(t, key, v) !in r.out
  {
    var who := Everywhere(env.hs, env.defaults);
    var (s', plan) := ChangeAll(env.self, who, s, updates);
    OtherKeys(env.self, who, s, updates, key);
    assert key !in plan.removed;
    forall t, v ensures Gossip(t, key, v) !in OnChange(env, s, updates).out {
      SendsExactly(env.self, who, s, updates, key, t, v);
    }
  }

  // ---- the whole cluster ------------------------------------------------------------------------

  /** Thread `w` sends the key to `t`. */
  ghost predicate SentBy(who: Oracle, state: ServerThread -> Server, updates: seq<Update>, key: Key, t: ServerThread,
                         w: ServerThread) {
    exists v :: Gossip(t, key, v) in ChangeWith(w, who, state(w), updates).out
  }

  /** All threads have the rings and the factors of `s`; those responsible for the key hold it and can read it. */
  ghost predicate Agreed(state: ServerThread -> Server, s: Server, key: Key, was: seq<ServerThread>) {
    && (forall w :: w in was ==> SameFactors(s, state(w), key))
    && (forall w :: w in was ==> key in state(w).stored && Readout(state(w), key).Some?)
  }

  lemma SentByExactly(who: Oracle, state: ServerThread -> Server, s: Server, updates: seq<Update>, i: nat,
                      was: seq<ServerThread>, now: seq<ServerThread>, t: ServerThread, w: ServerThread)
    requires Consistent(who) && DistinctKeys(updates) && i < |updates| && Agreed(state, s, updates[i].key, was)
    requires who(s, updates[i].key) == Some(was) && who(Learned(s, updates[i]), updates[i].key) == Some(now)
    requires w in was
    ensures SentBy(who, state, updates, updates[i].key, t, w) <==> MeantFor(w, s, updates[i], was, now, t)
  {
    var u, at := updates[i], state(w);
    assert SameFactors(s, at, u.key) && SameFactors(Learned(s, u), Learned(at, u), u.key);
    HolderExactly(w, who, at, updates, i, was, now);
    assert FactorsOf(at, u.key) == FactorsOf(s, u.key);
    var v := Readout(at, u.key).value;
    assert MeantFor(w, s, u, was, now, t) ==> Gossip(t, u.key, v) in ChangeWith(w, who, at, updates).out;
  }

  /**
   * With agreed rings and factors, and the key held by everyone responsible for it, a thread that becomes responsible
   * is sent the key by one of them exactly when no listed factor falls or some thread that was responsible no longer
   * is.
   */
  lemma NewOwnersCovered(who: Oracle, state: ServerThread -> Server, s: Server, updates: seq<Update>, i: nat,
                         was: seq<ServerThread>, now: seq<ServerThread>, t: ServerThread)
    requires Consistent(who) && DistinctKeys(updates) && i < |updates| && Agreed(state, s, updates[i].key, was)
    requires who(s, updates[i].key) == Some(was) && who(Learned(s, updates[i]), updates[i].key) == Some(now)
    requires was != [] && t in now && t !in was
    ensures (exists w :: w in was && SentBy(who, state, updates, updates[i].key, t, w))
       <==> NoneFalls(FactorsOf(s, updates[i].key), updates[i].rep) || exists w :: w in was && w !in now
  {
    var u := updates[i];
    forall w | w in was
      ensures SentBy(who, state, updates, u.key, t, w) <==> MeantFor(w, s, u, was, now, t)
    {
      SentByExactly(who, state, s, updates, i, was, now, t, w);
    }
    assert was[0] in was;
  }

  // ---- a new owner nobody sends to --------------------------------------------------------------

  /** Two memory servers, one thread each, and no disk tier. */
  const PAIR_RINGS := Rings(
    map[Memory := HashRing([Node(0, "a"), Node(1, "b")], {"a", "b"}, map["a" := 0, "b" := 0])],
    map[Memory := HashRing([Node(0, 0)], {0}, map[0 := 0])])

  const BEFORE := KeyReplication(map[Memory := 1, Disk := 1], map[Memory := 1])

  /** One memory replica more, and no longer one on disk, where there was none anyway. */
  const AFTER := KeyReplication(map[Memory := 2, Disk := 0], map[])

  const A := ServerThread("a", 0)
  const B := ServerThread("b", 0)

  lemma PairOwners(r: nat)
    requires 1 <= r <= 2
    ensures Owners(PAIR_RINGS.global[Memory].nodes, 0, r) == ["a", "b"][..r]
  {
    var nodes: seq<Node<Address>> := [Node(0, "a"), Node(1, "b")];
    assert LowerBound(nodes, 0) == 0;
    assert Met(nodes, 0) == ["a", "b"];
    PairDistinct();
  }

  lemma PairDistinct()
    ensures Distinct(["a", "b"]) == ["a", "b"]
  {
    assert ["a", "b"][..1] == ["a"] && ["a"][..0] == [];
    assert Distinct(["a"]) == ["a"];
  }

  lemma OnlyTid()
    ensures Owners(PAIR_RINGS.local[Memory].nodes, 0, 1) == [0]
  {
    var tids: seq<Node<nat>> := [Node(0, 0)];
    assert Met(tids, 0) == [0];
    assert [0][..0] == [];
    assert Distinct([0]) == [0];
  }

  lemma CrossPair(tids: seq<nat>)
    requires tids == [0]
    ensures Cross(["a"], tids) == [A] && Cross(["a", "b"], tids) == [A, B]
  {
    assert OnServer("a", tids) == [A] && OnServer("b", tids) == [B];
    assert ["a"][..0] == [] && Cross(["a"], tids) == [A];
    assert ["a", "b"][..1] == ["a"] && Cross(["a", "b"], tids) == Cross(["a"], tids) + [B];
  }

  lemma PairInMemory(hs: Hashes, rep: KeyReplication, key: Key, r: nat)
    requires hs.globalKey(key) == 0 && hs.localKey(key) == 0 && 1 <= r <= 2
    requires Factor(rep.global, Memory) == r && Factor(rep.local, Memory) == 1
    ensures InTier(hs, PAIR_RINGS, rep, key, Memory) == if r == 1 then [A] else [A, B]
  {
    PairOwners(r);
    OnlyTid();
    assert ["a", "b"][..1] == ["a"] && ["a", "b"][..2] == ["a", "b"];
    CrossPair(TidsFor(hs, PAIR_RINGS, key, Memory, 1));
  }

  lemma PairOnDisk(hs: Hashes, rep: KeyReplication, key: Key)
    ensures InTier(hs, PAIR_RINGS, rep, key, Disk) == []
  {
    assert GlobalNodes(PAIR_RINGS, Disk) == [];
    assert Met<Address>([], hs.globalKey(key)) == [];
  }

  lemma BothTiers(hs: Hashes, rings: Rings, rep: KeyReplication, key: Key)
    ensures InTiers(hs, rings, rep, key, ALL_TIERS)
         == InTier(hs, rings, rep, key, Memory) + InTier(hs, rings, rep, key, Disk)
  {
    CollectBoth(ByTier(hs, rings, rep, key));
  }

  lemma EverywhereKnows(hs: Hashes, defaults: Defaults, s: Server, key: Key, all: seq<ServerThread>)
    requires !IsMetadata(key) && key in s.reps && all == InTiers(hs, s.rings, s.reps[key], key, ALL_TIERS)
    ensures Everywhere(hs, defaults)(s, key) == Some(all)
  {
  }

  lemma EverywhereIs(hs: Hashes, defaults: Defaults, s: Server, key: Key, memory: seq<ServerThread>,
                     disk: seq<ServerThread>)
    requires !IsMetadata(key) && key in s.reps
    requires memory == InTier(hs, s.rings, s.reps[key], key, Memory)
    requires disk == InTier(hs, s.rings, s.reps[key], key, Disk)
    ensures Everywhere(hs, defaults)(s, key) == Some(memory + disk)
  {
    BothTiers(hs, s.rings, s.reps[key], key);
    EverywhereKnows(hs, defaults, s, key, memory + disk);
  }

  lemma PairThreads(hs: Hashes, defaults: Defaults, s: Server, key: Key, rep: KeyReplication)
    requires hs.globalKey(key) == 0 && hs.localKey(key) == 0 && !IsMetadata(key)
    requires s.rings == PAIR_RINGS && key in s.reps && s.reps[key] == rep
    requires 1 <= Factor(rep.global, Memory) <= 2 && Factor(rep.local, Memory) == 1
    ensures Everywhere(hs, defaults)(s, key) == Some(if Factor(rep.global, Memory) == 1 then [A] else [A, B])
  {
    PairInMemory(hs, rep, key, Factor(rep.global, Memory));
    PairOnDisk(hs, rep, key);
    MemoryOnly(hs, defaults, s, key, if Factor(rep.global, Memory) == 1 then [A] else [A, B]);
  }

  lemma AppendNothing(a: seq<ServerThread>, b: seq<ServerThread>)
    requires b == []
    ensures a + b == a
  {
  }

  lemma MemoryOnly(hs: Hashes, defaults: Defaults, s: Server, key: Key, memory: seq<ServerThread>)
    requires !IsMetadata(key) && key in s.reps
    requires InTier(hs, s.rings, s.reps[key], key, Memory) == memory
    requires InTier(hs, s.rings, s.reps[key], key, Disk) == []
    ensures Everywhere(hs, defaults)(s, key) == Some(memory)
  {
    var disk := InTier(hs, s.rings, s.reps[key], key, Disk);
    EverywhereIs(hs, defaults, s, key, memory, disk);
    AppendNothing(memory, disk);
  }

  /**
   * A message under which the second server becomes responsible and the first one, which stays so, sends it nothing.
   */
  lemma UncoveredNewOwner(hs: Hashes, defaults: Defaults, state: ServerThread -> Server, s: Server, key: Key)
    requires hs.globalKey(key) == 0 && hs.localKey(key) == 0 && !IsMetadata(key)
    requires s.rings == PAIR_RINGS && s.reps == map[key := BEFORE] && Agreed(state, s, key, [A])
    ensures var who, u := Everywhere(hs, defaults), Update(key, AFTER);
            && who(s, key) == Some([A]) && who(Learned(s, u), key) == Some([A, B])
            && !SentBy(who, state, [u], key, B, A)
  {
    var u := Update(key, AFTER);
    assert Memory in AFTER.global && AFTER != NO_FACTORS;
    PairThreads(hs, defaults, s, key, BEFORE);
    PairThreads(hs, defaults, Learned(s, u), key, Learned(s, u).reps[key]);
    EverywhereConsistent(hs, defaults);
    Uncovered(Everywhere(hs, defaults), state, s, u);
  }

  lemma Uncovered(who: Oracle, state: ServerThread -> Server, s: Server, u: Update)
    requires Consistent(who) && Agreed(state, s, u.key, [A])
    requires who(s, u.key) == Some([A]) && who(Learned(s, u), u.key) == Some([A, B])
    requires u.rep == AFTER && FactorsOf(s, u.key) == BEFORE
    ensures !SentBy(who, state, [u], u.key, B, A)
  {
    assert Disk in AFTER.global && AFTER.global[Disk] < Factor(BEFORE.global, Disk);
    NewOwnersCovered(who, state, s, [u], 0, [A], [A, B], B);
    assert A in [A];
  }

  // ---- keys due for removal ---------------------------------------------------------------------

  /** The thread stays responsible for every updated key that is due for removal. */
  ghost predicate KeepsQueued(self: ServerThread, who: Oracle, s: Server, updates: seq<Update>) {
    forall u :: u in updates && u.key in s.joinRemove ==>
      who(Learned(s, u), u.key).Some? && self in who(Learned(s, u), u.key).value
  }

  lemma RemovedFor(self: ServerThread, who: Oracle, s: Server, updates: seq<Update>, u: Update)
    requires Consistent(who) && Inv(s) && DistinctKeys(updates) && u in updates && u.key in s.stored
    ensures who(Learned(s, u), u.key).Some?
    ensures u.key in ChangeAll(self, who, s, updates).1.removed <==> self !in who(Learned(s, u), u.key).value
  {
    var i :| 0 <= i < |updates| && updates[i] == u;
    assert Fits(s, u.key, who(s, u.key)) && Fits(Learned(s, u), u.key, who(Learned(s, u), u.key));
    PlanFor(self, who, s, updates, i, who(s, u.key).value, who(Learned(s, u), u.key).value);
  }

  /**
   * After a message with distinct keys a redistribution pass can still clean up exactly when the thread stays
   * responsible for every updated key that is due for removal.
   */
  lemma RemovableAfterChange(self: ServerThread, who: Oracle, s: Server, updates: seq<Update>)
    requires Consistent(who) && Inv(s) && Removable(s) && DistinctKeys(updates)
    ensures Removable(ChangeWith(self, who, s, updates).server) <==> KeepsQueued(self, who, s, updates)
  {
    var removed := ChangeAll(self, who, s, updates).1.removed;
    forall u | u in updates && u.key in s.joinRemove
      ensures who(Learned(s, u), u.key).Some?
      ensures u.key in removed <==> self !in who(Learned(s, u), u.key).value
    {
      RemovedFor(self, who, s, updates, u);
    }
    forall k | k in s.joinRemove && k in removed ensures exists u :: u in updates && u.key == k {
      if forall u :: u in updates ==> u.key != k {
        OtherKeys(self, who, s, updates, k);
      }
    }
    assert ChangeWith(self, who, s, updates).server.stored.Keys == s.stored.Keys - removed;
  }

  /**
   * A step leaves a redistribution pass able to clean up exactly when it is no factor change, or one after which the
   * thread stays responsible for every updated key that is due for removal.
   */
  lemma RemovableExactly(env: Env, s: Server, step: Step)
    requires Enabled(s, step) && Inv(s) && Removable(s) && (step.Change? ==> DistinctKeys(step.updates))
    ensures Removable(Apply(env, s, step).server)
       <==> (step.Change? ==> KeepsQueued(env.self, Everywhere(env.hs, env.defaults), s, step.updates))
  {
    if step.Change? {
      EverywhereConsistent(env.hs, env.defaults);
      RemovableAfterChange(env.self, Everywhere(env.hs, env.defaults), s, step.updates);
    } else {
      RemovableStays(env, s, step);
    }
  }

  /** Taking every replica away is such a message: the next cleanup would look up a key that is no longer stored. */
  lemma ZeroFactorsBreakCleanup(env: Env, s: Server, key: Key)
    requires Inv(s) && Removable(s) && key in s.joinRemove && !IsMetadata(key)
    ensures !Removable(OnChange(env, s, [Update(key, KeyReplication(map[Memory := 0, Disk := 0], map[]))]).server)
  {
    var u := Update(key, KeyReplication(map[Memory := 0, Disk := 0], map[]));
    assert Memory in u.rep.global && u.rep != NO_FACTORS;
    NobodyAtZero(env.hs, env.defaults, Learned(s, u), key);
    EverywhereConsistent(env.hs, env.defaults);
    DropsQueued(env.self, Everywhere(env.hs, env.defaults), s, u);
  }

  lemma DropsQueued(self: ServerThread, who: Oracle, s: Server, u: Update)
    requires Consistent(who) && Inv(s) && Removable(s) && u.key in s.joinRemove
    requires who(Learned(s, u), u.key) == Some([])
    ensures !Removable(ChangeWith(self, who, s, [u]).server)
  {
    RemovableAfterChange(self, who, s, [u]);
    assert u in [u];
  }

  lemma NoneInTier(hs: Hashes, rings: Rings, rep: KeyReplication, key: Key, tier: Tier)
    requires Factor(rep.global, tier) == 0
    ensures InTier(hs, rings, rep, key, tier) == []
  {
    assert ServersFor(hs, rings, key, tier, 0) == [];
  }

  lemma NobodyAtZero(hs: Hashes, defaults: Defaults, s: Server, key: Key)
    requires !IsMetadata(key) && key in s.reps
    requires Factor(s.reps[key].global, Memory) == 0 && Factor(s.reps[key].global, Disk) == 0
    ensures Everywhere(hs, defaults)(s, key) == Some([])
  {
    NoneInTier(hs, s.rings, s.reps[key], key, Memory);
    NoneInTier(hs, s.rings, s.reps[key], key, Disk);
    var nobody: seq<ServerThread> := [];
    EverywhereIs(hs, defaults, s, key, nobody, nobody);
    assert nobody + nobody == nobody;
  }
}
