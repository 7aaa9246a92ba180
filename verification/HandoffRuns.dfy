/**
 * What becomes, along a run, of the keys a join made a thread give up: when they are sent, and when they are dropped.
 */
module HandoffRuns {
  import opened Types
  import opened Walk
  import opened Ring
  import opened Runs
  import opened Responsibility
  import opened Values
  import opened Server
  import opened Movement
  import opened ServerRuns
  import opened Handoff
  import opened FactorChange
  import Membership

  // ---- one pass ---------------------------------------------------------------------------------

  /** Some address has more keys queued than a pass sends. */
  ghost predicate Oversized(queue: set<Errand>) {
    exists e :: e in queue && |KeysFor(queue, e.to)| > DATA_REDISTRIBUTE_THRESHOLD
  }

  lemma GrowsOversized(a: set<Errand>, b: set<Errand>)
    requires a <= b && Oversized(a)
    ensures Oversized(b)
  {
    var e :| e in a && |KeysFor(a, e.to)| > DATA_REDISTRIBUTE_THRESHOLD;
    SubsetSize(KeysFor(a, e.to), KeysFor(b, e.to));
  }

  lemma LeavesOversized(queue: set<Errand>, batch: set<Errand>)
    requires IsBatch(queue, batch) && Oversized(queue)
    ensures Oversized(Leftover(queue, batch))
  {
    var left := Leftover(queue, batch);
    var e :| e in queue && |KeysFor(queue, e.to)| > DATA_REDISTRIBUTE_THRESHOLD;
    LeftoverExactly(queue, batch, e);
    forall k ensures k in KeysFor(left, e.to) <==> k in KeysFor(queue, e.to) {
      LeftoverExactly(queue, batch, Errand(e.to, k));
    }
    assert KeysFor(left, e.to) == KeysFor(queue, e.to);
  }

  /**
   * A pass over an oversized queue leaves it oversized and drops nothing; any other sends the whole queue and cleans
   * up.
   */
  lemma PassExactly(s: Server, batch: set<Errand>)
    requires Enabled(s, Redistribute(batch)) && s.joinGossip != {}
    ensures var s' := OnRedistribute(s, batch).server;
            if Oversized(s.joinGossip) then
              s' == s.(joinGossip := s'.joinGossip) && Oversized(s'.joinGossip)
            else
              && batch == s.joinGossip && s'.joinGossip == {} && s'.joinRemove == {}
              && s.joinRemove <= s.stored.Keys && s'.stored.Keys == s.stored.Keys - s.joinRemove
  {
    CleanupExactly(s, batch);
    if Oversized(s.joinGossip) {
      LeavesOversized(s.joinGossip, batch);
    } else {
      forall e | e in s.joinGossip ensures e in batch {
        LeftoverExactly(s.joinGossip, batch, e);
        DoneWasSent(s.joinGossip, batch, e);
      }
    }
  }

  /** This thread is responsible for the key. */
  ghost predicate Mine(env: Env, s: Server, key: Key) {
    var who := Who(env, s, key, [env.tier]);
    who.Some? && env.self in who.value
  }

  /**
   * A pass deletes a key its own thread is responsible for exactly when something is queued, no address is oversized,
   * and such a key is due for removal: nothing takes a key off that list when the thread becomes responsible again.
   */
  lemma OwnKeyDroppedExactly(env: Env, s: Server, batch: set<Errand>)
    requires Enabled(s, Redistribute(batch))
    ensures (exists key :: && Mine(env, s, key) && key in s.stored
                           && key !in Apply(env, s, Redistribute(batch)).server.stored)
       <==> s.joinGossip != {} && !Oversized(s.joinGossip) && exists key :: key in s.joinRemove && Mine(env, s, key)
  {
    if s.joinGossip != {} {
      PassExactly(s, batch);
      var s' := OnRedistribute(s, batch).server;
      if !Oversized(s.joinGossip) {
        assert forall key :: key in s'.stored <==> key in s.stored && key !in s.joinRemove;
      }
    }
  }

  // ---- one step ---------------------------------------------------------------------------------

  /** The steps that can change who is responsible for `key` other than by a join. */
  predicate Touches(env: Env, step: Step, key: Key) {
    match step
    case Depart(tier, _) => tier == DecidingTier(env.tier, key)
    case Change(updates) => exists u :: u in updates && u.key == key
    case FactorIn(k, reply) => k == key && (reply.Found? || reply.NotFound?)
    case _ => false
  }

  /**
   * Only a pass shortens the queue and the list of keys due for removal, and only a pass or a factor change drops
   * keys.
   */
  lemma QueueKept(env: Env, s: Server, step: Step)
    requires Enabled(s, step) && Inv(s) && !step.Redistribute?
    ensures var s' := Apply(env, s, step).server;
            && s.joinGossip <= s'.joinGossip && s.joinRemove <= s'.joinRemove
            && (!step.Change? ==> s.stored.Keys <= s'.stored.Keys)
  {
    match step
    case Request(header, t) =>
      RequestQueue(env.self, s, header, t, Who(env, s, t.key, [env.tier]));
      RequestKeeps(env.self, s, header, t, Who(env, s, t.key, [env.tier]));
    case GossipIn(key, value) =>
      GossipQueue(env.self, s, key, value, Who(env, s, key, [env.tier]));
      GossipKeeps(env.self, s, key, value, Who(env, s, key, [env.tier]));
    case FactorIn(key, reply) =>
      FactorQueue(env, s, key, reply);
      FactorKeeps(env, s, key, reply);
    case JoinIn(join) => JoinSameData(env, s, join);
    case _ =>
  }

  lemma OversizedStays(env: Env, s: Server, step: Step)
    requires Enabled(s, step) && Inv(s) && Oversized(s.joinGossip)
    ensures Oversized(Apply(env, s, step).server.joinGossip)
  {
    if step.Redistribute? {
      PassExactly(s, step.batch);
    } else {
      QueueKept(env, s, step);
      GrowsOversized(s.joinGossip, Apply(env, s, step).server.joinGossip);
    }
  }

  /** A factor change drops only keys it lists. */
  lemma ChangeDrops(env: Env, s: Server, updates: seq<Update>, key: Key)
    requires forall u :: u in updates ==> u.key != key
    ensures SameFactors(s, OnChange(env, s, updates).server, key)
    ensures key in s.stored ==> key in OnChange(env, s, updates).server.stored
  {
    OtherKeys(env.self, Everywhere(env.hs, env.defaults), s, updates, key);
  }

  /** A step that does not touch a stored key drops it only by cleaning up, when the key is due for removal. */
  lemma DroppedOnCleanup(env: Env, s: Server, step: Step, key: Key)
    requires Enabled(s, step) && Inv(s) && (step.Change? ==> !Touches(env, step, key))
    requires key in s.stored && key !in Apply(env, s, step).server.stored
    ensures step.Redistribute? && key in s.joinRemove && s.joinGossip != {} && !Oversized(s.joinGossip)
  {
    if step.Change? {
      ChangeDrops(env, s, step.updates, key);
    } else if step.Redistribute? {
      if s.joinGossip != {} { PassExactly(s, step.batch); }
    } else {
      QueueKept(env, s, step);
    }
  }

  // ---- the queue along a run --------------------------------------------------------------------

  lemma OversizedForGood(env: Env, states: seq<Server>, steps: seq<Step>, a: nat, i: nat)
    requires IsRun(env, states, steps) && a <= i < |states| && Inv(states[a]) && Oversized(states[a].joinGossip)
    ensures Oversized(states[i].joinGossip)
  {
    var inv := (s: Server) => Inv(s) && Oversized(s.joinGossip);
    forall s, step, s' | inv(s) && Leading(env)(s, step, s') ensures inv(s') {
      StepKeepsInv(env, s, step);
      OversizedStays(env, s, step);
    }
    RunIsChain(env, states, steps);
    InductFrom(Leading(env), inv, states, steps, a);
    assert inv(states[i]);
  }

  /** Once an address has too many keys queued, no later pass of the run drops anything. */
  lemma OversizedNeverCleans(env: Env, states: seq<Server>, steps: seq<Step>, a: nat, i: nat)
    requires IsRun(env, states, steps) && Init(states[0]) && a <= i < |steps| && Oversized(states[a].joinGossip)
    requires steps[i].Redistribute?
    ensures states[i + 1].stored == states[i].stored && states[i + 1].store == states[i].store
    ensures states[i + 1].joinRemove == states[i].joinRemove
  {
    RunKeepsInv(env, states, steps);
    OversizedForGood(env, states, steps, a, i);
    PassExactly(states[i], steps[i].batch);
  }

  /** `key` is due for removal at `a`, stays stored until `i`, and the step at `i` drops it without listing it. */
  ghost predicate DropsDue(env: Env, states: seq<Server>, steps: seq<Step>, a: nat, i: nat, key: Key) {
    && IsRun(env, states, steps) && Init(states[0]) && a <= i < |steps|
    && key in states[a].joinRemove && (forall m :: a <= m <= i ==> key in states[m].stored)
    && key !in states[i + 1].stored && (steps[i].Change? ==> !Touches(env, steps[i], key))
  }

  /**
   * While a key due for removal stays stored it stays due, the queue does not shrink and a pass finds nothing to do.
   */
  ghost predicate StaysDue(s: Server, step: Step, s': Server, key: Key) {
    key in s.joinRemove && key in s.stored && key in s'.stored ==>
      && key in s'.joinRemove && s.joinGossip <= s'.joinGossip
      && (step.Redistribute? ==> s.joinGossip == {})
  }

  lemma DueNext(env: Env, states: seq<Server>, steps: seq<Step>, m: nat, key: Key)
    requires IsRun(env, states, steps) && m < |steps| && Inv(states[m]) && !Oversized(states[m].joinGossip)
    ensures StaysDue(states[m], steps[m], states[m + 1], key)
  {
    if !steps[m].Redistribute? {
      QueueKept(env, states[m], steps[m]);
    } else if states[m].joinGossip != {} {
      PassExactly(states[m], steps[m].batch);
    }
  }

  /** The dropping step is a pass that cleans up; before it, */
  lemma DroppedByPass(env: Env, states: seq<Server>, steps: seq<Step>, a: nat, i: nat, key: Key)
    requires DropsDue(env, states, steps, a, i, key)
    ensures steps[i].Redistribute? && states[i].joinGossip != {} && !Oversized(states[i].joinGossip)
    ensures forall m :: 0 <= m < |states| ==> Inv(states[m])
  {
    RunKeepsInv(env, states, steps);
    DroppedOnCleanup(env, states[i], steps[i], key);
  }

  /** no pass finds anything to do, so nothing leaves the queue. */
  lemma NoPassBefore(env: Env, states: seq<Server>, steps: seq<Step>, a: nat, i: nat, key: Key)
    requires DropsDue(env, states, steps, a, i, key)
    ensures forall m :: a <= m < i ==> StaysDue(states[m], steps[m], states[m + 1], key)
  {
    DroppedByPass(env, states, steps, a, i, key);
    forall m | a <= m < i ensures StaysDue(states[m], steps[m], states[m + 1], key) {
      if Oversized(states[m].joinGossip) { OversizedForGood(env, states, steps, m, i); }
      DueNext(env, states, steps, m, key);
    }
  }

  lemma {:induction false} StaysQueued(states: seq<Server>, steps: seq<Step>, a: nat, i: nat, e: Errand)
    requires a <= i < |states| && |states| == |steps| + 1
    requires forall m :: a <= m < i ==> StaysDue(states[m], steps[m], states[m + 1], e.key)
    requires forall m :: a <= m <= i ==> e.key in states[m].stored
    requires e.key in states[a].joinRemove && e in states[a].joinGossip
    ensures e.key in states[i].joinRemove && e in states[i].joinGossip
  {
    if a < i {
      StaysQueued(states, steps, a, i - 1, e);
      assert StaysDue(states[i - 1], steps[i - 1], states[i - 1 + 1], e.key);
    }
  }

  /** The pass sends the key to `t` with exactly the value held, if that reads as present. */
  ghost predicate SendsHeld(s: Server, out: multiset<Output>, t: ServerThread, key: Key) {
    forall v :: Gossip(t, key, v) in out <==> Readout(s, key) == Some(v)
  }

  /**
   * In every run, joins included: when a key that was queued for an address and due for removal is dropped, other than
   * by a factor change that lists it, the dropping step is a pass that itself sends that address the value it drops, if
   * that reads as present, and nothing of the key otherwise.
   */
  lemma DroppedAfterSent(env: Env, states: seq<Server>, steps: seq<Step>, a: nat, i: nat, e: Errand)
    requires DropsDue(env, states, steps, a, i, e.key) && e in states[a].joinGossip
    ensures steps[i].Redistribute? && e in steps[i].batch
    ensures SendsHeld(states[i], Apply(env, states[i], steps[i]).out, e.to, e.key)
  {
    DroppedByPass(env, states, steps, a, i, e.key);
    NoPassBefore(env, states, steps, a, i, e.key);
    StaysQueued(states, steps, a, i, e);
    PassExactly(states[i], steps[i].batch);
    BatchSends(states[i], steps[i].batch, e);
  }

  lemma BatchSends(s: Server, batch: set<Errand>, e: Errand)
    requires Enabled(s, Redistribute(batch)) && s.joinGossip != {} && e in batch
    ensures SendsHeld(s, OnRedistribute(s, batch).out, e.to, e.key)
  {
    forall v ensures Gossip(e.to, e.key, v) in OnRedistribute(s, batch).out <==> Readout(s, e.key) == Some(v) {
      var o := Gossip(e.to, e.key, v);
      assert Errand(o.to, o.key) == e;
    }
  }

  // ---- responsibility along a run ---------------------------------------------------------------

  /** The ring that decides about the key is in order and has this thread's server on it. */
  ghost predicate OnRing(env: Env, s: Server, key: Key) {
    var ring := Membership.RingOf(s.rings.global, DecidingTier(env.tier, key));
    Sound(ring) && env.self.ip in ring.servers
  }

  /** The same ring decides, and the same threads are responsible. */
  ghost predicate SameView(env: Env, s: Server, s': Server, key: Key) {
    && Who(env, s', key, [env.tier]) == Who(env, s, key, [env.tier])
    && (OnRing(env, s, key) ==> OnRing(env, s', key))
  }

  lemma FactorsView(env: Env, s: Server, s': Server, key: Key)
    requires SameFactors(s, s', key)
    ensures SameView(env, s, s', key)
  {
  }

  lemma DepartRings(env: Env, s: Server, tier: Tier, ip: Address, other: Tier)
    requires other != tier
    ensures var s' := OnDepart(env, s, tier, ip);
            && Membership.RingOf(s'.rings.global, other) == Membership.RingOf(s.rings.global, other)
            && GlobalNodes(s'.rings, other) == GlobalNodes(s.rings, other)
  {
  }

  lemma DepartView(env: Env, s: Server, tier: Tier, ip: Address, key: Key)
    requires tier != DecidingTier(env.tier, key)
    ensures SameView(env, s, OnDepart(env, s, tier, ip), key)
  {
    DepartRings(env, s, tier, ip, DecidingTier(env.tier, key));
    TidsAfterDepart(env, s, tier, ip, key);
    SameOwnersSameWho(env, s, OnDepart(env, s, tier, ip), key);
  }

  lemma TidsAfterDepart(env: Env, s: Server, tier: Tier, ip: Address, key: Key)
    ensures TidsOf(env, OnDepart(env, s, tier, ip), key) == TidsOf(env, s, key)
  {
    var t := DecidingTier(env.tier, key);
    assert LocalNodes(OnDepart(env, s, tier, ip).rings, t) == LocalNodes(s.rings, t);
  }

  /** A step that is no join and does not touch the key. */
  lemma StepView(env: Env, s: Server, step: Step, key: Key)
    requires Enabled(s, step) && Inv(s) && !step.JoinIn? && !Touches(env, step, key)
    ensures SameView(env, s, Apply(env, s, step).server, key)
  {
    if step.Depart? {
      DepartView(env, s, step.tier, step.ip, key);
    } else {
      FactorsStay(env, s, step, key);
      FactorsView(env, s, Apply(env, s, step).server, key);
    }
  }

  lemma FactorsStay(env: Env, s: Server, step: Step, key: Key)
    requires Enabled(s, step) && Inv(s) && !step.JoinIn? && !step.Depart? && !Touches(env, step, key)
    ensures SameFactors(s, Apply(env, s, step).server, key)
  {
    match step
    case Request(header, t) => RequestQueue(env.self, s, header, t, Who(env, s, t.key, [env.tier]));
    case GossipIn(k, value) => GossipQueue(env.self, s, k, value, Who(env, s, k, [env.tier]));
    case FactorIn(k, reply) => FactorQueue(env, s, k, reply);
    case Change(updates) => ChangeDrops(env, s, updates, key);
    case _ =>
  }

  /** A join that puts a new server on the ring that decides about the key. */
  predicate Enters(env: Env, s: Server, join: Membership.Join, key: Key) {
    && join.tier == DecidingTier(env.tier, key)
    && join.ip !in Membership.RingOf(s.rings.global, join.tier).servers
  }

  /** Insertion makes nobody an owner but a new server, and leaves no key without owners. */
  lemma OwnersInserted(hash: Hash<Address>, ring: HashRing<Address>, ip: Address, count: nat, h: nat, r: nat)
    requires Sound(ring)
    ensures var ring' := Insert(hash, ring, ip, count).0;
            && Sound(ring') && ring.servers <= ring'.servers
            && (forall a :: a in Owners(ring'.nodes, h, r) ==>
                  a in Owners(ring.nodes, h, r) || (a == ip && ip !in ring.servers))
            && (Owners(ring.nodes, h, r) != [] ==> Owners(ring'.nodes, h, r) != [])
  {
    InsertKeepsSound(hash, ring, ip, count);
    if ip !in ring.servers {
      var was, now := Owners(ring.nodes, h, r), Owners(Place(hash, ring.nodes, ip, VIRTUAL_THREAD_NUM), h, r);
      var i := EntersRing(hash, ring, ip, h, r);
      if ip in now { DisplacedMembers(was, now, ip, i, |was| == r); }
    }
  }

  lemma DisplacedMembers(was: seq<Address>, now: seq<Address>, x: Address, i: nat, full: bool)
    requires Displaces(was, now, x, i, full)
    ensures forall a :: a in now ==> a in was || a == x
  {
  }

  /** A join on the ring that decides about the key. */
  lemma RejoinedHere(env: Env, s: Server, join: Membership.Join, key: Key)
    requires join.tier == DecidingTier(env.tier, key)
    ensures var s1, ring := Rejoined(env, s, join), Membership.RingOf(s.rings.global, join.tier);
            var ring' := Insert(env.hs.globalNode, ring, join.ip, join.count).0;
            && Membership.RingOf(s1.rings.global, join.tier) == ring'
            && OwnersOf(env, s, key) == Owners(ring.nodes, env.hs.globalKey(key), GlobalFactor(env, s, key))
            && OwnersOf(env, s1, key) == Owners(ring'.nodes, env.hs.globalKey(key), GlobalFactor(env, s, key))
  {
  }

  lemma OwnersView(env: Env, s: Server, join: Membership.Join, key: Key)
    requires OnRing(env, s, key)
    ensures OnRing(env, Rejoined(env, s, join), key)
    ensures forall a :: a in OwnersOf(env, Rejoined(env, s, join), key) ==>
              a in OwnersOf(env, s, key) || (a == join.ip && Enters(env, s, join, key))
    ensures OwnersOf(env, s, key) != [] ==> OwnersOf(env, Rejoined(env, s, join), key) != []
  {
    var tier := DecidingTier(env.tier, key);
    var ring := Membership.RingOf(s.rings.global, tier);
    if join.tier != tier {
      RejoinedElsewhere(env, s, join, tier);
    } else {
      OwnersInserted(env.hs.globalNode, ring, join.ip, join.count, env.hs.globalKey(key), GlobalFactor(env, s, key));
      RejoinedHere(env, s, join, key);
    }
  }

  /** A join makes nobody responsible but the newcomer. */
  lemma JoinView(env: Env, s: Server, join: Membership.Join, key: Key)
    requires OnRing(env, s, key)
    ensures var s1 := Rejoined(env, s, join);
            && OnRing(env, s1, key)
            && (Who(env, s1, key, [env.tier]).Some? <==> Who(env, s, key, [env.tier]).Some?)
            && (Who(env, s, key, [env.tier]).Some? ==>
                  forall t :: t in Who(env, s1, key, [env.tier]).value ==>
                    t in Who(env, s, key, [env.tier]).value || (t.ip == join.ip && Enters(env, s, join, key)))
  {
    OwnersView(env, s, join, key);
    TidsAfterJoin(env, s, join, key);
    if Who(env, s, key, [env.tier]).Some? {
      WhoInTier(env, s, key);
      WhoInTier(env, Rejoined(env, s, join), key);
    }
  }

  lemma SomeOwnerThread(env: Env, s: Server, key: Key, tid: nat)
    requires Who(env, s, key, [env.tier]).Some? && OwnersOf(env, s, key) != [] && tid in TidsOf(env, s, key)
    ensures Who(env, s, key, [env.tier]).value != []
  {
    WhoInTier(env, s, key);
    var owners := OwnersOf(env, s, key);
    var t := ServerThread(owners[0], tid);
    assert t.ip in owners && t in Who(env, s, key, [env.tier]).value;
  }

  /** A join leaves no key without responsible threads. */
  lemma SomebodyStays(env: Env, s: Server, join: Membership.Join, key: Key)
    requires OnRing(env, s, key) && Who(env, s, key, [env.tier]).Some? && Who(env, s, key, [env.tier]).value != []
    ensures var who := Who(env, Rejoined(env, s, join), key, [env.tier]); who.Some? && who.value != []
  {
    WhoInTier(env, s, key);
    var t := Who(env, s, key, [env.tier]).value[0];
    assert t.ip in OwnersOf(env, s, key) && t.tid in TidsOf(env, s, key);
    OwnersView(env, s, join, key);
    TidsAfterJoin(env, s, join, key);
    SomeOwnerThread(env, Rejoined(env, s, join), key, t.tid);
  }

  /**
   * A key the thread gave up becomes its own again only by a departure from the ring that decides about the key, or by
   * a change or a lookup of its factor.
   */
  lemma OnlyTheseRegain(env: Env, s: Server, step: Step, key: Key)
    requires Enabled(s, step) && Inv(s) && OnRing(env, s, key) && !Touches(env, step, key)
    ensures OnRing(env, Apply(env, s, step).server, key)
    ensures Mine(env, Apply(env, s, step).server, key) ==> Mine(env, s, key)
  {
    if step.JoinIn? {
      JoinView(env, s, step.join, key);
      JoinedView(env, s, step.join, key);
    } else {
      StepView(env, s, step, key);
    }
  }

  /** Queueing does not matter to who is responsible. */
  lemma JoinedView(env: Env, s: Server, join: Membership.Join, key: Key)
    ensures SameView(env, Rejoined(env, s, join), OnJoin(env, s, join).server, key)
  {
    FactorsView(env, Rejoined(env, s, join), OnJoin(env, s, join).server, key);
  }

  // ---- a join loses nothing, unless the key is touched ------------------------------------------

  /** The thread is not responsible for the key; others are, and it has the key queued for all of them. */
  ghost predicate Covered(env: Env, s: Server, key: Key) {
    && OnRing(env, s, key) && DecidingTier(env.tier, key) == env.tier
    && var who := Who(env, s, key, [env.tier]);
    && who.Some? && env.self !in who.value && who.value != []
    && forall t :: t in who.value ==> Errand(t, key) in s.joinGossip
  }

  lemma CoveredJoin(env: Env, s: Server, join: Membership.Join, key: Key)
    requires Covered(env, s, key) && key in s.stored
    ensures Covered(env, OnJoin(env, s, join).server, key)
  {
    var s1, s' := Rejoined(env, s, join), OnJoin(env, s, join).server;
    JoinView(env, s, join, key);
    SomebodyStays(env, s, join, key);
    JoinedView(env, s, join, key);
    var was, now := Who(env, s, key, [env.tier]).value, Who(env, s1, key, [env.tier]).value;
    forall t | t in now ensures Errand(t, key) in s'.joinGossip {
      if t in was { QueueGrows(env, s, join); } else { NewcomerQueued(env, s, join, key, t); }
    }
  }

  lemma QueueGrows(env: Env, s: Server, join: Membership.Join)
    ensures s.joinGossip <= OnJoin(env, s, join).server.joinGossip
  {
  }

  /** A thread of the newcomer that has become responsible has the key queued for it. */
  lemma NewcomerQueued(env: Env, s: Server, join: Membership.Join, key: Key, t: ServerThread)
    requires Enters(env, s, join, key) && join.tier == env.tier && key in s.stored && t.ip == join.ip
    requires var who := Who(env, Rejoined(env, s, join), key, [env.tier]);
             who.Some? && t in who.value && env.self !in who.value
    ensures Errand(t, key) in OnJoin(env, s, join).server.joinGossip
  {
    var s1 := Rejoined(env, s, join);
    TargetsNewcomer(env, s1, join, key, t, Who(env, s1, key, [env.tier]).value);
    QueuedExactly(env, s, join, key);
  }

  lemma TargetsNewcomer(env: Env, s: Server, join: Membership.Join, key: Key, t: ServerThread, who: seq<ServerThread>)
    requires Who(env, s, key, [env.tier]) == Some(who) && t in who && env.self !in who && t.ip == join.ip
    ensures t in JoinTargets(env, s, join, key)
  {
  }

  lemma CoveredStays(env: Env, s: Server, step: Step, key: Key)
    requires Enabled(s, step) && Inv(s) && Covered(env, s, key) && key in s.stored && !Touches(env, step, key)
    requires s.joinGossip <= Apply(env, s, step).server.joinGossip
    ensures Covered(env, Apply(env, s, step).server, key)
  {
    if step.JoinIn? {
      CoveredJoin(env, s, step.join, key);
    } else {
      StepView(env, s, step, key);
    }
  }

  /** While the key stays stored and the queue does not shrink, it stays covered. */
  ghost predicate StaysCovered(env: Env, s: Server, s': Server, key: Key) {
    Covered(env, s, key) && key in s.stored && s.joinGossip <= s'.joinGossip ==> Covered(env, s', key)
  }

  lemma CoveredNext(env: Env, states: seq<Server>, steps: seq<Step>, m: nat, key: Key)
    requires IsRun(env, states, steps) && m < |steps| && Inv(states[m]) && !Touches(env, steps[m], key)
    ensures StaysCovered(env, states[m], states[m + 1], key)
  {
    if Covered(env, states[m], key) && key in states[m].stored && states[m].joinGossip <= states[m + 1].joinGossip {
      CoveredStays(env, states[m], steps[m], key);
    }
  }

  /** From `a` to `i` the key stays stored, and no step touches it. */
  ghost predicate Untouched(env: Env, states: seq<Server>, steps: seq<Step>, a: nat, i: nat, key: Key)
    requires a <= i < |steps| < |states|
  {
    && (forall m :: a <= m <= i ==> key in states[m].stored)
    && (forall m :: a < m <= i ==> !Touches(env, steps[m], key))
  }

  /** Covered, and due for removal. */
  ghost predicate Waits(env: Env, s: Server, key: Key) {
    Covered(env, s, key) && key in s.joinRemove
  }

  lemma WaitsNext(env: Env, states: seq<Server>, steps: seq<Step>, a: nat, i: nat, m: nat, key: Key)
    requires DropsDue(env, states, steps, a, i, key) && a <= m < i && !Touches(env, steps[m], key)
    ensures Waits(env, states[m], key) ==> Waits(env, states[m + 1], key)
  {
    DroppedByPass(env, states, steps, a, i, key);
    NoPassBefore(env, states, steps, a, i, key);
    assert StaysDue(states[m], steps[m], states[m + 1], key);
    CoveredNext(env, states, steps, m, key);
  }

  lemma WaitsAlong(env: Env, states: seq<Server>, steps: seq<Step>, a: nat, i: nat, key: Key)
    requires DropsDue(env, states, steps, a, i, key) && forall m :: a <= m < i ==> !Touches(env, steps[m], key)
    requires Waits(env, states[a], key)
    ensures Waits(env, states[i], key)
  {
    var p := (m: nat) => m < |states| && Waits(env, states[m], key);
    forall m | a <= m < i && p(m) ensures p(m + 1) {
      WaitsNext(env, states, steps, a, i, m, key);
    }
    Along(p, a, i);
  }

  lemma HandoffCovers(env: Env, s: Server, join: Membership.Join, key: Key)
    requires FirstJoin(env, s, join) && key in s.stored && Mine(env, s, key) && Replaces(env, s, join, key, env.self.ip)
    ensures Covered(env, OnJoin(env, s, join).server, key) && key in OnJoin(env, s, join).server.joinRemove
  {
    var i := OwnersAfterJoin(env, s, join, key);
    if DecidingTier(env.tier, key) != env.tier { RejoinedElsewhere(env, s, join, DecidingTier(env.tier, key)); }
    WhoInTier(env, s, key);
    OwnerOnRing(env, s, key);
    JoinView(env, s, join, key);
    JoinedView(env, s, join, key);
    JoinHandoff(env, s, join, key);
  }

  lemma OwnerOnRing(env: Env, s: Server, key: Key)
    requires Sound(Membership.RingOf(s.rings.global, DecidingTier(env.tier, key)))
    requires env.self.ip in OwnersOf(env, s, key)
    ensures OnRing(env, s, key)
  {
    var ring := Membership.RingOf(s.rings.global, DecidingTier(env.tier, key));
    RankingMembers(ring.nodes, env.hs.globalKey(key), env.self.ip);
    if env.self.ip !in ring.servers { NotPresent(ring, env.self.ip); }
  }

  /**
   * A join loses nothing that reads as present. In any run in which a first join makes a holder give up a key: when the
   * key is dropped, and no departure from the deciding ring and no change or lookup of its factor has come in between,
   * the thread is still not responsible for it, others are, and the step that drops it sends every one of them the
   * value dropped, if that reads as present. `HandedOverExactly` says what this means for the value.
   */
  lemma JoinLosesNothing(env: Env, states: seq<Server>, steps: seq<Step>, a: nat, i: nat, key: Key)
    requires IsRun(env, states, steps) && Init(states[0]) && a < i < |steps| && steps[a].JoinIn?
    requires FirstJoin(env, states[a], steps[a].join) && Mine(env, states[a], key)
    requires Replaces(env, states[a], steps[a].join, key, env.self.ip)
    requires Untouched(env, states, steps, a, i, key) && key !in states[i + 1].stored
    ensures steps[i].Redistribute? && Who(env, states[i], key, [env.tier]).Some? && !Mine(env, states[i], key)
    ensures Who(env, states[i], key, [env.tier]).value != []
    ensures forall t :: t in Who(env, states[i], key, [env.tier]).value ==>
              SendsHeld(states[i], Apply(env, states[i], steps[i]).out, t, key)
  {
    RunJoins(env, states, steps, a);
    HandoffCovers(env, states[a], steps[a].join, key);
    DroppedByPass(env, states, steps, a + 1, i, key);
    WaitsAlong(env, states, steps, a + 1, i, key);
    CoveredSent(env, states, steps, i, key);
  }

  /** What the thread holds of a key reaches everybody in `who`, or nobody. */
  lemma HeldReaches(s: Server, out: multiset<Output>, who: seq<ServerThread>, key: Key)
    requires Exactly(s.stored, s.store) && key in s.stored && who != []
    requires forall t :: t in who ==> SendsHeld(s, out, t, key)
    ensures var slot := Slot(s.stored[key], key);
            && slot in s.store
            && ((forall t :: t in who ==> Gossip(t, key, s.store[slot]) in out) <==> Readable(s.store[slot]))
            && (!Readable(s.store[slot]) ==> forall t, v :: t in who ==> Gossip(t, key, v) !in out)
  {
    var slot := Slot(s.stored[key], key);
    assert slot in s.store;
    assert Readout(s, key) == if Readable(s.store[slot]) then Some(s.store[slot]) else None;
    assert who[0] in who;
  }

  /**
   * The value such a join makes a thread drop reaches the threads responsible for it exactly when it reads as present:
   * an empty string or set is dropped and sent to none of them.
   */
  lemma HandedOverExactly(env: Env, states: seq<Server>, steps: seq<Step>, a: nat, i: nat, key: Key)
    requires IsRun(env, states, steps) && Init(states[0]) && a < i < |steps| && steps[a].JoinIn?
    requires FirstJoin(env, states[a], steps[a].join) && Mine(env, states[a], key)
    requires Replaces(env, states[a], steps[a].join, key, env.self.ip)
    requires Untouched(env, states, steps, a, i, key) && key !in states[i + 1].stored
    ensures var s, who, out := states[i], Who(env, states[i], key, [env.tier]), Apply(env, states[i], steps[i]).out;
            var slot := Slot(s.stored[key], key);
            && who.Some? && slot in s.store
            && ((forall t :: t in who.value ==> Gossip(t, key, s.store[slot]) in out) <==> Readable(s.store[slot]))
            && (!Readable(s.store[slot]) ==> forall t, v :: t in who.value ==> Gossip(t, key, v) !in out)
  {
    JoinLosesNothing(env, states, steps, a, i, key);
    RunKeepsInv(env, states, steps);
    HeldReaches(states[i], Apply(env, states[i], steps[i]).out, Who(env, states[i], key, [env.tier]).value, key);
  }

  lemma CoveredSent(env: Env, states: seq<Server>, steps: seq<Step>, i: nat, key: Key)
    requires IsRun(env, states, steps) && i < |steps| && steps[i].Redistribute? && Covered(env, states[i], key)
    requires states[i].joinGossip != {} && !Oversized(states[i].joinGossip)
    ensures forall t :: t in Who(env, states[i], key, [env.tier]).value ==>
              SendsHeld(states[i], Apply(env, states[i], steps[i]).out, t, key)
  {
    PassExactly(states[i], steps[i].batch);
    forall t | t in Who(env, states[i], key, [env.tier]).value
      ensures SendsHeld(states[i], Apply(env, states[i], steps[i]).out, t, key)
    {
      BatchSends(states[i], steps[i].batch, Errand(t, key));
    }
  }

  lemma RunJoins(env: Env, states: seq<Server>, steps: seq<Step>, a: nat)
    requires IsRun(env, states, steps) && a < |steps| && steps[a].JoinIn?
    ensures states[a + 1] == OnJoin(env, states[a], steps[a].join).server
  {
    assert states[a + 1] == Apply(env, states[a], steps[a]).server;
  }

  // ---- a departure in between -------------------------------------------------------------------

  /** No node of the ring sits where the newcomer hashes to. */
  ghost predicate FreePositions(env: Env, s: Server, join: Membership.Join) {
    forall n :: n in Membership.RingOf(s.rings.global, join.tier).nodes ==>
      !HashesTo(env.hs.globalNode, join.ip, VIRTUAL_THREAD_NUM, n.pos)
  }

  /** The state after a server has joined and departed again. */
  function JoinedAndGone(env: Env, s: Server, join: Membership.Join): (r: Server) {
    OnDepart(env, OnJoin(env, s, join).server, join.tier, join.ip)
  }

  lemma GoneNodes(env: Env, s: Server, join: Membership.Join, tier: Tier)
    requires FirstJoin(env, s, join) && FreePositions(env, s, join)
    ensures GlobalNodes(JoinedAndGone(env, s, join).rings, tier) == GlobalNodes(s.rings, tier)
  {
    RemoveUndoesInsert(env.hs.globalNode, Membership.RingOf(s.rings.global, join.tier), join.ip, join.count);
    RingAfterJoin(env, s, join);
  }

  lemma GoneView(env: Env, s: Server, join: Membership.Join, key: Key)
    requires FirstJoin(env, s, join) && FreePositions(env, s, join)
    ensures Who(env, JoinedAndGone(env, s, join), key, [env.tier]) == Who(env, s, key, [env.tier])
  {
    var s1, s2 := OnJoin(env, s, join).server, JoinedAndGone(env, s, join);
    GoneNodes(env, s, join, DecidingTier(env.tier, key));
    TidsAfterJoin(env, s, join, key);
    TidsAfterDepart(env, s1, join.tier, join.ip, key);
    assert s2.reps == s.reps && s1.rings == Rejoined(env, s, join).rings;
    SameOwnersSameWho(env, s, s2, key);
  }

  lemma RingAfterJoin(env: Env, s: Server, join: Membership.Join)
    ensures Membership.RingOf(OnJoin(env, s, join).server.rings.global, join.tier)
         == Insert(env.hs.globalNode, Membership.RingOf(s.rings.global, join.tier), join.ip, join.count).0
    ensures forall tier :: tier != join.tier ==>
              GlobalNodes(OnJoin(env, s, join).server.rings, tier) == GlobalNodes(s.rings, tier)
  {
  }

  /**
   * When the newcomer departs again before the pass that cleans up, and its positions had been free, the thread is
   * responsible for the key as before, and yet the pass drops it.
   */
  lemma DepartureDropsOwnKey(env: Env, s: Server, join: Membership.Join, key: Key, batch: set<Errand>)
    requires FirstJoin(env, s, join) && FreePositions(env, s, join)
    requires key in s.stored && Mine(env, s, key) && Replaces(env, s, join, key, env.self.ip)
    requires Enabled(JoinedAndGone(env, s, join), Redistribute(batch))
    requires !Oversized(JoinedAndGone(env, s, join).joinGossip)
    ensures Mine(env, JoinedAndGone(env, s, join), key) && key in JoinedAndGone(env, s, join).stored
    ensures key !in Apply(env, JoinedAndGone(env, s, join), Redistribute(batch)).server.stored
  {
    var s2 := JoinedAndGone(env, s, join);
    GoneView(env, s, join, key);
    JoinHandoff(env, s, join, key);
    assert Errand(ServerThread(join.ip, env.self.tid), key) in s2.joinGossip;
    PassExactly(s2, batch);
  }
}
