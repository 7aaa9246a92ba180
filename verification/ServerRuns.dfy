/** Runs of one storage thread, and what holds in all their states. */
module ServerRuns {
  import opened Types
  import opened Ring
  import opened Metadata
  import opened Responsibility
  import opened Values
  import opened Server
  import opened Movement
  import opened Runs
  import Membership

  datatype Step =
    | Request(header: Header, tuple: KeyTuple)
    | GossipIn(key: Key, value: Value)
    | FactorIn(key: Key, reply: FactorReply)
    | Change(updates: seq<Update>)
    | JoinIn(join: Membership.Join)
    | Depart(tier: Tier, ip: Address)
    | Round
    | Redistribute(batch: set<Errand>)

  /** The one thing a step can demand: keys whose removal is due are still stored. */
  predicate Enabled(s: Server, step: Step) {
    match step
    case Redistribute(batch) =>
      && IsBatch(s.joinGossip, batch)
      && (s.joinGossip != {} && Leftover(s.joinGossip, batch) == {} ==> s.joinRemove <= s.stored.Keys)
    case _ => true
  }

  /** `node_depart_handler` as far as the rings go. */
  function OnDepart(env: Env, s: Server, tier: Tier, ip: Address): (r: Server) {
    s.(rings := s.rings.(global :=
      s.rings.global[tier := Remove(env.hs.globalNode, Membership.RingOf(s.rings.global, tier), ip)]))
  }

  function Apply(env: Env, s: Server, step: Step): (r: Outcome)
    requires Enabled(s, step)
  {
    match step
    case Request(header, tuple) => OnRequest(env, s, header, tuple)
    case GossipIn(key, value) => OnGossip(env, s, key, value)
    case FactorIn(key, reply) => OnFactor(env, s, key, reply)
    case Change(updates) => OnChange(env, s, updates)
    case JoinIn(join) => OnJoin(env, s, join)
    case Depart(tier, ip) => Outcome(OnDepart(env, s, tier, ip), [], NO_OUTPUT)
    case Round => OnRound(env, s)
    case Redistribute(batch) => OnRedistribute(s, batch)
  }

  /** What a step of the thread does. */
  function Leading(env: Env): (r: Relation<Server, Step>) {
    (s: Server, step: Step, s': Server) => Enabled(s, step) && s' == Apply(env, s, step).server
  }

  ghost predicate IsRun(env: Env, states: seq<Server>, steps: seq<Step>) {
    && |states| == |steps| + 1
    && forall i :: 0 <= i < |steps| ==>
         Enabled(states[i], steps[i]) && states[i + 1] == Apply(env, states[i], steps[i]).server
  }

  lemma RunIsChain(env: Env, states: seq<Server>, steps: seq<Step>)
    ensures IsRun(env, states, steps) <==> Chain(Leading(env), states, steps)
  {
    if Chain(Leading(env), states, steps) {
      forall i | 0 <= i < |steps|
        ensures Enabled(states[i], steps[i]) && states[i + 1] == Apply(env, states[i], steps[i]).server
      {
        assert Leading(env)(states[i], steps[i], states[i + 1]);
      }
    }
  }

  /** What `run` starts with, whatever the rings. */
  predicate Init(s: Server) {
    && s.reps == map[] && s.stored == map[] && s.store == map[] && s.requests == map[] && s.gossip == map[]
    && s.changes == {} && s.joinGossip == {} && s.joinRemove == {}
  }

  /** A thread that has just started. */
  function StartAt(rings: Rings): (r: Server) {
    Server(rings, map[], map[], map[], map[], map[], {}, {}, {})
  }

  // ---- the state invariant ----------------------------------------------------------------------

  /** The stores hold one value per stored key, in the store of its type, and nothing else. */
  ghost predicate Exactly(stored: map<Key, LatticeType>, store: map<Slot, Value>) {
    && (forall k :: k in stored ==> Slot(stored[k], k) in store)
    && (forall slot :: slot in store ==>
          && slot.kind != NONE && TypeOf(store[slot]) == slot.kind
          && slot.key in stored && stored[slot.key] == slot.kind)
  }

  ghost predicate Known(s: Server) {
    forall k :: k in s.stored ==> IsMetadata(k) || k in s.reps
  }

  ghost predicate PendingPlain(s: Server) {
    forall k :: k in s.requests || k in s.gossip ==> !IsMetadata(k)
  }

  ghost predicate Inv(s: Server) {
    Exactly(s.stored, s.store) && Known(s) && PendingPlain(s)
  }

  /** No stored key changes type; keys may come and go. */
  ghost predicate TypesStay(s: Server, s': Server) {
    forall k :: k in s.stored && k in s'.stored ==> s'.stored[k] == s.stored[k]
  }

  /** The only thing that happened is that values of `key` were merged. */
  ghost predicate Merged(s: Server, s': Server, key: Key) {
    && s' == s.(stored := s'.stored, store := s'.store, changes := s'.changes)
    && s.changes <= s'.changes <= s.changes + {key}
    && (forall k :: k in s.stored ==> k in s'.stored && s'.stored[k] == s.stored[k])
    && (forall k :: k in s'.stored ==> k in s.stored || k == key)
    && (forall slot :: slot in s.store ==> slot in s'.store)
    && (forall slot :: slot in s'.store && slot.key != key ==> slot in s.store && s'.store[slot] == s.store[slot])
    && Exactly(s'.stored, s'.store)
  }

  lemma PutExactly(s: Server, key: Key, kind: LatticeType, payload: Value)
    requires Exactly(s.stored, s.store) && Accepts(s, key, kind)
    ensures Exactly(s.stored[key := kind], Put(s, key, kind, payload).store)
    ensures key in s.stored ==> s.stored[key] == kind
  {
    var store := Put(s, key, kind, payload).store;
    assert key in s.stored ==> Slot(s.stored[key], key) in s.store;
    forall slot | slot in store
      ensures slot.kind != NONE && TypeOf(store[slot]) == slot.kind
      ensures slot.key in s.stored[key := kind] && s.stored[key := kind][slot.key] == slot.kind
    {
      assert slot == Slot(kind, key) || slot in s.store;
    }
  }

  lemma PutMerges(s: Server, key: Key, kind: LatticeType, payload: Value)
    requires Exactly(s.stored, s.store) && Accepts(s, key, kind)
    ensures Merged(s, Put(s, key, kind, payload), key)
    ensures Merged(s, Put(s, key, kind, payload).(changes := s.changes + {key}), key)
  {
    PutExactly(s, key, kind, payload);
  }

  lemma ServeMerges(s: Server, header: Header, key: Key, kind: LatticeType, payload: Value, invalidate: bool)
    requires Exactly(s.stored, s.store)
    ensures Merged(s, Serve(s, header, key, kind, payload, invalidate).0, key)
  {
    if header.kind == PUT && Accepts(s, key, kind) { PutMerges(s, key, kind, payload); }
  }

  lemma MergedTrans(a: Server, b: Server, c: Server, key: Key)
    requires Merged(a, b, key) && Merged(b, c, key)
    ensures Merged(a, c, key)
  {
  }

  lemma SettleMerges(s: Server, key: Key, p: PendingRequest, responsible: bool)
    requires Exactly(s.stored, s.store)
    ensures Merged(s, Settle(s, key, p, responsible).server, key)
  {
    if responsible && p.header.address == "" && p.header.kind == PUT && Accepts(s, key, p.kind) {
      PutMerges(s, key, p.kind, p.payload);
    } else if responsible && p.header.address != "" {
      ServeMerges(s, if p.header.kind == GET then p.header else p.header.(kind := PUT), key, p.kind, p.payload, false);
    }
  }

  lemma {:induction false} SettleAllMerges(s: Server, key: Key, ps: seq<PendingRequest>, responsible: bool)
    requires Exactly(s.stored, s.store)
    ensures Merged(s, SettleAll(s, key, ps, responsible).server, key)
  {
    if ps != [] {
      var before := SettleAll(s, key, ps[..|ps| - 1], responsible);
      SettleAllMerges(s, key, ps[..|ps| - 1], responsible);
      SettleMerges(before.server, key, ps[|ps| - 1], responsible);
      MergedTrans(s, before.server, Settle(before.server, key, ps[|ps| - 1], responsible).server, key);
    }
  }

  lemma {:induction false} AbsorbAllMerges(s: Server, key: Key, values: seq<Value>)
    requires Exactly(s.stored, s.store)
    ensures Merged(s, AbsorbAll(s, key, values), key)
  {
    if values != [] {
      var before := AbsorbAll(s, key, values[..|values| - 1]);
      var last := values[|values| - 1];
      AbsorbAllMerges(s, key, values[..|values| - 1]);
      if Accepts(before, key, TypeOf(last)) {
        PutMerges(before, key, TypeOf(last), last);
        MergedTrans(s, before, Put(before, key, TypeOf(last), last), key);
      }
    }
  }

  /** Merging values of a key whose factor is known, and dropping pending entries, keeps the invariant. */
  lemma MergedKeeps(s: Server, s': Server, key: Key, requests: map<Key, seq<PendingRequest>>,
                    gossip: map<Key, seq<Value>>)
    requires Inv(s) && Merged(s, s', key)
    requires IsMetadata(key) || key in s.reps
    requires requests.Keys <= s.requests.Keys && gossip.Keys <= s.gossip.Keys
    ensures Inv(s'.(requests := requests, gossip := gossip))
    ensures TypesStay(s, s'.(requests := requests, gossip := gossip))
  {
  }

  /** Responsibility is known exactly for metadata and for keys with a factor. */
  predicate Fits(s: Server, key: Key, who: Option<seq<ServerThread>>) {
    who.None? <==> !IsMetadata(key) && key !in s.reps
  }

  /** A usable reply is learned and what waited for it is served. */
  lemma OnFactorIs(env: Env, s: Server, key: Key, reply: FactorReply, s0: Server, who: Option<seq<ServerThread>>)
    requires (reply.Found? || reply.NotFound?) && s0 == Taught(env, s, key, reply)
    requires who == Who(env, s0, key, [env.tier])
    ensures OnFactor(env, s, key, reply) == Drain(env.self, s0, key, who)
  {
  }

  lemma RequestKeeps(self: ServerThread, s: Server, header: Header, t: KeyTuple, who: Option<seq<ServerThread>>)
    requires Inv(s) && Fits(s, t.key, who)
    ensures Inv(RequestAs(self, s, header, t, who).server) && TypesStay(s, RequestAs(self, s, header, t, who).server)
    ensures s.stored.Keys <= RequestAs(self, s, header, t, who).server.stored.Keys
    ensures RequestAs(self, s, header, t, who).server.joinRemove == s.joinRemove
  {
    if who.Some? && self in who.value {
      var invalidate := t.cacheSize > 0 && t.cacheSize != |who.value|;
      ServeMerges(s, header, t.key, t.kind, t.payload, invalidate);
      var s' := Serve(s, header, t.key, t.kind, t.payload, invalidate).0;
      MergedKeeps(s, s', t.key, s.requests, s.gossip);
    }
  }

  lemma AbsorbMerges(s: Server, key: Key, value: Value)
    requires Exactly(s.stored, s.store)
    ensures Merged(s, Absorb(s, key, value), key)
  {
    if Accepts(s, key, TypeOf(value)) { PutMerges(s, key, TypeOf(value), value); }
  }

  lemma GossipKeeps(self: ServerThread, s: Server, key: Key, value: Value, who: Option<seq<ServerThread>>)
    requires Inv(s) && Fits(s, key, who)
    ensures Inv(GossipAs(self, s, key, value, who).server) && TypesStay(s, GossipAs(self, s, key, value, who).server)
    ensures s.stored.Keys <= GossipAs(self, s, key, value, who).server.stored.Keys
    ensures GossipAs(self, s, key, value, who).server.joinRemove == s.joinRemove
  {
    if who.Some? && self in who.value {
      AbsorbMerges(s, key, value);
      MergedKeeps(s, Absorb(s, key, value), key, s.requests, s.gossip);
    }
  }

  lemma DrainRequestsKeeps(self: ServerThread, s: Server, key: Key, who: Option<seq<ServerThread>>)
    requires Inv(s) && Fits(s, key, who)
    ensures var s' := DrainRequests(self, s, key, who).server;
            Inv(s') && TypesStay(s, s') && s.stored.Keys <= s'.stored.Keys
            && s' == s.(stored := s'.stored, store := s'.store, changes := s'.changes, requests := s.requests - {key})
  {
    if key in s.requests && who.Some? {
      var done := SettleAll(s, key, s.requests[key], self in who.value);
      SettleAllMerges(s, key, s.requests[key], self in who.value);
      MergedKeeps(s, done.server, key, s.requests - {key}, s.gossip);
    }
  }

  lemma DrainGossipKeeps(self: ServerThread, s: Server, key: Key, who: Option<seq<ServerThread>>)
    requires Inv(s) && Fits(s, key, who)
    ensures var s' := DrainGossip(self, s, key, who).server;
            Inv(s') && TypesStay(s, s') && s.stored.Keys <= s'.stored.Keys
            && s' == s.(stored := s'.stored, store := s'.store, changes := s'.changes, gossip := s.gossip - {key})
  {
    if key in s.gossip && who.Some? && self in who.value {
      AbsorbAllMerges(s, key, s.gossip[key]);
      MergedKeeps(s, AbsorbAll(s, key, s.gossip[key]), key, s.requests, s.gossip - {key});
    }
  }

  lemma DrainKeeps(self: ServerThread, s: Server, key: Key, who: Option<seq<ServerThread>>)
    requires Inv(s) && Fits(s, key, who)
    ensures var s' := Drain(self, s, key, who).server;
            && Inv(s') && TypesStay(s, s') && s.stored.Keys <= s'.stored.Keys
            && s' == s.(stored := s'.stored, store := s'.store, changes := s'.changes,
                        requests := s.requests - {key}, gossip := s.gossip - {key})
  {
    DrainRequestsKeeps(self, s, key, who);
    DrainGossipKeeps(self, DrainRequests(self, s, key, who).server, key, who);
  }

  lemma FactorKeeps(env: Env, s: Server, key: Key, reply: FactorReply)
    requires Inv(s)
    ensures Inv(OnFactor(env, s, key, reply).server) && TypesStay(s, OnFactor(env, s, key, reply).server)
    ensures s.stored.Keys <= OnFactor(env, s, key, reply).server.stored.Keys
    ensures OnFactor(env, s, key, reply).server.joinRemove == s.joinRemove
  {
    if reply.Found? || reply.NotFound? {
      var s' := Taught(env, s, key, reply);
      var who := Who(env, s', key, [env.tier]);
      DrainKeeps(env.self, s', key, who);
    }
  }

  lemma DropAllKeeps(s: Server, keys: set<Key>)
    requires Inv(s) && keys <= s.stored.Keys
    ensures Inv(DropAll(s, keys)) && TypesStay(s, DropAll(s, keys))
  {
    var s' := DropAll(s, keys);
    forall k | k in s'.stored ensures Slot(s'.stored[k], k) in s'.store {
      assert Slot(s.stored[k], k) in s.store;
    }
    forall slot | slot in s'.store ensures slot.key in s'.stored && s'.stored[slot.key] == slot.kind {
      assert slot in s.store && Slot(s.stored[slot.key], slot.key) == slot;
    }
  }

  lemma ChangeKeeps(env: Env, s: Server, updates: seq<Update>)
    requires Inv(s)
    ensures Inv(OnChange(env, s, updates).server) && TypesStay(s, OnChange(env, s, updates).server)
  {
    var (s', plan) := ChangeAll(env.self, Everywhere(env.hs, env.defaults), s, updates);
    DropAllKeeps(s', plan.removed);
  }

  lemma RedistributeKeeps(s: Server, batch: set<Errand>)
    requires Inv(s) && Enabled(s, Redistribute(batch))
    ensures Inv(OnRedistribute(s, batch).server) && TypesStay(s, OnRedistribute(s, batch).server)
  {
    if s.joinGossip != {} && Leftover(s.joinGossip, batch) == {} {
      DropAllKeeps(s.(joinGossip := {}), s.joinRemove);
    }
  }

  /** Rings, change sets and queues do not matter for the invariant. */
  predicate SameData(s: Server, s': Server) {
    && s'.stored == s.stored && s'.store == s.store && s'.reps == s.reps
    && s'.requests == s.requests && s'.gossip == s.gossip
  }

  lemma JoinSameData(env: Env, s: Server, join: Membership.Join)
    ensures SameData(s, OnJoin(env, s, join).server)
    ensures OnJoin(env, s, join).server.joinRemove <= s.joinRemove + s.stored.Keys
  {
    JoinRemoves(env, s, join);
    JoinData(env, s, join, OnJoin(env, s, join).server);
  }

  lemma JoinData(env: Env, s: Server, join: Membership.Join, s': Server)
    requires s' == OnJoin(env, s, join).server
    ensures SameData(s, s')
  {
    var s1 := Rejoined(env, s, join);
    assert s' == s1.(joinGossip := s'.joinGossip, joinRemove := s'.joinRemove);
  }

  lemma JoinRemoves(env: Env, s: Server, join: Membership.Join)
    ensures OnJoin(env, s, join).server.joinRemove <= s.joinRemove + s.stored.Keys
  {
    var leaving := set k | k in s.stored && Leaves(env, Rejoined(env, s, join), join, k);
    assert leaving <= s.stored.Keys;
  }

  /** Every step of a storage thread keeps its invariant and the type of every key that stays stored. */
  lemma StepKeepsInv(env: Env, s: Server, step: Step)
    requires Enabled(s, step) && Inv(s)
    ensures Inv(Apply(env, s, step).server) && TypesStay(s, Apply(env, s, step).server)
  {
    match step
    case Request(header, tuple) => RequestKeeps(env.self, s, header, tuple, Who(env, s, tuple.key, [env.tier]));
    case GossipIn(key, value) => GossipKeeps(env.self, s, key, value, Who(env, s, key, [env.tier]));
    case FactorIn(key, reply) => FactorKeeps(env, s, key, reply);
    case Change(updates) => ChangeKeeps(env, s, updates);
    case JoinIn(join) => JoinSameData(env, s, join);
    case Redistribute(batch) => RedistributeKeeps(s, batch);
    case _ =>
  }

  /**
   * In every state of every run each stored key has a value of its own real type in the store of that type, stored
   * plain keys have a known factor, and only plain keys are pending.
   */
  lemma RunKeepsInv(env: Env, states: seq<Server>, steps: seq<Step>)
    requires IsRun(env, states, steps) && Init(states[0])
    ensures forall i :: 0 <= i < |states| ==> Inv(states[i])
    ensures forall i :: 0 <= i < |steps| ==> TypesStay(states[i], states[i + 1])
  {
    var inv := (s: Server) => Inv(s);
    forall s, step, s' | inv(s) && Leading(env)(s, step, s') ensures inv(s') {
      StepKeepsInv(env, s, step);
    }
    RunIsChain(env, states, steps);
    InductFrom(Leading(env), inv, states, steps, 0);
    forall i | 0 <= i < |steps| ensures TypesStay(states[i], states[i + 1]) {
      assert inv(states[i]);
      StepKeepsInv(env, states[i], steps[i]);
    }
  }

  /** The branch of the join handler that logs an impossible situation is never taken. */
  lemma JoinAlwaysKnows(env: Env, states: seq<Server>, steps: seq<Step>, join: Membership.Join)
    requires IsRun(env, states, steps) && Init(states[0])
    ensures forall i, key, tiers :: 0 <= i < |states| && key in states[i].stored ==>
              Who(env, Rejoined(env, states[i], join), key, tiers).Some?
  {
    RunKeepsInv(env, states, steps);
  }

  // ---- what handlers leave alone ----------------------------------------------------------------

  lemma PutQueue(s: Server, key: Key, kind: LatticeType, payload: Value)
    requires kind != NONE
    ensures var s' := Put(s, key, kind, payload);
            s'.joinGossip == s.joinGossip && s'.rings == s.rings && s'.reps == s.reps
  {
  }

  lemma ServeQueue(s: Server, header: Header, key: Key, kind: LatticeType, payload: Value, invalidate: bool)
    ensures var s' := Serve(s, header, key, kind, payload, invalidate).0;
            s'.joinGossip == s.joinGossip && s'.rings == s.rings && s'.reps == s.reps
  {
    if Accepts(s, key, kind) { PutQueue(s, key, kind, payload); }
  }

  lemma RequestQueue(self: ServerThread, s: Server, header: Header, t: KeyTuple, who: Option<seq<ServerThread>>)
    ensures var s' := RequestAs(self, s, header, t, who).server;
            s'.joinGossip == s.joinGossip && s'.rings == s.rings && s'.reps == s.reps
  {
    if who.Some? && self in who.value {
      ServeQueue(s, header, t.key, t.kind, t.payload, t.cacheSize > 0 && t.cacheSize != |who.value|);
    }
  }

  lemma AbsorbQueue(s: Server, key: Key, value: Value)
    ensures var s' := Absorb(s, key, value); s'.joinGossip == s.joinGossip && s'.rings == s.rings && s'.reps == s.reps
  {
    PutQueue(s, key, TypeOf(value), value);
  }

  lemma GossipQueue(self: ServerThread, s: Server, key: Key, value: Value, who: Option<seq<ServerThread>>)
    ensures var s' := GossipAs(self, s, key, value, who).server;
            s'.joinGossip == s.joinGossip && s'.rings == s.rings && s'.reps == s.reps
  {
    AbsorbQueue(s, key, value);
  }

  lemma FactorQueue(env: Env, s: Server, key: Key, reply: FactorReply)
    requires Inv(s)
    ensures var s' := OnFactor(env, s, key, reply).server;
            && s'.joinGossip == s.joinGossip && s'.rings == s.rings
            && s'.reps == if reply.Found? || reply.NotFound? then Taught(env, s, key, reply).reps else s.reps
  {
    if reply.Found? || reply.NotFound? {
      var s' := Taught(env, s, key, reply);
      DrainKeeps(env.self, s', key, Who(env, s', key, [env.tier]));
    }
  }

  /** Settling requests sends nothing to other threads. */
  lemma {:induction false} SettleAllSilent(s: Server, key: Key, ps: seq<PendingRequest>, responsible: bool)
    ensures SettleAll(s, key, ps, responsible).out == NO_OUTPUT
    ensures SettleAll(s, key, ps, responsible).server.gossip == s.gossip
  {
    if ps != [] {
      SettleAllSilent(s, key, ps[..|ps| - 1], responsible);
    }
  }

  // ---- keys due for removal ---------------------------------------------------------------------

  /** What a redistribution pass needs before it may clean up. */
  ghost predicate Removable(s: Server) {
    s.joinRemove <= s.stored.Keys
  }

  /** Only a factor change can take away a stored key that is due for removal. */
  lemma RemovableStays(env: Env, s: Server, step: Step)
    requires Enabled(s, step) && Inv(s) && Removable(s) && !step.Change?
    ensures Removable(Apply(env, s, step).server)
  {
    match step
    case Request(header, t) => RequestKeeps(env.self, s, header, t, Who(env, s, t.key, [env.tier]));
    case GossipIn(key, value) => GossipKeeps(env.self, s, key, value, Who(env, s, key, [env.tier]));
    case FactorIn(key, reply) => FactorKeeps(env, s, key, reply);
    case JoinIn(join) => JoinSameData(env, s, join);
    case _ =>
  }
}
