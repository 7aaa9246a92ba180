/** What a thread has recorded of a key's replication factors after it has heard of them, and when it looks them up. */
module Learning {
  import opened Types
  import opened Metadata
  import opened Responsibility
  import opened Values
  import opened Server
  import opened Movement
  import opened ServerRuns
  import opened Runs
  import Membership

  datatype Side = Globally | Locally

  /** One of the two tables of factors. */
  function Table(rep: KeyReplication, side: Side): (r: map<Tier, nat>) {
    match side
    case Globally => rep.global
    case Locally => rep.local
  }

  /** What is recorded for a key in a tier, if anything is. */
  function Recorded(s: Server, key: Key, side: Side, tier: Tier): (r: Option<nat>) {
    if key in s.reps && tier in Table(s.reps[key], side) then Some(Table(s.reps[key], side)[tier]) else None
  }

  /** What the last of the updates to list the tier for the key says. */
  function Latest(updates: seq<Update>, key: Key, side: Side, tier: Tier): (r: Option<nat>) {
    if updates == [] then None
    else
      var u := updates[|updates| - 1];
      if u.key == key && tier in Table(u.rep, side) then Some(Table(u.rep, side)[tier])
      else Latest(updates[..|updates| - 1], key, side, tier)
  }

  function Or(a: Option<nat>, b: Option<nat>): (r: Option<nat>) {
    if a.Some? then a else b
  }

  lemma LearnedRecords(s: Server, u: Update, key: Key, side: Side, tier: Tier)
    ensures Recorded(Learned(s, u), key, side, tier) == Or(Latest([u], key, side, tier), Recorded(s, key, side, tier))
  {
    assert [u][..0] == [];
  }

  lemma {:induction false} LatestSplits(updates: seq<Update>, u: Update, key: Key, side: Side, tier: Tier)
    ensures Latest(updates + [u], key, side, tier)
         == Or(Latest([u], key, side, tier), Latest(updates, key, side, tier))
  {
    assert (updates + [u])[..|updates|] == updates && [u][..0] == [];
  }

  lemma {:induction false} ChangeRecords(self: ServerThread, who: Oracle, s: Server, updates: seq<Update>, key: Key,
                                         side: Side, tier: Tier)
    ensures Recorded(ChangeAll(self, who, s, updates).0, key, side, tier)
         == Or(Latest(updates, key, side, tier), Recorded(s, key, side, tier))
  {
    if updates != [] {
      var front, u := updates[..|updates| - 1], updates[|updates| - 1];
      ChangeRecords(self, who, s, front, key, side, tier);
      LearnedRecords(ChangeAll(self, who, s, front).0, u, key, side, tier);
      assert updates == front + [u];
      LatestSplits(front, u, key, side, tier);
    }
  }

  /**
   * After a change of factors every tier has, globally and locally, what the last update to list it for that key
   * says; a tier no update lists for that key keeps what was recorded.
   */
  lemma ChangedFactors(env: Env, s: Server, updates: seq<Update>, key: Key, side: Side, tier: Tier)
    ensures Recorded(OnChange(env, s, updates).server, key, side, tier)
         == Or(Latest(updates, key, side, tier), Recorded(s, key, side, tier))
  {
    ChangeRecords(env.self, Everywhere(env.hs, env.defaults), s, updates, key, side, tier);
  }

  /** The last update that lists a tier is the one that counts, and without one there is nothing to count. */
  lemma {:induction false} LatestIsLast(updates: seq<Update>, key: Key, side: Side, tier: Tier)
    ensures Latest(updates, key, side, tier).None? <==>
              forall i :: 0 <= i < |updates| && updates[i].key == key ==> tier !in Table(updates[i].rep, side)
    ensures forall i :: 0 <= i < |updates| && updates[i].key == key && tier in Table(updates[i].rep, side)
              && (forall j :: i < j < |updates| && updates[j].key == key ==> tier !in Table(updates[j].rep, side))
              ==> Latest(updates, key, side, tier) == Some(Table(updates[i].rep, side)[tier])
  {
    if updates != [] {
      var n := |updates| - 1;
      LatestIsLast(updates[..n], key, side, tier);
      assert forall i :: 0 <= i < n ==> updates[..n][i] == updates[i];
    }
  }

  // ---- the answer to a lookup -------------------------------------------------------------------

  lemma {:induction false} SettlingKeepsFactors(s: Server, key: Key, ps: seq<PendingRequest>, responsible: bool)
    ensures SettleAll(s, key, ps, responsible).server.reps == s.reps
  {
    if ps != [] {
      SettlingKeepsFactors(s, key, ps[..|ps| - 1], responsible);
    }
  }

  lemma {:induction false} AbsorbingKeepsFactors(s: Server, key: Key, values: seq<Value>)
    ensures AbsorbAll(s, key, values).reps == s.reps
  {
    if values != [] {
      AbsorbingKeepsFactors(s, key, values[..|values| - 1]);
    }
  }

  lemma DrainingKeepsFactors(self: ServerThread, s: Server, key: Key, who: Option<seq<ServerThread>>)
    ensures Drain(self, s, key, who).server.reps == s.reps
  {
    if who.Some? {
      var s' := DrainRequests(self, s, key, who).server;
      if key in s.requests { SettlingKeepsFactors(s, key, s.requests[key], self in who.value); }
      if key in s'.gossip { AbsorbingKeepsFactors(s', key, s'.gossip[key]); }
    }
  }

  /** The configured default of a tier. */
  function Configured(defaults: Defaults, side: Side, tier: Tier): (r: nat) {
    match side
    case Globally => Factor(defaults.global, tier)
    case Locally => defaults.local
  }

  lemma TaughtRecords(env: Env, s: Server, key: Key, reply: FactorReply, k: Key, side: Side, tier: Tier)
    requires reply.Found? || reply.NotFound?
    ensures Recorded(Taught(env, s, key, reply), k, side, tier)
         == if k != key then Recorded(s, k, side, tier)
            else if reply.NotFound? then Some(Configured(env.defaults, side, tier))
            else if tier in Table(reply.rep, side) then Some(Table(reply.rep, side)[tier])
            else Recorded(s, key, side, tier)
  {
    var rep := if reply.Found? then reply.rep else DefaultFactors(env.defaults);
    LearnedRecords(s, Update(key, rep), k, side, tier);
    if reply.NotFound? {
      DefaultsListed(env.defaults, side, tier);
    }
  }

  lemma DefaultsListed(defaults: Defaults, side: Side, tier: Tier)
    ensures tier in Table(DefaultFactors(defaults), side)
    ensures Table(DefaultFactors(defaults), side)[tier] == Configured(defaults, side, tier)
  {
    assert tier == Memory || tier == Disk;
  }

  /** Settling what was pending does not touch the factors. */
  lemma OnlyTaught(env: Env, s: Server, key: Key, reply: FactorReply)
    ensures OnFactor(env, s, key, reply).server.reps
         == if reply.Found? || reply.NotFound? then Taught(env, s, key, reply).reps else s.reps
  {
    if reply.Found? || reply.NotFound? {
      var s' := Taught(env, s, key, reply);
      var who := Who(env, s', key, [env.tier]);
      DrainingKeepsFactors(env.self, s', key, who);
      assert OnFactor(env, s, key, reply) == Drain(env.self, s', key, who);
    }
  }

  /**
   * A reply that carries factors sets the tiers it lists, globally and locally, and leaves the rest; one that says
   * there are none stored sets every tier to the configured default; any other reply changes no factor, and nor does
   * a reply about another key.
   */
  lemma TaughtFactors(env: Env, s: Server, key: Key, reply: FactorReply, k: Key, side: Side, tier: Tier)
    ensures Recorded(OnFactor(env, s, key, reply).server, k, side, tier)
         == if k == key && reply.NotFound? then Some(Configured(env.defaults, side, tier))
            else if k == key && reply.Found? && tier in Table(reply.rep, side) then Some(Table(reply.rep, side)[tier])
            else Recorded(s, k, side, tier)
  {
    OnlyTaught(env, s, key, reply);
    if reply.Found? || reply.NotFound? {
      TaughtRecords(env, s, key, reply, k, side, tier);
    }
  }

  // ---- who looks factors up ---------------------------------------------------------------------

  /** The factor of every changed plain key is known. */
  ghost predicate ChangesKnown(s: Server) {
    forall k :: k in s.changes ==> IsMetadata(k) || k in s.reps
  }

  lemma ServeChanges(s: Server, header: Header, key: Key, kind: LatticeType, payload: Value, invalidate: bool)
    ensures Serve(s, header, key, kind, payload, invalidate).0.changes <= s.changes + {key}
  {
  }

  lemma RequestChanges(self: ServerThread, s: Server, header: Header, t: KeyTuple, who: Option<seq<ServerThread>>)
    ensures RequestAs(self, s, header, t, who).server.changes <= s.changes + if who.Some? then {t.key} else {}
  {
    if who.Some? {
      ServeChanges(s, header, t.key, t.kind, t.payload, t.cacheSize > 0 && t.cacheSize != |who.value|);
    }
  }

  lemma AbsorbKeepsChanges(s: Server, key: Key, value: Value)
    ensures Absorb(s, key, value).changes == s.changes
  {
  }

  lemma GossipKeepsChanges(self: ServerThread, s: Server, key: Key, value: Value, who: Option<seq<ServerThread>>)
    ensures GossipAs(self, s, key, value, who).server.changes == s.changes
  {
    AbsorbKeepsChanges(s, key, value);
  }

  lemma {:induction false} AbsorbingKeepsChanges(s: Server, key: Key, values: seq<Value>)
    ensures AbsorbAll(s, key, values).changes == s.changes
  {
    if values != [] {
      AbsorbingKeepsChanges(s, key, values[..|values| - 1]);
    }
  }

  lemma DrainChanges(self: ServerThread, s: Server, key: Key, who: Option<seq<ServerThread>>)
    requires Exactly(s.stored, s.store)
    ensures Drain(self, s, key, who).server.changes <= s.changes + if who.Some? then {key} else {}
  {
    if who.Some? {
      var s' := DrainRequests(self, s, key, who).server;
      if key in s.requests { SettleAllMerges(s, key, s.requests[key], self in who.value); }
      if key in s'.gossip { AbsorbingKeepsChanges(s', key, s'.gossip[key]); }
    }
  }

  lemma FactorKeepsKnown(env: Env, s: Server, key: Key, reply: FactorReply)
    requires Inv(s) && ChangesKnown(s)
    ensures ChangesKnown(OnFactor(env, s, key, reply).server)
  {
    OnlyTaught(env, s, key, reply);
    if reply.Found? || reply.NotFound? {
      var s' := Taught(env, s, key, reply);
      var who := Who(env, s', key, [env.tier]);
      OnFactorIs(env, s, key, reply, s', who);
      DrainChanges(env.self, s', key, who);
    }
  }

  lemma RequestKeepsKnown(env: Env, s: Server, header: Header, t: KeyTuple)
    requires ChangesKnown(s)
    ensures ChangesKnown(OnRequest(env, s, header, t).server)
  {
    var who := Who(env, s, t.key, [env.tier]);
    RequestChanges(env.self, s, header, t, who);
    RequestQueue(env.self, s, header, t, who);
  }

  lemma GossipKeepsKnown(env: Env, s: Server, key: Key, value: Value)
    requires ChangesKnown(s)
    ensures ChangesKnown(OnGossip(env, s, key, value).server)
  {
    var who := Who(env, s, key, [env.tier]);
    GossipKeepsChanges(env.self, s, key, value, who);
    GossipQueue(env.self, s, key, value, who);
  }

  lemma ChangeKeepsKnown(env: Env, s: Server, updates: seq<Update>)
    requires ChangesKnown(s)
    ensures ChangesKnown(OnChange(env, s, updates).server)
  {
  }

  lemma JoinKeepsKnown(env: Env, s: Server, join: Membership.Join)
    ensures OnJoin(env, s, join).server.changes == s.changes && OnJoin(env, s, join).server.reps == s.reps
  {
  }

  lemma PassKeepsKnown(s: Server, batch: set<Errand>)
    requires s.joinGossip != {} && Leftover(s.joinGossip, batch) == {} ==> s.joinRemove <= s.stored.Keys
    ensures OnRedistribute(s, batch).server.changes == s.changes && OnRedistribute(s, batch).server.reps == s.reps
  {
    var left := Leftover(s.joinGossip, batch);
    var s' := s.(joinGossip := left);
    if s.joinGossip != {} {
      assert OnRedistribute(s, batch).server
          == if left == {} then DropAll(s', s.joinRemove).(joinRemove := {}) else s';
    }
  }

  lemma StepKeepsKnown(env: Env, s: Server, step: Step)
    requires Enabled(s, step) && Inv(s) && ChangesKnown(s)
    ensures ChangesKnown(Apply(env, s, step).server)
  {
    match step
    case Request(header, tuple) => RequestKeepsKnown(env, s, header, tuple);
    case GossipIn(key, value) => GossipKeepsKnown(env, s, key, value);
    case FactorIn(key, reply) => FactorKeepsKnown(env, s, key, reply);
    case Change(updates) => ChangeKeepsKnown(env, s, updates);
    case JoinIn(join) => JoinKeepsKnown(env, s, join);
    case Redistribute(batch) => PassKeepsKnown(s, batch);
    case _ =>
  }

  lemma {:induction false} ChangeLooksUpNothing(self: ServerThread, hs: Hashes, defaults: Defaults, s: Server,
                                                updates: seq<Update>)
    requires Known(s)
    ensures ChangeAll(self, Everywhere(hs, defaults), s, updates).1.out == multiset{}
  {
    if updates != [] {
      ChangeLooksUpNothing(self, hs, defaults, s, updates[..|updates| - 1]);
    }
  }

  predicate LooksUp(out: multiset<Output>) {
    exists o :: o in out && o.Lookup?
  }

  lemma StepLooksUpNothing(env: Env, s: Server, step: Step)
    requires Enabled(s, step) && Inv(s) && ChangesKnown(s)
    requires !step.Request? && !step.GossipIn? && !step.FactorIn?
    ensures !LooksUp(Apply(env, s, step).out)
  {
    match step
    case Change(updates) => ChangeLooksUpNothing(env.self, env.hs, env.defaults, s, updates);
    case JoinIn(join) => assert Unknown(Rejoined(env, s, join), s.stored.Keys) == {};
    case Round => assert Unknown(s, s.changes) == {};
    case _ =>
  }

  /** In no run does anything but a message about a key make a thread look a factor up. */
  lemma OnlyMessagesLookUp(env: Env, states: seq<Server>, steps: seq<Step>, i: nat)
    requires IsRun(env, states, steps) && Init(states[0]) && i < |steps|
    requires !steps[i].Request? && !steps[i].GossipIn? && !steps[i].FactorIn?
    ensures !LooksUp(Apply(env, states[i], steps[i]).out)
  {
    var inv := (s: Server) => Inv(s) && ChangesKnown(s);
    forall s, step, s' | inv(s) && Leading(env)(s, step, s') ensures inv(s') {
      StepKeepsInv(env, s, step);
      StepKeepsKnown(env, s, step);
    }
    RunIsChain(env, states, steps);
    InductFrom(Leading(env), inv, states, steps, 0);
    StepLooksUpNothing(env, states[i], steps[i]);
  }
}
