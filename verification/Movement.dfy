/** How a storage thread moves data to others: periodic gossip, node joins, redistribution, factor changes. */
module Movement {
  import opened Types
  import opened Metadata
  import opened Responsibility
  import opened Values
  import opened Server
  import Membership

  /** `DATA_REDISTRIBUTE_THRESHOLD`. */
  const DATA_REDISTRIBUTE_THRESHOLD: nat := 50

  /** What `send_gossip` can say about a key: nothing when it is not stored or reads as missing. */
  function Readout(s: Server, key: Key): (r: Option<Value>) {
    if key in s.stored && Slot(s.stored[key], key) in s.store && Readable(s.store[Slot(s.stored[key], key)])
    then Some(s.store[Slot(s.stored[key], key)]) else None
  }

  /** `send_gossip`. */
  function SendGossip(s: Server, errands: set<Errand>): (r: multiset<Output>)
    ensures forall o :: o in r <==> o.Gossip? && Errand(o.to, o.key) in errands && Readout(s, o.key) == Some(o.value)
  {
    multiset(set e | e in errands && Readout(s, e.key).Some? :: Gossip(e.to, e.key, Readout(s, e.key).value))
  }

  function Lookups(keys: set<Key>): (r: multiset<Output>)
    ensures forall o :: o in r <==> o.Lookup? && o.key in keys
  {
    multiset(set k | k in keys :: Lookup(k))
  }

  /** The keys of `keys` whose factor is not known. */
  function Unknown(s: Server, keys: set<Key>): (r: set<Key>) {
    set k | k in keys && !IsMetadata(k) && k !in s.reps
  }

  // ---- the gossip round -------------------------------------------------------------------------

  /** The threads without one of them. */
  function Others(threads: seq<ServerThread>, self: ServerThread): (r: seq<ServerThread>)
    ensures forall t :: t in r <==> t in threads && t != self
  {
    if threads == [] then []
    else
      var rest := Others(threads[..|threads| - 1], self);
      var last := threads[|threads| - 1];
      assert forall t :: t in threads <==> t in threads[..|threads| - 1] || t == last;
      if last == self then rest else rest + [last]
  }

  /** Every other thread responsible for `key`, in any tier. */
  function RoundTargets(env: Env, s: Server, key: Key): (r: seq<ServerThread>) {
    match Who(env, s, key, ALL_TIERS)
    case None => []
    case Some(threads) => Others(threads, env.self)
  }

  /** Every changed key goes to every other thread responsible for it. */
  function RoundErrands(env: Env, s: Server): (r: set<Errand>) {
    set k, t | k in s.changes && t in RoundTargets(env, s, k) :: Errand(t, k)
  }

  function OnRound(env: Env, s: Server): (r: Outcome) {
    Outcome(s.(changes := {}), [],
            SendGossip(s, RoundErrands(env, s)) + Lookups(Unknown(s, s.changes)))
  }

  // ---- a node joins -----------------------------------------------------------------------------

  /** The threads a stored key is queued for when `join` has changed the ring: none when nothing has to move. */
  function JoinTargets(env: Env, s: Server, join: Membership.Join, key: Key): (r: seq<ServerThread>)
    ensures forall t :: t in r ==> Who(env, s, key, [env.tier]).Some? && t in Who(env, s, key, [env.tier]).value
  {
    match Who(env, s, key, [env.tier])
    case None => []
    case Some(threads) =>
      if join.count > 0 then OfServer(threads, join.ip)
      else if env.self !in threads then threads
      else []
  }

  function OfServer(threads: seq<ServerThread>, ip: Address): (r: seq<ServerThread>)
    ensures forall t :: t in r <==> t in threads && t.ip == ip
  {
    if threads == [] then []
    else
      var rest := OfServer(threads[..|threads| - 1], ip);
      var last := threads[|threads| - 1];
      assert forall t :: t in threads <==> t in threads[..|threads| - 1] || t == last;
      if last.ip == ip then rest + [last] else rest
  }

  /** A key is to be dropped when a first join leaves this thread without responsibility for it. */
  predicate Leaves(env: Env, s: Server, join: Membership.Join, key: Key) {
    && join.count == 0
    && Who(env, s, key, [env.tier]).Some?
    && env.self !in Who(env, s, key, [env.tier]).value
  }

  function JoinErrands(env: Env, s: Server, join: Membership.Join): (r: set<Errand>) {
    set k, t | k in s.stored && t in JoinTargets(env, s, join, k) :: Errand(t, k)
  }

  /** The state of `node_join_handler` once the ring is updated. */
  function Rejoined(env: Env, s: Server, join: Membership.Join): (r: Server) {
    s.(rings := s.rings.(global := Membership.Admit(env.hs.globalNode, s.rings.global, join).0))
  }

  /** `node_join_handler`, without the messages that spread the news of the join. */
  function OnJoin(env: Env, s: Server, join: Membership.Join): (r: Outcome) {
    var s' := Rejoined(env, s, join);
    if Membership.Admit(env.hs.globalNode, s.rings.global, join).1 && join.tier == env.tier then
      Outcome(s'.(joinGossip := s.joinGossip + JoinErrands(env, s', join),
                  joinRemove := s.joinRemove + set k | k in s.stored && Leaves(env, s', join, k)),
              [], Lookups(Unknown(s', s.stored.Keys)))
    else Outcome(s', [], NO_OUTPUT)
  }

  // ---- redistribution ---------------------------------------------------------------------------

  function KeysFor(errands: set<Errand>, to: ServerThread): (r: set<Key>)
    ensures forall k :: k in r <==> Errand(to, k) in errands
  {
    set e | e in errands && e.to == to :: e.key
  }

  function AtMost(n: nat, limit: nat): nat {
    if n < limit then n else limit
  }

  /** What one pass may send: for every address as many of its keys as the threshold allows, in any order. */
  predicate IsBatch(queue: set<Errand>, batch: set<Errand>) {
    && batch <= queue
    && forall e :: e in queue ==>
         |KeysFor(batch, e.to)| == AtMost(|KeysFor(queue, e.to)|, DATA_REDISTRIBUTE_THRESHOLD)
  }

  /** What stays queued: everything queued for an address that had more keys than were sent. */
  function Leftover(queue: set<Errand>, batch: set<Errand>): (r: set<Errand>) {
    set e | e in queue && KeysFor(batch, e.to) != KeysFor(queue, e.to)
  }

  function DropAll(s: Server, keys: set<Key>): (r: Server)
    requires keys <= s.stored.Keys
  {
    s.(store := s.store - (set k | k in keys :: Slot(s.stored[k], k)), stored := s.stored - keys)
  }

  /** One redistribution pass; a key that is to be removed must be stored, or its store cannot be found. */
  function OnRedistribute(s: Server, batch: set<Errand>): (r: Outcome)
    requires s.joinGossip != {} && Leftover(s.joinGossip, batch) == {} ==> s.joinRemove <= s.stored.Keys
  {
    if s.joinGossip == {} then Outcome(s, [], NO_OUTPUT)
    else
      var left := Leftover(s.joinGossip, batch);
      var s' := s.(joinGossip := left);
      Outcome(if left == {} then DropAll(s', s.joinRemove).(joinRemove := {}) else s', [], SendGossip(s, batch))
  }

  // ---- a replication factor changes -------------------------------------------------------------

  datatype Update = Update(key: Key, rep: KeyReplication)

  /** What the handler has collected while it goes through the updates. */
  datatype Plan = Plan(errands: set<Errand>, removed: set<Key>, out: multiset<Output>)

  const NO_PLAN := Plan({}, {}, NO_OUTPUT)

  /** Some listed factor is lower than it was. */
  predicate Decrements(was: KeyReplication, now: KeyReplication) {
    || (exists t :: t in now.global && now.global[t] < Factor(was.global, t))
    || (exists t :: t in now.local && now.local[t] < Factor(was.local, t))
  }

  function FactorsOf(s: Server, key: Key): (r: KeyReplication) {
    if key in s.reps then s.reps[key] else NO_FACTORS
  }

  /** Whom a stored key is sent to when its responsible threads change from `was` to `now`. */
  function ChangeTargets(self: ServerThread, was: seq<ServerThread>, now: seq<ServerThread>, decrement: bool)
    : (r: set<ServerThread>)
  {
    (if self !in now then set t | t in now else {})
    + (if !decrement && was != [] && was[0] == self then set t | t in now && t !in was else {})
  }

  /** One update, given the threads responsible for the key before and after it. */
  function ChangeTo(self: ServerThread, s: Server, plan: Plan, u: Update, before: Option<seq<ServerThread>>,
                    after: Option<seq<ServerThread>>): (r: Plan)
    ensures plan.removed <= r.removed <= plan.removed + s.stored.Keys
  {
    if u.key !in s.stored then plan
    else if before.None? then plan.(out := plan.out + multiset{Lookup(u.key)})
    else if after.None? then plan
    else
      var targets := ChangeTargets(self, before.value, after.value, Decrements(FactorsOf(s, u.key), u.rep));
      plan.(errands := plan.errands + (set t | t in targets :: Errand(t, u.key)),
            removed := plan.removed + (if self !in after.value then {u.key} else {}))
  }

  /** Tells which threads are responsible for a key, as a state sees it. */
  type Oracle = (Server, Key) -> Option<seq<ServerThread>>

  /** The threads of every tier. */
  function Everywhere(hs: Hashes, defaults: Defaults): (r: Oracle) {
    (s: Server, key: Key) => Responsible(hs, s.rings, defaults, s.reps, key, ALL_TIERS)
  }

  /** The state with the factors of one update written. */
  function Learned(s: Server, u: Update): (r: Server) {
    s.(reps := Learn(s.reps, u.key, u.rep))
  }

  /** The loop of `replication_change_handler`. */
  function ChangeAll(self: ServerThread, who: Oracle, s: Server, updates: seq<Update>): (r: (Server, Plan))
    ensures r.0 == s.(reps := r.0.reps)
    ensures forall k :: k in s.reps ==> k in r.0.reps
    ensures r.1.removed <= s.stored.Keys
  {
    if updates == [] then (s, NO_PLAN)
    else
      var (s', plan) := ChangeAll(self, who, s, updates[..|updates| - 1]);
      var u := updates[|updates| - 1];
      (Learned(s', u), ChangeTo(self, s', plan, u, who(s', u.key), who(Learned(s', u), u.key)))
  }

  function ChangeWith(self: ServerThread, who: Oracle, s: Server, updates: seq<Update>): (r: Outcome) {
    var (s', plan) := ChangeAll(self, who, s, updates);
    Outcome(DropAll(s', plan.removed).(changes := s.changes - plan.removed), [],
            plan.out + SendGossip(s', plan.errands))
  }

  /** `replication_change_handler`. */
  function OnChange(env: Env, s: Server, updates: seq<Update>): (r: Outcome) {
    ChangeWith(env.self, Everywhere(env.hs, env.defaults), s, updates)
  }
}
