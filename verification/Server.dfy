/**
 * A storage thread as a state machine. Each handler is a function from the thread's state and one item of its input to
 * the new state and what is sent: a message with several tuples is the run of its tuples.
 */
module Server {
  import opened Types
  import opened Metadata
  import opened Responsibility
  import opened Values

  /** Where a value of some type is kept. */
  datatype Slot = Slot(kind: LatticeType, key: Key)

  datatype RequestType = GET | PUT | RT_UNSPECIFIED

  datatype AnnaError = NO_ERROR | KEY_DNE | WRONG_THREAD | TIMEOUT | LATTICE | NO_SERVERS

  /** What a request says once for all its tuples. */
  datatype Header = Header(kind: RequestType, address: Address, id: string)

  datatype KeyTuple = KeyTuple(key: Key, kind: LatticeType, payload: Value, cacheSize: nat)

  datatype PendingRequest = PendingRequest(header: Header, kind: LatticeType, payload: Value)

  datatype Answer = Answer(key: Key, kind: LatticeType, payload: Option<Value>, error: AnnaError, invalidate: bool)

  /** What a factor lookup comes back with. */
  datatype FactorReply = Found(rep: KeyReplication) | NotFound | NotMine | Failed

  /** An answer to a client. */
  datatype Reply = Reply(header: Header, answer: Answer)

  /** A message to another storage thread. */
  datatype Output =
    | Lookup(key: Key)
    | Gossip(to: ServerThread, key: Key, value: Value)

  /** A key to be sent to a thread; a set of errands is a map from addresses to non-empty key sets. */
  datatype Errand = Errand(to: ServerThread, key: Key)

  /** What does not change while a thread runs. */
  datatype Env = Env(hs: Hashes, defaults: Defaults, self: ServerThread, tier: Tier)

  datatype Server = Server(
    rings: Rings,
    reps: map<Key, KeyReplication>,                   // key_replication_map
    stored: map<Key, LatticeType>,                    // stored_key_map
    store: map<Slot, Value>,                          // the stores behind the serializers
    requests: map<Key, seq<PendingRequest>>,          // pending_requests
    gossip: map<Key, seq<Value>>,                     // pending_gossip
    changes: set<Key>,                                // local_changeset
    joinGossip: set<Errand>,                          // join_gossip_map
    joinRemove: set<Key>)                             // join_remove_set

  datatype Outcome = Outcome(server: Server, replies: seq<Reply>, out: multiset<Output>)

  const NO_OUTPUT: multiset<Output> := multiset{}

  function Who(env: Env, s: Server, key: Key, tiers: seq<Tier>): (r: Option<seq<ServerThread>>)
    ensures r.None? <==> !IsMetadata(key) && key !in s.reps
  {
    Responsible(env.hs, s.rings, env.defaults, s.reps, key, tiers)
  }

  // ---- the stores -------------------------------------------------------------------------------

  /** `process_put`. */
  function Put(s: Server, key: Key, kind: LatticeType, payload: Value): (r: Server)
    requires kind != NONE
  {
    var slot := Slot(kind, key);
    var was := if slot in s.store then s.store[slot] else Bottom(kind);
    s.(store := s.store[slot := Combine(was, payload)], stored := s.stored[key := kind])
  }

  /** `process_get` of a stored key: the value, and whether it reads as missing. */
  function Get(s: Server, key: Key): (r: (Value, AnnaError))
    requires key in s.stored && s.stored[key] != NONE
  {
    var slot := Slot(s.stored[key], key);
    if slot in s.store then (s.store[slot], if Readable(s.store[slot]) then NO_ERROR else KEY_DNE)
    else (Bottom(s.stored[key]), KEY_DNE)
  }

  /** What a thread holds of a key. */
  function Val(s: Server, key: Key): (r: Option<Value>) {
    if key in s.stored && Slot(s.stored[key], key) in s.store then Some(s.store[Slot(s.stored[key], key)]) else None
  }

  // ---- user requests ----------------------------------------------------------------------------

  /** A PUT is merged unless it declares no type or a type other than the stored one. */
  predicate Accepts(s: Server, key: Key, kind: LatticeType) {
    kind != NONE && (key in s.stored && s.stored[key] != NONE ==> s.stored[key] == kind)
  }

  function Pend(s: Server, key: Key, request: PendingRequest): (r: Server) {
    s.(requests := s.requests[key := (if key in s.requests then s.requests[key] else []) + [request]])
  }

  /** What a responsible thread answers to one tuple, and the state after it. */
  function Serve(s: Server, header: Header, key: Key, kind: LatticeType, payload: Value, invalidate: bool)
    : (r: (Server, Answer))
    ensures r.1.key == key
  {
    match header.kind
    case GET =>
      if key !in s.stored || s.stored[key] == NONE then (s, Answer(key, NONE, None, KEY_DNE, invalidate))
      else
        var (value, error) := Get(s, key);
        (s, Answer(key, s.stored[key], Some(value), error, invalidate))
    case PUT =>
      if Accepts(s, key, kind) then
        (Put(s, key, kind, payload).(changes := s.changes + {key}), Answer(key, kind, None, NO_ERROR, invalidate))
      else (s, Answer(key, NONE, None, NO_ERROR, invalidate))
    case RT_UNSPECIFIED => (s, Answer(key, NONE, None, NO_ERROR, invalidate))
  }

  function ReplyTo(header: Header, answer: Answer): (r: seq<Reply>) {
    if header.address != "" then [Reply(header, answer)] else []
  }

  /** One tuple of a request, given the threads of this tier that are responsible for its key. */
  function RequestAs(self: ServerThread, s: Server, header: Header, t: KeyTuple, who: Option<seq<ServerThread>>)
    : (r: Outcome)
  {
    match who
    case None =>
      Outcome(Pend(s, t.key, PendingRequest(header, t.kind, t.payload)), [], multiset{Lookup(t.key)})
    case Some(threads) =>
      if self !in threads then
        if IsMetadata(t.key) then
          Outcome(s, ReplyTo(header, Answer(t.key, t.kind, None, WRONG_THREAD, false)), NO_OUTPUT)
        else
          Outcome(Pend(s, t.key, PendingRequest(header, t.kind, t.payload)), [], multiset{Lookup(t.key)})
      else
        var (s', answer) := Serve(s, header, t.key, t.kind, t.payload, t.cacheSize > 0 && t.cacheSize != |threads|);
        Outcome(s', ReplyTo(header, answer), NO_OUTPUT)
  }

  /** `user_request_handler` for one tuple. */
  function OnRequest(env: Env, s: Server, header: Header, t: KeyTuple): (r: Outcome) {
    RequestAs(env.self, s, header, t, Who(env, s, t.key, [env.tier]))
  }

  /** A request with all its tuples. */
  function OnRequests(env: Env, s: Server, header: Header, tuples: seq<KeyTuple>): (r: Outcome) {
    if tuples == [] then Outcome(s, [], NO_OUTPUT)
    else
      var before := OnRequests(env, s, header, tuples[..|tuples| - 1]);
      var last := OnRequest(env, before.server, header, tuples[|tuples| - 1]);
      Outcome(last.server, before.replies + last.replies, before.out + last.out)
  }

  /** A write that asks for no answer. */
  const PUT_NOW := Header(PUT, "", "")

  function PutOf(key: Key, value: Value): (r: KeyTuple) {
    KeyTuple(key, TypeOf(value), value, 0)
  }

  // ---- gossip -----------------------------------------------------------------------------------

  /** The same value to every listed thread. */
  function ToAll(threads: seq<ServerThread>, key: Key, value: Value): (r: multiset<Output>) {
    if threads == [] then NO_OUTPUT
    else ToAll(threads[..|threads| - 1], key, value) + multiset{Gossip(threads[|threads| - 1], key, value)}
  }

  function Hold(s: Server, key: Key, value: Value): (r: Server) {
    s.(gossip := s.gossip[key := (if key in s.gossip then s.gossip[key] else []) + [value]])
  }

  /** Gossip of the stored type, or of any type for a key not stored, is merged. */
  function Absorb(s: Server, key: Key, value: Value): (r: Server) {
    if key in s.stored && s.stored[key] != TypeOf(value) then s else Put(s, key, TypeOf(value), value)
  }

  /** One tuple of gossip, given the threads of this tier that are responsible for its key. */
  function GossipAs(self: ServerThread, s: Server, key: Key, value: Value, who: Option<seq<ServerThread>>)
    : (r: Outcome)
  {
    match who
    case None => Outcome(Hold(s, key, value), [], multiset{Lookup(key)})
    case Some(threads) =>
      if self in threads then Outcome(Absorb(s, key, value), [], NO_OUTPUT)
      else if IsMetadata(key) then Outcome(s, [], ToAll(threads, key, value))
      else Outcome(Hold(s, key, value), [], multiset{Lookup(key)})
  }

  /** `gossip_handler` for one tuple. */
  function OnGossip(env: Env, s: Server, key: Key, value: Value): (r: Outcome) {
    GossipAs(env.self, s, key, value, Who(env, s, key, [env.tier]))
  }

  // ---- learning a replication factor ------------------------------------------------------------

  const NO_FACTORS := KeyReplication(map[], map[])

  /** Writing factors tier by tier; an update that lists none does not create an entry. */
  function Learn(reps: map<Key, KeyReplication>, key: Key, rep: KeyReplication): (r: map<Key, KeyReplication>)
    ensures forall k :: k in reps ==> k in r
    ensures forall k :: k in r ==> k in reps || k == key
  {
    if rep == NO_FACTORS then reps
    else
      var was := if key in reps then reps[key] else NO_FACTORS;
      reps[key := KeyReplication(was.global + rep.global, was.local + rep.local)]
  }

  /** `init_replication`: the configured default in every tier. */
  function DefaultFactors(defaults: Defaults): (r: KeyReplication) {
    KeyReplication(map[Memory := Factor(defaults.global, Memory), Disk := Factor(defaults.global, Disk)],
                   map[Memory := defaults.local, Disk := defaults.local])
  }

  /** One pending request, once it is known whether this thread is responsible. */
  function Settle(s: Server, key: Key, p: PendingRequest, responsible: bool): (r: Outcome) {
    if !responsible then
      Outcome(s, ReplyTo(p.header, Answer(key, NONE, None, WRONG_THREAD, false)), NO_OUTPUT)
    else if p.header.address == "" then
      if p.header.kind == PUT && Accepts(s, key, p.kind) then
        Outcome(Put(s, key, p.kind, p.payload).(changes := s.changes + {key}), [], NO_OUTPUT)
      else Outcome(s, [], NO_OUTPUT)
    else
      // anything but a GET is served as a PUT here
      var header := if p.header.kind == GET then p.header else p.header.(kind := PUT);
      var (s', answer) := Serve(s, header, key, p.kind, p.payload, false);
      Outcome(s', ReplyTo(p.header, answer), NO_OUTPUT)
  }

  function SettleAll(s: Server, key: Key, ps: seq<PendingRequest>, responsible: bool): (r: Outcome) {
    if ps == [] then Outcome(s, [], NO_OUTPUT)
    else
      var before := SettleAll(s, key, ps[..|ps| - 1], responsible);
      var after := Settle(before.server, key, ps[|ps| - 1], responsible);
      Outcome(after.server, before.replies + after.replies, NO_OUTPUT)
  }

  function AbsorbAll(s: Server, key: Key, values: seq<Value>): (r: Server) {
    if values == [] then s
    else
      var before := AbsorbAll(s, key, values[..|values| - 1]);
      var kind := TypeOf(values[|values| - 1]);
      if Accepts(before, key, kind) then Put(before, key, kind, values[|values| - 1]) else before
  }

  function ForwardAll(threads: seq<ServerThread>, key: Key, values: seq<Value>): (r: multiset<Output>) {
    if values == [] then NO_OUTPUT
    else ForwardAll(threads, key, values[..|values| - 1]) + ToAll(threads, key, values[|values| - 1])
  }

  /** The requests pending for `key` are settled and forgotten; forgotten unsettled if the factor is still unknown. */
  function DrainRequests(self: ServerThread, s: Server, key: Key, who: Option<seq<ServerThread>>): (r: Outcome) {
    if key !in s.requests then Outcome(s, [], NO_OUTPUT)
    else
      match who
      case None => Outcome(s.(requests := s.requests - {key}), [], multiset{Lookup(key)})
      case Some(threads) =>
        var done := SettleAll(s, key, s.requests[key], self in threads);
        done.(server := done.server.(requests := s.requests - {key}))
  }

  /** The gossip pending for `key` is merged or passed on to the threads of this tier that are responsible. */
  function DrainGossip(self: ServerThread, s: Server, key: Key, who: Option<seq<ServerThread>>): (r: Outcome) {
    if key !in s.gossip then Outcome(s, [], NO_OUTPUT)
    else
      match who
      case None => Outcome(s.(gossip := s.gossip - {key}), [], multiset{Lookup(key)})
      case Some(threads) =>
        if self in threads then
          Outcome(AbsorbAll(s, key, s.gossip[key]).(gossip := s.gossip - {key}), [], NO_OUTPUT)
        else Outcome(s.(gossip := s.gossip - {key}), [], ForwardAll(threads, key, s.gossip[key]))
  }

  /** Everything pending for `key`, requests first. */
  function Drain(self: ServerThread, s: Server, key: Key, who: Option<seq<ServerThread>>): (r: Outcome) {
    var requests := DrainRequests(self, s, key, who);
    var gossip := DrainGossip(self, requests.server, key, who);
    Outcome(gossip.server, requests.replies, requests.out + gossip.out)
  }

  /** The factors a usable reply teaches. */
  function Taught(env: Env, s: Server, key: Key, reply: FactorReply): (r: Server)
    requires reply.Found? || reply.NotFound?
  {
    s.(reps := Learn(s.reps, key, if reply.Found? then reply.rep else DefaultFactors(env.defaults)))
  }

  /** `replication_response_handler`. */
  function OnFactor(env: Env, s: Server, key: Key, reply: FactorReply): (r: Outcome) {
    match reply
    case NotMine => Outcome(s, [], multiset{Lookup(key)})
    case Failed => Outcome(s, [], NO_OUTPUT)
    case _ =>
      var s' := Taught(env, s, key, reply);
      Drain(env.self, s', key, Who(env, s', key, [env.tier]))
  }
}
