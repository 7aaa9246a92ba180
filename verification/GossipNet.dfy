/** A cluster with fixed membership and agreed factors, all of whose threads run the storage handlers and gossip. */
module GossipNet {
  import opened Types
  import opened Metadata
  import opened Responsibility
  import opened Values
  import opened Server
  import opened Movement
  import opened Spread

  /** What stays fixed: the rings, the tier of every thread, the agreed factors, and one lattice type per key. */
  datatype Deployment = Deployment(
    hs: Hashes, defaults: Defaults, rings: Rings, tierOf: ServerThread -> Tier, agreed: Key -> KeyReplication,
    kind: Key -> LatticeType, carrier: Key -> Value -> bool)

  datatype Write = Write(key: Key, value: Value)

  /** The threads, the messages under way, and the writes accepted so far. */
  datatype Net = Net(servers: map<ServerThread, Server>, bag: multiset<Output>, accepted: set<Write>)

  function EnvOf(d: Deployment, w: ServerThread): (r: Env) {
    Env(d.hs, d.defaults, w, d.tierOf(w))
  }

  /** The threads responsible for a key, all tiers together. */
  function Replicas(d: Deployment, key: Key): (r: seq<ServerThread>) {
    if IsMetadata(key) then MetadataThreads(d.hs, d.rings, d.defaults, key)
    else InTiers(d.hs, d.rings, d.agreed(key), key, ALL_TIERS)
  }

  ghost predicate Joins(d: Deployment, key: Key) {
    RaisesOn(d.carrier(key), Below, Combine)
  }

  /** The values of a key merge as a join. */
  ghost predicate Merging(d: Deployment) {
    forall k :: Joins(d, k)
  }

  ghost predicate OneType(d: Deployment, key: Key) {
    d.kind(key) != NONE && forall v :: d.carrier(key)(v) ==> TypeOf(v) == d.kind(key) && Readable(v)
  }

  /** The values of a key have its type and read as present. */
  ghost predicate Typed(d: Deployment) {
    forall k :: OneType(d, k)
  }

  /** A server found in a tier's ring runs in that tier. */
  ghost predicate Tiered(d: Deployment) {
    forall k, tier, t :: t in ByTier(d.hs, d.rings, d.agreed(k), k)(tier) ==> d.tierOf(t) == tier
  }

  ghost predicate Sane(d: Deployment) {
    Merging(d) && Typed(d) && Tiered(d)
  }

  // ---- steps ------------------------------------------------------------------------------------

  datatype NetStep =
    | Client(w: ServerThread, header: Header, tuple: KeyTuple)
    | Factor(w: ServerThread, key: Key, reply: FactorReply)
    | Gossips(w: ServerThread)
    | Deliver(to: ServerThread, key: Key, value: Value)

  /** A write of the key's type and carrier; a GET carries nothing that matters. */
  predicate Proper(d: Deployment, header: Header, key: Key, kind: LatticeType, payload: Value) {
    header.kind != GET ==> kind == d.kind(key) && d.carrier(key)(payload)
  }

  /** A reply that teaches anything teaches the agreed factors. */
  predicate Truthful(d: Deployment, w: ServerThread, s: Server, key: Key, reply: FactorReply) {
    reply.Found? || reply.NotFound? ==>
      var reps := Taught(EnvOf(d, w), s, key, reply).reps;
      key in reps && reps[key] == d.agreed(key)
  }

  predicate Possible(d: Deployment, net: Net, step: NetStep) {
    match step
    case Client(w, header, t) => w in net.servers && Proper(d, header, t.key, t.kind, t.payload)
    case Factor(w, key, reply) => w in net.servers && Truthful(d, w, net.servers[w], key, reply)
    case Gossips(w) => w in net.servers
    case Deliver(to, key, value) => to in net.servers && Gossip(to, key, value) in net.bag
  }

  /** A pending request that is merged when its key turns out to be this thread's. */
  predicate Writes(p: PendingRequest) {
    if p.header.address == "" then p.header.kind == PUT else p.header.kind != GET
  }

  /** The write a request makes when it is served at once. */
  function AcceptedNow(d: Deployment, w: ServerThread, s: Server, header: Header, t: KeyTuple): (r: set<Write>) {
    if header.kind == PUT && w in Replicas(d, t.key) && (IsMetadata(t.key) || t.key in s.reps)
    then {Write(t.key, t.payload)} else {}
  }

  /** The writes among the requests pending for `key`. */
  function PendingWrites(requests: map<Key, seq<PendingRequest>>, key: Key): (r: set<Write>)
    ensures forall a :: a in r ==> a.key == key
  {
    if key in requests then set p | p in requests[key] && Writes(p) :: Write(key, p.payload) else {}
  }

  /** The writes a reply about `key` lets through: the pending ones, when the thread turns out to be responsible. */
  function AcceptedLater(d: Deployment, w: ServerThread, s: Server, key: Key, reply: FactorReply): (r: set<Write>)
    ensures forall a :: a in r ==> a.key == key
  {
    if (reply.Found? || reply.NotFound?) && w in Replicas(d, key) then PendingWrites(s.requests, key) else {}
  }

  /** Thread `w` handles something: its new state, what it sends, and the writes it accepts. */
  function Handled(net: Net, w: ServerThread, r: Outcome, writes: set<Write>): (n: Net) {
    Net(net.servers[w := r.server], net.bag + r.out, net.accepted + writes)
  }

  function Next(d: Deployment, net: Net, step: NetStep): (r: Net)
    requires Possible(d, net, step)
  {
    match step
    case Client(w, header, t) =>
      Handled(net, w, OnRequest(EnvOf(d, w), net.servers[w], header, t), AcceptedNow(d, w, net.servers[w], header, t))
    case Factor(w, key, reply) =>
      Handled(net, w, OnFactor(EnvOf(d, w), net.servers[w], key, reply),
              AcceptedLater(d, w, net.servers[w], key, reply))
    case Gossips(w) => Handled(net, w, OnRound(EnvOf(d, w), net.servers[w]), {})
    case Deliver(to, key, value) =>
      Handled(net.(bag := net.bag - multiset{Gossip(to, key, value)}), to,
              OnGossip(EnvOf(d, to), net.servers[to], key, value), {})
  }

  lemma ClientNext(d: Deployment, n: Net, w: ServerThread, header: Header, t: KeyTuple, r: Outcome,
                   writes: set<Write>)
    requires w in n.servers && Proper(d, header, t.key, t.kind, t.payload)
    requires r == OnRequest(EnvOf(d, w), n.servers[w], header, t)
    requires writes == AcceptedNow(d, w, n.servers[w], header, t)
    ensures Possible(d, n, Client(w, header, t)) && Next(d, n, Client(w, header, t)) == Handled(n, w, r, writes)
  {
  }

  // ---- one key of the net, as the protocol sees it ----------------------------------------------

  /** The gossip a thread keeps until it knows the key's factor. */
  function HeldBy(s: Server, key: Key): (r: seq<Value>) {
    if key in s.gossip then s.gossip[key] else []
  }

  function Messages(bag: multiset<Output>, key: Key): (r: set<Parcel<Value>>)
    ensures forall t, v :: Parcel(t, v) in r <==> Gossip(t, key, v) in bag
  {
    set o | o in bag && o.Gossip? && o.key == key :: Parcel(o.to, o.value)
  }

  function Kept(servers: map<ServerThread, Server>, key: Key): (r: set<Parcel<Value>>)
    ensures forall q :: q in r <==> q.to in servers && q.value in HeldBy(servers[q.to], key)
  {
    set w, v | w in servers && v in HeldBy(servers[w], key) :: Parcel(w, v)
  }

  function Vals(servers: map<ServerThread, Server>, key: Key): (r: map<ServerThread, Value>) {
    map w | w in servers && Val(servers[w], key).Some? :: Val(servers[w], key).value
  }

  function Dirty(servers: map<ServerThread, Server>, key: Key): (r: set<ServerThread>) {
    set w | w in servers && key in servers[w].changes
  }

  function ViewOf(net: Net, key: Key): (r: View<Value>) {
    View(Vals(net.servers, key), Dirty(net.servers, key), Messages(net.bag, key) + Kept(net.servers, key),
         (set a | a in net.accepted && a.key == key :: a.value))
  }

  function MergeVal(was: Option<Value>, x: Value): (r: Option<Value>) {
    Some(if was.Some? then Combine(was.value, x) else x)
  }

  /** The step changed nothing about `key` at this thread. */
  predicate Same(s: Server, s': Server, key: Key) {
    && Val(s', key) == Val(s, key) && (key in s'.changes <==> key in s.changes) && HeldBy(s', key) == HeldBy(s, key)
  }

  /** The step merged `x` into `key`, as a write that is to be gossiped or as gossip, and did nothing else. */
  ghost predicate Did(s: Server, s': Server, key: Key, x: Value, write: bool) {
    && Val(s', key) == MergeVal(Val(s, key), x)
    && (key in s'.changes <==> write || key in s.changes)
    && HeldBy(s', key) == HeldBy(s, key)
    && forall k :: k != key ==> Same(s, s', k)
  }

  ghost predicate Good(d: Deployment, net: Net, key: Key) {
    Spreads(d.carrier(key), Below, Combine, Replicas(d, key), ViewOf(net, key))
  }

  lemma ValsAfter(servers: map<ServerThread, Server>, w: ServerThread, s': Server, key: Key)
    requires w in servers
    ensures Vals(servers[w := s'], key)
         == if Val(s', key).Some? then Vals(servers, key)[w := Val(s', key).value] else Vals(servers, key) - {w}
  {
  }

  lemma DirtyAfter(servers: map<ServerThread, Server>, w: ServerThread, s': Server, key: Key)
    requires w in servers
    ensures Dirty(servers[w := s'], key)
         == if key in s'.changes then Dirty(servers, key) + {w} else Dirty(servers, key) - {w}
  {
  }

  /** Replacing one thread's state, in terms of views. */
  lemma ViewAfter(net: Net, w: ServerThread, s': Server, key: Key)
    requires w in net.servers
    ensures var v, v' := ViewOf(net, key), ViewOf(net.(servers := net.servers[w := s']), key);
            && v'.val == (if Val(s', key).Some? then v.val[w := Val(s', key).value] else v.val - {w})
            && v'.dirty == (if key in s'.changes then v.dirty + {w} else v.dirty - {w})
            && v'.accepted == v.accepted
  {
    ValsAfter(net.servers, w, s', key);
    DirtyAfter(net.servers, w, s', key);
  }

  /** Nothing about the key's value or its changes is new. */
  lemma ValsSame(servers: map<ServerThread, Server>, w: ServerThread, s': Server, key: Key)
    requires w in servers && Val(s', key) == Val(servers[w], key) && (key in s'.changes <==> key in servers[w].changes)
    ensures Vals(servers[w := s'], key) == Vals(servers, key) && Dirty(servers[w := s'], key) == Dirty(servers, key)
  {
  }

  lemma TransitAfter(net: Net, w: ServerThread, s': Server, key: Key)
    requires w in net.servers && HeldBy(s', key) == HeldBy(net.servers[w], key)
    ensures ViewOf(net.(servers := net.servers[w := s']), key).transit == ViewOf(net, key).transit
  {
    var servers := net.servers[w := s'];
    forall q ensures q in Kept(servers, key) <==> q in Kept(net.servers, key) {
    }
    assert Kept(servers, key) == Kept(net.servers, key);
  }

  lemma SameView(net: Net, w: ServerThread, s': Server, key: Key)
    requires w in net.servers && Same(net.servers[w], s', key)
    ensures ViewOf(net.(servers := net.servers[w := s']), key) == ViewOf(net, key)
  {
    ValsSame(net.servers, w, s', key);
    TransitAfter(net, w, s', key);
  }

  /** Merging at `w` is the protocol's merge at `w`. */
  lemma MergedView(net: Net, w: ServerThread, s': Server, key: Key, x: Value, write: bool)
    requires w in net.servers && Did(net.servers[w], s', key, x, write)
    ensures var v, v' := ViewOf(net, key), ViewOf(net.(servers := net.servers[w := s']), key);
            v' == v.(val := MergeAt(Combine, v.val, w, x), dirty := if write then v.dirty + {w} else v.dirty)
  {
    ViewAfter(net, w, s', key);
    TransitAfter(net, w, s', key);
    var v := ViewOf(net, key);
    assert w in v.val <==> Val(net.servers[w], key).Some?;
    assert w in v.dirty <==> key in net.servers[w].changes;
  }

  /** Other writes do not matter to a key; a write of the key is added to its accepted ones. */
  lemma AcceptedView(net: Net, a: Write, key: Key)
    ensures a.key == key ==>
              ViewOf(net.(accepted := net.accepted + {a}), key)
              == ViewOf(net, key).(accepted := ViewOf(net, key).accepted + {a.value})
    ensures a.key != key ==> ViewOf(net.(accepted := net.accepted + {a}), key) == ViewOf(net, key)
  {
    var v, v' := ViewOf(net, key), ViewOf(net.(accepted := net.accepted + {a}), key);
    forall x ensures x in v'.accepted <==> x in v.accepted || (a.key == key && x == a.value) {
      if x in v.accepted { assert Write(key, x) in net.accepted; }
      if a.key == key && x == a.value { assert Write(key, x) in net.accepted + {a}; }
    }
  }

  lemma WrittenView(net: Net, w: ServerThread, s': Server, key: Key, x: Value)
    requires w in net.servers && Did(net.servers[w], s', key, x, true)
    ensures var v := ViewOf(net, key);
            ViewOf(net.(servers := net.servers[w := s'], accepted := net.accepted + {Write(key, x)}), key)
            == View(MergeAt(Combine, v.val, w, x), v.dirty + {w}, v.transit, v.accepted + {x})
  {
    AcceptedView(net.(servers := net.servers[w := s']), Write(key, x), key);
    MergedView(net, w, s', key, x, true);
  }

  lemma OtherWrite(net: Net, w: ServerThread, s': Server, key: Key, x: Value, k: Key)
    requires w in net.servers && Did(net.servers[w], s', key, x, true) && k != key
    ensures ViewOf(net.(servers := net.servers[w := s'], accepted := net.accepted + {Write(key, x)}), k)
         == ViewOf(net, k)
  {
    SameView(net, w, s', k);
    AcceptedView(net.(servers := net.servers[w := s']), Write(key, x), k);
  }

  /** Accepting a write keeps every key good. */
  lemma WriteKeeps(d: Deployment, net: Net, w: ServerThread, s': Server, key: Key, x: Value, k: Key)
    requires Merging(d) && Good(d, net, k) && w in net.servers
    requires Did(net.servers[w], s', key, x, true) && w in Replicas(d, key) && d.carrier(key)(x)
    ensures Good(d, net.(servers := net.servers[w := s'], accepted := net.accepted + {Write(key, x)}), k)
  {
    if k == key {
      assert Joins(d, k);
      WrittenView(net, w, s', key, x);
      PutKeeps(d.carrier(k), Below, Combine, Replicas(d, k), ViewOf(net, k), w, x);
    } else {
      OtherWrite(net, w, s', key, x, k);
    }
  }

  /** Merging a value that was on its way keeps every key good, and the value is then below what the thread holds. */
  lemma ArrivalKeeps(d: Deployment, net: Net, w: ServerThread, s': Server, key: Key, x: Value, k: Key)
    requires Merging(d) && Good(d, net, k) && w in net.servers
    requires Did(net.servers[w], s', key, x, false) && Parcel(w, x) in ViewOf(net, key).transit
    ensures Good(d, net.(servers := net.servers[w := s']), k)
    ensures k == key ==> Val(s', key).Some? && Below(x, Val(s', key).value)
  {
    if k == key {
      assert Joins(d, k);
      MergedView(net, w, s', key, x, false);
      ArriveKeeps(d.carrier(k), Below, Combine, Replicas(d, k), ViewOf(net, k), w, x);
    } else {
      SameView(net, w, s', k);
    }
  }
}
