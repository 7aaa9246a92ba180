/** How the monitoring node changes replication factors: a write per key, and a notice to whoever is concerned. */
module Monitor {
  import opened Types
  import opened Walk
  import opened Ring
  import opened RingMap
  import opened Metadata
  import opened Responsibility

  type Factors = map<Key, KeyReplication>

  const NOTHING := KeyReplication(map[], map[])

  /** Reading an entry that does not exist gives one without factors, as `operator[]` does. */
  function Lookup(reps: Factors, key: Key): (r: KeyReplication) {
    if key in reps then reps[key] else NOTHING
  }

  /** `operator==`, which looks only at the tiers its left side lists. */
  predicate Matches(lhs: KeyReplication, rhs: KeyReplication) {
    && (forall t :: t in lhs.global ==> t in rhs.global && rhs.global[t] == lhs.global[t])
    && (forall t :: t in lhs.local ==> t in rhs.local && rhs.local[t] == lhs.local[t])
  }

  /** The comparison is equality exactly when it holds both ways. */
  lemma MatchesBothWays(a: KeyReplication, b: KeyReplication)
    ensures Matches(a, b) && Matches(b, a) <==> a == b
  {
    if Matches(a, b) && Matches(b, a) {
      assert a.global == b.global && a.local == b.local;
    }
  }

  /** What comes back from one storage thread: nothing in time, or the metadata keys it refused. */
  datatype Outcome = TimedOut | Answered(refused: set<Key>)

  /** Where a metadata key would be written, if anywhere, and what comes back from there. */
  datatype Storage = Storage(target: Key -> Option<ServerThread>, outcome: ServerThread -> Outcome)

  datatype Node = ServerNode(ip: Address) | RoutingNode(ip: Address)

  /** A node is told the factors of a key. */
  datatype Notice = Notice(to: Node, key: Key, rep: KeyReplication)

  // ---- the factors ------------------------------------------------------------------------------

  /** A request that changes something. */
  predicate Changes(reps: Factors, key: Key, rep: KeyReplication) {
    !Matches(rep, Lookup(reps, key))
  }

  /** The map once the requests are written into it. */
  function Written(reps: Factors, requests: Factors): (r: Factors) {
    reps + map k | k in requests :: if Changes(reps, k, requests[k]) then requests[k] else Lookup(reps, k)
  }

  /** A metadata key in the request to a thread; a set of them is a map from threads to what they are sent. */
  datatype MetadataPut = MetadataPut(at: ServerThread, key: Key)

  /** What is sent, given where each metadata key would be written. */
  function SentTo(target: Key -> Option<ServerThread>, reps: Factors, requests: Factors): (r: set<MetadataPut>) {
    set k | k in requests && Changes(reps, k, requests[k]) && target(ReplicationKey(k)).Some?
      :: MetadataPut(target(ReplicationKey(k)).value, ReplicationKey(k))
  }

  function Sent(storage: Storage, reps: Factors, requests: Factors): (r: set<MetadataPut>) {
    SentTo(storage.target, reps, requests)
  }

  /** The keys whose write is taken to have failed: all in a request that timed out, and those an answer refuses. */
  function FailedIn(storage: Storage, sent: set<MetadataPut>): (r: set<Key>) {
    TimedOutIn(storage, sent) + RefusedIn(storage, sent)
  }

  function TimedOutIn(storage: Storage, sent: set<MetadataPut>): (r: set<Key>) {
    set p | p in sent && storage.outcome(p.at).TimedOut? :: KeyOf(p.key)
  }

  function RefusedIn(storage: Storage, sent: set<MetadataPut>): (r: set<Key>) {
    set p, m | p in sent && storage.outcome(p.at).Answered? && m in storage.outcome(p.at).refused :: KeyOf(m)
  }

  function Failed(storage: Storage, reps: Factors, requests: Factors): (r: set<Key>) {
    FailedIn(storage, Sent(storage, reps, requests))
  }

  /** Reading the factor of a tier leaves an explicit 0 where none was listed. */
  function Filled(rep: KeyReplication, tiers: seq<Tier>): (r: KeyReplication) {
    if tiers == [] then rep
    else
      var before := Filled(rep, tiers[..|tiers| - 1]);
      var tier := tiers[|tiers| - 1];
      before.(global := before.global[tier := Factor(before.global, tier)])
  }

  /** The factors once the nodes concerned by `keys` have been told. */
  function Told(reps: Factors, keys: set<Key>): (r: Factors) {
    reps + map k | k in keys :: Filled(Lookup(reps, k), ALL_TIERS)
  }

  /** What the requested keys had; failed keys are set back to it. */
  function Originals(reps: Factors, requests: Factors): (r: Factors) {
    map k | k in requests :: Lookup(reps, k)
  }

  function Restored(reps: Factors, failed: set<Key>, original: Factors): (r: Factors) {
    reps + map k | k in failed :: Lookup(original, k)
  }

  predicate Refuses(storage: Storage, at: ServerThread, m: Key) {
    storage.outcome(at).Answered? && m in storage.outcome(at).refused
  }

  /** The write of a changed key is not answered in time. */
  predicate Unanswered(storage: Storage, reps: Factors, requests: Factors, key: Key) {
    && key in requests && Changes(reps, key, requests[key])
    && var target := storage.target(ReplicationKey(key));
       target.Some? && storage.outcome(target.value).TimedOut?
  }

  /** Some thread that was written to refuses the key, whether or not it was asked about it. */
  ghost predicate Refused(storage: Storage, reps: Factors, requests: Factors, key: Key) {
    exists p, m :: p in Sent(storage, reps, requests) && Refuses(storage, p.at, m) && KeyOf(m) == key
  }

  /** A metadata key that was sent leads back to the key it was made for, whatever characters that contains. */
  lemma SentBack(storage: Storage, reps: Factors, requests: Factors, p: MetadataPut)
    requires p in Sent(storage, reps, requests)
    ensures var k := KeyOf(p.key);
            && k in requests && ReplicationKey(k) == p.key && Changes(reps, k, requests[k])
            && storage.target(p.key) == Some(p.at)
  {
    var k :| k in requests && Changes(reps, k, requests[k]) && storage.target(ReplicationKey(k)).Some?
             && p == MetadataPut(storage.target(ReplicationKey(k)).value, ReplicationKey(k));
    ReplicationKeyRoundTrip(k);
  }

  /** Which keys fail, from the answers: those whose write is not answered in time, and those some answer refuses. */
  lemma FailedExactly(storage: Storage, reps: Factors, requests: Factors, key: Key)
    ensures key in Failed(storage, reps, requests)
       <==> Unanswered(storage, reps, requests, key) || Refused(storage, reps, requests, key)
  {
    var sent := Sent(storage, reps, requests);
    ReplicationKeyRoundTrip(key);
    if p :| p in sent && storage.outcome(p.at).TimedOut? && KeyOf(p.key) == key {
      SentBack(storage, reps, requests, p);
    }
    if Unanswered(storage, reps, requests, key) {
      var p := MetadataPut(storage.target(ReplicationKey(key)).value, ReplicationKey(key));
      assert p in sent;
    }
    if key in RefusedIn(storage, sent) {
      var p, m :| p in sent && storage.outcome(p.at).Answered? && m in storage.outcome(p.at).refused && KeyOf(m) == key;
      assert Refuses(storage, p.at, m);
    }
  }

  /** The factors after the whole change. */
  function Final(storage: Storage, reps: Factors, requests: Factors): (r: Factors) {
    var failed := Failed(storage, reps, requests);
    Restored(Told(Written(reps, requests), requests.Keys - failed), failed, Originals(reps, requests))
  }

  /** Key by key: set back if it failed, told if it was requested, otherwise as written. */
  lemma FinalAt(storage: Storage, reps: Factors, requests: Factors, key: Key)
    ensures var final, failed := Final(storage, reps, requests), Failed(storage, reps, requests);
            && (key in final <==> key in reps || key in requests || key in failed)
            && Lookup(final, key)
               == if key in failed then Lookup(Originals(reps, requests), key)
                  else if key in requests then Filled(Lookup(Written(reps, requests), key), ALL_TIERS)
                  else Lookup(reps, key)
  {
    var failed := Failed(storage, reps, requests);
    WrittenAt(reps, requests, key);
    RestoredAt(Told(Written(reps, requests), requests.Keys - failed), failed, Originals(reps, requests), key);
    ToldAt(Written(reps, requests), requests.Keys - failed, key);
  }

  lemma ToldAt(reps: Factors, keys: set<Key>, key: Key)
    ensures key in Told(reps, keys) <==> key in reps || key in keys
    ensures Lookup(Told(reps, keys), key)
         == if key in keys then Filled(Lookup(reps, key), ALL_TIERS) else Lookup(reps, key)
  {
  }

  lemma RestoredAt(reps: Factors, failed: set<Key>, original: Factors, key: Key)
    ensures key in Restored(reps, failed, original) <==> key in reps || key in failed
    ensures Lookup(Restored(reps, failed, original), key) == Lookup(if key in failed then original else reps, key)
  {
  }

  /** Explicit zeros change no factor. */
  lemma {:induction false} FilledSame(rep: KeyReplication, tiers: seq<Tier>)
    ensures Filled(rep, tiers).local == rep.local
    ensures forall t :: Factor(Filled(rep, tiers).global, t) == Factor(rep.global, t)
    ensures forall t :: t in rep.global ==> t in Filled(rep, tiers).global
  {
    if tiers != [] {
      FilledSame(rep, tiers[..|tiers| - 1]);
    }
  }

  /** The two give the same factors, whether they list zeros or not. */
  ghost predicate SameFactors(rep: KeyReplication, final: KeyReplication) {
    final.local == rep.local && forall t :: Factor(final.global, t) == Factor(rep.global, t)
  }

  /**
   * A factor change is all or nothing for every key, whatever comes back. A requested key that failed has exactly the
   * factors it had; any other requested key has every requested factor, and exactly those if they differ from what it
   * had. A key that was not requested has what it had, unless an answer refuses it, and then it has none.
   */
  lemma AllOrNothing(storage: Storage, reps: Factors, requests: Factors, key: Key)
    ensures var final := Final(storage, reps, requests);
            var failed := Unanswered(storage, reps, requests, key) || Refused(storage, reps, requests, key);
            if key !in requests then
              && (key in final <==> key in reps || failed)
              && Lookup(final, key) == if failed then NOTHING else Lookup(reps, key)
            else
              && key in final
              && if failed then final[key] == Lookup(reps, key)
                 else if Changes(reps, key, requests[key]) then SameFactors(requests[key], final[key])
                 else SameFactors(Lookup(reps, key), final[key]) && Matches(requests[key], final[key])
  {
    FailedExactly(storage, reps, requests, key);
    FinalAt(storage, reps, requests, key);
    WrittenAt(reps, requests, key);
    if key in requests {
      FilledSame(Lookup(Written(reps, requests), key), ALL_TIERS);
      if !Changes(reps, key, requests[key]) {
        StillMatches(requests[key], Lookup(reps, key));
      }
    }
  }

  lemma StillMatches(asked: KeyReplication, had: KeyReplication)
    requires Matches(asked, had)
    ensures Matches(asked, Filled(had, ALL_TIERS))
  {
    FilledSame(had, ALL_TIERS);
    forall t | t in asked.global ensures Filled(had, ALL_TIERS).global[t] == asked.global[t] {
      assert Factor(Filled(had, ALL_TIERS).global, t) == Factor(had.global, t);
    }
  }

  /** A key nobody asked to change keeps its factors exactly when no answer refuses it or it had none. */
  lemma UnaskedExactly(storage: Storage, reps: Factors, requests: Factors, key: Key)
    requires key !in requests
    ensures Lookup(Final(storage, reps, requests), key) == Lookup(reps, key)
       <==> !Refused(storage, reps, requests, key) || Lookup(reps, key) == NOTHING
  {
    AllOrNothing(storage, reps, requests, key);
  }

  // ---- who is told ------------------------------------------------------------------------------

  function Larger(a: nat, b: nat): (r: nat) {
    if a < b then b else a
  }

  /** The servers of a tier that are told about `key`: its owners under the larger of the two factors. */
  function Concerned(hs: Hashes, rings: Rings, key: Key, tier: Tier, now: KeyReplication, was: KeyReplication)
    : (r: seq<Address>)
  {
    ServersFor(hs, rings, key, tier, Larger(Factor(now.global, tier), Factor(was.global, tier)))
  }

  /** The owners under the larger factor include those under either. */
  lemma ConcernedCovers(hs: Hashes, rings: Rings, key: Key, tier: Tier, now: KeyReplication, was: KeyReplication,
                        ip: Address)
    requires ip in ServersFor(hs, rings, key, tier, Factor(now.global, tier))
          || ip in ServersFor(hs, rings, key, tier, Factor(was.global, tier))
    ensures ip in Concerned(hs, rings, key, tier, now, was)
  {
    var a, b := Factor(now.global, tier), Factor(was.global, tier);
    OwnersPrefix(GlobalNodes(rings, tier), hs.globalKey(key), a, Larger(a, b));
    OwnersPrefix(GlobalNodes(rings, tier), hs.globalKey(key), b, Larger(a, b));
  }

  function ConcernedBy(hs: Hashes, rings: Rings, key: Key, now: KeyReplication, was: KeyReplication)
    : (r: Tier -> seq<Address>)
  {
    tier => Concerned(hs, rings, key, tier, now, was)
  }

  /** The notices about one key to the servers of each tier. */
  function NoticesTo(tiers: seq<Tier>, concerned: Tier -> seq<Address>, key: Key, now: KeyReplication)
    : (r: set<Notice>)
  {
    if tiers == [] then {}
    else
      NoticesTo(tiers[..|tiers| - 1], concerned, key, now)
      + set ip | ip in concerned(tiers[|tiers| - 1]) :: Notice(ServerNode(ip), key, Filled(now, tiers))
  }

  /** The notices about one key: tier by tier, then the routing nodes. */
  function NoticesAbout(concerned: Tier -> seq<Address>, routing: set<Address>, key: Key, now: KeyReplication)
    : (r: set<Notice>)
  {
    NoticesTo(ALL_TIERS, concerned, key, now)
    + set ip | ip in routing :: Notice(RoutingNode(ip), key, Filled(now, ALL_TIERS))
  }

  /** What is sent about a key, given the factors now and before. */
  function Telling(hs: Hashes, rings: Rings, routing: set<Address>, now: Factors, was: Factors, key: Key)
    : (r: set<Notice>)
  {
    NoticesAbout(ConcernedBy(hs, rings, key, Lookup(now, key), Lookup(was, key)), routing, key, Lookup(now, key))
  }

  function NoticesOver(hs: Hashes, rings: Rings, routing: set<Address>, now: Factors, was: Factors, keys: set<Key>)
    : (r: set<Notice>)
  {
    Gather(keys, k => Telling(hs, rings, routing, now, was, k))
  }

  function Gather(keys: set<Key>, about: Key -> set<Notice>): (r: set<Notice>) {
    set k, n | k in keys && n in about(k) :: n
  }

  lemma GatherHas(keys: set<Key>, about: Key -> set<Notice>, key: Key, n: Notice)
    requires key in keys && n in about(key)
    ensures n in Gather(keys, about)
  {
  }

  lemma GatherNext(keys: set<Key>, about: Key -> set<Notice>, key: Key)
    ensures Gather(keys + {key}, about) == Gather(keys, about) + about(key)
  {
  }

  function Notices(hs: Hashes, rings: Rings, routing: set<Address>, storage: Storage, reps: Factors, requests: Factors)
    : (r: set<Notice>)
  {
    NoticesOver(hs, rings, routing, Written(reps, requests), Originals(reps, requests),
                requests.Keys - Failed(storage, reps, requests))
  }

  lemma {:induction false} NoticesToCover(tiers: seq<Tier>, concerned: Tier -> seq<Address>, key: Key,
                                          now: KeyReplication, tier: Tier, ip: Address) returns (n: Notice)
    requires tier in tiers && ip in concerned(tier)
    ensures n in NoticesTo(tiers, concerned, key, now) && n.to == ServerNode(ip)
  {
    var last := |tiers| - 1;
    if tiers[last] == tier {
      n := Notice(ServerNode(ip), key, Filled(now, tiers));
    } else {
      n := NoticesToCover(tiers[..last], concerned, key, now, tier, ip);
    }
  }

  lemma {:induction false} NoticesToSay(tiers: seq<Tier>, concerned: Tier -> seq<Address>, key: Key,
                                        now: KeyReplication, n: Notice)
    requires n in NoticesTo(tiers, concerned, key, now)
    ensures n.key == key && SameFactors(now, n.rep)
  {
    if n in NoticesTo(tiers[..|tiers| - 1], concerned, key, now) {
      NoticesToSay(tiers[..|tiers| - 1], concerned, key, now, n);
    } else {
      FilledSame(now, tiers);
    }
  }

  /** Every notice about a key names it and gives its factors. */
  lemma NoticesAboutSay(concerned: Tier -> seq<Address>, routing: set<Address>, key: Key, now: KeyReplication,
                        n: Notice)
    requires n in NoticesAbout(concerned, routing, key, now)
    ensures n.key == key && SameFactors(now, n.rep)
  {
    FilledSame(now, ALL_TIERS);
    if n in NoticesTo(ALL_TIERS, concerned, key, now) {
      NoticesToSay(ALL_TIERS, concerned, key, now, n);
    }
  }

  lemma TellingSays(hs: Hashes, rings: Rings, routing: set<Address>, now: Factors, was: Factors, key: Key, n: Notice)
    requires n in Telling(hs, rings, routing, now, was, key)
    ensures n.key == key && SameFactors(Lookup(now, key), n.rep)
  {
    NoticesAboutSay(ConcernedBy(hs, rings, key, Lookup(now, key), Lookup(was, key)), routing, key, Lookup(now, key), n);
  }

  lemma FinalUnfailed(storage: Storage, reps: Factors, requests: Factors, key: Key)
    requires key in requests && key !in Failed(storage, reps, requests)
    ensures key in Final(storage, reps, requests)
    ensures Final(storage, reps, requests)[key] == Filled(Lookup(Written(reps, requests), key), ALL_TIERS)
  {
    FinalAt(storage, reps, requests, key);
  }

  /** Nodes are told only about requested keys that did not fail, and with the factors those keys end up with. */
  lemma NoticesTrue(hs: Hashes, rings: Rings, routing: set<Address>, storage: Storage, reps: Factors, requests: Factors,
                    n: Notice)
    requires n in Notices(hs, rings, routing, storage, reps, requests)
    ensures var final := Final(storage, reps, requests);
            && n.key in requests && n.key !in Failed(storage, reps, requests)
            && n.key in final && SameFactors(final[n.key], n.rep)
  {
    var now, was := Written(reps, requests), Originals(reps, requests);
    assert n in NoticesOver(hs, rings, routing, now, was, requests.Keys - Failed(storage, reps, requests));
    var k :| k in requests.Keys - Failed(storage, reps, requests) && n in Telling(hs, rings, routing, now, was, k);
    TellingSays(hs, rings, routing, now, was, k, n);
    FinalUnfailed(storage, reps, requests, k);
    FilledSame(Lookup(now, k), ALL_TIERS);
  }

  lemma GatheredFrom(hs: Hashes, rings: Rings, routing: set<Address>, now: Factors, was: Factors, keys: set<Key>,
                     key: Key, n: Notice)
    requires key in keys && n in Telling(hs, rings, routing, now, was, key)
    ensures n in NoticesOver(hs, rings, routing, now, was, keys)
  {
    GatherHas(keys, k => Telling(hs, rings, routing, now, was, k), key, n);
  }

  lemma NoticeFor(concerned: Tier -> seq<Address>, routing: set<Address>, key: Key, now: KeyReplication, tier: Tier,
                  ip: Address) returns (n: Notice)
    requires ip in concerned(tier)
    ensures n in NoticesAbout(concerned, routing, key, now) && n.to == ServerNode(ip) && n.key == key
  {
    assert tier in ALL_TIERS;
    n := NoticesToCover(ALL_TIERS, concerned, key, now, tier, ip);
    NoticesToSay(ALL_TIERS, concerned, key, now, n);
  }

  lemma {:induction false} NoticesToFrom(tiers: seq<Tier>, concerned: Tier -> seq<Address>, key: Key,
                                         now: KeyReplication, n: Notice) returns (tier: Tier)
    requires n in NoticesTo(tiers, concerned, key, now)
    ensures tier in tiers && n.to.ServerNode? && n.to.ip in concerned(tier)
  {
    var last := |tiers| - 1;
    if n in NoticesTo(tiers[..last], concerned, key, now) {
      tier := NoticesToFrom(tiers[..last], concerned, key, now, n);
    } else {
      tier := tiers[last];
    }
  }

  /** The server owns the key in some tier, under the factors it has now or under those it had. */
  ghost predicate OwnsEither(hs: Hashes, rings: Rings, key: Key, now: KeyReplication, was: KeyReplication,
                             ip: Address) {
    exists tier ::
      || ip in ServersFor(hs, rings, key, tier, Factor(now.global, tier))
      || ip in ServersFor(hs, rings, key, tier, Factor(was.global, tier))
  }

  /** Who is to be told about a key: every routing node, and the servers that own it before or after. */
  ghost predicate ToBeTold(hs: Hashes, rings: Rings, routing: set<Address>, key: Key, now: KeyReplication,
                           was: KeyReplication, to: Node) {
    match to
    case RoutingNode(ip) => ip in routing
    case ServerNode(ip) => OwnsEither(hs, rings, key, now, was, ip)
  }

  lemma ToldRightly(hs: Hashes, rings: Rings, routing: set<Address>, key: Key, now: KeyReplication, was: KeyReplication,
                    n: Notice)
    requires n in NoticesAbout(ConcernedBy(hs, rings, key, now, was), routing, key, now)
    ensures ToBeTold(hs, rings, routing, key, now, was, n.to)
  {
    var concerned := ConcernedBy(hs, rings, key, now, was);
    if n in NoticesTo(ALL_TIERS, concerned, key, now) {
      var tier := NoticesToFrom(ALL_TIERS, concerned, key, now, n);
      assert n.to.ip in Concerned(hs, rings, key, tier, now, was);
    }
  }

  lemma ToldAll(hs: Hashes, rings: Rings, routing: set<Address>, key: Key, now: KeyReplication, was: KeyReplication,
                to: Node) returns (n: Notice)
    requires ToBeTold(hs, rings, routing, key, now, was, to)
    ensures n in NoticesAbout(ConcernedBy(hs, rings, key, now, was), routing, key, now) && n.to == to
  {
    match to
    case RoutingNode(ip) =>
      n := Notice(RoutingNode(ip), key, Filled(now, ALL_TIERS));
    case ServerNode(ip) =>
      var tier :| || ip in ServersFor(hs, rings, key, tier, Factor(now.global, tier))
                  || ip in ServersFor(hs, rings, key, tier, Factor(was.global, tier));
      ConcernedCovers(hs, rings, key, tier, now, was, ip);
      n := NoticeFor(ConcernedBy(hs, rings, key, now, was), routing, key, now, tier, ip);
  }

  lemma SameOwners(hs: Hashes, rings: Rings, routing: set<Address>, key: Key, now: KeyReplication,
                   final: KeyReplication, was: KeyReplication, to: Node)
    requires SameFactors(now, final)
    ensures ToBeTold(hs, rings, routing, key, now, was, to) <==> ToBeTold(hs, rings, routing, key, final, was, to)
  {
    assert forall tier :: Factor(final.global, tier) == Factor(now.global, tier);
  }

  /** A notice comes from what is told about the key it names. */
  lemma GatheredBack(hs: Hashes, rings: Rings, routing: set<Address>, now: Factors, was: Factors, keys: set<Key>,
                     n: Notice)
    requires n in NoticesOver(hs, rings, routing, now, was, keys)
    ensures n.key in keys && n in Telling(hs, rings, routing, now, was, n.key)
  {
    var k :| k in keys && n in Telling(hs, rings, routing, now, was, k);
    TellingSays(hs, rings, routing, now, was, k, n);
  }

  /** Nobody is told about a key who is not to be. */
  lemma ToldOnly(hs: Hashes, rings: Rings, routing: set<Address>, storage: Storage, reps: Factors, requests: Factors,
                 n: Notice)
    requires n in Notices(hs, rings, routing, storage, reps, requests)
    ensures var final := Lookup(Final(storage, reps, requests), n.key);
            ToBeTold(hs, rings, routing, n.key, final, Lookup(reps, n.key), n.to)
  {
    var now, was := Written(reps, requests), Originals(reps, requests);
    var rep, had := Lookup(now, n.key), Lookup(reps, n.key);
    GatheredBack(hs, rings, routing, now, was, requests.Keys - Failed(storage, reps, requests), n);
    assert Lookup(was, n.key) == had;
    ToldRightly(hs, rings, routing, n.key, rep, had, n);
    FinalUnfailed(storage, reps, requests, n.key);
    FilledSame(rep, ALL_TIERS);
    SameOwners(hs, rings, routing, n.key, rep, Filled(rep, ALL_TIERS), had, n.to);
  }

  /** Everybody who is to be told about a key is. */
  lemma ToldEvery(hs: Hashes, rings: Rings, routing: set<Address>, storage: Storage, reps: Factors, requests: Factors,
                  key: Key, to: Node) returns (n: Notice)
    requires key in requests && key !in Failed(storage, reps, requests)
    requires ToBeTold(hs, rings, routing, key, Lookup(Final(storage, reps, requests), key), Lookup(reps, key), to)
    ensures n in Notices(hs, rings, routing, storage, reps, requests) && n.to == to && n.key == key
  {
    var now, was := Written(reps, requests), Originals(reps, requests);
    var rep, had := Lookup(now, key), Lookup(reps, key);
    FinalUnfailed(storage, reps, requests, key);
    FilledSame(rep, ALL_TIERS);
    SameOwners(hs, rings, routing, key, rep, Filled(rep, ALL_TIERS), had, to);
    assert Lookup(was, key) == had;
    n := ToldAll(hs, rings, routing, key, rep, had, to);
    GatheredFrom(hs, rings, routing, now, was, requests.Keys - Failed(storage, reps, requests), key, n);
    TellingSays(hs, rings, routing, now, was, key, n);
  }

  /** Some notice tells this node these factors of the key. */
  ghost predicate IsTold(notices: set<Notice>, to: Node, key: Key, rep: KeyReplication) {
    exists n :: n in notices && n.to == to && n.key == key && SameFactors(rep, n.rep)
  }

  lemma ToldBy(notices: set<Notice>, to: Node, key: Key, rep: KeyReplication) returns (n: Notice)
    requires IsTold(notices, to, key, rep)
    ensures n in notices && n.to == to && n.key == key
  {
    n :| n in notices && n.to == to && n.key == key && SameFactors(rep, n.rep);
  }

  /**
   * For a requested key that did not fail, a notice with the factors it ends up with goes to every routing node and to
   * every server that owns it in some tier under the new or the old factors, and to no other node.
   */
  lemma ToldExactly(hs: Hashes, rings: Rings, routing: set<Address>, storage: Storage, reps: Factors,
                    requests: Factors, key: Key, to: Node)
    requires key in requests && key !in Failed(storage, reps, requests)
    ensures var final := Lookup(Final(storage, reps, requests), key);
            IsTold(Notices(hs, rings, routing, storage, reps, requests), to, key, final)
            <==> ToBeTold(hs, rings, routing, key, final, Lookup(reps, key), to)
  {
    var final := Lookup(Final(storage, reps, requests), key);
    if ToBeTold(hs, rings, routing, key, final, Lookup(reps, key), to) {
      var n := ToldEvery(hs, rings, routing, storage, reps, requests, key, to);
      NoticesTrue(hs, rings, routing, storage, reps, requests, n);
    }
    if IsTold(Notices(hs, rings, routing, storage, reps, requests), to, key, final) {
      var n := ToldBy(Notices(hs, rings, routing, storage, reps, requests), to, key, final);
      ToldOnly(hs, rings, routing, storage, reps, requests, n);
    }
  }

  // ---- the monitoring node ----------------------------------------------------------------------

  class MonitoringNode {
    const hs: Hashes
    const routing: set<Address>
    var rings: Rings
    var reps: Factors

    constructor (hs: Hashes, routing: set<Address>, rings: Rings)
      ensures this.hs == hs && this.routing == routing && this.rings == rings && reps == map[]
    {
      this.hs, this.routing, this.rings, reps := hs, routing, rings, map[];
    }

    /** One request: written unless it changes nothing, and then sent to wherever its metadata key is kept. */
    method WriteRequest(key: Key, rep: KeyReplication, storage: Storage, sent: set<MetadataPut>)
      returns (sent': set<MetadataPut>)
      modifies this`reps
      ensures reps == WriteOne(old(reps), key, rep)
      ensures sent' == SendOne(storage, sent, key, Changes(old(reps), key, rep))
    {
      sent' := sent;
      if Matches(rep, Lookup(reps, key)) {
        reps := reps[key := Lookup(reps, key)];
      } else {
        reps := reps[key := rep];
        var target := storage.target(ReplicationKey(key));
        if target.Some? {
          sent' := sent + {MetadataPut(target.value, ReplicationKey(key))};
        }
      }
    }

    /** Writing the requests into the map: the factors before, and what is sent to the storage threads. */
    method WriteRequests(requests: Factors, storage: Storage) returns (original: Factors, sent: set<MetadataPut>)
      modifies this`reps
      ensures reps == Written(old(reps), requests)
      ensures original == Originals(old(reps), requests)
      ensures sent == Sent(storage, old(reps), requests)
    {
      original, sent := map[], {};
      var rest := requests.Keys;
      ghost var done: Factors := map[];
      NothingWritten(storage, reps);
      while rest != {}
        invariant rest <= requests.Keys && done == requests - rest
        invariant reps == Written(old(reps), done)
        invariant original == Originals(old(reps), done)
        invariant sent == Sent(storage, old(reps), done)
        decreases rest
      {
        var key :| key in rest;
        OneMoreRequest(requests, rest, key);
        WrittenNext(old(reps), done, key, requests[key]);
        OriginalsNext(old(reps), done, key, requests[key]);
        SentNext(storage, old(reps), done, key, requests[key]);
        original := original[key := Lookup(reps, key)];
        sent := WriteRequest(key, requests[key], storage, sent);
        done := done[key := requests[key]];
        rest := rest - {key};
      }
      assert requests - rest == requests;
    }

    /** Which keys failed, from what comes back from each thread. */
    method CollectFailed(sent: set<MetadataPut>, storage: Storage) returns (failed: set<Key>)
      ensures failed == FailedIn(storage, sent)
    {
      failed := {};
      var addresses := set p | p in sent :: p.at;
      var rest := addresses;
      ghost var done: set<ServerThread> := {};
      while rest != {}
        invariant rest <= addresses && done == addresses - rest && failed == FailedIn(storage, SentAt(sent, done))
        decreases rest
      {
        var at :| at in rest;
        OneMore(addresses, rest, at);
        FailedNext(storage, sent, done, at);
        match storage.outcome(at) {
          case TimedOut =>
            var more := DataKeys(set p | p in sent && p.at == at :: p.key);
            failed := failed + more;
          case Answered(refused) =>
            var more := DataKeys(refused);
            failed := failed + more;
        }
        done := done + {at};
        rest := rest - {at};
      }
      assert SentAt(sent, done) == sent;
    }

    /** The data keys behind the metadata keys of a request or an answer. */
    static method DataKeys(keys: set<Key>) returns (r: set<Key>)
      ensures r == set m | m in keys :: KeyOf(m)
    {
      r := {};
      var rest := keys;
      while rest != {}
        invariant rest <= keys && r == set m | m in keys - rest :: KeyOf(m)
        decreases rest
      {
        var m :| m in rest;
        OneMore(keys, rest, m);
        r := r + {KeyOf(m)};
        rest := rest - {m};
      }
      assert keys - rest == keys;
    }

    /** The servers of one tier are told; the factor read is left in the map. */
    method TellTier(key: Key, tiers: seq<Tier>, tier: Tier, was: KeyReplication, ghost now: KeyReplication)
      returns (notices: set<Notice>)
      requires key in reps && reps[key] == Filled(now, tiers)
      requires Servable(GlobalNodes(rings, tier), hs.globalKey(key),
                        Larger(Factor(now.global, tier), Factor(was.global, tier)))
      modifies this`reps
      ensures reps == old(reps)[key := Filled(now, tiers + [tier])]
      ensures notices == AllTold(Concerned(hs, rings, key, tier, now, was), key, Filled(now, tiers + [tier]))
    {
      FilledSame(now, tiers);
      FilledNext(now, tiers, tier);
      var rep := reps[key];
      var factor := Larger(Factor(rep.global, tier), Factor(was.global, tier));
      rep := rep.(global := rep.global[tier := Factor(rep.global, tier)]);
      reps := reps[key := rep];
      var threads := ResponsibleGlobal(GlobalNodes(rings, tier), hs.globalKey(key), factor);
      notices := TellServers(threads, key, rep);
    }

    static method TellServers(threads: seq<Address>, key: Key, rep: KeyReplication) returns (notices: set<Notice>)
      ensures notices == AllTold(threads, key, rep)
    {
      notices := {};
      for i := 0 to |threads|
        invariant notices == AllTold(threads[..i], key, rep)
      {
        assert forall ip :: ip in threads[..i + 1] <==> ip in threads[..i] || ip == threads[i];
        notices := notices + {Notice(ServerNode(threads[i]), key, rep)};
      }
      assert threads[..|threads|] == threads;
    }

    /** Everyone concerned by one key is told. */
    method TellKey(key: Key, was: KeyReplication) returns (notices: set<Notice>)
      requires key in reps && ReachableKey(hs, rings, key, reps[key], was)
      modifies this`reps
      ensures reps == old(reps)[key := Filled(old(reps)[key], ALL_TIERS)]
      ensures notices == NoticesAbout(ConcernedBy(hs, rings, key, old(reps)[key], was), routing, key, old(reps)[key])
    {
      ghost var now := reps[key];
      assert Reachable(hs, rings, key, Memory, now, was) && Reachable(hs, rings, key, Disk, now, was);
      var memory := TellTier(key, [], Memory, was, now);
      var disk := TellTier(key, [Memory], Disk, was, now);
      NoticesOnce(ConcernedBy(hs, rings, key, now, was), key, now);
      notices := memory + disk + set ip | ip in routing :: Notice(RoutingNode(ip), key, reps[key]);
    }

    /** One more key, after those in `done`. */
    method TellNext(key: Key, original: Factors, ghost before: Factors, ghost done: set<Key>)
      returns (notices: set<Notice>)
      requires reps == Told(before, done) && key !in done && key in before && key in original
      requires ReachableKey(hs, rings, key, before[key], original[key])
      modifies this`reps
      ensures reps == Told(before, done + {key})
      ensures notices == Telling(hs, rings, routing, before, original, key)
    {
      ToldNext(before, done, key);
      notices := TellKey(key, original[key]);
    }

    /** Everyone concerned by the given keys is told. */
    method TellAll(keys: set<Key>, original: Factors) returns (notices: set<Notice>)
      requires keys <= reps.Keys && keys <= original.Keys
      requires forall k :: k in keys ==> ReachableKey(hs, rings, k, reps[k], original[k])
      modifies this`reps
      ensures reps == Told(old(reps), keys)
      ensures notices == NoticesOver(hs, rings, routing, old(reps), original, keys)
    {
      notices := {};
      var rest := keys;
      ghost var done: set<Key> := {};
      NothingTold(hs, rings, routing, reps, original);
      while rest != {}
        invariant rest <= keys && done == keys - rest
        invariant reps == Told(old(reps), done)
        invariant notices == NoticesOver(hs, rings, routing, old(reps), original, done)
        decreases rest
      {
        var key :| key in rest;
        OneMore(keys, rest, key);
        NoticesNext(hs, rings, routing, old(reps), original, done, key);
        var more := TellNext(key, original, old(reps), done);
        notices := notices + more;
        done := done + {key};
        rest := rest - {key};
      }
      assert done == keys;
    }

    /** Failed keys are set back. */
    method Restore(failed: set<Key>, original: Factors)
      modifies this`reps
      ensures reps == Restored(old(reps), failed, original)
    {
      var rest := failed;
      RestoredNone(reps, original);
      while rest != {}
        invariant rest <= failed && reps == Restored(old(reps), failed - rest, original)
        decreases rest
      {
        var key :| key in rest;
        OneMore(failed, rest, key);
        RestoredNext(old(reps), failed - rest, original, key);
        reps := reps[key := Lookup(original, key)];
        rest := rest - {key};
      }
      assert failed - rest == failed;
    }

    /** `change_replication_factor`; the factors asked for must be servable, as its caller has to make sure. */
    method ChangeReplicationFactor(requests: Factors, storage: Storage) returns (notices: set<Notice>)
      requires forall k :: k in requests ==>
                 ReachableKey(hs, rings, k, Lookup(Written(reps, requests), k), Lookup(reps, k))
      modifies this`reps
      ensures reps == Final(storage, old(reps), requests)
      ensures notices == Notices(hs, rings, routing, storage, old(reps), requests)
    {
      var original, sent := WriteRequests(requests, storage);
      var failed := CollectFailed(sent, storage);
      var keys := requests.Keys - failed;
      forall k | k in keys ensures k in reps && k in original && ReachableKey(hs, rings, k, reps[k], original[k]) {
        WrittenAt(old(reps), requests, k);
      }
      notices := TellAll(keys, original);
      Restore(failed, original);
    }
  }

  lemma NothingTold(hs: Hashes, rings: Rings, routing: set<Address>, reps: Factors, was: Factors)
    ensures Told(reps, {}) == reps && NoticesOver(hs, rings, routing, reps, was, {}) == {}
  {
  }

  lemma ToldNext(reps: Factors, done: set<Key>, key: Key)
    requires key !in done && key in reps
    ensures Told(reps, done + {key}) == Told(reps, done)[key := Filled(reps[key], ALL_TIERS)]
    ensures key in Told(reps, done) && Told(reps, done)[key] == reps[key]
  {
  }

  lemma NoticesNext(hs: Hashes, rings: Rings, routing: set<Address>, now: Factors, was: Factors, done: set<Key>,
                    key: Key)
    ensures NoticesOver(hs, rings, routing, now, was, done + {key})
         == NoticesOver(hs, rings, routing, now, was, done) + Telling(hs, rings, routing, now, was, key)
  {
    GatherNext(done, k => Telling(hs, rings, routing, now, was, k), key);
  }

  lemma RestoredNone(reps: Factors, original: Factors)
    ensures Restored(reps, {}, original) == reps
  {
  }

  lemma RestoredNext(reps: Factors, done: set<Key>, original: Factors, key: Key)
    ensures Restored(reps, done + {key}, original) == Restored(reps, done, original)[key := Lookup(original, key)]
  {
  }

  /** The walk for the owners to be told ends. */
  predicate Reachable(hs: Hashes, rings: Rings, key: Key, tier: Tier, now: KeyReplication, was: KeyReplication) {
    Servable(GlobalNodes(rings, tier), hs.globalKey(key), Larger(Factor(now.global, tier), Factor(was.global, tier)))
  }

  ghost predicate ReachableKey(hs: Hashes, rings: Rings, key: Key, now: KeyReplication, was: KeyReplication) {
    forall tier :: Reachable(hs, rings, key, tier, now, was)
  }

  function AllTold(ips: seq<Address>, key: Key, rep: KeyReplication): (r: set<Notice>) {
    set ip | ip in ips :: Notice(ServerNode(ip), key, rep)
  }

  lemma FilledNext(rep: KeyReplication, tiers: seq<Tier>, tier: Tier)
    ensures var before := Filled(rep, tiers);
            Filled(rep, tiers + [tier]) == before.(global := before.global[tier := Factor(before.global, tier)])
  {
    assert (tiers + [tier])[..|tiers|] == tiers;
  }

  lemma NoticesOnce(concerned: Tier -> seq<Address>, key: Key, now: KeyReplication)
    ensures Filled(now, []) == now && [] + [Memory] == [Memory] && [Memory] + [Disk] == ALL_TIERS
    ensures NoticesTo(ALL_TIERS, concerned, key, now)
         == AllTold(concerned(Memory), key, Filled(now, [Memory]))
            + AllTold(concerned(Disk), key, Filled(now, ALL_TIERS))
  {
    assert ALL_TIERS[..1] == [Memory] && [Memory][..0] == [];
    assert NoticesTo([], concerned, key, now) == {};
    assert NoticesTo([Memory], concerned, key, now) == AllTold(concerned(Memory), key, Filled(now, [Memory]));
  }

  // ---- request by request -----------------------------------------------------------------------

  function WriteOne(reps: Factors, key: Key, rep: KeyReplication): (r: Factors) {
    reps[key := if Changes(reps, key, rep) then rep else Lookup(reps, key)]
  }

  function SendOne(storage: Storage, sent: set<MetadataPut>, key: Key, changes: bool): (r: set<MetadataPut>) {
    var target := storage.target(ReplicationKey(key));
    if changes && target.Some? then sent + {MetadataPut(target.value, ReplicationKey(key))} else sent
  }

  lemma OneMoreRequest(requests: Factors, rest: set<Key>, key: Key)
    requires rest <= requests.Keys && key in rest
    ensures requests - (rest - {key}) == (requests - rest)[key := requests[key]] && key !in requests - rest
  {
  }

  lemma NothingWritten(storage: Storage, reps: Factors)
    ensures Written(reps, map[]) == reps && Originals(reps, map[]) == map[] && Sent(storage, reps, map[]) == {}
  {
  }

  lemma WrittenAt(reps: Factors, requests: Factors, key: Key)
    ensures key in Written(reps, requests) <==> key in reps || key in requests
    ensures Lookup(Written(reps, requests), key)
         == if key in requests && Changes(reps, key, requests[key]) then requests[key] else Lookup(reps, key)
  {
  }

  lemma WrittenNext(reps: Factors, done: Factors, key: Key, rep: KeyReplication)
    requires key !in done
    ensures var now := Written(reps, done);
            Lookup(now, key) == Lookup(reps, key) && Written(reps, done[key := rep]) == WriteOne(now, key, rep)
  {
    var next, now := Written(reps, done[key := rep]), WriteOne(Written(reps, done), key, rep);
    forall k ensures k in next <==> k in now
      ensures Lookup(next, k) == Lookup(now, k)
    {
      WrittenAt(reps, done, k);
      WrittenAt(reps, done[key := rep], k);
    }
    assert forall k :: k in next ==> next[k] == Lookup(next, k) && now[k] == Lookup(now, k);
  }

  lemma OriginalsNext(reps: Factors, done: Factors, key: Key, rep: KeyReplication)
    ensures Originals(reps, done[key := rep]) == Originals(reps, done)[key := Lookup(reps, key)]
  {
  }

  lemma SentNext(storage: Storage, reps: Factors, done: Factors, key: Key, rep: KeyReplication)
    requires key !in done
    ensures Sent(storage, reps, done[key := rep])
         == SendOne(storage, Sent(storage, reps, done), key, Changes(reps, key, rep))
  {
    var next := done[key := rep];
    assert forall k :: k in next <==> k in done || k == key;
    assert forall k :: k in done ==> next[k] == done[k];
  }

  /** What was sent to the given threads. */
  function SentAt(sent: set<MetadataPut>, threads: set<ServerThread>): (r: set<MetadataPut>) {
    set p | p in sent && p.at in threads
  }

  /** The keys one thread is to blame for. */
  function FailedAt(storage: Storage, sent: set<MetadataPut>, at: ServerThread): (r: set<Key>) {
    match storage.outcome(at)
    case TimedOut => set m | m in (set p | p in sent && p.at == at :: p.key) :: KeyOf(m)
    case Answered(refused) => set m | m in refused :: KeyOf(m)
  }

  lemma FailedNext(storage: Storage, sent: set<MetadataPut>, done: set<ServerThread>, at: ServerThread)
    requires exists p :: p in sent && p.at == at
    ensures FailedIn(storage, SentAt(sent, done + {at}))
         == FailedIn(storage, SentAt(sent, done)) + FailedAt(storage, sent, at)
  {
    TimedNext(storage, sent, done, at);
    RefusedNext(storage, sent, done, at);
  }

  lemma TimedNext(storage: Storage, sent: set<MetadataPut>, done: set<ServerThread>, at: ServerThread)
    ensures TimedOutIn(storage, SentAt(sent, done + {at}))
         == TimedOutIn(storage, SentAt(sent, done))
            + if storage.outcome(at).TimedOut? then FailedAt(storage, sent, at) else {}
  {
    var before, after := TimedOutIn(storage, SentAt(sent, done)), TimedOutIn(storage, SentAt(sent, done + {at}));
    if storage.outcome(at).TimedOut? {
      forall k | k in FailedAt(storage, sent, at) ensures k in after {
        var p :| p in sent && p.at == at && KeyOf(p.key) == k;
        assert p in SentAt(sent, done + {at});
      }
    }
    forall k | k in before ensures k in after {
      var p :| p in SentAt(sent, done) && storage.outcome(p.at).TimedOut? && KeyOf(p.key) == k;
      assert p in SentAt(sent, done + {at});
    }
  }

  lemma RefusedNext(storage: Storage, sent: set<MetadataPut>, done: set<ServerThread>, at: ServerThread)
    requires exists p :: p in sent && p.at == at
    ensures RefusedIn(storage, SentAt(sent, done + {at}))
         == RefusedIn(storage, SentAt(sent, done))
            + if storage.outcome(at).Answered? then FailedAt(storage, sent, at) else {}
  {
    var before, after := RefusedIn(storage, SentAt(sent, done)), RefusedIn(storage, SentAt(sent, done + {at}));
    var some :| some in sent && some.at == at;
    assert some in SentAt(sent, done + {at});
    forall k | k in before ensures k in after {
      var p, m :| p in SentAt(sent, done) && storage.outcome(p.at).Answered? && m in storage.outcome(p.at).refused
        && KeyOf(m) == k;
      assert p in SentAt(sent, done + {at});
    }
  }
}
