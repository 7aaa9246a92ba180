/** What a thread queues when a server joins its tier, and when what it queued is sent and dropped. */
module Handoff {
  import opened Types
  import opened Walk
  import opened Ring
  import opened Metadata
  import opened Responsibility
  import opened Server
  import opened Movement
  import opened ServerRuns
  import Membership

  // ---- responsibility in one tier, as servers and tids ------------------------------------------

  /** The tier whose ring decides about `key` at a thread of tier `tier`. */
  function DecidingTier(tier: Tier, key: Key): (r: Tier) {
    if IsMetadata(key) then Memory else tier
  }

  function GlobalFactor(env: Env, s: Server, key: Key): (r: nat) {
    if IsMetadata(key) then METADATA_REPLICATION_FACTOR else Factor(FactorsOf(s, key).global, env.tier)
  }

  function LocalFactor(env: Env, s: Server, key: Key): (r: nat) {
    if IsMetadata(key) then env.defaults.local else Factor(FactorsOf(s, key).local, env.tier)
  }

  /** The servers of the deciding tier that own `key`, nearest first. */
  function OwnersOf(env: Env, s: Server, key: Key): (r: seq<Address>)
    ensures |r| <= GlobalFactor(env, s, key)
    ensures forall i, j :: 0 <= i < j < |r| ==> r[i] != r[j]
  {
    ServersFor(env.hs, s.rings, key, DecidingTier(env.tier, key), GlobalFactor(env, s, key))
  }

  function TidsOf(env: Env, s: Server, key: Key): (r: seq<nat>) {
    TidsFor(env.hs, s.rings, key, DecidingTier(env.tier, key), LocalFactor(env, s, key))
  }

  /** The responsible threads of one tier are the owners' threads with the owning tids. */
  lemma WhoInTier(env: Env, s: Server, key: Key)
    requires Who(env, s, key, [env.tier]).Some?
    ensures Who(env, s, key, [env.tier]).value == Cross(OwnersOf(env, s, key), TidsOf(env, s, key))
    ensures forall t :: t in Who(env, s, key, [env.tier]).value <==>
              t.ip in OwnersOf(env, s, key) && t.tid in TidsOf(env, s, key)
  {
    forall t ensures t in Cross(OwnersOf(env, s, key), TidsOf(env, s, key)) <==>
                       t.ip in OwnersOf(env, s, key) && t.tid in TidsOf(env, s, key)
    {
      CrossMembers(OwnersOf(env, s, key), TidsOf(env, s, key), t);
    }
    if !IsMetadata(key) {
      CollectBoth(ByTier(env.hs, s.rings, s.reps[key], key));
    }
  }

  /** The rings decide through their nodes only. */
  lemma SameOwnersSameWho(env: Env, s: Server, s': Server, key: Key)
    requires s'.reps == s.reps && TidsOf(env, s', key) == TidsOf(env, s, key)
    requires GlobalNodes(s'.rings, DecidingTier(env.tier, key)) == GlobalNodes(s.rings, DecidingTier(env.tier, key))
    ensures Who(env, s', key, [env.tier]) == Who(env, s, key, [env.tier])
  {
    if Who(env, s, key, [env.tier]).Some? {
      WhoInTier(env, s, key);
      WhoInTier(env, s', key);
    }
  }

  // ---- joins ------------------------------------------------------------------------------------

  /** A server that is not on the ring of its tier announces itself for the first time, in this thread's tier. */
  ghost predicate FirstJoin(env: Env, s: Server, join: Membership.Join) {
    && join.count == 0 && join.tier == env.tier
    && Sound(Membership.RingOf(s.rings.global, join.tier))
    && join.ip !in Membership.RingOf(s.rings.global, join.tier).servers
  }

  /** What becomes of a list of owners when `x` joins: nothing, or `x` is put in and the last of a full list leaves. */
  predicate Moves(was: seq<Address>, now: seq<Address>, x: Address, i: nat, full: bool) {
    if x in now && x !in was then Displaces(was, now, x, i, full) else now == was
  }

  /** How the owners of a key change when a server joins for the first time. */
  lemma OwnersAfterJoin(env: Env, s: Server, join: Membership.Join, key: Key) returns (i: nat)
    requires FirstJoin(env, s, join)
    ensures var was, now := OwnersOf(env, s, key), OwnersOf(env, Rejoined(env, s, join), key);
            Moves(was, now, join.ip, i, |was| == GlobalFactor(env, s, key))
  {
    i := 0;
    if DecidingTier(env.tier, key) == env.tier {
      OwnersHere(env, s, join, key);
      i := EntersAs(env.hs.globalNode, Membership.RingOf(s.rings.global, env.tier), join.ip, env.hs.globalKey(key),
                    GlobalFactor(env, s, key), OwnersOf(env, s, key), OwnersOf(env, Rejoined(env, s, join), key));
    } else {
      OwnersElsewhere(env, s, join, key);
    }
  }

  lemma OwnersHere(env: Env, s: Server, join: Membership.Join, key: Key)
    requires FirstJoin(env, s, join) && DecidingTier(env.tier, key) == env.tier
    ensures var nodes := Membership.RingOf(s.rings.global, env.tier).nodes;
            var h, r := env.hs.globalKey(key), GlobalFactor(env, s, key);
            && OwnersOf(env, s, key) == Owners(nodes, h, r)
            && OwnersOf(env, Rejoined(env, s, join), key)
               == Owners(Place(env.hs.globalNode, nodes, join.ip, VIRTUAL_THREAD_NUM), h, r)
  {
    RejoinedNodes(env, s, join);
  }

  lemma OwnersElsewhere(env: Env, s: Server, join: Membership.Join, key: Key)
    requires DecidingTier(env.tier, key) != join.tier
    ensures OwnersOf(env, Rejoined(env, s, join), key) == OwnersOf(env, s, key)
  {
    RejoinedElsewhere(env, s, join, DecidingTier(env.tier, key));
  }

  lemma EntersAs(hash: Hash<Address>, ring: HashRing<Address>, x: Address, h: nat, r: nat, was: seq<Address>,
                 now: seq<Address>) returns (i: nat)
    requires Sound(ring) && x !in ring.servers
    requires was == Owners(ring.nodes, h, r) && now == Owners(Place(hash, ring.nodes, x, VIRTUAL_THREAD_NUM), h, r)
    ensures Moves(was, now, x, i, |was| == r)
  {
    i := EntersRing(hash, ring, x, h, r);
  }

  /** A join does not touch the rings of tids. */
  lemma TidsAfterJoin(env: Env, s: Server, join: Membership.Join, key: Key)
    ensures TidsOf(env, Rejoined(env, s, join), key) == TidsOf(env, s, key)
  {
    var tier := DecidingTier(env.tier, key);
    assert LocalNodes(Rejoined(env, s, join).rings, tier) == LocalNodes(s.rings, tier);
  }

  lemma RejoinedNodes(env: Env, s: Server, join: Membership.Join)
    requires FirstJoin(env, s, join)
    ensures GlobalNodes(s.rings, env.tier) == Membership.RingOf(s.rings.global, env.tier).nodes
    ensures GlobalNodes(Rejoined(env, s, join).rings, env.tier)
         == Place(env.hs.globalNode, Membership.RingOf(s.rings.global, env.tier).nodes, join.ip, VIRTUAL_THREAD_NUM)
  {
  }

  lemma RejoinedElsewhere(env: Env, s: Server, join: Membership.Join, tier: Tier)
    requires join.tier != tier
    ensures GlobalNodes(Rejoined(env, s, join).rings, tier) == GlobalNodes(s.rings, tier)
  {
  }

  lemma EntersRing(hash: Hash<Address>, ring: HashRing<Address>, x: Address, h: nat, r: nat) returns (i: nat)
    requires Sound(ring) && x !in ring.servers
    ensures var was, now := Owners(ring.nodes, h, r), Owners(Place(hash, ring.nodes, x, VIRTUAL_THREAD_NUM), h, r);
            x !in was && if x in now then Displaces(was, now, x, i, |was| == r) else now == was
  {
    NotPresent(ring, x);
    NotOwner(ring.nodes, h, r, x);
    i := MinimalDisruption(hash, ring.nodes, x, VIRTUAL_THREAD_NUM, h, r);
  }

  lemma NotPresent(ring: HashRing<Address>, ip: Address)
    requires Sound(ring) && ip !in ring.servers
    ensures !Present(ring.nodes, ip)
  {
    forall i | 0 <= i < |ring.nodes| ensures ring.nodes[i].server != ip {
      assert ring.nodes[i] in ring.nodes;
    }
  }

  lemma NotOwner(nodes: seq<Node<Address>>, h: nat, r: nat, ip: Address)
    requires !Present(nodes, ip)
    ensures ip !in Owners(nodes, h, r)
  {
    RankingMembers(nodes, h, ip);
  }

  /** When the newcomer enters a full list, exactly the last owner leaves it. */
  lemma LastLeaves(was: seq<Address>, now: seq<Address>, x: Address, i: nat)
    requires forall a, b :: 0 <= a < b < |was| ==> was[a] != was[b]
    requires Displaces(was, now, x, i, true) && x !in was
    ensures forall a :: a in now <==> a == x || (a in was && a != was[|was| - 1])
  {
    var kept := was[..|was| - 1];
    assert kept == was[..i] + was[i..|was| - 1];
    forall a ensures a in now <==> a == x || a in kept {
      assert a in now <==> a in was[..i] || a == x || a in was[i..|was| - 1];
    }
    forall a ensures a in kept <==> a in was && a != was[|was| - 1] {
      assert was == kept + [was[|was| - 1]];
    }
  }

  /** The newcomer enters and nobody leaves. */
  lemma NobodyLeaves(was: seq<Address>, now: seq<Address>, x: Address, i: nat)
    requires Displaces(was, now, x, i, false)
    ensures forall a :: a in now <==> a == x || a in was
  {
    assert was == was[..i] + was[i..];
  }

  /** The newcomer becomes an owner of `key` in place of the farthest one. */
  ghost predicate Replaces(env: Env, s: Server, join: Membership.Join, key: Key, gone: Address) {
    var was, now := OwnersOf(env, s, key), OwnersOf(env, Rejoined(env, s, join), key);
    && join.ip in now && join.ip !in was
    && |was| == GlobalFactor(env, s, key) && was != [] && gone == was[|was| - 1]
  }

  /** An owner leaves the list exactly when it is the last of a full one and `x` has come in. */
  lemma LeavesExactly(was: seq<Address>, now: seq<Address>, x: Address, i: nat, full: bool, a: Address)
    requires (forall m, n :: 0 <= m < n < |was| ==> was[m] != was[n]) && Moves(was, now, x, i, full) && a in was
    ensures a !in now <==> x in now && x !in was && full && a == was[|was| - 1]
    ensures forall b :: b in now ==> b in was || b == x
  {
    if x in now && x !in was {
      if full {
        LastLeaves(was, now, x, i);
      } else {
        NobodyLeaves(was, now, x, i);
      }
    }
  }

  /** A responsible thread stops being responsible exactly when its server is the one the newcomer replaces. */
  lemma LosesExactly(env: Env, s: Server, join: Membership.Join, key: Key, w: ServerThread)
    requires FirstJoin(env, s, join)
    requires Who(env, s, key, [env.tier]).Some? && w in Who(env, s, key, [env.tier]).value
    ensures Who(env, Rejoined(env, s, join), key, [env.tier]).Some?
    ensures w !in Who(env, Rejoined(env, s, join), key, [env.tier]).value <==> Replaces(env, s, join, key, w.ip)
    ensures forall t :: t in Who(env, Rejoined(env, s, join), key, [env.tier]).value ==>
              t in Who(env, s, key, [env.tier]).value || t.ip == join.ip
  {
    var s' := Rejoined(env, s, join);
    var was, now := OwnersOf(env, s, key), OwnersOf(env, s', key);
    WhoInTier(env, s, key);
    WhoInTier(env, s', key);
    TidsAfterJoin(env, s, join, key);
    ReplacedExactly(env, s, join, key, w.ip, was, now);
  }

  lemma ReplacedExactly(env: Env, s: Server, join: Membership.Join, key: Key, a: Address, was: seq<Address>,
                        now: seq<Address>)
    requires FirstJoin(env, s, join) && a in was
    requires was == OwnersOf(env, s, key) && now == OwnersOf(env, Rejoined(env, s, join), key)
    ensures a !in now <==> Replaces(env, s, join, key, a)
    ensures forall b :: b in now ==> b in was || b == join.ip
  {
    var i := OwnersAfterJoin(env, s, join, key);
    LeavesExactly(was, now, join.ip, i, |was| == GlobalFactor(env, s, key), a);
  }

  /**
   * What a thread responsible for a stored key does with it when a server joins for the first time. If the newcomer
   * replaces its server the key is queued for every thread now responsible, the newcomer's among them, and for removal;
   * otherwise nothing is queued for it.
   */
  lemma JoinHandoff(env: Env, s: Server, join: Membership.Join, key: Key)
    requires FirstJoin(env, s, join) && key in s.stored
    requires Who(env, s, key, [env.tier]).Some? && env.self in Who(env, s, key, [env.tier]).value
    ensures var s' := OnJoin(env, s, join).server;
            var now := Who(env, s', key, [env.tier]);
            && now.Some?
            && if Replaces(env, s, join, key, env.self.ip) then
                 && env.self !in now.value
                 && ServerThread(join.ip, env.self.tid) in now.value
                 && (forall t :: t in now.value ==> Errand(t, key) in s'.joinGossip)
                 && key in s'.joinRemove
               else
                 && env.self in now.value
                 && (forall t :: Errand(t, key) in s'.joinGossip <==> Errand(t, key) in s.joinGossip)
                 && (key in s'.joinRemove <==> key in s.joinRemove)
  {
    var s1 := Rejoined(env, s, join);
    var s' := OnJoin(env, s, join).server;
    LosesExactly(env, s, join, key, env.self);
    var i := OwnersAfterJoin(env, s, join, key);
    TidsAfterJoin(env, s, join, key);
    WhoInTier(env, s, key);
    WhoInTier(env, s1, key);
    var now := Who(env, s1, key, [env.tier]);
    assert Who(env, s', key, [env.tier]) == now;
    assert JoinTargets(env, s1, join, key) == if env.self in now.value then [] else now.value;
    QueuedExactly(env, s, join, key);
  }

  lemma QueuedExactly(env: Env, s: Server, join: Membership.Join, key: Key)
    requires Membership.Admit(env.hs.globalNode, s.rings.global, join).1 && join.tier == env.tier
    requires key in s.stored
    ensures var s', s1 := OnJoin(env, s, join).server, Rejoined(env, s, join);
            && (forall t :: Errand(t, key) in s'.joinGossip
                       <==> Errand(t, key) in s.joinGossip || t in JoinTargets(env, s1, join, key))
            && (key in s'.joinRemove <==> key in s.joinRemove || Leaves(env, s1, join, key))
  {
  }

  /** How often the ring knows a server to have been restarted. */
  function KnownCount(ring: HashRing<Address>, ip: Address): (r: nat) {
    if ip in ring.joinCounts then ring.joinCounts[ip] else 0
  }

  /** A server that comes back leaves the responsible threads as they are. */
  lemma RejoinKeepsWho(env: Env, s: Server, join: Membership.Join, key: Key)
    requires join.ip in Membership.RingOf(s.rings.global, join.tier).servers
    ensures Who(env, Rejoined(env, s, join), key, [env.tier]) == Who(env, s, key, [env.tier])
  {
    var tier := DecidingTier(env.tier, key);
    TidsAfterJoin(env, s, join, key);
    if join.tier != tier { RejoinedElsewhere(env, s, join, tier); }
    SameOwnersSameWho(env, s, Rejoined(env, s, join), key);
  }

  /** A join that is no news, or is in the other tier, changes the rings and nothing else. */
  lemma JoinElsewhere(env: Env, s: Server, join: Membership.Join)
    requires || join.tier != env.tier
             || (var ring := Membership.RingOf(s.rings.global, join.tier);
                 join.ip in ring.servers && join.count <= KnownCount(ring, join.ip))
    ensures OnJoin(env, s, join) == Outcome(Rejoined(env, s, join), [], multiset{})
  {
  }

  /**
   * When a server of this tier comes back, having been restarted since last heard of, every key stored here that it
   * is responsible for is queued for its responsible threads, and no other; nothing is due for removal.
   */
  lemma RejoinHandoff(env: Env, s: Server, join: Membership.Join, key: Key, t: ServerThread)
    requires join.count > 0 && join.tier == env.tier
    requires join.ip in Membership.RingOf(s.rings.global, join.tier).servers
    ensures var r := OnJoin(env, s, join).server;
            && r.joinRemove == s.joinRemove
            && (Errand(t, key) in r.joinGossip <==>
                  || Errand(t, key) in s.joinGossip
                  || (&& KnownCount(Membership.RingOf(s.rings.global, join.tier), join.ip) < join.count
                      && key in s.stored && t.ip == join.ip
                      && var who := Who(env, s, key, [env.tier]); who.Some? && t in who.value))
  {
    var ring := Membership.RingOf(s.rings.global, join.tier);
    RejoinKeepsWho(env, s, join, key);
    if join.count <= KnownCount(ring, join.ip) {
      JoinElsewhere(env, s, join);
    } else {
      RejoinQueues(env, s, join);
      assert t in JoinTargets(env, Rejoined(env, s, join), join, key) <==>
               var who := Who(env, s, key, [env.tier]); who.Some? && t in who.value && t.ip == join.ip;
    }
  }

  lemma RejoinQueues(env: Env, s: Server, join: Membership.Join)
    requires join.count > 0 && join.tier == env.tier
    requires var ring := Membership.RingOf(s.rings.global, join.tier);
             join.ip in ring.servers && KnownCount(ring, join.ip) < join.count
    ensures var r := OnJoin(env, s, join).server;
            && r.joinRemove == s.joinRemove
            && r.joinGossip == s.joinGossip + JoinErrands(env, Rejoined(env, s, join), join)
  {
  }

  /** Holding the key in a state with these rings and factors, thread `w` queues it for the newcomer. */
  ghost predicate QueuesForNewcomer(env: Env, s: Server, join: Membership.Join, key: Key, w: ServerThread) {
    exists t :: t in JoinTargets(env.(self := w), Rejoined(env, s, join), join, key) && t.ip == join.ip
  }

  lemma QueuesIfReplaced(env: Env, s: Server, join: Membership.Join, key: Key, w: ServerThread)
    requires FirstJoin(env, s, join)
    requires Who(env, s, key, [env.tier]).Some? && w in Who(env, s, key, [env.tier]).value
    ensures QueuesForNewcomer(env, s, join, key, w) <==> Replaces(env, s, join, key, w.ip)
  {
    var s' := Rejoined(env, s, join);
    LosesExactly(env, s, join, key, w);
    WhoInTier(env, s, key);
    WhoInTier(env, s', key);
    TidsAfterJoin(env, s, join, key);
    var now := Who(env, s', key, [env.tier]).value;
    assert JoinTargets(env.(self := w), s', join, key) == if w in now then [] else now;
    if Replaces(env, s, join, key, w.ip) {
      assert ServerThread(join.ip, w.tid) in now;
    }
  }

  /**
   * Some old holder queues a key for the newcomer that becomes responsible for it exactly when the old owners were as
   * many as the factor asks for: into a list that was not full it comes without displacing anyone, and is sent nothing.
   */
  lemma NewcomerServedExactly(env: Env, s: Server, join: Membership.Join, key: Key)
    requires FirstJoin(env, s, join)
    requires Who(env, s, key, [env.tier]).Some? && Who(env, s, key, [env.tier]).value != []
    requires join.ip in OwnersOf(env, Rejoined(env, s, join), key) && join.ip !in OwnersOf(env, s, key)
    ensures (exists w :: w in Who(env, s, key, [env.tier]).value && QueuesForNewcomer(env, s, join, key, w))
       <==> |OwnersOf(env, s, key)| == GlobalFactor(env, s, key)
  {
    var was := OwnersOf(env, s, key);
    var who := Who(env, s, key, [env.tier]).value;
    if w :| w in who && QueuesForNewcomer(env, s, join, key, w) {
      QueuesIfReplaced(env, s, join, key, w);
    }
    if |was| == GlobalFactor(env, s, key) {
      var w := FarthestThread(env, s, key);
      QueuesIfReplaced(env, s, join, key, w);
    }
  }

  lemma FarthestThread(env: Env, s: Server, key: Key) returns (w: ServerThread)
    requires Who(env, s, key, [env.tier]).Some? && Who(env, s, key, [env.tier]).value != []
    ensures w in Who(env, s, key, [env.tier]).value
    ensures OwnersOf(env, s, key) != [] && w.ip == OwnersOf(env, s, key)[|OwnersOf(env, s, key)| - 1]
  {
    WhoInTier(env, s, key);
    var some := Who(env, s, key, [env.tier]).value[0];
    assert some in Who(env, s, key, [env.tier]).value;
    w := ServerThread(OwnersOf(env, s, key)[|OwnersOf(env, s, key)| - 1], some.tid);
  }

  // ---- redistribution ---------------------------------------------------------------------------

  /** An address is finished by a pass exactly when it has no more keys queued than the threshold. */
  lemma LeftoverExactly(queue: set<Errand>, batch: set<Errand>, e: Errand)
    requires IsBatch(queue, batch)
    ensures e in Leftover(queue, batch) <==> e in queue && |KeysFor(queue, e.to)| > DATA_REDISTRIBUTE_THRESHOLD
  {
    if e in queue {
      SubsetSize(KeysFor(batch, e.to), KeysFor(queue, e.to));
    }
  }

  /** What leaves the queue in a pass was in the batch. */
  lemma DoneWasSent(queue: set<Errand>, batch: set<Errand>, e: Errand)
    requires IsBatch(queue, batch) && e in queue && e !in Leftover(queue, batch)
    ensures e in batch
  {
    assert e.key in KeysFor(queue, e.to);
    assert Errand(e.to, e.key) == e;
  }

  /** A queue with an oversized address is never emptied: what one pass leaves, every later pass leaves. */
  lemma PassesStall(queue: set<Errand>, batch: set<Errand>, again: set<Errand>)
    requires IsBatch(queue, batch) && IsBatch(Leftover(queue, batch), again)
    ensures Leftover(Leftover(queue, batch), again) == Leftover(queue, batch)
  {
    var left := Leftover(queue, batch);
    forall e ensures e in Leftover(left, again) <==> e in left {
      LeftoverExactly(queue, batch, e);
      LeftoverExactly(left, again, e);
      if e in left {
        forall k ensures k in KeysFor(left, e.to) <==> k in KeysFor(queue, e.to) {
          LeftoverExactly(queue, batch, Errand(e.to, k));
        }
        assert KeysFor(left, e.to) == KeysFor(queue, e.to);
      }
    }
  }

  /**
   * A pass cleans up exactly when no address has more keys queued than the threshold, and then that same pass has sent
   * every queued key that reads as present to every address it was queued for.
   */
  lemma CleanupExactly(s: Server, batch: set<Errand>)
    requires Enabled(s, Redistribute(batch)) && s.joinGossip != {}
    ensures var r := OnRedistribute(s, batch);
            && (r.server.joinGossip == {}
                <==> forall e :: e in s.joinGossip ==> |KeysFor(s.joinGossip, e.to)| <= DATA_REDISTRIBUTE_THRESHOLD)
            && (r.server.joinGossip != {} ==> r.server == s.(joinGossip := r.server.joinGossip))
            && (r.server.joinGossip == {} ==>
                  && r.server.joinRemove == {} && r.server.stored.Keys == s.stored.Keys - s.joinRemove
                  && forall e :: e in s.joinGossip && Readout(s, e.key).Some? ==>
                       Gossip(e.to, e.key, Readout(s, e.key).value) in r.out)
  {
    forall e | e in s.joinGossip
      ensures e in Leftover(s.joinGossip, batch) <==> |KeysFor(s.joinGossip, e.to)| > DATA_REDISTRIBUTE_THRESHOLD
      ensures e !in Leftover(s.joinGossip, batch) ==> e in batch
    {
      LeftoverExactly(s.joinGossip, batch, e);
      if e !in Leftover(s.joinGossip, batch) { DoneWasSent(s.joinGossip, batch, e); }
    }
    forall e | e in s.joinGossip && e in batch && Readout(s, e.key).Some?
      ensures Gossip(e.to, e.key, Readout(s, e.key).value) in SendGossip(s, batch)
    {
      var o := Gossip(e.to, e.key, Readout(s, e.key).value);
      assert Errand(o.to, o.key) == e;
    }
  }
}
