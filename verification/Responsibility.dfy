/** Which threads are responsible for a key: servers by the tier's global ring, tids by its local ring. */
module Responsibility {
  import opened Types
  import opened Walk
  import opened Ring
  import opened RingMap
  import opened Metadata

  /** `kMetadataReplicationFactor`. */
  const METADATA_REPLICATION_FACTOR: nat := 1

  const ALL_TIERS: seq<Tier> := [Memory, Disk]

  /** The hash functions of a deployment. */
  datatype Hashes = Hashes(
    globalNode: Hash<Address>, localNode: Hash<nat>, globalKey: Key -> nat, localKey: Key -> nat)

  datatype Rings = Rings(global: map<Tier, HashRing<Address>>, local: map<Tier, HashRing<nat>>)

  datatype KeyReplication = KeyReplication(global: map<Tier, nat>, local: map<Tier, nat>)

  /** The configured default factors. */
  datatype Defaults = Defaults(global: map<Tier, nat>, local: nat)

  /** Reading a factor that was never set gives 0, as `operator[]` does. */
  function Factor(m: map<Tier, nat>, tier: Tier): (r: nat) {
    if tier in m then m[tier] else 0
  }

  function GlobalNodes(rings: Rings, tier: Tier): (r: seq<Node<Address>>) {
    if tier in rings.global then rings.global[tier].nodes else []
  }

  function LocalNodes(rings: Rings, tier: Tier): (r: seq<Node<nat>>) {
    if tier in rings.local then rings.local[tier].nodes else []
  }

  /** Every listed tid of one server. */
  function OnServer(ip: Address, tids: seq<nat>): (r: seq<ServerThread>)
    ensures |r| == |tids|
  {
    if tids == [] then [] else [ServerThread(ip, tids[0])] + OnServer(ip, tids[1..])
  }

  /** Every listed tid of every listed server, server by server. */
  function Cross(ips: seq<Address>, tids: seq<nat>): (r: seq<ServerThread>) {
    if ips == [] then [] else Cross(ips[..|ips| - 1], tids) + OnServer(ips[|ips| - 1], tids)
  }

  lemma {:induction false} OnServerMembers(ip: Address, tids: seq<nat>, t: ServerThread)
    ensures t in OnServer(ip, tids) <==> t.ip == ip && t.tid in tids
  {
    if tids != [] {
      OnServerMembers(ip, tids[1..], t);
      assert t.tid in tids <==> t.tid == tids[0] || t.tid in tids[1..];
    }
  }

  /** A thread is listed exactly when its server and its tid are. */
  lemma {:induction false} CrossMembers(ips: seq<Address>, tids: seq<nat>, t: ServerThread)
    ensures t in Cross(ips, tids) <==> t.ip in ips && t.tid in tids
  {
    if ips != [] {
      var front, last := ips[..|ips| - 1], ips[|ips| - 1];
      CrossMembers(front, tids, t);
      OnServerMembers(last, tids, t);
      assert t.ip in ips <==> t.ip in front || t.ip == last;
    }
  }

  /** The first thread listed is the first server's first. */
  lemma {:induction false} CrossFirst(ips: seq<Address>, tids: seq<nat>)
    requires ips != [] && tids != []
    ensures Cross(ips, tids) != [] && Cross(ips, tids)[0] == ServerThread(ips[0], tids[0])
  {
    if |ips| > 1 {
      CrossFirst(ips[..|ips| - 1], tids);
    } else {
      assert ips[..|ips| - 1] == [];
    }
  }

  /** As many threads as servers times tids. */
  lemma {:induction false} CrossCount(ips: seq<Address>, tids: seq<nat>)
    ensures |Cross(ips, tids)| == |ips| * |tids|
  {
    if ips != [] {
      CrossCount(ips[..|ips| - 1], tids);
      assert (|ips| - 1) * |tids| + |tids| == |ips| * |tids|;
    }
  }

  lemma {:induction false} OnServerAt(ip: Address, tids: seq<nat>, i: nat)
    requires i < |tids|
    ensures OnServer(ip, tids)[i] == ServerThread(ip, tids[i])
  {
    if i > 0 {
      OnServerAt(ip, tids[1..], i - 1);
    }
  }

  ghost predicate Unrepeated<T(!new)>(xs: seq<T>) {
    forall i, j :: 0 <= i < j < |xs| ==> xs[i] != xs[j]
  }

  lemma OnServerUnrepeated(ip: Address, tids: seq<nat>)
    requires Unrepeated(tids)
    ensures Unrepeated(OnServer(ip, tids))
  {
    forall i, j | 0 <= i < j < |tids| ensures OnServer(ip, tids)[i] != OnServer(ip, tids)[j] {
      OnServerAt(ip, tids, i);
      OnServerAt(ip, tids, j);
    }
  }

  /** No thread is listed twice when no server and no tid is. */
  lemma {:induction false} CrossUnrepeated(ips: seq<Address>, tids: seq<nat>)
    requires Unrepeated(ips) && Unrepeated(tids)
    ensures Unrepeated(Cross(ips, tids))
  {
    if ips != [] {
      var front, last := ips[..|ips| - 1], ips[|ips| - 1];
      var before, here := Cross(front, tids), OnServer(last, tids);
      CrossUnrepeated(front, tids);
      OnServerUnrepeated(last, tids);
      forall i, j | 0 <= i < |before| && 0 <= j < |here| ensures before[i] != here[j] {
        CrossMembers(front, tids, before[i]);
        OnServerMembers(last, tids, here[j]);
      }
    }
  }

  function ServersFor(hs: Hashes, rings: Rings, key: Key, tier: Tier, factor: nat): (r: seq<Address>) {
    Owners(GlobalNodes(rings, tier), hs.globalKey(key), factor)
  }

  function TidsFor(hs: Hashes, rings: Rings, key: Key, tier: Tier, factor: nat): (r: seq<nat>) {
    Owners(LocalNodes(rings, tier), hs.localKey(key), factor)
  }

  /** The threads of one tier responsible for `key` under the given factors. */
  function InTier(hs: Hashes, rings: Rings, rep: KeyReplication, key: Key, tier: Tier): (r: seq<ServerThread>) {
    Cross(ServersFor(hs, rings, key, tier, Factor(rep.global, tier)),
          TidsFor(hs, rings, key, tier, Factor(rep.local, tier)))
  }

  /** What a loop over the tiers collects. */
  function Collect(tiers: seq<Tier>, inTier: Tier -> seq<ServerThread>): (r: seq<ServerThread>) {
    if tiers == [] then [] else Collect(tiers[..|tiers| - 1], inTier) + inTier(tiers[|tiers| - 1])
  }

  function ByTier(hs: Hashes, rings: Rings, rep: KeyReplication, key: Key): (r: Tier -> seq<ServerThread>) {
    tier => InTier(hs, rings, rep, key, tier)
  }

  function InTiers(hs: Hashes, rings: Rings, rep: KeyReplication, key: Key, tiers: seq<Tier>): (r: seq<ServerThread>) {
    Collect(tiers, ByTier(hs, rings, rep, key))
  }

  lemma {:induction false} CollectMembers(tiers: seq<Tier>, inTier: Tier -> seq<ServerThread>, t: ServerThread)
    ensures t in Collect(tiers, inTier) <==> exists tier :: tier in tiers && t in inTier(tier)
  {
    if tiers != [] {
      var front, last := tiers[..|tiers| - 1], tiers[|tiers| - 1];
      CollectMembers(front, inTier, t);
      assert forall x :: x in tiers <==> x in front || x == last;
    }
  }

  lemma CollectWhere(tiers: seq<Tier>, inTier: Tier -> seq<ServerThread>, near: Tier -> bool, t: ServerThread)
    requires forall tier :: t in inTier(tier) <==> near(tier)
    ensures t in Collect(tiers, inTier) <==> exists tier :: tier in tiers && near(tier)
  {
    CollectMembers(tiers, inTier, t);
  }

  lemma CollectBoth(inTier: Tier -> seq<ServerThread>)
    ensures Collect([], inTier) == []
    ensures forall tier :: Collect([tier], inTier) == inTier(tier)
    ensures Collect(ALL_TIERS, inTier) == inTier(Memory) + inTier(Disk)
  {
    forall tier ensures Collect([tier], inTier) == inTier(tier) {
      assert [tier][..0] == [];
      assert Collect([tier], inTier) == Collect([], inTier) + inTier(tier);
    }
    assert ALL_TIERS[..1] == [Memory];
  }

  /** Nobody is responsible under a factor of 0. */
  lemma OwnerHasFactor(hs: Hashes, rings: Rings, rep: KeyReplication, key: Key, tier: Tier, w: ServerThread)
    requires w in InTier(hs, rings, rep, key, tier)
    ensures Factor(rep.global, tier) > 0
  {
    var owners := ServersFor(hs, rings, key, tier, Factor(rep.global, tier));
    CrossMembers(owners, TidsFor(hs, rings, key, tier, Factor(rep.local, tier)), w);
    assert w.ip in owners;
  }

  /** `get_responsible_threads_metadata`: metadata lives in the memory tier, under fixed factors. */
  function MetadataThreads(hs: Hashes, rings: Rings, defaults: Defaults, key: Key): (r: seq<ServerThread>) {
    Cross(ServersFor(hs, rings, key, Memory, METADATA_REPLICATION_FACTOR),
          TidsFor(hs, rings, key, Memory, defaults.local))
  }

  /** `get_responsible_threads`: nothing when the key's factor is not known, in which case a lookup is sent. */
  function Responsible(hs: Hashes, rings: Rings, defaults: Defaults, reps: map<Key, KeyReplication>, key: Key,
                       tiers: seq<Tier>): (r: Option<seq<ServerThread>>)
    ensures r.None? <==> !IsMetadata(key) && key !in reps
  {
    if IsMetadata(key) then Some(MetadataThreads(hs, rings, defaults, key))
    else if key in reps then Some(InTiers(hs, rings, reps[key], key, tiers))
    else None
  }

  /** A factor the walk can serve: at most the number of distinct servers, unless the ring is empty. */
  predicate Servable<S(==,!new)>(nodes: seq<Node<S>>, h: nat, factor: nat) {
    nodes == [] || factor <= |Ranking(nodes, h)|
  }

  predicate ServableIn(hs: Hashes, rings: Rings, key: Key, tier: Tier, global: nat, local: nat) {
    && Servable(GlobalNodes(rings, tier), hs.globalKey(key), global)
    && Servable(LocalNodes(rings, tier), hs.localKey(key), local)
  }

  // ---- who is responsible, and how many ---------------------------------------------------------

  /** How many distinct servers a factor yields: all of them when it asks for more than there are. */
  function Served<S(==,!new)>(nodes: seq<Node<S>>, h: nat, factor: nat): (r: nat)
    ensures r <= |Ranking(nodes, h)|
    ensures factor <= |Ranking(nodes, h)| ==> r == factor
    ensures factor >= |Ranking(nodes, h)| ==> r == |Ranking(nodes, h)|
  {
    if factor <= |Ranking(nodes, h)| then factor else |Ranking(nodes, h)|
  }

  function GlobalServed(hs: Hashes, rings: Rings, key: Key, tier: Tier, factor: nat): (r: nat)
    ensures r <= |Ranking(GlobalNodes(rings, tier), hs.globalKey(key))|
  {
    Served(GlobalNodes(rings, tier), hs.globalKey(key), factor)
  }

  function LocalServed(hs: Hashes, rings: Rings, key: Key, tier: Tier, factor: nat): (r: nat)
    ensures r <= |Ranking(LocalNodes(rings, tier), hs.localKey(key))|
  {
    Served(LocalNodes(rings, tier), hs.localKey(key), factor)
  }

  /** Its server is among the nearest `global` of the tier's global ring, its tid among the nearest `local` tids. */
  predicate Nearest(hs: Hashes, rings: Rings, key: Key, tier: Tier, global: nat, local: nat, t: ServerThread) {
    var servers := Ranking(GlobalNodes(rings, tier), hs.globalKey(key));
    var tids := Ranking(LocalNodes(rings, tier), hs.localKey(key));
    && t.ip in servers[..GlobalServed(hs, rings, key, tier, global)]
    && t.tid in tids[..LocalServed(hs, rings, key, tier, local)]
  }

  /** The owners are the first servers of the ranking, as many as the factor yields. */
  lemma OwnersRanked<S(!new)>(nodes: seq<Node<S>>, h: nat, factor: nat)
    ensures Owners(nodes, h, factor) == Ranking(nodes, h)[..Served(nodes, h, factor)]
    ensures Unrepeated(Owners(nodes, h, factor))
  {
  }

  lemma NearestInCross(hs: Hashes, rings: Rings, key: Key, tier: Tier, global: nat, local: nat, t: ServerThread)
    ensures t in Cross(ServersFor(hs, rings, key, tier, global), TidsFor(hs, rings, key, tier, local)) <==>
              Nearest(hs, rings, key, tier, global, local, t)
  {
    OwnersRanked(GlobalNodes(rings, tier), hs.globalKey(key), global);
    OwnersRanked(LocalNodes(rings, tier), hs.localKey(key), local);
    CrossMembers(ServersFor(hs, rings, key, tier, global), TidsFor(hs, rings, key, tier, local), t);
  }

  lemma CrossServed(hs: Hashes, rings: Rings, key: Key, tier: Tier, global: nat, local: nat)
    ensures var r := Cross(ServersFor(hs, rings, key, tier, global), TidsFor(hs, rings, key, tier, local));
            && |r| == GlobalServed(hs, rings, key, tier, global) * LocalServed(hs, rings, key, tier, local)
            && Unrepeated(r)
  {
    var ips, tids := ServersFor(hs, rings, key, tier, global), TidsFor(hs, rings, key, tier, local);
    OwnersRanked(GlobalNodes(rings, tier), hs.globalKey(key), global);
    OwnersRanked(LocalNodes(rings, tier), hs.localKey(key), local);
    assert |ips| == GlobalServed(hs, rings, key, tier, global) && |tids| == LocalServed(hs, rings, key, tier, local);
    CrossCount(ips, tids);
    CrossUnrepeated(ips, tids);
  }

  predicate NearestUnder(hs: Hashes, rings: Rings, rep: KeyReplication, key: Key, tier: Tier, t: ServerThread) {
    Nearest(hs, rings, key, tier, Factor(rep.global, tier), Factor(rep.local, tier), t)
  }

  lemma NearestInTier(hs: Hashes, rings: Rings, rep: KeyReplication, key: Key, tier: Tier, t: ServerThread)
    ensures t in ByTier(hs, rings, rep, key)(tier) <==> NearestUnder(hs, rings, rep, key, tier, t)
  {
    NearestInCross(hs, rings, key, tier, Factor(rep.global, tier), Factor(rep.local, tier), t);
  }

  /**
   * A thread is responsible for a key with known factors exactly when, in one of the tiers asked about, its server is
   * one of the `global` nearest servers and its tid one of the `local` nearest tids.
   */
  lemma ResponsibleExactly(hs: Hashes, rings: Rings, defaults: Defaults, reps: map<Key, KeyReplication>, key: Key,
                           tiers: seq<Tier>, t: ServerThread)
    requires !IsMetadata(key) && key in reps
    ensures t in Responsible(hs, rings, defaults, reps, key, tiers).value <==>
              exists tier :: tier in tiers && NearestUnder(hs, rings, reps[key], key, tier, t)
  {
    var inTier := ByTier(hs, rings, reps[key], key);
    var near := (tier: Tier) => NearestUnder(hs, rings, reps[key], key, tier, t);
    forall tier ensures t in inTier(tier) <==> near(tier) {
      NearestInTier(hs, rings, reps[key], key, tier, t);
    }
    CollectWhere(tiers, inTier, near, t);
    assert forall tier :: near(tier) == NearestUnder(hs, rings, reps[key], key, tier, t);
  }

  /** In one tier the responsible threads are as many as the global factor times the local one, none listed twice. */
  lemma ResponsibleCount(hs: Hashes, rings: Rings, defaults: Defaults, reps: map<Key, KeyReplication>, key: Key,
                         tier: Tier)
    requires !IsMetadata(key) && key in reps
    ensures var r := Responsible(hs, rings, defaults, reps, key, [tier]).value;
            && |r| == GlobalServed(hs, rings, key, tier, Factor(reps[key].global, tier))
                      * LocalServed(hs, rings, key, tier, Factor(reps[key].local, tier))
            && Unrepeated(r)
  {
    var rep := reps[key];
    CollectBoth(ByTier(hs, rings, rep, key));
    CrossServed(hs, rings, key, tier, Factor(rep.global, tier), Factor(rep.local, tier));
  }

  /** For metadata: the nearest memory server, and as many of the memory tier's tids as the default local factor. */
  lemma ResponsibleForMetadata(hs: Hashes, rings: Rings, defaults: Defaults, reps: map<Key, KeyReplication>, key: Key,
                               tiers: seq<Tier>, t: ServerThread)
    requires IsMetadata(key)
    ensures t in Responsible(hs, rings, defaults, reps, key, tiers).value <==>
              Nearest(hs, rings, key, Memory, 1, defaults.local, t)
  {
    NearestInCross(hs, rings, key, Memory, METADATA_REPLICATION_FACTOR, defaults.local, t);
  }

  lemma OneServed<S(!new)>(nodes: seq<Node<S>>, h: nat, one: nat)
    requires one == 1
    ensures Served(nodes, h, one) == if nodes == [] then 0 else 1
  {
    if nodes != [] {
      FirstOwner(nodes, h, one);
    }
  }

  lemma MetadataCount(hs: Hashes, rings: Rings, defaults: Defaults, reps: map<Key, KeyReplication>, key: Key,
                      tiers: seq<Tier>)
    requires IsMetadata(key)
    ensures var r := Responsible(hs, rings, defaults, reps, key, tiers).value;
            && Unrepeated(r)
            && |r| == if GlobalNodes(rings, Memory) == [] then 0
                      else LocalServed(hs, rings, key, Memory, defaults.local)
  {
    CrossServed(hs, rings, key, Memory, METADATA_REPLICATION_FACTOR, defaults.local);
    OneServed(GlobalNodes(rings, Memory), hs.globalKey(key), METADATA_REPLICATION_FACTOR);
  }

  /** The inner loops of `get_responsible_threads`: the same tids on every server. */
  method CollectServers(threads: seq<Address>, nodes: seq<Node<nat>>, h: nat, local: nat)
    returns (result: seq<ServerThread>)
    requires Servable(nodes, h, local)
    ensures result == Cross(threads, Owners(nodes, h, local))
  {
    ghost var expected := Owners(nodes, h, local);
    result := [];
    for i := 0 to |threads|
      invariant result == Cross(threads[..i], expected)
    {
      var tids := ResponsibleLocal(nodes, h, local);
      CrossStep(threads, i, tids);
      result := result + OnServer(threads[i], tids);
    }
    assert threads[..|threads|] == threads;
  }

  /** The part of `get_responsible_threads` for one tier. */
  method CollectTier(hs: Hashes, rings: Rings, key: Key, tier: Tier, global: nat, local: nat)
    returns (result: seq<ServerThread>)
    requires ServableIn(hs, rings, key, tier, global, local)
    ensures result == Cross(ServersFor(hs, rings, key, tier, global), TidsFor(hs, rings, key, tier, local))
    ensures forall t :: t in result <==> Nearest(hs, rings, key, tier, global, local, t)
    ensures |result| == GlobalServed(hs, rings, key, tier, global) * LocalServed(hs, rings, key, tier, local)
    ensures Unrepeated(result)
  {
    CrossServed(hs, rings, key, tier, global, local);
    forall t
      ensures t in Cross(ServersFor(hs, rings, key, tier, global), TidsFor(hs, rings, key, tier, local)) <==>
                Nearest(hs, rings, key, tier, global, local, t)
    {
      NearestInCross(hs, rings, key, tier, global, local, t);
    }
    var threads := ResponsibleGlobal(GlobalNodes(rings, tier), hs.globalKey(key), global);
    result := CollectServers(threads, LocalNodes(rings, tier), hs.localKey(key), local);
  }

  lemma CrossStep(ips: seq<Address>, i: nat, tids: seq<nat>)
    requires i < |ips|
    ensures Cross(ips[..i + 1], tids) == Cross(ips[..i], tids) + OnServer(ips[i], tids)
  {
    assert ips[..i + 1][..i] == ips[..i];
  }

  /** `get_responsible_threads`; the flag is false when the factor is missing and a lookup has to be sent. */
  method GetResponsibleThreads(hs: Hashes, rings: Rings, defaults: Defaults, reps: map<Key, KeyReplication>,
                               key: Key, tiers: seq<Tier>)
    returns (result: seq<ServerThread>, succeed: bool)
    requires IsMetadata(key) ==> ServableIn(hs, rings, key, Memory, METADATA_REPLICATION_FACTOR, defaults.local)
    requires key in reps ==> forall t :: t in tiers ==>
               ServableIn(hs, rings, key, t, Factor(reps[key].global, t), Factor(reps[key].local, t))
    ensures Responsible(hs, rings, defaults, reps, key, tiers) == if succeed then Some(result) else None
  {
    result := [];
    if IsMetadata(key) {
      result := CollectTier(hs, rings, key, Memory, METADATA_REPLICATION_FACTOR, defaults.local);
      succeed := true;
    } else if key !in reps {
      succeed := false;
    } else {
      var rep := reps[key];
      for i := 0 to |tiers|
        invariant result == InTiers(hs, rings, rep, key, tiers[..i])
      {
        var more := CollectTier(hs, rings, key, tiers[i], Factor(rep.global, tiers[i]), Factor(rep.local, tiers[i]));
        assert tiers[..i + 1][..i] == tiers[..i];
        result := result + more;
      }
      assert tiers[..|tiers|] == tiers;
      succeed := true;
    }
  }

  // ---- the primary replica ----------------------------------------------------------------------

  /** `is_primary_replica`, asked of thread `st` running in `selfTier`. */
  predicate IsPrimary(hs: Hashes, rings: Rings, rep: KeyReplication, key: Key, selfTier: Tier, st: ServerThread) {
    && Factor(rep.global, selfTier) != 0
    && (selfTier == Disk ==> Factor(rep.global, Memory) == 0)
    && var g := Find(GlobalNodes(rings, selfTier), hs.globalKey(key));
       var l := Find(LocalNodes(rings, selfTier), hs.localKey(key));
    && g.Some? && st.ip == GlobalNodes(rings, selfTier)[g.value].server
    && l.Some? && st.tid == LocalNodes(rings, selfTier)[l.value].server
  }

  /** The highest tier in which the key is replicated. */
  function PrimaryTier(rep: KeyReplication): (r: Option<Tier>)
    ensures r.Some? ==> Factor(rep.global, r.value) != 0
    ensures r.None? ==> Factor(rep.global, Memory) == 0 && Factor(rep.global, Disk) == 0
  {
    if Factor(rep.global, Memory) != 0 then Some(Memory)
    else if Factor(rep.global, Disk) != 0 then Some(Disk)
    else None
  }

  /**
   * With agreed rings and factors exactly one thread of the two tiers calls itself primary when the highest tier
   * that replicates the key has servers and threads; otherwise none does.
   */
  lemma UniquePrimary(hs: Hashes, rings: Rings, rep: KeyReplication, key: Key)
    ensures var top := PrimaryTier(rep);
            if top.Some? && GlobalNodes(rings, top.value) != [] && LocalNodes(rings, top.value) != [] then
              exists st :: IsPrimary(hs, rings, rep, key, top.value, st)
                && forall t, tier :: IsPrimary(hs, rings, rep, key, tier, t) ==> t == st && tier == top.value
            else
              forall t, tier :: !IsPrimary(hs, rings, rep, key, tier, t)
  {
    var top := PrimaryTier(rep);
    if top.Some? && GlobalNodes(rings, top.value) != [] && LocalNodes(rings, top.value) != [] {
      var g := Find(GlobalNodes(rings, top.value), hs.globalKey(key)).value;
      var l := Find(LocalNodes(rings, top.value), hs.localKey(key)).value;
      var st := ServerThread(GlobalNodes(rings, top.value)[g].server, LocalNodes(rings, top.value)[l].server);
      assert IsPrimary(hs, rings, rep, key, top.value, st);
      forall t, tier | IsPrimary(hs, rings, rep, key, tier, t) ensures t == st && tier == top.value {
        assert t == ServerThread(t.ip, t.tid);
      }
    }
  }

  /** The first owner is the one `find` points at. */
  lemma FirstOwner<S(!new)>(nodes: seq<Node<S>>, h: nat, r: nat)
    requires nodes != [] && r > 0
    ensures |Owners(nodes, h, r)| > 0 && Owners(nodes, h, r)[0] == nodes[Find(nodes, h).value].server
  {
    var met := Met(nodes, h);
    MetAt(nodes, h, 0);
    DistinctStep(met, 0);
    DistinctPrefix(met, 1);
    assert Distinct(met[..0]) == [];
  }

  /** The primary is the first responsible thread of its tier, given a positive local factor. */
  lemma PrimaryIsResponsible(hs: Hashes, rings: Rings, rep: KeyReplication, key: Key, tier: Tier, st: ServerThread)
    requires IsPrimary(hs, rings, rep, key, tier, st)
    requires Factor(rep.local, tier) >= 1
    ensures InTier(hs, rings, rep, key, tier) != [] && InTier(hs, rings, rep, key, tier)[0] == st
    ensures st in InTiers(hs, rings, rep, key, ALL_TIERS)
  {
    FirstOwner(GlobalNodes(rings, tier), hs.globalKey(key), Factor(rep.global, tier));
    FirstOwner(LocalNodes(rings, tier), hs.localKey(key), Factor(rep.local, tier));
    CrossFirst(ServersFor(hs, rings, key, tier, Factor(rep.global, tier)),
               TidsFor(hs, rings, key, tier, Factor(rep.local, tier)));
    assert tier in ALL_TIERS && st in InTier(hs, rings, rep, key, tier);
    CollectMembers(ALL_TIERS, ByTier(hs, rings, rep, key), st);
  }
}
