/** Without hash collisions inside a tier, quiet servers and routing nodes agree on the owners of every key. */
module JoinAgreement {
  import opened Types
  import opened Ring
  import opened Runs
  import opened Membership
  import opened JoinConvergence

  ghost predicate AllExact(hash: Hash<Address>, rings: Rings) {
    Exact(hash, RingOf(rings, Memory)) && Exact(hash, RingOf(rings, Disk))
  }

  ghost predicate EverywhereExact(hash: Hash<Address>, s: State) {
    && (forall u :: u in s.servers ==> AllExact(hash, s.servers[u]))
    && (forall h :: h in s.hubs ==> AllExact(hash, s.hubs[h]))
  }

  /** The servers of one tier. */
  function OfTier(cfg: Config, tier: Tier): (r: set<Address>) {
    set ip | ip in cfg && cfg[ip].tier == tier
  }

  /** No two servers of one tier hash to the same position. */
  ghost predicate TierFree(hash: Hash<Address>, cfg: Config) {
    forall tier :: CollisionFree(hash, OfTier(cfg, tier))
  }

  /** Every server is on the ring of its tier only. */
  ghost predicate InPlace(cfg: Config, rings: Rings) {
    forall tier :: RingOf(rings, tier).servers <= OfTier(cfg, tier)
  }

  lemma Fewer(hash: Hash<Address>, all: set<Address>, some: set<Address>)
    requires CollisionFree(hash, all) && some <= all
    ensures CollisionFree(hash, some)
  {
  }

  lemma AdmitExact(hash: Hash<Address>, cfg: Config, rings: Rings, join: Join)
    requires AllExact(hash, rings) && TierFree(hash, cfg) && InPlace(cfg, rings) && join.ip in OfTier(cfg, join.tier)
    ensures AllExact(hash, Admit(hash, rings, join).0) && InPlace(cfg, Admit(hash, rings, join).0)
  {
    var ring := RingOf(rings, join.tier);
    Fewer(hash, OfTier(cfg, join.tier), ring.servers + {join.ip});
    InsertKeepsExact(hash, ring, join.ip, join.count);
    AdmitMembers(hash, rings, join);
  }

  lemma EmptyExact(hash: Hash<Address>)
    ensures AllExact(hash, map[])
  {
  }

  lemma {:induction false} PopulateExact(hash: Hash<Address>, cfg: Config, snapshot: seq<Member>)
    requires TierFree(hash, cfg) && forall m :: m in snapshot ==> m.ip in OfTier(cfg, m.tier)
    ensures AllExact(hash, Populate(hash, snapshot)) && InPlace(cfg, Populate(hash, snapshot))
  {
    if snapshot == [] {
      EmptyExact(hash);
    } else {
      var front, m := snapshot[..|snapshot| - 1], snapshot[|snapshot| - 1];
      PopulateExact(hash, cfg, front);
      AdmitExact(hash, cfg, Populate(hash, front), Join(m.tier, m.ip, 0));
    }
  }

  lemma BootExact(hash: Hash<Address>, cfg: Config, self: Join, snapshot: seq<Member>)
    requires TierFree(hash, cfg) && self.ip in OfTier(cfg, self.tier)
    requires forall m :: m in snapshot ==> m.ip in OfTier(cfg, m.tier)
    ensures AllExact(hash, Boot(hash, self, snapshot))
  {
    PopulateExact(hash, cfg, snapshot);
    AdmitExact(hash, cfg, Populate(hash, snapshot), self);
  }

  lemma ProperInPlace(cfg: Config, announced: set<Address>, rings: Rings)
    requires Proper(cfg, announced, rings)
    ensures InPlace(cfg, rings)
  {
  }

  lemma StepKeepsExact(hash: Hash<Address>, cfg: Config, s: State, step: Step)
    requires TierFree(hash, cfg) && Inv(cfg, s) && Enabled(cfg, s, step)
    requires WellConfigured(cfg) && EverywhereExact(hash, s)
    ensures EverywhereExact(hash, Apply(hash, cfg, s, step))
  {
    match step
    case Seed(hub, ip, snapshot) =>
    case Announce(ip) =>
      BootExact(hash, cfg, cfg[ip], s.seeds[ip]);
      ServerReplaced(hash, s, Apply(hash, cfg, s, step), ip);
    case Deliver(ToServer(to, join)) =>
      assert Genuine(cfg, s, ToServer(to, join));
      ProperInPlace(cfg, s.servers.Keys, s.servers[to]);
      AdmitExact(hash, cfg, s.servers[to], join);
      ServerReplaced(hash, s, Apply(hash, cfg, s, step), to);
    case Deliver(ToHub(hub, join)) =>
      assert Genuine(cfg, s, ToHub(hub, join));
      ProperInPlace(cfg, s.servers.Keys, s.hubs[hub]);
      AdmitExact(hash, cfg, s.hubs[hub], join);
      HubReplaced(hash, s, Apply(hash, cfg, s, step), hub);
  }

  lemma ServerReplaced(hash: Hash<Address>, s: State, s': State, u: Address)
    requires EverywhereExact(hash, s) && s'.hubs == s.hubs
    requires u in s'.servers && s'.servers == s.servers[u := s'.servers[u]] && AllExact(hash, s'.servers[u])
    ensures EverywhereExact(hash, s')
  {
  }

  lemma HubReplaced(hash: Hash<Address>, s: State, s': State, h: Address)
    requires EverywhereExact(hash, s) && s'.servers == s.servers
    requires h in s'.hubs && s'.hubs == s.hubs[h := s'.hubs[h]] && AllExact(hash, s'.hubs[h])
    ensures EverywhereExact(hash, s')
  {
  }

  lemma InitExact(hash: Hash<Address>, s: State)
    requires Init(s)
    ensures EverywhereExact(hash, s)
  {
    EmptyExact(hash);
  }

  lemma ExactNext(hash: Hash<Address>, cfg: Config, states: seq<State>, steps: seq<Step>, m: nat)
    requires WellConfigured(cfg) && TierFree(hash, cfg) && IsRun(hash, cfg, states, steps) && m < |steps|
    requires EverywhereExact(hash, states[m])
    ensures EverywhereExact(hash, states[m + 1])
  {
    RunKeepsInv(hash, cfg, states, steps, m);
    StepKeepsExact(hash, cfg, states[m], steps[m]);
  }

  lemma RunKeepsExact(hash: Hash<Address>, cfg: Config, states: seq<State>, steps: seq<Step>, n: nat)
    requires WellConfigured(cfg) && TierFree(hash, cfg) && IsRun(hash, cfg, states, steps) && n <= |steps|
    ensures EverywhereExact(hash, states[n])
  {
    var p := (m: nat) => m < |states| && EverywhereExact(hash, states[m]);
    InitExact(hash, states[0]);
    forall m | 0 <= m < n && p(m) ensures p(m + 1) {
      ExactNext(hash, cfg, states, steps, m);
    }
    Along(p, 0, n);
  }

  /** The rings of `a` and `b` give every key the same owners in every tier and under every factor. */
  ghost predicate SameOwners(a: Rings, b: Rings) {
    forall tier, h, r :: Owners(RingOf(a, tier).nodes, h, r) == Owners(RingOf(b, tier).nodes, h, r)
  }

  lemma SameMembersSameOwners(hash: Hash<Address>, a: Rings, b: Rings)
    requires AllExact(hash, a) && AllExact(hash, b)
    requires RingOf(a, Memory).servers == RingOf(b, Memory).servers
    requires RingOf(a, Disk).servers == RingOf(b, Disk).servers
    ensures SameOwners(a, b)
  {
    ExactDetermined(hash, RingOf(a, Memory), RingOf(b, Memory));
    ExactDetermined(hash, RingOf(a, Disk), RingOf(b, Disk));
    forall tier: Tier ensures RingOf(a, tier).nodes == RingOf(b, tier).nodes {
      assert tier == Memory || tier == Disk;
    }
  }

  /** All servers and routing nodes agree on who owns what. */
  ghost predicate AllAgree(s: State) {
    && (forall u, v :: u in s.servers && v in s.servers ==> SameOwners(s.servers[u], s.servers[v]))
    && (forall u, h :: u in s.servers && h in s.hubs ==> SameOwners(s.servers[u], s.hubs[h]))
  }

  /** Whatever order the joins were heard in, a quiet cluster agrees on who owns what. */
  lemma QuietClusterAgrees(hash: Hash<Address>, cfg: Config, states: seq<State>, steps: seq<Step>, n: nat)
    requires WellConfigured(cfg) && TierFree(hash, cfg) && IsRun(hash, cfg, states, steps) && n <= |steps|
    requires states[n].inflight == multiset{}
    ensures AllAgree(states[n])
  {
    var s := states[n];
    RunKeepsExact(hash, cfg, states, steps, n);
    JoinsConverge(hash, cfg, states, steps, n);
    forall u | u in s.servers
      ensures RingOf(s.servers[u], Memory).servers == Announced(cfg, s, Memory)
      ensures RingOf(s.servers[u], Disk).servers == Announced(cfg, s, Disk)
    {
    }
    forall h | h in s.hubs
      ensures RingOf(s.hubs[h], Memory).servers == Announced(cfg, s, Memory)
      ensures RingOf(s.hubs[h], Disk).servers == Announced(cfg, s, Disk)
    {
    }
    forall u, v | u in s.servers && v in s.servers ensures SameOwners(s.servers[u], s.servers[v]) {
      SameMembersSameOwners(hash, s.servers[u], s.servers[v]);
    }
    forall u, h | u in s.servers && h in s.hubs ensures SameOwners(s.servers[u], s.hubs[h]) {
      SameMembersSameOwners(hash, s.servers[u], s.hubs[h]);
    }
  }
}
