/** The join counts that the rings of servers and routing nodes record agree with the servers' own. */
module JoinCounts {
  import opened Types
  import opened Ring
  import opened Membership
  import opened JoinConvergence
  import opened JoinFlood

  /** A ring has a join count for each of its servers, never more than the server's own. */
  ghost predicate TalliedRing(cfg: Config, ring: HashRing<Address>) {
    && ring.joinCounts.Keys == ring.servers
    && forall t :: t in ring.servers ==> t in cfg && ring.joinCounts[t] <= cfg[t].count
  }

  ghost predicate Tallied(cfg: Config, rings: Rings) {
    TalliedRing(cfg, RingOf(rings, Memory)) && TalliedRing(cfg, RingOf(rings, Disk))
  }

  lemma InsertTallied(hash: Hash<Address>, cfg: Config, ring: HashRing<Address>, ip: Address, count: nat)
    requires TalliedRing(cfg, ring) && ip in cfg && count <= cfg[ip].count
    ensures TalliedRing(cfg, Insert(hash, ring, ip, count).0)
  {
    var counts := ring.joinCounts[ip := count];
    assert counts.Keys == ring.joinCounts.Keys + {ip};
  }

  lemma AdmitTallied(hash: Hash<Address>, cfg: Config, rings: Rings, join: Join)
    requires Tallied(cfg, rings) && join.ip in cfg && join.count <= cfg[join.ip].count
    ensures Tallied(cfg, Admit(hash, rings, join).0)
  {
    assert join.tier == Memory || join.tier == Disk;
    InsertTallied(hash, cfg, RingOf(rings, join.tier), join.ip, join.count);
  }

  // ---- where a server starts --------------------------------------------------------------------

  /** Every recorded join count is 0. */
  predicate BlankRing(ring: HashRing<Address>) {
    forall t :: t in ring.joinCounts ==> ring.joinCounts[t] == 0
  }

  predicate Blank(rings: Rings) {
    BlankRing(RingOf(rings, Memory)) && BlankRing(RingOf(rings, Disk))
  }

  lemma AdmitBlank(hash: Hash<Address>, rings: Rings, tier: Tier, ip: Address)
    requires Blank(rings)
    ensures Blank(Admit(hash, rings, Join(tier, ip, 0)).0)
  {
    assert BlankRing(Insert(hash, RingOf(rings, tier), ip, 0).0);
  }

  lemma {:induction false} PopulateBlank(hash: Hash<Address>, snapshot: seq<Member>)
    ensures Blank(Populate(hash, snapshot))
  {
    if snapshot != [] {
      var front, m := snapshot[..|snapshot| - 1], snapshot[|snapshot| - 1];
      PopulateBlank(hash, front);
      AdmitBlank(hash, Populate(hash, front), m.tier, m.ip);
    }
  }

  /** To a server that has just started, a server of its snapshot is news exactly when it has been restarted. */
  lemma SnapshotNews(hash: Hash<Address>, self: Join, snapshot: seq<Member>, m: Member, count: nat)
    requires m in snapshot && m.ip != self.ip
    ensures Admit(hash, Boot(hash, self, snapshot), Join(m.tier, m.ip, count)).1 <==> count > 0
  {
    PopulateMembers(hash, snapshot);
    PopulateBlank(hash, snapshot);
    assert Member(m.tier, m.ip) == m;
    var rings := Populate(hash, snapshot);
    assert m.ip in RingOf(rings, m.tier).servers;
    var before, after := RingOf(rings, m.tier), RingOf(Boot(hash, self, snapshot), m.tier);
    assert m.ip in after.servers && (m.ip in after.joinCounts <==> m.ip in before.joinCounts);
    assert m.tier == Memory || m.tier == Disk;
    assert BlankRing(before);
    assert m.ip in before.joinCounts ==> after.joinCounts[m.ip] == before.joinCounts[m.ip] == 0;
  }

  lemma {:induction false} PopulateTallied(hash: Hash<Address>, cfg: Config, snapshot: seq<Member>)
    requires forall m :: m in snapshot ==> m.ip in cfg
    ensures Tallied(cfg, Populate(hash, snapshot))
  {
    if snapshot != [] {
      var front, m := snapshot[..|snapshot| - 1], snapshot[|snapshot| - 1];
      PopulateTallied(hash, cfg, front);
      AdmitTallied(hash, cfg, Populate(hash, front), Join(m.tier, m.ip, 0));
    }
  }

  lemma BootTallied(hash: Hash<Address>, cfg: Config, self: Join, snapshot: seq<Member>)
    requires (forall m :: m in snapshot ==> m.ip in cfg) && self.ip in cfg && cfg[self.ip] == self
    ensures Tallied(cfg, Boot(hash, self, snapshot)) && Settled(Boot(hash, self, snapshot), self)
  {
    PopulateTallied(hash, cfg, snapshot);
    AdmitTallied(hash, cfg, Populate(hash, snapshot), self);
    AdmitSettles(hash, Populate(hash, snapshot), self);
  }

  // ---- what every step keeps --------------------------------------------------------------------

  ghost predicate ServersTallied(cfg: Config, s: State) {
    forall u :: u in s.servers ==> u in cfg && Tallied(cfg, s.servers[u]) && Settled(s.servers[u], cfg[u])
  }

  ghost predicate AllSettled(cfg: Config, rings: Rings) {
    forall t :: t in Members(rings) ==> t in cfg && Settled(rings, cfg[t])
  }

  /** A routing node has the join count of every server it has heard of. */
  ghost predicate HubsTallied(cfg: Config, s: State) {
    forall h :: h in s.hubs ==> Tallied(cfg, s.hubs[h]) && AllSettled(cfg, s.hubs[h])
  }

  /** Server `u` has the join count of `t`, or is being told. */
  ghost predicate Counts(cfg: Config, s: State, u: Address, t: Address)
    requires u in s.servers && t in cfg
  {
    Settled(s.servers[u], cfg[t]) || ToServer(u, cfg[t]) in s.inflight
  }

  /** A server is told the join count of everybody who knows of it. */
  ghost predicate MutualCounts(cfg: Config, s: State)
    requires s.servers.Keys <= cfg.Keys
  {
    forall u, t :: u in s.servers && t in s.servers && u != t && u in Members(s.servers[t]) ==> Counts(cfg, s, u, t)
  }

  ghost predicate CountsInv(cfg: Config, s: State) {
    s.servers.Keys <= cfg.Keys && ServersTallied(cfg, s) && HubsTallied(cfg, s) && MutualCounts(cfg, s)
  }

  /** One server's rings were replaced. */
  lemma ServerTallied(cfg: Config, s: State, s': State, u: Address, rings: Rings)
    requires ServersTallied(cfg, s) && s'.servers == s.servers[u := rings] && u in cfg
    requires Tallied(cfg, rings) && Settled(rings, cfg[u])
    ensures ServersTallied(cfg, s')
  {
  }

  lemma AnnounceCounts(hash: Hash<Address>, cfg: Config, s: State, ip: Address)
    requires WellConfigured(cfg) && Inv(cfg, s) && CountsInv(cfg, s) && Enabled(cfg, s, Announce(ip))
    ensures CountsInv(cfg, Apply(hash, cfg, s, Announce(ip)))
  {
    var s', rings := Apply(hash, cfg, s, Announce(ip)), Boot(hash, cfg[ip], s.seeds[ip]);
    BootTallied(hash, cfg, cfg[ip], s.seeds[ip]);
    ServerTallied(cfg, s, s', ip, rings);
    DoAnnounce(hash, cfg, s, ip);
    AnnouncesCounts(cfg, s, s', ip, Announcement(cfg[ip], rings, s.hubs.Keys));
  }

  lemma AnnouncesCounts(cfg: Config, s: State, s': State, ip: Address, sent: multiset<Message>)
    requires ServersProper(cfg, s) && MutualCounts(cfg, s) && ip in cfg && Announces(cfg, s, s', ip, sent)
    ensures MutualCounts(cfg, s')
  {
    forall u, t | u in s'.servers && t in s'.servers && u != t && u in Members(s'.servers[t])
      ensures Counts(cfg, s', u, t)
    {
      if t == ip {
        assert ToServer(u, cfg[t]) in sent;
      } else {
        MembersAnnounced(cfg, s.servers.Keys, s.servers[t]);
        assert Counts(cfg, s, u, t);
      }
    }
  }

  lemma ServerHeardCounts(cfg: Config, s: State, s': State, to: Address, join: Join, sent: multiset<Message>)
    requires WellConfigured(cfg) && to in cfg && s.servers.Keys <= cfg.Keys && MutualCounts(cfg, s)
    requires join.ip in s.servers && join == cfg[join.ip] && ServerHeard(cfg, s, s', to, join, sent)
    requires Settled(s'.servers[to], join)
    requires forall other :: Settled(s.servers[to], other) ==> Settled(s'.servers[to], other)
    ensures MutualCounts(cfg, s')
  {
    GainsMembers(s.servers[to], s'.servers[to], join);
    forall u, t | u in s'.servers && t in s'.servers && u != t && u in Members(s'.servers[t])
      ensures Counts(cfg, s', u, t)
    {
      if u in Members(s.servers[t]) {
        assert Counts(cfg, s, u, t);
        assert cfg[t].ip == t;
      } else {
        assert t == to && u == join.ip && ToServer(u, cfg[t]) in s'.inflight;
      }
    }
  }

  lemma DeliverCounts(hash: Hash<Address>, cfg: Config, s: State, to: Address, join: Join)
    requires WellConfigured(cfg) && Inv(cfg, s) && CountsInv(cfg, s) && Enabled(cfg, s, Deliver(ToServer(to, join)))
    ensures CountsInv(cfg, Apply(hash, cfg, s, Deliver(ToServer(to, join))))
  {
    var s', rings := Apply(hash, cfg, s, Deliver(ToServer(to, join))), s.servers[to];
    assert Genuine(cfg, s, ToServer(to, join));
    AdmitTallied(hash, cfg, rings, join);
    AdmitSettles(hash, rings, join);
    ServerTallied(cfg, s, s', to, Admit(hash, rings, join).0);
    DeliverToServer(hash, cfg, s, to, join);
    ServerHeardCounts(cfg, s, s', to, join, ServerHears(hash, cfg[to], rings, join).1);
  }

  lemma GainsSettled(cfg: Config, rings: Rings, rings': Rings, join: Join)
    requires AllSettled(cfg, rings) && Gains(rings, rings', join) && join.ip in cfg && cfg[join.ip] == join
    requires Settled(rings', join) && forall other :: Settled(rings, other) ==> Settled(rings', other)
    ensures AllSettled(cfg, rings')
  {
    GainsMembers(rings, rings', join);
  }

  lemma CountsOnward(cfg: Config, s: State, s': State)
    requires s.servers.Keys <= cfg.Keys && MutualCounts(cfg, s) && s'.servers == s.servers
    requires forall u, j :: ToServer(u, j) in s.inflight ==> ToServer(u, j) in s'.inflight
    ensures MutualCounts(cfg, s')
  {
    forall u, t | u in s'.servers && t in s'.servers && u != t && u in Members(s'.servers[t])
      ensures Counts(cfg, s', u, t)
    {
      assert Counts(cfg, s, u, t);
    }
  }

  lemma HubHeardCounts(cfg: Config, s: State, s': State, hub: Address, join: Join, sent: multiset<Message>)
    requires CountsInv(cfg, s) && HubHeard(cfg, s, s', hub, join, sent) && join.ip in cfg && cfg[join.ip] == join
    requires Tallied(cfg, s'.hubs[hub]) && Settled(s'.hubs[hub], join)
    requires forall other :: Settled(s.hubs[hub], other) ==> Settled(s'.hubs[hub], other)
    ensures CountsInv(cfg, s')
  {
    GainsSettled(cfg, s.hubs[hub], s'.hubs[hub], join);
    CountsOnward(cfg, s, s');
  }

  lemma HubCounts(hash: Hash<Address>, cfg: Config, s: State, hub: Address, join: Join)
    requires WellConfigured(cfg) && Inv(cfg, s) && CountsInv(cfg, s) && Enabled(cfg, s, Deliver(ToHub(hub, join)))
    ensures CountsInv(cfg, Apply(hash, cfg, s, Deliver(ToHub(hub, join))))
  {
    var s', rings := Apply(hash, cfg, s, Deliver(ToHub(hub, join))), s.hubs[hub];
    assert Genuine(cfg, s, ToHub(hub, join));
    AdmitTallied(hash, cfg, rings, join);
    AdmitSettles(hash, rings, join);
    HubIsNews(cfg, s, hub, join);
    DeliverToHub(hash, cfg, s, hub, join);
    HubHeardCounts(cfg, s, s', hub, join, HubHears(hash, rings, join).1);
  }

  lemma SeedCounts(hash: Hash<Address>, cfg: Config, s: State, step: Step)
    requires CountsInv(cfg, s) && step.Seed? && Enabled(cfg, s, step)
    ensures CountsInv(cfg, Apply(hash, cfg, s, step))
  {
    CountsOnward(cfg, s, Apply(hash, cfg, s, step));
  }

  lemma StepKeepsCounts(hash: Hash<Address>, cfg: Config, s: State, step: Step)
    requires WellConfigured(cfg) && Inv(cfg, s) && CountsInv(cfg, s) && Enabled(cfg, s, step)
    ensures CountsInv(cfg, Apply(hash, cfg, s, step))
  {
    match step
    case Seed(_, _, _) => SeedCounts(hash, cfg, s, step);
    case Announce(ip) => AnnounceCounts(hash, cfg, s, ip);
    case Deliver(ToServer(to, join)) => DeliverCounts(hash, cfg, s, to, join);
    case Deliver(ToHub(hub, join)) => HubCounts(hash, cfg, s, hub, join);
  }

  lemma {:induction false} RunKeepsCounts(hash: Hash<Address>, cfg: Config, states: seq<State>, steps: seq<Step>,
                                          n: nat)
    requires WellConfigured(cfg) && IsRun(hash, cfg, states, steps) && n <= |steps|
    ensures CountsInv(cfg, states[n])
  {
    if n > 0 {
      RunKeepsCounts(hash, cfg, states, steps, n - 1);
      RunKeepsInv(hash, cfg, states, steps, n - 1);
      StepKeepsCounts(hash, cfg, states[n - 1], steps[n - 1]);
    }
  }

  // ---- when nothing is in flight ----------------------------------------------------------------

  /** The join counts of the announced servers of a tier, by the servers' own account. */
  ghost function OwnCounts(cfg: Config, s: State, tier: Tier): map<Address, nat>
    requires s.servers.Keys <= cfg.Keys
  {
    map t | t in Announced(cfg, s, tier) :: cfg[t].count
  }

  lemma CountsComplete(cfg: Config, s: State, rings: Rings, tier: Tier)
    requires WellConfigured(cfg) && s.servers.Keys <= cfg.Keys && Tallied(cfg, rings)
    requires RingOf(rings, tier).servers == Announced(cfg, s, tier)
    requires forall t :: t in Announced(cfg, s, tier) ==> Settled(rings, cfg[t])
    ensures RingOf(rings, tier).joinCounts == OwnCounts(cfg, s, tier)
  {
    assert TalliedRing(cfg, RingOf(rings, tier));
    forall t | t in Announced(cfg, s, tier) ensures RingOf(rings, tier).joinCounts[t] == cfg[t].count {
      assert Settled(rings, cfg[t]);
    }
  }

  lemma QuietCounts(cfg: Config, s: State, u: Address, t: Address)
    requires Inv(cfg, s) && CountsInv(cfg, s) && s.inflight == multiset{} && u in s.servers && t in s.servers
    ensures Settled(s.servers[u], cfg[t])
  {
    if u != t {
      QuietServers(cfg, s, t);
      assert Counts(cfg, s, u, t);
    }
  }

  /**
   * In any reachable state with no membership message in flight, every announced server and every routing node has in
   * its ring of each tier exactly the announced servers of that tier, each with the join count it gave itself.
   */
  lemma CountsConverge(hash: Hash<Address>, cfg: Config, states: seq<State>, steps: seq<Step>, n: nat)
    requires WellConfigured(cfg) && IsRun(hash, cfg, states, steps) && n <= |steps|
    requires states[n].inflight == multiset{}
    ensures var s := states[n];
            && s.servers.Keys <= cfg.Keys
            && (forall u, tier :: u in s.servers ==> RingOf(s.servers[u], tier).joinCounts == OwnCounts(cfg, s, tier))
            && (forall h, tier :: h in s.hubs ==> RingOf(s.hubs[h], tier).joinCounts == OwnCounts(cfg, s, tier))
  {
    var s := states[n];
    RunKeepsInv(hash, cfg, states, steps, n);
    RunKeepsCounts(hash, cfg, states, steps, n);
    JoinsConverge(hash, cfg, states, steps, n);
    forall u, tier | u in s.servers ensures RingOf(s.servers[u], tier).joinCounts == OwnCounts(cfg, s, tier) {
      forall t | t in Announced(cfg, s, tier) ensures Settled(s.servers[u], cfg[t]) {
        QuietCounts(cfg, s, u, t);
      }
      CountsComplete(cfg, s, s.servers[u], tier);
    }
    forall h, tier | h in s.hubs ensures RingOf(s.hubs[h], tier).joinCounts == OwnCounts(cfg, s, tier) {
      QuietHubs(cfg, s, h);
      CountsComplete(cfg, s, s.hubs[h], tier);
    }
  }
}
