/**
 * Every run of the membership protocol converges: what each step keeps, and what holds when no message is in flight.
 */
module JoinConvergence {
  import opened Types
  import opened Ring
  import opened Membership

  // ---- the effect of each step on who knows whom ------------------------------------------------

  /** The rings gained the joining server, in its tier, and nobody else. */
  ghost predicate Gains(rings: Rings, rings': Rings, join: Join) {
    forall tier :: RingOf(rings', tier).servers
                == RingOf(rings, tier).servers + if tier == join.tier then {join.ip} else {}
  }

  lemma GainsMembers(rings: Rings, rings': Rings, join: Join)
    requires Gains(rings, rings', join)
    ensures Members(rings') == Members(rings) + {join.ip}
  {
    assert RingOf(rings', Memory).servers
        == RingOf(rings, Memory).servers + if Memory == join.tier then {join.ip} else {};
    assert RingOf(rings', Disk).servers == RingOf(rings, Disk).servers + if Disk == join.tier then {join.ip} else {};
  }

  /** What is in flight after `m` was taken out and `sent` put in. */
  ghost predicate Exchanged(before: multiset<Message>, after: multiset<Message>, m: Message, sent: multiset<Message>) {
    && (forall x :: x in after ==> x in before || x in sent)
    && (forall x :: x in sent ==> x in after)
    && (forall x :: x in before && x != m ==> x in after)
    && (forall h, j :: sent[ToHub(h, j)] == 0)
    && (forall h, j :: after[ToHub(h, j)] + (if m == ToHub(h, j) then 1 else 0) == before[ToHub(h, j)])
  }

  lemma Exchange(before: multiset<Message>, m: Message, sent: multiset<Message>)
    requires m in before
    requires forall h, j :: sent[ToHub(h, j)] == 0
    ensures Exchanged(before, before - multiset{m} + sent, m, sent)
  {
  }

  /** A server heard of `join`: it knows, it answered if this was news, and it passed on nothing else. */
  ghost predicate ServerHeard(cfg: Config, s: State, s': State, to: Address, join: Join, sent: multiset<Message>)
    requires to in cfg
  {
    && s'.hubs == s.hubs && s'.seeds == s.seeds && s'.servers.Keys == s.servers.Keys && to in s.servers
    && (forall u :: u in s.servers && u != to ==> s'.servers[u] == s.servers[u])
    && Gains(s.servers[to], s'.servers[to], join)
    && Exchanged(s.inflight, s'.inflight, ToServer(to, join), sent)
    && (join.ip in Members(s.servers[to]) || ToServer(join.ip, cfg[to]) in sent)
    && (forall m :: m in sent ==>
          || m == ToServer(join.ip, cfg[to])
          || (m.ToServer? && m.join == join && m.to in Members(s'.servers[to]) && m.to != join.ip))
  }

  /** A routing node heard of `join`: it knows, and it told all the others it knew. */
  ghost predicate HubHeard(cfg: Config, s: State, s': State, hub: Address, join: Join, sent: multiset<Message>) {
    && s'.servers == s.servers && s'.seeds == s.seeds && s'.hubs.Keys == s.hubs.Keys && hub in s.hubs
    && (forall h :: h in s.hubs && h != hub ==> s'.hubs[h] == s.hubs[h])
    && Gains(s.hubs[hub], s'.hubs[hub], join)
    && Exchanged(s.inflight, s'.inflight, ToHub(hub, join), sent)
    && (forall u :: u in Members(s.hubs[hub]) && u != join.ip ==> ToServer(u, join) in sent)
    && (forall m :: m in sent ==> m.ToServer? && m.join == join && m.to in Members(s'.hubs[hub]) && m.to != join.ip)
  }

  /** A server came up with proper rings and told everybody in them, and every routing node. */
  ghost predicate Announces(cfg: Config, s: State, s': State, ip: Address, sent: multiset<Message>)
    requires ip in cfg
  {
    && s'.hubs == s.hubs && s'.servers.Keys == s.servers.Keys + {ip} && ip !in s.servers
    && (forall u :: u in s.servers ==> s'.servers[u] == s.servers[u])
    && s'.seeds == s.seeds - {ip}
    && Proper(cfg, s'.servers.Keys, s'.servers[ip]) && ip in Members(s'.servers[ip])
    && s'.inflight == s.inflight + sent
    && (forall m :: m in sent <==>
          m.join == cfg[ip] && if m.ToServer? then m.to in Members(s'.servers[ip]) && m.to != ip else m.hub in s.hubs)
    && (forall h :: h in s.hubs ==> sent[ToHub(h, cfg[ip])] == 1)
  }

  // ---- each step has that effect ----------------------------------------------------------------

  lemma AdmitGains(hash: Hash<Address>, rings: Rings, join: Join)
    ensures Gains(rings, Admit(hash, rings, join).0, join)
  {
    AdmitMembers(hash, rings, join);
  }

  lemma DeliverToServer(hash: Hash<Address>, cfg: Config, s: State, to: Address, join: Join)
    requires Enabled(cfg, s, Deliver(ToServer(to, join))) && to != join.ip && cfg[to].ip == to
    ensures ServerHeard(cfg, s, Apply(hash, cfg, s, Deliver(ToServer(to, join))), to, join,
                        ServerHears(hash, cfg[to], s.servers[to], join).1)
  {
    AdmitGains(hash, s.servers[to], join);
    ServerHearsContents(hash, cfg[to], s.servers[to], join);
    Exchange(s.inflight, ToServer(to, join), ServerHears(hash, cfg[to], s.servers[to], join).1);
  }

  lemma DeliverToHub(hash: Hash<Address>, cfg: Config, s: State, hub: Address, join: Join)
    requires Enabled(cfg, s, Deliver(ToHub(hub, join))) && join.ip !in Members(s.hubs[hub])
    ensures HubHeard(cfg, s, Apply(hash, cfg, s, Deliver(ToHub(hub, join))), hub, join,
                     HubHears(hash, s.hubs[hub], join).1)
  {
    var (rings, sent) := HubHears(hash, s.hubs[hub], join);
    AdmitGains(hash, s.hubs[hub], join);
    HubHearsContents(hash, s.hubs[hub], join);
    HubHearing(cfg, s, Apply(hash, cfg, s, Deliver(ToHub(hub, join))), hub, join, rings, sent);
  }

  lemma HubHearing(cfg: Config, s: State, s': State, hub: Address, join: Join, rings: Rings, sent: multiset<Message>)
    requires hub in s.hubs && ToHub(hub, join) in s.inflight
    requires s' == s.(hubs := s.hubs[hub := rings], inflight := s.inflight - multiset{ToHub(hub, join)} + sent)
    requires Gains(s.hubs[hub], rings, join)
    requires forall m :: m in sent ==> m.ToServer? && m.join == join && m.to in Members(rings) && m.to != join.ip
    requires forall u :: u in Members(s.hubs[hub]) && u != join.ip ==> ToServer(u, join) in sent
    requires forall h, j :: sent[ToHub(h, j)] == 0
    ensures HubHeard(cfg, s, s', hub, join, sent)
  {
    Exchange(s.inflight, ToHub(hub, join), sent);
  }

  lemma BootProper(hash: Hash<Address>, cfg: Config, announced: set<Address>, self: Join, snapshot: seq<Member>)
    requires forall m :: m in snapshot ==> m.ip in announced && m.ip in cfg && cfg[m.ip].tier == m.tier
    requires self.ip in cfg && cfg[self.ip] == self
    ensures Proper(cfg, announced + {self.ip}, Boot(hash, self, snapshot))
    ensures self.ip in Members(Boot(hash, self, snapshot))
  {
    PopulateMembers(hash, snapshot);
    AdmitMembers(hash, Populate(hash, snapshot), self);
    var rings := Boot(hash, self, snapshot);
    forall tier, a | a in RingOf(rings, tier).servers
      ensures a in announced + {self.ip} && a in cfg && cfg[a].tier == tier
    {
      if a in RingOf(Populate(hash, snapshot), tier).servers {
        assert Member(tier, a) in snapshot;
      }
    }
  }

  lemma DoAnnounce(hash: Hash<Address>, cfg: Config, s: State, ip: Address)
    requires WellConfigured(cfg) && SeedsProper(cfg, s) && Enabled(cfg, s, Announce(ip))
    ensures Announces(cfg, s, Apply(hash, cfg, s, Announce(ip)), ip,
                      Announcement(cfg[ip], Boot(hash, cfg[ip], s.seeds[ip]), s.hubs.Keys))
  {
    BootProper(hash, cfg, s.servers.Keys, cfg[ip], s.seeds[ip]);
    AnnouncementContents(cfg[ip], Boot(hash, cfg[ip], s.seeds[ip]), s.hubs.Keys);
  }

  // ---- those effects keep the invariant ---------------------------------------------------------

  lemma GainsProper(cfg: Config, announced: set<Address>, rings: Rings, rings': Rings, join: Join)
    requires Proper(cfg, announced, rings) && Gains(rings, rings', join)
    requires join.ip in announced && join.ip in cfg && cfg[join.ip] == join
    ensures Proper(cfg, announced, rings')
  {
  }

  /** Consuming a message about `join` at `to` only turns "is being told" into "knows". */
  lemma LearnsOnward(cfg: Config, s: State, s': State, m: Message)
    requires WellConfigured(cfg) && s.servers.Keys == s'.servers.Keys && s.servers.Keys <= cfg.Keys
    requires forall u :: u in s.servers ==> Members(s.servers[u]) <= Members(s'.servers[u])
    requires forall x :: x in s.inflight && x != m ==> x in s'.inflight
    requires m.ToServer? ==> m.to in s'.servers && m.join.ip in Members(s'.servers[m.to])
    ensures forall u, t :: u in s.servers && t in s.servers && Learns(cfg, s, u, t) ==> Learns(cfg, s', u, t)
  {
    forall u, t | u in s.servers && t in s.servers && Learns(cfg, s, u, t) ensures Learns(cfg, s', u, t) {
      assert cfg[t].ip == t;
    }
  }

  lemma ServerHeardKeeps(cfg: Config, s: State, s': State, to: Address, join: Join, sent: multiset<Message>)
    requires WellConfigured(cfg) && Inv(cfg, s) && to in cfg
    requires Genuine(cfg, s, ToServer(to, join)) && ServerHeard(cfg, s, s', to, join, sent)
    ensures Inv(cfg, s')
  {
    ServerHeardProper(cfg, s, s', to, join, sent);
    ServerHeardLearns(cfg, s, s', to, join, sent);
    ServerHeardGenuine(cfg, s, s', to, join, sent);
    ServerHeardMutual(cfg, s, s', to, join, sent);
    ServerHeardHubs(cfg, s, s', to, join, sent);
  }

  lemma ServerHeardLearns(cfg: Config, s: State, s': State, to: Address, join: Join, sent: multiset<Message>)
    requires WellConfigured(cfg) && to in cfg && s.servers.Keys <= cfg.Keys && ServerHeard(cfg, s, s', to, join, sent)
    ensures forall u, t :: u in s.servers && t in s.servers && Learns(cfg, s, u, t) ==> Learns(cfg, s', u, t)
  {
    GainsMembers(s.servers[to], s'.servers[to], join);
    LearnsOnward(cfg, s, s', ToServer(to, join));
  }

  /** One server heard of another that was announced. */
  lemma OneHears(cfg: Config, s: State, s': State, to: Address, join: Join)
    requires to in s.servers && s'.servers.Keys == s.servers.Keys && ServersProper(cfg, s)
    requires forall u :: u in s.servers && u != to ==> s'.servers[u] == s.servers[u]
    requires Gains(s.servers[to], s'.servers[to], join)
    requires join.ip in s.servers && join.ip in cfg && cfg[join.ip] == join
    ensures ServersProper(cfg, s')
  {
    GainsMembers(s.servers[to], s'.servers[to], join);
    GainsProper(cfg, s.servers.Keys, s.servers[to], s'.servers[to], join);
  }

  lemma ServerHeardProper(cfg: Config, s: State, s': State, to: Address, join: Join, sent: multiset<Message>)
    requires WellConfigured(cfg) && to in cfg
    requires ServersProper(cfg, s) && HubsProper(cfg, s) && SeedsProper(cfg, s)
    requires Genuine(cfg, s, ToServer(to, join)) && ServerHeard(cfg, s, s', to, join, sent)
    ensures ServersProper(cfg, s') && HubsProper(cfg, s') && SeedsProper(cfg, s')
  {
    OneHears(cfg, s, s', to, join);
  }

  lemma ServerHeardHubs(cfg: Config, s: State, s': State, to: Address, join: Join, sent: multiset<Message>)
    requires to in cfg && s.servers.Keys <= cfg.Keys && ServerHeard(cfg, s, s', to, join, sent)
    requires HubsHear(cfg, s) && Introduced(cfg, s)
    requires forall u, t :: u in s.servers && t in s.servers && Learns(cfg, s, u, t) ==> Learns(cfg, s', u, t)
    ensures HubsHear(cfg, s') && Introduced(cfg, s')
  {
  }

  lemma MembersAnnounced(cfg: Config, announced: set<Address>, rings: Rings)
    requires Proper(cfg, announced, rings)
    ensures Members(rings) <= announced
  {
  }

  lemma ServerHeardGenuine(cfg: Config, s: State, s': State, to: Address, join: Join, sent: multiset<Message>)
    requires WellConfigured(cfg) && to in cfg && AllGenuine(cfg, s)
    requires Genuine(cfg, s, ToServer(to, join)) && ServerHeard(cfg, s, s', to, join, sent)
    requires Proper(cfg, s'.servers.Keys, s'.servers[to])
    ensures AllGenuine(cfg, s')
  {
    MembersAnnounced(cfg, s'.servers.Keys, s'.servers[to]);
    forall x | x in s'.inflight ensures Genuine(cfg, s', x) {
      if x in s.inflight { assert Genuine(cfg, s, x); }
    }
  }

  lemma ServerHeardMutual(cfg: Config, s: State, s': State, to: Address, join: Join, sent: multiset<Message>)
    requires WellConfigured(cfg) && to in cfg && s.servers.Keys <= cfg.Keys && Mutual(cfg, s)
    requires join.ip in s.servers && ServerHeard(cfg, s, s', to, join, sent)
    requires forall u, t :: u in s.servers && t in s.servers && Learns(cfg, s, u, t) ==> Learns(cfg, s', u, t)
    ensures Mutual(cfg, s')
  {
    GainsMembers(s.servers[to], s'.servers[to], join);
    forall u, t | u in s'.servers && t in s'.servers && u != t && u in Members(s'.servers[t])
      ensures Learns(cfg, s', u, t)
    {
      if u in Members(s.servers[t]) {
        assert Learns(cfg, s, u, t);
      } else {
        assert t == to && u == join.ip && ToServer(u, cfg[t]) in s'.inflight;
      }
    }
  }

  lemma HubHeardKeeps(cfg: Config, s: State, s': State, hub: Address, join: Join, sent: multiset<Message>)
    requires WellConfigured(cfg) && Inv(cfg, s)
    requires ToHub(hub, join) in s.inflight && HubHeard(cfg, s, s', hub, join, sent)
    ensures Inv(cfg, s')
  {
    assert Genuine(cfg, s, ToHub(hub, join));
    HubHeardProper(cfg, s, s', hub, join, sent);
    HubHeardGenuine(cfg, s, s', hub, join, sent);
    LearnsOnward(cfg, s, s', ToHub(hub, join));
    HubHeardMutual(cfg, s, s', hub, join, sent);
    HubHeardHear(cfg, s, s', hub, join, sent);
    HubHeardIntroduced(cfg, s, s', hub, join, sent);
  }

  lemma HubHeardProper(cfg: Config, s: State, s': State, hub: Address, join: Join, sent: multiset<Message>)
    requires ServersProper(cfg, s) && HubsProper(cfg, s) && SeedsProper(cfg, s)
    requires Genuine(cfg, s, ToHub(hub, join)) && HubHeard(cfg, s, s', hub, join, sent)
    ensures ServersProper(cfg, s') && HubsProper(cfg, s') && SeedsProper(cfg, s')
    ensures Members(s'.hubs[hub]) <= s'.servers.Keys
  {
    GainsProper(cfg, s.servers.Keys, s.hubs[hub], s'.hubs[hub], join);
    MembersAnnounced(cfg, s'.servers.Keys, s'.hubs[hub]);
  }

  lemma HubHeardMutual(cfg: Config, s: State, s': State, hub: Address, join: Join, sent: multiset<Message>)
    requires s.servers.Keys <= cfg.Keys && Mutual(cfg, s) && HubHeard(cfg, s, s', hub, join, sent)
    requires forall u, t :: u in s.servers && t in s.servers && Learns(cfg, s, u, t) ==> Learns(cfg, s', u, t)
    ensures Mutual(cfg, s')
  {
  }

  lemma HubHeardGenuine(cfg: Config, s: State, s': State, hub: Address, join: Join, sent: multiset<Message>)
    requires AllGenuine(cfg, s) && Genuine(cfg, s, ToHub(hub, join)) && HubHeard(cfg, s, s', hub, join, sent)
    requires Members(s'.hubs[hub]) <= s'.servers.Keys
    ensures AllGenuine(cfg, s')
  {
    forall x | x in s'.inflight ensures Genuine(cfg, s', x) {
      if x in s.inflight { assert Genuine(cfg, s, x); }
    }
  }

  lemma HubHeardHear(cfg: Config, s: State, s': State, hub: Address, join: Join, sent: multiset<Message>)
    requires WellConfigured(cfg) && s.servers.Keys <= cfg.Keys && HubsHear(cfg, s)
    requires Genuine(cfg, s, ToHub(hub, join)) && ToHub(hub, join) in s.inflight
    requires HubHeard(cfg, s, s', hub, join, sent)
    ensures HubsHear(cfg, s')
  {
    GainsMembers(s.hubs[hub], s'.hubs[hub], join);
    forall h, u | h in s'.hubs && u in s'.servers
      ensures s'.inflight[ToHub(h, cfg[u])] == if u in Members(s'.hubs[h]) then 0 else 1
    {
      assert cfg[u].ip == u && (ToHub(h, cfg[u]) == ToHub(hub, join) <==> h == hub && u == join.ip);
    }
  }

  lemma HubHeardIntroduced(cfg: Config, s: State, s': State, hub: Address, join: Join, sent: multiset<Message>)
    requires WellConfigured(cfg) && s.servers.Keys <= cfg.Keys && Introduced(cfg, s)
    requires Genuine(cfg, s, ToHub(hub, join)) && HubHeard(cfg, s, s', hub, join, sent)
    requires forall u, t :: u in s.servers && t in s.servers && Learns(cfg, s, u, t) ==> Learns(cfg, s', u, t)
    ensures Introduced(cfg, s')
  {
    GainsMembers(s.hubs[hub], s'.hubs[hub], join);
    forall h, u, t | h in s'.hubs && u in s'.servers && t in s'.servers && u != t
      ensures u in Members(s'.hubs[h]) && t in Members(s'.hubs[h]) ==> Learns(cfg, s', u, t) || Learns(cfg, s', t, u)
    {
      if u in Members(s'.hubs[h]) && t in Members(s'.hubs[h]) {
        if u in Members(s.hubs[h]) && t in Members(s.hubs[h]) {
          assert Learns(cfg, s, u, t) || Learns(cfg, s, t, u);
        } else if t == join.ip {
          assert ToServer(u, cfg[t]) in s'.inflight;
        } else {
          assert ToServer(t, cfg[u]) in s'.inflight;
        }
      }
    }
  }

  lemma AnnouncesKeeps(cfg: Config, s: State, s': State, ip: Address, sent: multiset<Message>)
    requires WellConfigured(cfg) && Inv(cfg, s) && ip in cfg && Announces(cfg, s, s', ip, sent)
    ensures Inv(cfg, s')
  {
    AnnouncesProper(cfg, s, s', ip, sent);
    AnnouncesGenuine(cfg, s, s', ip, sent);
    AnnouncesMutual(cfg, s, s', ip, sent);
    AnnouncesHear(cfg, s, s', ip, sent);
    AnnouncesIntroduced(cfg, s, s', ip, sent);
  }

  lemma AnnouncesProper(cfg: Config, s: State, s': State, ip: Address, sent: multiset<Message>)
    requires WellConfigured(cfg) && ip in cfg && Announces(cfg, s, s', ip, sent)
    requires ServersProper(cfg, s) && HubsProper(cfg, s) && SeedsProper(cfg, s)
    ensures ServersProper(cfg, s') && HubsProper(cfg, s') && SeedsProper(cfg, s')
  {
  }

  lemma AnnouncesGenuine(cfg: Config, s: State, s': State, ip: Address, sent: multiset<Message>)
    requires WellConfigured(cfg) && ip in cfg && Announces(cfg, s, s', ip, sent) && AllGenuine(cfg, s)
    ensures AllGenuine(cfg, s')
  {
    MembersAnnounced(cfg, s'.servers.Keys, s'.servers[ip]);
    forall x | x in s'.inflight ensures Genuine(cfg, s', x) {
      if x in s.inflight { assert Genuine(cfg, s, x); } else { assert x in sent; }
    }
  }

  lemma AnnouncesMutual(cfg: Config, s: State, s': State, ip: Address, sent: multiset<Message>)
    requires WellConfigured(cfg) && ip in cfg && Announces(cfg, s, s', ip, sent)
    requires ServersProper(cfg, s) && Mutual(cfg, s)
    ensures Mutual(cfg, s')
  {
    forall u, t | u in s'.servers && t in s'.servers && u != t && u in Members(s'.servers[t])
      ensures Learns(cfg, s', u, t)
    {
      if t == ip {
        assert ToServer(u, cfg[ip]) in sent;
      } else {
        MembersAnnounced(cfg, s.servers.Keys, s.servers[t]);
        assert Learns(cfg, s, u, t);
      }
    }
  }

  lemma AnnouncesHear(cfg: Config, s: State, s': State, ip: Address, sent: multiset<Message>)
    requires WellConfigured(cfg) && ip in cfg && Announces(cfg, s, s', ip, sent)
    requires s.servers.Keys <= cfg.Keys && HubsProper(cfg, s) && AllGenuine(cfg, s) && HubsHear(cfg, s)
    ensures HubsHear(cfg, s')
  {
    forall h, u | h in s'.hubs && u in s'.servers
      ensures s'.inflight[ToHub(h, cfg[u])] == if u in Members(s'.hubs[h]) then 0 else 1
    {
      MembersAnnounced(cfg, s.servers.Keys, s.hubs[h]);
      if u == ip {
        assert !Genuine(cfg, s, ToHub(h, cfg[ip]));
        assert s.inflight[ToHub(h, cfg[ip])] == 0;
      } else {
        assert cfg[u].ip == u && cfg[ip].ip == ip;
        assert ToHub(h, cfg[u]) !in sent;
      }
    }
  }

  lemma AnnouncesIntroduced(cfg: Config, s: State, s': State, ip: Address, sent: multiset<Message>)
    requires WellConfigured(cfg) && ip in cfg && Announces(cfg, s, s', ip, sent)
    requires s.servers.Keys <= cfg.Keys && HubsProper(cfg, s) && Introduced(cfg, s)
    ensures Introduced(cfg, s')
  {
    forall h, u, t | h in s'.hubs && u in s'.servers && t in s'.servers && u != t
      ensures u in Members(s'.hubs[h]) && t in Members(s'.hubs[h]) ==> Learns(cfg, s', u, t) || Learns(cfg, s', t, u)
    {
      MembersAnnounced(cfg, s.servers.Keys, s.hubs[h]);
      if u in Members(s'.hubs[h]) && t in Members(s'.hubs[h]) {
        assert Learns(cfg, s, u, t) || Learns(cfg, s, t, u);
      }
    }
  }

  /** A snapshot of a proper ring is proper. */
  lemma SeedKeepsSeeds(cfg: Config, s: State, s': State, hub: Address, ip: Address, snapshot: seq<Member>)
    requires SeedsProper(cfg, s) && HubsProper(cfg, s) && hub in s.hubs && ip !in s.servers
    requires IsSnapshot(s.hubs[hub], snapshot) && s' == s.(seeds := s.seeds[ip := snapshot])
    ensures SeedsProper(cfg, s')
  {
    assert Proper(cfg, s.servers.Keys, s.hubs[hub]);
  }

  /** The rest of the invariant does not look at the snapshots. */
  lemma SeedKeepsRest(cfg: Config, s: State, s': State)
    requires ServersProper(cfg, s) && HubsProper(cfg, s) && AllGenuine(cfg, s) && HubsHear(cfg, s)
    requires s' == s.(seeds := s'.seeds)
    ensures ServersProper(cfg, s') && HubsProper(cfg, s') && AllGenuine(cfg, s') && HubsHear(cfg, s')
  {
    forall m | m in s'.inflight ensures Genuine(cfg, s', m) { assert Genuine(cfg, s, m); }
  }

  lemma SeedKeepsLearning(cfg: Config, s: State, s': State)
    requires s.servers.Keys <= cfg.Keys && Mutual(cfg, s) && Introduced(cfg, s) && s' == s.(seeds := s'.seeds)
    ensures Mutual(cfg, s') && Introduced(cfg, s')
  {
    forall u, t | u in s.servers && t in cfg ensures Learns(cfg, s', u, t) == Learns(cfg, s, u, t) {
    }
  }

  lemma SeedKeeps(hash: Hash<Address>, cfg: Config, s: State, hub: Address, ip: Address, snapshot: seq<Member>)
    requires Inv(cfg, s) && Enabled(cfg, s, Seed(hub, ip, snapshot))
    ensures Inv(cfg, Apply(hash, cfg, s, Seed(hub, ip, snapshot)))
  {
    var s' := Apply(hash, cfg, s, Seed(hub, ip, snapshot));
    SeedKeepsSeeds(cfg, s, s', hub, ip, snapshot);
    SeedKeepsRest(cfg, s, s');
    SeedKeepsLearning(cfg, s, s');
  }

  // ---- every run --------------------------------------------------------------------------------

  lemma StepKeepsInv(hash: Hash<Address>, cfg: Config, s: State, step: Step)
    requires WellConfigured(cfg) && Inv(cfg, s) && Enabled(cfg, s, step)
    ensures Inv(cfg, Apply(hash, cfg, s, step))
  {
    match step
    case Seed(hub, ip, snapshot) =>
      SeedKeeps(hash, cfg, s, hub, ip, snapshot);
    case Announce(ip) =>
      DoAnnounce(hash, cfg, s, ip);
      AnnouncesKeeps(cfg, s, Apply(hash, cfg, s, step), ip,
                     Announcement(cfg[ip], Boot(hash, cfg[ip], s.seeds[ip]), s.hubs.Keys));
    case Deliver(ToServer(to, join)) =>
      assert Genuine(cfg, s, ToServer(to, join));
      DeliverToServer(hash, cfg, s, to, join);
      ServerHeardKeeps(cfg, s, Apply(hash, cfg, s, step), to, join, ServerHears(hash, cfg[to], s.servers[to], join).1);
    case Deliver(ToHub(hub, join)) =>
      HubIsNews(cfg, s, hub, join);
      DeliverToHub(hash, cfg, s, hub, join);
      HubHeardKeeps(cfg, s, Apply(hash, cfg, s, step), hub, join, HubHears(hash, s.hubs[hub], join).1);
  }

  /** An announcement on its way to a routing node is news there. */
  lemma HubIsNews(cfg: Config, s: State, hub: Address, join: Join)
    requires s.servers.Keys <= cfg.Keys && AllGenuine(cfg, s) && HubsHear(cfg, s) && ToHub(hub, join) in s.inflight
    ensures hub in s.hubs && join.ip !in Members(s.hubs[hub])
  {
    assert Genuine(cfg, s, ToHub(hub, join));
  }

  lemma {:induction false} RunKeepsInv(hash: Hash<Address>, cfg: Config, states: seq<State>, steps: seq<Step>, n: nat)
    requires WellConfigured(cfg) && IsRun(hash, cfg, states, steps) && n <= |steps|
    ensures Inv(cfg, states[n])
  {
    if n == 0 {
      InitInv(cfg, states[0]);
    } else {
      RunKeepsInv(hash, cfg, states, steps, n - 1);
      StepKeepsInv(hash, cfg, states[n - 1], steps[n - 1]);
    }
  }

  /** The announced servers of a tier. */
  ghost function Announced(cfg: Config, s: State, tier: Tier): set<Address>
    requires s.servers.Keys <= cfg.Keys
  {
    set ip | ip in s.servers && cfg[ip].tier == tier
  }

  lemma ProperAndComplete(cfg: Config, s: State, rings: Rings, tier: Tier)
    requires s.servers.Keys <= cfg.Keys
    requires Proper(cfg, s.servers.Keys, rings) && Members(rings) == s.servers.Keys
    ensures RingOf(rings, tier).servers == Announced(cfg, s, tier)
  {
    forall ip | ip in Announced(cfg, s, tier) ensures ip in RingOf(rings, tier).servers {
      assert ip in Members(rings);
    }
  }

  lemma QuietHubs(cfg: Config, s: State, h: Address)
    requires Inv(cfg, s) && s.inflight == multiset{} && h in s.hubs
    ensures Members(s.hubs[h]) == s.servers.Keys
  {
    MembersAnnounced(cfg, s.servers.Keys, s.hubs[h]);
    forall u | u in s.servers ensures u in Members(s.hubs[h]) {
      assert s.inflight[ToHub(h, cfg[u])] == 0;
    }
  }

  lemma QuietServers(cfg: Config, s: State, u: Address)
    requires Inv(cfg, s) && s.inflight == multiset{} && u in s.servers
    ensures Members(s.servers[u]) == s.servers.Keys
  {
    MembersAnnounced(cfg, s.servers.Keys, s.servers[u]);
    var h :| h in s.hubs;
    QuietHubs(cfg, s, h);
    forall t | t in s.servers ensures t in Members(s.servers[u]) {
      if t != u {
        assert Learns(cfg, s, u, t) || Learns(cfg, s, t, u);
      }
    }
  }

  /**
   * Join convergence. In any reachable state with no membership message in flight, every announced server and every
   * routing node has exactly the announced servers of each tier in its ring of that tier.
   */
  lemma JoinsConverge(hash: Hash<Address>, cfg: Config, states: seq<State>, steps: seq<Step>, n: nat)
    requires WellConfigured(cfg) && IsRun(hash, cfg, states, steps) && n <= |steps|
    requires states[n].inflight == multiset{}
    ensures var s := states[n];
            && s.servers.Keys <= cfg.Keys
            && (forall u, tier :: u in s.servers ==> RingOf(s.servers[u], tier).servers == Announced(cfg, s, tier))
            && (forall h, tier :: h in s.hubs ==> RingOf(s.hubs[h], tier).servers == Announced(cfg, s, tier))
  {
    RunKeepsInv(hash, cfg, states, steps, n);
    var s := states[n];
    forall u, tier | u in s.servers ensures RingOf(s.servers[u], tier).servers == Announced(cfg, s, tier) {
      QuietServers(cfg, s, u);
      ProperAndComplete(cfg, s, s.servers[u], tier);
    }
    forall h, tier | h in s.hubs ensures RingOf(s.hubs[h], tier).servers == Announced(cfg, s, tier) {
      QuietHubs(cfg, s, h);
      ProperAndComplete(cfg, s, s.hubs[h], tier);
    }
  }
}
