/** The flood of join messages dies out within a bound fixed by the configuration. */
module JoinFlood {
  import opened Types
  import opened Walk
  import opened Ring
  import opened Membership
  import opened JoinConvergence

  // ---- a bound on every run ---------------------------------------------------------------------

  /** These rings hold the server with its join count, so hearing of it again is not news. */
  predicate Settled(rings: Rings, join: Join) {
    var ring := RingOf(rings, join.tier);
    join.ip in ring.servers && join.count <= if join.ip in ring.joinCounts then ring.joinCounts[join.ip] else 0
  }

  /** The pairs (server, server) of which the first has not settled on the second. */
  ghost function Owed(cfg: Config, known: map<Address, Rings>, parties: set<Address>): set<(Address, Address)> {
    set u, t | u in parties && t in cfg && !(u in known && Settled(known[u], cfg[t])) :: (u, t)
  }

  ghost function Debt(cfg: Config, s: State): nat {
    |Owed(cfg, s.servers, cfg.Keys)| + |Owed(cfg, s.hubs, s.hubs.Keys)|
  }

  function Weigh(n: nat, hubs: nat, debt: nat, inflight: nat, unannounced: nat, unseeded: nat): (r: nat) {
    (n + 1) * debt + inflight + (n + hubs + 1) * unannounced + unseeded
  }

  /** The handler's insertion is news exactly when the rings are not settled; it settles them and unsettles nobody. */
  lemma AdmitSettles(hash: Hash<Address>, rings: Rings, join: Join)
    ensures Admit(hash, rings, join).1 <==> !Settled(rings, join)
    ensures Settled(Admit(hash, rings, join).0, join)
    ensures forall other :: Settled(rings, other) ==> Settled(Admit(hash, rings, join).0, other)
  {
  }

  /** Replacing one party's rings by better settled ones shrinks what is owed. */
  lemma OwedShrinks(cfg: Config, known: map<Address, Rings>, u: Address, rings: Rings, parties: set<Address>)
    requires u in known ==> forall other :: Settled(known[u], other) ==> Settled(rings, other)
    ensures Owed(cfg, known[u := rings], parties) <= Owed(cfg, known, parties)
    ensures |Owed(cfg, known[u := rings], parties)| <= |Owed(cfg, known, parties)|
  {
    SubsetSize(Owed(cfg, known[u := rings], parties), Owed(cfg, known, parties));
  }

  lemma OwedDrops(cfg: Config, known: map<Address, Rings>, u: Address, rings: Rings, parties: set<Address>, t: Address)
    requires u in known && u in parties && t in cfg && !Settled(known[u], cfg[t]) && Settled(rings, cfg[t])
    requires forall other :: Settled(known[u], other) ==> Settled(rings, other)
    ensures |Owed(cfg, known[u := rings], parties)| + 1 <= |Owed(cfg, known, parties)|
  {
    OwedShrinks(cfg, known, u, rings, parties);
    var after := Owed(cfg, known[u := rings], parties);
    assert (u, t) in Owed(cfg, known, parties) && (u, t) !in after;
    ProperSubsetSize(after, Owed(cfg, known, parties), (u, t));
  }

  lemma {:induction false} ImageSize(to: set<Address>, join: Join)
    ensures |Broadcast(to, join)| == |to|
    ensures |set h | h in to :: ToHub(h, join)| == |to|
  {
    var servers, hubs := set a | a in to :: ToServer(a, join), set h | h in to :: ToHub(h, join);
    if to == {} {
      assert servers == {} && hubs == {};
    } else {
      var a :| a in to;
      var rest := to - {a};
      ImageSize(rest, join);
      var servers', hubs' := set x | x in rest :: ToServer(x, join), set x | x in rest :: ToHub(x, join);
      assert servers == servers' + {ToServer(a, join)} && ToServer(a, join) !in servers';
      assert hubs == hubs' + {ToHub(a, join)} && ToHub(a, join) !in hubs';
    }
  }

  lemma ProperSubsetSize<T>(a: set<T>, b: set<T>, x: T)
    requires a <= b && x in b && x !in a
    ensures |a| + 1 <= |b|
  {
    SubsetSize(a + {x}, b);
  }

  lemma MulDrop(w: nat, x': nat, x: nat)
    requires x' + 1 <= x
    ensures w * x' + w <= w * x
  {
    assert w * (x' + 1) == w * x' + w;
    MulMono(w, x' + 1, x);
  }

  lemma MulMono(w: nat, x': nat, x: nat)
    requires x' <= x
    ensures w * x' <= w * x
  {
  }

  lemma WeighLess(n: nat, hubs: nat, debt: nat, inflight: nat, un: nat, useed: nat,
                  debt': nat, inflight': nat, un': nat, useed': nat)
    requires || (debt' <= debt && inflight' + 1 <= inflight && un' == un && useed' == useed)
             || (debt' + 1 <= debt && inflight' <= inflight + n && un' == un && useed' == useed)
             || (debt' <= debt && inflight' <= inflight + n + hubs && un' + 1 <= un && useed' == useed)
             || (debt' == debt && inflight' == inflight && un' == un && useed' + 1 <= useed)
    ensures Weigh(n, hubs, debt', inflight', un', useed') + 1 <= Weigh(n, hubs, debt, inflight, un, useed)
  {
    if debt' + 1 <= debt { MulDrop(n + 1, debt', debt); } else if debt' <= debt { MulMono(n + 1, debt', debt); }
    if un' + 1 <= un { MulDrop(n + hubs + 1, un', un); }
  }

  /** How many servers have not announced, and how many of those have no snapshot yet. */
  ghost function Unannounced(cfg: Config, s: State): nat {
    |cfg.Keys - s.servers.Keys|
  }

  ghost function Unseeded(cfg: Config, s: State): nat {
    |cfg.Keys - s.servers.Keys - s.seeds.Keys|
  }

  /** Each step lowers this number. */
  ghost function Potential(cfg: Config, s: State): nat {
    Weigh(|cfg|, |s.hubs|, Debt(cfg, s), |s.inflight|, Unannounced(cfg, s), Unseeded(cfg, s))
  }

  /** Fewer messages, nothing else changed for the worse; */
  lemma FewerMessages(cfg: Config, s: State, s': State)
    requires |s'.hubs| == |s.hubs| && Debt(cfg, s') <= Debt(cfg, s) && |s'.inflight| + 1 <= |s.inflight|
    requires Unannounced(cfg, s') == Unannounced(cfg, s) && Unseeded(cfg, s') == Unseeded(cfg, s)
    ensures Potential(cfg, s') + 1 <= Potential(cfg, s)
  {
    WeighLess(|cfg|, |s.hubs|, Debt(cfg, s), |s.inflight|, Unannounced(cfg, s), Unseeded(cfg, s),
              Debt(cfg, s'), |s'.inflight|, Unannounced(cfg, s'), Unseeded(cfg, s'));
  }

  /** less owed, for a message to each server; */
  lemma LessOwed(cfg: Config, s: State, s': State)
    requires |s'.hubs| == |s.hubs| && Debt(cfg, s') + 1 <= Debt(cfg, s) && |s'.inflight| <= |s.inflight| + |cfg|
    requires Unannounced(cfg, s') == Unannounced(cfg, s) && Unseeded(cfg, s') == Unseeded(cfg, s)
    ensures Potential(cfg, s') + 1 <= Potential(cfg, s)
  {
    WeighLess(|cfg|, |s.hubs|, Debt(cfg, s), |s.inflight|, Unannounced(cfg, s), Unseeded(cfg, s),
              Debt(cfg, s'), |s'.inflight|, Unannounced(cfg, s'), Unseeded(cfg, s'));
  }

  /** one server fewer to come, for a message to each server and routing node; */
  lemma FewerToCome(cfg: Config, s: State, s': State)
    requires |s'.hubs| == |s.hubs| && Debt(cfg, s') <= Debt(cfg, s) && |s'.inflight| <= |s.inflight| + |cfg| + |s.hubs|
    requires Unannounced(cfg, s') + 1 <= Unannounced(cfg, s) && Unseeded(cfg, s') == Unseeded(cfg, s)
    ensures Potential(cfg, s') + 1 <= Potential(cfg, s)
  {
    WeighLess(|cfg|, |s.hubs|, Debt(cfg, s), |s.inflight|, Unannounced(cfg, s), Unseeded(cfg, s),
              Debt(cfg, s'), |s'.inflight|, Unannounced(cfg, s'), Unseeded(cfg, s'));
  }

  /** or one fewer to be given a snapshot. */
  lemma FewerToSeed(cfg: Config, s: State, s': State)
    requires |s'.hubs| == |s.hubs| && Debt(cfg, s') == Debt(cfg, s) && |s'.inflight| == |s.inflight|
    requires Unannounced(cfg, s') == Unannounced(cfg, s) && Unseeded(cfg, s') + 1 <= Unseeded(cfg, s)
    ensures Potential(cfg, s') + 1 <= Potential(cfg, s)
  {
    WeighLess(|cfg|, |s.hubs|, Debt(cfg, s), |s.inflight|, Unannounced(cfg, s), Unseeded(cfg, s),
              Debt(cfg, s'), |s'.inflight|, Unannounced(cfg, s'), Unseeded(cfg, s'));
  }

  lemma AnnounceCounts(cfg: Config, s: State, s': State, ip: Address)
    requires ip in cfg && ip in s.seeds && ip !in s.servers
    requires s'.servers.Keys == s.servers.Keys + {ip} && s'.seeds.Keys == s.seeds.Keys - {ip}
    ensures Unannounced(cfg, s') + 1 == Unannounced(cfg, s) && Unseeded(cfg, s') == Unseeded(cfg, s)
  {
    LessOne(cfg.Keys, s.servers.Keys, ip);
    SwapOne(cfg.Keys, s.servers.Keys, s.seeds.Keys, ip);
  }

  lemma LessOne(all: set<Address>, a: set<Address>, ip: Address)
    requires ip in all && ip !in a
    ensures |all - (a + {ip})| + 1 == |all - a|
  {
    assert all - a == (all - (a + {ip})) + {ip};
  }

  lemma SwapOne(all: set<Address>, a: set<Address>, b: set<Address>, ip: Address)
    requires ip in b
    ensures all - (a + {ip}) - (b - {ip}) == all - a - b
  {
  }

  lemma SeedCounts(cfg: Config, s: State, s': State, ip: Address)
    requires ip in cfg && ip !in s.seeds && ip !in s.servers
    requires s'.servers == s.servers && s'.seeds.Keys == s.seeds.Keys + {ip}
    ensures Unannounced(cfg, s') == Unannounced(cfg, s) && Unseeded(cfg, s') + 1 == Unseeded(cfg, s)
  {
    LessOne(cfg.Keys - s.servers.Keys, s.seeds.Keys, ip);
  }

  lemma MapSize(a: map<Address, Rings>, b: map<Address, Rings>)
    requires a.Keys == b.Keys
    ensures |a| == |b|
  {
    assert |a| == |a.Keys| && |b| == |b.Keys|;
  }

  lemma BothSizes(memory: set<Address>, disk: set<Address>, join: Join)
    requires memory !! disk
    ensures |Broadcast(memory, join) + Broadcast(disk, join)| == |memory + disk|
  {
    ImageSize(memory, join);
    ImageSize(disk, join);
    DisjointSize(memory, disk);
  }

  /** When nobody who is told is on two rings, as many messages go out as there are servers to tell. */
  lemma ToRingsSize(rings: Rings, except: set<Address>, join: Join)
    requires (RingOf(rings, Memory).servers - except) !! (RingOf(rings, Disk).servers - except)
    ensures |ToRings(rings, except, join)| == |Members(rings) - except|
  {
    BothSizes(RingOf(rings, Memory).servers - except, RingOf(rings, Disk).servers - except, join);
    TakenApart(RingOf(rings, Memory).servers, RingOf(rings, Disk).servers, except);
  }

  lemma TakenApart(a: set<Address>, b: set<Address>, except: set<Address>)
    ensures (a + b) - except == (a - except) + (b - except)
  {
  }

  lemma SentByServer(hash: Hash<Address>, cfg: Config, s: State, to: Address, join: Join)
    requires WellConfigured(cfg) && ServersProper(cfg, s)
    requires to in s.servers && Genuine(cfg, s, ToServer(to, join))
    ensures |ServerHears(hash, cfg[to], s.servers[to], join).1| <= |cfg|
  {
    var rings := Admit(hash, s.servers[to], join).0;
    AdmitMembers(hash, s.servers[to], join);
    MembersAnnounced(cfg, s.servers.Keys, s.servers[to]);
    var others := Members(rings) - {to, join.ip};
    ToRingsSize(rings, {to, join.ip}, join);
    ProperSubsetSize(others, cfg.Keys, to);
  }

  lemma SentByHub(hash: Hash<Address>, cfg: Config, s: State, hub: Address, join: Join)
    requires HubsProper(cfg, s) && s.servers.Keys <= cfg.Keys
    requires hub in s.hubs
    ensures |HubHears(hash, s.hubs[hub], join).1| <= |cfg|
  {
    AdmitMembers(hash, s.hubs[hub], join);
    MembersAnnounced(cfg, s.servers.Keys, s.hubs[hub]);
    var others := Members(Admit(hash, s.hubs[hub], join).0) - {join.ip};
    ToRingsSize(Admit(hash, s.hubs[hub], join).0, {join.ip}, join);
    SubsetSize(others, cfg.Keys);
  }

  lemma DeliverSize(inflight: multiset<Message>, m: Message, sent: multiset<Message>)
    requires m in inflight
    ensures |inflight - multiset{m} + sent| + 1 == |inflight| + |sent|
  {
  }

  lemma ServerDelivery(hash: Hash<Address>, cfg: Config, s: State, to: Address, join: Join)
    requires Enabled(cfg, s, Deliver(ToServer(to, join))) && join.ip in cfg && cfg[join.ip] == join
    requires |ServerHears(hash, cfg[to], s.servers[to], join).1| <= |cfg|
    ensures Potential(cfg, Apply(hash, cfg, s, Deliver(ToServer(to, join)))) + 1 <= Potential(cfg, s)
  {
    var s' := Apply(hash, cfg, s, Deliver(ToServer(to, join)));
    var (rings, sent) := ServerHears(hash, cfg[to], s.servers[to], join);
    AdmitSettles(hash, s.servers[to], join);
    DeliverSize(s.inflight, ToServer(to, join), sent);
    OwedShrinks(cfg, s.servers, to, rings, cfg.Keys);
    assert s'.servers.Keys == s.servers.Keys;
    if Settled(s.servers[to], join) {
      FewerMessages(cfg, s, s');
    } else {
      OwedDrops(cfg, s.servers, to, rings, cfg.Keys, join.ip);
      LessOwed(cfg, s, s');
    }
  }

  lemma TierMember(rings: Rings, tier: Tier, ip: Address)
    ensures ip in RingOf(rings, tier).servers ==> ip in Members(rings)
  {
    match tier
    case Memory =>
    case Disk =>
  }

  lemma HubDelivery(hash: Hash<Address>, cfg: Config, s: State, hub: Address, join: Join)
    requires Enabled(cfg, s, Deliver(ToHub(hub, join))) && join.ip in cfg && cfg[join.ip] == join
    requires join.ip !in Members(s.hubs[hub])
    requires |HubHears(hash, s.hubs[hub], join).1| <= |cfg|
    ensures Potential(cfg, Apply(hash, cfg, s, Deliver(ToHub(hub, join)))) + 1 <= Potential(cfg, s)
  {
    var s' := Apply(hash, cfg, s, Deliver(ToHub(hub, join)));
    var (rings, sent) := HubHears(hash, s.hubs[hub], join);
    AdmitSettles(hash, s.hubs[hub], join);
    DeliverSize(s.inflight, ToHub(hub, join), sent);
    TierMember(s.hubs[hub], join.tier, join.ip);
    HubLowers(cfg, s, hub, join, rings, s');
  }

  lemma HubLowers(cfg: Config, s: State, hub: Address, join: Join, rings: Rings, s': State)
    requires hub in s.hubs && join.ip in cfg && cfg[join.ip] == join
    requires !Settled(s.hubs[hub], join) && Settled(rings, join)
    requires forall other :: Settled(s.hubs[hub], other) ==> Settled(rings, other)
    requires s'.hubs == s.hubs[hub := rings] && s'.servers == s.servers && s'.seeds == s.seeds
    requires |s'.inflight| <= |s.inflight| + |cfg|
    ensures Potential(cfg, s') + 1 <= Potential(cfg, s)
  {
    OwedDrops(cfg, s.hubs, hub, rings, s.hubs.Keys, join.ip);
    assert s'.hubs.Keys == s.hubs.Keys;
    MapSize(s'.hubs, s.hubs);
    LessOwed(cfg, s, s');
  }

  lemma SentByNewcomer(hash: Hash<Address>, cfg: Config, s: State, ip: Address)
    requires WellConfigured(cfg) && s.servers.Keys <= cfg.Keys && SeedsProper(cfg, s) && Enabled(cfg, s, Announce(ip))
    ensures |Announcement(cfg[ip], Boot(hash, cfg[ip], s.seeds[ip]), s.hubs.Keys)| <= |cfg| + |s.hubs|
  {
    var rings := Boot(hash, cfg[ip], s.seeds[ip]);
    BootProper(hash, cfg, s.servers.Keys, cfg[ip], s.seeds[ip]);
    MembersAnnounced(cfg, s.servers.Keys + {ip}, rings);
    ToRingsSize(rings, {ip}, cfg[ip]);
    ImageSize(s.hubs.Keys, cfg[ip]);
    SubsetSize(Members(rings) - {ip}, cfg.Keys);
  }

  lemma AnnounceLowers(hash: Hash<Address>, cfg: Config, s: State, ip: Address)
    requires Enabled(cfg, s, Announce(ip)) && ip !in s.servers
    requires |Announcement(cfg[ip], Boot(hash, cfg[ip], s.seeds[ip]), s.hubs.Keys)| <= |cfg| + |s.hubs|
    ensures Potential(cfg, Apply(hash, cfg, s, Announce(ip))) + 1 <= Potential(cfg, s)
  {
    var rings, s' := Boot(hash, cfg[ip], s.seeds[ip]), Apply(hash, cfg, s, Announce(ip));
    var sent := Announcement(cfg[ip], rings, s.hubs.Keys);
    NewcomerShape(s, ip, rings, sent, s');
    NewcomerLowers(cfg, s, ip, rings, |sent|, s');
  }

  lemma NewcomerShape(s: State, ip: Address, rings: Rings, sent: multiset<Message>, s': State)
    requires s' == State(s.hubs, s.seeds - {ip}, s.servers[ip := rings], s.inflight + sent)
    ensures s'.seeds.Keys == s.seeds.Keys - {ip} && s'.servers.Keys == s.servers.Keys + {ip}
    ensures |s'.inflight| == |s.inflight| + |sent|
  {
  }

  lemma NewcomerDebt(cfg: Config, s: State, ip: Address, rings: Rings, s': State)
    requires ip !in s.servers && s'.hubs == s.hubs && s'.servers == s.servers[ip := rings]
    ensures Debt(cfg, s') <= Debt(cfg, s)
  {
    OwedShrinks(cfg, s.servers, ip, rings, cfg.Keys);
  }

  lemma NewcomerLowers(cfg: Config, s: State, ip: Address, rings: Rings, sent: nat, s': State)
    requires ip in cfg && ip in s.seeds && ip !in s.servers && sent <= |cfg| + |s.hubs|
    requires s'.hubs == s.hubs && s'.servers == s.servers[ip := rings] && |s'.inflight| == |s.inflight| + sent
    requires s'.seeds.Keys == s.seeds.Keys - {ip} && s'.servers.Keys == s.servers.Keys + {ip}
    ensures Potential(cfg, s') + 1 <= Potential(cfg, s)
  {
    NewcomerDebt(cfg, s, ip, rings, s');
    AnnounceCounts(cfg, s, s', ip);
    FewerToCome(cfg, s, s');
  }

  lemma SeedShape(s: State, ip: Address, snapshot: seq<Member>, s': State)
    requires s' == s.(seeds := s.seeds[ip := snapshot])
    ensures s'.seeds.Keys == s.seeds.Keys + {ip}
  {
  }

  lemma SeedLowers(hash: Hash<Address>, cfg: Config, s: State, hub: Address, ip: Address, snapshot: seq<Member>)
    requires Enabled(cfg, s, Seed(hub, ip, snapshot))
    ensures Potential(cfg, Apply(hash, cfg, s, Seed(hub, ip, snapshot))) + 1 <= Potential(cfg, s)
  {
    var s' := Apply(hash, cfg, s, Seed(hub, ip, snapshot));
    SeedShape(s, ip, snapshot, s');
    SeededLowers(cfg, s, ip, s');
  }

  lemma SeededLowers(cfg: Config, s: State, ip: Address, s': State)
    requires ip in cfg && ip !in s.seeds && ip !in s.servers && s' == s.(seeds := s'.seeds)
    requires s'.seeds.Keys == s.seeds.Keys + {ip}
    ensures Potential(cfg, s') + 1 <= Potential(cfg, s)
  {
    SeedCounts(cfg, s, s', ip);
    FewerToSeed(cfg, s, s');
  }

  /** Every step of the protocol lowers the potential. */
  lemma StepLowers(hash: Hash<Address>, cfg: Config, s: State, step: Step)
    requires WellConfigured(cfg) && Inv(cfg, s) && Enabled(cfg, s, step)
    ensures Potential(cfg, Apply(hash, cfg, s, step)) + 1 <= Potential(cfg, s)
  {
    match step
    case Seed(hub, ip, snapshot) => SeedLowers(hash, cfg, s, hub, ip, snapshot);
    case Announce(ip) =>
      SentByNewcomer(hash, cfg, s, ip);
      AnnounceLowers(hash, cfg, s, ip);
    case Deliver(ToServer(to, join)) =>
      assert Genuine(cfg, s, ToServer(to, join));
      SentByServer(hash, cfg, s, to, join);
      ServerDelivery(hash, cfg, s, to, join);
    case Deliver(ToHub(hub, join)) =>
      assert Genuine(cfg, s, ToHub(hub, join));
      HubIsNews(cfg, s, hub, join);
      SentByHub(hash, cfg, s, hub, join);
      HubDelivery(hash, cfg, s, hub, join);
  }

  lemma RunLowers(hash: Hash<Address>, cfg: Config, states: seq<State>, steps: seq<Step>, n: nat)
    requires WellConfigured(cfg) && IsRun(hash, cfg, states, steps) && n <= |steps|
    ensures Potential(cfg, states[n]) + n <= Potential(cfg, states[0])
  {
    var i := 0;
    while i < n
      invariant i <= n && Potential(cfg, states[i]) + i <= Potential(cfg, states[0])
    {
      RunKeepsInv(hash, cfg, states, steps, i);
      StepLowers(hash, cfg, states[i], steps[i]);
      i := i + 1;
    }
  }

  ghost function Pairs(us: set<Address>, ts: set<Address>): set<(Address, Address)> {
    set u, t | u in us && t in ts :: (u, t)
  }

  ghost function Row(u: Address, ts: set<Address>): set<(Address, Address)> {
    set t | t in ts :: (u, t)
  }

  lemma {:induction false} PairsSize(us: set<Address>, ts: set<Address>)
    ensures |Pairs(us, ts)| == |us| * |ts|
  {
    if us == {} {
      assert Pairs(us, ts) == {};
    } else {
      var u :| u in us;
      PairsSize(us - {u}, ts);
      RowAndRest(us, ts, u);
      RowSize(u, ts);
      RowMore(|us - {u}|, |ts|);
    }
  }

  lemma RowAndRest(us: set<Address>, ts: set<Address>, u: Address)
    requires u in us
    ensures |Pairs(us, ts)| == |Row(u, ts)| + |Pairs(us - {u}, ts)|
    ensures |us| == |us - {u}| + 1
  {
    assert Pairs(us, ts) == Row(u, ts) + Pairs(us - {u}, ts);
    DisjointSize(Row(u, ts), Pairs(us - {u}, ts));
  }

  lemma DisjointSize<T>(a: set<T>, b: set<T>)
    requires a !! b
    ensures |a + b| == |a| + |b|
  {
  }

  lemma RowMore(a: nat, b: nat)
    ensures (a + 1) * b == a * b + b
  {
  }

  lemma {:induction false} RowSize(u: Address, ts: set<Address>)
    ensures |Row(u, ts)| == |ts|
  {
    if ts == {} {
      assert Row(u, ts) == {};
    } else {
      var t :| t in ts;
      RowSize(u, ts - {t});
      assert Row(u, ts) == Row(u, ts - {t}) + {(u, t)};
      DisjointSize(Row(u, ts - {t}), {(u, t)});
    }
  }

  function MaxSteps(n: nat, k: nat): (r: nat) {
    Weigh(n, k, n * n + k * n, 0, n, n)
  }

  /**
   * The flood dies out. A run over `n` servers and `k` routing nodes, in which servers seed and announce and messages
   * are delivered in any order, has at most this many steps in all.
   */
  lemma FloodDiesOut(hash: Hash<Address>, cfg: Config, states: seq<State>, steps: seq<Step>)
    requires WellConfigured(cfg) && IsRun(hash, cfg, states, steps)
    ensures |steps| <= MaxSteps(|cfg|, |states[0].hubs|)
  {
    RunLowers(hash, cfg, states, steps, |steps|);
    InitialPotential(cfg, states[0]);
  }

  lemma OwedSize(cfg: Config, known: map<Address, Rings>, parties: set<Address>)
    ensures |Owed(cfg, known, parties)| <= |parties| * |cfg|
  {
    PairsSize(parties, cfg.Keys);
    SubsetSize(Owed(cfg, known, parties), Pairs(parties, cfg.Keys));
    assert |cfg| == |cfg.Keys|;
  }

  lemma InitialPotential(cfg: Config, s: State)
    requires Init(s)
    ensures Potential(cfg, s) <= MaxSteps(|cfg|, |s.hubs|)
  {
    DebtSize(cfg, s);
    NoneStarted(cfg, s);
    StartWeight(|cfg|, |s.hubs|, Debt(cfg, s), |s.inflight|, Unannounced(cfg, s), Unseeded(cfg, s));
  }

  lemma DebtSize(cfg: Config, s: State)
    ensures Debt(cfg, s) <= |cfg| * |cfg| + |s.hubs| * |cfg|
  {
    OwedSize(cfg, s.servers, cfg.Keys);
    OwedSize(cfg, s.hubs, s.hubs.Keys);
    assert |cfg| == |cfg.Keys| && |s.hubs| == |s.hubs.Keys|;
  }

  lemma NoneStarted(cfg: Config, s: State)
    requires s.servers.Keys == {} && s.seeds.Keys == {}
    ensures Unannounced(cfg, s) == |cfg| && Unseeded(cfg, s) == |cfg|
  {
    assert cfg.Keys - {} == cfg.Keys;
    assert |cfg| == |cfg.Keys|;
  }

  lemma StartWeight(n: nat, k: nat, debt: nat, inflight: nat, un: nat, useed: nat)
    requires debt <= n * n + k * n && inflight == 0 && un == n && useed == n
    ensures Weigh(n, k, debt, inflight, un, useed) <= MaxSteps(n, k)
  {
    MulMono(n + 1, debt, n * n + k * n);
  }
}
