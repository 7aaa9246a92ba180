/**
 * The membership protocol: servers bootstrap from a routing node's snapshot, announce themselves, and every server and
 * routing node that learns of a newcomer passes it on. Any number of servers may join at once, each from a stale
 * snapshot, and messages may be delivered in any order.
 */
module Membership {
  import opened Types
  import opened Ring
  import opened Runs

  type Rings = map<Tier, HashRing<Address>>

  const EMPTY_RING: HashRing<Address> := HashRing([], {}, map[])

  /** What a server says about itself: its tier, its address and how often it was restarted. */
  datatype Join = Join(tier: Tier, ip: Address, count: nat)

  datatype Message =
    | ToServer(to: Address, join: Join)
    | ToHub(hub: Address, join: Join)

  /** An entry of the membership a routing node hands out. */
  datatype Member = Member(tier: Tier, ip: Address)

  /** The servers that may ever run, each with what it will say about itself. */
  type Config = map<Address, Join>

  datatype State = State(
    hubs: map<Address, Rings>,          // the rings of each routing node
    seeds: map<Address, seq<Member>>,   // snapshots handed out and not used yet
    servers: map<Address, Rings>,       // the rings of each announced server
    inflight: multiset<Message>)

  function RingOf(rings: Rings, tier: Tier): (r: HashRing<Address>) {
    if tier in rings then rings[tier] else EMPTY_RING
  }

  function Members(rings: Rings): (r: set<Address>) {
    RingOf(rings, Memory).servers + RingOf(rings, Disk).servers
  }

  /** Insert a server into the ring of its tier. */
  function Admit(hash: Hash<Address>, rings: Rings, join: Join): (r: (Rings, bool)) {
    var (ring, inserted) := Insert(hash, RingOf(rings, join.tier), join.ip, join.count);
    (rings[join.tier := ring], inserted)
  }

  /** One message to each address. */
  function Broadcast(to: set<Address>, join: Join): (r: multiset<Message>) {
    multiset(set a | a in to :: ToServer(a, join))
  }

  /** One message to each server on the ring of each tier, but the ones left out. */
  function ToRings(rings: Rings, except: set<Address>, join: Join): (r: multiset<Message>) {
    Broadcast(RingOf(rings, Memory).servers - except, join) + Broadcast(RingOf(rings, Disk).servers - except, join)
  }

  /** The membership part of `node_join_handler` at server `self`: the new rings and the messages sent. */
  function ServerHears(hash: Hash<Address>, self: Join, rings: Rings, join: Join): (r: (Rings, multiset<Message>)) {
    var (rings', inserted) := Admit(hash, rings, join);
    (rings',
     if inserted then
       multiset{ToServer(join.ip, self)} + ToRings(rings', {self.ip, join.ip}, join)
     else multiset{})
  }

  /** The join branch of the routing node's `membership_handler`. */
  function HubHears(hash: Hash<Address>, rings: Rings, join: Join): (r: (Rings, multiset<Message>)) {
    var (rings', inserted) := Admit(hash, rings, join);
    (rings', if inserted then ToRings(rings', {join.ip}, join) else multiset{})
  }

  /** Bootstrap: the snapshot's servers with count 0. */
  function Populate(hash: Hash<Address>, snapshot: seq<Member>): (r: Rings) {
    if snapshot == [] then map[]
    else
      var m := snapshot[|snapshot| - 1];
      Admit(hash, Populate(hash, snapshot[..|snapshot| - 1]), Join(m.tier, m.ip, 0)).0
  }

  /** `seed_handler`: the members of every ring, in some order. */
  predicate IsSnapshot(rings: Rings, snapshot: seq<Member>) {
    && (forall m :: m in snapshot ==> m.ip in RingOf(rings, m.tier).servers)
    && (forall ip :: ip in RingOf(rings, Memory).servers ==> Member(Memory, ip) in snapshot)
    && (forall ip :: ip in RingOf(rings, Disk).servers ==> Member(Disk, ip) in snapshot)
  }

  datatype Step =
    | Seed(hub: Address, ip: Address, snapshot: seq<Member>)
    | Announce(ip: Address)
    | Deliver(message: Message)

  predicate Enabled(cfg: Config, s: State, step: Step) {
    match step
    case Seed(hub, ip, snapshot) =>
      && hub in s.hubs && ip in cfg && ip !in s.servers && ip !in s.seeds
      && IsSnapshot(s.hubs[hub], snapshot)
    case Announce(ip) => ip in s.seeds && ip in cfg
    case Deliver(m) =>
      && m in s.inflight
      && (m.ToServer? ==> m.to in s.servers && m.to in cfg)
      && (m.ToHub? ==> m.hub in s.hubs)
  }

  /** The rings a server starts with: the snapshot, then itself. */
  function Boot(hash: Hash<Address>, self: Join, snapshot: seq<Member>): (r: Rings) {
    Admit(hash, Populate(hash, snapshot), self).0
  }

  /** The announcement: to every server it knows, and to every routing node. */
  function Announcement(self: Join, rings: Rings, hubs: set<Address>): (r: multiset<Message>) {
    ToRings(rings, {self.ip}, self) + multiset(set h | h in hubs :: ToHub(h, self))
  }

  function Apply(hash: Hash<Address>, cfg: Config, s: State, step: Step): (r: State)
    requires Enabled(cfg, s, step)
  {
    match step
    case Seed(hub, ip, snapshot) => s.(seeds := s.seeds[ip := snapshot])
    case Announce(ip) =>
      var rings := Boot(hash, cfg[ip], s.seeds[ip]);
      s.(seeds := s.seeds - {ip},
         servers := s.servers[ip := rings],
         inflight := s.inflight + Announcement(cfg[ip], rings, s.hubs.Keys))
    case Deliver(ToServer(to, join)) =>
      var (rings, sent) := ServerHears(hash, cfg[to], s.servers[to], join);
      s.(servers := s.servers[to := rings], inflight := s.inflight - multiset{step.message} + sent)
    case Deliver(ToHub(hub, join)) =>
      var (rings, sent) := HubHears(hash, s.hubs[hub], join);
      s.(hubs := s.hubs[hub := rings], inflight := s.inflight - multiset{step.message} + sent)
  }

  /** Nobody has started; the routing nodes know of nobody. */
  predicate Init(s: State) {
    && s.hubs != map[] && (forall h :: h in s.hubs ==> s.hubs[h] == map[])
    && s.seeds == map[] && s.servers == map[] && s.inflight == multiset{}
  }

  /** What a step of the protocol does. */
  function Moving(hash: Hash<Address>, cfg: Config): (r: Relation<State, Step>) {
    (s: State, step: Step, s': State) => Enabled(cfg, s, step) && s' == Apply(hash, cfg, s, step)
  }

  ghost predicate IsRun(hash: Hash<Address>, cfg: Config, states: seq<State>, steps: seq<Step>) {
    && |states| == |steps| + 1
    && Init(states[0])
    && forall i :: 0 <= i < |steps| ==>
         Enabled(cfg, states[i], steps[i]) && states[i + 1] == Apply(hash, cfg, states[i], steps[i])
  }

  lemma RunIsChain(hash: Hash<Address>, cfg: Config, states: seq<State>, steps: seq<Step>)
    ensures IsRun(hash, cfg, states, steps) <==> Chain(Moving(hash, cfg), states, steps) && Init(states[0])
  {
    if Chain(Moving(hash, cfg), states, steps) {
      forall i | 0 <= i < |steps|
        ensures Enabled(cfg, states[i], steps[i]) && states[i + 1] == Apply(hash, cfg, states[i], steps[i])
      {
        assert Moving(hash, cfg)(states[i], steps[i], states[i + 1]);
      }
    }
  }

  ghost predicate WellConfigured(cfg: Config) {
    forall ip :: ip in cfg ==> cfg[ip].ip == ip
  }

  // ---- what every step keeps --------------------------------------------------------------------

  /** Rings hold announced servers only, each in the ring of its tier. */
  ghost predicate Proper(cfg: Config, announced: set<Address>, rings: Rings) {
    forall tier, ip :: ip in RingOf(rings, tier).servers ==> ip in announced && ip in cfg && cfg[ip].tier == tier
  }

  /** A message is an announced server's own words, sent to somebody else who is there to hear them. */
  ghost predicate Genuine(cfg: Config, s: State, m: Message) {
    && m.join.ip in s.servers && m.join.ip in cfg && m.join == cfg[m.join.ip]
    && (m.ToServer? ==> m.to in s.servers && m.to != m.join.ip)
    && (m.ToHub? ==> m.hub in s.hubs)
  }

  ghost predicate ServersProper(cfg: Config, s: State) {
    && s.servers.Keys <= cfg.Keys
    && forall u :: u in s.servers ==> Proper(cfg, s.servers.Keys, s.servers[u]) && u in Members(s.servers[u])
  }

  ghost predicate HubsProper(cfg: Config, s: State) {
    && s.hubs != map[]
    && forall h :: h in s.hubs ==> Proper(cfg, s.servers.Keys, s.hubs[h])
  }

  ghost predicate SeedsProper(cfg: Config, s: State) {
    && (forall n, m :: n in s.seeds && m in s.seeds[n] ==>
          m.ip in s.servers && m.ip in cfg && cfg[m.ip].tier == m.tier)
    && (forall n :: n in s.seeds ==> n !in s.servers)
  }

  ghost predicate AllGenuine(cfg: Config, s: State) {
    forall m :: m in s.inflight ==> Genuine(cfg, s, m)
  }

  /** Server `u` knows of `t`, or is being told. */
  ghost predicate Learns(cfg: Config, s: State, u: Address, t: Address)
    requires u in s.servers && t in cfg
  {
    t in Members(s.servers[u]) || ToServer(u, cfg[t]) in s.inflight
  }

  /** Knowledge is mutual, up to messages in flight. */
  ghost predicate Mutual(cfg: Config, s: State)
    requires s.servers.Keys <= cfg.Keys
  {
    forall u, t :: u in s.servers && t in s.servers && u != t && u in Members(s.servers[t]) ==> Learns(cfg, s, u, t)
  }

  /** The routing node has heard of `u`, or its announcement is on the way, exactly one of the two. */
  ghost predicate HubsHear(cfg: Config, s: State)
    requires s.servers.Keys <= cfg.Keys
  {
    forall h, u :: h in s.hubs && u in s.servers ==>
      s.inflight[ToHub(h, cfg[u])] == if u in Members(s.hubs[h]) then 0 else 1
  }

  /** Of two servers, one learns of the other, unless a routing node has yet to hear of one of them. */
  ghost predicate Introduced(cfg: Config, s: State)
    requires s.servers.Keys <= cfg.Keys
  {
    forall h, u, t :: h in s.hubs && u in s.servers && t in s.servers && u != t ==>
      (u in Members(s.hubs[h]) && t in Members(s.hubs[h]) ==> Learns(cfg, s, u, t) || Learns(cfg, s, t, u))
  }

  ghost predicate Inv(cfg: Config, s: State) {
    && ServersProper(cfg, s) && HubsProper(cfg, s) && SeedsProper(cfg, s) && AllGenuine(cfg, s)
    && Mutual(cfg, s) && HubsHear(cfg, s) && Introduced(cfg, s)
  }

  /** Admission puts the server in and leaves everybody else where they were. */
  lemma AdmitMembers(hash: Hash<Address>, rings: Rings, join: Join)
    ensures var rings' := Admit(hash, rings, join).0;
            && (forall tier :: RingOf(rings', tier).servers
                  == RingOf(rings, tier).servers + if tier == join.tier then {join.ip} else {})
            && Members(rings') == Members(rings) + {join.ip}
            && (join.ip !in RingOf(rings, join.tier).servers ==> Admit(hash, rings, join).1)
  {
  }

  lemma PopulateNext(before: Rings, after: Rings, front: seq<Member>, snapshot: seq<Member>, m: Member)
    requires forall tier, ip :: ip in RingOf(before, tier).servers <==> Member(tier, ip) in front
    requires forall tier :: RingOf(after, tier).servers
               == RingOf(before, tier).servers + if tier == m.tier then {m.ip} else {}
    requires forall x :: x in snapshot <==> x in front || x == m
    ensures forall tier, ip :: ip in RingOf(after, tier).servers <==> Member(tier, ip) in snapshot
  {
    forall tier, ip ensures ip in RingOf(after, tier).servers <==> Member(tier, ip) in snapshot {
      assert Member(tier, ip) == m <==> tier == m.tier && ip == m.ip;
    }
  }

  lemma {:induction false} PopulateMembers(hash: Hash<Address>, snapshot: seq<Member>)
    ensures forall tier, ip :: ip in RingOf(Populate(hash, snapshot), tier).servers <==> Member(tier, ip) in snapshot
  {
    if snapshot != [] {
      PopulateMembers(hash, snapshot[..|snapshot| - 1]);
      PopulateLast(hash, snapshot);
    }
  }

  lemma PopulateLast(hash: Hash<Address>, snapshot: seq<Member>)
    requires snapshot != []
    requires var front := snapshot[..|snapshot| - 1];
             forall tier, ip :: ip in RingOf(Populate(hash, front), tier).servers <==> Member(tier, ip) in front
    ensures forall tier, ip :: ip in RingOf(Populate(hash, snapshot), tier).servers <==> Member(tier, ip) in snapshot
  {
    var front, m := snapshot[..|snapshot| - 1], snapshot[|snapshot| - 1];
    var before := Populate(hash, front);
    AdmitMembers(hash, before, Join(m.tier, m.ip, 0));
    assert forall x :: x in snapshot <==> x in front || x == m;
    PopulateNext(before, Populate(hash, snapshot), front, snapshot, m);
  }

  lemma InitInv(cfg: Config, s: State)
    requires Init(s)
    ensures Inv(cfg, s)
  {
    forall h | h in s.hubs ensures Proper(cfg, s.servers.Keys, s.hubs[h]) {
      assert s.hubs[h] == map[];
    }
  }

  lemma BroadcastContents(to: set<Address>, join: Join)
    ensures forall m :: m in Broadcast(to, join) <==> m.ToServer? && m.join == join && m.to in to
    ensures forall h, j :: Broadcast(to, join)[ToHub(h, j)] == 0
  {
    var image := set a | a in to :: ToServer(a, join);
    forall m ensures m in Broadcast(to, join) <==> m.ToServer? && m.join == join && m.to in to {
      assert m in Broadcast(to, join) <==> m in image;
      if m.ToServer? && m.join == join && m.to in to { assert m == ToServer(m.to, join); }
    }
  }

  lemma ToRingsContents(rings: Rings, except: set<Address>, join: Join)
    ensures forall m :: m in ToRings(rings, except, join) <==>
              m.ToServer? && m.join == join && m.to in Members(rings) && m.to !in except
    ensures forall h, j :: ToRings(rings, except, join)[ToHub(h, j)] == 0
  {
    var memory, disk := RingOf(rings, Memory).servers - except, RingOf(rings, Disk).servers - except;
    BroadcastContents(memory, join);
    BroadcastContents(disk, join);
    forall m ensures m in ToRings(rings, except, join) <==> m in Broadcast(memory, join) || m in Broadcast(disk, join) {
    }
  }

  lemma AnnouncementContents(self: Join, rings: Rings, hubs: set<Address>)
    ensures forall m :: m in Announcement(self, rings, hubs) <==>
              m.join == self && if m.ToServer? then m.to in Members(rings) && m.to != self.ip else m.hub in hubs
    ensures forall h :: h in hubs ==> Announcement(self, rings, hubs)[ToHub(h, self)] == 1
  {
    ToRingsContents(rings, {self.ip}, self);
    var image := set h | h in hubs :: ToHub(h, self);
    var sent := Announcement(self, rings, hubs);
    assert forall m :: m in sent <==> m in ToRings(rings, {self.ip}, self) || m in image;
    forall m ensures m in image <==> m.ToHub? && m.join == self && m.hub in hubs {
      if m.ToHub? && m.join == self && m.hub in hubs { assert m == ToHub(m.hub, self); }
    }
  }

  lemma ServerHearsContents(hash: Hash<Address>, self: Join, rings: Rings, join: Join)
    requires self.ip != join.ip
    ensures var (rings', sent) := ServerHears(hash, self, rings, join);
            && Members(rings') == Members(rings) + {join.ip}
            && (forall m :: m in sent ==>
                  || m == ToServer(join.ip, self)
                  || (m.ToServer? && m.join == join && m.to in Members(rings') && m.to != self.ip && m.to != join.ip))
            && (forall h, j :: sent[ToHub(h, j)] == 0)
            && (join.ip in Members(rings) || ToServer(join.ip, self) in sent)
  {
    AdmitMembers(hash, rings, join);
    ToRingsContents(ServerHears(hash, self, rings, join).0, {self.ip, join.ip}, join);
  }

  lemma HubHearsContents(hash: Hash<Address>, rings: Rings, join: Join)
    requires join.ip !in Members(rings)
    ensures var (rings', sent) := HubHears(hash, rings, join);
            && (forall m :: m in sent ==> m.ToServer? && m.join == join && m.to in Members(rings') && m.to != join.ip)
            && (forall u :: u in Members(rings) && u != join.ip ==> ToServer(u, join) in sent)
            && (forall h, j :: sent[ToHub(h, j)] == 0)
  {
    AdmitMembers(hash, rings, join);
    ToRingsContents(HubHears(hash, rings, join).0, {join.ip}, join);
  }

  /** What a server sends: on news the newcomer is answered and all others it knows are told, otherwise nothing. */
  lemma ServerTells(hash: Hash<Address>, self: Join, rings: Rings, join: Join)
    ensures var (rings', sent) := ServerHears(hash, self, rings, join);
            if Admit(hash, rings, join).1 then
              forall m :: m in sent <==>
                || m == ToServer(join.ip, self)
                || (m.ToServer? && m.join == join && m.to in Members(rings') && m.to != self.ip && m.to != join.ip)
            else sent == multiset{}
  {
    var (rings', sent) := ServerHears(hash, self, rings, join);
    ToRingsContents(rings', {self.ip, join.ip}, join);
    if Admit(hash, rings, join).1 {
      var others := ToRings(rings', {self.ip, join.ip}, join);
      forall m ensures m in sent <==> m == ToServer(join.ip, self) || m in others {
        assert m in multiset{ToServer(join.ip, self)} + others <==> m == ToServer(join.ip, self) || m in others;
      }
    }
  }

  /** What a routing node sends: on news all servers it knows but the newcomer are told, otherwise nothing. */
  lemma HubTells(hash: Hash<Address>, rings: Rings, join: Join)
    ensures var (rings', sent) := HubHears(hash, rings, join);
            if Admit(hash, rings, join).1 then
              forall m :: m in sent <==> m.ToServer? && m.join == join && m.to in Members(rings') && m.to != join.ip
            else sent == multiset{}
  {
    ToRingsContents(HubHears(hash, rings, join).0, {join.ip}, join);
  }
}
