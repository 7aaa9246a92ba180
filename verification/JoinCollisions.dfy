/**
 * Two servers of one tier that hash to one position: a run after which they disagree, so that agreement needs their
 * absence.
 */
module JoinCollisions {
  import opened Types
  import opened Ring
  import opened Runs
  import opened Responsibility
  import opened Membership
  import opened JoinAgreement

  /** The rings of a server that has heard of nobody. */
  function First(hash: Hash<Address>, a: Join): (r: Membership.Rings) {
    Admit(hash, map[], a).0
  }

  /** The rings of one that has then heard of another. */
  function Both(hash: Hash<Address>, a: Join, b: Join): (r: Membership.Rings) {
    Admit(hash, First(hash, a), b).0
  }

  // ---- who keeps the position -------------------------------------------------------------------

  lemma BothNodes(hash: Hash<Address>, a: Join, b: Join)
    requires a.tier == b.tier && a.ip != b.ip
    ensures RingOf(Both(hash, a, b), a.tier).nodes
         == Place(hash, Place(hash, [], a.ip, VIRTUAL_THREAD_NUM), b.ip, VIRTUAL_THREAD_NUM)
  {
  }

  lemma PlacedFirst(hash: Hash<Address>, a: Address, b: Address, n: nat, pos: nat)
    requires HashesTo(hash, a, n, pos)
    ensures Owners(Place(hash, Place(hash, [], a, n), b, n), pos, 1) == [a]
  {
    var nodes := Place(hash, [], a, n);
    PlaceMembers(hash, [], a, n);
    assert Node(pos, a) in nodes;
    PlaceMembers(hash, nodes, b, n);
    OwnerAt(Place(hash, nodes, b, n), pos, a);
  }

  /** The one that was there first keeps the position. */
  lemma FirstKeeps(hash: Hash<Address>, a: Join, b: Join, pos: nat)
    requires a.tier == b.tier && a.ip != b.ip && HashesTo(hash, a.ip, VIRTUAL_THREAD_NUM, pos)
    ensures Owners(RingOf(Both(hash, a, b), a.tier).nodes, pos, 1) == [a.ip]
  {
    BothNodes(hash, a, b);
    PlacedFirst(hash, a.ip, b.ip, VIRTUAL_THREAD_NUM, pos);
  }

  lemma OwnerAt(nodes: seq<Node<Address>>, pos: nat, ip: Address)
    requires Sorted(nodes) && Node(pos, ip) in nodes
    ensures Owners(nodes, pos, 1) == [ip]
  {
    LowerBoundFinds(nodes, pos);
    FirstOwner(nodes, pos, 1);
  }

  lemma Disagree(hash: Hash<Address>, a: Join, b: Join, pos: nat)
    requires a.tier == b.tier && a.ip != b.ip
    requires HashesTo(hash, a.ip, VIRTUAL_THREAD_NUM, pos) && HashesTo(hash, b.ip, VIRTUAL_THREAD_NUM, pos)
    ensures !SameOwners(Both(hash, a, b), Both(hash, b, a))
  {
    FirstKeeps(hash, a, b, pos);
    FirstKeeps(hash, b, a, pos);
  }

  // ---- what is said -----------------------------------------------------------------------------

  lemma NobodyElse(hash: Hash<Address>, a: Join)
    ensures Members(First(hash, a)) == {a.ip} && Boot(hash, a, []) == First(hash, a)
    ensures forall j :: ToRings(First(hash, a), {a.ip}, j) == multiset{}
  {
    AdmitMembers(hash, map[], a);
  }

  lemma OneHub(a: Join, h: Address)
    ensures multiset(set x | x in {h} :: ToHub(x, a)) == multiset{ToHub(h, a)}
  {
    assert (set x | x in {h} :: ToHub(x, a)) == {ToHub(h, a)};
  }

  lemma Announces(hash: Hash<Address>, a: Join, h: Address)
    ensures Announcement(a, First(hash, a), {h}) == multiset{ToHub(h, a)}
    ensures HubHears(hash, map[], a) == (First(hash, a), multiset{})
  {
    NobodyElse(hash, a);
    OneHub(a, h);
    assert multiset{} + multiset{ToHub(h, a)} == multiset{ToHub(h, a)};
  }

  lemma BothMembers(hash: Hash<Address>, a: Join, b: Join, rings: Membership.Rings)
    requires a.ip != b.ip && a.tier == b.tier && rings == Both(hash, a, b)
    ensures Admit(hash, First(hash, a), b) == (rings, true)
    ensures forall tier :: RingOf(rings, tier).servers == if tier == a.tier then {a.ip, b.ip} else {}
  {
    AdmitMembers(hash, map[], a);
    AdmitMembers(hash, First(hash, a), b);
  }

  /** To the servers on a ring of two. */
  lemma ToTwo(rings: Membership.Rings, a: Join, b: Join)
    requires a.ip != b.ip
    requires forall tier :: RingOf(rings, tier).servers == if tier == a.tier then {a.ip, b.ip} else {}
    ensures ToRings(rings, {b.ip}, b) == multiset{ToServer(a.ip, b)} && ToRings(rings, {a.ip, b.ip}, b) == multiset{}
  {
    assert {a.ip, b.ip} - {b.ip} == {a.ip} && {a.ip, b.ip} - {a.ip, b.ip} == {};
    assert forall except: set<Address> :: {} - except == {};
    JustOne(a.ip, b);
    assert multiset{} + multiset{ToServer(a.ip, b)} == multiset{ToServer(a.ip, b)};
  }

  lemma OneOther(hash: Hash<Address>, a: Join, b: Join)
    requires a.ip != b.ip && a.tier == b.tier
    ensures Admit(hash, First(hash, a), b) == (Both(hash, a, b), true)
    ensures ToRings(Both(hash, a, b), {b.ip}, b) == multiset{ToServer(a.ip, b)}
    ensures ToRings(Both(hash, a, b), {a.ip, b.ip}, b) == multiset{}
  {
    BothMembers(hash, a, b, Both(hash, a, b));
    ToTwo(Both(hash, a, b), a, b);
  }

  lemma JustOne(ip: Address, b: Join)
    ensures Broadcast({ip}, b) == multiset{ToServer(ip, b)} && Broadcast({}, b) == multiset{}
  {
    assert (set x | x in {ip} :: ToServer(x, b)) == {ToServer(ip, b)};
  }

  lemma Hears(hash: Hash<Address>, a: Join, b: Join)
    requires a.ip != b.ip && a.tier == b.tier
    ensures HubHears(hash, First(hash, a), b) == (Both(hash, a, b), multiset{ToServer(a.ip, b)})
    ensures ServerHears(hash, a, First(hash, a), b) == (Both(hash, a, b), multiset{ToServer(b.ip, a)})
    ensures ServerHears(hash, a, Both(hash, a, b), b) == (Both(hash, a, b), multiset{})
  {
    OneOther(hash, a, b);
    assert multiset{ToServer(b.ip, a)} + multiset{} == multiset{ToServer(b.ip, a)};
    HeardBefore(hash, First(hash, a), b);
  }

  lemma HeardBefore(hash: Hash<Address>, rings: Membership.Rings, b: Join)
    requires b.ip !in RingOf(rings, b.tier).servers
    ensures Admit(hash, Admit(hash, rings, b).0, b) == (Admit(hash, rings, b).0, false)
  {
    var after := Admit(hash, rings, b).0;
    assert after[b.tier := after[b.tier]] == after;
  }

  // ---- the run ----------------------------------------------------------------------------------

  /** Some run ends in `x`. */
  ghost predicate Reachable(hash: Hash<Address>, cfg: Config, x: State) {
    Reached(Moving(hash, cfg), Init, x)
  }

  lemma Moves(hash: Hash<Address>, cfg: Config, x: State, step: Step, x': State)
    requires Enabled(cfg, x, step) && x' == Apply(hash, cfg, x, step)
    ensures Moving(hash, cfg)(x, step, x')
  {
  }

  lemma ReachNext(hash: Hash<Address>, cfg: Config, x: State, step: Step, x': State)
    requires Reachable(hash, cfg, x) && Enabled(cfg, x, step) && x' == Apply(hash, cfg, x, step)
    ensures Reachable(hash, cfg, x')
  {
    Moves(hash, cfg, x, step, x');
    ReachedNext(Moving(hash, cfg), Init, x, step, x');
  }

  /** A cluster with one routing node, in which nobody has started. */
  lemma Starts(hash: Hash<Address>, cfg: Config, h: Address) returns (x: State)
    ensures x == State(map[h := map[]], map[], map[], multiset{}) && Reachable(hash, cfg, x)
  {
    x := State(map[h := map[]], map[], map[], multiset{});
    assert h in x.hubs;
    ReachedFirst(Moving(hash, cfg), Init, x);
  }

  /**
   * Where the two servers stand: the rings of the routing node, of each server once it has started, and what is in
   * flight.
   */
  ghost predicate Stand(x: State, h: Address, hub: Membership.Rings, seeded: set<Address>,
                        servers: map<Address, Membership.Rings>, inflight: multiset<Message>) {
    && x.hubs.Keys == {h} && x.hubs[h] == hub && x.seeds.Keys == seeded
    && (forall u :: u in seeded ==> x.seeds[u] == [])
    && x.servers == servers && x.inflight == inflight
  }

  /** Two servers start from snapshots taken before either was known. */
  lemma BothSeeded(hash: Hash<Address>, cfg: Config, h: Address, s: Address, t: Address) returns (x: State)
    requires s in cfg && t in cfg && s != t
    ensures Reachable(hash, cfg, x) && Stand(x, h, map[], {s, t}, map[], multiset{})
  {
    var x0 := Starts(hash, cfg, h);
    var x1 := x0.(seeds := map[s := []]);
    ReachNext(hash, cfg, x0, Seed(h, s, []), x1);
    x := x0.(seeds := map[s := [], t := []]);
    assert x1.seeds[t := []] == x.seeds;
    ReachNext(hash, cfg, x1, Seed(h, t, []), x);
  }

  /** A server that was seeded with nothing announces itself to the one routing node. */
  lemma AnnouncesNow(hash: Hash<Address>, cfg: Config, h: Address, s: Address, x: State, x': State)
    requires s in cfg && cfg[s].ip == s && s in x.seeds && x.seeds[s] == [] && x.hubs.Keys == {h}
    requires x' == State(x.hubs, x.seeds - {s}, x.servers[s := First(hash, cfg[s])],
                         x.inflight + multiset{ToHub(h, cfg[s])})
    ensures Enabled(cfg, x, Announce(s)) && Apply(hash, cfg, x, Announce(s)) == x'
  {
    NobodyElse(hash, cfg[s]);
    Announces(hash, cfg[s], h);
  }

  lemma Announced(hash: Hash<Address>, cfg: Config, h: Address, s: Address, x: State, seeded: set<Address>,
                  servers: map<Address, Membership.Rings>, inflight: multiset<Message>, rings: Membership.Rings)
    returns (x': State)
    requires Reachable(hash, cfg, x) && Stand(x, h, map[], seeded, servers, inflight)
    requires s in seeded && s in cfg && cfg[s].ip == s && rings == First(hash, cfg[s])
    ensures Reachable(hash, cfg, x')
    ensures Stand(x', h, map[], seeded - {s}, servers[s := rings], inflight + multiset{ToHub(h, cfg[s])})
  {
    x' := State(x.hubs, x.seeds - {s}, x.servers[s := rings], x.inflight + multiset{ToHub(h, cfg[s])});
    AnnouncesNow(hash, cfg, h, s, x, x');
    ReachNext(hash, cfg, x, Announce(s), x');
  }

  /** They announce themselves. */
  lemma BothAnnounced(hash: Hash<Address>, cfg: Config, h: Address, s: Address, t: Address, forS: Membership.Rings,
                      forT: Membership.Rings) returns (x: State)
    requires WellConfigured(cfg) && s in cfg && t in cfg && s != t
    requires forS == First(hash, cfg[s]) && forT == First(hash, cfg[t])
    ensures Reachable(hash, cfg, x)
    ensures Stand(x, h, map[], {}, map[s := forS, t := forT], multiset{ToHub(h, cfg[s]), ToHub(h, cfg[t])})
  {
    x := BothSeeded(hash, cfg, h, s, t);
    x := Announced(hash, cfg, h, s, x, {s, t}, map[], multiset{}, forS);
    x := Announced(hash, cfg, h, t, x, {s, t} - {s}, map[][s := forS], multiset{} + multiset{ToHub(h, cfg[s])}, forT);
    OneThenOther(s, t, forS, forT, ToHub(h, cfg[s]), ToHub(h, cfg[t]));
  }

  lemma OneThenOther(s: Address, t: Address, forS: Membership.Rings, forT: Membership.Rings, m: Message, n: Message)
    ensures {s, t} - {s} - {t} == {} && map[][s := forS][t := forT] == map[s := forS, t := forT]
    ensures multiset{} + multiset{m} + multiset{n} == multiset{m, n}
  {
  }

  lemma HubApplies(hash: Hash<Address>, cfg: Config, h: Address, j: Join, x: State, hub': Membership.Rings,
                   sent: multiset<Message>)
    requires h in x.hubs && ToHub(h, j) in x.inflight && HubHears(hash, x.hubs[h], j) == (hub', sent)
    ensures Enabled(cfg, x, Deliver(ToHub(h, j))) && Apply(hash, cfg, x, Deliver(ToHub(h, j)))
         == x.(hubs := x.hubs[h := hub'], inflight := x.inflight - multiset{ToHub(h, j)} + sent)
  {
  }

  lemma HubStands(x: State, h: Address, hub: Membership.Rings, servers: map<Address, Membership.Rings>,
                  inflight: multiset<Message>, hub': Membership.Rings, inflight': multiset<Message>)
    requires Stand(x, h, hub, {}, servers, inflight)
    ensures Stand(x.(hubs := x.hubs[h := hub'], inflight := inflight'), h, hub', {}, servers, inflight')
  {
    assert x.hubs[h := hub'].Keys == {h};
  }

  lemma HubDelivered(hash: Hash<Address>, cfg: Config, h: Address, j: Join, x: State, hub: Membership.Rings,
                     servers: map<Address, Membership.Rings>, inflight: multiset<Message>, hub': Membership.Rings,
                     sent: multiset<Message>) returns (x': State)
    requires Reachable(hash, cfg, x) && Stand(x, h, hub, {}, servers, inflight) && ToHub(h, j) in inflight
    requires HubHears(hash, hub, j) == (hub', sent)
    ensures Reachable(hash, cfg, x') && Stand(x', h, hub', {}, servers, inflight - multiset{ToHub(h, j)} + sent)
  {
    x' := x.(hubs := x.hubs[h := hub'], inflight := x.inflight - multiset{ToHub(h, j)} + sent);
    HubApplies(hash, cfg, h, j, x, hub', sent);
    HubStands(x, h, hub, servers, inflight, hub', inflight - multiset{ToHub(h, j)} + sent);
    ReachNext(hash, cfg, x, Deliver(ToHub(h, j)), x');
  }

  lemma ServerDelivered(hash: Hash<Address>, cfg: Config, h: Address, u: Address, j: Join, x: State,
                        hub: Membership.Rings, servers: map<Address, Membership.Rings>, inflight: multiset<Message>,
                        rings': Membership.Rings, sent: multiset<Message>) returns (x': State)
    requires Reachable(hash, cfg, x) && Stand(x, h, hub, {}, servers, inflight) && ToServer(u, j) in inflight
    requires u in servers && u in cfg && ServerHears(hash, cfg[u], servers[u], j) == (rings', sent)
    ensures Reachable(hash, cfg, x')
    ensures Stand(x', h, hub, {}, servers[u := rings'], inflight - multiset{ToServer(u, j)} + sent)
  {
    x' := x.(servers := x.servers[u := rings'], inflight := x.inflight - multiset{ToServer(u, j)} + sent);
    ReachNext(hash, cfg, x, Deliver(ToServer(u, j)), x');
  }

  /** What the rings hold after one server, and after the other, was heard of. */
  ghost predicate Heard(hash: Hash<Address>, a: Join, b: Join, one: Membership.Rings, both: Membership.Rings) {
    && HubHears(hash, map[], a) == (one, multiset{})
    && HubHears(hash, one, b) == (both, multiset{ToServer(a.ip, b)})
    && ServerHears(hash, a, one, b) == (both, multiset{ToServer(b.ip, a)})
    && ServerHears(hash, a, both, b) == (both, multiset{})
  }

  /** The routing node hears of both, and tells the one it heard of first. */
  lemma HubTold(hash: Hash<Address>, cfg: Config, h: Address, a: Join, b: Join, x: State,
                servers: map<Address, Membership.Rings>, one: Membership.Rings, both: Membership.Rings)
    returns (x': State)
    requires Reachable(hash, cfg, x) && Heard(hash, a, b, one, both)
    requires Stand(x, h, map[], {}, servers, multiset{ToHub(h, a), ToHub(h, b)})
    ensures Reachable(hash, cfg, x') && Stand(x', h, both, {}, servers, multiset{ToServer(a.ip, b)})
  {
    x' := HubDelivered(hash, cfg, h, a, x, map[], servers, multiset{ToHub(h, a), ToHub(h, b)}, one, multiset{});
    assert multiset{ToHub(h, a), ToHub(h, b)} - multiset{ToHub(h, a)} + multiset{} == multiset{ToHub(h, b)};
    Emptied(ToHub(h, b), multiset{ToServer(a.ip, b)});
    x' := HubDelivered(hash, cfg, h, b, x', one, servers, multiset{ToHub(h, b)}, both, multiset{ToServer(a.ip, b)});
  }

  /** They tell each other, until nothing is in flight. */
  lemma ToldEachOther(hash: Hash<Address>, cfg: Config, h: Address, a: Join, b: Join, x: State, hub: Membership.Rings,
                      servers: map<Address, Membership.Rings>, ab: Membership.Rings, ba: Membership.Rings)
    returns (x': State)
    requires Reachable(hash, cfg, x) && a.ip != b.ip && a.ip in servers && b.ip in servers
    requires Heard(hash, a, b, servers[a.ip], ab) && Heard(hash, b, a, servers[b.ip], ba)
    requires a.ip in cfg && cfg[a.ip] == a && b.ip in cfg && cfg[b.ip] == b
    requires Stand(x, h, hub, {}, servers, multiset{ToServer(a.ip, b)})
    ensures Reachable(hash, cfg, x') && Stand(x', h, hub, {}, servers[a.ip := ab][b.ip := ba][a.ip := ab], multiset{})
  {
    var toA, toB := multiset{ToServer(a.ip, b)}, multiset{ToServer(b.ip, a)};
    Emptied(ToServer(a.ip, b), toB);
    Emptied(ToServer(b.ip, a), toA);
    Emptied(ToServer(a.ip, b), multiset{});
    x' := ServerDelivered(hash, cfg, h, a.ip, b, x, hub, servers, toA, ab, toB);
    x' := ServerDelivered(hash, cfg, h, b.ip, a, x', hub, servers[a.ip := ab], toB, ba, toA);
    x' := ServerDelivered(hash, cfg, h, a.ip, b, x', hub, servers[a.ip := ab][b.ip := ba], toA, ab, multiset{});
  }

  lemma Emptied(m: Message, sent: multiset<Message>)
    ensures multiset{m} - multiset{m} + sent == sent
  {
  }

  lemma HeardBoth(hash: Hash<Address>, a: Join, b: Join) returns (one: Membership.Rings, both: Membership.Rings)
    requires a.ip != b.ip && a.tier == b.tier
    ensures one == First(hash, a) && both == Both(hash, a, b) && Heard(hash, a, b, one, both)
  {
    one, both := First(hash, a), Both(hash, a, b);
    Announces(hash, a, "");
    Hears(hash, a, b);
  }

  /** So there is a quiet state in which each has put itself on the ring before the other. */
  lemma CollidingRun(hash: Hash<Address>, cfg: Config, s: Address, t: Address) returns (x: State)
    requires WellConfigured(cfg) && s in cfg && t in cfg && s != t && cfg[s].tier == cfg[t].tier
    ensures Reachable(hash, cfg, x) && x.inflight == multiset{} && s in x.servers && t in x.servers
    ensures x.servers[s] == Both(hash, cfg[s], cfg[t]) && x.servers[t] == Both(hash, cfg[t], cfg[s])
  {
    var forS, st := HeardBoth(hash, cfg[s], cfg[t]);
    var forT, ts := HeardBoth(hash, cfg[t], cfg[s]);
    x := BothAnnounced(hash, cfg, "", s, t, forS, forT);
    x := HubTold(hash, cfg, "", cfg[s], cfg[t], x, map[s := forS, t := forT], forS, st);
    x := ToldEachOther(hash, cfg, "", cfg[s], cfg[t], x, st, map[s := forS, t := forT], st, ts);
  }

  /** No message is in flight in the `n`-th state of the run. */
  ghost predicate QuietAt(hash: Hash<Address>, cfg: Config, states: seq<State>, steps: seq<Step>, n: nat) {
    IsRun(hash, cfg, states, steps) && n < |states| && states[n].inflight == multiset{}
  }

  /**
   * Agreement needs collision-freeness, and no more: every quiet state of every run has all servers and routing nodes
   * agree on the owners of every key if and only if no two servers of one tier hash to one position.
   */
  lemma AgreementExactly(hash: Hash<Address>, cfg: Config)
    requires WellConfigured(cfg)
    ensures TierFree(hash, cfg)
       <==> forall states, steps, n :: QuietAt(hash, cfg, states, steps, n) ==> AllAgree(states[n])
  {
    if TierFree(hash, cfg) {
      forall states, steps, n | QuietAt(hash, cfg, states, steps, n) ensures AllAgree(states[n]) {
        QuietClusterAgrees(hash, cfg, states, steps, n);
      }
    } else {
      var tier, s, t, pos :| s in OfTier(cfg, tier) && t in OfTier(cfg, tier) && s != t
        && HashesTo(hash, s, VIRTUAL_THREAD_NUM, pos) && HashesTo(hash, t, VIRTUAL_THREAD_NUM, pos);
      var last := CollidingRun(hash, cfg, s, t);
      Disagree(hash, cfg[s], cfg[t], pos);
      var states, steps := RunTo(Moving(hash, cfg), Init, last);
      RunIsChain(hash, cfg, states, steps);
      assert s in last.servers && t in last.servers && !SameOwners(last.servers[s], last.servers[t]);
      assert QuietAt(hash, cfg, states, steps, |steps|) && !AllAgree(last);
    }
  }
}
