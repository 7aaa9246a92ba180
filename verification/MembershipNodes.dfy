/** The nodes of the membership protocol as they run: they update their rings in place and send in loops. */
module MembershipNodes {
  import opened Types
  import opened Walk
  import opened Ring
  import M = Membership

  lemma BroadcastOne(to: set<Address>, a: Address, join: M.Join)
    requires a !in to
    ensures M.Broadcast(to + {a}, join) == M.Broadcast(to, join) + multiset{M.ToServer(a, join)}
  {
    var was := set b | b in to :: M.ToServer(b, join);
    var now := set b | b in to + {a} :: M.ToServer(b, join);
    assert M.ToServer(a, join) !in was && now == was + {M.ToServer(a, join)};
  }

  lemma BroadcastNone(join: M.Join)
    ensures M.Broadcast({}, join) == multiset{}
  {
  }

  /** The inner loop: every listed server but the ones left out. */
  method Tell(servers: set<Address>, except: set<Address>, join: M.Join) returns (out: multiset<M.Message>)
    ensures out == M.Broadcast(servers - except, join)
  {
    out := multiset{};
    var rest := servers;
    BroadcastNone(join);
    ghost var told: set<Address> := {};
    while rest != {}
      invariant rest <= servers && told == servers - rest - except
      invariant out == M.Broadcast(told, join)
      decreases rest
    {
      var server :| server in rest;
      OneMore(servers, rest, server);
      if server !in except {
        BroadcastOne(told, server, join);
        out := out + multiset{M.ToServer(server, join)};
        told := told + {server};
      }
      assert servers - (rest - {server}) - except == servers - rest - except + ({server} - except);
      rest := rest - {server};
    }
    assert told == servers - except;
  }

  /** What goes to the servers on the rings of the given tiers, but the ones left out. */
  ghost function Told(rings: M.Rings, tiers: set<Tier>, except: set<Address>, join: M.Join): (r: multiset<M.Message>) {
    (if Memory in tiers then M.Broadcast(M.RingOf(rings, Memory).servers - except, join) else multiset{})
    + (if Disk in tiers then M.Broadcast(M.RingOf(rings, Disk).servers - except, join) else multiset{})
  }

  /** The outer loop over the rings; a server on two of them is told twice. */
  method TellAll(rings: M.Rings, except: set<Address>, join: M.Join) returns (out: multiset<M.Message>)
    ensures out == M.ToRings(rings, except, join)
  {
    out := multiset{};
    var tiers := rings.Keys;
    var rest := tiers;
    while rest != {}
      invariant rest <= tiers && out == Told(rings, tiers - rest, except, join)
      decreases rest
    {
      var tier :| tier in rest;
      OneMore(tiers, rest, tier);
      ToldNext(rings, tiers - rest, tier, except, join);
      var more := Tell(rings[tier].servers, except, join);
      out := out + more;
      rest := rest - {tier};
    }
    assert tiers - rest == tiers;
    ToldAll(rings, except, join);
  }

  lemma ToldNext(rings: M.Rings, done: set<Tier>, tier: Tier, except: set<Address>, join: M.Join)
    requires tier in rings && tier !in done
    ensures Told(rings, done + {tier}, except, join)
         == Told(rings, done, except, join) + M.Broadcast(rings[tier].servers - except, join)
  {
  }

  lemma ToldAll(rings: M.Rings, except: set<Address>, join: M.Join)
    ensures Told(rings, rings.Keys, except, join) == M.ToRings(rings, except, join)
  {
    BroadcastNone(join);
    forall tier | tier !in rings ensures M.RingOf(rings, tier).servers - except == {} {
    }
  }

  class ServerNode {
    const hash: Hash<Address>
    const self: M.Join
    var rings: M.Rings

    /** The bootstrap of `run`: the servers of the snapshot, then itself. */
    constructor (hash: Hash<Address>, self: M.Join, snapshot: seq<M.Member>)
      ensures this.hash == hash && this.self == self && rings == M.Boot(hash, self, snapshot)
    {
      var populated: M.Rings := map[];
      for i := 0 to |snapshot|
        invariant populated == M.Populate(hash, snapshot[..i])
      {
        assert snapshot[..i + 1][..i] == snapshot[..i];
        populated := M.Admit(hash, populated, M.Join(snapshot[i].tier, snapshot[i].ip, 0)).0;
      }
      assert snapshot[..|snapshot|] == snapshot;
      this.hash, this.self := hash, self;
      rings := M.Admit(hash, populated, self).0;
    }

    /** The announcement of `run`: to every server it knows and to every routing node. */
    method Announce(hubs: set<Address>) returns (out: multiset<M.Message>)
      ensures out == M.Announcement(self, rings, hubs)
    {
      out := TellAll(rings, {self.ip}, self);
      var rest := hubs;
      ghost var base := out;
      while rest != {}
        invariant rest <= hubs
        invariant out == base + multiset(set h | h in hubs - rest :: M.ToHub(h, self))
        decreases rest
      {
        var hub :| hub in rest;
        OneMore(hubs, rest, hub);
        HubOne(hubs - rest, hub, self);
        out := out + multiset{M.ToHub(hub, self)};
        rest := rest - {hub};
      }
      assert hubs - rest == hubs;
    }

    /** The membership part of `node_join_handler`. */
    method NodeJoin(join: M.Join) returns (out: multiset<M.Message>)
      modifies this`rings
      ensures (rings, out) == M.ServerHears(hash, self, old(rings), join)
    {
      out := multiset{};
      var (rings', inserted) := M.Admit(hash, rings, join);
      rings := rings';
      if inserted {
        var others := TellAll(rings, {self.ip, join.ip}, join);
        out := multiset{M.ToServer(join.ip, self)} + others;
      }
    }
  }

  lemma HubOne(done: set<Address>, hub: Address, join: M.Join)
    requires hub !in done
    ensures multiset(set h | h in done + {hub} :: M.ToHub(h, join))
         == multiset(set h | h in done :: M.ToHub(h, join)) + multiset{M.ToHub(hub, join)}
  {
    var was := set h | h in done :: M.ToHub(h, join);
    var now := set h | h in done + {hub} :: M.ToHub(h, join);
    assert M.ToHub(hub, join) !in was && now == was + {M.ToHub(hub, join)};
  }

  class RoutingNode {
    const hash: Hash<Address>
    var rings: M.Rings

    constructor (hash: Hash<Address>)
      ensures this.hash == hash && rings == map[]
    {
      this.hash, rings := hash, map[];
    }

    /** The join branch of `membership_handler`. */
    method MembershipJoin(join: M.Join) returns (out: multiset<M.Message>)
      modifies this`rings
      ensures (rings, out) == M.HubHears(hash, old(rings), join)
    {
      out := multiset{};
      var (rings', inserted) := M.Admit(hash, rings, join);
      rings := rings';
      if inserted {
        out := TellAll(rings, {join.ip}, join);
      }
    }

    /** `seed_handler`. */
    method Seed() returns (snapshot: seq<M.Member>)
      ensures M.IsSnapshot(rings, snapshot)
    {
      snapshot := [];
      var tiers := rings.Keys;
      while tiers != {}
        invariant tiers <= rings.Keys
        invariant forall m :: m in snapshot <==> m.tier in rings && m.tier !in tiers && m.ip in rings[m.tier].servers
        decreases tiers
      {
        var tier :| tier in tiers;
        var servers := rings[tier].servers;
        while servers != {}
          invariant servers <= rings[tier].servers
          invariant forall m :: m in snapshot <==>
                      && m.tier in rings && m.ip in rings[m.tier].servers
                      && (m.tier !in tiers || (m.tier == tier && m.ip !in servers))
          decreases servers
        {
          var server :| server in servers;
          snapshot := snapshot + [M.Member(tier, server)];
          servers := servers - {server};
        }
        tiers := tiers - {tier};
      }
      forall ip | ip in M.RingOf(rings, Memory).servers ensures M.Member(Memory, ip) in snapshot {
      }
      forall ip | ip in M.RingOf(rings, Disk).servers ensures M.Member(Disk, ip) in snapshot {
      }
    }
  }
}
