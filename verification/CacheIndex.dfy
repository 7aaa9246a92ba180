/** Which caches hold which keys, kept in both directions. */
module CacheIndex {
  import opened Types

  datatype Link = Link(cache: Address, key: Key)

  function Links(keysOf: map<Address, set<Key>>): (r: set<Link>)
    ensures forall l :: l in r <==> l.cache in keysOf && l.key in keysOf[l.cache]
  {
    set c, k | c in keysOf && k in keysOf[c] :: Link(c, k)
  }

  function BackLinks(cachesOf: map<Key, set<Address>>): (r: set<Link>)
    ensures forall l :: l in r <==> l.key in cachesOf && l.cache in cachesOf[l.key]
  {
    set k, c | k in cachesOf && c in cachesOf[k] :: Link(c, k)
  }

  /** A cache reports the keys it holds. */
  function Reported(links: set<Link>, cache: Address, keys: set<Key>): (r: set<Link>)
    ensures forall l :: l in r <==> if l.cache == cache then l.key in keys else l in links
  {
    (set l | l in links && l.cache != cache) + (set k | k in keys :: Link(cache, k))
  }

  /** Caches have gone. */
  function Forgotten(links: set<Link>, gone: set<Address>): (r: set<Link>) {
    set l | l in links && l.cache !in gone
  }

  /** `k` taken out of, or put into, the entry for `a`, which is created if it is missing. */
  function Without<A, B>(m: map<A, set<B>>, a: A, b: B): (r: map<A, set<B>>) {
    m[a := (if a in m then m[a] else {}) - {b}]
  }

  function With<A, B>(m: map<A, set<B>>, a: A, b: B): (r: map<A, set<B>>) {
    m[a := (if a in m then m[a] else {}) + {b}]
  }

  class CacheIndex {
    var extant: set<Address>
    var keysOf: map<Address, set<Key>>
    var cachesOf: map<Key, set<Address>>

    /** The two directions say the same. */
    ghost predicate Agree()
      reads this
    {
      Links(keysOf) == BackLinks(cachesOf)
    }

    constructor ()
      ensures Agree() && Links(keysOf) == {} && extant == {}
    {
      extant, keysOf, cachesOf := {}, map[], map[];
    }

    /** Taking the cache out of the entries of the keys it dropped. */
    method DropBack(cache: Address, dropped: set<Key>)
      modifies this`cachesOf
      ensures forall l :: l in BackLinks(cachesOf) <==>
                l in old(BackLinks(cachesOf)) && !(l.cache == cache && l.key in dropped)
    {
      var rest := dropped;
      while rest != {}
        invariant rest <= dropped
        invariant forall l :: l in BackLinks(cachesOf) <==>
                    l in old(BackLinks(cachesOf)) && !(l.cache == cache && l.key in dropped - rest)
        decreases rest
      {
        var key :| key in rest;
        cachesOf := Without(cachesOf, key, cache);
        rest := rest - {key};
      }
    }

    /** Adding the keys the cache reports, in both directions. */
    method AddBoth(cache: Address, keys: seq<Key>)
      modifies this`keysOf, this`cachesOf
      ensures forall l :: l in Links(keysOf) <==> l in old(Links(keysOf)) || (l.cache == cache && l.key in keys)
      ensures forall l :: l in BackLinks(cachesOf) <==>
                l in old(BackLinks(cachesOf)) || (l.cache == cache && l.key in keys)
    {
      for i := 0 to |keys|
        invariant forall l :: l in Links(keysOf) <==>
                    l in old(Links(keysOf)) || (l.cache == cache && l.key in keys[..i])
        invariant forall l :: l in BackLinks(cachesOf) <==>
                    l in old(BackLinks(cachesOf)) || (l.cache == cache && l.key in keys[..i])
      {
        assert forall k :: k in keys[..i + 1] <==> k in keys[..i] || k == keys[i];
        keysOf := With(keysOf, cache, keys[i]);
        cachesOf := With(cachesOf, keys[i], cache);
      }
      assert keys[..|keys|] == keys;
    }

    /** `cache_ip_response_handler` for one tuple without error. */
    method CacheResponse(cache: Address, keys: seq<Key>)
      requires Agree()
      modifies this`keysOf, this`cachesOf
      ensures Agree()
      ensures Links(keysOf) == Reported(old(Links(keysOf)), cache, set k | k in keys)
      ensures forall l :: l in Links(keysOf) <==> if l.cache == cache then l.key in keys else l in old(Links(keysOf))
    {
      var before := if cache in keysOf then keysOf[cache] else {};
      keysOf := keysOf[cache := before];
      for i := 0 to |keys|
        invariant cache in keysOf && keysOf == old(keysOf)[cache := keysOf[cache]] && cachesOf == old(cachesOf)
        invariant forall k :: k in keysOf[cache] <==> k in before && k !in keys[..i]
      {
        assert forall k :: k in keys[..i + 1] <==> k in keys[..i] || k == keys[i];
        keysOf := keysOf[cache := keysOf[cache] - {keys[i]}];
      }
      assert keys[..|keys|] == keys;
      DropBack(cache, keysOf[cache]);
      keysOf := keysOf[cache := {}];
      AddBoth(cache, keys);
      assert forall l :: l in Links(keysOf) <==> l in Reported(old(Links(keysOf)), cache, set k | k in keys);
      assert forall l :: l in BackLinks(cachesOf) <==> l in Links(keysOf);
    }

    /** Taking one cache out of the entries of all keys. */
    method ForgetCache(cache: Address)
      modifies this`keysOf, this`cachesOf
      ensures forall l :: l in Links(keysOf) <==> l in old(Links(keysOf)) && l.cache != cache
      ensures forall l :: l in BackLinks(cachesOf) <==> l in old(BackLinks(cachesOf)) && l.cache != cache
    {
      keysOf := keysOf - {cache};
      var keys := cachesOf.Keys;
      while keys != {}
        invariant keys <= cachesOf.Keys && keysOf == old(keysOf) - {cache}
        invariant forall l :: l in BackLinks(cachesOf) <==>
                    l in old(BackLinks(cachesOf)) && (l.cache != cache || l.key in keys)
        decreases keys
      {
        var key :| key in keys;
        cachesOf := Without(cachesOf, key, cache);
        keys := keys - {key};
      }
    }

    /** The deleted-cache part of `management_node_response_handler`. */
    method ManagementResponse(nodes: seq<Address>)
      requires Agree()
      modifies this
      ensures Agree() && extant == set n | n in nodes
      ensures Links(keysOf) == Forgotten(old(Links(keysOf)), old(extant) - set n | n in nodes)
      ensures forall l :: l in Links(keysOf) <==>
                l in old(Links(keysOf)) && (l.cache in nodes || l.cache !in old(extant))
    {
      var deleted := extant;
      extant := {};
      for i := 0 to |nodes|
        invariant extant == set n | n in nodes[..i]
        invariant deleted == old(extant) - set n | n in nodes[..i]
        invariant keysOf == old(keysOf) && cachesOf == old(cachesOf)
      {
        assert forall n :: n in nodes[..i + 1] <==> n in nodes[..i] || n == nodes[i];
        deleted := deleted - {nodes[i]};
        extant := extant + {nodes[i]};
      }
      assert nodes[..|nodes|] == nodes;
      var rest := deleted;
      while rest != {}
        invariant rest <= deleted && extant == set n | n in nodes
        invariant forall l :: l in Links(keysOf) <==> l in old(Links(keysOf)) && l.cache !in deleted - rest
        invariant forall l :: l in BackLinks(cachesOf) <==> l in old(BackLinks(cachesOf)) && l.cache !in deleted - rest
        decreases rest
      {
        var cache :| cache in rest;
        ForgetCache(cache);
        rest := rest - {cache};
      }
      assert forall l :: l in Links(keysOf) <==> l in BackLinks(cachesOf);
    }
  }

  // ---- runs -------------------------------------------------------------------------------------

  datatype Event = Report(cache: Address, keys: set<Key>) | Nodes(nodes: set<Address>)

  datatype Known = Known(extant: set<Address>, links: set<Link>)

  function After(s: Known, e: Event): (r: Known) {
    match e
    case Report(cache, keys) => s.(links := Reported(s.links, cache, keys))
    case Nodes(nodes) => Known(nodes, Forgotten(s.links, s.extant - nodes))
  }

  function Run(s: Known, events: seq<Event>): (r: Known) {
    if events == [] then s else After(Run(s, events[..|events| - 1]), events[|events| - 1])
  }

  /** Every cache with an entry is one the management node has listed last. */
  ghost predicate Current(s: Known) {
    forall l :: l in s.links ==> l.cache in s.extant
  }

  /** The only event that leaves an entry for an unlisted cache is a report, with keys, from such a cache. */
  lemma CurrentExactly(s: Known, e: Event)
    requires Current(s)
    ensures Current(After(s, e)) <==> !(e.Report? && e.cache !in s.extant && e.keys != {})
  {
    if e.Report? && e.cache !in s.extant && e.keys != {} {
      var k :| k in e.keys;
      assert Link(e.cache, k) in After(s, e).links;
    }
  }

  /** The event is neither a report of `cache` nor a listing of it. */
  predicate Spares(e: Event, cache: Address) {
    match e
    case Report(c, _) => c != cache
    case Nodes(nodes) => cache !in nodes
  }

  /** An entry of a cache that is not listed survives every event but a report or a listing of that cache. */
  lemma {:induction false} StaleStays(s: Known, events: seq<Event>, l: Link)
    requires l in s.links && l.cache !in s.extant
    requires forall e :: e in events ==> Spares(e, l.cache)
    ensures l in Run(s, events).links && l.cache !in Run(s, events).extant
  {
    if events != [] {
      var front, last := events[..|events| - 1], events[|events| - 1];
      StaleStays(s, front, l);
      assert last in events;
    }
  }
}
