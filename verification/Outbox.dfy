/** The address-to-keys maps the handlers build, and what is sent from them. */
module Outbox {
  import opened Types
  import opened Server
  import opened Movement

  /** `AddressKeysetMap`. */
  type KeysByAddress = map<ServerThread, set<Key>>

  function Errands(m: KeysByAddress): (r: set<Errand>)
    ensures forall e :: e in r <==> e.to in m && e.key in m[e.to]
  {
    set t, k | t in m && k in m[t] :: Errand(t, k)
  }

  predicate NoEmpty(m: KeysByAddress) {
    forall t :: t in m ==> m[t] != {}
  }

  /** `m[to].insert(key)`. */
  function Enqueue(m: KeysByAddress, to: ServerThread, key: Key): (r: KeysByAddress) {
    m[to := (if to in m then m[to] else {}) + {key}]
  }

  lemma EnqueueAdds(m: KeysByAddress, to: ServerThread, key: Key)
    ensures Errands(Enqueue(m, to, key)) == Errands(m) + {Errand(to, key)}
    ensures NoEmpty(m) ==> NoEmpty(Enqueue(m, to, key))
  {
    var r := Enqueue(m, to, key);
    forall e ensures e in Errands(r) <==> e in Errands(m) + {Errand(to, key)} {
      assert e == Errand(e.to, e.key);
    }
    assert key in r[to];
  }

  /** The key goes to every listed thread. */
  function ForAll(threads: seq<ServerThread>, key: Key): (r: set<Errand>) {
    set t | t in threads :: Errand(t, key)
  }

  lemma ForAllStep(threads: seq<ServerThread>, i: nat, key: Key)
    requires i < |threads|
    ensures ForAll(threads[..i + 1], key) == ForAll(threads[..i], key) + {Errand(threads[i], key)}
  {
    assert forall t :: t in threads[..i + 1] <==> t in threads[..i] || t == threads[i];
  }

  method EnqueueAll(m: KeysByAddress, threads: seq<ServerThread>, key: Key) returns (r: KeysByAddress)
    ensures Errands(r) == Errands(m) + ForAll(threads, key)
    ensures NoEmpty(m) ==> NoEmpty(r)
  {
    r := m;
    for i := 0 to |threads|
      invariant Errands(r) == Errands(m) + ForAll(threads[..i], key)
      invariant NoEmpty(m) ==> NoEmpty(r)
    {
      EnqueueAdds(r, threads[i], key);
      ForAllStep(threads, i, key);
      r := Enqueue(r, threads[i], key);
    }
    assert threads[..|threads|] == threads;
  }

  lemma SendOne(s: Server, errands: set<Errand>, e: Errand)
    requires e !in errands
    ensures SendGossip(s, errands + {e})
         == SendGossip(s, errands)
            + if Readout(s, e.key).Some? then multiset{Gossip(e.to, e.key, Readout(s, e.key).value)} else NO_OUTPUT
  {
    var more := errands + {e};
    var was := set f | f in errands && Readout(s, f.key).Some? :: Gossip(f.to, f.key, Readout(s, f.key).value);
    var now := set f | f in more && Readout(s, f.key).Some? :: Gossip(f.to, f.key, Readout(s, f.key).value);
    if Readout(s, e.key).Some? {
      var o := Gossip(e.to, e.key, Readout(s, e.key).value);
      assert o !in was;
      forall p ensures p in now <==> p in was || p == o {
        if p == o { assert e in more; }
        if p in was {
          var f :| f in errands && Readout(s, f.key).Some? && p == Gossip(f.to, f.key, Readout(s, f.key).value);
          assert f in more;
        }
      }
      assert now == was + {o};
    } else {
      assert now == was;
    }
  }

  /** `send_gossip`: for every address, every key that is stored and reads as present. */
  method Send(s: Server, m: KeysByAddress) returns (out: multiset<Output>)
    ensures out == SendGossip(s, Errands(m))
  {
    out := NO_OUTPUT;
    var addresses := m.Keys;
    ghost var done: set<Errand> := {};
    while addresses != {}
      invariant addresses <= m.Keys
      invariant forall e :: e in done <==> e in Errands(m) && e.to !in addresses
      invariant out == SendGossip(s, done)
      decreases addresses
    {
      var address :| address in addresses;
      var keys := m[address];
      while keys != {}
        invariant keys <= m[address]
        invariant forall e :: e in done <==>
                    e in Errands(m) && (e.to !in addresses || (e.to == address && e.key !in keys))
        invariant out == SendGossip(s, done)
        decreases keys
      {
        var key :| key in keys;
        SendOne(s, done, Errand(address, key));
        var value := Readout(s, key);
        if value.Some? {
          out := out + multiset{Gossip(address, key, value.value)};
        }
        done := done + {Errand(address, key)};
        keys := keys - {key};
      }
      addresses := addresses - {address};
    }
    assert done == Errands(m);
  }

  lemma LookupsOne(keys: set<Key>, key: Key)
    requires key !in keys
    ensures Lookups(keys + {key}) == Lookups(keys) + multiset{Lookup(key)}
  {
    var was := set k | k in keys :: Lookup(k);
    var now := set k | k in keys + {key} :: Lookup(k);
    assert Lookup(key) !in was;
    assert now == was + {Lookup(key)};
  }

  // ---- going through a set of keys --------------------------------------------------------------

  /** Every key goes to its targets. */
  ghost function Over(targets: Key -> seq<ServerThread>, keys: set<Key>): (r: set<Errand>)
    ensures forall e :: e in r <==> e.key in keys && e.to in targets(e.key)
  {
    set k, t | k in keys && t in targets(k) :: Errand(t, k)
  }

  lemma OverNone(base: set<Errand>, targets: Key -> seq<ServerThread>)
    ensures base + Over(targets, {}) == base
  {
  }

  lemma OverStep(targets: Key -> seq<ServerThread>, keys: set<Key>, key: Key)
    ensures Over(targets, keys + {key}) == Over(targets, keys) + ForAll(targets(key), key)
  {
    forall e ensures e in Over(targets, keys + {key}) <==> e in Over(targets, keys) + ForAll(targets(key), key) {
      assert e == Errand(e.to, e.key);
    }
  }

  /** Adding one more key to what has been queued on top of `base`. */
  lemma OverNext(base: set<Errand>, targets: Key -> seq<ServerThread>, keys: set<Key>, key: Key)
    ensures base + Over(targets, keys + {key}) == base + Over(targets, keys) + ForAll(targets(key), key)
  {
    OverStep(targets, keys, key);
  }

  /** The keys that satisfy `p`. */
  ghost function Chosen(p: Key -> bool, keys: set<Key>): (r: set<Key>) {
    set k | k in keys && p(k)
  }

  lemma ChosenStep(p: Key -> bool, keys: set<Key>, key: Key)
    ensures Chosen(p, keys + {key}) == Chosen(p, keys) + if p(key) then {key} else {}
  {
  }
}
