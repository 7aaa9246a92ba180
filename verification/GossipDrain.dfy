/** What happens to the values a thread kept back when it learns the factor of their key. */
module GossipDrain {
  import opened Types
  import opened Values
  import opened Server
  import opened ServerRuns
  import opened Spread
  import opened GossipNet
  import opened GossipSteps

  /** The thread holds something of `key` at least as high as `x`. */
  ghost predicate HoldsAbove(s: Server, key: Key, x: Value) {
    Val(s, key).Some? && Below(x, Val(s, key).value)
  }

  function At(net: Net, w: ServerThread, s': Server): (r: Net) {
    net.(servers := net.servers[w := s'])
  }

  lemma AtTwice(net: Net, w: ServerThread, s1: Server, s2: Server)
    ensures At(At(net, w, s1), w, s2) == At(net, w, s2)
  {
    assert net.servers[w := s1][w := s2] == net.servers[w := s2];
  }

  lemma AtSame(net: Net, w: ServerThread)
    requires w in net.servers
    ensures At(net, w, net.servers[w]) == net
  {
    assert net.servers[w := net.servers[w]] == net.servers;
  }

  /** What a thread holds only rises when it merges. */
  lemma StaysAbove(d: Deployment, s: Server, s': Server, key: Key, x: Value, y: Value)
    requires Joins(d, key) && d.carrier(key)(x) && d.carrier(key)(y)
    requires HoldsAbove(s, key, y) && d.carrier(key)(Val(s, key).value) && Val(s', key) == MergeVal(Val(s, key), x)
    ensures HoldsAbove(s', key, y)
  {
    var was := Val(s, key).value;
    RaisedAbove(d.carrier(key), Below, Combine, was, x, y);
  }

  /** The values a thread keeps back belong to the key. */
  lemma KeptCarried(d: Deployment, net: Net, w: ServerThread, key: Key, x: Value)
    requires Good(d, net, key) && w in net.servers && x in HeldBy(net.servers[w], key)
    ensures d.carrier(key)(x) && Parcel(w, x) in ViewOf(net, key).transit
  {
    var q := Parcel(w, x);
    assert q in Kept(net.servers, key);
    assert q in ViewOf(net, key).transit && d.carrier(key)(q.value);
  }

  /** One value that was kept back is merged. */
  lemma AbsorbNext(d: Deployment, net: Net, w: ServerThread, key: Key, x: Value, s': Server) returns (after: Net)
    requires Merging(d) && Good(d, net, key) && w in net.servers && x in HeldBy(net.servers[w], key)
    requires Did(net.servers[w], s', key, x, false)
    ensures after == At(net, w, s') && Good(d, after, key)
    ensures HoldsAbove(s', key, x)
  {
    KeptCarried(d, net, w, key, x);
    ArrivalKeeps(d, net, w, s', key, x, key);
    after := net.(servers := net.servers[w := s']);
  }

  /** The values seen so far are all below what the thread holds. */
  ghost predicate AllBelow(s: Server, key: Key, values: seq<Value>) {
    forall x :: x in values ==> HoldsAbove(s, key, x)
  }

  lemma {:induction false} AbsorbNet(d: Deployment, net: Net, w: ServerThread, key: Key, values: seq<Value>)
    returns (after: Net)
    requires Merging(d) && Typed(d) && Good(d, net, key) && w in net.servers
    requires Exactly(net.servers[w].stored, net.servers[w].store)
    requires forall x :: x in values ==> x in HeldBy(net.servers[w], key)
    ensures after == At(net, w, AbsorbAll(net.servers[w], key, values))
    ensures Good(d, after, key)
    ensures AllBelow(after.servers[w], key, values)
    decreases |values|
  {
    if values == [] {
      AtSame(net, w);
      after := net;
    } else {
      var before := AbsorbNet(d, net, w, key, values[..|values| - 1]);
      after := AbsorbMore(d, net, w, key, values, before);
    }
  }

  lemma AbsorbMore(d: Deployment, net: Net, w: ServerThread, key: Key, values: seq<Value>, before: Net)
    returns (after: Net)
    requires Merging(d) && Typed(d) && w in net.servers && values != []
    requires Exactly(net.servers[w].stored, net.servers[w].store)
    requires forall x :: x in values ==> x in HeldBy(net.servers[w], key)
    requires before == At(net, w, AbsorbAll(net.servers[w], key, values[..|values| - 1])) && Good(d, before, key)
    requires AllBelow(before.servers[w], key, values[..|values| - 1])
    ensures after == At(net, w, AbsorbAll(net.servers[w], key, values))
    ensures Good(d, after, key)
    ensures AllBelow(after.servers[w], key, values)
  {
    AbsorbAllMerges(net.servers[w], key, values[..|values| - 1]);
    after := AbsorbStep(d, before, w, key, values, net.servers[w]);
    AtTwice(net, w, before.servers[w], after.servers[w]);
  }

  lemma AbsorbStep(d: Deployment, net: Net, w: ServerThread, key: Key, values: seq<Value>, s: Server)
    returns (after: Net)
    requires Merging(d) && Typed(d) && Good(d, net, key) && w in net.servers && values != []
    requires net.servers[w] == AbsorbAll(s, key, values[..|values| - 1])
    requires Exactly(net.servers[w].stored, net.servers[w].store)
    requires forall x :: x in values ==> x in HeldBy(net.servers[w], key)
    requires AllBelow(net.servers[w], key, values[..|values| - 1])
    ensures after == At(net, w, AbsorbAll(s, key, values))
    ensures Good(d, after, key)
    ensures AllBelow(after.servers[w], key, values)
  {
    var front, last := values[..|values| - 1], values[|values| - 1];
    var s2 := AbsorbLast(d, net, w, key, values, s, last);
    after := AbsorbNext(d, net, w, key, last, s2);
    forall x | x in values ensures HoldsAbove(s2, key, x) {
      if x != last {
        assert x in front;
        StillAbove(d, net, w, key, s2, last, x);
      }
    }
  }

  lemma AbsorbLast(d: Deployment, net: Net, w: ServerThread, key: Key, values: seq<Value>, s: Server, last: Value)
    returns (s2: Server)
    requires Typed(d) && Good(d, net, key) && w in net.servers && values != [] && last == values[|values| - 1]
    requires net.servers[w] == AbsorbAll(s, key, values[..|values| - 1])
    requires Exactly(net.servers[w].stored, net.servers[w].store) && last in HeldBy(net.servers[w], key)
    ensures s2 == AbsorbAll(s, key, values) && Did(net.servers[w], s2, key, last, false)
  {
    s2 := AbsorbAll(s, key, values);
    KeptCarried(d, net, w, key, last);
    assert OneType(d, key);
    Merges(d, net, w, key);
    PutDid(net.servers[w], key, last);
  }

  lemma StillAbove(d: Deployment, net: Net, w: ServerThread, key: Key, s2: Server, last: Value, x: Value)
    requires Merging(d) && Good(d, net, key) && w in net.servers
    requires last in HeldBy(net.servers[w], key) && x in HeldBy(net.servers[w], key)
    requires HoldsAbove(net.servers[w], key, x) && Val(s2, key) == MergeVal(Val(net.servers[w], key), last)
    ensures HoldsAbove(s2, key, x)
  {
    KeptCarried(d, net, w, key, last);
    KeptCarried(d, net, w, key, x);
    HeldCarried(d, net, w, key);
    assert Joins(d, key);
    StaysAbove(d, net.servers[w], s2, key, last, x);
  }

  /** The kept values of `key` are thrown away once they have all been merged. */
  lemma ForgetKept(d: Deployment, net: Net, w: ServerThread, key: Key) returns (after: Net)
    requires Merging(d) && Good(d, net, key) && w in net.servers
    requires forall x :: x in HeldBy(net.servers[w], key) ==> HoldsAbove(net.servers[w], key, x)
    ensures after == At(net, w, net.servers[w].(gossip := net.servers[w].gossip - {key}))
    ensures Good(d, after, key)
  {
    var s' := net.servers[w].(gossip := net.servers[w].gossip - {key});
    after := At(net, w, s');
    ForgottenView(net, w, key, after);
    var v, v' := ViewOf(net, key), ViewOf(after, key);
    forall q | q in v.transit && q !in v'.transit ensures q.to in v.val && Below(q.value, v.val[q.to]) {
      assert q.to == w && HoldsAbove(net.servers[w], key, q.value);
    }
    assert Joins(d, key);
    ForgetKeeps(d.carrier(key), Below, Combine, Replicas(d, key), v, v'.transit);
  }

  lemma ForgottenView(net: Net, w: ServerThread, key: Key, after: Net)
    requires w in net.servers
    requires after == At(net, w, net.servers[w].(gossip := net.servers[w].gossip - {key}))
    ensures var v, v' := ViewOf(net, key), ViewOf(after, key);
            && v' == v.(transit := v'.transit) && v'.transit <= v.transit
            && (forall q :: q in v.transit && q !in v'.transit ==> q.to == w && q.value in HeldBy(net.servers[w], key))
  {
    var s' := net.servers[w].(gossip := net.servers[w].gossip - {key});
    ValsSame(net.servers, w, s', key);
    KeptElsewhere(net, w, key, after);
  }

  lemma KeptElsewhere(net: Net, w: ServerThread, key: Key, after: Net)
    requires w in net.servers
    requires after == At(net, w, net.servers[w].(gossip := net.servers[w].gossip - {key}))
    ensures forall q :: q in Kept(after.servers, key) <==> q in Kept(net.servers, key) && q.to != w
  {
    assert HeldBy(after.servers[w], key) == [];
  }

  // ---- the whole reply --------------------------------------------------------------------------

  lemma MergedSame(s: Server, s': Server, key: Key, k: Key)
    requires Merged(s, s', key) && k != key
    ensures Same(s, s', k)
  {
    if k in s.stored { assert k in s'.stored; }
  }

  lemma DrainRequestsElsewhere(self: ServerThread, s: Server, key: Key, who: Option<seq<ServerThread>>, k: Key)
    requires Exactly(s.stored, s.store) && k != key
    ensures Same(s, DrainRequests(self, s, key, who).server, k)
  {
    if key in s.requests && who.Some? {
      SettleAllMerges(s, key, s.requests[key], self in who.value);
      MergedSame(s, SettleAll(s, key, s.requests[key], self in who.value).server, key, k);
    }
  }

  lemma DrainGossipElsewhere(self: ServerThread, s: Server, key: Key, who: Option<seq<ServerThread>>, k: Key)
    requires Exactly(s.stored, s.store) && k != key
    ensures Same(s, DrainGossip(self, s, key, who).server, k)
  {
    if key in s.gossip && who.Some? && self in who.value {
      AbsorbAllMerges(s, key, s.gossip[key]);
      MergedSame(s, AbsorbAll(s, key, s.gossip[key]), key, k);
    }
  }

  /** A reply about `key` does not touch what the thread holds of other keys. */
  lemma DrainElsewhere(self: ServerThread, s: Server, key: Key, who: Option<seq<ServerThread>>, k: Key)
    requires Inv(s) && Fits(s, key, who) && k != key
    ensures Same(s, Drain(self, s, key, who).server, k)
  {
    DrainRequestsKeeps(self, s, key, who);
    DrainRequestsElsewhere(self, s, key, who, k);
    DrainGossipElsewhere(self, DrainRequests(self, s, key, who).server, key, who, k);
  }

  lemma OtherWrites(net: Net, writes: set<Write>, k: Key)
    requires forall a :: a in writes ==> a.key != k
    ensures ViewOf(net.(accepted := net.accepted + writes), k) == ViewOf(net, k)
  {
    var v, v' := ViewOf(net, k), ViewOf(net.(accepted := net.accepted + writes), k);
    forall x ensures x in v'.accepted <==> x in v.accepted {
      if x in v'.accepted {
        var a :| a in net.accepted + writes && a.key == k && a.value == x;
        assert a in net.accepted;
      }
      if x in v.accepted {
        var a :| a in net.accepted && a.key == k && a.value == x;
        assert a in net.accepted + writes;
      }
    }
  }

  lemma SameGood(d: Deployment, net: Net, w: ServerThread, s': Server, key: Key) returns (after: Net)
    requires Good(d, net, key) && w in net.servers && Same(net.servers[w], s', key)
    ensures after == At(net, w, s') && Good(d, after, key)
  {
    after := At(net, w, s');
    SameView(net, w, s', key);
  }

  lemma WithThenAt(net: Net, w: ServerThread, s1: Server, writes: set<Write>, s2: Server)
    ensures At(With(net, w, s1, writes), w, s2) == With(net, w, s2, writes)
  {
    assert net.servers[w := s1][w := s2] == net.servers[w := s2];
  }

  ghost predicate AllProper(d: Deployment, s: Server, key: Key) {
    key in s.requests ==> forall p :: p in s.requests[key] ==> Proper(d, p.header, key, p.kind, p.payload)
  }

  /** The pending requests are served at a responsible thread. */
  lemma RequestsServed(d: Deployment, net: Net, w: ServerThread, key: Key, who: Option<seq<ServerThread>>)
    returns (after: Net)
    requires Merging(d) && Typed(d) && Good(d, net, key) && w in net.servers && w in Replicas(d, key)
    requires Exactly(net.servers[w].stored, net.servers[w].store) && AllProper(d, net.servers[w], key)
    requires who.Some? && w in who.value
    ensures after == With(net, w, DrainRequests(w, net.servers[w], key, who).server,
                          PendingWrites(net.servers[w].requests, key))
    ensures Good(d, after, key)
  {
    var s := net.servers[w];
    if key in s.requests {
      var settled := SettleNet(d, net, w, key, s.requests[key]);
      var s2 := DrainRequests(w, s, key, who).server;
      SettledSame(s, key, settled.servers[w], w, who);
      after := SameGood(d, settled, w, s2, key);
      WithThenAt(net, w, settled.servers[w], WritesOf(key, s.requests[key]), s2);
    } else {
      WithSame(net, w);
      after := net;
    }
  }

  lemma SettledSame(s: Server, key: Key, s1: Server, self: ServerThread, who: Option<seq<ServerThread>>)
    requires key in s.requests && who.Some? && self in who.value
    requires s1 == SettleAll(s, key, s.requests[key], true).server
    ensures Same(s1, DrainRequests(self, s, key, who).server, key)
  {
  }

  /** The gossip kept back is merged at a responsible thread. */
  lemma GossipServed(d: Deployment, net: Net, w: ServerThread, key: Key, who: Option<seq<ServerThread>>)
    returns (after: Net)
    requires Merging(d) && Typed(d) && Good(d, net, key) && w in net.servers
    requires Exactly(net.servers[w].stored, net.servers[w].store) && who.Some? && w in who.value
    ensures after == At(net, w, DrainGossip(w, net.servers[w], key, who).server)
    ensures Good(d, after, key)
  {
    var s := net.servers[w];
    if key in s.gossip {
      var merged := AbsorbNet(d, net, w, key, s.gossip[key]);
      AbsorbAllMerges(s, key, s.gossip[key]);
      after := ForgetKept(d, merged, w, key);
      AtTwice(net, w, merged.servers[w], after.servers[w]);
    } else {
      AtSame(net, w);
      after := net;
    }
  }

  /** A responsible thread learns the factor of a key. */
  lemma DrainServes(d: Deployment, net: Net, w: ServerThread, key: Key, who: Option<seq<ServerThread>>)
    returns (after: Net)
    requires Merging(d) && Typed(d) && Good(d, net, key) && w in net.servers && w in Replicas(d, key)
    requires Loyal(d, w, net.servers[w]) && Fits(net.servers[w], key, who) && who.Some? && w in who.value
    ensures after == With(net, w, Drain(w, net.servers[w], key, who).server,
                          PendingWrites(net.servers[w].requests, key))
    ensures Good(d, after, key)
  {
    var s := net.servers[w];
    assert AllProper(d, s, key);
    var served := RequestsServed(d, net, w, key, who);
    DrainRequestsKeeps(w, s, key, who);
    after := GossipServed(d, served, w, key, who);
    WithThenAt(net, w, served.servers[w], PendingWrites(s.requests, key), after.servers[w]);
  }

  /** A thread that is not responsible only answers its pending requests. */
  lemma DrainRefuses(self: ServerThread, s: Server, key: Key, who: Option<seq<ServerThread>>)
    requires who.Some? && self !in who.value && key !in s.gossip
    ensures Drain(self, s, key, who).server == s.(requests := s.requests - {key})
  {
    if key in s.requests {
      SettleAllIdle(s, key, s.requests[key]);
    } else {
      assert s.requests - {key} == s.requests;
    }
  }

  lemma DrainSends(self: ServerThread, s: Server, key: Key, who: Option<seq<ServerThread>>)
    requires who.Some? && (self in who.value || key !in s.gossip)
    ensures Drain(self, s, key, who).out == NO_OUTPUT
  {
    if key in s.requests && self !in who.value { SettleAllIdle(s, key, s.requests[key]); }
    SettleAllSilent(s, key, if key in s.requests then s.requests[key] else [], self in who.value);
  }
}
