/**
 * A storage thread as the program runs it: handlers that update its maps in place, proved against the state machine.
 */
module StorageThread {
  import opened Types
  import opened Walk
  import opened Metadata
  import opened Responsibility
  import opened Values
  import opened Server
  import opened Movement
  import opened Outbox
  import Membership

  /** The walks over the rings that decide about `key` end. */
  ghost predicate Walks(env: Env, s: Server, key: Key, tiers: seq<Tier>) {
    && (IsMetadata(key) ==>
          ServableIn(env.hs, s.rings, key, Memory, METADATA_REPLICATION_FACTOR, env.defaults.local))
    && (key in s.reps ==> forall t :: t in tiers ==>
          ServableIn(env.hs, s.rings, key, t, Factor(s.reps[key].global, t), Factor(s.reps[key].local, t)))
  }

  /** The walks a message of factor updates leads to end: before and after each update, for its key. */
  ghost predicate WalksThrough(env: Env, s: Server, updates: seq<Update>) {
    forall i :: 0 <= i < |updates| ==>
      var at := ChangeAll(env.self, Everywhere(env.hs, env.defaults), s, updates[..i]).0;
      Walks(env, at, updates[i].key, ALL_TIERS) && Walks(env, Learned(at, updates[i]), updates[i].key, ALL_TIERS)
  }

  datatype Item = Item(key: Key, value: Value)

  /** A gossip message with all its tuples. */
  function OnGossips(env: Env, s: Server, items: seq<Item>): (r: Outcome) {
    if items == [] then Outcome(s, [], NO_OUTPUT)
    else
      var before := OnGossips(env, s, items[..|items| - 1]);
      var last := OnGossip(env, before.server, items[|items| - 1].key, items[|items| - 1].value);
      Outcome(last.server, [], before.out + last.out)
  }

  /** What the walks need depends on the rings and the factors only. */
  lemma WalksAgain(env: Env, s: Server, s': Server, key: Key, tiers: seq<Tier>)
    requires Walks(env, s, key, tiers) && s'.rings == s.rings && s'.reps == s.reps
    ensures Walks(env, s', key, tiers)
  {
  }

  lemma OneMoreItem(env: Env, first: Server, items: seq<Item>, i: nat, before: Server, sent: multiset<Output>,
                    after: Server, more: multiset<Output>)
    requires i < |items| && OnGossips(env, first, items[..i]) == Outcome(before, [], sent)
    requires OnGossip(env, before, items[i].key, items[i].value) == Outcome(after, [], more)
    ensures OnGossips(env, first, items[..i + 1]) == Outcome(after, [], sent + more)
  {
    assert items[..i + 1][..i] == items[..i];
  }

  lemma OneMoreForward(threads: seq<ServerThread>, key: Key, values: seq<Value>, i: nat)
    requires i < |values|
    ensures ForwardAll(threads, key, values[..i + 1])
         == ForwardAll(threads, key, values[..i]) + ToAll(threads, key, values[i])
  {
    assert values[..i + 1][..i] == values[..i];
  }

  class StorageThread {
    const env: Env
    var rings: Rings
    var reps: map<Key, KeyReplication>
    var stored: map<Key, LatticeType>
    var store: map<Slot, Value>
    var requests: map<Key, seq<PendingRequest>>
    var gossip: map<Key, seq<Value>>
    var changes: set<Key>
    var joinGossip: KeysByAddress
    var joinRemove: set<Key>

    function State(): (s: Server)
      reads this
    {
      Server(rings, reps, stored, store, requests, gossip, changes, Errands(joinGossip), joinRemove)
    }

    constructor (env: Env, rings: Rings)
      ensures this.env == env
      ensures State() == Server(rings, map[], map[], map[], map[], map[], {}, {}, {})
      ensures NoEmpty(joinGossip)
    {
      this.env := env;
      this.rings := rings;
      reps, stored, store, requests, gossip := map[], map[], map[], map[], map[];
      changes, joinGossip, joinRemove := {}, map[], {};
    }

    /** `get_responsible_threads`, and the lookup it sends when the factor is missing. */
    method ResponsibleThreads(key: Key, tiers: seq<Tier>)
      returns (threads: seq<ServerThread>, succeed: bool, out: multiset<Output>)
      requires Walks(env, State(), key, tiers)
      ensures Who(env, State(), key, tiers) == if succeed then Some(threads) else None
      ensures out == if succeed then NO_OUTPUT else multiset{Lookup(key)}
    {
      threads, succeed := GetResponsibleThreads(env.hs, rings, env.defaults, reps, key, tiers);
      out := if succeed then NO_OUTPUT else multiset{Lookup(key)};
    }

    /** `process_put`. */
    method ProcessPut(key: Key, kind: LatticeType, payload: Value)
      requires kind != NONE
      modifies this`store, this`stored
      ensures State() == Put(old(State()), key, kind, payload)
    {
      var slot := Slot(kind, key);
      var element := if slot in store then store[slot] else Bottom(kind);
      store := store[slot := Combine(element, payload)];
      stored := stored[key := kind];
    }

    /** `process_get`. */
    method ProcessGet(key: Key) returns (value: Value, error: AnnaError)
      requires key in stored && stored[key] != NONE
      ensures (value, error) == Get(State(), key)
    {
      var slot := Slot(stored[key], key);
      if slot !in store {
        value, error := Bottom(stored[key]), KEY_DNE;
      } else {
        value := store[slot];
        error := if Readable(value) then NO_ERROR else KEY_DNE;
      }
    }

    /** A PUT at a responsible thread: merged and remembered for the next round, or refused. */
    method PutTuple(key: Key, kind: LatticeType, payload: Value) returns (accepted: bool)
      modifies this`store, this`stored, this`changes
      ensures accepted == Accepts(old(State()), key, kind)
      ensures State() == if Accepts(old(State()), key, kind)
                         then Put(old(State()), key, kind, payload).(changes := old(changes) + {key})
                         else old(State())
    {
      accepted := false;
      if kind == NONE {
        // logged
      } else if key in stored && stored[key] != NONE && stored[key] != kind {
        // logged
      } else {
        ProcessPut(key, kind, payload);
        changes := changes + {key};
        accepted := true;
      }
    }

    /** A GET at a responsible thread. */
    method GetTuple(key: Key, invalidate: bool) returns (answer: Answer)
      ensures answer == if key !in stored || stored[key] == NONE then Answer(key, NONE, None, KEY_DNE, invalidate)
                        else Answer(key, stored[key], Some(Get(State(), key).0), Get(State(), key).1, invalidate)
    {
      if key !in stored || stored[key] == NONE {
        answer := Answer(key, NONE, None, KEY_DNE, invalidate);
      } else {
        var value, error := ProcessGet(key);
        answer := Answer(key, stored[key], Some(value), error, invalidate);
      }
    }

    /** The branch of a request handler for a thread that is responsible. */
    method ServeTuple(header: Header, key: Key, kind: LatticeType, payload: Value, invalidate: bool)
      returns (answer: Answer)
      modifies this`store, this`stored, this`changes
      ensures (State(), answer) == Serve(old(State()), header, key, kind, payload, invalidate)
    {
      answer := Answer(key, NONE, None, NO_ERROR, invalidate);
      if header.kind == GET {
        answer := GetTuple(key, invalidate);
      } else if header.kind == PUT {
        var accepted := PutTuple(key, kind, payload);
        if accepted {
          answer := Answer(key, kind, None, NO_ERROR, invalidate);
        }
      }
    }

    method PendRequest(key: Key, p: PendingRequest)
      modifies this`requests
      ensures State() == Pend(old(State()), key, p)
    {
      requests := requests[key := (if key in requests then requests[key] else []) + [p]];
    }

    /** One tuple of a user request. */
    method UserTuple(header: Header, t: KeyTuple) returns (replies: seq<Reply>, out: multiset<Output>)
      requires Walks(env, State(), t.key, [env.tier])
      modifies this`store, this`stored, this`changes, this`requests
      ensures Outcome(State(), replies, out) == OnRequest(env, old(State()), header, t)
    {
      replies := [];
      var threads, succeed;
      threads, succeed, out := ResponsibleThreads(t.key, [env.tier]);
      if succeed {
        if env.self !in threads {
          if IsMetadata(t.key) {
            replies := ReplyTo(header, Answer(t.key, t.kind, None, WRONG_THREAD, false));
          } else {
            out := multiset{Lookup(t.key)};
            PendRequest(t.key, PendingRequest(header, t.kind, t.payload));
          }
        } else {
          var answer :=
            ServeTuple(header, t.key, t.kind, t.payload, t.cacheSize > 0 && t.cacheSize != |threads|);
          replies := ReplyTo(header, answer);
        }
      } else {
        PendRequest(t.key, PendingRequest(header, t.kind, t.payload));
      }
    }

    /** `user_request_handler`; the answers go out together, to the request's response address if it has one. */
    method UserRequest(header: Header, tuples: seq<KeyTuple>) returns (replies: seq<Reply>, out: multiset<Output>)
      requires forall t :: t in tuples ==> Walks(env, State(), t.key, [env.tier])
      modifies this`store, this`stored, this`changes, this`requests
      ensures Outcome(State(), replies, out) == OnRequests(env, old(State()), header, tuples)
    {
      replies, out := [], NO_OUTPUT;
      for i := 0 to |tuples|
        invariant rings == old(rings) && reps == old(reps)
        invariant Outcome(State(), replies, out) == OnRequests(env, old(State()), header, tuples[..i])
      {
        WalksAgain(env, old(State()), State(), tuples[i].key, [env.tier]);
        var more, sent := UserTuple(header, tuples[i]);
        assert tuples[..i + 1][..i] == tuples[..i];
        replies, out := replies + more, out + sent;
      }
      assert tuples[..|tuples|] == tuples;
    }

    // ---- gossip ---------------------------------------------------------------------------------

    method HoldGossip(key: Key, value: Value)
      modifies this`gossip
      ensures State() == Hold(old(State()), key, value)
    {
      gossip := gossip[key := (if key in gossip then gossip[key] else []) + [value]];
    }

    method GossipTuple(key: Key, value: Value) returns (out: multiset<Output>)
      requires Walks(env, State(), key, [env.tier])
      modifies this`store, this`stored, this`gossip
      ensures Outcome(State(), [], out) == OnGossip(env, old(State()), key, value)
    {
      var threads, succeed;
      threads, succeed, out := ResponsibleThreads(key, [env.tier]);
      if succeed {
        if env.self in threads {
          if key in stored && stored[key] != TypeOf(value) {
            // logged
          } else {
            ProcessPut(key, TypeOf(value), value);
          }
        } else if IsMetadata(key) {
          out := Forward(threads, key, value);
        } else {
          out := multiset{Lookup(key)};
          HoldGossip(key, value);
        }
      } else {
        HoldGossip(key, value);
      }
    }

    /** The value goes to every listed thread. */
    static method Forward(threads: seq<ServerThread>, key: Key, value: Value) returns (out: multiset<Output>)
      ensures out == ToAll(threads, key, value)
    {
      out := NO_OUTPUT;
      for i := 0 to |threads|
        invariant out == ToAll(threads[..i], key, value)
      {
        assert threads[..i + 1][..i] == threads[..i];
        out := out + multiset{Gossip(threads[i], key, value)};
      }
      assert threads[..|threads|] == threads;
    }

    /** One turn of the loop over the tuples of a gossip message. */
    method NextItem(items: seq<Item>, i: nat, sent: multiset<Output>, ghost first: Server)
      returns (out: multiset<Output>)
      requires i < |items| && Walks(env, first, items[i].key, [env.tier]) && rings == first.rings && reps == first.reps
      requires Outcome(State(), [], sent) == OnGossips(env, first, items[..i])
      modifies this`store, this`stored, this`gossip
      ensures Outcome(State(), [], out) == OnGossips(env, first, items[..i + 1])
    {
      WalksAgain(env, first, State(), items[i].key, [env.tier]);
      ghost var before := State();
      var more := GossipTuple(items[i].key, items[i].value);
      out := sent + more;
      OneMoreItem(env, first, items, i, before, sent, State(), more);
    }

    /** `gossip_handler`. */
    method GossipMessage(items: seq<Item>) returns (out: multiset<Output>)
      requires forall item :: item in items ==> Walks(env, State(), item.key, [env.tier])
      modifies this`store, this`stored, this`gossip
      ensures Outcome(State(), [], out) == OnGossips(env, old(State()), items)
    {
      out := NO_OUTPUT;
      for i := 0 to |items|
        invariant rings == old(rings) && reps == old(reps)
        invariant Outcome(State(), [], out) == OnGossips(env, old(State()), items[..i])
      {
        out := NextItem(items, i, out, old(State()));
      }
      assert items[..|items|] == items;
    }

    // ---- a factor reply -------------------------------------------------------------------------

    method LearnFactors(key: Key, rep: KeyReplication)
      modifies this`reps
      ensures State() == old(State()).(reps := Learn(old(reps), key, rep))
    {
      if rep != NO_FACTORS {
        var was := if key in reps then reps[key] else NO_FACTORS;
        reps := reps[key := KeyReplication(was.global + rep.global, was.local + rep.local)];
      }
    }

    /** One pending request. */
    method SettleRequest(key: Key, p: PendingRequest, responsible: bool) returns (replies: seq<Reply>)
      modifies this`store, this`stored, this`changes
      ensures Outcome(State(), replies, NO_OUTPUT) == Settle(old(State()), key, p, responsible)
    {
      replies := [];
      if !responsible && p.header.address != "" {
        replies := [Reply(p.header, Answer(key, NONE, None, WRONG_THREAD, false))];
      } else if responsible && p.header.address == "" {
        if p.header.kind == PUT {
          var _ := PutTuple(key, p.kind, p.payload);
        }
      } else if responsible {
        var header := if p.header.kind == GET then p.header else p.header.(kind := PUT);
        var answer := ServeTuple(header, key, p.kind, p.payload, false);
        replies := [Reply(p.header, answer)];
      }
    }

    method SettleRequests(key: Key, responsible: bool) returns (replies: seq<Reply>)
      requires key in requests
      modifies this`store, this`stored, this`changes
      ensures Outcome(State(), replies, NO_OUTPUT) == SettleAll(old(State()), key, requests[key], responsible)
    {
      var ps := requests[key];
      replies := [];
      for i := 0 to |ps|
        invariant Outcome(State(), replies, NO_OUTPUT) == SettleAll(old(State()), key, ps[..i], responsible)
      {
        var more := SettleRequest(key, ps[i], responsible);
        assert ps[..i + 1][..i] == ps[..i];
        replies := replies + more;
      }
      assert ps[..|ps|] == ps;
    }

    /** The first half of the drain. */
    method DrainPendingRequests(key: Key) returns (replies: seq<Reply>, out: multiset<Output>)
      requires Walks(env, State(), key, [env.tier])
      modifies this`store, this`stored, this`changes, this`requests
      ensures Outcome(State(), replies, out)
           == DrainRequests(env.self, old(State()), key, Who(env, old(State()), key, [env.tier]))
    {
      replies, out := [], NO_OUTPUT;
      if key in requests {
        var threads, succeed;
        threads, succeed, out := ResponsibleThreads(key, [env.tier]);
        if succeed {
          replies := SettleRequests(key, env.self in threads);
        }
        requests := requests - {key};
      }
    }

    method AbsorbPending(key: Key)
      requires key in gossip
      modifies this`store, this`stored
      ensures State() == AbsorbAll(old(State()), key, gossip[key])
    {
      var values := gossip[key];
      for i := 0 to |values|
        invariant State() == AbsorbAll(old(State()), key, values[..i])
      {
        assert values[..i + 1][..i] == values[..i];
        var kind := TypeOf(values[i]);
        if key in stored && stored[key] != NONE && stored[key] != kind {
          // logged
        } else {
          ProcessPut(key, kind, values[i]);
        }
      }
      assert values[..|values|] == values;
    }

    method ForwardPending(threads: seq<ServerThread>, key: Key) returns (out: multiset<Output>)
      requires key in gossip
      ensures out == ForwardAll(threads, key, gossip[key])
    {
      var values := gossip[key];
      out := NO_OUTPUT;
      for i := 0 to |values|
        invariant out == ForwardAll(threads, key, values[..i])
      {
        var more := Forward(threads, key, values[i]);
        OneMoreForward(threads, key, values, i);
        out := out + more;
      }
      assert values[..|values|] == values;
    }

    /** The second half. */
    method DrainPendingGossip(key: Key) returns (out: multiset<Output>)
      requires Walks(env, State(), key, [env.tier])
      modifies this`store, this`stored, this`gossip
      ensures Outcome(State(), [], out)
           == DrainGossip(env.self, old(State()), key, Who(env, old(State()), key, [env.tier]))
    {
      out := NO_OUTPUT;
      if key in gossip {
        var threads, succeed;
        threads, succeed, out := ResponsibleThreads(key, [env.tier]);
        if succeed {
          if env.self in threads {
            AbsorbPending(key);
          } else {
            out := ForwardPending(threads, key);
          }
        }
        gossip := gossip - {key};
      }
    }

    /** `replication_response_handler`. */
    method FactorResponse(key: Key, reply: FactorReply) returns (replies: seq<Reply>, out: multiset<Output>)
      requires reply.Found? || reply.NotFound? ==> Walks(env, Taught(env, State(), key, reply), key, [env.tier])
      modifies this`reps, this`store, this`stored, this`changes, this`requests, this`gossip
      ensures Outcome(State(), replies, out) == OnFactor(env, old(State()), key, reply)
    {
      replies, out := [], NO_OUTPUT;
      match reply {
        case NotMine =>
          out := multiset{Lookup(key)};
          return;
        case Failed =>
          return;
        case Found(rep) => LearnFactors(key, rep);
        case NotFound => LearnFactors(key, DefaultFactors(env.defaults));
      }
      assert State() == Taught(env, old(State()), key, reply);
      replies, out := DrainPendingRequests(key);
      var more := DrainPendingGossip(key);
      out := out + more;
    }

    // ---- moving data ----------------------------------------------------------------------------

    static method Except(threads: seq<ServerThread>, self: ServerThread) returns (r: seq<ServerThread>)
      ensures r == Others(threads, self)
    {
      r := [];
      for i := 0 to |threads|
        invariant r == Others(threads[..i], self)
      {
        assert threads[..i + 1][..i] == threads[..i];
        if threads[i] != self {
          r := r + [threads[i]];
        }
      }
      assert threads[..|threads|] == threads;
    }

    /** One changed key. */
    method RoundKey(m: KeysByAddress, asked: multiset<Output>, key: Key)
      returns (m': KeysByAddress, asked': multiset<Output>)
      requires Walks(env, State(), key, ALL_TIERS)
      ensures Errands(m') == Errands(m) + ForAll(RoundTargetsOf(env, State())(key), key)
      ensures asked' == asked + Lookups(Unknown(State(), {key}))
    {
      var threads, succeed, sent := ResponsibleThreads(key, ALL_TIERS);
      RoundTargetsKnown(env, State(), key, threads, succeed);
      UnknownOne(State(), key);
      m' := m;
      if succeed {
        var others := Except(threads, env.self);
        m' := EnqueueAll(m, others, key);
      } else {
        assert Errands(m) + ForAll([], key) == Errands(m);
      }
      asked' := asked + sent;
    }

    /** Whom the keys changed since the last round have to be sent to. */
    method RoundQueue() returns (m: KeysByAddress, asked: multiset<Output>)
      requires forall k :: k in changes ==> Walks(env, State(), k, ALL_TIERS)
      ensures Errands(m) == Over(RoundTargetsOf(env, State()), changes)
      ensures asked == Lookups(Unknown(State(), changes))
    {
      m, asked := map[], NO_OUTPUT;
      var rest := changes;
      while rest != {}
        invariant rest <= changes
        invariant Errands(m) == Over(RoundTargetsOf(env, State()), changes - rest)
        invariant asked == Lookups(Unknown(State(), changes - rest))
        decreases rest
      {
        var key :| key in rest;
        OneMore(changes, rest, key);
        m, asked := RoundKey(m, asked, key);
        OverStep(RoundTargetsOf(env, State()), changes - rest, key);
        UnknownStep(State(), changes - rest, key);
        rest := rest - {key};
      }
      assert changes - rest == changes;
    }

    /** The gossip round of `run`. */
    method GossipRound() returns (out: multiset<Output>)
      requires forall k :: k in changes ==> Walks(env, State(), k, ALL_TIERS)
      modifies this`changes
      ensures Outcome(State(), [], out) == OnRound(env, old(State()))
    {
      var m, asked := RoundQueue();
      RoundOver(env, State());
      var sent := Send(State(), m);
      out := sent + asked;
      changes := {};
    }

    static method OnIp(threads: seq<ServerThread>, ip: Address) returns (r: seq<ServerThread>)
      ensures r == OfServer(threads, ip)
    {
      r := [];
      for i := 0 to |threads|
        invariant r == OfServer(threads[..i], ip)
      {
        assert threads[..i + 1][..i] == threads[..i];
        if threads[i].ip == ip {
          r := r + [threads[i]];
        }
      }
      assert threads[..|threads|] == threads;
    }

    /** One stored key, once the ring has changed: whom it is queued for, and whether it is to be dropped here. */
    method JoinKey(join: Membership.Join, key: Key)
      returns (targets: seq<ServerThread>, leaves: bool, asked: multiset<Output>)
      requires Walks(env, State(), key, [env.tier])
      ensures targets == JoinTargetsOf(env, State(), join)(key)
      ensures leaves == LeavesOf(env, State(), join)(key)
      ensures asked == Lookups(Unknown(State(), {key}))
    {
      var threads, succeed;
      threads, succeed, asked := ResponsibleThreads(key, [env.tier]);
      JoinTargetsKnown(env, State(), join, key, threads, succeed);
      UnknownOne(State(), key);
      targets, leaves := [], false;
      if succeed {
        if join.count > 0 {
          targets := OnIp(threads, join.ip);
        } else if env.self !in threads {
          leaves := true;
          targets := threads;
        }
      }
    }

    /** The queues after one more key. */
    method JoinNext(join: Membership.Join, key: Key, queue: KeysByAddress, removed: set<Key>, out: multiset<Output>,
                    ghost done: set<Key>)
      returns (queue': KeysByAddress, removed': set<Key>, out': multiset<Output>)
      requires Walks(env, State(), key, [env.tier]) && NoEmpty(queue) && key !in done
      requires QueuedFor(env, State(), join, done, Errands(queue), removed, out)
      ensures NoEmpty(queue')
      ensures QueuedFor(env, State(), join, done + {key}, Errands(queue'), removed', out')
    {
      var targets, leaves, asked := JoinKey(join, key);
      queue' := EnqueueAll(queue, targets, key);
      removed' := if leaves then removed + {key} else removed;
      out' := out + asked;
      QueuedNext(env, State(), join, done, Errands(queue), removed, out, key);
    }

    /** Going through the stored keys. */
    method JoinQueue(join: Membership.Join)
      returns (queue: KeysByAddress, removed: set<Key>, out: multiset<Output>)
      requires forall k :: k in stored ==> Walks(env, State(), k, [env.tier])
      requires NoEmpty(joinGossip)
      ensures NoEmpty(queue)
      ensures QueuedFor(env, State(), join, stored.Keys, Errands(queue), removed, out)
    {
      queue, removed, out := joinGossip, joinRemove, NO_OUTPUT;
      var keys := stored.Keys;
      var rest := keys;
      ghost var done: set<Key> := {};
      QueuedNone(env, State(), join);
      while rest != {}
        invariant done == keys - rest && rest <= keys && NoEmpty(queue)
        invariant QueuedFor(env, State(), join, done, Errands(queue), removed, out)
        decreases rest
      {
        var key :| key in rest;
        OneMore(keys, rest, key);
        queue, removed, out := JoinNext(join, key, queue, removed, out, done);
        done := done + {key};
        rest := rest - {key};
      }
      assert done == keys;
    }

    /** `node_join_handler`, without the messages that spread the news of the join. */
    method NodeJoin(join: Membership.Join) returns (out: multiset<Output>)
      requires forall k :: k in stored ==> Walks(env, Rejoined(env, State(), join), k, [env.tier])
      requires NoEmpty(joinGossip)
      modifies this`rings, this`joinGossip, this`joinRemove
      ensures Outcome(State(), [], out) == OnJoin(env, old(State()), join)
      ensures NoEmpty(joinGossip)
    {
      var (global, inserted) := Membership.Admit(env.hs.globalNode, rings.global, join);
      rings := rings.(global := global);
      out := NO_OUTPUT;
      if inserted && join.tier == env.tier {
        JoinOver(env, State(), join);
        joinGossip, joinRemove, out := JoinQueue(join);
      }
    }

    // ---- redistribution -------------------------------------------------------------------------

    /** The keys one pass sends to an address: all of them, or as many as the threshold allows. */
    static method TakeKeys(keys: set<Key>) returns (sent: set<Key>)
      ensures sent <= keys && |sent| == AtMost(|keys|, DATA_REDISTRIBUTE_THRESHOLD)
    {
      sent := {};
      var rest := keys;
      while rest != {} && |sent| < DATA_REDISTRIBUTE_THRESHOLD
        invariant sent + rest == keys && sent !! rest && |sent| <= DATA_REDISTRIBUTE_THRESHOLD
        decreases rest
      {
        var key :| key in rest;
        sent, rest := sent + {key}, rest - {key};
      }
      assert |keys| == |sent| + |rest|;
    }

    /** What one pass sends, and the addresses it is finished with. */
    static method TakeBatch(queue: KeysByAddress) returns (batch: KeysByAddress, finished: set<ServerThread>)
      ensures batch.Keys == queue.Keys
      ensures forall t :: t in queue ==>
                batch[t] <= queue[t] && |batch[t]| == AtMost(|queue[t]|, DATA_REDISTRIBUTE_THRESHOLD)
      ensures forall t :: t in finished <==> t in queue && batch[t] == queue[t]
    {
      batch, finished := map[], {};
      var addresses := queue.Keys;
      while addresses != {}
        invariant addresses <= queue.Keys && batch.Keys == queue.Keys - addresses
        invariant forall t :: t in batch ==>
                    batch[t] <= queue[t] && |batch[t]| == AtMost(|queue[t]|, DATA_REDISTRIBUTE_THRESHOLD)
        invariant forall t :: t in finished <==> t in batch && batch[t] == queue[t]
        decreases addresses
      {
        var address :| address in addresses;
        var sent := TakeKeys(queue[address]);
        batch := batch[address := sent];
        NothingMissing(sent, queue[address]);
        if queue[address] - sent == {} {
          finished := finished + {address};
        }
        addresses := addresses - {address};
      }
    }

    /** Deleting keys from the stores and from the list of stored keys. */
    method RemoveKeys(keys: set<Key>)
      requires keys <= stored.Keys
      modifies this`store, this`stored
      ensures State() == DropAll(old(State()), keys)
    {
      var rest := keys;
      ghost var done: set<Key> := {};
      DropNone(State());
      while rest != {}
        invariant rest <= keys && done == keys - rest && State() == DropAll(old(State()), done)
        decreases rest
      {
        var key :| key in rest;
        OneMore(keys, rest, key);
        DropStep(old(State()), done, key);
        store := store - {Slot(stored[key], key)};
        stored := stored - {key};
        done := done + {key};
        rest := rest - {key};
      }
      assert done == keys;
    }

    /** The keys due for removal are dropped and the list is emptied. */
    method CleanUp()
      requires joinRemove <= stored.Keys
      modifies this`joinRemove, this`store, this`stored
      ensures State() == DropAll(old(State()), old(joinRemove)).(joinRemove := {})
    {
      RemoveKeys(joinRemove);
      joinRemove := {};
    }

    /** One redistribution pass of `run`; to clean up, the keys due for removal must be stored. */
    method Redistribute() returns (out: multiset<Output>, ghost batch: set<Errand>)
      requires NoEmpty(joinGossip)
      requires joinGossip != map[] && AllSmall(joinGossip) ==> joinRemove <= stored.Keys
      modifies this`joinGossip, this`joinRemove, this`store, this`stored
      ensures NoEmpty(joinGossip) && IsBatch(old(State()).joinGossip, batch)
      ensures old(State()).joinGossip != {} && Leftover(old(State()).joinGossip, batch) == {} ==>
                old(joinRemove) <= old(stored).Keys
      ensures Outcome(State(), [], out) == OnRedistribute(old(State()), batch)
    {
      var m, finished := TakeBatch(joinGossip);
      batch := Errands(m);
      BatchFits(joinGossip, m, finished);
      if joinGossip == map[] {
        out := NO_OUTPUT;
        assert Errands(joinGossip) == {};
      } else {
        out := Send(State(), m);
        joinGossip := joinGossip - finished;
        if joinGossip == map[] {
          CleanUp();
        }
      }
    }

    // ---- a replication factor changes -----------------------------------------------------------

    /** Whether some listed factor is lower than it was. */
    static method AnyFalls(was: map<Tier, nat>, now: map<Tier, nat>) returns (falls: bool)
      ensures falls <==> exists t :: t in now && now[t] < Factor(was, t)
    {
      falls := false;
      var tiers := now.Keys;
      while tiers != {}
        invariant tiers <= now.Keys
        invariant falls <==> exists t :: t in now && t !in tiers && now[t] < Factor(was, t)
        decreases tiers
      {
        var tier :| tier in tiers;
        if now[tier] < Factor(was, tier) {
          falls := true;
        }
        tiers := tiers - {tier};
      }
    }

    static method Newcomers(threads: seq<ServerThread>, was: seq<ServerThread>) returns (r: seq<ServerThread>)
      ensures forall t :: t in r <==> t in threads && t !in was
    {
      r := [];
      for i := 0 to |threads|
        invariant forall t :: t in r <==> t in threads[..i] && t !in was
      {
        assert forall t :: t in threads[..i + 1] <==> t in threads[..i] || t == threads[i];
        if threads[i] !in was {
          r := r + [threads[i]];
        }
      }
      assert threads[..|threads|] == threads;
    }

    /** Whom a stored key is sent to, given the threads responsible for it before and after the update. */
    static method ChangeQueue(self: ServerThread, m: KeysByAddress, key: Key, was: seq<ServerThread>,
                              now: seq<ServerThread>, decrement: bool) returns (m': KeysByAddress)
      ensures Errands(m') == Errands(m) + set t | t in ChangeTargets(self, was, now, decrement) :: Errand(t, key)
    {
      m' := m;
      if self !in now {
        m' := EnqueueAll(m', now, key);
      }
      if !decrement && was != [] && was[0] == self {
        var newcomers := Newcomers(now, was);
        m' := EnqueueAll(m', newcomers, key);
      }
    }

    /** What an update adds to the plan for a stored key whose responsible threads are known before and after it. */
    method PlanUpdate(u: Update, m: KeysByAddress, removed: set<Key>, was: seq<ServerThread>, now: seq<ServerThread>,
                      factors: KeyReplication, ghost s: Server, ghost out: multiset<Output>)
      returns (m': KeysByAddress, removed': set<Key>)
      requires u.key in s.stored && factors == FactorsOf(s, u.key)
      ensures Plan(Errands(m'), removed', out)
           == ChangeTo(env.self, s, Plan(Errands(m), removed, out), u, Some(was), Some(now))
    {
      var global := AnyFalls(factors.global, u.rep.global);
      var local := AnyFalls(factors.local, u.rep.local);
      m' := ChangeQueue(env.self, m, u.key, was, now, global || local);
      removed' := if env.self !in now then removed + {u.key} else removed;
    }

    /** One update of the message. */
    method UpdateFactor(u: Update, m: KeysByAddress, removed: set<Key>, out: multiset<Output>)
      returns (m': KeysByAddress, removed': set<Key>, out': multiset<Output>)
      requires Walks(env, State(), u.key, ALL_TIERS) && Walks(env, Learned(State(), u), u.key, ALL_TIERS)
      modifies this`reps
      ensures State() == Learned(old(State()), u)
      ensures Plan(Errands(m'), removed', out')
           == ChangeTo(env.self, old(State()), Plan(Errands(m), removed, out), u,
                       Who(env, old(State()), u.key, ALL_TIERS), Who(env, Learned(old(State()), u), u.key, ALL_TIERS))
    {
      m', removed', out' := m, removed, out;
      if u.key !in stored {
        LearnFactors(u.key, u.rep);
        return;
      }
      var was, succeed, asked := ResponsibleThreads(u.key, ALL_TIERS);
      var factors := if u.key in reps then reps[u.key] else NO_FACTORS;
      LearnFactors(u.key, u.rep);
      if !succeed {
        out' := out + asked;
        return;
      }
      var now, known, _ := ResponsibleThreads(u.key, ALL_TIERS);
      if known {
        m', removed' := PlanUpdate(u, m, removed, was, now, factors, old(State()), out);
      }
    }

    /** Going through the updates. */
    method UpdateFactors(updates: seq<Update>)
      returns (m: KeysByAddress, removed: set<Key>, out: multiset<Output>)
      requires WalksThrough(env, State(), updates)
      modifies this`reps
      ensures (State(), Plan(Errands(m), removed, out))
           == ChangeAll(env.self, Everywhere(env.hs, env.defaults), old(State()), updates)
    {
      m, removed, out := map[], {}, NO_OUTPUT;
      assert Errands(m) == {};
      for i := 0 to |updates|
        invariant (State(), Plan(Errands(m), removed, out))
               == ChangeAll(env.self, Everywhere(env.hs, env.defaults), old(State()), updates[..i])
      {
        assert updates[..i + 1][..i] == updates[..i] && updates[..i + 1][i] == updates[i];
        m, removed, out := UpdateFactor(updates[i], m, removed, out);
      }
      assert updates[..|updates|] == updates;
    }

    /** `replication_change_handler`. */
    method ChangeReplication(updates: seq<Update>) returns (out: multiset<Output>)
      requires WalksThrough(env, State(), updates)
      modifies this`reps, this`store, this`stored, this`changes
      ensures Outcome(State(), [], out) == OnChange(env, old(State()), updates)
    {
      var m, removed, asked := UpdateFactors(updates);
      var sent := Send(State(), m);
      RemoveKeys(removed);
      changes := changes - removed;
      out := asked + sent;
    }
  }

  ghost function RoundTargetsOf(env: Env, s: Server): (r: Key -> seq<ServerThread>) {
    k => RoundTargets(env, s, k)
  }

  lemma RoundTargetsKnown(env: Env, s: Server, key: Key, threads: seq<ServerThread>, succeed: bool)
    requires Who(env, s, key, ALL_TIERS) == if succeed then Some(threads) else None
    ensures RoundTargetsOf(env, s)(key) == if succeed then Others(threads, env.self) else []
    ensures succeed <==> IsMetadata(key) || key in s.reps
  {
  }

  lemma RoundOver(env: Env, s: Server)
    ensures Over(RoundTargetsOf(env, s), s.changes) == RoundErrands(env, s)
  {
    forall e ensures e in Over(RoundTargetsOf(env, s), s.changes) <==> e in RoundErrands(env, s) {
      assert e == Errand(e.to, e.key);
    }
  }

  lemma UnknownOne(s: Server, key: Key)
    ensures Lookups(Unknown(s, {key})) == if IsMetadata(key) || key in s.reps then NO_OUTPUT else multiset{Lookup(key)}
  {
    assert Unknown(s, {key}) == if IsMetadata(key) || key in s.reps then {} else {key};
    assert (set k | k in {key} :: Lookup(k)) == {Lookup(key)};
  }

  lemma UnknownStep(s: Server, done: set<Key>, key: Key)
    requires key !in done
    ensures Lookups(Unknown(s, done + {key})) == Lookups(Unknown(s, done)) + Lookups(Unknown(s, {key}))
  {
    UnknownOne(s, key);
    var was, now := Unknown(s, done), Unknown(s, done + {key});
    if IsMetadata(key) || key in s.reps {
      assert now == was;
    } else {
      assert now == was + {key};
      LookupsOne(was, key);
    }
  }

  ghost function JoinTargetsOf(env: Env, s: Server, join: Membership.Join): (r: Key -> seq<ServerThread>) {
    k => JoinTargets(env, s, join, k)
  }

  ghost function LeavesOf(env: Env, s: Server, join: Membership.Join): (r: Key -> bool) {
    k => Leaves(env, s, join, k)
  }

  lemma JoinTargetsKnown(env: Env, s: Server, join: Membership.Join, key: Key, threads: seq<ServerThread>,
                         succeed: bool)
    requires Who(env, s, key, [env.tier]) == if succeed then Some(threads) else None
    ensures JoinTargetsOf(env, s, join)(key)
         == if !succeed then [] else if join.count > 0 then OfServer(threads, join.ip)
            else if env.self !in threads then threads else []
    ensures LeavesOf(env, s, join)(key) <==> join.count == 0 && succeed && env.self !in threads
    ensures succeed <==> IsMetadata(key) || key in s.reps
  {
  }

  /** The queues once the stored keys in `done` have been gone through. */
  ghost predicate QueuedFor(env: Env, s: Server, join: Membership.Join, done: set<Key>, queue: set<Errand>,
                            removed: set<Key>, out: multiset<Output>) {
    && queue == s.joinGossip + Over(JoinTargetsOf(env, s, join), done)
    && removed == s.joinRemove + Chosen(LeavesOf(env, s, join), done)
    && out == Lookups(Unknown(s, done))
  }

  lemma QueuedNone(env: Env, s: Server, join: Membership.Join)
    ensures QueuedFor(env, s, join, {}, s.joinGossip, s.joinRemove, NO_OUTPUT)
  {
    OverNone(s.joinGossip, JoinTargetsOf(env, s, join));
  }

  lemma QueuedNext(env: Env, s: Server, join: Membership.Join, done: set<Key>, queue: set<Errand>, removed: set<Key>,
                   out: multiset<Output>, key: Key)
    requires QueuedFor(env, s, join, done, queue, removed, out) && key !in done
    ensures QueuedFor(env, s, join, done + {key}, queue + ForAll(JoinTargetsOf(env, s, join)(key), key),
                      removed + (if LeavesOf(env, s, join)(key) then {key} else {}),
                      out + Lookups(Unknown(s, {key})))
  {
    OverNext(s.joinGossip, JoinTargetsOf(env, s, join), done, key);
    ChosenStep(LeavesOf(env, s, join), done, key);
    UnknownStep(s, done, key);
  }

  lemma JoinOver(env: Env, s: Server, join: Membership.Join)
    ensures Over(JoinTargetsOf(env, s, join), s.stored.Keys) == JoinErrands(env, s, join)
    ensures Chosen(LeavesOf(env, s, join), s.stored.Keys) == set k | k in s.stored && Leaves(env, s, join, k)
  {
    forall e ensures e in Over(JoinTargetsOf(env, s, join), s.stored.Keys) <==> e in JoinErrands(env, s, join) {
      assert e == Errand(e.to, e.key);
    }
  }

  // ---- batches ----------------------------------------------------------------------------------

  predicate AllSmall(queue: KeysByAddress) {
    forall t :: t in queue ==> |queue[t]| <= DATA_REDISTRIBUTE_THRESHOLD
  }

  lemma NothingMissing(sent: set<Key>, keys: set<Key>)
    requires sent <= keys
    ensures keys - sent == {} <==> sent == keys
  {
    forall k | k in keys && k !in sent ensures k in keys - sent {
    }
  }

  lemma KeysForIs(m: KeysByAddress, t: ServerThread)
    ensures KeysFor(Errands(m), t) == if t in m then m[t] else {}
  {
  }

  /** What a pass picks is a batch, and what it keeps is what the batch leaves over. */
  lemma BatchFits(queue: KeysByAddress, batch: KeysByAddress, finished: set<ServerThread>)
    requires NoEmpty(queue) && batch.Keys == queue.Keys
    requires forall t :: t in queue ==>
               batch[t] <= queue[t] && |batch[t]| == AtMost(|queue[t]|, DATA_REDISTRIBUTE_THRESHOLD)
    requires forall t :: t in finished <==> t in queue && batch[t] == queue[t]
    ensures IsBatch(Errands(queue), Errands(batch))
    ensures Errands(queue - finished) == Leftover(Errands(queue), Errands(batch))
    ensures NoEmpty(queue - finished)
    ensures Errands(queue) == {} <==> queue == map[]
    ensures Errands(queue - finished) == {} <==> queue - finished == map[]
    ensures queue - finished == map[] ==> AllSmall(queue)
  {
    forall e | e in Errands(queue)
      ensures |KeysFor(Errands(batch), e.to)| == AtMost(|KeysFor(Errands(queue), e.to)|, DATA_REDISTRIBUTE_THRESHOLD)
    {
      KeysForIs(queue, e.to);
      KeysForIs(batch, e.to);
    }
    forall e ensures e in Errands(queue - finished) <==> e in Leftover(Errands(queue), Errands(batch)) {
      KeysForIs(queue, e.to);
      KeysForIs(batch, e.to);
    }
    NothingQueued(queue);
    NothingQueued(queue - finished);
    if queue - finished == map[] {
      forall t | t in queue ensures |queue[t]| <= DATA_REDISTRIBUTE_THRESHOLD {
        assert t !in queue - finished;
      }
    }
  }

  lemma NothingQueued(queue: KeysByAddress)
    requires NoEmpty(queue)
    ensures Errands(queue) == {} <==> queue == map[]
  {
    forall t | t in queue ensures exists e :: e in Errands(queue) {
      var k :| k in queue[t];
      assert Errand(t, k) in Errands(queue);
    }
    if queue != map[] {
      assert exists t :: t in queue;
    }
  }

  lemma DropNone(s: Server)
    ensures DropAll(s, {}) == s
  {
    assert s.store - {} == s.store && s.stored - {} == s.stored;
  }

  lemma DropStep(s: Server, done: set<Key>, key: Key)
    requires done + {key} <= s.stored.Keys && key !in done
    ensures var now := DropAll(s, done);
            && key in now.stored && now.stored[key] == s.stored[key]
            && DropAll(s, done + {key})
               == now.(store := now.store - {Slot(now.stored[key], key)}, stored := now.stored - {key})
  {
    var was := set k | k in done :: Slot(s.stored[k], k);
    var now := set k | k in done + {key} :: Slot(s.stored[k], k);
    assert now == was + {Slot(s.stored[key], key)};
    assert s.store - now == s.store - was - {Slot(s.stored[key], key)};
    assert s.stored - (done + {key}) == s.stored - done - {key};
  }
}
