/** No request is lost: what a thread received with a response address is what it answered and what it still holds. */
module Conservation {
  import opened Types
  import opened Metadata
  import opened Values
  import opened Server
  import opened Movement
  import opened ServerRuns
  import Membership

  /** One tuple of one request. */
  datatype Ticket = Ticket(header: Header, key: Key)

  function Received(step: Step, t: Ticket): (n: nat) {
    if step.Request? && Ticket(step.header, step.tuple.key) == t then 1 else 0
  }

  function Answered(replies: seq<Reply>, t: Ticket): (n: nat) {
    if replies == [] then 0
    else
      var last := replies[|replies| - 1];
      Answered(replies[..|replies| - 1], t) + if Ticket(last.header, last.answer.key) == t then 1 else 0
  }

  function Count(ps: seq<PendingRequest>, header: Header): (n: nat) {
    if ps == [] then 0
    else Count(ps[..|ps| - 1], header) + if ps[|ps| - 1].header == header then 1 else 0
  }

  function Held(requests: map<Key, seq<PendingRequest>>, t: Ticket): (n: nat) {
    if t.key in requests then Count(requests[t.key], t.header) else 0
  }

  lemma {:induction false} AnsweredAppend(a: seq<Reply>, b: seq<Reply>, t: Ticket)
    ensures Answered(a + b, t) == Answered(a, t) + Answered(b, t)
  {
    if b == [] {
      assert a + b == a;
    } else {
      AnsweredAppend(a, b[..|b| - 1], t);
      assert (a + b)[..|a + b| - 1] == a + b[..|b| - 1];
    }
  }

  lemma AnsweredOne(header: Header, answer: Answer, t: Ticket)
    requires t.header.address != ""
    ensures Answered(ReplyTo(header, answer), t) == if Ticket(header, answer.key) == t then 1 else 0
  {
    var replies := ReplyTo(header, answer);
    if replies != [] {
      assert replies[..|replies| - 1] == [];
    }
  }

  lemma PendHolds(s: Server, key: Key, p: PendingRequest, t: Ticket)
    ensures Held(Pend(s, key, p).requests, t)
         == Held(s.requests, t) + if Ticket(p.header, key) == t then 1 else 0
  {
    var was := if key in s.requests then s.requests[key] else [];
    var now := was + [p];
    assert Pend(s, key, p).requests == s.requests[key := now];
    assert now[..|now| - 1] == was && now[|now| - 1] == p;
    assert Count(now, t.header) == Count(was, t.header) + if p.header == t.header then 1 else 0;
    assert Held(s.requests[key := now], t) == if t.key == key then Count(now, t.header) else Held(s.requests, t);
    assert t.key == key ==> Held(s.requests, t) == Count(was, t.header);
    assert Ticket(p.header, key) == t <==> p.header == t.header && key == t.key;
  }

  lemma ServeLeaves(s: Server, header: Header, key: Key, kind: LatticeType, payload: Value, invalidate: bool)
    ensures Serve(s, header, key, kind, payload, invalidate).0.requests == s.requests
    ensures Serve(s, header, key, kind, payload, invalidate).0.gossip == s.gossip
  {
  }

  lemma AbsorbLeaves(s: Server, key: Key, value: Value)
    ensures Absorb(s, key, value).requests == s.requests && Absorb(s, key, value).gossip == s.gossip
  {
  }

  lemma RequestConserves(self: ServerThread, s: Server, header: Header, tuple: KeyTuple,
                         who: Option<seq<ServerThread>>, t: Ticket)
    requires t.header.address != ""
    ensures var r := RequestAs(self, s, header, tuple, who);
            Held(s.requests, t) + Received(Request(header, tuple), t)
            == Answered(r.replies, t) + Held(r.server.requests, t)
  {
    if who.Some? && (self in who.value || IsMetadata(tuple.key)) {
      if self in who.value {
        var invalidate := tuple.cacheSize > 0 && tuple.cacheSize != |who.value|;
        var (s', answer) := Serve(s, header, tuple.key, tuple.kind, tuple.payload, invalidate);
        ServeLeaves(s, header, tuple.key, tuple.kind, tuple.payload, invalidate);
        AnsweredOne(header, answer, t);
      } else {
        AnsweredOne(header, Answer(tuple.key, tuple.kind, None, WRONG_THREAD, false), t);
      }
    } else {
      PendHolds(s, tuple.key, PendingRequest(header, tuple.kind, tuple.payload), t);
    }
  }

  lemma SettleAnswers(s: Server, key: Key, p: PendingRequest, responsible: bool, t: Ticket)
    requires t.header.address != ""
    ensures Answered(Settle(s, key, p, responsible).replies, t) == if Ticket(p.header, key) == t then 1 else 0
  {
    if !responsible {
      AnsweredOne(p.header, Answer(key, NONE, None, WRONG_THREAD, false), t);
    } else if p.header.address != "" {
      var header := if p.header.kind == GET then p.header else p.header.(kind := PUT);
      AnsweredOne(p.header, Serve(s, header, key, p.kind, p.payload, false).1, t);
    }
  }

  /** Settling the requests pending for a key answers each of them once. */
  lemma {:induction false} SettleAllAnswers(s: Server, key: Key, ps: seq<PendingRequest>, responsible: bool, t: Ticket)
    requires t.header.address != ""
    ensures Answered(SettleAll(s, key, ps, responsible).replies, t) == if t.key == key then Count(ps, t.header) else 0
  {
    if ps != [] {
      var before := SettleAll(s, key, ps[..|ps| - 1], responsible);
      var last := Settle(before.server, key, ps[|ps| - 1], responsible);
      SettleAllAnswers(s, key, ps[..|ps| - 1], responsible, t);
      SettleAnswers(before.server, key, ps[|ps| - 1], responsible, t);
      AnsweredAppend(before.replies, last.replies, t);
    }
  }

  /** A reply that teaches nothing about a plain key of unknown factor. */
  predicate TeachesNothing(s: Server, key: Key, reply: FactorReply) {
    reply.Found? && reply.rep == NO_FACTORS && key !in s.reps && !IsMetadata(key)
  }

  lemma DrainConserves(self: ServerThread, s: Server, key: Key, who: Option<seq<ServerThread>>, t: Ticket)
    requires t.header.address != ""
    requires Inv(s) && Fits(s, key, who)
    ensures var r := Drain(self, s, key, who);
            Answered(r.replies, t) + Held(r.server.requests, t)
            == if who.None? && t.key == key then 0 else Held(s.requests, t)
  {
    DrainKeeps(self, s, key, who);
    if who.Some? && key in s.requests {
      SettleAllAnswers(s, key, s.requests[key], self in who.value, t);
    }
  }

  /** Requests with a response address that a step forgets without answering. */
  function Lost(s: Server, step: Step, t: Ticket): (n: nat) {
    if step.FactorIn? && step.key == t.key && TeachesNothing(s, step.key, step.reply) then Held(s.requests, t) else 0
  }

  lemma FactorConserves(env: Env, s: Server, key: Key, reply: FactorReply, t: Ticket)
    requires Inv(s) && t.header.address != ""
    ensures var r := OnFactor(env, s, key, reply);
            Held(s.requests, t)
            == Answered(r.replies, t) + Held(r.server.requests, t) + Lost(s, FactorIn(key, reply), t)
  {
    if reply.Found? || reply.NotFound? {
      var s' := Taught(env, s, key, reply);
      var who := Who(env, s', key, [env.tier]);
      TaughtKnows(env, s, key, reply);
      OnFactorIs(env, s, key, reply, s', who);
      DrainConserves(env.self, s', key, who, t);
    }
  }

  /** Nothing answered, nothing pending changed. */
  predicate Idle(s: Server, r: Outcome) {
    r.replies == [] && r.server.requests == s.requests && r.server.gossip == s.gossip
  }

  lemma ChangeLeaves(env: Env, s: Server, updates: seq<Update>)
    ensures Idle(s, OnChange(env, s, updates))
  {
  }

  lemma JoinLeaves(env: Env, s: Server, join: Membership.Join)
    ensures Idle(s, OnJoin(env, s, join))
  {
    JoinData(env, s, join, OnJoin(env, s, join).server);
  }

  lemma RedistributeLeaves(s: Server, batch: set<Errand>)
    requires Enabled(s, Redistribute(batch))
    ensures Idle(s, OnRedistribute(s, batch))
  {
  }

  /** The steps that are no message about a key. */
  lemma OthersLeave(env: Env, s: Server, step: Step)
    requires Enabled(s, step) && !step.Request? && !step.GossipIn? && !step.FactorIn?
    ensures Idle(s, Apply(env, s, step))
  {
    match step
    case Change(updates) => ChangeLeaves(env, s, updates);
    case JoinIn(join) => JoinLeaves(env, s, join);
    case Redistribute(batch) => RedistributeLeaves(s, batch);
    case _ =>
  }

  /**
   * Every step accounts for every request with a response address; the only one that loses any is a lookup answered
   * with no factors at all for a plain key whose factor is unknown, and it loses all that were pending for that key.
   */
  lemma StepConserves(env: Env, s: Server, step: Step, t: Ticket)
    requires Enabled(s, step) && Inv(s) && t.header.address != ""
    ensures var r := Apply(env, s, step);
            Held(s.requests, t) + Received(step, t)
            == Answered(r.replies, t) + Held(r.server.requests, t) + Lost(s, step, t)
  {
    match step
    case Request(header, tuple) =>
      RequestConserves(env.self, s, header, tuple, Who(env, s, tuple.key, [env.tier]), t);
    case GossipIn(key, value) => GossipLeaves(env.self, s, key, value, Who(env, s, key, [env.tier]));
    case FactorIn(key, reply) => FactorConserves(env, s, key, reply, t);
    case _ => OthersLeave(env, s, step);
  }

  lemma GossipLeaves(self: ServerThread, s: Server, key: Key, value: Value, who: Option<seq<ServerThread>>)
    ensures var r := GossipAs(self, s, key, value, who); r.replies == [] && r.server.requests == s.requests
  {
    AbsorbLeaves(s, key, value);
  }

  /** After a usable reply the factor is known unless the reply taught nothing. */
  lemma TaughtKnows(env: Env, s: Server, key: Key, reply: FactorReply)
    requires reply.Found? || reply.NotFound?
    ensures TeachesNothing(s, key, reply) <==> !IsMetadata(key) && key !in Taught(env, s, key, reply).reps
    ensures Inv(s) ==> Inv(Taught(env, s, key, reply))
  {
    assert Memory in DefaultFactors(env.defaults).global;
  }

  // ---- whole runs -------------------------------------------------------------------------------

  function TotalReceived(steps: seq<Step>, t: Ticket): (n: nat) {
    if steps == [] then 0
    else TotalReceived(steps[..|steps| - 1], t) + Received(steps[|steps| - 1], t)
  }

  /** What was answered in the first `n` steps. */
  ghost function TotalAnswered(env: Env, states: seq<Server>, steps: seq<Step>, n: nat, t: Ticket): (r: nat)
    requires IsRun(env, states, steps) && n <= |steps|
  {
    if n == 0 then 0
    else TotalAnswered(env, states, steps, n - 1, t) + Answered(Apply(env, states[n - 1], steps[n - 1]).replies, t)
  }

  /** No lookup comes back empty for a plain key of unknown factor. */
  ghost predicate TeachesAlways(states: seq<Server>, steps: seq<Step>)
    requires |states| > |steps|
  {
    forall i :: 0 <= i < |steps| && steps[i].FactorIn? ==> !TeachesNothing(states[i], steps[i].key, steps[i].reply)
  }

  /** Over any run every received tuple with a response address is either answered or pending, each exactly once. */
  lemma {:induction false} RequestsConserved(env: Env, states: seq<Server>, steps: seq<Step>, t: Ticket)
    requires IsRun(env, states, steps) && Init(states[0]) && TeachesAlways(states, steps)
    requires t.header.address != ""
    ensures TotalReceived(steps, t)
         == TotalAnswered(env, states, steps, |steps|, t) + Held(states[|steps|].requests, t)
  {
    RunKeepsInv(env, states, steps);
    var n := 0;
    while n < |steps|
      invariant n <= |steps|
      invariant TotalReceived(steps[..n], t) == TotalAnswered(env, states, steps, n, t) + Held(states[n].requests, t)
    {
      StepConserves(env, states[n], steps[n], t);
      assert steps[..n + 1][..n] == steps[..n];
      n := n + 1;
    }
    assert steps[..|steps|] == steps;
  }

  // ---- something pending is being waited for ----------------------------------------------------

  /** Every key with something pending has a lookup under way. */
  ghost predicate Awaited(s: Server, bag: multiset<Output>) {
    forall k :: k in s.requests || k in s.gossip ==> Lookup(k) in bag
  }

  /** The messages under way after a step: a factor reply uses up one lookup of its key. */
  function BagAfter(bag: multiset<Output>, step: Step, out: multiset<Output>): (r: multiset<Output>) {
    (if step.FactorIn? then bag - multiset{Lookup(step.key)} else bag) + out
  }

  /** A failed lookup was the last one under way for a key with something pending. */
  predicate Strands(s: Server, bag: multiset<Output>, step: Step) {
    && step.FactorIn? && step.reply.Failed?
    && bag[Lookup(step.key)] == 1
    && (step.key in s.requests || step.key in s.gossip)
  }

  lemma RequestAwaits(self: ServerThread, s: Server, header: Header, tuple: KeyTuple, who: Option<seq<ServerThread>>,
                      bag: multiset<Output>)
    requires Awaited(s, bag)
    ensures var r := RequestAs(self, s, header, tuple, who); Awaited(r.server, bag + r.out)
  {
    if who.Some? && self in who.value {
      ServeLeaves(s, header, tuple.key, tuple.kind, tuple.payload,
                    tuple.cacheSize > 0 && tuple.cacheSize != |who.value|);
    }
  }

  lemma GossipAwaits(self: ServerThread, s: Server, key: Key, value: Value, who: Option<seq<ServerThread>>,
                     bag: multiset<Output>)
    requires Awaited(s, bag)
    ensures var r := GossipAs(self, s, key, value, who); Awaited(r.server, bag + r.out)
  {
    AbsorbLeaves(s, key, value);
    var r := GossipAs(self, s, key, value, who);
    forall k | k in r.server.requests || k in r.server.gossip ensures Lookup(k) in bag + r.out {
      assert k in s.requests || k in s.gossip || Lookup(k) in r.out;
    }
  }

  /** Only what is still pending for other keys is left to wait for. */
  lemma DrainAwaits(self: ServerThread, s: Server, key: Key, who: Option<seq<ServerThread>>, bag: multiset<Output>)
    requires Inv(s) && Fits(s, key, who) && Awaited(s, bag)
    ensures var r := Drain(self, s, key, who); Awaited(r.server, bag - multiset{Lookup(key)} + r.out)
  {
    DrainKeeps(self, s, key, who);
  }

  lemma FactorAwaits(env: Env, s: Server, key: Key, reply: FactorReply, bag: multiset<Output>)
    requires Inv(s) && Awaited(s, bag) && !reply.Failed?
    ensures var r := OnFactor(env, s, key, reply); Awaited(r.server, bag - multiset{Lookup(key)} + r.out)
  {
    if reply.Found? || reply.NotFound? {
      var s' := Taught(env, s, key, reply);
      var who := Who(env, s', key, [env.tier]);
      TaughtKnows(env, s, key, reply);
      OnFactorIs(env, s, key, reply, s', who);
      DrainAwaits(env.self, s', key, who, bag);
    }
  }

  lemma FailedAwaits(env: Env, s: Server, key: Key, reply: FactorReply, bag: multiset<Output>)
    requires Awaited(s, bag) && reply.Failed? && Lookup(key) in bag
    ensures var r := OnFactor(env, s, key, reply);
            Awaited(r.server, bag - multiset{Lookup(key)} + r.out) <==> !Strands(s, bag, FactorIn(key, reply))
  {
    assert bag - multiset{Lookup(key)} + NO_OUTPUT == bag - multiset{Lookup(key)};
  }

  lemma LeavesAwaits(s: Server, bag: multiset<Output>, r: Outcome)
    requires Awaited(s, bag) && Idle(s, r)
    ensures Awaited(r.server, bag + r.out)
  {
  }

  /** Exactly one kind of step leaves a pending key with nobody to wait for: the failure of its last lookup. */
  lemma StepAwaits(env: Env, s: Server, bag: multiset<Output>, step: Step)
    requires Enabled(s, step) && Inv(s) && Awaited(s, bag)
    requires step.FactorIn? ==> Lookup(step.key) in bag
    ensures var r := Apply(env, s, step);
            Awaited(r.server, BagAfter(bag, step, r.out)) <==> !Strands(s, bag, step)
  {
    match step
    case Request(header, tuple) =>
      RequestAwaits(env.self, s, header, tuple, Who(env, s, tuple.key, [env.tier]), bag);
    case GossipIn(key, value) => GossipAwaits(env.self, s, key, value, Who(env, s, key, [env.tier]), bag);
    case FactorIn(key, reply) =>
      if reply.Failed? {
        FailedAwaits(env, s, key, reply, bag);
      } else {
        FactorAwaits(env, s, key, reply, bag);
      }
    case _ =>
      OthersLeave(env, s, step);
      LeavesAwaits(s, bag, Apply(env, s, step));
  }

  /** The messages under way along a run. */
  ghost predicate Tracks(env: Env, states: seq<Server>, steps: seq<Step>, bags: seq<multiset<Output>>)
    requires IsRun(env, states, steps)
  {
    && |bags| == |states|
    && forall i :: 0 <= i < |steps| ==>
         && (steps[i].FactorIn? ==> Lookup(steps[i].key) in bags[i])
         && bags[i + 1] == BagAfter(bags[i], steps[i], Apply(env, states[i], steps[i]).out)
  }

  /** In any run without failed lookups a key with pending requests or gossip always has a lookup under way. */
  lemma {:induction false} PendingAwaited(env: Env, states: seq<Server>, steps: seq<Step>, bags: seq<multiset<Output>>)
    requires IsRun(env, states, steps) && Init(states[0]) && Tracks(env, states, steps, bags)
    requires forall i :: 0 <= i < |steps| && steps[i].FactorIn? ==> !steps[i].reply.Failed?
    ensures forall i :: 0 <= i < |states| ==> Awaited(states[i], bags[i])
  {
    RunKeepsInv(env, states, steps);
    var n := 0;
    while n < |steps|
      invariant n <= |steps|
      invariant forall i :: 0 <= i <= n ==> Awaited(states[i], bags[i])
    {
      StepAwaits(env, states[n], bags[n], steps[n]);
      n := n + 1;
    }
  }

  // ---- gossip for others is passed on ----------------------------------------------------------------

  lemma {:induction false} ToAllReaches(threads: seq<ServerThread>, key: Key, value: Value, o: Output)
    ensures o in ToAll(threads, key, value) <==> o.Gossip? && o.key == key && o.value == value && o.to in threads
  {
    if threads != [] {
      var front, last := threads[..|threads| - 1], threads[|threads| - 1];
      ToAllReaches(front, key, value, o);
      assert forall t :: t in threads <==> t in front || t == last;
      assert o == Gossip(last, key, value) || o !in multiset{Gossip(last, key, value)};
    }
  }

  lemma {:induction false} ForwardAllReaches(threads: seq<ServerThread>, key: Key, values: seq<Value>, o: Output)
    ensures o in ForwardAll(threads, key, values) <==> o.Gossip? && o.key == key && o.value in values && o.to in threads
  {
    if values != [] {
      var front, last := values[..|values| - 1], values[|values| - 1];
      ForwardAllReaches(threads, key, front, o);
      ToAllReaches(threads, key, last, o);
      assert forall v :: v in values <==> v in front || v == last;
    }
  }

  /** Gossip about a metadata key that is not this thread's goes to exactly the threads responsible for it. */
  lemma MetadataGossipForwarded(env: Env, s: Server, key: Key, value: Value, o: Output)
    requires IsMetadata(key)
    requires var who := Who(env, s, key, [env.tier]); who.Some? && env.self !in who.value
    ensures OnGossip(env, s, key, value).server == s
    ensures o in OnGossip(env, s, key, value).out
       <==> o.Gossip? && o.key == key && o.value == value && o.to in Who(env, s, key, [env.tier]).value
  {
    ToAllReaches(Who(env, s, key, [env.tier]).value, key, value, o);
  }

  lemma DrainForwards(self: ServerThread, s: Server, key: Key, who: Option<seq<ServerThread>>, o: Output)
    requires Inv(s) && Fits(s, key, who) && who.Some? && self !in who.value && key in s.gossip
    ensures o in Drain(self, s, key, who).out
       <==> o.Gossip? && o.key == key && o.value in s.gossip[key] && o.to in who.value
  {
    DrainRequestsKeeps(self, s, key, who);
    var s1 := DrainRequests(self, s, key, who);
    RequestsSendNothing(self, s, key, who);
    ForwardAllReaches(who.value, key, s.gossip[key], o);
    assert o in s1.out + ForwardAll(who.value, key, s.gossip[key]) <==> o in ForwardAll(who.value, key, s.gossip[key]);
  }

  lemma RequestsSendNothing(self: ServerThread, s: Server, key: Key, who: Option<seq<ServerThread>>)
    requires who.Some?
    ensures DrainRequests(self, s, key, who).out == NO_OUTPUT
  {
    if key in s.requests { SettleAllSilent(s, key, s.requests[key], self in who.value); }
  }

  /**
   * When a reply shows that gossip kept back is not this thread's, exactly the values kept back go to exactly the
   * responsible threads of the tier, and nothing else is sent.
   */
  lemma KeptGossipForwarded(env: Env, s: Server, key: Key, reply: FactorReply, o: Output)
    requires Inv(s) && (reply.Found? || reply.NotFound?) && key in s.gossip
    requires var who := Who(env, Taught(env, s, key, reply), key, [env.tier]); who.Some? && env.self !in who.value
    ensures o in OnFactor(env, s, key, reply).out
       <==> && o.Gossip? && o.key == key && o.value in s.gossip[key]
            && o.to in Who(env, Taught(env, s, key, reply), key, [env.tier]).value
  {
    var s' := Taught(env, s, key, reply);
    TaughtKnows(env, s, key, reply);
    DrainForwards(env.self, s', key, Who(env, s', key, [env.tier]), o);
  }

  // ---- gossip kept back -------------------------------------------------------------------------

  /** What becomes of the gossip kept back for a key when a usable reply about it arrives. */
  ghost predicate KeptServed(env: Env, s: Server, key: Key, reply: FactorReply, r: Outcome)
    requires (reply.Found? || reply.NotFound?) && key in s.gossip
  {
    var taught := Taught(env, s, key, reply);
    var who := Who(env, taught, key, [env.tier]);
    && key !in r.server.gossip
    && if who.None? then
         r.server.store == s.store && r.server.stored == s.stored && forall o :: o in r.out ==> o.Lookup?
       else if env.self in who.value then
         var settled := DrainRequests(env.self, taught, key, who).server;
         && r.server.store == AbsorbAll(settled, key, s.gossip[key]).store
         && r.server.stored == AbsorbAll(settled, key, s.gossip[key]).stored
       else
         forall o :: o in r.out <==> o.Gossip? && o.key == key && o.value in s.gossip[key] && o.to in who.value
  }

  lemma RequestsLeaveGossip(self: ServerThread, s: Server, key: Key, who: Option<seq<ServerThread>>)
    ensures DrainRequests(self, s, key, who).server.gossip == s.gossip
    ensures who.None? ==>
              var r := DrainRequests(self, s, key, who);
              r.server.store == s.store && r.server.stored == s.stored && forall o :: o in r.out ==> o.Lookup?
  {
    if key in s.requests && who.Some? { SettleAllSilent(s, key, s.requests[key], self in who.value); }
  }

  /** What is left of a thread once the gossip kept back for `key` is dealt with. */
  ghost predicate KeptDrained(self: ServerThread, s: Server, key: Key, who: Option<seq<ServerThread>>, r: Outcome)
    requires key in s.gossip
  {
    && r.server.gossip == s.gossip - {key}
    && (who.None? ==> r.server.store == s.store && r.server.stored == s.stored && forall o :: o in r.out ==> o.Lookup?)
    && (who.Some? && self in who.value ==>
          && r.server.store == AbsorbAll(s, key, s.gossip[key]).store
          && r.server.stored == AbsorbAll(s, key, s.gossip[key]).stored)
  }

  lemma GossipDrained(self: ServerThread, s: Server, key: Key, who: Option<seq<ServerThread>>)
    requires key in s.gossip
    ensures KeptDrained(self, s, key, who, DrainGossip(self, s, key, who))
  {
  }

  lemma ReplyServesKept(env: Env, s: Server, key: Key, reply: FactorReply)
    requires Inv(s) && (reply.Found? || reply.NotFound?) && key in s.gossip
    ensures KeptServed(env, s, key, reply, OnFactor(env, s, key, reply))
  {
    var s' := Taught(env, s, key, reply);
    var who := Who(env, s', key, [env.tier]);
    OnFactorIs(env, s, key, reply, s', who);
    RequestsLeaveGossip(env.self, s', key, who);
    GossipDrained(env.self, DrainRequests(env.self, s', key, who).server, key, who);
    if who.Some? && env.self !in who.value {
      forall o ensures o in OnFactor(env, s, key, reply).out
                  <==> o.Gossip? && o.key == key && o.value in s.gossip[key] && o.to in who.value
      {
        KeptGossipForwarded(env, s, key, reply, o);
      }
    }
  }

  /** The step answers the lookup for `key` with something usable. */
  predicate Resolves(step: Step, key: Key) {
    step.FactorIn? && step.key == key && (step.reply.Found? || step.reply.NotFound?)
  }

  /**
   * Gossip kept back stays until a usable reply about its key. The reply then merges all of it, in order, at a
   * responsible thread, and passes all of it on to the responsible threads from another; it loses all of it, without
   * merging or passing on anything, exactly when the reply teaches nothing about a plain key of unknown factor.
   */
  lemma KeptGossipExactly(env: Env, s: Server, step: Step, key: Key)
    requires Enabled(s, step) && Inv(s) && key in s.gossip
    ensures var r := Apply(env, s, step);
            if Resolves(step, key) then
              && KeptServed(env, s, key, step.reply, r)
              && (Who(env, Taught(env, s, key, step.reply), key, [env.tier]).None?
                  <==> TeachesNothing(s, key, step.reply))
            else key in r.server.gossip && s.gossip[key] <= r.server.gossip[key]
  {
    if Resolves(step, key) {
      TaughtKnows(env, s, key, step.reply);
      ReplyServesKept(env, s, key, step.reply);
    } else {
      KeptStays(env, s, step, key);
    }
  }

  lemma KeptStays(env: Env, s: Server, step: Step, key: Key)
    requires Enabled(s, step) && Inv(s) && key in s.gossip && !Resolves(step, key)
    ensures var s' := Apply(env, s, step).server; key in s'.gossip && s.gossip[key] <= s'.gossip[key]
  {
    match step
    case Request(header, tuple) => RequestLeavesGossip(env.self, s, header, tuple, Who(env, s, tuple.key, [env.tier]));
    case GossipIn(k, value) => GossipKeepsKept(env.self, s, k, value, Who(env, s, k, [env.tier]), key);
    case FactorIn(k, reply) => FactorKeepsKept(env, s, k, reply, key);
    case _ => OthersLeave(env, s, step);
  }

  lemma RequestLeavesGossip(self: ServerThread, s: Server, header: Header, tuple: KeyTuple,
                            who: Option<seq<ServerThread>>)
    ensures RequestAs(self, s, header, tuple, who).server.gossip == s.gossip
  {
    if who.Some? {
      ServeLeaves(s, header, tuple.key, tuple.kind, tuple.payload,
                  tuple.cacheSize > 0 && tuple.cacheSize != |who.value|);
    }
  }

  lemma GossipKeepsKept(self: ServerThread, s: Server, k: Key, value: Value, who: Option<seq<ServerThread>>, key: Key)
    requires key in s.gossip
    ensures var s' := GossipAs(self, s, k, value, who).server; key in s'.gossip && s.gossip[key] <= s'.gossip[key]
  {
    AbsorbLeaves(s, k, value);
  }

  lemma DrainKeepsKept(self: ServerThread, s: Server, k: Key, who: Option<seq<ServerThread>>, key: Key)
    requires Inv(s) && Fits(s, k, who) && key in s.gossip && k != key
    ensures var s' := Drain(self, s, k, who).server; key in s'.gossip && s'.gossip[key] == s.gossip[key]
  {
    DrainKeeps(self, s, k, who);
  }

  lemma FactorKeepsKept(env: Env, s: Server, k: Key, reply: FactorReply, key: Key)
    requires Inv(s) && key in s.gossip && !(k == key && (reply.Found? || reply.NotFound?))
    ensures var s' := OnFactor(env, s, k, reply).server; key in s'.gossip && s.gossip[key] <= s'.gossip[key]
  {
    if reply.Found? || reply.NotFound? {
      var s' := Taught(env, s, k, reply);
      var who := Who(env, s', k, [env.tier]);
      TaughtKnows(env, s, k, reply);
      OnFactorIs(env, s, k, reply, s', who);
      DrainKeepsKept(env.self, s', k, who, key);
    }
  }
}
