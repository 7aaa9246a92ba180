/** What a thread answers, at once or when a key's factor has become known, and in which order. */
module Answers {
  import opened Types
  import opened Metadata
  import opened Values
  import opened Server
  import opened ServerRuns
  import opened Conservation

  // ---- what becomes of a value -----------------------------------------------------------------

  /** A write of this type is taken: it declares one, and it is that of the value there is. */
  predicate Takes(was: Option<Value>, kind: LatticeType) {
    kind != NONE && (was.Some? ==> TypeOf(was.value) == kind)
  }

  /** The value after a write. */
  function After(was: Option<Value>, kind: LatticeType, payload: Value): (r: Option<Value>) {
    if Takes(was, kind) then Some(Combine(if was.Some? then was.value else Bottom(kind), payload)) else was
  }

  /** A pending request that writes: a PUT, or anything but a GET that asks for an answer. */
  predicate Writes(p: PendingRequest) {
    p.header.kind == PUT || (p.header.kind != GET && p.header.address != "")
  }

  /** The value after the pending requests, first to last. */
  function AfterRequests(was: Option<Value>, ps: seq<PendingRequest>): (r: Option<Value>) {
    if ps == [] then was
    else
      var before, p := AfterRequests(was, ps[..|ps| - 1]), ps[|ps| - 1];
      if Writes(p) then After(before, p.kind, p.payload) else before
  }

  /** The value after the pending gossip, first to last. */
  function AfterGossip(was: Option<Value>, values: seq<Value>): (r: Option<Value>) {
    if values == [] then was
    else
      var before, v := AfterGossip(was, values[..|values| - 1]), values[|values| - 1];
      After(before, TypeOf(v), v)
  }

  /** How many of the requests ask for an answer. */
  function Asking(ps: seq<PendingRequest>): (r: nat) {
    if ps == [] then 0 else Asking(ps[..|ps| - 1]) + if ps[|ps| - 1].header.address != "" then 1 else 0
  }

  lemma TakesIsAccepts(s: Server, key: Key, kind: LatticeType)
    requires Exactly(s.stored, s.store)
    ensures Val(s, key).Some? <==> key in s.stored
    ensures key in s.stored ==> s.stored[key] == TypeOf(Val(s, key).value) && s.stored[key] != NONE
    ensures Accepts(s, key, kind) <==> Takes(Val(s, key), kind)
  {
  }

  /** The value a write is merged into is the one held, and nothing when the key is new. */
  lemma PutOnto(s: Server, key: Key, kind: LatticeType)
    requires Exactly(s.stored, s.store) && Accepts(s, key, kind)
    ensures Slot(kind, key) in s.store <==> Val(s, key).Some?
    ensures Val(s, key).Some? ==> s.store[Slot(kind, key)] == Val(s, key).value
  {
    TakesIsAccepts(s, key, kind);
  }

  lemma PutAfter(s: Server, key: Key, kind: LatticeType, payload: Value)
    requires Exactly(s.stored, s.store) && Accepts(s, key, kind)
    ensures Val(Put(s, key, kind, payload), key) == After(Val(s, key), kind, payload)
  {
    TakesIsAccepts(s, key, kind);
    PutOnto(s, key, kind);
  }

  /** A write that was taken leaves the key marked as changed. */
  function Marked(s: Server, key: Key, kind: LatticeType, payload: Value): (r: Server)
    requires kind != NONE
  {
    Put(s, key, kind, payload).(changes := s.changes + {key})
  }

  lemma PutTaken(s: Server, key: Key, kind: LatticeType, payload: Value)
    requires Exactly(s.stored, s.store) && Accepts(s, key, kind)
    ensures var s' := Marked(s, key, kind, payload);
            Exactly(s'.stored, s'.store) && Val(s', key) == After(Val(s, key), kind, payload)
  {
    PutAfter(s, key, kind, payload);
    PutExactly(s, key, kind, payload);
  }

  // ---- one request ------------------------------------------------------------------------------

  /** A GET is answered with the value held, and reads as missing when there is none or it is empty. */
  predicate AnswersGet(answer: Answer, held: Option<Value>) {
    && answer.payload == held
    && answer.kind == (if held.Some? then TypeOf(held.value) else NONE)
    && answer.error == (if held.Some? && Readable(held.value) then NO_ERROR else KEY_DNE)
  }

  /** A write is answered with the type it was taken as, and without an error in any case. */
  predicate AnswersWrite(answer: Answer, held: Option<Value>, kind: LatticeType) {
    answer.payload == None && answer.error == NO_ERROR && answer.kind == if Takes(held, kind) then kind else NONE
  }

  lemma GetServed(s: Server, header: Header, key: Key, kind: LatticeType, payload: Value, invalidate: bool)
    requires Exactly(s.stored, s.store) && header.kind == GET
    ensures var (s', answer) := Serve(s, header, key, kind, payload, invalidate);
            s' == s && answer.invalidate == invalidate && AnswersGet(answer, Val(s, key))
  {
  }

  lemma ServePut(s: Server, header: Header, key: Key, kind: LatticeType, payload: Value, invalidate: bool)
    requires header.kind == PUT
    ensures Serve(s, header, key, kind, payload, invalidate)
         == if Accepts(s, key, kind) then (Marked(s, key, kind, payload), Answer(key, kind, None, NO_ERROR, invalidate))
            else (s, Answer(key, NONE, None, NO_ERROR, invalidate))
  {
  }

  lemma PutServed(s: Server, header: Header, key: Key, kind: LatticeType, payload: Value, invalidate: bool)
    requires Exactly(s.stored, s.store) && header.kind == PUT
    ensures var (s', answer) := Serve(s, header, key, kind, payload, invalidate);
            && answer.invalidate == invalidate && AnswersWrite(answer, Val(s, key), kind)
            && Val(s', key) == After(Val(s, key), kind, payload) && Exactly(s'.stored, s'.store)
  {
    var (s', answer) := Serve(s, header, key, kind, payload, invalidate);
    ServePut(s, header, key, kind, payload, invalidate);
    TakesIsAccepts(s, key, kind);
    if Accepts(s, key, kind) {
      var taken := Marked(s, key, kind, payload);
      PutTaken(s, key, kind, payload);
      assert s' == taken;
    } else {
      assert s' == s;
    }
  }

  // ---- one thing after another ------------------------------------------------------------------

  /** One outcome after another. */
  function Then(x: Outcome, y: Outcome): (r: Outcome) {
    Outcome(y.server, x.replies + y.replies, x.out + y.out)
  }

  lemma ThenAssociates(x: Outcome, y: Outcome, z: Outcome)
    ensures Then(Then(x, y), z) == Then(x, Then(y, z))
  {
    assert (x.replies + y.replies) + z.replies == x.replies + (y.replies + z.replies);
  }

  /** `all` handles a list by handling its members first to last. */
  ghost predicate Folds<T(!new)>(all: (Server, seq<T>) -> Outcome, one: (Server, T) -> Outcome) {
    && (forall s :: all(s, []) == Outcome(s, [], NO_OUTPUT))
    && (forall s, xs, x :: all(s, xs + [x]) == Then(all(s, xs), one(all(s, xs).server, x)))
  }

  lemma {:induction false} FoldSplits<T(!new)>(all: (Server, seq<T>) -> Outcome, one: (Server, T) -> Outcome, s: Server,
                                               a: seq<T>, b: seq<T>)
    requires Folds(all, one)
    ensures all(s, a + b) == Then(all(s, a), all(all(s, a).server, b))
  {
    var x := all(s, a);
    if b == [] {
      assert a + b == a;
      assert x.replies + [] == x.replies;
    } else {
      var front, last := b[..|b| - 1], b[|b| - 1];
      assert a + b == (a + front) + [last] && b == front + [last];
      FoldSplits(all, one, s, a, front);
      var y := all(x.server, front);
      ThenAssociates(x, y, one(y.server, last));
    }
  }

  /** With one reply from each that asks, the reply to one of them comes where it does in the list. */
  lemma {:induction false} TurnOf(all: (Server, seq<PendingRequest>) -> Outcome,
                                  one: (Server, PendingRequest) -> Outcome, s: Server, ps: seq<PendingRequest>, i: nat)
    requires Folds(all, one) && i < |ps| && ps[i].header.address != ""
    requires forall s, p :: |one(s, p).replies| == if p.header.address != "" then 1 else 0
    ensures Asking(ps[..i]) < |all(s, ps).replies| == Asking(ps)
    ensures all(s, ps).replies[Asking(ps[..i])] == one(all(s, ps[..i]).server, ps[i]).replies[0]
  {
    var n := |ps| - 1;
    assert ps == ps[..n] + [ps[n]];
    FoldCounts(all, one, s, ps[..n]);
    if i < n {
      assert ps[..n][..i] == ps[..i];
      TurnOf(all, one, s, ps[..n], i);
    }
  }

  lemma {:induction false} FoldCounts(all: (Server, seq<PendingRequest>) -> Outcome,
                                      one: (Server, PendingRequest) -> Outcome, s: Server, ps: seq<PendingRequest>)
    requires Folds(all, one) && forall s, p :: |one(s, p).replies| == if p.header.address != "" then 1 else 0
    ensures |all(s, ps).replies| == Asking(ps)
  {
    if ps != [] {
      var n := |ps| - 1;
      assert ps == ps[..n] + [ps[n]];
      FoldCounts(all, one, s, ps[..n]);
    }
  }

  // ---- the pending requests ---------------------------------------------------------------------

  /** The answer to a pending request at a responsible thread that holds `held` when its turn comes. */
  predicate AnsweredAs(reply: Reply, p: PendingRequest, key: Key, held: Option<Value>) {
    && reply.header == p.header && reply.answer.key == key && !reply.answer.invalidate
    && if p.header.kind == GET then AnswersGet(reply.answer, held) else AnswersWrite(reply.answer, held, p.kind)
  }

  lemma SettleAsked(s: Server, key: Key, p: PendingRequest)
    requires Exactly(s.stored, s.store) && p.header.address != ""
    ensures var r := Settle(s, key, p, true);
            && |r.replies| == 1 && AnsweredAs(r.replies[0], p, key, Val(s, key))
            && Exactly(r.server.stored, r.server.store)
            && Val(r.server, key) == if Writes(p) then After(Val(s, key), p.kind, p.payload) else Val(s, key)
  {
    if p.header.kind == GET {
      GetServed(s, p.header, key, p.kind, p.payload, false);
    } else {
      PutServed(s, p.header.(kind := PUT), key, p.kind, p.payload, false);
    }
  }

  lemma SettleUnasked(s: Server, key: Key, p: PendingRequest)
    requires Exactly(s.stored, s.store) && p.header.address == ""
    ensures var r := Settle(s, key, p, true);
            && r.replies == [] && Exactly(r.server.stored, r.server.store)
            && Val(r.server, key) == if Writes(p) then After(Val(s, key), p.kind, p.payload) else Val(s, key)
  {
    TakesIsAccepts(s, key, p.kind);
    if p.header.kind == PUT && Accepts(s, key, p.kind) {
      PutTaken(s, key, p.kind, p.payload);
    }
  }

  lemma {:induction false} SettledValue(s: Server, key: Key, ps: seq<PendingRequest>)
    requires Exactly(s.stored, s.store)
    ensures var r := SettleAll(s, key, ps, true);
            && Exactly(r.server.stored, r.server.store)
            && Val(r.server, key) == AfterRequests(Val(s, key), ps)
  {
    if ps != [] {
      var front, p := ps[..|ps| - 1], ps[|ps| - 1];
      SettledValue(s, key, front);
      var before := SettleAll(s, key, front, true).server;
      if p.header.address == "" { SettleUnasked(before, key, p); } else { SettleAsked(before, key, p); }
    }
  }

  lemma SettlingFolds(key: Key, responsible: bool)
    ensures Folds((s, ps) => SettleAll(s, key, ps, responsible), (s, p) => Settle(s, key, p, responsible))
  {
    var all := (s, ps) => SettleAll(s, key, ps, responsible);
    var one := (s, p) => Settle(s, key, p, responsible);
    forall s, ps, p ensures all(s, ps + [p]) == Then(all(s, ps), one(all(s, ps).server, p)) {
      assert (ps + [p])[..|ps|] == ps;
    }
  }

  lemma SettleReplies(s: Server, key: Key, p: PendingRequest, responsible: bool)
    ensures |Settle(s, key, p, responsible).replies| == if p.header.address != "" then 1 else 0
  {
  }

  /** The requests are settled in order: each reply is what settling the request gives after the earlier ones. */
  lemma SettledInTurn(s: Server, key: Key, ps: seq<PendingRequest>, responsible: bool, i: nat)
    requires i < |ps| && ps[i].header.address != ""
    ensures var replies := SettleAll(s, key, ps, responsible).replies;
            var at := SettleAll(s, key, ps[..i], responsible).server;
            && Asking(ps[..i]) < |replies| == Asking(ps)
            && Settle(at, key, ps[i], responsible).replies == [replies[Asking(ps[..i])]]
  {
    SettlingFolds(key, responsible);
    forall s, p ensures |Settle(s, key, p, responsible).replies| == if p.header.address != "" then 1 else 0 {
      SettleReplies(s, key, p, responsible);
    }
    TurnOf((s, ps) => SettleAll(s, key, ps, responsible), (s, p) => Settle(s, key, p, responsible), s, ps, i);
  }

  lemma {:induction false} RejectedAll(s: Server, key: Key, ps: seq<PendingRequest>)
    ensures SettleAll(s, key, ps, false).server == s
  {
    if ps != [] {
      RejectedAll(s, key, ps[..|ps| - 1]);
    }
  }

  /** How a thread that is not responsible answers. */
  function Rejection(p: PendingRequest, key: Key): (r: Reply) {
    Reply(p.header, Answer(key, NONE, None, WRONG_THREAD, false))
  }

  /**
   * Request `i` has its answer in the place its turn gives it: from the value the requests before it have left, at a
   * responsible thread, and as a rejection at another.
   */
  predicate InTurn(replies: seq<Reply>, ps: seq<PendingRequest>, i: nat, key: Key, held: Option<Value>,
                   responsible: bool)
    requires i < |ps|
  {
    && Asking(ps[..i]) < |replies|
    && var a := replies[Asking(ps[..i])];
       if responsible then AnsweredAs(a, ps[i], key, AfterRequests(held, ps[..i])) else a == Rejection(ps[i], key)
  }

  lemma SettledAnswers(s: Server, key: Key, ps: seq<PendingRequest>, responsible: bool, i: nat)
    requires Exactly(s.stored, s.store) && i < |ps| && ps[i].header.address != ""
    ensures var replies := SettleAll(s, key, ps, responsible).replies;
            |replies| == Asking(ps) && InTurn(replies, ps, i, key, Val(s, key), responsible)
  {
    SettledInTurn(s, key, ps, responsible, i);
    if responsible {
      SettledValue(s, key, ps[..i]);
      SettleAsked(SettleAll(s, key, ps[..i], true).server, key, ps[i]);
    }
  }

  /** The threads responsible for `key` in this tier once the reply is known. */
  function Newly(env: Env, s: Server, key: Key, reply: FactorReply): (r: Option<seq<ServerThread>>)
    requires reply.Found? || reply.NotFound?
  {
    Who(env, Taught(env, s, key, reply), key, [env.tier])
  }

  function PendingFor(s: Server, key: Key): (r: seq<PendingRequest>) {
    if key in s.requests then s.requests[key] else []
  }

  function KeptFor(s: Server, key: Key): (r: seq<Value>) {
    if key in s.gossip then s.gossip[key] else []
  }

  lemma TaughtHolds(env: Env, s: Server, k: Key, reply: FactorReply, key: Key)
    requires reply.Found? || reply.NotFound?
    ensures var s' := Taught(env, s, k, reply);
            && Val(s', key) == Val(s, key)
            && PendingFor(s', key) == PendingFor(s, key) && KeptFor(s', key) == KeptFor(s, key)
  {
  }

  lemma DrainReplies(self: ServerThread, s: Server, key: Key, who: Option<seq<ServerThread>>)
    ensures Drain(self, s, key, who).replies
         == if key in s.requests && who.Some? then SettleAll(s, key, s.requests[key], self in who.value).replies else []
  {
  }

  /**
   * When a factor has become known, the requests kept for the key that ask for an answer are answered one by one in
   * the order they came: with what this thread holds at that point if it is responsible, and as misdirected if not.
   */
  lemma PendingAnswered(env: Env, s: Server, key: Key, reply: FactorReply, i: nat)
    requires Inv(s) && (reply.Found? || reply.NotFound?) && Newly(env, s, key, reply).Some?
    requires key in s.requests && i < |s.requests[key]| && s.requests[key][i].header.address != ""
    ensures var ps := s.requests[key];
            var replies := OnFactor(env, s, key, reply).replies;
            && |replies| == Asking(ps)
            && InTurn(replies, ps, i, key, Val(s, key), env.self in Newly(env, s, key, reply).value)
  {
    var s', ps := Taught(env, s, key, reply), s.requests[key];
    var who := Newly(env, s, key, reply);
    OnFactorIs(env, s, key, reply, s', who);
    DrainReplies(env.self, s', key, who);
    TaughtHolds(env, s, key, reply, key);
    SettledAnswers(s', key, ps, env.self in who.value, i);
  }

  lemma {:induction false} SettledErrors(s: Server, key: Key, ps: seq<PendingRequest>, responsible: bool)
    ensures forall r :: r in SettleAll(s, key, ps, responsible).replies ==>
              (r.answer.error == WRONG_THREAD <==> !responsible)
  {
    if ps != [] {
      SettledErrors(s, key, ps[..|ps| - 1], responsible);
    }
  }

  /** What comes out of a lookup's reply says "wrong thread" exactly when this thread is not responsible. */
  lemma WrongThreadExactly(env: Env, s: Server, key: Key, reply: FactorReply, r: Reply)
    requires (reply.Found? || reply.NotFound?) && r in OnFactor(env, s, key, reply).replies
    ensures Newly(env, s, key, reply).Some?
    ensures r.answer.error == WRONG_THREAD <==> env.self !in Newly(env, s, key, reply).value
  {
    var s', who := Taught(env, s, key, reply), Newly(env, s, key, reply);
    OnFactorIs(env, s, key, reply, s', who);
    DrainReplies(env.self, s', key, who);
    SettledErrors(s', key, s'.requests[key], env.self in who.value);
  }

  // ---- the value after a drain ------------------------------------------------------------------

  lemma {:induction false} AbsorbedValue(s: Server, key: Key, values: seq<Value>)
    requires Exactly(s.stored, s.store)
    ensures var s' := AbsorbAll(s, key, values);
            Exactly(s'.stored, s'.store) && Val(s', key) == AfterGossip(Val(s, key), values)
  {
    if values != [] {
      var front, v := values[..|values| - 1], values[|values| - 1];
      AbsorbedValue(s, key, front);
      var before := AbsorbAll(s, key, front);
      TakesIsAccepts(before, key, TypeOf(v));
      if Accepts(before, key, TypeOf(v)) {
        PutAfter(before, key, TypeOf(v), v);
        PutExactly(before, key, TypeOf(v), v);
      }
    }
  }

  lemma RequestsDrained(self: ServerThread, s: Server, key: Key, who: Option<seq<ServerThread>>)
    requires Exactly(s.stored, s.store) && who.Some?
    ensures var s' := DrainRequests(self, s, key, who).server;
            && Exactly(s'.stored, s'.store)
            && Val(s', key) == if self in who.value then AfterRequests(Val(s, key), PendingFor(s, key)) else Val(s, key)
  {
    if key in s.requests {
      if self in who.value { SettledValue(s, key, s.requests[key]); } else { RejectedAll(s, key, s.requests[key]); }
    }
  }

  lemma GossipMerged(self: ServerThread, s: Server, key: Key, who: Option<seq<ServerThread>>)
    requires Exactly(s.stored, s.store) && who.Some?
    ensures Val(DrainGossip(self, s, key, who).server, key)
         == if self in who.value then AfterGossip(Val(s, key), KeptFor(s, key)) else Val(s, key)
  {
    if key in s.gossip && self in who.value {
      AbsorbedValue(s, key, s.gossip[key]);
    }
  }

  lemma DrainValue(self: ServerThread, s: Server, key: Key, who: Option<seq<ServerThread>>)
    requires Exactly(s.stored, s.store) && who.Some?
    ensures Val(Drain(self, s, key, who).server, key)
         == if self in who.value
            then AfterGossip(AfterRequests(Val(s, key), PendingFor(s, key)), KeptFor(s, key))
            else Val(s, key)
  {
    var mid := DrainRequests(self, s, key, who).server;
    RequestsDrained(self, s, key, who);
    RequestsLeaveGossip(self, s, key, who);
    GossipMerged(self, mid, key, who);
    assert KeptFor(mid, key) == KeptFor(s, key);
  }

  /** A responsible thread then holds what it held, merged with the pending writes and then the gossip, in order. */
  lemma DrainedValue(env: Env, s: Server, key: Key, reply: FactorReply)
    requires Inv(s) && (reply.Found? || reply.NotFound?) && Newly(env, s, key, reply).Some?
    ensures Val(OnFactor(env, s, key, reply).server, key)
         == if env.self in Newly(env, s, key, reply).value
            then AfterGossip(AfterRequests(Val(s, key), PendingFor(s, key)), KeptFor(s, key))
            else Val(s, key)
  {
    var s', who := Taught(env, s, key, reply), Newly(env, s, key, reply);
    OnFactorIs(env, s, key, reply, s', who);
    DrainValue(env.self, s', key, who);
    TaughtHolds(env, s, key, reply, key);
  }

  // ---- requests as they come in -----------------------------------------------------------------

  /** The request is put behind those already pending for the key, and nothing else happens to the thread. */
  predicate Queued(s: Server, s': Server, key: Key, p: PendingRequest) {
    && PendingFor(s', key) == PendingFor(s, key) + [p]
    && s' == s.(requests := s'.requests)
    && s'.requests - {key} == s.requests - {key}
  }

  /** What becomes of the value held when a request is served. */
  function AfterRequest(was: Option<Value>, header: Header, t: KeyTuple): (r: Option<Value>) {
    if header.kind == PUT then After(was, t.kind, t.payload) else was
  }

  /** A request is answered at once by a responsible thread, from what it holds. */
  ghost predicate Served(s: Server, header: Header, t: KeyTuple, threads: seq<ServerThread>, r: Outcome) {
    && (header.address == "" ==> r.replies == [])
    && (header.address != "" ==>
          && |r.replies| == 1 && r.replies[0].header == header && r.replies[0].answer.key == t.key
          && (r.replies[0].answer.invalidate <==> t.cacheSize > 0 && t.cacheSize != |threads|)
          && match header.kind
             case GET => AnswersGet(r.replies[0].answer, Val(s, t.key))
             case PUT => AnswersWrite(r.replies[0].answer, Val(s, t.key), t.kind)
             case RT_UNSPECIFIED => AnswersWrite(r.replies[0].answer, Val(s, t.key), NONE))
    && Val(r.server, t.key) == AfterRequest(Val(s, t.key), header, t)
    && r.server.changes == s.changes + (if header.kind == PUT && Takes(Val(s, t.key), t.kind) then {t.key} else {})
    && r.server == s.(store := r.server.store, stored := r.server.stored, changes := r.server.changes)
    && (forall k :: k != t.key ==> Val(r.server, k) == Val(s, k))
  }

  /** The new state and the answer of a responsible thread. */
  ghost predicate ServedBy(s: Server, header: Header, t: KeyTuple, invalidate: bool, s': Server, answer: Answer) {
    && answer.key == t.key && answer.invalidate == invalidate
    && (match header.kind
        case GET => AnswersGet(answer, Val(s, t.key))
        case PUT => AnswersWrite(answer, Val(s, t.key), t.kind)
        case RT_UNSPECIFIED => AnswersWrite(answer, Val(s, t.key), NONE))
    && Val(s', t.key) == AfterRequest(Val(s, t.key), header, t)
    && s'.changes == s.changes + (if header.kind == PUT && Takes(Val(s, t.key), t.kind) then {t.key} else {})
    && s' == s.(store := s'.store, stored := s'.stored, changes := s'.changes)
    && (forall k :: k != t.key ==> Val(s', k) == Val(s, k))
  }

  lemma MarkedFrame(s: Server, key: Key, kind: LatticeType, payload: Value)
    requires kind != NONE
    ensures var s' := Marked(s, key, kind, payload);
            && s' == s.(store := s'.store, stored := s'.stored, changes := s.changes + {key})
            && forall k :: k != key ==> Val(s', k) == Val(s, k)
  {
  }

  lemma PutMeets(s: Server, header: Header, t: KeyTuple, invalidate: bool, s': Server, answer: Answer)
    requires Exactly(s.stored, s.store) && header.kind == PUT
    requires s' == if Accepts(s, t.key, t.kind) then Marked(s, t.key, t.kind, t.payload) else s
    requires answer == Answer(t.key, if Accepts(s, t.key, t.kind) then t.kind else NONE, None, NO_ERROR, invalidate)
    ensures ServedBy(s, header, t, invalidate, s', answer)
  {
    TakesIsAccepts(s, t.key, t.kind);
    if Accepts(s, t.key, t.kind) {
      PutTaken(s, t.key, t.kind, t.payload);
      MarkedFrame(s, t.key, t.kind, t.payload);
    }
  }

  lemma ServeMeets(s: Server, header: Header, t: KeyTuple, invalidate: bool)
    requires Exactly(s.stored, s.store)
    ensures var (s', answer) := Serve(s, header, t.key, t.kind, t.payload, invalidate);
            ServedBy(s, header, t, invalidate, s', answer)
  {
    var (s', answer) := Serve(s, header, t.key, t.kind, t.payload, invalidate);
    match header.kind
    case GET => GetServed(s, header, t.key, t.kind, t.payload, invalidate);
    case PUT =>
      ServePut(s, header, t.key, t.kind, t.payload, invalidate);
      PutMeets(s, header, t, invalidate, s', answer);
    case RT_UNSPECIFIED =>
  }

  lemma RequestIs(self: ServerThread, s: Server, header: Header, t: KeyTuple, threads: seq<ServerThread>)
    requires self in threads
    ensures var invalidate := t.cacheSize > 0 && t.cacheSize != |threads|;
            var (s', answer) := Serve(s, header, t.key, t.kind, t.payload, invalidate);
            RequestAs(self, s, header, t, Some(threads)) == Outcome(s', ReplyTo(header, answer), NO_OUTPUT)
  {
  }

  lemma ServedFrom(s: Server, header: Header, t: KeyTuple, threads: seq<ServerThread>, s': Server, answer: Answer)
    requires ServedBy(s, header, t, t.cacheSize > 0 && t.cacheSize != |threads|, s', answer)
    ensures Served(s, header, t, threads, Outcome(s', ReplyTo(header, answer), NO_OUTPUT))
  {
  }

  lemma RequestServed(self: ServerThread, s: Server, header: Header, t: KeyTuple, threads: seq<ServerThread>)
    requires Exactly(s.stored, s.store) && self in threads
    ensures Served(s, header, t, threads, RequestAs(self, s, header, t, Some(threads)))
  {
    var invalidate := t.cacheSize > 0 && t.cacheSize != |threads|;
    var (s', answer) := Serve(s, header, t.key, t.kind, t.payload, invalidate);
    ServeMeets(s, header, t, invalidate);
    RequestIs(self, s, header, t, threads);
    ServedFrom(s, header, t, threads, s', answer);
  }

  /**
   * A request is served where the key belongs; one for metadata is otherwise sent back, and any other is kept until
   * the key's factor has been looked up.
   */
  lemma RequestExactly(env: Env, s: Server, header: Header, t: KeyTuple)
    requires Inv(s)
    ensures var who, r := Who(env, s, t.key, [env.tier]), OnRequest(env, s, header, t);
            if who.Some? && env.self in who.value then
              Served(s, header, t, who.value, r) && r.out == multiset{}
            else if IsMetadata(t.key) then
              && r.server == s && r.out == multiset{}
              && r.replies == if header.address == "" then []
                              else [Reply(header, Answer(t.key, t.kind, None, WRONG_THREAD, false))]
            else
              && Queued(s, r.server, t.key, PendingRequest(header, t.kind, t.payload))
              && r.replies == [] && r.out == multiset{Lookup(t.key)}
  {
    var who := Who(env, s, t.key, [env.tier]);
    if who.Some? && env.self in who.value {
      RequestServed(env.self, s, header, t, who.value);
    }
  }

  lemma RequestsLast(env: Env, s: Server, header: Header, tuples: seq<KeyTuple>, last: KeyTuple)
    ensures var before := OnRequests(env, s, header, tuples);
            OnRequests(env, s, header, tuples + [last]) == Then(before, OnRequest(env, before.server, header, last))
  {
    assert (tuples + [last])[..|tuples|] == tuples;
  }

  lemma RequestsFold(env: Env, header: Header)
    ensures Folds((s, ts) => OnRequests(env, s, header, ts), (s, t) => OnRequest(env, s, header, t))
  {
    var all := (s, ts) => OnRequests(env, s, header, ts);
    var one := (s, t) => OnRequest(env, s, header, t);
    forall s, ts, t ensures all(s, ts + [t]) == Then(all(s, ts), one(all(s, ts).server, t)) {
      RequestsLast(env, s, header, ts, t);
    }
  }

  /** The tuples of a message are handled first to last. */
  lemma RequestsInTurn(env: Env, s: Server, header: Header, a: seq<KeyTuple>, b: seq<KeyTuple>)
    ensures var x := OnRequests(env, s, header, a);
            OnRequests(env, s, header, a + b) == Then(x, OnRequests(env, x.server, header, b))
  {
    RequestsFold(env, header);
    FoldSplits((s, ts) => OnRequests(env, s, header, ts), (s, t) => OnRequest(env, s, header, t), s, a, b);
  }

  // ---- gossip as it comes in --------------------------------------------------------------------

  lemma PutFrame(s: Server, key: Key, kind: LatticeType, payload: Value)
    requires kind != NONE
    ensures var s' := Put(s, key, kind, payload);
            s' == s.(store := s'.store, stored := s'.stored) && forall k :: k != key ==> Val(s', k) == Val(s, k)
  {
  }

  lemma AbsorbIs(s: Server, key: Key, value: Value)
    requires Exactly(s.stored, s.store)
    ensures TypeOf(value) != NONE
    ensures Absorb(s, key, value)
         == if Accepts(s, key, TypeOf(value)) then Put(s, key, TypeOf(value), value) else s
  {
  }

  lemma AbsorbAfter(s: Server, key: Key, value: Value, s': Server)
    requires Exactly(s.stored, s.store) && TypeOf(value) != NONE
    requires s' == if Accepts(s, key, TypeOf(value)) then Put(s, key, TypeOf(value), value) else s
    ensures Val(s', key) == After(Val(s, key), TypeOf(value), value)
    ensures s' == s.(store := s'.store, stored := s'.stored) && forall k :: k != key ==> Val(s', k) == Val(s, k)
  {
    TakesIsAccepts(s, key, TypeOf(value));
    if Accepts(s, key, TypeOf(value)) {
      PutAfter(s, key, TypeOf(value), value);
      PutFrame(s, key, TypeOf(value), value);
    }
  }

  /** The value is put behind those already kept for the key, and nothing else happens to the thread. */
  predicate PutBack(s: Server, s': Server, key: Key, value: Value) {
    && KeptFor(s', key) == KeptFor(s, key) + [value]
    && s' == s.(gossip := s'.gossip)
    && s'.gossip - {key} == s.gossip - {key}
  }

  /**
   * Gossip is merged where the key belongs, without marking it as changed; for metadata it is otherwise sent on to the
   * responsible threads, and for any other key kept until its factor has been looked up.
   */
  lemma GossipExactly(env: Env, s: Server, key: Key, value: Value)
    requires Inv(s)
    ensures var who, r := Who(env, s, key, [env.tier]), OnGossip(env, s, key, value);
            && r.replies == []
            && if who.Some? && env.self in who.value then
                 && Val(r.server, key) == After(Val(s, key), TypeOf(value), value)
                 && r.server == s.(store := r.server.store, stored := r.server.stored)
                 && (forall k :: k != key ==> Val(r.server, k) == Val(s, k)) && r.out == multiset{}
               else if IsMetadata(key) then
                 && r.server == s
                 && forall o :: o in r.out <==> o.Gossip? && o == Gossip(o.to, key, value) && o.to in who.value
               else
                 PutBack(s, r.server, key, value) && r.out == multiset{Lookup(key)}
  {
    var who := Who(env, s, key, [env.tier]);
    if who.Some? && env.self in who.value {
      AbsorbIs(s, key, value);
      AbsorbAfter(s, key, value, Absorb(s, key, value));
    } else if IsMetadata(key) {
      forall o
        ensures o in ToAll(who.value, key, value) <==> o.Gossip? && o == Gossip(o.to, key, value) && o.to in who.value
      {
        ToAllReaches(who.value, key, value, o);
      }
    }
  }

  // ---- turns over a run -------------------------------------------------------------------------

  /** The request has to wait: its key is plain, and not known to belong to this thread. */
  predicate HasToWait(self: ServerThread, key: Key, who: Option<seq<ServerThread>>) {
    if who.None? then true else self !in who.value && !IsMetadata(key)
  }

  lemma RequestTurn(self: ServerThread, s: Server, header: Header, t: KeyTuple, who: Option<seq<ServerThread>>,
                    key: Key)
    ensures PendingFor(RequestAs(self, s, header, t, who).server, key)
         == PendingFor(s, key)
            + if key == t.key && HasToWait(self, key, who) then [PendingRequest(header, t.kind, t.payload)] else []
  {
    if who.Some? {
      ServeLeaves(s, header, t.key, t.kind, t.payload, t.cacheSize > 0 && t.cacheSize != |who.value|);
    }
  }

  lemma DrainKeepsTurn(self: ServerThread, s: Server, k: Key, who: Option<seq<ServerThread>>, key: Key)
    requires Inv(s) && Fits(s, k, who) && k != key
    ensures PendingFor(Drain(self, s, k, who).server, key) == PendingFor(s, key)
  {
    DrainKeeps(self, s, k, who);
  }

  lemma FactorKeepsTurn(env: Env, s: Server, k: Key, reply: FactorReply, key: Key)
    requires Inv(s) && !(k == key && (reply.Found? || reply.NotFound?))
    ensures PendingFor(OnFactor(env, s, k, reply).server, key) == PendingFor(s, key)
  {
    if reply.Found? || reply.NotFound? {
      var s' := Taught(env, s, k, reply);
      var who := Who(env, s', k, [env.tier]);
      TaughtHolds(env, s, k, reply, key);
      TaughtKnows(env, s, k, reply);
      DrainKeepsTurn(env.self, s', k, who, key);
      OnFactorIs(env, s, k, reply, s', who);
    }
  }

  /** Until a usable reply about the key, the requests kept for it stay, in order, and new ones come after them. */
  lemma TurnsKept(env: Env, s: Server, step: Step, key: Key)
    requires Enabled(s, step) && Inv(s) && !Resolves(step, key)
    ensures PendingFor(s, key) <= PendingFor(Apply(env, s, step).server, key)
  {
    match step
    case Request(header, tuple) => 
      RequestTurn(env.self, s, header, tuple, Who(env, s, tuple.key, [env.tier]), key);
    case GossipIn(k, value) => GossipLeaves(env.self, s, k, value, Who(env, s, k, [env.tier]));
    case FactorIn(k, reply) => FactorKeepsTurn(env, s, k, reply, key);
    case _ => OthersLeave(env, s, step);
  }

  lemma TurnsKeptNext(env: Env, states: seq<Server>, steps: seq<Step>, n: nat, key: Key)
    requires IsRun(env, states, steps) && Init(states[0]) && n < |steps| && !Resolves(steps[n], key)
    ensures PendingFor(states[n], key) <= PendingFor(states[n + 1], key)
  {
    RunKeepsInv(env, states, steps);
    TurnsKept(env, states[n], steps[n], key);
  }

  lemma {:induction false} PrefixAlong(turns: nat -> seq<PendingRequest>, a: nat, b: nat)
    requires a <= b && forall n :: a <= n < b ==> turns(n) <= turns(n + 1)
    ensures turns(a) <= turns(b)
  {
    if a < b {
      PrefixAlong(turns, a, b - 1);
    }
  }

  lemma TurnsKeptTo(env: Env, states: seq<Server>, steps: seq<Step>, a: nat, b: nat, key: Key)
    requires IsRun(env, states, steps) && Init(states[0]) && a <= b < |states|
    requires forall k :: a <= k < b ==> !Resolves(steps[k], key)
    ensures PendingFor(states[a], key) <= PendingFor(states[b], key)
  {
    var turns := (n: nat) => if n < |states| then PendingFor(states[n], key) else [];
    forall n | a <= n < b ensures turns(n) <= turns(n + 1) {
      TurnsKeptNext(env, states, steps, n, key);
    }
    PrefixAlong(turns, a, b);
  }

  /** The step brings a request about `key` that asks for an answer and has to wait for it. */
  predicate Waits(env: Env, s: Server, step: Step, key: Key) {
    && step.Request? && step.tuple.key == key && step.header.address != ""
    && HasToWait(env.self, key, Who(env, s, key, [env.tier]))
  }

  function Waiting(step: Step): (r: PendingRequest)
    requires step.Request?
  {
    PendingRequest(step.header, step.tuple.kind, step.tuple.payload)
  }

  /** A request that waits comes after those waiting already. */
  lemma TurnTaken(env: Env, s: Server, step: Step, key: Key)
    requires Waits(env, s, step, key)
    ensures PendingFor(Apply(env, s, step).server, key) == PendingFor(s, key) + [Waiting(step)]
  {
    RequestTurn(env.self, s, step.header, step.tuple, Who(env, s, key, [env.tier]), key);
  }

  /** Where a request that waits is found when the factor becomes known. */
  lemma FoundAt(env: Env, states: seq<Server>, steps: seq<Step>, i: nat, m: nat, key: Key)
    requires IsRun(env, states, steps) && Init(states[0]) && i < m < |states| && Waits(env, states[i], steps[i], key)
    requires forall k :: i < k < m ==> !Resolves(steps[k], key)
    ensures var ps, n := PendingFor(states[m], key), |PendingFor(states[i], key)|;
            n < |ps| && ps[n] == Waiting(steps[i])
  {
    TurnsKeptTo(env, states, steps, i + 1, m, key);
    TurnTaken(env, states[i], steps[i], key);
    assert states[i + 1] == Apply(env, states[i], steps[i]).server;
  }

  lemma {:induction false} AskingGrows(ps: seq<PendingRequest>, x: nat, y: nat)
    requires x < y <= |ps| && ps[x].header.address != ""
    ensures Asking(ps[..x]) < Asking(ps[..y])
  {
    assert ps[..y][..y - 1] == ps[..y - 1];
    if x < y - 1 {
      AskingGrows(ps, x, y - 1);
    }
  }

  lemma TurnsInOrder(env: Env, states: seq<Server>, steps: seq<Step>, i: nat, j: nat, m: nat, key: Key)
    requires IsRun(env, states, steps) && Init(states[0]) && i < j < m < |states|
    requires Waits(env, states[i], steps[i], key) && Waits(env, states[j], steps[j], key)
    requires forall k :: i < k < m ==> !Resolves(steps[k], key)
    ensures var ps, x, y := PendingFor(states[m], key), |PendingFor(states[i], key)|, |PendingFor(states[j], key)|;
            x < y < |ps| && ps[x] == Waiting(steps[i]) && ps[y] == Waiting(steps[j])
  {
    FoundAt(env, states, steps, i, m, key);
    FoundAt(env, states, steps, j, m, key);
    FoundAt(env, states, steps, i, j, key);
  }

  lemma TurnAnswered(env: Env, s: Server, step: Step, key: Key, x: nat)
    requires Inv(s) && Resolves(step, key) && Newly(env, s, key, step.reply).Some?
    requires x < |PendingFor(s, key)| && PendingFor(s, key)[x].header.address != ""
    ensures InTurn(Apply(env, s, step).replies, PendingFor(s, key), x, key, Val(s, key),
                   env.self in Newly(env, s, key, step.reply).value)
  {
    PendingAnswered(env, s, key, step.reply, x);
    assert Apply(env, s, step) == OnFactor(env, s, key, step.reply);
  }

  /** Two of the requests pending for a key are answered in their order, whatever the reply teaches. */
  lemma BothAnswered(env: Env, s: Server, step: Step, key: Key, x: nat, y: nat)
    requires Inv(s) && Resolves(step, key) && Newly(env, s, key, step.reply).Some? && x < y < |PendingFor(s, key)|
    requires PendingFor(s, key)[x].header.address != "" && PendingFor(s, key)[y].header.address != ""
    ensures var ps, replies := PendingFor(s, key), Apply(env, s, step).replies;
            var responsible := env.self in Newly(env, s, key, step.reply).value;
            && Asking(ps[..x]) < Asking(ps[..y])
            && InTurn(replies, ps, x, key, Val(s, key), responsible)
            && InTurn(replies, ps, y, key, Val(s, key), responsible)
  {
    AskingGrows(PendingFor(s, key), x, y);
    TurnAnswered(env, s, step, key, x);
    TurnAnswered(env, s, step, key, y);
  }

  /**
   * Two requests that wait for the factor of the same key are answered in the order they came, by the first usable
   * reply after them. If the thread turns out responsible, the later one is answered from the value left by all the
   * requests before it, the earlier one among them.
   */
  lemma AnsweredInOrder(env: Env, states: seq<Server>, steps: seq<Step>, i: nat, j: nat, m: nat, key: Key)
    returns (x: nat, y: nat)
    requires IsRun(env, states, steps) && Init(states[0]) && i < j < m < |steps|
    requires Waits(env, states[i], steps[i], key) && Waits(env, states[j], steps[j], key)
    requires (forall k :: i < k < m ==> !Resolves(steps[k], key)) && Resolves(steps[m], key)
    requires Newly(env, states[m], key, steps[m].reply).Some?
    ensures var ps, replies := PendingFor(states[m], key), Apply(env, states[m], steps[m]).replies;
            var responsible := env.self in Newly(env, states[m], key, steps[m].reply).value;
            && x < y < |ps| && ps[x] == Waiting(steps[i]) && ps[y] == Waiting(steps[j])
            && Asking(ps[..x]) < Asking(ps[..y])
            && InTurn(replies, ps, x, key, Val(states[m], key), responsible)
            && InTurn(replies, ps, y, key, Val(states[m], key), responsible)
  {
    x, y := |PendingFor(states[i], key)|, |PendingFor(states[j], key)|;
    TurnsInOrder(env, states, steps, i, j, m, key);
    RunKeepsInv(env, states, steps);
    BothAnswered(env, states[m], steps[m], key, x, y);
  }
}
