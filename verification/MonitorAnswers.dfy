/** What comes back to the monitoring node when the threads it writes to run the storage handlers. */
module MonitorAnswers {
  import opened Types
  import opened Metadata
  import opened Server
  import opened ServerRuns
  import M = Monitor

  /** A storage thread, as it is when the write reaches it. */
  datatype Thread = Thread(env: Env, server: Server)

  predicate Owns(th: Thread, key: Key) {
    var who := Who(th.env, th.server, key, [th.env.tier]);
    who.Some? && th.env.self in who.value
  }

  function KeysOf(tuples: seq<KeyTuple>): (r: set<Key>) {
    set t | t in tuples :: t.key
  }

  /** The keys a response rejects because of the address. */
  function WrongThread(replies: seq<Reply>): (r: set<Key>) {
    set r | r in replies && r.answer.error == WRONG_THREAD :: r.answer.key
  }

  /** The keys of a request that are not the thread's. */
  function Foreign(th: Thread, keys: set<Key>): (r: set<Key>) {
    set m | m in keys && !Owns(th, m)
  }

  lemma {:induction false} RequestsView(env: Env, s: Server, header: Header, tuples: seq<KeyTuple>)
    ensures OnRequests(env, s, header, tuples).server.rings == s.rings
    ensures OnRequests(env, s, header, tuples).server.reps == s.reps
  {
    if tuples != [] {
      var before := OnRequests(env, s, header, tuples[..|tuples| - 1]).server;
      var last := tuples[|tuples| - 1];
      RequestsView(env, s, header, tuples[..|tuples| - 1]);
      RequestQueue(env.self, before, header, last, Who(env, before, last.key, [env.tier]));
    }
  }

  lemma OneAnswer(self: ServerThread, s: Server, header: Header, t: KeyTuple, who: Option<seq<ServerThread>>)
    requires header.kind == PUT && header.address != "" && IsMetadata(t.key) && who.Some?
    ensures WrongThread(RequestAs(self, s, header, t, who).replies) == if self in who.value then {} else {t.key}
  {
    var replies := RequestAs(self, s, header, t, who).replies;
    assert |replies| == 1 && replies[0] in replies;
    assert forall r :: r in replies ==> r == replies[0];
  }

  lemma WrongThreadAppend(a: seq<Reply>, b: seq<Reply>)
    ensures WrongThread(a + b) == WrongThread(a) + WrongThread(b)
  {
    assert forall r :: r in a + b <==> r in a || r in b;
  }

  lemma NextAnswer(th: Thread, before: Server, header: Header, t: KeyTuple)
    requires header.kind == PUT && header.address != "" && IsMetadata(t.key)
    requires before.rings == th.server.rings && before.reps == th.server.reps
    ensures WrongThread(OnRequest(th.env, before, header, t).replies) == Foreign(th, {t.key})
  {
    var who := Who(th.env, before, t.key, [th.env.tier]);
    assert who == Who(th.env, th.server, t.key, [th.env.tier]);
    OneAnswer(th.env.self, before, header, t, who);
  }

  lemma LastAnswer(th: Thread, header: Header, tuples: seq<KeyTuple>) returns (more: seq<Reply>)
    requires header.kind == PUT && header.address != "" && tuples != [] && IsMetadata(tuples[|tuples| - 1].key)
    requires var before := OnRequests(th.env, th.server, header, tuples[..|tuples| - 1]).server;
             before.rings == th.server.rings && before.reps == th.server.reps
    ensures OnRequests(th.env, th.server, header, tuples).replies
         == OnRequests(th.env, th.server, header, tuples[..|tuples| - 1]).replies + more
    ensures WrongThread(more) == Foreign(th, {tuples[|tuples| - 1].key})
  {
    var before := OnRequests(th.env, th.server, header, tuples[..|tuples| - 1]).server;
    NextAnswer(th, before, header, tuples[|tuples| - 1]);
    more := OnRequest(th.env, before, header, tuples[|tuples| - 1]).replies;
  }

  lemma KeysLast(th: Thread, tuples: seq<KeyTuple>)
    requires tuples != []
    ensures Foreign(th, KeysOf(tuples))
         == Foreign(th, KeysOf(tuples[..|tuples| - 1])) + Foreign(th, {tuples[|tuples| - 1].key})
  {
    var front, last := tuples[..|tuples| - 1], tuples[|tuples| - 1];
    assert forall t :: t in tuples <==> t in front || t == last;
    assert KeysOf(tuples) == KeysOf(front) + {last.key};
  }

  /**
   * A thread answers a write of metadata keys at once, whatever it holds, and rejects exactly those keys of the
   * request that it is not responsible for.
   */
  lemma {:induction false} RejectsExactly(th: Thread, header: Header, tuples: seq<KeyTuple>)
    requires header.kind == PUT && header.address != "" && forall t :: t in tuples ==> IsMetadata(t.key)
    ensures WrongThread(OnRequests(th.env, th.server, header, tuples).replies) == Foreign(th, KeysOf(tuples))
  {
    if tuples == [] {
      assert KeysOf(tuples) == {};
    } else {
      var front := tuples[..|tuples| - 1];
      RejectsExactly(th, header, front);
      RequestsView(th.env, th.server, header, front);
      var more := LastAnswer(th, header, tuples);
      WrongThreadAppend(OnRequests(th.env, th.server, header, front).replies, more);
      KeysLast(th, tuples);
    }
  }

  // ---- the change as a whole --------------------------------------------------------------------

  function KeysAt(sent: set<M.MetadataPut>, at: ServerThread): (r: set<Key>)
    ensures forall m :: m in r <==> M.MetadataPut(at, m) in sent
  {
    set p | p in sent && p.at == at :: p.key
  }

  /** What comes back from a thread: nothing in time, or the keys its request handler rejects. */
  function Answer(th: Option<Thread>, header: Header, tuples: seq<KeyTuple>): (r: M.Outcome) {
    match th
    case None => M.TimedOut
    case Some(t) => M.Answered(WrongThread(OnRequests(t.env, t.server, header, tuples).replies))
  }

  /**
   * The storage threads as the monitoring node meets them, each sent the given tuples; from some no answer comes in
   * time.
   */
  function Answering(target: Key -> Option<ServerThread>, threads: ServerThread -> Option<Thread>, header: Header,
                     tuples: ServerThread -> seq<KeyTuple>): (r: M.Storage) {
    M.Storage(target, at => Answer(threads(at), header, tuples(at)))
  }

  /** Writes that ask for an answer; each thread is sent exactly the metadata keys meant for it, in any order. */
  ghost predicate Asks(target: Key -> Option<ServerThread>, header: Header, tuples: ServerThread -> seq<KeyTuple>,
                       reps: M.Factors, requests: M.Factors) {
    && header.kind == PUT && header.address != ""
    && forall at :: KeysOf(tuples(at)) == KeysAt(M.SentTo(target, reps, requests), at)
  }

  /** The thread a key's factor is written to does not answer, or is not responsible for it. */
  predicate WriteFails(target: Key -> Option<ServerThread>, threads: ServerThread -> Option<Thread>, key: Key) {
    var at := target(ReplicationKey(key));
    at.Some? && (threads(at.value).None? || !Owns(threads(at.value).value, ReplicationKey(key)))
  }

  /** A thread that answers rejects exactly the keys meant for it that are not its own. */
  lemma RejectedAt(target: Key -> Option<ServerThread>, threads: ServerThread -> Option<Thread>, header: Header,
                   tuples: ServerThread -> seq<KeyTuple>, reps: M.Factors, requests: M.Factors, at: ServerThread)
    requires Asks(target, header, tuples, reps, requests) && threads(at).Some?
    ensures Answering(target, threads, header, tuples).outcome(at)
         == M.Answered(Foreign(threads(at).value, KeysAt(M.SentTo(target, reps, requests), at)))
  {
    var sent := M.SentTo(target, reps, requests);
    forall t | t in tuples(at) ensures IsMetadata(t.key) {
      assert t.key in KeysOf(tuples(at));
      assert M.MetadataPut(at, t.key) in sent;
      SentIsMetadata(target, reps, requests, M.MetadataPut(at, t.key));
    }
    RejectsExactly(threads(at).value, header, tuples(at));
  }

  lemma SentIsMetadata(target: Key -> Option<ServerThread>, reps: M.Factors, requests: M.Factors, p: M.MetadataPut)
    requires p in M.SentTo(target, reps, requests)
    ensures IsMetadata(p.key)
  {
    var k :| k in requests && p.key == ReplicationKey(k);
    ReplicationKeyRoundTrip(k);
  }

  lemma RefusedSent(target: Key -> Option<ServerThread>, threads: ServerThread -> Option<Thread>, header: Header,
                    tuples: ServerThread -> seq<KeyTuple>, reps: M.Factors, requests: M.Factors, key: Key)
    requires Asks(target, header, tuples, reps, requests)
    requires M.Refused(Answering(target, threads, header, tuples), reps, requests, key)
    ensures key in requests && M.Changes(reps, key, requests[key]) && WriteFails(target, threads, key)
  {
    var storage := Answering(target, threads, header, tuples);
    var p, m :| p in M.Sent(storage, reps, requests) && M.Refuses(storage, p.at, m) && KeyOf(m) == key;
    RejectedAt(target, threads, header, tuples, reps, requests, p.at);
    assert M.MetadataPut(p.at, m) in M.Sent(storage, reps, requests);
    M.SentBack(storage, reps, requests, M.MetadataPut(p.at, m));
  }

  lemma FailingRefused(target: Key -> Option<ServerThread>, threads: ServerThread -> Option<Thread>, header: Header,
                       tuples: ServerThread -> seq<KeyTuple>, reps: M.Factors, requests: M.Factors, key: Key)
    requires Asks(target, header, tuples, reps, requests)
    requires key in requests && M.Changes(reps, key, requests[key]) && WriteFails(target, threads, key)
    requires threads(target(ReplicationKey(key)).value).Some?
    ensures M.Refused(Answering(target, threads, header, tuples), reps, requests, key)
  {
    var storage := Answering(target, threads, header, tuples);
    var p := M.MetadataPut(target(ReplicationKey(key)).value, ReplicationKey(key));
    ReplicationKeyRoundTrip(key);
    assert p in M.Sent(storage, reps, requests);
    RejectedAt(target, threads, header, tuples, reps, requests, p.at);
    assert M.Refuses(storage, p.at, p.key);
  }

  /**
   * So a key fails exactly when its factor changes and the write of it fails: no thread rejects what it was not sent.
   */
  lemma FailsExactly(target: Key -> Option<ServerThread>, threads: ServerThread -> Option<Thread>, header: Header,
                     tuples: ServerThread -> seq<KeyTuple>, reps: M.Factors, requests: M.Factors, key: Key)
    requires Asks(target, header, tuples, reps, requests)
    ensures var storage := Answering(target, threads, header, tuples);
            M.Unanswered(storage, reps, requests, key) || M.Refused(storage, reps, requests, key)
            <==> key in requests && M.Changes(reps, key, requests[key]) && WriteFails(target, threads, key)
  {
    var storage := Answering(target, threads, header, tuples);
    if M.Refused(storage, reps, requests, key) {
      RefusedSent(target, threads, header, tuples, reps, requests, key);
    }
    if key in requests && M.Changes(reps, key, requests[key]) && WriteFails(target, threads, key)
       && threads(target(ReplicationKey(key)).value).Some? {
      FailingRefused(target, threads, header, tuples, reps, requests, key);
    }
  }

  /**
   * With storage threads that run their handler a factor change is all or nothing for every key: a requested key whose
   * write failed has exactly the factors it had, any other requested key has every requested factor, and keys that
   * were not requested have what they had.
   */
  lemma ChangeAllOrNothing(target: Key -> Option<ServerThread>, threads: ServerThread -> Option<Thread>,
                           header: Header, tuples: ServerThread -> seq<KeyTuple>, reps: M.Factors,
                           requests: M.Factors, key: Key)
    requires Asks(target, header, tuples, reps, requests)
    ensures var final := M.Final(Answering(target, threads, header, tuples), reps, requests);
            if key !in requests then (key in final <==> key in reps) && M.Lookup(final, key) == M.Lookup(reps, key)
            else
              && key in final
              && if M.Changes(reps, key, requests[key]) then
                   if WriteFails(target, threads, key) then final[key] == M.Lookup(reps, key)
                   else M.SameFactors(requests[key], final[key])
                 else M.SameFactors(M.Lookup(reps, key), final[key]) && M.Matches(requests[key], final[key])
  {
    M.AllOrNothing(Answering(target, threads, header, tuples), reps, requests, key);
    FailsExactly(target, threads, header, tuples, reps, requests, key);
  }
}
