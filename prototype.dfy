/**
  The earlier master of src/bin/master.rs: every captured link is queued,
  with no look-up in the DB; only a first message equal to `Greeting(0)` is
  accepted; a finished status report is only dumped to a file, and nothing
  is recorded. Faults and outcomes are those of the complete master.
 */
module Prototype {
  import opened Wrappers
  import opened Bytes
  import opened Protocol
  import opened Status
  import opened Batching
  import opened Master

  /** What a prototype session has done so far, and the shared iterator's remaining slice. */
  datatype PState = PState(
    rest: seq<string>,
    replies: seq<Message>,
    logs: seq<LogLine>,
    dumped: seq<DownloadStatus>)  // the finished reports written out as `{filename}.json`

  datatype PNext = PContinue(state: PState) | PStop(state: PState, outcome: Outcome)

  datatype PRun = PRun(state: PState, outcome: Outcome)

  /** The state of a prototype session once its Greeting(0) has been echoed. */
  function Greeted(rest: seq<string>): PState
  {
    PState(rest, [Greeting(0)], [], [])
  }

  /** `msg != Message::Greeting(0)` panics; the id is then always 0. */
  function Handshake(first: Message): (r: Result<Usize, Fault>)
    ensures r.Success? <==> first == Greeting(0)
    ensures r.Success? ==> r.value == 0
    ensures r.Failure? ==> r.error == NotGreeting(first)
  {
    if first == Greeting(0) then Success(0) else Failure(NotGreeting(first))
  }

  /**
    What the accept loop's record says, read off the sessions it ran:
    the replies and outcomes recorded for the sessions of AcceptRuns.
   */
  lemma AcceptRecord(conns: seq<seq<Message>>, links: seq<string>, batchSize: nat, parse: StatusParser,
                     sent: seq<seq<Message>>, outcomes: seq<Outcome>, runs: seq<PRun>)
    requires batchSize > 0
    requires runs == AcceptRuns(conns, 0, links, batchSize, parse)
    requires |runs| == |sent| == |outcomes| && forall k | 0 <= k < |runs| :: sent[k] == runs[k].state.replies && outcomes[k] == runs[k].outcome
    ensures |sent| <= |conns|
    ensures forall k :: 0 <= k < |outcomes| - 1 ==> !outcomes[k].AcceptLoopPanic?
    ensures |outcomes| < |conns| ==> outcomes != [] && outcomes[|outcomes| - 1].AcceptLoopPanic?
    ensures AllBatches(sent) + Chunks(LeftAfter(runs, links), batchSize) == Chunks(links, batchSize)
    ensures runs != [] ==> runs[0] == Session(conns[0], links, batchSize, parse)
    ensures forall k | 0 < k < |runs| :: runs[k] == Session(conns[k], runs[k - 1].state.rest, batchSize, parse)
  {
    AcceptRunsShape(conns, 0, links, batchSize, parse);
    AcceptRunsChain(conns, 0, links, batchSize, parse);
    RepliesOfIs(runs, sent);
    AcceptHandsOutChunks(conns, 0, links, batchSize, parse);
  }

  /**
    One pass of the prototype's loop. Its `match` has no arm for
    `DownloadStart` or `DownloadEnd`; the model treats them like the other
    messages it has no use for.
   */
  function Step(s: PState, m: Message, batchSize: nat, parse: StatusParser): (r: PNext)
    requires batchSize > 0
    ensures r.PStop? && r.outcome.TaskPanic? && r.outcome.fault.Unexpected? <==>
              m.Greeting? || m.Batch? || m.EndRequest? || m == DownloadStart || m == DownloadEnd
    ensures m != BatchRequest ==> r.state.rest == s.rest && r.state.replies == s.replies
    ensures !m.Log? ==> r.state.logs == s.logs
    ensures m.JSON? && parse(m.payload).Some? ==>
              r.PContinue? &&
              r.state.dumped == s.dumped + (if parse(m.payload).value.status == "finished" then [parse(m.payload).value] else [])
    ensures !m.JSON? ==> r.state.dumped == s.dumped
  {
    match m
    case BatchRequest =>
      if s.rest == [] then PStop(s.(replies := s.replies + [EndRequest]), Done)
      else PContinue(s.(rest := Drop(s.rest, batchSize), replies := s.replies + [Batch(Take(s.rest, batchSize))]))
    case Log(_, level, target, msg) => PContinue(s.(logs := s.logs + [LogLine(level, target, msg)]))
    case JSON(p) =>
      (match parse(p)
       case None => PStop(s, TaskPanic(BadStatus(p)))
       case Some(st) => PContinue(if st.status == "finished" then s.(dumped := s.dumped + [st]) else s))
    case _ => PStop(s, TaskPanic(Unexpected(m)))
  }

  /**
    What one pass answers, as in the complete master: a BatchRequest gets
    the first chunk still held, or EndRequest once the iterator is
    exhausted, which is the one normal end; a report that does not decode
    panics the session task.
   */
  lemma StepAnswers(s: PState, m: Message, batchSize: nat, parse: StatusParser)
    requires batchSize > 0
    ensures var r := Step(s, m, batchSize, parse);
            (r.PStop? && r.outcome == Done <==> m == BatchRequest && s.rest == []) &&
            (m == BatchRequest && s.rest == [] ==> r == PStop(s.(replies := s.replies + [EndRequest]), Done)) &&
            (m == BatchRequest && s.rest != [] ==>
               r.PContinue? && r.state.replies == s.replies + [Batch(Chunks(s.rest, batchSize)[0])] &&
               Chunks(r.state.rest, batchSize) == Chunks(s.rest, batchSize)[1..] &&
               r.state.(rest := s.rest, replies := s.replies) == s) &&
            (m.JSON? && parse(m.payload).None? ==> r == PStop(s, TaskPanic(BadStatus(m.payload))))
  {
    if m == BatchRequest && s.rest != [] {
      assert Chunks(s.rest, batchSize) == [Take(s.rest, batchSize)] + Chunks(Drop(s.rest, batchSize), batchSize);
    }
  }

  /** The prototype's loop from the i-th message on. */
  function Serve(ms: seq<Message>, i: nat, s: PState, batchSize: nat, parse: StatusParser): PRun
    requires batchSize > 0
    decreases |ms| - i
  {
    if i >= |ms| then PRun(s, TaskPanic(ReadFailed))
    else match Step(s, ms[i], batchSize, parse)
      case PContinue(s') => Serve(ms, i + 1, s', batchSize, parse)
      case PStop(s', o) => PRun(s', o)
  }

  /** A whole prototype connection. */
  function Session(ms: seq<Message>, rest: seq<string>, batchSize: nat, parse: StatusParser): PRun
    requires batchSize > 0
  {
    if ms == [] then PRun(PState(rest, [], [], []), AcceptLoopPanic(ReadFailed))
    else match Handshake(ms[0])
      case Failure(f) => PRun(PState(rest, [], [], []), AcceptLoopPanic(f))
      case Success(_) => Serve(ms, 1, Greeted(rest), batchSize, parse)
  }

  lemma {:induction false} ServeExtends(ms: seq<Message>, i: nat, s: PState, batchSize: nat, parse: StatusParser)
    requires batchSize > 0
    ensures var r := Serve(ms, i, s, batchSize, parse).state;
            |s.replies| <= |r.replies| && r.replies[..|s.replies|] == s.replies
    decreases |ms| - i
  {
    if i < |ms| {
      match Step(s, ms[i], batchSize, parse)
      case PContinue(s') =>
        ServeExtends(ms, i + 1, s', batchSize, parse);
        var r := Serve(ms, i + 1, s', batchSize, parse).state;
        assert r.replies[..|s.replies|] == r.replies[..|s'.replies|][..|s.replies|];
      case PStop(_, _) =>
    }
  }

  /**
    The handshake: a first message other than Greeting(0), a Greeting(k)
    with k != 0 included, panics the accept loop before any reply; Greeting(0)
    is echoed and the session then never panics the accept loop.
   */
  lemma SessionHandshake(ms: seq<Message>, rest: seq<string>, batchSize: nat, parse: StatusParser)
    requires batchSize > 0
    ensures var run := Session(ms, rest, batchSize, parse);
            (run.outcome.AcceptLoopPanic? <==> ms == [] || ms[0] != Greeting(0)) &&
            (run.outcome.AcceptLoopPanic? ==> run.state.replies == []) &&
            (ms != [] && ms[0] == Greeting(0) ==> |run.state.replies| > 0 && run.state.replies[0] == Greeting(0))
  {
    if ms != [] && ms[0] == Greeting(0) {
      ServeExtends(ms, 1, Greeted(rest), batchSize, parse);
      ServeNeverPanicsAcceptLoop(ms, 1, Greeted(rest), batchSize, parse);
    }
  }

  lemma {:induction false} ServeNeverPanicsAcceptLoop(ms: seq<Message>, i: nat, s: PState, batchSize: nat, parse: StatusParser)
    requires batchSize > 0
    ensures !Serve(ms, i, s, batchSize, parse).outcome.AcceptLoopPanic?
    decreases |ms| - i
  {
    if i < |ms| {
      match Step(s, ms[i], batchSize, parse)
      case PContinue(s') =>
        ServeNeverPanicsAcceptLoop(ms, i + 1, s', batchSize, parse);
      case PStop(_, _) =>
    }
  }

  /** The prototype hands out the chunks of its iterator exactly as the complete master does. */
  lemma {:induction false} ServeHandsOutChunks(ms: seq<Message>, i: nat, s: PState, batchSize: nat, parse: StatusParser)
    requires batchSize > 0
    ensures var r := Serve(ms, i, s, batchSize, parse).state;
            BatchesIn(r.replies) + Chunks(r.rest, batchSize) == BatchesIn(s.replies) + Chunks(s.rest, batchSize)
    decreases |ms| - i
  {
    if i < |ms| {
      var next := Step(s, ms[i], batchSize, parse);
      var r := Serve(ms, i, s, batchSize, parse).state;
      if ms[i] == BatchRequest {
        if s.rest == [] {
          assert r == s.(replies := s.replies + [EndRequest]);
          BatchesInAppend(s.replies, EndRequest);
        } else {
          var t := Take(s.rest, batchSize);
          var s' := s.(rest := Drop(s.rest, batchSize), replies := s.replies + [Batch(t)]);
          assert next == PContinue(s');
          BatchesInAppend(s.replies, Batch(t));
          assert Chunks(s.rest, batchSize) == [t] + Chunks(Drop(s.rest, batchSize), batchSize);
          ServeHandsOutChunks(ms, i + 1, s', batchSize, parse);
        }
      } else {
        assert next.state.replies == s.replies && next.state.rest == s.rest;
        if next.PContinue? {
          ServeHandsOutChunks(ms, i + 1, next.state, batchSize, parse);
        }
      }
    }
  }

  /**
    Every link captured from the page is handed out, in order, by the
    sessions that together drain the queue: the Batch replies of a session
    followed by the chunks left are the chunks of what it started with.
   */
  lemma SessionHandsOutChunks(ms: seq<Message>, rest: seq<string>, batchSize: nat, parse: StatusParser)
    requires batchSize > 0
    ensures var r := Session(ms, rest, batchSize, parse).state;
            BatchesIn(r.replies) + Chunks(r.rest, batchSize) == Chunks(rest, batchSize)
  {
    if ms != [] && ms[0] == Greeting(0) {
      ServeHandsOutChunks(ms, 1, Greeted(rest), batchSize, parse);
      assert BatchesIn([Greeting(0)]) == [] by {
        assert [Greeting(0)][..0] == [];
      }
    }
  }

  /**
    The prototype finishes normally exactly when it answers a BatchRequest
    with EndRequest, and then the iterator is exhausted.
   */
  lemma {:induction false} ServeDone(ms: seq<Message>, i: nat, s: PState, batchSize: nat, parse: StatusParser)
    requires batchSize > 0
    ensures var run := Serve(ms, i, s, batchSize, parse);
            (run.outcome == Done <==> |run.state.replies| > |s.replies| && run.state.replies[|run.state.replies| - 1] == EndRequest) &&
            (run.outcome == Done ==> run.state.rest == [])
    decreases |ms| - i
  {
    if i < |ms| {
      match Step(s, ms[i], batchSize, parse)
      case PContinue(s') =>
        ServeDone(ms, i + 1, s', batchSize, parse);
        ServeExtends(ms, i + 1, s', batchSize, parse);
      case PStop(_, _) =>
    }
  }

  /** How many messages the prototype's loop reads from the i-th on. */
  function Consumed(ms: seq<Message>, i: nat, s: PState, batchSize: nat, parse: StatusParser): (n: nat)
    requires batchSize > 0
    ensures n == 0 || i + n <= |ms|
    decreases |ms| - i
  {
    if i >= |ms| then 0
    else match Step(s, ms[i], batchSize, parse)
      case PContinue(s') => 1 + Consumed(ms, i + 1, s', batchSize, parse)
      case PStop(_, _) => 1
  }

  /**
    The prototype answers every BatchRequest it reads, and nothing else,
    and its answers are those Answers describes for the chunks it held.
   */
  lemma {:induction false} ServeAnswers(ms: seq<Message>, i: nat, s: PState, batchSize: nat, parse: StatusParser)
    requires batchSize > 0 && i <= |ms|
    ensures var run, n := Serve(ms, i, s, batchSize, parse), Consumed(ms, i, s, batchSize, parse);
            |s.replies| <= |run.state.replies| && i + n <= |ms| &&
            |run.state.replies| - |s.replies| == Requests(ms[i..i + n]) &&
            Answers(run.state.replies[|s.replies|..], Chunks(s.rest, batchSize), run.outcome == Done)
    decreases |ms| - i
  {
    if i < |ms| {
      var next := Step(s, ms[i], batchSize, parse);
      if next.PContinue? {
        ServeAnswers(ms, i + 1, next.state, batchSize, parse);
        ServeAnswersMore(ms, i, s, batchSize, parse);
      } else {
        ServeAnswersStop(ms, i, s, batchSize, parse);
      }
    }
  }

  /** ServeAnswers for a message the loop reads on from, given ServeAnswers for the rest of the loop. */
  lemma ServeAnswersMore(ms: seq<Message>, i: nat, s: PState, batchSize: nat, parse: StatusParser)
    requires batchSize > 0 && i < |ms| && Step(s, ms[i], batchSize, parse).PContinue?
    requires var s' := Step(s, ms[i], batchSize, parse).state;
             var run, n := Serve(ms, i + 1, s', batchSize, parse), Consumed(ms, i + 1, s', batchSize, parse);
             |s'.replies| <= |run.state.replies| && i + 1 + n <= |ms| &&
             |run.state.replies| - |s'.replies| == Requests(ms[i + 1..i + 1 + n]) &&
             Answers(run.state.replies[|s'.replies|..], Chunks(s'.rest, batchSize), run.outcome == Done)
    ensures var run, n := Serve(ms, i, s, batchSize, parse), Consumed(ms, i, s, batchSize, parse);
            |s.replies| <= |run.state.replies| && i + n <= |ms| &&
            |run.state.replies| - |s.replies| == Requests(ms[i..i + n]) &&
            Answers(run.state.replies[|s.replies|..], Chunks(s.rest, batchSize), run.outcome == Done)
  {
    var m := ms[i];
    var s' := Step(s, m, batchSize, parse).state;
    var n := Consumed(ms, i, s, batchSize, parse);
    ConsumedFirst(ms, i, n);
    RequestsAppend([m], ms[i + 1..i + n]);
    RequestsSingle(m);
    StepAnswers(s, m, batchSize, parse);
    ServeExtends(ms, i + 1, s', batchSize, parse);
    var run := Serve(ms, i + 1, s', batchSize, parse);
    assert run == Serve(ms, i, s, batchSize, parse);
    if m == BatchRequest {
      AnswersCons(run.state.replies, run.outcome == Done, s.replies, s'.replies, Chunks(s.rest, batchSize));
    } else {
      assert s'.replies == s.replies && s'.rest == s.rest;
    }
  }

  /** ServeAnswers for a message the loop stops at. */
  lemma ServeAnswersStop(ms: seq<Message>, i: nat, s: PState, batchSize: nat, parse: StatusParser)
    requires batchSize > 0 && i < |ms| && !Step(s, ms[i], batchSize, parse).PContinue?
    ensures var run, n := Serve(ms, i, s, batchSize, parse), Consumed(ms, i, s, batchSize, parse);
            |s.replies| <= |run.state.replies| && i + n <= |ms| &&
            |run.state.replies| - |s.replies| == Requests(ms[i..i + n]) &&
            Answers(run.state.replies[|s.replies|..], Chunks(s.rest, batchSize), run.outcome == Done)
  {
    var m := ms[i];
    var next := Step(s, m, batchSize, parse);
    var n := Consumed(ms, i, s, batchSize, parse);
    ConsumedFirst(ms, i, n);
    RequestsAppend([m], ms[i + 1..i + n]);
    RequestsSingle(m);
    StepAnswers(s, m, batchSize, parse);
    assert n == 1 && ms[i + 1..i + n] == [];
    assert Serve(ms, i, s, batchSize, parse) == PRun(next.state, next.outcome);
    if m == BatchRequest {
      assert s.rest == [] && next.outcome == Done && Chunks(s.rest, batchSize) == [];
    } else {
      assert next.state.replies == s.replies && next.outcome != Done;
    }
    AnswersLast(s.replies, next.state.replies, next.outcome == Done, Chunks(s.rest, batchSize));
  }

  /**
    After its Greeting(0) the prototype sends one answer per BatchRequest
    it reads, as Answers describes for the chunks held when the worker
    connected.
   */
  lemma SessionAnswers(ms: seq<Message>, rest: seq<string>, batchSize: nat, parse: StatusParser)
    requires batchSize > 0
    ensures ms != [] && ms[0] == Greeting(0) ==>
            var run, n := Session(ms, rest, batchSize, parse), Consumed(ms, 1, Greeted(rest), batchSize, parse);
            1 <= |run.state.replies| && 1 + n <= |ms| &&
            |run.state.replies| - 1 == Requests(ms[1..1 + n]) &&
            Answers(run.state.replies[1..], Chunks(rest, batchSize), run.outcome == Done)
  {
    if ms != [] && ms[0] == Greeting(0) {
      ServeAnswers(ms, 1, Greeted(rest), batchSize, parse);
    }
  }

  /** Asked for work once the iterator is exhausted, the prototype says EndRequest and is done. */
  lemma SessionExhausted(tail: seq<Message>, batchSize: nat, parse: StatusParser)
    requires batchSize > 0
    ensures Session([Greeting(0), BatchRequest] + tail, [], batchSize, parse)
            == PRun(Greeted([]).(replies := [Greeting(0), EndRequest]), Done)
  {
    var ms := [Greeting(0), BatchRequest] + tail;
    assert ms[0] == Greeting(0) && ms[1] == BatchRequest;
  }

  /** Whether a message is one both masters handle the same way (no status report, no download marker). */
  predicate Shared(m: Message)
  {
    !m.JSON? && m != DownloadStart && m != DownloadEnd
  }

  /**
    On messages without status reports or download markers the prototype's
    loop and the complete master's loop send the same replies, relay the
    same log lines, leave the same iterator and end the same way.
   */
  lemma {:induction false} ServeAgreesWithMaster(ms: seq<Message>, i: nat, p: PState, s: State, batchSize: nat, parse: StatusParser)
    requires batchSize > 0
    requires forall k :: i <= k < |ms| ==> Shared(ms[k])
    requires p.rest == s.rest && p.replies == s.replies && p.logs == s.logs
    ensures var pr, mr := Serve(ms, i, p, batchSize, parse), Master.Serve(ms, i, s, batchSize, parse);
            pr.outcome == mr.outcome && pr.state.rest == mr.state.rest &&
            pr.state.replies == mr.state.replies && pr.state.logs == mr.state.logs
    decreases |ms| - i
  {
    if i < |ms| {
      var pn, mn := Step(p, ms[i], batchSize, parse), Master.Step(s, ms[i], batchSize, parse);
      if pn.PContinue? {
        ServeAgreesWithMaster(ms, i + 1, pn.state, mn.state, batchSize, parse);
      }
    }
  }

  /**
    The session task of src/bin/master.rs over the shared queue. `dumped`
    is what goes to the `test_output` directory; there is no DB.
   */
  method RunSession(queue: BatchQueue, incoming: seq<Message>, parse: StatusParser)
    returns (replies: seq<Message>, logs: seq<LogLine>, dumped: seq<DownloadStatus>, outcome: Outcome)
    requires queue.Valid()
    modifies queue
    ensures queue.Valid()
    ensures var run := Session(incoming, old(queue.rest), queue.batchSize, parse);
            replies == run.state.replies && logs == run.state.logs && dumped == run.state.dumped &&
            outcome == run.outcome && queue.rest == run.state.rest
  {
    replies, logs, dumped := [], [], [];
    if |incoming| == 0 {
      return replies, logs, dumped, AcceptLoopPanic(ReadFailed);
    }
    var msg := incoming[0];
    if msg != Greeting(0) {
      return replies, logs, dumped, AcceptLoopPanic(NotGreeting(msg));
    }
    replies := [msg];
    var i := 1;
    while i < |incoming|
      invariant 1 <= i <= |incoming|
      invariant queue.Valid()
      invariant Session(incoming, old(queue.rest), queue.batchSize, parse) ==
                Serve(incoming, i, PState(queue.rest, replies, logs, dumped), queue.batchSize, parse)
    {
      match incoming[i] {
        case BatchRequest =>
          var batch := queue.Draw();
          if batch.None? {
            replies := replies + [EndRequest];
            return replies, logs, dumped, Done;
          }
          replies := replies + [Batch(batch.value)];
        case Log(_, level, target, text) =>
          logs := logs + [LogLine(level, target, text)];
        case JSON(p) =>
          var parsed := parse(p);
          if parsed.None? {
            return replies, logs, dumped, TaskPanic(BadStatus(p));
          }
          if parsed.value.status == "finished" {
            dumped := dumped + [parsed.value];
          }
        case _ =>
          return replies, logs, dumped, TaskPanic(Unexpected(incoming[i]));
      }
      i := i + 1;
    }
    outcome := TaskPanic(ReadFailed);
  }

  /**
    The sessions of the prototype's accept loop from the i-th connection on: the
    connections are served in the order they are accepted, each on the
    links the one before it left, until one panics the accept loop or no
    connection is left.
   */
  function AcceptRuns(conns: seq<seq<Message>>, i: nat, rest: seq<string>, batchSize: nat, parse: StatusParser): seq<PRun>
    requires batchSize > 0
    decreases |conns| - i
  {
    if i >= |conns| then []
    else
      var run := Session(conns[i], rest, batchSize, parse);
      if run.outcome.AcceptLoopPanic? then [run]
      else [run] + AcceptRuns(conns, i + 1, run.state.rest, batchSize, parse)
  }

  /**
    Connection i is served on the links the loop holds when it is accepted,
    only the last session can panic the accept loop, and a connection is
    left unserved only after such a panic.
   */
  lemma {:induction false} AcceptRunsShape(conns: seq<seq<Message>>, i: nat, rest: seq<string>, batchSize: nat, parse: StatusParser)
    requires batchSize > 0 && i <= |conns|
    ensures var runs := AcceptRuns(conns, i, rest, batchSize, parse);
            |runs| <= |conns| - i &&
            (i < |conns| ==> runs != [] && runs[0] == Session(conns[i], rest, batchSize, parse)) &&
            (forall k | 0 <= k < |runs| - 1 :: !runs[k].outcome.AcceptLoopPanic?) &&
            (|runs| < |conns| - i ==> runs != [] && runs[|runs| - 1].outcome.AcceptLoopPanic?)
    decreases |conns| - i
  {
    if i < |conns| {
      var run := Session(conns[i], rest, batchSize, parse);
      if !run.outcome.AcceptLoopPanic? {
        AcceptRunsShape(conns, i + 1, run.state.rest, batchSize, parse);
      }
    }
  }

  /** Each session after the first is served on the links its predecessor left. */
  lemma {:induction false} AcceptRunsChain(conns: seq<seq<Message>>, i: nat, rest: seq<string>, batchSize: nat, parse: StatusParser)
    requires batchSize > 0 && i <= |conns|
    ensures i + |AcceptRuns(conns, i, rest, batchSize, parse)| <= |conns|
    ensures var runs := AcceptRuns(conns, i, rest, batchSize, parse);
            forall k | 0 < k < |runs| :: runs[k] == Session(conns[i + k], runs[k - 1].state.rest, batchSize, parse)
    decreases |conns| - i
  {
    AcceptRunsShape(conns, i, rest, batchSize, parse);
    if i < |conns| {
      var run := Session(conns[i], rest, batchSize, parse);
      if !run.outcome.AcceptLoopPanic? {
        AcceptRunsChain(conns, i + 1, run.state.rest, batchSize, parse);
        var tail := AcceptRuns(conns, i + 1, run.state.rest, batchSize, parse);
        var runs := AcceptRuns(conns, i, rest, batchSize, parse);
        forall k | 0 < k < |runs|
          ensures runs[k] == Session(conns[i + k], runs[k - 1].state.rest, batchSize, parse)
        {
          if k == 1 {
            assert runs[1] == tail[0];
          } else {
            assert tail[k - 1] == Session(conns[i + 1 + (k - 1)], tail[k - 2].state.rest, batchSize, parse);
            assert runs[k] == tail[k - 1] && runs[k - 1] == tail[k - 2];
          }
        }
      }
    }
  }

  /** The links still queued after the sessions, which started on rest. */
  function LeftAfter(runs: seq<PRun>, rest: seq<string>): seq<string>
  {
    if runs == [] then rest else runs[|runs| - 1].state.rest
  }

  /** The replies of each session, in the order the sessions ran. */
  function RepliesOf(runs: seq<PRun>): seq<seq<Message>>
  {
    if runs == [] then [] else [runs[0].state.replies] + RepliesOf(runs[1..])
  }

  /** A record holding each session's replies at that session's index is RepliesOf the sessions. */
  lemma {:induction false} RepliesOfIs(runs: seq<PRun>, sent: seq<seq<Message>>)
    requires |sent| == |runs| && forall k | 0 <= k < |runs| :: sent[k] == runs[k].state.replies
    ensures RepliesOf(runs) == sent
    decreases |runs|
  {
    if runs != [] {
      forall k | 0 <= k < |runs| - 1
        ensures sent[1..][k] == runs[1..][k].state.replies
      {
        assert sent[1..][k] == sent[k + 1] && runs[1..][k] == runs[k + 1];
      }
      RepliesOfIs(runs[1..], sent[1..]);
      assert sent == [sent[0]] + sent[1..];
    }
  }

  /**
    Over the whole accept loop, the batches sent in all sessions, followed
    by the chunks left, are the chunks the loop started with: each link
    goes out at most once, in order, whichever session it went to.
   */
  lemma AcceptHandsOutChunks(conns: seq<seq<Message>>, i: nat, rest: seq<string>, batchSize: nat, parse: StatusParser)
    requires batchSize > 0
    ensures var runs := AcceptRuns(conns, i, rest, batchSize, parse);
            AllBatches(RepliesOf(runs)) + Chunks(LeftAfter(runs, rest), batchSize) == Chunks(rest, batchSize)
  {
    var runs := AcceptRuns(conns, i, rest, batchSize, parse);
    forall k | 0 <= k < |runs|
      ensures BatchesIn(runs[k].state.replies) + Chunks(runs[k].state.rest, batchSize) == Chunks(StartOf(runs, k, rest), batchSize)
    {
      AcceptRunHandsOut(conns, i, rest, batchSize, parse, k);
    }
    RunsHandOut(runs, rest, batchSize);
  }

  /** Session k of the accept loop hands out a share of the links the one before it left. */
  lemma AcceptRunHandsOut(conns: seq<seq<Message>>, i: nat, rest: seq<string>, batchSize: nat, parse: StatusParser, k: nat)
    requires batchSize > 0 && k < |AcceptRuns(conns, i, rest, batchSize, parse)|
    ensures var runs := AcceptRuns(conns, i, rest, batchSize, parse);
            BatchesIn(runs[k].state.replies) + Chunks(runs[k].state.rest, batchSize) == Chunks(StartOf(runs, k, rest), batchSize)
  {
    AcceptRunsShape(conns, i, rest, batchSize, parse);
    AcceptRunsChain(conns, i, rest, batchSize, parse);
    var runs := AcceptRuns(conns, i, rest, batchSize, parse);
    SessionHandsOutChunks(conns[i + k], StartOf(runs, k, rest), batchSize, parse);
  }

  /** The links queued when session k of runs, which started on rest, began. */
  function StartOf(runs: seq<PRun>, k: nat, rest: seq<string>): seq<string>
    requires k < |runs|
  {
    if k == 0 then rest else runs[k - 1].state.rest
  }

  /** Sessions each of which hands out a share of the links its predecessor left hand out, in all, the chunks of the first links. */
  lemma {:induction false} RunsHandOut(runs: seq<PRun>, rest: seq<string>, batchSize: nat)
    requires batchSize > 0
    requires forall k | 0 <= k < |runs| ::
               BatchesIn(runs[k].state.replies) + Chunks(runs[k].state.rest, batchSize) == Chunks(StartOf(runs, k, rest), batchSize)
    ensures AllBatches(RepliesOf(runs)) + Chunks(LeftAfter(runs, rest), batchSize) == Chunks(rest, batchSize)
    decreases |runs|
  {
    if runs != [] {
      var tail := runs[1..];
      forall k | 0 <= k < |tail|
        ensures BatchesIn(tail[k].state.replies) + Chunks(tail[k].state.rest, batchSize) == Chunks(StartOf(tail, k, runs[0].state.rest), batchSize)
      {
        assert tail[k] == runs[k + 1];
        assert StartOf(tail, k, runs[0].state.rest) == StartOf(runs, k + 1, rest);
      }
      RunsHandOut(tail, runs[0].state.rest, batchSize);
      assert StartOf(runs, 0, rest) == rest;
      HandsOutCons(runs, rest, batchSize);
    }
  }

  /** A session's share of the chunks, followed by the shares of the sessions after it. */
  lemma HandsOutCons(runs: seq<PRun>, rest: seq<string>, batchSize: nat)
    requires batchSize > 0 && runs != []
    requires BatchesIn(runs[0].state.replies) + Chunks(runs[0].state.rest, batchSize) == Chunks(rest, batchSize)
    requires AllBatches(RepliesOf(runs[1..])) + Chunks(LeftAfter(runs[1..], runs[0].state.rest), batchSize) == Chunks(runs[0].state.rest, batchSize)
    ensures AllBatches(RepliesOf(runs)) + Chunks(LeftAfter(runs, rest), batchSize) == Chunks(rest, batchSize)
  {
    var tail := runs[1..];
    assert LeftAfter(runs, rest) == LeftAfter(tail, runs[0].state.rest);
    HandsOutStep(runs[0].state.replies, runs[0].state.rest, RepliesOf(tail), LeftAfter(tail, runs[0].state.rest), rest, batchSize);
  }


  /**
    One pass of the prototype's accept loop: connection i is served to its end,
    and what the loop has recorded grows by its session.
   */
  method ServeNext(queue: BatchQueue, conns: seq<seq<Message>>, i: nat, sent: seq<seq<Message>>, outcomes: seq<Outcome>,
                   ghost links: seq<string>, ghost runs: seq<PRun>, parse: StatusParser)
    returns (sent': seq<seq<Message>>, outcomes': seq<Outcome>, ghost runs': seq<PRun>, panicked: bool)
    requires queue.Valid() && i < |conns|
    requires AcceptRuns(conns, 0, links, queue.batchSize, parse) == runs + AcceptRuns(conns, i, queue.rest, queue.batchSize, parse)
    requires |runs| == |sent| == |outcomes| && forall k | 0 <= k < |runs| :: sent[k] == runs[k].state.replies && outcomes[k] == runs[k].outcome
    requires queue.rest == LeftAfter(runs, links)
    modifies queue
    ensures queue.Valid()
    ensures |runs'| == |sent'| == |outcomes'| == |runs| + 1
    ensures forall k | 0 <= k < |runs'| :: sent'[k] == runs'[k].state.replies && outcomes'[k] == runs'[k].outcome
    ensures queue.rest == LeftAfter(runs', links)
    ensures panicked ==> AcceptRuns(conns, 0, links, queue.batchSize, parse) == runs'
    ensures !panicked ==> AcceptRuns(conns, 0, links, queue.batchSize, parse) == runs' + AcceptRuns(conns, i + 1, queue.rest, queue.batchSize, parse)
  {
    ghost var before := queue.rest;
    var replies, logs, dumped, outcome;
    replies, logs, dumped, outcome := RunSession(queue, conns[i], parse);
    ghost var run := Session(conns[i], before, queue.batchSize, parse);
    runs' := runs + [run];
    sent', outcomes' := sent + [replies], outcomes + [outcome];
    panicked := outcome.AcceptLoopPanic?;
    if !panicked {
      AppendAssoc(runs, [run], AcceptRuns(conns, i + 1, run.state.rest, queue.batchSize, parse));
    }
  }

  /**
    The prototype's `main` from capturing the links to the end of its
    accept loop: every captured link is queued, none filtered out, and the
    connections are served in turn until one panics the accept loop. The
    batches sent over all sessions, followed by the chunks left, are the
    chunks of the captured list.
   */
  method AcceptLoop(links: seq<string>, batchSize: nat, conns: seq<seq<Message>>, parse: StatusParser)
    returns (queue: BatchQueue, sent: seq<seq<Message>>, outcomes: seq<Outcome>, ghost runs: seq<PRun>)
    requires batchSize > 0
    ensures fresh(queue) && queue.Valid()
    ensures queue.links == links && queue.batchSize == batchSize
    ensures |sent| == |outcomes| <= |conns|
    ensures forall k :: 0 <= k < |outcomes| - 1 ==> !outcomes[k].AcceptLoopPanic?
    ensures |outcomes| < |conns| ==> outcomes != [] && outcomes[|outcomes| - 1].AcceptLoopPanic?
    ensures AllBatches(sent) + Chunks(queue.rest, batchSize) == Chunks(links, batchSize)
    ensures runs == AcceptRuns(conns, 0, links, batchSize, parse)
    ensures |runs| == |sent| && forall k | 0 <= k < |runs| :: sent[k] == runs[k].state.replies && outcomes[k] == runs[k].outcome
    ensures runs != [] ==> runs[0] == Session(conns[0], links, batchSize, parse)
    ensures forall k | 0 < k < |runs| :: runs[k] == Session(conns[k], runs[k - 1].state.rest, batchSize, parse)
    ensures queue.rest == LeftAfter(runs, links)
  {
    queue := new BatchQueue(links, batchSize);
    sent, outcomes, runs := ServeConnections(queue, conns, parse);
    AcceptRecord(conns, links, batchSize, parse, sent, outcomes, runs);
  }

  /**
    The prototype's accept loop proper: each connection is served to its
    end on the shared queue, in order, until one panics the accept loop.
   */
  method ServeConnections(queue: BatchQueue, conns: seq<seq<Message>>, parse: StatusParser)
    returns (sent: seq<seq<Message>>, outcomes: seq<Outcome>, ghost runs: seq<PRun>)
    requires queue.Valid()
    modifies queue
    ensures queue.Valid()
    ensures runs == AcceptRuns(conns, 0, old(queue.rest), queue.batchSize, parse)
    ensures |runs| == |sent| == |outcomes| && forall k | 0 <= k < |runs| :: sent[k] == runs[k].state.replies && outcomes[k] == runs[k].outcome
    ensures queue.rest == LeftAfter(runs, old(queue.rest))
  {
    ghost var links := queue.rest;
    sent, outcomes, runs := [], [], [];
    var i := 0;
    while i < |conns|
      invariant 0 <= i <= |conns| && |runs| == |sent| == |outcomes| == i
      invariant queue.Valid()
      invariant AcceptRuns(conns, 0, links, queue.batchSize, parse) == runs + AcceptRuns(conns, i, queue.rest, queue.batchSize, parse)
      invariant forall k | 0 <= k < |runs| :: sent[k] == runs[k].state.replies && outcomes[k] == runs[k].outcome
      invariant queue.rest == LeftAfter(runs, links)
    {
      var panicked;
      sent, outcomes, runs, panicked := ServeNext(queue, conns, i, sent, outcomes, links, runs, parse);
      i := i + 1;
      if panicked {
        return;
      }
    }
  }
}
