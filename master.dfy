/**
  One worker connection as src/main.rs serves it: the handshake in the
  accept loop, then the session task's dispatch loop. Sessions are run one
  after another against the one shared BatchQueue and VideoStore; a session
  consumes the messages its worker sent, in order, and running out of them
  is the read failure a closed connection gives.
 */
module Master {
  import opened Wrappers
  import opened Bytes
  import opened Protocol
  import opened Status
  import opened Store
  import opened Sink
  import opened Batching
  import Frame

  /** A `log!(target: .., level, "{}", msg)` line relayed from a worker. */
  datatype LogLine = LogLine(level: Level, target: string, text: string)

  datatype Fault =
    | ReadFailed                  // `read_json_msg::<Message>().unwrap()` failed
    | NotGreeting(got: Message)   // "Client sent garbage"
    | Unexpected(got: Message)    // `unimplemented!("Unexpected .. recieved ..")`
    | BadStatus(payload: string)  // `serde_json::from_str::<DownloadStatus>` failed: panic

  datatype Outcome =
    | Done                          // EndRequest sent and the session task returned
    | AcceptLoopPanic(fault: Fault) // a panic in `main`'s accept loop, which then serves no one else
    | TaskPanic(fault: Fault)       // a panic inside the spawned session task only

  /** Decoding of a `JSON` payload into a status report (serde_json); None when it fails. */
  type StatusParser = string -> Option<DownloadStatus>

  /** What a session has done so far, and the shared iterator's remaining slice. */
  datatype State = State(
    rest: seq<string>,
    bar: ProgressBar,
    audio: DownloadStatus,    // `audio_ds`
    video: DownloadStatus,    // `video_ds`
    replies: seq<Message>,
    logs: seq<LogLine>,
    inserted: seq<NewVideo>)

  datatype Next = Continue(state: State) | Stop(state: State, outcome: Outcome)

  datatype Run = Run(state: State, outcome: Outcome)

  /** The state of a session right after `main` has accepted its connection. */
  function Accepted(rest: seq<string>): State
  {
    State(rest, NewBar, DefaultStatus, DefaultStatus, [], [], [])
  }

  /**
    The handshake check: any `Greeting`, whatever its id, is accepted and
    gives the session its id; anything else is refused.
   */
  function Handshake(first: Message): (r: Result<Usize, Fault>)
    ensures r.Success? <==> first.Greeting?
    ensures r.Success? ==> first == Greeting(r.value)
    ensures r.Failure? ==> r.error == NotGreeting(first)
  {
    match first
    case Greeting(v) => Success(v)
    case _ => Failure(NotGreeting(first))
  }

  /** The `Message::JSON` arm once the report has been decoded. */
  function OnStatus(s: State, st: DownloadStatus): (r: State)
    ensures r.rest == s.rest && r.replies == s.replies && r.logs == s.logs
    ensures CompletionRecord(st).None? ==> r.inserted == s.inserted
    ensures CompletionRecord(st).Some? ==> r.inserted == s.inserted + [CompletionRecord(st).value]
    ensures r.bar.message == Label(st) && r.bar.length == BarLength(st) && r.bar.position == st.downloadedBytes
    ensures r.video == (if st.status == "finished" && st.info.acodec == "none" then st else s.video)
    ensures r.audio == (if st.status == "finished" && st.info.vcodec == "none" then st else s.audio)
    ensures r.bar.style == (if CompletionRecord(st).Some? then Spinner else s.bar.style)
  {
    var reported := s.(bar := Report(s.bar, st));
    if st.status != "finished" then reported
    else
      var kept := reported.(
        video := if st.info.acodec == "none" then st else s.video,
        audio := if st.info.vcodec == "none" then st else s.audio);
      match CompletionRecord(st)
      case None => kept
      case Some(rec) => kept.(inserted := kept.inserted + [rec], bar := kept.bar.(style := Spinner))
  }

  /**
    The row a message makes the master insert: a status report that decodes
    and announces a finished, real video gives its completion record;
    anything else gives none.
   */
  function RecordOf(m: Message, parse: StatusParser): seq<NewVideo>
  {
    if m.JSON? && parse(m.payload).Some? && CompletionRecord(parse(m.payload).value).Some?
    then [CompletionRecord(parse(m.payload).value).value]
    else []
  }

  /** One pass of the session loop on the message m. */
  function Step(s: State, m: Message, batchSize: nat, parse: StatusParser): (r: Next)
    requires batchSize > 0
    ensures r.Stop? && r.outcome == TaskPanic(Unexpected(m)) <==> m.Greeting? || m.Batch? || m.EndRequest?
    ensures m != BatchRequest ==> r.state.rest == s.rest && r.state.replies == s.replies
    ensures !m.JSON? ==> r.state.inserted == s.inserted
    ensures m.Log? ==> r == Continue(s.(logs := s.logs + [LogLine(m.level, m.target, m.msg)]))
  {
    match m
    case BatchRequest =>
      if s.rest == [] then Stop(s.(replies := s.replies + [EndRequest]), Done)
      else Continue(s.(rest := Drop(s.rest, batchSize), replies := s.replies + [Batch(Take(s.rest, batchSize))]))
    case Log(_, level, target, msg) => Continue(s.(logs := s.logs + [LogLine(level, target, msg)]))
    case JSON(p) =>
      (match parse(p)
       case None => Stop(s, TaskPanic(BadStatus(p)))
       case Some(st) => Continue(OnStatus(s, st)))
    case DownloadStart => Continue(s.(bar := s.bar.(style := ByteBar)))
    case DownloadEnd => Continue(s)
    case EndRequest => Stop(s, TaskPanic(Unexpected(m)))
    case Batch(_) => Stop(s, TaskPanic(Unexpected(m)))
    case Greeting(_) => Stop(s, TaskPanic(Unexpected(m)))
  }

  /**
    What one pass answers. A BatchRequest is answered with the first chunk
    still held, which leaves the iterator with the chunks after it, or, once
    the iterator is exhausted, with EndRequest, which ends the session
    normally; nothing else ends it normally. A status report that does not
    decode panics the session task; one that does is applied by OnStatus,
    and the rows inserted grow by the message's completion record.
    DownloadStart only switches the bar to bytes and DownloadEnd changes
    nothing; the pass stops on exactly the unexpected variants, the request
    that finds the iterator exhausted and the report that does not decode.
   */
  lemma StepAnswers(s: State, m: Message, batchSize: nat, parse: StatusParser)
    requires batchSize > 0
    ensures var r := Step(s, m, batchSize, parse);
            (r.Stop? && r.outcome == Done <==> m == BatchRequest && s.rest == []) &&
            (m == BatchRequest && s.rest == [] ==> r == Stop(s.(replies := s.replies + [EndRequest]), Done)) &&
            (m == BatchRequest && s.rest != [] ==>
               r.Continue? && r.state.replies == s.replies + [Batch(Chunks(s.rest, batchSize)[0])] &&
               Chunks(r.state.rest, batchSize) == Chunks(s.rest, batchSize)[1..] &&
               r.state.(rest := s.rest, replies := s.replies) == s) &&
            (m.JSON? ==> r == (match parse(m.payload)
                               case None => Stop(s, TaskPanic(BadStatus(m.payload)))
                               case Some(st) => Continue(OnStatus(s, st)))) &&
            (m == DownloadStart ==> r == Continue(s.(bar := s.bar.(style := ByteBar)))) &&
            (m == DownloadEnd ==> r == Continue(s)) &&
            (r.Stop? <==> m.Greeting? || m.Batch? || m.EndRequest? ||
                          (m == BatchRequest && s.rest == []) ||
                          (m.JSON? && parse(m.payload).None?))
  {
    if m == BatchRequest && s.rest != [] {
      assert Chunks(s.rest, batchSize) == [Take(s.rest, batchSize)] + Chunks(Drop(s.rest, batchSize), batchSize);
    }
  }

  /**
    DownloadStart and DownloadEnd are accepted any number of times: over a
    run made only of them the loop reads until the connection fails,
    answers, logs and inserts nothing, and changes only the bar's style,
    which is bytes once a DownloadStart has been read.
   */
  lemma {:induction false} ServeMarkers(ms: seq<Message>, i: nat, s: State, batchSize: nat, parse: StatusParser)
    requires batchSize > 0
    requires forall k | i <= k < |ms| :: ms[k] == DownloadStart || ms[k] == DownloadEnd
    ensures var run := Serve(ms, i, s, batchSize, parse);
            run.outcome == TaskPanic(ReadFailed) &&
            run.state == s.(bar := s.bar.(style := run.state.bar.style)) &&
            run.state.bar.style == (if exists k | i <= k < |ms| :: ms[k] == DownloadStart then ByteBar else s.bar.style)
    decreases |ms| - i
  {
    if i < |ms| {
      StepAnswers(s, ms[i], batchSize, parse);
      var s' := Step(s, ms[i], batchSize, parse).state;
      ServeMarkers(ms, i + 1, s', batchSize, parse);
      if ms[i] == DownloadStart {
        assert exists k | i <= k < |ms| :: ms[k] == DownloadStart;
      } else if exists k | i <= k < |ms| :: ms[k] == DownloadStart {
        var k :| i <= k < |ms| && ms[k] == DownloadStart;
        assert i + 1 <= k;
      }
    }
  }

  /** The session loop from the i-th message on. */
  function Serve(ms: seq<Message>, i: nat, s: State, batchSize: nat, parse: StatusParser): Run
    requires batchSize > 0
    decreases |ms| - i
  {
    if i >= |ms| then Run(s, TaskPanic(ReadFailed))
    else match Step(s, ms[i], batchSize, parse)
      case Continue(s') => Serve(ms, i + 1, s', batchSize, parse)
      case Stop(s', o) => Run(s', o)
  }

  /** A whole connection: the handshake, and if it passes, the loop. */
  function Session(ms: seq<Message>, rest: seq<string>, batchSize: nat, parse: StatusParser): Run
    requires batchSize > 0
  {
    if ms == [] then Run(Accepted(rest), AcceptLoopPanic(ReadFailed))
    else match Handshake(ms[0])
      case Failure(f) => Run(Accepted(rest), AcceptLoopPanic(f))
      case Success(_) => Serve(ms, 1, Accepted(rest).(replies := [ms[0]]), batchSize, parse)
  }

  /**
    A worker that writes the frames of ms and then closes the connection is
    served as the session over ms: the framed reads yield ms in order, and
    the read after the last frame fails, which ends the loop as a closed
    socket does.
   */
  lemma SessionOverFrames(order: ByteOrder, ms: seq<Message>, rest: seq<string>, batchSize: nat, parse: StatusParser)
    requires batchSize > 0
    requires Frame.Framable(ms)
    ensures var (read, e) := Frame.ReadAll(order, Frame.FramesOf(order, ms));
            e == Frame.ShortLength &&
            Session(read, rest, batchSize, parse) == Session(ms, rest, batchSize, parse)
  {
    Frame.ReadAllFrames(order, ms);
  }

  /** The payloads of the `Batch` replies, in the order they were sent. */
  function BatchesIn(replies: seq<Message>): seq<seq<string>>
  {
    if replies == [] then []
    else
      var last := replies[|replies| - 1];
      BatchesIn(replies[..|replies| - 1]) + (if last.Batch? then [last.links] else [])
  }

  lemma BatchesInAppend(replies: seq<Message>, m: Message)
    ensures BatchesIn(replies + [m]) == BatchesIn(replies) + (if m.Batch? then [m.links] else [])
  {
    assert (replies + [m])[..|replies|] == replies;
  }

  /**
    The loop only ever adds to what was said before: earlier replies, log
    lines and inserted rows stay as they were.
   */
  lemma {:induction false} ServeExtends(ms: seq<Message>, i: nat, s: State, batchSize: nat, parse: StatusParser)
    requires batchSize > 0
    ensures var r := Serve(ms, i, s, batchSize, parse).state;
            |s.replies| <= |r.replies| && r.replies[..|s.replies|] == s.replies &&
            |s.logs| <= |r.logs| && r.logs[..|s.logs|] == s.logs &&
            |s.inserted| <= |r.inserted| && r.inserted[..|s.inserted|] == s.inserted
    decreases |ms| - i
  {
    if i < |ms| {
      match Step(s, ms[i], batchSize, parse)
      case Continue(s') =>
        ServeExtends(ms, i + 1, s', batchSize, parse);
        var r := Serve(ms, i + 1, s', batchSize, parse).state;
        assert r.replies[..|s.replies|] == r.replies[..|s'.replies|][..|s.replies|];
        assert r.logs[..|s.logs|] == r.logs[..|s'.logs|][..|s.logs|];
        assert r.inserted[..|s.inserted|] == r.inserted[..|s'.inserted|][..|s.inserted|];
      case Stop(_, _) =>
    }
  }

  /**
    Batches leave the shared iterator only as Batch replies: the batches
    this loop sends, followed by the chunks still left, are the chunks that
    were left when it started. Each batch goes out once, in order.
   */
  lemma {:induction false} ServeHandsOutChunks(ms: seq<Message>, i: nat, s: State, batchSize: nat, parse: StatusParser)
    requires batchSize > 0
    ensures var r := Serve(ms, i, s, batchSize, parse).state;
            BatchesIn(r.replies) + Chunks(r.rest, batchSize) == BatchesIn(s.replies) + Chunks(s.rest, batchSize)
    decreases |ms| - i
  {
    if i < |ms| {
      var next := Step(s, ms[i], batchSize, parse);
      var r := Serve(ms, i, s, batchSize, parse).state;
      if ms[i] == BatchRequest {
        if s.rest == [] {
          assert r == s.(replies := s.replies + [EndRequest]);
          BatchesInAppend(s.replies, EndRequest);
        } else {
          var t := Take(s.rest, batchSize);
          var s' := s.(rest := Drop(s.rest, batchSize), replies := s.replies + [Batch(t)]);
          assert next == Continue(s');
          BatchesInAppend(s.replies, Batch(t));
          assert Chunks(s.rest, batchSize) == [t] + Chunks(Drop(s.rest, batchSize), batchSize);
          ServeHandsOutChunks(ms, i + 1, s', batchSize, parse);
        }
      } else {
        assert next.state.replies == s.replies && next.state.rest == s.rest;
        if next.Continue? {
          ServeHandsOutChunks(ms, i + 1, next.state, batchSize, parse);
        }
      }
    }
  }

  /**
    Everything the loop sends is a Batch, except a final EndRequest; it sends
    EndRequest exactly when the iterator is exhausted at a BatchRequest, and
    that is the one way it finishes normally.
   */
  lemma {:induction false} ServeReplies(ms: seq<Message>, i: nat, s: State, batchSize: nat, parse: StatusParser)
    requires batchSize > 0
    ensures var run := Serve(ms, i, s, batchSize, parse);
            var r := run.state;
            |s.replies| <= |r.replies| &&
            (forall k :: |s.replies| <= k < |r.replies| - 1 ==> r.replies[k].Batch?) &&
            (|r.replies| > |s.replies| ==> r.replies[|r.replies| - 1].Batch? || r.replies[|r.replies| - 1] == EndRequest) &&
            (run.outcome == Done <==> |r.replies| > |s.replies| && r.replies[|r.replies| - 1] == EndRequest) &&
            (run.outcome == Done ==> r.rest == [])
    decreases |ms| - i
  {
    if i < |ms| {
      var next := Step(s, ms[i], batchSize, parse);
      if next.Continue? {
        var s' := next.state;
        assert s'.replies == s.replies || (ms[i] == BatchRequest && s'.replies == s.replies + [Batch(Take(s.rest, batchSize))]);
        ServeReplies(ms, i + 1, s', batchSize, parse);
        ServeExtends(ms, i + 1, s', batchSize, parse);
        var r := Serve(ms, i + 1, s', batchSize, parse).state;
        assert forall k :: |s.replies| <= k < |s'.replies| ==> r.replies[k] == s'.replies[k];
      } else {
        assert next.state.replies == s.replies || (ms[i] == BatchRequest && next.state.replies == s.replies + [EndRequest] && next.outcome == Done);
      }
    }
  }

  /** Messages other than BatchRequest never move the shared iterator and get no reply. */
  lemma {:induction false} QuietMessagesLeaveQueue(ms: seq<Message>, i: nat, s: State, batchSize: nat, parse: StatusParser)
    requires batchSize > 0
    requires forall k :: i <= k < |ms| ==> ms[k] != BatchRequest
    ensures var r := Serve(ms, i, s, batchSize, parse).state;
            r.rest == s.rest && r.replies == s.replies
    decreases |ms| - i
  {
    if i < |ms| {
      match Step(s, ms[i], batchSize, parse)
      case Continue(s') =>
        QuietMessagesLeaveQueue(ms, i + 1, s', batchSize, parse);
      case Stop(_, _) =>
    }
  }

  /**
    The handshake: no first message, or one that is not a Greeting, panics
    the accept loop before any reply; a Greeting(id) is answered with that
    same Greeting(id) and the session then never panics the accept loop.
   */
  lemma SessionHandshake(ms: seq<Message>, rest: seq<string>, batchSize: nat, parse: StatusParser)
    requires batchSize > 0
    ensures var run := Session(ms, rest, batchSize, parse);
            (ms == [] ==> run.outcome == AcceptLoopPanic(ReadFailed) && run.state.replies == []) &&
            (ms != [] && !ms[0].Greeting? ==> run.outcome == AcceptLoopPanic(NotGreeting(ms[0])) && run.state.replies == []) &&
            (ms != [] && ms[0].Greeting? ==> !run.outcome.AcceptLoopPanic? && |run.state.replies| > 0 && run.state.replies[0] == Greeting(ms[0].id))
  {
    if ms != [] && ms[0].Greeting? {
      var s := Accepted(rest).(replies := [ms[0]]);
      ServeExtends(ms, 1, s, batchSize, parse);
      ServeNeverPanicsAcceptLoop(ms, 1, s, batchSize, parse);
    }
  }

  lemma {:induction false} ServeNeverPanicsAcceptLoop(ms: seq<Message>, i: nat, s: State, batchSize: nat, parse: StatusParser)
    requires batchSize > 0
    ensures !Serve(ms, i, s, batchSize, parse).outcome.AcceptLoopPanic?
    decreases |ms| - i
  {
    if i < |ms| {
      match Step(s, ms[i], batchSize, parse)
      case Continue(s') =>
        ServeNeverPanicsAcceptLoop(ms, i + 1, s', batchSize, parse);
      case Stop(_, _) =>
    }
  }

  /**
    A whole session hands out a run of consecutive chunks of what the
    iterator held when it connected, and nothing else: its Batch replies,
    followed by the chunks left, are those chunks.
   */
  lemma SessionHandsOutChunks(ms: seq<Message>, rest: seq<string>, batchSize: nat, parse: StatusParser)
    requires batchSize > 0
    ensures var r := Session(ms, rest, batchSize, parse).state;
            BatchesIn(r.replies) + Chunks(r.rest, batchSize) == Chunks(rest, batchSize)
  {
    if ms != [] && ms[0].Greeting? {
      var s := Accepted(rest).(replies := [ms[0]]);
      ServeHandsOutChunks(ms, 1, s, batchSize, parse);
      assert BatchesIn(s.replies) == [] by {
        assert s.replies[..0] == [];
      }
    }
  }

  /**
    How many messages the loop reads from the i-th on: up to and including
    the one it stops at, or all of them when it runs out.
   */
  function Consumed(ms: seq<Message>, i: nat, s: State, batchSize: nat, parse: StatusParser): (n: nat)
    requires batchSize > 0
    ensures n == 0 || i + n <= |ms|
    decreases |ms| - i
  {
    if i >= |ms| then 0
    else match Step(s, ms[i], batchSize, parse)
      case Continue(s') => 1 + Consumed(ms, i + 1, s', batchSize, parse)
      case Stop(_, _) => 1
  }

  /** The rows messages i to j - 1 of ms ask the master to insert, in order. */
  function Records(ms: seq<Message>, i: nat, j: nat, parse: StatusParser): seq<NewVideo>
    requires j <= |ms|
    decreases j - i
  {
    if i >= j then [] else RecordOf(ms[i], parse) + Records(ms, i + 1, j, parse)
  }

  lemma ConsumedFirst(ms: seq<Message>, i: nat, n: nat)
    requires i < i + 1 <= i + n <= |ms|
    ensures ms[i..i + n] == [ms[i]] + ms[i + 1..i + n]
  {
  }

  lemma RequestsFirst(ms: seq<Message>, i: nat, n: nat)
    requires i < i + 1 <= i + n <= |ms|
    ensures Requests(ms[i..i + n]) == (if ms[i] == BatchRequest then 1 else 0) + Requests(ms[i + 1..i + n])
  {
    ConsumedFirst(ms, i, n);
    RequestsAppend([ms[i]], ms[i + 1..i + n]);
    RequestsSingle(ms[i]);
  }

  /**
    The replies added to a session, when its iterator held the chunks c:
    the k-th is the k-th chunk while chunks remain, the one after the last
    chunk is EndRequest, and that one is there exactly when the session
    finished normally (done).
   */
  ghost predicate Answers(added: seq<Message>, c: seq<seq<string>>, done: bool)
  {
    |added| <= |c| + 1 &&
    (forall k :: 0 <= k < |added| && k < |c| ==> added[k] == Batch(c[k])) &&
    (done <==> |added| == |c| + 1) &&
    (done ==> added[|c|] == EndRequest)
  }

  /** The loop adds one reply per BatchRequest it reads, and no other. */
  lemma {:induction false} ServeRequests(ms: seq<Message>, i: nat, s: State, batchSize: nat, parse: StatusParser)
    requires batchSize > 0 && i <= |ms|
    ensures var run, n := Serve(ms, i, s, batchSize, parse), Consumed(ms, i, s, batchSize, parse);
            |s.replies| <= |run.state.replies| && i + n <= |ms| &&
            |run.state.replies| - |s.replies| == Requests(ms[i..i + n])
    decreases |ms| - i
  {
    if i < |ms| {
      var m := ms[i];
      var n := Consumed(ms, i, s, batchSize, parse);
      RequestsFirst(ms, i, n);
      var next := Step(s, m, batchSize, parse);
      assert |next.state.replies| == |s.replies| + (if m == BatchRequest then 1 else 0);
      if next.Continue? {
        ServeRequests(ms, i + 1, next.state, batchSize, parse);
      } else {
        assert n == 1 && ms[i + 1..i + n] == [];
      }
    }
  }

  /**
    The answers the loop adds are those Answers describes for the chunks
    that were queued when it started.
   */
  lemma {:induction false} ServeAnswers(ms: seq<Message>, i: nat, s: State, batchSize: nat, parse: StatusParser)
    requires batchSize > 0
    ensures var run := Serve(ms, i, s, batchSize, parse);
            |s.replies| <= |run.state.replies| &&
            Answers(run.state.replies[|s.replies|..], Chunks(s.rest, batchSize), run.outcome == Done)
    decreases |ms| - i
  {
    if i < |ms| {
      var m := ms[i];
      StepAnswers(s, m, batchSize, parse);
      var next := Step(s, m, batchSize, parse);
      if next.Continue? {
        var s' := next.state;
        ServeAnswers(ms, i + 1, s', batchSize, parse);
        ServeExtends(ms, i + 1, s', batchSize, parse);
        var run := Serve(ms, i + 1, s', batchSize, parse);
        assert run == Serve(ms, i, s, batchSize, parse);
        if m == BatchRequest {
          AnswersCons(run.state.replies, run.outcome == Done, s.replies, s'.replies, Chunks(s.rest, batchSize));
        } else {
          assert s'.replies == s.replies && s'.rest == s.rest;
        }
      } else {
        assert Serve(ms, i, s, batchSize, parse) == Run(next.state, next.outcome);
        if m == BatchRequest {
          assert s.rest == [] && next.outcome == Done && Chunks(s.rest, batchSize) == [];
        } else {
          assert next.state.replies == s.replies && next.outcome != Done;
        }
        AnswersLast(s.replies, next.state.replies, next.outcome == Done, Chunks(s.rest, batchSize));
      }
    } else {
      assert Serve(ms, i, s, batchSize, parse) == Run(s, TaskPanic(ReadFailed));
      AnswersLast(s.replies, s.replies, false, Chunks(s.rest, batchSize));
    }
  }

  /** A pass that hands out the first chunk left puts it in front of the later answers. */
  lemma AnswersCons(replies: seq<Message>, done: bool, before: seq<Message>, after: seq<Message>, c: seq<seq<string>>)
    requires c != [] && after == before + [Batch(c[0])]
    requires |after| <= |replies| && replies[..|after|] == after
    requires Answers(replies[|after|..], c[1..], done)
    ensures Answers(replies[|before|..], c, done)
  {
    var added, added' := replies[|before|..], replies[|after|..];
    assert replies[|before|] == after[|before|] == Batch(c[0]);
    assert added == [Batch(c[0])] + added';
    forall k | 0 <= k < |added| && k < |c|
      ensures added[k] == Batch(c[k])
    {
      if k > 0 {
        assert added[k] == added'[k - 1];
      }
    }
  }

  /** A pass that stops the loop adds its EndRequest, if any, and nothing else. */
  lemma AnswersLast(before: seq<Message>, after: seq<Message>, done: bool, c: seq<seq<string>>)
    requires done ==> c == [] && after == before + [EndRequest]
    requires !done ==> after == before
    ensures |before| <= |after|
    ensures Answers(after[|before|..], c, done)
  {
    if done {
      assert after[|before|..] == [EndRequest];
    } else {
      assert after[|before|..] == [];
    }
  }

  /**
    The rows a loop inserts are the completion records of the reports it
    reads, in the order it reads them: one per finished, real video.
   */
  lemma {:induction false} ServeRecords(ms: seq<Message>, i: nat, s: State, batchSize: nat, parse: StatusParser)
    requires batchSize > 0 && i <= |ms|
    ensures var n := Consumed(ms, i, s, batchSize, parse);
            i + n <= |ms| &&
            Serve(ms, i, s, batchSize, parse).state.inserted == s.inserted + Records(ms, i, i + n, parse)
    decreases |ms| - i
  {
    if i < |ms| {
      var n := Consumed(ms, i, s, batchSize, parse);
      StepRecords(s, ms[i], batchSize, parse);
      ServeUnfold(ms, i, s, batchSize, parse);
      var next := Step(s, ms[i], batchSize, parse);
      if next.Continue? {
        var s' := next.state;
        ServeRecords(ms, i + 1, s', batchSize, parse);
        var head, tail := RecordOf(ms[i], parse), Records(ms, i + 1, i + n, parse);
        assert Serve(ms, i, s, batchSize, parse).state.inserted == s'.inserted + tail;
        assert Records(ms, i, i + n, parse) == head + tail;
        AppendAssoc(s.inserted, head, tail);
      } else {
        assert n == 1 && Records(ms, i + 1, i + n, parse) == [];
      }
    }
  }

  /** One pass of the loop, as Serve and Consumed see it. */
  lemma ServeUnfold(ms: seq<Message>, i: nat, s: State, batchSize: nat, parse: StatusParser)
    requires batchSize > 0 && i < |ms|
    ensures var next, n := Step(s, ms[i], batchSize, parse), Consumed(ms, i, s, batchSize, parse);
            (next.Continue? ==> Serve(ms, i, s, batchSize, parse) == Serve(ms, i + 1, next.state, batchSize, parse) &&
                                n == 1 + Consumed(ms, i + 1, next.state, batchSize, parse)) &&
            (next.Stop? ==> Serve(ms, i, s, batchSize, parse) == Run(next.state, next.outcome) && n == 1)
  {
  }

  /** A pass inserts the completion record of its message, if it has one, and nothing else. */
  lemma StepRecords(s: State, m: Message, batchSize: nat, parse: StatusParser)
    requires batchSize > 0
    ensures Step(s, m, batchSize, parse).state.inserted == s.inserted + RecordOf(m, parse)
  {
    if m.JSON? && parse(m.payload).Some? {
      var st := parse(m.payload).value;
      assert Step(s, m, batchSize, parse) == Continue(OnStatus(s, st));
    }
  }

  lemma AppendAssoc<T>(a: seq<T>, b: seq<T>, c: seq<T>)
    ensures a + (b + c) == (a + b) + c
  {
  }

  /**
    What a session sends after the greeting, and what it inserts: one
    answer per BatchRequest it reads, as Answers describes for the chunks
    the iterator held when the worker connected, and the completion records
    of the reports it reads, in order.
   */
  lemma SessionAnswers(ms: seq<Message>, rest: seq<string>, batchSize: nat, parse: StatusParser)
    requires batchSize > 0
    ensures ms != [] && ms[0].Greeting? ==>
            var run, n := Session(ms, rest, batchSize, parse), Consumed(ms, 1, Accepted(rest).(replies := [ms[0]]), batchSize, parse);
            1 <= |run.state.replies| && 1 + n <= |ms| &&
            |run.state.replies| - 1 == Requests(ms[1..1 + n]) &&
            Answers(run.state.replies[1..], Chunks(rest, batchSize), run.outcome == Done) &&
            run.state.inserted == Records(ms, 1, 1 + n, parse)
  {
    if ms != [] && ms[0].Greeting? {
      var s := Accepted(rest).(replies := [ms[0]]);
      assert Session(ms, rest, batchSize, parse) == Serve(ms, 1, s, batchSize, parse);
      GreetedAnswers(ms, s, batchSize, parse);
      ServeRecords(ms, 1, s, batchSize, parse);
    }
  }

  /** The replies half of SessionAnswers, for the loop after the greeting. */
  lemma GreetedAnswers(ms: seq<Message>, s: State, batchSize: nat, parse: StatusParser)
    requires batchSize > 0 && 1 <= |ms| && |s.replies| == 1
    ensures var run, n := Serve(ms, 1, s, batchSize, parse), Consumed(ms, 1, s, batchSize, parse);
            1 <= |run.state.replies| && 1 + n <= |ms| &&
            |run.state.replies| - 1 == Requests(ms[1..1 + n]) &&
            Answers(run.state.replies[1..], Chunks(s.rest, batchSize), run.outcome == Done)
  {
    ServeRequests(ms, 1, s, batchSize, parse);
    ServeAnswers(ms, 1, s, batchSize, parse);
  }


  /** A worker that asks for work once the iterator is exhausted is told EndRequest, and its session is done. */
  lemma SessionExhausted(id: Usize, tail: seq<Message>, batchSize: nat, parse: StatusParser)
    requires batchSize > 0
    ensures Session([Greeting(id), BatchRequest] + tail, [], batchSize, parse)
            == Run(Accepted([]).(replies := [Greeting(id), EndRequest]), Done)
  {
    var ms := [Greeting(id), BatchRequest] + tail;
    assert ms[0] == Greeting(id) && ms[1] == BatchRequest;
  }

  /** A state holding only what a status report acts on. */
  function Fresh(bar: ProgressBar, audio: DownloadStatus, video: DownloadStatus): State
  {
    State([], bar, audio, video, [], [], [])
  }

  /** A status report acts on the bar, the kept reports and the rows only; the rest of the state is carried over. */
  lemma OnStatusFrame(s: State, st: DownloadStatus)
    ensures var o := OnStatus(Fresh(s.bar, s.audio, s.video), st);
            OnStatus(s, st) == State(s.rest, o.bar, o.audio, o.video, s.replies, s.logs, s.inserted + o.inserted)
  {
  }

  /**
    The `Message::JSON` arm once the report is decoded: the bar is updated,
    a finished report is kept as the audio or the video one, and a finished
    real download is inserted into the DB.
   */
  method ApplyStatus(store: VideoStore, st: DownloadStatus, bar: ProgressBar, audio: DownloadStatus, video: DownloadStatus)
    returns (bar': ProgressBar, audio': DownloadStatus, video': DownloadStatus)
    modifies store
    ensures var o := OnStatus(Fresh(bar, audio, video), st);
            bar' == o.bar && audio' == o.audio && video' == o.video && store.rows == old(store.rows) + o.inserted
  {
    bar', audio', video' := Report(bar, st), audio, video;
    if st.status == "finished" {
      if st.info.acodec == "none" {
        video' := st;
      }
      if st.info.vcodec == "none" {
        audio' := st;
      }
      if st.info.realDownload {
        store.Insert(CompletionRecord(st).value);
        bar' := bar'.(style := Spinner);
      }
    }
  }

  /** The loop either goes on to the next message with the state one pass left, or stops there. */
  lemma ServeStep(ms: seq<Message>, i: nat, s: State, batchSize: nat, parse: StatusParser)
    requires batchSize > 0 && i < |ms|
    ensures var n := Step(s, ms[i], batchSize, parse);
            Serve(ms, i, s, batchSize, parse) ==
            if n.Continue? then Serve(ms, i + 1, n.state, batchSize, parse) else Run(n.state, n.outcome)
  {
  }

  /**
    What the accept loop's record says, read off the sessions it ran:
    the replies and outcomes recorded for the sessions of AcceptRuns.
   */
  lemma AcceptRecord(conns: seq<seq<Message>>, links: seq<string>, batchSize: nat, parse: StatusParser,
                     sent: seq<seq<Message>>, outcomes: seq<Outcome>, runs: seq<Run>)
    requires batchSize > 0
    requires runs == AcceptRuns(conns, 0, links, batchSize, parse)
    requires |runs| == |sent| == |outcomes| && forall k | 0 <= k < |runs| :: sent[k] == runs[k].state.replies && outcomes[k] == runs[k].outcome
    ensures |sent| <= |conns|
    ensures forall k :: 0 <= k < |outcomes| - 1 ==> !outcomes[k].AcceptLoopPanic?
    ensures |outcomes| < |conns| ==> outcomes != [] && outcomes[|outcomes| - 1].AcceptLoopPanic?
    ensures AllBatches(sent) + Chunks(LeftAfter(runs, links), batchSize) == Chunks(links, batchSize)
    ensures runs != [] ==> runs[0] == Session(conns[0], links, batchSize, parse)
    ensures forall k | 0 < k < |runs| :: runs[k] == Session(conns[k], runs[k - 1].state.rest, batchSize, parse)
  {
    AcceptRunsShape(conns, 0, links, batchSize, parse);
    AcceptRunsChain(conns, 0, links, batchSize, parse);
    RepliesOfIs(runs, sent);
    AcceptHandsOutChunks(conns, 0, links, batchSize, parse);
  }

  /**
    One pass of the session task's `loop` on the message m: what it does to
    the shared queue and the DB, to the bar and the kept reports, what it
    writes back and logs, and whether the session task ends here (Some outcome).
   */
  method Dispatch(queue: BatchQueue, store: VideoStore, m: Message, parse: StatusParser,
                  bar: ProgressBar, audio: DownloadStatus, video: DownloadStatus,
                  replies: seq<Message>, logs: seq<LogLine>, ghost inserted: seq<NewVideo>)
    returns (bar': ProgressBar, audio': DownloadStatus, video': DownloadStatus,
             replies': seq<Message>, logs': seq<LogLine>, ghost inserted': seq<NewVideo>, stop: Option<Outcome>)
    requires queue.Valid()
    modifies queue, store
    ensures queue.Valid()
    ensures var n := Step(State(old(queue.rest), bar, audio, video, replies, logs, inserted), m, queue.batchSize, parse);
            n.state == State(queue.rest, bar', audio', video', replies', logs', inserted') &&
            (stop.None? <==> n.Continue?) && (n.Stop? ==> stop == Some(n.outcome)) &&
            |inserted| <= |inserted'| && inserted'[..|inserted|] == inserted &&
            store.rows == old(store.rows) + inserted'[|inserted|..]
  {
    bar', audio', video', replies', logs', inserted', stop := bar, audio, video, replies, logs, inserted, None;
    match m {
      case BatchRequest =>
        var batch := queue.Draw();
        if batch.None? {
          replies' := replies + [EndRequest];
          stop := Some(Done);
        } else {
          replies' := replies + [Batch(batch.value)];
        }
      case Log(_, level, target, text) =>
        logs' := logs + [LogLine(level, target, text)];
      case JSON(p) =>
        var parsed := parse(p);
        if parsed.None? {
          stop := Some(TaskPanic(BadStatus(p)));
        } else {
          var st := parsed.value;
          OnStatusFrame(State(queue.rest, bar, audio, video, replies, logs, inserted), st);
          bar', audio', video' := ApplyStatus(store, st, bar, audio, video);
          inserted' := inserted + OnStatus(Fresh(bar, audio, video), st).inserted;
          assert inserted'[..|inserted|] == inserted;
        }
      case DownloadStart =>
        bar' := bar.(style := ByteBar);
      case DownloadEnd =>
      case EndRequest =>
        stop := Some(TaskPanic(Unexpected(m)));
      case Batch(_) =>
        stop := Some(TaskPanic(Unexpected(m)));
      case Greeting(_) =>
        stop := Some(TaskPanic(Unexpected(m)));
    }
  }

  /**
    The session task of src/main.rs. The queue and the store are the shared
    `Arc<Mutex<..>>` objects; what the session does to them and what it
    sends back are those of Session.
   */
  method RunSession(queue: BatchQueue, store: VideoStore, incoming: seq<Message>, parse: StatusParser)
    returns (replies: seq<Message>, logs: seq<LogLine>, bar: ProgressBar, outcome: Outcome)
    requires queue.Valid()
    modifies queue, store
    ensures queue.Valid()
    ensures var run := Session(incoming, old(queue.rest), queue.batchSize, parse);
            replies == run.state.replies && logs == run.state.logs && bar == run.state.bar &&
            outcome == run.outcome && queue.rest == run.state.rest &&
            store.rows == old(store.rows) + run.state.inserted
  {
    if |incoming| == 0 {
      return [], [], NewBar, AcceptLoopPanic(ReadFailed);
    }
    var msg := incoming[0];
    if !msg.Greeting? {
      return [], [], NewBar, AcceptLoopPanic(NotGreeting(msg));
    }
    replies, logs, bar, outcome := SessionLoop(queue, store, incoming, parse);
  }

  /**
    The spawned task's `loop`, once the greeting has been echoed: it reads
    the messages after the first one and does what Serve says.
   */
  method SessionLoop(queue: BatchQueue, store: VideoStore, incoming: seq<Message>, parse: StatusParser)
    returns (replies: seq<Message>, logs: seq<LogLine>, bar: ProgressBar, outcome: Outcome)
    requires queue.Valid() && |incoming| > 0
    modifies queue, store
    ensures queue.Valid()
    ensures var run := Serve(incoming, 1, Accepted(old(queue.rest)).(replies := [incoming[0]]), queue.batchSize, parse);
            replies == run.state.replies && logs == run.state.logs && bar == run.state.bar &&
            outcome == run.outcome && queue.rest == run.state.rest &&
            store.rows == old(store.rows) + run.state.inserted
  {
    replies, logs, bar := [incoming[0]], [], NewBar;
    var audio, video := DefaultStatus, DefaultStatus;
    ghost var inserted: seq<NewVideo> := [];
    ghost var run := Serve(incoming, 1, Accepted(queue.rest).(replies := [incoming[0]]), queue.batchSize, parse);
    var i := 1;
    while i < |incoming|
      invariant 1 <= i <= |incoming|
      invariant queue.Valid()
      invariant store.rows == old(store.rows) + inserted
      invariant run == Serve(incoming, i, State(queue.rest, bar, audio, video, replies, logs, inserted), queue.batchSize, parse)
    {
      ghost var rows := store.rows;
      ServeStep(incoming, i, State(queue.rest, bar, audio, video, replies, logs, inserted), queue.batchSize, parse);
      var stop;
      bar, audio, video, replies, logs, inserted, stop :=
        Dispatch(queue, store, incoming[i], parse, bar, audio, video, replies, logs, inserted);
      assert store.rows == old(store.rows) + inserted by {
        assert store.rows == rows + inserted[|rows| - |old(store.rows)|..];
      }
      if stop.Some? {
        return replies, logs, bar, stop.value;
      }
      i := i + 1;
    }
    outcome := TaskPanic(ReadFailed);
  }

  /** The batches sent to a run of sessions, session after session. */
  function AllBatches(sent: seq<seq<Message>>): seq<seq<string>>
  {
    if sent == [] then [] else BatchesIn(sent[0]) + AllBatches(sent[1..])
  }

  lemma AllBatchesCons(replies: seq<Message>, sent: seq<seq<Message>>)
    ensures AllBatches([replies] + sent) == BatchesIn(replies) + AllBatches(sent)
  {
    assert ([replies] + sent)[1..] == sent;
  }

  /** One session's share of the chunks, followed by the later sessions' shares. */
  lemma HandsOutStep(replies: seq<Message>, mid: seq<string>, later: seq<seq<Message>>, left: seq<string>,
                     rest: seq<string>, batchSize: nat)
    requires batchSize > 0
    requires BatchesIn(replies) + Chunks(mid, batchSize) == Chunks(rest, batchSize)
    requires AllBatches(later) + Chunks(left, batchSize) == Chunks(mid, batchSize)
    ensures AllBatches([replies] + later) + Chunks(left, batchSize) == Chunks(rest, batchSize)
  {
    AllBatchesCons(replies, later);
    AppendAssoc(BatchesIn(replies), AllBatches(later), Chunks(left, batchSize));
  }

  /**
    The sessions of the accept loop from the i-th connection on: the
    connections are served in the order they are accepted, each on the
    links the one before it left, until one panics the accept loop or no
    connection is left.
   */
  function AcceptRuns(conns: seq<seq<Message>>, i: nat, rest: seq<string>, batchSize: nat, parse: StatusParser): seq<Run>
    requires batchSize > 0
    decreases |conns| - i
  {
    if i >= |conns| then []
    else
      var run := Session(conns[i], rest, batchSize, parse);
      if run.outcome.AcceptLoopPanic? then [run]
      else [run] + AcceptRuns(conns, i + 1, run.state.rest, batchSize, parse)
  }

  /**
    Connection i is served on the links the loop holds when it is accepted,
    only the last session can panic the accept loop, and a connection is
    left unserved only after such a panic.
   */
  lemma {:induction false} AcceptRunsShape(conns: seq<seq<Message>>, i: nat, rest: seq<string>, batchSize: nat, parse: StatusParser)
    requires batchSize > 0 && i <= |conns|
    ensures var runs := AcceptRuns(conns, i, rest, batchSize, parse);
            |runs| <= |conns| - i &&
            (i < |conns| ==> runs != [] && runs[0] == Session(conns[i], rest, batchSize, parse)) &&
            (forall k | 0 <= k < |runs| - 1 :: !runs[k].outcome.AcceptLoopPanic?) &&
            (|runs| < |conns| - i ==> runs != [] && runs[|runs| - 1].outcome.AcceptLoopPanic?)
    decreases |conns| - i
  {
    if i < |conns| {
      var run := Session(conns[i], rest, batchSize, parse);
      if !run.outcome.AcceptLoopPanic? {
        AcceptRunsShape(conns, i + 1, run.state.rest, batchSize, parse);
      }
    }
  }

  /** Each session after the first is served on the links its predecessor left. */
  lemma {:induction false} AcceptRunsChain(conns: seq<seq<Message>>, i: nat, rest: seq<string>, batchSize: nat, parse: StatusParser)
    requires batchSize > 0 && i <= |conns|
    ensures i + |AcceptRuns(conns, i, rest, batchSize, parse)| <= |conns|
    ensures var runs := AcceptRuns(conns, i, rest, batchSize, parse);
            forall k | 0 < k < |runs| :: runs[k] == Session(conns[i + k], runs[k - 1].state.rest, batchSize, parse)
    decreases |conns| - i
  {
    AcceptRunsShape(conns, i, rest, batchSize, parse);
    if i < |conns| {
      var run := Session(conns[i], rest, batchSize, parse);
      if !run.outcome.AcceptLoopPanic? {
        AcceptRunsChain(conns, i + 1, run.state.rest, batchSize, parse);
        var tail := AcceptRuns(conns, i + 1, run.state.rest, batchSize, parse);
        var runs := AcceptRuns(conns, i, rest, batchSize, parse);
        forall k | 0 < k < |runs|
          ensures runs[k] == Session(conns[i + k], runs[k - 1].state.rest, batchSize, parse)
        {
          if k == 1 {
            assert runs[1] == tail[0];
          } else {
            assert tail[k - 1] == Session(conns[i + 1 + (k - 1)], tail[k - 2].state.rest, batchSize, parse);
            assert runs[k] == tail[k - 1] && runs[k - 1] == tail[k - 2];
          }
        }
      }
    }
  }

  /** The links still queued after the sessions, which started on rest. */
  function LeftAfter(runs: seq<Run>, rest: seq<string>): seq<string>
  {
    if runs == [] then rest else runs[|runs| - 1].state.rest
  }

  /** The rows the sessions insert, session after session. */
  function InsertedBy(runs: seq<Run>): seq<NewVideo>
  {
    if runs == [] then [] else InsertedBy(runs[..|runs| - 1]) + runs[|runs| - 1].state.inserted
  }

  lemma InsertedByAppend(runs: seq<Run>, run: Run)
    ensures InsertedBy(runs + [run]) == InsertedBy(runs) + run.state.inserted
  {
    assert (runs + [run])[..|runs|] == runs;
  }

  /** The replies of each session, in the order the sessions ran. */
  function RepliesOf(runs: seq<Run>): seq<seq<Message>>
  {
    if runs == [] then [] else [runs[0].state.replies] + RepliesOf(runs[1..])
  }

  /** A record holding each session's replies at that session's index is RepliesOf the sessions. */
  lemma {:induction false} RepliesOfIs(runs: seq<Run>, sent: seq<seq<Message>>)
    requires |sent| == |runs| && forall k | 0 <= k < |runs| :: sent[k] == runs[k].state.replies
    ensures RepliesOf(runs) == sent
    decreases |runs|
  {
    if runs != [] {
      forall k | 0 <= k < |runs| - 1
        ensures sent[1..][k] == runs[1..][k].state.replies
      {
        assert sent[1..][k] == sent[k + 1] && runs[1..][k] == runs[k + 1];
      }
      RepliesOfIs(runs[1..], sent[1..]);
      assert sent == [sent[0]] + sent[1..];
    }
  }

  /**
    Over the whole accept loop, the batches sent in all sessions, followed
    by the chunks left, are the chunks the loop started with: each link
    goes out at most once, in order, whichever session it went to.
   */
  lemma AcceptHandsOutChunks(conns: seq<seq<Message>>, i: nat, rest: seq<string>, batchSize: nat, parse: StatusParser)
    requires batchSize > 0
    ensures var runs := AcceptRuns(conns, i, rest, batchSize, parse);
            AllBatches(RepliesOf(runs)) + Chunks(LeftAfter(runs, rest), batchSize) == Chunks(rest, batchSize)
  {
    var runs := AcceptRuns(conns, i, rest, batchSize, parse);
    forall k | 0 <= k < |runs|
      ensures BatchesIn(runs[k].state.replies) + Chunks(runs[k].state.rest, batchSize) == Chunks(StartOf(runs, k, rest), batchSize)
    {
      AcceptRunHandsOut(conns, i, rest, batchSize, parse, k);
    }
    RunsHandOut(runs, rest, batchSize);
  }

  /** Session k of the accept loop hands out a share of the links the one before it left. */
  lemma AcceptRunHandsOut(conns: seq<seq<Message>>, i: nat, rest: seq<string>, batchSize: nat, parse: StatusParser, k: nat)
    requires batchSize > 0 && k < |AcceptRuns(conns, i, rest, batchSize, parse)|
    ensures var runs := AcceptRuns(conns, i, rest, batchSize, parse);
            BatchesIn(runs[k].state.replies) + Chunks(runs[k].state.rest, batchSize) == Chunks(StartOf(runs, k, rest), batchSize)
  {
    AcceptRunsShape(conns, i, rest, batchSize, parse);
    AcceptRunsChain(conns, i, rest, batchSize, parse);
    var runs := AcceptRuns(conns, i, rest, batchSize, parse);
    SessionHandsOutChunks(conns[i + k], StartOf(runs, k, rest), batchSize, parse);
  }

  /** The links queued when session k of runs, which started on rest, began. */
  function StartOf(runs: seq<Run>, k: nat, rest: seq<string>): seq<string>
    requires k < |runs|
  {
    if k == 0 then rest else runs[k - 1].state.rest
  }

  /** Sessions each of which hands out a share of the links its predecessor left hand out, in all, the chunks of the first links. */
  lemma {:induction false} RunsHandOut(runs: seq<Run>, rest: seq<string>, batchSize: nat)
    requires batchSize > 0
    requires forall k | 0 <= k < |runs| ::
               BatchesIn(runs[k].state.replies) + Chunks(runs[k].state.rest, batchSize) == Chunks(StartOf(runs, k, rest), batchSize)
    ensures AllBatches(RepliesOf(runs)) + Chunks(LeftAfter(runs, rest), batchSize) == Chunks(rest, batchSize)
    decreases |runs|
  {
    if runs != [] {
      var tail := runs[1..];
      forall k | 0 <= k < |tail|
        ensures BatchesIn(tail[k].state.replies) + Chunks(tail[k].state.rest, batchSize) == Chunks(StartOf(tail, k, runs[0].state.rest), batchSize)
      {
        assert tail[k] == runs[k + 1];
        assert StartOf(tail, k, runs[0].state.rest) == StartOf(runs, k + 1, rest);
      }
      RunsHandOut(tail, runs[0].state.rest, batchSize);
      assert StartOf(runs, 0, rest) == rest;
      HandsOutCons(runs, rest, batchSize);
    }
  }

  /** A session's share of the chunks, followed by the shares of the sessions after it. */
  lemma HandsOutCons(runs: seq<Run>, rest: seq<string>, batchSize: nat)
    requires batchSize > 0 && runs != []
    requires BatchesIn(runs[0].state.replies) + Chunks(runs[0].state.rest, batchSize) == Chunks(rest, batchSize)
    requires AllBatches(RepliesOf(runs[1..])) + Chunks(LeftAfter(runs[1..], runs[0].state.rest), batchSize) == Chunks(runs[0].state.rest, batchSize)
    ensures AllBatches(RepliesOf(runs)) + Chunks(LeftAfter(runs, rest), batchSize) == Chunks(rest, batchSize)
  {
    var tail := runs[1..];
    assert LeftAfter(runs, rest) == LeftAfter(tail, runs[0].state.rest);
    HandsOutStep(runs[0].state.replies, runs[0].state.rest, RepliesOf(tail), LeftAfter(tail, runs[0].state.rest), rest, batchSize);
  }


  /**
    One pass of the accept loop: connection i is served to its end,
    and what the loop has recorded grows by its session.
   */
  method ServeNext(queue: BatchQueue, store: VideoStore, conns: seq<seq<Message>>, i: nat, sent: seq<seq<Message>>, outcomes: seq<Outcome>,
                   ghost links: seq<string>, ghost runs: seq<Run>, ghost old0: seq<NewVideo>, parse: StatusParser)
    returns (sent': seq<seq<Message>>, outcomes': seq<Outcome>, ghost runs': seq<Run>, panicked: bool)
    requires queue.Valid() && i < |conns|
    requires AcceptRuns(conns, 0, links, queue.batchSize, parse) == runs + AcceptRuns(conns, i, queue.rest, queue.batchSize, parse)
    requires |runs| == |sent| == |outcomes| && forall k | 0 <= k < |runs| :: sent[k] == runs[k].state.replies && outcomes[k] == runs[k].outcome
    requires queue.rest == LeftAfter(runs, links)
    requires store.rows == old0 + InsertedBy(runs)
    modifies queue, store
    ensures queue.Valid()
    ensures |runs'| == |sent'| == |outcomes'| == |runs| + 1
    ensures forall k | 0 <= k < |runs'| :: sent'[k] == runs'[k].state.replies && outcomes'[k] == runs'[k].outcome
    ensures queue.rest == LeftAfter(runs', links)
    ensures store.rows == old0 + InsertedBy(runs')
    ensures panicked ==> AcceptRuns(conns, 0, links, queue.batchSize, parse) == runs'
    ensures !panicked ==> AcceptRuns(conns, 0, links, queue.batchSize, parse) == runs' + AcceptRuns(conns, i + 1, queue.rest, queue.batchSize, parse)
  {
    ghost var before := queue.rest;
    var replies, logs, bar, outcome;
    replies, logs, bar, outcome := RunSession(queue, store, conns[i], parse);
    ghost var run := Session(conns[i], before, queue.batchSize, parse);
    runs' := runs + [run];
    sent', outcomes' := sent + [replies], outcomes + [outcome];
    panicked := outcome.AcceptLoopPanic?;
    if !panicked {
      AppendAssoc(runs, [run], AcceptRuns(conns, i + 1, run.state.rest, queue.batchSize, parse));
    }
    InsertedByAppend(runs, run);
    AppendAssoc(old0, InsertedBy(runs), run.state.inserted);
  }

  /**
    `main` from reading the DB to the end of its accept loop: the links not
    already recorded are queued, and the connections are served in the
    order they are accepted, each to its end, until one panics the accept
    loop. The batches sent over all sessions, followed by the chunks left,
    are the chunks of the filtered list: each new link goes out once, in
    order, and no link already recorded goes out at all.
   */
  method AcceptLoop(store: VideoStore, raw: seq<string>, batchSize: nat, conns: seq<seq<Message>>, parse: StatusParser)
    returns (queue: BatchQueue, sent: seq<seq<Message>>, outcomes: seq<Outcome>, ghost runs: seq<Run>)
    requires batchSize > 0
    modifies store
    ensures fresh(queue) && queue.Valid()
    ensures queue.links == Filtered(raw, old(store.Uids())) && queue.batchSize == batchSize
    ensures |sent| == |outcomes| <= |conns|
    ensures forall k :: 0 <= k < |outcomes| - 1 ==> !outcomes[k].AcceptLoopPanic?
    ensures |outcomes| < |conns| ==> outcomes != [] && outcomes[|outcomes| - 1].AcceptLoopPanic?
    ensures AllBatches(sent) + Chunks(queue.rest, batchSize) == Chunks(Filtered(raw, old(store.Uids())), batchSize)
    ensures runs == AcceptRuns(conns, 0, Filtered(raw, old(store.Uids())), batchSize, parse)
    ensures |runs| == |sent| && forall k | 0 <= k < |runs| :: sent[k] == runs[k].state.replies && outcomes[k] == runs[k].outcome
    ensures runs != [] ==> runs[0] == Session(conns[0], Filtered(raw, old(store.Uids())), batchSize, parse)
    ensures forall k | 0 < k < |runs| :: runs[k] == Session(conns[k], runs[k - 1].state.rest, batchSize, parse)
    ensures queue.rest == LeftAfter(runs, queue.links) && store.rows == old(store.rows) + InsertedBy(runs)
  {
    var downloaded := store.Uids();
    var links := FilterLinks(raw, downloaded);
    queue := new BatchQueue(links, batchSize);
    sent, outcomes, runs := ServeConnections(queue, store, conns, parse);
    AcceptRecord(conns, links, batchSize, parse, sent, outcomes, runs);
  }

  /**
    The accept loop proper: each connection is served to its end on the
    shared queue and store, in order, until one panics the accept loop.
   */
  method ServeConnections(queue: BatchQueue, store: VideoStore, conns: seq<seq<Message>>, parse: StatusParser)
    returns (sent: seq<seq<Message>>, outcomes: seq<Outcome>, ghost runs: seq<Run>)
    requires queue.Valid()
    modifies queue, store
    ensures queue.Valid()
    ensures runs == AcceptRuns(conns, 0, old(queue.rest), queue.batchSize, parse)
    ensures |runs| == |sent| == |outcomes| && forall k | 0 <= k < |runs| :: sent[k] == runs[k].state.replies && outcomes[k] == runs[k].outcome
    ensures queue.rest == LeftAfter(runs, old(queue.rest)) && store.rows == old(store.rows) + InsertedBy(runs)
  {
    ghost var links := queue.rest;
    sent, outcomes, runs := [], [], [];
    var i := 0;
    while i < |conns|
      invariant 0 <= i <= |conns| && |runs| == |sent| == |outcomes| == i
      invariant queue.Valid()
      invariant AcceptRuns(conns, 0, links, queue.batchSize, parse) == runs + AcceptRuns(conns, i, queue.rest, queue.batchSize, parse)
      invariant forall k | 0 <= k < |runs| :: sent[k] == runs[k].state.replies && outcomes[k] == runs[k].outcome
      invariant queue.rest == LeftAfter(runs, links) && store.rows == old(store.rows) + InsertedBy(runs)
    {
      var panicked;
      sent, outcomes, runs, panicked := ServeNext(queue, store, conns, i, sent, outcomes, links, runs, old(store.rows), parse);
      i := i + 1;
      if panicked {
        return;
      }
    }
  }
}
