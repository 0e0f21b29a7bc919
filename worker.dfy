/**
  The worker process of src/bin/client.rs: it greets the master with its
  id, checks the echo, then asks for batches until it is told to stop. The
  yt_dlp download of the k-th link (counting across batches) is an opaque
  call; all the model keeps of it is the strings it passes to the progress
  hook, `hooks(k, link)`, each of which the callback forwards to the master.
  The replies are what the master sends, in order; running out of them is
  the read failure of a closed connection.
 */
module Worker {
  import opened Wrappers
  import opened Bytes
  import opened Protocol
  import opened Batching
  import Master

  datatype WorkerFault =
    | ReadFailed                     // `read_json_msg::<Message>().unwrap()` failed
    | Garbage(got: Message)          // "Server sent garbage"
    | WrongId(id: Usize)             // "Server sent greeting with wrong id"
    | UnexpectedReply(got: Message)  // `unimplemented!("Wrong batch header, ..")`

  datatype WorkerOutcome = Finished | Panicked(fault: WorkerFault)

  /** Everything the worker wrote to the socket, and how it ended. */
  datatype WRun = WRun(sent: seq<Message>, outcome: WorkerOutcome)

  /** The strings the progress hook receives during the k-th download, of the given link. */
  type Hooks = (nat, string) -> seq<string>

  /**
    The handshake check as written: the reply must equal `Greeting(0)`, and
    its id must then equal the worker's own id.
   */
  function HandshakeAsWritten(thrId: Usize, reply: Message): (r: Result<(), WorkerFault>)
    ensures r.Success? <==> reply == Greeting(0) && thrId == 0
    ensures reply != Greeting(0) ==> r == Failure(Garbage(reply))
    ensures reply == Greeting(0) && thrId != 0 ==> r == Failure(WrongId(0))
  {
    if reply != Greeting(0) then Failure(Garbage(reply))
    else if thrId != reply.id then Failure(WrongId(reply.id))
    else Success(())
  }

  /**
    The handshake check the two steps evidently mean: the reply must be a
    Greeting, and it must carry the worker's own id.
   */
  function Handshake(thrId: Usize, reply: Message): (r: Result<(), WorkerFault>)
    ensures r.Success? <==> reply == Greeting(thrId)
    ensures !reply.Greeting? ==> r == Failure(Garbage(reply))
    ensures reply.Greeting? && reply.id != thrId ==> r == Failure(WrongId(reply.id))
  {
    if !reply.Greeting? then Failure(Garbage(reply))
    else if thrId != reply.id then Failure(WrongId(reply.id))
    else Success(())
  }

  /**
    Which handshake check the worker runs: the one src/bin/client.rs:60-71
    has, or the corrected one. Everything about the loop holds for both.
   */
  datatype Check = AsWritten | Corrected

  function HandshakeBy(check: Check, thrId: Usize, reply: Message): Result<(), WorkerFault>
  {
    match check
    case AsWritten => HandshakeAsWritten(thrId, reply)
    case Corrected => Handshake(thrId, reply)
  }

  /** The debug line the progress-hook callback sends before each report. */
  function SendingJson(thrId: Usize): Message
  {
    Log(thrId, Debug, "Thread", "Sending JSON!")
  }

  /** What the callback writes for one hook string. */
  function CallbackMessages(thrId: Usize, s: string): seq<Message>
  {
    [SendingJson(thrId), JSON(s)]
  }

  /** The info line written after each link of a batch. */
  function FinishedLog(thrId: Usize, link: string): Message
  {
    Log(thrId, Info, "Thread", "finished downloading video ID " + link)
  }

  /** What the callbacks write for a sequence of hook strings. */
  function HookMessages(thrId: Usize, strs: seq<string>): seq<Message>
  {
    if strs == [] then []
    else HookMessages(thrId, strs[..|strs| - 1]) + CallbackMessages(thrId, strs[|strs| - 1])
  }

  /** What the worker writes while it processes a batch whose first link is the k-th download. */
  function BatchMessages(thrId: Usize, links: seq<string>, k: nat, hooks: Hooks): seq<Message>
  {
    if links == [] then []
    else
      var n := |links| - 1;
      BatchMessages(thrId, links[..n], k, hooks) + HookMessages(thrId, hooks(k + n, links[n])) + [FinishedLog(thrId, links[n])]
  }

  /**
    The request loop from the j-th reply on, k downloads done, having
    written `sent` so far.
   */
  function Loop(thrId: Usize, replies: seq<Message>, j: nat, k: nat, sent: seq<Message>, hooks: Hooks): WRun
    decreases |replies| - j
  {
    var asked := sent + [BatchRequest];
    if j >= |replies| then WRun(asked, Panicked(ReadFailed))
    else if replies[j].Batch? then
      var links := replies[j].links;
      Loop(thrId, replies, j + 1, k + |links|, asked + BatchMessages(thrId, links, k, hooks), hooks)
    else if replies[j] == EndRequest then WRun(asked, Finished)
    else WRun(asked, Panicked(UnexpectedReply(replies[j])))
  }

  /** The whole worker: the greeting, the handshake check, then the loop. */
  function Worker(check: Check, thrId: Usize, replies: seq<Message>, hooks: Hooks): WRun
  {
    var greeted := [Greeting(thrId)];
    if replies == [] then WRun(greeted, Panicked(ReadFailed))
    else match HandshakeBy(check, thrId, replies[0])
      case Failure(f) => WRun(greeted, Panicked(f))
      case Success(_) => Loop(thrId, replies, 1, 0, greeted, hooks)
  }

  /**
    The progress-hook callbacks of one download: each hook string goes out
    as the debug line, then as a JSON message.
   */
  method Forward(thrId: Usize, strs: seq<string>) returns (written: seq<Message>)
    ensures written == HookMessages(thrId, strs)
  {
    written := [];
    for t := 0 to |strs|
      invariant written == HookMessages(thrId, strs[..t])
    {
      assert strs[..t + 1][..t] == strs[..t];
      written := written + CallbackMessages(thrId, strs[t]);
    }
    assert strs[..|strs|] == strs;
  }

  /** `for link in batch`: download each link, its first being the k-th download, then report it finished. */
  method DownloadBatch(thrId: Usize, links: seq<string>, k: nat, hooks: Hooks) returns (written: seq<Message>)
    ensures written == BatchMessages(thrId, links, k, hooks)
  {
    written := [];
    for i := 0 to |links|
      invariant written == BatchMessages(thrId, links[..i], k, hooks)
    {
      var reported := Forward(thrId, hooks(k + i, links[i]));
      assert links[..i + 1][..i] == links[..i];
      written := written + reported + [FinishedLog(thrId, links[i])];
    }
    assert links[..|links|] == links;
  }

  /** `main` of src/bin/client.rs, from the connect on. */
  method Run(check: Check, thrId: Usize, replies: seq<Message>, hooks: Hooks) returns (sent: seq<Message>, outcome: WorkerOutcome)
    ensures WRun(sent, outcome) == Worker(check, thrId, replies, hooks)
  {
    sent := [Greeting(thrId)];
    if |replies| == 0 {
      return sent, Panicked(ReadFailed);
    }
    var msg := replies[0];
    if check == AsWritten && msg != Greeting(0) {
      return sent, Panicked(Garbage(msg));
    }
    if !msg.Greeting? {
      return sent, Panicked(Garbage(msg));
    }
    if msg.id != thrId {
      return sent, Panicked(WrongId(msg.id));
    }
    var j: nat, k: nat := 1, 0;
    while j < |replies|
      invariant 1 <= j <= |replies|
      invariant Worker(check, thrId, replies, hooks) == Loop(thrId, replies, j, k, sent, hooks)
      decreases |replies| - j
    {
      sent := sent + [BatchRequest];
      match replies[j] {
        case Batch(links) =>
          var written := DownloadBatch(thrId, links, k, hooks);
          sent := sent + written;
          k := k + |links|;
        case EndRequest =>
          return sent, Finished;
        case _ =>
          return sent, Panicked(UnexpectedReply(replies[j]));
      }
      j := j + 1;
    }
    sent := sent + [BatchRequest];
    outcome := Panicked(ReadFailed);
  }

  // ---------------------------------------------------------------------
  // What the worker writes
  // ---------------------------------------------------------------------

  lemma {:induction false} LoopExtends(thrId: Usize, replies: seq<Message>, j: nat, k: nat, sent: seq<Message>, hooks: Hooks)
    ensures var r := Loop(thrId, replies, j, k, sent, hooks).sent;
            |sent| < |r| && r[..|sent|] == sent && r[|sent|] == BatchRequest
    decreases |replies| - j
  {
    if j < |replies| && replies[j].Batch? {
      var asked := sent + [BatchRequest] + BatchMessages(thrId, replies[j].links, k, hooks);
      LoopExtends(thrId, replies, j + 1, k + |replies[j].links|, asked, hooks);
      var r := Loop(thrId, replies, j + 1, k + |replies[j].links|, asked, hooks).sent;
      assert r[..|sent|] == r[..|asked|][..|sent|];
    }
  }

  /** The worker's first message is its Greeting, and it is followed by a BatchRequest once the handshake passes. */
  lemma WorkerGreetsFirst(check: Check, thrId: Usize, replies: seq<Message>, hooks: Hooks)
    ensures var r := Worker(check, thrId, replies, hooks);
            |r.sent| > 0 && r.sent[0] == Greeting(thrId) &&
            (|r.sent| == 1 <==>
               r.outcome.Panicked? &&
               (replies == [] || replies[0] != Greeting(thrId) || (check == AsWritten && thrId != 0))) &&
            (|r.sent| > 1 ==> r.sent[1] == BatchRequest)
  {
    if replies != [] && HandshakeBy(check, thrId, replies[0]).Success? {
      LoopExtends(thrId, replies, 1, 0, [Greeting(thrId)], hooks);
    }
  }

  /** Each hook string t is forwarded as the debug line, then JSON(t), in hook order. */
  lemma {:induction false} HookMessagesShape(thrId: Usize, strs: seq<string>)
    ensures var r := HookMessages(thrId, strs);
            |r| == 2 * |strs| &&
            forall t :: 0 <= t < |strs| ==> r[2 * t] == SendingJson(thrId) && r[2 * t + 1] == JSON(strs[t])
  {
    if strs != [] {
      var n := |strs| - 1;
      HookMessagesShape(thrId, strs[..n]);
      var r, p := HookMessages(thrId, strs), HookMessages(thrId, strs[..n]);
      assert r == p + [SendingJson(thrId), JSON(strs[n])];
      forall t | 0 <= t < |strs|
        ensures r[2 * t] == SendingJson(thrId) && r[2 * t + 1] == JSON(strs[t])
      {
        if t < n {
          assert r[2 * t] == p[2 * t] && r[2 * t + 1] == p[2 * t + 1];
          assert strs[..n][t] == strs[t];
        }
      }
    }
  }

  predicate IsInfo(m: Message)
  {
    m.Log? && m.level == Info
  }

  /** The info-level log lines among ms, in order. */
  function InfoLogs(ms: seq<Message>): seq<Message>
  {
    if ms == [] then []
    else InfoLogs(ms[..|ms| - 1]) + (if IsInfo(ms[|ms| - 1]) then [ms[|ms| - 1]] else [])
  }

  lemma {:induction false} InfoLogsAppend(a: seq<Message>, b: seq<Message>)
    ensures InfoLogs(a + b) == InfoLogs(a) + InfoLogs(b)
    decreases |b|
  {
    if b == [] {
      assert a + b == a;
    } else {
      var n := |b| - 1;
      assert (a + b)[..|a + b| - 1] == a + b[..n];
      InfoLogsAppend(a, b[..n]);
    }
  }

  lemma {:induction false} HookMessagesNoInfo(thrId: Usize, strs: seq<string>)
    ensures InfoLogs(HookMessages(thrId, strs)) == []
  {
    if strs != [] {
      var n := |strs| - 1;
      var front := HookMessages(thrId, strs[..n]);
      HookMessagesNoInfo(thrId, strs[..n]);
      assert HookMessages(thrId, strs) == front + [SendingJson(thrId)] + [JSON(strs[n])];
      InfoLogsAppend(front + [SendingJson(thrId)], [JSON(strs[n])]);
      InfoLogsAppend(front, [SendingJson(thrId)]);
      Single(SendingJson(thrId));
      Single(JSON(strs[n]));
    }
  }

  /** One finished line per link, in link order. */
  function FinishedLogs(thrId: Usize, links: seq<string>): seq<Message>
  {
    seq(|links|, i requires 0 <= i < |links| => FinishedLog(thrId, links[i]))
  }

  lemma FinishedLogsAppend(thrId: Usize, a: seq<string>, b: seq<string>)
    ensures FinishedLogs(thrId, a + b) == FinishedLogs(thrId, a) + FinishedLogs(thrId, b)
  {
  }

  /**
    Whatever the downloads report, the info-level lines of a batch are
    exactly one "finished downloading video ID {link}" per link, in batch
    order.
   */
  lemma {:induction false} BatchInfoLogs(thrId: Usize, links: seq<string>, k: nat, hooks: Hooks)
    ensures InfoLogs(BatchMessages(thrId, links, k, hooks)) == FinishedLogs(thrId, links)
  {
    if links != [] {
      var n := |links| - 1;
      var front := BatchMessages(thrId, links[..n], k, hooks);
      var hm := HookMessages(thrId, hooks(k + n, links[n]));
      var fl := FinishedLog(thrId, links[n]);
      calc {
        InfoLogs(BatchMessages(thrId, links, k, hooks));
        InfoLogs(front + hm + [fl]);
        { InfoLogsAppend(front + hm, [fl]); Single(fl); }
        InfoLogs(front + hm) + [fl];
        { InfoLogsAppend(front, hm); HookMessagesNoInfo(thrId, hooks(k + n, links[n])); }
        InfoLogs(front) + [fl];
        { BatchInfoLogs(thrId, links[..n], k, hooks); }
        FinishedLogs(thrId, links[..n]) + [fl];
        { assert links == links[..n] + [links[n]]; FinishedLogsAppend(thrId, links[..n], [links[n]]); }
        FinishedLogs(thrId, links);
      }
    }
  }

  /** Nothing written while a batch is processed is a BatchRequest. */
  lemma {:induction false} BatchMessagesAreReports(thrId: Usize, links: seq<string>, k: nat, hooks: Hooks)
    ensures forall m :: m in BatchMessages(thrId, links, k, hooks) ==> m.Log? || m.JSON?
  {
    if links != [] {
      var n := |links| - 1;
      BatchMessagesAreReports(thrId, links[..n], k, hooks);
      HookMessagesAreReports(thrId, hooks(k + n, links[n]));
    }
  }

  lemma {:induction false} HookMessagesAreReports(thrId: Usize, strs: seq<string>)
    ensures forall m :: m in HookMessages(thrId, strs) ==> m.Log? || m.JSON?
  {
    if strs != [] {
      HookMessagesAreReports(thrId, strs[..|strs| - 1]);
    }
  }

  // ---------------------------------------------------------------------
  // A whole conversation
  // ---------------------------------------------------------------------

  /** The replies of a master that hands out bs, one batch per request, then EndRequest. */
  function BatchReplies(bs: seq<seq<string>>): (r: seq<Message>)
    ensures |r| == |bs| && forall i :: 0 <= i < |bs| ==> r[i] == Batch(bs[i])
  {
    seq(|bs|, i requires 0 <= i < |bs| => Batch(bs[i]))
  }

  /** What the worker writes in the iterations that get the batches bs, the first link being the k-th download. */
  function Conversation(thrId: Usize, bs: seq<seq<string>>, k: nat, hooks: Hooks): seq<Message>
  {
    if bs == [] then []
    else [BatchRequest] + BatchMessages(thrId, bs[0], k, hooks) + Conversation(thrId, bs[1..], k + |bs[0]|, hooks)
  }

  /** Conversation with what was written before it and the final BatchRequest, built up as the loop builds it. */
  function Transcript(thrId: Usize, sent: seq<Message>, bs: seq<seq<string>>, k: nat, hooks: Hooks): seq<Message>
    decreases |bs|
  {
    if bs == [] then sent + [BatchRequest]
    else Transcript(thrId, sent + [BatchRequest] + BatchMessages(thrId, bs[0], k, hooks), bs[1..], k + |bs[0]|, hooks)
  }

  lemma {:induction false} TranscriptIsConversation(thrId: Usize, sent: seq<Message>, bs: seq<seq<string>>, k: nat, hooks: Hooks)
    ensures Transcript(thrId, sent, bs, k, hooks) == sent + Conversation(thrId, bs, k, hooks) + [BatchRequest]
    decreases |bs|
  {
    if bs != [] {
      var b := BatchMessages(thrId, bs[0], k, hooks);
      var tail := Conversation(thrId, bs[1..], k + |bs[0]|, hooks);
      TranscriptIsConversation(thrId, sent + [BatchRequest] + b, bs[1..], k + |bs[0]|, hooks);
      assert sent + ([BatchRequest] + b + tail) + [BatchRequest] == sent + [BatchRequest] + b + tail + [BatchRequest];
    }
  }

  lemma {:induction false} LoopTrace(thrId: Usize, replies: seq<Message>, j: nat, bs: seq<seq<string>>, k: nat, sent: seq<Message>, hooks: Hooks)
    requires j <= |replies| && replies[j..] == BatchReplies(bs) + [EndRequest]
    ensures Loop(thrId, replies, j, k, sent, hooks) == WRun(Transcript(thrId, sent, bs, k, hooks), Finished)
    decreases |bs|
  {
    assert replies[j] == replies[j..][0];
    if bs != [] {
      assert replies[j] == Batch(bs[0]);
      assert replies[j + 1..] == replies[j..][1..];
      assert BatchReplies(bs)[1..] == BatchReplies(bs[1..]);
      LoopTrace(thrId, replies, j + 1, bs[1..], k + |bs[0]|, sent + [BatchRequest] + BatchMessages(thrId, bs[0], k, hooks), hooks);
    }
  }

  /**
    Against a master that accepts the greeting, hands out the batches bs and
    then EndRequest, the worker finishes normally having written its
    Greeting, then for each batch one BatchRequest followed by the batch's
    messages, then the BatchRequest that got EndRequest.
   */
  lemma WorkerTrace(check: Check, thrId: Usize, bs: seq<seq<string>>, hooks: Hooks)
    ensures Worker(check, thrId, [Greeting(thrId)] + BatchReplies(bs) + [EndRequest], hooks) ==
            if check == AsWritten && thrId != 0 then WRun([Greeting(thrId)], Panicked(Garbage(Greeting(thrId))))
            else WRun([Greeting(thrId)] + Conversation(thrId, bs, 0, hooks) + [BatchRequest], Finished)
  {
    var replies := [Greeting(thrId)] + BatchReplies(bs) + [EndRequest];
    if check == Corrected || thrId == 0 {
      assert replies[1..] == BatchReplies(bs) + [EndRequest];
      LoopTrace(thrId, replies, 1, bs, 0, [Greeting(thrId)], hooks);
      TranscriptIsConversation(thrId, [Greeting(thrId)], bs, 0, hooks);
    }
  }

  lemma {:induction false} ConversationInfoLogs(thrId: Usize, bs: seq<seq<string>>, k: nat, hooks: Hooks)
    ensures InfoLogs(Conversation(thrId, bs, k, hooks)) == FinishedLogs(thrId, Flatten(bs))
  {
    if bs != [] {
      var b := BatchMessages(thrId, bs[0], k, hooks);
      var tail := Conversation(thrId, bs[1..], k + |bs[0]|, hooks);
      calc {
        InfoLogs(Conversation(thrId, bs, k, hooks));
        InfoLogs([BatchRequest] + b + tail);
        { InfoLogsAppend([BatchRequest] + b, tail); InfoLogsAppend([BatchRequest], b); Single(BatchRequest); }
        InfoLogs(b) + InfoLogs(tail);
        { BatchInfoLogs(thrId, bs[0], k, hooks); ConversationInfoLogs(thrId, bs[1..], k + |bs[0]|, hooks); }
        FinishedLogs(thrId, bs[0]) + FinishedLogs(thrId, Flatten(bs[1..]));
        { FinishedLogsAppend(thrId, bs[0], Flatten(bs[1..])); }
        FinishedLogs(thrId, Flatten(bs));
      }
    }
  }

  lemma {:induction false} NoRequests(ms: seq<Message>)
    requires forall m :: m in ms ==> m.Log? || m.JSON?
    ensures Requests(ms) == 0
  {
    if ms != [] {
      var init := ms[..|ms| - 1];
      forall m | m in init ensures m.Log? || m.JSON? {
        var i :| 0 <= i < |init| && init[i] == m;
        assert ms[i] == m;
      }
      NoRequests(init);
      assert ms[|ms| - 1] in ms;
      assert ms[|ms| - 1] != BatchRequest;
    }
  }

  lemma Single(m: Message)
    ensures Requests([m]) == (if m == BatchRequest then 1 else 0)
    ensures InfoLogs([m]) == (if IsInfo(m) then [m] else [])
  {
    assert [m][..0] == [];
  }

  lemma {:induction false} ConversationRequests(thrId: Usize, bs: seq<seq<string>>, k: nat, hooks: Hooks)
    ensures Requests(Conversation(thrId, bs, k, hooks)) == |bs|
  {
    if bs != [] {
      var b := BatchMessages(thrId, bs[0], k, hooks);
      var tail := Conversation(thrId, bs[1..], k + |bs[0]|, hooks);
      calc {
        Requests(Conversation(thrId, bs, k, hooks));
        Requests([BatchRequest] + b + tail);
        { RequestsAppend([BatchRequest] + b, tail); RequestsAppend([BatchRequest], b); Single(BatchRequest); }
        1 + Requests(b) + Requests(tail);
        { BatchMessagesAreReports(thrId, bs[0], k, hooks); NoRequests(b); }
        1 + Requests(tail);
        { ConversationRequests(thrId, bs[1..], k + |bs[0]|, hooks); }
        |bs|;
      }
    }
  }

  /**
    In that conversation every loop iteration starts with exactly one
    BatchRequest (one per batch, and the last that got EndRequest), and the
    info-level lines are one per link of every batch, in the order the
    links were handed out.
   */
  lemma WorkerTraceCounts(check: Check, thrId: Usize, bs: seq<seq<string>>, hooks: Hooks)
    ensures var sent := Worker(check, thrId, [Greeting(thrId)] + BatchReplies(bs) + [EndRequest], hooks).sent;
            (check == Corrected || thrId == 0 ==>
               Requests(sent) == |bs| + 1 && InfoLogs(sent) == FinishedLogs(thrId, Flatten(bs))) &&
            (check == AsWritten && thrId != 0 ==> Requests(sent) == 0 && InfoLogs(sent) == [])
  {
    WorkerTrace(check, thrId, bs, hooks);
    Single(Greeting(thrId));
    if check == Corrected || thrId == 0 {
      TranscriptCounts(thrId, bs, hooks);
    }
  }

  lemma TranscriptCounts(thrId: Usize, bs: seq<seq<string>>, hooks: Hooks)
    ensures var sent := [Greeting(thrId)] + Conversation(thrId, bs, 0, hooks) + [BatchRequest];
            Requests(sent) == |bs| + 1 && InfoLogs(sent) == FinishedLogs(thrId, Flatten(bs))
  {
    var c := Conversation(thrId, bs, 0, hooks);
    ConversationRequests(thrId, bs, 0, hooks);
    RequestsAppend([Greeting(thrId)] + c, [BatchRequest]);
    RequestsAppend([Greeting(thrId)], c);
    calc {
      InfoLogs([Greeting(thrId)] + c + [BatchRequest]);
      { InfoLogsAppend([Greeting(thrId)] + c, [BatchRequest]); InfoLogsAppend([Greeting(thrId)], c);
        Single(Greeting(thrId)); Single(BatchRequest); }
      InfoLogs(c);
      { ConversationInfoLogs(thrId, bs, 0, hooks); }
      FinishedLogs(thrId, Flatten(bs));
    }
  }

  // ---------------------------------------------------------------------
  // How the worker ends
  // ---------------------------------------------------------------------

  /** Whether the replies from the j-th on are Batches up to an EndRequest. */
  ghost predicate EndsAfterBatches(replies: seq<Message>, j: nat)
  {
    exists e :: j <= e < |replies| && replies[e] == EndRequest && forall t :: j <= t < e ==> replies[t].Batch?
  }

  lemma {:induction false} LoopFinished(thrId: Usize, replies: seq<Message>, j: nat, k: nat, sent: seq<Message>, hooks: Hooks)
    ensures Loop(thrId, replies, j, k, sent, hooks).outcome == Finished <==> EndsAfterBatches(replies, j)
    decreases |replies| - j
  {
    if j < |replies| {
      match replies[j]
      case Batch(links) =>
        var asked := sent + [BatchRequest] + BatchMessages(thrId, links, k, hooks);
        LoopFinished(thrId, replies, j + 1, k + |links|, asked, hooks);
        if EndsAfterBatches(replies, j) {
          var e :| j <= e < |replies| && replies[e] == EndRequest && forall t :: j <= t < e ==> replies[t].Batch?;
          assert j + 1 <= e;
        }
        if EndsAfterBatches(replies, j + 1) {
          var e :| j + 1 <= e < |replies| && replies[e] == EndRequest && forall t :: j + 1 <= t < e ==> replies[t].Batch?;
          assert forall t :: j <= t < e ==> replies[t].Batch?;
        }
      case _ =>
    }
  }

  /**
    The worker returns Ok exactly when the master echoes its Greeting and
    then answers its requests with Batches and finally an EndRequest;
    anything else in that place panics.
   */
  lemma WorkerFinished(check: Check, thrId: Usize, replies: seq<Message>, hooks: Hooks)
    ensures Worker(check, thrId, replies, hooks).outcome == Finished <==>
            |replies| > 0 && replies[0] == Greeting(thrId) && (check == Corrected || thrId == 0) &&
            EndsAfterBatches(replies, 1)
  {
    if replies != [] && HandshakeBy(check, thrId, replies[0]).Success? {
      LoopFinished(thrId, replies, 1, 0, [Greeting(thrId)], hooks);
    }
  }

  lemma {:induction false} LoopIgnoresHooks(thrId: Usize, replies: seq<Message>, j: nat, k: nat, s1: seq<Message>, s2: seq<Message>, h1: Hooks, h2: Hooks)
    ensures Loop(thrId, replies, j, k, s1, h1).outcome == Loop(thrId, replies, j, k, s2, h2).outcome
    decreases |replies| - j
  {
    if j < |replies| && replies[j].Batch? {
      var links := replies[j].links;
      LoopIgnoresHooks(thrId, replies, j + 1, k + |links|,
        s1 + [BatchRequest] + BatchMessages(thrId, links, k, h1),
        s2 + [BatchRequest] + BatchMessages(thrId, links, k, h2), h1, h2);
    }
  }

  /**
    What the downloads do never changes how the worker ends: a failed
    download's result is discarded and the loop goes on.
   */
  lemma OutcomeIgnoresDownloads(check: Check, thrId: Usize, replies: seq<Message>, h1: Hooks, h2: Hooks)
    ensures Worker(check, thrId, replies, h1).outcome == Worker(check, thrId, replies, h2).outcome
  {
    if replies != [] && HandshakeBy(check, thrId, replies[0]).Success? {
      LoopIgnoresHooks(thrId, replies, 1, 0, [Greeting(thrId)], [Greeting(thrId)], h1, h2);
    }
  }

  // ---------------------------------------------------------------------
  // The handshake against the master of src/main.rs
  // ---------------------------------------------------------------------

  /**
    As written, the worker's check rejects the master's echo of its own
    Greeting whenever its id is not 0: every worker but the first panics
    with "Server sent garbage".
   */
  lemma AsWrittenRejectsEcho(thrId: Usize, ms: seq<Message>, rest: seq<string>, batchSize: nat, parse: Master.StatusParser, hooks: Hooks)
    requires batchSize > 0 && thrId != 0
    requires ms != [] && ms[0] == Greeting(thrId)
    ensures var echo := Master.Session(ms, rest, batchSize, parse).state.replies;
            |echo| > 0 && HandshakeAsWritten(thrId, echo[0]) == Failure(Garbage(Greeting(thrId))) &&
            Worker(AsWritten, thrId, echo, hooks) == WRun([Greeting(thrId)], Panicked(Garbage(Greeting(thrId))))
  {
    Master.SessionHandshake(ms, rest, batchSize, parse);
  }

  /** The corrected check accepts the master's echo for every id. */
  lemma EchoAccepted(thrId: Usize, ms: seq<Message>, rest: seq<string>, batchSize: nat, parse: Master.StatusParser, hooks: Hooks)
    requires batchSize > 0
    requires ms != [] && ms[0] == Greeting(thrId)
    ensures var echo := Master.Session(ms, rest, batchSize, parse).state.replies;
            |echo| > 0 && Handshake(thrId, echo[0]).Success? &&
            |Worker(Corrected, thrId, echo, hooks).sent| > 1
  {
    Master.SessionHandshake(ms, rest, batchSize, parse);
    var echo := Master.Session(ms, rest, batchSize, parse).state.replies;
    WorkerGreetsFirst(Corrected, thrId, echo, hooks);
  }

  /** For the worker with id 0 the corrected check accepts and refuses the same replies as the original. */
  lemma HandshakesAgreeAtZero(reply: Message)
    ensures Handshake(0, reply).Success? <==> HandshakeAsWritten(0, reply).Success?
    ensures !reply.Greeting? ==> Handshake(0, reply) == HandshakeAsWritten(0, reply)
  {
  }
}
