/** The WebSocket actor of websocket-chat/src/actor.rs.

    The actor owns the stream; a `SenderHandle` reaches it through the outbound
    queue of `(Message, oneshot)` pairs and a `ReceiverHandle` through the inbound
    queue of stream items, both bounded at 8. The stream is the sequence of items
    it will still yield (then end of stream) and the log of messages written to
    it; whether a write fails is an oracle passed with each step. `select!` is a
    `Choice` between its two arms. A one-shot slot is identified by a ticket and
    its state is seen from the awaiting side.

    The pure transitions on `ActorState` are the specification; the class
    `WebsocketActor` performs them in place. */
module ActorSpec {
  import opened Wrappers
  import opened Messages

  /** The bound given to both `mpsc::channel` calls of `start_actor`. */
  const QueueCapacity: nat := 8

  /** The one-shot failure slot of one `SenderHandle::send`: nothing yet, an error
      sent by the actor, or the actor's end dropped without sending. */
  datatype Reply = Waiting | Reported(error: WsError) | Released

  /** An outbound queue entry: the message and the ticket of its one-shot slot. */
  datatype Submission = Submission(msg: Message, ticket: nat)

  /** Which arm of `select!` fires; a write with the queue arm fails iff
      `writeError` is `Some`. */
  datatype Choice = StreamReady | QueueReady(writeError: Option<WsError>)

  /** How a step ends: the loop goes on, breaks, is suspended forwarding into a
      full inbound queue, or the chosen arm had nothing ready. */
  datatype StepResult = Continue | Stop | Blocked | Idle

  /** The first half of `SenderHandle::send`. */
  datatype SubmitResult = Queued(ticket: nat) | QueueFull | QueueClosed

  /** A call that has either finished with a value or is still suspended. */
  datatype Progress<+T> = Ready(value: T) | Suspended

  datatype ActorState = ActorState(
    input: seq<WsResult<Message>>,    // what the stream still yields, then end of stream
    written: seq<Message>,            // what was written to the stream, in order
    outbound: seq<Submission>,        // the (Message, oneshot) queue
    sendersAlive: bool,               // some SenderHandle still exists
    inbound: seq<WsResult<Message>>,  // the queue drained by the ReceiverHandle
    receiverAlive: bool,              // the ReceiverHandle still exists
    parked: Option<WsResult<Message>>, // a stream item waiting for room in `inbound`
    replies: map<nat, Reply>,         // one-shot slots by ticket
    nextTicket: nat,
    running: bool,                    // the run loop has not broken
    accepted: seq<Message>            // every message ever queued, in submission order
  )

  function Msgs(q: seq<Submission>): (ms: seq<Message>)
    ensures |ms| == |q| && forall i | 0 <= i < |q| :: ms[i] == q[i].msg
  {
    if q == [] then [] else [q[0].msg] + Msgs(q[1..])
  }

  function Tickets(q: seq<Submission>): set<nat> {
    set i | 0 <= i < |q| :: q[i].ticket
  }

  /** What the one-shot slots and the queues keep even between the halves of a
      loop turn: both queues within their bound; once stopped, nothing is queued
      or parked; a slot is waiting exactly while its submission is queued; and
      the stream has received a prefix of the submissions. */
  ghost predicate SlotsInv(s: ActorState) {
    && |s.outbound| <= QueueCapacity
    && |s.inbound| <= QueueCapacity
    && (!s.running ==> s.outbound == [] && s.parked.None?)
    && (forall i, j | 0 <= i < j < |s.outbound| :: s.outbound[i].ticket != s.outbound[j].ticket)
    && Tickets(s.outbound) <= s.replies.Keys
    && (forall t | t in s.replies :: t < s.nextTicket)
    && (forall t | t in s.replies :: s.replies[t].Waiting? <==> t in Tickets(s.outbound))
    && s.written <= s.accepted
  }

  /** The actor's invariant: the slots are consistent and, while the loop runs,
      the stream has received every submission save the queued ones, in
      submission order. */
  ghost predicate Inv(s: ActorState) {
    && SlotsInv(s)
    && (s.running ==> s.accepted == s.written + Msgs(s.outbound))
  }

  /** `start_actor`: both queues empty, the loop running, both handles alive. */
  function Start(input: seq<WsResult<Message>>): (s: ActorState)
    ensures Inv(s) && s.running && s.sendersAlive && s.receiverAlive
    ensures s.outbound == [] && s.inbound == [] && s.written == [] && s.input == input
  {
    ActorState(input, [], [], true, [], true, None, map[], 0, true, [])
  }

  /** The loop breaks: `self` is dropped, so every queued submission's one-shot
      sender goes with the queue without sending anything. */
  function Halt(s: ActorState): (h: ActorState)
  {
    s.(outbound := [], parked := None, running := false,
       replies := map t | t in s.replies :: if t in Tickets(s.outbound) then Released else s.replies[t])
  }

  /** `SenderHandle::send`, up to the enqueue: refused once the actor's end of the
      queue is gone, suspended while the queue is full. */
  function Submit(s: ActorState, msg: Message): (r: (ActorState, SubmitResult))
    requires s.sendersAlive
  {
    if !s.running then (s, QueueClosed)
    else if |s.outbound| >= QueueCapacity then (s, QueueFull)
    else
      (s.(outbound := s.outbound + [Submission(msg, s.nextTicket)],
          replies := s.replies[s.nextTicket := Waiting],
          nextTicket := s.nextTicket + 1,
          accepted := s.accepted + [msg]),
       Queued(s.nextTicket))
  }

  /** `SenderHandle::send` after the enqueue: an error in the one-shot is the
      result; a one-shot dropped empty means success. */
  function AwaitReply(s: ActorState, ticket: nat): (r: Progress<WsResult<()>>)
    requires ticket in s.replies
    ensures r == Ready(Ok(())) <==> s.replies[ticket] == Released
    ensures r.Ready? && r.value.Err? <==> s.replies[ticket].Reported?
    ensures r.Ready? && r.value.Err? ==> r.value.error == s.replies[ticket].error
  {
    match s.replies[ticket]
    case Waiting => Suspended
    case Reported(e) => Ready(Err(e))
    case Released => Ready(Ok(()))
  }

  /** `SenderHandle::send` as a whole, for a submission whose slot is `reply`. */
  function SendResult(submitted: SubmitResult, reply: Reply): Progress<WsResult<()>> {
    match submitted
    case QueueClosed => Ready(Err(AlreadyClosed))
    case QueueFull => Suspended
    case Queued(_) => match reply
      case Waiting => Suspended
      case Reported(e) => Ready(Err(e))
      case Released => Ready(Ok(()))
  }

  /** The items on their way to the `ReceiverHandle`, in the order it will get
      them: those queued, the one parked, then what the stream still yields. */
  function InFlight(s: ActorState): seq<WsResult<Message>> {
    s.inbound + (if s.parked.Some? then [s.parked.value] else []) + s.input
  }

  /** `ReceiverHandle::recv`: the next forwarded item; end of stream once the
      actor is gone and the queue is drained. */
  function Recv(s: ActorState): (r: (ActorState, Progress<Option<WsResult<Message>>>))
    requires s.receiverAlive
  {
    if s.inbound != [] then (s.(inbound := s.inbound[1..]), Ready(Some(s.inbound[0])))
    else if !s.running then (s, Ready(None))
    else (s, Suspended)
  }

  /** Every `SenderHandle` is dropped. */
  function DropSenders(s: ActorState): ActorState {
    s.(sendersAlive := false)
  }

  /** The `ReceiverHandle` is dropped, and with it what was queued for it. */
  function DropReceiver(s: ActorState): ActorState {
    s.(receiverAlive := false, inbound := [])
  }

  /** The `self.tx.send(ws_msg).await` of `recv_msg`. */
  function Forward(s: ActorState, item: WsResult<Message>): (r: (ActorState, StepResult))
  {
    if !s.receiverAlive then (Halt(s), Stop)
    else if |s.inbound| < QueueCapacity then (s.(inbound := s.inbound + [item], parked := None), Continue)
    else (s.(parked := Some(item)), Blocked)
  }

  /** The stream arm: `recv_msg(self.ws.next())`. */
  function StreamStep(s: ActorState): (r: (ActorState, StepResult))
  {
    if s.input == [] then (Halt(s), Stop)
    else Forward(s.(input := s.input[1..]), s.input[0])
  }

  /** The queue arm: `send_msg(self.rx.recv())`; a failed write reports the error
      in that submission's one-shot. */
  function QueueStep(s: ActorState, writeError: Option<WsError>): (r: (ActorState, StepResult))
  {
    if s.outbound == [] then
      (if s.sendersAlive then (s, Idle) else (Halt(s), Stop))
    else
      var sub := s.outbound[0];
      var rest := s.(outbound := s.outbound[1..]);
      match writeError
      case None => (rest.(written := s.written + [sub.msg], replies := s.replies[sub.ticket := Released]), Continue)
      case Some(e) => (Halt(rest.(replies := s.replies[sub.ticket := Reported(e)])), Stop)
  }

  /** One turn of `run`'s loop. A parked item must be forwarded before `select!`
      runs again. */
  function Step(s: ActorState, c: Choice): (r: (ActorState, StepResult))
  {
    if !s.running then (s, Idle)
    else if s.parked.Some? then Forward(s, s.parked.value)
    else match c
      case StreamReady => StreamStep(s)
      case QueueReady(e) => QueueStep(s, e)
  }

  /** `run` under a schedule of `select!` choices. */
  function Run(s: ActorState, schedule: seq<Choice>): ActorState
    decreases |schedule|
  {
    if schedule == [] || !s.running then s else Run(Step(s, schedule[0]).0, schedule[1..])
  }

  // ---- the invariant is kept by every operation ----

  lemma TicketsOfTail(q: seq<Submission>)
    requires q != []
    ensures Tickets(q) == Tickets(q[1..]) + {q[0].ticket}
  {
  }

  lemma TicketsOfAppend(q: seq<Submission>, x: Submission)
    ensures Tickets(q + [x]) == Tickets(q) + {x.ticket}
  {
    var q' := q + [x];
    assert forall i | 0 <= i < |q| :: q'[i] == q[i];
    assert q'[|q|] == x;
  }

  /** An enqueue takes a fresh ticket, so the slots stay consistent. */
  lemma SubmitKeepsSlots(s: ActorState, msg: Message)
    requires SlotsInv(s) && s.sendersAlive
    ensures SlotsInv(Submit(s, msg).0)
  {
    if s.running && |s.outbound| < QueueCapacity {
      TicketsOfAppend(s.outbound, Submission(msg, s.nextTicket));
    }
  }

  lemma SubmitKeepsInv(s: ActorState, msg: Message)
    requires Inv(s) && s.sendersAlive
    ensures Inv(Submit(s, msg).0)
  {
    SubmitKeepsSlots(s, msg);
    if s.running && |s.outbound| < QueueCapacity {
      assert Msgs(s.outbound + [Submission(msg, s.nextTicket)]) == Msgs(s.outbound) + [msg];
    }
  }

  lemma ForwardKeepsInv(s: ActorState, item: WsResult<Message>)
    requires Inv(s) && s.running
    ensures Inv(Forward(s, item).0)
  {
  }

  /** Breaking the loop from any state whose slots are consistent releases
      every queued one-shot empty, leaves every other slot as it was, writes
      nothing, and ends in a state satisfying the invariant. */
  lemma HaltReleasesQueued(s: ActorState)
    requires SlotsInv(s)
    ensures Inv(Halt(s)) && !Halt(s).running
    ensures Halt(s).written == s.written && Halt(s).inbound == s.inbound && Halt(s).input == s.input
    ensures forall t | t in Tickets(s.outbound) :: t in Halt(s).replies && AwaitReply(Halt(s), t) == Ready(Ok(()))
    ensures forall t | t in s.replies && t !in Tickets(s.outbound) :: t in Halt(s).replies && Halt(s).replies[t] == s.replies[t]
  {
  }

  /** Between popping a failed submission and breaking the loop, the slots are
      still consistent: the popped slot holds the error, the others still wait. */
  lemma FailedWriteKeepsSlots(s: ActorState, e: WsError)
    requires Inv(s) && s.running && s.outbound != []
    ensures SlotsInv(s.(outbound := s.outbound[1..], replies := s.replies[s.outbound[0].ticket := Reported(e)]))
  {
    var sub := s.outbound[0];
    TicketsOfTail(s.outbound);
    assert sub.ticket !in Tickets(s.outbound[1..]) by {
      forall i | 0 <= i < |s.outbound[1..]|
        ensures s.outbound[1..][i].ticket != sub.ticket
      {
        assert s.outbound[1..][i] == s.outbound[i + 1];
      }
    }
    assert Msgs(s.outbound) == [sub.msg] + Msgs(s.outbound[1..]);
  }

  lemma QueueStepKeepsInv(s: ActorState, w: Option<WsError>)
    requires Inv(s) && s.running
    ensures Inv(QueueStep(s, w).0)
  {
    if s.outbound == [] {
      if !s.sendersAlive { HaltReleasesQueued(s); }
    } else {
      var sub := s.outbound[0];
      TicketsOfTail(s.outbound);
      assert Msgs(s.outbound) == [sub.msg] + Msgs(s.outbound[1..]);
      if w.Some? {
        FailedWriteKeepsSlots(s, w.value);
        HaltReleasesQueued(s.(outbound := s.outbound[1..], replies := s.replies[sub.ticket := Reported(w.value)]));
      } else {
        assert s.accepted == (s.written + [sub.msg]) + Msgs(s.outbound[1..]);
      }
    }
  }

  /** Every turn of the loop keeps the invariant. */
  lemma StepKeepsInv(s: ActorState, c: Choice)
    requires Inv(s)
    ensures Inv(Step(s, c).0)
  {
    if s.running {
      if s.parked.Some? {
        ForwardKeepsInv(s, s.parked.value);
      } else if c.StreamReady? {
        if s.input != [] { ForwardKeepsInv(s.(input := s.input[1..]), s.input[0]); }
      } else {
        QueueStepKeepsInv(s, c.writeError);
      }
    }
  }

  lemma RecvKeepsInv(s: ActorState)
    requires Inv(s) && s.receiverAlive
    ensures Inv(Recv(s).0)
  {
  }

  /** A whole run keeps the invariant; in particular the stream is written a
      prefix of the submissions, in submission order. */
  lemma {:induction false} RunKeepsInv(s: ActorState, schedule: seq<Choice>)
    requires Inv(s)
    ensures Inv(Run(s, schedule))
    ensures Run(s, schedule).written <= Run(s, schedule).accepted
    decreases |schedule|
  {
    if schedule != [] && s.running {
      StepKeepsInv(s, schedule[0]);
      RunKeepsInv(Step(s, schedule[0]).0, schedule[1..]);
    }
  }

  // ---- the loop's termination rules and the send result ----

  /** A failed write puts the error in that submission's one-shot, writes nothing
      and breaks the loop; `send` then returns that error. */
  lemma WriteFailureIsReported(s: ActorState, e: WsError)
    requires Inv(s) && s.running && s.parked.None? && s.outbound != []
    ensures var (s', r) := Step(s, QueueReady(Some(e)));
      && r == Stop && !s'.running && s'.written == s.written
      && s.outbound[0].ticket in s'.replies
      && AwaitReply(s', s.outbound[0].ticket) == Ready(Err(e))
  {
  }

  /** A successful write appends exactly that message to the stream, drops the
      one-shot empty and goes on; `send` then returns `Ok(())`. */
  lemma WriteSuccessReleases(s: ActorState)
    requires Inv(s) && s.running && s.parked.None? && s.outbound != []
    ensures var (s', r) := Step(s, QueueReady(None));
      && r == Continue && s'.running
      && s'.written == s.written + [s.outbound[0].msg]
      && s'.outbound == s.outbound[1..]
      && AwaitReply(s', s.outbound[0].ticket) == Ready(Ok(()))
  {
  }

  /** With every sender gone and nothing queued the loop breaks without writing. */
  lemma ClosedQueueStops(s: ActorState, w: Option<WsError>)
    requires s.running && s.parked.None? && s.outbound == [] && !s.sendersAlive
    ensures Step(s, QueueReady(w)).1 == Stop
    ensures !Step(s, QueueReady(w)).0.running && Step(s, QueueReady(w)).0.written == s.written
  {
  }

  /** A stream item, `Ok` or `Err`, is forwarded unchanged and the loop goes on. */
  lemma StreamItemForwarded(s: ActorState)
    requires s.running && s.parked.None? && s.input != [] && s.receiverAlive
    requires |s.inbound| < QueueCapacity
    ensures var (s', r) := Step(s, StreamReady);
      r == Continue && s'.running && s'.inbound == s.inbound + [s.input[0]] && s'.input == s.input[1..]
  {
  }

  /** End of stream breaks the loop, and so does a forward to a dropped receiver. */
  lemma StreamEndOrNoReaderStops(s: ActorState)
    requires s.running && s.parked.None? && (s.input == [] || !s.receiverAlive)
    ensures Step(s, StreamReady).1 == Stop && !Step(s, StreamReady).0.running
  {
  }

  /** Once the loop has broken, `send` fails with `AlreadyClosed` and no earlier
      `send` is left suspended on its one-shot. */
  lemma StoppedActorRefusesSends(s: ActorState, msg: Message)
    requires Inv(s) && !s.running && s.sendersAlive
    ensures Submit(s, msg).1 == QueueClosed
    ensures SendResult(Submit(s, msg).1, Waiting) == Ready(Err(AlreadyClosed))
    ensures forall t | t in s.replies :: AwaitReply(s, t).Ready?
  {
  }

  /** A schedule of `n` turns of the queue arm whose writes all succeed. */
  function Writes(n: nat): (sched: seq<Choice>)
    ensures |sched| == n && forall i | 0 <= i < n :: sched[i] == QueueReady(None)
  {
    seq(n, _ => QueueReady(None))
  }

  /** The first `n` submissions are the front one followed by the first `n - 1`
      of the rest. */
  lemma PrefixSplit(q: seq<Submission>, n: nat)
    requires 0 < n <= |q|
    ensures Msgs(q[..n]) == [q[0].msg] + Msgs(q[1..][..n - 1])
    ensures Tickets(q[..n]) == Tickets(q[1..][..n - 1]) + {q[0].ticket}
    ensures q[1..][n - 1..] == q[n..]
  {
    var head := q[..n];
    assert head[1..] == q[1..][..n - 1];
    TicketsOfTail(head);
  }

  /** A successful write of the front submission, spelled out. */
  lemma WriteFront(s: ActorState)
    requires Inv(s) && s.running && s.parked.None? && s.outbound != []
    ensures var s1 := Step(s, QueueReady(None)).0;
      && s1 == s.(outbound := s.outbound[1..], written := s.written + [s.outbound[0].msg],
                  replies := s.replies[s.outbound[0].ticket := Released])
      && Inv(s1)
  {
    QueueStepKeepsInv(s, None);
  }

  /** The first of `n` successful-write turns, split off the schedule. */
  lemma RunWritesUnfold(s: ActorState, n: nat)
    requires s.running && n > 0
    ensures Run(s, Writes(n)) == Run(Step(s, QueueReady(None)).0, Writes(n - 1))
  {
    assert Writes(n)[1..] == Writes(n - 1);
  }

  lemma WrittenGrows(w0: seq<Message>, w1: seq<Message>, w2: seq<Message>, m: Message, rest: seq<Message>)
    requires w1 == w0 + [m] && w2 == w1 + rest
    ensures w2 == w0 + ([m] + rest)
  {
  }

  /** `n` successful writes take the first `n` submissions off the queue and
      keep the loop running and the invariant. */
  lemma {:induction false} DrainShape(s: ActorState, n: nat)
    requires Inv(s) && s.running && s.parked.None? && n <= |s.outbound|
    ensures var s' := Run(s, Writes(n));
      Inv(s') && s'.running && s'.parked.None? && s'.outbound == s.outbound[n..]
    decreases n
  {
    if n > 0 {
      WriteFront(s);
      RunWritesUnfold(s, n);
      DrainShape(Step(s, QueueReady(None)).0, n - 1);
      PrefixSplit(s.outbound, n);
    }
  }

  /** Those `n` writes put exactly the messages of the first `n` submissions on
      the stream, in order. */
  lemma {:induction false} DrainWrites(s: ActorState, n: nat)
    requires Inv(s) && s.running && s.parked.None? && n <= |s.outbound|
    ensures Run(s, Writes(n)).written == s.written + Msgs(s.outbound[..n])
    decreases n
  {
    if n > 0 {
      var sub := s.outbound[0];
      WriteFront(s);
      var s1 := Step(s, QueueReady(None)).0;
      RunWritesUnfold(s, n);
      DrainWrites(s1, n - 1);
      PrefixSplit(s.outbound, n);
      WrittenGrows(s.written, s1.written, Run(s1, Writes(n - 1)).written, sub.msg, Msgs(s1.outbound[..n - 1]));
    }
  }

  /** Those `n` writes leave every slot not among the first `n` as it was. */
  lemma {:induction false} DrainKeepsOtherSlots(s: ActorState, n: nat)
    requires Inv(s) && s.running && s.parked.None? && n <= |s.outbound|
    ensures var s' := Run(s, Writes(n));
      forall t | t in s.replies && t !in Tickets(s.outbound[..n]) :: t in s'.replies && s'.replies[t] == s.replies[t]
    decreases n
  {
    if n > 0 {
      var sub := s.outbound[0];
      WriteFront(s);
      var s1 := Step(s, QueueReady(None)).0;
      RunWritesUnfold(s, n);
      DrainKeepsOtherSlots(s1, n - 1);
      PrefixSplit(s.outbound, n);
    }
  }

  /** `SenderHandle::send` end to end: on a running actor with room in the queue
      the message is enqueued behind the submissions already queued, and its
      `send` stays suspended while those are written in order. When the queue
      arm then writes it, `send` returns `Ok(())` and the stream has gained the
      earlier messages and then this one; if that write fails with `e`, `send`
      returns `Err(e)`, the message is not written and the loop breaks. */
  lemma SendRoundTrip(s: ActorState, msg: Message, w: Option<WsError>)
    requires Inv(s) && s.running && s.sendersAlive && s.parked.None? && |s.outbound| < QueueCapacity
    ensures var (s1, sub) := Submit(s, msg);
      && sub.Queued?
      && var s2 := Run(s1, Writes(|s.outbound|));
      && s2.running && s2.written == s.written + Msgs(s.outbound)
      && sub.ticket in s2.replies && SendResult(sub, s2.replies[sub.ticket]) == Suspended
      && var s3 := Step(s2, QueueReady(w)).0;
      && sub.ticket in s3.replies
      && (w.None? ==> && SendResult(sub, s3.replies[sub.ticket]) == Ready(Ok(()))
                      && s3.written == s.written + Msgs(s.outbound) + [msg] && s3.running)
      && (w.Some? ==> && SendResult(sub, s3.replies[sub.ticket]) == Ready(Err(w.value))
                      && s3.written == s.written + Msgs(s.outbound) && !s3.running)
  {
    var (s1, sub) := Submit(s, msg);
    var n := |s.outbound|;
    SubmitKeepsInv(s, msg);
    assert s1.outbound[..n] == s.outbound;
    assert s1.outbound[n..] == [Submission(msg, s.nextTicket)];
    assert sub.ticket !in Tickets(s.outbound);
    DrainShape(s1, n);
    DrainWrites(s1, n);
    DrainKeepsOtherSlots(s1, n);
    var s2 := Run(s1, Writes(n));
    assert s2.outbound == [Submission(msg, sub.ticket)];
    assert Tickets(s2.outbound[1..]) == {};
  }

  /** Whichever way a loop turn breaks the loop, it writes nothing, and every
      submission still queued behind the front one gets `Ok(())` from its
      `send`; so does the front one unless the turn was its failed write. */
  lemma QueuedSubmissionsSilentlySucceed(s: ActorState, c: Choice)
    requires Inv(s) && s.running
    ensures var (s', r) := Step(s, c);
      r == Stop ==>
        && !s'.running && s'.written == s.written
        && (forall i | 1 <= i < |s.outbound| ::
              s.outbound[i].ticket in s'.replies && AwaitReply(s', s.outbound[i].ticket) == Ready(Ok(())))
        && (s.outbound != [] && !(s.parked.None? && c.QueueReady? && c.writeError.Some?) ==>
              s.outbound[0].ticket in s'.replies && AwaitReply(s', s.outbound[0].ticket) == Ready(Ok(())))
  {
    var (s', r) := Step(s, c);
    if r == Stop {
      forall i | 0 <= i < |s.outbound|
        ensures s.outbound[i].ticket in Tickets(s.outbound)
        ensures 1 <= i ==> s.outbound[i].ticket in Tickets(s.outbound[1..])
      {
        if 1 <= i { assert s.outbound[1..][i - 1] == s.outbound[i]; }
      }
      if s.parked.None? && c.QueueReady? && c.writeError.Some? && s.outbound != [] {
        FailedWriteKeepsSlots(s, c.writeError.value);
        HaltReleasesQueued(s.(outbound := s.outbound[1..], replies := s.replies[s.outbound[0].ticket := Reported(c.writeError.value)]));
      } else if s.parked.Some? {
        HaltReleasesQueued(s);
      } else if c.StreamReady? && s.input != [] {
        HaltReleasesQueued(s.(input := s.input[1..]));
      } else {
        HaltReleasesQueued(s);
      }
    }
  }

  /** With the `ReceiverHandle` alive, a loop turn neither loses, duplicates nor
      reorders an item on its way to it: the actor forwards the stream in order. */
  lemma StepKeepsInboundOrder(s: ActorState, c: Choice)
    requires Inv(s) && s.receiverAlive
    ensures InFlight(Step(s, c).0) == InFlight(s)
  {
    if s.running && s.parked.None? && c.StreamReady? && s.input != [] {
      assert InFlight(s) == s.inbound + ([s.input[0]] + s.input[1..]);
    }
  }

  /** The same for any schedule of loop turns. */
  lemma {:induction false} RunKeepsInboundOrder(s: ActorState, schedule: seq<Choice>)
    requires Inv(s) && s.receiverAlive
    ensures InFlight(Run(s, schedule)) == InFlight(s)
    decreases |schedule|
  {
    if schedule != [] && s.running {
      StepKeepsInv(s, schedule[0]);
      StepKeepsInboundOrder(s, schedule[0]);
      RunKeepsInboundOrder(Step(s, schedule[0]).0, schedule[1..]);
    }
  }

  /** `ReceiverHandle::recv` yields the first item in flight and removes exactly
      that one, so the receiver sees the stream's items in the stream's order. */
  lemma RecvYieldsFront(s: ActorState)
    requires s.receiverAlive && s.inbound != []
    ensures Recv(s).1 == Ready(Some(InFlight(s)[0]))
    ensures InFlight(s) == [InFlight(s)[0]] + InFlight(Recv(s).0)
  {
  }

  /** The queues never hold more than eight entries. */
  lemma {:induction false} QueuesStayBounded(s: ActorState, schedule: seq<Choice>)
    requires Inv(s)
    ensures |Run(s, schedule).outbound| <= QueueCapacity && |Run(s, schedule).inbound| <= QueueCapacity
  {
    RunKeepsInv(s, schedule);
  }
}

/** The actor object itself, performing the transitions of `ActorSpec` in place. */
module Actor {
  import opened Wrappers
  import opened Messages
  import opened ActorSpec

  /** The actor with its stream and both queues, updated in place. */
  class WebsocketActor {
    var input: seq<WsResult<Message>>
    var written: seq<Message>
    var outbound: seq<Submission>
    var sendersAlive: bool
    var inbound: seq<WsResult<Message>>
    var receiverAlive: bool
    var parked: Option<WsResult<Message>>
    var replies: map<nat, Reply>
    var nextTicket: nat
    var running: bool
    ghost var accepted: seq<Message>

    ghost function State(): ActorState
      reads this
    {
      ActorState(input, written, outbound, sendersAlive, inbound, receiverAlive,
                 parked, replies, nextTicket, running, accepted)
    }

    ghost predicate Valid()
      reads this
    {
      Inv(State())
    }

    /** `start_actor`. */
    constructor (stream: seq<WsResult<Message>>)
      ensures Valid() && State() == Start(stream)
    {
      input, written, outbound, sendersAlive := stream, [], [], true;
      inbound, receiverAlive, parked := [], true, None;
      replies, nextTicket, running := map[], 0, true;
      accepted := [];
    }

    /** The loop breaks and `self` is dropped. */
    method Halt()
      requires SlotsInv(State())
      modifies this
      ensures Valid() && State() == ActorSpec.Halt(old(State()))
    {
      HaltReleasesQueued(State());
      var queued := Tickets(outbound);
      replies := map t | t in replies :: if t in queued then Released else replies[t];
      outbound, parked, running := [], None, false;
    }

    /** The enqueue half of `SenderHandle::send`. */
    method Submit(msg: Message) returns (r: SubmitResult)
      requires Valid() && sendersAlive
      modifies this
      ensures Valid()
      ensures (State(), r) == ActorSpec.Submit(old(State()), msg)
    {
      SubmitKeepsInv(State(), msg);
      if !running {
        r := QueueClosed;
      } else if |outbound| >= QueueCapacity {
        r := QueueFull;
      } else {
        r := Queued(nextTicket);
        outbound := outbound + [Submission(msg, nextTicket)];
        replies := replies[nextTicket := Waiting];
        nextTicket := nextTicket + 1;
        accepted := accepted + [msg];
      }
    }

    /** The await half of `SenderHandle::send`. */
    method AwaitReply(ticket: nat) returns (r: Progress<WsResult<()>>)
      requires ticket in replies
      ensures r == ActorSpec.AwaitReply(State(), ticket)
    {
      match replies[ticket]
      case Waiting => r := Suspended;
      case Reported(e) => r := Ready(Err(e));
      case Released => r := Ready(Ok(()));
    }

    /** `ReceiverHandle::recv`. */
    method Recv() returns (r: Progress<Option<WsResult<Message>>>)
      requires Valid() && receiverAlive
      modifies this
      ensures Valid()
      ensures (State(), r) == ActorSpec.Recv(old(State()))
    {
      RecvKeepsInv(State());
      if inbound != [] {
        r := Ready(Some(inbound[0]));
        inbound := inbound[1..];
      } else if !running {
        r := Ready(None);
      } else {
        r := Suspended;
      }
    }

    method DropSenders()
      requires Valid()
      modifies this
      ensures Valid() && State() == ActorSpec.DropSenders(old(State()))
    {
      sendersAlive := false;
    }

    method DropReceiver()
      requires Valid()
      modifies this
      ensures Valid() && State() == ActorSpec.DropReceiver(old(State()))
    {
      receiverAlive, inbound := false, [];
    }

    /** The forward of `recv_msg`: queue the item, wait for room, or break. */
    method Forward(item: WsResult<Message>) returns (r: StepResult)
      requires Valid()
      modifies this
      ensures (State(), r) == ActorSpec.Forward(old(State()), item)
    {
      if !receiverAlive {
        Halt();
        r := Stop;
      } else if |inbound| < QueueCapacity {
        inbound, parked := inbound + [item], None;
        r := Continue;
      } else {
        parked := Some(item);
        r := Blocked;
      }
    }

    /** One turn of `run`: the `select!` with the chosen arm. */
    method Step(c: Choice) returns (r: StepResult)
      requires Valid()
      modifies this
      ensures Valid()
      ensures (State(), r) == ActorSpec.Step(old(State()), c)
    {
      StepKeepsInv(State(), c);
      if !running {
        r := Idle;
      } else if parked.Some? {
        r := Forward(parked.value);
      } else if c.StreamReady? {
        if input == [] {
          Halt();
          r := Stop;
        } else {
          var item := input[0];
          input := input[1..];
          r := Forward(item);
        }
      } else if outbound == [] {
        if sendersAlive {
          r := Idle;
        } else {
          Halt();
          r := Stop;
        }
      } else {
        var sub := outbound[0];
        outbound := outbound[1..];
        match c.writeError
        case None =>
          written := written + [sub.msg];
          replies := replies[sub.ticket := Released];
          r := Continue;
        case Some(e) =>
          FailedWriteKeepsSlots(old(State()), e);
          replies := replies[sub.ticket := Reported(e)];
          Halt();
          r := Stop;
      }
    }

    /** `run`: turns of the loop under `schedule` until it breaks. */
    method Run(schedule: seq<Choice>)
      requires Valid()
      modifies this
      ensures Valid()
      ensures State() == ActorSpec.Run(old(State()), schedule)
    {
      var i := 0;
      while i < |schedule| && running
        invariant 0 <= i <= |schedule|
        invariant Valid()
        invariant ActorSpec.Run(State(), schedule[i..]) == ActorSpec.Run(old(State()), schedule)
      {
        assert schedule[i..][1..] == schedule[i + 1..];
        var _ := Step(schedule[i]);
        i := i + 1;
      }
    }
  }
}
