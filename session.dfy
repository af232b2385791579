/** The chat session of websocket-chat/src/main.rs: `handle_websocket`,
    `receive_task` and `send_task`.

    The connection's `ReceiverHandle` is the sequence of items it yields before
    end of stream. The `join`, the broadcasts and the final release of the name
    are performed on the room in the order `handle_websocket` performs them;
    `send_task`, which runs concurrently, is modelled on its own. */
module Session {
  import opened Wrappers
  import opened Messages
  import opened Broadcast
  import opened Room

  /** The announcement broadcast after a successful join. */
  function Joined(name: string): Message {
    Text(name + " joined the room")
  }

  /** A chat line relayed from `name`. */
  function Relay(name: string, s: string): Message {
    Text(name + ": " + s)
  }

  /** The announcement broadcast when the connection's stream ends. */
  function Left(name: string): Message {
    Text(name + " left the room")
  }

  /** The one reply written to a connection whose name is already taken. */
  const Taken: Message := Text("username already taken")

  /** The position of the first `Ok(Message::Text(_))` item, if any: the item
      whose text becomes the username. */
  function FirstText(items: seq<WsResult<Message>>): (k: Option<nat>)
    ensures k.Some? ==> k.value < |items| && IsText(items[k.value])
    ensures k.Some? ==> forall j | 0 <= j < k.value :: !IsText(items[j])
    ensures k.None? ==> forall j | 0 <= j < |items| :: !IsText(items[j])
  {
    if items == [] then None
    else if IsText(items[0]) then Some(0)
    else match FirstText(items[1..])
      case None => None
      case Some(k) => Some(k + 1)
  }

  /** The broadcasts `receive_task` makes for `items` before end of stream: each
      text `s` as `"{name}: {s}"`, everything else ignored. */
  function Relays(name: string, items: seq<WsResult<Message>>): seq<Message> {
    if items == [] then []
    else (if IsText(items[0]) then [Relay(name, items[0].value.text)] else []) + Relays(name, items[1..])
  }

  /** The broadcasts of a whole session that starts with `items` while the room
      holds `users`: nothing without a username or with a taken one; otherwise
      the join announcement, the relayed lines and the leave announcement. */
  function SessionBroadcasts(users: set<string>, items: seq<WsResult<Message>>): seq<Message> {
    match FirstText(items)
    case None => []
    case Some(k) =>
      var name := items[k].value.text;
      if name in users then [] else [Joined(name)] + Relays(name, items[k + 1..]) + [Left(name)]
  }

  /** What `handle_websocket` itself writes to the connection. */
  function SessionReplies(users: set<string>, items: seq<WsResult<Message>>): seq<Message> {
    match FirstText(items)
    case None => []
    case Some(k) => if items[k].value.text in users then [Taken] else []
  }

  /** True of a message of the shape `"{name}:..."`, which every relayed line has. */
  predicate RelayShaped(name: string, m: Message) {
    m.Text? && |m.text| > |name| && m.text[..|name|] == name && m.text[|name|] == ':'
  }

  lemma {:induction false} RelaysAppend(name: string, a: seq<WsResult<Message>>, b: seq<WsResult<Message>>)
    ensures Relays(name, a + b) == Relays(name, a) + Relays(name, b)
    decreases |a|
  {
    if a != [] {
      assert (a + b)[1..] == a[1..] + b;
      RelaysAppend(name, a[1..], b);
    } else {
      assert a + b == b;
    }
  }

  /** One relayed line per text item, nothing else. */
  lemma {:induction false} RelaysAreRelayShaped(name: string, items: seq<WsResult<Message>>)
    ensures forall i | 0 <= i < |Relays(name, items)| :: RelayShaped(name, Relays(name, items)[i])
    decreases |items|
  {
    if items != [] {
      RelaysAreRelayShaped(name, items[1..]);
      if IsText(items[0]) {
        var m := Relay(name, items[0].value.text);
        assert m.text == name + (": " + items[0].value.text);
        assert RelayShaped(name, m);
      }
    }
  }

  lemma AnnouncementsAreDistinct(name: string)
    ensures !RelayShaped(name, Joined(name)) && !RelayShaped(name, Left(name))
    ensures Joined(name) != Left(name)
  {
  }

  /** After a successful join the session announces the join first, relays the
      text of every later item in order, and announces the leave exactly once,
      last. */
  lemma SessionShape(users: set<string>, items: seq<WsResult<Message>>, k: nat)
    requires FirstText(items) == Some(k) && items[k].value.text !in users
    ensures var name := items[k].value.text;
      var b := SessionBroadcasts(users, items);
      && |b| >= 2
      && b[1..|b| - 1] == Relays(name, items[k + 1..])
      && (forall i | 0 <= i < |b| :: b[i] == Joined(name) <==> i == 0)
      && (forall i | 0 <= i < |b| :: b[i] == Left(name) <==> i == |b| - 1)
  {
    var name := items[k].value.text;
    var rs := Relays(name, items[k + 1..]);
    var b := SessionBroadcasts(users, items);
    assert b == [Joined(name)] + rs + [Left(name)];
    RelaysAreRelayShaped(name, items[k + 1..]);
    AnnouncementsAreDistinct(name);
    forall i | 0 < i < |b| - 1
      ensures b[i] != Joined(name) && b[i] != Left(name)
    {
      assert b[i] == rs[i - 1];
      assert RelayShaped(name, rs[i - 1]);
    }
  }

  /** Without a text item the session broadcasts and writes nothing; with a taken
      name it broadcasts nothing and writes exactly the refusal. */
  lemma SessionRefusals(users: set<string>, items: seq<WsResult<Message>>)
    ensures SessionBroadcasts(users, items) == [] <==>
      FirstText(items).None? || items[FirstText(items).value].value.text in users
    ensures SessionReplies(users, items) == [Taken] <==>
      FirstText(items).Some? && items[FirstText(items).value].value.text in users
    ensures SessionReplies(users, items) == [] <==> SessionReplies(users, items) != [Taken]
  {
  }

  /** The username `loop` of `handle_websocket`: skips items up to the first text
      frame and takes its text; without one the session returns. */
  method SelectUsername(items: seq<WsResult<Message>>) returns (name: Option<string>, consumed: nat)
    ensures consumed <= |items|
    ensures name.None? ==> consumed == |items| && forall j | 0 <= j < |items| :: !IsText(items[j])
    ensures name.Some? ==> 0 < consumed && items[consumed - 1] == Ok(Text(name.value))
    ensures name.Some? ==> forall j | 0 <= j < consumed - 1 :: !IsText(items[j])
    ensures name.Some? <==> FirstText(items).Some?
    ensures name.Some? ==> FirstText(items) == Some(consumed - 1)
  {
    var i := 0;
    while i < |items|
      invariant 0 <= i <= |items|
      invariant forall j | 0 <= j < i :: !IsText(items[j])
    {
      if IsText(items[i]) {
        return Some(items[i].value.text), i + 1;
      }
      i := i + 1;
    }
    return None, |items|;
  }

  /** `receive_task`: relays every text item as `"{name}: {s}"`, in order, then
      announces the leave once. */
  method ReceiveTask(room: ChatRoom, name: string, items: seq<WsResult<Message>>)
    requires room.Valid()
    modifies room
    ensures room.Valid()
    ensures room.users == old(room.users) && room.live == old(room.live) && room.open == old(room.open)
    ensures room.log == old(room.log) + if old(room.users) == {} then [] else Relays(name, items) + [Left(name)]
  {
    var i := 0;
    while i < |items|
      invariant 0 <= i <= |items|
      invariant room.Valid()
      invariant room.users == old(room.users) && room.live == old(room.live) && room.open == old(room.open)
      invariant room.log == old(room.log) + if room.users == {} then [] else Relays(name, items[..i])
    {
      RelaysAppend(name, items[..i], [items[i]]);
      assert items[..i + 1] == items[..i] + [items[i]];
      if IsText(items[i]) {
        room.Send(Relay(name, items[i].value.text));
      }
      i := i + 1;
    }
    assert items[..i] == items;
    room.Send(Left(name));
  }

  /** `handle_websocket` for a connection whose stream yields `items`: picks the
      username, joins or writes the refusal, announces, relays, and finally
      releases the name when `send_task` is aborted. */
  method HandleWebsocket(room: ChatRoom, items: seq<WsResult<Message>>) returns (replies: seq<Message>)
    requires room.Valid()
    modifies room
    ensures room.Valid()
    ensures room.users == old(room.users) && room.live == old(room.live) && room.open == old(room.open)
    ensures room.log == old(room.log) + SessionBroadcasts(old(room.users), items)
    ensures replies == SessionReplies(old(room.users), items)
  {
    var name, consumed := SelectUsername(items);
    if name.None? {
      return [];
    }
    var rx := room.Join(name.value);
    if rx.None? {
      return [Taken];
    }
    room.Send(Joined(name.value));
    ReceiveTask(room, name.value, items[consumed..]);
    room.Leave(rx.value);
    return [];
  }

  /** Why `send_task` stopped: a receive error from the room (lag or closed), a
      failed send on the connection, or it is waiting for the next broadcast. */
  datatype SendTaskEnd = RecvError(outcome: RecvOutcome) | SendFailed | AwaitingBroadcast

  /** The messages a receiver gets before its first non-message outcome. */
  function Leading(d: seq<RecvOutcome>): seq<Message> {
    if d == [] || !d[0].Received? then [] else [d[0].msg] + Leading(d[1..])
  }

  function Wrap(ms: seq<Message>): (d: seq<RecvOutcome>)
    ensures |d| == |ms| && forall i | 0 <= i < |ms| :: d[i] == Received(ms[i])
  {
    seq(|ms|, i requires 0 <= i < |ms| => Received(ms[i]))
  }

  lemma {:induction false} LeadingAfterWrap(ms: seq<Message>, d: seq<RecvOutcome>)
    ensures Leading(Wrap(ms) + d) == ms + Leading(d)
    decreases |ms|
  {
    if ms != [] {
      assert (Wrap(ms) + d)[1..] == Wrap(ms[1..]) + d;
      LeadingAfterWrap(ms[1..], d);
    } else {
      assert Wrap(ms) + d == d;
    }
  }

  lemma {:induction false} LeadingOfWindow(log: seq<Message>, cursor: nat, open: bool)
    requires cursor <= |log| && |log| - cursor <= Capacity
    ensures Leading(Drain(log, cursor, open)) == log[cursor..]
    decreases |log| - cursor
  {
    DrainWithinWindow(log, cursor, open);
    if cursor < |log| {
      LeadingOfWindow(log, cursor + 1, open);
      assert Drain(log, cursor, open)[1..] == Drain(log, cursor + 1, open);
      assert log[cursor..] == [log[cursor]] + log[cursor + 1..];
    }
  }

  /** What `send_task` does with the outcomes `d` of its receiver: `sent` are the
      messages it handed to the connection, `stop` why it stopped. */
  ghost predicate Forwarded(d: seq<RecvOutcome>, failAt: Option<nat>, sent: seq<Message>, stop: SendTaskEnd) {
    var all := Leading(d);
    if failAt.Some? && failAt.value < |all| then
      sent == all[..failAt.value + 1] && stop == SendFailed
    else
      && sent == all && |all| < |d|
      && stop == if d[|all|].Pending? then AwaitingBroadcast else RecvError(d[|all|])
  }

  lemma WrapShift(ms: seq<Message>, m: Message, rest: seq<RecvOutcome>)
    ensures Wrap(ms) + ([Received(m)] + rest) == Wrap(ms + [m]) + rest
  {
  }

  lemma ForwardedUpToFailure(ms: seq<Message>, rest: seq<RecvOutcome>, k: nat)
    requires |ms| == k + 1
    ensures Forwarded(Wrap(ms) + rest, Some(k), ms, SendFailed)
  {
    LeadingAfterWrap(ms, rest);
    assert (ms + Leading(rest))[..k + 1] == ms;
  }

  lemma ForwardedUpToError(ms: seq<Message>, rest: seq<RecvOutcome>, failAt: Option<nat>)
    requires rest != [] && !rest[0].Received?
    requires failAt.Some? ==> |ms| <= failAt.value
    ensures Forwarded(Wrap(ms) + rest, failAt, ms,
      if rest[0].Pending? then AwaitingBroadcast else RecvError(rest[0]))
  {
    LeadingAfterWrap(ms, rest);
    assert Leading(rest) == [];
    assert (Wrap(ms) + rest)[|ms|] == rest[0];
  }

  /** `send_task`: forwards what the room delivers to the connection, in order,
      until a receive error or the first failed send. The `failAt`-th send
      (counted from 0) is the one that fails, if any. */
  method SendTask(r: RoomReceiver, failAt: Option<nat>) returns (sent: seq<Message>, stop: SendTaskEnd)
    requires r.room.Valid() && r in r.room.live
    modifies r
    ensures r.room.Valid()
    ensures Forwarded(Drain(r.room.log, old(r.cursor), r.room.open), failAt, sent, stop)
    ensures |r.room.log| - old(r.cursor) <= Capacity && failAt.None? ==>
      sent == r.room.log[old(r.cursor)..] &&
      stop == if r.room.open then AwaitingBroadcast else RecvError(Closed)
  {
    ghost var log, open, c0 := r.room.log, r.room.open, r.cursor;
    ghost var d := Drain(log, c0, open);
    sent := [];
    while true
      invariant r.room.Valid() && r in r.room.live
      invariant r.room.log == log && r.room.open == open
      invariant c0 <= r.cursor <= |log|
      invariant d == Wrap(sent) + Drain(log, r.cursor, open)
      invariant failAt.Some? ==> |sent| <= failAt.value
      decreases |log| - r.cursor
    {
      ghost var before := r.cursor;
      var o := r.Recv();
      DrainStep(log, before, open);
      if o.Received? {
        WrapShift(sent, o.msg, Drain(log, r.cursor, open));
        sent := sent + [o.msg];
        if failAt == Some(|sent| - 1) {
          ForwardedUpToFailure(sent, Drain(log, r.cursor, open), failAt.value);
          stop := SendFailed;
          break;
        }
      } else {
        assert d == Wrap(sent) + Drain(log, before, open);
        ForwardedUpToError(sent, Drain(log, before, open), failAt);
        stop := if o.Pending? then AwaitingBroadcast else RecvError(o);
        break;
      }
    }
    if |log| - c0 <= Capacity && failAt.None? {
      LeadingOfWindow(log, c0, open);
      DrainWithinWindow(log, c0, open);
    }
  }
}
