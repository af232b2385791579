/** The fan-out channel behind a chat room (`broadcast::channel(100)`, room.rs).

    Every message published while at least one receiver exists is appended to
    `log`; a receiver is a cursor into that log. Only the last `Capacity`
    messages are retained, so a receiver further behind than that is told how
    many messages it missed and resumes at the oldest retained one. */
module Broadcast {
  import opened Messages

  /** The capacity passed to `broadcast::channel`. */
  const Capacity: nat := 100

  /** What one `recv` on a broadcast receiver yields. `Pending` is the case in
      which the real `recv().await` suspends: nothing new has been published yet. */
  datatype RecvOutcome = Received(msg: Message) | Lagged(missed: nat) | Closed | Pending

  /** One receive at position `cursor` of `log`; returns the outcome and the new cursor. */
  function Poll(log: seq<Message>, cursor: nat, open: bool): (r: (RecvOutcome, nat))
    requires cursor <= |log|
    ensures cursor <= r.1 <= |log|
    ensures r.0.Received? ==> r.1 == cursor + 1 && r.0.msg == log[cursor] && |log| - cursor <= Capacity
    ensures r.0.Lagged? <==> |log| - cursor > Capacity
    ensures r.0.Lagged? ==> r.0.missed > 0 && r.1 == cursor + r.0.missed == |log| - Capacity
    ensures (r.0.Pending? || r.0.Closed?) <==> cursor == |log|
    ensures r.0.Closed? ==> !open
    ensures r.0.Pending? ==> open
  {
    if |log| - cursor > Capacity then (Lagged(|log| - Capacity - cursor), |log| - Capacity)
    else if cursor < |log| then (Received(log[cursor]), cursor + 1)
    else if open then (Pending, cursor)
    else (Closed, cursor)
  }

  /** Everything a receiver at `cursor` observes by receiving until it would
      suspend or sees the channel closed. */
  function Drain(log: seq<Message>, cursor: nat, open: bool): (d: seq<RecvOutcome>)
    requires cursor <= |log|
    decreases |log| - cursor
  {
    var (o, next) := Poll(log, cursor, open);
    if o.Pending? || o.Closed? then [o] else [o] + Drain(log, next, open)
  }

  /** One receive, then the rest of the drain. */
  lemma DrainStep(log: seq<Message>, cursor: nat, open: bool)
    requires cursor <= |log|
    ensures var (o, next) := Poll(log, cursor, open);
      Drain(log, cursor, open) == if o.Pending? || o.Closed? then [o] else [o] + Drain(log, next, open)
  {
  }

  /** A receiver at most `Capacity` messages behind receives every message from
      its cursor on, in publication order, and then suspends (or sees Closed). */
  lemma {:induction false} DrainWithinWindow(log: seq<Message>, cursor: nat, open: bool)
    requires cursor <= |log| && |log| - cursor <= Capacity
    ensures |Drain(log, cursor, open)| == |log| - cursor + 1
    ensures forall i | 0 <= i < |log| - cursor :: Drain(log, cursor, open)[i] == Received(log[cursor + i])
    ensures Drain(log, cursor, open)[|log| - cursor] == if open then Pending else Closed
    decreases |log| - cursor
  {
    if cursor < |log| {
      DrainWithinWindow(log, cursor + 1, open);
      var d := Drain(log, cursor, open);
      assert d == [Received(log[cursor])] + Drain(log, cursor + 1, open);
    }
  }

  /** A receiver more than `Capacity` messages behind first gets a lag indication
      carrying the number of messages it missed, and then exactly the `Capacity`
      retained messages, never one of the dropped ones. */
  lemma LaggedReceiverSkipsToWindow(log: seq<Message>, cursor: nat, open: bool)
    requires cursor <= |log| && |log| - cursor > Capacity
    ensures |Drain(log, cursor, open)| == Capacity + 2
    ensures Drain(log, cursor, open)[0] == Lagged(|log| - Capacity - cursor)
    ensures forall i | 1 <= i <= Capacity :: Drain(log, cursor, open)[i] == Received(log[|log| - Capacity + i - 1])
    ensures Drain(log, cursor, open)[Capacity + 1] == if open then Pending else Closed
  {
    var start := |log| - Capacity;
    DrainWithinWindow(log, start, open);
    assert Drain(log, cursor, open) == [Lagged(start - cursor)] + Drain(log, start, open);
  }

  /** Whatever a receiver receives was published at or after its cursor. */
  lemma {:induction false} DrainOnlyLaterMessages(log: seq<Message>, cursor: nat, open: bool, i: nat)
    requires cursor <= |log| && i < |Drain(log, cursor, open)|
    requires Drain(log, cursor, open)[i].Received?
    ensures exists j :: cursor <= j < |log| && Drain(log, cursor, open)[i].msg == log[j]
  {
    if |log| - cursor <= Capacity {
      DrainWithinWindow(log, cursor, open);
      assert Drain(log, cursor, open)[i].msg == log[cursor + i];
    } else {
      LaggedReceiverSkipsToWindow(log, cursor, open);
      assert Drain(log, cursor, open)[i].msg == log[|log| - Capacity + i - 1];
    }
  }
}
