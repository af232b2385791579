/** The chat room of websocket-chat/src/room.rs: a membership map guarded by a
    mutex and a broadcast channel of capacity 100.

    The mutex is plain exclusive access here, because every critical section of
    the source is a single map operation. The `HashMap<String, ()>` is the set
    `users` of its keys. `Drop for RoomReceiver` is the explicit `Leave`. */
module Room {
  import opened Wrappers
  import opened Messages
  import opened Broadcast

  /** A `RoomReceiver`: the name it holds and its position in the room's log. */
  class RoomReceiver {
    const username: string
    const room: ChatRoom
    /** Where the log ended when this receiver subscribed. */
    ghost const joinedAt: nat
    var cursor: nat

    constructor (username: string, room: ChatRoom, at: nat)
      ensures this.username == username && this.room == room
      ensures joinedAt == at && cursor == at
    {
      this.username := username;
      this.room := room;
      joinedAt := at;
      cursor := at;
    }

    /** `broadcast::Receiver::recv` through the receiver's `Deref`. */
    method Recv() returns (o: RecvOutcome)
      requires room.Valid() && this in room.live
      modifies this
      ensures room.Valid()
      ensures (o, cursor) == Poll(room.log, old(cursor), room.open)
      ensures o.Received? ==> joinedAt <= old(cursor) && o.msg == room.log[old(cursor)]
    {
      var r := Poll(room.log, cursor, room.open);
      o, cursor := r.0, r.1;
    }
  }

  class ChatRoom {
    /** The keys of the user map. */
    var users: set<string>
    /** Every message published while at least one receiver was subscribed. */
    var log: seq<Message>
    /** Number of live broadcast receivers (`receiver_count`). */
    var receivers: nat
    /** False once every `ChatRoom` clone, and with it the broadcast sender, is gone. */
    var open: bool
    /** The receivers not yet dropped. */
    ghost var live: set<RoomReceiver>

    /** The user map's keys are exactly the names of the live receivers, no name
        is held by two of them, and every receiver's cursor lies in the log at or
        after the point where it joined. */
    ghost predicate Valid()
      reads this, live
    {
      && (forall r | r in live :: r.room == this && r.joinedAt <= r.cursor <= |log|)
      && users == (set r | r in live :: r.username)
      && (forall r1, r2 | r1 in live && r2 in live && r1.username == r2.username :: r1 == r2)
      && receivers == |live|
    }

    /** `ChatRoom::new`: no members, nothing published. */
    constructor ()
      ensures Valid()
      ensures users == {} && log == [] && live == {} && receivers == 0 && open
    {
      users, log, receivers, open := {}, [], 0, true;
      live := {};
    }

    /** `ChatRoom::join`: refuses a name already present; otherwise records it
        and returns a receiver that subscribed at this moment. */
    method Join(name: string) returns (r: Option<RoomReceiver>)
      requires Valid()
      modifies this
      ensures Valid()
      ensures log == old(log) && open == old(open)
      ensures name in old(users) ==> r == None && users == old(users) && live == old(live)
      ensures name !in old(users) ==>
        && r.Some? && fresh(r.value)
        && r.value.username == name && r.value.room == this && r.value.cursor == |log|
        && users == old(users) + {name} && live == old(live) + {r.value}
    {
      if name in users {
        return None;
      }
      var rx := new RoomReceiver(name, this, |log|);
      assert rx !in live;
      users := users + {name};
      live := live + {rx};
      receivers := receivers + 1;
      assert (set q | q in live :: q.username) == (set q | q in old(live) :: q.username) + {name};
      r := Some(rx);
    }

    /** `ChatRoom::send`: never reports failure; with no receiver subscribed the
        message is discarded. */
    method Send(msg: Message)
      requires Valid()
      modifies this
      ensures Valid()
      ensures users == old(users) && live == old(live) && open == old(open)
      ensures log == if old(users) == {} then old(log) else old(log) + [msg]
    {
      assert users == {} <==> live == {} by {
        if r :| r in live { assert r.username in users; }
      }
      if receivers > 0 {
        log := log + [msg];
      }
    }

    /** `Drop for RoomReceiver`: releases exactly the receiver's own name. */
    method Leave(r: RoomReceiver)
      requires Valid() && r in live
      modifies this
      ensures Valid()
      ensures users == old(users) - {r.username}
      ensures live == old(live) - {r}
      ensures log == old(log) && open == old(open)
    {
      live := live - {r};
      users := users - {r.username};
      receivers := receivers - 1;
      assert (set q | q in live :: q.username) == old(users) - {r.username} by {
        forall n | n in old(users) - {r.username}
          ensures n in (set q | q in live :: q.username)
        {
          var q :| q in old(live) && q.username == n;
          assert q != r;
        }
      }
    }

    /** The last `ChatRoom` handle is dropped, closing the broadcast channel:
        receivers drain what is retained and then see `Closed`. */
    method Close()
      requires Valid()
      modifies this
      ensures Valid()
      ensures !open && users == old(users) && live == old(live) && log == old(log)
    {
      open := false;
    }
  }

  /** Two members never hold the same name: a second join with a held name is
      refused, and the name can be joined again once its receiver is dropped. */
  method RejoinAfterLeave(name: string) returns (first: bool, second: bool, third: bool)
    ensures first && !second && third
  {
    var room := new ChatRoom();
    var a := room.Join(name);
    var b := room.Join(name);
    first, second := a.Some?, b.Some?;
    room.Leave(a.value);
    var c := room.Join(name);
    third := c.Some?;
  }
}
