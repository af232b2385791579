# websocket-chat and the SNI resolver, modelled in Dafny

This project models the logic of the `websocket-chat` example of hyper-examples and the small
certificate lookup of `rustls-server-sni`:

- **The chat room** (`room.rs`). A `ChatRoom` holds a set of user names and a broadcast channel of
  capacity 100. `join` refuses a name that is already present. Otherwise it records the name and
  returns a `RoomReceiver` subscribed at that moment. Dropping the receiver releases its name. The
  broadcast channel is an append-only log, and each receiver is a cursor into it
  (module `Broadcast`). A receiver more than 100 messages behind gets a lag indication and then
  resumes at the oldest retained message. The room is a class (`Room.ChatRoom`). Its invariant
  `Valid()` says that the user map's keys are exactly the names held by the live receivers, that
  no name is held twice, and that every cursor lies at or after the receiver's join point.
- **The WebSocket actor** (`actor.rs`). One task owns the stream. A `SenderHandle` reaches it
  through a queue of `(message, one-shot)` pairs; a `ReceiverHandle` reads a queue of stream
  items. Both queues are bounded at 8.
  - `ActorSpec` gives every operation as a pure transition on `ActorState`:
    - the two arms of `select!`;
    - the enqueue and await halves of `SenderHandle::send`;
    - `ReceiverHandle::recv`;
    - dropping either kind of handle.
  - `ActorSpec.Inv` is the invariant those transitions keep. In particular, the stream is always
    written a prefix of the submitted messages, in submission order.
  - `Actor.WebsocketActor` performs the same transitions in place.
  - The `select!` choice is a `Choice` parameter. It also carries the write-failure oracle.
- **The session protocol** (`main.rs`). `handle_websocket` takes the first text frame as the user
  name. It then either writes `username already taken` or broadcasts, in order:
  - `"{name} joined the room"`;
  - `"{name}: {s}"` for every later text frame;
  - `"{name} left the room"`, exactly once.

  `send_task` forwards room messages to the connection until a receive error or a failed send.
  `serve`/`try_serve` route `/`, `/websocket` and everything else. Every routing error becomes 404.
- **The SNI resolver** (`rustls-server-sni/src/util/test.rs`). A map from server name to
  certified key. `add` inserts or replaces and always succeeds. `resolve` returns nothing without
  a server name; otherwise it returns the key added most recently under exactly that name.

External collaborators become parameters:
- the stream is the sequence of items it will yield, plus a log of what was written to it;
- whether a write fails is an `Option<WsError>` passed with the step;
- whether `send_task`'s k-th send fails is the parameter `failAt`;
- the `Sec-WebSocket-Accept` computation (`convert_key`: SHA-1 and base64) is the function
  parameter `accept`;
- the certified key is the type parameter `K`.

Two behaviours of the source are easy to misread:
- **Stream errors do not stop the actor.** `recv_msg` (actor.rs:62-73) forwards an `Err` item like
  any other and the loop goes on. Only end of stream, or a dropped `ReceiverHandle`, stops it
  (`ActorSpec.StreamItemForwarded`, `ActorSpec.StreamEndOrNoReaderStops`).
- **A send still queued when the loop breaks returns `Ok(())`.** The queue is dropped together
  with its one-shots, whatever made the loop break. The awaiting `SenderHandle::send` then sees a
  closed one-shot and returns `Ok(())`, although nothing was written
  (`ActorSpec.QueuedSubmissionsSilentlySucceed`, `ActorSpec.HaltReleasesQueued`). Only sends not
  yet enqueued when the loop breaks return `AlreadyClosed`. That includes a send suspended on a
  full queue (`ActorSpec.StoppedActorRefusesSends`).

## Model

| member | source | states |
|---|---|---|
| `Broadcast.Poll` | websocket-chat/src/room.rs:22 | one receive: the message at the cursor if the cursor is within the last 100 messages; a lag carrying the number missed, resuming at the oldest retained one, if further behind; pending (open) or closed at the end of the log |
| `Broadcast.DrainWithinWindow` | websocket-chat/src/room.rs:22 | a receiver at most 100 messages behind receives every later message once, in publication order, and then suspends or sees the channel closed |
| `Broadcast.LaggedReceiverSkipsToWindow` | websocket-chat/src/room.rs:22 | a receiver more than 100 messages behind gets one lag indication with the missed count, then exactly the 100 retained messages, never a dropped one |
| `Broadcast.DrainOnlyLaterMessages` | websocket-chat/src/room.rs:40 | every message a receiver gets was published at or after its cursor, so it sees nothing sent before it subscribed |
| `Room.ChatRoom.constructor` | websocket-chat/src/room.rs:19-24 | a new room has no users, no receivers, an empty log, and an open channel |
| `Room.ChatRoom.Join` | websocket-chat/src/room.rs:26-42 | a present name is refused with `None`, leaving the room unchanged; an absent name gives a fresh receiver holding that name, positioned at the current end of the log; the users become the old users plus exactly that name; the invariant holds afterwards |
| `Room.ChatRoom.Send` | websocket-chat/src/room.rs:44-46 | never fails; the message is appended to the log if anyone is subscribed and discarded otherwise; membership unchanged |
| `Room.ChatRoom.Leave` | websocket-chat/src/room.rs:69-73 | dropping a receiver removes exactly its own name and that receiver; every other name and receiver stays; the invariant holds afterwards |
| `Room.ChatRoom.Close` | websocket-chat/src/room.rs:12-16 | dropping the last room handle closes the channel and changes nothing else |
| `Room.RoomReceiver.constructor` | websocket-chat/src/room.rs:37-41 | the receiver holds the joining name and its cursor starts at the join point |
| `Room.RoomReceiver.Recv` | websocket-chat/src/room.rs:55-67 | a receive on the room receiver behaves as `Poll` and keeps the room invariant; a received message lies at or after the join point |
| `Room.RejoinAfterLeave` | websocket-chat/src/room.rs:26-73 | join succeeds, a second join with the same name is refused, and after the first receiver is dropped the name can be joined again |
| `ActorSpec.Start` | websocket-chat/src/actor.rs:106-122 | `start_actor` gives a running actor with both handles alive, both queues empty, nothing written, and the invariant established |
| `ActorSpec.AwaitReply` | websocket-chat/src/actor.rs:88-92 | awaiting the one-shot gives `Ok(())` exactly when it was dropped empty, and `Err(e)` exactly when the actor reported `e` |
| `ActorSpec.DrainWrites` | websocket-chat/src/actor.rs:42-51 | `n` successful turns of the queue arm write exactly the messages of the first `n` queued submissions, in queue order |
| `ActorSpec.SendRoundTrip` | websocket-chat/src/actor.rs:49-93 | on a running actor with room in the queue, `send` enqueues the message behind those already queued and stays suspended while they are written in order; when its own write succeeds, `send` returns `Ok(())` and the stream has gained the earlier messages and then this one; if that write fails with `e`, `send` returns `Err(e)`, the message is not written and the loop breaks |
| `ActorSpec.SubmitKeepsInv` | websocket-chat/src/actor.rs:84-86 | enqueuing a submission keeps both queues within 8 and the submission order of the written messages |
| `ActorSpec.ForwardKeepsInv` | websocket-chat/src/actor.rs:68-72 | forwarding a stream item to the inbound queue keeps the invariant |
| `ActorSpec.QueueStepKeepsInv` | websocket-chat/src/actor.rs:49-60 | writing the front submission, or failing to, keeps the invariant; the stream still receives the submissions in order |
| `ActorSpec.StepKeepsInv` | websocket-chat/src/actor.rs:36-73 | every turn of the `select!` loop keeps the invariant |
| `ActorSpec.RecvKeepsInv` | websocket-chat/src/actor.rs:101-103 | `ReceiverHandle::recv` keeps the invariant |
| `ActorSpec.RunKeepsInv` | websocket-chat/src/actor.rs:36-47 | any number of loop turns keeps the invariant; what is written is always a prefix of the submitted messages in submission order (FIFO) |
| `ActorSpec.QueuesStayBounded` | websocket-chat/src/actor.rs:110-111 | under any schedule both queues hold at most 8 entries |
| `ActorSpec.WriteFailureIsReported` | websocket-chat/src/actor.rs:51-54 | a failed write puts the error in that submission's one-shot, writes nothing and breaks the loop; that `send` returns the error |
| `ActorSpec.WriteSuccessReleases` | websocket-chat/src/actor.rs:49-60 | a successful write appends exactly the front message, pops it, continues the loop and drops the one-shot empty, so that `send` returns `Ok(())` |
| `ActorSpec.ClosedQueueStops` | websocket-chat/src/actor.rs:56 | with every sender dropped and nothing queued, the queue arm breaks the loop without writing |
| `ActorSpec.StreamItemForwarded` | websocket-chat/src/actor.rs:62-73 | when the inbound queue has room, a stream item, `Ok` or `Err`, is appended unchanged to it and the loop continues |
| `ActorSpec.StreamEndOrNoReaderStops` | websocket-chat/src/actor.rs:63-70 | end of stream breaks the loop, and so does forwarding to a dropped `ReceiverHandle` |
| `ActorSpec.StoppedActorRefusesSends` | websocket-chat/src/actor.rs:84-86 | after the loop has broken, `send` returns `AlreadyClosed`, and no earlier `send` is left waiting on its one-shot |
| `ActorSpec.HaltReleasesQueued` | websocket-chat/src/actor.rs:36-47 | breaking the loop drops the queue: every queued one-shot is released empty, so its `send` returns `Ok(())`; every other slot, the written messages and the inbound side are unchanged; the invariant holds afterwards |
| `ActorSpec.QueuedSubmissionsSilentlySucceed` | websocket-chat/src/actor.rs:36-92 | whichever way a loop turn breaks the loop (end of stream, dropped receiver, closed queue, failed write), nothing is written and every submission still queued gets `Ok(())` from `send`, except the one whose write failed |
| `ActorSpec.StepKeepsInboundOrder` | websocket-chat/src/actor.rs:62-73 | while the `ReceiverHandle` lives, a loop turn neither loses, duplicates nor reorders the items on their way to it (queued, parked on a full queue, or still in the stream) |
| `ActorSpec.RunKeepsInboundOrder` | websocket-chat/src/actor.rs:36-73 | the same for any schedule of loop turns: the items reach the inbound queue in stream order |
| `ActorSpec.RecvYieldsFront` | websocket-chat/src/actor.rs:101-103 | `ReceiverHandle::recv` returns the first item in flight and removes exactly that one, so the receiver sees the stream's items in stream order |
| `Actor.WebsocketActor.constructor` | websocket-chat/src/actor.rs:106-122 | a new actor is in the `start_actor` state and satisfies the invariant |
| `Actor.WebsocketActor.Halt` | websocket-chat/src/actor.rs:37-46 | breaking the loop, in place, from any state whose one-shot slots are consistent: the state becomes `ActorSpec.Halt` of the old one, which releases every queued one-shot empty, and the invariant holds |
| `Actor.WebsocketActor.Submit` | websocket-chat/src/actor.rs:81-86 | the enqueue half of `send`, in place, keeping the invariant |
| `Actor.WebsocketActor.AwaitReply` | websocket-chat/src/actor.rs:88-92 | reads the one-shot: `Ok(())` exactly when it was dropped empty, the reported error exactly when one was sent |
| `Actor.WebsocketActor.Recv` | websocket-chat/src/actor.rs:101-103 | pops the next forwarded item; end of stream once the actor is gone and the queue is drained; suspended otherwise |
| `Actor.WebsocketActor.DropSenders` | websocket-chat/src/actor.rs:76-78 | every `SenderHandle` is gone; nothing else changes |
| `Actor.WebsocketActor.DropReceiver` | websocket-chat/src/actor.rs:96-98 | the `ReceiverHandle` is gone, together with what was queued for it |
| `Actor.WebsocketActor.Forward` | websocket-chat/src/actor.rs:68-72 | forwards a stream item, waits while the inbound queue is full, and breaks once no receiver remains |
| `Actor.WebsocketActor.Step` | websocket-chat/src/actor.rs:38-73 | one turn of the loop with the chosen `select!` arm, in place, keeping the invariant |
| `Actor.WebsocketActor.Run` | websocket-chat/src/actor.rs:36-47 | loop turns under a schedule until the loop breaks; the final state is that of `ActorSpec.Run`, and the invariant holds |
| `Session.FirstText` | websocket-chat/src/main.rs:137-145 | the position of the first `Ok(Text)` item, every earlier item being something else; none if there is no text item |
| `Session.SelectUsername` | websocket-chat/src/main.rs:137-145 | the username is the text of the first `Ok(Text)` item, with non-text and `Err` items before it skipped; without one the stream is consumed and there is no username |
| `Session.RelaysAppend` | websocket-chat/src/main.rs:172-178 | relaying two stretches of items one after the other gives the relays of the first followed by those of the second |
| `Session.RelaysAreRelayShaped` | websocket-chat/src/main.rs:172-178 | every relayed line has the form `"{name}:..."` |
| `Session.AnnouncementsAreDistinct` | websocket-chat/src/main.rs:155-182 | the join and leave announcements differ from each other and from every relayed line |
| `Session.SessionShape` | websocket-chat/src/main.rs:155-182 | after a successful join the broadcasts are: the join announcement first and only there, then the relays of the later items in order, then the leave announcement once and last |
| `Session.SessionRefusals` | websocket-chat/src/main.rs:137-153 | nothing is broadcast exactly when there is no username or it is taken; the connection gets exactly `username already taken` exactly when the name is taken |
| `Session.ReceiveTask` | websocket-chat/src/main.rs:171-183 | while anyone is subscribed, broadcasts `"{name}: {s}"` for every text item in order and then the leave announcement once; membership unchanged |
| `Session.HandleWebsocket` | websocket-chat/src/main.rs:125-161 | the room's log grows by exactly the session's broadcasts; the connection gets exactly the session's replies; the name is released at the end, so membership is as before |
| `Session.SendTask` | websocket-chat/src/main.rs:163-169 | forwards the room's messages in order up to and including the first failed send, or up to the first lag, closed or empty receive; a receiver within the window forwards exactly the log from its cursor on |
| `Routing.Upgrade` | websocket-chat/src/main.rs:89-115 | succeeds exactly when `sec-websocket-key` is present and visible ASCII, failing with `MissingKey` exactly when it is absent; on success the response is 101 with `connection: Upgrade`, `upgrade: websocket` and the accept value of the key, with an empty body |
| `Routing.TryServeFailsOnlyOnBadUpgrade` | websocket-chat/src/main.rs:68-96 | `try_serve` fails only on `/websocket`, exactly when `sec-websocket-key` is missing or not visible ASCII, with `MissingKey` exactly when it is missing; every other path, known or not, gets a 200 or 404 response |
| `Routing.Serve` | websocket-chat/src/main.rs:50-58 | 200 exactly for `/`; 101 exactly for `/websocket` with a valid key; everything else, including a failed upgrade, is the 404 response |
| `Routing.UpgradeHeaders` | websocket-chat/src/main.rs:107-112 | a served upgrade has status 101 and carries `connection: Upgrade` and `upgrade: websocket` |
| `Sni.ReplayIsLastAdded` | rustls-server-sni/src/util/test.rs:25-29 | the map that `add` calls build holds a name exactly when it was added, with the value added last under it |
| `Sni.ResolvesServerCertUsingSni.constructor` | rustls-server-sni/src/util/test.rs:19-23 | a new resolver has an empty map and no additions |
| `Sni.ResolvesServerCertUsingSni.Add` | rustls-server-sni/src/util/test.rs:25-29 | always `Ok(())`; inserts or replaces the key for the name; every other entry is unchanged |
| `Sni.ResolvesServerCertUsingSni.Resolve` | rustls-server-sni/src/util/test.rs:33-41 | nothing without a server name; otherwise the key most recently added under exactly that name, or nothing if the name was never added; reads the map without changing it |
| `Sni.AddThenResolve` | rustls-server-sni/src/util/test.rs:25-41 | after `add(n, k)`, resolving `n` gives `k` and resolving any other name gives what it gave before |

## Left out

- Scheduling and concurrency are not modelled. This covers `tokio::spawn`, `select!` fairness,
  and the interleaving of `send_task` with `receive_task`. `select!` is an explicit `Choice` and
  every operation is one atomic step. The room's `Mutex` is plain exclusive access, and lock
  poisoning (`lock().unwrap()` panicking) is not modelled.
- `Session.HandleWebsocket` runs the session without `send_task`. `send_task` is `Session.SendTask`
  on its own. So the model does not capture `send_task` ending early: ending early drops the
  receiver, which releases the name while `receive_task` is still relaying. `handle.abort()`
  becomes the final `Leave`.
- The stream's own readiness is not modelled. A stream with nothing ready is represented by the
  scheduler choosing the queue arm, and a write is one atomic step whose outcome is the oracle.
- A `SenderHandle::send` future cancelled before its reply arrives is not modelled. Neither
  handle type derives `Clone`, so there is exactly one of each; `DropSenders` is the drop of the
  `SenderHandle`.
- Capacity rounding is not modelled. tokio's broadcast channel rounds its capacity up to a power
  of two internally; the model retains exactly the 100 messages the source asks for.
- Message payloads and error variants are not modelled. Messages are `Text(string)` or an opaque
  `Other(tag)`, and errors are `AlreadyClosed` or an opaque `StreamError(code)`.
- `convert_key` is not modelled. It is SHA-1 and base64 from foreign crates, so it is the function
  parameter `accept`. Spawning `handle_websocket` from `upgrade`, and its upgrade-error log line,
  are I/O left out of `Routing.Upgrade`.
- Header lookup is not modelled in full. Header names are the lower-case keys hyper stores, one
  value per name; case-insensitive lookup and repeated headers are not modelled.
- Server name normalization is not modelled. The resolver's client hello carries the server name
  as any string. The owned DNS name made in `resolve` is held in ASCII lower case by the webpki
  library, so in the source a name added in mixed case never matches; the model assumes names
  are already lower case.
- `Box::leak`, the process-wide singleton room, is not modelled. The room is constructed
  explicitly. The leaked room keeps one broadcast sender alive for the life of the process, so
  the chat never closes the channel. `Room.ChatRoom.Close` and the `Closed` receive that ends
  `Session.SendTask` are the channel type's behaviour, modelled for completeness; the program
  never takes either path.
- I/O and bootstrap are not part of this model. This covers the TLS configuration, PEM and file
  loading, listeners, accept loops, the echo server of rustls-websocket and the rustls client.
