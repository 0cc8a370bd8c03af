# Chat client: packet framing and call session, in Dafny

This project models two parts of a Python chat client that sends text, files and live audio/video through a relay server:

- **Packet framing** (`protocol.py`). `send_packet` writes one frame: a 4-byte big-endian length header, then the body. The body is the msgpack encoding of `{"type": cmd, "data": data}`, Fernet-encrypted by default. `receive_packet` rebuilds a frame from whatever chunks the socket delivers. One loop reads the header and a second loop reads the body, each `recv` asking for at most 4096 bytes.
- **The client's call session and packet dispatch** (`client.py`, class `ClientApp`):
  - `end_call`, `setup_call_window`, `start_call`, `select_user` and the `to` field of `send_file`;
  - the `listen_server` loop, which routes LIST, MSG, FILE, VIDEO_FRAME, AUDIO_CHUNK and END_CALL packets;
  - the glare suppression in that loop: media from the partner of a call that ended less than 3 seconds ago is dropped.

The project has five modules:

- `Values` (`values.dfy`): the dynamically typed values msgpack decodes into. It makes Python's truthiness and its `d[key]` / `d.get(key)` / `for x in v` failures explicit as `Option` results.
- `Protocol` (`protocol.dfy`):
  - the header encoding and the frame function;
  - a `Socket` class whose `inbox` holds the chunks the network delivered;
  - `SendPacket`, and `ReceivePacket` with the header and body `while` loops it runs (`ReadHeader`, `ReadBody`), proved against the pure `ReceiveSpec`;
  - `Loopback`, the round trip through arbitrary chunkings.
- msgpack and Fernet enter the model as `Codec` and `Cipher` values holding their functions. The only facts assumed about them are the inverse laws `Lossless` and `Authentic`. These appear as preconditions wherever they are used, never as axioms.
- `Session` (`session.dfy`): the client's state as a value `Client`, and one function per handler that computes the next state. It also defines:
  - the invariant `Inv`: a call window implies a call, an idle client has no partner, an audio producer was started for the partner of every open or queued call window, and the target is never oneself;
  - its preservation over any trace of events (`RunInv`) and over the listener (`ListenInv`);
  - the call scenarios.
- `App` (`client.dfy`): the class `ClientApp`, whose fields are updated in place like the source's. Each handler method is proved to move `State()` exactly as the matching `Session` function does. The entry points (the constructor, `EndCall`, `StartCall`, `SelectUser`, `SendFile`, `RunDeferred`, `HandlePacket`, `ListenOnce` and `ListenServer`) also keep `Inv`. `RunDeferred` opens a queued window with the target captured when it was queued; the source reads the listener's current `sender` instead (see Findings).
- `LateBinding` (`findings.dfy`): the as-written behaviour behind the finding below, with a concrete input that breaks `Inv`.

Effects the model does not perform are kept as logs in the state, in program order:

- packets handed to `send_packet` (`outbox`);
- producer threads started (`producers`);
- callbacks queued with `root.after` (`pending`, a FIFO that the Tk loop drains with `RunDeferred`);
- chat lines, audio chunks played, and files saved.

Time is an integer clock in milliseconds, passed as a parameter. The listener handles its `k`-th packet at time `clock(k)`.

Four behaviours of the code that one might expect to be otherwise are modelled as written:

- `start_call` while a call is active is not rejected. When a call window is already open it keeps that window and partner, and it still starts new producers (`StartCallNext`).
- An inbound END_CALL is not checked against the partner. It runs `end_call`, which sends END_CALL back to the partner (`RemoteHangUp`).
- Media from another user during a call is not ignored. It is delivered like the partner's: its frame is queued or its chunk played (`OnMedia` with `DeliverMedia`).
- A frame that fails to decrypt or unpack does not let the listener skip it and continue. `receive_packet` returns `None` and the listener disconnects (`ReceiveNext`).

## Model

| member | source | states |
|---|---|---|
| Values.Truthy | client.py:430 | Python truthiness: `None`, `False`, `0` and empty strings, byte strings, lists and dicts are false; everything else is true |
| Values.Items | client.py:455-460 | `for x in v` visits a list's items, a string's one-character strings and a byte string's integers, in order; it raises exactly on `None`, booleans, integers and (see Left out) dicts |
| Protocol.DecodeLength | protocol.py:94 | `struct.unpack(">I", header)` on 4 bytes yields a length below 2^32 |
| Protocol.EncodeLength | protocol.py:57-58 | `struct.pack(">I", n)` gives exactly `HEADER_LENGTH` = 4 bytes, and decoding them gives back `n` |
| Protocol.DecodeThenEncode | protocol.py:94 | every 4-byte header is the encoding of the length it decodes to, so the header is a bijection with [0, 2^32) |
| Protocol.Payload | protocol.py:49 | the packed map has exactly the keys type and data holding `cmd` and the data, and is truthy, so a delivered packet is never read as a disconnect |
| Protocol.Body | protocol.py:50-54 | the body exists exactly when `packb` accepts the payload; unencrypted it is the packed bytes themselves, encrypted it is `encrypt` of them |
| Protocol.Open | protocol.py:106-111 | the packet is the unpacking of the body, or of its plaintext when encrypted; a body that fails to decrypt (InvalidToken) or whose bytes do not unpack yields `None`; its partner is `OpenBody` |
| Protocol.OpenBody | protocol.py:106-109 | decrypting (when asked) and unpacking any body `send_packet` could build returns the original `{"type","data"}` map, given the msgpack and Fernet inverse laws |
| Protocol.Frame | protocol.py:49-61 | a frame exists exactly when `packb` accepts the payload and the body is shorter than 2^32 bytes; it is 4 + \|body\| bytes, its header decodes to \|body\|, and the rest is the body |
| Protocol.ReceiveSpec | protocol.py:74-111 | `receive_packet` never consumes more than the stream holds, and a packet always consumes at least the header; a `None` that stops short of the end consumed exactly one whole frame |
| Protocol.ReceiveFrame | protocol.py:86-109 | a frame followed by any bytes yields exactly its packet and consumes exactly the frame |
| Protocol.ReceiveTruncated | protocol.py:90-91 | a stream ending anywhere inside a frame yields `None` after consuming all of it |
| Protocol.Socket.constructor | protocol.py:89 | a fresh socket holds the given non-empty incoming chunks and has sent and read nothing |
| Protocol.Socket.Recv | protocol.py:101 | `recv(n)` returns at most `n` bytes from the front of the stream; it returns empty exactly at EOF, on a closed socket, or for `n = 0`, and logs the request size |
| Protocol.Socket.SendAll | protocol.py:61 | `sendall` on a working connection appends its data to what was sent; on a broken one it fails after an unknown prefix of the data; nothing else changes |
| Protocol.Socket.Break | protocol.py:63-68 | the peer resets the connection: from then on `sendall` fails; nothing else changes |
| Protocol.Socket.Close | client.py:546 | closing sets `closed` and keeps every other field |
| Protocol.SendPacket | protocol.py:31-71 | returns True exactly when the socket exists, is open, its connection works, `packb` accepts the payload and the body fits the header; then exactly the frame was sent; a missing or closed socket or an unframeable payload sends nothing; a failing `sendall` leaves a prefix of the frame; it never raises |
| Protocol.ReadHeader | protocol.py:87-92 | the header loop asks for at most 4 bytes per `recv` and returns exactly the first 4 stream bytes, or `None` after an empty `recv` |
| Protocol.ReadBody | protocol.py:97-104 | the body loop asks for between 1 and `BUFFER_SIZE` = 4096 bytes per `recv` and returns exactly the next `length` bytes, or `None` when the stream ends first |
| Protocol.ReceivePacket | protocol.py:74-111 | for any chunking, returns the packet `ReceiveSpec` gives for the pending bytes and takes exactly the bytes it consumed; `None` on a closed socket; no `recv` asks for more than 4096 bytes |
| Protocol.Chunk | protocol.py:88-104 | any cutting of a byte string into non-empty chunks concatenates back to it, so the reads above cover every chunking the network may produce |
| Protocol.Loopback | protocol.py:49-109 | the bytes `send_packet` writes, delivered in any chunking to `receive_packet` with the same encryption flag, give back `{"type": cmd, "data": data}`; on a working socket sending fails exactly when `packb` refuses the payload or the body is 2^32 bytes or longer |
| Session.Initial | client.py:118-130 | after login the client is connected and listening, broadcasting, idle, with the LOGIN packet sent |
| Session.EndCallNext | client.py:314-338 | afterwards idle, no window, no partner; with a truthy partner it sends END_CALL to them and records partner and time; otherwise both records are kept and nothing is sent |
| Session.EndCallIdempotent | client.py:316-329 | a repeated `end_call` changes nothing: no second END_CALL, and the recorded partner and time are kept |
| Session.SetupCallWindowNext | client.py:273-279 | no change when a window exists; otherwise in a call with `target` and the window open |
| Session.Streams | client.py:262-271 | a call starts an audio producer, and a video producer exactly in video mode, all towards the target |
| Session.StartCallNext | client.py:256-271 | no change while broadcasting; otherwise a window is open, the partner stays if a window already existed, and the producers grow by `Streams` even then; nothing but the call fields and the producers changes |
| Session.SelectUserNext | client.py:137-152 | no selection means broadcast; selecting oneself changes nothing; any other row becomes the target; nothing else changes, and the target never becomes oneself |
| Session.FileRecipient | client.py:236 | `to` is `None` exactly when broadcasting, otherwise the selected user |
| Session.FileData | client.py:232-237 | the FILE map has exactly the keys filename, size, content, to: the file's name, its length, its bytes and `FileRecipient` of the target |
| Session.SendFileNext | client.py:224-245 | one FILE packet with that map is sent and one line shown as from "Me"; nothing else changes |
| Session.OnList | client.py:449-460 | succeeds exactly when users and rooms exist and are iterable; then the user list is "All" followed by the users and the room list is the rooms; nothing else changes |
| Session.MsgLine | client.py:462-469 | a line exists exactly when `from` and `text` exist; it is private exactly when `is_private` is truthy (absent counts as false); the user's own name is shown as "Me", any other sender as is |
| Session.OnMsg | client.py:462-471 | a MSG adds exactly the `MsgLine` line to the chat, or raises with nothing changed |
| Session.OnFile | client.py:473-477 | succeeds exactly when from, filename and content exist and the content is a byte string (any other content makes the "wb" write at client.py:252-253 raise); then the file is saved and announced; otherwise nothing changes |
| Session.AcceptMedia | client.py:489-502 | the first media packet queues a window for its sender, sets `in_call`, and starts video and audio producers for a frame, audio only for a chunk |
| Session.OnMedia | client.py:479-531 | while in a call no call state or producer changes and the packet is delivered as `DeliverMedia` says, whoever sent it; while idle, glare leaves the state untouched, any other sender starts the call with `AcceptMedia` (window queued, producers started) and its packet is then delivered; a non-dict `data` while idle raises |
| Session.Glare | client.py:483-486 | media is dropped when it comes from the last partner less than `GRACE_MS` after the call ended, and only then; its partner is `GraceAfterHangUp` |
| Session.DeliverMedia | client.py:504-531 | a frame is queued for display and a chunk is played when an audio player is ready, whoever sent it; it raises exactly when the frame, or with a ready player the chunk, is missing; without a player a chunk is ignored; nothing else changes |
| Session.Dispatch | client.py:446-540 | no packet changes the outbox, the window, the partner, the glare record, the connection or the target; the chat only grows; during a call the producers stay |
| Session.ReceiveNext | client.py:427-447 | a missing or falsy packet disconnects and stops the listener; a truthy one keeps the connection, and the listener goes on exactly when its handler did not raise; a stopped listener changes nothing |
| Session.RunDeferredNext | client.py:489-494 | the Tk loop runs the oldest queued callback: a queued window opens with the target it was queued for (see Left out), a queued `end_call` leaves the client idle; no callback touches the connection or the chat or takes back a sent packet |
| Session.Drain | client.py:533-540 | running callbacks until none are left empties the queue, keeps the connection and the chat, and only adds to the outbox |
| Session.Listen | client.py:427-444 | the listener always ends stopped, either disconnected or after a handler raised |
| Session.InitialInv | client.py:28-37 | the logged-in state satisfies the invariants |
| Session.MediaInv | client.py:479-531 | a media packet keeps the invariants: every window it queues has an audio producer for its sender |
| Session.DispatchInv | client.py:446-540 | every packet keeps the invariants |
| Session.StepInv | client.py:137-540 | every handler, callback and click keeps the invariants |
| Session.RunInv | client.py:273-279 | in every reachable state a window implies a call, an idle client has no partner, every open or queued window has an audio producer for its partner, and the target is never oneself |
| Session.ListenInv | client.py:427-540 | the whole listener run keeps the invariants, whatever the server sends |
| Session.StepLogsGrow | client.py:137-540 | no single handler, callback or click takes back a sent packet or a chat line |
| Session.RunLogsGrow | client.py:137-540 | along any trace the sent packets and the chat lines only grow |
| Session.GraceAfterHangUp | client.py:480-487 | after hanging up on a partner at `t`, their media at `t + dt` is dropped with no effect exactly when `dt < 3000`; from 3000 on it starts the call, queues the window and starts an audio producer |
| Session.OtherCallerRings | client.py:480-502 | media from anyone but the last partner starts a call while idle, however soon after the last call it comes |
| Session.DrainKeepsIdle | client.py:314-338 | an idle client stays idle through any callbacks that open no window |
| Session.DrainEndsIdle | client.py:533-534 | whatever is queued before an `end_call` callback, draining the queue ends idle when no window is queued after it |
| Session.RemoteHangUp | client.py:533-534 | after an END_CALL packet and all queued callbacks, the client is idle with no window or partner and still listening, whatever was queued before; with nothing queued before, `end_call` has sent exactly END_CALL back to a truthy partner |
| App.ClientApp.constructor | client.py:20-37 | the object starts in the logged-in state, satisfying the invariants |
| App.ClientApp.EndCall | client.py:314-338 | moves the state as `EndCallNext` and keeps the invariants |
| App.ClientApp.SetupCallWindow | client.py:273-279 | moves the state as `SetupCallWindowNext` |
| App.ClientApp.StartCall | client.py:256-271 | moves the state as `StartCallNext` and keeps the invariants |
| App.ClientApp.SelectUser | client.py:137-152 | moves the state as `SelectUserNext` and keeps the invariants |
| App.ClientApp.SendFile | client.py:224-245 | moves the state as `SendFileNext` and keeps the invariants |
| App.ClientApp.RunDeferred | client.py:489-494 | runs the oldest queued callback as `RunDeferredNext` does and keeps the invariants |
| App.ClientApp.ShowUsers | client.py:453-456 | the user list box ends as "All" followed by every user, in order |
| App.ClientApp.ShowRooms | client.py:458-460 | the room list box ends as every room, in order |
| App.ClientApp.OnListPacket | client.py:449-460 | the LIST branch moves the state and raises as `OnList` says |
| App.ClientApp.OnMsgPacket | client.py:462-471 | the MSG branch moves the state and raises as `OnMsg` says |
| App.ClientApp.OnFilePacket | client.py:473-477 | the FILE branch moves the state and raises as `OnFile` says, including on content that is not a byte string |
| App.ClientApp.OnMediaPacket | client.py:479-531 | the VIDEO_FRAME and AUDIO_CHUNK branches move the state and raise as `OnMedia` says |
| App.ClientApp.DeliverMediaPacket | client.py:504-531 | the frame display and chunk playback move the state and raise as `DeliverMedia` says |
| App.ClientApp.HandlePacket | client.py:446-540 | the loop body for one packet moves the state and raises as `Dispatch` says, and keeps the invariants |
| App.ClientApp.ListenOnce | client.py:427-540 | one loop turn moves the state as `ReceiveNext` on the packet `ReceiveSpec` gives, and consumes exactly that packet's bytes |
| App.ClientApp.ListenServer | client.py:416-548 | the listener ends in the state `Listen` gives for the bytes the socket had pending, keeps the invariants, sends nothing, and has closed the socket exactly when disconnected |
| LateBinding.SenderAfter | client.py:463-481 | the listener's `sender` local after a packet: a MSG with `from` rebinds it to `from`, or to "Me" when `from` is oneself and `text` exists; a FILE with `from` rebinds it to `from`; an idle media packet rebinds it to `data.get("sender")`; malformed packets, and during a call anything but MSG and FILE, leave it alone |
| LateBinding.RunDeferredAsWritten | client.py:489-494 | as written, a queued window opens with the listener's current `sender`; every other callback runs as in `RunDeferredNext` |
| LateBinding.AsWrittenAgreesWhenNotRebound | client.py:489-494 | as written and corrected agree whenever `sender` still names the queued target |
| LateBinding.BobRings | client.py:479-505 | alice, idle, gets a video frame from bob: call on, producers for bob, window and frame queued, `sender` is bob |
| LateBinding.CarolWrites | client.py:462-471 | carol's message only adds a chat line and rebinds `sender` to carol |
| LateBinding.LateBoundPartner | client.py:489-494 | after bob's frame and carol's message, the as-written callback opens the call with carol, who has no producer, breaking the invariant; the corrected one opens it with bob and keeps the invariant |

## Left out

- The Tk GUI is not modelled: widgets, titles, colours, message boxes and video rendering. Only the list box contents and the chat lines are kept. List box entries are kept as the inserted values, not as the strings Tk converts them to.
- `threading`, `send_lock` and daemon threads are not modelled. Producer threads are entries in `producers`.
- The device loops of `send_video_stream` and `send_audio_stream` (client.py:340-402) are not modelled. Neither is `media_utils.py`: `player.stream` is the `playerReady` flag, and playing a chunk is a log entry.
- The internals of msgpack and Fernet are not modelled. Fernet's random IV only matters to the `Authentic` law. Floats and non-string map keys in msgpack values are not represented.
- `time.time()` is replaced by an integer clock counting milliseconds since the epoch, so the initial `last_call_end_time` of 0 means "never"; a clock reading below 3000 (the first three seconds of 1970) would make the model drop media as glare, which a real clock never gives. The 3.0-second grace period becomes `GRACE_MS` = 3000.
- Python's `True == 1` equality is not modelled. Value equality is structural.
- Values.Items: iterating a dict in Python visits its keys; the model treats a dict there as raising.
- Protocol.Socket.Recv: `recv` on a locally closed socket raises in Python; here it returns empty. `receive_packet` returns `None` either way.
- Protocol.SendPacket: which payloads `packb` refuses (integers outside 64 bits, over-long strings) is not characterised; `pack` is just allowed to fail.
- Protocol.Socket.Break: a reset connection only affects sending; on the receiving side it is modelled as the end of the stream, which gives the same `None` from `receive_packet`.
- Protocol.ReadHeader: the contract bounds each header `recv` by 4 bytes rather than by the exact number still missing.
- `connect_to_server` dialogs and socket creation are not modelled. `Initial` is the state right after a successful login.
- `end_call`'s `client_socket` check is left out, because the socket is always set after login.
- File I/O in `save_incoming_file` and `send_file` is not modelled. A saved file is a log entry, and the chosen file's name and bytes are parameters.
- `send_msg`, `create_room` and `join_room` are not part of this model.
- `player.cleanup()` and `root.quit()` at the end of `listen_server` are not modelled.
- The outbox logs each `send_packet(cmd, data)` call, not its bytes; `Protocol.SendPacket` covers the bytes. The case where `send_packet` reports failure is not kept in the client's log.
- Session.RunDeferredNext: a queued window opens with the target captured when it was queued, not with the listener's current `sender` as the lambdas at client.py:491 and client.py:519 do; `LateBinding.RunDeferredAsWritten` models the code as written (see Findings).
- App.ClientApp.RunDeferred: runs callbacks as `Session.RunDeferredNext` does, so it has the same captured target rather than the source's late-bound `sender`.
- Session.OnFile: only the type of the content is checked; file-system errors when `save_incoming_file` creates or writes the file are not modelled.
- `ShowFrame` captures the frame when it is queued. The source's lambda at client.py:505 reads the listener's `frame` variable when it runs, so a later frame may be shown in its place; no state in the model depends on which frame is shown.

## Findings

| source | as written | input that shows it | evidently intended | confidence | as-written member | corrected member |
|---|---|---|---|---|---|---|
| client.py:489-494, client.py:517-522 | the `root.after` lambda reads the listener's `sender` variable when the Tk loop runs it, so any MSG, FILE or idle media packet handled before then rebinds the call partner | alice is idle; bob's VIDEO_FRAME arrives at 10000 ms, then a MSG from carol, then the Tk loop runs the callback: the call window opens with carol, while the producers stream to bob (a MSG from alice herself would open it with "Me") | the window opens with the sender whose packet queued it (e.g. `lambda s=sender: ...`) | high, not executed | LateBinding.LateBoundPartner | Session.RunInv |
