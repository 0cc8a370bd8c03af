/** The client's call-session state machine and packet dispatch, as values.

    `Client` holds the fields of `ClientApp` that its handlers read and
    write, plus logs standing for effects the model does not carry out:
    producer threads started, packets handed to `send_packet`, callbacks
    queued with `root.after`, chat lines, audio chunks played and files
    saved. Each handler is a function from the old state to the new one;
    the class in module `App` is proved to follow them. */
module Session {
  import opened Values
  import opened Protocol

  /** Inbound media from the partner of a call that ended less than this
      many milliseconds ago is dropped (3.0 seconds in the source). */
  const GRACE_MS := 3000
  /** The pseudo-user that means "everyone". */
  const BROADCAST := "All"

  datatype Mode = VideoCall | VoiceCall
  datatype Media = Video | Audio

  /** A `send_video_stream` or `send_audio_stream` thread started for `target`. */
  datatype Producer = Producer(media: Media, target: Value)

  /** A callback queued with `root.after(0, ...)`, run later by the Tk main
      loop in queue order. */
  datatype Deferred =
    | OpenWindow(target: Value)   // setup_call_window(target=sender, incoming=True)
    | EndCallLater                // end_call
    | NotifyCallEnded             // the "The other user ended the call." message box
    | ShowFrame(frame: Value)     // update_call_video(frame)

  datatype LineKind = TextLine | PrivateLine | FileLine

  /** One `append_message(msg_type, sender, content)` call. */
  datatype ChatLine = ChatLine(kind: LineKind, sender: Value, content: Value)

  /** One `send_packet(client_socket, cmd, data)` call. */
  datatype Outgoing = Outgoing(cmd: string, data: Value)

  /** One `save_incoming_file(filename, content)` call. */
  datatype SavedFile = SavedFile(name: Value, content: Value)

  datatype Client = Client(
    username: string,
    isConnected: bool,
    /** The `listen_server` thread is still in its loop. */
    listening: bool,
    targetUser: Value,
    inCall: bool,
    /** `call_window` is not None. */
    callWindow: bool,
    callPartner: Value,
    lastCallPartner: Value,
    lastCallEndTime: int,
    userList: seq<Value>,
    roomList: seq<Value>,
    chat: seq<ChatLine>,
    outbox: seq<Outgoing>,
    producers: seq<Producer>,
    pending: seq<Deferred>,
    played: seq<Value>,
    saved: seq<SavedFile>)

  /** The state right after `connect_to_server` succeeded: logged in, the
      listener started, broadcasting, no call yet. */
  function Initial(username: string): (c: Client)
    ensures c.isConnected && c.listening && !c.inCall && !c.callWindow
    ensures c.targetUser == VStr(BROADCAST)
    ensures c.outbox == [Outgoing(CMD_LOGIN, VMap(map["username" := VStr(username)]))]
  {
    Client(username, true, true, VStr(BROADCAST), false, false, VNil, VNil, 0,
           [], [], [], [Outgoing(CMD_LOGIN, VMap(map["username" := VStr(username)]))], [], [], [], [])
  }

  /** Nothing outside the call fields and the outbox differs. */
  predicate SameExceptCall(c: Client, d: Client) {
    && d.username == c.username && d.isConnected == c.isConnected && d.listening == c.listening
    && d.targetUser == c.targetUser && d.userList == c.userList && d.roomList == c.roomList
    && d.chat == c.chat && d.producers == c.producers && d.pending == c.pending
    && d.played == c.played && d.saved == c.saved
  }

  // ---------------------------------------------------------------------
  // end_call, setup_call_window, start_call, select_user, send_file

  /** The END_CALL packet `end_call` sends to `partner`. */
  function EndCallSignal(partner: Value): Outgoing {
    Outgoing(CMD_END_CALL, VMap(map["target" := partner]))
  }

  /** `end_call` at time `now`: with a (truthy) partner it signals END_CALL
      and remembers partner and time for glare suppression; in every case
      the call and its window are gone afterwards. */
  function EndCallNext(c: Client, now: int): (d: Client)
    ensures !d.inCall && !d.callWindow && d.callPartner == VNil
    ensures SameExceptCall(c, d)
    ensures Truthy(c.callPartner) ==>
              d.lastCallPartner == c.callPartner && d.lastCallEndTime == now
              && d.outbox == c.outbox + [EndCallSignal(c.callPartner)]
    ensures !Truthy(c.callPartner) ==>
              d.lastCallPartner == c.lastCallPartner && d.lastCallEndTime == c.lastCallEndTime
              && d.outbox == c.outbox
  {
    var c1 :=
      if Truthy(c.callPartner) then
        c.(outbox := c.outbox + [EndCallSignal(c.callPartner)],
           lastCallPartner := c.callPartner,
           lastCallEndTime := now)
      else c;
    c1.(inCall := false, callWindow := false, callPartner := VNil)
  }

  /** `setup_call_window(target)`: a no-op while a window exists; otherwise
      the call is on with `target` and its window open. */
  function SetupCallWindowNext(c: Client, target: Value): (d: Client)
    ensures c.callWindow ==> d == c
    ensures !c.callWindow ==> d.inCall && d.callWindow && d.callPartner == target
    ensures SameExceptCall(c, d) && d.outbox == c.outbox
    ensures d.lastCallPartner == c.lastCallPartner && d.lastCallEndTime == c.lastCallEndTime
  {
    if c.callWindow then c
    else c.(inCall := true, callPartner := target, callWindow := true)
  }

  /** The producer threads a call in `mode` starts towards `target`. */
  function Streams(mode: Mode, target: Value): (ps: seq<Producer>)
    ensures Producer(Audio, target) in ps
    ensures (Producer(Video, target) in ps) <==> mode == VideoCall
    ensures forall p :: p in ps ==> p.target == target
  {
    (if mode == VideoCall then [Producer(Video, target)] else []) + [Producer(Audio, target)]
  }

  /** `start_call(mode)`: refused while broadcasting; otherwise opens the
      call window (unless one is open already) and starts the producers
      for the selected user, even when a window already existed. */
  function StartCallNext(c: Client, mode: Mode): (d: Client)
    ensures c.targetUser == VStr(BROADCAST) ==> d == c
    ensures c.targetUser != VStr(BROADCAST) ==>
              && d.callWindow && d.inCall == (c.inCall || !c.callWindow)
              && d.callPartner == (if c.callWindow then c.callPartner else c.targetUser)
              && d.producers == c.producers + Streams(mode, c.targetUser)
              && d.outbox == c.outbox && d.pending == c.pending
    ensures d == c.(inCall := d.inCall, callWindow := d.callWindow, callPartner := d.callPartner,
                    producers := d.producers)
  {
    if c.targetUser == VStr(BROADCAST) then c
    else
      var c1 := SetupCallWindowNext(c, c.targetUser);
      c1.(producers := c1.producers + Streams(mode, c.targetUser))
  }

  /** `select_user`: `selection` is the selected row of the user list, if
      any. Selecting oneself changes nothing, no selection means
      broadcast, any other row becomes the private target. */
  function SelectUserNext(c: Client, selection: Option<nat>): (d: Client)
    requires selection.Some? ==> selection.value < |c.userList|
    ensures d == c.(targetUser := d.targetUser)
    ensures selection.None? ==> d.targetUser == VStr(BROADCAST)
    ensures selection.Some? && c.userList[selection.value] == VStr(c.username) ==> d == c
    ensures selection.Some? && c.userList[selection.value] != VStr(c.username) ==>
              d.targetUser == c.userList[selection.value]
    ensures NotSelf(c) ==> NotSelf(d)
  {
    match selection
    case None => c.(targetUser := VStr(BROADCAST))
    case Some(i) =>
      var user := c.userList[i];
      if user == VStr(c.username) then c
      else c.(targetUser := user)
  }

  /** The `to` field of a FILE packet: `None` exactly for a broadcast (or
      a target that is itself `None`), otherwise the selected user. */
  function FileRecipient(target: Value): (to: Value)
    ensures to == VNil <==> (target == VStr(BROADCAST) || target == VNil)
    ensures to != VNil ==> to == target
  {
    if target != VStr(BROADCAST) then target else VNil
  }

  /** The data map of the FILE packet `send_file` sends. */
  function FileData(name: string, content: Bytes, target: Value): (v: Value)
    ensures v.VMap? && v.entries.Keys == {"filename", "size", "content", "to"}
    ensures v.entries["filename"] == VStr(name) && v.entries["to"] == FileRecipient(target)
    ensures v.entries["size"] == VInt(|content|) && v.entries["content"] == VBin(content)
  {
    VMap(map["filename" := VStr(name), "size" := VInt(|content|), "content" := VBin(content),
             "to" := FileRecipient(target)])
  }

  /** `send_file` once the user has picked a file called `name`: the FILE
      packet goes to the selected user, or to everyone, and the sender's
      own chat shows it. */
  function SendFileNext(c: Client, name: string, content: Bytes): (d: Client)
    ensures d.outbox == c.outbox + [Outgoing(CMD_FILE, FileData(name, content, c.targetUser))]
    ensures |d.chat| == |c.chat| + 1 && d.chat[..|c.chat|] == c.chat
    ensures d.chat[|c.chat|].sender == VStr("Me")
    ensures d == c.(outbox := d.outbox, chat := d.chat)
  {
    c.(outbox := c.outbox + [Outgoing(CMD_FILE, FileData(name, content, c.targetUser))],
       chat := c.chat + [ChatLine(TextLine, VStr("Me"), VStr("Sent file: " + name))])
  }

  // ---------------------------------------------------------------------
  // One iteration of the listen_server loop

  /** The state after one packet, and whether handling it raised an
      exception that escapes the loop (the code after `receive_packet`
      is outside the `try`, so a missing key ends the listener thread). */
  datatype Handled = Handled(client: Client, crashed: bool)

  /** Inbound media from `sender` while idle is dropped: it comes from the
      partner of the last call, within the grace period after it ended. */
  function Glare(c: Client, sender: Value, now: int): (g: bool)
    ensures g <==> sender == c.lastCallPartner && now < c.lastCallEndTime + GRACE_MS
  {
    sender == c.lastCallPartner && now - c.lastCallEndTime < GRACE_MS
  }

  /** LIST: the user list becomes "All" followed by the users, the room
      list becomes the rooms. */
  function OnList(c: Client, data: Value): (h: Handled)
    ensures !h.crashed <==>
              && Index(data, "users").Some? && Index(data, "rooms").Some?
              && Items(Index(data, "users").value).Some? && Items(Index(data, "rooms").value).Some?
    ensures !h.crashed ==>
              && h.client.userList == [VStr(BROADCAST)] + Items(Index(data, "users").value).value
              && h.client.roomList == Items(Index(data, "rooms").value).value
    ensures h.client == c.(userList := h.client.userList, roomList := h.client.roomList)
  {
    match (Index(data, "users"), Index(data, "rooms"))
    case (Some(users), Some(rooms)) =>
      var c1 := c.(userList := [VStr(BROADCAST)]);
      (match Items(users)
       case None => Handled(c1, true)
       case Some(us) =>
         var c2 := c1.(userList := c1.userList + us, roomList := []);
         match Items(rooms)
         case None => Handled(c2, true)
         case Some(rs) => Handled(c2.(roomList := rs), false))
    case _ => Handled(c, true)
  }

  /** The chat line for an inbound MSG: private exactly when `is_private`
      is truthy (absent counts as false), and the user's own name shown
      as "Me". `None` when `from` or `text` is missing. */
  function MsgLine(username: string, data: Value): (line: Option<ChatLine>)
    ensures line.Some? <==> Index(data, "from").Some? && Index(data, "text").Some?
    ensures line.Some? ==>
              && (line.value.kind == PrivateLine <==> "is_private" in data.entries && Truthy(data.entries["is_private"]))
              && line.value.kind != FileLine
              && (data.entries["from"] == VStr(username) ==> line.value.sender == VStr("Me"))
              && (data.entries["from"] != VStr(username) ==> line.value.sender == data.entries["from"])
              && line.value.content == data.entries["text"]
  {
    match (Index(data, "from"), Index(data, "text"))
    case (Some(sender), Some(text)) =>
      var isPrivate := Get(data, "is_private", VBool(false)).value;
      var kind := if Truthy(isPrivate) then PrivateLine else TextLine;
      Some(ChatLine(kind, if sender == VStr(username) then VStr("Me") else sender, text))
    case _ => None
  }

  /** MSG: the line `MsgLine` describes is added to the chat. */
  function OnMsg(c: Client, data: Value): (h: Handled)
    ensures h.crashed <==> MsgLine(c.username, data).None?
    ensures !h.crashed ==> h.client == c.(chat := c.chat + [MsgLine(c.username, data).value])
    ensures h.crashed ==> h.client == c
  {
    match MsgLine(c.username, data)
    case None => Handled(c, true)
    case Some(line) => Handled(c.(chat := c.chat + [line]), false)
  }

  /** FILE: the content is saved under its name and announced in the chat.
      Content that is not a byte string makes the write to the file opened
      with "wb" raise. */
  function OnFile(c: Client, data: Value): (h: Handled)
    ensures !h.crashed <==> Index(data, "from").Some? && Index(data, "filename").Some? && Index(data, "content").Some?
                            && data.entries["content"].VBin?
    ensures !h.crashed ==>
              h.client == c.(saved := c.saved + [SavedFile(data.entries["filename"], data.entries["content"])],
                             chat := c.chat + [ChatLine(FileLine, data.entries["from"], data.entries["filename"])])
    ensures h.crashed ==> h.client == c
  {
    match (Index(data, "from"), Index(data, "filename"), Index(data, "content"))
    case (Some(sender), Some(filename), Some(content)) =>
      if !content.VBin? then Handled(c, true)
      else Handled(c.(saved := c.saved + [SavedFile(filename, content)],
                 chat := c.chat + [ChatLine(FileLine, sender, filename)]), false)
    case _ => Handled(c, true)
  }

  /** The first inbound media packet of a call: the window is queued for
      the Tk thread, the call counts as on at once, and the producers that
      answer it are started (video and audio for a video frame, audio only
      for an audio chunk). */
  function AcceptMedia(c: Client, sender: Value, media: Media): (d: Client)
    ensures d.inCall && d.pending == c.pending + [OpenWindow(sender)]
    ensures d.producers == c.producers + Streams(if media == Video then VideoCall else VoiceCall, sender)
    ensures d == c.(inCall := true, pending := d.pending, producers := d.producers)
  {
    c.(pending := c.pending + [OpenWindow(sender)],
       inCall := true,
       producers := c.producers + Streams(if media == Video then VideoCall else VoiceCall, sender))
  }

  /** VIDEO_FRAME and AUDIO_CHUNK. While idle, a packet from the last
      partner within the grace period is dropped; any other starts the
      call. Then the frame is queued for display, or the chunk played when
      an audio player is available. While in a call the sender is not
      looked at. */
  function OnMedia(c: Client, data: Value, media: Media, now: int, playerReady: bool): (h: Handled)
    ensures h.client.outbox == c.outbox && h.client.callWindow == c.callWindow
    ensures h.client.callPartner == c.callPartner && h.client.chat == c.chat
    ensures h.client.lastCallPartner == c.lastCallPartner && h.client.lastCallEndTime == c.lastCallEndTime
    ensures c.inCall ==> h.client.producers == c.producers && h.client.inCall
    ensures !c.inCall && data.VMap? && Glare(c, Get(data, "sender", VNil).value, now) ==> h == Handled(c, false)
    ensures !c.inCall && data.VMap? && !Glare(c, Get(data, "sender", VNil).value, now) ==>
              h.client.inCall && h.client.producers == AcceptMedia(c, Get(data, "sender", VNil).value, media).producers
    ensures c.inCall ==> h == DeliverMedia(c, data, media, playerReady)
    ensures !c.inCall && data.VMap? && !Glare(c, Get(data, "sender", VNil).value, now) ==>
              h == DeliverMedia(AcceptMedia(c, Get(data, "sender", VNil).value, media), data, media, playerReady)
    ensures !c.inCall && !data.VMap? ==> h == Handled(c, true)
  {
    if c.inCall then DeliverMedia(c, data, media, playerReady)
    else
      match Get(data, "sender", VNil)
      case None => Handled(c, true)
      case Some(sender) =>
        if Glare(c, sender, now) then Handled(c, false)
        else DeliverMedia(AcceptMedia(c, sender, media), data, media, playerReady)
  }

  /** The rest of a media packet: a frame is queued for display, a chunk
      is played when an audio player is available. */
  function DeliverMedia(c: Client, data: Value, media: Media, playerReady: bool): (h: Handled)
    ensures h.client == c.(pending := h.client.pending, played := h.client.played)
    ensures media == Video ==> h.client.played == c.played
    ensures media == Audio ==> h.client.pending == c.pending
    ensures forall d :: d in h.client.pending ==> d in c.pending || d.ShowFrame?
    ensures h.crashed <==> (media == Video && Index(data, "frame").None?)
                           || (media == Audio && playerReady && Index(data, "chunk").None?)
    ensures media == Video && Index(data, "frame").Some? ==>
              h == Handled(c.(pending := c.pending + [ShowFrame(Index(data, "frame").value)]), false)
    ensures media == Audio && playerReady && Index(data, "chunk").Some? ==>
              h == Handled(c.(played := c.played + [Index(data, "chunk").value]), false)
    ensures media == Audio && !playerReady ==> h == Handled(c, false)
  {
    match media
    case Video =>
      (match Index(data, "frame")
       case None => Handled(c, true)
       case Some(frame) => Handled(c.(pending := c.pending + [ShowFrame(frame)]), false))
    case Audio =>
      if !playerReady then Handled(c, false)
      else
        match Index(data, "chunk")
        case None => Handled(c, true)
        case Some(chunk) => Handled(c.(played := c.played + [chunk]), false)
  }

  /** The body of the `listen_server` loop for one truthy packet. */
  function Dispatch(c: Client, packet: Value, now: int, playerReady: bool): (h: Handled)
    ensures h.client.outbox == c.outbox && h.client.callWindow == c.callWindow
    ensures h.client.lastCallPartner == c.lastCallPartner && h.client.lastCallEndTime == c.lastCallEndTime
    ensures h.client.isConnected == c.isConnected && h.client.listening == c.listening
    ensures h.client.targetUser == c.targetUser && h.client.username == c.username
    ensures h.client.callPartner == c.callPartner && c.chat <= h.client.chat
    ensures c.inCall ==> h.client.inCall && h.client.producers == c.producers
  {
    match (Index(packet, "type"), Index(packet, "data"))
    case (Some(cmd), Some(data)) =>
      if cmd == VStr(CMD_LIST_UPDATE) then OnList(c, data)
      else if cmd == VStr(CMD_MSG) then OnMsg(c, data)
      else if cmd == VStr(CMD_FILE) then OnFile(c, data)
      else if cmd == VStr(CMD_VIDEO) then OnMedia(c, data, Video, now, playerReady)
      else if cmd == VStr(CMD_AUDIO) then OnMedia(c, data, Audio, now, playerReady)
      else if cmd == VStr(CMD_END_CALL) then
        Handled(c.(pending := c.pending + [EndCallLater, NotifyCallEnded]), false)
      else Handled(c, false)
    case _ => Handled(c, true)
  }

  /** One iteration of `listen_server` given what `receive_packet`
      returned: a missing or falsy packet disconnects, a handler that
      raises ends the listener with the connection still marked open. */
  function ReceiveNext(c: Client, r: Option<Value>, now: int, playerReady: bool): (d: Client)
    ensures !(c.isConnected && c.listening) ==> d == c
    ensures c.isConnected && c.listening && (r.None? || !Truthy(r.value)) ==>
              d == c.(isConnected := false, listening := false)
    ensures d.isConnected && d.listening ==> r.Some? && Truthy(r.value)
    ensures c.isConnected && c.listening && r.Some? && Truthy(r.value) ==>
              d.isConnected && (d.listening <==> !Dispatch(c, r.value, now, playerReady).crashed)
  {
    if !(c.isConnected && c.listening) then c
    else if r.None? || !Truthy(r.value) then c.(isConnected := false, listening := false)
    else
      var h := Dispatch(c, r.value, now, playerReady);
      if h.crashed then h.client.(listening := false) else h.client
  }

  /** The Tk main loop runs the oldest queued `root.after` callback. */
  function RunDeferredNext(c: Client, now: int): (d: Client)
    ensures c.pending == [] ==> d == c
    ensures c.pending != [] ==> d.pending == c.pending[1..]
    ensures c.pending != [] && c.pending[0].OpenWindow? ==> d == SetupCallWindowNext(c.(pending := c.pending[1..]), c.pending[0].target)
    ensures c.pending != [] && c.pending[0] == EndCallLater ==> !d.inCall && !d.callWindow && d.callPartner == VNil
    ensures d.isConnected == c.isConnected && d.listening == c.listening && d.chat == c.chat
    ensures c.outbox <= d.outbox
  {
    if c.pending == [] then c
    else
      var c1 := c.(pending := c.pending[1..]);
      match c.pending[0]
      case OpenWindow(target) => SetupCallWindowNext(c1, target)
      case EndCallLater => EndCallNext(c1, now)
      case NotifyCallEnded => c1
      case ShowFrame(_) => c1
  }

  /** Runs every queued callback, oldest first; callbacks neither take
      back a sent packet nor touch the connection or the chat. */
  function Drain(c: Client, now: int): (d: Client)
    ensures d.pending == []
    ensures d.isConnected == c.isConnected && d.listening == c.listening && d.chat == c.chat
    ensures c.outbox <= d.outbox
    decreases |c.pending|
  {
    if c.pending == [] then c else Drain(RunDeferredNext(c, now), now)
  }

  // ---------------------------------------------------------------------
  // Traces

  /** Everything that changes a `ClientApp`: the listener receiving a
      packet, the Tk loop running a callback, and the user's clicks. */
  datatype Event =
    | Incoming(packet: Option<Value>, now: int, playerReady: bool)
    | TkCallback(now: int)
    | CallClicked(mode: Mode)
    | HangUpClicked(now: int)
    | UserClicked(selection: Option<nat>)
    | FileChosen(name: string, content: Bytes)

  function Step(c: Client, e: Event): Client {
    match e
    case Incoming(r, now, playerReady) => ReceiveNext(c, r, now, playerReady)
    case TkCallback(now) => RunDeferredNext(c, now)
    case CallClicked(mode) => StartCallNext(c, mode)
    case HangUpClicked(now) => EndCallNext(c, now)
    case UserClicked(selection) =>
      // Tk only reports rows that exist
      if selection.Some? && selection.value >= |c.userList| then c
      else SelectUserNext(c, selection)
    case FileChosen(name, content) => SendFileNext(c, name, content)
  }

  function Run(c: Client, events: seq<Event>): Client
    decreases |events|
  {
    if events == [] then c else Run(Step(c, events[0]), events[1..])
  }

  /** The listener on an open socket whose pending bytes are `stream`
      (the end of `stream` is the server closing the connection); the
      `k`-th packet is handled at time `clock(k)`. */
  function Listen(c: Client, codec: Codec, cipher: Cipher, stream: Bytes, clock: nat -> int, k: nat,
                  playerReady: bool): (d: Client)
    ensures !(d.isConnected && d.listening)
    decreases |stream|
  {
    if !(c.isConnected && c.listening) then c
    else
      var rx := ReceiveSpec(codec, cipher, stream, true);
      var c1 := ReceiveNext(c, rx.packet, clock(k), playerReady);
      if c1.isConnected && c1.listening then
        Listen(c1, codec, cipher, stream[rx.consumed..], clock, k + 1, playerReady)
      else c1
  }

  /** One turn of the listener: a packet that neither disconnects nor
      raises goes to `Dispatch`. */
  lemma ReceiveNextDispatch(c: Client, r: Option<Value>, now: int, playerReady: bool)
    requires c.isConnected && c.listening && r.Some? && Truthy(r.value)
    ensures var h := Dispatch(c, r.value, now, playerReady);
            ReceiveNext(c, r, now, playerReady) == if h.crashed then h.client.(listening := false) else h.client
  {
  }

  /** `Listen` unfolded once on a live listener. */
  lemma ListenUnfold(c: Client, codec: Codec, cipher: Cipher, stream: Bytes, clock: nat -> int, k: nat,
                     playerReady: bool)
    requires c.isConnected && c.listening
    ensures var rx := ReceiveSpec(codec, cipher, stream, true);
            var c1 := ReceiveNext(c, rx.packet, clock(k), playerReady);
            Listen(c, codec, cipher, stream, clock, k, playerReady)
            == if c1.isConnected && c1.listening
               then Listen(c1, codec, cipher, stream[rx.consumed..], clock, k + 1, playerReady)
               else c1
  {
  }

  // ---------------------------------------------------------------------
  // Invariants

  /** No window without a call, and no partner while idle. */
  predicate CallConsistent(c: Client) {
    && (c.callWindow ==> c.inCall)
    && (!c.inCall ==> c.callPartner == VNil)
  }

  /** An open call window is always with someone an audio producer was
      started for, and so is every window still queued for opening. */
  predicate Streamed(c: Client) {
    && (c.callWindow ==> Producer(Audio, c.callPartner) in c.producers)
    && forall d :: d in c.pending && d.OpenWindow? ==> Producer(Audio, d.target) in c.producers
  }

  /** The private target is never the user's own name (unless that name
      is "All"). */
  predicate NotSelf(c: Client) {
    c.targetUser == VStr(BROADCAST) || c.targetUser != VStr(c.username)
  }

  predicate Inv(c: Client) {
    CallConsistent(c) && Streamed(c) && NotSelf(c) && (c.listening ==> c.isConnected)
  }

  lemma InitialInv(username: string)
    ensures Inv(Initial(username))
  {
  }

  lemma MediaInv(c: Client, data: Value, media: Media, now: int, playerReady: bool)
    requires Inv(c)
    ensures Inv(OnMedia(c, data, media, now, playerReady).client)
  {
    var h := OnMedia(c, data, media, now, playerReady);
    if !c.inCall && data.VMap? {
      var sender := Get(data, "sender", VNil).value;
      if !Glare(c, sender, now) {
        var a := AcceptMedia(c, sender, media);
        assert Producer(Audio, sender) in a.producers;
        assert forall d :: d in a.pending && d.OpenWindow? ==> d in c.pending || d == OpenWindow(sender);
        assert Streamed(a);
      }
    }
  }

  lemma DispatchInv(c: Client, packet: Value, now: int, playerReady: bool)
    requires Inv(c)
    ensures Inv(Dispatch(c, packet, now, playerReady).client)
  {
    if packet.VMap? && "type" in packet.entries && "data" in packet.entries {
      var cmd := packet.entries["type"];
      var data := packet.entries["data"];
      if cmd == VStr(CMD_VIDEO) {
        MediaInv(c, data, Video, now, playerReady);
      } else if cmd == VStr(CMD_AUDIO) {
        MediaInv(c, data, Audio, now, playerReady);
      } else if cmd == VStr(CMD_END_CALL) {
        var d := Dispatch(c, packet, now, playerReady).client;
        assert forall x :: x in d.pending ==> x in c.pending || x == EndCallLater || x == NotifyCallEnded;
      }
    }
  }

  lemma StepInv(c: Client, e: Event)
    requires Inv(c)
    ensures Inv(Step(c, e))
  {
    match e
    case Incoming(r, now, playerReady) =>
      if c.isConnected && c.listening && r.Some? && Truthy(r.value) {
        DispatchInv(c, r.value, now, playerReady);
      }
    case TkCallback(now) =>
      if c.pending != [] {
        assert c.pending[0] in c.pending;
      }
    case CallClicked(mode) =>
    case HangUpClicked(now) =>
    case UserClicked(selection) =>
    case FileChosen(name, content) =>
  }

  /** Every reachable state keeps the invariants. */
  lemma {:induction false} RunInv(c: Client, events: seq<Event>)
    requires Inv(c)
    ensures Inv(Run(c, events))
    decreases |events|
  {
    if events != [] {
      StepInv(c, events[0]);
      RunInv(Step(c, events[0]), events[1..]);
    }
  }

  /** The listener keeps the invariants, whatever the server sends. */
  lemma {:induction false} ListenInv(c: Client, codec: Codec, cipher: Cipher, stream: Bytes, clock: nat -> int,
                                     k: nat, playerReady: bool)
    requires Inv(c)
    ensures Inv(Listen(c, codec, cipher, stream, clock, k, playerReady))
    decreases |stream|
  {
    if c.isConnected && c.listening {
      var rx := ReceiveSpec(codec, cipher, stream, true);
      var c1 := ReceiveNext(c, rx.packet, clock(k), playerReady);
      StepInv(c, Incoming(rx.packet, clock(k), playerReady));
      assert c1 == Step(c, Incoming(rx.packet, clock(k), playerReady));
      if c1.isConnected && c1.listening {
        ListenInv(c1, codec, cipher, stream[rx.consumed..], clock, k + 1, playerReady);
      }
    }
  }

  /** No single event takes back a sent packet or a chat line. */
  lemma StepLogsGrow(c: Client, e: Event)
    ensures c.outbox <= Step(c, e).outbox && c.chat <= Step(c, e).chat
  {
    match e
    case Incoming(r, now, playerReady) =>
      if c.isConnected && c.listening && r.Some? && Truthy(r.value) {
        ReceiveNextDispatch(c, r, now, playerReady);
      }
    case TkCallback(now) =>
      if c.pending != [] {
        var c1 := c.(pending := c.pending[1..]);
        match c.pending[0]
        case OpenWindow(target) => assert Step(c, e) == SetupCallWindowNext(c1, target);
        case EndCallLater => assert Step(c, e) == EndCallNext(c1, now);
        case NotifyCallEnded =>
        case ShowFrame(_) =>
      }
    case CallClicked(mode) =>
    case HangUpClicked(now) =>
    case UserClicked(selection) =>
    case FileChosen(name, content) =>
  }

  /** The outbox and the chat only ever grow: nothing sent or shown is
      taken back. */
  lemma {:induction false} RunLogsGrow(c: Client, events: seq<Event>)
    ensures c.outbox <= Run(c, events).outbox
    ensures c.chat <= Run(c, events).chat
    decreases |events|
  {
    if events != [] {
      StepLogsGrow(c, events[0]);
      RunLogsGrow(Step(c, events[0]), events[1..]);
    }
  }

  // ---------------------------------------------------------------------
  // Call scenarios

  /** Hanging up twice is hanging up once: the second `end_call` finds no
      partner, so it sends nothing and keeps the glare record. */
  lemma EndCallIdempotent(c: Client, t1: int, t2: int)
    ensures EndCallNext(EndCallNext(c, t1), t2) == EndCallNext(c, t1)
  {
  }

  /** The command that carries `media`. */
  function MediaCmd(media: Media): string {
    if media == Video then CMD_VIDEO else CMD_AUDIO
  }

  /** Glare suppression. After hanging up on a partner at time `t`, media
      from that partner at `t + dt` is dropped without any effect exactly
      when `dt` is under the grace period; from then on it rings again:
      the call is on, its window queued and an audio producer started. */
  lemma GraceAfterHangUp(c: Client, t: int, dt: int, media: Media, data: Value, now: int, playerReady: bool)
    requires Truthy(c.callPartner)
    requires data.VMap? && "sender" in data.entries && data.entries["sender"] == c.callPartner
    requires now == t + dt
    ensures var d := EndCallNext(c, t);
            var h := Dispatch(d, Payload(VStr(MediaCmd(media)), data), now, playerReady);
            && (dt < GRACE_MS <==> h == Handled(d, false))
            && (dt >= GRACE_MS ==>
                  && h.client.inCall && OpenWindow(c.callPartner) in h.client.pending
                  && Producer(Audio, c.callPartner) in h.client.producers)
  {
    var d := EndCallNext(c, t);
    var packet := Payload(VStr(MediaCmd(media)), data);
    assert Index(packet, "type") == Some(VStr(MediaCmd(media)));
    assert Index(packet, "data") == Some(data);
    assert Get(data, "sender", VNil).value == c.callPartner;
    var h := OnMedia(d, data, media, now, playerReady);
    if dt >= GRACE_MS {
      var a := AcceptMedia(d, c.callPartner, media);
      assert OpenWindow(c.callPartner) in a.pending;
      assert h.client.pending == DeliverMedia(a, data, media, playerReady).client.pending;
      assert a.pending <= h.client.pending;
    }
  }

  /** Media from anyone but the last partner rings at once, however soon
      after the last call it comes. */
  lemma OtherCallerRings(c: Client, media: Media, data: Value, now: int, playerReady: bool)
    requires !c.inCall
    requires data.VMap? && "sender" in data.entries && data.entries["sender"] != c.lastCallPartner
    ensures var h := Dispatch(c, Payload(VStr(MediaCmd(media)), data), now, playerReady);
            && h.client.inCall
            && OpenWindow(data.entries["sender"]) in h.client.pending
            && Producer(Audio, data.entries["sender"]) in h.client.producers
  {
    var packet := Payload(VStr(MediaCmd(media)), data);
    assert Index(packet, "type") == Some(VStr(MediaCmd(media)));
    assert Index(packet, "data") == Some(data);
    var sender := data.entries["sender"];
    assert Get(data, "sender", VNil).value == sender;
    var a := AcceptMedia(c, sender, media);
    assert OpenWindow(sender) in a.pending;
    assert a.pending <= OnMedia(c, data, media, now, playerReady).client.pending;
  }

  /** Callbacks that open no window leave an idle client idle. */
  lemma {:induction false} DrainKeepsIdle(c: Client, now: int)
    requires !c.inCall && !c.callWindow && c.callPartner == VNil
    requires forall x :: x in c.pending ==> !x.OpenWindow?
    ensures var d := Drain(c, now); !d.inCall && !d.callWindow && d.callPartner == VNil
    decreases |c.pending|
  {
    if c.pending != [] {
      var c1 := RunDeferredNext(c, now);
      assert c.pending[0] in c.pending;
      assert forall x :: x in c1.pending ==> x in c.pending;
      DrainKeepsIdle(c1, now);
    }
  }

  /** Whatever is queued before an `end_call`, draining the queue ends
      idle, as long as no window is queued after it. */
  lemma {:induction false} DrainEndsIdle(c: Client, now: int, before: seq<Deferred>, after: seq<Deferred>)
    requires c.pending == before + [EndCallLater] + after
    requires forall x :: x in after ==> !x.OpenWindow?
    ensures var d := Drain(c, now); !d.inCall && !d.callWindow && d.callPartner == VNil
    decreases |before|
  {
    var c1 := RunDeferredNext(c, now);
    if before == [] {
      assert c.pending[0] == EndCallLater && c1.pending == after;
      DrainKeepsIdle(c1, now);
    } else {
      assert c1.pending == before[1..] + [EndCallLater] + after;
      DrainEndsIdle(c1, now, before[1..], after);
    }
  }

  /** The partner hangs up: once the Tk loop has run the queued callbacks
      the call is over, whatever was queued before, and the listener goes
      on. With nothing queued before, `end_call` has sent END_CALL back to
      a truthy partner and nothing else. */
  lemma RemoteHangUp(c: Client, data: Value, now: int, later: int, playerReady: bool)
    requires c.isConnected && c.listening
    ensures var d := Drain(ReceiveNext(c, Some(Payload(VStr(CMD_END_CALL), data)), now, playerReady), later);
            && !d.inCall && !d.callWindow && d.callPartner == VNil && d.listening
            && (c.pending == [] ==>
                  d.outbox == c.outbox + (if Truthy(c.callPartner) then [EndCallSignal(c.callPartner)] else []))
  {
    var packet := Payload(VStr(CMD_END_CALL), data);
    var c1 := ReceiveNext(c, Some(packet), now, playerReady);
    assert c1 == c.(pending := c.pending + [EndCallLater, NotifyCallEnded]);
    assert c1.pending == c.pending + [EndCallLater] + [NotifyCallEnded];
    DrainEndsIdle(c1, later, c.pending, [NotifyCallEnded]);
    if c.pending == [] {
      var c2 := RunDeferredNext(c1, later);
      assert c2 == EndCallNext(c.(pending := [NotifyCallEnded]), later);
      var c3 := RunDeferredNext(c2, later);
      assert c3 == c2.(pending := []);
      assert Drain(c1, later) == Drain(c2, later) == Drain(c3, later) == c3;
    }
  }
}
