/** `ClientApp`: the call state and packet dispatch of the chat client, as
    a class whose fields are updated in place the way the source does.
    Each handler method is proved to take `State()` where the matching
    function of module `Session` says. The entry points (the constructor,
    `EndCall`, `StartCall`, `SelectUser`, `SendFile`, `RunDeferred`,
    `HandlePacket`, `ListenOnce` and `ListenServer`) also keep
    `Session.Inv`; `ShowUsers` and `ShowRooms` fill the list boxes. */
module App {
  import opened Values
  import opened Protocol
  import opened Session

  class ClientApp {
    const username: string
    var isConnected: bool
    /** The `listen_server` thread is still in its loop. */
    var listening: bool
    var targetUser: Value
    var inCall: bool
    /** `call_window` is not None. */
    var callWindow: bool
    var callPartner: Value
    var lastCallPartner: Value
    var lastCallEndTime: int
    /** Contents of the user and room list boxes. */
    var userList: seq<Value>
    var roomList: seq<Value>
    var chat: seq<ChatLine>
    var outbox: seq<Outgoing>
    var producers: seq<Producer>
    /** Callbacks queued with `root.after`, oldest first. */
    var pending: seq<Deferred>
    var played: seq<Value>
    var saved: seq<SavedFile>

    function State(): Session.Client
      reads this
    {
      Session.Client(username, isConnected, listening, targetUser, inCall, callWindow, callPartner,
                     lastCallPartner, lastCallEndTime, userList, roomList, chat, outbox, producers,
                     pending, played, saved)
    }

    ghost predicate Valid()
      reads this
    {
      Inv(State())
    }

    /** The client once `connect_to_server` has logged in as `name` and
        started the listener. */
    constructor (name: string)
      ensures Valid()
      ensures State() == Initial(name)
    {
      username := name;
      isConnected := true;
      listening := true;
      targetUser := VStr(BROADCAST);
      inCall := false;
      callWindow := false;
      callPartner := VNil;
      lastCallPartner := VNil;
      lastCallEndTime := 0;
      userList := [];
      roomList := [];
      chat := [];
      outbox := [Outgoing(CMD_LOGIN, VMap(map["username" := VStr(name)]))];
      producers := [];
      pending := [];
      played := [];
      saved := [];
      InitialInv(name);
    }

    /** `end_call`, at time `now`. */
    method EndCall(now: int)
      requires Valid()
      modifies this
      ensures Valid()
      ensures State() == EndCallNext(old(State()), now)
    {
      StepInv(State(), HangUpClicked(now));
      if Truthy(callPartner) {
        outbox := outbox + [EndCallSignal(callPartner)];
        lastCallPartner := callPartner;
        lastCallEndTime := now;
      }
      inCall := false;
      if callWindow {
        callWindow := false;
      }
      callPartner := VNil;
    }

    /** `setup_call_window(target)`. Called directly only by `StartCall`
        and by the Tk loop; on its own it does not keep `Streamed`. */
    method SetupCallWindow(target: Value)
      modifies this
      ensures State() == SetupCallWindowNext(old(State()), target)
    {
      if callWindow {
        return;
      }
      inCall := true;
      callPartner := target;
      callWindow := true;
    }

    /** `start_call(mode)`. */
    method StartCall(mode: Mode)
      requires Valid()
      modifies this
      ensures Valid()
      ensures State() == StartCallNext(old(State()), mode)
    {
      StepInv(State(), CallClicked(mode));
      if targetUser == VStr(BROADCAST) {
        return;
      }
      SetupCallWindow(targetUser);
      if mode == VideoCall {
        producers := producers + [Producer(Video, targetUser)];
      }
      producers := producers + [Producer(Audio, targetUser)];
    }

    /** `select_user`, with the selected row of the user list if any. */
    method SelectUser(selection: Option<nat>)
      requires Valid()
      requires selection.Some? ==> selection.value < |userList|
      modifies this
      ensures Valid()
      ensures State() == SelectUserNext(old(State()), selection)
    {
      StepInv(State(), UserClicked(selection));
      if selection.Some? {
        var user := userList[selection.value];
        if user == VStr(username) {
          return;
        }
        targetUser := user;
      } else {
        targetUser := VStr(BROADCAST);
      }
    }

    /** `send_file` after the user picked the file `name` with `content`. */
    method SendFile(name: string, content: Bytes)
      requires Valid()
      modifies this
      ensures Valid()
      ensures State() == SendFileNext(old(State()), name, content)
    {
      StepInv(State(), FileChosen(name, content));
      var to := if targetUser != VStr(BROADCAST) then targetUser else VNil;
      var data := VMap(map["filename" := VStr(name), "size" := VInt(|content|),
                           "content" := VBin(content), "to" := to]);
      outbox := outbox + [Outgoing(CMD_FILE, data)];
      chat := chat + [ChatLine(TextLine, VStr("Me"), VStr("Sent file: " + name))];
    }

    /** The Tk main loop runs the oldest callback queued with `root.after`. */
    method RunDeferred(now: int)
      requires Valid()
      modifies this
      ensures Valid()
      ensures State() == RunDeferredNext(old(State()), now)
    {
      StepInv(State(), TkCallback(now));
      if pending == [] {
        return;
      }
      var next := pending[0];
      pending := pending[1..];
      match next
      case OpenWindow(target) => SetupCallWindow(target);
      case EndCallLater => EndCall(now);
      case NotifyCallEnded =>
      case ShowFrame(_) =>
    }

    /** Fills the user list box: "All", then every user. */
    method ShowUsers(users: seq<Value>)
      modifies this`userList
      ensures userList == [VStr(BROADCAST)] + users
    {
      userList := [VStr(BROADCAST)];
      var i := 0;
      while i < |users|
        invariant 0 <= i <= |users|
        invariant userList == [VStr(BROADCAST)] + users[..i]
      {
        userList := userList + [users[i]];
        i := i + 1;
      }
      assert users[..i] == users;
    }

    /** Fills the room list box with every room. */
    method ShowRooms(rooms: seq<Value>)
      modifies this`roomList
      ensures roomList == rooms
    {
      roomList := [];
      var i := 0;
      while i < |rooms|
        invariant 0 <= i <= |rooms|
        invariant roomList == rooms[..i]
      {
        roomList := roomList + [rooms[i]];
        i := i + 1;
      }
      assert rooms[..i] == rooms;
    }

    /** The branches of `listen_server` for VIDEO_FRAME and AUDIO_CHUNK. */
    method OnMediaPacket(data: Value, media: Media, now: int, playerReady: bool) returns (crashed: bool)
      modifies this
      ensures var h := OnMedia(old(State()), data, media, now, playerReady);
              State() == h.client && crashed == h.crashed
    {
      if !inCall {
        var sender := Get(data, "sender", VNil);
        if sender.None? {
          return true;
        }
        if sender.value == lastCallPartner && now - lastCallEndTime < GRACE_MS {
          return false;
        }
        pending := pending + [OpenWindow(sender.value)];
        inCall := true;
        if media == Video {
          producers := producers + [Producer(Video, sender.value)];
        }
        producers := producers + [Producer(Audio, sender.value)];
        assert State() == AcceptMedia(old(State()), sender.value, media);
      }
      crashed := DeliverMediaPacket(data, media, playerReady);
    }

    /** The rest of a media packet: queue the frame for display, or play
        the chunk when an audio player is available. */
    method DeliverMediaPacket(data: Value, media: Media, playerReady: bool) returns (crashed: bool)
      modifies this
      ensures var h := DeliverMedia(old(State()), data, media, playerReady);
              State() == h.client && crashed == h.crashed
    {
      if media == Video {
        var frame := Index(data, "frame");
        if frame.None? {
          return true;
        }
        pending := pending + [ShowFrame(frame.value)];
      } else if playerReady {
        var chunk := Index(data, "chunk");
        if chunk.None? {
          return true;
        }
        played := played + [chunk.value];
      }
      return false;
    }

    /** The LIST branch of `listen_server`. */
    method OnListPacket(data: Value) returns (crashed: bool)
      modifies this
      ensures var h := OnList(old(State()), data); State() == h.client && crashed == h.crashed
    {
      var users := Index(data, "users");
      var rooms := Index(data, "rooms");
      if users.None? || rooms.None? {
        return true;
      }
      var us := Items(users.value);
      if us.None? {
        userList := [VStr(BROADCAST)];
        return true;
      }
      ShowUsers(us.value);
      var rs := Items(rooms.value);
      if rs.None? {
        roomList := [];
        return true;
      }
      ShowRooms(rs.value);
      return false;
    }

    /** The MSG branch of `listen_server`. */
    method OnMsgPacket(data: Value) returns (crashed: bool)
      modifies this
      ensures var h := OnMsg(old(State()), data); State() == h.client && crashed == h.crashed
    {
      var sender := Index(data, "from");
      var text := Index(data, "text");
      if sender.None? || text.None? {
        return true;
      }
      var isPrivate := Get(data, "is_private", VBool(false)).value;
      var kind := if Truthy(isPrivate) then PrivateLine else TextLine;
      var shown := sender.value;
      if shown == VStr(username) {
        shown := VStr("Me");
      }
      chat := chat + [ChatLine(kind, shown, text.value)];
      return false;
    }

    /** The FILE branch of `listen_server`. */
    method OnFilePacket(data: Value) returns (crashed: bool)
      modifies this
      ensures var h := OnFile(old(State()), data); State() == h.client && crashed == h.crashed
    {
      var sender := Index(data, "from");
      var filename := Index(data, "filename");
      var content := Index(data, "content");
      if sender.None? || filename.None? || content.None? {
        return true;
      }
      if !content.value.VBin? {
        return true;
      }
      saved := saved + [SavedFile(filename.value, content.value)];
      chat := chat + [ChatLine(FileLine, sender.value, filename.value)];
      return false;
    }

    /** The body of the `listen_server` loop for one truthy packet;
        `crashed` when it raises out of the loop. */
    method HandlePacket(packet: Value, now: int, playerReady: bool) returns (crashed: bool)
      requires Valid()
      modifies this
      ensures Valid()
      ensures var h := Dispatch(old(State()), packet, now, playerReady);
              State() == h.client && crashed == h.crashed
    {
      DispatchInv(State(), packet, now, playerReady);
      var cmd := Index(packet, "type");
      var data := Index(packet, "data");
      if cmd.None? || data.None? {
        return true;
      }
      if cmd.value == VStr(CMD_LIST_UPDATE) {
        crashed := OnListPacket(data.value);
      } else if cmd.value == VStr(CMD_MSG) {
        crashed := OnMsgPacket(data.value);
      } else if cmd.value == VStr(CMD_FILE) {
        crashed := OnFilePacket(data.value);
      } else if cmd.value == VStr(CMD_VIDEO) {
        crashed := OnMediaPacket(data.value, Video, now, playerReady);
      } else if cmd.value == VStr(CMD_AUDIO) {
        crashed := OnMediaPacket(data.value, Audio, now, playerReady);
      } else if cmd.value == VStr(CMD_END_CALL) {
        pending := pending + [EndCallLater, NotifyCallEnded];
        crashed := false;
      } else {
        crashed := false;
      }
    }

    /** One pass of the `listen_server` loop at time `now`: receive a
        packet, then either notice the disconnect or dispatch it. */
    method ListenOnce(sock: Socket, codec: Codec, cipher: Cipher, now: int, playerReady: bool)
      requires Valid() && listening && isConnected
      requires sock.Valid() && !sock.closed
      modifies this, sock
      ensures Valid()
      ensures var rx := ReceiveSpec(codec, cipher, old(sock.Pending()), true);
              State() == ReceiveNext(old(State()), rx.packet, now, playerReady)
              && sock.Pending() == old(sock.Pending())[rx.consumed..]
              && (isConnected && listening ==> rx.consumed > 0)
      ensures sock.Valid() && !sock.closed && sock.sent == old(sock.sent)
    {
      var packet := ReceivePacket(sock, codec, cipher, true);
      if packet.None? || !Truthy(packet.value) {
        isConnected := false;
        listening := false;
        return;
      }
      ReceiveNextDispatch(State(), packet, now, playerReady);
      var crashed := HandlePacket(packet.value, now, playerReady);
      if crashed {
        listening := false;
      }
    }

    /** `listen_server` on an open socket: receive and dispatch until the
        server closes the connection (then the socket is closed) or a
        handler raises (then the thread just ends). The `k`-th packet is
        handled at time `clock(k)`. */
    method ListenServer(sock: Socket, codec: Codec, cipher: Cipher, clock: nat -> int, playerReady: bool)
      requires Valid() && listening
      requires sock.Valid() && !sock.closed
      modifies this, sock
      ensures Valid() && !listening
      ensures State() == Listen(old(State()), codec, cipher, old(sock.Pending()), clock, 0, playerReady)
      ensures sock.closed <==> !isConnected
      ensures sock.sent == old(sock.sent)
    {
      var k: nat := 0;
      while isConnected && listening
        invariant Valid()
        invariant sock.Valid() && !sock.closed && sock.sent == old(sock.sent)
        invariant Listen(old(State()), codec, cipher, old(sock.Pending()), clock, 0, playerReady)
                  == Listen(State(), codec, cipher, sock.Pending(), clock, k, playerReady)
        decreases if isConnected && listening then |sock.Pending()| + 1 else 0
      {
        ListenUnfold(State(), codec, cipher, sock.Pending(), clock, k, playerReady);
        ListenOnce(sock, codec, cipher, clock(k), playerReady);
        k := k + 1;
      }
      if !isConnected {
        sock.Close();
      }
    }
  }
}
