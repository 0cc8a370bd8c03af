/** The window that `listen_server` queues for an incoming call, as the
    source has it. The callback is a lambda over the listener's local
    `sender`. Python closures read such a variable when they run, not when
    they are created. So the Tk loop opens the window with whoever `sender`
    names at that moment, and a MSG, FILE or media packet handled in
    between rebinds it. `Session` queues the target itself
    (`OpenWindow(target)`), which is what the code evidently intends.
    This module models the as-written behaviour and exhibits an input
    where it breaks `Session.Streamed`. */
module LateBinding {
  import opened Values
  import opened Protocol
  import opened Session

  /** The listener's local `sender` after it handled `packet` in state
      `c`, when it held `sender` before. MSG and FILE assign `data["from"]`
      (MSG then replaces the user's own name by "Me"); an idle media packet
      assigns `data.get("sender")`. Every other packet leaves it alone. */
  function SenderAfter(c: Client, packet: Value, sender: Value): (s: Value)
    ensures Index(packet, "type").None? || Index(packet, "data").None? ==> s == sender
    ensures Index(packet, "type") == Some(VStr(CMD_MSG)) && Index(packet, "data").Some? ==>
              var data := packet.entries["data"];
              && (Index(data, "from").None? ==> s == sender)
              && (Index(data, "from").Some? && Index(data, "text").Some? && data.entries["from"] == VStr(c.username) ==>
                    s == VStr("Me"))
              && (Index(data, "from").Some? && (Index(data, "text").None? || data.entries["from"] != VStr(c.username)) ==>
                    s == data.entries["from"])
    ensures Index(packet, "type") == Some(VStr(CMD_FILE)) && Index(packet, "data").Some? ==>
              var data := packet.entries["data"];
              && (Index(data, "from").None? ==> s == sender)
              && (Index(data, "from").Some? ==> s == data.entries["from"])
    ensures (Index(packet, "type") == Some(VStr(CMD_VIDEO)) || Index(packet, "type") == Some(VStr(CMD_AUDIO)))
            && !c.inCall && Index(packet, "data").Some? ==>
              var data := packet.entries["data"];
              && (!data.VMap? ==> s == sender)
              && (data.VMap? && "sender" in data.entries ==> s == data.entries["sender"])
              && (data.VMap? && "sender" !in data.entries ==> s == VNil)
    ensures c.inCall && Index(packet, "type") != Some(VStr(CMD_MSG)) && Index(packet, "type") != Some(VStr(CMD_FILE))
            ==> s == sender
  {
    match (Index(packet, "type"), Index(packet, "data"))
    case (Some(cmd), Some(data)) =>
      if cmd == VStr(CMD_MSG) then
        match Index(data, "from")
        case None => sender
        case Some(from) =>
          if Index(data, "text").Some? && from == VStr(c.username) then VStr("Me") else from
      else if cmd == VStr(CMD_FILE) then
        match Index(data, "from")
        case None => sender
        case Some(from) => from
      else if (cmd == VStr(CMD_VIDEO) || cmd == VStr(CMD_AUDIO)) && !c.inCall then
        match Get(data, "sender", VNil)
        case None => sender
        case Some(from) => from
      else sender
    case _ => sender
  }

  /** The Tk loop runs the oldest callback as the source does: a queued
      window opens with the listener's current `sender`, whatever target
      was meant when it was queued. */
  function RunDeferredAsWritten(c: Client, sender: Value, now: int): (d: Client)
    ensures c.pending != [] && c.pending[0].OpenWindow? && !c.callWindow ==>
              d.callWindow && d.callPartner == sender
    ensures !(c.pending != [] && c.pending[0].OpenWindow?) ==> d == RunDeferredNext(c, now)
  {
    if c.pending != [] && c.pending[0].OpenWindow? then
      SetupCallWindowNext(c.(pending := c.pending[1..]), sender)
    else RunDeferredNext(c, now)
  }

  /** As long as nothing rebinds `sender` before the callback runs, the
      source opens the intended window. */
  lemma AsWrittenAgreesWhenNotRebound(c: Client, now: int)
    requires c.pending != [] && c.pending[0].OpenWindow?
    ensures RunDeferredAsWritten(c, c.pending[0].target, now) == RunDeferredNext(c, now)
  {
  }

  /** The video frame bob sends to start a call. */
  function BobFrame(): Value {
    Payload(VStr(CMD_VIDEO), VMap(map["sender" := VStr("bob"), "frame" := VBin([1])]))
  }

  /** A chat message from carol. */
  function CarolMsg(): Value {
    Payload(VStr(CMD_MSG), VMap(map["from" := VStr("carol"), "text" := VStr("hi")]))
  }

  /** Alice, idle, rings on bob's frame: call on, producers for bob,
      his window and the frame queued; the listener's `sender` is bob. */
  lemma BobRings()
    ensures var bob := VStr("bob");
            && ReceiveNext(Initial("alice"), Some(BobFrame()), 10000, true)
               == Initial("alice").(inCall := true, pending := [OpenWindow(bob), ShowFrame(VBin([1]))],
                                    producers := [Producer(Video, bob), Producer(Audio, bob)])
            && SenderAfter(Initial("alice"), BobFrame(), VNil) == bob
  {
    var c0 := Initial("alice");
    var d1 := VMap(map["sender" := VStr("bob"), "frame" := VBin([1])]);
    assert Index(BobFrame(), "type") == Some(VStr(CMD_VIDEO)) && Index(BobFrame(), "data") == Some(d1);
    assert VStr(CMD_VIDEO) != VStr(CMD_LIST_UPDATE) by { assert CMD_VIDEO[0] != CMD_LIST_UPDATE[0]; }
    assert VStr(CMD_VIDEO) != VStr(CMD_MSG) by { assert CMD_VIDEO[0] != CMD_MSG[0]; }
    assert VStr(CMD_VIDEO) != VStr(CMD_FILE) by { assert CMD_VIDEO[0] != CMD_FILE[0]; }
    var bob := VStr("bob");
    assert Get(d1, "sender", VNil) == Some(bob);
    assert !Glare(c0, bob, 10000);
    assert Dispatch(c0, BobFrame(), 10000, true).client == OnMedia(c0, d1, Video, 10000, true).client;
  }

  /** Carol's message is shown and leaves the call alone; the listener's
      `sender` is now carol. */
  lemma CarolWrites(c: Client, sender: Value)
    requires c.username == "alice" && c.isConnected && c.listening
    ensures && ReceiveNext(c, Some(CarolMsg()), 10001, true)
               == c.(chat := c.chat + [ChatLine(TextLine, VStr("carol"), VStr("hi"))])
            && SenderAfter(c, CarolMsg(), sender) == VStr("carol")
  {
    var d2 := VMap(map["from" := VStr("carol"), "text" := VStr("hi")]);
    assert Index(CarolMsg(), "type") == Some(VStr(CMD_MSG)) && Index(CarolMsg(), "data") == Some(d2);
    assert VStr(CMD_MSG) != VStr(CMD_LIST_UPDATE) by { assert CMD_MSG[0] != CMD_LIST_UPDATE[0]; }
    assert VStr("carol") != VStr("alice") by { assert "carol"[0] != "alice"[0]; }
    assert MsgLine("alice", d2) == Some(ChatLine(TextLine, VStr("carol"), VStr("hi")));
  }

  /** Alice, idle, gets a video frame from bob at 10000 ms: the call is on,
      producers for bob start and his window is queued. Before the Tk loop
      gets to it, a chat message from carol arrives. As written, the
      window then opens with carol, nobody streams to her, and `Streamed`
      fails; with the target captured, it opens with bob and `Inv`
      holds. */
  lemma LateBoundPartner()
    ensures var c1 := ReceiveNext(Initial("alice"), Some(BobFrame()), 10000, true);
            var s1 := SenderAfter(Initial("alice"), BobFrame(), VNil);
            var c2 := ReceiveNext(c1, Some(CarolMsg()), 10001, true);
            var s2 := SenderAfter(c1, CarolMsg(), s1);
            var asWritten := RunDeferredAsWritten(c2, s2, 10002);
            var corrected := RunDeferredNext(c2, 10002);
            && Inv(c2)
            && asWritten.callPartner == VStr("carol") && !Streamed(asWritten)
            && corrected.callPartner == VStr("bob") && Inv(corrected)
  {
    var bob := VStr("bob");
    BobRings();
    var c1 := ReceiveNext(Initial("alice"), Some(BobFrame()), 10000, true);
    var s1 := SenderAfter(Initial("alice"), BobFrame(), VNil);
    CarolWrites(c1, s1);
    var c2 := ReceiveNext(c1, Some(CarolMsg()), 10001, true);
    var s2 := SenderAfter(c1, CarolMsg(), s1);
    assert c2.pending == [OpenWindow(bob), ShowFrame(VBin([1]))];
    assert c2.producers == [Producer(Video, bob), Producer(Audio, bob)];
    assert Inv(c2) by {
      assert forall d :: d in c2.pending && d.OpenWindow? ==> d == OpenWindow(bob);
    }
    var asWritten := RunDeferredAsWritten(c2, s2, 10002);
    assert asWritten.producers == c2.producers;
    assert VStr("carol") != bob by { assert "carol"[0] != "bob"[0]; }
    assert Producer(Audio, VStr("carol")) !in asWritten.producers;
    StepInv(c2, TkCallback(10002));
  }
}
