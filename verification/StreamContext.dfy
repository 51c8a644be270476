/** The stream's objects with the fields and loops of the program, each method proved to do what
    the state machine of `StreamModel` says. */
module StreamContext {
  import opened Base
  import opened StreamIds
  import opened StreamModel
  import opened StreamChain

  /** What a `Stream` and its `Context` share, and what picoquic and the history saw of them. */
  class Wire {
    var link: Link
    var appControl: bool
    var appRecv: bool
    var inbox: seq<Message>
    var quic: QuicSend
    var stopSendings: nat
    var removed: bool
    ghost var accepted: Bytes
    ghost var aborted: bool
    ghost var arrivals: seq<Arrival>

    constructor (sends: bool)
      ensures link == Link(if sends then Some(0) else None, [], if sends then [Channel([], None)] else [])
      ensures appControl && appRecv && inbox == [] && quic == QuicSend(false, [], false, 0) && stopSendings == 0
      ensures !removed && accepted == [] && !aborted && arrivals == []
    {
      link := Link(if sends then Some(0) else None, [], if sends then [Channel([], None)] else []);
      appControl, appRecv, inbox, quic, stopSendings := true, true, [], QuicSend(false, [], false, 0), 0;
      removed, accepted, aborted, arrivals := false, [], false, [];
    }
  }

  /** A receiver that can be replaced once it has ended. */
  class SwappableStream {
    var activeStream: ChannelId
    var swapTo: Option<ChannelId>

    constructor (activeStream: ChannelId)
      ensures View() == Swappable(activeStream, None)
    {
      this.activeStream, swapTo := activeStream, None;
    }

    function View(): Swappable
      reads this
    {
      Swappable(activeStream, swapTo)
    }

    method SetSwapTo(receiver: ChannelId)
      modifies this
      ensures View() == old(View()).(swapTo := Some(receiver))
    {
      swapTo := Some(receiver);
    }

    method Poll(wire: Wire) returns (r: Polled)
      modifies this, wire`link
      ensures (r, wire.link, View()) == PollSend(old(wire.link), old(View()))
    {
      while true
        invariant wire.link == old(wire.link)
        invariant PollSend(wire.link, View()) == PollSend(old(wire.link), old(View()))
        decreases if swapTo.Some? then 1 else 0
      {
        var queue := Queue(wire.link.channels, activeStream);
        if queue != [] {
          wire.link := wire.link.(channels := Pop(wire.link.channels, activeStream));
          return Item(queue[0]);
        }
        if SenderAlive(wire.link, activeStream) {
          return NotReady;
        }
        if swapTo.None? {
          return End;
        }
        activeStream, swapTo := swapTo.value, None;
      }
    }
  }

  /** The copy loop of `handle_send_data`: fills the destination from the buffers and keeps what is
      left of them. It panics exactly if a second buffer has bytes left. */
  method CopyBuffers(bufs: seq<Bytes>, length: nat) returns (dest: array<Byte>, rest: Option<Bytes>, panicked: bool)
    requires length <= |Flatten(bufs)|
    ensures fresh(dest) && dest.Length == length
    ensures panicked <==> TwoLeftovers(bufs, length)
    ensures !panicked ==> dest[..] == Flatten(bufs)[..length] && rest == OrNone(Flatten(bufs)[length..])
  {
    dest := new Byte[length];
    rest := None;
    var written := 0;
    for i := 0 to |bufs|
      invariant written == Min(|Flatten(bufs[..i])|, length)
      invariant dest[..written] == Flatten(bufs[..i])[..written]
      invariant rest == OrNone(Flatten(bufs[..i])[written..])
      invariant forall j :: 0 <= j < i ==> !(bufs[j] != [] && |Flatten(bufs[..j])| > length)
    {
      var buf := bufs[i];
      ghost var before := Flatten(bufs[..i]);
      FlattenUpTo(bufs, i);
      if written < length {
        var end := Min(written + |buf|, length);
        var count := end - written;
        assert before[..written] == before;
        forall k | 0 <= k < count {
          dest[written + k] := buf[k];
        }
        assert dest[..end] == before + buf[..count];
        assert (before + buf)[..end] == before + buf[..count];
        assert (before + buf)[end..] == buf[count..];
        buf := buf[count..];
        written := end;
      } else {
        assert (before + buf)[..length] == before[..length];
        assert (before + buf)[length..] == before[length..] + buf;
        assert buf == [] ==> before + buf == before;
      }
      if buf != [] {
        if rest.None? {
          rest := Some(buf);
        } else {
          assert bufs[i] != [] && |Flatten(bufs[..i])| > length;
          return dest, rest, true;
        }
      }
    }
    assert bufs[..|bufs|] == bufs;
    assert dest[..] == dest[..length];
    panicked := false;
  }

  class Context {
    const id: nat
    const isClientCon: bool
    const wire: Wire
    var sendData: SwappableStream?
    var activeBuffer: Option<Bytes>
    var dataSend: bool
    var stopSendingOrFinSent: bool
    var finReceivedOrRecvMsgDropped: bool
    var panicked: bool

    function SendView(): Option<Swappable>
      reads this, sendData
    {
      if sendData == null then None else Some(sendData.View())
    }

    function CtxView(): SendCtx
      reads this, sendData
    {
      SendCtx(SendView(), activeBuffer, dataSend, stopSendingOrFinSent, panicked)
    }

    ghost function TxView(): Tx
      reads this, wire, sendData
    {
      Tx(CanSend(id, isClientCon), wire.appControl, wire.link, CtxView(), wire.quic,
         wire.removed, wire.accepted, wire.aborted)
    }

    ghost function RxView(): Rx
      reads this, wire
    {
      Rx(wire.appRecv, wire.inbox, finReceivedOrRecvMsgDropped, wire.stopSendings, wire.arrivals)
    }

    ghost function View(): State
      reads this, wire, sendData
    {
      State(id, isClientCon, TxView(), RxView())
    }

    constructor (id: nat, isClientCon: bool)
      ensures View() == Init(id, isClientCon)
      ensures fresh(wire) && (sendData != null ==> fresh(sendData))
    {
      var sends := !(IsUnidirectional(id) && !IsUnidirectionalSendAllowed(id, isClientCon));
      this.id, this.isClientCon := id, isClientCon;
      var w := new Wire(sends);
      wire := w;
      if sends {
        var s := new SwappableStream(0);
        sendData := s;
      } else {
        sendData := null;
      }
      finReceivedOrRecvMsgDropped := IsUnidirectional(id) && IsUnidirectionalSendAllowed(id, isClientCon);
      stopSendingOrFinSent := IsUnidirectional(id) && !IsUnidirectionalSendAllowed(id, isClientCon);
      activeBuffer, dataSend, panicked := None, false, false;
    }

    method Reset()
      modifies this`sendData, this`stopSendingOrFinSent, wire`quic
      ensures TxView() == ResetStream(old(TxView())) && RxView() == old(RxView())
    {
      stopSendingOrFinSent := true;
      sendData := null;
      wire.quic := wire.quic.(resets := wire.quic.resets + 1);
    }

    method RecvMessageDropped()
      modifies this`finReceivedOrRecvMsgDropped, wire`stopSendings
      ensures TxView() == old(TxView())
      ensures RxView() == StreamModel.RecvMessageDropped(old(RxView()), MayStopSending(id, isClientCon))
    {
      if !finReceivedOrRecvMsgDropped {
        finReceivedOrRecvMsgDropped := true;
        if !IsUnidirectional(id) || !IsUnidirectionalSendAllowed(id, isClientCon) {
          wire.stopSendings := wire.stopSendings + 1;
        }
      }
    }

    method RecvMessage(msg: Message)
      modifies this`finReceivedOrRecvMsgDropped, wire`stopSendings, wire`inbox
      ensures TxView() == old(TxView())
      ensures RxView() == StreamModel.RecvMessage(old(RxView()), MayStopSending(id, isClientCon), msg)
    {
      if wire.appRecv {
        wire.inbox := wire.inbox + [msg];
      } else {
        RecvMessageDropped();
      }
    }

    /** The receiving half of a callback: the data first, then the event. */
    method ReceiveCallback(data: Bytes, event: PeerEvent)
      modifies this`finReceivedOrRecvMsgDropped, wire`stopSendings, wire`inbox, wire`arrivals
      ensures RxView() == Receive(old(RxView()), MayStopSending(id, isClientCon), data, event)
    {
      wire.arrivals := wire.arrivals + [Arrived(data, event)];
      if data != [] && !finReceivedOrRecvMsgDropped {
        RecvMessage(RecvData(data));
      }
      if event.StreamReset? {
        finReceivedOrRecvMsgDropped := true;
        RecvMessage(Message.Reset);
      } else if event.StreamFin? {
        finReceivedOrRecvMsgDropped := true;
        RecvMessage(Close);
      }
    }

    method HandleCallback(data: Bytes, event: PeerEvent)
      modifies this`sendData, this`stopSendingOrFinSent, this`finReceivedOrRecvMsgDropped
      modifies wire`stopSendings, wire`inbox, wire`aborted, wire`arrivals
      ensures View() == StreamModel.HandleCallback(old(View()), data, event)
    {
      ReceiveCallback(data, event);
      if event.StopSending? {
        stopSendingOrFinSent := true;
        sendData := null;
        wire.aborted := true;
      }
    }

    method HandleConnectionError(err: ErrorCode)
      modifies this, wire
      ensures View() == StreamModel.HandleConnectionError(old(View()), err)
    {
      RecvMessage(Error(err));
      if sendData != null {
        wire.link := wire.link.(channels := SetError(wire.link.channels, sendData.activeStream, err));
      }
    }

    method HandleConnectionClose()
      modifies this, wire
      ensures View() == StreamModel.HandleConnectionClose(old(View()))
    {
      RecvMessage(Close);
    }

    /** The buffers a collection starts with. */
    method TakeActiveBuffer() returns (bufs: seq<Bytes>, size: nat)
      modifies this`activeBuffer
      ensures bufs == ActiveBuffers(old(TxView())) && size == |Flatten(bufs)|
      ensures CtxView() == old(CtxView()).(activeBuffer := None)
    {
      size, bufs := 0, [];
      if activeBuffer.Some? {
        size := |activeBuffer.value|;
        bufs := [activeBuffer.value];
        activeBuffer := None;
        assert Flatten(bufs) == bufs[0] + Flatten(bufs[1..]);
      }
    }

    /** Takes the active buffer and polls the receiver until more than `maxLength` bytes are there. */
    method CollectBuffersToSend(maxLength: nat) returns (bufs: seq<Bytes>, size: nat, fin: bool)
      modifies this`activeBuffer, sendData, wire`link
      ensures old(sendData) == sendData
      ensures Collected(wire.link, SendView(), bufs, fin)
           == Collect(old(wire.link), old(SendView()), maxLength, ActiveBuffers(old(TxView())))
      ensures CtxView() == old(CtxView()).(sendData := SendView(), activeBuffer := None)
      ensures size == |Flatten(bufs)| && (fin ==> size <= maxLength)
    {
      fin := false;
      bufs, size := TakeActiveBuffer();
      ghost var goal := Collect(wire.link, SendView(), maxLength, bufs);
      while size <= maxLength
        invariant size == |Flatten(bufs)| && !fin
        invariant activeBuffer.None?
        invariant Collect(wire.link, SendView(), maxLength, bufs) == goal
        decreases if sendData == null then 0 else Items(wire.link.channels, sendData.View())
      {
        if sendData == null {
          fin := true;
          break;
        }
        var r := sendData.Poll(wire);
        match r
        case Item(buf) =>
          FlattenPush(bufs, buf);
          size := size + |buf|;
          bufs := bufs + [buf];
        case End =>
          fin := true;
          break;
        case NotReady =>
          break;
      }
    }

    /** Hands the collected buffers to picoquic; `dest` is the buffer it provides for them. */
    method ProvideBuffers(bufs: seq<Bytes>, size: nat, fin: bool, maxLength: nat) returns (dest: array<Byte>)
      requires size == |Flatten(bufs)| && (fin ==> size <= maxLength) && AllButLastFit(bufs, maxLength)
      modifies this`activeBuffer, this`dataSend, this`stopSendingOrFinSent, wire`quic
      ensures TxView() == Deliver(old(TxView()), Collected(old(wire.link), old(SendView()), bufs, fin), maxLength)
      ensures fresh(dest) && dest.Length <= maxLength && wire.quic.handed == old(wire.quic.handed) + dest[..]
      ensures wire.quic.active == activeBuffer.Some?
    {
      dataSend := dataSend || size > 0;
      var stillActive := size > maxLength && !fin;
      var length := Min(maxLength, size);
      stopSendingOrFinSent := fin;
      var rest, panics;
      dest, rest, panics := CopyBuffers(bufs, length);
      OneLeftover(bufs, maxLength);
      assert !panics;
      activeBuffer := rest;
      wire.quic := QuicSend(stillActive, wire.quic.handed + dest[..], wire.quic.finGiven || fin, wire.quic.resets);
    }

    /** Picoquic asks for at most `maxLength` bytes. */
    method HandleSendData(maxLength: nat) returns (dest: array<Byte>)
      modifies this`activeBuffer, this`dataSend, this`stopSendingOrFinSent, sendData, wire`link, wire`quic
      ensures View() == old(View()).(tx := PrepareToSend(old(TxView()), maxLength))
      ensures fresh(dest) && dest.Length <= maxLength && wire.quic.handed == old(wire.quic.handed) + dest[..]
      ensures wire.quic.active == activeBuffer.Some?
    {
      CollectFits(wire.link, SendView(), maxLength, ActiveBuffers(TxView()));
      var bufs, size, fin := CollectBuffersToSend(maxLength);
      dest := ProvideBuffers(bufs, size, fin, maxLength);
    }

    method HandleSendDataDropped()
      modifies this`sendData, this`stopSendingOrFinSent, wire`quic
      ensures View() == old(View()).(tx := StreamModel.HandleSendDataDropped(old(TxView())))
    {
      sendData := null;
      if !dataSend && activeBuffer.None? {
        Reset();
      } else if !stopSendingOrFinSent {
        wire.quic := wire.quic.(active := true);
      }
    }

    method HandleControlMessage(msg: Message)
      requires !panicked
      modifies this`sendData, this`stopSendingOrFinSent, this`panicked, sendData, wire`quic, wire`aborted
      ensures TxView() == ControlMessage(old(TxView()), msg)
      ensures sendData == null || sendData == old(sendData)
    {
      match msg
      case Reset =>
        wire.aborted := true;
        Reset();
      case SwapSendData(receiver, _) =>
        if sendData != null {
          sendData.SetSwapTo(receiver);
        }
      case _ =>
        panicked := true;
    }

    /** Handles every message on the control queue. */
    method PollControlMsg()
      requires !panicked
      modifies this`sendData, this`stopSendingOrFinSent, this`panicked, this`finReceivedOrRecvMsgDropped
      modifies sendData, wire`link, wire`quic, wire`aborted, wire`stopSendings
      ensures View() == PollControl(old(View()))
      ensures sendData == null || sendData == old(sendData)
    {
      while wire.link.control != []
        invariant sendData == null || sendData == old(sendData)
        invariant !panicked && RxView() == old(RxView()) && wire.appControl == old(wire.appControl)
        invariant DrainControl(TxView()) == DrainControl(old(TxView()))
        decreases |wire.link.control|
      {
        var msg := wire.link.control[0];
        wire.link := wire.link.(control := wire.link.control[1..]);
        HandleControlMessage(msg);
        if panicked {
          return;
        }
      }
      if !wire.appControl {
        RecvMessageDropped();
      }
    }

    method PollSendData()
      modifies this`sendData, this`activeBuffer, this`stopSendingOrFinSent, wire`link, wire`quic, sendData
      ensures View() == old(View()).(tx := PollData(old(TxView())))
    {
      if activeBuffer.None? && sendData != null {
        var r := sendData.Poll(wire);
        match r
        case Item(buf) =>
          activeBuffer := Some(buf);
          wire.quic := wire.quic.(active := true);
        case End => HandleSendDataDropped();
        case NotReady =>
      }
    }

    /** Returns whether the stream is finished. */
    method Poll() returns (ready: bool)
      requires !panicked
      modifies this, wire, sendData
      ensures View() == StreamModel.Poll(old(View()))
      ensures ready <==> Finished(View()) && !panicked
    {
      PollControlMsg();
      if panicked {
        return false;
      }
      PollSendData();
      ready := stopSendingOrFinSent && finReceivedOrRecvMsgDropped;
    }

    method Drop()
      modifies this, wire
      ensures View() == Remove(old(View()))
    {
      if wire.appRecv {
        wire.inbox := wire.inbox + [Close];
      }
      sendData := null;
      wire.link := wire.link.(control := []);
      wire.removed := true;
    }
  }

  /** The application's end. */
  class Stream {
    const ctx: Context

    constructor (ctx: Context)
      ensures this.ctx == ctx
    {
      this.ctx := ctx;
    }

    method StartSend(buf: Bytes, full: bool) returns (outcome: SendOutcome)
      modifies ctx.wire
      ensures ctx.View() == old(ctx.View()).(tx := StreamModel.StartSend(old(ctx.TxView()), buf, full))
      ensures outcome == SendResult(old(ctx.TxView()), full)
    {
      var wire := ctx.wire;
      if wire.link.appSender.None? {
        return SendOnUnidirectional;
      }
      var c := wire.link.appSender.value;
      if !ReceiverAlive(wire.link, ctx.SendView(), c) {
        if c < |wire.link.channels| && wire.link.channels[c].error.Some? {
          return ChannelError(wire.link.channels[c].error.value);
        }
        return NormalError;
      }
      if full {
        return Full;
      }
      wire.link := wire.link.(channels := Push(wire.link.channels, c, buf));
      wire.accepted := wire.accepted + buf;
      return Accepted;
    }

    method SetSendChannelSize()
      modifies ctx.wire
      ensures ctx.View() == old(ctx.View()).(tx := Resize(old(ctx.TxView())))
    {
      var wire := ctx.wire;
      if wire.link.appSender.Some? {
        var added := |wire.link.channels|;
        var control := wire.link.control;
        if !wire.removed {
          control := control + [SwapSendData(added, wire.link.appSender.value)];
        }
        wire.link := Link(Some(added), control, wire.link.channels + [Channel([], None)]);
      }
    }

    method Reset()
      modifies ctx.wire
      ensures ctx.View() == old(ctx.View()).(tx := AppReset(old(ctx.TxView())))
    {
      var wire := ctx.wire;
      if !wire.removed {
        wire.link := wire.link.(control := wire.link.control + [Message.Reset]);
      }
    }
  }
}
