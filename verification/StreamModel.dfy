/** One stream as a state machine: the application's `Stream`, the driver's `Context`, the
    channels between them and the calls made to picoquic.

    Senders and receivers are owned values. A channel's sender is alive while the `Stream` or a
    message on the control queue holds it, and its receiver while the `Context` or such a message
    holds it, so dropping an owner needs no bookkeeping of its own. Every step below is one
    critical section of the program; disabled steps change nothing, so every list of steps is a
    run. */
module StreamModel {
  import opened Base
  import opened StreamIds

  /** Channels are numbered in the order of their creation. */
  type ChannelId = nat

  datatype Channel = Channel(queue: seq<Bytes>, error: Option<ErrorCode>)

  datatype Message =
    | Close
    | RecvData(data: Bytes)
    | Error(err: ErrorCode)
    | Reset
    | SwapSendData(receiver: ChannelId, oldSender: ChannelId)

  /** What the application and the context share on the sending side: the sender the application
      holds, the control queue and all channels ever made. */
  datatype Link = Link(appSender: Option<ChannelId>, control: seq<Message>, channels: seq<Channel>)

  /** The receivers a `SwappableStream` holds. */
  datatype Swappable = Swappable(active: ChannelId, swapTo: Option<ChannelId>)

  /** The context's fields for sending. */
  datatype SendCtx = SendCtx(
    sendData: Option<Swappable>,
    activeBuffer: Option<Bytes>,
    dataSend: bool,
    stopSendingOrFinSent: bool,
    panicked: bool)

  /** What picoquic has been told about the stream's sending side. */
  datatype QuicSend = QuicSend(active: bool, handed: Bytes, finGiven: bool, resets: nat)

  /** The sending half. `accepted` and `aborted` are history: nothing in the program reads them. */
  datatype Tx = Tx(
    canSend: bool,
    appControl: bool,
    link: Link,
    ctx: SendCtx,
    quic: QuicSend,
    removed: bool,
    accepted: Bytes,
    aborted: bool)

  datatype PeerEvent = StreamData | StreamFin | StreamReset | StopSending

  /** What happened on the receiving side, in order. */
  datatype Arrival = Arrived(data: Bytes, event: PeerEvent) | ReceiverDropped

  /** The receiving half. `inbox` is everything ever put on the application's message queue and
      `arrivals` is history. */
  datatype Rx = Rx(
    appRecv: bool,
    inbox: seq<Message>,
    finReceivedOrRecvMsgDropped: bool,
    stopSendings: nat,
    arrivals: seq<Arrival>)

  datatype State = State(id: nat, isClientCon: bool, tx: Tx, rx: Rx)

  function Init(id: nat, isClientCon: bool): State {
    var sends := CanSend(id, isClientCon);
    State(
      id, isClientCon,
      Tx(sends, true,
         Link(if sends then Some(0) else None, [], if sends then [Channel([], None)] else []),
         SendCtx(if sends then Some(Swappable(0, None)) else None, None, false,
                 IsUnidirectional(id) && !IsUnidirectionalSendAllowed(id, isClientCon), false),
         QuicSend(false, [], false, 0),
         false, [], false),
      Rx(true, [], IsUnidirectional(id) && IsUnidirectionalSendAllowed(id, isClientCon), 0, []))
  }

  // ---------------------------------------------------------------- channels

  function Queue(channels: seq<Channel>, c: ChannelId): seq<Bytes> {
    if c < |channels| then channels[c].queue else []
  }

  function Push(channels: seq<Channel>, c: ChannelId, buf: Bytes): seq<Channel> {
    if c < |channels| then channels[c := channels[c].(queue := channels[c].queue + [buf])] else channels
  }

  function Pop(channels: seq<Channel>, c: ChannelId): seq<Channel>
    requires Queue(channels, c) != []
  {
    channels[c := channels[c].(queue := channels[c].queue[1..])]
  }

  function SetError(channels: seq<Channel>, c: ChannelId, err: ErrorCode): seq<Channel> {
    if c < |channels| then channels[c := channels[c].(error := Some(err))] else channels
  }

  predicate SenderAlive(link: Link, c: ChannelId) {
    || link.appSender == Some(c)
    || exists i :: 0 <= i < |link.control| && link.control[i].SwapSendData? && link.control[i].oldSender == c
  }

  predicate ReceiverAlive(link: Link, sendData: Option<Swappable>, c: ChannelId) {
    || (sendData.Some? && (sendData.value.active == c || sendData.value.swapTo == Some(c)))
    || exists i :: 0 <= i < |link.control| && link.control[i].SwapSendData? && link.control[i].receiver == c
  }

  // ---------------------------------------------------------------- the swappable receiver

  datatype Polled = Item(buf: Bytes) | End | NotReady

  /** How many buffers the receivers hold. */
  function Items(channels: seq<Channel>, sw: Swappable): nat {
    |Queue(channels, sw.active)| + (if sw.swapTo.Some? then |Queue(channels, sw.swapTo.value)| else 0)
  }

  /** `SwappableStream::poll` of the send receiver: the result and what the poll changed. */
  function PollSend(link: Link, sw: Swappable): (r: (Polled, Link, Swappable))
    ensures r.1 == link.(channels := r.1.channels)
    ensures r.0.Item? ==> Items(r.1.channels, r.2) < Items(link.channels, sw)
    ensures !r.0.Item? ==> r.1 == link
    decreases if sw.swapTo.Some? then 1 else 0
  {
    var queue := Queue(link.channels, sw.active);
    if queue != [] then
      (Item(queue[0]), link.(channels := Pop(link.channels, sw.active)), sw)
    else if SenderAlive(link, sw.active) then
      (NotReady, link, sw)
    else if sw.swapTo.None? then
      (End, link, sw)
    else
      PollSend(link, Swappable(sw.swapTo.value, None))
  }

  // ---------------------------------------------------------------- the receiving half

  /** Whether `recv_message_dropped` passes its inner direction test. */
  predicate MayStopSending(id: nat, isClientCon: bool) {
    !IsUnidirectional(id) || !IsUnidirectionalSendAllowed(id, isClientCon)
  }

  function RecvMessageDropped(rx: Rx, mayStop: bool): Rx {
    if rx.finReceivedOrRecvMsgDropped then rx
    else rx.(finReceivedOrRecvMsgDropped := true, stopSendings := rx.stopSendings + (if mayStop then 1 else 0))
  }

  function RecvMessage(rx: Rx, mayStop: bool, msg: Message): Rx {
    if rx.appRecv then rx.(inbox := rx.inbox + [msg]) else RecvMessageDropped(rx, mayStop)
  }

  /** The receiving half of `handle_callback`, for every event but prepare-to-send. */
  function Receive(rx: Rx, mayStop: bool, data: Bytes, event: PeerEvent): Rx {
    var rx0 := rx.(arrivals := rx.arrivals + [Arrived(data, event)]);
    var rx1 :=
      if data != [] && !rx0.finReceivedOrRecvMsgDropped then RecvMessage(rx0, mayStop, RecvData(data)) else rx0;
    match event
    case StreamReset => RecvMessage(rx1.(finReceivedOrRecvMsgDropped := true), mayStop, Reset)
    case StreamFin => RecvMessage(rx1.(finReceivedOrRecvMsgDropped := true), mayStop, Close)
    case _ => rx1
  }

  // ---------------------------------------------------------------- the sending half

  function CloseSendData(tx: Tx): Tx {
    tx.(ctx := tx.ctx.(sendData := None))
  }

  function ResetStream(tx: Tx): Tx {
    tx.(ctx := tx.ctx.(sendData := None, stopSendingOrFinSent := true),
        quic := tx.quic.(resets := tx.quic.resets + 1))
  }

  function StopSend(tx: Tx): Tx {
    tx.(ctx := tx.ctx.(sendData := None, stopSendingOrFinSent := true), aborted := true)
  }

  function ControlMessage(tx: Tx, msg: Message): Tx {
    match msg
    case Reset => ResetStream(tx.(aborted := true))
    case SwapSendData(receiver, _) =>
      if tx.ctx.sendData.Some? then
        tx.(ctx := tx.ctx.(sendData := Some(tx.ctx.sendData.value.(swapTo := Some(receiver)))))
      else
        tx
    case _ => tx.(ctx := tx.ctx.(panicked := true))
  }

  /** Taking one message off the control queue. */
  function NextControl(tx: Tx): Tx
    requires tx.link.control != []
  {
    ControlMessage(tx.(link := tx.link.(control := tx.link.control[1..])), tx.link.control[0])
  }

  /** The loop of `poll_control_msg`. */
  function DrainControl(tx: Tx): Tx
    decreases |tx.link.control|
  {
    if tx.ctx.panicked || tx.link.control == [] then tx else DrainControl(NextControl(tx))
  }

  /** The end of sending was noticed outside of a prepare-to-send. */
  function HandleSendDataDropped(tx: Tx): Tx {
    if !tx.ctx.dataSend && tx.ctx.activeBuffer.None? then ResetStream(tx)
    else if !tx.ctx.stopSendingOrFinSent then tx.(ctx := tx.ctx.(sendData := None), quic := tx.quic.(active := true))
    else CloseSendData(tx)
  }

  /** `poll_send_data`. */
  function PollData(tx: Tx): Tx {
    if tx.ctx.activeBuffer.Some? || tx.ctx.sendData.None? then tx else
    var (r, link, sw) := PollSend(tx.link, tx.ctx.sendData.value);
    match r
    case Item(buf) =>
      tx.(link := link,
          ctx := tx.ctx.(sendData := Some(sw), activeBuffer := Some(buf)),
          quic := tx.quic.(active := true))
    case End => HandleSendDataDropped(tx)
    case NotReady => tx.(ctx := tx.ctx.(sendData := Some(sw)))
  }

  datatype Collected = Collected(link: Link, sendData: Option<Swappable>, bufs: seq<Bytes>, fin: bool)

  /** The loop of `collect_buffers_to_send`, after the active buffer was taken. */
  function Collect(link: Link, sendData: Option<Swappable>, maxLength: nat, bufs: seq<Bytes>): (r: Collected)
    ensures r.link == link.(channels := r.link.channels)
    ensures r.sendData.Some? == sendData.Some?
    decreases if sendData.Some? then Items(link.channels, sendData.value) else 0
  {
    if |Flatten(bufs)| > maxLength then Collected(link, sendData, bufs, false)
    else if sendData.None? then Collected(link, sendData, bufs, true)
    else
      var (r, link', sw) := PollSend(link, sendData.value);
      match r
      case Item(buf) => Collect(link', Some(sw), maxLength, bufs + [buf])
      case End => Collected(link', Some(sw), bufs, true)
      case NotReady => Collected(link', Some(sw), bufs, false)
  }

  function ActiveBuffers(tx: Tx): seq<Bytes> {
    if tx.ctx.activeBuffer.Some? then [tx.ctx.activeBuffer.value] else []
  }

  function OrNone(rest: Bytes): Option<Bytes> {
    if rest == [] then None else Some(rest)
  }

  /** More than one buffer would keep bytes if only `length` bytes were copied: the copy loop panics. */
  predicate TwoLeftovers(bufs: seq<Bytes>, length: nat) {
    exists j :: 0 <= j < |bufs| && bufs[j] != [] && |Flatten(bufs[..j])| > length
  }

  /** Of all the collected bytes the first `maxLength` go to picoquic and the rest is kept. */
  function Deliver(tx: Tx, c: Collected, maxLength: nat): Tx {
    var all := Flatten(c.bufs);
    var length := Min(maxLength, |all|);
    tx.(link := c.link,
        ctx := SendCtx(c.sendData, OrNone(all[length..]), tx.ctx.dataSend || |all| > 0, c.fin,
                       tx.ctx.panicked || TwoLeftovers(c.bufs, length)),
        quic := QuicSend(|all| > maxLength && !c.fin, tx.quic.handed + all[..length],
                         tx.quic.finGiven || c.fin, tx.quic.resets))
  }

  /** `handle_send_data`. */
  function PrepareToSend(tx: Tx, maxLength: nat): Tx {
    Deliver(tx, Collect(tx.link, tx.ctx.sendData, maxLength, ActiveBuffers(tx)), maxLength)
  }

  // ---------------------------------------------------------------- the context's entry points

  function PollControl(s: State): State {
    var tx := DrainControl(s.tx);
    s.(tx := tx,
       rx := if tx.ctx.panicked || s.tx.appControl then s.rx
             else RecvMessageDropped(s.rx, MayStopSending(s.id, s.isClientCon)))
  }

  function Poll(s: State): State {
    var t := PollControl(s);
    if t.tx.ctx.panicked then t else t.(tx := PollData(t.tx))
  }

  /** The result of `Context::poll`: the connection may forget the stream. */
  predicate Finished(s: State) {
    s.tx.ctx.stopSendingOrFinSent && s.rx.finReceivedOrRecvMsgDropped
  }

  function HandleCallback(s: State, data: Bytes, event: PeerEvent): State {
    s.(rx := Receive(s.rx, MayStopSending(s.id, s.isClientCon), data, event),
       tx := if event.StopSending? then StopSend(s.tx) else s.tx)
  }

  function PropagateError(tx: Tx, err: ErrorCode): Tx {
    if tx.ctx.sendData.Some? then
      tx.(link := tx.link.(channels := SetError(tx.link.channels, tx.ctx.sendData.value.active, err)))
    else tx
  }

  function HandleConnectionError(s: State, err: ErrorCode): State {
    s.(rx := RecvMessage(s.rx, MayStopSending(s.id, s.isClientCon), Error(err)), tx := PropagateError(s.tx, err))
  }

  function HandleConnectionClose(s: State): State {
    s.(rx := RecvMessage(s.rx, MayStopSending(s.id, s.isClientCon), Close))
  }

  function RemoveTx(tx: Tx): Tx {
    CloseSendData(tx.(link := tx.link.(control := []), removed := true))
  }

  /** The context is dropped: its ends of all queues go with it. */
  function Remove(s: State): State {
    s.(rx := if s.rx.appRecv then s.rx.(inbox := s.rx.inbox + [Close]) else s.rx, tx := RemoveTx(s.tx))
  }

  // ---------------------------------------------------------------- the application's `Stream`

  datatype SendOutcome = Accepted | Full | SendOnUnidirectional | ChannelError(err: ErrorCode) | NormalError

  /** `Stream::start_send`; `full` is the channel's back-pressure. */
  function SendResult(tx: Tx, full: bool): SendOutcome {
    if tx.link.appSender.None? then SendOnUnidirectional else
    var c := tx.link.appSender.value;
    if ReceiverAlive(tx.link, tx.ctx.sendData, c) then (if full then Full else Accepted)
    else if c < |tx.link.channels| && tx.link.channels[c].error.Some? then ChannelError(tx.link.channels[c].error.value)
    else NormalError
  }

  function StartSend(tx: Tx, buf: Bytes, full: bool): Tx {
    if SendResult(tx, full) == Accepted then
      tx.(link := tx.link.(channels := Push(tx.link.channels, tx.link.appSender.value, buf)),
          accepted := tx.accepted + buf)
    else tx
  }

  /** `Stream::set_send_channel_size`: a message to a dropped context is dropped with all it holds. */
  function Resize(tx: Tx): Tx {
    if tx.link.appSender.None? then tx else
    var added := |tx.link.channels|;
    tx.(link := Link(
      Some(added),
      if tx.removed then tx.link.control else tx.link.control + [SwapSendData(added, tx.link.appSender.value)],
      tx.link.channels + [Channel([], None)]))
  }

  function AppReset(tx: Tx): Tx {
    if tx.removed then tx else tx.(link := tx.link.(control := tx.link.control + [Reset]))
  }

  /** Dropping a `Stream` is not atomic: each call drops the next of its fields, in the order of
      their declaration. */
  function AppDrop(s: State): State {
    if s.rx.appRecv then s.(rx := s.rx.(appRecv := false, arrivals := s.rx.arrivals + [ReceiverDropped]))
    else if s.tx.appControl then s.(tx := s.tx.(appControl := false))
    else s.(tx := s.tx.(link := s.tx.link.(appSender := None)))
  }

  // ---------------------------------------------------------------- runs

  datatype Step =
    | DoSend(buf: Bytes, full: bool)
    | DoResize
    | DoReset
    | DoDrop
    | DoPollControl
    | DoPollData
    | DoPrepare(maxLength: nat)
    | DoCallback(data: Bytes, event: PeerEvent)
    | DoConnectionError(err: ErrorCode)
    | DoConnectionClose
    | DoRemove

  predicate IsAppStep(step: Step) {
    step.DoSend? || step.DoResize? || step.DoReset? || step.DoDrop?
  }

  /** The application can use a `Stream` until it drops it; the context runs until it is removed. */
  predicate Enabled(s: State, step: Step) {
    if step.DoDrop? then true
    else if IsAppStep(step) then s.rx.appRecv
    else !s.tx.removed && !s.tx.ctx.panicked
  }

  /** What a step does to the sending half. */
  function ApplyTx(s: State, step: Step): Tx {
    match step
    case DoSend(buf, full) => StartSend(s.tx, buf, full)
    case DoResize => Resize(s.tx)
    case DoReset => AppReset(s.tx)
    case DoDrop => AppDrop(s).tx
    case DoPollControl => PollControl(s).tx
    case DoPollData => PollData(s.tx)
    case DoPrepare(maxLength) => PrepareToSend(s.tx, maxLength)
    case DoCallback(data, event) => HandleCallback(s, data, event).tx
    case DoConnectionError(err) => HandleConnectionError(s, err).tx
    case DoConnectionClose => HandleConnectionClose(s).tx
    case DoRemove => Remove(s).tx
  }

  /** What a step does to the receiving half. */
  function ApplyRx(s: State, step: Step): Rx {
    match step
    case DoDrop => AppDrop(s).rx
    case DoPollControl => PollControl(s).rx
    case DoCallback(data, event) => HandleCallback(s, data, event).rx
    case DoConnectionError(err) => HandleConnectionError(s, err).rx
    case DoConnectionClose => HandleConnectionClose(s).rx
    case DoRemove => Remove(s).rx
    case _ => s.rx
  }

  function Apply(s: State, step: Step): State {
    if Enabled(s, step) then State(s.id, s.isClientCon, ApplyTx(s, step), ApplyRx(s, step)) else s
  }

  function Run(s: State, steps: seq<Step>): State
    decreases |steps|
  {
    if steps == [] then s else Run(Apply(s, steps[0]), steps[1..])
  }

  lemma {:induction false} RunConcat(s: State, a: seq<Step>, b: seq<Step>)
    ensures Run(s, a + b) == Run(Run(s, a), b)
    decreases |a|
  {
    if a == [] {
      assert a + b == b;
    } else {
      assert (a + b)[0] == a[0] && (a + b)[1..] == a[1..] + b;
      RunConcat(Apply(s, a[0]), a[1..], b);
    }
  }

  lemma {:induction false} RunConstants(s: State, steps: seq<Step>)
    ensures Run(s, steps).id == s.id && Run(s, steps).isClientCon == s.isClientCon
    decreases |steps|
  {
    if steps != [] { RunConstants(Apply(s, steps[0]), steps[1..]); }
  }

  /** A poll of the context is a control poll followed by a data poll. */
  lemma PollIsTwoSteps(s: State)
    requires !s.tx.removed && !s.tx.ctx.panicked
    ensures Poll(s) == Run(s, [DoPollControl, DoPollData])
  {
    var t := Apply(s, DoPollControl);
    DrainControlKeepsRemoved(s.tx);
    assert [DoPollControl, DoPollData][1..] == [DoPollData];
    assert Run(s, [DoPollControl, DoPollData]) == Run(t, [DoPollData]) == Run(Apply(t, DoPollData), []);
  }

  lemma {:induction false} DrainControlKeepsRemoved(tx: Tx)
    ensures DrainControl(tx).removed == tx.removed
    decreases |tx.link.control|
  {
    if !tx.ctx.panicked && tx.link.control != [] { DrainControlKeepsRemoved(NextControl(tx)); }
  }

  /** Only the removal itself removes a context. */
  lemma StepKeepsRemoved(s: State, step: Step)
    requires !step.DoRemove?
    ensures Apply(s, step).tx.removed == s.tx.removed
  {
    if step.DoPollControl? { DrainControlKeepsRemoved(s.tx); }
  }

  /** The two ends of one stream agree on who may send, on who may receive and on which halves
      start out closed; an end that generated the id can always send. */
  lemma EndpointDuality(id: nat, nextId: nat, isClient: bool, stype: StreamType)
    ensures var client, server := Init(id, true), Init(id, false);
      && (IsUnidirectional(id) ==>
            && client.tx.link.appSender.Some? != server.tx.link.appSender.Some?
            && client.tx.ctx.stopSendingOrFinSent == server.rx.finReceivedOrRecvMsgDropped
            && server.tx.ctx.stopSendingOrFinSent == client.rx.finReceivedOrRecvMsgDropped
            && client.tx.ctx.stopSendingOrFinSent != client.rx.finReceivedOrRecvMsgDropped)
      && (!IsUnidirectional(id) ==>
            && client.tx.link.appSender.Some? && server.tx.link.appSender.Some?
            && !client.tx.ctx.stopSendingOrFinSent && !server.tx.ctx.stopSendingOrFinSent
            && !client.rx.finReceivedOrRecvMsgDropped && !server.rx.finReceivedOrRecvMsgDropped)
      && client.tx.link.appSender.Some? == client.tx.ctx.sendData.Some? == !client.tx.ctx.stopSendingOrFinSent
      && server.tx.link.appSender.Some? == server.tx.ctx.sendData.Some? == !server.tx.ctx.stopSendingOrFinSent
      && !Finished(client) && !Finished(server)
    ensures Init(GenerateStreamId(nextId, isClient, stype), isClient).tx.link.appSender.Some?
    ensures Init(GenerateStreamId(nextId, isClient, stype), !isClient).tx.link.appSender.Some? <==> stype.Bidirectional?
  {
    GeneratedIdDecodes(nextId, isClient, stype);
  }
}
