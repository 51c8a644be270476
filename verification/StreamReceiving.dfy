/** What holds for the receiving half of a stream over whole runs. */
module StreamReceiving {
  import opened Base
  import opened StreamIds
  import opened StreamModel
  import opened StreamInvariant

  /** The payload of the data messages on the application's queue. */
  function DataIn(inbox: seq<Message>): Bytes {
    if inbox == [] then [] else (if inbox[0].RecvData? then inbox[0].data else []) + DataIn(inbox[1..])
  }

  predicate EndsReceiving(a: Arrival) {
    a.ReceiverDropped? || a.event.StreamFin? || a.event.StreamReset?
  }

  predicate Ended(arrivals: seq<Arrival>) {
    exists i :: 0 <= i < |arrivals| && EndsReceiving(arrivals[i])
  }

  predicate PeerEnded(arrivals: seq<Arrival>) {
    exists i :: 0 <= i < |arrivals| && arrivals[i].Arrived? && EndsReceiving(arrivals[i])
  }

  /** The bytes that arrive up to and including the first FIN or reset, or until the application
      drops its receiver. */
  function DueBytes(arrivals: seq<Arrival>): Bytes {
    if arrivals == [] || arrivals[0].ReceiverDropped? then []
    else if EndsReceiving(arrivals[0]) then arrivals[0].data
    else arrivals[0].data + DueBytes(arrivals[1..])
  }

  predicate Listening(arrivals: seq<Arrival>) {
    forall i :: 0 <= i < |arrivals| ==> !arrivals[i].ReceiverDropped?
  }

  /** The peer reset the stream while the application still held its receiver. */
  predicate ResetSeen(arrivals: seq<Arrival>) {
    exists i :: 0 <= i < |arrivals|
      && arrivals[i].Arrived? && arrivals[i].event.StreamReset? && Listening(arrivals[..i])
  }

  lemma ResetSeenAppend(arrivals: seq<Arrival>, a: Arrival)
    ensures ResetSeen(arrivals + [a]) <==>
      ResetSeen(arrivals) || (Listening(arrivals) && a.Arrived? && a.event.StreamReset?)
    ensures Listening(arrivals + [a]) <==> Listening(arrivals) && !a.ReceiverDropped?
  {
    var longer := arrivals + [a];
    assert longer[..|arrivals|] == arrivals && longer[|arrivals|] == a;
    if ResetSeen(arrivals) {
      var i :| 0 <= i < |arrivals|
        && arrivals[i].Arrived? && arrivals[i].event.StreamReset? && Listening(arrivals[..i]);
      assert longer[i] == arrivals[i] && longer[..i] == arrivals[..i];
    }
    if ResetSeen(longer) {
      var i :| 0 <= i < |longer| && longer[i].Arrived? && longer[i].event.StreamReset? && Listening(longer[..i]);
      if i < |arrivals| { assert longer[..i] == arrivals[..i]; }
    }
  }

  /** A reset message is in the queue exactly when a reset arrived in time. */
  ghost predicate ResetInv(rx: Rx) {
    && (rx.appRecv <==> Listening(rx.arrivals))
    && (Message.Reset in rx.inbox <==> ResetSeen(rx.arrivals))
  }

  lemma CallbackReset(rx: Rx, receives: bool, data: Bytes, event: PeerEvent)
    requires ResetInv(rx)
    ensures ResetInv(Receive(rx, receives, data, event))
  {
    ResetSeenAppend(rx.arrivals, Arrived(data, event));
  }

  lemma StepReset(s: State, step: Step)
    requires ResetInv(s.rx)
    ensures ResetInv(Apply(s, step).rx)
  {
    if Enabled(s, step) {
      match step
      case DoDrop => ResetSeenAppend(s.rx.arrivals, ReceiverDropped);
      case DoCallback(data, event) => CallbackReset(s.rx, MayStopSending(s.id, s.isClientCon), data, event);
      case _ =>
    }
  }

  lemma {:induction false} RunReset(s: State, steps: seq<Step>)
    requires ResetInv(s.rx)
    ensures ResetInv(Run(s, steps).rx)
    decreases |steps|
  {
    if steps != [] {
      StepReset(s, steps[0]);
      RunReset(Apply(s, steps[0]), steps[1..]);
    }
  }

  /** In every run the application is told of a reset if and only if the peer reset the stream while
      the application held its receiver: a FIN, an error or a close is never reported as a reset. */
  lemma {:induction false} ResetIsReportedIff(id: nat, isClientCon: bool, steps: seq<Step>)
    ensures var rx := Run(Init(id, isClientCon), steps).rx; Message.Reset in rx.inbox <==> ResetSeen(rx.arrivals)
  {
    RunReset(Init(id, isClientCon), steps);
  }

  lemma {:induction false} DataInAppend(inbox: seq<Message>, msg: Message)
    ensures DataIn(inbox + [msg]) == DataIn(inbox) + (if msg.RecvData? then msg.data else [])
  {
    if inbox == [] {
      assert inbox + [msg] == [msg] && [msg][1..] == [];
    } else {
      assert (inbox + [msg])[0] == inbox[0] && (inbox + [msg])[1..] == inbox[1..] + [msg];
      DataInAppend(inbox[1..], msg);
      Assoc(if inbox[0].RecvData? then inbox[0].data else [], DataIn(inbox[1..]),
            if msg.RecvData? then msg.data else []);
    }
  }

  lemma EndedAppend(arrivals: seq<Arrival>, a: Arrival)
    ensures Ended(arrivals + [a]) <==> Ended(arrivals) || EndsReceiving(a)
  {
    var longer := arrivals + [a];
    assert longer[|arrivals|] == a;
    if Ended(arrivals) {
      var i :| 0 <= i < |arrivals| && EndsReceiving(arrivals[i]);
      assert longer[i] == arrivals[i];
    }
  }

  lemma EndedRest(arrivals: seq<Arrival>)
    requires arrivals != []
    ensures Ended(arrivals) <==> EndsReceiving(arrivals[0]) || Ended(arrivals[1..])
  {
    if Ended(arrivals[1..]) {
      var i :| 0 <= i < |arrivals[1..]| && EndsReceiving(arrivals[1..][i]);
      assert EndsReceiving(arrivals[i + 1]);
    }
    if Ended(arrivals) && !EndsReceiving(arrivals[0]) {
      var i :| 0 <= i < |arrivals| && EndsReceiving(arrivals[i]);
      assert arrivals[1..][i - 1] == arrivals[i];
    }
  }

  lemma {:induction false} DueAppend(arrivals: seq<Arrival>, a: Arrival)
    ensures DueBytes(arrivals + [a])
         == DueBytes(arrivals) + (if Ended(arrivals) || a.ReceiverDropped? then [] else a.data)
    decreases |arrivals|
  {
    var longer := arrivals + [a];
    if arrivals == [] {
      assert longer == [a] && longer[1..] == [];
    } else {
      assert longer[0] == arrivals[0] && longer[1..] == arrivals[1..] + [a];
      EndedRest(arrivals);
      if !EndsReceiving(arrivals[0]) {
        DueAppend(arrivals[1..], a);
        Assoc(arrivals[0].data, DueBytes(arrivals[1..]),
              if Ended(arrivals[1..]) || a.ReceiverDropped? then [] else a.data);
      }
    }
  }

  ghost predicate RxInv(rx: Rx, receives: bool) {
    && (forall i :: 0 <= i < |rx.inbox| ==> !rx.inbox[i].SwapSendData?)
    && DataIn(rx.inbox) == (if receives then DueBytes(rx.arrivals) else [])
    && (!receives ==> rx.finReceivedOrRecvMsgDropped && rx.stopSendings == 0)
    && (receives && rx.finReceivedOrRecvMsgDropped ==> Ended(rx.arrivals))
    && (Ended(rx.arrivals) ==> rx.finReceivedOrRecvMsgDropped || !rx.appRecv)
    && (!rx.appRecv ==> Ended(rx.arrivals))
    && (PeerEnded(rx.arrivals) ==> rx.finReceivedOrRecvMsgDropped)
    && rx.stopSendings <= 1
    && (rx.stopSendings == 1 ==> rx.finReceivedOrRecvMsgDropped)
  }

  /** A message that carries no data changes no byte of the inbox. */
  lemma PlainMessage(rx: Rx, receives: bool, msg: Message)
    requires RxInv(rx, receives) && !msg.RecvData? && !msg.SwapSendData?
    ensures RxInv(RecvMessage(rx, receives, msg), receives)
    ensures RecvMessage(rx, receives, msg).arrivals == rx.arrivals
    ensures RecvMessage(rx, receives, msg).stopSendings > rx.stopSendings ==>
              rx.stopSendings == 0 && receives && !PeerEnded(rx.arrivals)
  {
    DataInAppend(rx.inbox, msg);
  }

  /** The data of a callback, before its event is looked at. */
  function TakeData(rx: Rx, receives: bool, data: Bytes): Rx {
    if data != [] && !rx.finReceivedOrRecvMsgDropped then RecvMessage(rx, receives, RecvData(data)) else rx
  }

  lemma TakeDataDelivers(rx: Rx, receives: bool, data: Bytes, event: PeerEvent)
    requires RxInv(rx, receives)
    ensures var t := TakeData(rx.(arrivals := rx.arrivals + [Arrived(data, event)]), receives, data);
      && t.arrivals == rx.arrivals + [Arrived(data, event)] && t.appRecv == rx.appRecv
      && DataIn(t.inbox) == (if receives then DueBytes(t.arrivals) else [])
      && (forall i :: 0 <= i < |t.inbox| ==> !t.inbox[i].SwapSendData?)
      && (!receives ==> t.finReceivedOrRecvMsgDropped && t.stopSendings == 0)
      && (t.finReceivedOrRecvMsgDropped ==> rx.finReceivedOrRecvMsgDropped || !rx.appRecv)
      && (rx.finReceivedOrRecvMsgDropped ==> t.finReceivedOrRecvMsgDropped)
      && t.stopSendings <= 1 && (t.stopSendings == 1 ==> t.finReceivedOrRecvMsgDropped)
      && (t.stopSendings > rx.stopSendings ==> rx.stopSendings == 0 && receives && !PeerEnded(rx.arrivals))
  {
    DueAppend(rx.arrivals, Arrived(data, event));
    DataInAppend(rx.inbox, RecvData(data));
  }

  lemma PeerEndedAppend(arrivals: seq<Arrival>, a: Arrival)
    ensures PeerEnded(arrivals + [a]) <==> PeerEnded(arrivals) || (a.Arrived? && EndsReceiving(a))
  {
    var longer := arrivals + [a];
    assert longer[|arrivals|] == a;
    if PeerEnded(arrivals) {
      var i :| 0 <= i < |arrivals| && arrivals[i].Arrived? && EndsReceiving(arrivals[i]);
      assert longer[i] == arrivals[i];
    }
  }

  lemma CallbackRx(rx: Rx, receives: bool, data: Bytes, event: PeerEvent)
    requires RxInv(rx, receives)
    ensures RxInv(Receive(rx, receives, data, event), receives)
    ensures Receive(rx, receives, data, event).stopSendings > rx.stopSendings ==>
              rx.stopSendings == 0 && receives && !PeerEnded(rx.arrivals)
  {
    var t := TakeData(rx.(arrivals := rx.arrivals + [Arrived(data, event)]), receives, data);
    TakeDataDelivers(rx, receives, data, event);
    EndedAppend(rx.arrivals, Arrived(data, event));
    PeerEndedAppend(rx.arrivals, Arrived(data, event));
    if event.StreamFin? || event.StreamReset? {
      var u := t.(finReceivedOrRecvMsgDropped := true);
      PlainMessage(u, receives, if event.StreamFin? then Close else Reset);
    }
  }

  lemma DropRx(s: State)
    requires RxInv(s.rx, CanReceive(s.id, s.isClientCon))
    ensures RxInv(AppDrop(s).rx, CanReceive(s.id, s.isClientCon))
  {
    DueAppend(s.rx.arrivals, ReceiverDropped);
    EndedAppend(s.rx.arrivals, ReceiverDropped);
    PeerEndedAppend(s.rx.arrivals, ReceiverDropped);
  }

  /** Every step keeps the receiving half in order; a stop-sending is asked for at most once, never
      after the peer's FIN or reset and never on a stream that only sends. */
  lemma StepRx(s: State, step: Step)
    requires DropOrder(s) && RxInv(s.rx, CanReceive(s.id, s.isClientCon))
    ensures RxInv(Apply(s, step).rx, CanReceive(s.id, s.isClientCon))
    ensures Apply(s, step).rx.stopSendings > s.rx.stopSendings ==>
              s.rx.stopSendings == 0 && CanReceive(s.id, s.isClientCon) && !PeerEnded(s.rx.arrivals)
  {
    var receives := CanReceive(s.id, s.isClientCon);
    assert MayStopSending(s.id, s.isClientCon) == receives;
    if Enabled(s, step) {
      match step
      case DoDrop => DropRx(s);
      case DoCallback(data, event) => CallbackRx(s.rx, receives, data, event);
      case DoConnectionError(err) => PlainMessage(s.rx, receives, Error(err));
      case DoConnectionClose => PlainMessage(s.rx, receives, Close);
      case DoRemove => if s.rx.appRecv { DataInAppend(s.rx.inbox, Close); }
      case _ =>
    }
  }

  lemma {:induction false} RunRx(s: State, steps: seq<Step>)
    requires DropOrder(s) && RxInv(s.rx, CanReceive(s.id, s.isClientCon))
    ensures DropOrder(Run(s, steps)) && RxInv(Run(s, steps).rx, CanReceive(s.id, s.isClientCon))
    decreases |steps|
  {
    if steps != [] {
      StepRx(s, steps[0]);
      StepDropOrder(s, steps[0]);
      RunRx(Apply(s, steps[0]), steps[1..]);
    }
  }

  /** In every run the application is given exactly the bytes that arrive up to the first FIN, reset
      or drop of its receiver (nothing at all on a stream that only sends), no swap message ever
      shows up in its queue, and stop-sending is asked for at most once. */
  lemma {:induction false} ReceivesExactlyWhatIsDue(id: nat, isClientCon: bool, steps: seq<Step>)
    ensures var rx := Run(Init(id, isClientCon), steps).rx;
      && DataIn(rx.inbox) == (if CanReceive(id, isClientCon) then DueBytes(rx.arrivals) else [])
      && (forall i :: 0 <= i < |rx.inbox| ==> !rx.inbox[i].SwapSendData?)
      && rx.stopSendings <= (if CanReceive(id, isClientCon) then 1 else 0)
  {
    InitInv(id, isClientCon);
    RunRx(Init(id, isClientCon), steps);
  }

  /** When stop-sending is asked for, the peer had neither finished nor reset the stream. And in
      every state where it could be asked for, the inner test on the direction holds already. */
  lemma {:induction false} StopSendingOnlyWhenUseful(id: nat, isClientCon: bool, steps: seq<Step>, step: Step)
    ensures var s := Run(Init(id, isClientCon), steps);
      && (Apply(s, step).rx.stopSendings > s.rx.stopSendings ==>
            s.rx.stopSendings == 0 && CanReceive(id, isClientCon) && !PeerEnded(s.rx.arrivals))
      && (!s.rx.finReceivedOrRecvMsgDropped ==> MayStopSending(id, isClientCon))
  {
    InitInv(id, isClientCon);
    RunRx(Init(id, isClientCon), steps);
    RunConstants(Init(id, isClientCon), steps);
    StepRx(Run(Init(id, isClientCon), steps), step);
  }
}
