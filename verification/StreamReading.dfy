/** Everything the application is told about the receiving half of a stream, and when the peer is
    asked to stop. */
module StreamReading {
  import opened Base
  import opened StreamIds
  import opened StreamModel
  import opened StreamInvariant
  import opened StreamReceiving
  import opened StreamSending

  function EndOf(event: PeerEvent): seq<Message> {
    match event
    case StreamReset => [Message.Reset]
    case StreamFin => [Close]
    case _ => []
  }

  /** The messages a step is worth to an application that holds its receiver: data until the peer has
      finished, every end the peer signals, and what happens to the connection and the context. */
  function Tells(s: State, step: Step): seq<Message> {
    if !Enabled(s, step) || !Listening(s.rx.arrivals) then [] else
    match step
    case DoCallback(data, event) =>
      (if data != [] && CanReceive(s.id, s.isClientCon) && !PeerEnded(s.rx.arrivals) then [RecvData(data)] else [])
      + EndOf(event)
    case DoConnectionError(err) => [Error(err)]
    case DoConnectionClose => [Close]
    case DoRemove => [Close]
    case _ => []
  }

  function ToldIn(s: State, steps: seq<Step>): seq<Message>
    decreases |steps|
  {
    if steps == [] then [] else Tells(s, steps[0]) + ToldIn(Apply(s, steps[0]), steps[1..])
  }

  /** While the application holds its receiver, the receiving half is over exactly when the peer said
      so; and once the context is removed, the last thing told is that. */
  ghost predicate TellInv(s: State) {
    && DropOrder(s)
    && (s.rx.appRecv <==> Listening(s.rx.arrivals))
    && (s.rx.appRecv ==>
          (s.rx.finReceivedOrRecvMsgDropped <==> !CanReceive(s.id, s.isClientCon) || PeerEnded(s.rx.arrivals)))
    && (s.tx.removed && s.rx.appRecv ==> s.rx.inbox != [] && s.rx.inbox[|s.rx.inbox| - 1] == Close)
  }

  lemma ListeningAppend(arrivals: seq<Arrival>, a: Arrival)
    ensures Listening(arrivals + [a]) <==> Listening(arrivals) && !a.ReceiverDropped?
  {
    ResetSeenAppend(arrivals, a);
  }

  lemma CallbackTells(rx: Rx, receives: bool, data: Bytes, event: PeerEvent)
    requires rx.appRecv ==> (rx.finReceivedOrRecvMsgDropped <==> !receives || PeerEnded(rx.arrivals))
    ensures var t := Receive(rx, receives, data, event);
      && t.appRecv == rx.appRecv && t.arrivals == rx.arrivals + [Arrived(data, event)]
      && (rx.appRecv ==> (t.finReceivedOrRecvMsgDropped <==> !receives || PeerEnded(t.arrivals)))
      && t.inbox == rx.inbox + if !rx.appRecv then [] else
           (if data != [] && receives && !PeerEnded(rx.arrivals) then [RecvData(data)] else []) + EndOf(event)
  {
    PeerEndedAppend(rx.arrivals, Arrived(data, event));
    var first := if data != [] && !rx.finReceivedOrRecvMsgDropped then [RecvData(data)] else [];
    assert rx.inbox + first + EndOf(event) == rx.inbox + (first + EndOf(event));
  }

  lemma StepTells(s: State, step: Step)
    requires TellInv(s)
    ensures TellInv(Apply(s, step)) && Apply(s, step).rx.inbox == s.rx.inbox + Tells(s, step)
  {
    StepDropOrder(s, step);
    if step.DoPollControl? { DrainControlFrame(s.tx); }
    if !step.DoRemove? { StepKeepsRemoved(s, step); }
    if Enabled(s, step) {
      match step
      case DoDrop => ListeningAppend(s.rx.arrivals, ReceiverDropped);
      case DoCallback(data, event) =>
        ListeningAppend(s.rx.arrivals, Arrived(data, event));
        CallbackTells(s.rx, CanReceive(s.id, s.isClientCon), data, event);
      case _ =>
    }
  }

  lemma MessagesAssoc(a: seq<Message>, b: seq<Message>, c: seq<Message>)
    ensures a + b + c == a + (b + c)
  {
  }

  lemma {:induction false} RunTells(s: State, steps: seq<Step>)
    requires TellInv(s)
    ensures TellInv(Run(s, steps)) && Run(s, steps).rx.inbox == s.rx.inbox + ToldIn(s, steps)
    decreases |steps|
  {
    if steps != [] {
      var t := Apply(s, steps[0]);
      StepTells(s, steps[0]);
      RunTells(t, steps[1..]);
      MessagesAssoc(s.rx.inbox, Tells(s, steps[0]), ToldIn(t, steps[1..]));
    }
  }

  lemma InitTells(id: nat, isClientCon: bool)
    ensures TellInv(Init(id, isClientCon)) && Init(id, isClientCon).rx.inbox == []
  {
    InitInv(id, isClientCon);
  }

  /** In every run the application's queue holds exactly the messages the run was worth, in order; and
      an application that still holds its receiver when the context goes is told of the end last. */
  lemma {:induction false} InboxIs(id: nat, isClientCon: bool, steps: seq<Step>)
    ensures var s := Run(Init(id, isClientCon), steps);
      && s.rx.inbox == ToldIn(Init(id, isClientCon), steps)
      && (s.tx.removed && s.rx.appRecv ==> s.rx.inbox != [] && s.rx.inbox[|s.rx.inbox| - 1] == Close)
  {
    InitTells(id, isClientCon);
    TellsFromEmpty(Init(id, isClientCon), steps);
  }

  lemma {:induction false} TellsFromEmpty(s: State, steps: seq<Step>)
    requires TellInv(s) && s.rx.inbox == []
    ensures TellInv(Run(s, steps)) && Run(s, steps).rx.inbox == ToldIn(s, steps)
  {
    RunTells(s, steps);
    assert s.rx.inbox + ToldIn(s, steps) == ToldIn(s, steps);
  }

  // ---------------------------------------------------------------- the end of the stream

  /** The peer finished the stream while the application still held its receiver. */
  predicate FinSeen(arrivals: seq<Arrival>) {
    exists i :: 0 <= i < |arrivals|
      && arrivals[i].Arrived? && arrivals[i].event.StreamFin? && Listening(arrivals[..i])
  }

  lemma FinSeenAppend(arrivals: seq<Arrival>, a: Arrival)
    ensures FinSeen(arrivals + [a]) <==> FinSeen(arrivals) || (Listening(arrivals) && a.Arrived? && a.event.StreamFin?)
  {
    var longer := arrivals + [a];
    assert longer[..|arrivals|] == arrivals && longer[|arrivals|] == a;
    if FinSeen(arrivals) {
      var i :| 0 <= i < |arrivals|
        && arrivals[i].Arrived? && arrivals[i].event.StreamFin? && Listening(arrivals[..i]);
      assert longer[i] == arrivals[i] && longer[..i] == arrivals[..i];
    }
    if FinSeen(longer) {
      var i :| 0 <= i < |longer| && longer[i].Arrived? && longer[i].event.StreamFin? && Listening(longer[..i]);
      if i < |arrivals| { assert longer[..i] == arrivals[..i]; }
    }
  }

  predicate EndsWithPeerOnly(steps: seq<Step>) {
    forall i :: 0 <= i < |steps| ==> !steps[i].DoConnectionClose? && !steps[i].DoRemove?
  }

  lemma StepFin(s: State, step: Step)
    requires TellInv(s) && (Close in s.rx.inbox <==> FinSeen(s.rx.arrivals))
    requires !step.DoConnectionClose? && !step.DoRemove?
    ensures Close in Apply(s, step).rx.inbox <==> FinSeen(Apply(s, step).rx.arrivals)
  {
    StepTells(s, step);
    if Enabled(s, step) {
      match step
      case DoDrop => FinSeenAppend(s.rx.arrivals, ReceiverDropped);
      case DoCallback(data, event) => CallbackFin(s.rx, CanReceive(s.id, s.isClientCon), data, event);
      case _ =>
    }
  }

  lemma CallbackFin(rx: Rx, receives: bool, data: Bytes, event: PeerEvent)
    requires rx.appRecv <==> Listening(rx.arrivals)
    requires Close in rx.inbox <==> FinSeen(rx.arrivals)
    ensures var t := Receive(rx, receives, data, event); Close in t.inbox <==> FinSeen(t.arrivals)
  {
    FinSeenAppend(rx.arrivals, Arrived(data, event));
  }

  lemma {:induction false} RunFin(s: State, steps: seq<Step>)
    requires TellInv(s) && (Close in s.rx.inbox <==> FinSeen(s.rx.arrivals)) && EndsWithPeerOnly(steps)
    ensures Close in Run(s, steps).rx.inbox <==> FinSeen(Run(s, steps).rx.arrivals)
    decreases |steps|
  {
    if steps != [] {
      StepTells(s, steps[0]);
      StepFin(s, steps[0]);
      RunFin(Apply(s, steps[0]), steps[1..]);
    }
  }

  /** As long as the connection lives and keeps the stream, the application is told of the end of the
      stream if and only if the peer's FIN arrived while the application held its receiver. */
  lemma {:induction false} FinIsReportedIff(id: nat, isClientCon: bool, steps: seq<Step>)
    requires EndsWithPeerOnly(steps)
    ensures var rx := Run(Init(id, isClientCon), steps).rx; Close in rx.inbox <==> FinSeen(rx.arrivals)
  {
    InitTells(id, isClientCon);
    RunFin(Init(id, isClientCon), steps);
  }

  /** A stream that only receives is finished exactly when its receiving half is; while the application
      holds its receiver, that is when the peer finished or reset it. */
  lemma {:induction false} ReceiveOnlyFinishes(id: nat, isClientCon: bool, steps: seq<Step>)
    requires !CanSend(id, isClientCon)
    ensures var s := Run(Init(id, isClientCon), steps);
      && (Finished(s) <==> s.rx.finReceivedOrRecvMsgDropped)
      && (s.rx.appRecv ==> (Finished(s) <==> PeerEnded(s.rx.arrivals)))
  {
    InitInv(id, isClientCon);
    InitTells(id, isClientCon);
    RunTells(Init(id, isClientCon), steps);
    RunConstants(Init(id, isClientCon), steps);
    FlagStaysSet(Init(id, isClientCon), steps);
  }

  // ---------------------------------------------------------------- what the reader gets

  /** The bytes a reader gets before the first message that is not data: it takes a close or a reset
      as the end of the stream and an error as an error. */
  function ReadBytes(inbox: seq<Message>): Bytes {
    if inbox == [] || !inbox[0].RecvData? then [] else inbox[0].data + ReadBytes(inbox[1..])
  }

  predicate OnlyData(inbox: seq<Message>) {
    forall i :: 0 <= i < |inbox| ==> inbox[i].RecvData?
  }

  lemma {:induction false} ReadAppend(inbox: seq<Message>, m: Message)
    ensures ReadBytes(inbox + [m]) == ReadBytes(inbox) + (if OnlyData(inbox) && m.RecvData? then m.data else [])
    decreases |inbox|
  {
    if inbox == [] {
      assert (inbox + [m])[1..] == [];
    } else {
      assert (inbox + [m])[1..] == inbox[1..] + [m];
      ReadAppend(inbox[1..], m);
      if inbox[0].RecvData? {
        assert OnlyData(inbox[1..]) ==> OnlyData(inbox) by {
          assert forall i :: 0 < i < |inbox| ==> inbox[i] == inbox[1..][i - 1];
        }
        Assoc(inbox[0].data, ReadBytes(inbox[1..]), if OnlyData(inbox[1..]) && m.RecvData? then m.data else []);
      }
    }
  }

  /** All data so far stands before the first end, and after an end none will follow. */
  ghost predicate ReadInv(s: State) {
    && ReadBytes(s.rx.inbox) == DataIn(s.rx.inbox)
    && (OnlyData(s.rx.inbox) || s.rx.finReceivedOrRecvMsgDropped || s.tx.removed)
  }

  lemma ReadMessage(inbox: seq<Message>, m: Message)
    requires ReadBytes(inbox) == DataIn(inbox) && (OnlyData(inbox) || !m.RecvData?)
    ensures ReadBytes(inbox + [m]) == DataIn(inbox + [m])
    ensures OnlyData(inbox + [m]) <==> OnlyData(inbox) && m.RecvData?
  {
    ReadAppend(inbox, m);
    DataInAppend(inbox, m);
    var longer := inbox + [m];
    assert longer[|inbox|] == m && forall i :: 0 <= i < |inbox| ==> longer[i] == inbox[i];
  }

  lemma CallbackRead(rx: Rx, receives: bool, data: Bytes, event: PeerEvent)
    requires ReadBytes(rx.inbox) == DataIn(rx.inbox) && (OnlyData(rx.inbox) || rx.finReceivedOrRecvMsgDropped)
    ensures var t := Receive(rx, receives, data, event);
      ReadBytes(t.inbox) == DataIn(t.inbox) && (OnlyData(t.inbox) || t.finReceivedOrRecvMsgDropped)
  {
    var u := TakeData(rx.(arrivals := rx.arrivals + [Arrived(data, event)]), receives, data);
    if data != [] && !rx.finReceivedOrRecvMsgDropped { ReadMessage(rx.inbox, RecvData(data)); }
    ReadMessage(u.inbox, Close);
    ReadMessage(u.inbox, Message.Reset);
  }

  lemma StepRead(s: State, step: Step)
    requires ReadInv(s) && !step.DoConnectionError? && !step.DoConnectionClose?
    ensures ReadInv(Apply(s, step))
  {
    if !step.DoRemove? { StepKeepsRemoved(s, step); }
    if Enabled(s, step) {
      match step
      case DoCallback(data, event) => CallbackRead(s.rx, MayStopSending(s.id, s.isClientCon), data, event);
      case DoRemove => ReadMessage(s.rx.inbox, Close);
      case _ =>
    }
  }

  predicate NoConnectionEnd(steps: seq<Step>) {
    forall i :: 0 <= i < |steps| ==> !steps[i].DoConnectionError? && !steps[i].DoConnectionClose?
  }

  lemma {:induction false} RunRead(s: State, steps: seq<Step>)
    requires ReadInv(s) && NoConnectionEnd(steps)
    ensures ReadInv(Run(s, steps))
    decreases |steps|
  {
    if steps != [] {
      StepRead(s, steps[0]);
      RunRead(Apply(s, steps[0]), steps[1..]);
    }
  }

  /** As long as the connection lives, a reader that reads to the end gets exactly the bytes due to it:
      no byte stands behind a close or a reset. */
  lemma {:induction false} ReaderGetsWhatIsDue(id: nat, isClientCon: bool, steps: seq<Step>)
    requires NoConnectionEnd(steps)
    ensures var rx := Run(Init(id, isClientCon), steps).rx;
      ReadBytes(rx.inbox) == if CanReceive(id, isClientCon) then DueBytes(rx.arrivals) else []
  {
    ReceivesExactlyWhatIsDue(id, isClientCon, steps);
    RunRead(Init(id, isClientCon), steps);
  }

  // ---------------------------------------------------------------- when the peer is asked to stop

  /** The step shows the context that the application no longer reads. */
  predicate ShowsDrop(s: State, step: Step) {
    match step
    case DoPollControl => !s.tx.appControl
    case DoCallback(data, _) => !s.rx.appRecv && data != []
    case DoConnectionError(_) => !s.rx.appRecv
    case DoConnectionClose => !s.rx.appRecv
    case _ => false
  }

  /** The peer ends the stream with this step. */
  predicate ShowsEnd(step: Step) {
    step.DoCallback? && (step.event.StreamFin? || step.event.StreamReset?)
  }

  /** The receiving half is over exactly from the first step on that shows the drop or the end; and
      stop-sending is asked for exactly by that step if it shows the drop and the stream receives. */
  lemma {:induction false} StopSendingIff(id: nat, isClientCon: bool, steps: seq<Step>, step: Step)
    ensures var s := Run(Init(id, isClientCon), steps);
      Enabled(s, step) ==>
        && (Apply(s, step).rx.finReceivedOrRecvMsgDropped <==>
              s.rx.finReceivedOrRecvMsgDropped || ShowsDrop(s, step) || ShowsEnd(step))
        && Apply(s, step).rx.stopSendings == s.rx.stopSendings
             + if CanReceive(id, isClientCon) && !s.rx.finReceivedOrRecvMsgDropped && ShowsDrop(s, step) then 1 else 0
  {
    var s := Run(Init(id, isClientCon), steps);
    RunConstants(Init(id, isClientCon), steps);
    InitInv(id, isClientCon);
    RunInv(Init(id, isClientCon), steps);
    RunRx(Init(id, isClientCon), steps);
    if Enabled(s, step) { StepStops(s, step); }
  }

  lemma StepStops(s: State, step: Step)
    requires Inv(s) && RxInv(s.rx, CanReceive(s.id, s.isClientCon)) && Enabled(s, step)
    ensures ApplyRx(s, step).finReceivedOrRecvMsgDropped <==>
      s.rx.finReceivedOrRecvMsgDropped || ShowsDrop(s, step) || ShowsEnd(step)
    ensures ApplyRx(s, step).stopSendings == s.rx.stopSendings
      + if CanReceive(s.id, s.isClientCon) && !s.rx.finReceivedOrRecvMsgDropped && ShowsDrop(s, step) then 1 else 0
  {
    match step
    case DoPollControl => DrainControlKeeps(s.tx);
    case DoCallback(data, event) => CallbackStops(s.rx, CanReceive(s.id, s.isClientCon), data, event);
    case _ =>
  }

  lemma CallbackStops(rx: Rx, receives: bool, data: Bytes, event: PeerEvent)
    ensures Receive(rx, receives, data, event).finReceivedOrRecvMsgDropped <==>
      rx.finReceivedOrRecvMsgDropped || (!rx.appRecv && data != []) || event.StreamFin? || event.StreamReset?
    ensures Receive(rx, receives, data, event).stopSendings == rx.stopSendings
      + if receives && !rx.finReceivedOrRecvMsgDropped && !rx.appRecv && data != [] then 1 else 0
  {
  }

  /** An application that drops a stream it was still reading makes the next control poll ask the peer
      to stop, unless the peer has finished or reset it. */
  lemma {:induction false} DropAsksToStop(id: nat, isClientCon: bool, steps: seq<Step>)
    ensures var s := Run(Init(id, isClientCon), steps);
      var t := Apply(Apply(Apply(Apply(s, DoDrop), DoDrop), DoDrop), DoPollControl);
      s.rx.appRecv && !s.tx.removed ==>
        && t.rx.finReceivedOrRecvMsgDropped
        && t.rx.stopSendings == if CanReceive(id, isClientCon) && !PeerEnded(s.rx.arrivals) then 1 else 0
  {
    var s := Run(Init(id, isClientCon), steps);
    InitTells(id, isClientCon);
    RunTells(Init(id, isClientCon), steps);
    RunConstants(Init(id, isClientCon), steps);
    NotAskedWhileListening(id, isClientCon, steps);
    if s.rx.appRecv && !s.tx.removed { DropThenPoll(s); }
  }

  lemma DropThenPoll(s: State)
    requires Inv(s) && TellInv(s) && s.rx.appRecv && !s.tx.removed && s.rx.stopSendings == 0
    ensures var t := Apply(Apply(Apply(Apply(s, DoDrop), DoDrop), DoDrop), DoPollControl);
      && t.rx.finReceivedOrRecvMsgDropped
      && t.rx.stopSendings == if CanReceive(s.id, s.isClientCon) && !PeerEnded(s.rx.arrivals) then 1 else 0
  {
    var a := Apply(s, DoDrop);
    var b := Apply(a, DoDrop);
    var c := Apply(b, DoDrop);
    StepInv(s, DoDrop);
    StepInv(a, DoDrop);
    StepInv(b, DoDrop);
    assert !a.rx.appRecv && !b.tx.appControl && c.rx.finReceivedOrRecvMsgDropped == s.rx.finReceivedOrRecvMsgDropped;
    DrainControlKeeps(c.tx);
  }

  ghost predicate Unasked(s: State) {
    Inv(s) && TellInv(s) && (s.rx.appRecv ==> s.rx.stopSendings == 0)
  }

  lemma {:induction false} RunUnasked(s: State, steps: seq<Step>)
    requires Unasked(s)
    ensures Unasked(Run(s, steps))
    decreases |steps|
  {
    if steps != [] {
      StepInv(s, steps[0]);
      StepTells(s, steps[0]);
      StepUnasked(s, steps[0]);
      RunUnasked(Apply(s, steps[0]), steps[1..]);
    }
  }

  lemma StepUnasked(s: State, step: Step)
    requires Unasked(s)
    ensures Apply(s, step).rx.appRecv ==> Apply(s, step).rx.stopSendings == 0
  {
    if step.DoCallback? { CallbackTells(s.rx, CanReceive(s.id, s.isClientCon), step.data, step.event); }
  }

  lemma {:induction false} NotAskedWhileListening(id: nat, isClientCon: bool, steps: seq<Step>)
    ensures Unasked(Run(Init(id, isClientCon), steps))
  {
    InitInv(id, isClientCon);
    InitTells(id, isClientCon);
    RunUnasked(Init(id, isClientCon), steps);
  }
}
