/** What every step of a stream keeps, whatever the application, the peer and picoquic do. */
module StreamInvariant {
  import opened Base
  import opened StreamIds
  import opened StreamModel
  import opened StreamChain

  function Held(tx: Tx): Bytes {
    if tx.ctx.activeBuffer.Some? then tx.ctx.activeBuffer.value else []
  }

  function PipeOf(tx: Tx): Bytes {
    Pipe(tx.link, tx.ctx.sendData)
  }

  /** Everything handed to picoquic followed by everything that still can be. */
  function Total(tx: Tx): Bytes {
    tx.quic.handed + Held(tx) + PipeOf(tx)
  }

  ghost predicate ChainOf(tx: Tx) {
    Chain(tx.link, tx.ctx.sendData)
  }

  ghost predicate NothingLeft(tx: Tx) {
    tx.ctx.sendData.Some? ==> Drained(tx.link, tx.ctx.sendData.value)
  }

  ghost predicate Shape(tx: Tx) {
    && ChainOf(tx)
    && !tx.ctx.panicked
    && (tx.removed ==> tx.ctx.sendData.None? && tx.link.control == [])
    && (!tx.canSend ==> tx.ctx.sendData.None? && tx.link.appSender.None?)
    && (tx.aborted ==> tx.ctx.sendData.None?)
    && (tx.ctx.sendData.None? && !tx.aborted && !tx.removed ==> tx.link.appSender.None?)
    && (tx.quic.finGiven ==> tx.ctx.activeBuffer.None? && NothingLeft(tx))
    && (tx.ctx.stopSendingOrFinSent ==> NothingLeft(tx))
    && (tx.ctx.dataSend ==> tx.quic.handed + Held(tx) != [])
    && (tx.quic.handed != [] ==> tx.ctx.dataSend)
  }

  /** Bytes are never reordered, repeated or invented. */
  ghost predicate Ordered(tx: Tx) {
    Subsequence(Total(tx), tx.accepted)
  }

  /** The stream is never forgotten by picoquic while bytes or a FIN are due, and counts as finished
      only after a FIN or after being reset without a single byte. */
  ghost predicate Served(tx: Tx) {
    tx.canSend && !tx.aborted && !tx.removed ==>
      && (tx.ctx.activeBuffer.Some? ==> tx.quic.active)
      && (tx.ctx.sendData.None? && !tx.ctx.stopSendingOrFinSent ==> tx.quic.active)
      && (tx.ctx.stopSendingOrFinSent ==>
            || tx.quic.finGiven
            || (tx.quic.resets > 0 && !tx.ctx.dataSend && tx.ctx.activeBuffer.None? && tx.ctx.sendData.None?))
      && (tx.ctx.sendData.None? && !tx.ctx.dataSend ==> tx.quic.resets > 0 && tx.ctx.stopSendingOrFinSent)
  }

  /** The fields of a `Stream` are dropped in order, and the two halves belong to one stream. */
  ghost predicate DropOrder(s: State) {
    && s.tx.canSend == CanSend(s.id, s.isClientCon)
    && (s.tx.canSend && s.tx.link.appSender.None? ==> !s.tx.appControl)
    && (!s.tx.appControl ==> !s.rx.appRecv)
  }

  ghost predicate Inv(s: State) {
    Shape(s.tx) && Ordered(s.tx) && Served(s.tx) && DropOrder(s)
  }

  lemma InitInv(id: nat, isClientCon: bool)
    ensures Inv(Init(id, isClientCon))
    ensures Total(Init(id, isClientCon).tx) == []
  {
  }

  /** Losing the receivers loses the bytes in them and nothing else. */
  lemma DropPipe(tx: Tx, tx': Tx)
    requires Ordered(tx)
    requires tx'.ctx.sendData.None?
    requires tx'.quic.handed == tx.quic.handed && Held(tx') == Held(tx) && tx'.accepted == tx.accepted
    ensures Ordered(tx')
  {
    assert Total(tx) == (tx.quic.handed + Held(tx)) + PipeOf(tx) + [];
    SubsequenceCut(tx.quic.handed + Held(tx), PipeOf(tx), [], tx.accepted);
    assert Total(tx') == (tx.quic.handed + Held(tx)) + [];
  }

  // ---------------------------------------------------------------- the application's steps

  /** An accepted buffer goes to the very end of everything on its way. */
  lemma StartSendTotal(tx: Tx, buf: Bytes, full: bool)
    requires ChainOf(tx) && tx.ctx.sendData.Some? && SendResult(tx, full) == Accepted
    ensures Total(StartSend(tx, buf, full)) == Total(tx) + buf
  {
    PipePush(tx.link, tx.ctx.sendData.value, buf);
    Assoc(tx.quic.handed + Held(tx), PipeOf(tx), buf);
  }

  lemma StartSendShape(tx: Tx, buf: Bytes, full: bool)
    requires Shape(tx)
    ensures Shape(StartSend(tx, buf, full))
  {
  }

  lemma StartSendOrdered(tx: Tx, buf: Bytes, full: bool)
    requires Shape(tx) && Ordered(tx)
    ensures Ordered(StartSend(tx, buf, full))
  {
    if SendResult(tx, full) == Accepted {
      if tx.ctx.sendData.Some? {
        StartSendTotal(tx, buf, full);
        SubsequenceAppend(Total(tx), tx.accepted, buf);
      } else {
        SubsequenceGrow(Total(tx), tx.accepted, buf);
      }
    }
  }

  lemma ResizeKeeps(tx: Tx)
    requires Shape(tx)
    ensures Shape(Resize(tx)) && Total(Resize(tx)) == Total(tx)
  {
    if tx.link.appSender.Some? {
      if tx.ctx.sendData.Some? { PipeResize(tx.link, tx.ctx.sendData.value); }
      assert Chain(Resize(tx).link, tx.ctx.sendData);
      assert PipeOf(Resize(tx)) == PipeOf(tx);
    }
  }

  lemma AppResetKeeps(tx: Tx)
    requires Shape(tx)
    ensures Shape(AppReset(tx)) && Total(AppReset(tx)) == Total(tx)
  {
    if !tx.removed {
      var control' := tx.link.control + [Reset];
      OnControlAppend(tx.link.control, Reset, tx.link.channels);
      assert HasSwap(control') ==> HasSwap(tx.link.control);
      if tx.ctx.sendData.Some? {
        ChainAppendReset(Tail(tx.ctx.sendData.value), tx.link.control, |tx.link.channels| - 1);
      }
    }
  }

  lemma AppDropKeeps(s: State)
    requires Shape(s.tx)
    ensures Shape(AppDrop(s).tx) && Total(AppDrop(s).tx) == Total(s.tx)
  {
  }

  // ---------------------------------------------------------------- the control queue

  /** The bytes of the receiver that is already waiting to be swapped in. */
  function Waiting(link: Link, sw: Swappable): Bytes {
    if sw.swapTo.Some? then Flatten(Queue(link.channels, sw.swapTo.value)) else []
  }

  /** A swap message discards exactly the bytes of the receiver that was already waiting. */
  lemma SwapMessageTotal(tx: Tx)
    requires tx.ctx.sendData.Some? && tx.link.control != [] && tx.link.control[0].SwapSendData?
    ensures var sw := tx.ctx.sendData.value;
      var front := tx.quic.handed + Held(tx) + Flatten(Queue(tx.link.channels, sw.active));
      && Total(tx) == front + Waiting(tx.link, sw) + OnControl(tx.link.control, tx.link.channels)
      && Total(NextControl(tx)) == front + OnControl(tx.link.control, tx.link.channels)
  {
    var sw := tx.ctx.sendData.value;
    var r := Flatten(Queue(tx.link.channels, tx.link.control[0].receiver));
    var f := Flatten(Queue(tx.link.channels, sw.active));
    var rest := OnControl(tx.link.control[1..], tx.link.channels);
    var before := tx.quic.handed + Held(tx);
    Assoc(before, f, Waiting(tx.link, sw));
    Assoc(before, f + Waiting(tx.link, sw), OnControl(tx.link.control, tx.link.channels));
    Assoc(f, r, rest);
    Assoc(before, f, r + rest);
    assert PipeOf(NextControl(tx)) == f + r + rest;
  }

  lemma RestHasSwap(control: seq<Message>)
    requires control != []
    ensures HasSwap(control) <==> control[0].SwapSendData? || HasSwap(control[1..])
  {
    if HasSwap(control[1..]) {
      var i :| 0 <= i < |control[1..]| && control[1..][i].SwapSendData?;
      assert control[i + 1].SwapSendData?;
    }
    if HasSwap(control) && !control[0].SwapSendData? {
      var i :| 0 <= i < |control| && control[i].SwapSendData?;
      assert control[1..][i - 1].SwapSendData?;
    }
  }

  lemma NextControlShape(tx: Tx)
    requires Shape(tx) && tx.link.control != []
    ensures Shape(NextControl(tx))
    ensures Served(tx) ==> Served(NextControl(tx))
  {
    RestHasSwap(tx.link.control);
    if tx.link.control[0].SwapSendData? && tx.ctx.sendData.Some? {
      ChainSenders(tx.link.control[0].receiver, tx.link.control[1..], |tx.link.channels| - 1);
    }
  }

  lemma SwapMessageOrdered(tx: Tx)
    requires Ordered(tx) && tx.ctx.sendData.Some? && tx.link.control != [] && tx.link.control[0].SwapSendData?
    ensures Ordered(NextControl(tx))
  {
    var sw := tx.ctx.sendData.value;
    SwapMessageTotal(tx);
    SubsequenceCut(tx.quic.handed + Held(tx) + Flatten(Queue(tx.link.channels, sw.active)), Waiting(tx.link, sw),
                   OnControl(tx.link.control, tx.link.channels), tx.accepted);
  }

  lemma NextControlOrdered(tx: Tx)
    requires Ordered(tx) && tx.link.control != []
    ensures Ordered(NextControl(tx))
  {
    if tx.link.control[0].Reset? {
      DropPipe(tx, NextControl(tx));
    } else if tx.link.control[0].SwapSendData? && tx.ctx.sendData.Some? {
      SwapMessageOrdered(tx);
    } else {
      OtherMessageTotal(tx);
    }
  }

  lemma OtherMessageTotal(tx: Tx)
    requires tx.link.control != [] && !tx.link.control[0].Reset?
    requires tx.link.control[0].SwapSendData? ==> tx.ctx.sendData.None?
    ensures Total(NextControl(tx)) == Total(tx) && NextControl(tx).accepted == tx.accepted
  {
  }

  lemma {:induction false} DrainControlKeeps(tx: Tx)
    requires Shape(tx) && Ordered(tx) && Served(tx)
    ensures Shape(DrainControl(tx)) && Ordered(DrainControl(tx)) && Served(DrainControl(tx))
    ensures DrainControl(tx).link.control == []
    decreases |tx.link.control|
  {
    if tx.link.control != [] {
      NextControlShape(tx);
      NextControlOrdered(tx);
      DrainControlKeeps(NextControl(tx));
    }
  }

  /** What taking messages off the control queue leaves alone. */
  ghost predicate ControlFrame(tx: Tx, t: Tx) {
    && t.canSend == tx.canSend && t.appControl == tx.appControl && t.removed == tx.removed && t.accepted == tx.accepted
    && t.link.appSender == tx.link.appSender && t.link.channels == tx.link.channels
    && t.quic.active == tx.quic.active && t.quic.handed == tx.quic.handed && t.quic.finGiven == tx.quic.finGiven
    && t.ctx.activeBuffer == tx.ctx.activeBuffer && t.ctx.dataSend == tx.ctx.dataSend
    && (tx.ctx.sendData.None? ==> t.ctx.sendData.None?)
    && (tx.ctx.stopSendingOrFinSent ==> t.ctx.stopSendingOrFinSent)
    && (tx.aborted ==> t.aborted)
    && (!t.aborted ==>
          && t.ctx.stopSendingOrFinSent == tx.ctx.stopSendingOrFinSent
          && t.ctx.sendData.Some? == tx.ctx.sendData.Some?
          && t.quic.resets == tx.quic.resets)
  }

  lemma NextControlFrame(tx: Tx)
    requires tx.link.control != []
    ensures ControlFrame(tx, NextControl(tx))
  {
    ControlMessageFrame(tx.(link := tx.link.(control := tx.link.control[1..])), tx.link.control[0]);
  }

  lemma ControlMessageFrame(tx: Tx, msg: Message)
    ensures ControlFrame(tx, ControlMessage(tx, msg))
  {
    match msg
    case Reset => assert ControlMessage(tx, msg) == ResetStream(tx.(aborted := true));
    case _ =>
  }

  lemma {:induction false} DrainControlFrame(tx: Tx)
    ensures ControlFrame(tx, DrainControl(tx))
    decreases |tx.link.control|
  {
    if !tx.ctx.panicked && tx.link.control != [] {
      NextControlFrame(tx);
      DrainControlFrame(NextControl(tx));
    }
  }

  // ---------------------------------------------------------------- polling and sending

  lemma PollDataItem(tx: Tx)
    requires ChainOf(tx) && tx.ctx.activeBuffer.None? && tx.ctx.sendData.Some?
    requires PollSend(tx.link, tx.ctx.sendData.value).0.Item?
    ensures var t := PollData(tx); t.quic.handed == tx.quic.handed && Held(t) + PipeOf(t) == PipeOf(tx)
  {
    PollSendPipe(tx.link, tx.ctx.sendData.value);
  }

  lemma DroppedFrame(tx: Tx)
    ensures var t := HandleSendDataDropped(tx);
      && t.quic.handed == tx.quic.handed && t.ctx.activeBuffer == tx.ctx.activeBuffer && t.ctx.sendData.None?
      && t.link == tx.link && t.quic.finGiven == tx.quic.finGiven && t.ctx.dataSend == tx.ctx.dataSend
      && t.quic.resets == tx.quic.resets + (if !tx.ctx.dataSend && tx.ctx.activeBuffer.None? then 1 else 0)
  {
  }

  lemma PollDataIdle(tx: Tx)
    requires ChainOf(tx) && tx.ctx.activeBuffer.None? && tx.ctx.sendData.Some?
    requires !PollSend(tx.link, tx.ctx.sendData.value).0.Item?
    ensures var t := PollData(tx); t.quic.handed == tx.quic.handed && Held(t) == [] && PipeOf(t) == PipeOf(tx)
  {
    var (r, link, sw) := PollSend(tx.link, tx.ctx.sendData.value);
    PollSendPipe(tx.link, tx.ctx.sendData.value);
    if r.End? {
      PollSendResult(tx.link, tx.ctx.sendData.value);
      DrainedPipe(link, sw);
      DroppedFrame(tx);
      assert PollData(tx) == HandleSendDataDropped(tx);
    } else {
      assert PollData(tx) == tx.(ctx := tx.ctx.(sendData := Some(sw)));
    }
  }

  lemma PollDataTotal(tx: Tx)
    requires ChainOf(tx)
    ensures Total(PollData(tx)) == Total(tx)
  {
    if tx.ctx.activeBuffer.None? && tx.ctx.sendData.Some? {
      if PollSend(tx.link, tx.ctx.sendData.value).0.Item? {
        PollDataItem(tx);
        var t := PollData(tx);
        Assoc(tx.quic.handed, Held(t), PipeOf(t));
        Assoc(tx.quic.handed, [], PipeOf(tx));
      } else {
        PollDataIdle(tx);
      }
    }
  }

  lemma PollDataKeeps(tx: Tx)
    requires Shape(tx) && !tx.removed
    ensures Shape(PollData(tx))
    ensures Served(tx) ==> Served(PollData(tx))
  {
    if tx.ctx.activeBuffer.None? && tx.ctx.sendData.Some? {
      PollSendChain(tx.link, tx.ctx.sendData.value);
    }
  }

  /** What one prepare-to-send takes out of the stream, what picoquic gets of it, and what the
      flags then say. */
  ghost predicate Prepared(tx: Tx, maxLength: nat, t: Tx, all: Bytes) {
    && Held(tx) + PipeOf(tx) == all + PipeOf(t)
    && Held(tx) <= all
    && t.quic.handed == tx.quic.handed + all[..Min(maxLength, |all|)]
    && Held(t) == all[Min(maxLength, |all|)..]
    && (t.ctx.activeBuffer.Some? <==> |all| > maxLength)
    && (t.quic.active <==> |all| > maxLength)
    && (t.ctx.dataSend <==> tx.ctx.dataSend || |all| > 0)
    && (t.ctx.stopSendingOrFinSent ==> |all| <= maxLength && PipeOf(t) == [] && NothingLeft(t))
    && (!t.ctx.stopSendingOrFinSent && |all| <= maxLength ==>
          && t.ctx.sendData.Some? && Items(t.link.channels, t.ctx.sendData.value) == 0
          && (t.link.appSender.Some? || HasSwap(t.link.control)))
    && (t.quic.finGiven <==> tx.quic.finGiven || t.ctx.stopSendingOrFinSent)
    && t.ctx.sendData.Some? == tx.ctx.sendData.Some?
  }

  lemma PrepareEffect(tx: Tx, maxLength: nat) returns (all: Bytes)
    requires ChainOf(tx)
    ensures ChainOf(PrepareToSend(tx, maxLength))
    ensures Prepared(tx, maxLength, PrepareToSend(tx, maxLength), all)
  {
    var start := ActiveBuffers(tx);
    assert Flatten(start) == Held(tx) by {
      if tx.ctx.activeBuffer.Some? { assert Flatten(start) == start[0] + Flatten(start[1..]); }
    }
    CollectChain(tx.link, tx.ctx.sendData, maxLength, start);
    all := Flatten(Collect(tx.link, tx.ctx.sendData, maxLength, start).bufs);
  }

  /** The panic of the copy loop is not reached: it needs two buffers with bytes left. */
  lemma PrepareNoPanic(tx: Tx, maxLength: nat)
    ensures PrepareToSend(tx, maxLength).ctx.panicked == tx.ctx.panicked
  {
    var start := ActiveBuffers(tx);
    assert forall j :: 0 <= j < |start| ==> start[..j] == [];
    CollectFits(tx.link, tx.ctx.sendData, maxLength, start);
    OneLeftover(Collect(tx.link, tx.ctx.sendData, maxLength, start).bufs, maxLength);
  }

  lemma PrepareTotal(tx: Tx, maxLength: nat)
    requires ChainOf(tx)
    ensures Total(PrepareToSend(tx, maxLength)) == Total(tx)
  {
    var t := PrepareToSend(tx, maxLength);
    var all := PrepareEffect(tx, maxLength);
    SplitTotal(tx.quic.handed, all, Min(maxLength, |all|), PipeOf(t));
    Assoc(tx.quic.handed, Held(tx), PipeOf(tx));
  }

  lemma SplitTotal(a: Bytes, all: Bytes, n: nat, p: Bytes)
    requires n <= |all|
    ensures a + all[..n] + all[n..] + p == a + (all + p)
    ensures a + all[..n] + all[n..] == a + all
  {
    assert all[..n] + all[n..] == all;
    Assoc(a, all[..n], all[n..]);
    Assoc(a, all, p);
  }

  lemma PrepareKeeps(tx: Tx, maxLength: nat)
    requires Shape(tx) && !tx.removed
    ensures Shape(PrepareToSend(tx, maxLength))
    ensures Served(tx) ==> Served(PrepareToSend(tx, maxLength))
    ensures tx.quic.finGiven ==> PrepareToSend(tx, maxLength).quic.handed == tx.quic.handed
  {
    var t := PrepareToSend(tx, maxLength);
    PrepareNoPanic(tx, maxLength);
    var all := PrepareEffect(tx, maxLength);
    SplitTotal(tx.quic.handed, all, Min(maxLength, |all|), []);
    if tx.quic.finGiven {
      if tx.ctx.sendData.Some? { DrainedPipe(tx.link, tx.ctx.sendData.value); }
      assert all == [];
    }
  }

  lemma PropagateErrorKeeps(tx: Tx, err: ErrorCode)
    requires Shape(tx)
    ensures Shape(PropagateError(tx, err)) && Total(PropagateError(tx, err)) == Total(tx)
    ensures Served(tx) ==> Served(PropagateError(tx, err))
  {
    if tx.ctx.sendData.Some? {
      OnControlFrame(tx.link.control, tx.link.channels, PropagateError(tx, err).link.channels);
    }
  }

  // ---------------------------------------------------------------- every step, every run

  lemma StepShape(s: State, step: Step)
    requires Shape(s.tx) && Ordered(s.tx) && Served(s.tx) && Enabled(s, step)
    ensures Shape(ApplyTx(s, step))
  {
    match step
    case DoSend(buf, full) => StartSendShape(s.tx, buf, full);
    case DoResize => ResizeKeeps(s.tx);
    case DoReset => AppResetKeeps(s.tx);
    case DoDrop => AppDropKeeps(s);
    case DoPollControl => DrainControlKeeps(s.tx);
    case DoPollData => PollDataKeeps(s.tx);
    case DoPrepare(maxLength) => PrepareKeeps(s.tx, maxLength);
    case DoConnectionError(err) => PropagateErrorKeeps(s.tx, err);
    case _ =>
  }

  lemma AppStepOrdered(s: State, step: Step)
    requires Shape(s.tx) && Ordered(s.tx) && IsAppStep(step)
    ensures Ordered(ApplyTx(s, step))
  {
    match step
    case DoSend(buf, full) => StartSendOrdered(s.tx, buf, full);
    case DoResize => ResizeKeeps(s.tx);
    case DoReset => AppResetKeeps(s.tx);
    case DoDrop => AppDropKeeps(s);
  }

  lemma ContextStepOrdered(s: State, step: Step)
    requires Shape(s.tx) && Ordered(s.tx) && Served(s.tx) && !IsAppStep(step)
    ensures Ordered(ApplyTx(s, step))
  {
    match step
    case DoPollControl => DrainControlKeeps(s.tx);
    case DoPollData => PollDataTotal(s.tx);
    case DoPrepare(maxLength) => PrepareTotal(s.tx, maxLength);
    case DoCallback(_, event) => if event.StopSending? { DropPipe(s.tx, StopSend(s.tx)); }
    case DoConnectionError(err) => PropagateErrorKeeps(s.tx, err);
    case DoConnectionClose =>
    case DoRemove => DropPipe(s.tx, RemoveTx(s.tx));
  }

  lemma StepServed(s: State, step: Step)
    requires Shape(s.tx) && Ordered(s.tx) && Served(s.tx) && Enabled(s, step)
    ensures Served(ApplyTx(s, step))
  {
    match step
    case DoPollControl => DrainControlKeeps(s.tx);
    case DoPollData => PollDataKeeps(s.tx);
    case DoPrepare(maxLength) => PrepareKeeps(s.tx, maxLength);
    case DoConnectionError(err) => PropagateErrorKeeps(s.tx, err);
    case _ =>
  }

  lemma StepDropOrder(s: State, step: Step)
    requires DropOrder(s)
    ensures DropOrder(Apply(s, step))
  {
    if step.DoPollControl? {
      DrainControlFrame(s.tx);
    } else if step.DoDrop? {
      DropKeepsOrder(s);
    }
  }

  lemma DropKeepsOrder(s: State)
    requires DropOrder(s)
    ensures DropOrder(AppDrop(s))
  {
  }

  /** Every step keeps the invariant. */
  lemma StepInv(s: State, step: Step)
    requires Inv(s)
    ensures Inv(Apply(s, step))
  {
    StepDropOrder(s, step);
    if Enabled(s, step) {
      StepShape(s, step);
      if IsAppStep(step) { AppStepOrdered(s, step); } else { ContextStepOrdered(s, step); }
      StepServed(s, step);
    }
  }

  lemma {:induction false} RunInv(s: State, steps: seq<Step>)
    requires Inv(s)
    ensures Inv(Run(s, steps))
    decreases |steps|
  {
    if steps != [] {
      StepInv(s, steps[0]);
      RunInv(Apply(s, steps[0]), steps[1..]);
    }
  }
}
