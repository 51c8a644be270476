/** What happens to a stream that the application drops, until the connection forgets it. */
module StreamDropping {
  import opened Base
  import opened StreamIds
  import opened StreamModel
  import opened StreamChain
  import opened StreamInvariant
  import opened StreamSending

  function Dropped(s: State): State {
    Apply(Apply(Apply(s, DoDrop), DoDrop), DoDrop)
  }

  lemma DropOnce(s: State)
    requires Inv(s)
    ensures var d := Apply(s, DoDrop);
      && Inv(d) && d.tx.ctx == s.tx.ctx && d.tx.quic == s.tx.quic && d.tx.accepted == s.tx.accepted
      && d.tx.canSend == s.tx.canSend && Intact(d.tx) == Intact(s.tx)
      && d.tx.link.control == s.tx.link.control && d.tx.link.channels == s.tx.link.channels
      && (!s.rx.appRecv ==> !d.tx.appControl || d == s || d.tx.link.appSender.None?)
  {
    StepInv(s, DoDrop);
  }

  /** Three drops release everything the application holds of a stream. */
  lemma DroppedIsGone(s: State)
    requires Inv(s)
    ensures Inv(Dropped(s)) && Dropped(s).tx.link.appSender.None? && Dropped(s).tx.accepted == s.tx.accepted
    ensures !Dropped(s).tx.appControl && Dropped(s).tx.canSend == s.tx.canSend && Intact(Dropped(s).tx) == Intact(s.tx)
    ensures Dropped(s).tx.ctx == s.tx.ctx && Dropped(s).tx.quic == s.tx.quic
    ensures Dropped(s).tx.link == Link(None, s.tx.link.control, s.tx.link.channels)
  {
    var d1 := AppDrop(s);
    var d2 := AppDrop(d1);
    DropOnce(s);
    DropOnce(d1);
    DropOnce(d2);
    assert !d1.rx.appRecv;
    assert !d2.rx.appRecv && !d2.tx.appControl;
  }

  /** Dropping a stream takes three steps, and the sender goes last: after two of them the context can
      see that the application is gone, but the send channel has not ended. */
  lemma {:induction false} SenderGoesLast(id: nat, isClientCon: bool, steps: seq<Step>)
    ensures var s := Run(Init(id, isClientCon), steps);
      var d := Apply(Apply(s, DoDrop), DoDrop);
      s.rx.appRecv ==>
        && !d.rx.appRecv && !d.tx.appControl && (CanSend(id, isClientCon) ==> d.tx.link.appSender.Some?)
        && (d.tx.ctx.sendData.Some? ==> !PollSend(d.tx.link, d.tx.ctx.sendData.value).0.End?)
        && Apply(d, DoDrop).tx.link.appSender.None?
  {
    InvOfRun(id, isClientCon, steps);
    RunConstants(Init(id, isClientCon), steps);
    var s := Run(Init(id, isClientCon), steps);
    var d := Apply(Apply(s, DoDrop), DoDrop);
    StepInv(s, DoDrop);
    StepInv(Apply(s, DoDrop), DoDrop);
    if s.rx.appRecv && d.tx.ctx.sendData.Some? { PollSendResult(d.tx.link, d.tx.ctx.sendData.value); }
  }

  /** The application drops the stream and the context is polled once. */
  function Ending(): seq<Step> {
    [DoDrop, DoDrop, DoDrop, DoPollControl, DoPollData]
  }

  lemma DroppedIsPolled(s: State)
    requires Inv(s) && s.tx.link.appSender.None? && !s.tx.appControl
    requires var t := Apply(Apply(s, DoPollControl), DoPollData).tx; Intact(t) && Total(t) == t.accepted
    ensures var t := Apply(s, DoPollControl);
      && Gone(t) && t.tx.accepted == s.tx.accepted && t.rx.finReceivedOrRecvMsgDropped && t.tx.canSend == s.tx.canSend
      && t.tx.quic.resets == s.tx.quic.resets && t.tx.quic.finGiven == s.tx.quic.finGiven
      && t.tx.ctx.sendData.Some? == s.tx.ctx.sendData.Some?
  {
    var t := Apply(s, DoPollControl);
    StepIntact(t, DoPollData);
    StepIntact(s, DoPollControl);
    StepInv(s, DoPollControl);
    PollDataTotal(t.tx);
    PollDataAccepted(t.tx);
    DrainControlKeeps(s.tx);
    DrainControlFrame(s.tx);
  }

  /** The stream ends without a byte: nothing was accepted and not even an empty buffer is held. */
  predicate EndsEmpty(tx: Tx) {
    tx.accepted == [] && tx.ctx.activeBuffer.None?
  }

  /** The data poll after the application is gone: the stream is reset if it ends empty and is
      otherwise left to picoquic, which keeps asking or already has the FIN. */
  lemma PollDataGone(s: State)
    requires Gone(s) && s.tx.canSend
    ensures var t := Apply(s, DoPollData);
      && Gone(t) && t.tx.accepted == s.tx.accepted && t.rx == s.rx && t.tx.quic.finGiven == s.tx.quic.finGiven
      && if EndsEmpty(t.tx) then
           && t.tx.ctx.stopSendingOrFinSent && t.tx.quic.resets > 0
           && (s.tx.ctx.sendData.Some? ==> t.tx.quic.resets == s.tx.quic.resets + 1)
         else
           t.tx.quic.resets == s.tx.quic.resets && AskedOrDone(t.tx)
  {
    StepInv(s, DoPollData);
    PollDataTotal(s.tx);
    PollDataAccepted(s.tx);
    PollDataEnds(s.tx);
  }

  /** A data poll leaves no buffer held exactly if there was none to be found. */
  lemma PollDataFinds(tx: Tx)
    requires ChainOf(tx) && tx.link.appSender.None? && tx.link.control == []
    ensures PollData(tx).ctx.activeBuffer.None? <==>
      tx.ctx.activeBuffer.None? && (tx.ctx.sendData.Some? ==> Items(tx.link.channels, tx.ctx.sendData.value) == 0)
  {
    if tx.ctx.activeBuffer.None? && tx.ctx.sendData.Some? {
      PollSendResult(tx.link, tx.ctx.sendData.value);
      DroppedFrame(tx);
    }
  }

  /** With no sender left a data poll finds a buffer or the end. */
  lemma PollDataEnds(tx: Tx)
    requires ChainOf(tx) && tx.link.appSender.None? && tx.link.control == []
    ensures var t := PollData(tx);
      && t.link.appSender.None? && t.link.control == [] && t.quic.finGiven == tx.quic.finGiven
      && (t.ctx.activeBuffer.Some? ==> t.quic.resets == tx.quic.resets)
      && (t.ctx.activeBuffer.None? ==>
            && t.ctx.sendData.None? && t.ctx.dataSend == tx.ctx.dataSend
            && t.quic.resets == tx.quic.resets + (if tx.ctx.sendData.Some? && !tx.ctx.dataSend then 1 else 0))
  {
    if tx.ctx.activeBuffer.None? && tx.ctx.sendData.Some? {
      PollSendResult(tx.link, tx.ctx.sendData.value);
      var (r, link, sw) := PollSend(tx.link, tx.ctx.sendData.value);
      if r.End? {
        assert PollData(tx) == HandleSendDataDropped(tx);
        DroppedFrame(tx);
      } else {
        assert r.Item? && PollData(tx).ctx.activeBuffer == Some(r.buf);
      }
    }
  }

  lemma EndingIs(s: State)
    ensures Run(s, Ending()) == Apply(Apply(Dropped(s), DoPollControl), DoPollData)
  {
    var u := Apply(Dropped(s), DoPollControl);
    RunFour(s, DoDrop, DoDrop, DoDrop, DoPollControl);
    assert Ending() == [DoDrop, DoDrop, DoDrop, DoPollControl] + [DoPollData];
    RunConcat(s, [DoDrop, DoDrop, DoDrop, DoPollControl], [DoPollData]);
    assert Run(u, [DoPollData]) == Run(Apply(u, DoPollData), []);
  }

  // ---------------------------------------------------------------- which streams end empty

  function LastOf(cs: seq<ChannelId>): Option<ChannelId> {
    if cs == [] then None else Some(cs[|cs| - 1])
  }

  /** A control poll without a reset keeps the receiver in use and the last of those waiting. */
  lemma {:induction false} DrainLeavesLastWaiter(tx: Tx)
    requires ControlMessages(tx.link.control) && !tx.ctx.panicked && tx.ctx.sendData.Some? && !DrainControl(tx).aborted
    ensures var sw := tx.ctx.sendData.value;
      DrainControl(tx).ctx.sendData == Some(Swappable(sw.active, LastOf(Waiters(tx.link, sw))))
    decreases |tx.link.control|
  {
    if tx.link.control != [] {
      var t := NextControl(tx);
      DrainControlFrame(t);
      assert tx.link.control[0].SwapSendData?;
      DrainLeavesLastWaiter(t);
      assert Waiters(t.link, t.ctx.sendData.value) == Receivers(tx.link.control);
    }
  }

  /** The stream has no byte to deliver, and not even an empty buffer where a poll would find it: none
      is held, and the receiver in use and the last one waiting behind it are empty. */
  predicate NothingToSend(tx: Tx) {
    && tx.accepted == [] && tx.ctx.activeBuffer.None?
    && (tx.ctx.sendData.Some? ==>
          var last := LastOf(Waiters(tx.link, tx.ctx.sendData.value));
          && Queue(tx.link.channels, tx.ctx.sendData.value.active) == []
          && (last.Some? ==> Queue(tx.link.channels, last.value) == []))
  }

  /** Whether a stream ends empty is decided before it is dropped. */
  lemma EndsEmptyBefore(s: State)
    requires Inv(s)
    requires Intact(Run(s, Ending()).tx) && Total(Run(s, Ending()).tx) == Run(s, Ending()).tx.accepted
    ensures EndsEmpty(Run(s, Ending()).tx) <==> NothingToSend(s.tx)
  {
    EndingIs(s);
    DroppedIsGone(s);
    PolledIsEmpty(Dropped(s));
    if s.tx.ctx.sendData.Some? {
      assert Waiters(Dropped(s).tx.link, s.tx.ctx.sendData.value) == Waiters(s.tx.link, s.tx.ctx.sendData.value);
    }
  }

  lemma PolledIsEmpty(s: State)
    requires Inv(s) && s.tx.link.appSender.None? && !s.tx.appControl
    requires var t := Apply(Apply(s, DoPollControl), DoPollData).tx; Intact(t) && Total(t) == t.accepted
    ensures EndsEmpty(Apply(Apply(s, DoPollControl), DoPollData).tx) <==> NothingToSend(s.tx)
  {
    var t := Apply(s, DoPollControl);
    DroppedIsPolled(s);
    StepIntact(s, DoPollControl);
    DrainControlFrame(s.tx);
    PollDataFinds(t.tx);
    PollDataAccepted(t.tx);
    if s.tx.ctx.sendData.Some? { DrainLeavesLastWaiter(s.tx); }
  }

  // ---------------------------------------------------------------- from the drop to the end

  /** What is left of the stream when the drop was noticed. */
  lemma DropAndPoll(s: State)
    requires Inv(s) && s.tx.canSend
    requires Intact(Run(s, Ending()).tx) && Total(Run(s, Ending()).tx) == Run(s, Ending()).tx.accepted
    ensures var t := Run(s, Ending());
      && Gone(t) && t.tx.accepted == s.tx.accepted
      && t.tx.quic.finGiven == s.tx.quic.finGiven && t.rx.finReceivedOrRecvMsgDropped
      && if EndsEmpty(t.tx) then
           && t.tx.ctx.stopSendingOrFinSent && t.tx.quic.resets > 0
           && (s.tx.link.appSender.Some? ==> t.tx.quic.resets == s.tx.quic.resets + 1 && !t.tx.quic.finGiven)
         else
           t.tx.quic.resets == s.tx.quic.resets && AskedOrDone(t.tx)
  {
    var d := Dropped(s);
    var u := Apply(d, DoPollControl);
    EndingIs(s);
    DroppedIsGone(s);
    DroppedIsPolled(d);
    StepIntact(d, DoPollControl);
    PollDataGone(u);
    if s.tx.link.appSender.Some? { SenderKeepsStreamOpen(s.tx); }
  }

  /** A stream without a byte that does not end empty still has its receiver. */
  lemma HeldEmptyBuffer(tx: Tx)
    requires Shape(tx) && Served(tx) && tx.canSend && Intact(tx) && Total(tx) == tx.accepted == []
    requires tx.ctx.activeBuffer.Some?
    ensures tx.ctx.sendData.Some?
  {
  }

  /** The poll that follows the FIN finds the stream finished and lets the connection forget it. If
      the stream never had a byte, it resets the stream once more. */
  lemma ForgettingPoll(s: State)
    requires Gone(s) && s.tx.quic.finGiven && Finished(s)
    ensures var t := Poll(s);
      && Finished(t) && t.tx.quic.finGiven && t.tx.quic.handed == s.tx.quic.handed && t.tx.accepted == s.tx.accepted
      && t.tx.quic.resets == s.tx.quic.resets + (if s.tx.accepted == [] && s.tx.ctx.sendData.Some? then 1 else 0)
  {
    assert Poll(s) == s.(tx := PollData(s.tx));
    FinishedLeavesNothing(s.tx);
    PollDataEnds(s.tx);
    if s.tx.ctx.sendData.Some? { PollSendResult(s.tx.link, s.tx.ctx.sendData.value); }
    PollDataAccepted(s.tx);
    StepFlag(s, DoPollData);
  }

  /** The second half of the story: a stream that does not end empty, from the poll that noticed the
      drop to the poll that forgets it. */
  lemma {:induction false} DeliverAndForget(t: State, sizes: seq<nat>)
    requires Gone(t) && t.tx.canSend && AskedOrDone(t.tx) && !EndsEmpty(t.tx) && t.rx.finReceivedOrRecvMsgDropped
    requires forall i :: 0 <= i < |sizes| ==> sizes[i] >= 1
    requires |sizes| > |t.tx.accepted|
    ensures var u := Run(t, Prepares(sizes));
      && u.tx.quic.finGiven && u.tx.quic.handed == u.tx.accepted == t.tx.accepted && Finished(u)
      && u.tx.quic.resets == t.tx.quic.resets
      && Forgotten(u, Poll(u))
  {
    var u := Run(t, Prepares(sizes));
    PreparesStayActive(t, sizes);
    FinIsReached(t, sizes);
    ForgettingPoll(u);
    if t.tx.accepted == [] { HeldEmptyBuffer(t.tx); }
  }

  /** `v` is the end of a stream that was `u` when its FIN had been given: nothing more is handed over,
      and picoquic is told to reset it just if it never had a byte. */
  ghost predicate Forgotten(u: State, v: State) {
    && Finished(v) && v.tx.quic.finGiven && v.tx.quic.handed == u.tx.quic.handed && v.tx.accepted == u.tx.accepted
    && v.tx.quic.resets == u.tx.quic.resets + (if u.tx.accepted == [] then 1 else 0)
  }

  /** End to end, whatever happened before: the application drops an intact sending stream and the
      context is polled once.

      A stream that had nothing to send has then been reset and is finished, without a FIN. Every
      other one is not reset by this: from now on picoquic has it marked as active until the FIN was
      given, and once picoquic has asked often enough with room for at least one byte, it has every
      accepted byte and the FIN, and the stream is finished. The poll after that forgets the stream,
      with a reset just if it never had a byte. */
  lemma {:induction false} DroppedStreamDelivers(id: nat, isClientCon: bool, steps: seq<Step>, sizes: seq<nat>)
    requires CanSend(id, isClientCon)
    requires LossFree(Init(id, isClientCon), steps + Ending())
    requires Intact(Run(Init(id, isClientCon), steps + Ending()).tx)
    requires forall i :: 0 <= i < |sizes| ==> sizes[i] >= 1
    requires |sizes| > |Run(Init(id, isClientCon), steps).tx.accepted|
    ensures var s := Run(Init(id, isClientCon), steps);
      var t := Run(Init(id, isClientCon), steps + Ending());
      var u := Run(t, Prepares(sizes));
      if NothingToSend(s.tx) then
        && t.tx.quic.resets > 0 && Finished(t) && t.tx.quic.finGiven == s.tx.quic.finGiven
        && (s.tx.link.appSender.Some? ==> t.tx.quic.resets == s.tx.quic.resets + 1 && !t.tx.quic.finGiven)
      else
        && u.tx.quic.resets == t.tx.quic.resets == s.tx.quic.resets
        && (forall k :: 0 <= k <= |sizes| ==> AskedOrDone(Run(t, Prepares(sizes[..k])).tx))
        && u.tx.quic.finGiven && u.tx.quic.handed == u.tx.accepted == s.tx.accepted && Finished(u)
        && Forgotten(u, Poll(u))
  {
    var s := Run(Init(id, isClientCon), steps);
    var t := Run(s, Ending());
    RunConcat(Init(id, isClientCon), steps, Ending());
    InvOfRun(id, isClientCon, steps);
    RunConstants(Init(id, isClientCon), steps);
    ConservedOfRun(id, isClientCon, steps + Ending());
    DropAndPoll(s);
    EndsEmptyBefore(s);
    if !NothingToSend(s.tx) {
      forall k | 0 <= k <= |sizes| ensures AskedOrDone(Run(t, Prepares(sizes[..k])).tx) {
        PreparesStayActive(t, sizes[..k]);
      }
      DeliverAndForget(t, sizes);
    }
  }

  // ---------------------------------------------------------------- empty buffers

  predicate NoEmptySends(steps: seq<Step>) {
    forall i :: 0 <= i < |steps| && steps[i].DoSend? ==> steps[i].buf != []
  }

  ghost predicate NoBuffers(tx: Tx) {
    tx.ctx.activeBuffer.None? && forall c :: 0 <= c < |tx.link.channels| ==> tx.link.channels[c].queue == []
  }

  lemma StepNoBuffers(s: State, step: Step)
    requires s.tx.accepted == [] ==> NoBuffers(s.tx)
    requires step.DoSend? ==> step.buf != []
    ensures Apply(s, step).tx.accepted == [] ==> NoBuffers(Apply(s, step).tx)
  {
    match step
    case DoSend(buf, full) => StartSendNoBuffers(s.tx, buf, full);
    case DoResize => if NoBuffers(s.tx) { ResizeNoBuffers(s.tx); }
    case DoPollControl => DrainControlFrame(s.tx);
    case DoPollData => PollDataAccepted(s.tx); if NoBuffers(s.tx) { PollDataNoBuffers(s.tx); }
    case DoPrepare(maxLength) => if NoBuffers(s.tx) { PrepareNoBuffers(s.tx, maxLength); }
    case _ =>
  }

  lemma StartSendNoBuffers(tx: Tx, buf: Bytes, full: bool)
    requires buf != []
    ensures StartSend(tx, buf, full).accepted == [] ==> StartSend(tx, buf, full) == tx
  {
  }

  lemma ResizeNoBuffers(tx: Tx)
    requires NoBuffers(tx)
    ensures NoBuffers(Resize(tx)) && Resize(tx).accepted == tx.accepted
  {
  }

  lemma PollSendNoBuffers(tx: Tx)
    requires NoBuffers(tx) && tx.ctx.sendData.Some?
    ensures var (r, link, _) := PollSend(tx.link, tx.ctx.sendData.value); !r.Item? && link == tx.link
  {
    assert Items(tx.link.channels, tx.ctx.sendData.value) == 0;
  }

  lemma PollDataNoBuffers(tx: Tx)
    requires NoBuffers(tx)
    ensures NoBuffers(PollData(tx))
  {
    if tx.ctx.sendData.Some? {
      PollSendNoBuffers(tx);
      DroppedFrame(tx);
    }
  }

  lemma PrepareNoBuffers(tx: Tx, maxLength: nat)
    requires NoBuffers(tx)
    ensures NoBuffers(PrepareToSend(tx, maxLength))
  {
    if tx.ctx.sendData.Some? { PollSendNoBuffers(tx); }
    var c := Collect(tx.link, tx.ctx.sendData, maxLength, []);
    assert c.bufs == [] && c.link == tx.link;
  }

  lemma {:induction false} RunNoBuffers(s: State, steps: seq<Step>)
    requires s.tx.accepted == [] ==> NoBuffers(s.tx)
    requires NoEmptySends(steps)
    ensures Run(s, steps).tx.accepted == [] ==> NoBuffers(Run(s, steps).tx)
    decreases |steps|
  {
    if steps != [] {
      StepNoBuffers(s, steps[0]);
      RunNoBuffers(Apply(s, steps[0]), steps[1..]);
    }
  }

  /** If the application sends no empty buffers, a stream has nothing to send exactly if no byte of it
      was ever accepted. */
  lemma {:induction false} NothingToSendIff(id: nat, isClientCon: bool, steps: seq<Step>)
    requires NoEmptySends(steps)
    ensures var tx := Run(Init(id, isClientCon), steps).tx; NothingToSend(tx) <==> tx.accepted == []
  {
    RunNoBuffers(Init(id, isClientCon), steps);
  }

  // ---------------------------------------------------------------- a run with an empty buffer

  /** The example stream after an empty buffer was sent, the stream dropped and polled. */
  lemma EmptyBufferHeld()
    ensures var tx := Run(Init(4, true), [DoSend([], false)] + Ending()).tx;
      && tx.link == Link(None, [], [Channel([], None)])
      && tx.ctx == SendCtx(Some(Swappable(0, None)), Some([]), false, false, false)
      && tx.quic == QuicSend(true, [], false, 0) && Intact(tx) && tx.accepted == []
  {
    var s := Init(4, true);
    var a := Apply(s, DoSend([], false));
    RunConcat(s, [DoSend([], false)], Ending());
    assert Run(s, [DoSend([], false)]) == Run(a, []) == a;
    var none: Bytes := [];
    assert Queue(s.tx.link.channels, 0) + [none] == [none];
    assert a.tx.link == Link(Some(0), [], [Channel([[]], None)]);
    EndingIs(a);
    var d := Dropped(a);
    assert d.tx.link == Link(None, [], [Channel([[]], None)]);
    var u := Apply(d, DoPollControl);
    assert u.tx == d.tx;
    assert Queue(u.tx.link.channels, 0) == [none] && [none][1..] == [];
    assert Pop(u.tx.link.channels, 0) == [Channel([], None)];
  }

  lemma EmptyBufferPrepared(s: State)
    requires s.tx.link == Link(None, [], [Channel([], None)]) && !s.tx.removed
    requires s.tx.ctx == SendCtx(Some(Swappable(0, None)), Some([]), false, false, false)
    ensures var t := Apply(s, DoPrepare(1)).tx;
      && t.link == s.tx.link && !t.removed && t.ctx == SendCtx(Some(Swappable(0, None)), None, false, true, false)
      && t.quic.finGiven && t.quic.resets == s.tx.quic.resets
  {
    var tx := s.tx;
    assert ActiveBuffers(tx) == [[]] && Flatten([[]]) == [] + Flatten([]);
    assert Queue(tx.link.channels, 0) == [] && !SenderAlive(tx.link, 0);
    assert Collect(tx.link, tx.ctx.sendData, 1, [[]]) == Collected(tx.link, tx.ctx.sendData, [[]], true);
    PrepareNoPanic(tx, 1);
  }

  /** An empty buffer keeps a stream without a byte from being reset: the FIN is given instead. The
      data poll after that still resets the stream. */
  lemma EmptyBufferGetsFin()
    ensures var s := Run(Init(4, true), [DoSend([], false)] + Ending());
      var t := Apply(s, DoPrepare(1));
      && s.tx.accepted == [] && !EndsEmpty(s.tx)
      && t.tx.quic.finGiven && t.tx.quic.resets == 0 && Apply(t, DoPollData).tx.quic.resets == 1
  {
    EmptyBufferHeld();
    var s := Run(Init(4, true), [DoSend([], false)] + Ending());
    EmptyBufferPrepared(s);
    PollDrained(Apply(s, DoPrepare(1)));
  }

  lemma PollDrained(s: State)
    requires s.tx.link == Link(None, [], [Channel([], None)]) && !s.tx.removed
    requires s.tx.ctx == SendCtx(Some(Swappable(0, None)), None, false, true, false)
    ensures Apply(s, DoPollData).tx.quic.resets == s.tx.quic.resets + 1
  {
    assert PollSend(s.tx.link, Swappable(0, None)).0.End?;
    DroppedFrame(s.tx);
  }
}
