/** What the steps of a stream achieve: which sends succeed, that accepted bytes are taken and handed
    over while the application keeps the stream, and that a reset or a stop-sending takes effect. */
module StreamProgress {
  import opened Base
  import opened StreamIds
  import opened StreamModel
  import opened StreamChain
  import opened StreamInvariant
  import opened StreamSending
  import opened StreamErrors

  // ---------------------------------------------------------------- which sends succeed

  /** The last resize on its way carries the receiver of the application's channel. */
  ghost predicate SwapsLeadToApp(link: Link) {
    link.appSender.Some? && HasSwap(link.control) ==>
      exists i :: 0 <= i < |link.control|
        && link.control[i].SwapSendData? && link.control[i].receiver == link.appSender.value
  }

  lemma ResizeLeadsToApp(tx: Tx)
    requires SwapsLeadToApp(tx.link) && (tx.removed ==> tx.link.control == [])
    ensures SwapsLeadToApp(Resize(tx).link)
  {
    var t := Resize(tx);
    if tx.link.appSender.Some? && !tx.removed {
      assert t.link.control[|tx.link.control|] == SwapSendData(|tx.link.channels|, tx.link.appSender.value);
    }
  }

  lemma ResetLeadsToApp(tx: Tx)
    requires SwapsLeadToApp(tx.link)
    ensures SwapsLeadToApp(AppReset(tx).link)
  {
    var t := AppReset(tx);
    if t.link.appSender.Some? && HasSwap(t.link.control) && !tx.removed {
      var j :| 0 <= j < |t.link.control| && t.link.control[j].SwapSendData?;
      assert tx.link.control[j].SwapSendData?;
      var i :| 0 <= i < |tx.link.control|
        && tx.link.control[i].SwapSendData? && tx.link.control[i].receiver == tx.link.appSender.value;
      assert t.link.control[i] == tx.link.control[i];
    }
  }

  lemma StepLeadsToApp(s: State, step: Step)
    requires Inv(s) && SwapsLeadToApp(s.tx.link)
    ensures SwapsLeadToApp(Apply(s, step).tx.link)
  {
    if Enabled(s, step) {
      match step
      case DoResize => ResizeLeadsToApp(s.tx);
      case DoReset => ResetLeadsToApp(s.tx);
      case DoPollControl => DrainControlKeeps(s.tx);
      case DoPollData => PollDataKeepsLink(s.tx);
      case _ =>
    }
  }

  lemma PollDataKeepsLink(tx: Tx)
    ensures PollData(tx).link.control == tx.link.control && PollData(tx).link.appSender == tx.link.appSender
  {
    if tx.ctx.sendData.Some? { DroppedFrame(tx); }
  }

  lemma {:induction false} RunLeadsToApp(s: State, steps: seq<Step>)
    requires Inv(s) && SwapsLeadToApp(s.tx.link)
    ensures Inv(Run(s, steps)) && SwapsLeadToApp(Run(s, steps).tx.link)
    decreases |steps|
  {
    if steps != [] {
      StepInv(s, steps[0]);
      StepLeadsToApp(s, steps[0]);
      RunLeadsToApp(Apply(s, steps[0]), steps[1..]);
    }
  }

  /** The receiver of the application's channel lives while the stream is intact, and after that only
      while a resize is on its way. */
  lemma AppReceiverLives(tx: Tx)
    requires Shape(tx) && SwapsLeadToApp(tx.link) && tx.link.appSender.Some?
    ensures ReceiverAlive(tx.link, tx.ctx.sendData, tx.link.appSender.value) <==> Intact(tx) || HasSwap(tx.link.control)
  {
    if Intact(tx) {
      SenderKeepsStreamOpen(tx);
      ChainSenders(Tail(tx.ctx.sendData.value), tx.link.control, |tx.link.channels| - 1);
    }
  }

  /** What a send is answered in a state of a run. */
  ghost function Expected(s: State, full: bool, heard: Option<ErrorCode>): SendOutcome {
    if !CanSend(s.id, s.isClientCon) then SendOnUnidirectional
    else if Intact(s.tx) || HasSwap(s.tx.link.control) then (if full then Full else Accepted)
    else Report(heard)
  }

  /** The outcome of every send of every run: a stream that only receives refuses it; as long as the
      stream is intact, or a resize is on its way, it is accepted unless the channel is full, and then
      its buffer is added at the end of the channel; after that it fails with the error the run left to be
      heard. */
  lemma {:induction false} SendOutcomeIs(id: nat, isClientCon: bool, steps: seq<Step>, buf: Bytes, full: bool)
    ensures var s := Run(Init(id, isClientCon), steps);
      var t := Apply(s, DoSend(buf, full));
      s.rx.appRecv ==>
        && SendResult(s.tx, full) == Expected(s, full, HeardIn(Init(id, isClientCon), steps, None))
        && t.tx.accepted == s.tx.accepted + (if SendResult(s.tx, full) == Accepted then buf else [])
        && (SendResult(s.tx, full) == Accepted ==>
              var c := s.tx.link.appSender.value;
              t.tx.link == s.tx.link.(channels := t.tx.link.channels)
              && Queue(t.tx.link.channels, c) == Queue(s.tx.link.channels, c) + [buf])
        && (SendResult(s.tx, full) == Accepted && Intact(s.tx) ==> Total(t.tx) == Total(s.tx) + buf)
        && (SendResult(s.tx, full) != Accepted ==> t == s)
  {
    var s := Run(Init(id, isClientCon), steps);
    InitInv(id, isClientCon);
    RunLeadsToApp(Init(id, isClientCon), steps);
    RunConstants(Init(id, isClientCon), steps);
    FailedSendReports(id, isClientCon, steps, full);
    if s.tx.link.appSender.Some? {
      AppReceiverLives(s.tx);
      FailedReports(s.tx, full);
      if Intact(s.tx) && SendResult(s.tx, full) == Accepted {
        SenderKeepsStreamOpen(s.tx);
        StartSendTotal(s.tx, buf, full);
      }
    }
  }

  // ---------------------------------------------------------------- buffers are taken

  lemma PollDataTakes(tx: Tx)
    requires ChainOf(tx) && tx.ctx.sendData.Some? && tx.ctx.activeBuffer.None?
    requires Items(tx.link.channels, tx.ctx.sendData.value) > 0
    ensures PollData(tx).ctx.activeBuffer.Some? && PollData(tx).quic.active
  {
    PollSendResult(tx.link, tx.ctx.sendData.value);
  }

  /** While a receiver holds a buffer, a data poll leaves a buffer held and the stream active, whether
      or not the application keeps the stream. */
  lemma {:induction false} BufferIsTaken(id: nat, isClientCon: bool, steps: seq<Step>)
    ensures var s := Run(Init(id, isClientCon), steps);
      var t := Apply(s, DoPollData).tx;
      !s.tx.removed && s.tx.ctx.sendData.Some? && Items(s.tx.link.channels, s.tx.ctx.sendData.value) > 0 ==>
        t.ctx.activeBuffer.Some? && t.quic.active
  {
    InvOfRun(id, isClientCon, steps);
    RunConstants(Init(id, isClientCon), steps);
    var s := Run(Init(id, isClientCon), steps);
    if !s.tx.removed && s.tx.ctx.sendData.Some? && Items(s.tx.link.channels, s.tx.ctx.sendData.value) > 0 {
      if s.tx.ctx.activeBuffer.None? { PollDataTakes(s.tx); }
    }
  }

  // ---------------------------------------------------------------- when picoquic is to ask

  /** The stream is marked active only for a buffer that is held or a FIN that is due. */
  ghost predicate ActiveForCause(tx: Tx) {
    tx.quic.active ==>
      tx.ctx.activeBuffer.Some? || (tx.ctx.sendData.None? && (tx.ctx.stopSendingOrFinSent ==> !Intact(tx)))
  }

  lemma PollDataActive(tx: Tx)
    requires Shape(tx) && ActiveForCause(tx)
    ensures ActiveForCause(PollData(tx))
  {
  }

  lemma StepActive(s: State, step: Step)
    requires Inv(s) && ActiveForCause(s.tx)
    ensures ActiveForCause(Apply(s, step).tx)
  {
    if Enabled(s, step) {
      match step
      case DoPollControl => DrainControlFrame(s.tx);
      case DoPollData => PollDataActive(s.tx);
      case DoPrepare(maxLength) => var all := PrepareEffect(s.tx, maxLength);
      case _ =>
    }
  }

  lemma {:induction false} RunActive(s: State, steps: seq<Step>)
    requires Inv(s) && ActiveForCause(s.tx)
    ensures ActiveForCause(Run(s, steps).tx)
    decreases |steps|
  {
    if steps != [] {
      StepInv(s, steps[0]);
      StepActive(s, steps[0]);
      RunActive(Apply(s, steps[0]), steps[1..]);
    }
  }

  /** A sending stream that was not aborted is marked active exactly while a buffer is held, or its
      receiver is gone and the FIN is still due. */
  lemma {:induction false} ActiveIff(id: nat, isClientCon: bool, steps: seq<Step>)
    ensures var tx := Run(Init(id, isClientCon), steps).tx;
      CanSend(id, isClientCon) && Intact(tx) ==>
        (tx.quic.active <==> tx.ctx.activeBuffer.Some? || (tx.ctx.sendData.None? && !tx.ctx.stopSendingOrFinSent))
  {
    NothingStranded(id, isClientCon, steps);
    InitInv(id, isClientCon);
    RunActive(Init(id, isClientCon), steps);
  }

  // ---------------------------------------------------------------- a resize takes effect

  /** A resize gives the application a new, empty channel without an error, and after the next control
      poll of an intact stream that channel is the last one the context reads from. */
  lemma {:induction false} ResizeTakesEffect(id: nat, isClientCon: bool, steps: seq<Step>)
    ensures var s := Run(Init(id, isClientCon), steps);
      var t := Apply(s, DoResize);
      var u := Apply(t, DoPollControl);
      var added := |s.tx.link.channels|;
      s.rx.appRecv && CanSend(id, isClientCon) ==>
        && t.tx.link.appSender == Some(added) && t.tx.link.channels == s.tx.link.channels + [Channel([], None)]
        && (!s.tx.removed && Intact(u.tx) ==> u.tx.ctx.sendData.Some? && Tail(u.tx.ctx.sendData.value) == added)
  {
    var s := Run(Init(id, isClientCon), steps);
    InvOfRun(id, isClientCon, steps);
    RunConstants(Init(id, isClientCon), steps);
    var t := Apply(s, DoResize);
    StepInv(s, DoResize);
    StepInv(t, DoPollControl);
    if !s.tx.removed { DrainControlKeeps(t.tx); DrainControlFrame(t.tx); }
  }

  // ---------------------------------------------------------------- every byte is handed over

  /** No byte was lost and the control queue is empty; the application may be there or not. */
  ghost predicate Settled(s: State) {
    Inv(s) && Intact(s.tx) && s.tx.canSend && Total(s.tx) == s.tx.accepted && s.tx.link.control == []
  }

  lemma NoItemsNoBytes(tx: Tx)
    requires tx.link.control == [] && (tx.ctx.sendData.Some? ==> Items(tx.link.channels, tx.ctx.sendData.value) == 0)
    ensures PipeOf(tx) == []
  {
  }

  /** A prepare-to-send hands over as much as there is room for, and leaves the stream active exactly
      if bytes are left. */
  lemma PrepareSettled(s: State, maxLength: nat)
    requires Settled(s)
    ensures var t := Apply(s, DoPrepare(maxLength));
      && Settled(t) && t.tx.accepted == s.tx.accepted
      && (t.tx.quic.active <==> Left(t.tx) > 0)
      && (Left(t.tx) > 0 ==> Left(t.tx) == Left(s.tx) - maxLength)
  {
    var t := PrepareToSend(s.tx, maxLength);
    assert Apply(s, DoPrepare(maxLength)) == s.(tx := t);
    StepInv(s, DoPrepare(maxLength));
    PrepareLeaves(s.tx, maxLength);
    SettledOn(s, t);
  }

  lemma SettledOn(s: State, t: Tx)
    requires Settled(s) && Inv(s.(tx := t)) && Total(t) == Total(s.tx)
    requires t.link.control == [] && t.canSend == s.tx.canSend && t.accepted == s.tx.accepted && Intact(t)
    ensures Settled(s.(tx := t))
  {
  }

  lemma PrepareLeaves(tx: Tx, maxLength: nat)
    requires ChainOf(tx) && tx.link.control == []
    ensures var t := PrepareToSend(tx, maxLength);
      && t.link.control == [] && t.canSend == tx.canSend && t.accepted == tx.accepted && Intact(t) == Intact(tx)
      && Total(t) == Total(tx)
      && (t.quic.active <==> Left(t) > 0)
      && (Left(t) > 0 ==> Left(t) == Left(tx) - maxLength)
  {
    var t := PrepareToSend(tx, maxLength);
    var all := PrepareEffect(tx, maxLength);
    PrepareTotal(tx, maxLength);
    assert |Held(tx)| + |PipeOf(tx)| == |all| + |PipeOf(t)|;
    if |all| <= maxLength && !t.ctx.stopSendingOrFinSent { NoItemsNoBytes(t); }
  }

  lemma NothingLeftIsHanded(tx: Tx)
    requires Left(tx) == 0
    ensures Total(tx) == tx.quic.handed
  {
  }

  lemma {:induction false} PreparesHandOver(s: State, sizes: seq<nat>)
    requires Settled(s) && forall i :: 0 <= i < |sizes| ==> sizes[i] >= 1
    requires s.tx.quic.active || Left(s.tx) == 0
    ensures var t := Run(s, Prepares(sizes));
      && Settled(t) && t.tx.accepted == s.tx.accepted && (t.tx.quic.active || Left(t.tx) == 0)
      && (|sizes| >= Left(s.tx) ==> t.tx.quic.handed == s.tx.accepted)
    decreases |sizes|
  {
    if sizes == [] {
      if Left(s.tx) == 0 { NothingLeftIsHanded(s.tx); }
    } else {
      PrepareSettled(s, sizes[0]);
      assert Prepares(sizes)[0] == DoPrepare(sizes[0]) && Prepares(sizes)[1..] == Prepares(sizes[1..]);
      PreparesHandOver(Apply(s, DoPrepare(sizes[0])), sizes[1..]);
    }
  }

  lemma PollSettles(s: State)
    requires Inv(s) && s.tx.canSend && Intact(s.tx)
    requires var t := Apply(Apply(s, DoPollControl), DoPollData).tx; Intact(t) && Total(t) == t.accepted
    ensures var t := Apply(Apply(s, DoPollControl), DoPollData);
      Settled(t) && t.tx.accepted == s.tx.accepted && (t.tx.quic.active || Left(t.tx) == 0)
  {
    PollControlSettles(s);
    PollDataSettles(Apply(s, DoPollControl));
  }

  lemma PollControlSettles(s: State)
    requires Inv(s) && s.tx.canSend && Intact(s.tx)
    ensures var t := Apply(s, DoPollControl);
      Inv(t) && t.tx.canSend && t.tx.link.control == [] && t.tx.accepted == s.tx.accepted
  {
    StepInv(s, DoPollControl);
    DrainControlKeeps(s.tx);
    DrainControlFrame(s.tx);
  }

  lemma PollDataSettles(s: State)
    requires Inv(s) && s.tx.canSend && s.tx.link.control == []
    requires var t := Apply(s, DoPollData).tx; Intact(t) && Total(t) == t.accepted
    ensures var t := Apply(s, DoPollData);
      Settled(t) && t.tx.accepted == s.tx.accepted && (t.tx.quic.active || Left(t.tx) == 0)
  {
    var t := Apply(s, DoPollData);
    StepInv(s, DoPollData);
    PollDataAccepted(s.tx);
    PollDataKeepsLink(s.tx);
    PollDataLeaves(s.tx);
    if t.tx.ctx.activeBuffer.None? { NoItemsNoBytes(t.tx); }
  }

  /** After a data poll a buffer is held, or the receiver has none. */
  lemma PollDataLeaves(tx: Tx)
    requires ChainOf(tx)
    ensures var t := PollData(tx);
      && t.canSend == tx.canSend
      && (t.ctx.activeBuffer.None? && t.ctx.sendData.Some? ==> Items(t.link.channels, t.ctx.sendData.value) == 0)
  {
    if tx.ctx.activeBuffer.None? && tx.ctx.sendData.Some? {
      PollSendResult(tx.link, tx.ctx.sendData.value);
      var (r, link, sw) := PollSend(tx.link, tx.ctx.sendData.value);
      if r.End? {
        assert PollData(tx) == HandleSendDataDropped(tx);
        DroppedFrame(tx);
      } else if r.NotReady? {
        assert PollData(tx).ctx.sendData == Some(sw);
      }
    }
  }

  function PollSteps(): seq<Step> {
    [DoPollControl, DoPollData]
  }

  lemma PollStepsRun(s: State)
    ensures Run(s, PollSteps()) == Apply(Apply(s, DoPollControl), DoPollData)
  {
    var t := Apply(s, DoPollControl);
    assert PollSteps()[1..] == [DoPollData];
    assert Run(t, [DoPollData]) == Run(Apply(t, DoPollData), []);
  }

  /** Whether or not the application keeps the stream: after any loss-free history of a sending stream
      that was not aborted, one poll and as many prepare-to-sends with room for at least one byte as
      there are bytes hand over every byte accepted so far, and until that is done picoquic has the
      stream marked as active. */
  lemma {:induction false} EveryByteIsHandedOver(id: nat, isClientCon: bool, steps: seq<Step>, sizes: seq<nat>)
    requires CanSend(id, isClientCon)
    requires LossFree(Init(id, isClientCon), steps + PollSteps())
    requires Intact(Run(Init(id, isClientCon), steps + PollSteps()).tx)
    requires forall i :: 0 <= i < |sizes| ==> sizes[i] >= 1
    requires |sizes| >= |Run(Init(id, isClientCon), steps).tx.accepted|
    ensures var s := Run(Init(id, isClientCon), steps);
      var t := Run(Init(id, isClientCon), steps + PollSteps());
      && Run(t, Prepares(sizes)).tx.quic.handed == s.tx.accepted
      && forall k :: 0 <= k <= |sizes| ==>
           var u := Run(t, Prepares(sizes[..k])).tx; u.quic.active || u.quic.handed == s.tx.accepted
  {
    var s := Run(Init(id, isClientCon), steps);
    var t := Run(s, PollSteps());
    RunConcat(Init(id, isClientCon), steps, PollSteps());
    InvOfRun(id, isClientCon, steps);
    RunConstants(Init(id, isClientCon), steps);
    RunIntact(s, PollSteps());
    ConservedOfRun(id, isClientCon, steps + PollSteps());
    PollStepsRun(s);
    PollSettles(s);
    PreparesHandOver(t, sizes);
    forall k | 0 <= k <= |sizes|
      ensures var u := Run(t, Prepares(sizes[..k])).tx; u.quic.active || u.quic.handed == s.tx.accepted
    {
      PreparesUntilHanded(t, sizes[..k]);
    }
  }

  lemma {:induction false} PreparesUntilHanded(s: State, sizes: seq<nat>)
    requires Settled(s) && forall i :: 0 <= i < |sizes| ==> sizes[i] >= 1
    requires s.tx.quic.active || Left(s.tx) == 0
    ensures var u := Run(s, Prepares(sizes)).tx; u.quic.active || u.quic.handed == s.tx.accepted
  {
    PreparesHandOver(s, sizes);
    var u := Run(s, Prepares(sizes)).tx;
    if !u.quic.active { NothingLeftIsHanded(u); }
  }

  // ---------------------------------------------------------------- a reset is carried out

  lemma StepKeepsReset(s: State, step: Step)
    requires Inv(s) && Reset in s.tx.link.control && !step.DoPollControl? && !step.DoRemove?
    ensures Reset in Apply(s, step).tx.link.control
  {
    if Enabled(s, step) {
      match step
      case DoResize => ResizeKeepsReset(s.tx);
      case DoReset => AppendKeepsReset(s.tx.link.control, Reset);
      case DoPollData => PollDataKeepsLink(s.tx);
      case _ =>
    }
  }

  lemma StepKeepsResets(s: State, step: Step)
    requires !step.DoPollControl?
    ensures Apply(s, step).tx.quic.resets >= s.tx.quic.resets
  {
    if step.DoPollData? { DroppedFrame(s.tx); }
  }

  lemma AppendKeepsReset(control: seq<Message>, msg: Message)
    requires Reset in control
    ensures Reset in control + [msg]
  {
  }

  lemma ResizeKeepsReset(tx: Tx)
    requires Reset in tx.link.control
    ensures Reset in Resize(tx).link.control
  {
    if tx.link.appSender.Some? {
      AppendKeepsReset(tx.link.control, SwapSendData(|tx.link.channels|, tx.link.appSender.value));
    }
  }

  predicate Undrained(steps: seq<Step>) {
    forall i :: 0 <= i < |steps| ==> !steps[i].DoPollControl? && !steps[i].DoRemove?
  }

  lemma {:induction false} RunKeepsReset(s: State, steps: seq<Step>)
    requires Inv(s) && Reset in s.tx.link.control && Undrained(steps)
    ensures var t := Run(s, steps);
      Inv(t) && Reset in t.tx.link.control && t.tx.removed == s.tx.removed && t.tx.quic.resets >= s.tx.quic.resets
    decreases |steps|
  {
    if steps != [] {
      StepInv(s, steps[0]);
      StepKeepsReset(s, steps[0]);
      StepKeepsResets(s, steps[0]);
      StepKeepsRemoved(s, steps[0]);
      RunKeepsReset(Apply(s, steps[0]), steps[1..]);
    }
  }

  /** A reset that the application asks for is carried out by the next control poll, whatever happens
      in between: picoquic resets the stream and its sending half is finished, so that the stream is
      finished exactly if its receiving half is. */
  lemma {:induction false} ResetIsCarriedOut(id: nat, isClientCon: bool, before: seq<Step>, between: seq<Step>)
    requires Undrained(between)
    ensures var s := Run(Init(id, isClientCon), before);
      var t := Apply(Run(Apply(s, DoReset), between), DoPollControl);
      s.rx.appRecv && !s.tx.removed ==>
        && t.tx.aborted && t.tx.ctx.stopSendingOrFinSent && t.tx.ctx.sendData.None?
        && t.tx.quic.resets > s.tx.quic.resets && (Finished(t) <==> t.rx.finReceivedOrRecvMsgDropped)
  {
    var s := Run(Init(id, isClientCon), before);
    InvOfRun(id, isClientCon, before);
    if s.rx.appRecv && !s.tx.removed {
      var r := Apply(s, DoReset);
      assert r.tx.link.control[|s.tx.link.control|] == Reset;
      StepInv(s, DoReset);
      RunKeepsReset(r, between);
      DrainFindsReset(Run(r, between).tx);
    }
  }

  // ---------------------------------------------------------------- a stop-sending takes effect

  lemma {:induction false} RunAborted(s: State, steps: seq<Step>)
    requires Inv(s) && !Intact(s.tx)
    ensures Total(Run(s, steps).tx) == Total(s.tx)
    decreases |steps|
  {
    if steps != [] {
      var t := Apply(s, steps[0]);
      StepInv(s, steps[0]);
      StepIntact(s, steps[0]);
      if Enabled(s, steps[0]) { AbortedTotal(s, steps[0]); }
      RunAborted(t, steps[1..]);
    }
  }

  /** The peer's stop-sending finishes the sending half and drops its receivers at once, so that the
      stream is finished exactly if its receiving half is. From then on
      at most the bytes held at that time are handed over; and if none were held, the half stays
      finished in every continuation. */
  lemma {:induction false} StopSendingTakesEffect(
    id: nat, isClientCon: bool, before: seq<Step>, data: Bytes, after: seq<Step>)
    ensures var s := Run(Init(id, isClientCon), before);
      var t := Apply(s, DoCallback(data, StopSending));
      var u := Run(t, after).tx;
      !s.tx.removed ==>
        && t.tx.ctx.stopSendingOrFinSent && t.tx.ctx.sendData.None? && t.tx.quic == s.tx.quic
        && (Finished(t) <==> t.rx.finReceivedOrRecvMsgDropped)
        && Held(t.tx) == Held(s.tx) && u.quic.handed <= s.tx.quic.handed + Held(s.tx)
        && (s.tx.ctx.activeBuffer.None? ==>
              u.ctx.stopSendingOrFinSent && u.ctx.sendData.None? && u.quic.handed == s.tx.quic.handed)
  {
    var s := Run(Init(id, isClientCon), before);
    var t := Apply(s, DoCallback(data, StopSending));
    InvOfRun(id, isClientCon, before);
    if !s.tx.removed {
      StepInv(s, DoCallback(data, StopSending));
      RunAborted(t, after);
      RunInv(t, after);
      var u := Run(t, after).tx;
      assert Total(t.tx) == s.tx.quic.handed + Held(s.tx);
      assert u.quic.handed <= Total(u);
      if s.tx.ctx.activeBuffer.None? {
        FlagStaysSet(t, after);
        assert Total(u) == u.quic.handed;
      }
    }
  }
}
