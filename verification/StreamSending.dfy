/** What holds for the sending half of a stream over whole runs: conservation and order of bytes,
    the meaning of FIN, what a dropped stream leads to and when a stream may be forgotten. */
module StreamSending {
  import opened Base
  import opened StreamIds
  import opened StreamModel
  import opened StreamChain
  import opened StreamInvariant

  lemma {:induction false} InvOfRun(id: nat, isClientCon: bool, steps: seq<Step>)
    ensures Inv(Run(Init(id, isClientCon), steps))
  {
    InitInv(id, isClientCon);
    RunInv(Init(id, isClientCon), steps);
  }

  /** In every run, with any number of resizes, resets, errors and removals, no panic of the context
      is reached and picoquic gets accepted bytes in their order, each at most once. */
  lemma {:induction false} HandedInOrder(id: nat, isClientCon: bool, steps: seq<Step>)
    ensures var tx := Run(Init(id, isClientCon), steps).tx;
      !tx.ctx.panicked && Subsequence(tx.quic.handed, tx.accepted)
  {
    InvOfRun(id, isClientCon, steps);
    var tx := Run(Init(id, isClientCon), steps).tx;
    SubsequenceFront(tx.quic.handed, Held(tx), PipeOf(tx), tx.accepted);
  }

  // ---------------------------------------------------------------- what a control poll discards

  function Receivers(control: seq<Message>): seq<ChannelId>
    decreases |control|
  {
    if control == [] then []
    else if control[0].SwapSendData? then [control[0].receiver] + Receivers(control[1..])
    else Receivers(control[1..])
  }

  /** The receivers competing for the one place behind the receiver in use. */
  function Waiters(link: Link, sw: Swappable): seq<ChannelId> {
    (if sw.swapTo.Some? then [sw.swapTo.value] else []) + Receivers(link.control)
  }

  function BytesIn(channels: seq<Channel>, cs: seq<ChannelId>): Bytes {
    if cs == [] then [] else Flatten(Queue(channels, cs[0])) + BytesIn(channels, cs[1..])
  }

  function AllButLast(cs: seq<ChannelId>): seq<ChannelId> {
    if cs == [] then [] else cs[..|cs| - 1]
  }

  /** The bytes a control poll in this state throws away: all waiting receivers but the last are
      overwritten. */
  function Discarded(tx: Tx): Bytes {
    if tx.ctx.sendData.None? then [] else BytesIn(tx.link.channels, AllButLast(Waiters(tx.link, tx.ctx.sendData.value)))
  }

  lemma DiscardedNext(tx: Tx)
    requires tx.ctx.sendData.Some? && tx.link.control != [] && tx.link.control[0].SwapSendData?
    ensures Discarded(tx) == Waiting(tx.link, tx.ctx.sendData.value) + Discarded(NextControl(tx))
  {
    var sw := tx.ctx.sendData.value;
    var rest := [tx.link.control[0].receiver] + Receivers(tx.link.control[1..]);
    assert Waiters(NextControl(tx).link, NextControl(tx).ctx.sendData.value) == rest;
    if sw.swapTo.Some? {
      var all := [sw.swapTo.value] + rest;
      assert Waiters(tx.link, sw) == all;
      assert AllButLast(all)[0] == sw.swapTo.value && AllButLast(all)[1..] == AllButLast(rest);
    } else {
      assert Waiters(tx.link, sw) == rest;
    }
  }

  /** A control poll that finds no reset shortens what is on its way by exactly what it discards. */
  lemma {:induction false} DrainControlTotal(tx: Tx)
    requires Shape(tx) && !DrainControl(tx).aborted
    ensures |Total(tx)| == |Total(DrainControl(tx))| + |Discarded(tx)|
    decreases |tx.link.control|
  {
    if tx.link.control != [] {
      var t := NextControl(tx);
      NextControlShape(tx);
      DrainControlFrame(t);
      if tx.link.control[0].SwapSendData? && tx.ctx.sendData.Some? {
        SwapMessageTotal(tx);
        DiscardedNext(tx);
        DrainControlTotal(t);
      } else {
        assert tx.link.control[0].SwapSendData?;
        OtherMessageTotal(tx);
        DrainControlTotal(t);
      }
    } else if tx.ctx.sendData.Some? {
      var sw := tx.ctx.sendData.value;
      assert Waiters(tx.link, sw) == if sw.swapTo.Some? then [sw.swapTo.value] else [];
      assert AllButLast(Waiters(tx.link, tx.ctx.sendData.value)) == [];
    }
  }

  /** With at most one swap outstanding a control poll discards nothing. */
  lemma OneSwapDiscardsNothing(tx: Tx)
    requires tx.ctx.sendData.Some? ==> |Waiters(tx.link, tx.ctx.sendData.value)| <= 1
    ensures Discarded(tx) == []
  {
    if tx.ctx.sendData.Some? {
      assert AllButLast(Waiters(tx.link, tx.ctx.sendData.value)) == [];
    }
  }

  // ---------------------------------------------------------------- conservation over runs

  /** How many bytes the control polls of a run throw away. */
  function LostBytes(s: State, steps: seq<Step>): nat
    decreases |steps|
  {
    if steps == [] then 0 else
    (if Enabled(s, steps[0]) && steps[0].DoPollControl? then |Discarded(s.tx)| else 0)
    + LostBytes(Apply(s, steps[0]), steps[1..])
  }

  /** Every control poll of the run happens in a state where it discards nothing. */
  predicate LossFree(s: State, steps: seq<Step>)
    decreases |steps|
  {
    steps == [] ||
    (&& (Enabled(s, steps[0]) && steps[0].DoPollControl? ==> Discarded(s.tx) == [])
     && LossFree(Apply(s, steps[0]), steps[1..]))
  }

  lemma {:induction false} LossFreeMeansNothingLost(s: State, steps: seq<Step>)
    ensures LossFree(s, steps) <==> LostBytes(s, steps) == 0
    decreases |steps|
  {
    if steps != [] { LossFreeMeansNothingLost(Apply(s, steps[0]), steps[1..]); }
  }

  /** The receivers wait one at a time: at most one swap is outstanding at each control poll. */
  predicate OneSwapAtATime(s: State, steps: seq<Step>)
    decreases |steps|
  {
    steps == [] ||
    (&& (Enabled(s, steps[0]) && steps[0].DoPollControl? && s.tx.ctx.sendData.Some? ==>
           |Waiters(s.tx.link, s.tx.ctx.sendData.value)| <= 1)
     && OneSwapAtATime(Apply(s, steps[0]), steps[1..]))
  }

  /** An application that lets each resize take effect before the next one loses nothing. */
  lemma {:induction false} OneSwapAtATimeIsLossFree(s: State, steps: seq<Step>)
    requires OneSwapAtATime(s, steps)
    ensures LossFree(s, steps)
    decreases |steps|
  {
    if steps != [] {
      if Enabled(s, steps[0]) && steps[0].DoPollControl? { OneSwapDiscardsNothing(s.tx); }
      OneSwapAtATimeIsLossFree(Apply(s, steps[0]), steps[1..]);
    }
  }

  /** The stream's bytes still have an orderly end ahead of them. */
  predicate Intact(tx: Tx) {
    !tx.aborted && !tx.removed
  }

  lemma SenderKeepsStreamOpen(tx: Tx)
    requires Shape(tx) && Intact(tx) && tx.link.appSender.Some?
    ensures tx.ctx.sendData.Some? && !tx.quic.finGiven
  {
  }

  lemma StepIntact(s: State, step: Step)
    ensures Intact(Apply(s, step).tx) ==> Intact(s.tx)
  {
    if step.DoPollControl? { DrainControlFrame(s.tx); }
  }

  lemma {:induction false} RunIntact(s: State, steps: seq<Step>)
    ensures Intact(Run(s, steps).tx) ==> Intact(s.tx)
    decreases |steps|
  {
    if steps != [] {
      StepIntact(s, steps[0]);
      RunIntact(Apply(s, steps[0]), steps[1..]);
    }
  }

  function Missing(tx: Tx): int {
    |tx.accepted| - |Total(tx)|
  }

  lemma StepMissing(s: State, step: Step)
    requires Inv(s) && Enabled(s, step) && Intact(ApplyTx(s, step)) && Intact(s.tx)
    ensures Missing(ApplyTx(s, step)) == Missing(s.tx) + (if step.DoPollControl? then |Discarded(s.tx)| else 0)
  {
    match step
    case DoSend(buf, full) => if SendResult(s.tx, full) == Accepted { StartSendTotal(s.tx, buf, full); }
    case DoResize => ResizeKeeps(s.tx);
    case DoReset => AppResetKeeps(s.tx);
    case DoDrop => AppDropKeeps(s);
    case DoPollControl => DrainControlTotal(s.tx); DrainControlFrame(s.tx);
    case DoPollData => PollDataTotal(s.tx); PollDataAccepted(s.tx);
    case DoPrepare(maxLength) => PrepareTotal(s.tx, maxLength);
    case DoConnectionError(err) => PropagateErrorKeeps(s.tx, err);
    case _ =>
  }

  lemma PollDataAccepted(tx: Tx)
    ensures PollData(tx).accepted == tx.accepted
    ensures PollData(tx).quic.handed == tx.quic.handed
    ensures PollData(tx).aborted == tx.aborted && PollData(tx).removed == tx.removed
  {
  }

  lemma {:induction false} RunMissing(s: State, steps: seq<Step>)
    requires Inv(s) && Intact(Run(s, steps).tx)
    ensures Missing(Run(s, steps).tx) == Missing(s.tx) + LostBytes(s, steps)
    decreases |steps|
  {
    if steps != [] {
      var t := Apply(s, steps[0]);
      RunIntact(t, steps[1..]);
      StepIntact(s, steps[0]);
      StepInv(s, steps[0]);
      if Enabled(s, steps[0]) { StepMissing(s, steps[0]); }
      RunMissing(t, steps[1..]);
    }
  }

  /** Conservation, exactly: as long as nobody aborts the stream, what was handed over followed by
      what is still on its way equals what was accepted, if and only if no control poll of the run
      overwrote a waiting receiver that held bytes. */
  lemma {:induction false} ConservationIff(id: nat, isClientCon: bool, steps: seq<Step>)
    requires Intact(Run(Init(id, isClientCon), steps).tx)
    ensures var tx := Run(Init(id, isClientCon), steps).tx;
      Total(tx) == tx.accepted <==> LossFree(Init(id, isClientCon), steps)
  {
    var s := Init(id, isClientCon);
    var tx := Run(s, steps).tx;
    InitInv(id, isClientCon);
    RunMissing(s, steps);
    InvOfRun(id, isClientCon, steps);
    SubsequenceSize(Total(tx), tx.accepted);
    LossFreeMeansNothingLost(s, steps);
  }

  /** Sent bytes and bytes on their way are a prefix of the accepted ones, all of them if intact. */
  ghost predicate Conserved(tx: Tx) {
    Total(tx) <= tx.accepted && (Intact(tx) ==> Total(tx) == tx.accepted)
  }

  lemma StepConserved(s: State, step: Step)
    requires Inv(s) && Conserved(s.tx) && Enabled(s, step)
    requires step.DoPollControl? ==> Discarded(s.tx) == []
    ensures Conserved(ApplyTx(s, step))
  {
    var tx, t := s.tx, ApplyTx(s, step);
    StepInv(s, step);
    StepIntact(s, step);
    if Intact(t) {
      StepMissing(s, step);
      SubsequenceSize(Total(t), t.accepted);
    } else if Intact(tx) {
      AbortKeepsHanded(s, step);
      assert Total(tx) == tx.quic.handed + Held(tx) + PipeOf(tx);
      assert Total(t) == tx.quic.handed + Held(tx);
    } else {
      AbortedTotal(s, step);
    }
  }

  /** The steps that end a stream early neither hand over nor accept anything. */
  lemma AbortKeepsHanded(s: State, step: Step)
    requires Shape(s.tx) && Intact(s.tx) && Enabled(s, step) && !Intact(ApplyTx(s, step)) && Shape(ApplyTx(s, step))
    ensures var t := ApplyTx(s, step);
      && t.quic.handed == s.tx.quic.handed && Held(t) == Held(s.tx)
      && t.accepted == s.tx.accepted && t.ctx.sendData.None?
  {
    if step.DoPollControl? { DrainControlFrame(s.tx); }
    PollDataAccepted(s.tx);
  }

  /** After an early end nothing new can be handed over. */
  lemma AbortedTotal(s: State, step: Step)
    requires Inv(s) && !Intact(s.tx) && Enabled(s, step)
    ensures Total(ApplyTx(s, step)) == Total(s.tx) && s.tx.accepted <= ApplyTx(s, step).accepted
  {
    assert s.tx.ctx.sendData.None?;
    match step
    case DoPollControl => DrainControlFrame(s.tx);
    case DoPrepare(maxLength) => PrepareTotal(s.tx, maxLength);
    case DoDrop => AppDropKeeps(s);
    case DoResize => ResizeKeeps(s.tx);
    case DoReset => AppResetKeeps(s.tx);
    case _ =>
  }

  lemma {:induction false} RunConserved(s: State, steps: seq<Step>)
    requires Inv(s) && Conserved(s.tx) && LossFree(s, steps)
    ensures Conserved(Run(s, steps).tx)
    decreases |steps|
  {
    if steps != [] {
      StepInv(s, steps[0]);
      if Enabled(s, steps[0]) { StepConserved(s, steps[0]); }
      RunConserved(Apply(s, steps[0]), steps[1..]);
    }
  }

  lemma {:induction false} ConservedOfRun(id: nat, isClientCon: bool, steps: seq<Step>)
    requires LossFree(Init(id, isClientCon), steps)
    ensures Conserved(Run(Init(id, isClientCon), steps).tx) && Inv(Run(Init(id, isClientCon), steps))
  {
    InitInv(id, isClientCon);
    RunConserved(Init(id, isClientCon), steps);
    InvOfRun(id, isClientCon, steps);
  }

  /** Resets, stop-sending and removal included, the bytes handed over are a prefix of the accepted
      ones in every run whose control polls discard nothing. */
  lemma {:induction false} HandedIsPrefix(id: nat, isClientCon: bool, steps: seq<Step>)
    requires LossFree(Init(id, isClientCon), steps)
    ensures var tx := Run(Init(id, isClientCon), steps).tx; tx.quic.handed <= tx.accepted
  {
    ConservedOfRun(id, isClientCon, steps);
    var tx := Run(Init(id, isClientCon), steps).tx;
    assert tx.quic.handed <= Total(tx);
  }

  // ---------------------------------------------------------------- FIN

  /** When picoquic has been given the FIN of an intact stream, it has every accepted byte and the
      application no longer holds a sender. */
  lemma {:induction false} FinIsComplete(id: nat, isClientCon: bool, steps: seq<Step>)
    requires LossFree(Init(id, isClientCon), steps)
    ensures var tx := Run(Init(id, isClientCon), steps).tx;
      Intact(tx) && tx.quic.finGiven ==> tx.quic.handed == tx.accepted && tx.link.appSender.None?
  {
    ConservedOfRun(id, isClientCon, steps);
    var tx := Run(Init(id, isClientCon), steps).tx;
    if tx.quic.finGiven && tx.ctx.sendData.Some? { DrainedPipe(tx.link, tx.ctx.sendData.value); }
  }

  lemma StepAfterFin(s: State, step: Step)
    requires Inv(s) && s.tx.quic.finGiven
    ensures Apply(s, step).tx.quic.finGiven && Apply(s, step).tx.quic.handed == s.tx.quic.handed
  {
    if Enabled(s, step) {
      match step
      case DoPollControl => DrainControlFrame(s.tx);
      case DoPollData => PollDataAccepted(s.tx);
      case DoPrepare(maxLength) => PrepareKeeps(s.tx, maxLength);
      case _ =>
    }
  }

  lemma {:induction false} RunAfterFin(s: State, steps: seq<Step>)
    requires Inv(s) && s.tx.quic.finGiven
    ensures Run(s, steps).tx.quic.finGiven && Run(s, steps).tx.quic.handed == s.tx.quic.handed
    decreases |steps|
  {
    if steps != [] {
      StepInv(s, steps[0]);
      StepAfterFin(s, steps[0]);
      RunAfterFin(Apply(s, steps[0]), steps[1..]);
    }
  }

  /** In every run, without any condition, no byte is handed over after a FIN. */
  lemma {:induction false} NoBytesAfterFin(id: nat, isClientCon: bool, before: seq<Step>, after: seq<Step>)
    ensures var tx := Run(Init(id, isClientCon), before).tx;
      tx.quic.finGiven ==> Run(Init(id, isClientCon), before + after).tx.quic.handed == tx.quic.handed
  {
    InvOfRun(id, isClientCon, before);
    RunConcat(Init(id, isClientCon), before, after);
    if Run(Init(id, isClientCon), before).tx.quic.finGiven {
      RunAfterFin(Run(Init(id, isClientCon), before), after);
    }
  }

  /** The send receiver reports the end exactly when the application's sender is gone, no swap is on
      the control queue and no buffer is left: never in the middle of a resize. */
  lemma {:induction false} EndIff(id: nat, isClientCon: bool, steps: seq<Step>)
    ensures var tx := Run(Init(id, isClientCon), steps).tx;
      tx.ctx.sendData.Some? ==>
        (PollSend(tx.link, tx.ctx.sendData.value).0.End? <==>
           tx.link.appSender.None? && !HasSwap(tx.link.control) && Items(tx.link.channels, tx.ctx.sendData.value) == 0)
  {
    InvOfRun(id, isClientCon, steps);
    var tx := Run(Init(id, isClientCon), steps).tx;
    if tx.ctx.sendData.Some? { PollSendChain(tx.link, tx.ctx.sendData.value); }
  }

  // ---------------------------------------------------------------- nothing is stranded

  /** While an intact stream holds a buffer, or has lost its receiver without having sent a FIN,
      picoquic has it marked as active. */
  lemma {:induction false} NothingStranded(id: nat, isClientCon: bool, steps: seq<Step>)
    ensures var tx := Run(Init(id, isClientCon), steps).tx;
      CanSend(id, isClientCon) && Intact(tx) ==>
        && (tx.ctx.activeBuffer.Some? ==> tx.quic.active)
        && (tx.ctx.sendData.None? && !tx.ctx.stopSendingOrFinSent ==> tx.quic.active)
  {
    InvOfRun(id, isClientCon, steps);
    RunConstants(Init(id, isClientCon), steps);
  }

  /** Every prepare-to-send ends in one of three ways: bytes are left and the stream stays active;
      the FIN went out and nothing is left; or every buffer was taken and a sender is still there. */
  lemma {:induction false} PrepareOutcome(id: nat, isClientCon: bool, steps: seq<Step>, maxLength: nat)
    ensures var t := PrepareToSend(Run(Init(id, isClientCon), steps).tx, maxLength);
      || (t.quic.active && t.ctx.activeBuffer.Some? && t.ctx.activeBuffer.value != [] && !t.ctx.stopSendingOrFinSent)
      || (!t.quic.active && t.ctx.activeBuffer.None? && t.ctx.stopSendingOrFinSent
          && t.quic.finGiven && PipeOf(t) == [])
      || (!t.quic.active && t.ctx.activeBuffer.None? && !t.ctx.stopSendingOrFinSent && t.ctx.sendData.Some?
          && Items(t.link.channels, t.ctx.sendData.value) == 0 && (t.link.appSender.Some? || HasSwap(t.link.control)))
  {
    InvOfRun(id, isClientCon, steps);
    var all := PrepareEffect(Run(Init(id, isClientCon), steps).tx, maxLength);
  }

  function Prepares(sizes: seq<nat>): seq<Step> {
    if sizes == [] then [] else [DoPrepare(sizes[0])] + Prepares(sizes[1..])
  }

  /** The application is gone, its last messages were read and no byte was lost. */
  ghost predicate Gone(s: State) {
    && Inv(s) && Intact(s.tx) && Total(s.tx) == s.tx.accepted
    && s.tx.link.appSender.None? && s.tx.link.control == []
  }

  /** How many bytes picoquic has not been given yet. */
  function Left(tx: Tx): nat {
    |Held(tx)| + |PipeOf(tx)|
  }

  lemma FinishedLeavesNothing(tx: Tx)
    requires Shape(tx) && tx.quic.finGiven
    ensures Left(tx) == 0 && Total(tx) == tx.quic.handed
  {
    if tx.ctx.sendData.Some? { DrainedPipe(tx.link, tx.ctx.sendData.value); }
  }

  /** After the application is gone, a prepare-to-send either leaves bytes behind and the stream
      active, or gives the FIN with the last byte. */
  lemma PrepareGone(s: State, maxLength: nat)
    requires Gone(s)
    ensures var t := Apply(s, DoPrepare(maxLength));
      && Gone(t) && t.tx.accepted == s.tx.accepted && t.rx == s.rx && t.tx.quic.resets == s.tx.quic.resets
      && t.tx.canSend == s.tx.canSend && t.tx.ctx.sendData.Some? == s.tx.ctx.sendData.Some?
      && if t.tx.ctx.stopSendingOrFinSent then
           t.tx.quic.finGiven && Left(t.tx) == 0 && t.tx.quic.handed == t.tx.accepted
         else
           t.tx.quic.active && !t.tx.quic.finGiven && Left(t.tx) == Left(s.tx) - maxLength
  {
    var t := Apply(s, DoPrepare(maxLength));
    StepInv(s, DoPrepare(maxLength));
    PrepareTotal(s.tx, maxLength);
    var all := PrepareEffect(s.tx, maxLength);
    assert |Held(s.tx)| + |PipeOf(s.tx)| == |all| + |PipeOf(t.tx)|;
    if t.tx.quic.finGiven { FinishedLeavesNothing(t.tx); }
  }

  /** Once the application is gone and its last messages were read, answering prepare-to-send with
      at least one byte of room each time delivers every byte and then the FIN. */
  lemma {:induction false} FinIsReached(s: State, sizes: seq<nat>)
    requires Gone(s)
    requires forall i :: 0 <= i < |sizes| ==> sizes[i] >= 1
    requires |sizes| > Left(s.tx)
    ensures var t := Run(s, Prepares(sizes)).tx;
      t.quic.finGiven && t.quic.handed == t.accepted && t.ctx.stopSendingOrFinSent
    decreases |sizes|
  {
    var t := Apply(s, DoPrepare(sizes[0]));
    PrepareGone(s, sizes[0]);
    assert Prepares(sizes)[0] == DoPrepare(sizes[0]) && Prepares(sizes)[1..] == Prepares(sizes[1..]);
    if |sizes| > 1 { FinIsReached(t, sizes[1..]); }
  }

  /** Picoquic still asks for more, or it has everything and the FIN. */
  predicate AskedOrDone(tx: Tx) {
    tx.quic.active || (tx.quic.finGiven && tx.ctx.stopSendingOrFinSent)
  }

  /** Prepare-to-send never leaves a stream behind that picoquic no longer asks. */
  lemma {:induction false} PreparesStayActive(s: State, sizes: seq<nat>)
    requires Gone(s) && AskedOrDone(s.tx)
    ensures var t := Run(s, Prepares(sizes));
      && Gone(t) && AskedOrDone(t.tx)
      && t.tx.accepted == s.tx.accepted && t.rx == s.rx && t.tx.quic.resets == s.tx.quic.resets
      && t.tx.canSend == s.tx.canSend && t.tx.ctx.sendData.Some? == s.tx.ctx.sendData.Some?
    decreases |sizes|
  {
    if sizes != [] {
      PrepareGone(s, sizes[0]);
      assert Prepares(sizes)[0] == DoPrepare(sizes[0]) && Prepares(sizes)[1..] == Prepares(sizes[1..]);
      PreparesStayActive(Apply(s, DoPrepare(sizes[0])), sizes[1..]);
    }
  }

  // ---------------------------------------------------------------- dropping and forgetting

  /** A data poll would find the send channel ended. */
  predicate FindsEnd(tx: Tx) {
    tx.ctx.sendData.Some? && tx.ctx.activeBuffer.None? && PollSend(tx.link, tx.ctx.sendData.value).0.End?
  }

  /** When a data poll finds the send channel ended, the stream is reset if and only if the
      application never had a byte accepted; otherwise the FIN was given or is asked for. */
  lemma {:induction false} DropDecision(id: nat, isClientCon: bool, steps: seq<Step>)
    requires LossFree(Init(id, isClientCon), steps)
    ensures var tx := Run(Init(id, isClientCon), steps).tx; var t := PollData(tx);
      Intact(tx) && FindsEnd(tx) ==>
        && t.ctx.sendData.None?
        && (t.quic.resets > tx.quic.resets ==> t.ctx.stopSendingOrFinSent)
        && (t.quic.resets == tx.quic.resets + 1 <==> tx.accepted == [])
        && (t.quic.resets == tx.quic.resets <==> tx.accepted != [])
        && (tx.accepted != [] ==> (t.quic.finGiven && t.ctx.stopSendingOrFinSent) || t.quic.active)
  {
    ConservedOfRun(id, isClientCon, steps);
    var tx := Run(Init(id, isClientCon), steps).tx;
    if Intact(tx) && FindsEnd(tx) {
      PollSendChain(tx.link, tx.ctx.sendData.value);
      DrainedPipe(PollSend(tx.link, tx.ctx.sendData.value).1, PollSend(tx.link, tx.ctx.sendData.value).2);
      assert Total(tx) == tx.quic.handed + [] + [];
      assert tx.accepted == tx.quic.handed == tx.quic.handed + Held(tx);
    }
  }

  lemma {:induction false} DrainFindsReset(tx: Tx)
    requires ControlMessages(tx.link.control) && !tx.ctx.panicked && Reset in tx.link.control
    ensures var t := DrainControl(tx);
      t.aborted && t.ctx.stopSendingOrFinSent && t.ctx.sendData.None? && t.quic.resets > tx.quic.resets
    decreases |tx.link.control|
  {
    var t := NextControl(tx);
    DrainControlFrame(t);
    DrainControlResets(t);
    if tx.link.control[0] != Reset {
      assert Reset in tx.link.control[1..];
      DrainFindsReset(t);
    }
  }

  lemma {:induction false} DrainControlResets(tx: Tx)
    ensures tx.quic.resets <= DrainControl(tx).quic.resets
    decreases |tx.link.control|
  {
    if !tx.ctx.panicked && tx.link.control != [] { DrainControlResets(NextControl(tx)); }
  }

  /** A reset asked for by the application is carried out by the next control poll, wherever in the
      queue it is: picoquic resets the stream and the sending half is finished. */
  lemma {:induction false} ResetTakesEffect(id: nat, isClientCon: bool, steps: seq<Step>)
    ensures var s := Run(Init(id, isClientCon), steps);
      var t := Apply(s, DoPollControl).tx;
      !s.tx.removed && Reset in s.tx.link.control ==>
        t.quic.resets > s.tx.quic.resets && t.ctx.stopSendingOrFinSent && t.ctx.sendData.None? && t.aborted
  {
    InvOfRun(id, isClientCon, steps);
    var s := Run(Init(id, isClientCon), steps);
    if !s.tx.removed && Reset in s.tx.link.control { DrainFindsReset(s.tx); }
  }

  /** A sending stream that was not aborted counts as finished only after the FIN and all its bytes
      were handed over, or after it was reset without ever having accepted a byte. */
  lemma {:induction false} SafeRemoval(id: nat, isClientCon: bool, steps: seq<Step>)
    requires LossFree(Init(id, isClientCon), steps)
    ensures var s := Run(Init(id, isClientCon), steps);
      Finished(s) && CanSend(id, isClientCon) && Intact(s.tx) ==>
        || (s.tx.quic.finGiven && s.tx.quic.handed == s.tx.accepted)
        || (s.tx.quic.resets > 0 && s.tx.accepted == [])
  {
    ConservedOfRun(id, isClientCon, steps);
    RunConstants(Init(id, isClientCon), steps);
    FinIsComplete(id, isClientCon, steps);
    var tx := Run(Init(id, isClientCon), steps).tx;
    if tx.quic.handed == [] && tx.ctx.activeBuffer.None? && tx.ctx.sendData.None? {
      assert Total(tx) == [];
    }
  }

  /** The finished-sending flag, once set, is cleared only by a prepare-to-send, and by that exactly
      when more bytes are held back than there is room for. */
  lemma {:induction false} FlagClearedIff(id: nat, isClientCon: bool, steps: seq<Step>, step: Step)
    ensures var s := Run(Init(id, isClientCon), steps);
      s.tx.ctx.stopSendingOrFinSent && Enabled(s, step) ==>
        (!Apply(s, step).tx.ctx.stopSendingOrFinSent <==> step.DoPrepare? && |Held(s.tx)| > step.maxLength)
  {
    InvOfRun(id, isClientCon, steps);
    var s := Run(Init(id, isClientCon), steps);
    if s.tx.ctx.stopSendingOrFinSent && Enabled(s, step) { StepFlag(s, step); }
  }

  lemma StepFlag(s: State, step: Step)
    requires Inv(s) && s.tx.ctx.stopSendingOrFinSent && Enabled(s, step)
    ensures !ApplyTx(s, step).ctx.stopSendingOrFinSent <==> step.DoPrepare? && |Held(s.tx)| > step.maxLength
  {
    match step
    case DoPollControl => DrainControlFrame(s.tx);
    case DoPrepare(maxLength) => PrepareFinishedIff(s.tx, maxLength);
    case _ =>
  }

  lemma PrepareFinishedIff(tx: Tx, maxLength: nat)
    requires Shape(tx) && NothingLeft(tx)
    ensures PrepareToSend(tx, maxLength).ctx.stopSendingOrFinSent <==> |Held(tx)| <= maxLength
  {
    var t := PrepareToSend(tx, maxLength);
    var all := PrepareEffect(tx, maxLength);
    if tx.ctx.sendData.Some? { DrainedPipe(tx.link, tx.ctx.sendData.value); }
    assert |all| + |PipeOf(t)| == |Held(tx)|;
  }

  /** With the receiver gone and nothing held back the flag stays set for good. */
  lemma {:induction false} FlagStaysSet(s: State, steps: seq<Step>)
    requires Inv(s) && s.tx.ctx.stopSendingOrFinSent && s.tx.ctx.sendData.None? && s.tx.ctx.activeBuffer.None?
    ensures var t := Run(s, steps).tx; t.ctx.stopSendingOrFinSent && t.ctx.sendData.None? && t.ctx.activeBuffer.None?
    decreases |steps|
  {
    if steps != [] {
      StepInv(s, steps[0]);
      if Enabled(s, steps[0]) {
        StepFlag(s, steps[0]);
        StepStaysClosed(s, steps[0]);
      }
      FlagStaysSet(Apply(s, steps[0]), steps[1..]);
    }
  }

  lemma StepStaysClosed(s: State, step: Step)
    requires Inv(s) && s.tx.ctx.sendData.None? && s.tx.ctx.activeBuffer.None?
    ensures ApplyTx(s, step).ctx.sendData.None? && ApplyTx(s, step).ctx.activeBuffer.None?
  {
    match step
    case DoPollControl => DrainControlFrame(s.tx);
    case DoPrepare(maxLength) => var all := PrepareEffect(s.tx, maxLength);
    case _ =>
  }

  // ---------------------------------------------------------------- runs that show the limits

  lemma RunFour(s: State, a: Step, b: Step, c: Step, d: Step)
    ensures Run(s, [a, b, c, d]) == Apply(Apply(Apply(Apply(s, a), b), c), d)
  {
    assert [a, b, c, d][1..] == [b, c, d] && [b, c, d][1..] == [c, d] && [c, d][1..] == [d] && [d][1..] == [];
    var s1 := Apply(s, a);
    var s2 := Apply(s1, b);
    var s3 := Apply(s2, c);
    assert Run(s, [a, b, c, d]) == Run(s1, [b, c, d]);
    assert Run(s1, [b, c, d]) == Run(s2, [c, d]);
    assert Run(s2, [c, d]) == Run(s3, [d]);
    assert Run(s3, [d]) == Run(Apply(s3, d), []);
  }

  /** The stream of the first example after a resize, a send and another resize. */
  function ResizedTwice(): Tx {
    Resize(StartSend(Resize(Init(4, true).tx), [1], false))
  }

  lemma ResizedTwiceIs()
    ensures var tx := ResizedTwice();
      && tx.link.channels == [Channel([], None), Channel([[1]], None), Channel([], None)]
      && tx.link.control == [SwapSendData(1, 0), SwapSendData(2, 1)]
      && tx.ctx == Init(4, true).tx.ctx && tx.quic == Init(4, true).tx.quic && tx.accepted == [1] && Intact(tx)
  {
    var a := Resize(Init(4, true).tx);
    assert a.link.control == [SwapSendData(1, 0)] && a.link.channels == [Channel([], None), Channel([], None)];
    assert a.link.control[0] == SwapSendData(1, 0);
    assert SendResult(a, false) == Accepted;
    var b := StartSend(a, [1], false);
    assert [] + [[1]] == [[1]];
    assert b.link.channels == [Channel([], None), Channel([[1]], None)];
  }

  lemma DrainTwoSwaps(tx: Tx)
    requires tx.link.control == [SwapSendData(1, 0), SwapSendData(2, 1)] && !tx.ctx.panicked
    requires tx.ctx.sendData == Some(Swappable(0, None))
    ensures DrainControl(tx)
         == tx.(link := tx.link.(control := []), ctx := tx.ctx.(sendData := Some(Swappable(0, Some(2)))))
  {
    var a := NextControl(tx);
    assert a.ctx.sendData == Some(Swappable(0, Some(1))) && a.link.control == [SwapSendData(2, 1)];
    var b := NextControl(a);
    assert b.ctx.sendData == Some(Swappable(0, Some(2))) && b.link.control == [];
    assert DrainControl(tx) == DrainControl(a) == DrainControl(b) == b;
  }

  /** A second resize before the first was swapped in loses the bytes sent in between. */
  lemma SecondResizeLosesBytes()
    ensures var tx := Run(Init(4, true), [DoResize, DoSend([1], false), DoResize, DoPollControl]).tx;
      Intact(tx) && tx.accepted == [1] && Total(tx) == []
  {
    RunFour(Init(4, true), DoResize, DoSend([1], false), DoResize, DoPollControl);
    ResizedTwiceIs();
    DrainTwoSwaps(ResizedTwice());
    var tx := DrainControl(ResizedTwice());
    assert Run(Init(4, true), [DoResize, DoSend([1], false), DoResize, DoPollControl]).tx == tx;
    assert Queue(tx.link.channels, 0) == [] && Queue(tx.link.channels, 2) == [];
  }

  /** The example stream with two bytes held and the peer's stop-sending received. */
  lemma StopSendingWhileHolding()
    ensures var s := Apply(Apply(Init(4, true), DoSend([1, 2], false)), DoPollData);
      var tx := Apply(s, DoCallback([], StopSending)).tx;
      && tx.link.channels == [Channel([], None)] && tx.aborted && !tx.removed && tx.quic.handed == []
      && tx.ctx == SendCtx(None, Some([1, 2]), false, true, false)
  {
    var a := Apply(Init(4, true), DoSend([1, 2], false));
    assert Queue(a.tx.link.channels, 0) == [[1, 2]];
    var b := Apply(a, DoPollData);
    assert b.tx.ctx.activeBuffer == Some([1, 2]) && b.tx.link.channels == [Channel([], None)];
  }

  lemma PrepareHeld(s: State)
    requires s.tx.ctx == SendCtx(None, Some([1, 2]), false, true, false) && !s.tx.removed
    ensures var t := Apply(s, DoPrepare(1)).tx;
      !t.ctx.stopSendingOrFinSent && t.aborted == s.tx.aborted && t.quic.handed == s.tx.quic.handed + [1]
  {
    var held: Bytes := [1, 2];
    assert ActiveBuffers(s.tx) == [held] && Flatten([held]) == held + Flatten([]);
    assert Collect(s.tx.link, None, 1, [held]) == Collected(s.tx.link, None, [held], false);
    assert held[..1] == [1];
  }

  /** The finished-sending flag set by a stop-sending can be cleared again. */
  lemma StopSendingForgotten()
    ensures var s := Run(Init(4, true), [DoSend([1, 2], false), DoPollData, DoCallback([], StopSending), DoPrepare(1)]);
      !s.tx.ctx.stopSendingOrFinSent && s.tx.aborted && s.tx.quic.handed == [1]
  {
    RunFour(Init(4, true), DoSend([1, 2], false), DoPollData, DoCallback([], StopSending), DoPrepare(1));
    StopSendingWhileHolding();
    PrepareHeld(Apply(Apply(Apply(Init(4, true), DoSend([1, 2], false)), DoPollData), DoCallback([], StopSending)));
  }
}
