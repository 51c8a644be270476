/** What the application's sends report after a connection error. The error is stored with the
    receiver in use at that time, and each send looks at the channel it sends into. */
module StreamErrors {
  import opened Base
  import opened StreamModel
  import opened StreamChain
  import opened StreamInvariant
  import opened StreamSending

  /** The error stored with the channel the application sends into. */
  function AppError(tx: Tx): Option<ErrorCode> {
    if tx.link.appSender.Some? && tx.link.appSender.value < |tx.link.channels|
    then tx.link.channels[tx.link.appSender.value].error
    else None
  }

  /** No resize is on its way: none waits for its turn and none is on the control queue. */
  ghost predicate Quiet(tx: Tx) {
    tx.ctx.sendData.Some? && tx.ctx.sendData.value.swapTo.None? && !HasSwap(tx.link.control)
  }

  /** The step gives the application a new channel. */
  predicate Resizes(s: State, step: Step) {
    step.DoResize? && Enabled(s, step) && s.tx.link.appSender.Some?
  }

  /** The step is an error that is stored with the channel of the application. */
  ghost predicate Hears(s: State, step: Step) {
    step.DoConnectionError? && Enabled(s, step) && Quiet(s.tx)
  }

  ghost function Heard(s: State, step: Step, heard: Option<ErrorCode>): Option<ErrorCode> {
    if Resizes(s, step) then None else if Hears(s, step) then Some(step.err) else heard
  }

  /** What a run leaves to be heard: the last error that came while no resize was on its way, unless
      a resize followed. */
  ghost function HeardIn(s: State, steps: seq<Step>, heard: Option<ErrorCode>): Option<ErrorCode>
    decreases |steps|
  {
    if steps == [] then heard else HeardIn(Apply(s, steps[0]), steps[1..], Heard(s, steps[0], heard))
  }

  // ---------------------------------------------------------------- every step

  lemma PollDataErrors(tx: Tx)
    ensures PollData(tx).link.appSender == tx.link.appSender && AppError(PollData(tx)) == AppError(tx)
  {
    if tx.ctx.activeBuffer.None? && tx.ctx.sendData.Some? {
      PollSendErrors(tx.link, tx.ctx.sendData.value);
      DroppedFrame(tx);
    }
  }

  /** Only the queues of channels change when they are read. */
  ghost predicate SameErrors(a: seq<Channel>, b: seq<Channel>) {
    |a| == |b| && forall c :: 0 <= c < |a| ==> a[c].error == b[c].error
  }

  lemma {:induction false} PollSendErrors(link: Link, sw: Swappable)
    ensures SameErrors(link.channels, PollSend(link, sw).1.channels)
    decreases if sw.swapTo.Some? then 1 else 0
  {
    if Queue(link.channels, sw.active) == [] && !SenderAlive(link, sw.active) && sw.swapTo.Some? {
      PollSendErrors(link, Swappable(sw.swapTo.value, None));
    }
  }

  lemma {:induction false} CollectErrors(link: Link, sendData: Option<Swappable>, maxLength: nat, bufs: seq<Bytes>)
    ensures SameErrors(link.channels, Collect(link, sendData, maxLength, bufs).link.channels)
    decreases if sendData.Some? then Items(link.channels, sendData.value) else 0
  {
    if |Flatten(bufs)| <= maxLength && sendData.Some? {
      PollSendErrors(link, sendData.value);
      var (r, link', sw) := PollSend(link, sendData.value);
      if r.Item? { CollectErrors(link', Some(sw), maxLength, bufs + [r.buf]); }
    }
  }

  /** An error reaches the channel of the application exactly if no resize is on its way. */
  lemma PropagateErrorReaches(tx: Tx, err: ErrorCode)
    requires Shape(tx) && tx.link.appSender.Some?
    ensures AppError(PropagateError(tx, err)) == if Quiet(tx) then Some(err) else AppError(tx)
  {
    if tx.ctx.sendData.Some? { ChainSenders(Tail(tx.ctx.sendData.value), tx.link.control, |tx.link.channels| - 1); }
  }

  /** Outside of a resize and an error no step touches what the application's channel stores. */
  lemma StepHeard(s: State, step: Step)
    requires Inv(s) && Apply(s, step).tx.link.appSender.Some?
    ensures s.tx.link.appSender.Some?
    ensures AppError(Apply(s, step).tx) == Heard(s, step, AppError(s.tx))
  {
    if Enabled(s, step) {
      match step
      case DoPollControl => DrainControlFrame(s.tx);
      case DoPollData => PollDataErrors(s.tx);
      case DoPrepare(maxLength) => CollectErrors(s.tx.link, s.tx.ctx.sendData, maxLength, ActiveBuffers(s.tx));
      case DoConnectionError(err) => PropagateErrorReaches(s.tx, err);
      case _ =>
    }
  }

  // ---------------------------------------------------------------- every run

  lemma {:induction false} RunHeard(s: State, steps: seq<Step>)
    requires Inv(s) && Run(s, steps).tx.link.appSender.Some?
    ensures s.tx.link.appSender.Some?
    ensures AppError(Run(s, steps).tx) == HeardIn(s, steps, AppError(s.tx))
    decreases |steps|
  {
    if steps != [] {
      StepInv(s, steps[0]);
      RunHeard(Apply(s, steps[0]), steps[1..]);
      StepHeard(s, steps[0]);
    }
  }

  predicate Failed(r: SendOutcome) {
    r.ChannelError? || r.NormalError?
  }

  function Report(error: Option<ErrorCode>): SendOutcome {
    if error.Some? then ChannelError(error.value) else NormalError
  }

  lemma FailedReports(tx: Tx, full: bool)
    ensures Failed(SendResult(tx, full)) ==> tx.link.appSender.Some? && SendResult(tx, full) == Report(AppError(tx))
    ensures Shape(tx) && tx.removed && tx.link.appSender.Some? ==> Failed(SendResult(tx, full))
  {
  }

  /** In every run, a send that fails reports the last connection error that came while no resize was
      on its way and was not followed by one; without such an error it reports the plain one. */
  lemma {:induction false} FailedSendReports(id: nat, isClientCon: bool, steps: seq<Step>, full: bool)
    ensures var r := SendResult(Run(Init(id, isClientCon), steps).tx, full);
      Failed(r) ==> r == Report(HeardIn(Init(id, isClientCon), steps, None))
  {
    var tx := Run(Init(id, isClientCon), steps).tx;
    FailedReports(tx, full);
    if Failed(SendResult(tx, full)) {
      InitInv(id, isClientCon);
      RunHeard(Init(id, isClientCon), steps);
    }
  }

  predicate NoConnectionError(steps: seq<Step>) {
    forall i :: 0 <= i < |steps| ==> !steps[i].DoConnectionError?
  }

  /** Some step of the run gives the application a new channel. */
  predicate ResizesIn(s: State, steps: seq<Step>)
    decreases |steps|
  {
    steps != [] && (Resizes(s, steps[0]) || ResizesIn(Apply(s, steps[0]), steps[1..]))
  }

  lemma {:induction false} HeardWithoutErrors(s: State, steps: seq<Step>, heard: Option<ErrorCode>)
    requires NoConnectionError(steps)
    ensures HeardIn(s, steps, heard) == if ResizesIn(s, steps) then None else heard
    decreases |steps|
  {
    if steps != [] { HeardWithoutErrors(Apply(s, steps[0]), steps[1..], Heard(s, steps[0], heard)); }
  }

  /** What the application's channel stores once an error came in this state. */
  ghost function StoredAt(tx: Tx, err: ErrorCode): Option<ErrorCode> {
    if tx.ctx.sendData.None? then AppError(tx) else if Quiet(tx) then Some(err) else None
  }

  /** What a connection error does to the sends that fail after it, whatever happened before and
      whatever steps lie between: they report it if and only if the receiver was still there, no
      resize was on its way and none followed. With the receiver gone they report what the channel
      had stored by then, and in all other cases the plain error. Once the context is removed every
      send fails. */
  lemma {:induction false} ErrorReachesAppIff(
    id: nat, isClientCon: bool, before: seq<Step>, err: ErrorCode, after: seq<Step>, full: bool)
    requires NoConnectionError(after)
    ensures var s := Run(Init(id, isClientCon), before);
      var e := Apply(s, DoConnectionError(err));
      var t := Run(e, after).tx;
      var r := SendResult(t, full);
      && (!s.tx.removed && Failed(r) ==>
            r == if ResizesIn(e, after) then NormalError else Report(StoredAt(s.tx, err)))
      && (t.removed && t.link.appSender.Some? ==> Failed(r))
  {
    InvOfRun(id, isClientCon, before);
    ErrorThenSend(Run(Init(id, isClientCon), before), err, after, full);
  }

  lemma {:induction false} ErrorThenSend(s: State, err: ErrorCode, after: seq<Step>, full: bool)
    requires Inv(s) && NoConnectionError(after)
    ensures var e := Apply(s, DoConnectionError(err));
      var t := Run(e, after).tx;
      && (!s.tx.removed && Failed(SendResult(t, full)) ==>
            SendResult(t, full) == if ResizesIn(e, after) then NormalError else Report(StoredAt(s.tx, err)))
      && (t.removed && t.link.appSender.Some? ==> Failed(SendResult(t, full)))
  {
    var e := Apply(s, DoConnectionError(err));
    var t := Run(e, after).tx;
    StepInv(s, DoConnectionError(err));
    RunInv(e, after);
    FailedReports(t, full);
    if !s.tx.removed && Failed(SendResult(t, full)) {
      RunHeard(e, after);
      HeardWithoutErrors(e, after, AppError(e.tx));
      StepHeard(s, DoConnectionError(err));
      if s.tx.ctx.sendData.Some? && !Quiet(s.tx) { NotQuietNotHeard(s.tx); }
    }
  }

  /** The channels of resizes on their way have no error stored. */
  lemma NotQuietNotHeard(tx: Tx)
    requires Shape(tx) && tx.link.appSender.Some? && tx.ctx.sendData.Some? && !Quiet(tx)
    ensures AppError(tx).None?
  {
    ChainSenders(Tail(tx.ctx.sendData.value), tx.link.control, |tx.link.channels| - 1);
  }

  // ---------------------------------------------------------------- runs in which the error is not heard

  lemma RunThree(s: State, a: Step, b: Step, c: Step)
    ensures Run(s, [a, b, c]) == Apply(Apply(Apply(s, a), b), c)
  {
    assert [a, b, c][1..] == [b, c] && [b, c][1..] == [c] && [c][1..] == [];
    var s1 := Apply(s, a);
    var s2 := Apply(s1, b);
    assert Run(s, [a, b, c]) == Run(s1, [b, c]);
    assert Run(s1, [b, c]) == Run(s2, [c]);
    assert Run(s2, [c]) == Run(Apply(s2, c), []);
  }

  /** An error that comes while a resize is outstanding does not reach the sender in use. */
  lemma ResizeHidesError(err: ErrorCode)
    ensures SendResult(Run(Init(4, true), [DoResize, DoConnectionError(err), DoRemove]).tx, false) == NormalError
  {
    RunThree(Init(4, true), DoResize, DoConnectionError(err), DoRemove);
    var a := Apply(Init(4, true), DoResize);
    assert a.tx.link.channels == [Channel([], None), Channel([], None)];
    var c := Apply(Apply(a, DoConnectionError(err)), DoRemove);
    assert c.tx.link.channels == [Channel([], Some(err)), Channel([], None)] && c.tx.link.appSender == Some(1);
  }

  /** A resize after the error leaves it behind with the old channel. */
  lemma LaterResizeHidesError(err: ErrorCode)
    ensures SendResult(Run(Init(4, true), [DoConnectionError(err), DoResize, DoRemove]).tx, false) == NormalError
  {
    RunThree(Init(4, true), DoConnectionError(err), DoResize, DoRemove);
    var a := Apply(Init(4, true), DoConnectionError(err));
    assert a.tx.link.channels == [Channel([], Some(err))];
    var c := Apply(Apply(a, DoResize), DoRemove);
    assert c.tx.link.channels == [Channel([], Some(err)), Channel([], None)] && c.tx.link.appSender == Some(1);
  }

  /** After a stop-sending there is no receiver left to store the error with. */
  lemma StopSendingHidesError(err: ErrorCode)
    ensures SendResult(Run(Init(4, true), [DoCallback([], StopSending), DoConnectionError(err), DoRemove]).tx, false)
         == NormalError
  {
    RunThree(Init(4, true), DoCallback([], StopSending), DoConnectionError(err), DoRemove);
    var a := Apply(Init(4, true), DoCallback([], StopSending));
    assert a.tx.link.channels == [Channel([], None)] && a.tx.ctx.sendData.None?;
    var c := Apply(Apply(a, DoConnectionError(err)), DoRemove);
    assert c.tx.link.channels == [Channel([], None)] && c.tx.link.appSender == Some(0);
  }
}
