/** The channel with an associated error: a receiver that stores an error and closes the channel,
    and any number of cloned senders, each of which notices the close in steps of its own. */
module ErrorChannel {
  import opened Base

  /** How far a sender is with one `start_send`: the inner send failed because the channel was
      closed, then `is_closed` was asked again, then the stored error was read. */
  datatype Phase = Idle | SendFailed | SawClosed | Done(result: Result)

  datatype Result = Sent | ChannelError(err: ErrorCode) | NormalError

  datatype State = State(closed: bool, error: Option<ErrorCode>, senders: map<nat, Phase>, bareClose: bool)

  datatype Step =
    | Propagate(err: ErrorCode)
    | CloseChannel
    | Clone(sender: nat)
    | BeginSend(sender: nat)
    | AskClosed(sender: nat)
    | ReadError(sender: nat)
    | NextSend(sender: nat)

  function Init(): State {
    State(false, None, map[0 := Idle], false)
  }

  function With(s: State, sender: nat, phase: Phase): State {
    s.(senders := s.senders[sender := phase])
  }

  /** One atomic action. `bareClose` is history: the channel was closed while no error was stored. */
  function Apply(s: State, step: Step): State {
    match step
    case Propagate(err) => s.(error := Some(err))
    case CloseChannel => s.(closed := true, bareClose := s.bareClose || s.error.None?)
    case Clone(sender) => if sender in s.senders then s else With(s, sender, Idle)
    case BeginSend(sender) =>
      if sender in s.senders && s.senders[sender].Idle? then
        With(s, sender, if s.closed then SendFailed else Done(Sent))
      else s
    case AskClosed(sender) =>
      if sender in s.senders && s.senders[sender].SendFailed? then
        With(s, sender, if s.closed then SawClosed else Done(NormalError))
      else s
    case ReadError(sender) =>
      if sender in s.senders && s.senders[sender].SawClosed? then
        With(s, sender, Done(if s.error.Some? then ChannelError(s.error.value) else NormalError))
      else s
    case NextSend(sender) =>
      if sender in s.senders && s.senders[sender].Done? then With(s, sender, Idle) else s
  }

  function Run(s: State, steps: seq<Step>): State
    decreases |steps|
  {
    if steps == [] then s else Run(Apply(s, steps[0]), steps[1..])
  }

  /** Every close of the run comes after an error was stored. */
  predicate ErrorBeforeClose(s: State, steps: seq<Step>)
    decreases |steps|
  {
    steps == [] || ((steps[0].CloseChannel? ==> s.error.Some?) && ErrorBeforeClose(Apply(s, steps[0]), steps[1..]))
  }

  ghost predicate Inv(s: State) {
    && (s.closed && !s.bareClose ==> s.error.Some?)
    && (s.bareClose ==> s.closed)
    && forall i :: i in s.senders ==>
         && (s.senders[i].SendFailed? || s.senders[i].SawClosed? ==> s.closed)
         && (s.senders[i] == Done(NormalError) ==> s.bareClose)
  }

  lemma StepInv(s: State, step: Step)
    requires Inv(s)
    ensures Inv(Apply(s, step))
    ensures Apply(s, step).bareClose <==> s.bareClose || (step.CloseChannel? && s.error.None?)
    ensures s.closed ==> Apply(s, step).closed
  {
  }

  lemma {:induction false} RunInv(s: State, steps: seq<Step>)
    requires Inv(s)
    ensures Inv(Run(s, steps))
    ensures Run(s, steps).bareClose <==> s.bareClose || !ErrorBeforeClose(s, steps)
    decreases |steps|
  {
    if steps != [] {
      StepInv(s, steps[0]);
      RunInv(Apply(s, steps[0]), steps[1..]);
    }
  }

  lemma {:induction false} RunConcat(s: State, a: seq<Step>, b: seq<Step>)
    ensures Run(s, a + b) == Run(Run(s, a), b)
    decreases |a|
  {
    if a == [] {
      assert a + b == b;
    } else {
      assert (a + b)[0] == a[0] && (a + b)[1..] == a[1..] + b;
      RunConcat(Apply(s, a[0]), a[1..], b);
    }
  }

  /** In every interleaving of a receiver that stores an error before it closes with any number of
      senders, no failed send reports the plain error, not even between the three looks it takes. */
  lemma {:induction false} FailedSendsReportTheError(steps: seq<Step>, sender: nat)
    requires ErrorBeforeClose(Init(), steps)
    ensures var s := Run(Init(), steps); sender in s.senders ==> s.senders[sender] != Done(NormalError)
  {
    RunInv(Init(), steps);
  }

  /** The order is needed: after any run with a close that came first, some continuation makes a
      send fail with the plain error, unless an error was stored in the meantime. */
  lemma {:induction false} BareCloseIsNoticed(steps: seq<Step>, sender: nat)
    requires var s := Run(Init(), steps); s.closed && s.error.None? && sender in s.senders && s.senders[sender].Idle?
    ensures var s := Run(Init(), steps + SendSteps(sender));
      sender in s.senders && s.senders[sender] == Done(NormalError)
  {
    RunConcat(Init(), steps, SendSteps(sender));
    SendFromIdle(Run(Init(), steps), sender);
  }

  /** The last error stored by the run, if any. */
  function LastError(steps: seq<Step>): Option<ErrorCode> {
    if steps == [] then None
    else if steps[|steps| - 1].Propagate? then Some(steps[|steps| - 1].err)
    else LastError(steps[..|steps| - 1])
  }

  /** A later error replaces an earlier one: a failed send reports the last error stored before it
      reads, so a second call of `propagate_error` is not discarded. */
  lemma {:induction false} LastErrorWins(steps: seq<Step>, sender: nat)
    ensures Run(Init(), steps).error == LastError(steps)
    ensures var s := Run(Init(), steps);
      sender in s.senders && s.senders[sender].SawClosed? ==>
        Apply(s, ReadError(sender)).senders[sender]
          == Done(if LastError(steps).Some? then ChannelError(LastError(steps).value) else NormalError)
  {
    if steps != [] {
      var front, last := steps[..|steps| - 1], steps[|steps| - 1];
      LastErrorWins(front, sender);
      assert steps == front + [last];
      RunConcat(Init(), front, [last]);
      assert [last][1..] == [];
      assert Run(Run(Init(), front), [last]) == Run(Apply(Run(Init(), front), last), []);
    }
  }

  /** What a send that meets no interference ends with. */
  function Outcome(s: State): Result {
    if !s.closed then Sent else if s.error.Some? then ChannelError(s.error.value) else NormalError
  }

  function SendSteps(sender: nat): seq<Step> {
    [BeginSend(sender), AskClosed(sender), ReadError(sender)]
  }

  lemma SendFromIdle(s: State, sender: nat)
    requires sender in s.senders && s.senders[sender].Idle?
    ensures Run(s, SendSteps(sender)) == With(s, sender, Done(Outcome(s)))
  {
    var last := SendSteps(sender);
    var s1 := Apply(s, last[0]);
    var s2 := Apply(s1, last[1]);
    var s3 := Apply(s2, last[2]);
    assert last[1..] == [AskClosed(sender), ReadError(sender)] && last[1..][1..] == [ReadError(sender)];
    assert [ReadError(sender)][1..] == [];
    assert Run(s, last) == Run(s1, last[1..]) == Run(s2, [ReadError(sender)]) == Run(s3, []) == s3;
    assert s3.senders == s.senders[sender := Done(Outcome(s))];
  }

  /** In every reachable state a fresh clone, and a sender whose last send is over, can send, and the
      outcome depends on the channel alone: a clone is as good as the original. */
  lemma {:induction false} EverySenderSends(steps: seq<Step>, sender: nat)
    ensures var s := Run(Init(), steps);
      && (sender !in s.senders ==>
            Run(Apply(s, Clone(sender)), SendSteps(sender)) == With(s, sender, Done(Outcome(s))))
      && (sender in s.senders && s.senders[sender].Done? ==>
            Run(Apply(s, NextSend(sender)), SendSteps(sender)) == With(s, sender, Done(Outcome(s))))
  {
    var s := Run(Init(), steps);
    var idle := With(s, sender, Idle);
    SendFromIdle(idle, sender);
    assert idle.senders[sender := Done(Outcome(s))] == s.senders[sender := Done(Outcome(s))];
  }

  predicate NoPropagate(steps: seq<Step>) {
    forall i :: 0 <= i < |steps| ==> !steps[i].Propagate?
  }

  /** The sender has no finished send whose result it has yet to look at. */
  predicate Unfinished(s: State, sender: nat) {
    sender in s.senders ==> !s.senders[sender].Done?
  }

  lemma {:induction false} SendsAfterClose(s: State, steps: seq<Step>, err: ErrorCode, sender: nat)
    requires s.closed && s.error == Some(err) && NoPropagate(steps)
    requires Unfinished(s, sender) || s.senders[sender] == Done(ChannelError(err))
    ensures var t := Run(s, steps); Unfinished(t, sender) || t.senders[sender] == Done(ChannelError(err))
    decreases |steps|
  {
    if steps != [] { SendsAfterClose(Apply(s, steps[0]), steps[1..], err, sender); }
  }

  /** A receiver that stores an error and then closes settles every send: whatever the senders did
      before and do afterwards, a send that was not over at the close fails with this error. */
  lemma {:induction false} FailureReachesEverySend(before: seq<Step>, err: ErrorCode, after: seq<Step>, sender: nat)
    requires NoPropagate(after) && Unfinished(Run(Init(), before), sender)
    ensures var t := Run(Init(), before + [Propagate(err), CloseChannel] + after);
      sender in t.senders && t.senders[sender].Done? ==> t.senders[sender] == Done(ChannelError(err))
  {
    var s := Run(Init(), before);
    var fail := [Propagate(err), CloseChannel];
    RunConcat(Init(), before + fail, after);
    RunConcat(Init(), before, fail);
    var s1 := Apply(s, Propagate(err));
    assert fail[1..] == [CloseChannel] && [CloseChannel][1..] == [];
    assert Run(s, fail) == Run(s1, [CloseChannel]) == Run(Apply(s1, CloseChannel), []);
    SendsAfterClose(Run(s, fail), after, err, sender);
  }

  /** The shared state of the channel, as an object. */
  class Channel {
    var closed: bool
    var error: Option<ErrorCode>
    var items: seq<Bytes>

    constructor ()
      ensures !closed && error.None? && items == []
    {
      closed, error, items := false, None, [];
    }

    method PropagateError(err: ErrorCode)
      modifies this`error
      ensures forall senders, bare ::
        State(closed, error, senders, bare) == Apply(State(closed, old(error), senders, bare), Propagate(err))
    {
      error := Some(err);
    }

    method Close()
      modifies this`closed
      ensures forall senders, bare ::
        State(closed, error, senders, bare || error.None?)
          == Apply(State(old(closed), error, senders, bare), CloseChannel)
    {
      closed := true;
    }

    /** The receiver's way of failing: it stores the error and then closes. However many senders
        there are and whatever they and the receiver do afterwards, short of storing another error,
        a send that was not over when the channel closed cannot end in any other way than with
        this error. */
    method FailWith(err: ErrorCode)
      modifies this`error, this`closed
      ensures items == old(items)
      ensures forall senders, after, sender ::
        var s := State(closed, error, senders, false);
        var t := Run(s, after);
        NoPropagate(after) && Unfinished(s, sender) && sender in t.senders && t.senders[sender].Done? ==>
          t.senders[sender] == Done(ChannelError(err))
    {
      PropagateError(err);
      assert State(closed, error, map[], false) == Apply(State(closed, old(error), map[], false), Propagate(err));
      Close();
      assert State(closed, error, map[], false || error.None?)
          == Apply(State(old(closed), error, map[], false), CloseChannel);
      forall senders, after, sender | NoPropagate(after) && Unfinished(State(closed, error, senders, false), sender)
        ensures var t := Run(State(closed, error, senders, false), after);
          sender in t.senders && t.senders[sender].Done? ==> t.senders[sender] == Done(ChannelError(err))
      {
        SendsAfterClose(State(closed, error, senders, false), after, err, sender);
      }
    }

    function CheckForError(): Option<ErrorCode>
      reads this
    {
      if closed then error else None
    }

    /** `start_send` without interference: the outcome that the three looks of a sender lead to. */
    method StartSend(item: Bytes) returns (r: Result)
      modifies this`items
      ensures r.Sent? <==> !closed
      ensures items == if r.Sent? then old(items) + [item] else old(items)
      ensures forall bare: bool ::
        var s := State(closed, error, map[0 := Idle], bare);
        Run(s, SendSteps(0)) == With(s, 0, Done(r))
    {
      if !closed {
        items := items + [item];
        r := Sent;
      } else {
        var err := CheckForError();
        r := if err.Some? then ChannelError(err.value) else NormalError;
      }
      forall bare: bool
        ensures var s := State(closed, error, map[0 := Idle], bare); Run(s, SendSteps(0)) == With(s, 0, Done(r))
      {
        SendFromIdle(State(closed, error, map[0 := Idle], bare), 0);
      }
    }
  }
}
