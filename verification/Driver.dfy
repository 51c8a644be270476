/** The driver's loop: how often one poll goes around and what wakes it up again. */
module Driver {
  import opened Base

  const MAX_LOOPS_WITHOUT_SLEEP: nat := 50

  /** How the surroundings answer in one round: whether the application dropped its `Context`, when
      picoquic wants to be woken, and whether the timer reset to that time has fired already. */
  datatype Round = Round(contextDropped: bool, nextWake: Option<nat>, timerFired: bool)

  /** The timer, once it was reset: when it fires, and whether a poll registered the task with it. */
  datatype Timer = Timer(at: nat, registered: bool)

  predicate Sleeps(r: Round) {
    r.nextWake.Some? && !r.timerFired
  }

  method ResetTimer(r: Round, at: nat) returns (timer: Timer, notReady: bool)
    ensures timer == Timer(at, !r.timerFired) && notReady == !r.timerFired
  {
    notReady := !r.timerFired;
    timer := Timer(at, notReady);
  }

  /** One poll of the driver. It goes around at most 51 times, stops at the first round in which the
      `Context` is gone or the timer sleeps, and never returns without a wake-up on its way. */
  method Poll(rounds: nat -> Round, initial: Timer) returns (ready: bool, notified: bool, timer: Timer, count: nat)
    ensures 1 <= count <= MAX_LOOPS_WITHOUT_SLEEP + 1
    ensures forall i :: 0 <= i < count - 1 ==> !rounds(i).contextDropped && !Sleeps(rounds(i))
    ensures ready <==> rounds(count - 1).contextDropped
    ensures notified <==> !ready && count == MAX_LOOPS_WITHOUT_SLEEP + 1
    ensures !ready && !notified ==> Sleeps(rounds(count - 1)) && timer == Timer(rounds(count - 1).nextWake.value, true)
    ensures !ready ==> notified || timer.registered
  {
    var loopsWithoutSleep := 0;
    timer := initial;
    ready, notified, count := false, false, 0;
    while true
      invariant count == loopsWithoutSleep <= MAX_LOOPS_WITHOUT_SLEEP
      invariant !ready && !notified
      invariant forall i :: 0 <= i < count ==> !rounds(i).contextDropped && !Sleeps(rounds(i))
      decreases MAX_LOOPS_WITHOUT_SLEEP - loopsWithoutSleep
    {
      var r := rounds(count);
      count := count + 1;
      if r.contextDropped {
        ready := true;
        return;
      }
      if loopsWithoutSleep >= MAX_LOOPS_WITHOUT_SLEEP {
        notified := true;
        return;
      } else if r.nextWake.Some? {
        var notReady;
        timer, notReady := ResetTimer(r, r.nextWake.value);
        if !notReady {
          loopsWithoutSleep := loopsWithoutSleep + 1;
        } else {
          return;
        }
      } else {
        loopsWithoutSleep := loopsWithoutSleep + 1;
      }
    }
  }
}
