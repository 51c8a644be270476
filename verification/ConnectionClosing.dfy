/** What the application is told about its connection, that a close it asks for takes effect, and how
    the establishment is decided. */
module ConnectionClosing {
  import opened Base
  import opened StreamIds
  import opened ConnectionModel
  import opened ConnectionRuns
  import S = StreamModel
  import StreamSending

  // ---------------------------------------------------------------- what the application is told

  /** The messages a step is worth to the application: each new context for a stream of the peer, an
      error after the establishment, and each time the connection is closed. */
  function Tells(c: Conn, step: Step): seq<ConnMessage> {
    if !Enabled(c, step) then [] else
    match step
    case DoStream(id, _) => if id != 0 && id !in c.mux.streams then [IncomingStream(id)] else []
    case DoCloseEvent(err) => (if err.Some? && !c.life.waiting then [ConnError(err.value)] else []) + [ConnClose]
    case DoPoll => if !c.life.closed && c.life.closeAsked then [ConnClose] else []
    case _ => []
  }

  /** How a step decides an establishment that is being waited for: the ready event, the error of the
      close event, or the loss of the last owner. */
  function Decides(c: Conn, step: Step): seq<Outcome> {
    if !Enabled(c, step) || !c.life.waiting then [] else
    match step
    case DoReady => [Established]
    case DoCloseEvent(err) =>
      if err.Some? then [NotEstablished(err.value)] else if !c.own.listed then [Canceled] else []
    case DoPoll => if c.life.closed && !c.own.pointer then [Canceled] else []
    case _ => []
  }

  function ToldIn(c: Conn, steps: seq<Step>): seq<ConnMessage>
    decreases |steps|
  {
    if steps == [] then [] else Tells(c, steps[0]) + ToldIn(Apply(c, steps[0]), steps[1..])
  }

  function DecidedIn(c: Conn, steps: seq<Step>): seq<Outcome>
    decreases |steps|
  {
    if steps == [] then [] else Decides(c, steps[0]) + DecidedIn(Apply(c, steps[0]), steps[1..])
  }

  lemma ReleaseLife(c: Conn)
    ensures var d := Release(c);
      && d.life.messages == c.life.messages && d.life.closed == c.life.closed && d.life.closeAsked == c.life.closeAsked
      && d.life.outcomes == c.life.outcomes + (if c.own.strong == 1 && c.life.waiting then [Canceled] else [])
  {
  }

  lemma CloseEventLife(c: Conn, err: Option<ErrorCode>)
    requires Inv(c) && c.own.pointer
    ensures var d := CloseEvent(c, err).life;
      && d.messages == c.life.messages + Tells(c, DoCloseEvent(err))
      && d.outcomes == c.life.outcomes + Decides(c, DoCloseEvent(err))
      && d.closed
  {
    var e := CloseConn(if err.Some? then HandleError(c, err.value) else c);
    ReleaseLife(e.(own := e.own.(pointer := false)));
  }

  lemma PollLife(c: Conn)
    requires Inv(c) && c.own.listed && c.req.issued + 1 < U62
    ensures var d := PollListed(c).life;
      && d.messages == c.life.messages + Tells(c, DoPoll)
      && d.outcomes == c.life.outcomes + Decides(c, DoPoll)
      && d.closed == (c.life.closed || c.life.closeAsked)
  {
    if c.life.closed {
      ReleaseLife(c.(own := c.own.(listed := false)));
    } else {
      PolledAndCreated(c);
    }
  }

  lemma StepLife(c: Conn, step: Step)
    requires Inv(c) && Trusted(c, step) && c.req.issued + 1 < U62
    ensures var d := Apply(c, step).life;
      && d.messages == c.life.messages + Tells(c, step)
      && d.outcomes == c.life.outcomes + Decides(c, step)
  {
    if Enabled(c, step) {
      match step
      case DoCloseEvent(err) => CloseEventLife(c, err);
      case DoPoll => PollLife(c);
      case _ =>
    }
  }

  lemma MessagesAssoc(a: seq<ConnMessage>, b: seq<ConnMessage>, c: seq<ConnMessage>)
    ensures a + b + c == a + (b + c)
  {
  }

  lemma OutcomesAssoc(a: seq<Outcome>, b: seq<Outcome>, c: seq<Outcome>)
    ensures a + b + c == a + (b + c)
  {
  }

  lemma {:induction false} RunLife(c: Conn, steps: seq<Step>)
    requires Inv(c) && TrustedRun(c, steps) && c.req.issued + Asks(steps) + 1 < U62
    ensures Run(c, steps).life.messages == c.life.messages + ToldIn(c, steps)
    ensures Run(c, steps).life.outcomes == c.life.outcomes + DecidedIn(c, steps)
    decreases |steps|
  {
    if steps != [] {
      var d := Apply(c, steps[0]);
      StepInv(c, steps[0]);
      StepIssued(c, steps[0]);
      StepLife(c, steps[0]);
      RunLife(d, steps[1..]);
      MessagesAssoc(c.life.messages, Tells(c, steps[0]), ToldIn(d, steps[1..]));
      OutcomesAssoc(c.life.outcomes, Decides(c, steps[0]), DecidedIn(d, steps[1..]));
    }
  }

  /** In every run the application is told exactly what the run was worth, in order, and the
      establishment is decided by exactly the steps that can. */
  lemma {:induction false} MessagesAre(isClient: bool, steps: seq<Step>)
    requires TrustedRun(Init(isClient), steps) && Asks(steps) + 1 < U62
    ensures Run(Init(isClient), steps).life.messages == ToldIn(Init(isClient), steps)
    ensures Run(Init(isClient), steps).life.outcomes == DecidedIn(Init(isClient), steps)
  {
    InitInv(isClient);
    RunLife(Init(isClient), steps);
  }

  // ---------------------------------------------------------------- closing

  /** Only a closed connection leaves the driver's list, and a connection is closed exactly if the
      application was told so. */
  ghost predicate CloseInv(c: Conn) {
    (c.own.listed || c.life.closed) && (c.life.closed <==> ConnClose in c.life.messages)
  }

  lemma StepClose(c: Conn, step: Step)
    requires Inv(c) && Trusted(c, step) && c.req.issued + 1 < U62 && CloseInv(c)
    ensures var d := Apply(c, step);
      && CloseInv(d) && (c.life.closed ==> d.life.closed)
      && (c.life.closeAsked ==> d.life.closeAsked) && (step.DoCloseAsked? ==> d.life.closeAsked)
      && (step.DoPoll? && c.life.closeAsked ==> d.life.closed)
  {
    StepLife(c, step);
    if Enabled(c, step) {
      match step
      case DoCloseEvent(err) => CloseEventLife(c, err); CloseEventOwners(c, err);
      case DoPoll => PollLife(c); PollOwners(c);
      case _ =>
    }
  }

  lemma CloseEventOwners(c: Conn, err: Option<ErrorCode>)
    ensures CloseEvent(c, err).own.listed == c.own.listed && CloseEvent(c, err).life.closeAsked == c.life.closeAsked
  {
  }

  lemma PollOwners(c: Conn)
    ensures PollListed(c).own.listed == (c.own.listed && !c.life.closed)
    ensures PollListed(c).life.closeAsked == c.life.closeAsked
  {
  }

  lemma {:induction false} RunClose(c: Conn, steps: seq<Step>)
    requires Inv(c) && TrustedRun(c, steps) && c.req.issued + Asks(steps) + 1 < U62 && CloseInv(c)
    ensures var d := Run(c, steps);
      && CloseInv(d) && (c.life.closed ==> d.life.closed) && (c.life.closeAsked ==> d.life.closeAsked)
    decreases |steps|
  {
    if steps != [] {
      StepInv(c, steps[0]);
      StepIssued(c, steps[0]);
      StepClose(c, steps[0]);
      RunClose(Apply(c, steps[0]), steps[1..]);
    }
  }

  /** Over every run the connection is closed exactly if the application was told so. */
  lemma {:induction false} ClosedIsTold(isClient: bool, steps: seq<Step>)
    requires TrustedRun(Init(isClient), steps) && Asks(steps) + 1 < U62
    ensures var life := Run(Init(isClient), steps).life; life.closed <==> ConnClose in life.messages
  {
    InitInv(isClient);
    RunClose(Init(isClient), steps);
  }

  /** A close the application asks for takes effect with the next poll of the driver, whatever happens
      in between: the connection is then closed and the application told; one more poll takes it off
      the driver's list. */
  lemma {:induction false} AskedCloseTakesEffect(isClient: bool, before: seq<Step>, between: seq<Step>)
    requires TrustedRun(Init(isClient), before)
    requires TrustedRun(Apply(Run(Init(isClient), before), DoCloseAsked), between)
    requires Asks(before) + Asks(between) + 1 < U62
    ensures var d := Apply(Run(Apply(Run(Init(isClient), before), DoCloseAsked), between), DoPoll);
      d.life.closed && ConnClose in d.life.messages && !Apply(d, DoPoll).own.listed
  {
    InvOfRun(isClient, before);
    InitInv(isClient);
    RunClose(Init(isClient), before);
    AskThenPoll(Run(Init(isClient), before), between);
  }

  lemma {:induction false} AskThenPoll(c: Conn, between: seq<Step>)
    requires Inv(c) && CloseInv(c) && TrustedRun(Apply(c, DoCloseAsked), between)
    requires c.req.issued + Asks(between) + 1 < U62
    ensures var d := Apply(Run(Apply(c, DoCloseAsked), between), DoPoll);
      d.life.closed && ConnClose in d.life.messages && !Apply(d, DoPoll).own.listed
  {
    var a := Apply(c, DoCloseAsked);
    StepInv(c, DoCloseAsked);
    StepClose(c, DoCloseAsked);
    RunClose(a, between);
    RunInv(a, between);
    PollsClose(Run(a, between));
  }

  lemma PollsClose(c: Conn)
    requires Inv(c) && CloseInv(c) && c.life.closeAsked && c.req.issued + 1 < U62
    ensures var d := Apply(c, DoPoll);
      d.life.closed && ConnClose in d.life.messages && !Apply(d, DoPoll).own.listed
  {
    var d := Apply(c, DoPoll);
    StepClose(c, DoPoll);
    StepInv(c, DoPoll);
    PollOwners(d);
  }

  /** An application that still listens has heard of the end last. */
  predicate HeardClose(s: S.State) {
    s.rx.appRecv ==> s.rx.inbox != [] && s.rx.inbox[|s.rx.inbox| - 1] == S.Close
  }

  lemma StreamHearsClose(id: nat, isClient: bool, s: S.State)
    requires StreamOk(id, isClient, s)
    ensures HeardClose(S.Apply(s, S.DoConnectionClose))
  {
    var steps: seq<S.Step> :| s == S.Run(S.Init(id, isClient), steps);
    StreamSending.InvOfRun(id, isClient, steps);
  }

  lemma CloseReachesStreams(c: Conn, id: nat)
    requires StreamsOk(c.isClient, c.mux.streams) && id in c.mux.streams
    ensures id in CloseConn(c).mux.streams && HeardClose(CloseConn(c).mux.streams[id])
  {
    StreamHearsClose(id, c.isClient, c.mux.streams[id]);
  }

  lemma PollReachesStreams(c: Conn, id: nat)
    requires Inv(c) && c.req.issued + 1 < U62 && c.own.listed && !c.life.closed && c.life.closeAsked
    requires id in Apply(c, DoPoll).mux.streams
    ensures HeardClose(Apply(c, DoPoll).mux.streams[id])
  {
    assert Apply(c, DoPoll) == PollConn(c);
    var (m, r) := CreateAll(c.isClient, c.mux.(streams := PollStreams(c.mux.streams)), c.req);
    PolledAndCreated(c);
    CloseReachesStreams(c.(mux := m, req := r), id);
  }

  /** The poll that carries out the close tells every stream whose application still listens. */
  lemma {:induction false} AskedCloseReachesStreams(isClient: bool, steps: seq<Step>, id: nat)
    requires TrustedRun(Init(isClient), steps) && Asks(steps) + 1 < U62
    ensures var c := Run(Init(isClient), steps);
      var d := Apply(c, DoPoll).mux.streams;
      c.own.listed && !c.life.closed && c.life.closeAsked && id in d ==> HeardClose(d[id])
  {
    var c := Run(Init(isClient), steps);
    InvOfRun(isClient, steps);
    if c.own.listed && !c.life.closed && c.life.closeAsked && id in Apply(c, DoPoll).mux.streams {
      PollReachesStreams(c, id);
    }
  }
}
