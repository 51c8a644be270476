/** What becomes of the requests for streams: each is answered with a stream of the type asked for, by
    the next poll, or with the error that ended the connection. */
module ConnectionRequests {
  import opened Base
  import opened StreamIds
  import opened ConnectionModel
  import opened ConnectionRuns
  import S = StreamModel

  // ---------------------------------------------------------------- the type asked for

  /** The types of the requests a run makes, in order. */
  function AskedTypes(steps: seq<Step>): seq<StreamType> {
    if steps == [] then [] else (if steps[0].DoAsk? then [steps[0].stype] else []) + AskedTypes(steps[1..])
  }

  /** The requests have the types asked for, and so have the streams opened for them. */
  ghost predicate TypesInv(isClient: bool, mux: Mux, req: Requests, types: seq<StreamType>) {
    && |types| == req.issued
    && (forall i :: 0 <= i < |req.queue| ==>
          req.queue[i].ticket < |types| && req.queue[i].stype == types[req.queue[i].ticket])
    && (forall k :: 0 <= k < |mux.localOpens| ==>
          && mux.localOpens[k].ticket < |types|
          && mux.localOpens[k].id == GenerateStreamId(k, isClient, types[mux.localOpens[k].ticket]))
  }

  lemma AskTypes(isClient: bool, mux: Mux, req: Requests, types: seq<StreamType>, stype: StreamType)
    requires TypesInv(isClient, mux, req, types)
    ensures TypesInv(isClient, mux, Ask(req, stype), types + [stype])
  {
  }

  lemma CreateOneTypes(isClient: bool, mux: Mux, req: Requests, types: seq<StreamType>)
    requires req.queue != [] && |mux.localOpens| == mux.nextStreamId && TypesInv(isClient, mux, req, types)
    ensures var (m, r) := CreateOne(isClient, mux, req); TypesInv(isClient, m, r, types)
  {
    var (m, r) := CreateOne(isClient, mux, req);
    assert forall i :: 0 <= i < |r.queue| ==> r.queue[i] == req.queue[i + 1];
  }

  lemma {:induction false} CreateAllTypes(isClient: bool, mux: Mux, req: Requests, types: seq<StreamType>)
    requires IdInv(isClient, mux) && mux.nextStreamId + |req.queue| + 1 < U62 && TypesInv(isClient, mux, req, types)
    ensures var (m, r) := CreateAll(isClient, mux, req); TypesInv(isClient, m, r, types)
    decreases |req.queue|
  {
    if req.queue != [] {
      var (m, r) := CreateOne(isClient, mux, req);
      NextIdIsFresh(isClient, mux, req.queue[0].stype);
      CreateOneIds(isClient, mux, req);
      CreateOneTypes(isClient, mux, req, types);
      CreateAllTypes(isClient, m, r, types);
    }
  }

  lemma EmptiedTypes(c: Conn, d: Conn, types: seq<StreamType>)
    requires TypesInv(c.isClient, c.mux, c.req, types)
    requires d.isClient == c.isClient && d.mux.localOpens == c.mux.localOpens && d.req.issued == c.req.issued
    requires d.req.queue == c.req.queue || d.req.queue == []
    ensures TypesInv(d.isClient, d.mux, d.req, types)
  {
  }

  lemma CloseEventQueue(c: Conn, err: Option<ErrorCode>)
    requires Inv(c) && c.own.pointer
    ensures var d := CloseEvent(c, err);
      d.mux.localOpens == c.mux.localOpens && (d.req.queue == c.req.queue || d.req.queue == [])
  {
    AnswerAllEffect(c.req.(open := false), FailedUnknown);
    if err.Some? {
      FailAllAnswers(c.req, err.value);
    }
  }

  lemma PollTypes(c: Conn, types: seq<StreamType>)
    requires Inv(c) && c.own.listed && c.req.issued + 1 < U62 && TypesInv(c.isClient, c.mux, c.req, types)
    ensures TypesInv(c.isClient, PollListed(c).mux, PollListed(c).req, types)
  {
    if c.life.closed {
      AnswerAllEffect(c.req.(open := false), FailedUnknown);
      EmptiedTypes(c, PollListed(c), types);
    } else {
      PollStreamsKeep(c);
      CreateAllTypes(c.isClient, c.mux.(streams := PollStreams(c.mux.streams)), c.req, types);
    }
  }

  lemma StepTypes(c: Conn, step: Step, types: seq<StreamType>)
    requires Inv(c) && Trusted(c, step) && c.req.issued + 1 < U62 && TypesInv(c.isClient, c.mux, c.req, types)
    ensures var d := Apply(c, step);
      TypesInv(d.isClient, d.mux, d.req, types + (if step.DoAsk? then [step.stype] else []))
  {
    if step.DoAsk? {
      AskTypes(c.isClient, c.mux, c.req, types, step.stype);
    } else {
      assert types + [] == types;
      StepClient(c, step);
      if Enabled(c, step) && step.DoPoll? {
        PollTypes(c, types);
      } else if Enabled(c, step) && step.DoCloseEvent? {
        CloseEventQueue(c, step.err);
        CloseEventKeeps(c, step.err);
        EmptiedTypes(c, Apply(c, step), types);
      } else {
        EmptiedTypes(c, Apply(c, step), types);
      }
    }
  }

  lemma TypesAssoc(a: seq<StreamType>, b: seq<StreamType>, c: seq<StreamType>)
    ensures a + b + c == a + (b + c)
  {
  }

  lemma {:induction false} RunTypes(c: Conn, steps: seq<Step>, types: seq<StreamType>)
    requires Inv(c) && TrustedRun(c, steps) && c.req.issued + Asks(steps) + 1 < U62
    requires TypesInv(c.isClient, c.mux, c.req, types)
    ensures var d := Run(c, steps); TypesInv(d.isClient, d.mux, d.req, types + AskedTypes(steps))
    decreases |steps|
  {
    if steps == [] {
      assert types + AskedTypes(steps) == types;
    } else {
      var more := if steps[0].DoAsk? then [steps[0].stype] else [];
      StepInv(c, steps[0]);
      StepIssued(c, steps[0]);
      StepTypes(c, steps[0], types);
      RunTypes(Apply(c, steps[0]), steps[1..], types + more);
      TypesAssoc(types, more, AskedTypes(steps[1..]));
    }
  }

  lemma InitTypes(isClient: bool)
    ensures var c := Init(isClient); TypesInv(c.isClient, c.mux, c.req, []) && c.req.issued == 0
  {
  }

  lemma {:induction false} TypesOfRun(isClient: bool, steps: seq<Step>)
    requires TrustedRun(Init(isClient), steps) && Asks(steps) + 1 < U62
    ensures var c := Run(Init(isClient), steps); TypesInv(isClient, c.mux, c.req, AskedTypes(steps))
  {
    InitInv(isClient);
    InitTypes(isClient);
    RunTypes(Init(isClient), steps, []);
    RunClient(Init(isClient), steps);
    assert [] + AskedTypes(steps) == AskedTypes(steps);
  }

  /** Over every run a request that is answered with a stream gets one of the type it asked for: the
      k-th stream opened here, with the k-th id of that type, which is unidirectional exactly if a
      unidirectional stream was asked for. */
  lemma {:induction false} AnswersHaveTheTypeAskedFor(isClient: bool, steps: seq<Step>, t: nat)
    requires TrustedRun(Init(isClient), steps) && Asks(steps) + 1 < U62
    requires OpenedFor(Run(Init(isClient), steps).req, t)
    ensures var c := Run(Init(isClient), steps);
      && t < |AskedTypes(steps)|
      && (IsUnidirectional(c.req.answers[t].id) <==> AskedTypes(steps)[t].Unidirectional?)
      && exists k :: 0 <= k < |c.mux.localOpens| && c.mux.localOpens[k].ticket == t
           && c.req.answers[t].id == GenerateStreamId(k, isClient, AskedTypes(steps)[t])
  {
    InvOfRun(isClient, steps);
    TypesOfRun(isClient, steps);
    var c := Run(Init(isClient), steps);
    var k :| 0 <= k < |c.mux.localOpens| && c.mux.localOpens[k] == Opened(t, c.req.answers[t].id);
    GeneratedIdDecodes(k, isClient, AskedTypes(steps)[t]);
    assert c.mux.localOpens[k].ticket == t;
  }

  // ---------------------------------------------------------------- the next poll answers

  /** The streams opened from the `n`-th on answer these requests, in order, and are in the map. */
  ghost predicate Serves(isClient: bool, queue: seq<Request>, n: nat, mux: Mux) {
    && |mux.localOpens| == n + |queue|
    && forall i :: 0 <= i < |queue| ==>
         && mux.localOpens[n + i] == Opened(queue[i].ticket, GenerateStreamId(n + i, isClient, queue[i].stype))
         && mux.localOpens[n + i].id in mux.streams
  }

  lemma ServesFirst(isClient: bool, queue: seq<Request>, n: nat, mux: Mux)
    requires queue != [] && Serves(isClient, queue[1..], n + 1, mux)
    requires mux.localOpens[n] == Opened(queue[0].ticket, GenerateStreamId(n, isClient, queue[0].stype))
    requires mux.localOpens[n].id in mux.streams
    ensures Serves(isClient, queue, n, mux)
  {
    forall i | 0 < i < |queue|
      ensures mux.localOpens[n + i] == Opened(queue[i].ticket, GenerateStreamId(n + i, isClient, queue[i].stype))
      ensures mux.localOpens[n + i].id in mux.streams
    {
      assert queue[1..][i - 1] == queue[i] && n + i == (n + 1) + (i - 1);
    }
  }

  lemma CreateOneServes(isClient: bool, mux: Mux, req: Requests)
    requires req.queue != [] && |mux.localOpens| == mux.nextStreamId < U62
    ensures var m := CreateOne(isClient, mux, req).0;
      var n := |mux.localOpens|;
      && |m.localOpens| == n + 1 && mux.streams.Keys <= m.streams.Keys
      && m.localOpens[n] == Opened(req.queue[0].ticket, GenerateStreamId(n, isClient, req.queue[0].stype))
      && m.localOpens[n].id in m.streams
  {
  }

  lemma {:induction false} CreateAllServes(isClient: bool, mux: Mux, req: Requests)
    requires IdInv(isClient, mux) && ReqInv(req) && mux.nextStreamId + |req.queue| + 1 < U62
    ensures var (m, r) := CreateAll(isClient, mux, req);
      r.queue == [] && mux.streams.Keys <= m.streams.Keys && Serves(isClient, req.queue, |mux.localOpens|, m)
    decreases |req.queue|
  {
    if req.queue != [] {
      var (m, r) := CreateOne(isClient, mux, req);
      var last := CreateAll(isClient, m, r).0;
      NextIdIsFresh(isClient, mux, req.queue[0].stype);
      CreateOneIds(isClient, mux, req);
      CreateOneRequests(isClient, mux, req);
      CreateOneServes(isClient, mux, req);
      CreateAllServes(isClient, m, r);
      CreateAllGrows(isClient, m, r);
      assert last.localOpens[|mux.localOpens|] == m.localOpens[|mux.localOpens|];
      ServesFirst(isClient, req.queue, |mux.localOpens|, last);
    }
  }

  lemma PollServes(c: Conn)
    requires Inv(c) && c.req.issued + 1 < U62 && c.own.listed && !c.life.closed
    ensures var d := Apply(c, DoPoll); d.req.queue == [] && Serves(c.isClient, c.req.queue, |c.mux.localOpens|, d.mux)
  {
    var polled := c.mux.(streams := PollStreams(c.mux.streams));
    PollStreamsKeep(c);
    CreateAllServes(c.isClient, polled, c.req);
    var (m, r) := CreateAll(c.isClient, polled, c.req);
    PolledAndCreated(c);
    ClosingServes(c.(mux := m, req := r), c.req.queue, |c.mux.localOpens|);
  }

  lemma ClosingServes(c: Conn, queue: seq<Request>, n: nat)
    requires Serves(c.isClient, queue, n, c.mux)
    ensures Serves(c.isClient, queue, n, CloseConn(c).mux) && CloseConn(c).req == c.req
  {
    assert CloseConn(c).mux.streams.Keys == c.mux.streams.Keys;
  }

  /** A poll of a connection that is not closed opens a stream for each waiting request, in order and
      of its type, and none waits any longer; the streams are in the map. */
  lemma {:induction false} PollAnswersRequests(isClient: bool, steps: seq<Step>)
    requires TrustedRun(Init(isClient), steps) && Asks(steps) + 1 < U62
    ensures var c := Run(Init(isClient), steps);
      var d := Apply(c, DoPoll);
      c.own.listed && !c.life.closed ==>
        d.req.queue == [] && Serves(isClient, c.req.queue, |c.mux.localOpens|, d.mux)
  {
    InvOfRun(isClient, steps);
    var c := Run(Init(isClient), steps);
    if c.own.listed && !c.life.closed { PollServes(c); }
  }

  // ---------------------------------------------------------------- after the connection closed

  /** Until the close event the queue of requests is open and no error is stored. */
  ghost predicate OpenUntilClosed(c: Conn) {
    c.own.pointer ==> c.req.open && c.req.error.None?
  }

  lemma StepOpen(c: Conn, step: Step)
    requires Inv(c) && OpenUntilClosed(c) && c.req.issued + 1 < U62
    ensures OpenUntilClosed(Apply(c, step))
  {
    if Enabled(c, step) && step.DoPoll? && !c.life.closed {
      PollStreamsKeep(c);
      CreateAllKeeps(c.isClient, c.mux.(streams := PollStreams(c.mux.streams)), c.req);
    }
  }

  lemma {:induction false} RunOpen(c: Conn, steps: seq<Step>)
    requires Inv(c) && TrustedRun(c, steps) && c.req.issued + Asks(steps) + 1 < U62 && OpenUntilClosed(c)
    ensures OpenUntilClosed(Run(c, steps))
    decreases |steps|
  {
    if steps != [] {
      StepInv(c, steps[0]);
      StepIssued(c, steps[0]);
      StepOpen(c, steps[0]);
      RunOpen(Apply(c, steps[0]), steps[1..]);
    }
  }

  function EndAnswer(err: Option<ErrorCode>): Answer {
    if err.Some? then Failed(err.value) else FailedUnknown
  }

  /** The connection was closed with this error or without one; all answers but the given ones say so. */
  ghost predicate AnswersSaySo(c: Conn, given: map<nat, Answer>, err: Option<ErrorCode>) {
    && !c.own.pointer && c.life.closed && c.req.error == err
    && forall t :: t in c.req.answers && t !in given ==> c.req.answers[t] == EndAnswer(err)
  }

  lemma CancelSaysSo(req: Requests, given: map<nat, Answer>, err: Option<ErrorCode>)
    requires ReqInv(req) && req.error == err
    requires forall t :: t in req.answers && t !in given ==> req.answers[t] == EndAnswer(err)
    ensures forall t :: t in CancelAll(req).answers && t !in given ==> CancelAll(req).answers[t] == EndAnswer(err)
    ensures CancelAll(req).error == err
  {
    AnswerAllEffect(req.(open := false), FailedUnknown);
  }

  lemma CloseSaysSo(c: Conn, err: Option<ErrorCode>)
    requires Inv(c) && OpenUntilClosed(c) && c.own.pointer
    ensures AnswersSaySo(CloseEvent(c, err), c.req.answers, err)
  {
    CloseEventEffect(c, err);
    if err.Some? {
      CloseWithError(c, err.value);
      AnswerAllEffect(c.req.(open := false, error := err), Failed(err.value));
    } else {
      CancelSaysSo(c.req, c.req.answers, None);
    }
  }

  lemma StepSaysSo(c: Conn, step: Step, given: map<nat, Answer>, err: Option<ErrorCode>)
    requires Inv(c) && Trusted(c, step) && AnswersSaySo(c, given, err)
    ensures AnswersSaySo(Apply(c, step), given, err)
  {
    CancelSaysSo(c.req, given, err);
  }

  lemma {:induction false} RunSaysSo(c: Conn, steps: seq<Step>, given: map<nat, Answer>, err: Option<ErrorCode>)
    requires Inv(c) && TrustedRun(c, steps) && c.req.issued + Asks(steps) + 1 < U62 && AnswersSaySo(c, given, err)
    ensures AnswersSaySo(Run(c, steps), given, err)
    decreases |steps|
  {
    if steps != [] {
      StepInv(c, steps[0]);
      StepIssued(c, steps[0]);
      StepSaysSo(c, steps[0], given, err);
      RunSaysSo(Apply(c, steps[0]), steps[1..], given, err);
    }
  }

  /** Every answer given by or after the close event is the error of the connection, or says that none
      is known if there was none; never a stream. */
  lemma {:induction false} AnswersAfterClose(
    isClient: bool, before: seq<Step>, err: Option<ErrorCode>, after: seq<Step>, t: nat)
    requires TrustedRun(Init(isClient), before) && Run(Init(isClient), before).own.pointer
    requires TrustedRun(CloseEvent(Run(Init(isClient), before), err), after)
    requires Asks(before) + Asks(after) + 1 < U62
    ensures var c := Run(Init(isClient), before);
      var e := Run(CloseEvent(c, err), after);
      t in e.req.answers && t !in c.req.answers ==>
        e.req.answers[t] == if err.Some? then Failed(err.value) else FailedUnknown
  {
    var c := Run(Init(isClient), before);
    InvOfRun(isClient, before);
    InitInv(isClient);
    RunOpen(Init(isClient), before);
    CloseSaysSo(c, err);
    CloseEventKeeps(c, err);
    RunSaysSo(CloseEvent(c, err), after, c.req.answers, err);
  }
}
