/** What holds for a connection over whole runs: fresh stream ids, exactly one answer for each
    request, one decision about the establishment and a context that is dropped once. */
module ConnectionRuns {
  import opened Base
  import opened StreamIds
  import opened ConnectionModel
  import S = StreamModel
  import StreamSending

  // ---------------------------------------------------------------- the streams of a connection

  /** A stream in the map is one that the steps of a stream lead to and whose context lives. */
  ghost predicate StreamOk(id: nat, isClient: bool, s: S.State) {
    !s.tx.removed && exists steps: seq<S.Step> :: s == S.Run(S.Init(id, isClient), steps)
  }

  lemma StreamOkInit(id: nat, isClient: bool)
    ensures StreamOk(id, isClient, S.Init(id, isClient))
  {
    assert S.Init(id, isClient) == S.Run(S.Init(id, isClient), []);
  }

  lemma StreamOkApply(id: nat, isClient: bool, s: S.State, step: S.Step)
    requires StreamOk(id, isClient, s) && !step.DoRemove?
    ensures StreamOk(id, isClient, S.Apply(s, step))
  {
    var steps: seq<S.Step> :| s == S.Run(S.Init(id, isClient), steps);
    S.RunConcat(S.Init(id, isClient), steps, [step]);
    assert [step][1..] == [];
    assert S.Run(s, [step]) == S.Run(S.Apply(s, step), []);
    S.StepKeepsRemoved(s, step);
  }

  lemma StreamOkPoll(id: nat, isClient: bool, s: S.State)
    requires StreamOk(id, isClient, s)
    ensures StreamOk(id, isClient, S.Poll(s))
  {
    var steps: seq<S.Step> :| s == S.Run(S.Init(id, isClient), steps);
    StreamSending.InvOfRun(id, isClient, steps);
    S.PollIsTwoSteps(s);
    var t := S.Apply(s, S.DoPollControl);
    assert [S.DoPollControl, S.DoPollData][1..] == [S.DoPollData];
    assert S.Run(s, [S.DoPollControl, S.DoPollData]) == S.Run(t, [S.DoPollData]) == S.Run(S.Apply(t, S.DoPollData), []);
    StreamOkApply(id, isClient, s, S.DoPollControl);
    StreamOkApply(id, isClient, t, S.DoPollData);
  }

  ghost predicate StreamsOk(isClient: bool, streams: map<nat, S.State>) {
    forall id :: id in streams ==> StreamOk(id, isClient, streams[id])
  }

  lemma EachStreamOk(isClient: bool, streams: map<nat, S.State>, step: S.Step)
    requires StreamsOk(isClient, streams) && !step.DoRemove?
    ensures StreamsOk(isClient, EachStream(streams, step))
  {
    forall id | id in streams ensures StreamOk(id, isClient, EachStream(streams, step)[id]) {
      StreamOkApply(id, isClient, streams[id], step);
    }
  }

  lemma PollStreamsOk(isClient: bool, streams: map<nat, S.State>)
    requires StreamsOk(isClient, streams)
    ensures StreamsOk(isClient, PollStreams(streams))
  {
    forall id | id in PollStreams(streams) ensures StreamOk(id, isClient, PollStreams(streams)[id]) {
      StreamOkPoll(id, isClient, streams[id]);
    }
  }

  // ---------------------------------------------------------------- requests

  ghost predicate Queued(queue: seq<Request>, ticket: nat) {
    exists i :: 0 <= i < |queue| && queue[i].ticket == ticket
  }

  /** Every request is queued or answered, never both, and the queue is in order of asking. */
  ghost predicate ReqInv(req: Requests) {
    && (forall i, j :: 0 <= i < j < |req.queue| ==> req.queue[i].ticket < req.queue[j].ticket)
    && (forall i :: 0 <= i < |req.queue| ==> req.queue[i].ticket < req.issued && req.queue[i].ticket !in req.answers)
    && (forall t :: t in req.answers ==> t < req.issued)
    && (forall t: nat :: t < req.issued ==> t in req.answers || Queued(req.queue, t))
    && (req.error.Some? ==> !req.open)
    && (!req.open ==> req.queue == [])
  }

  /** The same without the rule about the closed queue, for use while it is being emptied. */
  ghost predicate Draining(req: Requests) {
    ReqInv(req.(open := true, error := None))
  }

  lemma QueuedRest(queue: seq<Request>, t: nat)
    requires queue != []
    ensures Queued(queue, t) <==> queue[0].ticket == t || Queued(queue[1..], t)
  {
    if Queued(queue, t) && queue[0].ticket != t {
      var i :| 0 <= i < |queue| && queue[i].ticket == t;
      assert queue[1..][i - 1].ticket == t;
    }
    if Queued(queue[1..], t) {
      var i :| 0 <= i < |queue[1..]| && queue[1..][i].ticket == t;
      assert queue[i + 1].ticket == t;
    }
  }

  lemma AskKeeps(req: Requests, stype: StreamType)
    requires ReqInv(req)
    ensures ReqInv(Ask(req, stype))
  {
    var r := Ask(req, stype);
    if req.open {
      assert r.queue[|req.queue|] == Request(req.issued, stype);
      forall t: nat | t < r.issued ensures t in r.answers || Queued(r.queue, t) {
        if t < req.issued && Queued(req.queue, t) {
          var i :| 0 <= i < |req.queue| && req.queue[i].ticket == t;
          assert r.queue[i].ticket == t;
        }
      }
    }
  }

  lemma AnswerFirst(req: Requests, answer: Answer)
    requires Draining(req) && req.queue != []
    ensures Draining(req.(queue := req.queue[1..], answers := req.answers[req.queue[0].ticket := answer]))
  {
    var r := req.(queue := req.queue[1..], answers := req.answers[req.queue[0].ticket := answer]);
    forall t: nat | t < r.issued ensures t in r.answers || Queued(r.queue, t) {
      QueuedRest(req.queue, t);
    }
  }

  /** Emptying the queue answers exactly the queued requests. */
  lemma {:induction false} AnswerAllEffect(req: Requests, answer: Answer)
    requires Draining(req)
    ensures var r := AnswerAll(req, answer);
      && Draining(r) && r.queue == [] && r.open == req.open && r.error == req.error && r.issued == req.issued
      && (forall t :: t in req.answers ==> t in r.answers && r.answers[t] == req.answers[t])
      && (forall t :: t in r.answers && t !in req.answers ==> r.answers[t] == answer)
    decreases |req.queue|
  {
    if req.queue != [] {
      AnswerFirst(req, answer);
      AnswerAllEffect(req.(queue := req.queue[1..], answers := req.answers[req.queue[0].ticket := answer]), answer);
    }
  }

  /** Answers that were given stay as they are. */
  ghost predicate Extends(answers: map<nat, Answer>, later: map<nat, Answer>) {
    forall t :: t in answers ==> t in later && later[t] == answers[t]
  }

  // ---------------------------------------------------------------- ids

  ghost predicate OpenedAs(isClient: bool, k: nat, id: nat) {
    id == GenerateStreamId(k, isClient, Bidirectional) || id == GenerateStreamId(k, isClient, Unidirectional)
  }

  ghost predicate OpenedHere(mux: Mux, id: nat) {
    exists k :: 0 <= k < |mux.localOpens| && mux.localOpens[k].id == id
  }

  lemma OpenedHereGrows(m: Mux, later: Mux, id: nat)
    requires m.localOpens <= later.localOpens && OpenedHere(m, id)
    ensures OpenedHere(later, id)
  {
    var k :| 0 <= k < |m.localOpens| && m.localOpens[k].id == id;
    assert later.localOpens[k].id == id;
  }

  /** Ids: the k-th stream opened here has the k-th id, and no other local id is in the map. */
  ghost predicate IdInv(isClient: bool, mux: Mux) {
    && !mux.panicked
    && |mux.localOpens| == mux.nextStreamId
    && (forall k :: 0 <= k < |mux.localOpens| ==> OpenedAs(isClient, k, mux.localOpens[k].id))
    && (forall id :: id in mux.streams && IsLocallyInitiated(id, isClient) ==> OpenedHere(mux, id))
  }

  /** Answers: requests are served in order, and each stream opened here answers one request. */
  ghost predicate AnswerInv(mux: Mux, req: Requests) {
    && (forall i, j :: 0 <= i < j < |mux.localOpens| ==> mux.localOpens[i].ticket < mux.localOpens[j].ticket)
    && (forall i, j :: 0 <= i < |mux.localOpens| && 0 <= j < |req.queue| ==>
          mux.localOpens[i].ticket < req.queue[j].ticket)
    && (forall k :: 0 <= k < |mux.localOpens| ==>
          && mux.localOpens[k].ticket in req.answers
          && req.answers[mux.localOpens[k].ticket] == NewStream(mux.localOpens[k].id))
    && (forall t :: t in req.answers && req.answers[t].NewStream? ==>
          exists k :: 0 <= k < |mux.localOpens| && mux.localOpens[k] == Opened(t, req.answers[t].id))
    && mux.nextStreamId + |req.queue| <= req.issued
  }

  lemma AskAnswers(mux: Mux, req: Requests, stype: StreamType)
    requires ReqInv(req) && AnswerInv(mux, req)
    ensures AnswerInv(mux, Ask(req, stype))
  {
  }

  lemma NextIdIsFresh(isClient: bool, mux: Mux, stype: StreamType)
    requires IdInv(isClient, mux) && mux.nextStreamId + 1 < U62
    ensures GenerateStreamId(mux.nextStreamId, isClient, stype) !in mux.streams
    ensures forall k :: 0 <= k < |mux.localOpens| ==>
      mux.localOpens[k].id < GenerateStreamId(mux.nextStreamId, isClient, stype)
  {
    var id := GenerateStreamId(mux.nextStreamId, isClient, stype);
    GeneratedIdDecodes(mux.nextStreamId, isClient, stype);
    forall k | 0 <= k < |mux.localOpens| ensures mux.localOpens[k].id < id {
      GeneratedIdsIncrease(k, mux.nextStreamId, isClient, Bidirectional, stype);
      GeneratedIdsIncrease(k, mux.nextStreamId, isClient, Unidirectional, stype);
    }
  }

  lemma CreateOneIds(isClient: bool, mux: Mux, req: Requests)
    requires req.queue != [] && IdInv(isClient, mux) && mux.nextStreamId + 1 < U62
    ensures IdInv(isClient, CreateOne(isClient, mux, req).0)
  {
    var m := CreateOne(isClient, mux, req).0;
    var id := GenerateStreamId(mux.nextStreamId, isClient, req.queue[0].stype);
    NextIdIsFresh(isClient, mux, req.queue[0].stype);
    assert m.localOpens[|mux.localOpens|].id == id;
    forall i | i in m.streams && IsLocallyInitiated(i, isClient) ensures OpenedHere(m, i) {
      if i != id {
        var k :| 0 <= k < |mux.localOpens| && mux.localOpens[k].id == i;
        assert m.localOpens[k].id == i;
      }
    }
  }

  lemma CreateOneRequests(isClient: bool, mux: Mux, req: Requests)
    requires req.queue != [] && ReqInv(req)
    requires GenerateStreamId(mux.nextStreamId, isClient, req.queue[0].stype) !in mux.streams
    ensures ReqInv(CreateOne(isClient, mux, req).1)
  {
    AnswerFirst(req, NewStream(GenerateStreamId(mux.nextStreamId, isClient, req.queue[0].stype)));
  }

  lemma CreateOneOrder(isClient: bool, mux: Mux, req: Requests)
    requires req.queue != [] && ReqInv(req) && AnswerInv(mux, req)
    ensures var (m, r) := CreateOne(isClient, mux, req);
      && (forall i, j :: 0 <= i < j < |m.localOpens| ==> m.localOpens[i].ticket < m.localOpens[j].ticket)
      && (forall i, j :: 0 <= i < |m.localOpens| && 0 <= j < |r.queue| ==> m.localOpens[i].ticket < r.queue[j].ticket)
  {
    var (m, r) := CreateOne(isClient, mux, req);
    assert m.localOpens[|mux.localOpens|].ticket == req.queue[0].ticket;
    assert forall j :: 0 <= j < |r.queue| ==> r.queue[j] == req.queue[j + 1];
  }

  lemma CreateOneAnswers(isClient: bool, mux: Mux, req: Requests)
    requires req.queue != [] && ReqInv(req) && AnswerInv(mux, req) && mux.nextStreamId + 1 < U64
    requires GenerateStreamId(mux.nextStreamId, isClient, req.queue[0].stype) !in mux.streams
    ensures var (m, r) := CreateOne(isClient, mux, req); AnswerInv(m, r)
  {
    var (m, r) := CreateOne(isClient, mux, req);
    CreateOneOrder(isClient, mux, req);
    var n := |mux.localOpens|;
    forall t | t in r.answers && r.answers[t].NewStream?
      ensures exists k :: 0 <= k < |m.localOpens| && m.localOpens[k] == Opened(t, r.answers[t].id)
    {
      if t == req.queue[0].ticket {
        assert m.localOpens[n] == Opened(t, r.answers[t].id);
      } else {
        var k :| 0 <= k < n && mux.localOpens[k] == Opened(t, req.answers[t].id);
        assert m.localOpens[k] == Opened(t, r.answers[t].id);
      }
    }
  }

  lemma {:induction false} CreateAllKeeps(isClient: bool, mux: Mux, req: Requests)
    requires IdInv(isClient, mux) && ReqInv(req) && AnswerInv(mux, req) && StreamsOk(isClient, mux.streams)
    requires req.issued + 1 < U62
    ensures var (m, r) := CreateAll(isClient, mux, req);
      && IdInv(isClient, m) && ReqInv(r) && AnswerInv(m, r) && StreamsOk(isClient, m.streams)
      && r.queue == [] && r.issued == req.issued && r.open == req.open && r.error == req.error
    decreases |req.queue|
  {
    if req.queue != [] {
      var (m, r) := CreateOne(isClient, mux, req);
      NextIdIsFresh(isClient, mux, req.queue[0].stype);
      CreateOneIds(isClient, mux, req);
      CreateOneRequests(isClient, mux, req);
      CreateOneAnswers(isClient, mux, req);
      StreamOkInit(GenerateStreamId(mux.nextStreamId, isClient, req.queue[0].stype), isClient);
      CreateAllKeeps(isClient, m, r);
    }
  }

  lemma CreateOneGrows(isClient: bool, mux: Mux, req: Requests)
    requires req.queue != [] && ReqInv(req)
    ensures var (m, r) := CreateOne(isClient, mux, req);
      mux.localOpens <= m.localOpens && Extends(req.answers, r.answers)
  {
  }

  /** Opening streams adds answers and opened streams and changes none. */
  lemma {:induction false} CreateAllGrows(isClient: bool, mux: Mux, req: Requests)
    requires IdInv(isClient, mux) && ReqInv(req) && mux.nextStreamId + |req.queue| + 1 < U62
    ensures var (m, r) := CreateAll(isClient, mux, req);
      mux.localOpens <= m.localOpens && Extends(req.answers, r.answers)
    decreases |req.queue|
  {
    if req.queue != [] {
      var (m, r) := CreateOne(isClient, mux, req);
      NextIdIsFresh(isClient, mux, req.queue[0].stype);
      CreateOneIds(isClient, mux, req);
      CreateOneRequests(isClient, mux, req);
      CreateOneGrows(isClient, mux, req);
      CreateAllGrows(isClient, m, r);
    }
  }

  // ---------------------------------------------------------------- owners and establishment

  function One(b: bool): nat {
    if b then 1 else 0
  }

  /** The reference count is the number of owners; the context is dropped when the last one goes, and
      callbacks are registered just as long as it lives. */
  ghost predicate OwnInv(own: Owners) {
    && own.strong == One(own.listed) + One(own.pointer)
    && own.drops == One(own.strong == 0)
    && (own.callbackSet <==> own.strong > 0)
  }

  /** For an outgoing connection one outcome is pending or given, for an incoming one none ever is. */
  ghost predicate LifeInv(isClient: bool, life: Life) {
    |life.outcomes| + One(life.waiting) == One(isClient)
  }

  ghost predicate Inv(c: Conn) {
    && IdInv(c.isClient, c.mux)
    && StreamsOk(c.isClient, c.mux.streams)
    && ReqInv(c.req)
    && AnswerInv(c.mux, c.req)
    && OwnInv(c.own)
    && LifeInv(c.isClient, c.life)
  }

  lemma InitInv(isClient: bool)
    ensures Inv(Init(isClient))
  {
  }

  // ---------------------------------------------------------------- every step

  lemma {:induction false} FailAllKeeps(mux: Mux, req: Requests, err: ErrorCode)
    requires ReqInv(req) && AnswerInv(mux, req)
    ensures ReqInv(FailAll(req, err)) && AnswerInv(mux, FailAll(req, err))
    ensures FailAll(req, err).queue == [] && FailAll(req, err).error == Some(err)
    ensures FailAll(req, err).issued == req.issued && Extends(req.answers, FailAll(req, err).answers)
  {
    AnswerAllEffect(req.(open := false, error := Some(err)), Failed(err));
  }

  lemma CancelAllKeeps(mux: Mux, req: Requests)
    requires ReqInv(req) && AnswerInv(mux, req)
    ensures ReqInv(CancelAll(req)) && AnswerInv(mux, CancelAll(req))
    ensures CancelAll(req).error == req.error && CancelAll(req).issued == req.issued
    ensures Extends(req.answers, CancelAll(req).answers)
  {
    AnswerAllEffect(req.(open := false), FailedUnknown);
  }

  /** Everything but the count of owners. */
  ghost predicate Core(c: Conn) {
    && IdInv(c.isClient, c.mux) && StreamsOk(c.isClient, c.mux.streams)
    && ReqInv(c.req) && AnswerInv(c.mux, c.req) && LifeInv(c.isClient, c.life)
  }

  /** `d` may come after `c`: it has the same answers and opened streams, and maybe more. */
  ghost predicate Grown(c: Conn, d: Conn) {
    Extends(c.req.answers, d.req.answers) && c.mux.localOpens <= d.mux.localOpens
  }

  lemma {:induction false} CloseConnKeeps(c: Conn)
    requires Core(c)
    ensures Core(CloseConn(c)) && CloseConn(c).own == c.own && CloseConn(c).req == c.req
    ensures CloseConn(c).mux.localOpens == c.mux.localOpens
  {
    EachStreamOk(c.isClient, c.mux.streams, S.DoConnectionClose);
    KeepOpenedHere(c.isClient, c.mux, EachStream(c.mux.streams, S.DoConnectionClose));
  }

  lemma KeepOpenedHere(isClient: bool, mux: Mux, streams: map<nat, S.State>)
    requires IdInv(isClient, mux) && streams.Keys <= mux.streams.Keys
    ensures IdInv(isClient, mux.(streams := streams))
  {
    forall id | id in streams && IsLocallyInitiated(id, isClient) ensures OpenedHere(mux.(streams := streams), id) {
      assert id in mux.streams;
    }
  }

  lemma {:induction false} HandleErrorKeeps(c: Conn, err: ErrorCode)
    requires Core(c)
    ensures Core(HandleError(c, err)) && HandleError(c, err).own == c.own
    ensures HandleError(c, err).req.error == Some(err) && HandleError(c, err).req.issued == c.req.issued
    ensures Grown(c, HandleError(c, err))
  {
    EachStreamOk(c.isClient, c.mux.streams, S.DoConnectionError(err));
    KeepOpenedHere(c.isClient, c.mux, EachStream(c.mux.streams, S.DoConnectionError(err)));
    FailAllKeeps(c.mux, c.req, err);
  }

  lemma {:induction false} ReleaseKeeps(c: Conn)
    requires Core(c) && c.own.drops == 0 && c.own.callbackSet
    requires c.own.strong == One(c.own.listed) + One(c.own.pointer) + 1
    ensures Inv(Release(c)) && Release(c).req.error == c.req.error && Release(c).req.issued == c.req.issued
    ensures Grown(c, Release(c))
  {
    CancelAllKeeps(c.mux, c.req);
    KeepOpenedHere(c.isClient, c.mux, map[]);
  }

  lemma {:induction false} CloseEventKeeps(c: Conn, err: Option<ErrorCode>)
    requires Inv(c) && c.own.pointer
    ensures Inv(CloseEvent(c, err)) && CloseEvent(c, err).req.issued == c.req.issued
    ensures Grown(c, CloseEvent(c, err))
    ensures err.Some? ==> CloseEvent(c, err).req.error == err
  {
    var e := if err.Some? then HandleError(c, err.value) else c;
    if err.Some? { HandleErrorKeeps(c, err.value); }
    CloseConnKeeps(e);
    var d := CloseConn(e);
    ReleaseKeeps(d.(own := d.own.(pointer := false)));
  }

  lemma {:induction false} PollConnKeeps(c: Conn)
    requires Inv(c) && c.req.issued + 1 < U62
    ensures Inv(PollConn(c)) && PollConn(c).req.issued == c.req.issued
  {
    var (m, r) := CreateAll(c.isClient, c.mux.(streams := PollStreams(c.mux.streams)), c.req);
    PolledAndCreated(c);
    CloseConnKeeps(c.(mux := m, req := r));
  }

  lemma PolledAndCreated(c: Conn)
    requires Inv(c) && c.req.issued + 1 < U62
    ensures var (m, r) := CreateAll(c.isClient, c.mux.(streams := PollStreams(c.mux.streams)), c.req);
      Core(c.(mux := m, req := r)) && r.issued == c.req.issued
  {
    PollStreamsKeep(c);
    CreateAllKeeps(c.isClient, c.mux.(streams := PollStreams(c.mux.streams)), c.req);
  }

  lemma PollStreamsKeep(c: Conn)
    requires IdInv(c.isClient, c.mux) && StreamsOk(c.isClient, c.mux.streams) && AnswerInv(c.mux, c.req)
    ensures var m := c.mux.(streams := PollStreams(c.mux.streams));
      IdInv(c.isClient, m) && StreamsOk(c.isClient, m.streams) && AnswerInv(m, c.req)
  {
    PollStreamsOk(c.isClient, c.mux.streams);
    KeepOpenedHere(c.isClient, c.mux, PollStreams(c.mux.streams));
  }

  lemma {:induction false} PollListedKeeps(c: Conn)
    requires Inv(c) && c.own.listed && c.req.issued + 1 < U62
    ensures Inv(PollListed(c)) && PollListed(c).req.issued == c.req.issued
  {
    if c.life.closed {
      ReleaseKeeps(c.(own := c.own.(listed := false)));
    } else {
      PollConnKeeps(c);
    }
  }

  lemma StreamCallbackIds(c: Conn, id: nat, e: StreamEvent)
    requires IdInv(c.isClient, c.mux) && Trusted(c, DoStream(id, e)) && id != 0
    ensures IdInv(c.isClient, StreamCallback(c.isClient, c.mux, id, e))
  {
    var m := StreamCallback(c.isClient, c.mux, id, e);
    forall i | i in m.streams && IsLocallyInitiated(i, c.isClient) ensures OpenedHere(m, i) {
      if i != id { assert OpenedHere(c.mux, i); }
    }
  }

  lemma StreamCallbackOk(c: Conn, id: nat, e: StreamEvent)
    requires StreamsOk(c.isClient, c.mux.streams)
    ensures StreamsOk(c.isClient, StreamCallback(c.isClient, c.mux, id, e).streams)
  {
    StreamOkInit(id, c.isClient);
    StreamOkApply(id, c.isClient, if id in c.mux.streams then c.mux.streams[id] else S.Init(id, c.isClient), StepOf(e));
  }

  lemma AppStepKeeps(c: Conn, id: nat, step: S.Step)
    requires Inv(c) && id in c.mux.streams && S.IsAppStep(step)
    ensures var m := c.mux.(streams := c.mux.streams[id := S.Apply(c.mux.streams[id], step)]);
      IdInv(c.isClient, m) && StreamsOk(c.isClient, m.streams)
  {
    StreamOkApply(id, c.isClient, c.mux.streams[id], step);
    KeepOpenedHere(c.isClient, c.mux, c.mux.streams[id := S.Apply(c.mux.streams[id], step)]);
  }

  lemma {:induction false} StepInv(c: Conn, step: Step)
    requires Inv(c) && Trusted(c, step) && c.req.issued + 1 < U62
    ensures Inv(Apply(c, step))
  {
    if Enabled(c, step) {
      match step
      case DoAsk(stype) => AskKeeps(c.req, stype); AskAnswers(c.mux, c.req, stype);
      case DoStream(id, event) => if id != 0 { StreamCallbackIds(c, id, event); StreamCallbackOk(c, id, event); }
      case DoReady =>
      case DoCloseEvent(err) => CloseEventKeeps(c, err);
      case DoCloseAsked =>
      case DoPoll => PollListedKeeps(c);
      case DoApp(id, s) => AppStepKeeps(c, id, s);
    }
  }

  // ---------------------------------------------------------------- every run

  /** How many requests a run makes. */
  function Asks(steps: seq<Step>): nat {
    if steps == [] then 0 else One(steps[0].DoAsk?) + Asks(steps[1..])
  }

  lemma {:induction false} StepIssued(c: Conn, step: Step)
    requires Inv(c) && Trusted(c, step) && c.req.issued + 1 < U62
    ensures Apply(c, step).req.issued == c.req.issued + One(step.DoAsk?)
  {
    if Enabled(c, step) {
      match step
      case DoCloseEvent(err) => CloseEventKeeps(c, err);
      case DoPoll => PollListedKeeps(c);
      case _ =>
    }
  }

  lemma {:induction false} RunInv(c: Conn, steps: seq<Step>)
    requires Inv(c) && TrustedRun(c, steps) && c.req.issued + Asks(steps) + 1 < U62
    ensures Inv(Run(c, steps)) && Run(c, steps).req.issued == c.req.issued + Asks(steps)
    decreases |steps|
  {
    if steps != [] {
      StepInv(c, steps[0]);
      StepIssued(c, steps[0]);
      RunInv(Apply(c, steps[0]), steps[1..]);
    }
  }

  lemma {:induction false} InvOfRun(isClient: bool, steps: seq<Step>)
    requires TrustedRun(Init(isClient), steps) && Asks(steps) + 1 < U62
    ensures Inv(Run(Init(isClient), steps)) && Run(Init(isClient), steps).req.issued == Asks(steps)
    ensures Run(Init(isClient), steps).isClient == isClient
  {
    InitInv(isClient);
    RunInv(Init(isClient), steps);
    RunClient(Init(isClient), steps);
  }

  lemma {:induction false} RunClient(c: Conn, steps: seq<Step>)
    ensures Run(c, steps).isClient == c.isClient
    decreases |steps|
  {
    if steps != [] {
      StepClient(c, steps[0]);
      RunClient(Apply(c, steps[0]), steps[1..]);
    }
  }

  lemma StepClient(c: Conn, step: Step)
    ensures Apply(c, step).isClient == c.isClient
  {
  }

  /** Over every run of fewer than 2^62 - 1 requests, mixed with any streams of the peer and any
      removals, the ids opened here are at least 4, strictly increasing and send-capable, and the
      assertion that a new id is not in the map never fails. */
  lemma {:induction false} IdsAreFresh(isClient: bool, steps: seq<Step>)
    requires TrustedRun(Init(isClient), steps) && Asks(steps) + 1 < U62
    ensures var mux := Run(Init(isClient), steps).mux;
      && !mux.panicked
      && (forall i, j :: 0 <= i < j < |mux.localOpens| ==> 4 <= mux.localOpens[i].id < mux.localOpens[j].id)
      && (forall i :: 0 <= i < |mux.localOpens| ==>
            && IsLocallyInitiated(mux.localOpens[i].id, isClient) && CanSend(mux.localOpens[i].id, isClient)
            && 4 <= mux.localOpens[i].id && (Asks(steps) < U60 ==> mux.localOpens[i].id < U62))
  {
    InvOfRun(isClient, steps);
    var mux := Run(Init(isClient), steps).mux;
    forall i, j | 0 <= i < j < |mux.localOpens| ensures 4 <= mux.localOpens[i].id < mux.localOpens[j].id {
      OpensIncrease(isClient, mux, i, j);
    }
    forall i | 0 <= i < |mux.localOpens|
      ensures IsLocallyInitiated(mux.localOpens[i].id, isClient) && CanSend(mux.localOpens[i].id, isClient)
           && 4 <= mux.localOpens[i].id && (Asks(steps) < U60 ==> mux.localOpens[i].id < U62)
    {
      OpenedIdIsGood(isClient, mux, i);
    }
  }

  lemma OpenedIdIsGood(isClient: bool, mux: Mux, i: nat)
    requires IdInv(isClient, mux) && mux.nextStreamId + 1 < U62 && i < |mux.localOpens|
    ensures var id := mux.localOpens[i].id;
      && IsLocallyInitiated(id, isClient) && CanSend(id, isClient) && 4 <= id
      && (mux.nextStreamId < U60 ==> id < U62)
  {
    assert OpenedAs(isClient, i, mux.localOpens[i].id);
    var bidirectional := mux.localOpens[i].id == GenerateStreamId(i, isClient, Bidirectional);
    var stype := if bidirectional then Bidirectional else Unidirectional;
    GeneratedIdDecodes(i, isClient, stype);
    GeneratedIdRange(i, isClient, stype);
  }

  lemma OpensIncrease(isClient: bool, mux: Mux, i: nat, j: nat)
    requires IdInv(isClient, mux) && i < j < |mux.localOpens| && mux.nextStreamId + 1 < U62
    ensures 4 <= mux.localOpens[i].id < mux.localOpens[j].id
  {
    assert OpenedAs(isClient, i, mux.localOpens[i].id) && OpenedAs(isClient, j, mux.localOpens[j].id);
    GeneratedIdsIncrease(i, j, isClient, Bidirectional, Bidirectional);
    GeneratedIdsIncrease(i, j, isClient, Bidirectional, Unidirectional);
    GeneratedIdsIncrease(i, j, isClient, Unidirectional, Bidirectional);
    GeneratedIdsIncrease(i, j, isClient, Unidirectional, Unidirectional);
  }

  /** The request was answered with a stream. */
  predicate OpenedFor(req: Requests, t: nat) {
    t in req.answers && req.answers[t].NewStream?
  }

  /** At any time every request made is either queued or answered, never both; the answered streams
      are exactly those opened, in the order of the requests, one stream each. */
  lemma {:induction false} OneAnswerPerRequest(isClient: bool, steps: seq<Step>)
    requires TrustedRun(Init(isClient), steps) && Asks(steps) + 1 < U62
    ensures var c := Run(Init(isClient), steps);
      && (forall t: nat :: t < Asks(steps) ==> (t in c.req.answers) != Queued(c.req.queue, t))
      && (forall t: nat :: t >= Asks(steps) ==> t !in c.req.answers && !Queued(c.req.queue, t))
      && (forall t, u :: t < u && OpenedFor(c.req, t) && OpenedFor(c.req, u) ==>
            c.req.answers[t].id < c.req.answers[u].id)
      && (forall k :: 0 <= k < |c.mux.localOpens| ==>
            var o := c.mux.localOpens[k]; o.ticket in c.req.answers && c.req.answers[o.ticket] == NewStream(o.id))
      && (forall t :: OpenedFor(c.req, t) ==>
            exists k :: 0 <= k < |c.mux.localOpens| && c.mux.localOpens[k] == Opened(t, c.req.answers[t].id))
  {
    InvOfRun(isClient, steps);
    var c := Run(Init(isClient), steps);
    forall t, u | t < u && OpenedFor(c.req, t) && OpenedFor(c.req, u)
      ensures c.req.answers[t].id < c.req.answers[u].id
    {
      AnswersIncrease(isClient, c.mux, c.req, t, u);
    }
  }

  lemma AnswersIncrease(isClient: bool, mux: Mux, req: Requests, t: nat, u: nat)
    requires IdInv(isClient, mux) && AnswerInv(mux, req) && req.issued + 1 < U62
    requires t < u
    ensures OpenedFor(req, t) && OpenedFor(req, u) ==> req.answers[t].id < req.answers[u].id
  {
    if OpenedFor(req, t) && OpenedFor(req, u) {
      var i :| 0 <= i < |mux.localOpens| && mux.localOpens[i] == Opened(t, req.answers[t].id);
      var j :| 0 <= j < |mux.localOpens| && mux.localOpens[j] == Opened(u, req.answers[u].id);
      OpensIncrease(isClient, mux, i, j);
    }
  }

  lemma {:induction false} PollGrows(c: Conn)
    requires Inv(c) && c.own.listed && c.req.issued + 1 < U62
    ensures Grown(c, PollListed(c))
  {
    if c.life.closed {
      ReleaseKeeps(c.(own := c.own.(listed := false)));
    } else {
      PollStreamsKeep(c);
      CreateAllGrows(c.isClient, c.mux.(streams := PollStreams(c.mux.streams)), c.req);
    }
  }

  lemma {:induction false} StepGrows(c: Conn, step: Step)
    requires Inv(c) && Trusted(c, step) && c.req.issued + 1 < U62
    ensures Grown(c, Apply(c, step))
  {
    if Enabled(c, step) {
      match step
      case DoCloseEvent(err) => CloseEventKeeps(c, err);
      case DoPoll => PollGrows(c);
      case _ =>
    }
  }

  lemma {:induction false} RunGrows(c: Conn, steps: seq<Step>)
    requires Inv(c) && TrustedRun(c, steps) && c.req.issued + Asks(steps) + 1 < U62
    ensures Grown(c, Run(c, steps))
    decreases |steps|
  {
    if steps != [] {
      StepInv(c, steps[0]);
      StepIssued(c, steps[0]);
      StepGrows(c, steps[0]);
      RunGrows(Apply(c, steps[0]), steps[1..]);
      GrowsOn(c, Apply(c, steps[0]), Run(c, steps));
    }
  }

  lemma GrowsOn(c: Conn, d: Conn, e: Conn)
    requires Grown(c, d) && Grown(d, e)
    ensures Grown(c, e)
  {
  }

  /** No request is answered twice: an answer given at any time of a run is the answer for good, and
      so is the list of the streams opened so far. */
  lemma {:induction false} AnswersAreFinal(isClient: bool, before: seq<Step>, after: seq<Step>)
    requires TrustedRun(Init(isClient), before) && TrustedRun(Run(Init(isClient), before), after)
    requires Asks(before) + Asks(after) + 1 < U62
    ensures var c := Run(Init(isClient), before);
      var d := Run(c, after);
      && (forall t :: t in c.req.answers ==> t in d.req.answers && d.req.answers[t] == c.req.answers[t])
      && c.mux.localOpens <= d.mux.localOpens
  {
    InvOfRun(isClient, before);
    RunGrows(Run(Init(isClient), before), after);
  }

  // ---------------------------------------------------------------- after an error

  /** All answers from request `from` on are the given error. */
  ghost predicate AllFailed(req: Requests, from: nat, err: ErrorCode) {
    && req.error == Some(err) && req.queue == [] && from <= req.issued
    && forall t: nat :: from <= t < req.issued ==> t in req.answers && req.answers[t] == Failed(err)
  }

  lemma {:induction false} StepAfterError(c: Conn, step: Step, from: nat, err: ErrorCode)
    requires Inv(c) && Trusted(c, step) && c.req.issued + 1 < U62
    requires AllFailed(c.req, from, err) && !c.own.pointer
    ensures AllFailed(Apply(c, step).req, from, err) && !Apply(c, step).own.pointer
  {
    if Enabled(c, step) {
      match step
      case DoPoll =>
        if c.life.closed {
          assert CancelAll(c.req) == c.req.(open := false);
        } else {
          assert CreateAll(c.isClient, c.mux.(streams := PollStreams(c.mux.streams)), c.req).1 == c.req;
        }
      case _ =>
    }
  }

  lemma {:induction false} RunAfterError(c: Conn, steps: seq<Step>, from: nat, err: ErrorCode)
    requires Inv(c) && TrustedRun(c, steps) && c.req.issued + Asks(steps) + 1 < U62
    requires AllFailed(c.req, from, err) && !c.own.pointer
    ensures AllFailed(Run(c, steps).req, from, err)
    decreases |steps|
  {
    if steps != [] {
      StepAfterError(c, steps[0], from, err);
      StepInv(c, steps[0]);
      StepIssued(c, steps[0]);
      RunAfterError(Apply(c, steps[0]), steps[1..], from, err);
    }
  }

  lemma {:induction false} FailAllAnswers(req: Requests, err: ErrorCode)
    requires ReqInv(req)
    ensures var r := FailAll(req, err);
      && CancelAll(r) == r
      && AllFailed(r, req.issued, err)
      && (forall t: nat :: Queued(req.queue, t) ==> t in r.answers && r.answers[t] == Failed(err))
  {
    AnswerAllEffect(req.(open := false, error := Some(err)), Failed(err));
    var r := FailAll(req, err);
    forall t: nat | Queued(req.queue, t) ensures t in r.answers && r.answers[t] == Failed(err) {
      assert t < req.issued && t !in req.answers;
      assert !Queued(r.queue, t);
    }
  }

  lemma CloseWithError(c: Conn, err: ErrorCode)
    requires Inv(c) && c.own.pointer
    ensures CloseEvent(c, Some(err)).req == FailAll(c.req, err) && !CloseEvent(c, Some(err)).own.pointer
    ensures AllFailed(FailAll(c.req, err), c.req.issued, err)
    ensures forall t: nat :: Queued(c.req.queue, t) ==>
      t in FailAll(c.req, err).answers && FailAll(c.req, err).answers[t] == Failed(err)
  {
    FailAllAnswers(c.req, err);
  }

  lemma {:induction false} FailsFromHereOn(c: Conn, err: ErrorCode, after: seq<Step>)
    requires Inv(c) && c.own.pointer && TrustedRun(CloseEvent(c, Some(err)), after)
    requires c.req.issued + Asks(after) + 1 < U62
    ensures var e := Run(CloseEvent(c, Some(err)), after);
      forall t: nat :: c.req.issued <= t < c.req.issued + Asks(after) ==>
        t in e.req.answers && e.req.answers[t] == Failed(err)
  {
    CloseWithError(c, err);
    CloseEventKeeps(c, Some(err));
    RunAfterError(CloseEvent(c, Some(err)), after, c.req.issued, err);
    RunInv(CloseEvent(c, Some(err)), after);
  }

  /** When the connection is closed with an error, the requests still queued are answered with it
      and nothing stays queued. */
  lemma {:induction false} ErrorAnswersQueuedRequests(isClient: bool, before: seq<Step>, err: ErrorCode)
    requires TrustedRun(Init(isClient), before) && Asks(before) + 1 < U62
    ensures var c := Run(Init(isClient), before);
      var d := CloseEvent(c, Some(err));
      c.own.pointer ==>
        && d.req.queue == [] && d.req.error == Some(err)
        && forall t: nat :: Queued(c.req.queue, t) ==> t in d.req.answers && d.req.answers[t] == Failed(err)
  {
    InvOfRun(isClient, before);
    var c := Run(Init(isClient), before);
    if c.own.pointer { CloseWithError(c, err); }
  }

  /** After a close with an error, in every continuation of the run each later request, through
      whatever clone of the handle, is answered with that error. */
  lemma {:induction false} ErrorAnswersLaterRequests(
    isClient: bool, before: seq<Step>, err: ErrorCode, after: seq<Step>)
    requires TrustedRun(Init(isClient), before) && Run(Init(isClient), before).own.pointer
    requires TrustedRun(CloseEvent(Run(Init(isClient), before), Some(err)), after)
    requires Asks(before) + Asks(after) + 1 < U62
    ensures var e := Run(CloseEvent(Run(Init(isClient), before), Some(err)), after);
      forall t: nat :: Asks(before) <= t < Asks(before) + Asks(after) ==>
        t in e.req.answers && e.req.answers[t] == Failed(err)
  {
    InvOfRun(isClient, before);
    FailsFromHereOn(Run(Init(isClient), before), err, after);
  }

  // ---------------------------------------------------------------- owners

  /** In every run the reference count is the number of owners that have not let go, and the context
      is dropped exactly once, when both have; callbacks are registered until then, and one that is
      not the close event leaves the count alone. */
  lemma {:induction false} OwnershipCount(isClient: bool, steps: seq<Step>, step: Step)
    requires TrustedRun(Init(isClient), steps) && Asks(steps) + 1 < U62
    ensures var own := Run(Init(isClient), steps).own;
      && own.strong == One(own.listed) + One(own.pointer)
      && own.drops == One(!own.listed && !own.pointer)
      && (own.callbackSet <==> own.listed || own.pointer)
      && (step.DoStream? || step.DoReady? ==> Apply(Run(Init(isClient), steps), step).own == own)
  {
    InvOfRun(isClient, steps);
  }

  /** Delivering the close event a second time breaks the count: exactly when the driver still lists
      the connection, its reference is left dangling. */
  lemma {:induction false} SecondCloseDangles(isClient: bool, steps: seq<Step>, err: Option<ErrorCode>)
    requires TrustedRun(Init(isClient), steps) && Asks(steps) + 1 < U62
    ensures var c := Run(Init(isClient), steps);
      !c.own.pointer ==>
        (Apply(c, DoCloseEvent(err)).own.listed && Apply(c, DoCloseEvent(err)).own.strong == 0 <==> c.own.listed)
  {
    InvOfRun(isClient, steps);
  }

  /** A close event and one more poll of the driver end everything: the context is dropped, nobody
      waits for the establishment, and every request ever made has its answer. */
  lemma {:induction false} CloseEndsEverything(isClient: bool, steps: seq<Step>, err: Option<ErrorCode>)
    requires TrustedRun(Init(isClient), steps) && Asks(steps) + 1 < U62
    requires Run(Init(isClient), steps).own.pointer
    ensures var d := Apply(CloseEvent(Run(Init(isClient), steps), err), DoPoll);
      Ended(d) && AnsweredUpTo(d.req, Asks(steps))
  {
    InvOfRun(isClient, steps);
    CloseThenPoll(Run(Init(isClient), steps), err);
  }

  lemma {:induction false} CloseThenPoll(c: Conn, err: Option<ErrorCode>)
    requires Inv(c) && c.own.pointer
    ensures var d := Apply(CloseEvent(c, err), DoPoll);
      Ended(d) && AnsweredUpTo(d.req, c.req.issued)
  {
    CloseEventKeeps(c, err);
    CloseEventEffect(c, err);
    PollAfterClose(CloseEvent(c, err));
  }

  lemma {:induction false} PollAfterClose(e: Conn)
    requires Inv(e) && e.life.closed && !e.own.pointer && (!e.own.listed ==> Ended(e))
    ensures Ended(Apply(e, DoPoll)) && AnsweredUpTo(Apply(e, DoPoll).req, e.req.issued)
  {
    if e.own.listed {
      PollListedKeepsClosed(e);
      AllAnswered(PollListed(e).req);
    } else {
      AllAnswered(e.req);
    }
  }

  /** What is left once the last owner let go. */
  ghost predicate Ended(c: Conn) {
    && c.own.strong == 0 && c.own.drops == 1 && !c.own.callbackSet && !c.life.waiting && c.mux.streams == map[]
    && c.req.queue == []
  }

  ghost predicate AnsweredUpTo(req: Requests, n: nat) {
    forall t: nat :: t < n ==> t in req.answers
  }

  lemma AllAnswered(req: Requests)
    requires ReqInv(req) && req.queue == []
    ensures AnsweredUpTo(req, req.issued)
  {
    assert forall t: nat :: !Queued(req.queue, t);
  }

  lemma ReleaseLast(c: Conn)
    requires c.own.drops == 0 && c.own.strong == 1 && ReqInv(c.req)
    ensures Ended(Release(c))
  {
    AnswerAllEffect(c.req.(open := false), FailedUnknown);
  }

  lemma CloseEventEffect(c: Conn, err: Option<ErrorCode>)
    requires Inv(c) && c.own.pointer
    ensures var e := CloseEvent(c, err);
      e.life.closed && !e.own.pointer && e.own.listed == c.own.listed && (!e.own.listed ==> Ended(e))
  {
    var f := if err.Some? then HandleError(c, err.value) else c;
    if err.Some? { HandleErrorKeeps(c, err.value); }
    CloseConnKeeps(f);
    var d := CloseConn(f).(own := c.own.(pointer := false));
    assert CloseEvent(c, err) == Release(d);
    if !c.own.listed { ReleaseLast(d); }
  }

  lemma PollListedKeepsClosed(c: Conn)
    requires Inv(c) && c.life.closed && c.own.listed && !c.own.pointer
    ensures Ended(PollListed(c)) && ReqInv(PollListed(c).req) && PollListed(c).req.issued == c.req.issued
  {
    var d := c.(own := c.own.(listed := false));
    ReleaseLast(d);
    ReleaseKeeps(d);
  }

  /** A connection error reaches every stream whose application still listens, before the close. */
  lemma {:induction false} ErrorReachesEveryStream(isClient: bool, steps: seq<Step>, err: ErrorCode, id: nat)
    requires TrustedRun(Init(isClient), steps) && Asks(steps) + 1 < U62
    requires id in Run(Init(isClient), steps).mux.streams
    ensures var c := Run(Init(isClient), steps);
      var d := CloseConn(HandleError(c, err));
      && id in d.mux.streams
      && (c.mux.streams[id].rx.appRecv ==>
            d.mux.streams[id].rx.inbox == c.mux.streams[id].rx.inbox + [S.Error(err), S.Close])
  {
    InvOfRun(isClient, steps);
    var c := Run(Init(isClient), steps);
    var s := c.mux.streams[id];
    var ss: seq<S.Step> :| s == S.Run(S.Init(id, isClient), ss);
    StreamSending.InvOfRun(id, isClient, ss);
    if s.rx.appRecv { StreamHearsError(s, err); }
    var told := EachStream(c.mux.streams, S.DoConnectionError(err));
    assert told[id] == S.Apply(s, S.DoConnectionError(err));
    assert EachStream(told, S.DoConnectionClose)[id] == S.Apply(told[id], S.DoConnectionClose);
  }

  lemma StreamHearsError(s: S.State, err: ErrorCode)
    requires !s.tx.removed && !s.tx.ctx.panicked && s.rx.appRecv
    ensures S.Apply(S.Apply(s, S.DoConnectionError(err)), S.DoConnectionClose).rx.inbox
         == s.rx.inbox + [S.Error(err), S.Close]
  {
    assert s.rx.inbox + [S.Error(err)] + [S.Close] == s.rx.inbox + [S.Error(err), S.Close];
  }

  // ---------------------------------------------------------------- establishment

  /** The application hears at most once how the establishment of an outgoing connection went, and
      never for an incoming one; an error that comes later goes to the connection's messages. */
  lemma {:induction false} EstablishedOnce(isClient: bool, steps: seq<Step>, err: ErrorCode)
    requires TrustedRun(Init(isClient), steps) && Asks(steps) + 1 < U62
    ensures var life := Run(Init(isClient), steps).life;
      && |life.outcomes| <= One(isClient)
      && (life.waiting <==> isClient && life.outcomes == [])
    ensures var c := Run(Init(isClient), steps);
      var d := HandleError(c, err);
      && d.life.outcomes == (if isClient && c.life.outcomes == [] then [NotEstablished(err)] else c.life.outcomes)
      && d.life.messages == c.life.messages + (if isClient && c.life.outcomes == [] then [] else [ConnError(err)])
      && BecomeReady(c.life).outcomes == (if isClient && c.life.outcomes == [] then [Established] else c.life.outcomes)
  {
    InvOfRun(isClient, steps);
    OutcomesOf(Run(Init(isClient), steps), err);
  }

  lemma OutcomesOf(c: Conn, err: ErrorCode)
    requires LifeInv(c.isClient, c.life)
    ensures var open := c.isClient && c.life.outcomes == [];
      && |c.life.outcomes| <= One(c.isClient) && (c.life.waiting <==> open)
      && HandleError(c, err).life.outcomes == (if open then [NotEstablished(err)] else c.life.outcomes)
      && HandleError(c, err).life.messages == c.life.messages + (if open then [] else [ConnError(err)])
      && BecomeReady(c.life).outcomes == (if open then [Established] else c.life.outcomes)
  {
  }

  // ---------------------------------------------------------------- a run without the trust

  /** Without the trust in picoquic's ids the assertion can fail: a callback that names a local id
      before that stream was opened occupies it. */
  lemma UnopenedLocalIdPanics()
    ensures Run(Init(true), [DoStream(4, Data([1], S.StreamData)), DoAsk(Bidirectional), DoPoll]).mux.panicked
  {
    var c0 := Init(true);
    var c1 := Apply(c0, DoStream(4, Data([1], S.StreamData)));
    var c2 := Apply(c1, DoAsk(Bidirectional));
    assert c2.req.queue == [Request(0, Bidirectional)];
    var s := c2.mux.streams[4];
    assert s.tx == S.Init(4, true).tx;
    assert S.DrainControl(s.tx) == s.tx;
    assert S.Poll(s).tx.ctx.stopSendingOrFinSent == false;
    assert 4 in PollStreams(c2.mux.streams);
    assert GenerateStreamId(0, true, Bidirectional) == 4;
    var polled := c2.mux.(streams := PollStreams(c2.mux.streams));
    var (m, r) := CreateOne(true, polled, c2.req);
    assert m.panicked && CreateAll(true, m, r) == (m, r);
    var steps := [DoStream(4, Data([1], S.StreamData)), DoAsk(Bidirectional), DoPoll];
    assert steps[1..] == [DoAsk(Bidirectional), DoPoll] && steps[1..][1..] == [DoPoll] && [DoPoll][1..] == [];
    assert Run(c0, steps) == Run(c1, steps[1..]) == Run(c2, [DoPoll]) == Run(Apply(c2, DoPoll), []);
  }
}
