/** The streams of a connection, each followed through a run of the connection: what it does is a run
    of the stream's own state machine, so that the results about streams hold for connections. */
module ConnectionStreams {
  import opened Base
  import opened StreamIds
  import opened ConnectionModel
  import opened ConnectionRuns
  import S = StreamModel
  import StreamInvariant
  import StreamSending
  import StreamErrors

  /** The steps that one step of the connection makes a stream take. */
  function Moves(c: Conn, step: Step, id: nat): seq<S.Step> {
    if !Enabled(c, step) then [] else
    match step
    case DoStream(i, e) => if i == id && id != 0 then [StepOf(e)] else []
    case DoCloseEvent(err) =>
      (if err.Some? then [S.DoConnectionError(err.value)] else []) + [S.DoConnectionClose]
    case DoPoll =>
      if c.life.closed then []
      else (if id in c.mux.streams then Polls() else []) + (if c.life.closeAsked then [S.DoConnectionClose] else [])
    case DoApp(i, s) => if i == id then [s] else []
    case _ => []
  }

  /** A poll of a stream's context. */
  function Polls(): seq<S.Step> {
    [S.DoPollControl, S.DoPollData]
  }

  /** The steps the present context of `id` took, if the map has one: a new context starts anew. */
  function StreamSteps(c: Conn, steps: seq<Step>, id: nat, taken: seq<S.Step>): seq<S.Step>
    decreases |steps|
  {
    if steps == [] then taken
    else StreamSteps(Apply(c, steps[0]), steps[1..], id,
                     (if id in c.mux.streams then taken else []) + Moves(c, steps[0], id))
  }

  function History(isClient: bool, steps: seq<Step>, id: nat): seq<S.Step> {
    StreamSteps(Init(isClient), steps, id, [])
  }

  function StreamBefore(c: Conn, id: nat): S.State {
    if id in c.mux.streams then c.mux.streams[id] else S.Init(id, c.isClient)
  }

  // ---------------------------------------------------------------- every step

  lemma RunOne(s: S.State, a: S.Step)
    ensures S.Run(s, [a]) == S.Apply(s, a)
  {
    assert [a][1..] == [];
    assert S.Run(S.Apply(s, a), []) == S.Apply(s, a);
  }

  lemma PollIsRun(id: nat, isClient: bool, s: S.State)
    requires StreamOk(id, isClient, s)
    ensures S.Poll(s) == S.Run(s, Polls())
  {
    var steps: seq<S.Step> :| s == S.Run(S.Init(id, isClient), steps);
    StreamSending.InvOfRun(id, isClient, steps);
    S.PollIsTwoSteps(s);
  }

  /** Opening streams leaves the others alone and uses ids that were never used here. */
  lemma {:induction false} CreateAllStreams(isClient: bool, mux: Mux, req: Requests, id: nat)
    requires IdInv(isClient, mux) && ReqInv(req) && mux.nextStreamId + |req.queue| + 1 < U62
    requires id in CreateAll(isClient, mux, req).0.streams
    ensures CreateAll(isClient, mux, req).0.streams[id]
         == if id in mux.streams then mux.streams[id] else S.Init(id, isClient)
    ensures id !in mux.streams ==> IsLocallyInitiated(id, isClient) && !OpenedHere(mux, id)
    decreases |req.queue|
  {
    if req.queue != [] {
      var (m, r) := CreateOne(isClient, mux, req);
      NextIdIsFresh(isClient, mux, req.queue[0].stype);
      GeneratedIdDecodes(mux.nextStreamId, isClient, req.queue[0].stype);
      CreateOneIds(isClient, mux, req);
      CreateOneRequests(isClient, mux, req);
      CreateAllStreams(isClient, m, r, id);
      if OpenedHere(mux, id) { OpenedHereGrows(mux, m, id); }
    }
  }

  /** What the stream is after the streams were polled and requests answered. */
  lemma PolledOrCreated(c: Conn, id: nat)
    requires Inv(c) && c.req.issued + 1 < U62
    requires id in CreateAll(c.isClient, c.mux.(streams := PollStreams(c.mux.streams)), c.req).0.streams
    ensures CreateAll(c.isClient, c.mux.(streams := PollStreams(c.mux.streams)), c.req).0.streams[id]
         == S.Run(StreamBefore(c, id), if id in c.mux.streams then Polls() else [])
  {
    PollStreamsKeep(c);
    CreateAllStreams(c.isClient, c.mux.(streams := PollStreams(c.mux.streams)), c.req, id);
    if id in c.mux.streams {
      PollIsRun(id, c.isClient, c.mux.streams[id]);
      assert IsLocallyInitiated(id, c.isClient) ==> OpenedHere(c.mux, id);
      assert OpenedHere(c.mux, id) == OpenedHere(c.mux.(streams := PollStreams(c.mux.streams)), id);
    }
  }

  lemma {:induction false} PollMoves(c: Conn, id: nat)
    requires Inv(c) && c.req.issued + 1 < U62
    ensures id in PollConn(c).mux.streams ==>
      PollConn(c).mux.streams[id]
        == S.Run(StreamBefore(c, id), (if id in c.mux.streams then Polls() else [])
                                      + (if c.life.closeAsked then [S.DoConnectionClose] else []))
  {
    if id in PollConn(c).mux.streams {
      var first := if id in c.mux.streams then Polls() else [];
      PolledAndCreated(c);
      PolledOrCreated(c, id);
      S.RunConcat(StreamBefore(c, id), first, [S.DoConnectionClose]);
      RunOne(S.Run(StreamBefore(c, id), first), S.DoConnectionClose);
      assert first + [] == first;
    }
  }

  lemma CloseEventMoves(c: Conn, err: Option<ErrorCode>, id: nat)
    requires id in CloseEvent(c, err).mux.streams
    ensures id in c.mux.streams
    ensures CloseEvent(c, err).mux.streams[id]
         == S.Run(c.mux.streams[id],
                  (if err.Some? then [S.DoConnectionError(err.value)] else []) + [S.DoConnectionClose])
  {
    var s := c.mux.streams[id];
    var first := if err.Some? then [S.DoConnectionError(err.value)] else [];
    if err.Some? { RunOne(s, S.DoConnectionError(err.value)); }
    S.RunConcat(s, first, [S.DoConnectionClose]);
    RunOne(S.Run(s, first), S.DoConnectionClose);
  }

  /** A connection that leaves the driver's list keeps its streams as they are, or loses all. */
  lemma ReleaseMoves(c: Conn, id: nat)
    requires c.life.closed && id in PollListed(c).mux.streams
    ensures id in c.mux.streams && PollListed(c).mux.streams[id] == c.mux.streams[id]
  {
  }

  lemma StreamCallbackMoves(c: Conn, i: nat, e: StreamEvent, id: nat)
    requires id in StreamCallback(c.isClient, c.mux, i, e).streams
    ensures StreamCallback(c.isClient, c.mux, i, e).streams[id]
         == S.Run(StreamBefore(c, id), if i == id then [StepOf(e)] else [])
  {
    RunOne(StreamBefore(c, id), StepOf(e));
  }

  /** One step of the connection makes each stream in the map take its moves. */
  lemma {:induction false} StepMoves(c: Conn, step: Step, id: nat)
    requires Inv(c) && Trusted(c, step) && c.req.issued + 1 < U62
    requires id in Apply(c, step).mux.streams
    ensures Apply(c, step).mux.streams[id] == S.Run(StreamBefore(c, id), Moves(c, step, id))
  {
    if Enabled(c, step) {
      match step
      case DoStream(i, e) => StreamCallbackMoves(c, i, e, id);
      case DoCloseEvent(err) => CloseEventMoves(c, err, id);
      case DoPoll => if c.life.closed { ReleaseMoves(c, id); } else { PollMoves(c, id); }
      case DoApp(i, s) => RunOne(StreamBefore(c, id), s);
      case _ =>
    }
  }

  // ---------------------------------------------------------------- every run

  lemma {:induction false} StepHistory(c: Conn, step: Step, id: nat, taken: seq<S.Step>)
    requires Inv(c) && Trusted(c, step) && c.req.issued + 1 < U62
    requires id in c.mux.streams ==> c.mux.streams[id] == S.Run(S.Init(id, c.isClient), taken)
    ensures var d := Apply(c, step);
      id in d.mux.streams ==>
        d.mux.streams[id]
          == S.Run(S.Init(id, c.isClient), (if id in c.mux.streams then taken else []) + Moves(c, step, id))
  {
    if id in Apply(c, step).mux.streams {
      StepMoves(c, step, id);
      S.RunConcat(S.Init(id, c.isClient), if id in c.mux.streams then taken else [], Moves(c, step, id));
    }
  }

  lemma {:induction false} RunMoves(c: Conn, steps: seq<Step>, id: nat, taken: seq<S.Step>)
    requires Inv(c) && TrustedRun(c, steps) && c.req.issued + Asks(steps) + 1 < U62
    requires id in c.mux.streams ==> c.mux.streams[id] == S.Run(S.Init(id, c.isClient), taken)
    ensures id in Run(c, steps).mux.streams ==>
      Run(c, steps).mux.streams[id] == S.Run(S.Init(id, c.isClient), StreamSteps(c, steps, id, taken))
    decreases |steps|
  {
    if steps != [] {
      StepInv(c, steps[0]);
      StepIssued(c, steps[0]);
      StepHistory(c, steps[0], id, taken);
      StepClient(c, steps[0]);
      var before := if id in c.mux.streams then taken else [];
      RunMoves(Apply(c, steps[0]), steps[1..], id, before + Moves(c, steps[0], id));
    }
  }

  /** Each stream in the map of a connection is where its own steps, taken out of the connection's
      run, lead in the state machine of streams. */
  lemma {:induction false} StreamFollowsHistory(isClient: bool, steps: seq<Step>, id: nat)
    requires TrustedRun(Init(isClient), steps) && Asks(steps) + 1 < U62
    requires id in Run(Init(isClient), steps).mux.streams
    ensures Run(Init(isClient), steps).mux.streams[id] == S.Run(S.Init(id, isClient), History(isClient, steps, id))
    ensures !Run(Init(isClient), steps).mux.streams[id].tx.removed
  {
    InitInv(isClient);
    RunMoves(Init(isClient), steps, id, []);
    InvOfRun(isClient, steps);
  }

  /** Conservation over runs of connections: the bytes of a stream that was not aborted are all handed
      over or on their way, if and only if no control poll in its part of the run discarded any; and
      then a FIN means that picoquic has all of them. */
  lemma {:induction false} ConnectionConserves(isClient: bool, steps: seq<Step>, id: nat)
    requires TrustedRun(Init(isClient), steps) && Asks(steps) + 1 < U62
    requires id in Run(Init(isClient), steps).mux.streams
    ensures var tx := Run(Init(isClient), steps).mux.streams[id].tx;
      !tx.aborted ==>
        && (StreamInvariant.Total(tx) == tx.accepted <==>
            StreamSending.LossFree(S.Init(id, isClient), History(isClient, steps, id)))
        && (tx.quic.finGiven && StreamInvariant.Total(tx) == tx.accepted ==> tx.quic.handed == tx.accepted)
  {
    StreamFollowsHistory(isClient, steps, id);
    var tx := Run(Init(isClient), steps).mux.streams[id].tx;
    if !tx.aborted {
      StreamSending.ConservationIff(id, isClient, History(isClient, steps, id));
      if tx.quic.finGiven && StreamInvariant.Total(tx) == tx.accepted {
        StreamSending.FinIsComplete(id, isClient, History(isClient, steps, id));
      }
    }
  }

  /** A poll drops a stream from the map exactly when both of its halves are finished; if it could
      send, was not aborted and no control poll in its part of the run discarded bytes, it had handed
      over every byte and the FIN, or was reset without ever having accepted a byte. */
  lemma {:induction false} ForgottenStreamIsDone(isClient: bool, steps: seq<Step>, id: nat)
    requires TrustedRun(Init(isClient), steps) && Asks(steps) + 1 < U62
    requires id in Run(Init(isClient), steps).mux.streams
    ensures var streams := Run(Init(isClient), steps).mux.streams;
      var s := S.Poll(streams[id]);
      && (id !in PollStreams(streams) <==> S.Finished(s))
      && (id !in PollStreams(streams) && CanSend(id, isClient) && !s.tx.aborted
          && StreamSending.LossFree(S.Init(id, isClient), History(isClient, steps, id) + Polls()) ==>
            || (s.tx.quic.finGiven && s.tx.quic.handed == s.tx.accepted)
            || (s.tx.quic.resets > 0 && s.tx.accepted == []))
  {
    var history := History(isClient, steps, id);
    var s := Run(Init(isClient), steps).mux.streams[id];
    InvOfRun(isClient, steps);
    StreamFollowsHistory(isClient, steps, id);
    PollIsRun(id, isClient, s);
    S.RunConcat(S.Init(id, isClient), history, Polls());
    StreamOkPoll(id, isClient, s);
    if StreamSending.LossFree(S.Init(id, isClient), history + Polls()) {
      StreamSending.SafeRemoval(id, isClient, history + Polls());
    }
  }

  /** A connection error reaches the senders of its streams: whatever steps a stream takes after the
      close, its sends that fail report the error unless a resize was on its way or follows, or its
      receiver was gone before. */
  lemma {:induction false} ErrorReachesSenders(
    isClient: bool, steps: seq<Step>, err: ErrorCode, id: nat, after: seq<S.Step>, full: bool)
    requires TrustedRun(Init(isClient), steps) && Asks(steps) + 1 < U62
    requires id in Run(Init(isClient), steps).mux.streams && StreamErrors.NoConnectionError(after)
    ensures var c := Run(Init(isClient), steps);
      var d := CloseConn(HandleError(c, err)).mux.streams;
      && id in d
      && (var r := S.SendResult(S.Run(d[id], after).tx, full);
          StreamErrors.Failed(r) ==>
            r == if StreamErrors.ResizesIn(d[id], after) then S.NormalError
                 else StreamErrors.Report(StreamErrors.StoredAt(c.mux.streams[id].tx, err)))
  {
    var c := Run(Init(isClient), steps);
    var s := c.mux.streams[id];
    var e := S.Apply(s, S.DoConnectionError(err));
    var all := [S.DoConnectionClose] + after;
    StreamFollowsHistory(isClient, steps, id);
    assert CloseConn(HandleError(c, err)).mux.streams[id] == S.Apply(e, S.DoConnectionClose);
    assert all[1..] == after;
    StreamErrors.ErrorReachesAppIff(id, isClient, History(isClient, steps, id), err, all, full);
  }
}
