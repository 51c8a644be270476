/** How often a connection makes a context for one stream id. A context is made when a request opens
    the stream or when a callback names an id that is not in the map, and only the second way is
    announced to the application. A callback for an id whose context was already forgotten makes
    another one. */
module ConnectionAnnouncements {
  import opened Base
  import opened StreamIds
  import opened ConnectionModel
  import opened ConnectionRuns
  import opened ConnectionClosing
  import S = StreamModel

  /** The ids of the streams announced to the application, in order. */
  function Announced(messages: seq<ConnMessage>): seq<nat>
    decreases |messages|
  {
    if messages == [] then [] else
    var last := |messages| - 1;
    Announced(messages[..last]) + (if messages[last].IncomingStream? then [messages[last].id] else [])
  }

  lemma AnnouncedAppend(messages: seq<ConnMessage>, m: ConnMessage)
    ensures Announced(messages + [m]) == Announced(messages) + (if m.IncomingStream? then [m.id] else [])
  {
    assert (messages + [m])[..|messages|] == messages;
  }

  /** The step makes a context for an id that is not in the map. */
  predicate Announces(c: Conn, step: Step) {
    Enabled(c, step) && step.DoStream? && step.id != 0 && step.id !in c.mux.streams
  }

  lemma {:induction false} AnnouncedConcat(a: seq<ConnMessage>, b: seq<ConnMessage>)
    ensures Announced(a + b) == Announced(a) + Announced(b)
    decreases |b|
  {
    if b == [] {
      assert a + b == a;
    } else {
      var front, last := b[..|b| - 1], b[|b| - 1];
      assert a + b == (a + front) + [last] && b == front + [last];
      AnnouncedConcat(a, front);
      AnnouncedAppend(a + front, last);
      AnnouncedAppend(front, last);
    }
  }

  lemma AnnouncedTells(c: Conn, step: Step)
    ensures Announced(Tells(c, step)) == if Announces(c, step) then [step.id] else []
  {
    if step.DoCloseEvent? && step.err.Some? {
      AnnouncedConcat([ConnError(step.err.value)], [ConnClose]);
      assert Announced([ConnError(step.err.value)]) == [];
    }
  }

  /** Exactly these steps add to the announcements. */
  lemma {:induction false} StepAnnounced(c: Conn, step: Step)
    requires Inv(c) && Trusted(c, step) && c.req.issued + 1 < U62
    ensures Announced(Apply(c, step).life.messages)
         == Announced(c.life.messages) + (if Announces(c, step) then [step.id] else [])
  {
    StepLife(c, step);
    AnnouncedConcat(c.life.messages, Tells(c, step));
    AnnouncedTells(c, step);
  }

  // ---------------------------------------------------------------- which ids are known

  /** A context was made for this id before. */
  ghost predicate Known(c: Conn, id: nat) {
    id in Announced(c.life.messages) || OpenedHere(c.mux, id)
  }

  /** Every stream in the map is known, and a local one that was announced had been opened here. */
  ghost predicate KnownInv(c: Conn) {
    && (forall id :: id in c.mux.streams && !IsLocallyInitiated(id, c.isClient) ==> id in Announced(c.life.messages))
    && (forall id :: id in Announced(c.life.messages) && IsLocallyInitiated(id, c.isClient) ==> OpenedHere(c.mux, id))
  }

  lemma {:induction false} CreateAllIsLocal(isClient: bool, mux: Mux, req: Requests, id: nat)
    requires id in CreateAll(isClient, mux, req).0.streams && !IsLocallyInitiated(id, isClient)
    ensures id in mux.streams
    decreases |req.queue|
  {
    if !mux.panicked && req.queue != [] {
      var (m, r) := CreateOne(isClient, mux, req);
      GeneratedIdDecodes(mux.nextStreamId, isClient, req.queue[0].stype);
      CreateAllIsLocal(isClient, m, r, id);
    }
  }

  /** A step brings a stream of the peer into the map only by announcing it. */
  lemma {:induction false} StepForeignStreams(c: Conn, step: Step, id: nat)
    requires id in Apply(c, step).mux.streams && !IsLocallyInitiated(id, c.isClient)
    ensures id in c.mux.streams || (Announces(c, step) && step.id == id)
  {
    if Enabled(c, step) && step.DoPoll? && !c.life.closed {
      var polled := c.mux.(streams := PollStreams(c.mux.streams));
      assert id in CreateAll(c.isClient, polled, c.req).0.streams;
      CreateAllIsLocal(c.isClient, polled, c.req, id);
    }
  }

  lemma {:induction false} StepKnown(c: Conn, step: Step)
    requires Inv(c) && KnownInv(c) && Trusted(c, step) && c.req.issued + 1 < U62
    ensures KnownInv(Apply(c, step))
  {
    var d := Apply(c, step);
    StepGrows(c, step);
    StepClient(c, step);
    forall id | id in d.mux.streams && !IsLocallyInitiated(id, d.isClient) ensures id in Announced(d.life.messages) {
      StepAnnounced(c, step);
      StepForeignStreams(c, step, id);
    }
    forall id | id in Announced(d.life.messages) && IsLocallyInitiated(id, d.isClient) ensures OpenedHere(d.mux, id) {
      AnnouncedWasOpened(c, step, id);
      OpenedHereGrows(c.mux, d.mux, id);
    }
  }

  lemma AnnouncedWasOpened(c: Conn, step: Step, id: nat)
    requires Inv(c) && KnownInv(c) && Trusted(c, step) && c.req.issued + 1 < U62
    requires id in Announced(Apply(c, step).life.messages) && IsLocallyInitiated(id, c.isClient)
    ensures OpenedHere(c.mux, id)
  {
    StepAnnounced(c, step);
  }

  /** An id opened here is a local one. */
  lemma OpenedHereIsLocal(isClient: bool, mux: Mux, id: nat)
    requires IdInv(isClient, mux) && OpenedHere(mux, id)
    ensures IsLocallyInitiated(id, isClient)
  {
    var k :| 0 <= k < |mux.localOpens| && mux.localOpens[k].id == id;
    GeneratedIdDecodes(k, isClient, Bidirectional);
    GeneratedIdDecodes(k, isClient, Unidirectional);
  }

  // ---------------------------------------------------------------- one context for each id

  /** A callback for an id whose context was made earlier and has been forgotten. */
  ghost predicate Late(c: Conn, step: Step) {
    Announces(c, step) && Known(c, step.id)
  }

  ghost predicate NoneLate(c: Conn, steps: seq<Step>)
    decreases |steps|
  {
    steps == [] || (!Late(c, steps[0]) && NoneLate(Apply(c, steps[0]), steps[1..]))
  }

  predicate Distinct(ids: seq<nat>) {
    forall i, j :: 0 <= i < j < |ids| ==> ids[i] != ids[j]
  }

  /** No id was announced twice, opened twice, or both announced and opened. */
  ghost predicate OneContextEach(c: Conn) {
    && Distinct(Announced(c.life.messages))
    && (forall i, j :: 0 <= i < j < |c.mux.localOpens| ==> c.mux.localOpens[i].id != c.mux.localOpens[j].id)
    && (forall id :: id in Announced(c.life.messages) ==> !OpenedHere(c.mux, id))
  }

  /** The same, said of the announcements alone. */
  ghost predicate AnnouncedOnce(c: Conn) {
    && Distinct(Announced(c.life.messages))
    && (forall id :: id in Announced(c.life.messages) ==> !IsLocallyInitiated(id, c.isClient))
  }

  lemma AnnouncedOnceIff(c: Conn)
    requires Inv(c) && KnownInv(c) && c.req.issued + 1 < U62
    ensures AnnouncedOnce(c) <==> OneContextEach(c)
  {
    forall id | OpenedHere(c.mux, id) ensures IsLocallyInitiated(id, c.isClient) {
      OpenedHereIsLocal(c.isClient, c.mux, id);
    }
    forall i, j | 0 <= i < j < |c.mux.localOpens| ensures c.mux.localOpens[i].id != c.mux.localOpens[j].id {
      OpensIncrease(c.isClient, c.mux, i, j);
    }
  }

  lemma DistinctAppend(ids: seq<nat>, id: nat)
    ensures Distinct(ids + [id]) <==> Distinct(ids) && id !in ids
  {
    var longer := ids + [id];
    assert forall i :: 0 <= i < |ids| ==> longer[i] == ids[i];
    assert longer[|ids|] == id;
  }

  /** The announcements stay free of repetitions exactly through steps that are not late. */
  lemma {:induction false} StepOnce(c: Conn, step: Step)
    requires Inv(c) && KnownInv(c) && Trusted(c, step) && c.req.issued + 1 < U62
    ensures AnnouncedOnce(Apply(c, step)) <==> AnnouncedOnce(c) && !Late(c, step)
  {
    StepAnnounced(c, step);
    if Announces(c, step) {
      DistinctAppend(Announced(c.life.messages), step.id);
      if OpenedHere(c.mux, step.id) { OpenedHereIsLocal(c.isClient, c.mux, step.id); }
      assert step.id in Announced(Apply(c, step).life.messages);
    } else {
      assert Announced(Apply(c, step).life.messages) == Announced(c.life.messages);
    }
  }

  lemma {:induction false} RunOnce(c: Conn, steps: seq<Step>)
    requires Inv(c) && KnownInv(c) && TrustedRun(c, steps) && c.req.issued + Asks(steps) + 1 < U62
    ensures var d := Run(c, steps);
      && Inv(d) && KnownInv(d) && d.req.issued + 1 < U62
      && (AnnouncedOnce(d) <==> AnnouncedOnce(c) && NoneLate(c, steps))
    decreases |steps|
  {
    if steps != [] {
      StepInv(c, steps[0]);
      StepIssued(c, steps[0]);
      StepKnown(c, steps[0]);
      StepOnce(c, steps[0]);
      RunOnce(Apply(c, steps[0]), steps[1..]);
    }
  }

  lemma InitOnce(isClient: bool)
    ensures var c := Init(isClient); Inv(c) && KnownInv(c) && AnnouncedOnce(c) && c.req.issued == 0
  {
    InitInv(isClient);
    assert Announced(Init(isClient).life.messages) == [];
  }

  lemma {:induction false} OnceOfRun(isClient: bool, steps: seq<Step>)
    requires TrustedRun(Init(isClient), steps) && Asks(steps) + 1 < U62
    ensures var c := Run(Init(isClient), steps);
      Inv(c) && KnownInv(c) && c.req.issued + 1 < U62 && (AnnouncedOnce(c) <==> NoneLate(Init(isClient), steps))
  {
    InitOnce(isClient);
    RunOnce(Init(isClient), steps);
  }

  /** Over every run each id has at most one context, and the application is told of no stream twice
      nor of one it opened itself, if and only if no callback named an id whose context had been
      forgotten. */
  lemma {:induction false} OneContextEachIff(isClient: bool, steps: seq<Step>)
    requires TrustedRun(Init(isClient), steps) && Asks(steps) + 1 < U62
    ensures OneContextEach(Run(Init(isClient), steps)) <==> NoneLate(Init(isClient), steps)
  {
    OnceOfRun(isClient, steps);
    AnnouncedOnceIff(Run(Init(isClient), steps));
  }

  /** What a late callback names is gone from the map but was there: every stream in the map is one
      that was announced or opened here, in every run. */
  lemma {:induction false} StreamsAreKnown(isClient: bool, steps: seq<Step>, id: nat)
    requires TrustedRun(Init(isClient), steps) && Asks(steps) + 1 < U62
    requires id in Run(Init(isClient), steps).mux.streams
    ensures Known(Run(Init(isClient), steps), id)
  {
    OnceOfRun(isClient, steps);
  }

  // ---------------------------------------------------------------- a run with a late callback

  /** The peer's one-way stream 7 ends with its first callback, so the next poll forgets it. */
  lemma EndedStreamIsForgotten()
    ensures var c := Apply(Apply(Init(true), DoStream(7, Data([], S.StreamFin))), DoPoll);
      c == Init(true).(life := Init(true).life.(messages := [IncomingStream(7)]))
  {
    var c := Apply(Init(true), DoStream(7, Data([], S.StreamFin)));
    var s := c.mux.streams[7];
    assert s.tx == S.Init(7, true).tx && s.tx.ctx.stopSendingOrFinSent && s.rx.finReceivedOrRecvMsgDropped;
    assert S.DrainControl(s.tx) == s.tx;
    assert S.Poll(s) == s;
    assert PollStreams(c.mux.streams) == map[];
    assert [] + [IncomingStream(7)] == [IncomingStream(7)];
  }

  /** A second callback for that id announces the stream again. */
  lemma LateCallbackAnnouncesAgain()
    ensures var steps := [DoStream(7, Data([], S.StreamFin)), DoPoll, DoStream(7, Data([], S.StreamFin))];
      && TrustedRun(Init(true), steps) && !NoneLate(Init(true), steps)
      && Run(Init(true), steps).life.messages == [IncomingStream(7), IncomingStream(7)]
  {
    var fin := DoStream(7, Data([], S.StreamFin));
    var steps := [fin, DoPoll, fin];
    assert steps[1..] == [DoPoll, fin] && [DoPoll, fin][1..] == [fin] && [fin][1..] == [];
    var a := Apply(Init(true), fin);
    var b := Apply(a, DoPoll);
    var d := Apply(b, fin);
    EndedStreamIsForgotten();
    assert Run(Init(true), steps) == Run(a, [DoPoll, fin]) == Run(b, [fin]) == Run(d, []);
    assert [IncomingStream(7)] + [IncomingStream(7)] == [IncomingStream(7), IncomingStream(7)];
    assert TrustedRun(d, []) && TrustedRun(b, [fin]) && TrustedRun(a, [DoPoll, fin]);
    AnnouncedAppend([], IncomingStream(7));
    assert [] + [IncomingStream(7)] == b.life.messages;
    assert Announced(b.life.messages) == [7];
    assert 7 in Announced(b.life.messages);
    assert Late(b, fin);
    assert !NoneLate(b, [fin]) && !NoneLate(a, [DoPoll, fin]);
  }
}
