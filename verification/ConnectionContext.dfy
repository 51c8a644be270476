/** The connection's context with the fields and loops of the program, each method proved to do
    what the state machine of `ConnectionModel` says. */
module ConnectionContext {
  import opened Base
  import opened StreamIds
  import opened ConnectionModel
  import S = StreamModel

  class Context {
    const isClient: bool
    var nextStreamId: nat
    var streams: map<nat, S.State>
    var panicked: bool
    var req: Requests
    var life: Life
    var own: Owners
    ghost var localOpens: seq<Opened>

    ghost function MuxView(): Mux
      reads this
    {
      Mux(nextStreamId, streams, localOpens, panicked)
    }

    ghost function View(): Conn
      reads this
    {
      Conn(isClient, MuxView(), req, life, own)
    }

    /** The reference count is two afterwards: the caller's and the one behind the raw pointer. */
    constructor (isClient: bool)
      ensures View() == Init(isClient) && own.strong == 2
    {
      this.isClient := isClient;
      nextStreamId, streams, panicked, localOpens := 0, map[], false, [];
      req := Requests([], true, None, 0, map[]);
      life := Life(isClient, [], false, false, []);
      own := Owners(2, true, true, true, 0);
    }

    /** Polls every stream and keeps the unfinished ones. */
    method RetainStreams()
      modifies this`streams
      ensures streams == PollStreams(old(streams))
    {
      var todo := streams.Keys;
      var kept: map<nat, S.State> := map[];
      while todo != {}
        invariant streams == old(streams) && todo <= streams.Keys
        invariant kept ==
          map id | id in streams && id !in todo && !S.Finished(S.Poll(streams[id])) :: S.Poll(streams[id])
        decreases |todo|
      {
        var id :| id in todo;
        var s := S.Poll(streams[id]);
        if !S.Finished(s) {
          kept := kept[id := s];
        }
        todo := todo - {id};
      }
      streams := kept;
    }

    /** Tells every stream about an error or the close of the connection. */
    method TellStreams(step: S.Step)
      modifies this`streams
      ensures streams == EachStream(old(streams), step)
    {
      var todo := streams.Keys;
      var told: map<nat, S.State> := map[];
      while todo != {}
        invariant streams == old(streams) && todo <= streams.Keys
        invariant told == map id | id in streams && id !in todo :: S.Apply(streams[id], step)
        decreases |todo|
      {
        var id :| id in todo;
        told := told[id := S.Apply(streams[id], step)];
        todo := todo - {id};
      }
      streams := told;
    }

    /** Opens a stream for each request on the queue. */
    method CheckCreateStreamRequests()
      requires !panicked
      modifies this`nextStreamId, this`streams, this`panicked, this`req, this`localOpens
      ensures (MuxView(), req) == CreateAll(isClient, old(MuxView()), old(req))
    {
      while req.queue != []
        invariant !panicked
        invariant CreateAll(isClient, MuxView(), req) == CreateAll(isClient, old(MuxView()), old(req))
        decreases |req.queue|
      {
        ghost var next := CreateOne(isClient, MuxView(), req);
        var r := req.queue[0];
        var id := GenerateStreamId(nextStreamId, isClient, r.stype);
        nextStreamId := (nextStreamId + 1) % U64;
        var occupied := id in streams;
        streams := streams[id := S.Init(id, isClient)];
        localOpens := localOpens + [Opened(r.ticket, id)];
        req := req.(queue := req.queue[1..]);
        if occupied {
          panicked := true;
          assert (MuxView(), req) == next;
          return;
        }
        req := req.(answers := req.answers[r.ticket := NewStream(id)]);
        assert (MuxView(), req) == next;
      }
    }

    method HandleStreamCallback(id: nat, event: StreamEvent)
      modifies this`streams, this`life
      ensures MuxView() == StreamCallback(isClient, old(MuxView()), id, event)
      ensures life == if id in old(streams) then old(life)
                      else old(life).(messages := old(life).messages + [IncomingStream(id)])
    {
      if id in streams {
        streams := streams[id := S.Apply(streams[id], StepOf(event))];
      } else {
        streams := streams[id := S.Apply(S.Init(id, isClient), StepOf(event))];
        life := life.(messages := life.messages + [IncomingStream(id)]);
      }
    }

    method Close()
      modifies this`streams, this`life
      ensures View() == CloseConn(old(View()))
    {
      life := life.(closed := true);
      TellStreams(S.DoConnectionClose);
      life := life.(messages := life.messages + [ConnClose]);
    }

    method CheckAndHandleError(err: ErrorCode)
      modifies this`streams, this`life, this`req
      ensures View() == HandleError(old(View()), err)
    {
      TellStreams(S.DoConnectionError(err));
      req := req.(open := false, error := Some(err));
      while req.queue != []
        modifies this`req
        invariant AnswerAll(req, Failed(err)) == FailAll(old(req), err)
        decreases |req.queue|
      {
        var r := req.queue[0];
        req := req.(queue := req.queue[1..], answers := req.answers[r.ticket := Failed(err)]);
      }
      if life.waiting {
        life := life.(waiting := false, outcomes := life.outcomes + [NotEstablished(err)]);
      } else {
        life := life.(messages := life.messages + [ConnError(err)]);
      }
    }

    /** The establishment was reported before, and the source panics, exactly when nothing waits. */
    method ProcessWaitForReadyState() returns (panics: bool)
      modifies this`life
      ensures panics <==> !old(life).waiting
      ensures !panics ==> life == BecomeReady(old(life))
    {
      if !life.waiting {
        return true;
      }
      life := life.(waiting := false, outcomes := life.outcomes + [Established]);
      panics := false;
    }

    method HandleReady()
      modifies this`life
      ensures life == BecomeReady(old(life))
    {
      if life.waiting {
        var panics := ProcessWaitForReadyState();
        assert !panics;
      }
    }

    /** One reference is dropped, and with the last one the context. */
    method ReleaseOne()
      modifies this
      ensures View() == Release(old(View()))
    {
      own := own.(strong := own.strong - 1);
      if own.strong == 0 {
        own := own.(callbackSet := false, drops := own.drops + 1);
        req := req.(open := false);
        ghost var before := req;
        while req.queue != []
          modifies this`req
          invariant AnswerAll(req, FailedUnknown) == AnswerAll(before, FailedUnknown)
          decreases |req.queue|
        {
          var r := req.queue[0];
          req := req.(queue := req.queue[1..], answers := req.answers[r.ticket := FailedUnknown]);
        }
        streams := map[];
        if life.waiting {
          life := life.(waiting := false, outcomes := life.outcomes + [Canceled]);
        }
      }
    }

    /** The callback picoquic calls: the reference behind the pointer is given up on a close only. */
    method ConnectionCallback(step: Step)
      requires own.callbackSet && !panicked && (step.DoStream? || step.DoReady? || step.DoCloseEvent?)
      modifies this
      ensures View() == Apply(old(View()), step)
    {
      match step
      case DoCloseEvent(err) =>
        if err.Some? {
          CheckAndHandleError(err.value);
        }
        Close();
        own := own.(pointer := false);
        ReleaseOne();
      case DoReady => HandleReady();
      case DoStream(id, event) =>
        if id != 0 {
          HandleStreamCallback(id, event);
        }
    }

    /** Returns whether the connection is closed and may leave the driver's list. */
    method Poll() returns (ready: bool)
      requires !panicked
      modifies this
      ensures ready <==> old(life).closed
      ensures View() == if ready then old(View()) else PollConn(old(View()))
    {
      if life.closed {
        return true;
      }
      RetainStreams();
      CheckCreateStreamRequests();
      if !panicked && life.closeAsked {
        Close();
      }
      ready := false;
    }

    /** The driver's list keeps the connection until its poll is ready. */
    method PollFromList()
      requires !panicked
      modifies this
      ensures View() == PollListed(old(View()))
    {
      var ready := Poll();
      if ready {
        own := own.(listed := false);
        ReleaseOne();
      }
    }

    /** `NewStreamHandle::new_stream_handle`. */
    method NewStreamHandle(stype: StreamType)
      modifies this`req
      ensures View() == old(View()).(req := Ask(old(req), stype))
    {
      var ticket := req.issued;
      req := req.(issued := ticket + 1);
      if req.open {
        req := req.(queue := req.queue + [Request(ticket, stype)]);
      } else if req.error.Some? {
        req := req.(answers := req.answers[ticket := Failed(req.error.value)]);
      } else {
        req := req.(answers := req.answers[ticket := FailedUnknown]);
      }
    }
  }
}
