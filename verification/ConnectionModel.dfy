/** One connection as a state machine: the map of its streams, the queue of create requests, the
    establishment of the connection and the two owners of its context. */
module ConnectionModel {
  import opened Base
  import opened StreamIds
  import S = StreamModel

  /** A request to create a stream; the ticket stands for the one-shot channel of its answer. */
  datatype Request = Request(ticket: nat, stype: StreamType)

  datatype Answer = NewStream(id: nat) | Failed(err: ErrorCode) | FailedUnknown

  /** The request queue with its associated error, and every answer given so far. */
  datatype Requests = Requests(
    queue: seq<Request>,
    open: bool,
    error: Option<ErrorCode>,
    issued: nat,
    answers: map<nat, Answer>)

  datatype Opened = Opened(ticket: nat, id: nat)

  /** The streams. `localOpens` is history: the locally opened streams in order. */
  datatype Mux = Mux(nextStreamId: nat, streams: map<nat, S.State>, localOpens: seq<Opened>, panicked: bool)

  datatype ConnMessage = IncomingStream(id: nat) | ConnClose | ConnError(err: ErrorCode)

  datatype Outcome = Established | NotEstablished(err: ErrorCode) | Canceled

  /** Establishment and closing. `outcomes` lists every completion of the creation one-shot. */
  datatype Life = Life(
    waiting: bool,
    outcomes: seq<Outcome>,
    closed: bool,
    closeAsked: bool,
    messages: seq<ConnMessage>)

  /** Who holds the context: the driver's list and the raw pointer registered with picoquic. */
  datatype Owners = Owners(strong: int, listed: bool, pointer: bool, callbackSet: bool, drops: nat)

  datatype Conn = Conn(isClient: bool, mux: Mux, req: Requests, life: Life, own: Owners)

  function Init(isClient: bool): Conn {
    Conn(isClient,
         Mux(0, map[], [], false),
         Requests([], true, None, 0, map[]),
         Life(isClient, [], false, false, []),
         Owners(2, true, true, true, 0))
  }

  // ---------------------------------------------------------------- requests

  /** `NewStreamHandle::new_stream_handle`, through any clone of the handle. */
  function Ask(req: Requests, stype: StreamType): Requests {
    var ticket := req.issued;
    if req.open then
      req.(issued := ticket + 1, queue := req.queue + [Request(ticket, stype)])
    else
      req.(issued := ticket + 1,
           answers := req.answers[ticket := if req.error.Some? then Failed(req.error.value) else FailedUnknown])
  }

  /** Every queued request gets the same answer. */
  function AnswerAll(req: Requests, answer: Answer): Requests
    decreases |req.queue|
  {
    if req.queue == [] then req
    else AnswerAll(req.(queue := req.queue[1..], answers := req.answers[req.queue[0].ticket := answer]), answer)
  }

  function FailAll(req: Requests, err: ErrorCode): Requests {
    AnswerAll(req.(open := false, error := Some(err)), Failed(err))
  }

  function CancelAll(req: Requests): Requests {
    AnswerAll(req.(open := false), FailedUnknown)
  }

  // ---------------------------------------------------------------- streams

  /** Opens the stream asked for by the first request. */
  function CreateOne(isClient: bool, mux: Mux, req: Requests): (Mux, Requests)
    requires req.queue != []
  {
    var r := req.queue[0];
    var id := GenerateStreamId(mux.nextStreamId, isClient, r.stype);
    (Mux((mux.nextStreamId + 1) % U64,
         mux.streams[id := S.Init(id, isClient)],
         mux.localOpens + [Opened(r.ticket, id)],
         id in mux.streams),
     req.(queue := req.queue[1..],
          answers := if id in mux.streams then req.answers else req.answers[r.ticket := NewStream(id)]))
  }

  /** `check_create_stream_requests`. */
  function CreateAll(isClient: bool, mux: Mux, req: Requests): (Mux, Requests)
    decreases |req.queue|
  {
    if mux.panicked || req.queue == [] then (mux, req)
    else
      var (m, r) := CreateOne(isClient, mux, req);
      CreateAll(isClient, m, r)
  }

  /** A callback that concerns one stream. */
  datatype StreamEvent = Data(data: Bytes, event: S.PeerEvent) | Prepare(maxLength: nat)

  function StepOf(e: StreamEvent): S.Step {
    match e
    case Data(data, event) => S.DoCallback(data, event)
    case Prepare(maxLength) => S.DoPrepare(maxLength)
  }

  /** `handle_stream_callback`: an unknown id opens a new stream. */
  function StreamCallback(isClient: bool, mux: Mux, id: nat, e: StreamEvent): Mux {
    var s := if id in mux.streams then mux.streams[id] else S.Init(id, isClient);
    mux.(streams := mux.streams[id := S.Apply(s, StepOf(e))])
  }

  /** The streams that stay after each was polled. */
  function PollStreams(streams: map<nat, S.State>): map<nat, S.State> {
    map id | id in streams && !S.Finished(S.Poll(streams[id])) :: S.Poll(streams[id])
  }

  function EachStream(streams: map<nat, S.State>, step: S.Step): map<nat, S.State> {
    map id | id in streams :: S.Apply(streams[id], step)
  }

  // ---------------------------------------------------------------- the context's entry points

  function CloseConn(c: Conn): Conn {
    c.(life := c.life.(closed := true, messages := c.life.messages + [ConnClose]),
       mux := c.mux.(streams := EachStream(c.mux.streams, S.DoConnectionClose)))
  }

  function HandleError(c: Conn, err: ErrorCode): Conn {
    c.(mux := c.mux.(streams := EachStream(c.mux.streams, S.DoConnectionError(err))),
       req := FailAll(c.req, err),
       life := if c.life.waiting then c.life.(waiting := false, outcomes := c.life.outcomes + [NotEstablished(err)])
               else c.life.(messages := c.life.messages + [ConnError(err)]))
  }

  /** The almost-ready event: an outgoing connection is handed to the application. */
  function BecomeReady(life: Life): Life {
    if life.waiting then life.(waiting := false, outcomes := life.outcomes + [Established]) else life
  }

  /** The last owner is gone. */
  function DropContext(c: Conn): Conn {
    c.(own := c.own.(callbackSet := false, drops := c.own.drops + 1),
       req := CancelAll(c.req),
       mux := c.mux.(streams := map[]),
       life := if c.life.waiting then c.life.(waiting := false, outcomes := c.life.outcomes + [Canceled]) else c.life)
  }

  function Release(c: Conn): Conn {
    var d := c.(own := c.own.(strong := c.own.strong - 1));
    if d.own.strong == 0 then DropContext(d) else d
  }

  /** The close event: the reference behind the raw pointer is taken back and dropped. */
  function CloseEvent(c: Conn, err: Option<ErrorCode>): Conn {
    var d := CloseConn(if err.Some? then HandleError(c, err.value) else c);
    Release(d.(own := d.own.(pointer := false)))
  }

  /** `Context::poll` of a connection that is not closed. */
  function PollConn(c: Conn): Conn {
    var (m, r) := CreateAll(c.isClient, c.mux.(streams := PollStreams(c.mux.streams)), c.req);
    var d := c.(mux := m, req := r);
    if d.mux.panicked || !d.life.closeAsked then d else CloseConn(d)
  }

  /** The driver polls its list of connections: a closed one leaves the list. */
  function PollListed(c: Conn): Conn {
    if c.life.closed then Release(c.(own := c.own.(listed := false))) else PollConn(c)
  }

  // ---------------------------------------------------------------- runs

  datatype Step =
    | DoAsk(stype: StreamType)
    | DoStream(id: nat, event: StreamEvent)
    | DoReady
    | DoCloseEvent(err: Option<ErrorCode>)
    | DoCloseAsked
    | DoPoll
    | DoApp(id: nat, step: S.Step)

  /** Handles outlive the connection; callbacks arrive while one is registered; the driver polls
      what it lists. */
  predicate Enabled(c: Conn, step: Step) {
    match step
    case DoAsk(_) => true
    case DoCloseAsked => true
    case DoApp(id, s) => id in c.mux.streams && S.IsAppStep(s)
    case DoPoll => c.own.listed && !c.mux.panicked
    case _ => c.own.callbackSet && !c.mux.panicked
  }

  function Apply(c: Conn, step: Step): Conn {
    if !Enabled(c, step) then c else
    match step
    case DoAsk(stype) => c.(req := Ask(c.req, stype))
    case DoStream(id, event) =>
      if id == 0 then c
      else c.(mux := StreamCallback(c.isClient, c.mux, id, event),
              life := if id in c.mux.streams then c.life
                      else c.life.(messages := c.life.messages + [IncomingStream(id)]))
    case DoReady => c.(life := BecomeReady(c.life))
    case DoCloseEvent(err) => CloseEvent(c, err)
    case DoCloseAsked => c.(life := c.life.(closeAsked := true))
    case DoPoll => PollListed(c)
    case DoApp(id, s) => c.(mux := c.mux.(streams := c.mux.streams[id := S.Apply(c.mux.streams[id], s)]))
  }

  function Run(c: Conn, steps: seq<Step>): Conn
    decreases |steps|
  {
    if steps == [] then c else Run(Apply(c, steps[0]), steps[1..])
  }

  /** What picoquic is trusted with: it names only streams of the peer and streams opened here, and
      it delivers the close event once. */
  predicate Trusted(c: Conn, step: Step) {
    match step
    case DoStream(id, _) =>
      || id == 0
      || !IsLocallyInitiated(id, c.isClient)
      || exists i :: 0 <= i < |c.mux.localOpens| && c.mux.localOpens[i].id == id
    case DoCloseEvent(_) => c.own.pointer
    case _ => true
  }

  predicate TrustedRun(c: Conn, steps: seq<Step>)
    decreases |steps|
  {
    steps == [] || (Trusted(c, steps[0]) && TrustedRun(Apply(c, steps[0]), steps[1..]))
  }
}
