/**
 One Connect session multiplexing logical decode streams (pkg/plugin/tunnel.go:173-489).

 Four kinds of goroutine share the session: the receive loop that reads frames and finally closes
 the session, the callers that open streams, one watcher per stream that waits for the caller's
 cancellation, and one consumer per stream calling Recv. Every lock region, channel operation and
 select branch is one step; any interleaving of steps is a run.
 */
module Tunnel {
  import opened Util

  type Response = int
  type Fault = string

  /** Stream ids come from an atomic uint32 counter. */
  const ID_SPACE: nat := 0x1_0000_0000
  /** defaultTunnelRespQueueSize */
  const QUEUE_SIZE: nat := 16

  datatype Watcher = Watching | Resetting | Removing | Over

  /** Where a call of Recv stands. */
  datatype Consumer = Idle | CheckDone | Select | CtxPoll | CtxCheckDone | DonePoll | DoneReport

  /**
   A logical stream. `offered` are the response frames routed to it, `queued` those put into its
   channel, `got` those Recv returned; `eof` and `failed` record that Recv returned io.EOF or an error.
   */
  datatype Stream = Stream(
    ticket: nat, queue: seq<Response>, done: bool, endErr: Option<Fault>, ctxDone: bool, cancelled: bool,
    watcher: Watcher, consumer: Consumer,
    offered: seq<Response>, queued: seq<Response>, got: seq<Response>, eof: bool, failed: bool)

  /** The receive loop: between frames, in a select delivering a response, or owing finish calls. */
  datatype Receiver =
    | Listening
    | Delivering(stream: nat, id: nat, resp: Response)
    | Finishing(pid: nat, err: Option<Fault>)
    | Closing(rest: seq<nat>)
    | Stopped

  /** `displaced` are the streams whose table entry was overwritten by a later stream of the same id. */
  datatype Session = Session(
    table: map<nat, nat>, streams: seq<Stream>, closed: bool, counter: nat, minted: set<nat>,
    rx: Receiver, displaced: set<nat>)

  const INIT := Session(map[], [], false, 0, {}, Listening, {})

  datatype Op =
    | Mint                                          // nextStreamID.Add(1)
    | Open(ticket: nat)                             // DecodeV2: locked check and registration
    | FrameResponse(id: nat, resp: Response)        // receive loop: a response frame
    | FrameBad(id: nat, cause: Fault)               // receive loop: a response frame that does not unmarshal
    | FrameEnd(id: nat, err: Option<Fault>)         // receive loop: an end frame
    | Enqueue                                       // select of deliverResponse: respCh <- resp
    | DropDone                                      // select of deliverResponse: <-ps.done
    | TimeOut(cause: Fault)                         // select of deliverResponse: timer, then abortStream
    | DoFinish                                      // the finish call owed after an end or abort
    | Shut(order: seq<nat>)                         // close: set closed, empty the table
    | ShutOne(cause: Fault)                         // close: finish the next stream taken out
    | ShutEnd
    | WatchRemove(pid: nat)                         // watcher: delete the table entry if it is still ours
    | Local(pid: nat, move: Move)

  /** A step of a caller, a watcher or a consumer that touches its own stream only. */
  datatype Move =
    | Cancel                                        // the context of the caller is cancelled
    | CancelAfterDone                               // trailing ps.cancel() of finish
    | WatchCtx                                      // watcher: <-streamCtx.Done()
    | WatchDone                                     // watcher: <-ps.done
    | WatchFinish(cause: Fault)                     // watcher: ps.finish(ctx error)
    | Recv                                          // next move of the consumer
    | RecvDone                                      // select of Recv: <-ps.done
    | RecvCtx                                       // select of Recv: <-ctx.Done()

  function IdOf(ticket: nat): nat { ticket % ID_SPACE }

  /** pendingStream.finish: only the first call has an effect. */
  function Finish(p: Stream, err: Option<Fault>): Stream {
    if p.done then p else p.(done := true, endErr := err)
  }

  function Take(p: Stream): Stream
    requires p.queue != []
  {
    p.(queue := p.queue[1..], got := p.got + [p.queue[0]], consumer := Idle)
  }

  /** One move of Recv that is not a choice between ready select branches. */
  function RecvStep(p: Stream): Stream {
    match p.consumer
    case Idle => if p.queue != [] then Take(p) else p.(consumer := CheckDone)
    case CheckDone => p.(consumer := if p.done then DonePoll else Select)
    case Select => if p.queue != [] then Take(p) else p
    case CtxPoll => if p.queue != [] then Take(p) else p.(consumer := CtxCheckDone)
    case CtxCheckDone => if p.done then p.(consumer := DonePoll) else p.(consumer := Idle, failed := true)
    case DonePoll => if p.queue != [] then Take(p) else p.(consumer := DoneReport)
    case DoneReport => if p.endErr.Some? then p.(consumer := Idle, failed := true) else p.(consumer := Idle, eof := true)
  }

  function Abort(s: Session, id: nat, err: Option<Fault>): Session {
    if id in s.table then s.(table := s.table - {id}, rx := Finishing(s.table[id], err)) else s.(rx := Listening)
  }

  ghost predicate Enabled(s: Session, op: Op) {
    match op
    case Mint => true
    case Open(t) => t in s.minted
    case FrameResponse(_, _) | FrameBad(_, _) | FrameEnd(_, _) => s.rx.Listening?
    case Enqueue => s.rx.Delivering? && s.rx.stream < |s.streams| && |s.streams[s.rx.stream].queue| < QUEUE_SIZE
    case DropDone => s.rx.Delivering? && s.rx.stream < |s.streams| && s.streams[s.rx.stream].done
    case TimeOut(_) => s.rx.Delivering?
    case DoFinish => s.rx.Finishing? && s.rx.pid < |s.streams|
    case Shut(order) => s.rx.Listening? && Distinct(order) && (forall p :: p in order <==> p in s.table.Values)
    case ShutOne(_) => s.rx.Closing? && s.rx.rest != [] && s.rx.rest[0] < |s.streams|
    case ShutEnd => s.rx.Closing? && s.rx.rest == []
    case WatchRemove(p) => p < |s.streams| && s.streams[p].watcher == Removing
    case Local(p, m) => p < |s.streams| && CanMove(s.streams[p], m)
  }

  predicate CanMove(x: Stream, m: Move) {
    match m
    case Cancel => true
    case CancelAfterDone => x.done
    case WatchCtx => x.watcher == Watching && x.ctxDone
    case WatchDone => x.watcher == Watching && x.done
    case WatchFinish(_) => x.watcher == Resetting
    case Recv => true
    case RecvDone => x.consumer == Select && x.done
    case RecvCtx => x.consumer == Select && x.ctxDone
  }

  function Moved(x: Stream, m: Move): Stream {
    match m
    case Cancel => x.(ctxDone := true, cancelled := true)
    case CancelAfterDone => x.(ctxDone := true)
    case WatchCtx => x.(watcher := Resetting)
    case WatchDone => x.(watcher := Over)
    case WatchFinish(cause) => Finish(x, Some(cause)).(watcher := Removing)
    case Recv => RecvStep(x)
    case RecvDone => x.(consumer := DonePoll)
    case RecvCtx => x.(consumer := CtxPoll)
  }

  ghost function Upd(s: Session, p: nat, x: Stream): Session
    requires p < |s.streams|
  {
    s.(streams := s.streams[p := x])
  }

  ghost function UpdRx(s: Session, p: nat, x: Stream, rx: Receiver): Session
    requires p < |s.streams|
  {
    s.(streams := s.streams[p := x], rx := rx)
  }

  ghost function NewStream(ticket: nat): Stream {
    Stream(ticket, [], false, None, false, false, Watching, Idle, [], [], [], false, false)
  }

  ghost function Step(s: Session, op: Op): Session
    requires Enabled(s, op)
  {
    match op
    case Mint => s.(counter := s.counter + 1, minted := s.minted + {s.counter + 1})
    case Open(t) =>
      if s.closed then s.(minted := s.minted - {t})
      else
        var id := IdOf(t);
        s.(minted := s.minted - {t}, table := s.table[id := |s.streams|], streams := s.streams + [NewStream(t)],
           displaced := s.displaced + (if id in s.table then {s.table[id]} else {}))
    case FrameResponse(id, resp) =>
      if id !in s.table || s.table[id] >= |s.streams| then s
      else
        var p := s.table[id];
        UpdRx(s, p, s.streams[p].(offered := s.streams[p].offered + [resp]), Delivering(p, id, resp))
    case FrameBad(id, cause) => Abort(s, id, Some(cause))
    case FrameEnd(id, err) => Abort(s, id, err)
    case Enqueue =>
      var p := s.streams[s.rx.stream];
      UpdRx(s, s.rx.stream, p.(queue := p.queue + [s.rx.resp], queued := p.queued + [s.rx.resp]), Listening)
    case DropDone => s.(rx := Listening)
    case TimeOut(cause) => Abort(s, s.rx.id, Some(cause))
    case DoFinish => UpdRx(s, s.rx.pid, Finish(s.streams[s.rx.pid], s.rx.err), Listening)
    case Shut(order) => s.(closed := true, table := map[], rx := Closing(order))
    case ShutOne(cause) =>
      UpdRx(s, s.rx.rest[0], Finish(s.streams[s.rx.rest[0]], Some(cause)), Closing(s.rx.rest[1..]))
    case ShutEnd => s.(rx := Stopped)
    case WatchRemove(p) =>
      var id := IdOf(s.streams[p].ticket);
      s.(streams := s.streams[p := s.streams[p].(watcher := Over)],
         table := if id in s.table && s.table[id] == p then s.table - {id} else s.table)
    case Local(p, m) => Upd(s, p, Moved(s.streams[p], m))
  }

  ghost predicate Legal(s: Session, ops: seq<Op>)
    decreases |ops|
  {
    ops == [] || (Enabled(s, ops[0]) && Legal(Step(s, ops[0]), ops[1..]))
  }

  ghost function Run(s: Session, ops: seq<Op>): Session
    requires Legal(s, ops)
    decreases |ops|
  {
    if ops == [] then s else Run(Step(s, ops[0]), ops[1..])
  }

  // ---------- The invariant ----------

  ghost predicate InTable(s: Session, p: nat)
    requires p < |s.streams|
  {
    var id := IdOf(s.streams[p].ticket); id in s.table && s.table[id] == p
  }

  /** Somebody other than the stream's own watcher will still call finish on it. */
  ghost predicate Owed(s: Session, p: nat) {
    (s.rx.Finishing? && s.rx.pid == p) || (s.rx.Closing? && p in s.rx.rest)
  }

  ghost predicate DeliveringTo(s: Session, p: nat) { s.rx.Delivering? && s.rx.stream == p }

  /** The response in the receive loop's hand for this stream, if any. */
  ghost function InHand(s: Session, p: nat): seq<Response> {
    if DeliveringTo(s, p) then [s.rx.resp] else []
  }

  /** A stream that is not finished can still be: it is in the table, owed a finish, or was displaced. */
  ghost predicate Tracked(s: Session, p: nat)
    requires p < |s.streams|
  {
    !s.streams[p].done ==> InTable(s, p) || Owed(s, p) || p in s.displaced
  }

  /** It ended by an end frame without error. */
  ghost predicate Clean(p: Stream) { p.done && p.endErr.None? }

  /** What holds of a stream by itself. */
  ghost predicate Sound(x: Stream) {
    && x.queued == x.got + x.queue && |x.queue| <= QUEUE_SIZE
    && (x.endErr.Some? ==> x.done)
    && (x.consumer in {DonePoll, DoneReport} ==> x.done)
    && (x.consumer in {CtxPoll, CtxCheckDone} ==> x.ctxDone)
    && (x.consumer == DoneReport && Clean(x) ==> x.queue == [])
    && (x.eof ==> Clean(x) && x.queue == [])
    && (x.ctxDone ==> x.cancelled || x.done) && (x.watcher == Removing ==> x.done)
    && (x.failed ==> x.cancelled || x.endErr.Some?)
  }

  /** Until it is cut short, every response routed to it went into its queue or is in hand. */
  ghost predicate Routed(s: Session, p: nat)
    requires p < |s.streams|
  {
    var x := s.streams[p];
    && (x.endErr.None? && (x.done || InTable(s, p) || Owed(s, p)) && !Aborting(s, p) ==>
          x.offered == x.queued + InHand(s, p))
    && (Clean(x) ==> !InTable(s, p) && !Owed(s, p) && !DeliveringTo(s, p))
  }

  /** The receive loop holds an abort or a close of this stream: a frame may already be lost. */
  ghost predicate Aborting(s: Session, p: nat) {
    (s.rx.Finishing? && s.rx.pid == p && s.rx.err.Some?) || (s.rx.Closing? && p in s.rx.rest)
  }

  ghost predicate StreamOk(s: Session, p: nat)
    requires p < |s.streams|
  {
    Tracked(s, p) && Sound(s.streams[p]) && Routed(s, p)
  }

  ghost predicate SessionOk(s: Session) {
    && (forall id :: id in s.table ==> s.table[id] < |s.streams| && IdOf(s.streams[s.table[id]].ticket) == id)
    && (s.closed <==> s.rx.Closing? || s.rx.Stopped?) && (s.closed ==> s.table == map[])
    && (s.rx.Delivering? ==> s.rx.stream < |s.streams| && s.rx.id == IdOf(s.streams[s.rx.stream].ticket))
    && (s.rx.Finishing? ==> s.rx.pid < |s.streams| && !InTable(s, s.rx.pid))
    && (s.rx.Closing? ==> Distinct(s.rx.rest) && forall p :: p in s.rx.rest ==> p < |s.streams|)
  }

  ghost predicate TicketsOk(s: Session) {
    && (forall t :: t in s.minted ==> 1 <= t <= s.counter)
    && (forall p :: 0 <= p < |s.streams| ==> 1 <= s.streams[p].ticket <= s.counter && s.streams[p].ticket !in s.minted)
    && (s.counter <= ID_SPACE ==> s.displaced == {})
  }

  ghost predicate Inv(s: Session) {
    SessionOk(s) && TicketsOk(s) && forall p :: 0 <= p < |s.streams| ==> StreamOk(s, p)
  }

  // ---------- Preservation ----------

  lemma TakeSound(x: Stream)
    requires Sound(x) && x.queue != []
    ensures Sound(Take(x))
  {
    assert x.got + x.queue == x.got + [x.queue[0]] + x.queue[1..];
  }

  lemma RecvMoves(x: Stream)
    requires Sound(x)
    ensures var x' := RecvStep(x);
            && Sound(x') && x'.ticket == x.ticket && x'.offered == x.offered && x'.queued == x.queued
            && x'.done == x.done && x'.endErr == x.endErr
  {
    if x.queue != [] { TakeSound(x); }
  }

  lemma StreamMoves(x: Stream, m: Move)
    requires Sound(x) && CanMove(x, m)
    ensures var x' := Moved(x, m);
            && Sound(x') && x'.ticket == x.ticket && x'.offered == x.offered && x'.queued == x.queued
            && (x.done ==> x'.done && x'.endErr == x.endErr)
            && (x'.done && !x.done ==> x'.endErr.Some?)
  {
    if m.Recv? { RecvMoves(x); }
  }

  lemma LocalSession(s: Session, p: nat, x: Stream)
    requires SessionOk(s) && p < |s.streams| && x.ticket == s.streams[p].ticket
    ensures SessionOk(Upd(s, p, x))
  {}

  lemma LocalStream(s: Session, p: nat, m: Move, q: nat)
    requires Enabled(s, Local(p, m)) && q < |s.streams| && StreamOk(s, p) && StreamOk(s, q)
    ensures StreamOk(Step(s, Local(p, m)), q)
  {
    StreamMoves(s.streams[p], m);
    var s' := Step(s, Local(p, m));
    assert InTable(s', q) == InTable(s, q) && InHand(s', q) == InHand(s, q);
  }

  predicate Routing(op: Op) {
    op.FrameResponse? || op.Enqueue? || op.DropDone? || op.DoFinish? || op.ShutOne? || op.ShutEnd?
  }

  lemma RoutingSession(s: Session, op: Op)
    requires SessionOk(s) && Enabled(s, op) && Routing(op)
    ensures SessionOk(Step(s, op))
  {
    if op.ShutOne? { assert forall p :: p in s.rx.rest[1..] ==> p in s.rx.rest; }
  }

  lemma ShutSession(s: Session, order: seq<nat>)
    requires SessionOk(s) && Enabled(s, Shut(order))
    ensures SessionOk(Step(s, Shut(order)))
  {
    forall p | p in order ensures p < |s.streams| {
      assert p in s.table.Values;
    }
  }

  lemma TableSession(s: Session, op: Op)
    requires SessionOk(s) && Enabled(s, op) && !op.Local? && !Routing(op) && !op.Shut?
    ensures SessionOk(Step(s, op))
  {}

  lemma LocalTickets(s: Session, p: nat, x: Stream)
    requires TicketsOk(s) && p < |s.streams| && x.ticket == s.streams[p].ticket
    ensures TicketsOk(Upd(s, p, x))
  {}

  lemma RoutingTickets(s: Session, op: Op)
    requires SessionOk(s) && TicketsOk(s) && Enabled(s, op) && Routing(op)
    ensures TicketsOk(Step(s, op))
  {}

  lemma TableTickets(s: Session, op: Op)
    requires SessionOk(s) && TicketsOk(s) && Enabled(s, op) && !op.Local? && !Routing(op)
    ensures TicketsOk(Step(s, op))
  {}

  lemma RoutingStream(s: Session, op: Op, p: nat)
    requires SessionOk(s) && Enabled(s, op) && Routing(op) && p < |s.streams| && StreamOk(s, p)
    ensures StreamOk(Step(s, op), p)
  {}

  lemma OpenStream(s: Session, t: nat, p: nat)
    requires SessionOk(s) && Enabled(s, Open(t)) && p < |s.streams| && StreamOk(s, p)
    ensures p < |Step(s, Open(t)).streams| && StreamOk(Step(s, Open(t)), p)
  {}

  lemma OpenedStream(s: Session, t: nat)
    requires SessionOk(s) && Enabled(s, Open(t)) && !s.closed
    ensures StreamOk(Step(s, Open(t)), |s.streams|)
  {}

  lemma TableStream(s: Session, op: Op, p: nat)
    requires SessionOk(s) && Enabled(s, op) && !op.Local? && !Routing(op) && !op.Open? && p < |s.streams| && StreamOk(s, p)
    ensures StreamOk(Step(s, op), p)
  {}

  lemma StepSession(s: Session, op: Op)
    requires Inv(s) && Enabled(s, op)
    ensures SessionOk(Step(s, op)) && TicketsOk(Step(s, op))
  {
    if op.Local? {
      assert StreamOk(s, op.pid);
      StreamMoves(s.streams[op.pid], op.move);
      LocalSession(s, op.pid, Moved(s.streams[op.pid], op.move));
      LocalTickets(s, op.pid, Moved(s.streams[op.pid], op.move));
    } else if Routing(op) {
      RoutingSession(s, op);
      RoutingTickets(s, op);
    } else {
      if op.Shut? { ShutSession(s, op.order); } else { TableSession(s, op); }
      TableTickets(s, op);
    }
  }

  lemma StepStream(s: Session, op: Op, p: nat)
    requires Inv(s) && Enabled(s, op) && p < |Step(s, op).streams|
    ensures StreamOk(Step(s, op), p)
  {
    if p < |s.streams| { assert StreamOk(s, p); }
    if op.Open? && p == |s.streams| { OpenedStream(s, op.ticket); }
    else if op.Open? { OpenStream(s, op.ticket, p); }
    else if op.Local? { assert StreamOk(s, op.pid); LocalStream(s, op.pid, op.move, p); }
    else if Routing(op) { RoutingStream(s, op, p); }
    else { TableStream(s, op, p); }
  }

  lemma StepKeeps(s: Session, op: Op)
    requires Inv(s) && Enabled(s, op)
    ensures Inv(Step(s, op))
  {
    StepSession(s, op);
    forall p | 0 <= p < |Step(s, op).streams| ensures StreamOk(Step(s, op), p) {
      StepStream(s, op, p);
    }
  }

  lemma {:induction false} RunKeeps(s: Session, ops: seq<Op>)
    requires Inv(s) && Legal(s, ops)
    ensures Inv(Run(s, ops))
    decreases |ops|
  {
    if ops != [] {
      StepKeeps(s, ops[0]);
      RunKeeps(Step(s, ops[0]), ops[1..]);
    }
  }

  // ---------- What every run gives ----------

  /**
   Until the session is closed a live stream is in the table or about to be finished; once the
   receive loop has stopped, the table is empty and every stream is finished. The one exception is a
   stream whose id was reused while it was live, and no id is reused among the first 2^32 streams.
   */
  lemma NobodyLeftWaiting(ops: seq<Op>)
    requires Legal(INIT, ops)
    ensures var s := Run(INIT, ops);
            && (forall p :: 0 <= p < |s.streams| && !s.streams[p].done ==> InTable(s, p) || Owed(s, p) || p in s.displaced)
            && (s.closed ==> s.table == map[])
            && (s.rx.Stopped? ==> forall p :: 0 <= p < |s.streams| && p !in s.displaced ==> s.streams[p].done)
            && (s.counter <= ID_SPACE ==> s.displaced == {})
  {
    RunKeeps(INIT, ops);
    var s := Run(INIT, ops);
    forall p | 0 <= p < |s.streams| && !s.streams[p].done ensures InTable(s, p) || Owed(s, p) || p in s.displaced {
      assert StreamOk(s, p);
    }
  }

  // ---------- What becomes of a displaced stream ----------

  /** A stream in the table, or displaced from it, is finished by its own watcher only, and that only after
      the caller cancelled; and nobody owes a displaced stream anything. */
  ghost predicate Alone(s: Session, p: nat)
    requires p < |s.streams|
  {
    var x := s.streams[p];
    && (p in s.displaced ==> !InTable(s, p) && !Owed(s, p))
    && ((InTable(s, p) || p in s.displaced) && x.done ==> x.watcher in {Removing, Over} && x.cancelled)
    && (x.watcher == Over ==> x.done) && (x.watcher == Resetting ==> x.ctxDone) && (x.cancelled ==> x.ctxDone)
  }

  ghost predicate AllAlone(s: Session) {
    (forall p :: p in s.displaced ==> p < |s.streams|) && forall p :: 0 <= p < |s.streams| ==> Alone(s, p)
  }

  lemma MovedAlone(x: Stream, m: Move)
    requires Sound(x) && CanMove(x, m) && (x.watcher == Over ==> x.done) && (x.watcher == Resetting ==> x.ctxDone)
    requires x.cancelled ==> x.ctxDone
    ensures var y := Moved(x, m);
            && (y.watcher == Over ==> y.done) && (y.watcher == Resetting ==> y.ctxDone) && (y.cancelled ==> y.ctxDone)
            && y.ticket == x.ticket && (x.cancelled ==> y.cancelled)
            && (y.done && !x.done ==> y.watcher == Removing && y.cancelled)
            && (x.done && x.watcher in {Removing, Over} ==> y.watcher in {Removing, Over})
  {
    if m.Recv? { RecvMoves(x); }
  }

  lemma LocalAlone(s: Session, q: nat, m: Move, p: nat)
    requires Enabled(s, Local(q, m)) && p < |s.streams| && Sound(s.streams[q]) && Alone(s, q) && Alone(s, p)
    ensures Alone(Step(s, Local(q, m)), p)
  {
    MovedAlone(s.streams[q], m);
    var r := Step(s, Local(q, m));
    assert InTable(r, p) == InTable(s, p);
  }

  lemma RoutingAlone(s: Session, op: Op, p: nat)
    requires SessionOk(s) && Enabled(s, op) && Routing(op) && p < |s.streams| && Alone(s, p)
    ensures Alone(Step(s, op), p)
  {}

  lemma OpenAlone(s: Session, t: nat, p: nat)
    requires SessionOk(s) && Enabled(s, Open(t)) && p < |s.streams| && Alone(s, p)
    ensures Alone(Step(s, Open(t)), p)
  {}

  lemma OpenedAlone(s: Session, t: nat)
    requires SessionOk(s) && Enabled(s, Open(t)) && !s.closed && forall p :: p in s.displaced ==> p < |s.streams|
    ensures Alone(Step(s, Open(t)), |s.streams|)
  {}

  lemma TableAlone(s: Session, op: Op, p: nat)
    requires SessionOk(s) && Enabled(s, op) && !op.Local? && !Routing(op) && !op.Open? && p < |s.streams| && Alone(s, p)
    requires Sound(s.streams[p])
    ensures Alone(Step(s, op), p)
  {}

  lemma StepAlone(s: Session, op: Op)
    requires Inv(s) && AllAlone(s) && Enabled(s, op)
    ensures AllAlone(Step(s, op))
  {
    DisplacedExist(s, op);
    forall p | 0 <= p < |Step(s, op).streams| ensures Alone(Step(s, op), p) {
      if p < |s.streams| { assert StreamOk(s, p) && Alone(s, p); }
      if op.Open? && p == |s.streams| { OpenedAlone(s, op.ticket); }
      else if op.Open? { OpenAlone(s, op.ticket, p); }
      else if op.Local? { assert StreamOk(s, op.pid) && Alone(s, op.pid); LocalAlone(s, op.pid, op.move, p); }
      else if Routing(op) { RoutingAlone(s, op, p); }
      else { TableAlone(s, op, p); }
    }
  }

  lemma DisplacedExist(s: Session, op: Op)
    requires SessionOk(s) && Enabled(s, op) && forall p :: p in s.displaced ==> p < |s.streams|
    ensures forall p :: p in Step(s, op).displaced ==> p < |Step(s, op).streams|
  {}

  lemma {:induction false} RunAlone(s: Session, ops: seq<Op>)
    requires Inv(s) && AllAlone(s) && Legal(s, ops)
    ensures AllAlone(Run(s, ops))
    decreases |ops|
  {
    if ops != [] {
      StepKeeps(s, ops[0]);
      StepAlone(s, ops[0]);
      RunAlone(Step(s, ops[0]), ops[1..]);
    }
  }

  /** The stream's watcher has nothing left to do. */
  ghost predicate WatcherQuiet(x: Stream) {
    !CanMove(x, WatchCtx) && !CanMove(x, WatchDone) && x.watcher != Resetting && x.watcher != Removing
  }

  /** Once the receive loop has stopped, a stream is unfinished exactly if it was displaced and its own watcher
      has not finished it; when the watcher has had its turn, exactly if it was displaced and its caller never
      cancelled. */
  lemma UnfinishedExactly(ops: seq<Op>, p: nat)
    requires Legal(INIT, ops) && p < |Run(INIT, ops).streams| && Run(INIT, ops).rx.Stopped?
    ensures var s := Run(INIT, ops);
            var x := s.streams[p];
            && (!x.done <==> p in s.displaced && x.watcher in {Watching, Resetting})
            && (WatcherQuiet(x) ==> (!x.done <==> p in s.displaced && !x.cancelled))
  {
    RunKeeps(INIT, ops);
    RunAlone(INIT, ops);
    var s := Run(INIT, ops);
    assert StreamOk(s, p) && Alone(s, p);
  }

  /** Closed stays closed: the table never fills again. */
  lemma {:induction false} ClosedForever(s: Session, ops: seq<Op>)
    requires Inv(s) && Legal(s, ops) && s.closed
    ensures Run(s, ops).closed && Run(s, ops).table == map[] && |Run(s, ops).streams| == |s.streams|
    decreases |ops|
  {
    if ops != [] {
      StepKeeps(s, ops[0]);
      ClosedForever(Step(s, ops[0]), ops[1..]);
    }
  }

  lemma StepFinished(s: Session, op: Op, p: nat)
    requires Enabled(s, op) && p < |s.streams| && s.streams[p].done
    ensures p < |Step(s, op).streams| && Step(s, op).streams[p].done
    ensures Step(s, op).streams[p].endErr == s.streams[p].endErr
  {
    if op.Local? {
      MovedFinished(s.streams[op.pid], op.move);
    } else {
      RemoteFinished(s, op, p);
    }
  }

  lemma MovedFinished(x: Stream, m: Move)
    ensures x.done ==> Moved(x, m).done && Moved(x, m).endErr == x.endErr
  {}

  lemma RemoteFinished(s: Session, op: Op, p: nat)
    requires Enabled(s, op) && !op.Local? && p < |s.streams| && s.streams[p].done
    ensures p < |Step(s, op).streams| && Step(s, op).streams[p].done
    ensures Step(s, op).streams[p].endErr == s.streams[p].endErr
  {}

  /** A finished stream keeps its first verdict: no later end, abort, cancel or close changes it. */
  lemma {:induction false} FinishedOnce(s: Session, ops: seq<Op>, p: nat)
    requires Inv(s) && Legal(s, ops) && p < |s.streams| && s.streams[p].done
    ensures p < |Run(s, ops).streams| && Run(s, ops).streams[p].done && Run(s, ops).streams[p].endErr == s.streams[p].endErr
    decreases |ops|
  {
    if ops != [] {
      StepFinished(s, ops[0], p);
      StepKeeps(s, ops[0]);
      FinishedOnce(Step(s, ops[0]), ops[1..], p);
    }
  }

  /**
   When Recv has returned io.EOF, the responses it returned are exactly the response frames that
   were routed to the stream, in order; and on a stream that ended normally and that nobody
   cancelled, Recv never returned an error.
   */
  lemma CleanEndDeliversAll(ops: seq<Op>, p: nat)
    requires Legal(INIT, ops) && p < |Run(INIT, ops).streams|
    ensures var x := Run(INIT, ops).streams[p];
            && (x.eof ==> Clean(x) && x.got == x.offered)
            && (Clean(x) && !x.cancelled ==> !x.failed)
            && x.got <= x.queued
            && |x.queue| <= QUEUE_SIZE
  {
    RunKeeps(INIT, ops);
    assert StreamOk(Run(INIT, ops), p);
  }

  // ---------- What was heard, kept apart from the session ----------

  /**
   What the operations of a run said: the tickets opened before the close, the responses and the end or
   failure each stream's frames carried, who finished each stream first and with what, and whose caller
   cancelled. `quit` are the streams finished first by their own watcher.
   */
  datatype Told = Told(
    made: seq<nat>, closed: bool, sent: map<nat, seq<Response>>, frames: map<nat, Option<Fault>>,
    ended: map<nat, Option<Fault>>, quit: set<nat>, cancelled: set<nat>)

  const NOTHING := Told([], false, map[], map[], map[], {}, {})

  function SentTo(t: Told, p: nat): seq<Response> { if p in t.sent then t.sent[p] else [] }

  /** A frame or a failure that takes the stream of this id out of the table. */
  function Frame(t: Told, table: map<nat, nat>, id: nat, err: Option<Fault>): Told {
    if id in table then t.(frames := t.frames[table[id] := err]) else t
  }

  function Ended(t: Told, p: nat, err: Option<Fault>): Told {
    if p in t.ended then t else t.(ended := t.ended[p := err])
  }

  function HearMove(t: Told, p: nat, m: Move): Told {
    match m
    case WatchFinish(cause) => if p in t.ended then t else Ended(t, p, Some(cause)).(quit := t.quit + {p})
    case Cancel => t.(cancelled := t.cancelled + {p})
    case _ => t
  }

  ghost function Hear(t: Told, s: Session, op: Op): Told
    requires Enabled(s, op)
  {
    match op
    case Open(ticket) => if t.closed then t else t.(made := t.made + [ticket])
    case FrameResponse(id, resp) =>
      if id in s.table then t.(sent := t.sent[s.table[id] := SentTo(t, s.table[id]) + [resp]]) else t
    case FrameBad(id, cause) => Frame(t, s.table, id, Some(cause))
    case FrameEnd(id, err) => Frame(t, s.table, id, err)
    case TimeOut(cause) => Frame(t, s.table, s.rx.id, Some(cause))
    case DoFinish => if s.rx.pid in t.frames then Ended(t, s.rx.pid, t.frames[s.rx.pid]) else t
    case Shut(_) => t.(closed := true)
    case ShutOne(cause) => Ended(t, s.rx.rest[0], Some(cause))
    case Local(p, m) => HearMove(t, p, m)
    case _ => t
  }

  ghost function Heard(t: Told, s: Session, ops: seq<Op>): Told
    requires Legal(s, ops)
    decreases |ops|
  {
    if ops == [] then t else Heard(Hear(t, s, ops[0]), Step(s, ops[0]), ops[1..])
  }

  /** What a stream has is what was said about it. */
  ghost predicate Knows(x: Stream, t: Told, p: nat) {
    && p < |t.made| && x.ticket == t.made[p] && x.offered == SentTo(t, p)
    && (x.cancelled <==> p in t.cancelled)
    && (x.done <==> p in t.ended) && (x.done ==> x.endErr == t.ended[p])
  }

  /** Where a stream is that a frame or a verdict met. */
  ghost predicate Met(s: Session, t: Told, p: nat)
    requires p < |s.streams|
  {
    && (p in t.frames ==> !InTable(s, p) && p !in ClosingOf(s.rx) && (p in t.ended || (s.rx.Finishing? && s.rx.pid == p)))
    && (p in t.frames && p in t.ended ==> p in t.quit || t.ended[p] == t.frames[p])
    && (InTable(s, p) && p in t.ended ==> p in t.quit)
    && (p in t.ended && t.ended[p].None? ==> p in t.frames && t.frames[p].None?)
    && (p in t.quit ==> p in t.ended && p in t.cancelled && t.ended[p].Some?)
  }

  ghost predicate AsTold(s: Session, t: Told, p: nat)
    requires p < |s.streams|
  {
    Knows(s.streams[p], t, p) && Met(s, t, p)
  }

  function ClosingOf(rx: Receiver): seq<nat> { if rx.Closing? then rx.rest else [] }

  ghost predicate ToldOk(s: Session, t: Told) {
    && |t.made| == |s.streams| && t.closed == s.closed
    && (s.rx.Finishing? ==> s.rx.pid in t.frames && t.frames[s.rx.pid] == s.rx.err)
    && (forall p :: p in t.sent || p in t.frames || p in t.ended || p in t.quit || p in t.cancelled ==> p < |s.streams|)
  }

  ghost predicate AllAsTold(s: Session, t: Told) {
    ToldOk(s, t) && forall p :: 0 <= p < |s.streams| ==> AsTold(s, t, p)
  }

  lemma StepToldOk(s: Session, t: Told, op: Op)
    requires SessionOk(s) && ToldOk(s, t) && Enabled(s, op)
    ensures ToldOk(Step(s, op), Hear(t, s, op))
  {
    if op.Local? { LocalToldOk(s, t, op.pid, op.move); }
    else if Routing(op) { RoutingToldOk(s, t, op); }
    else { TableToldOk(s, t, op); }
  }

  lemma LocalToldOk(s: Session, t: Told, q: nat, m: Move)
    requires ToldOk(s, t) && Enabled(s, Local(q, m))
    ensures ToldOk(Step(s, Local(q, m)), Hear(t, s, Local(q, m)))
  {}

  lemma RoutingToldOk(s: Session, t: Told, op: Op)
    requires SessionOk(s) && ToldOk(s, t) && Enabled(s, op) && Routing(op)
    ensures ToldOk(Step(s, op), Hear(t, s, op))
  {}

  lemma TableToldOk(s: Session, t: Told, op: Op)
    requires SessionOk(s) && ToldOk(s, t) && Enabled(s, op) && !op.Local? && !Routing(op)
    ensures ToldOk(Step(s, op), Hear(t, s, op))
  {}

  lemma LocalTold(s: Session, t: Told, q: nat, m: Move, p: nat)
    requires Enabled(s, Local(q, m)) && p < |s.streams| && AsTold(s, t, p) && AsTold(s, t, q) && Sound(s.streams[q]) && Alone(s, q)
    ensures AsTold(Step(s, Local(q, m)), Hear(t, s, Local(q, m)), p)
  {
    MovedTold(s.streams[q], m);
    if p == q { MoverKnows(s.streams[q], Moved(s.streams[q], m), t, q, m); } else { OtherKnows(s.streams[p], t, p, q, m); }
    LocalMet(s, t, q, m, p);
  }

  lemma MoverKnows(x: Stream, y: Stream, t: Told, q: nat, m: Move)
    requires Knows(x, t, q) && MovesAs(x, y, m)
    ensures Knows(y, HearMove(t, q, m), q)
  {}

  lemma OtherKnows(x: Stream, t: Told, p: nat, q: nat, m: Move)
    requires Knows(x, t, p) && p != q
    ensures Knows(x, HearMove(t, q, m), p)
  {}

  lemma LocalMet(s: Session, t: Told, q: nat, m: Move, p: nat)
    requires Enabled(s, Local(q, m)) && p < |s.streams| && Met(s, t, p) && Knows(s.streams[q], t, q)
    requires MovesAs(s.streams[q], Moved(s.streams[q], m), m)
    ensures Met(Step(s, Local(q, m)), Hear(t, s, Local(q, m)), p)
  {
    var r := Step(s, Local(q, m));
    assert InTable(r, p) == InTable(s, p) && r.rx == s.rx;
  }

  ghost predicate MovesAs(x: Stream, y: Stream, m: Move) {
    && y.ticket == x.ticket && y.offered == x.offered && y.cancelled == (x.cancelled || m.Cancel?)
    && (if m.WatchFinish? && !x.done then y.done && y.endErr == Some(m.cause) && x.cancelled
        else y.done == x.done && y.endErr == x.endErr)
  }

  lemma MovedTold(x: Stream, m: Move)
    requires Sound(x) && CanMove(x, m) && (x.watcher == Resetting ==> x.ctxDone)
    ensures MovesAs(x, Moved(x, m), m)
  {
    if m.Recv? { RecvMoves(x); }
  }

  lemma RoutingTold(s: Session, t: Told, op: Op, p: nat)
    requires SessionOk(s) && ToldOk(s, t) && Enabled(s, op) && Routing(op) && p < |s.streams| && AsTold(s, t, p)
    ensures AsTold(Step(s, op), Hear(t, s, op), p)
  {
    RoutingKnows(s, t, op, p);
    RoutingMet(s, t, op, p);
  }

  lemma RoutingKnows(s: Session, t: Told, op: Op, p: nat)
    requires SessionOk(s) && ToldOk(s, t) && Enabled(s, op) && Routing(op) && p < |s.streams| && Knows(s.streams[p], t, p)
    ensures Knows(Step(s, op).streams[p], Hear(t, s, op), p)
  {}

  lemma RoutingMet(s: Session, t: Told, op: Op, p: nat)
    requires SessionOk(s) && ToldOk(s, t) && Enabled(s, op) && Routing(op) && p < |s.streams| && Met(s, t, p)
    ensures Met(Step(s, op), Hear(t, s, op), p)
  {}

  lemma OpenTold(s: Session, t: Told, ticket: nat, p: nat)
    requires SessionOk(s) && ToldOk(s, t) && Enabled(s, Open(ticket)) && p < |s.streams| && AsTold(s, t, p)
    ensures AsTold(Step(s, Open(ticket)), Hear(t, s, Open(ticket)), p)
  {}

  lemma OpenedTold(s: Session, t: Told, ticket: nat)
    requires SessionOk(s) && ToldOk(s, t) && Enabled(s, Open(ticket)) && !s.closed
    ensures AsTold(Step(s, Open(ticket)), Hear(t, s, Open(ticket)), |s.streams|)
  {}

  lemma TableTold(s: Session, t: Told, op: Op, p: nat)
    requires SessionOk(s) && ToldOk(s, t) && Enabled(s, op) && !op.Local? && !Routing(op) && !op.Open?
    requires p < |s.streams| && AsTold(s, t, p)
    ensures AsTold(Step(s, op), Hear(t, s, op), p)
  {
    TableKnows(s, t, op, p);
    TableMet(s, t, op, p);
  }

  lemma TableKnows(s: Session, t: Told, op: Op, p: nat)
    requires Enabled(s, op) && !op.Local? && !Routing(op) && !op.Open? && p < |s.streams| && Knows(s.streams[p], t, p)
    ensures Knows(Step(s, op).streams[p], Hear(t, s, op), p)
  {}

  lemma TableMet(s: Session, t: Told, op: Op, p: nat)
    requires SessionOk(s) && ToldOk(s, t) && Enabled(s, op) && !op.Local? && !Routing(op) && !op.Open?
    requires p < |s.streams| && Met(s, t, p)
    ensures Met(Step(s, op), Hear(t, s, op), p)
  {}

  lemma StepTold(s: Session, t: Told, op: Op)
    requires Inv(s) && AllAlone(s) && AllAsTold(s, t) && Enabled(s, op)
    ensures AllAsTold(Step(s, op), Hear(t, s, op))
  {
    StepToldOk(s, t, op);
    forall p | 0 <= p < |Step(s, op).streams| ensures AsTold(Step(s, op), Hear(t, s, op), p) {
      if op.Open? && p == |s.streams| { OpenedTold(s, t, op.ticket); }
      else if op.Open? { OpenTold(s, t, op.ticket, p); }
      else if op.Local? { assert StreamOk(s, op.pid) && Alone(s, op.pid) && AsTold(s, t, op.pid); LocalTold(s, t, op.pid, op.move, p); }
      else if Routing(op) { RoutingTold(s, t, op, p); }
      else { TableTold(s, t, op, p); }
    }
  }

  lemma {:induction false} RunTold(s: Session, t: Told, ops: seq<Op>)
    requires Inv(s) && AllAlone(s) && AllAsTold(s, t) && Legal(s, ops)
    ensures AllAsTold(Run(s, ops), Heard(t, s, ops))
    decreases |ops|
  {
    if ops != [] {
      StepKeeps(s, ops[0]);
      StepAlone(s, ops[0]);
      StepTold(s, t, ops[0]);
      RunTold(Step(s, ops[0]), Hear(t, s, ops[0]), ops[1..]);
    }
  }

  /**
   In every run: each Open before the close makes the stream of its ticket, and no other does. The
   responses routed to a stream are those whose frames met it in the table. A stream is finished exactly if
   somebody did so, with the verdict of whoever was first: the end frame's error, the failure that aborted
   it, its own watcher's or the close's. A stream met by an end or a failure has that verdict as soon as the
   receive loop let go of it, unless its watcher was there before, which it is only for a cancelled one.
   Recv reports the end of the stream only if the end frame met carried no error, and after all responses.
   */
  lemma EndsAsTold(ops: seq<Op>, p: nat)
    requires Legal(INIT, ops) && p < |Run(INIT, ops).streams|
    ensures var s, t := Run(INIT, ops), Heard(NOTHING, INIT, ops);
            var x := s.streams[p];
            && |s.streams| == |t.made| && x.ticket == t.made[p] && x.offered == SentTo(t, p)
            && (x.done <==> p in t.ended) && (x.done ==> x.endErr == t.ended[p])
            && (p in t.frames && !(s.rx.Finishing? && s.rx.pid == p) ==>
                  x.done && (x.endErr == t.frames[p] || (p in t.quit && p in t.cancelled)))
            && (p in t.frames && t.frames[p].Some? ==> !x.eof)
            && (x.eof ==> p in t.frames && t.frames[p].None? && x.got == SentTo(t, p))
            && (x.failed ==> p in t.cancelled || (p in t.ended && t.ended[p].Some?))
  {
    RunKeeps(INIT, ops);
    RunTold(INIT, NOTHING, ops);
    var s := Run(INIT, ops);
    assert StreamOk(s, p) && AsTold(s, Heard(NOTHING, INIT, ops), p);
  }

  // ---------- What one call of Recv gives ----------

  /** The end of a finished stream reported: an error exactly if its verdict is one. */
  function Reported(x: Stream): Stream {
    x.(consumer := Idle, eof := x.eof || x.endErr.None?, failed := x.failed || x.endErr.Some?)
  }

  /** A call of Recv returns the oldest response if there is one, wherever it looks for it. */
  lemma RecvReturns(x: Stream)
    requires x.consumer in {Idle, Select, CtxPoll, DonePoll} && x.queue != []
    ensures RecvStep(x) == x.(queue := x.queue[1..], got := x.got + [x.queue[0]], consumer := Idle)
  {}

  /** Without one, a call on a finished stream reports the end. */
  lemma RecvReports(x: Stream)
    requires x.consumer.Idle? && x.queue == [] && x.done
    ensures RecvStep(RecvStep(RecvStep(RecvStep(x)))) == Reported(x)
  {}

  /** On one that is not finished it waits, */
  lemma RecvWaits(x: Stream)
    requires x.consumer.Idle? && x.queue == [] && !x.done
    ensures RecvStep(RecvStep(x)) == x.(consumer := Select) && RecvStep(x.(consumer := Select)) == x.(consumer := Select)
  {}

  /** and wakes when it is finished to report the end, */
  lemma RecvWakes(x: Stream)
    requires x.consumer.Select? && x.queue == [] && x.done
    ensures CanMove(x, RecvDone) && RecvStep(RecvStep(Moved(x, RecvDone))) == Reported(x)
  {}

  /** or when the caller cancels, to report the end if it is finished by then, and otherwise an error. */
  lemma RecvCancelled(x: Stream)
    requires x.consumer.Select? && x.queue == [] && x.ctxDone
    ensures CanMove(x, RecvCtx)
    ensures var y := RecvStep(RecvStep(Moved(x, RecvCtx)));
            if x.done then RecvStep(RecvStep(y)) == Reported(x) else y == x.(consumer := Idle, failed := true)
  {}

  // ---------- Nobody stops half way ----------

  /** A watcher of a finished stream ends; one whose caller cancelled finishes the stream, if nobody has, with
      its own cause, takes it out of the table if it is there, and ends. */
  lemma WatcherCourse(s: Session, p: nat, cause: Fault)
    requires SessionOk(s) && p < |s.streams|
    ensures var x := s.streams[p];
            && (x.watcher.Watching? && x.done ==> Step(s, Local(p, WatchDone)).streams[p].watcher.Over?)
            && (x.watcher.Watching? && x.ctxDone ==>
                  && Enabled(s, Local(p, WatchCtx))
                  && (var s1 := Step(s, Local(p, WatchCtx));
                      && Enabled(s1, Local(p, WatchFinish(cause)))
                      && (var s2 := Step(s1, Local(p, WatchFinish(cause)));
                          s2.streams[p].done && s2.streams[p].endErr == (if x.done then x.endErr else Some(cause)) && Enabled(s2, WatchRemove(p)))))
            && (x.watcher.Removing? ==>
                  var r := Step(s, WatchRemove(p));
                  && r.streams[p].watcher.Over? && !InTable(r, p)
                  && forall id :: id in s.table && s.table[id] != p ==> id in r.table && r.table[id] == s.table[id])
  {}

  /** The receive loop is never stuck: delivering, it enqueues when there is room, drops when the stream is
      finished, and may always time out; whatever it owes, it is listening again after at most one finish. */
  lemma LoopReturns(s: Session, op: Op)
    requires SessionOk(s) && (s.rx.Delivering? || s.rx.Finishing?)
    ensures s.rx.Finishing? ==> Enabled(s, DoFinish) && Step(s, DoFinish).rx.Listening? && Step(s, DoFinish).streams[s.rx.pid].done
    ensures s.rx.Delivering? ==>
              && (Enabled(s, Enqueue) <==> |s.streams[s.rx.stream].queue| < QUEUE_SIZE)
              && (Enabled(s, DropDone) <==> s.streams[s.rx.stream].done)
              && Enabled(s, TimeOut("")) && !Enabled(s, DoFinish)
    ensures Enabled(s, op) && op in {Enqueue, DropDone} ==> Step(s, op).rx.Listening?
    ensures Enabled(s, op) && op.TimeOut? ==>
              var r := Step(s, op);
              if s.rx.id in s.table then r.rx == Finishing(s.table[s.rx.id], Some(op.cause)) else r.rx.Listening?
  {}

  /** A stream whose one response the caller has. */
  ghost function Delivered(): Session {
    FirstOpened().(streams := [NewStream(1).(offered := [7], queued := [7], got := [7])])
  }

  lemma DeliverRun() returns (ops: seq<Op>)
    ensures Legal(INIT, ops) && Run(INIT, ops) == Delivered()
  {
    WrapStart();
    var s1, x1 := FirstOpened(), NewStream(1);
    var x2 := x1.(offered := [7]);
    var x3 := x2.(queue := [7], queued := [7]);
    var s2 := Step(s1, FrameResponse(1, 7));
    assert s2 == s1.(streams := [x2], rx := Delivering(0, 1, 7)) by { assert [x1][0 := x2] == [x2] && [] + [7] == [7]; }
    var s3 := Step(s2, Enqueue);
    assert s3 == s1.(streams := [x3]) by { assert [x2][0 := x3] == [x3] && [] + [7] == [7]; }
    var s4 := Step(s3, Local(0, Recv));
    assert s4 == Delivered() by { assert [x3][0 := Take(x3)] == [Take(x3)] && [] + [7] == [7] && [7][1..] == []; }
    assert Legal(s4, []) && Run(s4, []) == s4;
    Then(s3, Local(0, Recv), []);
    Then(s2, Enqueue, [Local(0, Recv)] + []);
    Then(s1, FrameResponse(1, 7), [Enqueue] + ([Local(0, Recv)] + []));
    ops := [FrameResponse(1, 7)] + ([Enqueue] + ([Local(0, Recv)] + []));
    RunConcat(INIT, [Mint] + ([Open(1)] + []), ops);
    ops := [Mint] + ([Open(1)] + []) + ops;
  }

  /** Four calls of Recv on a lone finished stream report its end. */
  lemma ReportRun(s: Session, x: Stream)
    requires s.streams == [x] && x.consumer.Idle? && x.queue == [] && x.done && x.endErr.None?
    ensures var r := Local(0, Recv); var ops := [r] + ([r] + ([r] + ([r] + [])));
            Legal(s, ops) && Run(s, ops).streams == [Reported(x)]
  {
    var r := Local(0, Recv);
    RecvReports(x);
    var s7 := Step(s, r);
    var s8 := Step(s7, r);
    var s9 := Step(s8, r);
    var s10 := Step(s9, r);
    assert Legal(s10, []) && Run(s10, []) == s10;
    Then(s9, r, []);
    Then(s8, r, [r] + []);
    Then(s7, r, [r] + ([r] + []));
    Then(s, r, [r] + ([r] + ([r] + [])));
  }

  lemma EndRun() returns (ops: seq<Op>)
    ensures Legal(Delivered(), ops) && var s := Run(Delivered(), ops); |s.streams| == 1 && s.streams[0].eof && s.streams[0].got == [7]
  {
    var s4, r := Delivered(), Local(0, Recv);
    var s5 := Step(s4, FrameEnd(1, None));
    var s6 := Step(s5, DoFinish);
    var x6 := s4.streams[0].(done := true);
    assert s6.streams == [x6] by { assert s4.streams[0 := x6] == [x6]; }
    ReportRun(s6, x6);
    ops := [r] + ([r] + ([r] + ([r] + [])));
    Then(s5, DoFinish, ops);
    Then(s4, FrameEnd(1, None), [DoFinish] + ops);
    ops := [FrameEnd(1, None)] + ([DoFinish] + ops);
  }

  /** A run in which a response and a clean end reach the caller. */
  lemma CleanEndHappens()
    ensures exists ops :: Legal(INIT, ops) && var s := Run(INIT, ops); |s.streams| == 1 && s.streams[0].eof && s.streams[0].got == [7]
  {
    var a := DeliverRun();
    var b := EndRun();
    RunConcat(INIT, a, b);
  }

  // ---------- The exception is real: after 2^32 streams an id comes round again ----------

  lemma {:induction false} RunConcat(s: Session, a: seq<Op>, b: seq<Op>)
    requires Legal(s, a) && Legal(Run(s, a), b)
    ensures Legal(s, a + b) && Run(s, a + b) == Run(Run(s, a), b)
    decreases |a|
  {
    if a == [] {
      assert a + b == b;
    } else {
      RunConcat(Step(s, a[0]), a[1..], b);
      assert (a + b)[1..] == a[1..] + b;
    }
  }

  /** The `n` tickets after `from`. */
  ghost function Tickets(from: nat, n: nat): (r: set<nat>)
    ensures n > 0 ==> from + n in r
    decreases n
  {
    if n == 0 then {} else {from + 1} + Tickets(from + 1, n - 1)
  }

  ghost function AfterMints(s: Session, n: nat): Session {
    s.(counter := s.counter + n, minted := s.minted + Tickets(s.counter, n))
  }

  lemma {:induction false} Mints(s: Session, n: nat)
    ensures Legal(s, seq(n, i => Mint)) && Run(s, seq(n, i => Mint)) == AfterMints(s, n)
    decreases n
  {
    var ops := seq(n, i => Mint);
    if n > 0 {
      var s1 := Step(s, Mint);
      Mints(s1, n - 1);
      assert ops[1..] == seq(n - 1, i => Mint);
      assert AfterMints(s1, n - 1) == AfterMints(s, n);
    }
  }

  lemma Then(s: Session, op: Op, rest: seq<Op>)
    requires Enabled(s, op) && Legal(Step(s, op), rest)
    ensures Legal(s, [op] + rest) && Run(s, [op] + rest) == Run(Step(s, op), rest)
  {
    assert ([op] + rest)[1..] == rest;
  }

  ghost function FirstOpened(): Session {
    Session(map[1 := 0], [NewStream(1)], false, 1, {}, Listening, {})
  }

  lemma WrapStart()
    ensures Legal(INIT, [Mint] + ([Open(1)] + [])) && Run(INIT, [Mint] + ([Open(1)] + [])) == FirstOpened()
  {
    var s1 := Step(INIT, Mint);
    assert Step(s1, Open(1)) == FirstOpened();
    Then(s1, Open(1), []);
    Then(INIT, Mint, [Open(1)] + []);
  }

  /** From here the reused id overwrites stream 0, so the close finishes stream 1 only. */
  lemma WrapEnd(s: Session, t: nat)
    requires s.table == map[1 := 0] && s.streams == [NewStream(1)] && !s.closed && s.rx == Listening
    requires t in s.minted && IdOf(t) == 1
    ensures Loses(s)
  {
    var s4 := Step(s, Open(t));
    assert s4.table == map[1 := 1] && s4.streams == [NewStream(1), NewStream(t)];
    assert s4.table[1] in s4.table.Values;
    var s5 := Step(s4, Shut([1]));
    var s6 := Step(s5, ShutOne("closed"));
    var s7 := Step(s6, ShutEnd);
    assert Legal(s7, []) && Run(s7, []) == s7;
    Then(s6, ShutEnd, []);
    Then(s5, ShutOne("closed"), [ShutEnd] + []);
    Then(s4, Shut([1]), [ShutOne("closed")] + ([ShutEnd] + []));
    Then(s, Open(t), [Shut([1])] + ([ShutOne("closed")] + ([ShutEnd] + [])));
  }

  /** Stream 0 is opened, 2^32 ids later its id is issued again, and closing the session misses it. */
  lemma WrapLosesStream()
    ensures Loses(INIT)
  {
    WrapStart();
    Mints(FirstOpened(), ID_SPACE);
    WrapEnd(AfterMints(FirstOpened(), ID_SPACE), 1 + ID_SPACE);
    LosesLater(FirstOpened(), seq(ID_SPACE, i => Mint));
    LosesLater(INIT, [Mint] + ([Open(1)] + []));
  }

  /** Some run from here ends with the session closed and its first stream never finished. */
  ghost predicate Loses(s: Session) {
    exists ops :: Legal(s, ops) && var e := Run(s, ops); e.rx.Stopped? && |e.streams| == 2 && !e.streams[0].done
  }

  lemma LosesLater(s: Session, a: seq<Op>)
    requires Legal(s, a) && Loses(Run(s, a))
    ensures Loses(s)
  {
    var t := Run(s, a);
    var b :| Legal(t, b) && var e := Run(t, b); e.rx.Stopped? && |e.streams| == 2 && !e.streams[0].done;
    RunConcat(s, a, b);
  }
}
