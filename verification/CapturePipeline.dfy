/**
 Capture loop and decode worker (cmd/gt-pipeline/capture_task.go:379-508, 611-691).

 The capture loop owns the overflow queue and swaps the decoder; the worker owns the window of
 requests in flight; two bounded channels join them. Each channel operation is a step and the two
 goroutines interleave freely.
 */
module CapturePipeline {
  import opened Util
  import opened PendingQueues

  const DECODE_QUEUE: nat := 1024
  const DECODED_QUEUE: nat := 64
  const WINDOW: nat := 16

  /** Where the capture loop is: between events, in drainPending (perhaps with a packet to feed), after
      it inside feedDecode, in the back-pressure loop of a pcap replay, or in the last, time-limited
      drain before decodeCh is closed. */
  datatype Loop =
    | Between
    | Draining(feed: Option<Packet>)
    | Deciding(pkt: Packet)
    | Replaying(next: Packet)
    | Finishing
    | Stopped

  datatype Worker = Waiting | Holding(pkt: Packet) | Delivering(batch: Packet)

  /** A packet that went through a stage, and whether the stage passed it on. */
  datatype Tag = Tag(pkt: Packet, passed: bool)

  /**
   `captured` are the TCP packets read so far, `lost` those the overflow queue dropped and `given` those
   whose replay was given up because the task was cancelled. `sent` is everything ever put into
   decodeCh and `ch` its present contents; `handled` are the packets the worker received, passed if
   submitted; `settled` the futures it waited for, passed if events came.
   A batch of events is named by the packet it was decoded from.
   */
  datatype State = State(
    loop: Loop, attached: bool, max: nat, items: seq<Packet>, dropped: nat,
    sent: seq<Packet>, ch: seq<Packet>, chClosed: bool,
    worker: Worker, window: seq<Packet>, decoded: seq<Packet>, processed: seq<Packet>,
    captured: seq<Packet>, lost: set<Packet>, given: set<Packet>, handled: seq<Tag>, settled: seq<Tag>)

  function Init(max: nat): State {
    State(Between, false, max, [], 0, [], [], false, Waiting, [], [], [], [], {}, {}, [], [])
  }

  datatype Op =
    | Attach | Detach                       // resolveDecoder
    | Tick                                  // drainPending outside feedDecode
    | Capture(size: nat, pcap: bool)        // a TCP packet arrives
    | LoopStep                              // the next channel operation or branch of the loop
    | Consume                               // the loop takes a batch from decodedCh
    | GiveUp                                // ctx.Done while a replayed packet waits for room
    | Finish                                // drainPendingBlocking
    | StopLoop                              // close(decodeCh)
    | Take                                  // worker: receive from decodeCh
    | Submit(ok: bool)                      // worker: load the decoder and submit, or skip
    | Wait(events: bool)                    // worker: wait for the oldest future
    | Deliver                               // worker: decodedCh <- events

  function Send(s: State, p: Packet): State {
    s.(sent := s.sent + [p], ch := s.ch + [p])
  }

  function Pop(s: State): State
    requires s.items != []
  {
    s.(items := s.items[1..])
  }

  /** pendingQueue.push, with the packets it drops remembered. */
  function Push(s: State, p: Packet): State {
    var full := s.items + [p];
    var k := Excess(full, s.max);
    s.(items := Fit(full, s.max), dropped := s.dropped + k, lost := s.lost + Elements(full[..k]))
  }

  function Full(s: State): bool { |s.ch| >= DECODE_QUEUE }

  /** The loop's next move when it is inside drainPending, feedDecode or the replay loop. */
  function Advance(s: State): State {
    match s.loop
    case Draining(feed) =>
      if s.items != [] && s.attached && !Full(s) then Pop(Send(s, s.items[0]))
      else s.(loop := if feed.Some? then Deciding(feed.value) else Between)
    case Deciding(p) =>
      (if !s.attached || s.items != [] || Full(s) then Push(s, p) else Send(s, p)).(loop := Between)
    case Replaying(p) =>
      if Full(s) then s
      else if s.items != [] then Pop(Send(s, s.items[0]))
      else Send(s, p).(loop := Between)
    case Finishing => if s.items != [] && s.attached && !Full(s) then Pop(Send(s, s.items[0])) else s
    case _ => s
  }

  ghost predicate Enabled(s: State, op: Op) {
    match op
    case Attach | Detach | Tick | Capture(_, _) | Finish => s.loop.Between?
    case GiveUp => s.loop.Replaying?
    case StopLoop => s.loop.Finishing?
    case LoopStep => true
    case Consume => s.decoded != [] && !s.loop.Draining? && !s.loop.Deciding?
    case Take => s.worker.Waiting? && |s.window| < WINDOW && s.ch != []
    case Submit(_) => s.worker.Holding?
    case Wait(_) => s.worker.Waiting? && s.window != [] && (|s.window| >= WINDOW || (s.chClosed && s.ch == []))
    case Deliver => s.worker.Delivering? && |s.decoded| < DECODED_QUEUE
  }

  ghost function Step(s: State, op: Op): State
    requires Enabled(s, op)
  {
    match op
    case Attach => s.(attached := true, loop := Draining(None))
    case Detach => s.(attached := false)
    case Tick => s.(loop := Draining(None))
    case Capture(size, pcap) =>
      var p := Packet(|s.captured|, size);
      s.(captured := s.captured + [p], loop := if pcap then Replaying(p) else Draining(Some(p)))
    case LoopStep => Advance(s)
    case Consume => s.(processed := s.processed + [s.decoded[0]], decoded := s.decoded[1..])
    case GiveUp => s.(given := s.given + {s.loop.next}, loop := Between)
    case Finish => s.(loop := Finishing)
    case StopLoop => s.(chClosed := true, loop := Stopped)
    case Take => s.(ch := s.ch[1..], worker := Holding(s.ch[0]))
    case Submit(ok) =>
      var passed := s.attached && ok;
      s.(handled := s.handled + [Tag(s.worker.pkt, passed)],
         window := if passed then s.window + [s.worker.pkt] else s.window,
         worker := Waiting)
    case Wait(events) =>
      s.(settled := s.settled + [Tag(s.window[0], events)], window := s.window[1..],
         worker := if events then Delivering(s.window[0]) else Waiting)
    case Deliver => s.(decoded := s.decoded + [s.worker.batch], worker := Waiting)
  }

  ghost predicate Legal(s: State, ops: seq<Op>)
    decreases |ops|
  {
    ops == [] || (Enabled(s, ops[0]) && Legal(Step(s, ops[0]), ops[1..]))
  }

  ghost function Run(s: State, ops: seq<Op>): State
    requires Legal(s, ops)
    decreases |ops|
  {
    if ops == [] then s else Run(Step(s, ops[0]), ops[1..])
  }

  // ---------- The invariant ----------

  ghost function Pkts(t: seq<Tag>): (r: seq<Packet>)
    ensures |r| == |t|
  {
    if t == [] then [] else Pkts(t[..|t| - 1]) + [t[|t| - 1].pkt]
  }

  ghost function Passed(t: seq<Tag>): (r: seq<Packet>)
    ensures |r| <= |t|
  {
    if t == [] then []
    else Passed(t[..|t| - 1]) + (if t[|t| - 1].passed then [t[|t| - 1].pkt] else [])
  }

  /** The packet in the capture loop's hand. */
  function InLoop(l: Loop): seq<Packet> {
    match l
    case Draining(Some(p)) => [p]
    case Deciding(p) => [p]
    case Replaying(p) => [p]
    case _ => []
  }

  function Held(w: Worker): seq<Packet> { if w.Holding? then [w.pkt] else [] }

  function Outgoing(w: Worker): seq<Packet> { if w.Delivering? then [w.batch] else [] }

  function Elements(s: seq<Packet>): set<Packet> { set p | p in s }

  ghost predicate Numbered(s: seq<Packet>) {
    forall i :: 0 <= i < |s| ==> s[i].no == i
  }

  /** decodeCh's history, then the overflow queue, then the packet in hand. */
  function Line(s: State): seq<Packet> { s.sent + s.items + InLoop(s.loop) }

  /** The line is the capture in order, minus the packets gone. */
  ghost predicate Flow(captured: seq<Packet>, gone: set<Packet>, line: seq<Packet>) {
    Numbered(captured) && line == Without(captured, gone)
  }

  ghost predicate Tally(captured: seq<Packet>, lost: set<Packet>, given: set<Packet>, dropped: nat) {
    && (forall x :: x in lost ==> x in captured) && (forall x :: x in given ==> x in captured)
    && lost !! given && |lost| == dropped
  }

  ghost predicate Bounded(items: seq<Packet>, max: nat) { |items| <= 1 || Bytes(items) <= max }

  ghost predicate Feed(s: State) {
    && Flow(s.captured, s.lost + s.given, Line(s))
    && Tally(s.captured, s.lost, s.given, s.dropped)
    && Bounded(s.items, s.max)
  }

  ghost predicate Decode(s: State) {
    && s.sent == Pkts(s.handled) + Held(s.worker) + s.ch
    && |s.ch| <= DECODE_QUEUE
    && Passed(s.handled) == Pkts(s.settled) + s.window
    && |s.window| <= WINDOW && (!s.worker.Waiting? ==> |s.window| < WINDOW)
    && s.processed + s.decoded + Outgoing(s.worker) == Passed(s.settled)
    && |s.decoded| <= DECODED_QUEUE
  }

  // ---------- Preservation ----------

  lemma TagSnoc(t: seq<Tag>, x: Tag)
    ensures Pkts(t + [x]) == Pkts(t) + [x.pkt]
    ensures Passed(t + [x]) == Passed(t) + (if x.passed then [x.pkt] else [])
  {
    assert (t + [x])[..|t|] == t;
  }

  lemma NumberedDistinct(s: seq<Packet>)
    requires Numbered(s)
    ensures Distinct(s)
  {}

  lemma MiddleApart(a: seq<Packet>, b: seq<Packet>, c: seq<Packet>)
    requires Distinct(a + b + c)
    ensures Distinct(b) && (forall x :: x in a || x in c ==> x !in b)
  {
    var s := a + b + c;
    assert forall i :: 0 <= i < |a| ==> s[i] == a[i];
    assert forall i :: 0 <= i < |b| ==> s[|a| + i] == b[i];
    assert forall i :: 0 <= i < |c| ==> s[|a| + |b| + i] == c[i];
  }

  lemma CutMiddle(a: seq<Packet>, b: seq<Packet>, c: seq<Packet>)
    requires Distinct(a + b + c)
    ensures Without(a + b + c, Elements(b)) == a + c
  {
    var out := Elements(b);
    MiddleApart(a, b, c);
    assert Without(a + b, out) == a by {
      WithoutConcat(a, b, out);
      WithoutAbsent(a, out);
      WithoutAll(b, out);
    }
    assert Without(c, out) == c by { WithoutAbsent(c, out); }
    WithoutConcat(a + b, c, out);
  }

  /** Dropping a block out of the middle of the surviving packets. */
  lemma DropMiddle(captured: seq<Packet>, gone: set<Packet>, a: seq<Packet>, b: seq<Packet>, c: seq<Packet>)
    requires Distinct(captured) && Without(captured, gone) == a + b + c
    ensures Without(captured, gone + Elements(b)) == a + c
    ensures gone !! Elements(b) && Elements(b) <= Elements(captured) && |Elements(b)| == |b|
  {
    WithoutDistinct(captured, gone);
    CutMiddle(a, b, c);
    WithoutTwice(captured, gone, Elements(b));
    assert Distinct(b) by { MiddleApart(a, b, c); }
    DistinctCount(b);
    forall x | x in b ensures x in captured && x !in gone { assert x in a + b + c; }
  }

  lemma {:induction false} WithoutConcat(a: seq<Packet>, b: seq<Packet>, out: set<Packet>)
    ensures Without(a + b, out) == Without(a, out) + Without(b, out)
  {
    if a == [] {
      assert a + b == b;
    } else {
      assert (a + b)[1..] == a[1..] + b;
      WithoutConcat(a[1..], b, out);
    }
  }

  lemma {:induction false} WithoutAll(s: seq<Packet>, out: set<Packet>)
    requires forall x :: x in s ==> x in out
    ensures Without(s, out) == []
  {
    if s != [] { WithoutAll(s[1..], out); }
  }

  lemma FlowGrows(captured: seq<Packet>, gone: set<Packet>, line: seq<Packet>, size: nat)
    requires Flow(captured, gone, line) && (forall x :: x in gone ==> x in captured)
    ensures var p := Packet(|captured|, size); Flow(captured + [p], gone, line + [p])
  {
    var p := Packet(|captured|, size);
    assert p !in captured;
    WithoutSnoc(captured, p, gone);
  }

  lemma FlowCut(captured: seq<Packet>, gone: set<Packet>, a: seq<Packet>, b: seq<Packet>, c: seq<Packet>)
    requires Flow(captured, gone, a + b + c)
    ensures Flow(captured, gone + Elements(b), a + c)
    ensures gone !! Elements(b) && |Elements(b)| == |b| && (forall x :: x in b ==> x in captured)
  {
    NumberedDistinct(captured);
    DropMiddle(captured, gone, a, b, c);
    forall x | x in b ensures x in captured { assert x in Elements(b); }
  }

  lemma CaptureFeeds(s: State, size: nat, pcap: bool)
    requires Feed(s) && s.loop.Between?
    ensures Feed(Step(s, Capture(size, pcap)))
  {
    var p := Packet(|s.captured|, size);
    var t := Step(s, Capture(size, pcap));
    assert Line(s) == s.sent + s.items && InLoop(t.loop) == [p];
    FlowGrows(s.captured, s.lost + s.given, Line(s), size);
    TallyGrows(s.captured, s.lost, s.given, s.dropped, p);
    assert Line(t) == Line(s) + [p];
  }

  lemma TallyGrows(captured: seq<Packet>, lost: set<Packet>, given: set<Packet>, dropped: nat, p: Packet)
    requires Tally(captured, lost, given, dropped)
    ensures Tally(captured + [p], lost, given, dropped)
  {}

  ghost predicate Pushes(s: State) {
    s.loop.Deciding? && (!s.attached || s.items != [] || Full(s))
  }

  lemma PushShape(s: State)
    requires Pushes(s)
    ensures var full := s.items + [s.loop.pkt];
            var k := Excess(full, s.max);
            && Line(s) == s.sent + full[..k] + full[k..] && Line(Advance(s)) == s.sent + full[k..]
  {
    var full := s.items + [s.loop.pkt];
    var k := Excess(full, s.max);
    assert full == full[..k] + full[k..];
  }

  lemma PushFeeds(s: State)
    requires Feed(s) && Pushes(s)
    ensures Feed(Advance(s))
  {
    var full := s.items + [s.loop.pkt];
    var b, c := full[..Excess(full, s.max)], Fit(full, s.max);
    FitIsLongest(full, s.max);
    PushShape(s);
    Lose(s.captured, s.lost, s.given, s.dropped, s.sent, b, c);
  }

  lemma Lose(captured: seq<Packet>, lost: set<Packet>, given: set<Packet>, dropped: nat,
             a: seq<Packet>, b: seq<Packet>, c: seq<Packet>)
    requires Flow(captured, lost + given, a + b + c) && Tally(captured, lost, given, dropped)
    ensures Flow(captured, lost + Elements(b) + given, a + c)
    ensures Tally(captured, lost + Elements(b), given, dropped + |b|)
  {
    FlowCut(captured, lost + given, a, b, c);
    TallyLost(captured, lost, given, dropped, b);
    assert lost + Elements(b) + given == lost + given + Elements(b);
  }

  lemma TallyLost(captured: seq<Packet>, lost: set<Packet>, given: set<Packet>, dropped: nat, b: seq<Packet>)
    requires Tally(captured, lost, given, dropped) && lost + given !! Elements(b) && |Elements(b)| == |b|
    requires forall x :: x in b ==> x in captured
    ensures Tally(captured, lost + Elements(b), given, dropped + |b|)
  {
    assert lost !! Elements(b);
  }

  /** Every other move of the loop leaves the line and the tally as they were. */
  lemma LineStays(s: State)
    requires !Pushes(s)
    ensures var t := Advance(s);
            && Line(t) == Line(s) && t.captured == s.captured && t.lost == s.lost && t.given == s.given
            && t.dropped == s.dropped && t.max == s.max && (t.items == s.items || (s.items != [] && t.items == s.items[1..]))
  {
    if s.items != [] { assert s.sent + [s.items[0]] + s.items[1..] == s.sent + s.items; }
  }

  lemma GiveUpFeeds(s: State)
    requires Feed(s) && s.loop.Replaying?
    ensures Feed(Step(s, GiveUp))
  {
    var p := s.loop.next;
    var a := s.sent + s.items;
    assert Line(s) == a + [p] + [];
    FlowCut(s.captured, s.lost + s.given, a, [p], []);
    assert Elements([p]) == {p};
    assert s.lost + s.given + {p} == s.lost + (s.given + {p});
    assert p in [p];
    assert Line(Step(s, GiveUp)) == a + [];
  }

  lemma StepFeed(s: State, op: Op)
    requires Feed(s) && Enabled(s, op)
    ensures Feed(Step(s, op))
  {
    match op
    case Capture(size, pcap) => CaptureFeeds(s, size, pcap);
    case LoopStep => if Pushes(s) { PushFeeds(s); } else { LineStays(s); }
    case GiveUp => GiveUpFeeds(s);
    case _ => assert Line(Step(s, op)) == Line(s);
  }

  lemma AdvanceDecodes(s: State)
    requires Decode(s)
    ensures Decode(Advance(s))
  {
    var t := Advance(s);
    AdvanceSends(s);
    if t.sent != s.sent {
      var x := t.sent[|s.sent|];
      assert s.sent + [x] == Pkts(s.handled) + Held(s.worker) + (s.ch + [x]);
    }
  }

  /** A move of the loop sends at most one packet and leaves the worker's side alone. */
  lemma AdvanceSends(s: State)
    ensures var t := Advance(s);
            && t == s.(loop := t.loop, items := t.items, dropped := t.dropped, lost := t.lost, sent := t.sent, ch := t.ch)
            && ((t.sent == s.sent && t.ch == s.ch)
                || (|t.sent| == |s.sent| + 1 && !Full(s) && t.sent == s.sent + [t.sent[|s.sent|]]
                    && t.ch == s.ch + [t.sent[|s.sent|]]))
  {}

  lemma SubmitDecodes(s: State, ok: bool)
    requires Decode(s) && s.worker.Holding?
    ensures Decode(Step(s, Submit(ok)))
  {
    TagSnoc(s.handled, Tag(s.worker.pkt, s.attached && ok));
    assert Pkts(s.settled) + (s.window + [s.worker.pkt]) == Pkts(s.settled) + s.window + [s.worker.pkt];
  }

  lemma WaitDecodes(s: State, events: bool)
    requires Decode(s) && Enabled(s, Wait(events))
    ensures Decode(Step(s, Wait(events)))
  {
    TagSnoc(s.settled, Tag(s.window[0], events));
    assert s.window == [s.window[0]] + s.window[1..];
    assert Pkts(s.settled) + [s.window[0]] + s.window[1..] == Pkts(s.settled) + s.window;
  }

  lemma StepDecode(s: State, op: Op)
    requires Decode(s) && Enabled(s, op)
    ensures Decode(Step(s, op))
  {
    match op
    case LoopStep => AdvanceDecodes(s);
    case Submit(ok) => SubmitDecodes(s, ok);
    case Wait(events) => WaitDecodes(s, events);
    case Take => assert s.ch == [s.ch[0]] + s.ch[1..];
    case Consume =>
      assert s.processed + [s.decoded[0]] + s.decoded[1..] == s.processed + s.decoded;
    case _ =>
  }

  lemma {:induction false} RunKeeps(s: State, ops: seq<Op>)
    requires Feed(s) && Decode(s) && Legal(s, ops)
    ensures Feed(Run(s, ops)) && Decode(Run(s, ops))
    decreases |ops|
  {
    if ops != [] {
      StepFeed(s, ops[0]);
      StepDecode(s, ops[0]);
      RunKeeps(Step(s, ops[0]), ops[1..]);
    }
  }

  // ---------- Order and conservation over every run ----------

  /** Packets in capture order, none twice. */
  ghost predicate Rising(s: seq<Packet>) {
    forall i, j :: 0 <= i < j < |s| ==> s[i].no < s[j].no
  }

  lemma {:induction false} WithoutRising(s: seq<Packet>, out: set<Packet>)
    requires Rising(s)
    ensures Rising(Without(s, out))
  {
    if s != [] {
      WithoutRising(s[1..], out);
      var t := Without(s[1..], out);
      forall i | 0 <= i < |t| ensures s[0].no < t[i].no { assert t[i] in s[1..]; }
    }
  }

  lemma {:induction false} PassedRising(t: seq<Tag>)
    requires Rising(Pkts(t))
    ensures Rising(Passed(t))
    ensures forall x :: x in Passed(t) ==> x in Pkts(t)
  {
    if t != [] {
      var u, z := t[..|t| - 1], t[|t| - 1];
      assert Pkts(u) == Pkts(t)[..|u|] && Pkts(t)[|u|] == z.pkt;
      PassedRising(u);
      forall x | x in Passed(u) ensures x.no < z.pkt.no {
        var i :| 0 <= i < |u| && Pkts(u)[i] == x;
        assert Pkts(t)[i] == x;
      }
    }
  }

  /** What has been put into decodeCh, then the overflow queue, then the packet in hand, are exactly the
      captured packets in order, minus the counted drops and the replays given up on cancellation. */
  lemma CaptureOrderKept(max: nat, ops: seq<Op>)
    requires Legal(Init(max), ops)
    ensures var s := Run(Init(max), ops);
            && s.sent + s.items + InLoop(s.loop) == Without(s.captured, s.lost + s.given)
            && |s.lost| == s.dropped && s.lost !! s.given
            && s.lost + s.given <= Elements(s.captured)
            && (|s.items| <= 1 || Bytes(s.items) <= max)
            && |s.window| <= WINDOW && |s.ch| <= DECODE_QUEUE && |s.decoded| <= DECODED_QUEUE
  {
    RunKeeps(Init(max), ops);
    MaxStays(Init(max), ops);
  }

  lemma {:induction false} MaxStays(s: State, ops: seq<Op>)
    requires Legal(s, ops)
    ensures Run(s, ops).max == s.max
    decreases |ops|
  {
    if ops != [] { MaxStays(Step(s, ops[0]), ops[1..]); }
  }

  /** Batches reach the post-processing in submission order, which is capture order: whatever the
      decoder swaps, each stage has passed on a prefix of what the stage before it passed on. */
  lemma BatchesInOrder(max: nat, ops: seq<Op>)
    requires Legal(Init(max), ops)
    ensures var s := Run(Init(max), ops);
            && Pkts(s.handled) <= s.sent
            && Pkts(s.settled) <= Passed(s.handled)
            && s.processed <= Passed(s.settled)
            && Rising(s.processed)
  {
    RunKeeps(Init(max), ops);
    var s := Run(Init(max), ops);
    WithoutRising(s.captured, s.lost + s.given);
    var whole := s.sent + s.items + InLoop(s.loop);
    assert s.sent <= whole && Pkts(s.handled) <= s.sent;
    PrefixRising(Pkts(s.handled), whole);
    PassedRising(s.handled);
    PrefixRising(Pkts(s.settled), Passed(s.handled));
    PassedRising(s.settled);
    assert s.processed <= s.processed + s.decoded + Outgoing(s.worker);
    PrefixRising(s.processed, Passed(s.settled));
  }

  lemma PrefixRising(a: seq<Packet>, b: seq<Packet>)
    requires a <= b && Rising(b)
    ensures Rising(a)
  {}

  /** Taking packets out splits a list without repetitions in two. */
  lemma {:induction false} WithoutSplits(s: seq<Packet>, out: set<Packet>)
    requires Distinct(s) && out <= Elements(s)
    ensures multiset(s) == multiset(Without(s, out)) + multiset(out)
  {
    if s != [] {
      var t := s[1..];
      assert s == [s[0]] + t && s[0] !in t;
      WithoutSplits(t, out - {s[0]});
      SameWithout(t, out, s[0]);
      assert multiset(out) == multiset(out - {s[0]}) + (if s[0] in out then multiset{s[0]} else multiset{});
    }
  }

  lemma {:induction false} SameWithout(s: seq<Packet>, out: set<Packet>, x: Packet)
    requires x !in s
    ensures Without(s, out) == Without(s, out - {x})
  {
    if s != [] { SameWithout(s[1..], out, x); }
  }

  /** The packets that went through a stage and were not passed on. */
  ghost function HeldBack(t: seq<Tag>): seq<Packet> {
    if t == [] then []
    else HeldBack(t[..|t| - 1]) + (if t[|t| - 1].passed then [] else [t[|t| - 1].pkt])
  }

  lemma {:induction false} StageSplits(t: seq<Tag>)
    ensures multiset(Pkts(t)) == multiset(Passed(t)) + multiset(HeldBack(t))
  {
    if t != [] { StageSplits(t[..|t| - 1]); }
  }

  lemma DistinctOnce(s: seq<Packet>, x: Packet)
    requires Distinct(s) && x in s
    ensures multiset(s)[x] == 1
  {
    var i :| 0 <= i < |s| && s[i] == x;
    assert s == s[..i] + [x] + s[i + 1..];
    assert x !in s[..i] && x !in s[i + 1..];
  }

  /** Waiting before the worker, and from the worker on. */
  ghost function Queued(s: State): multiset<Packet> {
    multiset(s.items) + multiset(InLoop(s.loop)) + multiset(s.ch) + multiset(Held(s.worker))
  }

  ghost function Decoding(s: State): multiset<Packet> {
    multiset(s.window) + multiset(Outgoing(s.worker)) + multiset(s.decoded)
  }

  /** Every captured packet is in exactly one place, and there once: dropped, given up, waiting somewhere on
      the way, skipped by the worker, settled without events, or processed. */
  lemma EveryPacketAccounted(max: nat, ops: seq<Op>)
    requires Legal(Init(max), ops)
    ensures var s := Run(Init(max), ops);
            && (forall p :: p in s.captured ==> multiset(s.captured)[p] == 1)
            && multiset(s.captured) == multiset(s.lost) + multiset(s.given) + Queued(s) + multiset(HeldBack(s.handled))
                                       + Decoding(s) + multiset(HeldBack(s.settled)) + multiset(s.processed)
            && |s.lost| == s.dropped
  {
    RunKeeps(Init(max), ops);
    var s := Run(Init(max), ops);
    NumberedDistinct(s.captured);
    forall p | p in s.captured ensures multiset(s.captured)[p] == 1 { DistinctOnce(s.captured, p); }
    LineSplits(s);
    StagesSplit(s);
    PutTogether(multiset(s.captured), multiset(s.lost) + multiset(s.given), multiset(s.sent), multiset(s.items), multiset(InLoop(s.loop)),
                multiset(s.ch), multiset(Held(s.worker)),
                multiset(HeldBack(s.handled)), Decoding(s), multiset(HeldBack(s.settled)), multiset(s.processed));
  }

  lemma PutTogether(all: multiset<Packet>, gone: multiset<Packet>, sent: multiset<Packet>, items: multiset<Packet>, hand: multiset<Packet>,
                    ch: multiset<Packet>, held: multiset<Packet>,
                    a: multiset<Packet>, b: multiset<Packet>, c: multiset<Packet>, d: multiset<Packet>)
    requires all == gone + (sent + items + hand) && sent == ch + held + a + b + c + d
    ensures all == gone + (items + hand + ch + held) + a + b + c + d
  {}

  lemma LineSplits(s: State)
    requires Feed(s)
    ensures multiset(s.captured) == multiset(s.lost) + multiset(s.given)
                                    + (multiset(s.sent) + multiset(s.items) + multiset(InLoop(s.loop)))
  {
    NumberedDistinct(s.captured);
    WithoutSplits(s.captured, s.lost + s.given);
    assert multiset(s.lost + s.given) == multiset(s.lost) + multiset(s.given);
    LineParts(s.sent, s.items, InLoop(s.loop));
  }

  lemma LineParts(a: seq<Packet>, b: seq<Packet>, c: seq<Packet>)
    ensures multiset(a + b + c) == multiset(a) + multiset(b) + multiset(c)
  {}

  lemma StagesSplit(s: State)
    requires Decode(s)
    ensures multiset(s.sent) == multiset(s.ch) + multiset(Held(s.worker)) + multiset(HeldBack(s.handled))
                                + Decoding(s) + multiset(HeldBack(s.settled)) + multiset(s.processed)
  {
    StageSplits(s.handled);
    StageSplits(s.settled);
    assert multiset(s.sent) == multiset(Pkts(s.handled)) + multiset(Held(s.worker)) + multiset(s.ch);
    assert multiset(Passed(s.handled)) == multiset(Pkts(s.settled)) + multiset(s.window);
    assert multiset(Passed(s.settled)) == multiset(s.processed) + multiset(s.decoded) + multiset(Outgoing(s.worker));
  }

  /** A replay alone never uses the overflow queue, so nothing is ever dropped. */
  lemma {:induction false} ReplayDropsNothing(s: State, ops: seq<Op>)
    requires Legal(s, ops) && (forall i :: 0 <= i < |ops| && ops[i].Capture? ==> ops[i].pcap)
    requires s.items == [] && (InLoop(s.loop) == [] || s.loop.Replaying?)
    ensures Run(s, ops).dropped == s.dropped && Run(s, ops).items == []
    decreases |ops|
  {
    if ops != [] {
      assert ops[0].Capture? ==> ops[0].pcap;
      ReplayDropsNothing(Step(s, ops[0]), ops[1..]);
    }
  }

  // ---------- What the operations say ----------

  /** A decoder is attached after these operations: the last Attach or Detach was an Attach. */
  predicate Attached(ops: seq<Op>) {
    ops != [] && (ops[|ops| - 1].Attach? || (!ops[|ops| - 1].Detach? && Attached(ops[..|ops| - 1])))
  }

  /** For every submit in turn whether it was made with a decoder attached and succeeded. */
  function Submits(ops: seq<Op>): seq<bool> {
    if ops == [] then []
    else
      var front, z := ops[..|ops| - 1], ops[|ops| - 1];
      Submits(front) + (if z.Submit? then [Attached(front) && z.ok] else [])
  }

  /** For every wait in turn whether events came. */
  function Waits(ops: seq<Op>): seq<bool> {
    if ops == [] then []
    else
      var z := ops[|ops| - 1];
      Waits(ops[..|ops| - 1]) + (if z.Wait? then [z.events] else [])
  }

  /** The packets that arrive, numbered as they come. */
  function Arrivals(ops: seq<Op>): seq<Packet> {
    if ops == [] then []
    else
      var front, z := Arrivals(ops[..|ops| - 1]), ops[|ops| - 1];
      front + (if z.Capture? then [Packet(|front|, z.size)] else [])
  }

  ghost predicate Verdicts(t: seq<Tag>, passed: seq<bool>) {
    |t| == |passed| && forall k :: 0 <= k < |t| ==> t[k].passed == passed[k]
  }

  ghost predicate AsTold(s: State, ops: seq<Op>) {
    && s.attached == Attached(ops) && s.captured == Arrivals(ops)
    && Verdicts(s.handled, Submits(ops)) && Verdicts(s.settled, Waits(ops))
  }

  lemma StepTold(s: State, ops: seq<Op>, op: Op)
    requires AsTold(s, ops) && Enabled(s, op)
    ensures AsTold(Step(s, op), ops + [op])
  {
    assert (ops + [op])[..|ops|] == ops;
    if op.LoopStep? { AdvanceSends(s); }
  }

  lemma {:induction false} RunTold(s: State, before: seq<Op>, ops: seq<Op>)
    requires AsTold(s, before) && Legal(s, ops)
    ensures AsTold(Run(s, ops), before + ops)
    decreases |ops|
  {
    if ops == [] {
      assert before + ops == before;
    } else {
      StepTold(s, before, ops[0]);
      RunTold(Step(s, ops[0]), before + [ops[0]], ops[1..]);
      assert before + [ops[0]] + ops[1..] == before + ops;
    }
  }

  /** The packets at the places whose flag is not set. */
  ghost function Dropouts(ps: seq<Packet>, passed: seq<bool>): seq<Packet>
    requires |ps| == |passed|
  {
    if ps == [] then []
    else
      var n := |ps| - 1;
      Dropouts(ps[..n], passed[..n]) + (if passed[n] then [] else [ps[n]])
  }

  lemma {:induction false} HeldBackAt(t: seq<Tag>, passed: seq<bool>)
    requires Verdicts(t, passed)
    ensures HeldBack(t) == Dropouts(Pkts(t), passed)
  {
    if t != [] {
      var n := |t| - 1;
      HeldBackAt(t[..n], passed[..n]);
      assert Pkts(t)[..n] == Pkts(t[..n]);
    }
  }

  /**
   In every run the packets captured are those that arrived, in order; the k-th packet put into decodeCh
   meets the k-th submit, and is skipped exactly if that was made without a decoder or failed; the k-th
   submitted meets the k-th wait, and is settled without a batch exactly if no events came.
   */
  lemma SkippedExactly(max: nat, ops: seq<Op>)
    requires Legal(Init(max), ops)
    ensures var s := Run(Init(max), ops);
            && s.captured == Arrivals(ops) && s.attached == Attached(ops)
            && |Submits(ops)| <= |s.sent| && HeldBack(s.handled) == Dropouts(s.sent[..|Submits(ops)|], Submits(ops))
            && |Waits(ops)| <= |Passed(s.handled)| && HeldBack(s.settled) == Dropouts(Passed(s.handled)[..|Waits(ops)|], Waits(ops))
  {
    RunKeeps(Init(max), ops);
    RunTold(Init(max), [], ops);
    assert [] + ops == ops;
    var s := Run(Init(max), ops);
    HeldFirst(s.sent, s.handled, Held(s.worker) + s.ch, Submits(ops)) by {
      Associates(Pkts(s.handled), Held(s.worker), s.ch);
    }
    HeldFirst(Passed(s.handled), s.settled, s.window, Waits(ops));
  }

  lemma Associates(a: seq<Packet>, b: seq<Packet>, c: seq<Packet>)
    ensures a + b + c == a + (b + c)
  {}

  /** Of the packets that went into a stage the first ones have been handled. */
  lemma HeldFirst(into: seq<Packet>, t: seq<Tag>, rest: seq<Packet>, passed: seq<bool>)
    requires into == Pkts(t) + rest && Verdicts(t, passed)
    ensures |passed| <= |into| && HeldBack(t) == Dropouts(into[..|passed|], passed)
  {
    HeldBackAt(t, passed);
    assert into[..|t|] == Pkts(t);
  }

  /** A decoder that was attached before the first submit and never detached, and all whose submits succeed,
      skips nothing. */
  lemma NothingSkipped(max: nat, a: seq<Op>, b: seq<Op>)
    requires Legal(Init(max), a + [Attach] + b)
    requires (forall op :: op in a ==> !op.Submit?) && forall op :: op in b ==> !op.Detach? && (op.Submit? ==> op.ok)
    ensures HeldBack(Run(Init(max), a + [Attach] + b).handled) == []
  {
    var ops := a + [Attach] + b;
    SkippedExactly(max, ops);
    AllSucceed(a, b);
    NoDropouts(Run(Init(max), ops).sent[..|Submits(ops)|], Submits(ops));
  }

  lemma {:induction false} AllSucceed(a: seq<Op>, b: seq<Op>)
    requires (forall op :: op in a ==> !op.Submit?) && forall op :: op in b ==> !op.Detach? && (op.Submit? ==> op.ok)
    ensures Attached(a + [Attach] + b) && forall x :: x in Submits(a + [Attach] + b) ==> x
    decreases |b|
  {
    var ops := a + [Attach] + b;
    if b == [] {
      assert ops[..|ops| - 1] == a;
      NoSubmits(a);
    } else {
      var n := |b| - 1;
      AllSucceed(a, b[..n]);
      assert ops[..|ops| - 1] == a + [Attach] + b[..n] && ops[|ops| - 1] == b[n];
    }
  }

  lemma {:induction false} NoSubmits(a: seq<Op>)
    requires forall op :: op in a ==> !op.Submit?
    ensures Submits(a) == []
  {
    if a != [] { NoSubmits(a[..|a| - 1]); }
  }

  lemma {:induction false} NoDropouts(ps: seq<Packet>, passed: seq<bool>)
    requires |ps| == |passed| && forall x :: x in passed ==> x
    ensures Dropouts(ps, passed) == []
  {
    if ps != [] {
      var n := |ps| - 1;
      assert passed[n] in passed && forall x :: x in passed[..n] ==> x in passed;
      NoDropouts(ps[..n], passed[..n]);
    }
  }

  // ---------- When the overflow queue is used ----------

  /** Neither the queue nor a drop: the decoder is there and its channel has room whenever the loop decides. */
  ghost predicate KeepsUp(s: State, ops: seq<Op>)
    requires Legal(s, ops)
    decreases |ops|
  {
    ops == [] || ((s.loop.Deciding? ==> s.attached && !Full(s)) && KeepsUp(Step(s, ops[0]), ops[1..]))
  }

  /** While a decoder is attached and has room, every live packet goes straight to it. */
  lemma {:induction false} NothingQueued(s: State, ops: seq<Op>)
    requires Legal(s, ops) && KeepsUp(s, ops) && s.items == []
    ensures var r := Run(s, ops); r.items == [] && r.dropped == s.dropped && r.lost == s.lost
    decreases |ops|
  {
    if ops != [] { NothingQueued(Step(s, ops[0]), ops[1..]); }
  }

  /** The loop's next `n` moves, nobody else moving. */
  ghost function Moves(s: State, n: nat): State { if n == 0 then s else Advance(Moves(s, n - 1)) }

  ghost function Drained(s: State, k: nat): State
    requires k <= |s.items|
  {
    s.(items := s.items[k..], sent := s.sent + s.items[..k], ch := s.ch + s.items[..k])
  }

  lemma DrainOne(s: State, k: nat)
    requires s.loop.Draining? && s.attached && k < |s.items| && |s.ch| + k < DECODE_QUEUE
    ensures Advance(Drained(s, k)) == Drained(s, k + 1)
  {
    assert s.items[..k + 1] == s.items[..k] + [s.items[k]];
    assert s.items[k..][1..] == s.items[k + 1..] && s.items[k..][0] == s.items[k];
  }

  lemma {:induction false} DrainSome(s: State, k: nat)
    requires s.loop.Draining? && s.attached && k <= |s.items| && (k > 0 ==> |s.ch| + k <= DECODE_QUEUE)
    ensures Moves(s, k) == Drained(s, k)
  {
    if k > 0 {
      DrainSome(s, k - 1);
      DrainOne(s, k - 1);
    }
  }

  /** drainPending empties the queue into an attached decoder as far as there is room, oldest first, and
      comes back to where it was called from. */
  lemma DrainEmpties(s: State)
    requires s.loop.Draining? && s.attached
    ensures var room := DECODE_QUEUE - |s.ch|;
            var k := if room <= 0 then 0 else if |s.items| <= room then |s.items| else room;
            Moves(s, k + 1) == Drained(s, k).(loop := if s.loop.feed.Some? then Deciding(s.loop.feed.value) else Between)
  {
    var room := DECODE_QUEUE - |s.ch|;
    var k := if room <= 0 then 0 else if |s.items| <= room then |s.items| else room;
    DrainSome(s, k);
    assert Moves(s, k + 1) == Advance(Drained(s, k));
  }

  /** An attach, and every tick while a decoder is attached, empties a queue there is room for, before anything
      else arrives. */
  lemma AttachAndTickDrain(s: State, op: Op)
    requires s.loop.Between? && (op.Attach? || (op.Tick? && s.attached)) && |s.ch| + |s.items| <= DECODE_QUEUE
    ensures var r := Moves(Step(s, op), |s.items| + 1);
            r.items == [] && r.sent == s.sent + s.items && r.loop.Between? && r.attached
  {
    var t := Step(s, op);
    DrainSome(t, |s.items|);
    assert Moves(t, |s.items| + 1) == Advance(Drained(t, |s.items|));
    assert s.items[..|s.items|] == s.items;
  }

  lemma FinishOne(s: State, k: nat)
    requires s.loop.Finishing? && s.attached && k < |s.items| && |s.ch| + k < DECODE_QUEUE
    ensures Advance(Drained(s, k)) == Drained(s, k + 1)
  {
    assert s.items[..k + 1] == s.items[..k] + [s.items[k]];
    assert s.items[k..][1..] == s.items[k + 1..] && s.items[k..][0] == s.items[k];
  }

  /** The last drain does the same. */
  lemma {:induction false} FinishDrains(s: State, k: nat)
    requires s.loop.Finishing? && s.attached && k <= |s.items| && |s.ch| + k <= DECODE_QUEUE
    ensures Moves(s, k) == Drained(s, k)
  {
    if k > 0 {
      FinishDrains(s, k - 1);
      FinishOne(s, k - 1);
    }
  }

  /** Then the channel is closed and the loop is over. */
  lemma FinishThenStop(s: State)
    requires s.loop.Between?
    ensures var f := Step(s, Finish);
            f == s.(loop := Finishing) && Enabled(f, StopLoop) && Step(f, StopLoop) == s.(loop := Stopped, chClosed := true)
  {}

  ghost predicate Reachable(s: State) { exists ops :: Legal(Init(100), ops) && Run(Init(100), ops) == s }

  lemma {:induction false} RunSnoc(s: State, ops: seq<Op>, op: Op)
    requires Legal(s, ops) && Enabled(Run(s, ops), op)
    ensures Legal(s, ops + [op]) && Run(s, ops + [op]) == Step(Run(s, ops), op)
    decreases |ops|
  {
    if ops == [] {
      assert (ops + [op])[1..] == [];
    } else {
      RunSnoc(Step(s, ops[0]), ops[1..], op);
      assert (ops + [op])[1..] == ops[1..] + [op];
    }
  }

  lemma Steps(s: State, op: Op)
    requires Reachable(s) && Enabled(s, op)
    ensures Reachable(Step(s, op))
  {
    var ops :| Legal(Init(100), ops) && Run(Init(100), ops) == s;
    RunSnoc(Init(100), ops, op);
  }

  lemma PacketSent() returns (s: State)
    ensures Reachable(s) && s.ch == [Packet(0, 10)] && s.attached && s.loop.Between? && s.worker.Waiting?
    ensures s.window == s.decoded == s.processed == [] && !s.chClosed
  {
    s := Init(100);
    assert Legal(s, []) && Run(s, []) == s;
    Steps(s, Attach);
    s := Step(s, Attach);
    Steps(s, LoopStep);
    s := Advance(s);
    Steps(s, Capture(10, false));
    s := Step(s, Capture(10, false));
    Steps(s, LoopStep);
    s := Advance(s);
    FeedDecides(s);
    Steps(s, LoopStep);
    s := Advance(s);
  }

  /** A run in which a captured packet is decoded and processed. */
  lemma PacketProcessed() returns (s: State)
    ensures Reachable(s) && s.processed == [Packet(0, 10)]
  {
    s := PacketSent();
    Steps(s, Take);
    s := Step(s, Take);
    Steps(s, Submit(true));
    s := Step(s, Submit(true));
    Steps(s, Finish);
    s := Step(s, Finish);
    Steps(s, StopLoop);
    s := Step(s, StopLoop);
    Steps(s, Wait(true));
    s := Step(s, Wait(true));
    Steps(s, Deliver);
    s := Step(s, Deliver);
    Steps(s, Consume);
    s := Step(s, Consume);
  }

  /** feedDecode after the drain: with a decoder, room and an empty queue the packet is sent; otherwise it is
      appended to the queue, which then drops its oldest until it fits. */
  lemma FeedDecides(s: State)
    requires s.loop.Deciding?
    ensures var r, p := Advance(s), s.loop.pkt;
            && r.loop.Between?
            && (s.attached && s.items == [] && |s.ch| < DECODE_QUEUE ==>
                  r.sent == s.sent + [p] && r.ch == s.ch + [p] && r.items == [] && r.dropped == s.dropped)
            && (!(s.attached && s.items == [] && |s.ch| < DECODE_QUEUE) ==>
                  && r.sent == s.sent && r.ch == s.ch && |r.items| + r.dropped == |s.items| + 1 + s.dropped
                  && r.items == (s.items + [p])[r.dropped - s.dropped..]
                  && (|r.items| == 1 || Bytes(r.items) <= s.max)
                  && forall k :: 0 <= k < r.dropped - s.dropped ==> Bytes((s.items + [p])[k..]) > s.max)
  {
    FitIsLongest(s.items + [s.loop.pkt], s.max);
  }

  /** A replayed packet waits until the queue before it is sent and there is room, and is then sent. */
  lemma ReplayWaits(s: State)
    requires s.loop.Replaying?
    ensures var r, p := Advance(s), s.loop.next;
            && (|s.ch| >= DECODE_QUEUE ==> r == s)
            && (|s.ch| < DECODE_QUEUE && s.items == [] ==> r.loop.Between? && r.sent == s.sent + [p] && r.ch == s.ch + [p] && r.items == [])
            && (|s.ch| < DECODE_QUEUE && s.items != [] ==>
                  r.loop == s.loop && r.sent == s.sent + [s.items[0]] && r.ch == s.ch + [s.items[0]] && r.items == s.items[1..])
  {}

  // ---------- Retention of the write buffers ----------

  /** The newest entries, from position `n` on, move to the front. */
  method MoveFront<T>(buf: array<T>, n: nat)
    requires n <= buf.Length
    modifies buf
    ensures forall j :: 0 <= j < buf.Length - n ==> buf[j] == old(buf[j + n])
  {
    var i := 0;
    while i < buf.Length - n
      invariant 0 <= i <= buf.Length - n
      invariant forall j :: 0 <= j < i ==> buf[j] == old(buf[j + n])
      invariant forall j :: i <= j < buf.Length ==> buf[j] == old(buf[j])
    {
      buf[i] := buf[n + i];
      i := i + 1;
    }
  }

  method ClearFrom<T>(buf: array<T>, from: nat, blank: T)
    requires from <= buf.Length
    modifies buf
    ensures forall j :: 0 <= j < buf.Length ==> buf[j] == if j < from then old(buf[j]) else blank
  {
    var i := from;
    while i < buf.Length
      invariant from <= i <= buf.Length
      invariant forall j :: 0 <= j < buf.Length ==> buf[j] == if from <= j < i then blank else old(buf[j])
    {
      buf[i] := blank;
      i := i + 1;
    }
  }

  /** retainOnFailure: the newest `max` entries move to the front, the rest of the buffer is cleared
      (capture_task.go:141-154). The result is the length kept. */
  method RetainOnFailure<T>(buf: array<T>, max: nat, blank: T, dropped: nat) returns (kept: nat, total: nat)
    modifies buf
    ensures kept == (if buf.Length <= max then buf.Length else max)
    ensures buf[..kept] == old(buf[..])[buf.Length - kept..]
    ensures total + kept == dropped + buf.Length
    ensures forall i :: kept <= i < buf.Length ==> buf[i] == blank
  {
    if buf.Length <= max { return buf.Length, dropped; }
    var n := buf.Length - max;
    MoveFront(buf, n);
    ClearFrom(buf, max, blank);
    return max, dropped + n;
  }
}
