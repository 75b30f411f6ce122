/**
 The decode dispatcher (pkg/decode/dispatcher.go:188-278, 343-361): Submit, the receive loop and
 Close share the `pending` table under one mutex, and resolve futures outside it. Each lock region
 is a step; a future taken out of the table and not yet resolved is in somebody's hand.
 */
module Dispatcher {
  import opened Util

  datatype Response = Response(inputId: string, done: bool, body: int)

  datatype Outcome = Decoded(results: seq<Response>) | StreamFailed | Closed

  /** `from` is the number of responses received when the request was submitted. */
  datatype Future = Future(inputId: string, from: nat, resolved: seq<Outcome>)

  datatype Pending = Pending(future: nat, results: seq<Response>)

  /** The receive loop: reading, about to resolve one completed future, or failing the ones it took. */
  datatype Loop = Reading | Settling(future: nat, results: seq<Response>) | Failing(todo: set<nat>) | Exited

  /** `log` is every response received; `closing` are the futures Close took and still has to fail. */
  datatype State = State(
    closed: bool, pending: map<string, Pending>, futures: seq<Future>, loop: Loop, closing: set<nat>,
    log: seq<Response>)

  const INIT := State(false, map[], [], Reading, {}, [])

  datatype Op =
    | Submit(inputId: string)          // Send succeeded; a failed Send changes nothing
    | Receive(resp: Response)
    | Settle
    | StreamError
    | FailOne(future: nat)
    | FailEnd
    | Close
    | CloseOne(future: nat)

  ghost predicate Used(s: State, id: string) {
    exists f :: 0 <= f < |s.futures| && s.futures[f].inputId == id
  }

  ghost predicate Enabled(s: State, op: Op) {
    match op
    case Submit(id) => id != "" && !Used(s, id)
    case Receive(_) => s.loop.Reading?
    case Settle => s.loop.Settling? && s.loop.future < |s.futures|
    case StreamError => s.loop.Reading?
    case FailOne(f) => s.loop.Failing? && f in s.loop.todo && f < |s.futures|
    case FailEnd => s.loop.Failing? && s.loop.todo == {}
    case Close => true
    case CloseOne(f) => f in s.closing && f < |s.futures|
  }

  ghost function Resolve(s: State, f: nat, o: Outcome): State
    requires f < |s.futures|
  {
    s.(futures := s.futures[f := s.futures[f].(resolved := s.futures[f].resolved + [o])])
  }

  ghost function Futures(pending: map<string, Pending>): set<nat> {
    set id | id in pending :: pending[id].future
  }

  ghost function Step(s: State, op: Op): State
    requires Enabled(s, op)
  {
    match op
    case Submit(id) =>
      if s.closed then s
      else s.(futures := s.futures + [Future(id, |s.log|, [])], pending := s.pending[id := Pending(|s.futures|, [])])
    case Receive(r) =>
      var s1 := s.(log := s.log + [r]);
      if r.inputId == "" || r.inputId !in s.pending then s1
      else
        var p := s.pending[r.inputId];
        if r.done then s1.(pending := s.pending - {r.inputId}, loop := Settling(p.future, p.results))
        else s1.(pending := s.pending[r.inputId := p.(results := p.results + [r])])
    case Settle => Resolve(s, s.loop.future, Decoded(s.loop.results)).(loop := Reading)
    case StreamError => s.(pending := map[], loop := Failing(Futures(s.pending)))
    case FailOne(f) => Resolve(s, f, StreamFailed).(loop := Failing(s.loop.todo - {f}))
    case FailEnd => s.(loop := Exited)
    case Close => if s.closed then s else s.(closed := true, pending := map[], closing := Futures(s.pending))
    case CloseOne(f) => Resolve(s, f, Closed).(closing := s.closing - {f})
  }

  ghost predicate Legal(s: State, ops: seq<Op>)
    decreases |ops|
  {
    ops == [] || (Enabled(s, ops[0]) && Legal(Step(s, ops[0]), ops[1..]))
  }

  ghost function Run(s: State, ops: seq<Op>): State
    requires Legal(s, ops)
    decreases |ops|
  {
    if ops == [] then s else Run(Step(s, ops[0]), ops[1..])
  }

  // ---------- The invariant ----------

  /** The non-final responses carrying this id, in order. */
  ghost function Own(log: seq<Response>, id: string): seq<Response> {
    if log == [] then []
    else Own(log[..|log| - 1], id) +
         (if log[|log| - 1].inputId == id && !log[|log| - 1].done then [log[|log| - 1]] else [])
  }

  ghost predicate NoFinal(log: seq<Response>, from: nat, to: nat, id: string)
    requires to <= |log|
  {
    forall k :: from <= k < to ==> !(log[k].inputId == id && log[k].done)
  }

  /** All the responses of this id received from `from` on and before its first final one. */
  ghost predicate BuiltFrom(results: seq<Response>, log: seq<Response>, from: nat, id: string) {
    exists to :: from <= to < |log| && BuiltUpTo(results, log, from, to, id)
  }

  ghost predicate BuiltUpTo(results: seq<Response>, log: seq<Response>, from: nat, to: nat, id: string)
    requires from <= to < |log|
  {
    log[to].inputId == id && log[to].done && NoFinal(log, from, to, id) && results == Own(log[from..to], id)
  }

  ghost predicate InTable(s: State, f: nat)
    requires f < |s.futures|
  {
    s.futures[f].inputId in s.pending && s.pending[s.futures[f].inputId].future == f
  }

  /** How many places a future is in: resolutions made, plus the one place that will make one. */
  ghost function Places(s: State, f: nat): nat
    requires f < |s.futures|
  {
    |s.futures[f].resolved|
    + (if InTable(s, f) then 1 else 0)
    + (if s.loop.Settling? && s.loop.future == f then 1 else 0)
    + (if s.loop.Failing? && f in s.loop.todo then 1 else 0)
    + (if f in s.closing then 1 else 0)
  }

  ghost predicate FutureOk(s: State, f: nat)
    requires f < |s.futures|
  {
    var x := s.futures[f];
    && Places(s, f) == 1 && x.from <= |s.log|
    && (InTable(s, f) ==>
          s.pending[x.inputId].results == Own(s.log[x.from..], x.inputId) && NoFinal(s.log, x.from, |s.log|, x.inputId))
    && (s.loop.Settling? && s.loop.future == f ==> BuiltFrom(s.loop.results, s.log, x.from, x.inputId))
    && (forall o :: o in x.resolved && o.Decoded? ==> BuiltFrom(o.results, s.log, x.from, x.inputId))
  }

  ghost predicate TableOk(s: State) {
    && (forall id :: id in s.pending ==> s.pending[id].future < |s.futures| && s.futures[s.pending[id].future].inputId == id)
    && (forall f :: 0 <= f < |s.futures| ==> s.futures[f].inputId != "")
    && (forall f, g :: 0 <= f < g < |s.futures| ==> s.futures[f].inputId != s.futures[g].inputId)
    && (s.loop.Settling? ==> s.loop.future < |s.futures|)
    && (s.loop.Failing? ==> forall f :: f in s.loop.todo ==> f < |s.futures|)
    && (forall f :: f in s.closing ==> f < |s.futures|)
    && (s.closed ==> s.pending == map[]) && (s.closing != {} ==> s.closed)
  }

  ghost predicate Inv(s: State) {
    TableOk(s) && forall f :: 0 <= f < |s.futures| ==> FutureOk(s, f)
  }

  // ---------- Preservation ----------

  lemma OwnSnoc(log: seq<Response>, r: Response, id: string)
    ensures Own(log + [r], id) == Own(log, id) + (if r.inputId == id && !r.done then [r] else [])
  {
    assert (log + [r])[..|log|] == log;
  }

  lemma BuiltFromGrows(results: seq<Response>, log: seq<Response>, r: Response, from: nat, id: string)
    requires BuiltFrom(results, log, from, id)
    ensures BuiltFrom(results, log + [r], from, id)
  {
    var to :| from <= to < |log| && BuiltUpTo(results, log, from, to, id);
    assert (log + [r])[from..to] == log[from..to];
    assert BuiltUpTo(results, log + [r], from, to, id);
  }

  lemma StepTable(s: State, op: Op)
    requires TableOk(s) && Enabled(s, op)
    ensures TableOk(Step(s, op))
  {}

  /** A step that only resolves a future from somebody's hand. */
  lemma ResolveKeeps(s: State, op: Op, f: nat)
    requires TableOk(s) && Enabled(s, op) && f < |s.futures| && FutureOk(s, f)
    requires op.Settle? || op.FailOne? || op.FailEnd? || op.CloseOne?
    ensures FutureOk(Step(s, op), f)
  {}

  lemma TakeAllKeeps(s: State, op: Op, f: nat)
    requires TableOk(s) && Enabled(s, op) && f < |s.futures| && FutureOk(s, f) && (op.StreamError? || op.Close?)
    ensures FutureOk(Step(s, op), f)
  {
    if InTable(s, f) {
      assert s.futures[f].inputId in s.pending;
    }
  }

  lemma SubmitKeeps(s: State, id: string, f: nat)
    requires TableOk(s) && Enabled(s, Submit(id)) && f < |Step(s, Submit(id)).futures|
    requires f < |s.futures| ==> FutureOk(s, f)
    ensures FutureOk(Step(s, Submit(id)), f)
  {}

  lemma ReceiveTable(s: State, r: Response, f: nat)
    requires TableOk(s) && Enabled(s, Receive(r)) && f < |s.futures| && FutureOk(s, f)
    ensures var s', x := Step(s, Receive(r)), s.futures[f];
            && Places(s', f) == 1
            && (InTable(s', f) ==>
                  s'.pending[x.inputId].results == Own(s'.log[x.from..], x.inputId) && NoFinal(s'.log, x.from, |s'.log|, x.inputId))
            && (s'.loop.Settling? && s'.loop.future == f ==>
                  r.done && r.inputId == x.inputId && InTable(s, f) && s'.loop.results == s.pending[x.inputId].results)
  {
    var x := s.futures[f];
    var s' := Step(s, Receive(r));
    assert s'.log[x.from..] == s.log[x.from..] + [r];
    OwnSnoc(s.log[x.from..], r, x.inputId);
    if r.inputId in s.pending {
      var g := s.pending[r.inputId].future;
      assert s.futures[g].inputId == r.inputId;
      assert g == f <==> r.inputId == x.inputId;
    }
  }

  lemma ReceiveKeeps(s: State, r: Response, f: nat)
    requires TableOk(s) && Enabled(s, Receive(r)) && f < |s.futures| && FutureOk(s, f)
    ensures FutureOk(Step(s, Receive(r)), f)
  {
    var x := s.futures[f];
    var s' := Step(s, Receive(r));
    ReceiveTable(s, r, f);
    if s'.loop.Settling? && s'.loop.future == f {
      assert s.log[x.from..] == s'.log[x.from..|s.log|];
      assert BuiltUpTo(s'.loop.results, s'.log, x.from, |s.log|, x.inputId);
    }
    forall o | o in x.resolved && o.Decoded? ensures BuiltFrom(o.results, s'.log, x.from, x.inputId) {
      BuiltFromGrows(o.results, s.log, r, x.from, x.inputId);
    }
  }

  lemma StepKeeps(s: State, op: Op)
    requires Inv(s) && Enabled(s, op)
    ensures Inv(Step(s, op))
  {
    StepTable(s, op);
    forall f | 0 <= f < |Step(s, op).futures| ensures FutureOk(Step(s, op), f) {
      match op
      case Submit(id) => SubmitKeeps(s, id, f);
      case Receive(r) => ReceiveKeeps(s, r, f);
      case StreamError => TakeAllKeeps(s, op, f);
      case Close => TakeAllKeeps(s, op, f);
      case _ => ResolveKeeps(s, op, f);
    }
  }

  lemma {:induction false} RunKeeps(s: State, ops: seq<Op>)
    requires Inv(s) && Legal(s, ops)
    ensures Inv(Run(s, ops))
    decreases |ops|
  {
    if ops != [] {
      StepKeeps(s, ops[0]);
      RunKeeps(Step(s, ops[0]), ops[1..]);
    }
  }

  /** No hand-off is in progress: nobody holds a future taken out of the table. */
  ghost predicate Quiet(s: State) { !s.loop.Settling? && !s.loop.Failing? && s.closing == {} }

  /**
   In every run a future is resolved at most once; one not yet resolved is still in the table or in
   exactly one hand; after Close, with no hand-off in progress, every future is resolved exactly
   once; and a successful one was built from the responses carrying its own input id, all of those
   that arrived between its submission and its final response, in arrival order.
   */
  lemma FuturesResolvedOnce(ops: seq<Op>, f: nat)
    requires Legal(INIT, ops) && f < |Run(INIT, ops).futures|
    ensures var s := Run(INIT, ops);
            var x := s.futures[f];
            && |x.resolved| <= 1
            && (x.resolved == [] && Quiet(s) ==> InTable(s, f))
            && (s.closed && Quiet(s) ==> |x.resolved| == 1)
            && (forall o :: o in x.resolved && o.Decoded? ==> BuiltFrom(o.results, s.log, x.from, x.inputId))
  {
    RunKeeps(INIT, ops);
    assert FutureOk(Run(INIT, ops), f);
  }

  /** From every state of a run the dispatcher can be closed and its hand-offs finished. */
  lemma {:induction false} Drains(s: State) returns (ops: seq<Op>)
    requires Inv(s)
    ensures Legal(s, ops) && Run(s, ops).closed && Quiet(Run(s, ops)) && Inv(Run(s, ops))
    decreases !s.closed, if s.loop.Failing? then s.loop.todo else {}, !s.loop.Reading? && !s.loop.Exited?, s.closing
  {
    var op := Close;
    if s.loop.Settling? {
      op := Settle;
    } else if s.loop.Failing? && s.loop.todo == {} {
      op := FailEnd;
    } else if s.loop.Failing? {
      if f :| f in s.loop.todo { op := FailOne(f); }
    } else if s.closed {
      if f :| f in s.closing { op := CloseOne(f); } else { return []; }
    }
    StepKeeps(s, op);
    var rest := Drains(Step(s, op));
    ops := [op] + rest;
    assert ops[1..] == rest;
  }

  /** Each of the three outcomes happens. */
  lemma OutcomesHappen()
    ensures Happens(Decoded([])) && Happens(StreamFailed) && Happens(Closed)
  {
    assert Own([], "a") == [];
    ThreeSteps(Submit("a"), Receive(Response("a", true, 0)), Settle, Decoded([]));
    ThreeSteps(Submit("a"), StreamError, FailOne(0), StreamFailed);
    ThreeSteps(Submit("a"), Close, CloseOne(0), Closed);
  }

  ghost predicate Happens(o: Outcome) {
    exists ops :: Legal(INIT, ops) && GotFirst(Run(INIT, ops), o)
  }

  ghost predicate GotFirst(s: State, o: Outcome) { |s.futures| > 0 && s.futures[0].resolved == [o] }

  lemma ThreeSteps(a: Op, b: Op, c: Op, o: Outcome)
    requires Enabled(INIT, a) && Enabled(Step(INIT, a), b) && Enabled(Step(Step(INIT, a), b), c)
    requires GotFirst(Step(Step(Step(INIT, a), b), c), o)
    ensures Happens(o)
  {
    var s, ops := Step(Step(INIT, a), b), [a, b, c];
    assert Legal(Step(s, c), []) && Run(Step(s, c), []) == Step(s, c);
    assert [c][1..] == [];
    assert Legal(s, [c]) && Run(s, [c]) == Step(s, c);
    assert [b, c][1..] == [c];
    assert Legal(Step(INIT, a), [b, c]) && Run(Step(INIT, a), [b, c]) == Step(s, c);
    assert ops[1..] == [b, c];
    assert Legal(INIT, ops) && Run(INIT, ops) == Step(s, c);
  }

  // ---------- Which outcome each future gets ----------

  /**
   What the operations of a run said: the responses received, the requests submitted before Close with the
   number of responses received by then, how many of these there were when the stream failed (none if it
   failed after Close), and how many responses had been received at Close.
   */
  datatype Told = Told(log: seq<Response>, subs: seq<(string, nat)>, broke: Option<nat>, shut: Option<nat>)

  const NOTHING := Told([], [], None, None)

  function Hear(t: Told, op: Op): Told {
    match op
    case Submit(id) => if t.shut.Some? then t else t.(subs := t.subs + [(id, |t.log|)])
    case Receive(r) => t.(log := t.log + [r])
    case StreamError => t.(broke := Some(if t.shut.Some? then 0 else |t.subs|))
    case Close => if t.shut.Some? then t else t.(shut := Some(|t.log|))
    case _ => t
  }

  function Heard(t: Told, ops: seq<Op>): Told
    decreases |ops|
  {
    if ops == [] then t else Heard(Hear(t, ops[0]), ops[1..])
  }

  /** The final response of a request received before Close, if there is one. */
  ghost predicate Answered(t: Told, f: nat, to: nat)
    requires f < |t.subs|
  {
    && t.subs[f].1 <= to < |t.log| && (t.shut.Some? ==> to < t.shut.value)
    && t.log[to].inputId == t.subs[f].0 && t.log[to].done && NoFinal(t.log, t.subs[f].1, to, t.subs[f].0)
  }

  /**
   The outcome a request gets: its own responses up to its first final one, if that was received before
   Close; failing that a stream failure if it was submitted before the stream failed, and that before Close;
   failing that Closed once Close was called.
   */
  ghost predicate Due(t: Told, f: nat, o: Outcome)
    requires f < |t.subs|
  {
    match o
    case Decoded(rs) => exists to: nat :: Answered(t, f, to) && rs == Own(t.log[t.subs[f].1..to], t.subs[f].0)
    case StreamFailed => (forall to: nat :: !Answered(t, f, to)) && t.broke.Some? && f < t.broke.value
    case Closed => (forall to: nat :: !Answered(t, f, to)) && !(t.broke.Some? && f < t.broke.value) && t.shut.Some?
  }

  /** The outcome a place holds for a future: what was resolved, or what will be. */
  ghost predicate Holds(s: State, f: nat, o: Outcome)
    requires f < |s.futures|
  {
    || o in s.futures[f].resolved || (s.loop == Settling(f, if o.Decoded? then o.results else []) && o.Decoded?)
    || (s.loop.Failing? && f in s.loop.todo && o == StreamFailed) || (f in s.closing && o == Closed)
  }

  ghost predicate Awaits(s: State, t: Told, f: nat)
    requires f < |s.futures| && f < |t.subs|
  {
    InTable(s, f) ==> (forall to: nat :: !Answered(t, f, to)) && !(t.broke.Some? && f < t.broke.value) && t.shut.None?
  }

  ghost predicate AsTold(s: State, t: Told) {
    && s.log == t.log && |t.subs| == |s.futures| && (s.closed <==> t.shut.Some?)
    && (t.shut.Some? ==> t.shut.value <= |t.log|) && (t.broke.Some? ==> t.broke.value <= |t.subs|)
    && (t.broke.Some? <==> s.loop.Failing? || s.loop.Exited?)
    && (forall f :: 0 <= f < |t.subs| ==> t.subs[f] == (s.futures[f].inputId, s.futures[f].from) && t.subs[f].1 <= |t.log|)
  }

  ghost predicate FateOk(s: State, t: Told, f: nat)
    requires f < |s.futures| && f < |t.subs|
  {
    Awaits(s, t, f) && forall o :: Holds(s, f, o) ==> Due(t, f, o)
  }

  ghost predicate Fates(s: State, t: Told) {
    AsTold(s, t) && forall f :: 0 <= f < |s.futures| ==> FateOk(s, t, f)
  }

  lemma StepAsTold(s: State, t: Told, op: Op)
    requires TableOk(s) && AsTold(s, t) && Enabled(s, op)
    ensures AsTold(Step(s, op), Hear(t, op))
  {}

  /** A new response changes nothing for a request that has its outcome, and answers one that waits exactly
      if it is final and carries its id. */
  lemma AnsweredGrows(t: Told, r: Response, f: nat, to: nat)
    requires f < |t.subs| && t.subs[f].1 <= |t.log| && (t.shut.Some? ==> t.shut.value <= |t.log|)
    ensures to < |t.log| ==> Answered(Hear(t, Receive(r)), f, to) == Answered(t, f, to)
    ensures Answered(Hear(t, Receive(r)), f, |t.log|) <==>
              t.shut.None? && r.inputId == t.subs[f].0 && r.done && NoFinal(t.log, t.subs[f].1, |t.log|, t.subs[f].0)
  {
    var u := Hear(t, Receive(r));
    assert u.log[|t.log|] == r && forall k :: 0 <= k < |t.log| ==> u.log[k] == t.log[k];
    SameFinals(t.log, u.log, t.subs[f].1, |t.log|, t.subs[f].0);
    if to < |t.log| { SameFinals(t.log, u.log, t.subs[f].1, to, t.subs[f].0); }
  }

  lemma SameFinals(a: seq<Response>, b: seq<Response>, from: nat, to: nat, id: string)
    requires to <= |a| && to <= |b| && forall k :: 0 <= k < to ==> a[k] == b[k]
    ensures NoFinal(a, from, to, id) == NoFinal(b, from, to, id)
  {}

  lemma DueGrows(t: Told, r: Response, f: nat, o: Outcome)
    requires f < |t.subs| && t.subs[f].1 <= |t.log| && (t.shut.Some? ==> t.shut.value <= |t.log|) && Due(t, f, o)
    requires t.broke.None? && (o.Closed? ==> t.shut.Some?)
    ensures Due(Hear(t, Receive(r)), f, o)
  {
    var u := Hear(t, Receive(r));
    if o.Decoded? {
      var to: nat :| Answered(t, f, to) && o.results == Own(t.log[t.subs[f].1..to], t.subs[f].0);
      AnsweredGrows(t, r, f, to);
      assert u.log[t.subs[f].1..to] == t.log[t.subs[f].1..to];
    } else {
      forall to: nat ensures !Answered(u, f, to) {
        if Answered(u, f, to) && to < |t.log| { AnsweredGrows(t, r, f, to); }
      }
    }
  }

  lemma ReceiveFate(s: State, t: Told, r: Response, f: nat)
    requires TableOk(s) && AsTold(s, t) && Enabled(s, Receive(r)) && f < |s.futures| && FutureOk(s, f) && FateOk(s, t, f)
    ensures FateOk(Step(s, Receive(r)), Hear(t, Receive(r)), f)
  {
    var q, u := Step(s, Receive(r)), Hear(t, Receive(r));
    ReceiveTable(s, r, f);
    forall o | Holds(q, f, o) ensures Due(u, f, o) {
      if Holds(s, f, o) { DueGrows(t, r, f, o); } else { SettlesDue(s, t, r, f, o); }
    }
    if InTable(q, f) { StillAwaits(t, r, f); }
  }

  lemma SettlesDue(s: State, t: Told, r: Response, f: nat, o: Outcome)
    requires TableOk(s) && AsTold(s, t) && Enabled(s, Receive(r)) && f < |s.futures| && FutureOk(s, f) && FateOk(s, t, f)
    requires Holds(Step(s, Receive(r)), f, o) && !Holds(s, f, o)
    ensures Due(Hear(t, Receive(r)), f, o)
  {
    var u, x := Hear(t, Receive(r)), s.futures[f];
    ReceiveTable(s, r, f);
    AnsweredGrows(t, r, f, |t.log|);
    assert u.log[x.from..|t.log|] == t.log[x.from..];
    assert Answered(u, f, |t.log|);
  }

  lemma StillAwaits(t: Told, r: Response, f: nat)
    requires f < |t.subs| && t.subs[f].1 <= |t.log| && t.shut.None? && (forall to: nat :: !Answered(t, f, to))
    requires !(r.inputId == t.subs[f].0 && r.done)
    ensures forall to: nat :: !Answered(Hear(t, Receive(r)), f, to)
  {
    forall to: nat ensures !Answered(Hear(t, Receive(r)), f, to) { if to <= |t.log| { AnsweredGrows(t, r, f, to); } }
  }

  lemma TakeAllFate(s: State, t: Told, op: Op, f: nat)
    requires TableOk(s) && AsTold(s, t) && Enabled(s, op) && f < |s.futures| && FutureOk(s, f) && FateOk(s, t, f)
    requires op.StreamError? || op.Close?
    ensures FateOk(Step(s, op), Hear(t, op), f)
  {
    var q, u := Step(s, op), Hear(t, op);
    forall to: nat ensures Answered(u, f, to) == Answered(t, f, to) {}
    if InTable(s, f) { assert s.futures[f].inputId in s.pending; }
    forall o | Holds(q, f, o) ensures Due(u, f, o) {
      if Holds(s, f, o) { assert Due(t, f, o); }
    }
  }

  lemma HandFate(s: State, t: Told, op: Op, f: nat)
    requires TableOk(s) && AsTold(s, t) && Enabled(s, op) && f < |s.futures| && FateOk(s, t, f)
    requires op.Settle? || op.FailOne? || op.FailEnd? || op.CloseOne?
    ensures FateOk(Step(s, op), Hear(t, op), f)
  {
    forall o | Holds(Step(s, op), f, o) ensures Holds(s, f, o) {}
  }

  lemma SubmitFate(s: State, t: Told, id: string, f: nat)
    requires TableOk(s) && AsTold(s, t) && Enabled(s, Submit(id)) && f < |Step(s, Submit(id)).futures|
    requires f < |s.futures| ==> FateOk(s, t, f)
    ensures FateOk(Step(s, Submit(id)), Hear(t, Submit(id)), f)
  {
    var q, u := Step(s, Submit(id)), Hear(t, Submit(id));
    StepAsTold(s, t, Submit(id));
    if f < |s.futures| {
      forall to: nat ensures Answered(u, f, to) == Answered(t, f, to) {}
      forall o | Holds(q, f, o) ensures Due(u, f, o) { assert Holds(s, f, o) && Due(t, f, o); }
    }
  }

  lemma StepFates(s: State, t: Told, op: Op)
    requires Inv(s) && Fates(s, t) && Enabled(s, op)
    ensures Fates(Step(s, op), Hear(t, op))
  {
    StepAsTold(s, t, op);
    forall f | 0 <= f < |Step(s, op).futures| ensures FateOk(Step(s, op), Hear(t, op), f) {
      if f < |s.futures| { assert FutureOk(s, f) && FateOk(s, t, f); }
      match op
      case Submit(id) => SubmitFate(s, t, id, f);
      case Receive(r) => ReceiveFate(s, t, r, f);
      case StreamError => TakeAllFate(s, t, op, f);
      case Close => TakeAllFate(s, t, op, f);
      case _ => HandFate(s, t, op, f);
    }
  }

  lemma {:induction false} RunFates(s: State, t: Told, ops: seq<Op>)
    requires Inv(s) && Fates(s, t) && Legal(s, ops)
    ensures Fates(Run(s, ops), Heard(t, ops))
    decreases |ops|
  {
    if ops != [] {
      StepKeeps(s, ops[0]);
      StepFates(s, t, ops[0]);
      RunFates(Step(s, ops[0]), Hear(t, ops[0]), ops[1..]);
    }
  }

  /**
   In every run each request submitted before Close has a future, and with no hand-off in progress the future
   is resolved, once, with the outcome due to it, exactly if one is: its own responses up to the final one
   if that came before Close, else a stream failure, else Closed. Nothing else is ever resolved.
   */
  lemma OutcomeDue(ops: seq<Op>, f: nat)
    requires Legal(INIT, ops) && f < |Run(INIT, ops).futures|
    ensures var s, t := Run(INIT, ops), Heard(NOTHING, ops);
            && |s.futures| == |t.subs| && t.subs[f] == (s.futures[f].inputId, s.futures[f].from)
            && (forall o :: o in s.futures[f].resolved ==> Due(t, f, o))
            && (Quiet(s) ==> forall o :: s.futures[f].resolved == [o] <==> Due(t, f, o))
  {
    RunKeeps(INIT, ops);
    RunFates(INIT, NOTHING, ops);
    var s, t := Run(INIT, ops), Heard(NOTHING, ops);
    assert FutureOk(s, f) && FateOk(s, t, f);
    if Quiet(s) {
      forall o | Due(t, f, o) ensures s.futures[f].resolved == [o] {
        var r := s.futures[f].resolved;
        if r != [] {
          assert r[0] in r && Due(t, f, r[0]);
          OneDue(t, f, o, r[0]);
        }
      }
      forall o | s.futures[f].resolved == [o] ensures Due(t, f, o) { assert o in s.futures[f].resolved; }
    }
  }

  /** No request is due two outcomes. */
  lemma OneDue(t: Told, f: nat, a: Outcome, b: Outcome)
    requires f < |t.subs| && Due(t, f, a) && Due(t, f, b)
    ensures a == b
  {
    if a.Decoded? && b.Decoded? {
      var i: nat :| Answered(t, f, i) && a.results == Own(t.log[t.subs[f].1..i], t.subs[f].0);
      var j: nat :| Answered(t, f, j) && b.results == Own(t.log[t.subs[f].1..j], t.subs[f].0);
    }
  }

  // ---------- The causation index (dispatcher.go:54-92) ----------

  /** The last `limit` of a list. */
  function Last<T>(s: seq<T>, limit: nat): (r: seq<T>)
    ensures |r| == if |s| <= limit then |s| else limit
  {
    if |s| <= limit then s else s[|s| - limit..]
  }

  class CausationIndex {
    var entries: map<string, string>
    var order: seq<string>
    const limit: nat

    ghost predicate Valid()
      reads this
    {
      Distinct(order) && |order| <= limit && forall k :: k in entries <==> k in order
    }

    constructor (limit: nat)
      ensures Valid() && this.limit == limit && order == [] && entries == map[]
    {
      this.limit := limit;
      entries, order := map[], [];
    }

    /** The first id recorded for an input stays; only the latest `limit` inputs are remembered. */
    method Put(inputId: string, id: string)
      requires Valid()
      modifies this
      ensures Valid()
      ensures order == if inputId in old(order) then old(order) else Last(old(order) + [inputId], limit)
      ensures forall k :: k in entries ==>
                entries[k] == if k in old(entries) then old(entries)[k] else id
    {
      if inputId in entries { return; }
      entries := entries[inputId := id];
      order := order + [inputId];
      ghost var full := order;
      while |order| > limit
        invariant order == full || (|full| == limit + 1 && order == full[1..])
        invariant Distinct(order)
        invariant forall k :: k in entries <==> k in order
        invariant forall k :: k in entries ==> entries[k] == if k in old(entries) then old(entries)[k] else id
      {
        var oldest := order[0];
        DistinctTail(order);
        order := order[1..];
        entries := entries - {oldest};
      }
    }

    method Get(inputId: string) returns (id: Option<string>)
      requires Valid()
      ensures id.Some? <==> inputId in order
      ensures id.Some? ==> inputId in entries && id.value == entries[inputId]
    {
      id := if inputId in entries then Some(entries[inputId]) else None;
    }
  }
}
