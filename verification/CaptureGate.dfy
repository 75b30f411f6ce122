/**
 The agent's capture gate and the connections that report through it
 (pkg/agent/control.go:109-165, pkg/agent/agent.go:165-201, 372-385, 458-561).
 */
module CaptureGates {
  import opened Util

  /** A target as net.SplitHostPort and strconv.Atoi read it, the host in lower case. */
  datatype Target = Malformed | HostPort(host: string, port: Option<int>)

  datatype Filter = Filter(hosts: set<string>, ports: set<int>)

  function Allow(f: Filter, t: Target): bool {
    if f.hosts == {} && f.ports == {} then true
    else if t.Malformed? then false
    else if f.hosts != {} && t.host !in f.hosts then false
    else f.ports == {} || (t.port.Some? && t.port.value in f.ports)
  }

  /** captureState; `sink` names the push client made for this capture alone. */
  datatype Capture = Capture(epoch: nat, captureId: string, serverAddr: string, sink: nat, filter: Filter)

  datatype Gate = Gate(epoch: nat, cur: Option<Capture>)

  predicate Blank(s: string) { forall i :: 0 <= i < |s| ==> s[i] in " \t\n\r" }

  /** What a caller of Start hands over: `stamp` is the time-stamped id used in place of a blank one,
      `filter` is absent when both filter lists are empty, `dialed` is the push client's outcome. */
  datatype StartRequest = StartRequest(captureId: string, serverAddr: string, stamp: string, filter: Option<Filter>,
                             sink: nat, dialed: bool)

  function Id(r: StartRequest): string { if Blank(r.captureId) then r.stamp else r.captureId }

  predicate Replayed(g: Gate, r: StartRequest) {
    g.cur.Some? && g.cur.value.captureId == Id(r) && g.cur.value.serverAddr == r.serverAddr
  }

  /** A Start that opens a new capture: not refused, not a replay, and the push client was made. */
  predicate Opens(g: Gate, r: StartRequest) { !Blank(r.serverAddr) && !Replayed(g, r) && r.dialed }

  function NewCapture(g: Gate, r: StartRequest, fallback: Filter): Capture {
    Capture(g.epoch + 1, Id(r), r.serverAddr, r.sink, if r.filter.Some? then r.filter.value else fallback)
  }

  function Started(g: Gate, r: StartRequest, fallback: Filter): Gate {
    if Opens(g, r) then Gate(g.epoch + 1, Some(NewCapture(g, r, fallback))) else g
  }

  /** A start changes nothing if the address is blank, if the present capture has the same id and address, or if
      no push client could be made; otherwise the next epoch begins, with what was asked for. */
  lemma StartsExactly(g: Gate, r: StartRequest, fallback: Filter)
    ensures var id := if Blank(r.captureId) then r.stamp else r.captureId;
            var same := g.cur.Some? && g.cur.value.captureId == id && g.cur.value.serverAddr == r.serverAddr;
            var filter := match r.filter case None => fallback case Some(f) => f;
            Started(g, r, fallback) == if Blank(r.serverAddr) || same || !r.dialed then g
                                       else Gate(g.epoch + 1, Some(Capture(g.epoch + 1, id, r.serverAddr, r.sink, filter)))
  {}

  /** relayConn's fields that change, with its target. */
  datatype Conn = Conn(target: Target, epoch: nat, declared: bool)

  datatype Kind = Open | Data | Close

  /** One event handed to a push client, labelled with the epoch its connection id carries. */
  datatype Event = Event(sink: nat, epoch: nat, kind: Kind)

  predicate Admits(c: Conn, snap: Option<Capture>) { snap.Some? && Allow(snap.value.filter, c.target) }

  function Begun(c: Conn, snap: Option<Capture>): Conn {
    if Admits(c, snap) then c.(epoch := snap.value.epoch, declared := true) else c
  }

  function BeginEvents(c: Conn, snap: Option<Capture>): seq<Event> {
    if Admits(c, snap) && (c.epoch != snap.value.epoch || !c.declared)
    then [Event(snap.value.sink, snap.value.epoch, Open)] else []
  }

  predicate Closes(c: Conn, snap: Option<Capture>) { snap.Some? && c.epoch == snap.value.epoch && c.declared }

  function Ended(c: Conn, snap: Option<Capture>): Conn { if Closes(c, snap) then c.(declared := false) else c }

  function EndEvents(c: Conn, snap: Option<Capture>): seq<Event> {
    if Closes(c, snap) then [Event(snap.value.sink, c.epoch, Close)] else []
  }

  // ---------- The objects ----------

  class CaptureGate {
    var epoch: nat
    var cur: Option<Capture>
    const defaultFilter: Filter

    constructor (fallback: Filter)
      ensures View() == Gate(0, None) && defaultFilter == fallback
    {
      epoch, cur, defaultFilter := 0, None, fallback;
    }

    ghost function View(): Gate
      reads this
    {
      Gate(epoch, cur)
    }

    method Start(r: StartRequest) returns (ok: bool)
      modifies this
      ensures View() == Started(old(View()), r, defaultFilter)
      ensures ok <==> !Blank(r.serverAddr) && (Replayed(old(View()), r) || r.dialed)
    {
      if Blank(r.serverAddr) { return false; }
      var id := if Blank(r.captureId) then r.stamp else r.captureId;
      if cur.Some? && cur.value.captureId == id && cur.value.serverAddr == r.serverAddr { return true; }
      var filter := defaultFilter;
      if r.filter.Some? { filter := r.filter.value; }
      if !r.dialed { return false; }
      epoch := epoch + 1;
      cur := Some(Capture(epoch, id, r.serverAddr, r.sink, filter));
      return true;
    }

    method Stop()
      modifies this`cur
      ensures View() == old(View()).(cur := None)
    {
      cur := None;
    }
  }

  class RelayConn {
    const target: Target
    var epoch: nat
    var declared: bool

    constructor (t: Target)
      ensures View() == Conn(t, 0, false)
    {
      target, epoch, declared := t, 0, false;
    }

    ghost function View(): Conn
      reads this
    {
      Conn(target, epoch, declared)
    }

    method Begin(snap: Option<Capture>) returns (sink: Option<nat>, sent: seq<Event>)
      modifies this`epoch, this`declared
      ensures View() == Begun(old(View()), snap) && sent == BeginEvents(old(View()), snap)
      ensures sink == if Admits(old(View()), snap) then Some(snap.value.sink) else None
    {
      sent := [];
      if snap.None? || !Allow(snap.value.filter, target) { return None, []; }
      if epoch != snap.value.epoch {
        epoch := snap.value.epoch;
        declared := false;
      }
      if !declared {
        declared := true;
        sent := [Event(snap.value.sink, snap.value.epoch, Open)];
      }
      return Some(snap.value.sink), sent;
    }

    method End(snap: Option<Capture>) returns (sent: seq<Event>)
      modifies this`declared
      ensures View() == Ended(old(View()), snap) && sent == EndEvents(old(View()), snap)
      ensures |sent| == (if snap.Some? && snap.value.epoch == epoch && old(declared) then 1 else 0)
      ensures declared <==> old(declared) && sent == []
    {
      if snap.None? || epoch != snap.value.epoch || !declared { return []; }
      declared := false;
      return [Event(snap.value.sink, epoch, Close)];
    }
  }

  // ---------- Runs: the gate, and per connection three beginners and one finisher ----------

  /** A goroutine of a connection: not yet, or with the gate's state loaded, or about to send data. */
  datatype Place = Idle | Loaded(snap: Option<Capture>) | Sending(cap: Capture) | Done

  /** The connection's own goroutine first begins; then come the two directions; then it ends. */
  datatype Places = Places(entry: Place, requests: Place, responses: Place, exit: Place)

  /** `log` is all the connection sent, `begins` the epochs of its admitted begins. */
  datatype Link = Link(conn: Conn, at: Places, log: seq<Event>, begins: seq<nat>)

  datatype Who = Entry | Requests | Responses | Exit

  datatype Act = Load(who: Who) | Begin(who: Who) | Push(who: Who) | Quit(who: Who) | Finish

  function At(p: Places, who: Who): Place {
    match who
    case Entry => p.entry
    case Requests => p.requests
    case Responses => p.responses
    case Exit => p.exit
  }

  function Put(p: Places, who: Who, x: Place): Places {
    match who
    case Entry => p.(entry := x)
    case Requests => p.(requests := x)
    case Responses => p.(responses := x)
    case Exit => p.(exit := x)
  }

  predicate Ready(p: Places, who: Who) {
    match who
    case Entry => true
    case Requests | Responses => p.entry.Done?
    case Exit => p.requests.Done? && p.responses.Done?
  }

  predicate CanAct(p: Places, a: Act) {
    match a
    case Load(who) => Ready(p, who) && At(p, who).Idle?
    case Begin(who) => who != Exit && At(p, who).Loaded?
    case Push(who) => At(p, who).Sending?
    case Quit(who) => (who.Requests? || who.Responses?) && Ready(p, who) && (At(p, who).Idle? || At(p, who).Sending?)
    case Finish => p.exit.Loaded?
  }

  /** Where the goroutines are after a step. */
  function Moved(c: Conn, p: Places, cur: Option<Capture>, a: Act): Places
    requires CanAct(p, a)
  {
    match a
    case Load(who) => Put(p, who, Loaded(cur))
    case Begin(who) =>
      var snap := At(p, who).snap;
      Put(p, who, if who.Entry? then Done else if Admits(c, snap) then Sending(snap.value) else Idle)
    case Push(who) => Put(p, who, Idle)
    case Quit(who) => Put(p, who, Done)
    case Finish => p.(exit := Done)
  }

  /** The events a step sends. */
  function Emitted(c: Conn, p: Places, a: Act): seq<Event>
    requires CanAct(p, a)
  {
    match a
    case Begin(who) => BeginEvents(c, At(p, who).snap)
    case Push(who) => [Event(At(p, who).cap.sink, At(p, who).cap.epoch, Data)]
    case Finish => EndEvents(c, p.exit.snap)
    case _ => []
  }

  function Acted(l: Link, cur: Option<Capture>, a: Act): Link
    requires CanAct(l.at, a)
  {
    var c, p := l.conn, l.at;
    Link(
      if a.Begin? then Begun(c, At(p, a.who).snap) else if a.Finish? then Ended(c, p.exit.snap) else c,
      Moved(c, p, cur, a),
      l.log + Emitted(c, p, a),
      if a.Begin? && Admits(c, At(p, a.who).snap) then l.begins + [At(p, a.who).snap.value.epoch] else l.begins)
  }

  datatype World = World(gate: Gate, fallback: Filter, made: seq<Capture>, links: seq<Link>)

  datatype Op = Start(req: StartRequest) | Stop | Accept(target: Target) | Do(link: nat, act: Act)

  function Init(fallback: Filter): World { World(Gate(0, None), fallback, [], []) }

  /** A push client is a new object: no earlier capture has the sink a Start brings. */
  ghost predicate Enabled(w: World, op: Op) {
    match op
    case Start(r) => forall i :: 0 <= i < |w.made| ==> w.made[i].sink != r.sink
    case Stop | Accept(_) => true
    case Do(i, a) => i < |w.links| && CanAct(w.links[i].at, a)
  }

  ghost function Step(w: World, op: Op): World
    requires Enabled(w, op)
  {
    match op
    case Start(r) =>
      w.(gate := Started(w.gate, r, w.fallback),
         made := if Opens(w.gate, r) then w.made + [NewCapture(w.gate, r, w.fallback)] else w.made)
    case Stop => w.(gate := w.gate.(cur := None))
    case Accept(t) => w.(links := w.links + [Link(Conn(t, 0, false), Places(Idle, Idle, Idle, Idle), [], [])])
    case Do(i, a) => w.(links := w.links[i := Acted(w.links[i], w.gate.cur, a)])
  }

  ghost predicate Legal(w: World, ops: seq<Op>)
    decreases |ops|
  {
    ops == [] || (Enabled(w, ops[0]) && Legal(Step(w, ops[0]), ops[1..]))
  }

  ghost function Run(w: World, ops: seq<Op>): World
    requires Legal(w, ops)
    decreases |ops|
  {
    if ops == [] then w else Run(Step(w, ops[0]), ops[1..])
  }

  // ---------- The invariant ----------

  ghost predicate Known(c: Capture, made: seq<Capture>) { 1 <= c.epoch <= |made| && made[c.epoch - 1] == c }

  ghost predicate Made(made: seq<Capture>) {
    && (forall i :: 0 <= i < |made| ==> made[i].epoch == i + 1)
    && (forall i, j :: 0 <= i < j < |made| ==> made[i].sink != made[j].sink)
  }

  ghost predicate GateInv(w: World) {
    Made(w.made) && w.gate.epoch == |w.made| && (w.gate.cur.Some? ==> Known(w.gate.cur.value, w.made))
  }

  ghost predicate PlaceKnown(p: Place, made: seq<Capture>) {
    && (p.Loaded? && p.snap.Some? ==> Known(p.snap.value, made))
    && (p.Sending? ==> Known(p.cap, made))
  }

  /** The event went to the sink of the capture whose epoch it carries. */
  ghost predicate Labelled(e: Event, made: seq<Capture>) {
    1 <= e.epoch <= |made| && made[e.epoch - 1].sink == e.sink
  }

  ghost predicate PlacesKnown(p: Places, made: seq<Capture>) {
    PlaceKnown(p.entry, made) && PlaceKnown(p.requests, made) && PlaceKnown(p.responses, made) && PlaceKnown(p.exit, made)
  }

  ghost predicate LogKnown(log: seq<Event>, made: seq<Capture>) {
    forall i :: 0 <= i < |log| ==> Labelled(log[i], made)
  }

  /** Data and close events come after an open to the same sink. */
  ghost predicate WellOpened(log: seq<Event>) {
    log == [] ||
    (var front, z := log[..|log| - 1], log[|log| - 1];
     WellOpened(front) && (z.kind.Open? || Event(z.sink, z.epoch, Open) in front))
  }

  ghost predicate PlaceOpened(p: Place, log: seq<Event>) {
    p.Sending? ==> Event(p.cap.sink, p.cap.epoch, Open) in log
  }

  /** Who is about to send has an open before it, and so has a declared connection. */
  ghost predicate Backed(c: Conn, p: Places, log: seq<Event>, made: seq<Capture>) {
    && PlaceOpened(p.requests, log) && PlaceOpened(p.responses, log)
    && (c.declared ==> 1 <= c.epoch <= |made| && Event(made[c.epoch - 1].sink, c.epoch, Open) in log)
  }

  ghost predicate CloseLast(log: seq<Event>) {
    forall i :: 0 <= i < |log| && log[i].kind.Close? ==> i == |log| - 1
  }

  ghost predicate NoClose(log: seq<Event>) {
    forall i :: 0 <= i < |log| ==> !log[i].kind.Close?
  }

  /** The order of the goroutines. */
  ghost predicate Phased(p: Places) {
    && !p.entry.Sending? && !p.exit.Sending?
    && (!p.entry.Done? ==> p.requests.Idle? && p.responses.Idle?)
    && (!p.exit.Idle? ==> p.requests.Done? && p.responses.Done?)
  }

  /** The close, if any, is the connection's last word. */
  ghost predicate Closing(p: Places, log: seq<Event>) {
    CloseLast(log) && (!p.exit.Done? ==> NoClose(log))
  }

  function OpensOf(log: seq<Event>, e: nat): nat {
    if log == [] then 0
    else OpensOf(log[..|log| - 1], e) + (if log[|log| - 1].kind.Open? && log[|log| - 1].epoch == e then 1 else 0)
  }

  /** How many separate stretches of `e` there are in `s`. */
  function Stretches(s: seq<nat>, e: nat): nat {
    if s == [] then 0
    else
      var front := s[..|s| - 1];
      Stretches(front, e) + (if s[|s| - 1] == e && (front == [] || front[|front| - 1] != e) then 1 else 0)
  }

  /** The epoch held is the last one begun. */
  ghost predicate Tracks(c: Conn, p: Places, begins: seq<nat>) {
    && (!p.exit.Done? ==> c.declared == (begins != []))
    && (begins != [] ==> c.epoch == begins[|begins| - 1])
  }

  ghost predicate Counted(log: seq<Event>, begins: seq<nat>) {
    forall e :: OpensOf(log, e) == Stretches(begins, e)
  }

  ghost predicate LinkInv(l: Link, made: seq<Capture>) {
    && PlacesKnown(l.at, made) && LogKnown(l.log, made)
    && WellOpened(l.log) && Backed(l.conn, l.at, l.log, made)
    && Phased(l.at) && Closing(l.at, l.log)
    && Tracks(l.conn, l.at, l.begins) && Counted(l.log, l.begins)
  }

  ghost predicate Inv(w: World) {
    GateInv(w) && (forall i :: 0 <= i < |w.links| ==> LinkInv(w.links[i], w.made))
  }

  // ---------- Preservation ----------

  lemma MovedKnown(c: Conn, p: Places, cur: Option<Capture>, a: Act, made: seq<Capture>)
    requires PlacesKnown(p, made) && CanAct(p, a) && (cur.Some? ==> Known(cur.value, made))
    ensures PlacesKnown(Moved(c, p, cur, a), made)
  {}

  lemma EmittedKnown(c: Conn, p: Places, a: Act, log: seq<Event>, made: seq<Capture>)
    requires PlacesKnown(p, made) && CanAct(p, a) && LogKnown(log, made)
    ensures LogKnown(log + Emitted(c, p, a), made) && |Emitted(c, p, a)| <= 1
  {}

  lemma OpenedSnoc(log: seq<Event>, e: Event)
    requires WellOpened(log) && (e.kind.Open? || Event(e.sink, e.epoch, Open) in log)
    ensures WellOpened(log + [e])
  {
    assert (log + [e])[..|log|] == log;
  }

  lemma EmittedOpened(c: Conn, p: Places, a: Act, log: seq<Event>, made: seq<Capture>)
    requires WellOpened(log) && Backed(c, p, log, made) && PlacesKnown(p, made) && Phased(p) && CanAct(p, a)
    ensures WellOpened(log + Emitted(c, p, a))
  {
    var more := Emitted(c, p, a);
    if more == [] {
      assert log + more == log;
    } else {
      assert more == [more[0]];
      OpenedSnoc(log, more[0]);
    }
  }

  /** A begin leaves the connection declared in the capture's epoch, with an open sent to its sink. */
  lemma BeginBacked(c: Conn, p: Places, who: Who, log: seq<Event>, made: seq<Capture>)
    requires Backed(c, p, log, made) && PlacesKnown(p, made) && CanAct(p, Begin(who))
    ensures var snap := At(p, who).snap;
            Backed(Begun(c, snap), Moved(c, p, None, Begin(who)), log + BeginEvents(c, snap), made)
  {
    var snap := At(p, who).snap;
    var more := BeginEvents(c, snap);
    var now := log + more;
    assert forall e :: e in log ==> e in now;
    if Admits(c, snap) {
      var e := Event(snap.value.sink, snap.value.epoch, Open);
      assert more != [] ==> e in more;
      assert e in now;
    }
  }

  lemma ActBacked(l: Link, cur: Option<Capture>, a: Act, made: seq<Capture>)
    requires Backed(l.conn, l.at, l.log, made) && PlacesKnown(l.at, made) && CanAct(l.at, a)
    ensures var m := Acted(l, cur, a); Backed(m.conn, m.at, m.log, made)
  {
    if a.Begin? {
      BeginBacked(l.conn, l.at, a.who, l.log, made);
    } else {
      var now := l.log + Emitted(l.conn, l.at, a);
      assert forall e :: e in l.log ==> e in now;
    }
  }

  lemma MovedPhased(c: Conn, p: Places, cur: Option<Capture>, a: Act)
    requires Phased(p) && CanAct(p, a)
    ensures Phased(Moved(c, p, cur, a))
  {}

  lemma ActClosing(c: Conn, p: Places, cur: Option<Capture>, a: Act, log: seq<Event>)
    requires Phased(p) && Closing(p, log) && CanAct(p, a)
    ensures Closing(Moved(c, p, cur, a), log + Emitted(c, p, a))
  {}

  lemma ActTracks(l: Link, cur: Option<Capture>, a: Act)
    requires Tracks(l.conn, l.at, l.begins) && Phased(l.at) && CanAct(l.at, a)
    ensures var m := Acted(l, cur, a); Tracks(m.conn, m.at, m.begins)
  {}

  lemma OpensSnoc(log: seq<Event>, x: Event, e: nat)
    ensures OpensOf(log + [x], e) == OpensOf(log, e) + (if x.kind.Open? && x.epoch == e then 1 else 0)
  {
    assert (log + [x])[..|log|] == log;
  }

  lemma StretchesSnoc(s: seq<nat>, x: nat, e: nat)
    ensures Stretches(s + [x], e) == Stretches(s, e) + (if x == e && (s == [] || s[|s| - 1] != e) then 1 else 0)
  {
    assert (s + [x])[..|s|] == s;
  }

  lemma BeginCounts(c: Conn, snap: Option<Capture>, log: seq<Event>, begins: seq<nat>, e: nat)
    requires OpensOf(log, e) == Stretches(begins, e) && c.declared == (begins != [])
    requires begins != [] ==> c.epoch == begins[|begins| - 1]
    ensures OpensOf(log + BeginEvents(c, snap), e)
            == Stretches(if Admits(c, snap) then begins + [snap.value.epoch] else begins, e)
  {
    var more := BeginEvents(c, snap);
    if Admits(c, snap) { StretchesSnoc(begins, snap.value.epoch, e); }
    if more == [] { assert log + more == log; } else { OpensSnoc(log, more[0], e); }
  }

  lemma ActCounts(l: Link, cur: Option<Capture>, a: Act, e: nat)
    requires OpensOf(l.log, e) == Stretches(l.begins, e) && Tracks(l.conn, l.at, l.begins) && Phased(l.at) && CanAct(l.at, a)
    ensures var m := Acted(l, cur, a); OpensOf(m.log, e) == Stretches(m.begins, e)
  {
    if a.Begin? {
      BeginCounts(l.conn, At(l.at, a.who).snap, l.log, l.begins, e);
    } else {
      var more := Emitted(l.conn, l.at, a);
      if more == [] { assert l.log + more == l.log; } else { OpensSnoc(l.log, more[0], e); }
    }
  }

  lemma ActKeeps(l: Link, cur: Option<Capture>, a: Act, made: seq<Capture>)
    requires LinkInv(l, made) && CanAct(l.at, a) && (cur.Some? ==> Known(cur.value, made))
    ensures LinkInv(Acted(l, cur, a), made)
  {
    MovedKnown(l.conn, l.at, cur, a, made);
    EmittedKnown(l.conn, l.at, a, l.log, made);
    EmittedOpened(l.conn, l.at, a, l.log, made);
    ActBacked(l, cur, a, made);
    MovedPhased(l.conn, l.at, cur, a);
    ActClosing(l.conn, l.at, cur, a, l.log);
    ActTracks(l, cur, a);
    forall e ensures OpensOf(Acted(l, cur, a).log, e) == Stretches(Acted(l, cur, a).begins, e) { ActCounts(l, cur, a, e); }
  }

  lemma LinkGrows(l: Link, made: seq<Capture>, c: Capture)
    requires LinkInv(l, made)
    ensures LinkInv(l, made + [c])
  {}

  lemma GateGrows(w: World, r: StartRequest)
    requires GateInv(w) && Enabled(w, Start(r)) && Opens(w.gate, r)
    ensures GateInv(Step(w, Start(r)))
  {}

  lemma StepKeeps(w: World, op: Op)
    requires Inv(w) && Enabled(w, op)
    ensures Inv(Step(w, op))
  {
    match op
    case Start(r) =>
      if Opens(w.gate, r) {
        GateGrows(w, r);
        var c := NewCapture(w.gate, r, w.fallback);
        forall i | 0 <= i < |w.links| ensures LinkInv(w.links[i], w.made + [c]) { LinkGrows(w.links[i], w.made, c); }
      }
    case Stop =>
    case Accept(t) => assert LinkInv(Link(Conn(t, 0, false), Places(Idle, Idle, Idle, Idle), [], []), w.made);
    case Do(i, a) => ActKeeps(w.links[i], w.gate.cur, a, w.made);
  }

  lemma {:induction false} RunKeeps(w: World, ops: seq<Op>)
    requires Inv(w) && Legal(w, ops)
    ensures Inv(Run(w, ops))
    decreases |ops|
  {
    if ops != [] {
      StepKeeps(w, ops[0]);
      RunKeeps(Step(w, ops[0]), ops[1..]);
    }
  }

  // ---------- What every sink receives ----------

  /** The events of one connection that went to one sink. */
  ghost function Received(log: seq<Event>, sink: nat): (r: seq<Event>)
    ensures forall e :: e in r <==> e in log && e.sink == sink
  {
    if log == [] then []
    else
      var front, z := log[..|log| - 1], log[|log| - 1];
      assert log == front + [z];
      if z.sink == sink then Received(front, sink) + [z] else Received(front, sink)
  }

  lemma {:induction false} FirstIsOpen(log: seq<Event>, sink: nat)
    requires WellOpened(log) && Received(log, sink) != []
    ensures Received(log, sink)[0].kind.Open?
  {
    var front, z := log[..|log| - 1], log[|log| - 1];
    if Received(front, sink) != [] {
      FirstIsOpen(front, sink);
    } else {
      assert forall e :: e in front ==> e.sink != sink;
    }
  }

  lemma {:induction false} CloseIsLast(log: seq<Event>, sink: nat)
    requires CloseLast(log)
    ensures CloseLast(Received(log, sink))
  {
    if log != [] {
      var front, z := log[..|log| - 1], log[|log| - 1];
      assert NoClose(front);
      var r := Received(front, sink);
      forall i | 0 <= i < |r| ensures !r[i].kind.Close? { assert r[i] in front; }
    }
  }

  /** Over every interleaving of gate switches and relay steps, stale snapshots included: a sink is sent
      only events labelled with its own epoch, and what it gets of one connection begins with an open and
      has at most one close, in last place. */
  lemma SinkLogsWellFormed(fallback: Filter, ops: seq<Op>, c: Capture, i: nat)
    requires Legal(Init(fallback), ops)
    requires var w := Run(Init(fallback), ops); c in w.made && i < |w.links|
    ensures var log := Received(Run(Init(fallback), ops).links[i].log, c.sink);
            && (forall k :: 0 <= k < |log| ==> log[k].epoch == c.epoch)
            && (log != [] ==> log[0].kind.Open?)
            && CloseLast(log)
  {
    RunKeeps(Init(fallback), ops);
    var w := Run(Init(fallback), ops);
    var l := w.links[i];
    var log := Received(l.log, c.sink);
    if log != [] { FirstIsOpen(l.log, c.sink); }
    CloseIsLast(l.log, c.sink);
    var n :| 0 <= n < |w.made| && w.made[n] == c;
    forall k | 0 <= k < |log| ensures log[k].epoch == c.epoch {
      assert log[k] in l.log;
      var j :| 0 <= j < |l.log| && l.log[j] == log[k];
      assert Labelled(l.log[j], w.made);
    }
  }

  ghost predicate Climbing(s: seq<nat>) { forall i, j :: 0 <= i < j < |s| ==> s[i] <= s[j] }

  lemma {:induction false} OneStretch(s: seq<nat>, e: nat)
    requires Climbing(s)
    ensures Stretches(s, e) == if e in s then 1 else 0
  {
    if s != [] {
      var front, z := s[..|s| - 1], s[|s| - 1];
      assert s == front + [z];
      OneStretch(front, e);
      if z == e && e in front {
        var k :| 0 <= k < |front| && front[k] == e;
        assert s[k] <= s[|front| - 1] <= s[|s| - 1];
      }
    }
  }

  /** A connection opens an epoch once for each separate stretch in which it entered it; entered in
      non-decreasing order, that is exactly once for every epoch entered. */
  lemma OpensPerStretch(fallback: Filter, ops: seq<Op>, i: nat, e: nat)
    requires Legal(Init(fallback), ops) && i < |Run(Init(fallback), ops).links|
    ensures var l := Run(Init(fallback), ops).links[i];
            && OpensOf(l.log, e) == Stretches(l.begins, e)
            && (Climbing(l.begins) ==> OpensOf(l.log, e) == if e in l.begins then 1 else 0)
  {
    RunKeeps(Init(fallback), ops);
    var l := Run(Init(fallback), ops).links[i];
    assert LinkInv(l, Run(Init(fallback), ops).made);
    if Climbing(l.begins) { OneStretch(l.begins, e); }
  }

  // ---------- The same told simply ----------

  /** A connection the filter lets through: no restriction, or a well-formed target whose host is among the
      hosts, if any are named, and whose port is among the ports, if any are named. */
  ghost predicate Reaches(f: Filter, t: Target) {
    (f.hosts == {} && f.ports == {})
    || (t.HostPort? && (f.hosts == {} || t.host in f.hosts) && (f.ports == {} || (t.port.Some? && t.port.value in f.ports)))
  }

  lemma AllowIsReaches(f: Filter, t: Target)
    ensures Allow(f, t) <==> Reaches(f, t)
  {}

  /** A connection by the operations alone: what each of its goroutines loaded last, the epochs it entered, and
      what it sent. */
  datatype Tale = Tale(target: Target, held: map<Who, Option<Capture>>, begins: seq<nat>, log: seq<Event>)

  datatype Story = Story(cur: Option<Capture>, made: seq<Capture>, tales: seq<Tale>)

  ghost predicate Entered(begins: seq<nat>, e: nat) { begins != [] && begins[|begins| - 1] == e }

  function HeldBy(t: Tale, who: Who): Option<Capture> { if who in t.held then t.held[who] else None }

  /**
   A begin under a capture that lets the target through enters its epoch, and sends an open unless the
   connection was in that epoch already; a push sends data under the capture loaded; the finish sends a close
   if the capture loaded is that of the epoch the connection is in.
   */
  ghost function Tell(t: Tale, cur: Option<Capture>, a: Act): Tale {
    match a
    case Load(who) => t.(held := t.held[who := cur])
    case Begin(who) =>
      (match HeldBy(t, who)
       case Some(c) =>
         if !Reaches(c.filter, t.target) then t
         else t.(begins := t.begins + [c.epoch],
                 log := t.log + (if Entered(t.begins, c.epoch) then [] else [Event(c.sink, c.epoch, Open)]))
       case None => t)
    case Push(who) =>
      (match HeldBy(t, who)
       case Some(c) => t.(log := t.log + [Event(c.sink, c.epoch, Data)])
       case None => t)
    case Finish =>
      (match HeldBy(t, Exit)
       case Some(c) => if Entered(t.begins, c.epoch) then t.(log := t.log + [Event(c.sink, c.epoch, Close)]) else t
       case None => t)
    case Quit(_) => t
  }

  /** A start with an address and a push client makes the next capture, unless the running one has its id and
      address. */
  ghost function TellAll(s: Story, fallback: Filter, op: Op): Story {
    match op
    case Start(r) =>
      var id := if Blank(r.captureId) then r.stamp else r.captureId;
      if Blank(r.serverAddr) || !r.dialed || (s.cur.Some? && s.cur.value.captureId == id && s.cur.value.serverAddr == r.serverAddr) then s
      else
        var c := Capture(|s.made| + 1, id, r.serverAddr, r.sink, if r.filter.Some? then r.filter.value else fallback);
        s.(cur := Some(c), made := s.made + [c])
    case Stop => s.(cur := None)
    case Accept(t) => s.(tales := s.tales + [Tale(t, map[], [], [])])
    case Do(i, a) => if i < |s.tales| then s.(tales := s.tales[i := Tell(s.tales[i], s.cur, a)]) else s
  }

  ghost function Told(s: Story, fallback: Filter, ops: seq<Op>): Story
    decreases |ops|
  {
    if ops == [] then s else Told(TellAll(s, fallback, ops[0]), fallback, ops[1..])
  }

  const BLANK := Story(None, [], [])

  /** The snapshot a goroutine has loaded or sends under is the one it loaded last. */
  ghost predicate Holds(p: Place, h: Option<Capture>) {
    (p.Loaded? ==> p.snap == h) && (p.Sending? ==> h == Some(p.cap))
  }

  ghost predicate LinkAsTold(l: Link, t: Tale) {
    && l.conn.target == t.target && l.log == t.log && l.begins == t.begins
    && forall who :: Holds(At(l.at, who), HeldBy(t, who))
  }

  ghost predicate AsTold(w: World, s: Story) {
    && w.gate.cur == s.cur && w.made == s.made && |w.links| == |s.tales|
    && forall i :: 0 <= i < |w.links| ==> LinkAsTold(w.links[i], s.tales[i])
  }

  lemma HeldStays(l: Link, t: Tale, cur: Option<Capture>, a: Act, who: Who)
    requires LinkAsTold(l, t) && CanAct(l.at, a)
    ensures Holds(At(Acted(l, cur, a).at, who), HeldBy(Tell(t, cur, a), who))
  {
    assert Holds(At(l.at, who), HeldBy(t, who));
    if a.Begin? { assert Holds(At(l.at, a.who), HeldBy(t, a.who)); }
  }

  lemma SentAsTold(l: Link, t: Tale, cur: Option<Capture>, a: Act, made: seq<Capture>)
    requires LinkInv(l, made) && LinkAsTold(l, t) && CanAct(l.at, a)
    ensures Acted(l, cur, a).log == Tell(t, cur, a).log && Acted(l, cur, a).begins == Tell(t, cur, a).begins
  {
    match a
    case Begin(who) =>
      assert Holds(At(l.at, who), HeldBy(t, who));
      var snap := At(l.at, who).snap;
      if snap.Some? { AllowIsReaches(snap.value.filter, t.target); }
    case Push(who) => assert Holds(At(l.at, who), HeldBy(t, who));
    case Finish => assert Holds(At(l.at, Exit), HeldBy(t, Exit));
    case _ =>
  }

  lemma ActAsTold(l: Link, t: Tale, cur: Option<Capture>, a: Act, made: seq<Capture>)
    requires LinkInv(l, made) && LinkAsTold(l, t) && CanAct(l.at, a)
    ensures LinkAsTold(Acted(l, cur, a), Tell(t, cur, a))
  {
    SentAsTold(l, t, cur, a, made);
    forall who ensures Holds(At(Acted(l, cur, a).at, who), HeldBy(Tell(t, cur, a), who)) { HeldStays(l, t, cur, a, who); }
  }

  lemma StepAsTold(w: World, s: Story, op: Op)
    requires Inv(w) && AsTold(w, s) && Enabled(w, op)
    ensures AsTold(Step(w, op), TellAll(s, w.fallback, op)) && Step(w, op).fallback == w.fallback
  {
    if op.Do? { ActAsTold(w.links[op.link], s.tales[op.link], w.gate.cur, op.act, w.made); }
  }

  lemma {:induction false} RunAsTold(w: World, s: Story, ops: seq<Op>)
    requires Inv(w) && AsTold(w, s) && Legal(w, ops)
    ensures AsTold(Run(w, ops), Told(s, w.fallback, ops))
    decreases |ops|
  {
    if ops != [] {
      StepKeeps(w, ops[0]);
      StepAsTold(w, s, ops[0]);
      RunAsTold(Step(w, ops[0]), TellAll(s, w.fallback, ops[0]), ops[1..]);
    }
  }

  /** In every run the captures made, the one running and what each connection sent are those the operations
      tell, without the epoch and the flag a connection keeps. */
  lemma SentExactly(fallback: Filter, ops: seq<Op>, i: nat)
    requires Legal(Init(fallback), ops)
    ensures var w, s := Run(Init(fallback), ops), Told(BLANK, fallback, ops);
            && w.gate.cur == s.cur && w.made == s.made && |w.links| == |s.tales|
            && (i < |w.links| ==> w.links[i].log == s.tales[i].log && w.links[i].begins == s.tales[i].begins)
  {
    RunAsTold(Init(fallback), BLANK, ops);
    assert i < |Run(Init(fallback), ops).links| ==> LinkAsTold(Run(Init(fallback), ops).links[i], Told(BLANK, fallback, ops).tales[i]);
  }

  ghost predicate Through(e: nat, t: Target, made: seq<Capture>) { 1 <= e <= |made| && Reaches(made[e - 1].filter, t) }

  ghost predicate SendsThrough(p: Place, t: Target, made: seq<Capture>) { p.Sending? ==> Through(p.cap.epoch, t, made) }

  /** What is sent under a capture, and the epoch a connection is in, are of a capture that lets it through. */
  ghost predicate Let(l: Link, made: seq<Capture>) {
    && (forall i :: 0 <= i < |l.log| ==> Through(l.log[i].epoch, l.conn.target, made))
    && (l.conn.declared ==> Through(l.conn.epoch, l.conn.target, made))
    && SendsThrough(l.at.requests, l.conn.target, made) && SendsThrough(l.at.responses, l.conn.target, made)
  }

  lemma BeginLets(l: Link, cur: Option<Capture>, who: Who, made: seq<Capture>)
    requires PlacesKnown(l.at, made) && Let(l, made) && CanAct(l.at, Begin(who))
    ensures Let(Acted(l, cur, Begin(who)), made)
  {
    var snap := At(l.at, who).snap;
    if snap.Some? {
      AllowIsReaches(snap.value.filter, l.conn.target);
      assert Admits(l.conn, snap) ==> Through(snap.value.epoch, l.conn.target, made);
    }
  }

  lemma OtherLets(l: Link, cur: Option<Capture>, a: Act, made: seq<Capture>)
    requires Let(l, made) && Phased(l.at) && CanAct(l.at, a) && !a.Begin?
    ensures Let(Acted(l, cur, a), made)
  {}

  lemma LetGrows(l: Link, made: seq<Capture>, more: seq<Capture>)
    requires Let(l, made) && made <= more
    ensures Let(l, more)
  {}

  lemma StepLets(w: World, op: Op, i: nat)
    requires Inv(w) && Enabled(w, op) && i < |Step(w, op).links| && (i < |w.links| ==> Let(w.links[i], w.made))
    ensures Let(Step(w, op).links[i], Step(w, op).made)
  {
    if i < |w.links| { assert LinkInv(w.links[i], w.made); }
    if op.Do? && op.link == i {
      if op.act.Begin? { BeginLets(w.links[i], w.gate.cur, op.act.who, w.made); } else { OtherLets(w.links[i], w.gate.cur, op.act, w.made); }
    } else if i < |w.links| {
      LetGrows(w.links[i], w.made, Step(w, op).made);
    }
  }

  ghost predicate AllLet(w: World) { forall i :: 0 <= i < |w.links| ==> Let(w.links[i], w.made) }

  lemma {:induction false} RunLets(w: World, ops: seq<Op>)
    requires Inv(w) && Legal(w, ops) && AllLet(w)
    ensures AllLet(Run(w, ops))
    decreases |ops|
  {
    if ops != [] {
      StepKeeps(w, ops[0]);
      forall i | 0 <= i < |Step(w, ops[0]).links| ensures Let(Step(w, ops[0]).links[i], Step(w, ops[0]).made) { StepLets(w, ops[0], i); }
      RunLets(Step(w, ops[0]), ops[1..]);
    }
  }

  /** No sink ever hears of a connection its capture's filter does not let through. */
  lemma OnlyAdmittedSent(fallback: Filter, ops: seq<Op>, i: nat, e: Event)
    requires Legal(Init(fallback), ops)
    requires var w := Run(Init(fallback), ops); i < |w.links| && e in w.links[i].log
    ensures var w := Run(Init(fallback), ops);
            1 <= e.epoch <= |w.made| && w.made[e.epoch - 1].sink == e.sink && Reaches(w.made[e.epoch - 1].filter, w.links[i].conn.target)
  {
    RunLets(Init(fallback), ops);
    RunKeeps(Init(fallback), ops);
    var w := Run(Init(fallback), ops);
    assert LinkInv(w.links[i], w.made) && Let(w.links[i], w.made);
    var j :| 0 <= j < |w.links[i].log| && w.links[i].log[j] == e;
    assert Labelled(w.links[i].log[j], w.made);
  }

  /** Closed is closed: after an end that sent a close, no end sends another. */
  lemma EndsOnce(c: Conn, snap: Option<Capture>, again: Option<Capture>)
    requires EndEvents(c, snap) != []
    ensures EndEvents(Ended(c, snap), again) == [] && Ended(c, snap) == Conn(c.target, c.epoch, false)
  {}

  /** When both directions are done the connection's goroutine takes the running capture and finishes under it. */
  lemma FinishFollows(l: Link, cur: Option<Capture>)
    requires l.at.requests.Done? && l.at.responses.Done? && l.at.exit.Idle?
    ensures CanAct(l.at, Load(Exit))
    ensures var m := Acted(l, cur, Load(Exit)); CanAct(m.at, Finish) && m.at.exit == Loaded(cur) && Acted(m, cur, Finish).at.exit.Done?
  {}

  // ---------- Order matters: a stale snapshot declares the connection again ----------

  const ALL := Filter({}, {})
  const CONN := Conn(Malformed, 0, false)
  const OLD := Capture(1, "a", "x", 0, ALL)
  const NEW := Capture(2, "b", "x", 1, ALL)

  ghost predicate Reachable(w: World) { exists ops :: Legal(Init(ALL), ops) && Run(Init(ALL), ops) == w }

  lemma {:induction false} RunSnoc(w: World, ops: seq<Op>, op: Op)
    requires Legal(w, ops) && Enabled(Run(w, ops), op)
    ensures Legal(w, ops + [op]) && Run(w, ops + [op]) == Step(Run(w, ops), op)
    decreases |ops|
  {
    if ops == [] {
      assert (ops + [op])[1..] == [];
    } else {
      RunSnoc(Step(w, ops[0]), ops[1..], op);
      assert (ops + [op])[1..] == ops[1..] + [op];
    }
  }

  lemma Steps(w: World, op: Op)
    requires Reachable(w) && Enabled(w, op)
    ensures Reachable(Step(w, op))
  {
    var ops :| Legal(Init(ALL), ops) && Run(Init(ALL), ops) == w;
    RunSnoc(Init(ALL), ops, op);
  }

  /** A step of the one connection, the gate standing as it is. */
  lemma Acts(w: World, a: Act, l: Link)
    requires Reachable(w) && |w.links| == 1 && CanAct(w.links[0].at, a) && Acted(w.links[0], w.gate.cur, a) == l
    ensures Reachable(w.(links := [l]))
  {
    Steps(w, Do(0, a));
  }

  lemma Texts()
    ensures !Blank("a") && !Blank("b") && !Blank("x") && "a" != "b"
  {
    assert "a"[0] == 'a' && "b"[0] == 'b' && "x"[0] == 'x';
  }

  const IDLE := Link(CONN, Places(Idle, Idle, Idle, Idle), [], [])

  lemma Accepted()
    ensures Reachable(World(Gate(1, Some(OLD)), ALL, [OLD], [IDLE]))
  {
    Texts();
    assert Legal(Init(ALL), []) && Run(Init(ALL), []) == Init(ALL);
    Steps(Init(ALL), Start(StartRequest("a", "x", "", None, 0, true)));
    Steps(World(Gate(1, Some(OLD)), ALL, [OLD], []), Accept(Malformed));
  }

  /** The connection has declared itself under the old capture and a direction is about to do so again. */
  lemma OldLoaded()
    ensures Reachable(World(Gate(1, Some(OLD)), ALL, [OLD],
                            [Link(Conn(Malformed, 1, true), Places(Done, Loaded(Some(OLD)), Idle, Idle), [Event(0, 1, Open)], [1])]))
  {
    Accepted();
    var w := World(Gate(1, Some(OLD)), ALL, [OLD], [IDLE]);
    var l1 := IDLE.(at := Places(Loaded(Some(OLD)), Idle, Idle, Idle));
    Acts(w, Load(Entry), l1);
    var l2 := Link(Conn(Malformed, 1, true), Places(Done, Idle, Idle, Idle), [Event(0, 1, Open)], [1]);
    Acts(w.(links := [l1]), Begin(Entry), l2);
    Acts(w.(links := [l2]), Load(Requests), l2.(at := Places(Done, Loaded(Some(OLD)), Idle, Idle)));
  }

  /** The gate has moved on to the new capture and the other direction has entered it. */
  lemma NewEntered()
    ensures Reachable(World(Gate(2, Some(NEW)), ALL, [OLD, NEW],
                            [Link(Conn(Malformed, 2, true), Places(Done, Loaded(Some(OLD)), Sending(NEW), Idle),
                                  [Event(0, 1, Open), Event(1, 2, Open)], [1, 2])]))
  {
    OldLoaded();
    Texts();
    var l3 := Link(Conn(Malformed, 1, true), Places(Done, Loaded(Some(OLD)), Idle, Idle), [Event(0, 1, Open)], [1]);
    Steps(World(Gate(1, Some(OLD)), ALL, [OLD], [l3]), Start(StartRequest("b", "x", "", None, 1, true)));
    var v := World(Gate(2, Some(NEW)), ALL, [OLD, NEW], [l3]);
    var l4 := l3.(at := l3.at.(responses := Loaded(Some(NEW))));
    Acts(v, Load(Responses), l4);
    var l5 := l4.(conn := Conn(Malformed, 2, true), at := l4.at.(responses := Sending(NEW)),
                  log := [Event(0, 1, Open), Event(1, 2, Open)], begins := [1, 2]);
    Acts(v.(links := [l4]), Begin(Responses), l5);
  }

  const TWICE := [Event(0, 1, Open), Event(1, 2, Open), Event(0, 1, Open)]

  /** The direction with the old snapshot begins. */
  lemma OldActs() returns (w: World)
    ensures Reachable(w) && |w.links| == 1 && w.links[0].log == TWICE
  {
    NewEntered();
    var log := [Event(0, 1, Open), Event(1, 2, Open)];
    var l5 := Link(Conn(Malformed, 2, true), Places(Done, Loaded(Some(OLD)), Sending(NEW), Idle), log, [1, 2]);
    var l6 := Link(Conn(Malformed, 1, true), Places(Done, Sending(OLD), Sending(NEW), Idle), TWICE, [1, 2, 1]);
    var v := World(Gate(2, Some(NEW)), ALL, [OLD, NEW], [l5]);
    Acts(v, Begin(Requests), l6);
    w := v.(links := [l6]);
  }

  lemma TwiceOpened()
    ensures OpensOf(TWICE, 1) == 2
  {
    var o1, o2 := Event(0, 1, Open), Event(1, 2, Open);
    OpensSnoc([], o1, 1);
    OpensSnoc([o1], o2, 1);
    OpensSnoc([o1, o2], o1, 1);
    assert [] + [o1] == [o1] && [o1] + [o2] == [o1, o2] && [o1, o2] + [o1] == TWICE;
  }

  /** One direction holds the old capture's snapshot while the other enters the new capture: when it acts,
      the old sink gets a second open for the same connection. */
  lemma StaleSnapshotReopens()
    ensures exists w :: Reachable(w) && |w.links| == 1 && OpensOf(w.links[0].log, 1) == 2
  {
    var w := OldActs();
    TwiceOpened();
  }
}
