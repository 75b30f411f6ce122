/**
 Every run of the registry: registrations, Connect streams, disconnects, heartbeats, deregistrations,
 reaping and Close in any order, with sessions dying at any moment.
 */
module RegistryRuns {
  import opened Util
  import opened PluginRegistry

  import opened Lanes

  /**
   The registry with its history per owner. `dead` are the closed sessions, `seen` the sessions that
   ever connected and for whom, `used` the instance numbers already handed out.
   */
  datatype World = World(
    reg: Registry, dead: set<Client>, seen: map<Client, string>, used: set<nat>, hist: map<string, History>)

  const INIT := World(EMPTY, {}, map[], {}, map[])

  datatype Op =
    | OpRegister(id: InstanceId, plugin: Plugin, now: int)
    | OpConnect(owner: string, client: Client, now: int)
    | OpSessionDies(client: Client)
    | OpDisconnected(owner: string)
    | OpHeartbeat(id: InstanceId, now: int)
    | OpDeregister(id: InstanceId)
    | OpCheckOffline(now: int, timeout: int)
    | OpClose

  /** What validation and the callers give: slash-free names, a fresh instance number, a new live session. */
  ghost predicate Enabled(w: World, op: Op) {
    match op
    case OpRegister(id, p, now) =>
      && Clean(p.name) && id.name == p.name && id.n !in w.used
      && p == NewPlugin(p.owner, p.name, p.protocol, p.hints, p.tunnel, id.n, now)
    case OpConnect(owner, c, _) => c.Tunnel? && c !in w.seen && c !in w.dead
    case _ => true
  }

  ghost function Hist(w: World, owner: string): History {
    if owner in w.hist then w.hist[owner] else NO_HISTORY
  }

  /** Enter the binding an operation reported, if it reported one, in the owner's history. */
  ghost function Record(h: History, r: Registry, bound: Option<InstanceId>): History {
    if bound.Some? && bound.value in r.plugins && r.plugins[bound.value].client.Some?
    then Pair(h, bound.value, r.plugins[bound.value].client.value)
    else h
  }

  ghost function StepRegister(w: World, id: InstanceId, p: Plugin, now: int): World {
    var (r, b) := Register(w.reg, id, p, w.dead, now);
    var h := Hist(w, p.owner);
    w.(reg := r, used := w.used + {id.n},
       hist := if w.reg.closed || !p.tunnel then w.hist
               else w.hist[p.owner := Record(h.(regs := h.regs + [id]), r, b)])
  }

  ghost function StepConnect(w: World, owner: string, c: Client, now: int): World {
    var (r, b) := Connect(w.reg, owner, c, w.dead, now);
    var h := Hist(w, owner);
    w.(reg := r, seen := w.seen[c := owner],
       hist := if w.reg.closed then w.hist else w.hist[owner := Record(h.(conns := h.conns + [c]), r, b)])
  }

  ghost function Step(w: World, op: Op): World {
    match op
    case OpRegister(id, p, now) => StepRegister(w, id, p, now)
    case OpConnect(owner, c, now) => StepConnect(w, owner, c, now)
    case OpSessionDies(c) => w.(dead := w.dead + {c})
    case OpDisconnected(owner) => w.(reg := Disconnected(w.reg, owner, w.dead))
    case OpHeartbeat(id, now) => w.(reg := Heartbeat(w.reg, id, now))
    case OpDeregister(id) => w.(reg := Deregister(w.reg, id))
    case OpCheckOffline(now, timeout) => w.(reg := CheckOffline(w.reg, w.dead, now, timeout))
    case OpClose => w.(reg := Close(w.reg))
  }

  ghost predicate Legal(w: World, ops: seq<Op>)
    decreases |ops|
  {
    ops == [] || (Enabled(w, ops[0]) && Legal(Step(w, ops[0]), ops[1..]))
  }

  ghost function Run(w: World, ops: seq<Op>): World
    decreases |ops|
  {
    if ops == [] then w else Run(Step(w, ops[0]), ops[1..])
  }

  // ---------- The invariant ----------

  /** `byName` and `plugins` are inverse to each other. */
  ghost predicate Inverse(r: Registry) {
    && (forall id :: id in r.plugins ==> KeyOf(r.plugins[id]) in r.byName && r.byName[KeyOf(r.plugins[id])] == id)
    && (forall k :: k in r.byName ==> r.byName[k] in r.plugins && KeyOf(r.plugins[r.byName[k]]) == k)
  }

  ghost predicate Waiting(r: Registry, owner: string, id: InstanceId) {
    id in r.plugins && r.plugins[id].owner == owner && r.plugins[id].tunnel && r.plugins[id].client.None?
  }

  /** The awaiting queue of `o` lists exactly the owner's unbound tunnel instances. */
  ghost predicate Listed(r: Registry, o: string) {
    forall id :: id in Queue(r.awaiting, o) <==> Waiting(r, o, id)
  }

  ghost predicate PluginOk(w: World, id: InstanceId, p: Plugin) {
    && id.name == p.name && id.n in w.used && Clean(p.name)
    && (!p.tunnel ==> p.client.Some? && p.client.value.Dialed?)
    && (p.tunnel && p.client.None? ==> !p.online)
    && (p.tunnel && p.client.Some? ==> BoundTo(Hist(w, p.owner), id, p.client.value))
  }

  ghost predicate PluginsOk(w: World) {
    forall id :: id in w.reg.plugins ==> PluginOk(w, id, w.reg.plugins[id])
  }

  /** Some binding of the history gave this instance this client. */
  ghost predicate BoundTo(h: History, id: InstanceId, c: Client) {
    exists b :: b in h.bound && b.reg < |h.regs| && b.conn < |h.conns| && h.regs[b.reg] == id && h.conns[b.conn] == c
  }

  ghost function LaneOf(w: World, o: string): Lane {
    Lane(Queue(w.reg.awaiting, o), Queue(w.reg.pending, o), Hist(w, o))
  }

  ghost predicate Fresh(w: World, o: string) {
    && (forall id :: id in Hist(w, o).regs ==> id.n in w.used)
    && (forall c :: c in Hist(w, o).conns ==> c in w.seen && w.seen[c] == o)
  }

  ghost predicate OwnerOk(w: World, o: string) { LaneInv(LaneOf(w, o)) && Listed(w.reg, o) && Fresh(w, o) }

  ghost predicate Inv(w: World) {
    && Inverse(w.reg)
    && PluginsOk(w)
    && (forall o :: OwnerOk(w, o))
    && (w.reg.closed ==> w.reg == Close(w.reg))
  }

  // ---------- Preservation ----------

  /** Nothing an operation does to one owner disturbs the others. */
  lemma OwnerFrame(w: World, w': World, o: string)
    requires OwnerOk(w, o) && LaneOf(w', o) == LaneOf(w, o) && w.used <= w'.used
    requires forall c :: c in w.seen ==> c in w'.seen && w'.seen[c] == w.seen[c]
    requires forall id :: Waiting(w.reg, o, id) <==> Waiting(w'.reg, o, id)
    ensures OwnerOk(w', o)
  {}

  lemma RemoveAwaitingLane(r: Registry, owner: string, id: InstanceId, o: string)
    requires Distinct(Queue(r.awaiting, owner))
    ensures Queue(RemoveAwaiting(r, owner, id).awaiting, o)
            == if o == owner then Without(Queue(r.awaiting, o), {id}) else Queue(r.awaiting, o)
  {
    if id in Queue(r.awaiting, owner) {
      RemoveFirstIsWithout(r.awaiting[owner], id);
    } else {
      WithoutAbsent(Queue(r.awaiting, owner), {id});
    }
  }

  lemma AwaitingDistinct(w: World, o: string)
    requires OwnerOk(w, o)
    ensures Distinct(Queue(w.reg.awaiting, o))
  {
    OrderedDistinct(Queue(w.reg.awaiting, o), Hist(w, o).regs, FreshReg(Hist(w, o)));
  }

  lemma HeartbeatInverse(r: Registry, id: InstanceId, now: int)
    requires Inverse(r)
    ensures Inverse(Heartbeat(r, id, now))
  {}

  lemma HeartbeatPlugins(w: World, id: InstanceId, now: int)
    requires PluginsOk(w)
    ensures PluginsOk(Step(w, OpHeartbeat(id, now)))
  {}

  lemma HeartbeatOwner(w: World, id: InstanceId, now: int, o: string)
    requires OwnerOk(w, o)
    ensures OwnerOk(Step(w, OpHeartbeat(id, now)), o)
  {
    OwnerFrame(w, Step(w, OpHeartbeat(id, now)), o);
  }

  lemma DeregisterInverse(r: Registry, id: InstanceId)
    requires Inverse(r)
    ensures Inverse(Deregister(r, id))
  {}

  lemma DeregisterPlugins(w: World, id: InstanceId)
    requires PluginsOk(w)
    ensures PluginsOk(Step(w, OpDeregister(id)))
  {}

  lemma DeregisterAwaiting(r: Registry, id: InstanceId, o: string)
    requires Listed(r, o) && Distinct(Queue(r.awaiting, o))
    ensures Queue(Deregister(r, id).awaiting, o) == Without(Queue(r.awaiting, o), {id})
  {
    if id in r.plugins && r.plugins[id].owner == o {
      var p := r.plugins[id];
      RemoveAwaitingLane(r.(plugins := r.plugins - {id}, byName := r.byName - {KeyOf(p)}), o, id, o);
    } else {
      assert !Waiting(r, o, id);
      WithoutAbsent(Queue(r.awaiting, o), {id});
    }
  }

  lemma DeregisterListed(r: Registry, id: InstanceId, o: string)
    requires Listed(r, o) && Queue(Deregister(r, id).awaiting, o) == Without(Queue(r.awaiting, o), {id})
    ensures Listed(Deregister(r, id), o)
  {}

  lemma DeregisterOwner(w: World, id: InstanceId, o: string)
    requires OwnerOk(w, o)
    ensures OwnerOk(Step(w, OpDeregister(id)), o)
  {
    AwaitingDistinct(w, o);
    DeregisterAwaiting(w.reg, id, o);
    DeregisterListed(w.reg, id, o);
    DropKeeps(LaneOf(w, o), {id});
    assert LaneOf(Step(w, OpDeregister(id)), o) == Drop(LaneOf(w, o), {id});
  }

  lemma DisconnectedInverse(r: Registry, owner: string, dead: set<Client>)
    requires Inverse(r)
    ensures Inverse(Disconnected(r, owner, dead))
  {}

  lemma DisconnectedPlugins(w: World, owner: string)
    requires PluginsOk(w)
    ensures PluginsOk(Step(w, OpDisconnected(owner)))
  {}

  lemma DisconnectedOwner(w: World, owner: string, o: string)
    requires OwnerOk(w, o)
    ensures OwnerOk(Step(w, OpDisconnected(owner)), o)
  {
    var w' := Step(w, OpDisconnected(owner));
    if o == owner && !w.reg.closed {
      PruneKeeps(LaneOf(w, o), w.dead);
      assert LaneOf(w', o) == Prune(LaneOf(w, o), w.dead);
    } else {
      OwnerFrame(w, w', o);
    }
  }

  lemma CheckOfflineInverse(r: Registry, dead: set<Client>, now: int, timeout: int)
    requires Inverse(r)
    ensures Inverse(CheckOffline(r, dead, now, timeout))
  {}

  lemma CheckOfflinePlugins(w: World, now: int, timeout: int)
    requires PluginsOk(w)
    ensures PluginsOk(Step(w, OpCheckOffline(now, timeout)))
  {}

  lemma CheckOfflineOwner(w: World, now: int, timeout: int, o: string)
    requires OwnerOk(w, o)
    ensures OwnerOk(Step(w, OpCheckOffline(now, timeout)), o)
  {
    var w' := Step(w, OpCheckOffline(now, timeout));
    var out := set id | id in StaleIds(w.reg, now, timeout) && w.reg.plugins[id].owner == o;
    DropKeeps(LaneOf(w, o), out);
    assert LaneOf(w', o) == Drop(LaneOf(w, o), out);
  }

  lemma CloseOwner(w: World, o: string)
    requires OwnerOk(w, o)
    ensures OwnerOk(Step(w, OpClose), o)
  {}

  lemma BoundToGrows(h: History, h': History, id: InstanceId, c: Client)
    requires BoundTo(h, id, c) && h.regs <= h'.regs && h.conns <= h'.conns && h.bound <= h'.bound
    ensures BoundTo(h', id, c)
  {
    var b :| b in h.bound && b.reg < |h.regs| && b.conn < |h.conns| && h.regs[b.reg] == id && h.conns[b.conn] == c;
    assert b in h'.bound && h'.regs[b.reg] == id && h'.conns[b.conn] == c;
  }

  lemma PairBinds(h: History, id: InstanceId, c: Client)
    requires id in h.regs && c in h.conns
    ensures BoundTo(Pair(h, id, c), id, c)
  {
    assert Binding(IndexOf(h.regs, id), IndexOf(h.conns, c)) in Pair(h, id, c).bound;
  }

  /** Under the invariant a client goes to the front of the awaiting queue. */
  lemma BindClientFront(r: Registry, owner: string, c: Client, now: int)
    requires Listed(r, owner)
    ensures var q := Queue(r.awaiting, owner);
            var (r', b) := BindClient(r, owner, c, now);
            if q == [] then
              b == None && r' == r.(awaiting := r.awaiting[owner := []])
            else
              && b == Some(q[0]) && Waiting(r, owner, q[0])
              && r' == r.(awaiting := r.awaiting[owner := q[1..]],
                          plugins := r.plugins[q[0] := r.plugins[q[0]].(client := Some(c), beat := now, online := true)])
  {
    var q := Queue(r.awaiting, owner);
    if q != [] {
      assert q[0] in q;
      assert Waiting(r, owner, q[0]);
    }
  }

  lemma ConnectInverse(r: Registry, owner: string, c: Client, dead: set<Client>, now: int)
    requires Inverse(r) && Listed(r, owner)
    ensures Inverse(Connect(r, owner, c, dead, now).0)
  {
    BindClientFront(r, owner, c, now);
  }

  lemma ConnectLane(w: World, owner: string, c: Client, now: int)
    requires OwnerOk(w, owner) && !w.reg.closed && c !in w.seen
    ensures var w' := StepConnect(w, owner, c, now);
            LaneOf(w', owner) == Attach(LaneOf(w, owner), c, w.dead) && LaneInv(LaneOf(w', owner))
  {
    BindClientFront(w.reg, owner, c, now);
    AttachKeeps(LaneOf(w, owner), c, w.dead);
  }

  lemma ConnectListed(r: Registry, owner: string, c: Client, dead: set<Client>, now: int)
    requires Listed(r, owner) && Distinct(Queue(r.awaiting, owner)) && !r.closed
    ensures Listed(Connect(r, owner, c, dead, now).0, owner)
  {
    var q := Queue(r.awaiting, owner);
    BindClientFront(r, owner, c, now);
    if q != [] { DistinctTail(q); }
  }

  lemma ConnectOwner(w: World, owner: string, c: Client, now: int)
    requires OwnerOk(w, owner) && c !in w.seen
    ensures OwnerOk(StepConnect(w, owner, c, now), owner)
  {
    if w.reg.closed {
      OwnerFrame(w, StepConnect(w, owner, c, now), owner);
    } else {
      ConnectLane(w, owner, c, now);
      AwaitingDistinct(w, owner);
      ConnectListed(w.reg, owner, c, w.dead, now);
      ConnectFresh(w, owner, c, now);
    }
  }

  lemma ConnectFresh(w: World, owner: string, c: Client, now: int)
    requires Fresh(w, owner) && c !in w.seen
    ensures Fresh(StepConnect(w, owner, c, now), owner)
  {}

  lemma ConnectOther(w: World, owner: string, c: Client, now: int, o: string)
    requires Listed(w.reg, owner) && OwnerOk(w, o) && o != owner && c !in w.seen
    ensures OwnerOk(StepConnect(w, owner, c, now), o)
  {
    BindClientFront(w.reg, owner, c, now);
    OwnerFrame(w, StepConnect(w, owner, c, now), o);
  }

  lemma ConnectPlugin(w: World, owner: string, c: Client, now: int, id: InstanceId)
    requires PluginsOk(w) && OwnerOk(w, owner) && c.Tunnel? && id in StepConnect(w, owner, c, now).reg.plugins
    ensures var w' := StepConnect(w, owner, c, now); PluginOk(w', id, w'.reg.plugins[id])
  {
    var w' := StepConnect(w, owner, c, now);
    BindClientFront(w.reg, owner, c, now);
    var q, h, p := Queue(w.reg.awaiting, owner), Hist(w, owner), w'.reg.plugins[id];
    assert PluginOk(w, id, w.reg.plugins[id]);
    if !w.reg.closed && q != [] && id == q[0] {
      OrderedMember(q, h.regs, FreshReg(h));
      PairBinds(h.(conns := h.conns + [c]), id, c);
    } else if p.tunnel && p.client.Some? && p.owner == owner {
      BoundToGrows(h, Hist(w', owner), id, p.client.value);
    }
  }

  lemma ConnectPlugins(w: World, owner: string, c: Client, now: int)
    requires PluginsOk(w) && OwnerOk(w, owner) && c.Tunnel?
    ensures PluginsOk(StepConnect(w, owner, c, now))
  {
    var w' := StepConnect(w, owner, c, now);
    forall id | id in w'.reg.plugins ensures PluginOk(w', id, w'.reg.plugins[id]) { ConnectPlugin(w, owner, c, now, id); }
  }

  // Registration: the old instance of the same key leaves, the new one enters, a pending client may bind.

  /** The instance the new registration replaces, if any. */
  ghost function Replaced(r: Registry, p: Plugin): set<InstanceId> {
    if KeyOf(p) in r.byName && r.byName[KeyOf(p)] in r.plugins then {r.byName[KeyOf(p)]} else {}
  }

  /** The registry just before BindNext: the new tunnel instance is in the table and at the end of the queue. */
  ghost function Enrolled(r: Registry, id: InstanceId, p: Plugin): Registry {
    var r1 := Enter(r, id, p);
    r1.(awaiting := r1.awaiting[p.owner := Queue(r1.awaiting, p.owner) + [id]])
  }

  lemma EnterShape(r: Registry, id: InstanceId, p: Plugin, o: string)
    requires Distinct(Queue(r.awaiting, p.owner))
    ensures var r1 := Enter(r, id, p);
            && r1.plugins == (r.plugins - Replaced(r, p))[id := p]
            && r1.byName == r.byName[KeyOf(p) := id]
            && r1.pending == r.pending && r1.closed == r.closed
            && Queue(r1.awaiting, o)
               == if o == p.owner then Without(Queue(r.awaiting, o), Replaced(r, p)) else Queue(r.awaiting, o)
  {
    if Replaced(r, p) == {} {
      WithoutNothing(Queue(r.awaiting, o));
    } else {
      var prior := r.byName[KeyOf(p)];
      RemoveAwaitingLane(r.(plugins := r.plugins - {prior}), p.owner, prior, o);
    }
  }

  /** A slash-free name leaves one owner to the key, so the replaced instance is the same owner's. */
  lemma ReplacedOwner(w: World, p: Plugin)
    requires Inverse(w.reg) && PluginsOk(w) && Clean(p.name)
    ensures forall prior :: prior in Replaced(w.reg, p) ==> prior in w.reg.plugins && w.reg.plugins[prior].owner == p.owner
  {
    if KeyOf(p) in w.reg.byName {
      var prior := w.reg.byName[KeyOf(p)];
      var q := w.reg.plugins[prior];
      assert PluginOk(w, prior, q);
      PluginKeyInjective(q.owner, q.name, p.owner, p.name);
    }
  }

  lemma EnterInverse(r: Registry, id: InstanceId, p: Plugin)
    requires Inverse(r) && id !in r.plugins && Distinct(Queue(r.awaiting, p.owner))
    ensures Inverse(Enter(r, id, p))
  {
    EnterShape(r, id, p, p.owner);
  }

  lemma EnrolledListed(r: Registry, id: InstanceId, p: Plugin, o: string)
    requires Listed(r, o) && Distinct(Queue(r.awaiting, p.owner)) && id !in r.plugins
    requires p.tunnel && p.client.None?
    requires forall x :: x in Replaced(r, p) ==> r.plugins[x].owner == p.owner
    ensures Listed(Enrolled(r, id, p), o)
  {
    EnterShape(r, id, p, o);
  }

  lemma RegisterLane(w: World, id: InstanceId, p: Plugin, now: int)
    requires OwnerOk(w, p.owner) && !w.reg.closed && id.n !in w.used && id !in w.reg.plugins
    requires p.tunnel && p.client.None?
    requires forall x :: x in Replaced(w.reg, p) ==> w.reg.plugins[x].owner == p.owner
    ensures var w' := StepRegister(w, id, p, now);
            LaneOf(w', p.owner) == Admit(Drop(LaneOf(w, p.owner), Replaced(w.reg, p)), id, w.dead)
  {
    AwaitingDistinct(w, p.owner);
    EnterShape(w.reg, id, p, p.owner);
    EnrolledListed(w.reg, id, p, p.owner);
    var r2 := Enrolled(w.reg, id, p);
    var live := Without(Queue(r2.pending, p.owner), w.dead);
    var r3 := r2.(pending := r2.pending[p.owner := live]);
    assert Listed(r3, p.owner);
    if live != [] { BindClientFront(r3, p.owner, live[0], now); }
  }

  lemma AdmittedLane(w: World, id: InstanceId, p: Plugin)
    requires OwnerOk(w, p.owner) && id.n !in w.used
    ensures LaneInv(Admit(Drop(LaneOf(w, p.owner), Replaced(w.reg, p)), id, w.dead))
  {
    DropKeeps(LaneOf(w, p.owner), Replaced(w.reg, p));
    AdmitKeeps(Drop(LaneOf(w, p.owner), Replaced(w.reg, p)), id, w.dead);
  }

  /** What BindNext leaves alone, and whom it can bind. */
  lemma BindNextShape(r: Registry, owner: string, dead: set<Client>, now: int)
    requires Listed(r, owner)
    ensures var (r', b) := BindNext(r, owner, dead, now);
            && r'.byName == r.byName && r'.closed == r.closed
            && (forall o :: o != owner ==>
                  Queue(r'.awaiting, o) == Queue(r.awaiting, o) && Queue(r'.pending, o) == Queue(r.pending, o))
            && (b.None? ==> r'.plugins == r.plugins && Queue(r'.awaiting, owner) == Queue(r.awaiting, owner))
            && (b.Some? <==> Queue(r.awaiting, owner) != [] && Without(Queue(r.pending, owner), dead) != [])
            && (b.Some? ==>
                  var q := Queue(r.awaiting, owner);
                  var live := Without(Queue(r.pending, owner), dead);
                  && q != [] && b.value == q[0] && Waiting(r, owner, q[0]) && live != []
                  && Queue(r'.awaiting, owner) == q[1..]
                  && r'.plugins == r.plugins[q[0] := r.plugins[q[0]].(client := Some(live[0]), beat := now, online := true)])
  {
    var live := Without(Queue(r.pending, owner), dead);
    var r1 := r.(pending := r.pending[owner := live]);
    assert Listed(r1, owner);
    if live != [] { BindClientFront(r1, owner, live[0], now); }
  }

  lemma BindNextListed(r: Registry, owner: string, dead: set<Client>, now: int)
    requires Listed(r, owner) && Distinct(Queue(r.awaiting, owner))
    ensures Listed(BindNext(r, owner, dead, now).0, owner)
  {
    BindNextShape(r, owner, dead, now);
    var q := Queue(r.awaiting, owner);
    if q != [] { DistinctTail(q); }
  }

  lemma BindNextInverse(r: Registry, owner: string, dead: set<Client>, now: int)
    requires Inverse(r) && Listed(r, owner)
    ensures Inverse(BindNext(r, owner, dead, now).0)
  {
    BindNextShape(r, owner, dead, now);
  }

  lemma RegisterInverse(w: World, id: InstanceId, p: Plugin, now: int)
    requires Inverse(w.reg) && OwnerOk(w, p.owner) && id !in w.reg.plugins
    requires p.tunnel ==> p.client.None?
    requires forall x :: x in Replaced(w.reg, p) ==> w.reg.plugins[x].owner == p.owner
    ensures Inverse(Register(w.reg, id, p, w.dead, now).0)
  {
    if !w.reg.closed {
      AwaitingDistinct(w, p.owner);
      EnterInverse(w.reg, id, p);
      if p.tunnel {
        EnrolledListed(w.reg, id, p, p.owner);
        BindNextInverse(Enrolled(w.reg, id, p), p.owner, w.dead, now);
      }
    }
  }

  lemma EnrolledDistinct(w: World, id: InstanceId, p: Plugin)
    requires OwnerOk(w, p.owner) && id !in w.reg.plugins
    ensures Distinct(Queue(Enrolled(w.reg, id, p).awaiting, p.owner))
  {
    AwaitingDistinct(w, p.owner);
    EnterShape(w.reg, id, p, p.owner);
    var q := Without(Queue(w.reg.awaiting, p.owner), Replaced(w.reg, p));
    WithoutDistinct(Queue(w.reg.awaiting, p.owner), Replaced(w.reg, p));
    assert id !in q;
  }

  lemma RegisterFresh(w: World, id: InstanceId, p: Plugin, now: int)
    requires Fresh(w, p.owner)
    ensures Fresh(StepRegister(w, id, p, now), p.owner)
  {}

  lemma RegisterListed(w: World, id: InstanceId, p: Plugin, now: int)
    requires OwnerOk(w, p.owner) && !w.reg.closed && id !in w.reg.plugins && p.tunnel && p.client.None?
    requires forall x :: x in Replaced(w.reg, p) ==> w.reg.plugins[x].owner == p.owner
    ensures Listed(Register(w.reg, id, p, w.dead, now).0, p.owner)
  {
    AwaitingDistinct(w, p.owner);
    EnrolledListed(w.reg, id, p, p.owner);
    EnrolledDistinct(w, id, p);
    BindNextListed(Enrolled(w.reg, id, p), p.owner, w.dead, now);
  }

  lemma RegisterTunnelOwner(w: World, id: InstanceId, p: Plugin, now: int)
    requires OwnerOk(w, p.owner) && !w.reg.closed && id.n !in w.used && id !in w.reg.plugins
    requires p.tunnel && p.client.None?
    requires forall x :: x in Replaced(w.reg, p) ==> w.reg.plugins[x].owner == p.owner
    ensures OwnerOk(StepRegister(w, id, p, now), p.owner)
  {
    RegisterLane(w, id, p, now);
    AdmittedLane(w, id, p);
    RegisterListed(w, id, p, now);
    RegisterFresh(w, id, p, now);
  }

  lemma RegisterDialedOwner(w: World, id: InstanceId, p: Plugin, now: int)
    requires OwnerOk(w, p.owner) && !w.reg.closed && id !in w.reg.plugins && !p.tunnel
    requires forall x :: x in Replaced(w.reg, p) ==> w.reg.plugins[x].owner == p.owner
    ensures OwnerOk(StepRegister(w, id, p, now), p.owner)
  {
    AwaitingDistinct(w, p.owner);
    EnterShape(w.reg, id, p, p.owner);
    DropKeeps(LaneOf(w, p.owner), Replaced(w.reg, p));
    var w' := StepRegister(w, id, p, now);
    assert LaneOf(w', p.owner) == Drop(LaneOf(w, p.owner), Replaced(w.reg, p));
  }

  /** A registration as the table sees it. */
  lemma RegisterShape(r: Registry, id: InstanceId, p: Plugin, dead: set<Client>, now: int)
    requires Listed(r, p.owner) && Distinct(Queue(r.awaiting, p.owner)) && id !in r.plugins && !r.closed
    requires p.tunnel && p.client.None?
    requires forall x :: x in Replaced(r, p) ==> r.plugins[x].owner == p.owner
    ensures var (r', b) := Register(r, id, p, dead, now);
            var entered := (r.plugins - Replaced(r, p))[id := p];
            var q := Without(Queue(r.awaiting, p.owner), Replaced(r, p)) + [id];
            var live := Without(Queue(r.pending, p.owner), dead);
            && (b.None? ==> r'.plugins == entered) && (b.Some? <==> live != [])
            && (b.Some? ==>
                  && live != [] && b.value == q[0] && b.value in entered && entered[b.value].owner == p.owner
                  && r'.plugins == entered[b.value := entered[b.value].(client := Some(live[0]), beat := now, online := true)])
  {
    EnterShape(r, id, p, p.owner);
    EnrolledListed(r, id, p, p.owner);
    BindNextShape(Enrolled(r, id, p), p.owner, dead, now);
  }

  lemma RegisterOtherWaiting(r: Registry, id: InstanceId, p: Plugin, dead: set<Client>, now: int, o: string)
    requires Listed(r, p.owner) && Distinct(Queue(r.awaiting, p.owner)) && id !in r.plugins && o != p.owner
    requires p.tunnel && p.client.None? && !r.closed
    requires forall x :: x in Replaced(r, p) ==> r.plugins[x].owner == p.owner
    ensures forall x :: Waiting(Register(r, id, p, dead, now).0, o, x) <==> Waiting(r, o, x)
  {
    var r' := Register(r, id, p, dead, now).0;
    forall x ensures Waiting(r', o, x) <==> Waiting(r, o, x) { RegisterOtherWaits(r, id, p, dead, now, o, x); }
  }

  lemma RegisterOtherWaits(r: Registry, id: InstanceId, p: Plugin, dead: set<Client>, now: int, o: string, x: InstanceId)
    requires Listed(r, p.owner) && Distinct(Queue(r.awaiting, p.owner)) && id !in r.plugins && o != p.owner
    requires p.tunnel && p.client.None? && !r.closed
    requires forall y :: y in Replaced(r, p) ==> r.plugins[y].owner == p.owner
    ensures Waiting(Register(r, id, p, dead, now).0, o, x) <==> Waiting(r, o, x)
  {
    RegisterShape(r, id, p, dead, now);
  }

  lemma RegisterOtherQueues(r: Registry, id: InstanceId, p: Plugin, dead: set<Client>, now: int, o: string)
    requires Listed(r, p.owner) && Distinct(Queue(r.awaiting, p.owner)) && id !in r.plugins && o != p.owner
    requires p.tunnel && p.client.None? && !r.closed
    requires forall x :: x in Replaced(r, p) ==> r.plugins[x].owner == p.owner
    ensures var r' := Register(r, id, p, dead, now).0;
            Queue(r'.awaiting, o) == Queue(r.awaiting, o) && Queue(r'.pending, o) == Queue(r.pending, o)
  {
    EnterShape(r, id, p, o);
    EnrolledListed(r, id, p, p.owner);
    BindNextShape(Enrolled(r, id, p), p.owner, dead, now);
  }

  lemma RegisterOther(w: World, id: InstanceId, p: Plugin, now: int, o: string)
    requires OwnerOk(w, p.owner) && OwnerOk(w, o) && o != p.owner && id !in w.reg.plugins
    requires p.tunnel ==> p.client.None?
    requires forall x :: x in Replaced(w.reg, p) ==> w.reg.plugins[x].owner == p.owner
    ensures OwnerOk(StepRegister(w, id, p, now), o)
  {
    AwaitingDistinct(w, p.owner);
    if !w.reg.closed && p.tunnel {
      RegisterOtherQueues(w.reg, id, p, w.dead, now, o);
      RegisterOtherWaiting(w.reg, id, p, w.dead, now, o);
    } else if !w.reg.closed {
      EnterShape(w.reg, id, p, o);
    }
    OwnerFrame(w, StepRegister(w, id, p, now), o);
  }

  /** With a live client pending nobody was waiting, so a registration only ever binds itself. */
  lemma RegisterBindsItself(w: World, id: InstanceId, p: Plugin, now: int)
    requires OwnerOk(w, p.owner) && id !in w.reg.plugins && !w.reg.closed && p.tunnel && p.client.None?
    requires forall x :: x in Replaced(w.reg, p) ==> w.reg.plugins[x].owner == p.owner
    ensures var (r, b) := Register(w.reg, id, p, w.dead, now);
            && b in {None, Some(id)}
            && (b == Some(id) ==>
                  && id in r.plugins && r.plugins[id].client.Some?
                  && r.plugins[id].client.value in Queue(w.reg.pending, p.owner))
            && (b.Some? <==> Without(Queue(w.reg.pending, p.owner), w.dead) != [])
            && (forall i :: i != id && i in r.plugins ==> i in w.reg.plugins && r.plugins[i] == w.reg.plugins[i])
  {
    AwaitingDistinct(w, p.owner);
    RegisterShape(w.reg, id, p, w.dead, now);
  }

  lemma RegisterNewPlugin(w: World, id: InstanceId, p: Plugin, now: int)
    requires OwnerOk(w, p.owner) && Enabled(w, OpRegister(id, p, now)) && id !in w.reg.plugins
    requires forall x :: x in Replaced(w.reg, p) ==> w.reg.plugins[x].owner == p.owner
    requires !w.reg.closed && p.tunnel
    ensures var w' := StepRegister(w, id, p, now); id in w'.reg.plugins && PluginOk(w', id, w'.reg.plugins[id])
  {
    var w' := StepRegister(w, id, p, now);
    var h := Hist(w, p.owner);
    AwaitingDistinct(w, p.owner);
    RegisterShape(w.reg, id, p, w.dead, now);
    RegisterBindsItself(w, id, p, now);
    if w'.reg.plugins[id].client.Some? {
      OrderedMember(Queue(w.reg.pending, p.owner), h.conns, FreshConn(h));
      PairBinds(h.(regs := h.regs + [id]), id, w'.reg.plugins[id].client.value);
    }
  }

  lemma RecordGrows(h: History, r: Registry, b: Option<InstanceId>)
    ensures var h' := Record(h, r, b); h.bound <= h'.bound && h'.regs == h.regs && h'.conns == h.conns
  {}

  /** Bindings already made survive the registration, for every owner. */
  lemma RegisterHistory(w: World, id: InstanceId, p: Plugin, now: int, o: string)
    ensures var h, h' := Hist(w, o), Hist(StepRegister(w, id, p, now), o);
            h.regs <= h'.regs && h.conns <= h'.conns && h.bound <= h'.bound
  {
    var (r, b) := Register(w.reg, id, p, w.dead, now);
    var h := Hist(w, p.owner);
    RecordGrows(h.(regs := h.regs + [id]), r, b);
  }

  lemma PluginStays(w: World, w': World, id: InstanceId, p: Plugin)
    requires PluginOk(w, id, p) && w.used <= w'.used
    requires var h, h' := Hist(w, p.owner), Hist(w', p.owner);
             h.regs <= h'.regs && h.conns <= h'.conns && h.bound <= h'.bound
    ensures PluginOk(w', id, p)
  {
    if p.tunnel && p.client.Some? { BoundToGrows(Hist(w, p.owner), Hist(w', p.owner), id, p.client.value); }
  }

  lemma RegisterPlugin(w: World, id: InstanceId, p: Plugin, now: int, i: InstanceId)
    requires PluginsOk(w) && OwnerOk(w, p.owner) && Enabled(w, OpRegister(id, p, now)) && id !in w.reg.plugins
    requires forall x :: x in Replaced(w.reg, p) ==> w.reg.plugins[x].owner == p.owner
    requires !w.reg.closed && p.tunnel && i in StepRegister(w, id, p, now).reg.plugins && i != id
    ensures PluginOk(StepRegister(w, id, p, now), i, StepRegister(w, id, p, now).reg.plugins[i])
  {
    RegisterBindsItself(w, id, p, now);
    assert PluginOk(w, i, w.reg.plugins[i]);
    RegisterHistory(w, id, p, now, w.reg.plugins[i].owner);
    PluginStays(w, StepRegister(w, id, p, now), i, w.reg.plugins[i]);
  }

  lemma RegisterPlugins(w: World, id: InstanceId, p: Plugin, now: int)
    requires PluginsOk(w) && OwnerOk(w, p.owner) && Enabled(w, OpRegister(id, p, now)) && id !in w.reg.plugins
    requires forall x :: x in Replaced(w.reg, p) ==> w.reg.plugins[x].owner == p.owner
    ensures PluginsOk(StepRegister(w, id, p, now))
  {
    var w' := StepRegister(w, id, p, now);
    if !w.reg.closed && p.tunnel {
      forall i | i in w'.reg.plugins ensures PluginOk(w', i, w'.reg.plugins[i]) {
        if i == id { RegisterNewPlugin(w, id, p, now); } else { RegisterPlugin(w, id, p, now, i); }
      }
    } else if !w.reg.closed {
      AwaitingDistinct(w, p.owner);
      EnterShape(w.reg, id, p, p.owner);
    }
  }

  // ---------- One step, every run ----------

  lemma StepTable(w: World, op: Op)
    requires Inv(w) && Enabled(w, op)
    ensures Inverse(Step(w, op).reg) && PluginsOk(Step(w, op))
  {
    match op
    case OpRegister(id, p, now) =>
      assert OwnerOk(w, p.owner);
      ReplacedOwner(w, p);
      RegisterInverse(w, id, p, now);
      RegisterPlugins(w, id, p, now);
    case OpConnect(owner, c, now) =>
      assert OwnerOk(w, owner);
      ConnectInverse(w.reg, owner, c, w.dead, now);
      ConnectPlugins(w, owner, c, now);
    case OpSessionDies(c) =>
    case OpDisconnected(owner) =>
      DisconnectedInverse(w.reg, owner, w.dead);
      DisconnectedPlugins(w, owner);
    case OpHeartbeat(id, now) =>
      HeartbeatInverse(w.reg, id, now);
      HeartbeatPlugins(w, id, now);
    case OpDeregister(id) =>
      DeregisterInverse(w.reg, id);
      DeregisterPlugins(w, id);
    case OpCheckOffline(now, timeout) =>
      CheckOfflineInverse(w.reg, w.dead, now, timeout);
      CheckOfflinePlugins(w, now, timeout);
    case OpClose =>
  }

  lemma StepOwner(w: World, op: Op, o: string)
    requires Inverse(w.reg) && PluginsOk(w) && Enabled(w, op) && OwnerOk(w, o)
    requires op.OpRegister? ==> OwnerOk(w, op.plugin.owner)
    requires op.OpConnect? ==> OwnerOk(w, op.owner)
    ensures OwnerOk(Step(w, op), o)
  {
    match op
    case OpRegister(id, p, now) =>
      ReplacedOwner(w, p);
      if o != p.owner { RegisterOther(w, id, p, now, o); }
      else if w.reg.closed { OwnerFrame(w, Step(w, op), o); }
      else if p.tunnel { RegisterTunnelOwner(w, id, p, now); }
      else { RegisterDialedOwner(w, id, p, now); }
    case OpConnect(owner, c, now) =>
      if o == owner { ConnectOwner(w, owner, c, now); } else { ConnectOther(w, owner, c, now, o); }
    case OpSessionDies(c) => OwnerFrame(w, Step(w, op), o);
    case OpDisconnected(owner) => DisconnectedOwner(w, owner, o);
    case OpHeartbeat(id, now) => HeartbeatOwner(w, id, now, o);
    case OpDeregister(id) => DeregisterOwner(w, id, o);
    case OpCheckOffline(now, timeout) => CheckOfflineOwner(w, now, timeout, o);
    case OpClose => CloseOwner(w, o);
  }

  ghost function AnyPlugin(): Plugin { NewPlugin("", "", "", [], true, 0, 0) }

  /** A closed registry refuses everything. */
  lemma StepClosed(r: Registry, dead: set<Client>, id: InstanceId, p: Plugin, c: Client, owner: string, now: int, t: int)
    requires r == Close(r)
    ensures Register(r, id, p, dead, now).0 == r && Connect(r, owner, c, dead, now).0 == r
    ensures Disconnected(r, owner, dead) == r && Heartbeat(r, id, now) == r && Deregister(r, id) == r
    ensures CheckOffline(r, dead, now, t) == r
  {}

  lemma StepKeeps(w: World, op: Op)
    requires Inv(w) && Enabled(w, op)
    ensures Inv(Step(w, op))
  {
    StepTable(w, op);
    forall o ensures OwnerOk(Step(w, op), o) {
      assert OwnerOk(w, o);
      if op.OpRegister? { assert OwnerOk(w, op.plugin.owner); }
      if op.OpConnect? { assert OwnerOk(w, op.owner); }
      StepOwner(w, op, o);
    }
  }

  /** Every state a legal run reaches satisfies the invariant. */
  lemma {:induction false} RunKeeps(w: World, ops: seq<Op>)
    requires Inv(w) && Legal(w, ops)
    ensures Inv(Run(w, ops))
    decreases |ops|
  {
    if ops != [] {
      StepKeeps(w, ops[0]);
      RunKeeps(Step(w, ops[0]), ops[1..]);
    }
  }

  /** Once closed, empty for good: no operation of any run changes the registry again. */
  lemma {:induction false} ClosedForGood(w: World, ops: seq<Op>)
    requires Inv(w) && Legal(w, ops) && w.reg.closed
    ensures Run(w, ops).reg == Close(w.reg)
    decreases |ops|
  {
    if ops != [] {
      StepKeeps(w, ops[0]);
      match ops[0] {
        case OpRegister(id, p, now) => StepClosed(w.reg, w.dead, id, p, Dialed(0), "", now, 0);
        case OpConnect(owner, c, now) => StepClosed(w.reg, w.dead, InstanceId("", 0), AnyPlugin(), c, owner, now, 0);
        case OpDisconnected(owner) => StepClosed(w.reg, w.dead, InstanceId("", 0), AnyPlugin(), Dialed(0), owner, 0, 0);
        case OpHeartbeat(id, now) => StepClosed(w.reg, w.dead, id, AnyPlugin(), Dialed(0), "", now, 0);
        case OpDeregister(id) => StepClosed(w.reg, w.dead, id, AnyPlugin(), Dialed(0), "", 0, 0);
        case OpCheckOffline(now, t) => StepClosed(w.reg, w.dead, InstanceId("", 0), AnyPlugin(), Dialed(0), "", now, t);
        case _ =>
      }
      ClosedForGood(Step(w, ops[0]), ops[1..]);
    }
  }

  lemma InitInv()
    ensures Inv(INIT)
  {}

  ghost predicate Reachable(w: World) {
    exists ops :: Legal(INIT, ops) && Run(INIT, ops) == w
  }

  lemma ReachableInv(w: World)
    requires Reachable(w)
    ensures Inv(w)
  {
    var ops :| Legal(INIT, ops) && Run(INIT, ops) == w;
    InitInv();
    RunKeeps(INIT, ops);
  }

  // ---------- What the invariant gives ----------

  lemma BoundOnce(h: History, id1: InstanceId, id2: InstanceId, c: Client)
    requires Matching(h) && Distinct(h.conns) && BoundTo(h, id1, c) && BoundTo(h, id2, c)
    ensures id1 == id2
  {
    var b1 :| b1 in h.bound && b1.reg < |h.regs| && b1.conn < |h.conns| && h.regs[b1.reg] == id1 && h.conns[b1.conn] == c;
    var b2 :| b2 in h.bound && b2.reg < |h.regs| && b2.conn < |h.conns| && h.regs[b2.reg] == id2 && h.conns[b2.conn] == c;
    var i :| 0 <= i < |h.bound| && h.bound[i] == b1;
    var j :| 0 <= j < |h.bound| && h.bound[j] == b2;
    assert b1.conn == b2.conn;
    assert i == j;
  }

  lemma BoundClient(h: History, id: InstanceId, c: Client)
    requires BoundTo(h, id, c)
    ensures c in h.conns
  {}

  ghost predicate HasTunnel(w: World, id: InstanceId, c: Client) {
    id in w.reg.plugins && w.reg.plugins[id].tunnel && w.reg.plugins[id].client == Some(c)
  }

  /** No tunnel client ever serves two instances. */
  lemma TunnelsUnshared(w: World, id1: InstanceId, id2: InstanceId, c: Client)
    requires Inv(w) && HasTunnel(w, id1, c) && HasTunnel(w, id2, c)
    ensures id1 == id2
  {
    var o1, o2 := w.reg.plugins[id1].owner, w.reg.plugins[id2].owner;
    assert OwnerOk(w, o1) && OwnerOk(w, o2);
    assert PluginOk(w, id1, w.reg.plugins[id1]) && PluginOk(w, id2, w.reg.plugins[id2]);
    BoundClient(Hist(w, o1), id1, c);
    BoundClient(Hist(w, o2), id2, c);
    assert w.seen[c] == o1 && w.seen[c] == o2;
    BoundOnce(Hist(w, o1), id1, id2, c);
  }

  /**
   In every reachable state: no owner has both queues non-empty, the pairings made so far are
   one-to-one and agree with both arrival orders, the tunnel an instance holds is its pairing's, and
   no tunnel is shared.
   */
  lemma PairingSafe(w: World)
    requires Reachable(w)
    ensures forall o :: Queue(w.reg.awaiting, o) == [] || Queue(w.reg.pending, o) == []
    ensures forall o :: Matching(Hist(w, o)) && Distinct(Hist(w, o).regs) && Distinct(Hist(w, o).conns)
    ensures forall id, c :: HasTunnel(w, id, c) ==> BoundTo(Hist(w, w.reg.plugins[id].owner), id, c)
    ensures forall id1, id2, c :: HasTunnel(w, id1, c) && HasTunnel(w, id2, c) ==> id1 == id2
  {
    ReachableInv(w);
    forall o
      ensures Queue(w.reg.awaiting, o) == [] || Queue(w.reg.pending, o) == []
      ensures Matching(Hist(w, o)) && Distinct(Hist(w, o).regs) && Distinct(Hist(w, o).conns)
    {
      assert OwnerOk(w, o);
    }
    forall id, c | HasTunnel(w, id, c) ensures BoundTo(Hist(w, w.reg.plugins[id].owner), id, c) {
      assert PluginOk(w, id, w.reg.plugins[id]);
    }
    forall id1, id2, c | HasTunnel(w, id1, c) && HasTunnel(w, id2, c) ensures id1 == id2 {
      TunnelsUnshared(w, id1, id2, c);
    }
  }

  /** In every reachable state the name table and the instance table are inverse, and the queues exact. */
  lemma TablesSound(w: World)
    requires Reachable(w)
    ensures Inverse(w.reg)
    ensures forall o :: Distinct(Queue(w.reg.awaiting, o))
    ensures forall o, id :: id in Queue(w.reg.awaiting, o) <==> Waiting(w.reg, o, id)
  {
    ReachableInv(w);
    forall o ensures Distinct(Queue(w.reg.awaiting, o)) && Listed(w.reg, o) {
      assert OwnerOk(w, o);
      AwaitingDistinct(w, o);
    }
  }

  /** A tunnel instance that has been online and went offline. */
  ghost predicate Retired(w: World, id: InstanceId) {
    && id.n in w.used
    && (id in w.reg.plugins ==>
          w.reg.plugins[id].tunnel && w.reg.plugins[id].client.Some? && !w.reg.plugins[id].online)
  }

  lemma RegisterRetired(w: World, i: InstanceId, p: Plugin, now: int, id: InstanceId)
    requires Inverse(w.reg) && PluginsOk(w) && OwnerOk(w, p.owner) && Enabled(w, OpRegister(i, p, now)) && Retired(w, id)
    ensures Retired(StepRegister(w, i, p, now), id)
  {
    if !w.reg.closed {
      if p.tunnel {
        ReplacedOwner(w, p);
        RegisterBindsItself(w, i, p, now);
      } else {
        AwaitingDistinct(w, p.owner);
        EnterShape(w.reg, i, p, p.owner);
      }
    }
  }

  lemma StepRetired(w: World, op: Op, id: InstanceId)
    requires Inv(w) && Enabled(w, op) && Retired(w, id)
    ensures Retired(Step(w, op), id)
  {
    match op
    case OpRegister(i, p, now) =>
      assert OwnerOk(w, p.owner);
      RegisterRetired(w, i, p, now, id);
    case OpConnect(owner, c, now) =>
      assert OwnerOk(w, owner);
      BindClientFront(w.reg, owner, c, now);
    case _ =>
  }

  /** Once retired, never online again: heartbeats, rebinding and new tunnels all pass it by. */
  lemma {:induction false} OfflineForever(w: World, ops: seq<Op>, id: InstanceId)
    requires Inv(w) && Legal(w, ops) && Retired(w, id)
    ensures Retired(Run(w, ops), id)
    decreases |ops|
  {
    if ops != [] {
      StepKeeps(w, ops[0]);
      StepRetired(w, ops[0], id);
      OfflineForever(Step(w, ops[0]), ops[1..], id);
    }
  }

  // ---------- Lookups in reachable states ----------

  ghost predicate Registered(r: Registry, owner: string, name: string, id: InstanceId) {
    id in r.plugins && r.plugins[id].owner == owner && r.plugins[id].name == name
  }

  lemma KeyFinds(w: World, owner: string, name: string)
    requires Inv(w) && Clean(name)
    ensures forall id :: Registered(w.reg, owner, name, id) <==>
              PluginKey(owner, name) in w.reg.byName && w.reg.byName[PluginKey(owner, name)] == id
  {
    var k := PluginKey(owner, name);
    if k in w.reg.byName {
      var id := w.reg.byName[k];
      assert PluginOk(w, id, w.reg.plugins[id]);
      PluginKeyInjective(w.reg.plugins[id].owner, w.reg.plugins[id].name, owner, name);
    }
  }

  /** What a caller asks for with a text: a full key if it holds a slash, otherwise a name. */
  ghost predicate Asked(r: Registry, owner: string, text: string, id: InstanceId) {
    && id in r.plugins && r.plugins[id].owner == owner
    && (if '/' in text then owner != "" && KeyOf(r.plugins[id]) == text else r.plugins[id].name == text)
  }

  /** A full key finds the one plugin that has it, and an anonymous plugin has none. */
  lemma FullKeyFinds(w: World, text: string)
    requires Inv(w) && '/' in text
    ensures forall o, id :: Asked(w.reg, o, text, id) <==>
              text in w.reg.byName && w.reg.byName[text] == id && w.reg.plugins[id].owner == o
  {
    if text in w.reg.byName {
      var id := w.reg.byName[text];
      assert PluginOk(w, id, w.reg.plugins[id]);
    }
  }

  ghost predicate Answers(r: Registry, caller: string, id: InstanceId) {
    id in r.plugins && Usable(r.plugins[id]) && r.plugins[id].owner in {"", caller}
  }

  lemma FindByKeyOne(r: Registry, caller: string, key: string)
    ensures FindByKey(r, caller, [key])
            == if key in r.byName && Answers(r, caller, r.byName[key]) then Some(r.byName[key]) else None
  {
    assert [key][1..] == [];
    assert FindByKey(r, caller, []) == None;
  }

  lemma FindByKeyOf(r: Registry, owner: string, name: string, id: InstanceId)
    requires '/' !in name
    ensures var own := PluginKey(owner, name);
            FindByKey(r, owner, KeyCandidates(owner, name)) == Some(id) <==>
              && Answers(r, owner, id)
              && (if own in r.byName then r.byName[own] == id else name in r.byName && r.byName[name] == id)
  {
    var keys := KeyCandidates(owner, name);
    if owner == "" {
      assert keys[1..] == [];
    } else {
      assert keys[1..] == [name];
      var own := PluginKey(owner, name);
      if own !in r.byName {
        assert FindByKey(r, owner, keys) == FindByKey(r, owner, [name]);
        FindByKeyOne(r, owner, name);
      }
    }
  }

  /** The plugin a caller gets for a text: its own, or for a name the anonymous one if it has none. */
  ghost predicate Found(r: Registry, owner: string, text: string, id: InstanceId) {
    && id in r.plugins && r.plugins[id].online && r.plugins[id].client.Some?
    && (Asked(r, owner, text, id) || ('/' !in text && Asked(r, "", text, id) && !exists x :: Asked(r, owner, text, x)))
  }

  /**
   FindByNameFor(owner, text), whatever the text: a full key finds the caller's own plugin of that key and
   nobody else's; a name finds the caller's own plugin of that name if one is registered, usable or not
   found, and only a caller without one falls back to the anonymous plugin.
   */
  lemma LookupByName(w: World, owner: string, text: string, id: InstanceId)
    requires Reachable(w)
    ensures FindByKey(w.reg, owner, KeyCandidates(owner, text)) == Some(id) <==> Found(w.reg, owner, text, id)
  {
    ReachableInv(w);
    if '/' in text {
      FullKeyFinds(w, text);
      FindByKeyOne(w.reg, owner, text);
      if text in w.reg.byName {
        var x := w.reg.byName[text];
        assert PluginOk(w, x, w.reg.plugins[x]);
      }
    } else {
      NameFinds(w, owner, text, id);
    }
  }

  lemma NameFinds(w: World, owner: string, name: string, id: InstanceId)
    requires Inv(w) && Clean(name)
    ensures FindByKey(w.reg, owner, KeyCandidates(owner, name)) == Some(id) <==> Found(w.reg, owner, name, id)
  {
    KeyFinds(w, owner, name);
    KeyFinds(w, "", name);
    FindByKeyOf(w.reg, owner, name, id);
    forall o, x ensures Asked(w.reg, o, name, x) <==> Registered(w.reg, o, name, x) {}
    var own := PluginKey(owner, name);
    if own in w.reg.byName { assert Asked(w.reg, owner, name, w.reg.byName[own]); }
  }

  lemma {:induction false} AllowedFinds(r: Registry, allowed: set<string>, keys: seq<string>)
    requires forall k :: k in keys && k in r.byName && r.byName[k] in r.plugins ==> r.plugins[r.byName[k]].owner in allowed
    ensures var res := FindByKeyAllowed(r, allowed, keys);
            && (res.Some? ==> exists k :: k in keys && k in r.byName && r.byName[k] == res.value)
            && (res.None? ==> forall k :: k in keys && k in r.byName && r.byName[k] in r.plugins ==>
                  !Usable(r.plugins[r.byName[k]]))
  {
    if keys != [] {
      AllowedFinds(r, allowed, keys[1..]);
      var k := keys[0];
      if k in r.byName && r.byName[k] in r.plugins && Usable(r.plugins[r.byName[k]]) {
        assert FindByKeyAllowed(r, allowed, keys) == Some(r.byName[k]);
      } else {
        assert FindByKeyAllowed(r, allowed, keys) == FindByKeyAllowed(r, allowed, keys[1..]);
      }
    }
  }

  lemma CandidateOf(o: string, name: string, k: string)
    requires Clean(name) && k in KeyCandidates(o, name)
    ensures k == PluginKey(o, name) || k == PluginKey("", name)
  {}

  lemma {:induction false} AllowedOne(r: Registry, allowed: set<string>, keys: seq<string>, text: string)
    requires keys != [] && forall i :: 0 <= i < |keys| ==> keys[i] == text
    ensures FindByKeyAllowed(r, allowed, keys)
            == if text in r.byName && r.byName[text] in r.plugins && Usable(r.plugins[r.byName[text]])
                  && r.plugins[r.byName[text]].owner in allowed
               then Some(r.byName[text]) else None
  {
    if |keys| > 1 {
      AllowedOne(r, allowed, keys[1..], text);
    } else {
      assert keys[1..] == [] && FindByKeyAllowed(r, allowed, []) == None;
    }
  }

  lemma HeadIsMember(s: seq<string>)
    requires s != []
    ensures s[0] in s
  {}

  lemma AmongByName(w: World, owners: seq<string>, name: string, keys: seq<string>)
    requires Inv(w) && Clean(name) && owners != [] && AmongKeys(owners, name, keys)
    ensures var allowed := {""} + (set o | o in owners);
            var res := FindByKeyAllowed(w.reg, allowed, keys);
            && (res.Some? ==> exists o :: o in allowed && Registered(w.reg, o, name, res.value))
            && (res.None? ==> forall o, id :: o in allowed && Registered(w.reg, o, name, id) ==> !Usable(w.reg.plugins[id]))
  {
    var allowed := {""} + (set o | o in owners);
    forall k | k in keys && k in w.reg.byName
      ensures exists o :: o in allowed && Registered(w.reg, o, name, w.reg.byName[k])
    {
      var o :| o in owners && k in KeyCandidates(o, name);
      CandidateOf(o, name, k);
      KeyFinds(w, o, name);
      KeyFinds(w, "", name);
      assert o in allowed && "" in allowed;
      assert Registered(w.reg, if k == PluginKey(o, name) then o else "", name, w.reg.byName[k]);
    }
    AllowedFinds(w.reg, allowed, keys);
    forall o, id | o in allowed && Registered(w.reg, o, name, id) ensures PluginKey(o, name) in keys {
      var x := if o in owners then o else owners[0];
      assert x in owners && PluginKey(o, name) in KeyCandidates(x, name);
    }
    if FindByKeyAllowed(w.reg, allowed, keys).None? {
      forall o, id | o in allowed && Registered(w.reg, o, name, id) ensures !Usable(w.reg.plugins[id]) { KeyFinds(w, o, name); }
    }
  }

  /**
   FindByNameAmong(owners, text), whatever owners and text: it finds a plugin exactly when one of these
   owners, or nobody, has a usable one the text asks for, and what it finds is such a plugin. A full key
   reaches only plugins of these owners.
   */
  lemma LookupAmong(w: World, owners: seq<string>, text: string, keys: seq<string>)
    requires Reachable(w) && AmongKeys(owners, text, keys)
    ensures var allowed := {""} + (set o | o in owners);
            var res := FindByNameAmong(w.reg, owners, text, keys);
            && (res.Some? ==> res.value in w.reg.plugins && w.reg.plugins[res.value].online && w.reg.plugins[res.value].client.Some?
                              && exists o :: o in allowed && Asked(w.reg, o, text, res.value))
            && (res.None? ==> forall o, id :: o in allowed && Asked(w.reg, o, text, id) ==>
                  !w.reg.plugins[id].online || w.reg.plugins[id].client.None?)
  {
    ReachableInv(w);
    var allowed := {""} + (set o | o in owners);
    if owners == [] {
      if keys != [] { HeadIsMember(keys); }
      var res := FindByNameAmong(w.reg, owners, text, keys);
      if res.Some? { LookupByName(w, "", text, res.value); }
      forall id | Asked(w.reg, "", text, id) && Usable(w.reg.plugins[id]) ensures res == Some(id) { LookupByName(w, "", text, id); }
      assert allowed == {""};
    } else {
      assert text in keys by { assert owners[0] in owners && text in KeyCandidates(owners[0], text); }
      if '/' in text {
        forall i | 0 <= i < |keys| ensures keys[i] == text { assert keys[i] in keys; }
        AllowedOne(w.reg, allowed, keys, text);
        FullKeyFinds(w, text);
      } else {
        AmongByName(w, owners, text, keys);
        forall o, x ensures Asked(w.reg, o, text, x) <==> Registered(w.reg, o, text, x) {}
      }
    }
  }

  // ---------- What registering and connecting lead to ----------

  /** Every plugin that is online and has a client is found by its owner under its name. */
  lemma UsableIsFound(w: World, id: InstanceId)
    requires Reachable(w) && id in w.reg.plugins && w.reg.plugins[id].online && w.reg.plugins[id].client.Some?
    ensures var p := w.reg.plugins[id]; FindByKey(w.reg, p.owner, KeyCandidates(p.owner, p.name)) == Some(id)
  {
    ReachableInv(w);
    var p := w.reg.plugins[id];
    assert PluginOk(w, id, p);
    LookupByName(w, p.owner, p.name, id);
  }

  lemma ReplacedAre(w: World, p: Plugin)
    requires Inv(w) && Clean(p.name)
    ensures Replaced(w.reg, p) == set x | x in w.reg.plugins && w.reg.plugins[x].owner == p.owner && w.reg.plugins[x].name == p.name
  {
    forall x | x in w.reg.plugins ensures KeyOf(w.reg.plugins[x]) == KeyOf(p) <==> w.reg.plugins[x].owner == p.owner && w.reg.plugins[x].name == p.name {
      assert PluginOk(w, x, w.reg.plugins[x]);
      PluginKeyInjective(w.reg.plugins[x].owner, w.reg.plugins[x].name, p.owner, p.name);
    }
  }

  /**
   A registration in any reachable state: the owner's instance of that name, if any, goes and the new one is
   entered. A dialled plugin is online with its client at once; a tunnel one exactly if one of its owner's
   pending clients is alive, with the oldest such. All other plugins stay as they are.
   */
  lemma RegistersExactly(w: World, id: InstanceId, p: Plugin, now: int)
    requires Reachable(w) && Enabled(w, OpRegister(id, p, now)) && !w.reg.closed
    ensures var r := Step(w, OpRegister(id, p, now)).reg;
            var live := Without(Queue(w.reg.pending, p.owner), w.dead);
            && (forall x :: x in r.plugins <==>
                  x == id || (x in w.reg.plugins && !(w.reg.plugins[x].owner == p.owner && w.reg.plugins[x].name == p.name)))
            && (forall x :: x in r.plugins && x != id ==> r.plugins[x] == w.reg.plugins[x])
            && r.plugins[id] == Plugin(p.owner, p.name, p.protocol, p.hints, p.tunnel,
                                       if !p.tunnel then Some(Dialed(id.n)) else if live == [] then None else Some(live[0]),
                                       !p.tunnel || live != [], now)
  {
    ReachableInv(w);
    ReplacedAre(w, p);
    assert OwnerOk(w, p.owner);
    forall x | x in w.reg.plugins ensures x != id { assert PluginOk(w, x, w.reg.plugins[x]); }
    AwaitingDistinct(w, p.owner);
    if p.tunnel {
      RegisterShape(w.reg, id, p, w.dead, now);
      RegisterBindsItself(w, id, p, now);
    } else {
      EnterShape(w.reg, id, p, p.owner);
    }
  }

  /** A Connect in any reachable state: the owner's oldest waiting instance gets the client and is online from
      then on; without one the client waits behind the live ones. All other plugins stay as they are. */
  lemma ConnectsExactly(w: World, owner: string, c: Client, now: int)
    requires Reachable(w) && Enabled(w, OpConnect(owner, c, now)) && !w.reg.closed
    ensures var r, q := Step(w, OpConnect(owner, c, now)).reg, Queue(w.reg.awaiting, owner);
            && r.plugins.Keys == w.reg.plugins.Keys
            && (q == [] ==> r.plugins == w.reg.plugins && Queue(r.pending, owner) == Without(Queue(w.reg.pending, owner), w.dead) + [c])
            && (q != [] ==>
                  && q[0] in w.reg.plugins && w.reg.plugins[q[0]].owner == owner
                  && r.plugins[q[0]] == w.reg.plugins[q[0]].(client := Some(c), beat := now, online := true)
                  && (forall x :: x in r.plugins && x != q[0] ==> r.plugins[x] == w.reg.plugins[x])
                  && Queue(r.awaiting, owner) == q[1..])
  {
    ReachableInv(w);
    assert OwnerOk(w, owner);
    BindClientFront(w.reg, owner, c, now);
  }

  // ---------- Replacing another owner's instance ----------

  /** Register takes a replaced instance out of the queue of the newcomer's owner only. It leaves a dead id
      behind exactly if the key's present holder is a waiting tunnel instance of another owner. */
  lemma ReplacementLeavesDeadId(r: Registry, id: InstanceId, p: Plugin, dead: set<Client>, now: int)
    requires Inverse(r) && (forall o :: Listed(r, o) && Distinct(Queue(r.awaiting, o)))
    requires id !in r.plugins && !r.closed && (p.tunnel ==> p.client.None?)
    ensures var r' := Register(r, id, p, dead, now).0;
            (exists o, x :: x in Queue(r'.awaiting, o) && x !in r'.plugins) <==>
              KeyOf(p) in r.byName && (var h := r.plugins[r.byName[KeyOf(p)]]; h.tunnel && h.client.None? && h.owner != p.owner)
  {
    var r' := Register(r, id, p, dead, now).0;
    assert Listed(r, p.owner);
    EnterShape(r, id, p, p.owner);
    RegisterQueues(r, id, p, dead, now);
    if KeyOf(p) in r.byName {
      var x := r.byName[KeyOf(p)];
      var h := r.plugins[x];
      if h.tunnel && h.client.None? && h.owner != p.owner {
        assert Listed(r, h.owner) && x in Queue(r'.awaiting, h.owner) && x !in r'.plugins;
      }
    }
    forall o, x | x in Queue(r'.awaiting, o) && x !in r'.plugins
      ensures KeyOf(p) in r.byName && (var h := r.plugins[r.byName[KeyOf(p)]]; h.tunnel && h.client.None? && h.owner != p.owner)
    {
      assert Listed(r, o);
    }
  }

  /** The tables and queues after Register, whoever owned the instance replaced. */
  lemma RegisterQueues(r: Registry, id: InstanceId, p: Plugin, dead: set<Client>, now: int)
    requires Listed(r, p.owner) && Distinct(Queue(r.awaiting, p.owner)) && id !in r.plugins && !r.closed
    requires p.tunnel ==> p.client.None?
    ensures QueuesAfter(r, Register(r, id, p, dead, now).0, id, p)
  {
    EntryQueues(r, id, p);
    if p.tunnel {
      EnrolledHere(r, id, p);
      BindNextQueues(Enrolled(r, id, p), p.owner, dead, now);
      BindNextShape(Enrolled(r, id, p), p.owner, dead, now);
    }
  }

  ghost predicate QueuesAfter(r: Registry, r': Registry, id: InstanceId, p: Plugin) {
    && r'.plugins.Keys == (r.plugins.Keys - Replaced(r, p)) + {id}
    && (forall o :: o != p.owner ==> Queue(r'.awaiting, o) == Queue(r.awaiting, o))
    && (forall x :: x in Queue(r'.awaiting, p.owner) ==> x in r'.plugins)
  }

  lemma EntryQueues(r: Registry, id: InstanceId, p: Plugin)
    requires Listed(r, p.owner) && Distinct(Queue(r.awaiting, p.owner)) && id !in r.plugins
    ensures QueuesAfter(r, Enter(r, id, p), id, p) && QueuesAfter(r, Enrolled(r, id, p), id, p)
  {
    forall o ensures o != p.owner ==> Queue(Enter(r, id, p).awaiting, o) == Queue(r.awaiting, o) { EnterShape(r, id, p, o); }
    EnterShape(r, id, p, p.owner);
  }

  lemma BindNextQueues(r: Registry, owner: string, dead: set<Client>, now: int)
    requires Listed(r, owner)
    ensures var r' := BindNext(r, owner, dead, now).0;
            r'.plugins.Keys == r.plugins.Keys && forall x :: x in Queue(r'.awaiting, owner) ==> x in Queue(r.awaiting, owner)
  {
    BindNextShape(r, owner, dead, now);
  }

  lemma EnrolledHere(r: Registry, id: InstanceId, p: Plugin)
    requires Listed(r, p.owner) && Distinct(Queue(r.awaiting, p.owner)) && id !in r.plugins && p.tunnel && p.client.None?
    ensures Listed(Enrolled(r, id, p), p.owner)
  {
    EnterShape(r, id, p, p.owner);
  }

  /** With the slash-free names validation gives, no run leaves a dead id in a queue. */
  lemma NoDeadIds(w: World)
    requires Reachable(w)
    ensures forall o, x :: x in Queue(w.reg.awaiting, o) ==> x in w.reg.plugins
  {
    TablesSound(w);
    forall o, x | x in Queue(w.reg.awaiting, o) ensures x in w.reg.plugins { assert Waiting(w.reg, o, x); }
  }

  /**
   It is the names that validation must keep free of slashes: if it let "b/c" through, owner "a/b" with "c"
   and owner "a" with "b/c" would share a key, and the first instance would stay in its owner's queue.
   */
  lemma SlashLeavesDeadId()
    ensures var a := NewPlugin("a/b", "c", "tcp", [], true, 1, 0);
            var b := NewPlugin("a", "b/c", "tcp", [], true, 2, 0);
            var r := Register(Register(EMPTY, InstanceId("c", 1), a, {}, 0).0, InstanceId("b/c", 2), b, {}, 0).0;
            InstanceId("c", 1) in Queue(r.awaiting, "a/b") && InstanceId("c", 1) !in r.plugins
  {
    var a := NewPlugin("a/b", "c", "tcp", [], true, 1, 0);
    var b := NewPlugin("a", "b/c", "tcp", [], true, 2, 0);
    assert KeyOf(a) == "a/b/c" && KeyOf(b) == "a/b/c";
    assert "a/b" != "a" by { assert |"a/b"| == 3; }
    var r1 := Register(EMPTY, InstanceId("c", 1), a, {}, 0).0;
    var e := Enter(EMPTY, InstanceId("c", 1), a);
    assert e.awaiting == map[] && Queue(e.awaiting, "a/b") + [InstanceId("c", 1)] == [InstanceId("c", 1)];
    assert r1.awaiting == map["a/b" := [InstanceId("c", 1)]];
    assert r1.plugins == map[InstanceId("c", 1) := a] && r1.byName == map["a/b/c" := InstanceId("c", 1)];
  }
}
