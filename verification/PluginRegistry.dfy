/**
 The plugin registry and its reverse-tunnel binding (pkg/plugin/manager.go, pkg/plugin/tunnel.go).

 `Registry` is the value of the server's maps; each operation below is what one critical section
 does to it. `RegistryServer` (RegistryServer.dfy) is the object whose methods compute them.
 */
module PluginRegistry {
  import opened Util

  /** fmt.Sprintf("%s-%d", name, n): kept as its two parts, see InstanceText. */
  datatype InstanceId = InstanceId(name: string, n: nat)

  /** A decoder client: a Connect session's, or one dialled to a plugin socket. */
  datatype Client = Tunnel(session: nat) | Dialed(n: nat)

  datatype Plugin = Plugin(
    owner: string, name: string, protocol: string, hints: seq<string>,
    tunnel: bool, client: Option<Client>, online: bool, beat: int)

  datatype Registry = Registry(
    closed: bool,
    plugins: map<InstanceId, Plugin>,
    byName: map<string, InstanceId>,
    awaiting: map<string, seq<InstanceId>>,
    pending: map<string, seq<Client>>)

  const EMPTY := Registry(false, map[], map[], map[], map[])

  /** Reading a missing bucket gives the empty queue. */
  function Queue<T>(m: map<string, seq<T>>, owner: string): seq<T> {
    if owner in m then m[owner] else []
  }

  // ---------- Keys ----------

  function PluginKey(owner: string, name: string): string {
    if owner == "" then name else owner + "/" + name
  }

  function KeyOf(p: Plugin): string { PluginKey(p.owner, p.name) }

  /** What manifest validation gives for every name that reaches the registry (kebab-case): no slash. */
  predicate Clean(s: string) { '/' !in s }

  function KeyCandidates(owner: string, name: string): seq<string> {
    if '/' in name || owner == "" then [name] else [PluginKey(owner, name), name]
  }

  /** Slash-free names alone make the key unambiguous; owners may hold slashes. */
  lemma {:induction false} PluginKeyInjective(o1: string, n1: string, o2: string, n2: string)
    requires Clean(n1) && Clean(n2)
    ensures PluginKey(o1, n1) == PluginKey(o2, n2) <==> o1 == o2 && n1 == n2
  {
    var a, b := PluginKey(o1, n1), PluginKey(o2, n2);
    if a == b {
      if o1 != "" { assert a[|o1|] == '/'; }
      if o2 != "" { assert b[|o2|] == '/'; }
      if o1 != "" && o2 != "" {
        assert a[|o1| + 1..] == n1 && b[|o2| + 1..] == n2;
        LastSlash(a, |o1|, |o2|);
        LastSlash(a, |o2|, |o1|);
        assert a[..|o1|] == o1 && b[..|o2|] == o2;
      }
    }
  }

  lemma LastSlash(s: string, i: nat, j: nat)
    requires i < |s| && j < |s| && '/' !in s[i + 1..]
    ensures s[j] == '/' ==> j <= i
  {
    if j > i { assert s[j] == s[i + 1..][j - i - 1]; }
  }

  // ---------- Operations ----------

  function RemoveAwaiting(r: Registry, owner: string, id: InstanceId): Registry {
    if id in Queue(r.awaiting, owner)
    then r.(awaiting := r.awaiting[owner := RemoveFirst(r.awaiting[owner], id)])
    else r
  }

  predicate Bindable(plugins: map<InstanceId, Plugin>, id: InstanceId) {
    id in plugins && plugins[id].client.None?
  }

  /** Position of the first bindable instance of an awaiting queue, its length if there is none. */
  function FirstBindable(plugins: map<InstanceId, Plugin>, q: seq<InstanceId>): (k: nat)
    ensures k <= |q|
    ensures k < |q| ==> Bindable(plugins, q[k])
    ensures forall i :: 0 <= i < k ==> !Bindable(plugins, q[i])
  {
    if q == [] then 0
    else if Bindable(plugins, q[0]) then 0
    else 1 + FirstBindable(plugins, q[1..])
  }

  /** bindClientToAwaitingLocked: the oldest bindable instance takes the client; dead ids before it go. */
  function BindClient(r: Registry, owner: string, c: Client, now: int): (res: (Registry, Option<InstanceId>))
    ensures res.1.Some? ==> res.1.value in r.plugins
  {
    var q := Queue(r.awaiting, owner);
    var k := FirstBindable(r.plugins, q);
    if k == |q| then (r.(awaiting := r.awaiting[owner := []]), None)
    else
      var rp := r.plugins[q[k]];
      (r.(awaiting := r.awaiting[owner := q[k + 1..]],
          plugins := r.plugins[q[k] := rp.(client := Some(c), beat := now, online := true)]),
       Some(q[k]))
  }

  /** bindNextTunnelLocked: drop dead pending clients, then bind the oldest surviving one. */
  function BindNext(r: Registry, owner: string, dead: set<Client>, now: int): (Registry, Option<InstanceId>) {
    var live := Without(Queue(r.pending, owner), dead);
    var r1 := r.(pending := r.pending[owner := live]);
    if live == [] then (r1, None)
    else
      var (r2, bound) := BindClient(r1, owner, live[0], now);
      if bound.None? then (r2, None)
      else (r2.(pending := r2.pending[owner := live[1..]]), bound)
  }

  /** The part of Register that replaces an instance of the same key and enters the new one. */
  function Enter(r: Registry, id: InstanceId, p: Plugin): Registry {
    var key := KeyOf(p);
    var r1 :=
      if key in r.byName && r.byName[key] in r.plugins
      then RemoveAwaiting(r.(plugins := r.plugins - {r.byName[key]}), p.owner, r.byName[key])
      else r;
    r1.(plugins := r1.plugins[id := p], byName := r1.byName[key := id])
  }

  function NewPlugin(owner: string, name: string, protocol: string, hints: seq<string>, tunnel: bool, n: nat, now: int)
    : Plugin
  {
    Plugin(owner, name, protocol, hints, tunnel, if tunnel then None else Some(Dialed(n)), !tunnel, now)
  }

  /** Register's critical section: the new registry and the instance bound by it, if any. */
  function Register(r: Registry, id: InstanceId, p: Plugin, dead: set<Client>, now: int)
    : (Registry, Option<InstanceId>)
  {
    if r.closed then (r, None)
    else
      var r1 := Enter(r, id, p);
      if !p.tunnel then (r1, None)
      else
        BindNext(r1.(awaiting := r1.awaiting[p.owner := Queue(r1.awaiting, p.owner) + [id]]), p.owner, dead, now)
  }

  /** bindTunnelClient, the hook run when a Connect stream opens. */
  function Connect(r: Registry, owner: string, c: Client, dead: set<Client>, now: int)
    : (Registry, Option<InstanceId>)
  {
    if r.closed then (r, None)
    else
      var (r1, bound) := BindClient(r, owner, c, now);
      if bound.Some? then (r1, bound)
      else (r1.(pending := r1.pending[owner := Without(Queue(r1.pending, owner), dead) + [c]]), None)
  }

  predicate Gone(p: Plugin, dead: set<Client>) {
    p.tunnel && p.client.Some? && p.client.value in dead && p.online
  }

  /** tunnelDisconnected, the hook run when a Connect stream of this owner ends. */
  function Disconnected(r: Registry, owner: string, dead: set<Client>): Registry {
    if r.closed then r
    else
      r.(plugins := map id | id in r.plugins ::
                      if r.plugins[id].owner == owner && Gone(r.plugins[id], dead)
                      then r.plugins[id].(online := false) else r.plugins[id],
         pending := r.pending[owner := Without(Queue(r.pending, owner), dead)])
  }

  function Heartbeat(r: Registry, id: InstanceId, now: int): Registry {
    if id !in r.plugins || r.plugins[id].tunnel then r
    else r.(plugins := r.plugins[id := r.plugins[id].(beat := now, online := true)])
  }

  function Deregister(r: Registry, id: InstanceId): Registry {
    if id !in r.plugins then r
    else
      var p := r.plugins[id];
      RemoveAwaiting(r.(plugins := r.plugins - {id}, byName := r.byName - {KeyOf(p)}), p.owner, id)
  }

  /** A tunnel registration that was never bound within twice the timeout. */
  predicate Stale(p: Plugin, now: int, timeout: int) {
    p.tunnel && p.client.None? && now - p.beat > 2 * timeout
  }

  function Aged(p: Plugin, dead: set<Client>, now: int, timeout: int): Plugin {
    if p.tunnel then (if Gone(p, dead) then p.(online := false) else p)
    else if now - p.beat > timeout && p.online then p.(online := false)
    else p
  }

  function StaleIds(r: Registry, now: int, timeout: int): set<InstanceId> {
    set id | id in r.plugins && Stale(r.plugins[id], now, timeout)
  }

  /** CheckOffline: silent plugins go offline, stale tunnel registrations go away. */
  function CheckOffline(r: Registry, dead: set<Client>, now: int, timeout: int): Registry {
    var stale := StaleIds(r, now, timeout);
    r.(plugins := map id | id in r.plugins && id !in stale :: Aged(r.plugins[id], dead, now, timeout),
       byName := r.byName - (set id | id in stale :: KeyOf(r.plugins[id])),
       awaiting := map o | o in r.awaiting ::
                     Without(r.awaiting[o], set id | id in stale && r.plugins[id].owner == o))
  }

  function Close(r: Registry): Registry { Registry(true, map[], map[], map[], map[]) }

  // ---------- What the operations do, plugin by plugin ----------

  /** A tunnel registration that waits for its Connect. */
  predicate Unbound(p: Plugin) { p.tunnel && p.client.None? }

  /**
   CheckOffline: a dialled plugin stays online exactly if its last heartbeat is no older than the timeout, a
   bound tunnel exactly if its client is alive; an unbound tunnel stays registered exactly up to twice the
   timeout, and otherwise leaves both tables and its owner's queue. Nothing else changes.
   */
  ghost predicate CheckedInto(r: Registry, t: Registry, dead: set<Client>, now: int, timeout: int) {
    && t.closed == r.closed && t.pending == r.pending && t.plugins.Keys <= r.plugins.Keys
    && (forall id :: id in r.plugins ==>
          var p := r.plugins[id];
          && (id in t.plugins <==> !Unbound(p) || now - p.beat <= 2 * timeout)
          && (id in t.plugins ==>
                t.plugins[id] == p.(online := p.online && (if !p.tunnel then now - p.beat <= timeout
                                                           else p.client.None? || p.client.value !in dead))))
    && (forall k :: k in t.byName <==> k in r.byName && !exists id :: id in r.plugins && id !in t.plugins && KeyOf(r.plugins[id]) == k)
    && (forall k :: k in t.byName ==> t.byName[k] == r.byName[k])
    && (forall o, x :: x in Queue(t.awaiting, o) <==>
          x in Queue(r.awaiting, o) && !(x in r.plugins && x !in t.plugins && r.plugins[x].owner == o))
  }

  lemma CheckOfflineExactly(r: Registry, dead: set<Client>, now: int, timeout: int)
    ensures CheckedInto(r, CheckOffline(r, dead, now, timeout), dead, now, timeout)
  {
    var t := CheckOffline(r, dead, now, timeout);
    forall o, x ensures x in Queue(t.awaiting, o) <==>
                          x in Queue(r.awaiting, o) && !(x in r.plugins && x !in t.plugins && r.plugins[x].owner == o) {}
  }

  /** tunnelDisconnected: exactly the owner's tunnels whose client is closed go offline, and the closed
      clients leave the owner's queue. Nothing else changes. */
  ghost predicate DisconnectedInto(r: Registry, t: Registry, owner: string, dead: set<Client>) {
    && t.closed == r.closed && t.byName == r.byName && t.awaiting == r.awaiting && t.plugins.Keys == r.plugins.Keys
    && (forall id :: id in r.plugins ==>
          var p := r.plugins[id];
          var lost := p.tunnel && p.owner == owner && p.client.Some? && p.client.value in dead;
          t.plugins[id] == p.(online := p.online && (r.closed || !lost)))
    && (forall o :: r.closed || o != owner ==> Queue(t.pending, o) == Queue(r.pending, o))
    && (!r.closed ==> forall c :: c in Queue(t.pending, owner) <==> c in Queue(r.pending, owner) && c !in dead)
  }

  lemma DisconnectedExactly(r: Registry, owner: string, dead: set<Client>)
    ensures DisconnectedInto(r, Disconnected(r, owner, dead), owner, dead)
  {}

  /** Heartbeat: a dialled plugin is online and as fresh as the call; nothing else changes. */
  ghost predicate BeatenInto(r: Registry, t: Registry, id: InstanceId, now: int) {
    && t == r.(plugins := t.plugins) && t.plugins.Keys == r.plugins.Keys
    && (forall x :: x in r.plugins && x != id ==> t.plugins[x] == r.plugins[x])
    && (id in r.plugins ==>
          var p, q := r.plugins[id], t.plugins[id];
          if p.tunnel then q == p else q.online && q.beat == now && q == p.(online := q.online, beat := q.beat))
  }

  lemma HeartbeatExactly(r: Registry, id: InstanceId, now: int)
    ensures BeatenInto(r, Heartbeat(r, id, now), id, now)
  {}

  /** No waiting instance is registered and without a client: the queue is emptied and nothing else changes. */
  ghost predicate NoneBound(r: Registry, t: Registry, owner: string) {
    && t == r.(awaiting := t.awaiting) && t.awaiting == r.awaiting[owner := []]
    && forall x :: x in Queue(r.awaiting, owner) && x in r.plugins ==> r.plugins[x].client.Some?
  }

  /** The oldest waiting instance that is registered and has no client gets this one and is online from then
      on; it and the dead ids before it leave the queue. Nothing else changes. */
  ghost predicate BoundTo(r: Registry, t: Registry, owner: string, c: Client, now: int, id: InstanceId) {
    && t == r.(plugins := t.plugins, awaiting := t.awaiting) && id in r.plugins && r.plugins[id].client.None?
    && t.plugins == r.plugins[id := Plugin(r.plugins[id].owner, r.plugins[id].name, r.plugins[id].protocol, r.plugins[id].hints,
                                           r.plugins[id].tunnel, Some(c), true, now)]
    && exists k :: Oldest(r, Queue(r.awaiting, owner), k, id) && t.awaiting == r.awaiting[owner := Queue(r.awaiting, owner)[k + 1..]]
  }

  ghost predicate Oldest(r: Registry, q: seq<InstanceId>, k: nat, id: InstanceId) {
    k < |q| && q[k] == id && forall x :: x in q[..k] && x in r.plugins ==> r.plugins[x].client.Some?
  }

  ghost predicate BoundInto(r: Registry, t: Registry, owner: string, c: Client, now: int, bound: Option<InstanceId>) {
    if bound.None? then NoneBound(r, t, owner) else BoundTo(r, t, owner, c, now, bound.value)
  }

  lemma BindClientExactly(r: Registry, owner: string, c: Client, now: int)
    ensures var (t, bound) := BindClient(r, owner, c, now); BoundInto(r, t, owner, c, now, bound)
  {
    var q := Queue(r.awaiting, owner);
    var k := FirstBindable(r.plugins, q);
    forall x | x in q[..k] && x in r.plugins ensures r.plugins[x].client.Some? {
      var i :| 0 <= i < k && q[i] == x;
      assert !Bindable(r.plugins, q[i]);
    }
    if k == |q| { assert q[..k] == q; } else { assert Oldest(r, q, k, q[k]); }
  }

  // ---------- Lookups ----------

  predicate Usable(p: Plugin) { p.online && p.client.Some? }

  /** findByKey: the first registered candidate key decides. */
  function FindByKey(r: Registry, caller: string, keys: seq<string>): (res: Option<InstanceId>)
    ensures res.Some? ==> res.value in r.plugins && Usable(r.plugins[res.value])
    ensures res.Some? ==> r.plugins[res.value].owner == "" || r.plugins[res.value].owner == caller
  {
    if keys == [] then None
    else if keys[0] !in r.byName then FindByKey(r, caller, keys[1..])
    else
      var id := r.byName[keys[0]];
      if id in r.plugins && Usable(r.plugins[id]) && r.plugins[id].owner in {"", caller} then Some(id) else None
  }

  /** findByKeyAllowed: offline candidates are passed over, the first usable one decides. */
  function FindByKeyAllowed(r: Registry, allowed: set<string>, keys: seq<string>): (res: Option<InstanceId>)
    ensures res.Some? ==> res.value in r.plugins && Usable(r.plugins[res.value]) && r.plugins[res.value].owner in allowed
  {
    if keys == [] then None
    else if keys[0] !in r.byName then FindByKeyAllowed(r, allowed, keys[1..])
    else
      var id := r.byName[keys[0]];
      if id !in r.plugins || !Usable(r.plugins[id]) then FindByKeyAllowed(r, allowed, keys[1..])
      else if r.plugins[id].owner !in allowed then None
      else Some(id)
  }

  /** FindByNameAmong over the candidate keys collected from the owners; without owners the anonymous lookup. */
  function FindByNameAmong(r: Registry, owners: seq<string>, name: string, keys: seq<string>): Option<InstanceId> {
    if keys == [] then FindByKey(r, "", KeyCandidates("", name))
    else FindByKeyAllowed(r, {""} + (set o | o in owners), keys)
  }

  predicate Visible(p: Plugin, owner: string, hint: string) {
    Usable(p) && p.owner in {"", owner} && (p.protocol == hint || hint in p.hints)
  }

  /** The candidate keys of all the owners. */
  ghost predicate AmongKeys(owners: seq<string>, name: string, keys: seq<string>) {
    forall k :: k in keys <==> exists o :: o in owners && k in KeyCandidates(o, name)
  }

  // ---------- Instance ids as text ----------

  function InstanceText(id: InstanceId): string { id.name + "-" + Decimal(id.n) }

  /** Whatever the names, two instances with one text are one instance: the number follows the last dash. */
  lemma {:induction false} InstanceTextInjective(a: InstanceId, b: InstanceId)
    requires InstanceText(a) == InstanceText(b)
    ensures a == b
  {
    var s, t := InstanceText(a), InstanceText(b);
    assert s[|a.name|] == '-' && t[|b.name|] == '-';
    assert s[|a.name| + 1..] == Decimal(a.n) && t[|b.name| + 1..] == Decimal(b.n);
    if |a.name| == |b.name| {
      assert s[..|a.name|] == a.name && t[..|b.name|] == b.name;
      DecimalInjective(a.n, b.n);
    }
  }
}
