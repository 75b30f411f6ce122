/** The registry object: the loops of manager.go and tunnel.go, each proved to compute its operation. */
module RegistryServers {
  import opened Util
  import opened PluginRegistry
  import R = PluginRegistry
  import Runs = RegistryRuns

  lemma {:induction false} RemoveFirstAt<T>(s: seq<T>, x: T, i: nat)
    requires i < |s| && s[i] == x && x !in s[..i]
    ensures RemoveFirst(s, x) == s[..i] + s[i + 1..]
  {
    if i > 0 {
      assert s[0] == s[..i][0];
      assert s[1..][..i - 1] == s[..i][1..];
      RemoveFirstAt(s[1..], x, i - 1);
      HeadOut(s, i);
    }
  }

  lemma HeadOut<T>(s: seq<T>, i: nat)
    requires 0 < i < |s|
    ensures s[..i] + s[i + 1..] == [s[0]] + (s[1..][..i - 1] + s[1..][i..])
  {}

  // ---------- CheckOffline visits the instances one by one, in any order ----------

  ghost function CheckInstance(r: Registry, id: InstanceId, dead: set<Client>, now: int, timeout: int): Registry
    requires id in r.plugins
  {
    var rp := r.plugins[id];
    if Stale(rp, now, timeout)
    then R.RemoveAwaiting(r.(plugins := r.plugins - {id}, byName := r.byName - {KeyOf(rp)}), rp.owner, id)
    else r.(plugins := r.plugins[id := Aged(rp, dead, now, timeout)])
  }

  ghost function StaleOf(r: Registry, now: int, timeout: int, todo: set<InstanceId>, o: string): set<InstanceId> {
    set id | id in StaleIds(r, now, timeout) && id !in todo && r.plugins[id].owner == o
  }

  ghost function CheckedPlugins(plugins: map<InstanceId, Plugin>, dead: set<Client>, now: int, timeout: int, todo: set<InstanceId>): map<InstanceId, Plugin> {
    map id | id in plugins && (id in todo || !Stale(plugins[id], now, timeout)) ::
      if id in todo then plugins[id] else Aged(plugins[id], dead, now, timeout)
  }

  lemma VisitOne(plugins: map<InstanceId, Plugin>, dead: set<Client>, now: int, timeout: int, todo: set<InstanceId>, id: InstanceId)
    requires id in todo && id in plugins
    ensures var c := CheckedPlugins(plugins, dead, now, timeout, todo);
            CheckedPlugins(plugins, dead, now, timeout, todo - {id})
            == if Stale(plugins[id], now, timeout) then c - {id} else c[id := Aged(plugins[id], dead, now, timeout)]
  {}

  /** The registry when all instances of `r` but `todo` have been visited. */
  ghost function Checked(r: Registry, dead: set<Client>, now: int, timeout: int, todo: set<InstanceId>): Registry {
    r.(plugins := CheckedPlugins(r.plugins, dead, now, timeout, todo),
       byName := r.byName - (set id | id in StaleIds(r, now, timeout) && id !in todo :: KeyOf(r.plugins[id])),
       awaiting := CheckedAwaiting(r, now, timeout, todo))
  }

  ghost function CheckedAwaiting(r: Registry, now: int, timeout: int, todo: set<InstanceId>): map<string, seq<InstanceId>> {
    map o | o in r.awaiting :: Without(r.awaiting[o], StaleOf(r, now, timeout, todo, o))
  }

  lemma CheckedNone(r: Registry, dead: set<Client>, now: int, timeout: int)
    ensures Checked(r, dead, now, timeout, r.plugins.Keys) == r
  {
    forall o | o in r.awaiting
      ensures Without(r.awaiting[o], StaleOf(r, now, timeout, r.plugins.Keys, o)) == r.awaiting[o]
    {
      WithoutAbsent(r.awaiting[o], StaleOf(r, now, timeout, r.plugins.Keys, o));
    }
    assert Checked(r, dead, now, timeout, r.plugins.Keys).awaiting == r.awaiting;
  }

  lemma CheckedAll(r: Registry, dead: set<Client>, now: int, timeout: int)
    ensures Checked(r, dead, now, timeout, {}) == R.CheckOffline(r, dead, now, timeout)
  {
    var a, b := Checked(r, dead, now, timeout, {}), R.CheckOffline(r, dead, now, timeout);
    assert a.plugins == b.plugins;
    assert a.byName == b.byName;
    forall o | o in r.awaiting
      ensures StaleOf(r, now, timeout, {}, o)
              == set id | id in StaleIds(r, now, timeout) && r.plugins[id].owner == o
    {}
    assert a.awaiting == b.awaiting;
  }

  lemma CheckedQueue(r: Registry, now: int, timeout: int, todo: set<InstanceId>, id: InstanceId, o: string)
    requires o in r.awaiting && Distinct(r.awaiting[o]) && id in todo && id in StaleIds(r, now, timeout)
    ensures var q := Without(r.awaiting[o], StaleOf(r, now, timeout, todo, o));
            Without(r.awaiting[o], StaleOf(r, now, timeout, todo - {id}, o))
            == if r.plugins[id].owner == o then RemoveFirst(q, id) else q
  {
    var before, after := StaleOf(r, now, timeout, todo, o), StaleOf(r, now, timeout, todo - {id}, o);
    if r.plugins[id].owner == o {
      assert after == before + {id};
      WithoutTwice(r.awaiting[o], before, {id});
      WithoutDistinct(r.awaiting[o], before);
      RemoveFirstIsWithout(Without(r.awaiting[o], before), id);
    } else {
      assert after == before;
    }
  }

  lemma CheckedOnePlugins(r: Registry, dead: set<Client>, now: int, timeout: int, todo: set<InstanceId>, id: InstanceId)
    requires id in todo && todo <= r.plugins.Keys
    ensures CheckInstance(Checked(r, dead, now, timeout, todo), id, dead, now, timeout).plugins
            == Checked(r, dead, now, timeout, todo - {id}).plugins
  {
    VisitOne(r.plugins, dead, now, timeout, todo, id);
  }

  lemma CheckedOneNames(r: Registry, dead: set<Client>, now: int, timeout: int, todo: set<InstanceId>, id: InstanceId)
    requires id in todo && todo <= r.plugins.Keys
    ensures CheckInstance(Checked(r, dead, now, timeout, todo), id, dead, now, timeout).byName
            == Checked(r, dead, now, timeout, todo - {id}).byName
  {}

  lemma CheckedOneAwaiting(r: Registry, dead: set<Client>, now: int, timeout: int, todo: set<InstanceId>, id: InstanceId)
    requires id in todo && todo <= r.plugins.Keys
    requires forall o :: o in r.awaiting ==> Distinct(r.awaiting[o])
    ensures CheckInstance(Checked(r, dead, now, timeout, todo), id, dead, now, timeout).awaiting
            == Checked(r, dead, now, timeout, todo - {id}).awaiting
  {
    VisitOne(r.plugins, dead, now, timeout, todo, id);
    if Stale(r.plugins[id], now, timeout) { StaleLeaves(r, now, timeout, todo, id); } else { FreshStays(r, now, timeout, todo, id); }
  }

  lemma StaleLeaves(r: Registry, now: int, timeout: int, todo: set<InstanceId>, id: InstanceId)
    requires id in todo && id in StaleIds(r, now, timeout) && forall o :: o in r.awaiting ==> Distinct(r.awaiting[o])
    ensures var c, owner := CheckedAwaiting(r, now, timeout, todo), r.plugins[id].owner;
            CheckedAwaiting(r, now, timeout, todo - {id})
            == if id in Queue(c, owner) then c[owner := RemoveFirst(c[owner], id)] else c
  {
    var c, d, owner := CheckedAwaiting(r, now, timeout, todo), CheckedAwaiting(r, now, timeout, todo - {id}), r.plugins[id].owner;
    forall o | o in c ensures d[o] == if o == owner then RemoveFirst(c[o], id) else c[o] {
      CheckedQueue(r, now, timeout, todo, id, o);
    }
    OneQueue(c, d, owner, id);
  }

  lemma OneQueue(c: map<string, seq<InstanceId>>, d: map<string, seq<InstanceId>>, owner: string, id: InstanceId)
    requires d.Keys == c.Keys && forall o :: o in c ==> d[o] == if o == owner then RemoveFirst(c[o], id) else c[o]
    ensures d == if id in Queue(c, owner) then c[owner := RemoveFirst(c[owner], id)] else c
  {}

  lemma FreshStays(r: Registry, now: int, timeout: int, todo: set<InstanceId>, id: InstanceId)
    requires id !in StaleIds(r, now, timeout)
    ensures CheckedAwaiting(r, now, timeout, todo - {id}) == CheckedAwaiting(r, now, timeout, todo)
  {
    forall o | o in r.awaiting ensures StaleOf(r, now, timeout, todo, o) == StaleOf(r, now, timeout, todo - {id}, o) {}
  }

  lemma CheckedOne(r: Registry, dead: set<Client>, now: int, timeout: int, todo: set<InstanceId>, id: InstanceId)
    requires id in todo && todo <= r.plugins.Keys
    requires forall o :: o in r.awaiting ==> Distinct(r.awaiting[o])
    ensures CheckInstance(Checked(r, dead, now, timeout, todo), id, dead, now, timeout)
            == Checked(r, dead, now, timeout, todo - {id})
  {
    CheckedOnePlugins(r, dead, now, timeout, todo, id);
    CheckedOneNames(r, dead, now, timeout, todo, id);
    CheckedOneAwaiting(r, dead, now, timeout, todo, id);
  }

  class RegistryServer {
    var closed: bool
    var plugins: map<InstanceId, Plugin>
    var byName: map<string, InstanceId>
    var tunnelAwaiting: map<string, seq<InstanceId>>
    var tunnelPending: map<string, seq<Client>>

    ghost function View(): Registry
      reads this
    {
      Registry(closed, plugins, byName, tunnelAwaiting, tunnelPending)
    }

    constructor ()
      ensures View() == EMPTY
    {
      closed, plugins, byName, tunnelAwaiting, tunnelPending := false, map[], map[], map[], map[];
    }

    method RemoveAwaitingLocked(owner: string, id: InstanceId)
      modifies this`tunnelAwaiting
      ensures View() == R.RemoveAwaiting(old(View()), owner, id)
    {
      var awaiting := Queue(tunnelAwaiting, owner);
      for i := 0 to |awaiting|
        invariant id !in awaiting[..i]
        invariant tunnelAwaiting == old(tunnelAwaiting)
      {
        if awaiting[i] == id {
          tunnelAwaiting := tunnelAwaiting[owner := awaiting[..i] + awaiting[i + 1..]];
          RemoveFirstAt(awaiting, id, i);
          return;
        }
      }
    }

    method BindClientToAwaitingLocked(owner: string, client: Client, now: int) returns (bound: Option<InstanceId>)
      modifies this`tunnelAwaiting, this`plugins
      ensures (View(), bound) == R.BindClient(old(View()), owner, client, now)
    {
      var awaiting := Queue(tunnelAwaiting, owner);
      ghost var q := awaiting;
      while |awaiting| > 0
        invariant View() == old(View())
        invariant |awaiting| <= |q| && awaiting == q[|q| - |awaiting|..]
        invariant FirstBindable(plugins, q) == |q| - |awaiting| + FirstBindable(plugins, awaiting)
      {
        var front := awaiting[0];
        awaiting := awaiting[1..];
        if front in plugins && plugins[front].client.None? {
          tunnelAwaiting := tunnelAwaiting[owner := awaiting];
          plugins := plugins[front := plugins[front].(client := Some(client), beat := now, online := true)];
          return Some(front);
        }
      }
      tunnelAwaiting := tunnelAwaiting[owner := awaiting];
      return None;
    }

    static method PruneTunnelPending(pending: seq<Client>, dead: set<Client>) returns (out: seq<Client>)
      ensures out == Without(pending, dead)
    {
      out := [];
      for i := 0 to |pending|
        invariant out == Without(pending[..i], dead)
      {
        assert pending[..i + 1] == pending[..i] + [pending[i]];
        WithoutSnoc(pending[..i], pending[i], dead);
        if pending[i] !in dead { out := out + [pending[i]]; }
      }
      assert pending[..|pending|] == pending;
    }

    method BindNextTunnelLocked(owner: string, dead: set<Client>, now: int) returns (bound: Option<InstanceId>)
      modifies this`tunnelAwaiting, this`plugins, this`tunnelPending
      ensures (View(), bound) == R.BindNext(old(View()), owner, dead, now)
    {
      var pending := PruneTunnelPending(Queue(tunnelPending, owner), dead);
      tunnelPending := tunnelPending[owner := pending];
      if |pending| == 0 { return None; }
      bound := BindClientToAwaitingLocked(owner, pending[0], now);
      if bound.Some? { tunnelPending := tunnelPending[owner := pending[1..]]; }
    }

    method Register(id: InstanceId, rp: Plugin, dead: set<Client>, now: int)
      returns (ok: bool, bound: Option<InstanceId>)
      modifies this
      ensures ok == !old(closed)
      ensures (View(), bound) == R.Register(old(View()), id, rp, dead, now)
    {
      bound := None;
      if closed { return false, None; }
      var key := KeyOf(rp);
      if key in byName {
        var prior := byName[key];
        if prior in plugins {
          plugins := plugins - {prior};
          RemoveAwaitingLocked(rp.owner, prior);
        }
      }
      plugins := plugins[id := rp];
      byName := byName[key := id];
      if rp.tunnel {
        tunnelAwaiting := tunnelAwaiting[rp.owner := Queue(tunnelAwaiting, rp.owner) + [id]];
        bound := BindNextTunnelLocked(rp.owner, dead, now);
      }
      return true, bound;
    }

    method BindTunnelClient(owner: string, client: Client, dead: set<Client>, now: int)
      returns (bound: Option<InstanceId>)
      modifies this
      ensures (View(), bound) == R.Connect(old(View()), owner, client, dead, now)
    {
      if closed { return None; }
      bound := BindClientToAwaitingLocked(owner, client, now);
      if bound.None? {
        var live := PruneTunnelPending(Queue(tunnelPending, owner), dead);
        tunnelPending := tunnelPending[owner := live + [client]];
      }
    }

    /** The scan of tunnelDisconnected over the instance table. */
    static method MarkOffline(plugins: map<InstanceId, Plugin>, owner: string, dead: set<Client>)
      returns (out: map<InstanceId, Plugin>)
      ensures out == map id | id in plugins ::
                       if plugins[id].owner == owner && Gone(plugins[id], dead)
                       then plugins[id].(online := false) else plugins[id]
    {
      out := plugins;
      var todo := plugins.Keys;
      while todo != {}
        invariant todo <= plugins.Keys && out.Keys == plugins.Keys
        invariant forall id :: id in todo ==> out[id] == plugins[id]
        invariant forall id :: id in plugins && id !in todo ==>
                    out[id] == if plugins[id].owner == owner && Gone(plugins[id], dead)
                               then plugins[id].(online := false) else plugins[id]
        decreases |todo|
      {
        var id :| id in todo;
        todo := todo - {id};
        var rp := out[id];
        if rp.tunnel && rp.owner == owner && rp.client.Some? && rp.client.value in dead && rp.online {
          out := out[id := rp.(online := false)];
        }
      }
    }

    method TunnelDisconnected(owner: string, dead: set<Client>)
      modifies this
      ensures View() == R.Disconnected(old(View()), owner, dead)
      ensures DisconnectedInto(old(View()), View(), owner, dead)
    {
      DisconnectedExactly(View(), owner, dead);
      if closed { return; }
      plugins := MarkOffline(plugins, owner, dead);
      var live := PruneTunnelPending(Queue(tunnelPending, owner), dead);
      tunnelPending := tunnelPending[owner := live];
    }

    /** One turn of CheckOffline's loop over the instance table. */
    method CheckOne(id: InstanceId, dead: set<Client>, now: int, timeout: int)
      requires id in plugins
      modifies this
      ensures View() == CheckInstance(old(View()), id, dead, now, timeout)
    {
      var rp := plugins[id];
      if rp.tunnel {
        if rp.client.Some? && rp.online && rp.client.value in dead {
          plugins := plugins[id := rp.(online := false)];
        }
        if rp.client.None? && now - rp.beat > 2 * timeout {
          plugins := plugins - {id};
          byName := byName - {KeyOf(rp)};
          RemoveAwaitingLocked(rp.owner, id);
        }
      } else if now - rp.beat > timeout && rp.online {
        plugins := plugins[id := rp.(online := false)];
      }
      assert plugins == CheckInstance(old(View()), id, dead, now, timeout).plugins;
    }

    method CheckOffline(dead: set<Client>, now: int, timeout: int)
      requires forall o :: o in tunnelAwaiting ==> Distinct(tunnelAwaiting[o])
      modifies this
      ensures View() == R.CheckOffline(old(View()), dead, now, timeout)
      ensures CheckedInto(old(View()), View(), dead, now, timeout)
    {
      CheckOfflineExactly(View(), dead, now, timeout);
      ghost var r := View();
      var todo := plugins.Keys;
      CheckedNone(r, dead, now, timeout);
      while todo != {}
        invariant todo <= r.plugins.Keys && View() == Checked(r, dead, now, timeout, todo)
        decreases |todo|
      {
        var id :| id in todo;
        CheckOne(id, dead, now, timeout);
        CheckedOne(r, dead, now, timeout, todo, id);
        todo := todo - {id};
      }
      CheckedAll(r, dead, now, timeout);
    }

    method Heartbeat(id: InstanceId, now: int) returns (ok: bool)
      modifies this`plugins
      ensures ok == (id in old(plugins)) && View() == R.Heartbeat(old(View()), id, now)
      ensures BeatenInto(old(View()), View(), id, now)
    {
      HeartbeatExactly(View(), id, now);
      if id !in plugins { return false; }
      var rp := plugins[id];
      if !rp.tunnel { plugins := plugins[id := rp.(beat := now, online := true)]; }
      return true;
    }

    method Deregister(id: InstanceId) returns (ok: bool)
      modifies this
      ensures ok == (id in old(plugins)) && View() == R.Deregister(old(View()), id)
    {
      if id !in plugins { return false; }
      var rp := plugins[id];
      plugins := plugins - {id};
      byName := byName - {KeyOf(rp)};
      RemoveAwaitingLocked(rp.owner, id);
      return true;
    }

    method Close()
      modifies this
      ensures View() == R.Close(old(View()))
    {
      closed := true;
      plugins, byName, tunnelPending, tunnelAwaiting := map[], map[], map[], map[];
    }

    method FindByKey(caller: string, keys: seq<string>) returns (res: Option<InstanceId>)
      ensures res == R.FindByKey(View(), caller, keys)
    {
      for i := 0 to |keys|
        invariant R.FindByKey(View(), caller, keys) == R.FindByKey(View(), caller, keys[i..])
      {
        assert keys[i..][1..] == keys[i + 1..];
        if keys[i] in byName {
          var id := byName[keys[i]];
          if id !in plugins || !plugins[id].online || plugins[id].client.None? { return None; }
          if plugins[id].owner != "" && plugins[id].owner != caller { return None; }
          return Some(id);
        }
      }
      return None;
    }

    method FindByKeyAllowed(allowed: set<string>, keys: seq<string>) returns (res: Option<InstanceId>)
      ensures res == R.FindByKeyAllowed(View(), allowed, keys)
    {
      for i := 0 to |keys|
        invariant R.FindByKeyAllowed(View(), allowed, keys) == R.FindByKeyAllowed(View(), allowed, keys[i..])
      {
        assert keys[i..][1..] == keys[i + 1..];
        if keys[i] in byName {
          var id := byName[keys[i]];
          if id in plugins && plugins[id].online && plugins[id].client.Some? {
            if plugins[id].owner !in allowed { return None; }
            return Some(id);
          }
        }
      }
      return None;
    }

    /** In every registry a run can reach, the result is the plugin the caller asks for, if there is one. */
    method FindByNameFor(owner: string, name: string) returns (res: Option<InstanceId>)
      ensures res == R.FindByKey(View(), owner, KeyCandidates(owner, name))
      ensures forall w :: Runs.Reachable(w) && w.reg == View() ==> forall id :: res == Some(id) <==> Runs.Found(View(), owner, name, id)
    {
      res := FindByKey(owner, KeyCandidates(owner, name));
      forall w, id | Runs.Reachable(w) && w.reg == View() ensures res == Some(id) <==> Runs.Found(View(), owner, name, id) {
        Runs.LookupByName(w, owner, name, id);
      }
    }

    method FindByNameAmong(owners: seq<string>, name: string) returns (res: Option<InstanceId>)
      ensures exists keys :: AmongKeys(owners, name, keys) && res == R.FindByNameAmong(View(), owners, name, keys)
    {
      var keys, allowed := AmongCandidates(owners, name);
      if |keys| == 0 {
        res := FindByNameFor("", name);
      } else {
        res := FindByKeyAllowed(allowed, keys);
      }
    }

    /** FindFor: some visible plugin answering to the protocol hint, if there is one. */
    method FindFor(owner: string, hint: string) returns (res: Option<InstanceId>)
      ensures res.Some? ==>
                && res.value in plugins
                && (var p := plugins[res.value];
                    p.online && p.client.Some? && (p.owner == "" || p.owner == owner) && (p.protocol == hint || hint in p.hints))
      ensures res.None? ==> forall id :: id in plugins ==>
                var p := plugins[id];
                !p.online || p.client.None? || (p.owner != "" && p.owner != owner) || (p.protocol != hint && hint !in p.hints)
    {
      var todo := plugins.Keys;
      while todo != {}
        invariant todo <= plugins.Keys
        invariant forall id :: id in plugins && id !in todo ==> !Visible(plugins[id], owner, hint)
        decreases |todo|
      {
        var id :| id in todo;
        todo := todo - {id};
        var rp := plugins[id];
        if rp.online && rp.client.Some? && (rp.owner == "" || (owner != "" && rp.owner == owner)) {
          if rp.protocol == hint { return Some(id); }
          for i := 0 to |rp.hints|
            invariant hint !in rp.hints[..i]
          {
            if rp.hints[i] == hint { return Some(id); }
          }
        }
      }
      return None;
    }

    /** amongCandidates: every owner's candidate keys once, and the owners whose plugins may answer. */
    static method AmongCandidates(owners: seq<string>, name: string) returns (keys: seq<string>, allowed: set<string>)
      ensures Distinct(keys) && AmongKeys(owners, name, keys)
      ensures allowed == {""} + (set o | o in owners)
    {
      keys, allowed := [], {""};
      for i := 0 to |owners|
        invariant Distinct(keys) && AmongKeys(owners[..i], name, keys)
        invariant allowed == {""} + (set o | o in owners[..i])
      {
        allowed := allowed + {owners[i]};
        var cand := KeyCandidates(owners[i], name);
        ghost var before := keys;
        for j := 0 to |cand|
          invariant Distinct(keys)
          invariant forall k :: k in keys <==> k in before || k in cand[..j]
        {
          if cand[j] !in keys { keys := keys + [cand[j]]; }
        }
        assert owners[..i + 1] == owners[..i] + [owners[i]];
        assert cand[..|cand|] == cand;
        AmongKeysSnoc(owners[..i], name, before, owners[i], keys);
      }
      assert owners[..|owners|] == owners;
    }
  }

  lemma AmongKeysSnoc(owners: seq<string>, name: string, before: seq<string>, o: string, keys: seq<string>)
    requires AmongKeys(owners, name, before)
    requires forall k :: k in keys <==> k in before || k in KeyCandidates(o, name)
    ensures AmongKeys(owners + [o], name, keys)
  {
    forall k ensures k in keys <==> exists x :: x in owners + [o] && k in KeyCandidates(x, name) {
      if k in KeyCandidates(o, name) { assert o in owners + [o]; }
      if k in before {
        var x :| x in owners && k in KeyCandidates(x, name);
        assert x in owners + [o];
      }
    }
  }
}
