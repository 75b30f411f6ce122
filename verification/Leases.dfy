/**
 Proxy leases and their three port pools (cmd/gt-pipeline/proxy_lease.go:53-61, 256-384, 405-515, 520-573,
 666-774). Every section under leaseMu and every call on a pool is a step; operations interleave freely,
 also on the same lease.
 */
module Leases {
  import opened Util
  import opened PortRanges

  const MAX_PER_OWNER: nat := 5

  /** In the table; taken out of it by reclaimLease with its gRPC port still to be returned; done with. */
  datatype Phase = Live | Dying | Dead

  /** `session` is empty and `grpcPort` 0 while the lease is not capturing. */
  datatype Lease = Lease(owner: string, agentPort: int, ctrlPort: int, grpcPort: int, session: string, phase: Phase)

  /** CreateProxyLease between its two allocations, leaseMu held. */
  datatype Making = Making(owner: string, key: Option<string>, agentPort: int)

  /** CreateProxyLease with both ports and the agent being started. */
  datatype Creating = Creating(owner: string, key: Option<string>, agentPort: int, ctrlPort: int)

  /** StartLeaseCapture with its port and the session being started. */
  datatype Starting = Starting(lease: string, port: int)

  /** Ports about to be given back, in this order, by code that no longer holds leaseMu. */
  datatype Debt = Both(agent: int, ctrl: int) | OnlyCtrl(ctrl: int) | Grpc(port: int)

  /** Who holds a port. `Lost` ports are held by nobody and never come back. */
  datatype Holder = ByLease(id: string) | ByMaking | ByCreate(t: nat) | ByStart(t: nat) | ByDebt(k: nat) | Lost(port: int)

  /** The three `By` maps, `lost` and `misses` are histories: the holder of each port in use, the ports lost
      and the number of StartLeaseCapture commits that found their lease capturing or reclaimed. */
  datatype State = State(
    leases: map<string, Lease>, sticky: map<string, int>, agent: Pool, ctrl: Pool, grpc: Pool,
    making: Option<Making>, creating: map<nat, Creating>, starting: map<nat, Starting>, debts: map<nat, Debt>,
    agentBy: map<int, Holder>, ctrlBy: map<int, Holder>, grpcBy: map<int, Holder>, lost: set<int>, misses: nat)

  function Fresh(agent: Pool, ctrl: Pool, grpc: Pool): State {
    State(map[], map[], agent, ctrl, grpc, None, map[], map[], map[], map[], map[], map[], {}, 0)
  }

  /** The service's own ranges. */
  const SERVICE := Fresh(Pool(12100, 12199, {}, 0), Pool(19500, 19599, {}, 0), Pool(19100, 19199, {}, 0))

  /** `t`, `k` and `id` name the new call, debt and lease; `key` is the sticky key, absent without a device. */
  datatype Op =
    | TakeAgent(owner: string, key: Option<string>, wanted: Option<string>)
    | TakeCtrl(t: nat)
    | CreateFails(t: nat, k: nat)
    | CreateCommits(t: nat, id: string, k: nat)
    | StartTakes(t: nat, id: string)
    | StartFails(t: nat)
    | StartCommits(t: nat, session: string)
    | Clear(id: string, session: string, k: nat)
    | Reclaim(id: string, k: nat)
    | FreeGrpc(id: string)
    | Pay(k: nat)

  predicate IsLive(s: State, id: string) { id in s.leases && s.leases[id].phase.Live? }

  ghost function LiveOf(s: State, owner: string): set<string> {
    set id | id in s.leases && s.leases[id].phase.Live? && s.leases[id].owner == owner
  }

  ghost predicate Enabled(s: State, op: Op) {
    match op
    case TakeAgent(_, _, _) => s.making.None?
    case TakeCtrl(t) => s.making.Some? && t !in s.creating
    case CreateFails(t, k) => t in s.creating && k !in s.debts
    case CreateCommits(t, id, k) => s.making.None? && t in s.creating && id !in s.leases && k !in s.debts
    case StartTakes(t, id) => s.making.None? && t !in s.starting && id in s.leases && s.leases[id].session == ""
    case StartFails(t) => t in s.starting
    case StartCommits(t, session) => s.making.None? && t in s.starting && s.starting[t].lease in s.leases && session != ""
    case Clear(id, session, k) => s.making.None? && IsLive(s, id) && s.leases[id].session == session != "" && k !in s.debts
    case Reclaim(id, k) => s.making.None? && IsLive(s, id) && k !in s.debts
    case FreeGrpc(id) => id in s.leases && s.leases[id].phase.Dying?
    case Pay(k) => k in s.debts
  }

  /** The remembered port if the caller wants it and it is free. */
  function StickyPort(s: State, wanted: Option<string>): Option<int> {
    if wanted.Some? && wanted.value in s.sticky && Reservable(s.agent, s.sticky[wanted.value])
    then Some(s.sticky[wanted.value]) else None
  }

  /** allocateAgentPortLocked: exhaustion is swallowed and shows as port 0. */
  function AgentPort(s: State, wanted: Option<string>): int {
    if StickyPort(s, wanted).Some? then StickyPort(s, wanted).value
    else if Port(s.agent).Some? then Port(s.agent).value else 0
  }

  function TakeAgentStep(s: State, owner: string, key: Option<string>, wanted: Option<string>): State {
    var p := AgentPort(s, wanted);
    s.(making := Some(Making(owner, key, p)),
       agent := if StickyPort(s, wanted).Some? then Reserved(s.agent, p) else Allocated(s.agent),
       agentBy := if p == 0 then s.agentBy else s.agentBy[p := ByMaking])
  }

  function TakeCtrlStep(s: State, t: nat): State
    requires s.making.Some?
  {
    if Port(s.ctrl).None? then NoCtrl(s, s.making.value) else GotCtrl(s, s.making.value, t, Port(s.ctrl).value)
  }

  function NoCtrl(s: State, m: Making): State {
    s.(making := None, agent := Released(s.agent, m.agentPort), agentBy := s.agentBy - {m.agentPort})
  }

  function GotCtrl(s: State, m: Making, t: nat, c: int): State {
    s.(making := None, creating := s.creating[t := Creating(m.owner, m.key, m.agentPort, c)],
       ctrl := Allocated(s.ctrl), ctrlBy := s.ctrlBy[c := ByCreate(t)],
       agentBy := if m.agentPort == 0 then s.agentBy else s.agentBy[m.agentPort := ByCreate(t)])
  }

  function CreateFailsStep(s: State, t: nat, k: nat): State
    requires t in s.creating
  {
    var c := s.creating[t];
    s.(creating := s.creating - {t}, debts := s.debts[k := Both(c.agentPort, c.ctrlPort)],
       ctrlBy := s.ctrlBy[c.ctrlPort := ByDebt(k)],
       agentBy := if c.agentPort == 0 then s.agentBy else s.agentBy[c.agentPort := ByDebt(k)])
  }

  ghost function CreateCommitsStep(s: State, t: nat, id: string, k: nat): State
    requires t in s.creating
  {
    var c := s.creating[t];
    if |LiveOf(s, c.owner)| >= MAX_PER_OWNER then CreateFailsStep(s, t, k)
    else
      s.(creating := s.creating - {t},
         leases := s.leases[id := Lease(c.owner, c.agentPort, c.ctrlPort, 0, "", Live)],
         sticky := if c.key.Some? then s.sticky[c.key.value := c.agentPort] else s.sticky,
         ctrlBy := s.ctrlBy[c.ctrlPort := ByLease(id)],
         agentBy := if c.agentPort == 0 then s.agentBy else s.agentBy[c.agentPort := ByLease(id)])
  }

  function StartTakesStep(s: State, t: nat, id: string): State {
    if Port(s.grpc).None? then s else GotGrpc(s, t, id, Port(s.grpc).value)
  }

  function GotGrpc(s: State, t: nat, id: string, p: int): State {
    s.(starting := s.starting[t := Starting(id, p)], grpc := Allocated(s.grpc), grpcBy := s.grpcBy[p := ByStart(t)])
  }

  function StartFailsStep(s: State, t: nat): State
    requires t in s.starting
  {
    var p := s.starting[t].port;
    s.(starting := s.starting - {t}, grpc := Released(s.grpc, p), grpcBy := s.grpcBy - {p})
  }

  /** The port that loses its holder when `p` is written into a lease: `p` itself if the lease is done
      with, the port written over if it was capturing. */
  function Casualty(l: Lease, p: int): Option<int> {
    if l.phase.Dead? then Some(p) else if l.grpcPort > 0 then Some(l.grpcPort) else None
  }

  function HandOver(holders: map<int, Holder>, id: string, l: Lease, p: int): map<int, Holder> {
    if l.phase.Dead? then holders[p := Lost(p)]
    else if l.grpcPort > 0 then holders[p := ByLease(id)][l.grpcPort := Lost(l.grpcPort)]
    else holders[p := ByLease(id)]
  }

  /** The commit overwrites session and port without looking at them again. */
  function StartCommitsStep(s: State, t: nat, session: string): State
    requires t in s.starting && s.starting[t].lease in s.leases
  {
    var id, p := s.starting[t].lease, s.starting[t].port;
    var l := s.leases[id];
    s.(starting := s.starting - {t}, leases := s.leases[id := l.(session := session, grpcPort := p)],
       grpcBy := HandOver(s.grpcBy, id, l, p),
       lost := if Casualty(l, p).Some? then s.lost + {Casualty(l, p).value} else s.lost,
       misses := if Casualty(l, p).Some? then s.misses + 1 else s.misses)
  }

  function ClearStep(s: State, id: string, k: nat): State
    requires id in s.leases
  {
    var l := s.leases[id];
    s.(leases := s.leases[id := l.(session := "", grpcPort := 0)],
       debts := s.debts[k := Grpc(l.grpcPort)], grpcBy := s.grpcBy[l.grpcPort := ByDebt(k)])
  }

  function ReclaimStep(s: State, id: string, k: nat): State
    requires id in s.leases
  {
    var l := s.leases[id];
    s.(leases := s.leases[id := l.(phase := Dying)], debts := s.debts[k := Both(l.agentPort, l.ctrlPort)],
       ctrlBy := s.ctrlBy[l.ctrlPort := ByDebt(k)],
       agentBy := if l.agentPort == 0 then s.agentBy else s.agentBy[l.agentPort := ByDebt(k)])
  }

  function FreeGrpcStep(s: State, id: string): State
    requires id in s.leases
  {
    var l := s.leases[id];
    s.(leases := s.leases[id := l.(phase := Dead)],
       grpc := if l.grpcPort > 0 then Released(s.grpc, l.grpcPort) else s.grpc,
       grpcBy := if l.grpcPort > 0 then s.grpcBy - {l.grpcPort} else s.grpcBy)
  }

  function PayStep(s: State, k: nat): State
    requires k in s.debts
  {
    match s.debts[k]
    case Both(a, c) => PayAgent(s, k, a, c)
    case OnlyCtrl(c) => PayCtrl(s, k, c)
    case Grpc(p) => PayGrpc(s, k, p)
  }

  function PayAgent(s: State, k: nat, a: int, c: int): State {
    s.(debts := s.debts[k := OnlyCtrl(c)], agent := Released(s.agent, a), agentBy := s.agentBy - {a})
  }

  function PayCtrl(s: State, k: nat, c: int): State {
    s.(debts := s.debts - {k}, ctrl := Released(s.ctrl, c), ctrlBy := s.ctrlBy - {c})
  }

  function PayGrpc(s: State, k: nat, p: int): State {
    s.(debts := s.debts - {k}, grpc := Released(s.grpc, p), grpcBy := s.grpcBy - {p})
  }

  ghost function Step(s: State, op: Op): State
    requires Enabled(s, op)
  {
    match op
    case TakeAgent(owner, key, wanted) => TakeAgentStep(s, owner, key, wanted)
    case TakeCtrl(t) => TakeCtrlStep(s, t)
    case CreateFails(t, k) => CreateFailsStep(s, t, k)
    case CreateCommits(t, id, k) => CreateCommitsStep(s, t, id, k)
    case StartTakes(t, id) => StartTakesStep(s, t, id)
    case StartFails(t) => StartFailsStep(s, t)
    case StartCommits(t, session) => StartCommitsStep(s, t, session)
    case Clear(id, _, k) => ClearStep(s, id, k)
    case Reclaim(id, k) => ReclaimStep(s, id, k)
    case FreeGrpc(id) => FreeGrpcStep(s, id)
    case Pay(k) => PayStep(s, k)
  }

  ghost predicate Legal(s: State, ops: seq<Op>)
    decreases |ops|
  {
    ops == [] || (Enabled(s, ops[0]) && Legal(Step(s, ops[0]), ops[1..]))
  }

  ghost function Run(s: State, ops: seq<Op>): State
    requires Legal(s, ops)
    decreases |ops|
  {
    if ops == [] then s else Run(Step(s, ops[0]), ops[1..])
  }

  // ---------- Claims: the port each holder has, read off the real state ----------

  function OrNone(p: int): Option<int> { if p == 0 then None else Some(p) }

  function AgentClaimIn(leases: map<string, Lease>, making: Option<Making>, creating: map<nat, Creating>,
                        debts: map<nat, Debt>, h: Holder): Option<int> {
    match h
    case ByLease(id) => if id in leases && leases[id].phase.Live? then OrNone(leases[id].agentPort) else None
    case ByMaking => if making.Some? then OrNone(making.value.agentPort) else None
    case ByCreate(t) => if t in creating then OrNone(creating[t].agentPort) else None
    case ByDebt(k) => if k in debts && debts[k].Both? then OrNone(debts[k].agent) else None
    case _ => None
  }

  function CtrlClaimIn(leases: map<string, Lease>, creating: map<nat, Creating>, debts: map<nat, Debt>, h: Holder): Option<int> {
    match h
    case ByLease(id) => if id in leases && leases[id].phase.Live? then Some(leases[id].ctrlPort) else None
    case ByCreate(t) => if t in creating then Some(creating[t].ctrlPort) else None
    case ByDebt(k) => if k in debts && !debts[k].Grpc? then Some(debts[k].ctrl) else None
    case _ => None
  }

  function GrpcClaimIn(leases: map<string, Lease>, starting: map<nat, Starting>, debts: map<nat, Debt>, lost: set<int>,
                       h: Holder): Option<int> {
    match h
    case ByLease(id) =>
      if id in leases && !leases[id].phase.Dead? && leases[id].grpcPort > 0 then Some(leases[id].grpcPort) else None
    case ByStart(t) => if t in starting then Some(starting[t].port) else None
    case ByDebt(k) => if k in debts && debts[k].Grpc? then Some(debts[k].port) else None
    case Lost(p) => if p in lost then Some(p) else None
    case _ => None
  }

  function AgentClaim(s: State, h: Holder): Option<int> { AgentClaimIn(s.leases, s.making, s.creating, s.debts, h) }

  function CtrlClaim(s: State, h: Holder): Option<int> { CtrlClaimIn(s.leases, s.creating, s.debts, h) }

  function GrpcClaim(s: State, h: Holder): Option<int> { GrpcClaimIn(s.leases, s.starting, s.debts, s.lost, h) }

  /** `holders` and the claims are inverse to each other: each port in use has exactly one holder. */
  ghost predicate Balanced(holders: map<int, Holder>, claim: Holder -> Option<int>) {
    && (forall p :: p in holders ==> claim(holders[p]) == Some(p))
    && (forall h :: claim(h).Some? ==> claim(h).value in holders && holders[claim(h).value] == h)
  }

  ghost predicate PoolInv(pool: Pool, holders: map<int, Holder>, claim: Holder -> Option<int>) {
    Valid(pool) && pool.base > 0 && pool.used == holders.Keys && Balanced(holders, claim)
  }

  ghost function AgentClaimsIn(leases: map<string, Lease>, making: Option<Making>, creating: map<nat, Creating>, debts: map<nat, Debt>): Holder -> Option<int> {
    h => AgentClaimIn(leases, making, creating, debts, h)
  }

  ghost function AgentClaims(s: State): Holder -> Option<int> { AgentClaimsIn(s.leases, s.making, s.creating, s.debts) }

  ghost predicate AgentInv(s: State) { PoolInv(s.agent, s.agentBy, AgentClaims(s)) }

  ghost function CtrlClaimsIn(leases: map<string, Lease>, creating: map<nat, Creating>, debts: map<nat, Debt>): Holder -> Option<int> {
    h => CtrlClaimIn(leases, creating, debts, h)
  }

  ghost function CtrlClaims(s: State): Holder -> Option<int> { CtrlClaimsIn(s.leases, s.creating, s.debts) }

  ghost predicate CtrlInv(s: State) { PoolInv(s.ctrl, s.ctrlBy, CtrlClaims(s)) }

  ghost function GrpcClaimsIn(leases: map<string, Lease>, starting: map<nat, Starting>, debts: map<nat, Debt>, lost: set<int>): Holder -> Option<int> {
    h => GrpcClaimIn(leases, starting, debts, lost, h)
  }

  ghost function GrpcClaims(s: State): Holder -> Option<int> { GrpcClaimsIn(s.leases, s.starting, s.debts, s.lost) }

  ghost predicate GrpcInv(s: State) { PoolInv(s.grpc, s.grpcBy, GrpcClaims(s)) }

  ghost predicate Sessions(s: State) {
    forall id :: id in s.leases && !s.leases[id].phase.Dead? ==>
      s.leases[id].grpcPort >= 0 && (s.leases[id].session != "" <==> s.leases[id].grpcPort > 0)
  }

  ghost predicate Limits(s: State) { forall o: string :: |LiveOf(s, o)| <= MAX_PER_OWNER }

  ghost predicate Inv(s: State) {
    AgentInv(s) && CtrlInv(s) && GrpcInv(s) && Sessions(s) && Limits(s) && |s.lost| == s.misses
  }

  // ---------- Four ways a port changes hands ----------

  /** The claims agree except, perhaps, at two holders. */
  ghost predicate Same(c: Holder -> Option<int>, d: Holder -> Option<int>, h: Holder, i: Holder) {
    forall g :: g != h && g != i ==> d(g) == c(g)
  }

  lemma Unmoved(pool: Pool, holders: map<int, Holder>, c: Holder -> Option<int>, d: Holder -> Option<int>, h: Holder, i: Holder)
    requires PoolInv(pool, holders, c) && Same(c, d, h, i) && d(h) == c(h) && d(i) == c(i)
    ensures PoolInv(pool, holders, d)
  {}

  lemma TakenOut(pool: Pool, to: Pool, holders: map<int, Holder>, c: Holder -> Option<int>, d: Holder -> Option<int>, h: Holder, p: int)
    requires PoolInv(pool, holders, c) && Reservable(pool, p) && to == pool.(used := pool.used + {p}, cursor := to.cursor)
    requires c(h).None? && d(h) == Some(p) && Same(c, d, h, h)
    ensures PoolInv(to, holders[p := h], d)
  {}

  lemma HandedOn(pool: Pool, holders: map<int, Holder>, c: Holder -> Option<int>, d: Holder -> Option<int>, h: Holder, i: Holder, p: int)
    requires PoolInv(pool, holders, c) && h != i && c(h) == Some(p) && c(i).None? && d(h).None? && d(i) == Some(p)
    requires Same(c, d, h, i)
    ensures PoolInv(pool, holders[p := i], d)
  {}

  lemma GivenBack(pool: Pool, holders: map<int, Holder>, c: Holder -> Option<int>, d: Holder -> Option<int>, h: Holder, p: int)
    requires PoolInv(pool, holders, c) && c(h) == Some(p) && d(h).None? && Same(c, d, h, h)
    ensures PoolInv(Released(pool, p), holders - {p}, d)
  {}

  lemma ZeroUnused(pool: Pool, holders: map<int, Holder>, c: Holder -> Option<int>)
    requires PoolInv(pool, holders, c)
    ensures 0 !in holders && Released(pool, 0) == pool && holders - {0} == holders
  {
    assert !InRange(pool, 0);
    assert pool.used - {0} == pool.used;
  }

  // ---------- What each step changes: the claims, and the rest ----------

  ghost predicate Writes(s: State, r: State, w: Option<(string, Lease)>) {
    r.leases == if w.None? then s.leases else s.leases[w.value.0 := w.value.1]
  }

  ghost predicate Shrinks(a: map<nat, Creating>, b: map<nat, Creating>) {
    forall t :: t in b ==> t in a && b[t] == a[t]
  }

  /** Outside the pools: writes at most the lease `w`, leaves `m` as the create under way, finishes or keeps
      the others, loses nothing. */
  ghost predicate Frame(s: State, r: State, w: Option<(string, Lease)>, m: Option<Making>) {
    && Writes(s, r, w) && r.making == m && Shrinks(s.creating, r.creating)
    && r.lost == s.lost && r.misses == s.misses
    && Size(r.agent) == Size(s.agent) && Size(r.ctrl) == Size(s.ctrl)
  }

  lemma TakeAgentShape(s: State, owner: string, key: Option<string>, wanted: Option<string>)
    requires s.making.None?
    ensures var r := TakeAgentStep(s, owner, key, wanted);
            && Same(AgentClaims(s), AgentClaims(r), ByMaking, ByMaking)
            && CtrlClaims(r) == CtrlClaims(s) && GrpcClaims(r) == GrpcClaims(s) && Frame(s, r, None, r.making)
  {}

  lemma NoCtrlShape(s: State, m: Making)
    requires s.making == Some(m)
    ensures var r := NoCtrl(s, m);
            && Same(AgentClaims(s), AgentClaims(r), ByMaking, ByMaking)
            && CtrlClaims(r) == CtrlClaims(s) && GrpcClaims(r) == GrpcClaims(s) && Frame(s, r, None, None)
  {}

  lemma GotCtrlShape(s: State, m: Making, t: nat, c: int)
    requires s.making == Some(m) && t !in s.creating
    ensures var r := GotCtrl(s, m, t, c);
            && Same(AgentClaims(s), AgentClaims(r), ByMaking, ByCreate(t))
            && Same(CtrlClaims(s), CtrlClaims(r), ByCreate(t), ByCreate(t))
            && GrpcClaims(r) == GrpcClaims(s) && Frame(s, r.(creating := s.creating), None, None)
  {}

  lemma CreateFailsShape(s: State, t: nat, k: nat)
    requires t in s.creating && k !in s.debts
    ensures var r := CreateFailsStep(s, t, k);
            && Same(AgentClaims(s), AgentClaims(r), ByCreate(t), ByDebt(k))
            && Same(CtrlClaims(s), CtrlClaims(r), ByCreate(t), ByDebt(k))
            && Same(GrpcClaims(s), GrpcClaims(r), ByMaking, ByMaking) && Frame(s, r, None, s.making)
  {}

  lemma CreateCommitsShape(s: State, t: nat, id: string, k: nat)
    requires t in s.creating && id !in s.leases && |LiveOf(s, s.creating[t].owner)| < MAX_PER_OWNER
    ensures var r, c := CreateCommitsStep(s, t, id, k), s.creating[t];
            && Same(AgentClaims(s), AgentClaims(r), ByCreate(t), ByLease(id))
            && Same(CtrlClaims(s), CtrlClaims(r), ByCreate(t), ByLease(id))
            && Same(GrpcClaims(s), GrpcClaims(r), ByMaking, ByMaking)
            && Frame(s, r, Some((id, Lease(c.owner, c.agentPort, c.ctrlPort, 0, "", Live))), s.making)
  {}

  lemma GotGrpcShape(s: State, t: nat, id: string, p: int)
    requires t !in s.starting
    ensures var r := GotGrpc(s, t, id, p);
            && AgentClaims(r) == AgentClaims(s) && CtrlClaims(r) == CtrlClaims(s)
            && Same(GrpcClaims(s), GrpcClaims(r), ByStart(t), ByStart(t)) && Frame(s, r, None, s.making)
  {}

  lemma StartFailsShape(s: State, t: nat)
    requires t in s.starting
    ensures var r := StartFailsStep(s, t);
            && AgentClaims(r) == AgentClaims(s) && CtrlClaims(r) == CtrlClaims(s)
            && Same(GrpcClaims(s), GrpcClaims(r), ByStart(t), ByStart(t)) && Frame(s, r, None, s.making)
  {}

  lemma ClearShape(s: State, id: string, k: nat)
    requires IsLive(s, id) && k !in s.debts
    ensures var r := ClearStep(s, id, k);
            && Same(AgentClaims(s), AgentClaims(r), ByMaking, ByMaking) && Same(CtrlClaims(s), CtrlClaims(r), ByMaking, ByMaking)
            && Same(GrpcClaims(s), GrpcClaims(r), ByLease(id), ByDebt(k))
            && Frame(s, r, Some((id, s.leases[id].(session := "", grpcPort := 0))), s.making)
  {}

  lemma ReclaimShape(s: State, id: string, k: nat)
    requires IsLive(s, id) && k !in s.debts
    ensures var r := ReclaimStep(s, id, k);
            && Same(AgentClaims(s), AgentClaims(r), ByLease(id), ByDebt(k))
            && Same(CtrlClaims(s), CtrlClaims(r), ByLease(id), ByDebt(k))
            && Same(GrpcClaims(s), GrpcClaims(r), ByMaking, ByMaking)
            && Frame(s, r, Some((id, s.leases[id].(phase := Dying))), s.making)
  {}

  lemma FreeGrpcShape(s: State, id: string)
    requires id in s.leases && s.leases[id].phase.Dying?
    ensures var r, l := FreeGrpcStep(s, id), s.leases[id].(phase := Dead);
            && Rewrites(s, r, id, l) && Same(GrpcClaims(s), GrpcClaims(r), ByLease(id), ByLease(id))
            && Frame(s, r, Some((id, l)), s.making)
  {}

  lemma StartCommitsShape(s: State, t: nat, session: string)
    requires t in s.starting && s.starting[t].lease in s.leases
    ensures var id := s.starting[t].lease;
            var r, l := StartCommitsStep(s, t, session), s.leases[id].(session := session, grpcPort := s.starting[t].port);
            Rewrites(s, r, id, l)
  {}

  lemma PayAgentShape(s: State, k: nat, a: int, c: int)
    requires k in s.debts && s.debts[k] == Both(a, c)
    ensures var r := PayAgent(s, k, a, c); DebtOnly(s, r, k) && Frame(s, r, None, s.making)
  {}

  lemma PayCtrlShape(s: State, k: nat, c: int)
    requires k in s.debts && s.debts[k] == OnlyCtrl(c)
    ensures var r := PayCtrl(s, k, c); DebtOnly(s, r, k) && Frame(s, r, None, s.making)
  {}

  lemma PayGrpcShape(s: State, k: nat, p: int)
    requires k in s.debts && s.debts[k] == Grpc(p)
    ensures var r := PayGrpc(s, k, p); DebtOnly(s, r, k) && Frame(s, r, None, s.making)
  {}

  ghost predicate DebtOnly(s: State, r: State, k: nat) {
    && Same(AgentClaims(s), AgentClaims(r), ByDebt(k), ByDebt(k)) && Same(CtrlClaims(s), CtrlClaims(r), ByDebt(k), ByDebt(k))
    && Same(GrpcClaims(s), GrpcClaims(r), ByDebt(k), ByDebt(k))
  }

  /** The two steps that rewrite one lease leave the agent and control pools alone. */
  ghost predicate Rewrites(s: State, r: State, id: string, l: Lease) {
    && r.leases == s.leases[id := l] && r.creating == s.creating && r.debts == s.debts && r.making == s.making
    && r.agent == s.agent && r.agentBy == s.agentBy && r.ctrl == s.ctrl && r.ctrlBy == s.ctrlBy
  }

  lemma TweakClaims(leases: map<string, Lease>, making: Option<Making>, creating: map<nat, Creating>, debts: map<nat, Debt>,
                    id: string, l: Lease)
    requires id in leases && l.agentPort == leases[id].agentPort && l.ctrlPort == leases[id].ctrlPort
    requires l.phase.Live? == leases[id].phase.Live?
    ensures Same(AgentClaimsIn(leases, making, creating, debts), AgentClaimsIn(leases[id := l], making, creating, debts), ByMaking, ByMaking)
    ensures Same(CtrlClaimsIn(leases, creating, debts), CtrlClaimsIn(leases[id := l], creating, debts), ByMaking, ByMaking)
  {}

  // ---------- Every step keeps the books of the three pools ----------

  ghost predicate Pools(s: State) { AgentInv(s) && CtrlInv(s) && GrpcInv(s) }

  lemma TakeAgentKeeps(s: State, owner: string, key: Option<string>, wanted: Option<string>)
    requires Pools(s) && s.making.None?
    ensures Pools(TakeAgentStep(s, owner, key, wanted))
  {
    var r := TakeAgentStep(s, owner, key, wanted);
    AllocateComplete(s.agent);
    TakeAgentShape(s, owner, key, wanted);
    var p := AgentPort(s, wanted);
    if p == 0 {
      Unmoved(s.agent, s.agentBy, AgentClaims(s), AgentClaims(r), ByMaking, ByMaking);
    } else {
      TakenOut(s.agent, r.agent, s.agentBy, AgentClaims(s), AgentClaims(r), ByMaking, p);
    }
  }

  lemma NoCtrlKeeps(s: State, m: Making)
    requires Pools(s) && s.making == Some(m)
    ensures Pools(NoCtrl(s, m))
  {
    NoCtrlShape(s, m);
    if m.agentPort == 0 {
      ZeroUnused(s.agent, s.agentBy, AgentClaims(s));
      Unmoved(s.agent, s.agentBy, AgentClaims(s), AgentClaims(NoCtrl(s, m)), ByMaking, ByMaking);
    } else {
      GivenBack(s.agent, s.agentBy, AgentClaims(s), AgentClaims(NoCtrl(s, m)), ByMaking, m.agentPort);
    }
  }

  lemma GotCtrlKeeps(s: State, m: Making, t: nat, c: int)
    requires Pools(s) && s.making == Some(m) && t !in s.creating && Port(s.ctrl) == Some(c)
    ensures Pools(GotCtrl(s, m, t, c))
  {
    var r := GotCtrl(s, m, t, c);
    AllocateComplete(s.ctrl);
    GotCtrlShape(s, m, t, c);
    TakenOut(s.ctrl, Allocated(s.ctrl), s.ctrlBy, CtrlClaims(s), CtrlClaims(r), ByCreate(t), c);
    MovedOrNone(s.agent, s.agentBy, AgentClaims(s), AgentClaims(r), ByMaking, ByCreate(t), m.agentPort);
  }

  /** Agent ports may be 0, which is no port. */
  lemma MovedOrNone(pool: Pool, holders: map<int, Holder>, c: Holder -> Option<int>, d: Holder -> Option<int>, h: Holder, i: Holder, p: int)
    requires PoolInv(pool, holders, c) && Same(c, d, h, i) && h != i
    requires c(h) == OrNone(p) && c(i).None? && d(h).None? && d(i) == OrNone(p)
    ensures PoolInv(pool, if p == 0 then holders else holders[p := i], d)
  {
    if p == 0 { Unmoved(pool, holders, c, d, h, i); } else { HandedOn(pool, holders, c, d, h, i, p); }
  }

  lemma CreateFailsKeeps(s: State, t: nat, k: nat)
    requires Pools(s) && t in s.creating && k !in s.debts
    ensures Pools(CreateFailsStep(s, t, k))
  {
    var r := CreateFailsStep(s, t, k);
    CreateFailsShape(s, t, k);
    MovedOrNone(s.agent, s.agentBy, AgentClaims(s), AgentClaims(r), ByCreate(t), ByDebt(k), s.creating[t].agentPort);
    HandedOn(s.ctrl, s.ctrlBy, CtrlClaims(s), CtrlClaims(r), ByCreate(t), ByDebt(k), s.creating[t].ctrlPort);
    Unmoved(s.grpc, s.grpcBy, GrpcClaims(s), GrpcClaims(r), ByMaking, ByMaking);
  }

  lemma CreateCommitsKeeps(s: State, t: nat, id: string, k: nat)
    requires Pools(s) && t in s.creating && id !in s.leases && |LiveOf(s, s.creating[t].owner)| < MAX_PER_OWNER
    ensures Pools(CreateCommitsStep(s, t, id, k))
  {
    var r := CreateCommitsStep(s, t, id, k);
    CreateCommitsShape(s, t, id, k);
    MovedOrNone(s.agent, s.agentBy, AgentClaims(s), AgentClaims(r), ByCreate(t), ByLease(id), s.creating[t].agentPort);
    HandedOn(s.ctrl, s.ctrlBy, CtrlClaims(s), CtrlClaims(r), ByCreate(t), ByLease(id), s.creating[t].ctrlPort);
    Unmoved(s.grpc, s.grpcBy, GrpcClaims(s), GrpcClaims(r), ByMaking, ByMaking);
  }

  lemma GotGrpcKeeps(s: State, t: nat, id: string, p: int)
    requires Pools(s) && t !in s.starting && Port(s.grpc) == Some(p)
    ensures Pools(GotGrpc(s, t, id, p))
  {
    AllocateComplete(s.grpc);
    GotGrpcShape(s, t, id, p);
    TakenOut(s.grpc, Allocated(s.grpc), s.grpcBy, GrpcClaims(s), GrpcClaims(GotGrpc(s, t, id, p)), ByStart(t), p);
  }

  lemma StartFailsKeeps(s: State, t: nat)
    requires Pools(s) && t in s.starting
    ensures Pools(StartFailsStep(s, t))
  {
    StartFailsShape(s, t);
    GivenBack(s.grpc, s.grpcBy, GrpcClaims(s), GrpcClaims(StartFailsStep(s, t)), ByStart(t), s.starting[t].port);
  }

  lemma RewriteKeeps(s: State, r: State, id: string, l: Lease)
    requires AgentInv(s) && CtrlInv(s) && id in s.leases && Rewrites(s, r, id, l)
    requires l.agentPort == s.leases[id].agentPort && l.ctrlPort == s.leases[id].ctrlPort && l.phase.Live? == s.leases[id].phase.Live?
    ensures AgentInv(r) && CtrlInv(r)
  {
    TweakClaims(s.leases, s.making, s.creating, s.debts, id, l);
    Unmoved(s.agent, s.agentBy, AgentClaims(s), AgentClaims(r), ByMaking, ByMaking);
    Unmoved(s.ctrl, s.ctrlBy, CtrlClaims(s), CtrlClaims(r), ByMaking, ByMaking);
  }

  lemma ClearKeeps(s: State, id: string, k: nat)
    requires Pools(s) && IsLive(s, id) && s.leases[id].grpcPort > 0 && k !in s.debts
    ensures Pools(ClearStep(s, id, k))
  {
    var r := ClearStep(s, id, k);
    ClearShape(s, id, k);
    Unmoved(s.agent, s.agentBy, AgentClaims(s), AgentClaims(r), ByMaking, ByMaking);
    Unmoved(s.ctrl, s.ctrlBy, CtrlClaims(s), CtrlClaims(r), ByMaking, ByMaking);
    HandedOn(s.grpc, s.grpcBy, GrpcClaims(s), GrpcClaims(r), ByLease(id), ByDebt(k), s.leases[id].grpcPort);
  }

  lemma ReclaimKeeps(s: State, id: string, k: nat)
    requires Pools(s) && IsLive(s, id) && k !in s.debts
    ensures Pools(ReclaimStep(s, id, k))
  {
    var r := ReclaimStep(s, id, k);
    ReclaimShape(s, id, k);
    MovedOrNone(s.agent, s.agentBy, AgentClaims(s), AgentClaims(r), ByLease(id), ByDebt(k), s.leases[id].agentPort);
    HandedOn(s.ctrl, s.ctrlBy, CtrlClaims(s), CtrlClaims(r), ByLease(id), ByDebt(k), s.leases[id].ctrlPort);
    Unmoved(s.grpc, s.grpcBy, GrpcClaims(s), GrpcClaims(r), ByMaking, ByMaking);
  }

  lemma FreeGrpcKeeps(s: State, id: string)
    requires Pools(s) && id in s.leases && s.leases[id].phase.Dying?
    ensures Pools(FreeGrpcStep(s, id))
  {
    var r := FreeGrpcStep(s, id);
    FreeGrpcShape(s, id);
    RewriteKeeps(s, r, id, s.leases[id].(phase := Dead));
    if s.leases[id].grpcPort > 0 {
      GivenBack(s.grpc, s.grpcBy, GrpcClaims(s), GrpcClaims(r), ByLease(id), s.leases[id].grpcPort);
    } else {
      Unmoved(s.grpc, s.grpcBy, GrpcClaims(s), GrpcClaims(r), ByLease(id), ByLease(id));
    }
  }

  lemma PayAgentKeeps(s: State, k: nat, a: int, c: int)
    requires Pools(s) && k in s.debts && s.debts[k] == Both(a, c)
    ensures Pools(PayAgent(s, k, a, c))
  {
    var r := PayAgent(s, k, a, c);
    PayAgentShape(s, k, a, c);
    if a != 0 {
      GivenBack(s.agent, s.agentBy, AgentClaims(s), AgentClaims(r), ByDebt(k), a);
    } else {
      ZeroUnused(s.agent, s.agentBy, AgentClaims(s));
      Unmoved(s.agent, s.agentBy, AgentClaims(s), AgentClaims(r), ByDebt(k), ByDebt(k));
    }
    Unmoved(s.ctrl, s.ctrlBy, CtrlClaims(s), CtrlClaims(r), ByDebt(k), ByDebt(k));
    Unmoved(s.grpc, s.grpcBy, GrpcClaims(s), GrpcClaims(r), ByDebt(k), ByDebt(k));
  }

  lemma PayCtrlKeeps(s: State, k: nat, c: int)
    requires Pools(s) && k in s.debts && s.debts[k] == OnlyCtrl(c)
    ensures Pools(PayCtrl(s, k, c))
  {
    var r := PayCtrl(s, k, c);
    PayCtrlShape(s, k, c);
    Unmoved(s.agent, s.agentBy, AgentClaims(s), AgentClaims(r), ByDebt(k), ByDebt(k));
    GivenBack(s.ctrl, s.ctrlBy, CtrlClaims(s), CtrlClaims(r), ByDebt(k), c);
    Unmoved(s.grpc, s.grpcBy, GrpcClaims(s), GrpcClaims(r), ByDebt(k), ByDebt(k));
  }

  lemma PayGrpcKeeps(s: State, k: nat, p: int)
    requires Pools(s) && k in s.debts && s.debts[k] == Grpc(p)
    ensures Pools(PayGrpc(s, k, p))
  {
    var r := PayGrpc(s, k, p);
    PayGrpcShape(s, k, p);
    Unmoved(s.agent, s.agentBy, AgentClaims(s), AgentClaims(r), ByDebt(k), ByDebt(k));
    Unmoved(s.ctrl, s.ctrlBy, CtrlClaims(s), CtrlClaims(r), ByDebt(k), ByDebt(k));
    GivenBack(s.grpc, s.grpcBy, GrpcClaims(s), GrpcClaims(r), ByDebt(k), p);
  }

  /** A port with another holder is not among the lost ones. */
  lemma NotLost(s: State, h: Holder, p: int)
    requires GrpcInv(s) && GrpcClaim(s, h) == Some(p) && !h.Lost?
    ensures p > 0 && p !in s.lost && p in s.grpcBy && s.grpcBy[p] == h
  {
    assert GrpcClaims(s)(h) == Some(p);
    assert InRange(s.grpc, p);
    assert p in s.lost ==> GrpcClaims(s)(Lost(p)) == Some(p);
  }

  /** A commit on a reclaimed lease: nobody will ever return the port. */
  lemma CommitOnDead(s: State, t: nat, session: string)
    requires GrpcInv(s) && t in s.starting && s.starting[t].lease in s.leases && s.leases[s.starting[t].lease].phase.Dead?
    ensures GrpcInv(StartCommitsStep(s, t, session))
  {
    var r := StartCommitsStep(s, t, session);
    var p := s.starting[t].port;
    NotLost(s, ByStart(t), p);
    DeadClaims(s, t, session);
    HandedOn(s.grpc, s.grpcBy, GrpcClaims(s), GrpcClaims(r), ByStart(t), Lost(p), p);
  }

  lemma DeadClaims(s: State, t: nat, session: string)
    requires t in s.starting && s.starting[t].lease in s.leases && s.leases[s.starting[t].lease].phase.Dead?
    ensures Same(GrpcClaims(s), GrpcClaims(StartCommitsStep(s, t, session)), ByStart(t), Lost(s.starting[t].port))
  {}

  /** A commit on an idle lease hands it the port. */
  lemma CommitOnIdle(s: State, t: nat, session: string)
    requires GrpcInv(s) && t in s.starting && s.starting[t].lease in s.leases
    requires !s.leases[s.starting[t].lease].phase.Dead? && s.leases[s.starting[t].lease].grpcPort <= 0
    ensures GrpcInv(StartCommitsStep(s, t, session))
  {
    var r := StartCommitsStep(s, t, session);
    var id, p := s.starting[t].lease, s.starting[t].port;
    NotLost(s, ByStart(t), p);
    IdleClaims(s, t, session);
    HandedOn(s.grpc, s.grpcBy, GrpcClaims(s), GrpcClaims(r), ByStart(t), ByLease(id), p);
  }

  lemma IdleClaims(s: State, t: nat, session: string)
    requires t in s.starting && s.starting[t].lease in s.leases
    requires !s.leases[s.starting[t].lease].phase.Dead? && s.leases[s.starting[t].lease].grpcPort <= 0
    ensures Same(GrpcClaims(s), GrpcClaims(StartCommitsStep(s, t, session)), ByStart(t), ByLease(s.starting[t].lease))
  {}

  /** The lease as if it had let go of its port, the port lost. */
  function Dropped(s: State, id: string): State
    requires id in s.leases
  {
    var l := s.leases[id];
    s.(leases := s.leases[id := l.(grpcPort := 0)], lost := s.lost + {l.grpcPort}, grpcBy := s.grpcBy[l.grpcPort := Lost(l.grpcPort)])
  }

  lemma DroppedKeepsGrpcs(s: State, id: string)
    requires GrpcInv(s) && id in s.leases && !s.leases[id].phase.Dead? && s.leases[id].grpcPort > 0
    ensures GrpcInv(Dropped(s, id))
  {
    var q := s.leases[id].grpcPort;
    NotLost(s, ByLease(id), q);
    DroppedClaims(s, id);
    HandedOn(s.grpc, s.grpcBy, GrpcClaims(s), GrpcClaims(Dropped(s, id)), ByLease(id), Lost(q), q);
  }

  lemma DroppedClaims(s: State, id: string)
    requires id in s.leases && !s.leases[id].phase.Dead? && s.leases[id].grpcPort > 0
    ensures Same(GrpcClaims(s), GrpcClaims(Dropped(s, id)), ByLease(id), Lost(s.leases[id].grpcPort))
  {}

  /** A commit on a lease that is capturing: the port it had is lost, then as on an idle one. */
  lemma CommitOnBusy(s: State, t: nat, session: string)
    requires GrpcInv(s) && t in s.starting && s.starting[t].lease in s.leases
    requires !s.leases[s.starting[t].lease].phase.Dead? && s.leases[s.starting[t].lease].grpcPort > 0
    ensures GrpcInv(StartCommitsStep(s, t, session))
  {
    var id, p := s.starting[t].lease, s.starting[t].port;
    var q := s.leases[id].grpcPort;
    NotLost(s, ByStart(t), p);
    NotLost(s, ByLease(id), q);
    var m := Dropped(s, id);
    DroppedKeepsGrpcs(s, id);
    CommitOnIdle(m, t, session);
    var r := StartCommitsStep(m, t, session);
    assert StartCommitsStep(s, t, session) == r.(misses := s.misses + 1);
    SameClaims(r, s.misses + 1);
  }

  lemma SameClaims(r: State, misses: nat)
    requires GrpcInv(r)
    ensures GrpcInv(r.(misses := misses))
  {
    Unmoved(r.grpc, r.grpcBy, GrpcClaims(r), GrpcClaims(r.(misses := misses)), ByMaking, ByMaking);
  }

  lemma StartCommitsKeepsGrpcs(s: State, t: nat, session: string)
    requires GrpcInv(s) && t in s.starting && s.starting[t].lease in s.leases
    ensures GrpcInv(StartCommitsStep(s, t, session))
  {
    var l := s.leases[s.starting[t].lease];
    if l.phase.Dead? {
      CommitOnDead(s, t, session);
    } else if l.grpcPort > 0 {
      CommitOnBusy(s, t, session);
    } else {
      CommitOnIdle(s, t, session);
    }
  }

  lemma StartCommitsKeeps(s: State, t: nat, session: string)
    requires Pools(s) && t in s.starting && s.starting[t].lease in s.leases
    ensures Pools(StartCommitsStep(s, t, session))
  {
    var id := s.starting[t].lease;
    StartCommitsShape(s, t, session);
    RewriteKeeps(s, StartCommitsStep(s, t, session), id, s.leases[id].(session := session, grpcPort := s.starting[t].port));
    StartCommitsKeepsGrpcs(s, t, session);
  }

  lemma StepKeepsPools(s: State, op: Op)
    requires Pools(s) && Sessions(s) && Enabled(s, op)
    ensures Pools(Step(s, op))
  {
    match op
    case TakeAgent(owner, key, wanted) => TakeAgentKeeps(s, owner, key, wanted);
    case TakeCtrl(t) =>
      if Port(s.ctrl).None? { NoCtrlKeeps(s, s.making.value); } else { GotCtrlKeeps(s, s.making.value, t, Port(s.ctrl).value); }
    case CreateFails(t, k) => CreateFailsKeeps(s, t, k);
    case CreateCommits(t, id, k) =>
      if |LiveOf(s, s.creating[t].owner)| < MAX_PER_OWNER { CreateCommitsKeeps(s, t, id, k); } else { CreateFailsKeeps(s, t, k); }
    case StartTakes(t, id) => if Port(s.grpc).Some? { GotGrpcKeeps(s, t, id, Port(s.grpc).value); }
    case StartFails(t) => StartFailsKeeps(s, t);
    case StartCommits(t, session) => StartCommitsKeeps(s, t, session);
    case Clear(id, _, k) => ClearKeeps(s, id, k);
    case Reclaim(id, k) => ReclaimKeeps(s, id, k);
    case FreeGrpc(id) => FreeGrpcKeeps(s, id);
    case Pay(k) =>
      match s.debts[k]
      case Both(a, c) => PayAgentKeeps(s, k, a, c);
      case OnlyCtrl(c) => PayCtrlKeeps(s, k, c);
      case Grpc(p) => PayGrpcKeeps(s, k, p);
  }

  // ---------- Sessions, limits and losses ----------

  /** The one lease an operation writes, and what it becomes. */
  ghost function Written(s: State, op: Op): Option<(string, Lease)>
    requires Enabled(s, op)
  {
    match op
    case CreateCommits(t, id, _) =>
      var c := s.creating[t];
      if |LiveOf(s, c.owner)| >= MAX_PER_OWNER then None
      else Some((id, Lease(c.owner, c.agentPort, c.ctrlPort, 0, "", Live)))
    case StartCommits(t, session) =>
      var id := s.starting[t].lease;
      Some((id, s.leases[id].(session := session, grpcPort := s.starting[t].port)))
    case Clear(id, _, _) => Some((id, s.leases[id].(session := "", grpcPort := 0)))
    case Reclaim(id, _) => Some((id, s.leases[id].(phase := Dying)))
    case FreeGrpc(id) => Some((id, s.leases[id].(phase := Dead)))
    case _ => None
  }

  /** Every step but a TakeCtrl and a commit of a capture. */
  lemma StepFrame(s: State, op: Op)
    requires Enabled(s, op) && !op.TakeCtrl? && !op.StartCommits?
    ensures Frame(s, Step(s, op), Written(s, op), if op.TakeAgent? then Step(s, op).making else s.making)
  {
    match op
    case TakeAgent(owner, key, wanted) => TakeAgentShape(s, owner, key, wanted);
    case CreateFails(t, k) => CreateFailsShape(s, t, k);
    case CreateCommits(t, id, k) =>
      if |LiveOf(s, s.creating[t].owner)| < MAX_PER_OWNER { CreateCommitsShape(s, t, id, k); } else { CreateFailsShape(s, t, k); }
    case StartTakes(t, id) => if Port(s.grpc).Some? { GotGrpcShape(s, t, id, Port(s.grpc).value); }
    case StartFails(t) => StartFailsShape(s, t);
    case Clear(id, _, k) => ClearShape(s, id, k);
    case Reclaim(id, k) => ReclaimShape(s, id, k);
    case FreeGrpc(id) => FreeGrpcShape(s, id);
    case Pay(k) =>
      match s.debts[k]
      case Both(a, c) => PayAgentShape(s, k, a, c);
      case OnlyCtrl(c) => PayCtrlShape(s, k, c);
      case Grpc(p) => PayGrpcShape(s, k, p);
  }

  lemma TakeCtrlFrame(s: State, t: nat)
    requires s.making.Some? && t !in s.creating
    ensures var r := TakeCtrlStep(s, t);
            && r.leases == s.leases && r.making.None? && r.lost == s.lost && r.misses == s.misses
            && Size(r.agent) == Size(s.agent) && Size(r.ctrl) == Size(s.ctrl)
  {
    if Port(s.ctrl).None? { NoCtrlShape(s, s.making.value); } else { GotCtrlShape(s, s.making.value, t, Port(s.ctrl).value); }
  }

  lemma StepWrites(s: State, op: Op)
    requires Enabled(s, op)
    ensures Writes(s, Step(s, op), Written(s, op))
  {
    if op.StartCommits? {
      StartCommitsShape(s, op.t, op.session);
    } else if op.TakeCtrl? {
      TakeCtrlFrame(s, op.t);
    } else {
      StepFrame(s, op);
    }
  }

  ghost predicate Coherent(l: Lease) {
    !l.phase.Dead? ==> l.grpcPort >= 0 && (l.session != "" <==> l.grpcPort > 0)
  }

  lemma WrittenCoherent(s: State, op: Op)
    requires Sessions(s) && GrpcInv(s) && Enabled(s, op) && Written(s, op).Some?
    ensures Coherent(Written(s, op).value.1)
  {
    if op.StartCommits? { NotLost(s, ByStart(op.t), s.starting[op.t].port); }
  }

  lemma StepKeepsSessions(s: State, op: Op)
    requires Sessions(s) && GrpcInv(s) && Enabled(s, op)
    ensures Sessions(Step(s, op))
  {
    StepWrites(s, op);
    if Written(s, op).Some? { WrittenCoherent(s, op); }
    SessionsFrom(s, Step(s, op), Written(s, op));
  }

  lemma SessionsFrom(s: State, r: State, w: Option<(string, Lease)>)
    requires Sessions(s) && (w.Some? ==> Coherent(w.value.1))
    requires Writes(s, r, w)
    ensures Sessions(r)
  {}

  lemma SubsetSize(a: set<string>, b: set<string>)
    requires a <= b
    ensures |a| <= |b|
  {
    assert b == a + (b - a);
  }

  lemma LimitsFrom(s: State, r: State, id: string, l: Lease)
    requires Limits(s) && r.leases == s.leases[id := l]
    requires l.phase.Live? ==> (IsLive(s, id) && s.leases[id].owner == l.owner) || |LiveOf(s, l.owner)| < MAX_PER_OWNER
    ensures Limits(r)
  {
    forall o: string ensures |LiveOf(r, o)| <= MAX_PER_OWNER {
      assert LiveOf(r, o) <= LiveOf(s, o) + {id};
      if l.phase.Live? && l.owner == o && !(IsLive(s, id) && s.leases[id].owner == o) {
        SubsetSize(LiveOf(r, o), LiveOf(s, o) + {id});
      } else {
        assert LiveOf(r, o) <= LiveOf(s, o);
        SubsetSize(LiveOf(r, o), LiveOf(s, o));
      }
    }
  }

  lemma StepKeepsLimits(s: State, op: Op)
    requires Limits(s) && Enabled(s, op)
    ensures Limits(Step(s, op))
  {
    StepWrites(s, op);
    var w := Written(s, op);
    if w.Some? {
      LimitsFrom(s, Step(s, op), w.value.0, w.value.1);
    } else {
      assert forall o: string :: LiveOf(Step(s, op), o) == LiveOf(s, o);
    }
  }

  lemma CommitCountsLosses(s: State, t: nat, session: string)
    requires GrpcInv(s) && |s.lost| == s.misses && t in s.starting && s.starting[t].lease in s.leases
    ensures var r := StartCommitsStep(s, t, session); |r.lost| == r.misses
  {
    NotLost(s, ByStart(t), s.starting[t].port);
    var id := s.starting[t].lease;
    if !s.leases[id].phase.Dead? && s.leases[id].grpcPort > 0 { NotLost(s, ByLease(id), s.leases[id].grpcPort); }
  }

  lemma StepKeepsLosses(s: State, op: Op)
    requires GrpcInv(s) && |s.lost| == s.misses && Enabled(s, op)
    ensures |Step(s, op).lost| == Step(s, op).misses
  {
    if op.StartCommits? {
      CommitCountsLosses(s, op.t, op.session);
    } else if op.TakeCtrl? {
      TakeCtrlFrame(s, op.t);
    } else {
      StepFrame(s, op);
    }
  }

  lemma StepKeeps(s: State, op: Op)
    requires Inv(s) && Enabled(s, op)
    ensures Inv(Step(s, op))
  {
    StepKeepsPools(s, op);
    StepKeepsSessions(s, op);
    StepKeepsLimits(s, op);
    StepKeepsLosses(s, op);
  }

  lemma {:induction false} RunKeeps(s: State, ops: seq<Op>)
    requires Inv(s) && Legal(s, ops)
    ensures Inv(Run(s, ops))
    decreases |ops|
  {
    if ops != [] {
      StepKeeps(s, ops[0]);
      RunKeeps(Step(s, ops[0]), ops[1..]);
    }
  }

  lemma EmptyPool(pool: Pool, c: Holder -> Option<int>)
    requires pool.used == {} && pool.base > 0 && forall h :: c(h).None?
    ensures PoolInv(pool, map[], c)
  {}

  lemma FreshInv(agent: Pool, ctrl: Pool, grpc: Pool)
    requires agent.used == ctrl.used == grpc.used == {} && agent.base > 0 && ctrl.base > 0 && grpc.base > 0
    ensures Inv(Fresh(agent, ctrl, grpc))
  {
    var s := Fresh(agent, ctrl, grpc);
    EmptyPool(agent, AgentClaims(s));
    EmptyPool(ctrl, CtrlClaims(s));
    EmptyPool(grpc, GrpcClaims(s));
    assert forall o: string :: LiveOf(s, o) == {};
  }

  // ---------- Theorems ----------

  /** The ranges and their bases: any, as long as port 0 is not in them. */
  ghost predicate Start(s: State) {
    && s == Fresh(s.agent, s.ctrl, s.grpc) && s.agent.used == s.ctrl.used == s.grpc.used == {}
    && s.agent.base > 0 && s.ctrl.base > 0 && s.grpc.base > 0
  }

  /** A port is in use exactly if some holder claims it. */
  ghost predicate Exact(used: set<int>, claim: Holder -> Option<int>) {
    forall p :: p in used <==> exists h :: claim(h) == Some(p)
  }

  /** Under every interleaving: a port is in use exactly if one holder has it, no two holders share one,
      a lease has a session exactly if it has a gRPC port, no owner has more than five, and the ports that
      are in use for nobody are as many as the commits that missed their lease. */
  lemma PortsAccounted(s0: State, ops: seq<Op>)
    requires Start(s0) && Legal(s0, ops)
    ensures var s := Run(s0, ops);
            && Exact(s.agent.used, AgentClaims(s)) && Exact(s.ctrl.used, CtrlClaims(s)) && Exact(s.grpc.used, GrpcClaims(s))
            && Sessions(s) && Limits(s) && |s.lost| == s.misses
  {
    FreshInv(s0.agent, s0.ctrl, s0.grpc);
    RunKeeps(s0, ops);
    var s := Run(s0, ops);
    ClaimedIsUsed(s.agent, s.agentBy, AgentClaims(s));
    ClaimedIsUsed(s.ctrl, s.ctrlBy, CtrlClaims(s));
    ClaimedIsUsed(s.grpc, s.grpcBy, GrpcClaims(s));
  }

  lemma ClaimedIsUsed(pool: Pool, holders: map<int, Holder>, c: Holder -> Option<int>)
    requires PoolInv(pool, holders, c)
    ensures Exact(pool.used, c)
  {}

  lemma NobodyShares(s0: State, ops: seq<Op>, g: Holder, h: Holder)
    requires Start(s0) && Legal(s0, ops) && g != h
    ensures var s := Run(s0, ops);
            && (AgentClaim(s, g).Some? ==> AgentClaim(s, g) != AgentClaim(s, h))
            && (CtrlClaim(s, g).Some? ==> CtrlClaim(s, g) != CtrlClaim(s, h))
            && (GrpcClaim(s, g).Some? ==> GrpcClaim(s, g) != GrpcClaim(s, h))
  {
    FreshInv(s0.agent, s0.ctrl, s0.grpc);
    RunKeeps(s0, ops);
    var s := Run(s0, ops);
    Unshared(s.agent, s.agentBy, AgentClaims(s), g, h);
    Unshared(s.ctrl, s.ctrlBy, CtrlClaims(s), g, h);
    Unshared(s.grpc, s.grpcBy, GrpcClaims(s), g, h);
  }

  lemma Unshared(pool: Pool, holders: map<int, Holder>, c: Holder -> Option<int>, g: Holder, h: Holder)
    requires PoolInv(pool, holders, c) && g != h
    ensures c(g).Some? ==> c(g) != c(h)
  {}

  /** No operation is under way. */
  ghost predicate Quiet(s: State) {
    && s.making.None? && s.creating == map[] && s.starting == map[] && s.debts == map[]
    && (forall id :: id in s.leases ==> !s.leases[id].phase.Dying?)
  }

  /** Between operations the used sets are the ports of the live leases, and for gRPC those that are lost. */
  lemma AtRestExactly(s0: State, ops: seq<Op>)
    requires Start(s0) && Legal(s0, ops) && Quiet(Run(s0, ops))
    ensures var s := Run(s0, ops);
            && s.agent.used == (set id | id in s.leases && s.leases[id].phase.Live? && s.leases[id].agentPort != 0 :: s.leases[id].agentPort)
            && s.ctrl.used == (set id | id in s.leases && s.leases[id].phase.Live? :: s.leases[id].ctrlPort)
            && s.grpc.used == LiveGrpcs(s) + s.lost && LiveGrpcs(s) !! s.lost
  {
    PortsAccounted(s0, ops);
    FreshInv(s0.agent, s0.ctrl, s0.grpc);
    RunKeeps(s0, ops);
    var s := Run(s0, ops);
    QuietAgents(s);
    QuietCtrls(s);
    QuietGrpcs(s);
  }

  ghost function LiveGrpcs(s: State): set<int> {
    set id | id in s.leases && s.leases[id].phase.Live? && s.leases[id].grpcPort > 0 :: s.leases[id].grpcPort
  }

  lemma QuietAgents(s: State)
    requires Quiet(s) && Exact(s.agent.used, AgentClaims(s))
    ensures s.agent.used == (set id | id in s.leases && s.leases[id].phase.Live? && s.leases[id].agentPort != 0 :: s.leases[id].agentPort)
  {
    var c := AgentClaims(s);
    forall p | p in s.agent.used ensures exists id :: IsLive(s, id) && s.leases[id].agentPort == p && p != 0 {
      var h :| c(h) == Some(p);
      assert h.ByLease? && IsLive(s, h.id);
    }
    forall id | IsLive(s, id) && s.leases[id].agentPort != 0 ensures s.leases[id].agentPort in s.agent.used {
      assert c(ByLease(id)) == Some(s.leases[id].agentPort);
    }
  }

  lemma QuietCtrls(s: State)
    requires Quiet(s) && Exact(s.ctrl.used, CtrlClaims(s))
    ensures s.ctrl.used == (set id | id in s.leases && s.leases[id].phase.Live? :: s.leases[id].ctrlPort)
  {
    var c := CtrlClaims(s);
    forall p | p in s.ctrl.used ensures exists id :: IsLive(s, id) && s.leases[id].ctrlPort == p {
      var h :| c(h) == Some(p);
      assert h.ByLease? && IsLive(s, h.id);
    }
    forall id | IsLive(s, id) ensures s.leases[id].ctrlPort in s.ctrl.used {
      assert c(ByLease(id)) == Some(s.leases[id].ctrlPort);
    }
  }

  lemma QuietGrpcs(s: State)
    requires Quiet(s) && GrpcInv(s) && Exact(s.grpc.used, GrpcClaims(s))
    ensures s.grpc.used == LiveGrpcs(s) + s.lost && LiveGrpcs(s) !! s.lost
  {
    var c := GrpcClaims(s);
    forall p | p in s.grpc.used ensures p in LiveGrpcs(s) || p in s.lost {
      var h :| c(h) == Some(p);
      assert h.Lost? || (h.ByLease? && IsLive(s, h.id));
    }
    forall p | p in s.lost ensures p in s.grpc.used { assert c(Lost(p)) == Some(p); }
    forall p | p in LiveGrpcs(s) ensures p in s.grpc.used && p !in s.lost {
      var id :| id in s.leases && s.leases[id].phase.Live? && s.leases[id].grpcPort > 0 && s.leases[id].grpcPort == p;
      assert c(ByLease(id)) == Some(p);
      NotLost(s, ByLease(id), p);
    }
  }

  // ---------- Which commits lose a port, and which runs have none ----------

  /** A port in use that no lease, start or return under way has. */
  ghost predicate Orphan(s: State, p: int) {
    p in s.grpc.used && forall h: Holder :: !h.Lost? ==> GrpcClaim(s, h) != Some(p)
  }

  lemma LostAreOrphans(s: State, p: int)
    requires GrpcInv(s)
    ensures p in s.lost <==> Orphan(s, p)
  {
    var c := GrpcClaims(s);
    if p in s.lost {
      assert c(Lost(p)) == Some(p);
      forall h: Holder | !h.Lost? ensures GrpcClaim(s, h) != Some(p) {
        if GrpcClaim(s, h) == Some(p) { NotLost(s, h, p); }
      }
    }
    if Orphan(s, p) {
      assert c(s.grpcBy[p]) == Some(p);
      assert GrpcClaim(s, s.grpcBy[p]) == Some(p);
    }
  }

  /** A commit orphans a port exactly if its lease is done with or is capturing already. */
  lemma CommitOrphansExactly(s: State, t: nat, session: string)
    requires Inv(s) && Enabled(s, StartCommits(t, session))
    ensures var l, r := s.leases[s.starting[t].lease], StartCommitsStep(s, t, session);
            (exists p :: Orphan(r, p) && !Orphan(s, p)) <==> l.phase.Dead? || l.grpcPort > 0
  {
    var l, r := s.leases[s.starting[t].lease], StartCommitsStep(s, t, session);
    StepKeepsPools(s, StartCommits(t, session));
    forall p ensures (p in s.lost <==> Orphan(s, p)) && (p in r.lost <==> Orphan(r, p)) {
      LostAreOrphans(s, p);
      LostAreOrphans(r, p);
    }
    NotLost(s, ByStart(t), s.starting[t].port);
    if !l.phase.Dead? && l.grpcPort > 0 { NotLost(s, ByLease(s.starting[t].lease), l.grpcPort); }
    var p := Casualty(l, s.starting[t].port);
    if p.Some? { assert p.value in r.lost && p.value !in s.lost; }
  }

  lemma LostStay(s: State, op: Op)
    requires Enabled(s, op)
    ensures s.lost <= Step(s, op).lost
  {
    if op.TakeCtrl? { TakeCtrlFrame(s, op.t); } else if !op.StartCommits? { StepFrame(s, op); }
  }

  /** No operation gives an orphan back or hands it out again: whatever follows, it stays one. */
  lemma {:induction false} OrphanForGood(s: State, ops: seq<Op>, p: int)
    requires Inv(s) && Legal(s, ops) && Orphan(s, p)
    ensures Orphan(Run(s, ops), p)
    decreases |ops|
  {
    if ops != [] {
      var r := Step(s, ops[0]);
      LostAreOrphans(s, p);
      LostStay(s, ops[0]);
      StepKeeps(s, ops[0]);
      LostAreOrphans(r, p);
      OrphanForGood(r, ops[1..], p);
    }
  }

  function Without(open: map<nat, string>, id: string): map<nat, string> { map t | t in open && open[t] != id :: open[t] }

  /**
   The starts of each lease are serial: between the two sections of a capture start that commits, no other
   start of that lease commits and the lease is not reclaimed, nor was it before. `open` are the starts
   under way and so far undisturbed, `gone` the leases reclaimed; both are read off the operations alone.
   */
  ghost predicate Serial(ops: seq<Op>, open: map<nat, string>, gone: set<string>)
    decreases |ops|
  {
    ops == [] ||
    (match ops[0]
     case StartTakes(t, id) => Serial(ops[1..], if id in gone then open - {t} else open[t := id], gone)
     case StartFails(t) => Serial(ops[1..], open - {t}, gone)
     case StartCommits(t, _) => t in open && Serial(ops[1..], Without(open, open[t]), gone)
     case Reclaim(id, _) => Serial(ops[1..], Without(open, id), gone + {id})
     case _ => Serial(ops[1..], open, gone))
  }

  ghost predicate Undisturbed(s: State, open: map<nat, string>, gone: set<string>) {
    && (forall id :: id in s.leases && !IsLive(s, id) ==> id in gone)
    && (forall t :: t in open && t in s.starting ==>
          var id := s.starting[t].lease;
          open[t] == id && IsLive(s, id) && s.leases[id].grpcPort == 0)
  }

  lemma TakesUndisturbed(s: State, t: nat, id: string, open: map<nat, string>, gone: set<string>)
    requires Undisturbed(s, open, gone) && Sessions(s) && Enabled(s, StartTakes(t, id))
    ensures Undisturbed(StartTakesStep(s, t, id), if id in gone then open - {t} else open[t := id], gone)
  {}

  lemma CommitsUndisturbed(s: State, t: nat, session: string, open: map<nat, string>, gone: set<string>)
    requires Undisturbed(s, open, gone) && Enabled(s, StartCommits(t, session)) && t in open
    ensures var r := StartCommitsStep(s, t, session);
            Undisturbed(r, Without(open, open[t]), gone) && r.misses == s.misses
  {}

  lemma FailsUndisturbed(s: State, t: nat, open: map<nat, string>, gone: set<string>)
    requires Undisturbed(s, open, gone) && t in s.starting
    ensures Undisturbed(StartFailsStep(s, t), open - {t}, gone)
  {}

  lemma ReclaimUndisturbed(s: State, id: string, k: nat, open: map<nat, string>, gone: set<string>)
    requires Undisturbed(s, open, gone) && IsLive(s, id)
    ensures Undisturbed(ReclaimStep(s, id, k), Without(open, id), gone + {id})
  {}

  /** The other steps start and commit no capture and reclaim no lease. */
  lemma OthersUndisturbed(s: State, op: Op, open: map<nat, string>, gone: set<string>)
    requires Undisturbed(s, open, gone) && Enabled(s, op)
    requires !op.StartTakes? && !op.StartCommits? && !op.StartFails? && !op.Reclaim?
    ensures Undisturbed(Step(s, op), open, gone)
  {
    StepWrites(s, op);
    StartingStays(s, op);
    WritesUndisturbed(s, Step(s, op), Written(s, op), open, gone);
  }

  lemma StartingStays(s: State, op: Op)
    requires Enabled(s, op) && !op.StartTakes? && !op.StartCommits? && !op.StartFails?
    ensures Step(s, op).starting == s.starting
  {
    if op.Pay? { PayKeepsStarting(s, op.k); }
  }

  lemma PayKeepsStarting(s: State, k: nat)
    requires k in s.debts
    ensures PayStep(s, k).starting == s.starting
  {
    match s.debts[k]
    case Both(a, c) =>
    case OnlyCtrl(c) =>
    case Grpc(p) =>
  }

  lemma WritesUndisturbed(s: State, r: State, w: Option<(string, Lease)>, open: map<nat, string>, gone: set<string>)
    requires Undisturbed(s, open, gone) && Writes(s, r, w) && r.starting == s.starting
    requires w.Some? ==>
               && (!w.value.1.phase.Live? ==> w.value.0 in s.leases && !IsLive(s, w.value.0))
               && (w.value.1.phase.Live? ==> w.value.1.grpcPort == 0)
    ensures Undisturbed(r, open, gone)
  {}

  lemma StepMisses(s: State, op: Op)
    requires Enabled(s, op) && !op.StartCommits?
    ensures Step(s, op).misses == s.misses
  {
    if op.TakeCtrl? { TakeCtrlFrame(s, op.t); } else { StepFrame(s, op); }
  }

  lemma {:induction false} SerialNeverMisses(s: State, ops: seq<Op>, open: map<nat, string>, gone: set<string>)
    requires Inv(s) && Legal(s, ops) && Undisturbed(s, open, gone) && Serial(ops, open, gone)
    ensures Run(s, ops).misses == s.misses
    decreases |ops|
  {
    if ops != [] {
      var op := ops[0];
      StepKeeps(s, op);
      if !op.StartCommits? { StepMisses(s, op); }
      match op {
        case StartTakes(t, id) =>
          TakesUndisturbed(s, t, id, open, gone);
          SerialNeverMisses(Step(s, op), ops[1..], if id in gone then open - {t} else open[t := id], gone);
        case StartFails(t) =>
          FailsUndisturbed(s, t, open, gone);
          SerialNeverMisses(Step(s, op), ops[1..], open - {t}, gone);
        case StartCommits(t, session) =>
          CommitsUndisturbed(s, t, session, open, gone);
          SerialNeverMisses(Step(s, op), ops[1..], Without(open, open[t]), gone);
        case Reclaim(id, k) =>
          ReclaimUndisturbed(s, id, k, open, gone);
          SerialNeverMisses(Step(s, op), ops[1..], Without(open, id), gone + {id});
        case _ =>
          OthersUndisturbed(s, op, open, gone);
          SerialNeverMisses(Step(s, op), ops[1..], open, gone);
      }
    }
  }

  /** In every run whose starts are serial on each lease, the used sets between operations are exactly the
      ports of the live leases. */
  lemma AtRestPoolsAreLeases(s0: State, ops: seq<Op>)
    requires Start(s0) && Legal(s0, ops) && Quiet(Run(s0, ops)) && Serial(ops, map[], {})
    ensures var s := Run(s0, ops);
            && s.agent.used == (set id | id in s.leases && s.leases[id].phase.Live? && s.leases[id].agentPort != 0 :: s.leases[id].agentPort)
            && s.ctrl.used == (set id | id in s.leases && s.leases[id].phase.Live? :: s.leases[id].ctrlPort)
            && s.grpc.used == LiveGrpcs(s)
  {
    AtRestExactly(s0, ops);
    FreshInv(s0.agent, s0.ctrl, s0.grpc);
    RunKeeps(s0, ops);
    SerialNeverMisses(s0, ops, map[], {});
  }

  // ---------- Agent port 0 ----------

  /** Whoever has an agent port has a control port as well, except a create between its allocations. */
  lemma AgentsNotMore(s: State)
    requires AgentInv(s) && CtrlInv(s) && s.making.None?
    ensures |s.agent.used| <= |s.ctrl.used|
  {
    var c, d := AgentClaims(s), CtrlClaims(s);
    forall p | p in s.agentBy ensures d(s.agentBy[p]).Some? {
      assert c(s.agentBy[p]) == Some(p);
    }
    var f := map p | p in s.agentBy :: d(s.agentBy[p]).value;
    forall p | p in s.agent.used ensures f[p] in s.ctrl.used {
      assert d(s.agentBy[p]).Some?;
    }
    forall p, q | p in s.agent.used && q in s.agent.used && p != q ensures f[p] != f[q] {
      assert c(s.agentBy[p]) == Some(p) && c(s.agentBy[q]) == Some(q);
      assert s.ctrlBy[f[p]] == s.agentBy[p] && s.ctrlBy[f[q]] == s.agentBy[q];
    }
    Injects(s.agent.used, f, s.ctrl.used);
  }

  /** The agent range is at least as large as the control range. */
  predicate Covered(s: State) { Size(s.agent) >= Size(s.ctrl) >= 0 }

  /** When the agent ports are exhausted so are the control ports. */
  lemma ExhaustedTogether(s: State)
    requires AgentInv(s) && CtrlInv(s) && s.making.None? && Covered(s) && Port(s.agent).None?
    ensures Port(s.ctrl).None?
  {
    AgentsNotMore(s);
    FullByCount(s.agent);
    FullByCount(s.ctrl);
  }

  /** Nobody was given agent port 0. */
  ghost predicate NoZero(s: State) {
    && (forall id :: id in s.leases ==> s.leases[id].agentPort != 0)
    && (forall t :: t in s.creating ==> s.creating[t].agentPort != 0)
  }

  /** No port is returned, and nothing else happens, between the two allocations of a create. */
  ghost predicate Unbroken(ops: seq<Op>) {
    |ops| <= 1 || ((ops[0].TakeAgent? ==> ops[1].TakeCtrl?) && Unbroken(ops[1..]))
  }

  lemma PairNoZero(s: State, owner: string, key: Option<string>, wanted: Option<string>, t: nat)
    requires AgentInv(s) && CtrlInv(s) && NoZero(s) && Covered(s) && s.making.None?
    ensures var r := TakeCtrlStep(TakeAgentStep(s, owner, key, wanted), t); NoZero(r) && r.making.None?
  {
    AllocateComplete(s.agent);
    var a := TakeAgentStep(s, owner, key, wanted);
    var p := AgentPort(s, wanted);
    assert a.making == Some(Making(owner, key, p)) && a.ctrl == s.ctrl && a.creating == s.creating && a.leases == s.leases;
    if p == 0 { ExhaustedTogether(s); }
    TakenNoZero(a, t);
  }

  lemma TakenNoZero(a: State, t: nat)
    requires NoZero(a) && a.making.Some? && (a.making.value.agentPort != 0 || Port(a.ctrl).None?)
    ensures var r := TakeCtrlStep(a, t); NoZero(r) && r.making.None?
  {
    if Port(a.ctrl).Some? {
      assert TakeCtrlStep(a, t) == GotCtrl(a, a.making.value, t, Port(a.ctrl).value);
    }
  }

  lemma OtherNoZero(s: State, op: Op)
    requires NoZero(s) && Enabled(s, op) && s.making.None? && !op.TakeAgent?
    ensures NoZero(Step(s, op))
  {
    if op.StartCommits? { StartCommitsShape(s, op.t, op.session); } else { StepFrame(s, op); }
    NoZeroFrom(s, Step(s, op), Written(s, op));
  }

  lemma NoZeroFrom(s: State, r: State, w: Option<(string, Lease)>)
    requires NoZero(s) && Writes(s, r, w) && Shrinks(s.creating, r.creating) && (w.Some? ==> w.value.1.agentPort != 0)
    ensures NoZero(r)
  {}

  lemma StepKeepsRanges(s: State, op: Op)
    requires Covered(s) && Enabled(s, op)
    ensures Covered(Step(s, op)) && (!op.TakeAgent? && s.making.None? ==> Step(s, op).making.None?)
  {
    if op.StartCommits? {
      StartCommitsShape(s, op.t, op.session);
    } else if op.TakeCtrl? {
      TakeCtrlFrame(s, op.t);
    } else {
      StepFrame(s, op);
    }
  }

  /** In every run that leaves the two allocations of a create together, no lease has agent port 0, although
      exhaustion is not reported. */
  lemma {:induction false} NoAgentPortZero(s: State, ops: seq<Op>)
    requires Inv(s) && NoZero(s) && Covered(s) && s.making.None? && Legal(s, ops) && Unbroken(ops)
    ensures NoZero(Run(s, ops))
    decreases |ops|
  {
    if ops != [] {
      var r := Step(s, ops[0]);
      StepKeeps(s, ops[0]);
      StepKeepsRanges(s, ops[0]);
      if !ops[0].TakeAgent? {
        OtherNoZero(s, ops[0]);
        NoAgentPortZero(r, ops[1..]);
      } else if |ops| > 1 {
        assert ops[1..][0] == ops[1] && ops[1].TakeCtrl?;
        PairNoZero(s, ops[0].owner, ops[0].key, ops[0].wanted, ops[1].t);
        StepKeeps(r, ops[1]);
        StepKeepsRanges(r, ops[1]);
        assert ops[1..][1..] == ops[2..];
        NoAgentPortZero(Step(r, ops[1]), ops[2..]);
      }
    }
  }

  /** The create between its allocations waits for its own TakeCtrl, the only step that takes a control port. */
  lemma StepWaits(s: State, op: Op)
    requires s.making.Some? && Enabled(s, op) && !op.TakeCtrl?
    ensures var r := Step(s, op); r.making == s.making && r.ctrl == s.ctrl.(used := r.ctrl.used) && r.ctrl.used <= s.ctrl.used
  {
    StepFrame(s, op);
    if op.Pay? { PayWaits(s, op.k); } else if op.FreeGrpc? { FreeGrpcShape(s, op.id); }
  }

  lemma PayWaits(s: State, k: nat)
    requires k in s.debts
    ensures var r := PayStep(s, k); r.ctrl == s.ctrl.(used := r.ctrl.used) && r.ctrl.used <= s.ctrl.used
  {
    match s.debts[k]
    case Both(a, c) =>
    case OnlyCtrl(c) =>
    case Grpc(p) =>
  }

  lemma {:induction false} MakingWaits(s: State, ops: seq<Op>)
    requires s.making.Some? && Legal(s, ops) && forall op :: op in ops ==> !op.TakeCtrl?
    ensures var r := Run(s, ops); r.making == s.making && r.ctrl == s.ctrl.(used := r.ctrl.used) && r.ctrl.used <= s.ctrl.used
    decreases |ops|
  {
    if ops != [] {
      assert ops[0] in ops && forall op :: op in ops[1..] ==> op in ops;
      StepWaits(s, ops[0]);
      MakingWaits(Step(s, ops[0]), ops[1..]);
    }
  }

  lemma PortZeroIffExhausted(s: State, wanted: Option<string>)
    requires AgentInv(s)
    ensures AgentPort(s, wanted) == 0 <==> Port(s.agent).None?
  {
    AllocateComplete(s.agent);
    assert !InRange(s.agent, 0);
  }

  lemma GotZero(m: State, t: nat)
    requires m.making.Some? && t !in m.creating
    ensures var r := TakeCtrlStep(m, t);
            t in r.creating && r.creating[t].agentPort == 0 <==> m.making.value.agentPort == 0 && Port(m.ctrl).Some?
  {
    if Port(m.ctrl).Some? {
      assert TakeCtrlStep(m, t) == GotCtrl(m, m.making.value, t, Port(m.ctrl).value);
    } else {
      assert TakeCtrlStep(m, t) == NoCtrl(m, m.making.value);
    }
  }

  /** Whatever happens between its two allocations, a create goes on with agent port 0 exactly if the agent
      ports were exhausted at the first and a control port is free at the second. With at least as many agent
      as control ports that is: exactly if they were exhausted and a control port came back in between. */
  lemma ZeroExactly(s: State, take: Op, mid: seq<Op>, t: nat)
    requires Inv(s) && take.TakeAgent? && Enabled(s, take) && Legal(Step(s, take), mid)
    requires (forall op :: op in mid ==> !op.TakeCtrl?) && t !in Run(Step(s, take), mid).creating
    ensures var m := Run(Step(s, take), mid);
            && Enabled(m, TakeCtrl(t))
            && (var r := Step(m, TakeCtrl(t));
                && (t in r.creating && r.creating[t].agentPort == 0 <==> Port(s.agent).None? && Port(m.ctrl).Some?)
                && (Covered(s) ==>
                      (t in r.creating && r.creating[t].agentPort == 0 <==> Port(s.agent).None? && m.ctrl.used < s.ctrl.used)))
  {
    var a := Step(s, take);
    var m := Run(a, mid);
    TakeAgentShape(s, take.owner, take.key, take.wanted);
    MakingWaits(a, mid);
    PortZeroIffExhausted(s, take.wanted);
    assert a.making.value.agentPort == AgentPort(s, take.wanted) && a.ctrl == s.ctrl;
    GotZero(m, t);
    if Covered(s) && Port(s.agent).None? {
      ExhaustedTogether(s);
      FreedByReturn(s.ctrl, m.ctrl);
    }
  }

  lemma FreedByReturn(full: Pool, p: Pool)
    requires Port(full).None? && p == full.(used := p.used) && p.used <= full.used && Valid(full)
    ensures Port(p).Some? <==> p.used < full.used
  {
    AllocateComplete(full);
    AllocateComplete(p);
    if Port(p).Some? {
      assert InRange(full, Port(p).value);
    } else {
      forall q | q in full.used ensures q in p.used { assert InRange(p, q); }
    }
  }

  /** The service's ranges have a hundred ports each. */
  lemma ServiceNeverHandsOutZero(ops: seq<Op>)
    requires Legal(SERVICE, ops) && Unbroken(ops)
    ensures NoZero(Run(SERVICE, ops))
  {
    FreshInv(SERVICE.agent, SERVICE.ctrl, SERVICE.grpc);
    NoAgentPortZero(SERVICE, ops);
  }

  // ---------- The port a device had ----------

  /** The agent port of the last lease made with each sticky key, by the operations: a create that commits
      with a key, its owner having less than five live leases. */
  ghost function Remember(m: map<string, int>, s: State, op: Op): map<string, int>
    requires Enabled(s, op)
  {
    if op.CreateCommits? && s.creating[op.t].key.Some? && |LiveOf(s, s.creating[op.t].owner)| < 5
    then m[s.creating[op.t].key.value := s.creating[op.t].agentPort] else m
  }

  ghost function Remembered(m: map<string, int>, s: State, ops: seq<Op>): map<string, int>
    requires Legal(s, ops)
    decreases |ops|
  {
    if ops == [] then m else Remembered(Remember(m, s, ops[0]), Step(s, ops[0]), ops[1..])
  }

  lemma StepRemembers(s: State, op: Op)
    requires Enabled(s, op)
    ensures Step(s, op).sticky == Remember(s.sticky, s, op)
  {
    if op.Pay? { PayKeepsSticky(s, op.k); }
  }

  lemma PayKeepsSticky(s: State, k: nat)
    requires k in s.debts
    ensures PayStep(s, k).sticky == s.sticky
  {
    match s.debts[k]
    case Both(a, c) =>
    case OnlyCtrl(c) =>
    case Grpc(p) =>
  }

  lemma {:induction false} RunRemembers(s: State, ops: seq<Op>)
    requires Legal(s, ops)
    ensures Run(s, ops).sticky == Remembered(s.sticky, s, ops)
    decreases |ops|
  {
    if ops != [] {
      StepRemembers(s, ops[0]);
      RunRemembers(Step(s, ops[0]), ops[1..]);
    }
  }

  /** Who comes back with a key gets the port of the last lease made with it, exactly if that is a port of the
      range and nobody has it; otherwise, as without a key, a free port, and none exactly if there is none. */
  lemma DeviceKeepsPort(s0: State, ops: seq<Op>, take: Op)
    requires Start(s0) && Legal(s0, ops) && take.TakeAgent? && Enabled(Run(s0, ops), take)
    ensures var s, had := Run(s0, ops), Remembered(map[], s0, ops);
            var r, w := Step(s, take), take.wanted;
            && r.making.Some?
            && (var p := r.making.value.agentPort;
                if w.Some? && w.value in had && s.agent.base <= had[w.value] <= s.agent.max && had[w.value] !in s.agent.used
                then p == had[w.value]
                else if forall q :: s.agent.base <= q <= s.agent.max ==> q in s.agent.used then p == 0
                else s.agent.base <= p <= s.agent.max && p !in s.agent.used)
  {
    RunRemembers(s0, ops);
    AllocateComplete(Run(s0, ops).agent);
    var s := Run(s0, ops);
    assert (forall q :: s.agent.base <= q <= s.agent.max ==> q in s.agent.used) <==> (forall q :: InRange(s.agent, q) ==> q in s.agent.used) by {
      forall q | s.agent.base <= q <= s.agent.max ensures InRange(s.agent, q) {}
    }
  }

  // ---------- What overlapping operations can do ----------

  /** The two allocations of a create are not together when a reclaimed lease's ports come back in between:
      from any state with the agent ports exhausted and a pair on its way back, a create gets agent port 0. */
  lemma ReturnBetweenGivesZero(s: State, owner: string, k: nat, t: nat)
    requires Inv(s) && s.making.None? && Port(s.agent).None? && t !in s.creating && k in s.debts && s.debts[k].Both?
    ensures var a := TakeAgentStep(s, owner, None, None);
            var b := PayStep(a, k);
            && Enabled(s, TakeAgent(owner, None, None)) && Enabled(a, Pay(k)) && b.debts == s.debts[k := OnlyCtrl(s.debts[k].ctrl)]
            && (var c := PayStep(b, k);
                && Enabled(b, Pay(k)) && Enabled(c, TakeCtrl(t))
                && (var d := TakeCtrlStep(c, t); t in d.creating && d.creating[t].agentPort == 0))
  {
    var a := TakeAgentStep(s, owner, None, None);
    assert AgentPort(s, None) == 0;
    var b := PayStep(a, k);
    assert b.debts == s.debts[k := OnlyCtrl(s.debts[k].ctrl)] && b.ctrl == s.ctrl && b.making == a.making;
    var p := s.debts[k].ctrl;
    assert CtrlClaims(s)(ByDebt(k)) == Some(p);
    var c := PayStep(b, k);
    assert c.ctrl == Released(s.ctrl, p) && InRange(c.ctrl, p);
    AllocateComplete(c.ctrl);
  }

  /** Two captures started on one idle lease before either commits: the second commit writes over the first
      port, which is then in use for nobody, whatever follows. */
  lemma OverlapLosesPort(s: State, id: string, t: nat, u: nat)
    requires Inv(s) && s.making.None? && IsLive(s, id) && s.leases[id].session == "" && t != u
    requires t in s.starting && u in s.starting && s.starting[t].lease == id == s.starting[u].lease
    ensures var a := StartCommitsStep(s, t, "first");
            && Enabled(s, StartCommits(t, "first")) && Enabled(a, StartCommits(u, "second"))
            && (var b := StartCommitsStep(a, u, "second");
                && b.misses == s.misses + 1 && b.leases[id].grpcPort == s.starting[u].port
                && forall ops :: Legal(b, ops) ==> Orphan(Run(b, ops), s.starting[t].port))
  {
    var p := s.starting[t].port;
    NotLost(s, ByStart(t), p);
    var a := StartCommitsStep(s, t, "first");
    assert a.leases[id].grpcPort == p && a.starting == s.starting - {t} && a.misses == s.misses;
    StepKeeps(s, StartCommits(t, "first"));
    StepKeeps(a, StartCommits(u, "second"));
    var b := StartCommitsStep(a, u, "second");
    LostAreOrphans(b, p);
    forall ops | Legal(b, ops) ensures Orphan(Run(b, ops), p) { OrphanForGood(b, ops, p); }
  }

  // ---------- Runs of the service in which they do ----------

  ghost predicate Reachable(s: State) { exists ops :: Legal(SERVICE, ops) && Run(SERVICE, ops) == s }

  lemma ReachableInv(s: State)
    requires Reachable(s)
    ensures Inv(s)
  {
    var ops :| Legal(SERVICE, ops) && Run(SERVICE, ops) == s;
    FreshInv(SERVICE.agent, SERVICE.ctrl, SERVICE.grpc);
    RunKeeps(SERVICE, ops);
  }

  lemma {:induction false} RunSnoc(s: State, ops: seq<Op>, op: Op)
    requires Legal(s, ops) && Enabled(Run(s, ops), op)
    ensures Legal(s, ops + [op]) && Run(s, ops + [op]) == Step(Run(s, ops), op)
    decreases |ops|
  {
    if ops == [] {
      assert (ops + [op])[1..] == [];
    } else {
      RunSnoc(Step(s, ops[0]), ops[1..], op);
      assert (ops + [op])[1..] == ops[1..] + [op];
    }
  }

  lemma Steps(s: State, op: Op)
    requires Reachable(s) && Enabled(s, op)
    ensures Reachable(Step(s, op))
  {
    var ops :| Legal(SERVICE, ops) && Run(SERVICE, ops) == s;
    RunSnoc(SERVICE, ops, op);
  }

  /** `n` creates in flight, their agents being started, and nothing else. */
  ghost predicate Filled(s: State, n: nat) {
    && Reachable(s) && s.making.None? && s.leases == map[] && s.starting == map[] && s.debts == map[] && s.grpc == SERVICE.grpc
    && |s.agent.used| == n == |s.ctrl.used| && Size(s.agent) == 100 == Size(s.ctrl)
    && (forall t: nat :: t in s.creating <==> t < n)
  }

  lemma OneMore(p: Pool)
    requires Valid(p) && |p.used| < Size(p)
    ensures Port(p).Some? && |Allocated(p).used| == |p.used| + 1 && Size(Allocated(p)) == Size(p)
  {
    FullByCount(p);
    AllocateComplete(p);
  }

  /** One more create gets both its ports as long as the ranges are not full. */
  lemma FillOne(s: State, n: nat) returns (r: State)
    requires Filled(s, n) && n < 100
    ensures Filled(r, n + 1)
  {
    ReachableInv(s);
    OneMore(s.agent);
    OneMore(s.ctrl);
    Steps(s, TakeAgent("o", None, None));
    r := FillSecond(s, TakeAgentStep(s, "o", None, None), n);
  }

  lemma FillSecond(s: State, a: State, n: nat) returns (r: State)
    requires Filled(s, n) && n < 100 && Reachable(a) && a == TakeAgentStep(s, "o", None, None)
    requires Port(s.agent).Some? && |Allocated(s.agent).used| == n + 1 && Size(Allocated(s.agent)) == 100
    requires Port(s.ctrl).Some? && |Allocated(s.ctrl).used| == n + 1 && Size(Allocated(s.ctrl)) == 100
    ensures Filled(r, n + 1)
  {
    Steps(a, TakeCtrl(n));
    r := TakeCtrlStep(a, n);
    assert r == GotCtrl(a, a.making.value, n, Port(s.ctrl).value);
    assert a.agent == Allocated(s.agent);
  }

  lemma {:induction false} Fill(n: nat) returns (s: State)
    requires n <= 100
    ensures Filled(s, n)
    decreases n
  {
    if n == 0 {
      s := SERVICE;
      assert Legal(SERVICE, []) && Run(SERVICE, []) == SERVICE;
    } else {
      s := Fill(n - 1);
      s := FillOne(s, n - 1);
    }
  }

  /** All agent ports are in use and a pair of ports is on its way back. */
  ghost predicate Returning(s: State) {
    && Reachable(s) && s.making.None? && s.leases == map[] && Port(s.agent).None? && 0 !in s.creating
    && s.debts.Keys == {0} && s.debts[0].Both?
  }

  lemma OneFails() returns (s: State)
    ensures Returning(s)
  {
    var n := 100;
    var f := Fill(n);
    ReachableInv(f);
    FullByCount(f.agent);
    Steps(f, CreateFails(0, 0));
    s := CreateFailsStep(f, 0, 0);
    assert s.agent == f.agent;
  }

  lemma PaysOff(s: State)
    requires Reachable(s) && s.debts.Keys == {0} && s.debts[0].Both?
    ensures var c := PayStep(PayStep(s, 0), 0);
            Reachable(c) && c.debts == map[] && c.leases == s.leases && c.making == s.making && c.creating == s.creating
  {
    Steps(s, Pay(0));
    var b := PayStep(s, 0);
    assert b == PayAgent(s, 0, s.debts[0].agent, s.debts[0].ctrl);
    Steps(b, Pay(0));
    assert PayStep(b, 0) == PayCtrl(b, 0, s.debts[0].ctrl);
  }

  lemma GoesOn(s: State) returns (d: State)
    requires Returning(s)
    ensures Reachable(d) && d.making.None? && d.leases == map[] && d.debts == map[] && 0 in d.creating && d.creating[0].agentPort == 0
  {
    ReachableInv(s);
    ReturnBetweenGivesZero(s, "o", 0, 0);
    Steps(s, TakeAgent("o", None, None));
    var a := TakeAgentStep(s, "o", None, None);
    assert a.debts == s.debts && a.leases == s.leases && a.creating == s.creating && a.making.Some?;
    PaysOff(a);
    var c := PayStep(PayStep(a, 0), 0);
    Steps(c, TakeCtrl(0));
    d := TakeCtrlStep(c, 0);
    TakeCtrlFrame(c, 0);
    DebtsStay(c, 0);
  }

  lemma DebtsStay(s: State, t: nat)
    requires s.making.Some?
    ensures TakeCtrlStep(s, t).debts == s.debts
  {}

  lemma LeasedWithZero(d: State) returns (s: State)
    requires Reachable(d) && d.making.None? && d.leases == map[] && d.debts == map[]
    requires 0 in d.creating && d.creating[0].agentPort == 0
    ensures Reachable(s) && IsLive(s, "z") && s.leases["z"].agentPort == 0
  {
    assert LiveOf(d, d.creating[0].owner) == {};
    Steps(d, CreateCommits(0, "z", 0));
    s := CreateCommitsStep(d, 0, "z", 0);
  }

  /** A hundred creates at once take every agent port; one fails, and its ports come back while the next
      create is between its allocations: it goes on to a lease with agent port 0. */
  lemma ZeroHappens() returns (s: State)
    ensures Reachable(s) && IsLive(s, "z") && s.leases["z"].agentPort == 0
  {
    s := OneFails();
    s := GoesOn(s);
    s := LeasedWithZero(s);
  }

  /** One lease, idle. */
  lemma OneLease() returns (s: State)
    ensures Reachable(s) && s.making.None? && s.starting == map[] && s.creating == map[] && s.debts == map[] && s.grpc == SERVICE.grpc
    ensures s.leases.Keys == {"l"} && IsLive(s, "l") && s.leases["l"].session == ""
  {
    var f := Fill(1);
    assert 0 in f.creating && LiveOf(f, f.creating[0].owner) == {};
    Steps(f, CreateCommits(0, "l", 0));
    s := CreateCommitsStep(f, 0, "l", 0);
  }

  /** Two captures of it are started at once. */
  lemma TwoStarts() returns (s: State)
    ensures Reachable(s) && s.making.None? && s.creating == map[] && s.debts == map[] && s.leases.Keys == {"l"}
    ensures IsLive(s, "l") && s.leases["l"].session == ""
    ensures s.starting.Keys == {0, 1} && s.starting[0].lease == "l" == s.starting[1].lease
  {
    var l := OneLease();
    AllocateComplete(l.grpc);
    assert InRange(l.grpc, 19100) && InRange(l.grpc, 19101);
    Steps(l, StartTakes(0, "l"));
    var a := GotGrpc(l, 0, "l", Port(l.grpc).value);
    AllocateComplete(a.grpc);
    assert InRange(a.grpc, 19100) && InRange(a.grpc, 19101);
    Steps(a, StartTakes(1, "l"));
    s := GotGrpc(a, 1, "l", Port(a.grpc).value);
  }

  /** Both commit: between operations a port is in use that nobody has. */
  lemma OrphanHappens() returns (s: State, p: int)
    ensures Reachable(s) && Quiet(s) && Orphan(s, p)
  {
    var two := TwoStarts();
    ReachableInv(two);
    OverlapLosesPort(two, "l", 0, 1);
    Steps(two, StartCommits(0, "first"));
    var a := StartCommitsStep(two, 0, "first");
    Steps(a, StartCommits(1, "second"));
    s, p := StartCommitsStep(a, 1, "second"), two.starting[0].port;
    assert Legal(s, []) && Run(s, []) == s;
  }
}
