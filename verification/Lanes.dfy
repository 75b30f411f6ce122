/**
 One owner's side of the tunnel registry: the two FIFOs that pair tunnel registrations with Connect
 streams, next to the history of what arrived and what was paired (pkg/plugin/tunnel.go:538-629).
 */
module Lanes {
  import opened Util
  import opened PluginRegistry

  /** Registration number `reg` of the owner was given its connection number `conn`. */
  datatype Binding = Binding(reg: nat, conn: nat)

  datatype History = History(regs: seq<InstanceId>, conns: seq<Client>, bound: seq<Binding>)

  datatype Lane = Lane(awaiting: seq<InstanceId>, pending: seq<Client>, hist: History)

  const NO_HISTORY := History([], [], [])

  /**
   The pairing is one-to-one and monotone: the bindings, in the order they were made, run upwards
   through both histories.
   */
  ghost predicate Matching(h: History) {
    && (forall b :: b in h.bound ==> b.reg < |h.regs| && b.conn < |h.conns|)
    && (forall i, j :: 0 <= i < j < |h.bound| ==>
          h.bound[i].reg < h.bound[j].reg && h.bound[i].conn < h.bound[j].conn)
  }

  /** First registration and first connection younger than every bound one. */
  ghost function FreshReg(h: History): nat {
    if h.bound == [] then 0 else h.bound[|h.bound| - 1].reg + 1
  }

  ghost function FreshConn(h: History): nat {
    if h.bound == [] then 0 else h.bound[|h.bound| - 1].conn + 1
  }

  ghost predicate LaneInv(l: Lane) {
    && Distinct(l.hist.regs) && Distinct(l.hist.conns) && Matching(l.hist)
    && Ordered(l.awaiting, l.hist.regs, FreshReg(l.hist))
    && Ordered(l.pending, l.hist.conns, FreshConn(l.hist))
    && (l.awaiting == [] || l.pending == [])
  }

  // ---------- What the registry operations do to the lane of one owner ----------

  ghost function Pair(h: History, id: InstanceId, c: Client): History {
    h.(bound := h.bound + [Binding(IndexOf(h.regs, id), IndexOf(h.conns, c))])
  }

  ghost function Drop(l: Lane, ids: set<InstanceId>): Lane { l.(awaiting := Without(l.awaiting, ids)) }

  ghost function Prune(l: Lane, dead: set<Client>): Lane { l.(pending := Without(l.pending, dead)) }

  ghost function Admit(l: Lane, id: InstanceId, dead: set<Client>): Lane {
    var waiting := l.awaiting + [id];
    var h := l.hist.(regs := l.hist.regs + [id]);
    var live := Without(l.pending, dead);
    if live == [] then Lane(waiting, [], h)
    else Lane(waiting[1..], live[1..], Pair(h, waiting[0], live[0]))
  }

  ghost function Attach(l: Lane, c: Client, dead: set<Client>): Lane {
    var h := l.hist.(conns := l.hist.conns + [c]);
    if l.awaiting == [] then Lane([], Without(l.pending, dead) + [c], h)
    else Lane(l.awaiting[1..], l.pending, Pair(h, l.awaiting[0], c))
  }

  // ---------- Preservation ----------

  lemma MatchingGrows(h: History, h': History)
    requires Matching(h) && h'.bound == h.bound && h.regs <= h'.regs && h.conns <= h'.conns
    ensures Matching(h')
  {}

  lemma FreshBounds(h: History)
    requires Matching(h)
    ensures FreshReg(h) <= |h.regs| && FreshConn(h) <= |h.conns|
  {
    if h.bound != [] { assert h.bound[|h.bound| - 1] in h.bound; }
  }

  /** Pairing an instance and a client both younger than everything paired before. */
  lemma PairKeeps(h: History, id: InstanceId, c: Client)
    requires Matching(h) && id in h.regs && c in h.conns
    requires FreshReg(h) <= IndexOf(h.regs, id) && FreshConn(h) <= IndexOf(h.conns, c)
    ensures Matching(Pair(h, id, c))
    ensures FreshReg(Pair(h, id, c)) == IndexOf(h.regs, id) + 1
    ensures FreshConn(Pair(h, id, c)) == IndexOf(h.conns, c) + 1
  {
    var h' := Pair(h, id, c);
    forall i, j | 0 <= i < j < |h'.bound|
      ensures h'.bound[i].reg < h'.bound[j].reg && h'.bound[i].conn < h'.bound[j].conn
    {
      if j == |h.bound| && i < j - 1 {
        assert h.bound[i].reg < h.bound[j - 1].reg && h.bound[i].conn < h.bound[j - 1].conn;
      }
    }
  }

  /** A newcomer goes to the end of the log and may go to the end of the queue. */
  lemma Arrive<T(!new)>(q: seq<T>, log: seq<T>, from: nat, x: T)
    requires Ordered(q, log, from) && x !in log && from <= |log| && Distinct(log)
    ensures Ordered(q, log + [x], from) && Ordered(q + [x], log + [x], from) && Distinct(log + [x])
  {
    OrderedGrows(q, log, from, x);
    IndexOfGrows(log, x, x);
    OrderedMember(q, log, from);
    OrderedSnoc(q, log + [x], from, x);
  }

  lemma DropKeeps(l: Lane, ids: set<InstanceId>)
    requires LaneInv(l)
    ensures LaneInv(Drop(l, ids))
  {
    OrderedWithout(l.awaiting, l.hist.regs, FreshReg(l.hist), ids);
  }

  lemma PruneKeeps(l: Lane, dead: set<Client>)
    requires LaneInv(l)
    ensures LaneInv(Prune(l, dead))
  {
    OrderedWithout(l.pending, l.hist.conns, FreshConn(l.hist), dead);
  }

  lemma AdmitKeeps(l: Lane, id: InstanceId, dead: set<Client>)
    requires LaneInv(l) && id !in l.hist.regs
    ensures LaneInv(Admit(l, id, dead))
  {
    var h := l.hist.(regs := l.hist.regs + [id]);
    var live := Without(l.pending, dead);
    FreshBounds(l.hist);
    Arrive(l.awaiting, l.hist.regs, FreshReg(l.hist), id);
    OrderedWithout(l.pending, l.hist.conns, FreshConn(l.hist), dead);
    MatchingGrows(l.hist, h);
    if live != [] {
      assert l.awaiting == [] && l.awaiting + [id] == [id];
      AdmitBinds(h, id, live);
    }
  }

  /** The newcomer is bound at once: nobody was waiting before it. */
  lemma AdmitBinds(h: History, id: InstanceId, live: seq<Client>)
    requires Distinct(h.regs) && Distinct(h.conns) && Matching(h) && live != []
    requires Ordered([id], h.regs, FreshReg(h)) && Ordered(live, h.conns, FreshConn(h))
    ensures LaneInv(Lane([], live[1..], Pair(h, id, live[0])))
  {
    PairKeeps(h, id, live[0]);
  }

  lemma AttachKeeps(l: Lane, c: Client, dead: set<Client>)
    requires LaneInv(l) && c !in l.hist.conns
    ensures LaneInv(Attach(l, c, dead))
  {
    var h := l.hist.(conns := l.hist.conns + [c]);
    FreshBounds(l.hist);
    MatchingGrows(l.hist, h);
    OrderedWithout(l.pending, l.hist.conns, FreshConn(l.hist), dead);
    Arrive(Without(l.pending, dead), l.hist.conns, FreshConn(l.hist), c);
    Arrive(l.pending, l.hist.conns, FreshConn(l.hist), c);
    if l.awaiting != [] {
      IndexOfGrows(l.hist.conns, c, c);
      PairKeeps(h, l.awaiting[0], c);
    }
  }
}
