/** The agent's upload client over its disk queue (cmd/gt-agent/ingest.go:32-73, 79-237). */
module Ingest {
  import opened Util
  import opened Spools

  /** One packet off the capture channel: the record it became, if any, and whether Append said so. */
  datatype Arrival = Arrival(pkt: Packet, record: Option<Entry>, reported: bool)

  function Kept(a: seq<Arrival>): seq<Entry> {
    if a == [] then []
    else Kept(a[..|a| - 1]) + (if a[|a| - 1].record.Some? then [a[|a| - 1].record.value] else [])
  }

  /** How many Appends returned an error. */
  function Refused(a: seq<Arrival>): nat {
    if a == [] then 0 else Refused(a[..|a| - 1]) + (if a[|a| - 1].reported then 0 else 1)
  }

  /** Stored, but reported as an error because the flush after the write failed. */
  function Misreported(a: seq<Arrival>): nat {
    if a == [] then 0
    else Misreported(a[..|a| - 1]) + (if a[|a| - 1].record.Some? && !a[|a| - 1].reported then 1 else 0)
  }

  lemma ArrivalSnoc(a: seq<Arrival>, x: Arrival)
    ensures Kept(a + [x]) == Kept(a) + (if x.record.Some? then [x.record.value] else [])
    ensures Refused(a + [x]) == Refused(a) + (if x.reported then 0 else 1)
    ensures Misreported(a + [x]) == Misreported(a) + (if x.record.Some? && !x.reported then 1 else 0)
  {
    assert (a + [x])[..|a|] == a;
  }

  ghost predicate Honest(a: seq<Arrival>) {
    forall i :: 0 <= i < |a| ==>
      (a[i].reported ==> a[i].record.Some?) && (a[i].record.Some? ==> a[i].record.value.pkt == a[i].pkt)
  }

  /** Stored and refused add up to the packets received, but for those in both. */
  lemma {:induction false} StoredOrRefused(a: seq<Arrival>)
    requires Honest(a)
    ensures |Kept(a)| + Refused(a) == |a| + Misreported(a)
  {
    if a != [] { StoredOrRefused(a[..|a| - 1]); }
  }

  /** What the environment does in one pass of the loop: the outcome of the refill (with the send of a
      full batch), then the event selected and the outcomes of the calls it leads to. */
  datatype Event =
    | Arrive(pkt: Packet, disk: Disk, readable: bool, sends: bool, persists: bool)
    | Timer(sends: bool, persists: bool)
    | Cancelled(sends: bool, persists: bool)

  datatype Turn = Turn(readable: bool, sends: bool, persists: bool, event: Event)

  predicate Healthy(t: Turn) {
    t.readable && t.sends && t.event.sends && (t.event.Arrive? ==> t.event.readable)
  }

  /** Where a part of the loop body leads: on to the select, to the next pass, or out. */
  datatype Flow = Select | Continue | Return(ok: bool)

  datatype Connection = Connection(streamed: bool, turns: seq<Turn>)

  /** Confirmed is exactly what was sent; stored is exactly what was kept; dropped is what was refused. */
  ghost predicate Ledger(s: Spool, first: nat, base: nat, arrivals: seq<Arrival>, sent: seq<Entry>, dropped: nat) {
    && first <= s.acked <= |s.log| && base <= |s.log|
    && sent == s.log[first..s.acked]
    && Kept(arrivals) == s.log[base..]
    && Refused(arrivals) == dropped && Honest(arrivals)
  }

  /** The records handed out and not yet confirmed. */
  ghost function InFlight(s: Spool): seq<Entry>
    requires s.nextIdx <= |s.entries|
  {
    s.entries[..s.nextIdx]
  }

  lemma AckLedger(s: Spool, persisted: bool, first: nat, base: nat, arrivals: seq<Arrival>, sent: seq<Entry>, dropped: nat)
    requires Inv(s) && Ledger(s, first, base, arrivals, sent, dropped) && s.nextIdx > 0
    ensures var t := Acked(s, s.nextIdx, persisted);
            && Ledger(t, first, base, arrivals, sent + InFlight(s), dropped)
            && t.log == s.log && t.nextIdx == 0 && t.acked == s.acked + s.nextIdx
  {
    assert s.log[first..s.acked + s.nextIdx] == s.log[first..s.acked] + s.entries[..s.nextIdx];
  }

  ghost function ArrivalOf(s: Spool, p: Packet, d: Disk): Arrival {
    Arrival(p, if Stored(s, p, d) then Some(Entry(p, Rolled(s).wr)) else None, Stored(s, p, d) && d != SyncFailed)
  }

  lemma AppendLedger(s: Spool, p: Packet, d: Disk, first: nat, base: nat, arrivals: seq<Arrival>, sent: seq<Entry>, dropped: nat)
    requires Inv(s) && Ledger(s, first, base, arrivals, sent, dropped)
    ensures var t, x := Appended(s, p, d), ArrivalOf(s, p, d);
            && Ledger(t, first, base, arrivals + [x], sent, if x.reported then dropped else dropped + 1)
            && s.log <= t.log && t.nextIdx == s.nextIdx && t.acked == s.acked && s.entries <= t.entries
  {
    var x := ArrivalOf(s, p, d);
    ArrivalSnoc(arrivals, x);
    var more := if x.record.Some? then [x.record.value] else [];
    var t := Appended(s, p, d);
    assert t.log == s.log + more && t.entries == s.entries + more;
    assert t.log[first..s.acked] == s.log[first..s.acked] && t.log[base..] == s.log[base..] + more;
  }

  /**
   `first` and `base` are the queue's confirmed and stored counts when the client was made over it;
   `arrivals` is the capture channel's history and `sent` the concatenation of the batches sent
   successfully.
   */
  class Uploader {
    const queue: Queue
    const batchSize: int
    var dropped: nat
    ghost const first: nat
    ghost const base: nat
    ghost var arrivals: seq<Arrival>
    ghost var sent: seq<Entry>

    ghost predicate Valid()
      reads this, queue
    {
      queue.Valid() && Ledger(queue.View(), first, base, arrivals, sent, dropped)
    }

    constructor (q: Queue, size: int)
      requires q.Valid()
      ensures Valid() && queue == q && batchSize == size && dropped == 0 && arrivals == [] && sent == []
    {
      queue, batchSize, dropped := q, size, 0;
      first, base, arrivals, sent := q.acked, |q.log|, [], [];
    }

    method SendAndAck(batch: seq<Entry>, sends: bool, persists: bool) returns (ok: bool)
      requires Valid() && batch == InFlight(queue.View())
      modifies this`sent, queue
      ensures Valid() && ok == (batch == [] || sends)
      ensures queue.log == old(queue.log)
      ensures ok ==> sent == old(sent) + batch && queue.nextIdx == 0 && queue.acked == old(queue.acked) + |batch|
      ensures !ok ==> queue.View() == old(queue.View()) && sent == old(sent)
    {
      if batch == [] { return true; }
      if !sends { return false; }
      AckLedger(queue.View(), persists, first, base, arrivals, sent, dropped);
      var persisted := queue.AckN(|batch|, persists);
      sent := sent + batch;
      return true;
    }

    /** One packet off the channel: appended, or counted as dropped when Append fails. */
    method Receive(p: Packet, d: Disk) returns (ok: bool)
      requires Valid()
      modifies this`dropped, this`arrivals, queue
      ensures Valid() && old(queue.log) <= queue.log
      ensures arrivals == old(arrivals) + [ArrivalOf(old(queue.View()), p, d)]
      ensures InFlight(queue.View()) == old(InFlight(queue.View()))
    {
      AppendLedger(queue.View(), p, d, first, base, arrivals, sent, dropped);
      arrivals := arrivals + [ArrivalOf(queue.View(), p, d)];
      ok := queue.Append(p, d);
      if !ok { dropped := dropped + 1; }
    }

    method Refill(pending: seq<Entry>, n: int, readable: bool) returns (more: seq<Entry>, ok: bool)
      requires Valid() && pending == InFlight(queue.View())
      modifies queue`nextIdx
      ensures Valid() && queue.log == old(queue.log)
      ensures pending + more == InFlight(queue.View())
      ensures ok && more == [] ==> queue.nextIdx == |queue.entries|
      ensures readable ==> ok
    {
      more, ok := queue.Next(n, readable);
      assert queue.entries[..queue.nextIdx] == queue.entries[..old(queue.nextIdx)] + queue.entries[old(queue.nextIdx)..queue.nextIdx];
    }

    /** The head of the loop with nothing in flight: refill, and send at once if the batch is full. */
    method Fetch(turn: Turn) returns (pending: seq<Entry>, next: Flow)
      requires Valid() && InFlight(queue.View()) == []
      modifies this`sent, queue
      ensures Valid() && queue.log == old(queue.log) && old(sent) <= sent
      ensures !next.Return? ==> pending == InFlight(queue.View())
      ensures next.Select? ==> |pending| < batchSize && sent == old(sent) && (pending == [] ==> queue.entries == [])
      ensures next.Continue? ==> pending == [] && batchSize <= |sent| - |old(sent)|
      ensures turn.readable && turn.sends ==> !next.Return?
    {
      var batch, read := Refill([], batchSize, turn.readable);
      if !read { return [], Return(false); }
      pending := batch;
      if |pending| >= batchSize {
        var done := SendAndAck(pending, turn.sends, turn.persists);
        if !done { return pending, Return(false); }
        return [], Continue;
      }
      return pending, Select;
    }

    /** A packet arrives: store it, and top up a batch in flight. */
    method OnPacket(inFlight: seq<Entry>, e: Event) returns (pending: seq<Entry>, next: Flow)
      requires Valid() && inFlight == InFlight(queue.View()) && e.Arrive?
      modifies this`dropped, this`arrivals, this`sent, queue
      ensures Valid() && old(queue.log) <= queue.log && old(sent) <= sent
      ensures arrivals == old(arrivals) + [ArrivalOf(old(queue.View()), e.pkt, e.disk)]
      ensures !next.Return? ==> pending == InFlight(queue.View())
      ensures next.Continue? && 0 < |inFlight| < batchSize ==> |pending| < batchSize
      ensures next.Return? ==> !next.ok && !(e.readable && e.sends)
    {
      pending := inFlight;
      var stored := Receive(e.pkt, e.disk);
      if !stored || !(0 < |pending| < batchSize) { return pending, Continue; }
      var more, read := Refill(pending, batchSize - |pending|, e.readable);
      if !read { return pending, Return(false); }
      pending := pending + more;
      if |pending| >= batchSize {
        var done := SendAndAck(pending, e.sends, e.persists);
        if !done { return pending, Return(false); }
        pending := [];
      }
      return pending, Continue;
    }

    /** The select statement. */
    method OnEvent(inFlight: seq<Entry>, e: Event) returns (pending: seq<Entry>, next: Flow)
      requires Valid() && inFlight == InFlight(queue.View())
      modifies this`dropped, this`arrivals, this`sent, queue
      ensures Valid() && old(queue.log) <= queue.log && old(sent) <= sent
      ensures arrivals == old(arrivals) + (if e.Arrive? then [ArrivalOf(old(queue.View()), e.pkt, e.disk)] else [])
      ensures !next.Return? ==> pending == InFlight(queue.View())
      ensures !e.Arrive? && e.sends ==> sent == old(sent) + inFlight
      ensures next.Return? && next.ok <==> e.Cancelled?
      ensures e.sends && (e.Arrive? ==> e.readable) && !e.Cancelled? ==> !next.Return?
    {
      if e.Arrive? {
        pending, next := OnPacket(inFlight, e);
        return;
      }
      var done := SendAndAck(inFlight, e.sends, e.persists);
      return [], if e.Cancelled? then Return(true) else if done then Continue else Return(false);
    }

    /** One pass of the loop. */
    method Pass(inFlight: seq<Entry>, turn: Turn) returns (pending: seq<Entry>, next: Flow)
      requires Valid() && inFlight == InFlight(queue.View())
      modifies this`dropped, this`arrivals, this`sent, queue
      ensures Valid() && old(queue.log) <= queue.log && old(sent) <= sent && old(arrivals) <= arrivals
      ensures !next.Return? ==> pending == InFlight(queue.View())
      ensures Healthy(turn) && next.Return? ==> next.ok && turn.event.Cancelled?
    {
      pending, next := inFlight, Select;
      if pending == [] { pending, next := Fetch(turn); }
      if next.Select? { pending, next := OnEvent(pending, turn.event); }
    }

    /** pushOnce: one stream, over as many passes of its loop as `turns` has. */
    method PushOnce(streamed: bool, turns: seq<Turn>) returns (ok: bool)
      requires Valid()
      modifies this`dropped, this`arrivals, this`sent, queue
      ensures Valid() && old(queue.log) <= queue.log
      ensures old(sent) <= sent && old(arrivals) <= arrivals
      ensures streamed && (forall i :: 0 <= i < |turns| ==> Healthy(turns[i])) ==> ok
    {
      if !streamed { return false; }
      queue.Requeue();
      var pending: seq<Entry> := [];
      for i := 0 to |turns|
        invariant Valid() && pending == InFlight(queue.View())
        invariant old(queue.log) <= queue.log && old(sent) <= sent && old(arrivals) <= arrivals
      {
        var next;
        pending, next := Pass(pending, turns[i]);
        if next.Return? { return next.ok; }
      }
      return true;
    }

    /** run: stream after stream. Whatever fails, nothing is confirmed that was not sent, and the records
        not yet confirmed are all still queued. */
    method Run(connections: seq<Connection>)
      requires Valid()
      modifies this`dropped, this`arrivals, this`sent, queue
      ensures Valid() && old(sent) <= sent && old(arrivals) <= arrivals
      ensures sent + queue.entries == queue.log[first..]
      ensures |Kept(arrivals)| + dropped == |arrivals| + Misreported(arrivals)
    {
      for i := 0 to |connections|
        invariant Valid() && old(sent) <= sent && old(arrivals) <= arrivals
      {
        var ok := PushOnce(connections[i].streamed, connections[i].turns);
      }
      StoredOrRefused(arrivals);
      assert queue.log[first..] == queue.log[first..queue.acked] + queue.log[queue.acked..];
    }
  }

  /** A packet that reaches the queue when the flush after it fails is both stored and reported as an
      error, so it is counted as dropped and uploaded all the same. */
  lemma FlushFailureCountsStoredPacket(s: Spool, p: Packet)
    requires Inv(s) && Fits(s, p)
    ensures var x := ArrivalOf(s, p, SyncFailed);
            x.record.Some? && !x.reported && Appended(s, p, SyncFailed).log == s.log + [x.record.value]
  {
    AppendKeeps(s, p, SyncFailed);
  }
}
