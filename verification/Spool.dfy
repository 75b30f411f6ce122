/** The agent's disk queue (pkg/spool/queue.go:101-126, 176-259, 294-341, 383-495, 588-594). */
module Spools {
  import opened Util

  const HEADER: nat := 4
  const CURSOR_EVERY: nat := 512

  /** `size` is the length of the marshalled record. */
  datatype Packet = Packet(id: nat, size: nat)

  datatype Cursor = Cursor(seg: nat, off: nat)

  /** A stored record with its place; a reader gets the packet and does not look at the place. */
  datatype Entry = Entry(pkt: Packet, at: Cursor)

  /** What the disk did during one Append. */
  datatype Disk = Fine | MarshalFailed | RollFailed | WriteFailed | SyncFailed

  /**
   The queue's fields, and three histories: `log` is every record ever stored, the first `acked` of them
   are confirmed, and cursor.json stands at record `saved`.
   */
  datatype Spool = Spool(
    maxBytes: nat, segBytes: nat,
    entries: seq<Entry>, nextIdx: nat, bytes: int, wr: Cursor, files: set<nat>, since: nat, cursor: Cursor,
    log: seq<Entry>, acked: nat, saved: nat)

  function Total(s: seq<Entry>): nat { if s == [] then 0 else HEADER + s[0].pkt.size + Total(s[1..]) }

  function Rolled(s: Spool): Spool {
    if s.wr.off < s.segBytes then s
    else s.(wr := Cursor(s.wr.seg + 1, 0), files := s.files + {s.wr.seg + 1})
  }

  function Store(s: Spool, p: Packet): Spool {
    var e := Entry(p, s.wr);
    s.(entries := s.entries + [e], bytes := s.bytes + HEADER + p.size, wr := Cursor(s.wr.seg, s.wr.off + HEADER + p.size),
       log := s.log + [e])
  }

  predicate Fits(s: Spool, p: Packet) { p.size <= s.maxBytes && s.bytes + HEADER + p.size <= s.maxBytes }

  /** The record reaches the queue, whether or not Append then reports an error. */
  predicate Stored(s: Spool, p: Packet, d: Disk) {
    Fits(s, p) && !d.MarshalFailed? && !d.WriteFailed? && !(d.RollFailed? && s.wr.off >= s.segBytes)
  }

  function Appended(s: Spool, p: Packet, d: Disk): Spool {
    if Stored(s, p, d) then Store(Rolled(s), p)
    else if Fits(s, p) && d.WriteFailed? then Rolled(s)
    else s
  }

  function ReadCursor(s: Spool): Cursor { if s.entries == [] then s.wr else s.entries[0].at }

  function Confirm(s: Spool, k: nat): Spool
    requires k <= |s.entries|
  {
    s.(entries := s.entries[k..], bytes := s.bytes - Total(s.entries[..k]), nextIdx := if k <= s.nextIdx then s.nextIdx - k else 0,
       since := s.since + k, acked := s.acked + k)
  }

  function Saved(s: Spool): Spool { s.(cursor := ReadCursor(s), since := 0, saved := s.acked) }

  function Cleaned(s: Spool): Spool { s.(files := set f | f in s.files && f >= ReadCursor(s).seg) }

  /** AckN: at most what is in flight; the cursor is written every 512 confirmations. */
  function Acked(s: Spool, n: int, persisted: bool): Spool
    requires s.nextIdx <= |s.entries|
  {
    var k := if n > s.nextIdx then s.nextIdx else n;
    if k <= 0 then s
    else
      var t := Confirm(s, k);
      if t.since < CURSOR_EVERY then Cleaned(t)
      else if persisted then Cleaned(Saved(t))
      else t
  }

  function Requeued(s: Spool): Spool { s.(nextIdx := 0) }

  // ---------- What every operation keeps ----------

  predicate Less(a: Cursor, b: Cursor) { a.seg < b.seg || (a.seg == b.seg && a.off < b.off) }

  ghost predicate Books(s: Spool) {
    && s.acked + |s.entries| == |s.log| && s.entries == s.log[s.acked..]
    && s.nextIdx <= |s.entries| && s.bytes == Total(s.entries)
  }

  /** Records lie one after the other, all before the write position. */
  ghost predicate Layout(log: seq<Entry>, wr: Cursor) {
    && (forall i, j :: 0 <= i < j < |log| ==> Less(log[i].at, log[j].at))
    && (forall i :: 0 <= i < |log| ==> Less(log[i].at, wr))
  }

  /** The segments kept are a range up to the one being written, and hold every unconfirmed record. */
  ghost predicate OnDisk(s: Spool) {
    && s.wr.seg in s.files && (forall f :: f in s.files ==> f <= s.wr.seg)
    && (forall f, g :: f in s.files && f <= g <= s.wr.seg ==> g in s.files)
    && (forall i :: 0 <= i < |s.entries| ==> s.entries[i].at.seg in s.files)
  }

  /** The written cursor separates the first `saved` records from the rest. */
  ghost predicate Marks(log: seq<Entry>, cursor: Cursor, saved: nat) {
    && saved <= |log|
    && (forall i :: 0 <= i < saved ==> Less(log[i].at, cursor))
    && (forall i :: saved <= i < |log| ==> !Less(log[i].at, cursor))
  }

  ghost predicate Marked(s: Spool) {
    Marks(s.log, s.cursor, s.saved) && !Less(s.wr, s.cursor) && s.saved <= s.acked && s.since == s.acked - s.saved
  }

  ghost predicate Inv(s: Spool) {
    s.segBytes > 0 && Books(s) && Layout(s.log, s.wr) && OnDisk(s) && Marked(s) && s.bytes <= s.maxBytes
  }

  lemma {:induction false} TotalConcat(a: seq<Entry>, b: seq<Entry>)
    ensures Total(a + b) == Total(a) + Total(b)
  {
    if a == [] {
      assert a + b == b;
    } else {
      assert (a + b)[1..] == a[1..] + b;
      TotalConcat(a[1..], b);
    }
  }

  lemma RolledKeeps(s: Spool)
    requires Inv(s)
    ensures Inv(Rolled(s))
  {}

  lemma StoreKeeps(s: Spool, p: Packet)
    requires Inv(s) && s.bytes + HEADER + p.size <= s.maxBytes
    ensures Inv(Store(s, p))
  {
    StoreBooks(s, p);
    assert Layout(Store(s, p).log, Store(s, p).wr);
  }

  lemma StoreBooks(s: Spool, p: Packet)
    requires Books(s)
    ensures Books(Store(s, p))
  {
    TotalConcat(s.entries, [Entry(p, s.wr)]);
    assert (s.log + [Entry(p, s.wr)])[s.acked..] == s.entries + [Entry(p, s.wr)];
  }

  lemma AppendKeeps(s: Spool, p: Packet, d: Disk)
    requires Inv(s)
    ensures Inv(Appended(s, p, d))
    ensures Appended(s, p, d).log == s.log + (if Stored(s, p, d) then [Entry(p, Rolled(s).wr)] else [])
  {
    RolledKeeps(s);
    if Stored(s, p, d) { StoreKeeps(Rolled(s), p); }
  }

  /** A record is stored exactly if with its header it fits next to the unconfirmed ones and the disk does its
      part, a roll only if one is due; otherwise nothing changes but that a roll before a failed write stays. The
      unconfirmed bytes never pass the limit. */
  lemma StoredExactly(s: Spool, p: Packet, d: Disk)
    requires Inv(s)
    ensures var t := Appended(s, p, d);
            var fits, full := Total(s.entries) + HEADER + p.size <= s.maxBytes, s.wr.off >= s.segBytes;
            && Total(s.entries) <= s.maxBytes && Total(t.entries) <= s.maxBytes
            && (t.log != s.log <==> fits && d != MarshalFailed && d != WriteFailed && (d != RollFailed || !full))
            && (t.log == s.log ==>
                  t == if fits && d == WriteFailed && full
                       then s.(wr := Cursor(s.wr.seg + 1, 0), files := s.files + {s.wr.seg + 1}) else s)
  {
    AppendKeeps(s, p, d);
    if Stored(s, p, d) { assert Appended(s, p, d).log[|s.log|].pkt == p; }
  }

  /** It lies behind the last one, at the start of a new segment if the present one is full. */
  lemma StoredBehind(s: Spool, p: Packet, d: Disk)
    requires Inv(s) && Appended(s, p, d).log != s.log
    ensures var t, at := Appended(s, p, d), if s.wr.off < s.segBytes then s.wr else Cursor(s.wr.seg + 1, 0);
            && t.log == s.log + [Entry(p, at)] && t.entries == s.entries + [Entry(p, at)]
            && t.wr == Cursor(at.seg, at.off + HEADER + p.size)
  {}

  lemma ConfirmKeeps(s: Spool, k: nat)
    requires Inv(s) && k <= s.nextIdx
    ensures Inv(Confirm(s, k))
  {
    assert s.entries == s.entries[..k] + s.entries[k..];
    TotalConcat(s.entries[..k], s.entries[k..]);
  }

  lemma SavedKeeps(s: Spool)
    requires Inv(s)
    ensures Inv(Saved(s))
  {
    if s.entries != [] { assert s.entries[0] == s.log[s.acked]; }
  }

  lemma CleanedKeeps(s: Spool)
    requires Inv(s)
    ensures Inv(Cleaned(s))
  {
    var head := ReadCursor(s).seg;
    forall i | 0 <= i < |s.entries| ensures s.entries[i].at.seg >= head && s.wr.seg >= head {
      assert s.entries[i] == s.log[s.acked + i] && s.entries[0] == s.log[s.acked];
    }
  }

  /** Acknowledging never passes what was handed out, and loses no unconfirmed record from the disk. */
  lemma AckKeeps(s: Spool, n: int, persisted: bool)
    requires Inv(s)
    ensures var t := Acked(s, n, persisted);
            && Inv(t) && t.log == s.log && s.acked <= t.acked <= s.acked + s.nextIdx
            && t.acked + t.nextIdx == s.acked + s.nextIdx
            && (persisted && s.since < CURSOR_EVERY ==> t.since < CURSOR_EVERY)
  {
    var k := if n > s.nextIdx then s.nextIdx else n;
    if k > 0 {
      ConfirmKeeps(s, k);
      var t := Confirm(s, k);
      CleanedKeeps(t);
      SavedKeeps(t);
      CleanedKeeps(Saved(t));
    }
  }

  /** Exactly the smaller of what is asked for and what is in flight is confirmed, from the front; cursor.json
      is written exactly if that makes 512 since the last time and the disk lets it; the segments before the
      first unconfirmed record go, unless the cursor was due and could not be written. */
  lemma AckExactly(s: Spool, n: int, persisted: bool)
    requires Inv(s)
    ensures var t := Acked(s, n, persisted);
            var k := if n <= 0 then 0 else if n <= s.nextIdx then n else s.nextIdx;
            var due := k > 0 && s.since + k >= 512;
            var first := if k < |s.entries| then s.entries[k].at else s.wr;
            && t.entries == s.entries[k..] && t.acked == s.acked + k && t.nextIdx == s.nextIdx - k && t.wr == s.wr && t.log == s.log
            && (t.cursor, t.saved, t.since) == (if due && persisted then (first, t.acked, 0) else (s.cursor, s.saved, s.since + k))
            && (forall f :: f in t.files <==> f in s.files && (k == 0 || (due && !persisted) || f >= first.seg))
  {
    if 0 < n && 0 < s.nextIdx { ConfirmedRead(s, if n > s.nextIdx then s.nextIdx else n); }
  }

  // ---------- Recovery after a crash ----------

  /** The records of one segment at or after the cursor. */
  function OfSegment(log: seq<Entry>, seg: nat, from: Cursor): seq<Entry> {
    if log == [] then []
    else (if log[0].at.seg == seg && !Less(log[0].at, from) then [log[0]] else []) + OfSegment(log[1..], seg, from)
  }

  /** How many records come before the first one of length 0, which scanSegment takes for a broken one. */
  function Whole(es: seq<Entry>): (k: nat)
    ensures k <= |es|
  {
    if es == [] || es[0].pkt.size == 0 then 0 else 1 + Whole(es[1..])
  }

  /** What opening the directory yields: the records indexed and the write position. */
  datatype Opened = Opened(entries: seq<Entry>, wr: Cursor)

  /** scanFrom: segment after segment as long as the next file exists. The last file is `torn` bytes longer
      than its whole records; it, or the one with a record of length 0, is cut and written on from there. */
  function ScanFrom(log: seq<Entry>, files: set<nat>, end: Cursor, torn: nat, seg: nat, from: Cursor): Opened
    requires torn <= end.off
    decreases end.seg + 1 - seg
  {
    if seg > end.seg || seg !in files then Opened([], end)
    else
      var all := OfSegment(log, seg, from);
      var k := Whole(all);
      if k < |all| then Opened(all[..k], all[k].at)
      else if seg == end.seg && torn > 0 then Opened(all, Cursor(seg, end.off - torn))
      else
        var r := ScanFrom(log, files, end, torn, seg + 1, from);
        Opened(all + r.entries, r.wr)
  }

  /** Opening the directory again after a crash that left `torn` bytes of a record: the files and cursor.json
      are all there is. A missing first segment is an error, because the wrapped error is not recognised as
      "does not exist". */
  function Recovered(s: Spool, torn: nat): Option<Opened> {
    if s.cursor.seg !in s.files then None
    else Some(ScanFrom(s.log, s.files, Cursor(s.wr.seg, s.wr.off + torn), torn, s.cursor.seg, s.cursor))
  }

  /** The records at or after the cursor from a segment on. */
  ghost function Rest(log: seq<Entry>, seg: nat, from: Cursor): seq<Entry> {
    if log == [] then []
    else (if log[0].at.seg >= seg && !Less(log[0].at, from) then [log[0]] else []) + Rest(log[1..], seg, from)
  }

  ghost predicate Sorted(log: seq<Entry>) {
    forall i, j :: 0 <= i < j < |log| ==> Less(log[i].at, log[j].at)
  }

  lemma {:induction false} ScanNothing(log: seq<Entry>, seg: nat, from: Cursor)
    requires forall i :: 0 <= i < |log| ==> log[i].at.seg > seg
    ensures OfSegment(log, seg, from) == [] && Rest(log, seg, from) == Rest(log, seg + 1, from)
  {
    if log != [] { ScanNothing(log[1..], seg, from); }
  }

  lemma {:induction false} RestSplits(log: seq<Entry>, seg: nat, from: Cursor)
    requires Sorted(log)
    ensures Rest(log, seg, from) == OfSegment(log, seg, from) + Rest(log, seg + 1, from)
  {
    if log != [] {
      RestSplits(log[1..], seg, from);
      if log[0].at.seg > seg {
        ScanNothing(log, seg, from);
      }
    }
  }

  lemma {:induction false} RestEnds(log: seq<Entry>, seg: nat, from: Cursor)
    requires forall i :: 0 <= i < |log| ==> log[i].at.seg < seg
    ensures Rest(log, seg, from) == []
  {
    if log != [] { RestEnds(log[1..], seg, from); }
  }

  lemma {:induction false} WholeConcat(a: seq<Entry>, b: seq<Entry>)
    ensures Whole(a + b) == if Whole(a) < |a| then Whole(a) else |a| + Whole(b)
  {
    if a == [] {
      assert a + b == b;
    } else {
      assert (a + b)[1..] == a[1..] + b;
      WholeConcat(a[1..], b);
    }
  }

  /** The records before the first one of length 0, and where writing goes on: there, or at the end. */
  ghost function UpToEmpty(es: seq<Entry>, wr: Cursor): Opened {
    var k := Whole(es);
    Opened(es[..k], if k < |es| then es[k].at else wr)
  }

  lemma {:induction false} ScanIsRest(log: seq<Entry>, files: set<nat>, wr: Cursor, torn: nat, seg: nat, from: Cursor)
    requires Sorted(log) && (forall i :: 0 <= i < |log| ==> log[i].at.seg <= wr.seg) && seg <= wr.seg + 1
    requires forall f :: seg <= f <= wr.seg ==> f in files
    requires seg > wr.seg ==> torn == 0
    ensures ScanFrom(log, files, Cursor(wr.seg, wr.off + torn), torn, seg, from) == UpToEmpty(Rest(log, seg, from), wr)
    decreases wr.seg + 1 - seg
  {
    if seg > wr.seg {
      RestEnds(log, seg, from);
    } else {
      RestSplits(log, seg, from);
      UpToEmptyConcat(OfSegment(log, seg, from), Rest(log, seg + 1, from), wr);
      if seg == wr.seg {
        RestEnds(log, seg + 1, from);
        assert UpToEmpty([], wr) == Opened([], wr);
      }
      if seg < wr.seg || torn == 0 { ScanIsRest(log, files, wr, torn, seg + 1, from); }
    }
  }

  lemma UpToEmptyConcat(a: seq<Entry>, b: seq<Entry>, wr: Cursor)
    ensures UpToEmpty(a + b, wr) == if Whole(a) < |a| then UpToEmpty(a, wr) else Opened(a + UpToEmpty(b, wr).entries, UpToEmpty(b, wr).wr)
  {
    WholeConcat(a, b);
    if Whole(a) < |a| { FirstOfTwo(a, b, Whole(a)); } else { AllAndFirst(a, b, Whole(b)); }
  }

  lemma FirstOfTwo(a: seq<Entry>, b: seq<Entry>, k: nat)
    requires k < |a|
    ensures (a + b)[..k] == a[..k] && (a + b)[k] == a[k]
  {}

  lemma AllAndFirst(a: seq<Entry>, b: seq<Entry>, k: nat)
    requires k <= |b|
    ensures (a + b)[..|a| + k] == a + b[..k] && (k < |b| ==> (a + b)[|a| + k] == b[k])
  {}

  lemma {:induction false} RestIsSuffix(log: seq<Entry>, from: Cursor, saved: nat)
    requires Marks(log, from, saved)
    ensures Rest(log, from.seg, from) == log[saved..]
  {
    if log != [] {
      if saved > 0 {
        assert Less(log[0].at, from);
        RestIsSuffix(log[1..], from, saved - 1);
        assert log[saved..] == log[1..][saved - 1..];
      } else {
        assert !Less(log[0].at, from);
        RestIsSuffix(log[1..], from, 0);
        assert log == [log[0]] + log[1..] && log[0..] == log && log[1..][0..] == log[1..];
      }
    }
  }

  /**
   Reopening succeeds exactly if the segment the written cursor points at has not been deleted. Then,
   however much of a half-written record the crash left, it finds every unconfirmed record, preceded by the
   confirmed ones since the cursor was last written, and writes on behind them, exactly if none of these
   has length 0; otherwise it finds those before the first that has, and writes over it.
   */
  lemma RecoveryFindsAll(s: Spool, torn: nat)
    requires Inv(s)
    ensures Recovered(s, torn).Some? <==> s.cursor.seg in s.files
    ensures var rest := s.log[s.saved..s.acked] + s.entries;
            && |s.log[s.saved..s.acked]| == s.since
            && (Recovered(s, torn).Some? ==>
                  && Recovered(s, torn).value == UpToEmpty(rest, s.wr)
                  && (Recovered(s, torn).value == Opened(rest, s.wr) <==> forall e :: e in rest ==> e.pkt.size > 0))
  {
    LogFromSaved(s);
    if s.cursor.seg in s.files { RecoveredIs(s, torn); }
    UpToEmptyIsAll(s.log[s.saved..], s.wr);
  }

  lemma LogFromSaved(s: Spool)
    requires Books(s) && Marked(s)
    ensures s.log[s.saved..] == s.log[s.saved..s.acked] + s.entries && |s.log[s.saved..s.acked]| == s.since
  {}

  lemma RecoveredIs(s: Spool, torn: nat)
    requires Inv(s) && s.cursor.seg in s.files
    ensures Recovered(s, torn) == Some(UpToEmpty(s.log[s.saved..], s.wr))
  {
    ScanIsSuffix(s.log, s.files, s.wr, torn, s.cursor, s.saved);
  }

  lemma UpToEmptyIsAll(es: seq<Entry>, wr: Cursor)
    ensures UpToEmpty(es, wr) == Opened(es, wr) <==> forall e :: e in es ==> e.pkt.size > 0
  {
    WholeIsAll(es);
  }

  lemma ScanIsSuffix(log: seq<Entry>, files: set<nat>, wr: Cursor, torn: nat, cursor: Cursor, saved: nat)
    requires Layout(log, wr) && Marks(log, cursor, saved) && cursor.seg <= wr.seg
    requires forall f :: cursor.seg <= f <= wr.seg ==> f in files
    ensures ScanFrom(log, files, Cursor(wr.seg, wr.off + torn), torn, cursor.seg, cursor) == UpToEmpty(log[saved..], wr)
  {
    ScanIsRest(log, files, wr, torn, cursor.seg, cursor);
    RestIsSuffix(log, cursor, saved);
  }

  lemma {:induction false} WholeIsAll(es: seq<Entry>)
    ensures Whole(es) == |es| <==> forall e :: e in es ==> e.pkt.size > 0
    ensures es[..Whole(es)] == es <==> Whole(es) == |es|
  {
    if es != [] {
      WholeIsAll(es[1..]);
      assert es == [es[0]] + es[1..];
    }
  }

  /** A queue that can be opened again stays so except by an AckN, and by that exactly if it confirms
      something, leaves cursor.json as it is without having had to write it, and moves the read position to a
      later segment than cursor.json points at. */
  lemma AckMakesUnopenable(s: Spool, n: int, persisted: bool, torn: nat)
    requires Inv(s) && Recovered(s, torn).Some?
    ensures var k := if n > s.nextIdx then s.nextIdx else n;
            Recovered(Acked(s, n, persisted), torn).None? <==>
              k > 0 && s.since + k < CURSOR_EVERY && (if k < |s.entries| then s.entries[k].at else s.wr).seg > s.cursor.seg
  {
    var k := if n > s.nextIdx then s.nextIdx else n;
    if k > 0 {
      ConfirmedRead(s, k);
      CursorDeleted(Confirm(s, k));
      ConfirmKeeps(s, k);
      WrittenOpenable(Confirm(s, k));
    }
  }

  lemma ConfirmedRead(s: Spool, k: nat)
    requires k <= |s.entries|
    ensures ReadCursor(Confirm(s, k)) == if k < |s.entries| then s.entries[k].at else s.wr
  {}

  lemma CursorDeleted(t: Spool)
    requires t.cursor.seg in t.files
    ensures t.cursor.seg in Cleaned(t).files <==> ReadCursor(t).seg <= t.cursor.seg
  {}

  lemma WrittenOpenable(t: Spool)
    requires Inv(t)
    ensures Cleaned(Saved(t)).cursor.seg in Cleaned(Saved(t)).files
  {}

  lemma OthersStayOpenable(s: Spool, p: Packet, d: Disk, next: nat, torn: nat)
    requires Recovered(s, torn).Some?
    ensures Recovered(Appended(s, p, d), torn).Some? && Recovered(s.(nextIdx := next), torn).Some?
  {}

  /** Once an AckN has written the cursor the queue can be opened again. */
  lemma WritingRepairs(s: Spool, n: int, torn: nat)
    requires Inv(s) && n >= 1 && s.nextIdx >= 1 && s.since + (if n > s.nextIdx then s.nextIdx else n) >= CURSOR_EVERY
    ensures Recovered(Acked(s, n, true), torn).Some?
  {
    var k := if n > s.nextIdx then s.nextIdx else n;
    ConfirmKeeps(s, k);
    WrittenOpenable(Confirm(s, k));
  }

  const FIRST := Entry(Packet(0, 1), Cursor(1, 0))
  const SECOND := Entry(Packet(1, 1), Cursor(2, 0))

  /** An empty queue with one-byte segments, then one record in it, then two and the first handed out. */
  const EMPTY := Spool(100, 1, [], 0, 0, Cursor(1, 0), {1}, 0, Cursor(1, 0), [], 0, 0)
  const ONE := Spool(100, 1, [FIRST], 0, 5, Cursor(1, 5), {1}, 0, Cursor(1, 0), [FIRST], 0, 0)
  const TWO := Spool(100, 1, [FIRST, SECOND], 1, 10, Cursor(2, 5), {1, 2}, 0, Cursor(1, 0), [FIRST, SECOND], 0, 0)

  lemma TwoRecords()
    ensures Appended(EMPTY, FIRST.pkt, Fine) == ONE
    ensures Appended(ONE, SECOND.pkt, Fine).(nextIdx := 1) == TWO
  {
    assert Rolled(EMPTY) == EMPTY;
    assert Rolled(ONE) == ONE.(wr := Cursor(2, 0), files := {1, 2});
  }

  /** The first of two records is confirmed: its segment is deleted while cursor.json still points into
      it, and the second record, never sent, cannot be recovered. */
  lemma CleanupOutrunsCursor()
    ensures TWO == Appended(Appended(EMPTY, FIRST.pkt, Fine), SECOND.pkt, Fine).(nextIdx := 1)
    ensures Acked(TWO, 1, true).entries == [SECOND] && forall torn :: Recovered(Acked(TWO, 1, true), torn).None?
  {
    TwoRecords();
    var t := Confirm(TWO, 1);
    assert t.entries == [SECOND];
    assert Cleaned(t).files == {2};
  }

  // ---------- The object ----------

  /** How many of the records from `from` on, up to `want`, lie in the segment of the first. */
  method SameSegment(entries: seq<Entry>, from: nat, want: nat) returns (count: nat)
    requires 0 < want && from + want <= |entries|
    ensures 0 < count <= want
    ensures forall i :: from <= i < from + count ==> entries[i].at.seg == entries[from].at.seg
    ensures count == want || entries[from + count].at.seg != entries[from].at.seg
  {
    count := 0;
    while count < want && entries[from + count].at.seg == entries[from].at.seg
      invariant 0 <= count <= want
      invariant forall i :: from <= i < from + count ==> entries[i].at.seg == entries[from].at.seg
    {
      count := count + 1;
    }
  }

  /** The records of a block, one after the other. */
  method ReadBlock(entries: seq<Entry>, from: nat, count: nat) returns (out: seq<Entry>)
    requires from + count <= |entries|
    ensures out == entries[from..from + count]
  {
    out := [];
    for i := 0 to count
      invariant out == entries[from..from + i]
    {
      out := out + [entries[from + i]];
    }
  }

  class Queue {
    const maxBytes: nat
    const segBytes: nat
    var entries: seq<Entry>
    var nextIdx: nat
    var bytes: int
    var wr: Cursor
    var files: set<nat>
    var since: nat
    var cursor: Cursor
    ghost var log: seq<Entry>
    ghost var acked: nat
    ghost var saved: nat

    ghost function View(): Spool
      reads this
    {
      Spool(maxBytes, segBytes, entries, nextIdx, bytes, wr, files, since, cursor, log, acked, saved)
    }

    ghost predicate Valid()
      reads this
    {
      Inv(View())
    }

    /** An empty directory; non-positive limits select 512 MB and 64 MB. */
    constructor (max: int, segment: int)
      ensures Valid() && log == []
      ensures maxBytes == (if max <= 0 then 536870912 else max) && segBytes == (if segment <= 0 then 67108864 else segment)
    {
      maxBytes := if max <= 0 then 536870912 else max;
      segBytes := if segment <= 0 then 67108864 else segment;
      entries, nextIdx, bytes, wr, files, since, cursor := [], 0, 0, Cursor(1, 0), {1}, 0, Cursor(1, 0);
      log, acked, saved := [], 0, 0;
    }

    method Append(p: Packet, d: Disk) returns (ok: bool)
      requires Valid()
      modifies this
      ensures Valid() && View() == Appended(old(View()), p, d)
      ensures ok <==> Stored(old(View()), p, d) && d != SyncFailed
    {
      AppendKeeps(View(), p, d);
      ok := AppendLocked(p, d);
    }

    method AppendLocked(p: Packet, d: Disk) returns (ok: bool)
      modifies this
      ensures View() == Appended(old(View()), p, d)
      ensures ok <==> Stored(old(View()), p, d) && d != SyncFailed
    {
      if d.MarshalFailed? || p.size > maxBytes { return false; }
      var total := HEADER + p.size;
      if bytes + total > maxBytes { return false; }
      if wr.off >= segBytes {
        if d.RollFailed? { return false; }
        wr, files := Cursor(wr.seg + 1, 0), files + {wr.seg + 1};
      }
      if d.WriteFailed? { return false; }
      entries := entries + [Entry(p, wr)];
      log := log + [Entry(p, wr)];
      wr := Cursor(wr.seg, wr.off + total);
      bytes := bytes + total;
      return !d.SyncFailed?;
    }

    /** Hands out up to n records (at least one is asked for) of one segment, in order from the read
        pointer, as many as there are; a read error hands out nothing. */
    method Next(n: int, readable: bool) returns (out: seq<Entry>, ok: bool)
      requires Valid()
      modifies this`nextIdx
      ensures Valid() && View() == old(View()).(nextIdx := old(nextIdx) + |out|)
      ensures out == entries[old(nextIdx)..nextIdx]
      ensures |out| <= (if n <= 0 then 1 else n)
      ensures !ok ==> out == []
      ensures readable ==> ok
      ensures ok && old(nextIdx) < |entries| ==>
                && out != []
                && (forall i :: old(nextIdx) <= i < nextIdx ==> entries[i].at.seg == entries[old(nextIdx)].at.seg)
                && (|out| == (if n <= 0 then 1 else n) || nextIdx == |entries|
                    || entries[nextIdx].at.seg != entries[old(nextIdx)].at.seg)
    {
      var want := if n <= 0 then 1 else n;
      var avail := |entries| - nextIdx;
      if avail <= 0 { return [], true; }
      if want > avail { want := avail; }
      var count := SameSegment(entries, nextIdx, want);
      if !readable { return [], false; }
      out := ReadBlock(entries, nextIdx, count);
      nextIdx := nextIdx + count;
      return out, true;
    }

    method AckN(n: int, persisted: bool) returns (ok: bool)
      requires Valid()
      modifies this
      ensures Valid() && View() == Acked(old(View()), n, persisted)
    {
      AckKeeps(View(), n, persisted);
      ok := AckLocked(n, persisted);
    }

    method AckLocked(n: int, persisted: bool) returns (ok: bool)
      requires nextIdx <= |entries|
      modifies this
      ensures View() == Acked(old(View()), n, persisted)
    {
      var k := n;
      if k > nextIdx { k := nextIdx; }
      if k <= 0 { return true; }
      ConfirmLocked(k);
      if since >= CURSOR_EVERY {
        if !persisted { return false; }
        cursor, since, saved := if entries == [] then wr else entries[0].at, 0, acked;
      }
      var head := if entries == [] then wr else entries[0].at;
      files := set f | f in files && f >= head.seg;
      return true;
    }

    method ConfirmLocked(k: nat)
      requires k <= nextIdx <= |entries|
      modifies this
      ensures View() == Confirm(old(View()), k)
    {
      var i := 0;
      while i < k
        invariant 0 <= i <= k
        invariant View() == old(View()).(bytes := old(bytes) - Total(old(entries)[..i]))
      {
        assert entries[..i + 1] == entries[..i] + [entries[i]];
        TotalConcat(entries[..i], [entries[i]]);
        bytes := bytes - (HEADER + entries[i].pkt.size);
        i := i + 1;
      }
      entries := entries[k..];
      nextIdx := nextIdx - k;
      since := since + k;
      acked := acked + k;
    }

    method Requeue()
      requires Valid()
      modifies this`nextIdx
      ensures Valid() && View() == Requeued(old(View()))
    {
      nextIdx := 0;
    }
  }
}
