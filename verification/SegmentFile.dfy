/** The bytes of one segment file of the disk queue (pkg/spool/queue.go:267-290, 327-341, 383-429). */
module SegmentFiles {
  import opened Util

  const HEADER: nat := 4
  const LENGTHS: nat := 0x1_0000_0000

  /** The length in the four bytes at `off`. */
  function LengthAt(file: seq<Byte>, off: nat): nat
    requires off + HEADER <= |file|
  {
    ((file[off] as nat * 256 + file[off + 1] as nat) * 256 + file[off + 2] as nat) * 256 + file[off + 3] as nat
  }

  /** The four bytes that hold a length. */
  ghost function Header(n: nat): (h: seq<Byte>)
    requires n < LENGTHS
    ensures |h| == HEADER && LengthAt(h, 0) == n
  {
    HeaderExists(n);
    var h: seq<Byte> :| |h| == HEADER && LengthAt(h, 0) == n;
    h
  }

  lemma HeaderExists(n: nat)
    requires n < LENGTHS
    ensures exists h: seq<Byte> :: |h| == HEADER && LengthAt(h, 0) == n
  {
    var h := [(n / 0x100_0000) as Byte, (n / 0x1_0000 % 256) as Byte, (n / 256 % 256) as Byte, (n % 256) as Byte];
    assert LengthAt(h, 0) == n;
  }

  /** No other four bytes hold it. */
  lemma HeaderUnique(h: seq<Byte>)
    requires |h| == HEADER
    ensures LengthAt(h, 0) < LENGTHS && Header(LengthAt(h, 0)) == h
  {
    var g := Header(LengthAt(h, 0));
    var x, y := g[0] as nat * 256 + g[1] as nat, h[0] as nat * 256 + h[1] as nat;
    LastDigit(x * 256 + g[2] as nat, g[3] as nat, y * 256 + h[2] as nat, h[3] as nat);
    LastDigit(x, g[2] as nat, y, h[2] as nat);
    LastDigit(g[0] as nat, g[1] as nat, h[0] as nat, h[1] as nat);
  }

  lemma LastDigit(x: nat, p: nat, y: nat, q: nat)
    requires p < 256 && q < 256 && x * 256 + p == y * 256 + q
    ensures x == y && p == q
  {}

  /** A marshalled packet; none reaches 4 GiB. */
  type Record = r: seq<Byte> | |r| < LENGTHS

  /** writeRecord: four bytes of length and the record. */
  ghost function Frame(r: Record): (f: seq<Byte>)
    ensures |f| == HEADER + |r|
  {
    Header(|r|) + r
  }

  ghost function Frames(rs: seq<Record>): seq<Byte> { if rs == [] then [] else Frame(rs[0]) + Frames(rs[1..]) }

  /** Where the records lie, the first at `off`, and how long they are. */
  function Places(rs: seq<Record>, off: nat): seq<(nat, nat)> {
    if rs == [] then [] else [(off, |rs[0]|)] + Places(rs[1..], off + HEADER + |rs[0]|)
  }

  lemma HeaderReads(r: Record, more: seq<Byte>)
    ensures var f := Frame(r) + more; LengthAt(f, 0) == |r| && f[HEADER..HEADER + |r|] == r && f[HEADER + |r|..] == more
  {
    assert LengthAt(Header(|r|), 0) == |r|;
  }

  // ---------- Scanning a file when the queue is opened ----------

  /** The index found, where the last whole record ends, and whether the file ends there. */
  datatype Stop = Stop(index: seq<(nat, nat)>, off: nat, atEnd: bool)

  function Scan(file: seq<Byte>, off: nat): Stop
    decreases |file| - off
  {
    if off >= |file| then Stop([], |file|, true)
    else if off + HEADER > |file| then Stop([], off, false)
    else
      var n := LengthAt(file, off);
      if n == 0 || off + HEADER + n > |file| then Stop([], off, false)
      else
        var r := Scan(file, off + HEADER + n);
        r.(index := [(off, n)] + r.index)
  }

  method ScanSegment(file: seq<Byte>, from: nat) returns (stop: Stop)
    ensures stop == Scan(file, from)
  {
    if from >= |file| { return Stop([], |file|, true); }
    var off := from;
    var index: seq<(nat, nat)> := [];
    while off + HEADER <= |file|
      invariant from <= off <= |file|
      invariant Scan(file, from) == Scan(file, off).(index := index + Scan(file, off).index)
      decreases |file| - off
    {
      var n := LengthAt(file, off);
      if n == 0 || off + HEADER + n > |file| { return Stop(index, off, false); }
      assert index + ([(off, n)] + Scan(file, off + HEADER + n).index) == index + [(off, n)] + Scan(file, off + HEADER + n).index;
      index := index + [(off, n)];
      off := off + HEADER + n;
    }
    return Stop(index, off, off == |file|);
  }

  /** How many records come before the first empty one. */
  function Whole(rs: seq<Record>): (k: nat)
    ensures k <= |rs|
  {
    if rs == [] || rs[0] == [] then 0 else 1 + Whole(rs[1..])
  }

  /** What an interrupted write leaves: less than the bytes of one record. */
  ghost predicate HalfWritten(t: seq<Byte>) { exists r: Record :: t < Frame(r) }

  lemma SameLength(file: seq<Byte>, off: nat, f: seq<Byte>)
    requires off + HEADER <= |file| && HEADER <= |f| && forall k :: 0 <= k < HEADER ==> file[off..][k] == f[k]
    ensures LengthAt(file, off) == LengthAt(f, 0)
  {
    assert file[off..][0] == file[off] && file[off..][1] == file[off + 1] && file[off..][2] == file[off + 2] && file[off..][3] == file[off + 3];
  }

  lemma HalfStops(file: seq<Byte>, off: nat, t: seq<Byte>)
    requires HalfWritten(t) && off <= |file| && file[off..] == t
    ensures Scan(file, off) == Stop([], off, t == [])
  {
    var r: Record :| t < Frame(r);
    if |t| >= HEADER {
      SameLength(file, off, Frame(r));
      assert LengthAt(Frame(r), 0) == LengthAt(Header(|r|), 0) == |r|;
    }
  }

  /** What is found in records written one after the other: all up to the first empty one. */
  ghost function Found(rs: seq<Record>, off: nat, t: seq<Byte>): Stop {
    var k := Whole(rs);
    Stop(Places(rs[..k], off), off + |Frames(rs[..k])|, k == |rs| && t == [])
  }

  /** The headers of the records lie in the file one after the other. */
  ghost predicate Lie(file: seq<Byte>, off: nat, rs: seq<Record>)
    decreases |rs|
  {
    rs == [] ||
    (off + HEADER + |rs[0]| <= |file| && LengthAt(file, off) == |rs[0]| && Lie(file, off + HEADER + |rs[0]|, rs[1..]))
  }

  lemma HeaderAt(file: seq<Byte>, off: nat, r: Record, more: seq<Byte>)
    requires off <= |file| && file[off..] == Frame(r) + more
    ensures off + HEADER + |r| <= |file| && LengthAt(file, off) == |r| && file[off + HEADER + |r|..] == more
  {
    HeaderReads(r, more);
    SameLength(file, off, Frame(r) + more);
    assert file[off + HEADER + |r|..] == file[off..][HEADER + |r|..];
  }

  lemma {:induction false} FramesLie(file: seq<Byte>, off: nat, rs: seq<Record>, t: seq<Byte>)
    requires off <= |file| && file[off..] == Frames(rs) + t
    ensures Lie(file, off, rs) && off + |Frames(rs)| <= |file| && file[off + |Frames(rs)|..] == t
    decreases |rs|
  {
    if rs != [] {
      assert file[off..] == Frame(rs[0]) + (Frames(rs[1..]) + t);
      HeaderAt(file, off, rs[0], Frames(rs[1..]) + t);
      FramesLie(file, off + HEADER + |rs[0]|, rs[1..], t);
    }
  }

  lemma {:induction false} ScanLying(file: seq<Byte>, off: nat, rs: seq<Record>, t: seq<Byte>)
    requires Lie(file, off, rs) && Scan(file, off + |Frames(rs)|) == Stop([], off + |Frames(rs)|, t == [])
    ensures Scan(file, off) == Found(rs, off, t)
    decreases |rs|
  {
    if rs != [] {
      ScanUnfolds(file, off, |rs[0]|);
      if rs[0] != [] {
        FramesLength(rs);
        ScanLying(file, off + HEADER + |rs[0]|, rs[1..], t);
        FoundStep(rs, off, t);
      }
    }
  }

  ghost function Prepend(place: (nat, nat), stop: Stop): Stop { Stop([place] + stop.index, stop.off, stop.atEnd) }

  lemma ScanUnfolds(file: seq<Byte>, off: nat, n: nat)
    requires off + HEADER + n <= |file| && LengthAt(file, off) == n
    ensures Scan(file, off) == if n == 0 then Stop([], off, false) else Prepend((off, n), Scan(file, off + HEADER + n))
  {}

  lemma FramesLength(rs: seq<Record>)
    requires rs != []
    ensures |Frames(rs)| == HEADER + |rs[0]| + |Frames(rs[1..])|
  {}

  /**
   A file of whole records and then some bytes of an interrupted write is read back record by record, from
   the beginning of any of them: up to the first empty record, which is taken for a broken one, or else all
   of them, the half-written rest being cut off.
   */
  lemma ScanFindsRecords(file: seq<Byte>, off: nat, rs: seq<Record>, t: seq<Byte>)
    requires HalfWritten(t) && off <= |file| && file[off..] == Frames(rs) + t
    ensures Scan(file, off) == Found(rs, off, t)
  {
    FramesLie(file, off, rs, t);
    HalfStops(file, off + |Frames(rs)|, t);
    ScanLying(file, off, rs, t);
  }

  lemma FoundStep(rs: seq<Record>, off: nat, t: seq<Byte>)
    requires rs != [] && rs[0] != []
    ensures Found(rs, off, t) == Prepend((off, |rs[0]|), Found(rs[1..], off + HEADER + |rs[0]|, t))
  {
    var k := Whole(rs[1..]);
    assert rs[..1 + k][0] == rs[0] && rs[..1 + k][1..] == rs[1..][..k];
  }

  /** Opening finds all records exactly if none is empty. */
  lemma ScanComplete(rs: seq<Record>, t: seq<Byte>)
    requires HalfWritten(t)
    ensures Scan(Frames(rs) + t, 0).index == Places(rs, 0) <==> [] !in rs
  {
    ScanFindsRecords(Frames(rs) + t, 0, rs, t);
    WholeIsAll(rs);
    PlacesCount(rs, 0);
    PlacesCount(rs[..Whole(rs)], 0);
  }

  /** An empty record hides the one behind it. */
  lemma EmptyRecordHidesRest()
    ensures Scan(Frames([[], [1]]), 0) == Stop([], 0, false)
  {
    var rs: seq<Record> := [[], [1]];
    assert HalfWritten([]) by { assert [] < Frame([]); }
    assert Frames(rs) + [] == Frames(rs);
    ScanFindsRecords(Frames(rs), 0, rs, []);
    assert rs[..0] == [];
  }

  lemma {:induction false} WholeIsAll(rs: seq<Record>)
    ensures Whole(rs) == |rs| <==> [] !in rs
    ensures Whole(rs) == |rs| ==> rs[..Whole(rs)] == rs
  {
    if rs != [] {
      WholeIsAll(rs[1..]);
      assert rs == [rs[0]] + rs[1..];
    }
  }

  lemma {:induction false} PlacesCount(rs: seq<Record>, off: nat)
    ensures |Places(rs, off)| == |rs|
    decreases |rs|
  {
    if rs != [] { PlacesCount(rs[1..], off + HEADER + |rs[0]|); }
  }

  // ---------- Reading a block of records ----------

  /** Next: `count` records out of one buffer, each as long as the bytes before it say; none if the buffer
      is too short for that. */
  function Decode(buf: seq<Byte>, count: nat): Option<seq<seq<Byte>>> {
    if count == 0 then Some([])
    else if |buf| < HEADER then None
    else
      var n := LengthAt(buf, 0);
      if HEADER + n > |buf| then None
      else
        match Decode(buf[HEADER + n..], count - 1)
        case None => None
        case Some(rs) => Some([buf[HEADER..HEADER + n]] + rs)
  }

  predicate Reads(got: Option<seq<seq<Byte>>>, rs: seq<Record>) { got.Some? && got.value == rs }

  lemma {:induction false} DecodeUndoesFrames(rs: seq<Record>)
    ensures Reads(Decode(Frames(rs), |rs|), rs)
    decreases |rs|
  {
    if rs != [] {
      HeaderReads(rs[0], Frames(rs[1..]));
      DecodeUndoesFrames(rs[1..]);
      assert rs == [rs[0]] + rs[1..];
    }
  }

  lemma {:induction false} FramesConcat(a: seq<Record>, b: seq<Record>)
    ensures Frames(a + b) == Frames(a) + Frames(b)
  {
    if a == [] {
      assert a + b == b;
    } else {
      assert (a + b)[1..] == a[1..] + b;
      FramesConcat(a[1..], b);
    }
  }

  // ---------- Writing, with failures ----------

  /** The file, whose end is where the next write goes; the write position kept in memory; the index; and, a
      history, the records reported as written. */
  datatype Segment = Segment(file: seq<Byte>, off: nat, index: seq<(nat, nat)>, recs: seq<Record>)

  /** A write that succeeds, or fails and leaves some bytes behind. */
  datatype Write = Done(rec: Record) | Failed(left: seq<Byte>)

  ghost function Written(s: Segment, w: Write): Segment {
    match w
    case Done(r) => Segment(s.file + Frame(r), s.off + HEADER + |r|, s.index + [(s.off, |r|)], s.recs + [r])
    case Failed(left) => s.(file := s.file + left)
  }

  /** An empty file after the given writes. */
  ghost function After(ws: seq<Write>): Segment {
    if ws == [] then Segment([], 0, [], []) else Written(After(ws[..|ws| - 1]), ws[|ws| - 1])
  }

  /** Bytes that failed writes left in the file. */
  function Left(ws: seq<Write>): nat {
    if ws == [] then 0 else Left(ws[..|ws| - 1]) + (if ws[|ws| - 1].Failed? then |ws[|ws| - 1].left| else 0)
  }

  lemma {:induction false} FileLength(ws: seq<Write>)
    ensures var s := After(ws); |s.file| == s.off + Left(ws)
  {
    if ws != [] { FileLength(ws[..|ws| - 1]); }
  }

  lemma {:induction false} NothingLeft(ws: seq<Write>)
    ensures Left(ws) == 0 <==> forall w :: w in ws && w.Failed? ==> w.left == []
  {
    if ws != [] {
      var front, z := ws[..|ws| - 1], ws[|ws| - 1];
      NothingLeft(front);
      assert ws == front + [z];
    }
  }

  lemma {:induction false} PlacesSnoc(rs: seq<Record>, r: Record, off: nat)
    ensures Places(rs + [r], off) == Places(rs, off) + [(off + |Frames(rs)|, |r|)]
    decreases |rs|
  {
    if rs == [] {
      assert rs + [r] == [r] && [r][1..] == [];
      PlacesStep([r], off);
    } else {
      var next := off + HEADER + |rs[0]|;
      PlacesSnoc(rs[1..], r, next);
      assert (rs + [r])[1..] == rs[1..] + [r] && (rs + [r])[0] == rs[0];
      PlacesStep(rs + [r], off);
      PlacesStep(rs, off);
      FramesLength(rs);
      assert [(off, |rs[0]|)] + (Places(rs[1..], next) + [(off + |Frames(rs)|, |r|)])
          == Places(rs, off) + [(off + |Frames(rs)|, |r|)];
    }
  }

  lemma PlacesStep(rs: seq<Record>, off: nat)
    requires rs != []
    ensures Places(rs, off) == [(off, |rs[0]|)] + Places(rs[1..], off + HEADER + |rs[0]|)
  {}

  /** As long as failed writes left nothing, the file is the records one after the other and the index is
      their places. */
  lemma {:induction false} FileIsRecords(ws: seq<Write>)
    requires Left(ws) == 0
    ensures var s := After(ws);
            s.file == Frames(s.recs) && s.index == Places(s.recs, 0) && s.off == |s.file|
  {
    if ws != [] {
      var front, z := ws[..|ws| - 1], ws[|ws| - 1];
      FileIsRecords(front);
      var s := After(front);
      if z.Done? {
        FramesConcat(s.recs, [z.rec]);
        assert [z.rec][1..] == [] && Frames([z.rec]) == Frame(z.rec);
        PlacesSnoc(s.recs, z.rec, 0);
      }
    }
  }

  /** The block of records from `i` up to `j`, read at the place the index has for the first. */
  function Block(s: Segment, i: nat, j: nat): Option<seq<seq<Byte>>>
    requires i < j <= |s.index| && s.index[i].0 <= s.index[j - 1].0
    requires s.index[j - 1].0 + HEADER + s.index[j - 1].1 <= |s.file|
  {
    Decode(s.file[s.index[i].0..s.index[j - 1].0 + HEADER + s.index[j - 1].1], j - i)
  }

  lemma {:induction false} PlaceAt(rs: seq<Record>, off: nat, i: nat)
    requires i < |rs|
    ensures |Places(rs, off)| == |rs| && Places(rs, off)[i] == (off + |Frames(rs[..i])|, |rs[i]|)
    decreases |rs|
  {
    PlacesCount(rs, off);
    if i > 0 {
      PlaceAt(rs[1..], off + HEADER + |rs[0]|, i - 1);
      assert rs[..i][1..] == rs[1..][..i - 1] && rs[..i][0] == rs[0];
    }
  }

  /** As long as failed writes left nothing, every block read is the records written. */
  lemma BlocksReadBack(ws: seq<Write>, i: nat, j: nat)
    requires Left(ws) == 0 && i < j <= |After(ws).recs|
    ensures var s := After(ws);
            && |s.index| == |s.recs| && s.index[i].0 <= s.index[j - 1].0
            && s.index[j - 1].0 + HEADER + s.index[j - 1].1 <= |s.file|
            && Reads(Block(s, i, j), s.recs[i..j])
  {
    var s := After(ws);
    FileIsRecords(ws);
    BlockOf(s, i, j);
  }

  lemma BlockOf(s: Segment, i: nat, j: nat)
    requires s.file == Frames(s.recs) && s.index == Places(s.recs, 0) && i < j <= |s.recs|
    ensures && |s.index| == |s.recs| && s.index[i].0 <= s.index[j - 1].0
            && s.index[j - 1].0 + HEADER + s.index[j - 1].1 <= |s.file|
            && Reads(Block(s, i, j), s.recs[i..j])
  {
    PlaceAt(s.recs, 0, i);
    BlockEnds(s.recs, i, j);
    BlockBytes(s.recs, i, j);
    DecodeUndoesFrames(s.recs[i..j]);
  }

  lemma BlockBytes(rs: seq<Record>, i: nat, j: nat)
    requires i <= j <= |rs|
    ensures var lo, n := |Frames(rs[..i])|, |Frames(rs[i..j])|;
            lo + n <= |Frames(rs)| && Frames(rs)[lo..lo + n] == Frames(rs[i..j])
  {
    var a, b, c := rs[..i], rs[i..j], rs[j..];
    assert rs == a + b + c;
    ThreeParts(a, b, c);
    Middle(Frames(a), Frames(b), Frames(c));
  }

  /** The block ends where its last record does. */
  lemma BlockEnds(rs: seq<Record>, i: nat, j: nat)
    requires i < j <= |rs|
    ensures |Places(rs, 0)| == |rs|
    ensures Places(rs, 0)[j - 1].0 + HEADER + Places(rs, 0)[j - 1].1 == |Frames(rs[..i])| + |Frames(rs[i..j])|
    ensures |Frames(rs[..i])| <= Places(rs, 0)[j - 1].0
  {
    var z := rs[j - 1];
    PlaceAt(rs, 0, j - 1);
    FramesConcat(rs[..i], rs[i..j - 1]);
    FramesConcat(rs[i..j - 1], [z]);
    assert rs[..i] + rs[i..j - 1] == rs[..j - 1] && rs[i..j - 1] + [z] == rs[i..j];
    assert [z][1..] == [] && Frames([z]) == Frame(z) + [];
  }

  lemma Middle(a: seq<Byte>, b: seq<Byte>, c: seq<Byte>)
    ensures (a + b + c)[|a|..|a| + |b|] == b
  {}

  lemma ThreeParts(a: seq<Record>, b: seq<Record>, c: seq<Record>)
    ensures Frames(a + b + c) == Frames(a) + Frames(b) + Frames(c)
  {
    FramesConcat(a + b, c);
    FramesConcat(a, b);
  }

  /** The next record is written at the place the index has for it exactly if no failed write of this segment
      left a byte behind; otherwise it lies behind it by as many bytes as they left. */
  lemma PlacedExactly(ws: seq<Write>, r: Record)
    ensures var s := After(ws);
            var t := Written(s, Done(r));
            && t.index[|s.index|] == (s.off, |r|) && |s.file| == s.off + Left(ws) && t.file[|s.file|..] == Frame(r)
            && (s.off == |s.file| <==> forall w :: w in ws && w.Failed? ==> w.left == [])
  {
    FileLength(ws);
    NothingLeft(ws);
  }

  /** The write of a record of two bytes fails with one of them missing, and the next record is written whole:
      read at its place, there is not even room for what the broken header announces. */
  lemma TornWriteMisplaces()
    ensures var s := After([Failed(Frame([7, 7])[..5]), Done([9])]);
            s.index == [(0, 1)] && s.recs == [[9]] && HalfWritten(Frame([7, 7])[..5]) && Block(s, 0, 1) == None
  {
    var a: seq<Byte>, b: seq<Byte> := Frame([7, 7]), Frame([9]);
    var f, d := Failed(a[..5]), Done([9]);
    AfterTwo(f, d);
    assert a == Header(2) + [7, 7] && a[..5] < a;
    assert LengthAt((a[..5] + b)[0..5], 0) == LengthAt(Header(2), 0) == 2;
  }

  lemma AfterTwo(f: Write, d: Write)
    ensures After([f, d]) == Written(Written(Segment([], 0, [], []), f), d)
  {
    assert [f, d][..1] == [f] && [f][..0] == [];
    assert After([f]) == Written(After([]), f);
  }
}
