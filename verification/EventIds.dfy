/**
 Event ids: UUID version 7 with a 12-bit counter (pkg/event/identity.go:73-130), after sections 5.7 and 6.2
 of RFC 9562.
 */
module EventIds {
  import opened Util

  const MS_SPACE: nat := 0x1_0000_0000_0000
  const COUNTER_MAX: nat := 0xFFF

  /** uuidv7LastMs and uuidv7Sequence. */
  datatype Stored = Stored(ms: nat, counter: nat)

  /** What one call reads: the clock, two random bytes for the counter, eight for the tail. */
  datatype Reading = Reading(now: nat, hi: Byte, lo: Byte, tail: seq<Byte>)

  predicate Rolls(s: Stored, r: Reading) { r.now <= s.ms && s.counter + 1 > COUNTER_MAX }

  /** The counter and last millisecond after a call. */
  function Next(s: Stored, r: Reading): Stored {
    if r.now > s.ms then Stored(r.now, (r.hi as nat * 16 + r.lo as nat / 16) % 4096)
    else if Rolls(s, r) then Stored(s.ms + 1, 0)
    else Stored(s.ms, s.counter + 1)
  }

  /** The millisecond printed: the clock's own, except when the counter rolls over. */
  function Shown(s: Stored, r: Reading): nat { if Rolls(s, r) then s.ms + 1 else r.now }

  predicate Less(a: Stored, b: Stored) { a.ms < b.ms || (a.ms == b.ms && a.counter < b.counter) }

  /** Whatever the clock reads, the stored pair goes strictly up and the counter stays in 12 bits. */
  lemma StoredRises(s: Stored, r: Reading)
    requires s.counter <= COUNTER_MAX
    ensures Less(s, Next(s, r)) && Next(s, r).counter <= COUNTER_MAX
  {}

  // ---------- Runs ----------

  function After(rs: seq<Reading>): Stored {
    if rs == [] then Stored(0, 0) else Next(After(rs[..|rs| - 1]), rs[|rs| - 1])
  }

  /** The millisecond and counter in the id printed by the last of the calls. */
  function Printed(rs: seq<Reading>): Stored
    requires rs != []
  {
    Stored(Shown(After(rs[..|rs| - 1]), rs[|rs| - 1]), After(rs).counter)
  }

  lemma {:induction false} CounterFits(rs: seq<Reading>)
    ensures After(rs).counter <= COUNTER_MAX
  {
    if rs != [] { CounterFits(rs[..|rs| - 1]); }
  }

  /** Millisecond and counter as one number. */
  function Rank(s: Stored): nat { s.ms * 4096 + s.counter }

  /** A clock ahead of the stored millisecond starts it anew at the top 12 of the 16 random bits. */
  lemma StartsAnew(rs: seq<Reading>, r: Reading)
    requires r.now > After(rs).ms
    ensures var s, bits := After(rs + [r]), r.hi as nat * 256 + r.lo as nat;
            s.ms == r.now && s.counter * 16 <= bits < s.counter * 16 + 16 && Printed(rs + [r]) == s
  {
    assert (rs + [r])[..|rs|] == rs;
  }

  /** While the clock does not pass the stored millisecond, millisecond and counter together count the calls. */
  lemma {:induction false} CountsOn(rs: seq<Reading>, more: seq<Reading>)
    requires forall k :: 0 <= k < |more| ==> more[k].now <= After(rs).ms
    ensures Rank(After(rs + more)) == Rank(After(rs)) + |more| && After(rs).ms <= After(rs + more).ms
  {
    if more == [] {
      assert rs + [] == rs;
    } else {
      var front, r := more[..|more| - 1], more[|more| - 1];
      CountsOn(rs, front);
      AfterOneMore(rs + front, r);
      SplitLast(rs, more);
    }
  }

  lemma SplitLast<T>(a: seq<T>, b: seq<T>)
    requires b != []
    ensures a + b == a + b[..|b| - 1] + [b[|b| - 1]]
  {}

  lemma AfterOneMore(rs: seq<Reading>, r: Reading)
    ensures After(rs + [r]) == Next(After(rs), r)
    ensures r.now <= After(rs).ms ==> Rank(After(rs + [r])) == Rank(After(rs)) + 1 && After(rs).ms <= After(rs + [r]).ms
  {
    CounterFits(rs);
    assert (rs + [r])[..|rs|] == rs;
  }

  /** The id of such a call has the clock's millisecond, and the next one only when the counter comes round to 0. */
  lemma ShowsClock(rs: seq<Reading>, r: Reading)
    requires r.now <= After(rs).ms
    ensures var s := After(rs + [r]); Printed(rs + [r]) == if s.counter == 0 then s else Stored(r.now, s.counter)
  {
    CounterFits(rs);
    PrintedOneMore(rs, r);
    AfterOneMore(rs, r);
  }

  /** Nothing printed is above the stored pair. */
  lemma {:induction false} PrintedBelow(rs: seq<Reading>, i: nat)
    requires i < |rs|
    ensures !Less(After(rs), Printed(rs[..i + 1]))
  {
    var front := rs[..|rs| - 1];
    CounterFits(front);
    StoredRises(After(front), rs[|rs| - 1]);
    if i + 1 == |rs| {
      assert rs[..i + 1] == rs;
    } else {
      PrintedBelow(front, i);
      PrefixOfPrefix(rs, i + 1, |rs| - 1);
    }
  }

  /** The stored millisecond has been printed. */
  lemma {:induction false} StoredWasPrinted(rs: seq<Reading>) returns (i: nat)
    requires rs != []
    ensures i < |rs| && Printed(rs[..i + 1]).ms == After(rs).ms
  {
    var front, r := rs[..|rs| - 1], rs[|rs| - 1];
    if r.now >= After(front).ms || Rolls(After(front), r) {
      i := |rs| - 1;
      assert rs[..i + 1] == rs;
    } else {
      assert front != [] by { assert After([]).ms == 0; }
      i := StoredWasPrinted(front);
      PrefixOfPrefix(rs, i + 1, |rs| - 1);
    }
  }

  /** An id is above every earlier one exactly if the clock reads no less than the stored millisecond, or the
      counter rolls over. */
  lemma AboveAllIffClockKeepsUp(rs: seq<Reading>, r: Reading)
    ensures (forall n :: 0 < n <= |rs| ==> Less(Printed(rs[..n]), Printed(rs + [r])))
            <==> r.now >= After(rs).ms || Rolls(After(rs), r)
  {
    if r.now >= After(rs).ms || Rolls(After(rs), r) {
      forall n | 0 < n <= |rs| ensures Less(Printed(rs[..n]), Printed(rs + [r])) { KeepsUpIsAbove(rs, r, n); }
    } else {
      BehindIsBelow(rs, r);
    }
  }

  lemma PrintedOneMore(rs: seq<Reading>, r: Reading)
    ensures Printed(rs + [r]) == Stored(Shown(After(rs), r), Next(After(rs), r).counter)
  {
    assert (rs + [r])[..|rs|] == rs;
  }

  lemma KeepsUpIsAbove(rs: seq<Reading>, r: Reading, n: nat)
    requires 0 < n <= |rs| && (r.now >= After(rs).ms || Rolls(After(rs), r))
    ensures Less(Printed(rs[..n]), Printed(rs + [r]))
  {
    PrintedOneMore(rs, r);
    CounterFits(rs);
    StoredRises(After(rs), r);
    PrintedBelow(rs, n - 1);
  }

  /** A clock behind the stored millisecond prints an id below one printed before. */
  lemma BehindIsBelow(rs: seq<Reading>, r: Reading)
    requires r.now < After(rs).ms && !Rolls(After(rs), r)
    ensures exists n :: 0 < n <= |rs| && !Less(Printed(rs[..n]), Printed(rs + [r]))
  {
    var all := rs + [r];
    assert all[..|rs|] == rs && all[|rs|] == r;
    assert rs != [] by { assert After([]).ms == 0; }
    var i := StoredWasPrinted(rs);
    assert Printed(all).ms == r.now;
    assert !Less(Printed(rs[..i + 1]), Printed(all));
  }

  /** A clock that never goes back does not keep up after a rollover: with the counter at its end, the second
      id of the millisecond is printed one ahead and the third is below it. */
  lemma RolloverOutrunsSteadyClock()
    ensures var r := Reading(5, 255, 255, []);
            && Printed([r, r]) == Stored(6, 0) && Printed([r, r, r]) == Stored(5, 1)
            && Less(Printed([r, r, r]), Printed([r, r]))
  {
    var r := Reading(5, 255, 255, []);
    assert [r, r, r][..2] == [r, r] && [r, r][..1] == [r] && [r][..0] == [];
    assert After([]) == Stored(0, 0);
    assert After([r]) == Stored(5, 4095);
    assert After([r, r]) == Stored(6, 0);
    assert After([r, r, r]) == Stored(6, 1);
  }

  // ---------- The sixteen bytes ----------

  /** The k low bytes of x, the most significant first. */
  function BigEndian(x: nat, k: nat): (b: seq<Byte>)
    ensures |b| == k
  {
    if k == 0 then [] else BigEndian(x / 256, k - 1) + [(x % 256) as Byte]
  }

  function Value(b: seq<Byte>): nat { if b == [] then 0 else Value(b[..|b| - 1]) * 256 + b[|b| - 1] as nat }

  /** Timestamp, version and counter, variant and random tail. */
  function Layout(ms: nat, counter: nat, tail: seq<Byte>): (u: seq<Byte>)
    requires counter <= COUNTER_MAX && |tail| == 8
    ensures |u| == 16
  {
    BigEndian(ms / 65536 % 0x1_0000_0000, 4) + BigEndian(ms % 65536, 2)
    + [(0x70 + counter / 256) as Byte, (counter % 256) as Byte]
    + [(tail[0] as nat % 64 + 0x80) as Byte] + tail[1..]
  }

  lemma {:induction false} BigEndianValue(x: nat, k: nat, space: nat)
    requires space == Power(k) && x < space
    ensures Value(BigEndian(x, k)) == x
    decreases k
  {
    if k > 0 {
      assert space == 256 * Power(k - 1);
      BigEndianValue(x / 256, k - 1, Power(k - 1));
      var b := BigEndian(x, k);
      assert b[..k - 1] == BigEndian(x / 256, k - 1);
    }
  }

  function Power(k: nat): nat { if k == 0 then 1 else 256 * Power(k - 1) }

  lemma SixBytes(x: nat)
    requires x < MS_SPACE
    ensures BigEndian(x / 65536 % 0x1_0000_0000, 4) + BigEndian(x % 65536, 2) == BigEndian(x, 6)
  {
    assert x / 65536 % 0x1_0000_0000 == x / 65536;
    assert BigEndian(x, 6) == BigEndian(x / 256, 5) + [(x % 256) as Byte];
    assert BigEndian(x / 256, 5) == BigEndian(x / 256 / 256, 4) + [(x / 256 % 256) as Byte];
    assert x / 256 / 256 == x / 65536;
    var y := x % 65536;
    assert BigEndian(y, 2) == BigEndian(y / 256, 1) + [(y % 256) as Byte];
    assert BigEndian(y / 256, 1) == BigEndian(y / 256 / 256, 0) + [(y / 256 % 256) as Byte];
    assert y % 256 == x % 256 && y / 256 % 256 == x / 256 % 256;
  }

  /** The fields can be read back: 48 bits of time, version 7, the counter, variant binary 10. */
  lemma FieldsReadBack(ms: nat, counter: nat, tail: seq<Byte>)
    requires ms < MS_SPACE && counter <= COUNTER_MAX && |tail| == 8
    ensures var u := Layout(ms, counter, tail);
            && Value(u[..6]) == ms && u[6] / 16 == 7 && (u[6] % 16) as nat * 256 + u[7] as nat == counter
            && u[8] / 64 == 2 && u[9..] == tail[1..]
  {
    var u := Layout(ms, counter, tail);
    SixBytes(ms);
    assert u[..6] == BigEndian(ms, 6);
    assert Power(0) == 1 && Power(1) == 256 && Power(2) == 65536 && Power(3) == 0x100_0000;
    assert Power(4) == 0x1_0000_0000 && Power(5) == 0x100_0000_0000 && Power(6) == MS_SPACE;
    BigEndianValue(ms, 6, MS_SPACE);
  }

  // ---------- The text ----------

  const HEX: string := "0123456789abcdef"

  /** formatUUID on the last bytes of an id: two digits a byte, a hyphen before bytes 4, 6, 8 and 10. */
  function TextOf(u: seq<Byte>): string
    requires |u| <= 16
  {
    if u == [] then "" else Hyphen(16 - |u|) + Digits(u[0]) + TextOf(u[1..])
  }

  function Hyphen(i: nat): string { if i == 4 || i == 6 || i == 8 || i == 10 then "-" else "" }

  function Digits(b: Byte): (s: string)
    ensures |s| == 2
  {
    [HEX[b / 16], HEX[b % 16]]
  }

  function Position(i: nat): nat { 2 * i + (if i <= 4 then 0 else if i <= 6 then 1 else if i <= 8 then 2 else if i <= 10 then 3 else 4) }

  /** The text of the first i bytes. */
  ghost function TextTo(u: seq<Byte>, i: nat): (s: string)
    requires i <= 16 == |u|
    ensures |s| == Position(i)
  {
    if i == 0 then "" else TextTo(u, i - 1) + Hyphen(i - 1) + Digits(u[i - 1])
  }

  lemma {:induction false} TextParts(u: seq<Byte>, i: nat)
    requires i <= 16 == |u|
    ensures TextTo(u, i) + TextOf(u[i..]) == TextOf(u)
  {
    if i > 0 {
      TextParts(u, i - 1);
      assert u[i - 1..][1..] == u[i..];
      Regroup(TextTo(u, i - 1), Hyphen(i - 1), Digits(u[i - 1]), TextOf(u[i..]));
    } else {
      assert u[i..] == u;
    }
  }

  lemma Regroup(a: string, b: string, c: string, d: string)
    ensures a + (b + c + d) == a + b + c + d
  {}

  method FormatUUID(u: seq<Byte>) returns (text: string)
    requires |u| == 16
    ensures text == TextOf(u) && |text| == 36
  {
    var buf := new char[36](i => ' ');
    var pos := 0;
    var i := 0;
    while i < 16
      invariant 0 <= i <= 16 && pos == Position(i)
      invariant buf[..pos] == TextTo(u, i)
    {
      pos := PutByte(buf, pos, i, u[i]);
      i := i + 1;
    }
    TextParts(u, i);
    assert u[i..] == [];
    assert buf[..pos] == buf[..];
    return buf[..];
  }

  /** One pass of formatUUID's loop. */
  method PutByte(buf: array<char>, at: nat, i: nat, b: Byte) returns (pos: nat)
    requires at + |Hyphen(i)| + 2 <= buf.Length
    modifies buf
    ensures pos == at + |Hyphen(i)| + 2 && buf[..pos] == old(buf[..at]) + Hyphen(i) + Digits(b)
  {
    pos := at;
    if i == 4 || i == 6 || i == 8 || i == 10 {
      buf[pos] := '-';
      pos := pos + 1;
    }
    buf[pos] := HEX[b / 16];
    buf[pos + 1] := HEX[b % 16];
    pos := pos + 2;
  }

  /** Dictionary order of strings. */
  predicate StringLess(s: string, t: string) {
    t != "" && (s == "" || s[0] < t[0] || (s[0] == t[0] && StringLess(s[1..], t[1..])))
  }

  /** Dictionary order of byte strings of one length. */
  predicate BytesLess(u: seq<Byte>, v: seq<Byte>)
    requires |u| == |v|
  {
    u != [] && (u[0] < v[0] || (u[0] == v[0] && BytesLess(u[1..], v[1..])))
  }

  lemma {:induction false} SamePrefix(p: string, s: string, t: string)
    requires StringLess(s, t)
    ensures StringLess(p + s, p + t)
  {
    if p == [] {
      assert p + s == s && p + t == t;
    } else {
      SamePrefix(p[1..], s, t);
      assert (p + s)[1..] == p[1..] + s && (p + t)[1..] == p[1..] + t;
    }
  }

  lemma DigitsRise(a: Byte, b: Byte)
    requires 0 <= a < b < 16
    ensures HEX[a] < HEX[b]
  {}

  lemma ByteText(a: Byte, b: Byte, s: string, t: string)
    requires a < b
    ensures StringLess(Digits(a) + s, Digits(b) + t)
  {
    var x, y := Digits(a) + s, Digits(b) + t;
    if a / 16 < b / 16 {
      DigitsRise(a / 16, b / 16);
    } else {
      DigitsRise(a % 16, b % 16);
      assert StringLess(x[1..], y[1..]);
    }
  }

  /** The text sorts as the bytes do. */
  lemma {:induction false} TextOrder(u: seq<Byte>, v: seq<Byte>)
    requires |u| == |v| <= 16 && BytesLess(u, v)
    ensures StringLess(TextOf(u), TextOf(v))
  {
    var s, t := TextOf(u[1..]), TextOf(v[1..]);
    if u[0] < v[0] {
      ByteText(u[0], v[0], s, t);
    } else {
      TextOrder(u[1..], v[1..]);
      SamePrefix(Digits(u[0]), s, t);
    }
    Hyphenated(Hyphen(16 - |u|), Digits(u[0]), s, Digits(v[0]), t);
  }

  lemma Hyphenated(d: string, a: string, s: string, b: string, t: string)
    requires StringLess(a + s, b + t)
    ensures StringLess(d + a + s, d + b + t)
  {
    Associates(d, a, s);
    Associates(d, b, t);
    SamePrefix(d, a + s, b + t);
  }

  lemma Associates(a: string, b: string, c: string)
    ensures a + b + c == a + (b + c)
  {}

  lemma {:induction false} AppendLess(u: seq<Byte>, v: seq<Byte>, p: seq<Byte>, q: seq<Byte>)
    requires |u| == |v| && |p| == |q| && (BytesLess(u, v) || (u == v && BytesLess(p, q)))
    ensures BytesLess(u + p, v + q)
  {
    if u == [] {
      assert u + p == p && v + q == q;
    } else {
      assert (u + p)[1..] == u[1..] + p && (v + q)[1..] == v[1..] + q;
      if u[0] == v[0] { AppendLess(u[1..], v[1..], p, q); }
    }
  }

  lemma {:induction false} BigEndianOrder(x: nat, y: nat, k: nat)
    requires x < y < Power(k)
    ensures BytesLess(BigEndian(x, k), BigEndian(y, k))
    decreases k
  {
    var p, q := [(x % 256) as Byte], [(y % 256) as Byte];
    if x / 256 < y / 256 {
      BigEndianOrder(x / 256, y / 256, k - 1);
    } else {
      assert x / 256 == y / 256 && x % 256 < y % 256;
    }
    AppendLess(BigEndian(x / 256, k - 1), BigEndian(y / 256, k - 1), p, q);
  }

  /** The id printed for a millisecond and counter. */
  function Text(k: Stored, tail: seq<Byte>): string
    requires k.counter <= COUNTER_MAX && |tail| == 8
  {
    TextOf(Layout(k.ms, k.counter, tail))
  }

  lemma LayoutParts(a: Stored, s: seq<Byte>)
    requires a.counter <= COUNTER_MAX && |s| == 8 && a.ms < MS_SPACE
    ensures Layout(a.ms, a.counter, s) == BigEndian(a.ms, 6) + Tail(a.counter, s)
  {
    SixBytes(a.ms);
  }

  /** As strings, ids sort by millisecond and then counter, whatever the random tails. */
  lemma IdsSortAsStrings(a: Stored, b: Stored, s: seq<Byte>, t: seq<Byte>)
    requires a.counter <= COUNTER_MAX && b.counter <= COUNTER_MAX && |s| == |t| == 8
    requires a.ms < MS_SPACE && b.ms < MS_SPACE && Less(a, b)
    ensures StringLess(Text(a, s), Text(b, t))
  {
    LayoutParts(a, s);
    LayoutParts(b, t);
    var m, n := BigEndian(a.ms, 6), BigEndian(b.ms, 6);
    var p, q := Tail(a.counter, s), Tail(b.counter, t);
    if a.ms < b.ms {
      assert Power(0) == 1 && Power(1) == 256 && Power(2) == 65536 && Power(3) == 0x100_0000;
      assert Power(4) == 0x1_0000_0000 && Power(5) == 0x100_0000_0000 && Power(6) == MS_SPACE;
      BigEndianOrder(a.ms, b.ms, 6);
    } else {
      CounterOrder(a.counter, b.counter, s, t);
    }
    AppendLess(m, n, p, q);
    TextOrder(m + p, n + q);
  }

  function Tail(counter: nat, tail: seq<Byte>): seq<Byte>
    requires counter <= COUNTER_MAX && |tail| == 8
  {
    [(0x70 + counter / 256) as Byte, (counter % 256) as Byte] + [(tail[0] as nat % 64 + 0x80) as Byte] + tail[1..]
  }

  lemma CounterOrder(a: nat, b: nat, s: seq<Byte>, t: seq<Byte>)
    requires a < b <= COUNTER_MAX && |s| == |t| == 8
    ensures BytesLess(Tail(a, s), Tail(b, t))
  {
    var u, v := Tail(a, s), Tail(b, t);
    if a / 256 == b / 256 { assert u[1..][0] < v[1..][0]; }
  }

  lemma {:induction false} StringsAsymmetric(s: string, t: string)
    requires StringLess(s, t)
    ensures !StringLess(t, s)
  {
    if s != [] && t != [] && s[0] == t[0] { StringsAsymmetric(s[1..], t[1..]); }
  }

  /** The id the last of the calls returns. */
  function Id(rs: seq<Reading>): string
    requires rs != [] && |rs[|rs| - 1].tail| == 8
  {
    CounterFits(rs);
    Text(Printed(rs), rs[|rs| - 1].tail)
  }

  ghost predicate Tails(rs: seq<Reading>) { forall i :: 0 <= i < |rs| ==> |rs[i].tail| == 8 }

  /** At every call the clock reads no less than the stored millisecond, or the counter rolls over. */
  ghost predicate ClockKeepsUp(rs: seq<Reading>) {
    forall i :: 0 <= i < |rs| ==> rs[i].now >= After(rs[..i]).ms || Rolls(After(rs[..i]), rs[i])
  }

  /** The ids of a run, as strings, go strictly up. */
  ghost predicate IdsRise(rs: seq<Reading>)
    requires Tails(rs)
  {
    forall i, j :: 0 < i < j <= |rs| ==> StringLess(Id(rs[..i]), Id(rs[..j]))
  }

  /** As long as the time fits its 48 bits, the ids printed in a run go strictly up as strings exactly if the
      clock keeps up at every call. */
  lemma IdsRiseIffClockKeepsUp(rs: seq<Reading>)
    requires Tails(rs) && After(rs).ms < MS_SPACE
    ensures IdsRise(rs) <==> ClockKeepsUp(rs)
  {
    if ClockKeepsUp(rs) {
      forall i, j | 0 < i < j <= |rs| ensures StringLess(Id(rs[..i]), Id(rs[..j])) {
        KeptUpAbove(rs, i, j);
        SortsAt(rs, i, j);
      }
    } else {
      var j :| 0 <= j < |rs| && rs[j].now < After(rs[..j]).ms && !Rolls(After(rs[..j]), rs[j]);
      var i := BehindSorts(rs, j);
    }
  }

  lemma IdsSort(a: seq<Reading>, b: seq<Reading>)
    requires a != [] && b != [] && |a[|a| - 1].tail| == |b[|b| - 1].tail| == 8
    requires Printed(a).ms < MS_SPACE && Printed(b).ms < MS_SPACE && Less(Printed(a), Printed(b))
    ensures StringLess(Id(a), Id(b))
  {
    CounterFits(a);
    CounterFits(b);
    IdsSortAsStrings(Printed(a), Printed(b), a[|a| - 1].tail, b[|b| - 1].tail);
  }

  lemma PrintedFits(rs: seq<Reading>, i: nat)
    requires After(rs).ms < MS_SPACE && 0 < i <= |rs|
    ensures Printed(rs[..i]).ms < MS_SPACE
  {
    PrintedBelow(rs, i - 1);
  }

  lemma SortsAt(rs: seq<Reading>, i: nat, j: nat)
    requires Tails(rs) && After(rs).ms < MS_SPACE && 0 < i <= |rs| && 0 < j <= |rs|
    requires Less(Printed(rs[..i]), Printed(rs[..j]))
    ensures StringLess(Id(rs[..i]), Id(rs[..j]))
  {
    PrintedFits(rs, i);
    PrintedFits(rs, j);
    IdsSort(rs[..i], rs[..j]);
  }

  lemma KeptUpAbove(rs: seq<Reading>, i: nat, j: nat)
    requires ClockKeepsUp(rs) && 0 < i < j <= |rs|
    ensures Less(Printed(rs[..i]), Printed(rs[..j]))
  {
    var front, r := rs[..j - 1], rs[j - 1];
    AboveAllIffClockKeepsUp(front, r);
    assert front + [r] == rs[..j];
    PrefixOfPrefix(rs, i, j - 1);
    assert 0 < i <= |front|;
  }

  /** A call whose clock is behind prints an id below one printed earlier. */
  lemma BehindFalls(rs: seq<Reading>, j: nat) returns (i: nat)
    requires j < |rs| && rs[j].now < After(rs[..j]).ms && !Rolls(After(rs[..j]), rs[j])
    ensures 0 < i <= j && Less(Printed(rs[..j + 1]), Printed(rs[..i]))
  {
    var front := rs[..j];
    assert front != [] by { assert After([]).ms == 0; }
    i := StoredWasPrinted(front);
    i := i + 1;
    PrefixOfPrefix(rs, i, j);
    assert rs[..j + 1][..j] == front && rs[..j + 1][j] == rs[j];
  }

  lemma BehindSorts(rs: seq<Reading>, j: nat) returns (i: nat)
    requires Tails(rs) && After(rs).ms < MS_SPACE
    requires j < |rs| && rs[j].now < After(rs[..j]).ms && !Rolls(After(rs[..j]), rs[j])
    ensures 0 < i <= j && !StringLess(Id(rs[..i]), Id(rs[..j + 1]))
  {
    i := BehindFalls(rs, j);
    SortsAt(rs, j + 1, i);
    StringsAsymmetric(Id(rs[..j + 1]), Id(rs[..i]));
  }

  // ---------- The generator ----------

  class Generator {
    var lastMs: nat
    var counter: nat
    ghost var calls: seq<Reading>

    ghost predicate Valid()
      reads this
    {
      counter <= COUNTER_MAX && Stored(lastMs, counter) == After(calls)
    }

    constructor ()
      ensures Valid() && calls == []
    {
      lastMs, counter, calls := 0, 0, [];
    }

    method NewEventID(r: Reading) returns (id: string)
      requires Valid() && |r.tail| == 8
      modifies this
      ensures Valid() && calls == old(calls) + [r]
      ensures id == Id(calls)
    {
      var now := Advance(r);
      id := FormatUUID(Layout(now, counter, r.tail));
    }

    /** The clock and counter part, up to the millisecond to print. */
    method Advance(r: Reading) returns (now: nat)
      requires Valid()
      modifies this
      ensures Valid() && calls == old(calls) + [r] && Printed(calls) == Stored(now, counter)
    {
      calls := calls + [r];
      assert calls[..|calls| - 1] == old(calls);
      now := r.now;
      if now <= lastMs {
        counter := counter + 1;
        if counter > COUNTER_MAX {
          lastMs := lastMs + 1;
          now := lastMs;
          counter := 0;
        }
      } else {
        lastMs := now;
        counter := (r.hi as nat * 16 + r.lo as nat / 16) % 4096;
      }
    }
  }
}
