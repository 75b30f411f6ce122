/** The round-robin port allocator (cmd/gt-pipeline/proxy_lease.go:152-201). */
module PortRanges {
  import opened Util

  datatype Pool = Pool(base: int, max: int, used: set<int>, cursor: nat)

  function Size(p: Pool): int { p.max - p.base + 1 }

  predicate InRange(p: Pool, port: int) { p.base <= port <= p.max }

  ghost predicate Valid(p: Pool) { forall q :: q in p.used ==> InRange(p, q) }

  /** The port tried in round `i`. */
  function Tried(p: Pool, i: nat): int
    requires Size(p) > 0
  {
    p.base + (p.cursor + i) % Size(p)
  }

  /** The first round from `i` on whose port is free. */
  function Probe(p: Pool, i: nat): Option<nat>
    decreases Size(p) - i
  {
    if i >= Size(p) then None
    else if Tried(p, i) !in p.used then Some(i)
    else Probe(p, i + 1)
  }

  function Port(p: Pool): Option<int> {
    if Probe(p, 0).None? || Size(p) <= 0 then None else Some(Tried(p, Probe(p, 0).value))
  }

  function Allocated(p: Pool): Pool {
    if Port(p).None? then p
    else p.(used := p.used + {Port(p).value}, cursor := (p.cursor + Probe(p, 0).value + 1) % Size(p))
  }

  predicate Reservable(p: Pool, port: int) { InRange(p, port) && port !in p.used }

  function Reserved(p: Pool, port: int): Pool { if Reservable(p, port) then p.(used := p.used + {port}) else p }

  function Released(p: Pool, port: int): Pool { p.(used := p.used - {port}) }

  lemma {:induction false} ProbeFinds(p: Pool, i: nat)
    requires Size(p) > 0
    ensures var r := Probe(p, i);
            && (r.Some? ==> i <= r.value < Size(p) && Tried(p, r.value) !in p.used)
            && (forall j :: i <= j < (if r.Some? then r.value else Size(p)) ==> Tried(p, j) in p.used)
    decreases Size(p) - i
  {
    if i < Size(p) && Tried(p, i) in p.used { ProbeFinds(p, i + 1); }
  }

  /** Every port of the range is tried in some round, wherever the cursor stands. */
  lemma EveryPortTried(p: Pool, port: int) returns (i: nat)
    requires InRange(p, port)
    ensures i < Size(p) && Tried(p, i) == port
    ensures var start := p.base + p.cursor % Size(p); i == if port >= start then port - start else port - start + Size(p)
  {
    var n := Size(p);
    var want, c := port - p.base, p.cursor % n;
    i := if want >= c then want - c else want - c + n;
    Wraps(p.cursor, i, n, want);
  }

  lemma Wraps(cursor: nat, i: nat, n: int, want: int)
    requires 0 <= want < n && (cursor % n + i == want || cursor % n + i == want + n)
    ensures (cursor + i) % n == want
  {
    var q := cursor / n;
    assert cursor == q * n + cursor % n;
    if cursor % n + i == want {
      Remainder(cursor + i, q, n, want);
    } else {
      assert cursor + i == q * n + want + n;
      assert (q + 1) * n == q * n + n;
      Remainder(cursor + i, q + 1, n, want);
    }
  }

  lemma Remainder(x: int, q: int, n: int, r: int)
    requires n > 0 && 0 <= r < n && x == q * n + r
    ensures x % n == r
  {
    var d := x / n - q;
    assert x == (x / n) * n + x % n;
    Distribute(x / n, q, n);
    if d >= 1 { AtLeast(d, n); } else if d <= -1 { AtLeast(-d, n); Distribute(0, d, n); }
  }

  lemma Distribute(a: int, b: int, n: int)
    ensures (a - b) * n == a * n - b * n
  {}

  lemma AtLeast(d: int, n: int)
    requires d >= 1 && n > 0
    ensures d * n >= n
  {
    assert d * n == (d - 1) * n + n;
    assert (d - 1) * n >= 0;
  }

  /** allocate fails only when the whole range is in use; otherwise it hands out a free port of it. */
  lemma AllocateComplete(p: Pool)
    ensures Port(p).None? <==> (forall q :: InRange(p, q) ==> q in p.used)
    ensures Port(p).Some? ==> Reservable(p, Port(p).value)
  {
    if Size(p) > 0 {
      ProbeFinds(p, 0);
      if Probe(p, 0).None? {
        forall q | InRange(p, q) ensures q in p.used {
          var i := EveryPortTried(p, q);
        }
      } else {
        assert InRange(p, Port(p).value) && Port(p).value !in p.used;
      }
    }
  }

  /** The remainder of the cursor decides which round tries a port. */
  lemma RoundOf(p: Pool, i: nat, j: nat)
    requires i < j < Size(p)
    ensures Tried(p, i) != Tried(p, j)
  {
    var n := Size(p);
    var a, b := (p.cursor + i) / n, (p.cursor + j) / n;
    assert p.cursor + i == a * n + (p.cursor + i) % n && p.cursor + j == b * n + (p.cursor + j) % n;
    if Tried(p, i) == Tried(p, j) {
      Distribute(b, a, n);
      if b - a >= 1 { AtLeast(b - a, n); } else if a - b >= 1 { AtLeast(a - b, n); Distribute(a, b, n); }
    }
  }

  /** `q` comes before `r` when counting up from `start` and round to the lower ports. */
  predicate Sooner(start: int, q: int, r: int) {
    if start <= r then start <= q < r else start <= q || q < r
  }

  /** The port handed out is the first free one from where the cursor stands, going round; it is in use from then
      on, nothing else changes, and the next search starts behind it. */
  lemma AllocatesExactly(p: Pool)
    requires Port(p).Some?
    ensures var port, t, start := Port(p).value, Allocated(p), p.base + p.cursor % Size(p);
            && p.base <= port <= p.max && port !in p.used
            && (forall q :: p.base <= q <= p.max && Sooner(start, q, port) ==> q in p.used)
            && t.base == p.base && t.max == p.max && t.used == p.used + {port}
            && 0 <= t.cursor < Size(p) && p.base + t.cursor == if port == p.max then p.base else port + 1
  {
    ProbeFinds(p, 0);
    var n, v, port := Size(p), Probe(p, 0).value, Port(p).value;
    var start := p.base + p.cursor % n;
    var at := EveryPortTried(p, port);
    if at < v { assert false; } else if v < at { RoundOf(p, v, at); }
    forall q | p.base <= q <= p.max && Sooner(start, q, port) ensures q in p.used {
      var i := EveryPortTried(p, q);
    }
    NextRound(p.cursor + v, n);
  }

  lemma NextRound(x: nat, n: int)
    requires n > 0
    ensures (x + 1) % n == if x % n == n - 1 then 0 else x % n + 1
  {
    var q := x / n;
    assert x == q * n + x % n;
    if x % n == n - 1 {
      assert (q + 1) * n == q * n + n;
      Remainder(x + 1, q + 1, n, 0);
    } else {
      Remainder(x + 1, q, n, x % n + 1);
    }
  }

  /** Any mix of the three operations keeps the used ports inside the range. */
  lemma OperationsStayInRange(p: Pool, port: int)
    requires Valid(p)
    ensures Valid(Allocated(p)) && Valid(Reserved(p, port)) && Valid(Released(p, port))
  {
    AllocateComplete(p);
  }

  /** A range is full exactly when as many ports are in use as it has. */
  lemma FullByCount(p: Pool)
    requires Valid(p) && Size(p) >= 0
    ensures |p.used| <= Size(p)
    ensures |p.used| == Size(p) <==> Port(p).None?
  {
    AllocateComplete(p);
    var all := Span(p.base, p.max + 1);
    assert p.used <= all;
    Subset(p.used, all);
    if Port(p).None? {
      assert all == p.used;
    } else {
      assert Port(p).value in all - p.used;
    }
  }

  ghost function Span(lo: int, hi: int): (s: set<int>)
    requires lo <= hi
    ensures |s| == hi - lo && forall q :: q in s <==> lo <= q < hi
    decreases hi - lo
  {
    if lo == hi then {} else Span(lo, hi - 1) + {hi - 1}
  }

  lemma Subset(a: set<int>, b: set<int>)
    requires a <= b
    ensures |a| <= |b| && |b - a| == |b| - |a|
  {
    assert b == a + (b - a);
  }

  class PortRange {
    const base: int
    const max: int
    var used: set<int>
    var cursor: nat

    ghost function View(): Pool
      reads this
    {
      Pool(base, max, used, cursor)
    }

    constructor (lo: int, hi: int)
      ensures View() == Pool(lo, hi, {}, 0)
    {
      base, max, used, cursor := lo, hi, {}, 0;
    }

    /** Round-robin from the cursor; 0 and an error when the range is exhausted. */
    method Allocate() returns (port: int, ok: bool)
      modifies this`used, this`cursor
      ensures View() == Allocated(old(View()))
      ensures Port(old(View())) == (if ok then Some(port) else None)
      ensures !ok ==> port == 0
    {
      var n := max - base + 1;
      var i := 0;
      while i < n
        invariant 0 <= i && (i <= n || n <= 0) && View() == old(View())
        invariant Probe(View(), 0) == Probe(View(), i)
      {
        port := base + (cursor + i) % n;
        if port !in used {
          used := used + {port};
          cursor := (cursor + i + 1) % n;
          return port, true;
        }
        i := i + 1;
      }
      return 0, false;
    }

    method Reserve(port: int) returns (ok: bool)
      modifies this`used
      ensures View() == Reserved(old(View()), port) && ok == Reservable(old(View()), port)
      ensures ok <==> base <= port <= max && port !in old(used)
      ensures used == (if ok then old(used) + {port} else old(used))
    {
      if port < base || port > max || port in used { return false; }
      used := used + {port};
      return true;
    }

    method Release(port: int)
      modifies this`used
      ensures View() == Released(old(View()), port) && used == old(used) - {port}
    {
      used := used - {port};
    }
  }
}
