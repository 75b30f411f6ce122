/** Shared vocabulary: optional values and the list operations the queues are specified with. */
module Util {

  datatype Option<+T> = None | Some(value: T)

  /** No element occurs twice. */
  ghost predicate Distinct<T>(s: seq<T>) {
    forall i, j :: 0 <= i < j < |s| ==> s[i] != s[j]
  }

  lemma DistinctTail<T(!new)>(q: seq<T>)
    requires Distinct(q) && q != []
    ensures forall x :: x in q[1..] <==> x in q && x != q[0]
  {
    assert q == [q[0]] + q[1..];
  }

  lemma PrefixOfPrefix<T>(s: seq<T>, a: nat, b: nat)
    requires a <= b <= |s|
    ensures s[..b][..a] == s[..a]
  {}

  /** `s` without the first occurrence of `x`. */
  function RemoveFirst<T(==)>(s: seq<T>, x: T): (r: seq<T>)
    ensures x !in s ==> r == s
    ensures multiset(r) == multiset(s) - multiset{x}
    ensures |r| <= |s|
  {
    if s == [] then []
    else
      assert s == [s[0]] + s[1..];
      if s[0] == x then s[1..] else [s[0]] + RemoveFirst(s[1..], x)
  }

  /** The elements of `s` outside `out`, in order. */
  function Without<T(==, !new)>(s: seq<T>, out: set<T>): (r: seq<T>)
    ensures forall x :: x in r <==> x in s && x !in out
    ensures |r| <= |s|
  {
    if s == [] then []
    else if s[0] in out then Without(s[1..], out)
    else [s[0]] + Without(s[1..], out)
  }

  lemma {:induction false} WithoutSnoc<T(!new)>(s: seq<T>, x: T, out: set<T>)
    ensures Without(s + [x], out) == Without(s, out) + (if x in out then [] else [x])
  {
    if s == [] {
      assert [x][1..] == [];
    } else {
      assert (s + [x])[1..] == s[1..] + [x];
      WithoutSnoc(s[1..], x, out);
    }
  }

  lemma {:induction false} WithoutNothing<T(!new)>(s: seq<T>)
    ensures Without(s, {}) == s
  {
    if s != [] {
      WithoutNothing(s[1..]);
      assert s == [s[0]] + s[1..];
    }
  }

  /** In a list without repetition, removing one element and filtering it out are the same. */
  lemma {:induction false} RemoveFirstIsWithout<T(!new)>(s: seq<T>, x: T)
    requires Distinct(s)
    ensures RemoveFirst(s, x) == Without(s, {x})
  {
    if s != [] {
      if s[0] == x {
        assert x !in s[1..];
        WithoutAbsent(s[1..], {x});
      } else {
        RemoveFirstIsWithout(s[1..], x);
      }
    }
  }

  lemma {:induction false} WithoutAbsent<T(!new)>(s: seq<T>, out: set<T>)
    requires forall x :: x in s ==> x !in out
    ensures Without(s, out) == s
  {
    if s != [] {
      WithoutAbsent(s[1..], out);
      assert s == [s[0]] + s[1..];
    }
  }

  lemma {:induction false} WithoutTwice<T(!new)>(s: seq<T>, a: set<T>, b: set<T>)
    ensures Without(Without(s, a), b) == Without(s, a + b)
  {
    if s != [] {
      WithoutTwice(s[1..], a, b);
      if s[0] !in a {
        var t := Without(s[1..], a);
        assert ([s[0]] + t)[1..] == t;
      }
    }
  }

  /** Position of the first occurrence of `x`, the length if there is none. */
  ghost function IndexOf<T(!new)>(s: seq<T>, x: T): (k: nat)
    ensures k <= |s|
    ensures k < |s| ==> s[k] == x
    ensures forall i :: 0 <= i < k ==> s[i] != x
    ensures x in s <==> k < |s|
  {
    if s == [] then 0 else if s[0] == x then 0 else 1 + IndexOf(s[1..], x)
  }

  lemma IndexOfGrows<T(!new)>(s: seq<T>, y: T, x: T)
    ensures x in s ==> IndexOf(s + [y], x) == IndexOf(s, x)
    ensures y !in s ==> IndexOf(s + [y], y) == |s|
  {
    assert forall i :: 0 <= i < |s| ==> (s + [y])[i] == s[i];
    assert (s + [y])[|s|] == y;
  }

  /** `q` lists elements of `log`, in the order of `log` and from position `from` on. */
  ghost predicate Ordered<T(!new)>(q: seq<T>, log: seq<T>, from: nat) {
    q == [] || (from <= IndexOf(log, q[0]) < |log| && Ordered(q[1..], log, IndexOf(log, q[0]) + 1))
  }

  lemma {:induction false} OrderedAfter<T(!new)>(q: seq<T>, log: seq<T>, from: nat, x: T)
    requires Ordered(q, log, from) && x in q
    ensures from <= IndexOf(log, x) < |log|
  {
    if x != q[0] {
      OrderedAfter(q[1..], log, IndexOf(log, q[0]) + 1, x);
    }
  }

  lemma {:induction false} OrderedDistinct<T(!new)>(q: seq<T>, log: seq<T>, from: nat)
    requires Ordered(q, log, from)
    ensures Distinct(q)
  {
    if q != [] {
      OrderedDistinct(q[1..], log, IndexOf(log, q[0]) + 1);
      if q[0] in q[1..] {
        OrderedAfter(q[1..], log, IndexOf(log, q[0]) + 1, q[0]);
      }
    }
  }

  lemma {:induction false} OrderedWithout<T(!new)>(q: seq<T>, log: seq<T>, from: nat, out: set<T>)
    requires Ordered(q, log, from)
    ensures Ordered(Without(q, out), log, from)
  {
    if q != [] {
      var next := IndexOf(log, q[0]) + 1;
      OrderedWithout(q[1..], log, next, out);
      var t := Without(q[1..], out);
      if q[0] in out {
        assert t != [] ==> from <= IndexOf(log, t[0]);
      } else {
        assert ([q[0]] + t)[1..] == t;
      }
    }
  }

  lemma {:induction false} OrderedGrows<T(!new)>(q: seq<T>, log: seq<T>, from: nat, x: T)
    requires Ordered(q, log, from)
    ensures Ordered(q, log + [x], from)
  {
    if q != [] {
      IndexOfGrows(log, x, q[0]);
      OrderedGrows(q[1..], log, IndexOf(log, q[0]) + 1, x);
    }
  }

  /** What enters the log last may enter the queue last. */
  lemma {:induction false} OrderedSnoc<T(!new)>(q: seq<T>, log: seq<T>, from: nat, x: T)
    requires Ordered(q, log, from) && x in log && IndexOf(log, x) == |log| - 1 && from < |log| && x !in q
    ensures Ordered(q + [x], log, from)
  {
    if q == [] {
      assert (q + [x])[1..] == [];
    } else {
      assert IndexOf(log, q[0]) != |log| - 1;
      OrderedSnoc(q[1..], log, IndexOf(log, q[0]) + 1, x);
      assert (q + [x])[1..] == q[1..] + [x];
    }
  }

  lemma {:induction false} OrderedMember<T(!new)>(q: seq<T>, log: seq<T>, from: nat)
    requires Ordered(q, log, from)
    ensures forall x :: x in q ==> x in log
  {
    forall x | x in q ensures x in log { OrderedAfter(q, log, from, x); }
  }

  lemma {:induction false} WithoutDistinct<T(!new)>(s: seq<T>, out: set<T>)
    requires Distinct(s)
    ensures Distinct(Without(s, out))
  {
    if s != [] {
      WithoutDistinct(s[1..], out);
      if s[0] !in out {
        assert s[0] !in s[1..];
        var t := Without(s[1..], out);
        assert s[0] !in t;
      }
    }
  }

  lemma {:induction false} Injects(a: set<int>, f: map<int, int>, b: set<int>)
    requires forall p :: p in a ==> p in f && f[p] in b
    requires forall p, q :: p in a && q in a && p != q ==> f[p] != f[q]
    ensures |a| <= |b|
  {
    if exists p :: p in a {
      var p :| p in a;
      Injects(a - {p}, f, b - {f[p]});
    } else {
      assert a == {};
    }
  }

  lemma {:induction false} DistinctCount<T(!new)>(s: seq<T>)
    requires Distinct(s)
    ensures |set x | x in s| == |s|
  {
    if s != [] {
      DistinctCount(s[1..]);
      assert s[0] !in s[1..];
      assert (set x | x in s) == {s[0]} + (set x | x in s[1..]);
    }
  }

  ghost function Below(n: nat): (r: set<nat>)
    ensures |r| == n && forall x: nat :: x in r <==> x < n
  {
    if n == 0 then {} else Below(n - 1) + {n - 1}
  }

  /** No more than n different numbers are below n. */
  lemma Pigeonhole(s: seq<nat>, n: nat)
    requires Distinct(s) && forall i :: 0 <= i < |s| ==> s[i] < n
    ensures |s| <= n
  {
    DistinctCount(s);
    var all := set x | x in s;
    assert all <= Below(n);
    assert Below(n) == all + (Below(n) - all);
  }

  /** A number in decimal digits. */
  function Decimal(n: nat): (s: string)
    ensures s != [] && '-' !in s
    decreases n
  {
    if n < 10 then [DIGITS[n]] else Decimal(n / 10) + [DIGITS[n % 10]]
  }

  const DIGITS: string := "0123456789"

  lemma {:induction false} DecimalInjective(m: nat, n: nat)
    requires Decimal(m) == Decimal(n)
    ensures m == n
    decreases m
  {
    var a, b := Decimal(m), Decimal(n);
    assert a[|a| - 1] == DIGITS[m % 10] && b[|b| - 1] == DIGITS[n % 10];
    assert m % 10 == n % 10;
    if m >= 10 && n >= 10 {
      assert a[..|a| - 1] == Decimal(m / 10) && b[..|b| - 1] == Decimal(n / 10);
      DecimalInjective(m / 10, n / 10);
    }
  }

  // ---------- Bytes ----------

  newtype Byte = x: int | 0 <= x < 256
}
