/** Windowed counting and summing (pkg/analyze/count.go:34-76, sum.go:36-80, aggregator.go:37-66). */
module Aggregation {
  import opened Util

  type Labels = map<string, string>

  /** An emitted metric; `key` is the group key its labels were stored under. */
  datatype Metric = Metric(window: int, key: string, group: Labels, value: real)

  /** An event that was counted: its window, the values of its group and its value (1 when counting). */
  datatype Entry = Entry(window: int, parts: seq<string>, value: real)

  // ---------- Windows ----------

  /** time.Truncate: down to a multiple of d, also before the epoch; d <= 0 leaves t as it is. */
  function WindowStart(t: int, d: int): int { if d <= 0 then t else t - t % d }

  /** The window of t is the only one of width d that contains it, and windows follow time. */
  lemma WindowContains(t: int, u: int, d: int)
    requires d > 0
    ensures WindowStart(t, d) % d == 0 && WindowStart(t, d) <= t < WindowStart(t, d) + d
    ensures t <= u ==> WindowStart(t, d) <= WindowStart(u, d)
    ensures u % d == 0 && u <= t < u + d ==> u == WindowStart(t, d)
  {
    var q, p := t / d, u / d;
    assert t == q * d + t % d && WindowStart(t, d) == q * d;
    assert u == p * d + u % d && WindowStart(u, d) == p * d;
    Multiple(q, d);
    if t <= u && q > p { Scale(q, p, d); }
    if u % d == 0 && u <= t < u + d {
      if p < q { Scale(q, p, d); } else if q < p { Scale(p, q, d); }
    }
  }

  lemma Multiple(q: int, d: int)
    requires d > 0
    ensures (q * d) % d == 0
  {
    var r := (q * d) % d;
    var e := (q * d) / d;
    assert q * d == e * d + r;
    assert (q - e) * d == r;
    if q - e >= 1 { Scale(q - e, 0, d); } else if q - e <= -1 { Scale(0, q - e, d); }
  }

  lemma Scale(a: int, b: int, d: int)
    requires a > b && d > 0
    ensures a * d >= b * d + d
  {
    var k: nat := a - b - 1;
    Spread(b, k, d);
    NotNegative(k, d);
  }

  lemma Spread(b: int, k: int, d: int)
    ensures (b + 1 + k) * d == b * d + d + k * d
  {}

  lemma NotNegative(k: nat, d: nat)
    ensures k * d >= 0
  {}

  // ---------- Group keys ----------

  function Join(parts: seq<string>): string {
    if parts == [] then "" else if |parts| == 1 then parts[0] else parts[0] + "|" + Join(parts[1..])
  }

  function LabelName(name: string, i: nat): string { if name == "" then "group_" + Decimal(i) else name }

  function LabelsOf(parts: seq<string>, names: seq<string>): Labels
    requires |parts| <= |names|
  {
    if parts == [] then map[]
    else
      var i := |parts| - 1;
      LabelsOf(parts[..i], names)[LabelName(names[i], i) := parts[i]]
  }

  /** The results of the group expressions, None where one fails. */
  function Values(results: seq<Option<string>>): Option<seq<string>> {
    if results == [] then Some([])
    else
      var i := |results| - 1;
      if Values(results[..i]).None? || results[i].None? then None else Some(Values(results[..i]).value + [results[i].value])
  }

  /** The key a group's values are stored under. */
  function KeyOf(parts: seq<string>): string { if parts == [] then "_" else Join(parts) }

  function LabelsFor(results: seq<Option<string>>, names: seq<string>): Labels
    requires Values(results).Some? && |Values(results).value| <= |names|
  {
    if results == [] then map["group" := "_"] else LabelsOf(Values(results).value, names)
  }

  /** Every expression has its label, named after it or `group_` and its number, and the label carries the
      value of the last expression of that name. */
  lemma {:induction false} LabelsCarry(parts: seq<string>, names: seq<string>, i: nat)
    requires i < |parts| <= |names|
    ensures var l, all := if names[i] == "" then "group_" + Decimal(i) else names[i], LabelsOf(parts, names);
            l in all && ((forall j :: i < j < |parts| ==> LabelName(names[j], j) != l) ==> all[l] == parts[i])
  {
    var n := |parts| - 1;
    if i < n {
      LabelsCarry(parts[..n], names, i);
      assert parts[..n][i] == parts[i];
    }
  }

  /** There are no other labels. */
  lemma {:induction false} LabelsOnly(parts: seq<string>, names: seq<string>, k: string)
    requires |parts| <= |names| && k in LabelsOf(parts, names)
    ensures exists j :: 0 <= j < |parts| && k == LabelName(names[j], j)
  {
    var n := |parts| - 1;
    if k != LabelName(names[n], n) { LabelsOnly(parts[..n], names, k); }
  }

  method GroupKey(results: seq<Option<string>>, names: seq<string>) returns (ok: bool, key: string, group: Labels)
    requires |results| <= |names|
    ensures ok == Values(results).Some?
    ensures ok ==> key == KeyOf(Values(results).value) && |Values(results).value| == |results|
    ensures ok ==> group == LabelsFor(results, names)
    ensures results == [] ==> ok && key == "_" && group == map["group" := "_"]
  {
    key, group := "", map[];
    if results == [] { return true, "_", map["group" := "_"]; }
    var parts: seq<string> := [];
    for i := 0 to |results|
      invariant |parts| == i && Values(results[..i]) == Some(parts)
      invariant group == LabelsOf(parts, names)
    {
      assert results[..i + 1][..i] == results[..i];
      if results[i].None? {
        FailsOn(results, i);
        return false, "", map[];
      }
      assert (parts + [results[i].value])[..i] == parts;
      group := group[LabelName(names[i], i) := results[i].value];
      parts := parts + [results[i].value];
    }
    assert results[..|results|] == results;
    return true, Join(parts), group;
  }

  lemma {:induction false} FailsOn(results: seq<Option<string>>, i: nat)
    requires i < |results| && results[i].None?
    ensures Values(results).None?
  {
    if i < |results| - 1 { FailsOn(results[..|results| - 1], i); }
  }

  ghost predicate NoBars(parts: seq<string>) { forall i :: 0 <= i < |parts| ==> '|' !in parts[i] }

  /** No other group of as many parts has this key. */
  ghost predicate Unmistakable(a: seq<string>) {
    forall b: seq<string> :: |b| == |a| && Join(b) == Join(a) ==> b == a
  }

  function Bars(s: string): nat { if s == [] then 0 else Bars(s[1..]) + (if s[0] == '|' then 1 else 0) }

  function AllBars(parts: seq<string>): nat { if parts == [] then 0 else Bars(parts[0]) + AllBars(parts[1..]) }

  lemma {:induction false} BarsConcat(s: string, t: string)
    ensures Bars(s + t) == Bars(s) + Bars(t)
  {
    if s == [] {
      assert s + t == t;
    } else {
      assert (s + t)[1..] == s[1..] + t;
      BarsConcat(s[1..], t);
    }
  }

  lemma {:induction false} NoneIsZero(s: string)
    ensures Bars(s) == 0 <==> '|' !in s
  {
    if s != [] {
      NoneIsZero(s[1..]);
      assert s == [s[0]] + s[1..];
    }
  }

  lemma {:induction false} NoBarsIsZero(parts: seq<string>)
    ensures AllBars(parts) == 0 <==> NoBars(parts)
  {
    if parts != [] {
      NoBarsIsZero(parts[1..]);
      NoneIsZero(parts[0]);
      assert NoBars(parts) <==> '|' !in parts[0] && NoBars(parts[1..]) by {
        assert forall i :: 1 <= i < |parts| ==> parts[i] == parts[1..][i - 1];
      }
    }
  }

  /** The key has the bars of its parts and one between each two. */
  lemma {:induction false} JoinBars(parts: seq<string>)
    requires parts != []
    ensures Bars(Join(parts)) == AllBars(parts) + |parts| - 1
  {
    if |parts| > 1 {
      JoinBars(parts[1..]);
      BarsConcat(parts[0] + "|", Join(parts[1..]));
      BarsConcat(parts[0], "|");
      assert Bars("|") == 1 by { assert "|"[1..] == ""; }
    } else {
      assert parts[1..] == [];
    }
  }

  /** Between lists without bars the key decides. */
  lemma {:induction false} KeyInjective(a: seq<string>, b: seq<string>)
    requires |a| == |b| && NoBars(a) && NoBars(b) && Join(a) == Join(b)
    ensures a == b
  {
    if |a| > 1 {
      var s, t := a[0] + "|" + Join(a[1..]), b[0] + "|" + Join(b[1..]);
      assert s[|a[0]|] == '|' && t[|b[0]|] == '|';
      assert s[..|a[0]|] == a[0] && t[..|b[0]|] == b[0];
      assert s[|a[0]| + 1..] == Join(a[1..]) && t[|b[0]| + 1..] == Join(b[1..]);
      KeyInjective(a[1..], b[1..]);
      assert a == [a[0]] + a[1..] && b == [b[0]] + b[1..];
    }
  }

  lemma NoBarsUnmistakable(a: seq<string>)
    requires NoBars(a)
    ensures Unmistakable(a)
  {
    forall b: seq<string> | |b| == |a| && Join(b) == Join(a) ensures b == a {
      if a != [] {
        JoinBars(a);
        JoinBars(b);
        NoBarsIsZero(a);
        NoBarsIsZero(b);
        KeyInjective(a, b);
      }
    }
  }

  lemma {:induction false} JoinFront(p: seq<string>, q: seq<string>)
    requires q != []
    ensures Join(p + q) == if p == [] then Join(q) else Join(p) + "|" + Join(q)
  {
    if p == [] {
      assert p + q == q;
    } else {
      assert (p + q)[0] == p[0] && (p + q)[1..] == p[1..] + q;
      JoinFront(p[1..], q);
      Split(p[0], if |p| == 1 then "" else Join(p[1..]), Join(q));
    }
  }

  lemma Split(x: string, y: string, z: string)
    ensures x + "|" + (y + "|" + z) == x + "|" + y + "|" + z
  {}

  lemma SwapFront(u: seq<string>, v: seq<string>, q: seq<string>)
    requires u != [] && v != [] && Join(u) == Join(v)
    ensures Join(u + q) == Join(v + q)
  {
    if q == [] {
      assert u + q == u && v + q == v;
    } else {
      JoinFront(u, q);
      JoinFront(v, q);
    }
  }

  /** Replacing neighbouring parts by others with the same key keeps the whole key. */
  lemma SwapParts(p: seq<string>, u: seq<string>, v: seq<string>, q: seq<string>)
    requires u != [] && v != [] && Join(u) == Join(v)
    ensures Join(p + (u + q)) == Join(p + (v + q))
  {
    SwapFront(u, v, q);
    JoinFront(p, u + q);
    JoinFront(p, v + q);
  }

  lemma JoinTwo(x: string, y: string)
    ensures Join([x, y]) == x + "|" + y
  {
    assert [x, y][1..] == [y];
  }

  /** A part with a bar gives the bar, and what is on its far side, to a neighbour. */
  lemma BarMoves(a: seq<string>, i: nat) returns (b: seq<string>)
    requires i < |a| && |a| >= 2 && '|' in a[i]
    ensures |b| == |a| && Join(b) == Join(a) && b != a
  {
    var k :| 0 <= k < |a[i]| && a[i][k] == '|';
    var x, y := a[i][..k], a[i][k + 1..];
    assert a[i] == x + "|" + y;
    var n := if i + 1 < |a| then i else i - 1;
    var u := [a[n], a[n + 1]];
    var v := if n == i then [x, y + "|" + a[n + 1]] else [a[n] + "|" + x, y];
    JoinTwo(u[0], u[1]);
    JoinTwo(v[0], v[1]);
    assert Join(u) == Join(v) by {
      if n == i { Split(x, y, a[n + 1]); } else { Split(a[n], x, y); }
    }
    assert a == a[..n] + (u + a[n + 2..]);
    b := a[..n] + (v + a[n + 2..]);
    SwapParts(a[..n], u, v, a[n + 2..]);
    assert b[n] == v[0] && |v[0]| != |a[n]|;
  }

  /** A group's key is its own exactly if it has one part only, or no bar in any. */
  lemma KeyTellsApart(a: seq<string>)
    ensures Unmistakable(a) <==> |a| <= 1 || NoBars(a)
  {
    if |a| == 1 {
      forall b: seq<string> | |b| == |a| && Join(b) == Join(a) ensures b == a { assert b == [b[0]] && a == [a[0]]; }
    } else if NoBars(a) {
      NoBarsUnmistakable(a);
    } else {
      var i :| 0 <= i < |a| && '|' in a[i];
      var b := BarMoves(a, i);
    }
  }

  // ---------- Totals ----------

  /** The values emitted for a window and key, summed, and how many there are. */
  function Total(ms: seq<Metric>, w: int, k: string): real {
    if ms == [] then 0.0
    else Total(ms[..|ms| - 1], w, k) + (if ms[|ms| - 1].window == w && ms[|ms| - 1].key == k then ms[|ms| - 1].value else 0.0)
  }

  function Times(ms: seq<Metric>, w: int, k: string): nat {
    if ms == [] then 0
    else Times(ms[..|ms| - 1], w, k) + (if ms[|ms| - 1].window == w && ms[|ms| - 1].key == k then 1 else 0)
  }

  /** The batch result: the values of all events of a window and key, summed. */
  function Batch(es: seq<Entry>, w: int, k: string): real {
    if es == [] then 0.0
    else Batch(es[..|es| - 1], w, k) + (if es[|es| - 1].window == w && KeyOf(es[|es| - 1].parts) == k then es[|es| - 1].value else 0.0)
  }

  predicate Seen(es: seq<Entry>, w: int, k: string) {
    es != [] && ((es[|es| - 1].window == w && KeyOf(es[|es| - 1].parts) == k) || Seen(es[..|es| - 1], w, k))
  }

  lemma MetricSnoc(ms: seq<Metric>, m: Metric, w: int, k: string)
    ensures Total(ms + [m], w, k) == Total(ms, w, k) + (if m.window == w && m.key == k then m.value else 0.0)
    ensures Times(ms + [m], w, k) == Times(ms, w, k) + (if m.window == w && m.key == k then 1 else 0)
  {
    assert (ms + [m])[..|ms|] == ms;
  }

  lemma {:induction false} MetricConcat(a: seq<Metric>, b: seq<Metric>, w: int, k: string)
    ensures Total(a + b, w, k) == Total(a, w, k) + Total(b, w, k)
    ensures Times(a + b, w, k) == Times(a, w, k) + Times(b, w, k)
  {
    if b == [] {
      assert a + b == a;
    } else {
      var front, z := b[..|b| - 1], b[|b| - 1];
      assert a + b == (a + front) + [z] && b == front + [z];
      MetricSnoc(a + front, z, w, k);
      MetricConcat(a, front, w, k);
    }
  }

  lemma EntrySnoc(es: seq<Entry>, e: Entry, w: int, k: string)
    ensures Batch(es + [e], w, k) == Batch(es, w, k) + (if e.window == w && KeyOf(e.parts) == k then e.value else 0.0)
    ensures Seen(es + [e], w, k) <==> Seen(es, w, k) || (e.window == w && KeyOf(e.parts) == k)
  {
    assert (es + [e])[..|es|] == es;
  }

  // ---------- The streaming state against the batch ----------

  /** The running value of the open window. */
  function Open(state: map<string, real>, wstart: int, w: int, k: string): real {
    if w == wstart && k in state then state[k] else 0.0
  }

  function Plus(state: map<string, real>, k: string, v: real): real { (if k in state then state[k] else 0.0) + v }

  /** One metric for every key of the open window, in any order. */
  ghost predicate Reports(list: seq<Metric>, state: map<string, real>, wstart: int) {
    && (forall i :: 0 <= i < |list| ==> list[i].window == wstart && list[i].key in state)
    && (forall w: int, k: string :: Total(list, w, k) == Open(state, wstart, w, k))
    && (forall w: int, k: string :: Times(list, w, k) == if w == wstart && k in state then 1 else 0)
  }

  /** Every metric carries the labels stored for its key. */
  ghost predicate Labelled(list: seq<Metric>, groups: map<string, Labels>) {
    list == []
    || (var m := list[|list| - 1]; m.key in groups && m.group == groups[m.key] && Labelled(list[..|list| - 1], groups))
  }

  /** What is emitted and what is running add up to the batch result, for every window and key. */
  ghost predicate Conserves(emitted: seq<Metric>, state: map<string, real>, wstart: int, added: seq<Entry>) {
    forall w: int, k: string :: Total(emitted, w, k) + Open(state, wstart, w, k) == Batch(added, w, k)
  }

  ghost predicate Climbing(es: seq<Entry>) {
    es == [] || (Climbing(es[..|es| - 1]) && (|es| == 1 || es[|es| - 2].window <= es[|es| - 1].window))
  }

  /** While time does not go back: closed windows lie before the open one, and each window and key seen is
      emitted once or running. */
  ghost predicate OnceEach(emitted: seq<Metric>, state: map<string, real>, wstart: int, added: seq<Entry>) {
    && (added == [] ==> state == map[] && emitted == [])
    && (added != [] ==> wstart == added[|added| - 1].window)
    && (forall i :: 0 <= i < |emitted| ==> emitted[i].window < wstart)
    && (forall w: int, k: string ::
          Times(emitted, w, k) + (if w == wstart && k in state then 1 else 0) == if Seen(added, w, k) then 1 else 0)
  }

  /** Closing the open window: its report takes the place of the running values. */
  lemma CloseConserves(emitted: seq<Metric>, list: seq<Metric>, state: map<string, real>, wstart: int, next: int, added: seq<Entry>)
    requires Conserves(emitted, state, wstart, added) && Reports(list, state, wstart)
    ensures Conserves(emitted + list, map[], next, added)
  {
    forall w: int, k: string ensures Total(emitted + list, w, k) + Open(map[], next, w, k) == Batch(added, w, k) {
      MetricConcat(emitted, list, w, k);
    }
  }

  lemma AddConserves(emitted: seq<Metric>, state: map<string, real>, wstart: int, added: seq<Entry>, parts: seq<string>, v: real)
    requires Conserves(emitted, state, wstart, added)
    ensures Conserves(emitted, state[KeyOf(parts) := Plus(state, KeyOf(parts), v)], wstart, added + [Entry(wstart, parts, v)])
  {
    var key := KeyOf(parts);
    forall w: int, k: string
      ensures Total(emitted, w, k) + Open(state[key := Plus(state, key, v)], wstart, w, k) == Batch(added + [Entry(wstart, parts, v)], w, k)
    {
      EntrySnoc(added, Entry(wstart, parts, v), w, k);
      OpenGrows(state, wstart, key, v, w, k);
      assert Total(emitted, w, k) + Open(state, wstart, w, k) == Batch(added, w, k);
    }
  }

  lemma OpenGrows(state: map<string, real>, wstart: int, key: string, v: real, w: int, k: string)
    ensures Open(state[key := Plus(state, key, v)], wstart, w, k)
            == Open(state, wstart, w, k) + (if w == wstart && k == key then v else 0.0)
  {}

  lemma {:induction false} NothingFrom(ms: seq<Metric>, w: int, k: string)
    requires forall i :: 0 <= i < |ms| ==> ms[i].window < w
    ensures Times(ms, w, k) == 0
  {
    if ms != [] { NothingFrom(ms[..|ms| - 1], w, k); }
  }

  /** Closing the open window for a later one. */
  lemma CloseOnce(emitted: seq<Metric>, list: seq<Metric>, state: map<string, real>, wstart: int, added: seq<Entry>, w: int, k: string)
    requires OnceEach(emitted, state, wstart, added) && Reports(list, state, wstart)
    ensures Times(emitted + list, w, k) == if Seen(added, w, k) then 1 else 0
  {
    MetricConcat(emitted, list, w, k);
  }

  lemma ClosedOnce(emitted: seq<Metric>, list: seq<Metric>, state: map<string, real>, wstart: int, added: seq<Entry>)
    requires OnceEach(emitted, state, wstart, added) && Reports(list, state, wstart)
    ensures SeenOnce(emitted + list, added)
  {
    forall w: int, k: string ensures Times(emitted + list, w, k) == if Seen(added, w, k) then 1 else 0 {
      CloseOnce(emitted, list, state, wstart, added, w, k);
    }
  }

  /** Each window and key seen was emitted exactly once, and no other. */
  ghost predicate SeenOnce(emitted: seq<Metric>, added: seq<Entry>) {
    forall w: int, k: string :: Times(emitted, w, k) == if Seen(added, w, k) then 1 else 0
  }

  /** Per window and key, the emitted values sum to the batch result. */
  ghost predicate SumsToBatch(emitted: seq<Metric>, added: seq<Entry>) {
    forall w: int, k: string :: Total(emitted, w, k) == Batch(added, w, k)
  }

  lemma ConservedTotal(emitted: seq<Metric>, wstart: int, added: seq<Entry>)
    requires Conserves(emitted, map[], wstart, added)
    ensures SumsToBatch(emitted, added)
  {
    forall w: int, k: string ensures Total(emitted, w, k) == Batch(added, w, k) {
      assert Total(emitted, w, k) + Open(map[], wstart, w, k) == Batch(added, w, k);
    }
  }

  lemma NextWindowOnce(emitted: seq<Metric>, list: seq<Metric>, state: map<string, real>, wstart: int, added: seq<Entry>,
                       next: int, parts: seq<string>, v: real)
    requires OnceEach(emitted, state, wstart, added) && Reports(list, state, wstart)
    requires next != wstart && (added != [] ==> wstart < next)
    ensures OnceEach(emitted + list, map[KeyOf(parts) := v], next, added + [Entry(next, parts, v)])
  {
    var all, es := emitted + list, added + [Entry(next, parts, v)];
    forall i | 0 <= i < |all| ensures all[i].window < next {
      if added == [] { EmptyReport(list, state, wstart); }
    }
    forall w: int, k: string ensures Times(all, w, k) + (if w == next && k in map[KeyOf(parts) := v] then 1 else 0) == if Seen(es, w, k) then 1 else 0 {
      CloseOnce(emitted, list, state, wstart, added, w, k);
      EntrySnoc(added, Entry(next, parts, v), w, k);
      if w == next { NothingFrom(all, w, k); }
    }
  }

  lemma EmptyReport(list: seq<Metric>, state: map<string, real>, wstart: int)
    requires Reports(list, state, wstart)
    ensures state == map[] ==> list == []
  {
    if list != [] { assert list[0].key in state; }
  }

  lemma SameWindowOnce(emitted: seq<Metric>, state: map<string, real>, wstart: int, added: seq<Entry>, parts: seq<string>, v: real, x: real)
    requires OnceEach(emitted, state, wstart, added)
    ensures OnceEach(emitted, state[KeyOf(parts) := x], wstart, added + [Entry(wstart, parts, v)])
  {
    var next, es := state[KeyOf(parts) := x], added + [Entry(wstart, parts, v)];
    forall w: int, k: string ensures Times(emitted, w, k) + (if w == wstart && k in next then 1 else 0) == if Seen(es, w, k) then 1 else 0 {
      EntrySnoc(added, Entry(wstart, parts, v), w, k);
      if w == wstart { NothingFrom(emitted, w, k); }
    }
  }

  // ---------- Groups that share a key ----------

  /** The batch result of a group itself, whatever its key. */
  function GroupBatch(es: seq<Entry>, w: int, parts: seq<string>): real {
    if es == [] then 0.0
    else
      GroupBatch(es[..|es| - 1], w, parts)
      + (if es[|es| - 1].window == w && es[|es| - 1].parts == parts then es[|es| - 1].value else 0.0)
  }

  /** All events have as many group values as there are group expressions. */
  ghost predicate Arity(es: seq<Entry>, n: nat) { forall i :: 0 <= i < |es| ==> |es[i].parts| == n }

  lemma {:induction false} UnmistakableTotal(es: seq<Entry>, w: int, g: seq<string>)
    requires Arity(es, |g|) && Unmistakable(g)
    ensures Batch(es, w, KeyOf(g)) == GroupBatch(es, w, g)
  {
    if es != [] {
      UnmistakableTotal(es[..|es| - 1], w, g);
      var z := es[|es| - 1].parts;
      assert KeyOf(z) == KeyOf(g) <==> z == g;
    }
  }

  lemma BatchOfOne(e: Entry, w: int, k: string, g: seq<string>)
    ensures Batch([e], w, k) == if e.window == w && KeyOf(e.parts) == k then e.value else 0.0
    ensures GroupBatch([e], w, g) == if e.window == w && e.parts == g then e.value else 0.0
  {
    assert [e][..0] == [];
  }

  /** Another group with the same key, alone, is taken for g. */
  lemma MistakenTotal(g: seq<string>, b: seq<string>) returns (es: seq<Entry>)
    requires |b| == |g| >= 1 && Join(b) == Join(g) && b != g
    ensures Arity(es, |g|) && Batch(es, 0, KeyOf(g)) == 1.0 && GroupBatch(es, 0, g) == 0.0
  {
    es := [Entry(0, b, 1.0)];
    BatchOfOne(es[0], 0, KeyOf(g), g);
  }

  /** What is handed out under a group's key is that group's own sum, for every run of events, exactly if the
      group has one value only or no bar in any. */
  lemma GroupTotalsExact(g: seq<string>)
    ensures (forall es: seq<Entry>, w: int :: Arity(es, |g|) ==> Batch(es, w, KeyOf(g)) == GroupBatch(es, w, g))
            <==> |g| <= 1 || NoBars(g)
  {
    KeyTellsApart(g);
    if |g| <= 1 || NoBars(g) {
      forall es: seq<Entry>, w: int | Arity(es, |g|) ensures Batch(es, w, KeyOf(g)) == GroupBatch(es, w, g) {
        UnmistakableTotal(es, w, g);
      }
    } else {
      var b: seq<string> :| |b| == |g| && Join(b) == Join(g) && b != g;
      var es := MistakenTotal(g, b);
    }
  }

  /** Every group without a bar, or of one value, gets its own sum. */
  ghost predicate GroupsKept(out: seq<Metric>, added: seq<Entry>) {
    forall w: int, g: seq<string> :: Arity(added, |g|) && (|g| <= 1 || NoBars(g)) ==> Total(out, w, KeyOf(g)) == GroupBatch(added, w, g)
  }

  lemma SumsKeepGroups(out: seq<Metric>, added: seq<Entry>)
    requires SumsToBatch(out, added)
    ensures GroupsKept(out, added)
  {
    forall w: int, g: seq<string> | Arity(added, |g|) && (|g| <= 1 || NoBars(g)) ensures Total(out, w, KeyOf(g)) == GroupBatch(added, w, g) {
      KeyTellsApart(g);
      UnmistakableTotal(added, w, g);
    }
  }

  /** The running state of a window, and while time does not go back and nothing was flushed for good, what
      was seen once. */
  ghost predicate Keeps(emitted: seq<Metric>, state: map<string, real>, wstart: int, added: seq<Entry>, closed: bool) {
    Conserves(emitted, state, wstart, added) && (Climbing(added) && !closed ==> OnceEach(emitted, state, wstart, added))
  }

  lemma ClimbingFront(added: seq<Entry>, e: Entry)
    requires Climbing(added + [e])
    ensures Climbing(added) && (added != [] ==> added[|added| - 1].window <= e.window)
  {
    assert (added + [e])[..|added|] == added;
  }

  /** An event of another window, the open one having been reported. */
  lemma RolledKeeps(emitted: seq<Metric>, list: seq<Metric>, was: map<string, real>, before: int, ws: int, added: seq<Entry>,
                    parts: seq<string>, v: real, closed: bool)
    requires Keeps(emitted, was, before, added, closed) && Reports(list, was, before) && ws != before
    ensures Keeps(emitted + list, map[][KeyOf(parts) := Plus(map[], KeyOf(parts), v)], ws, added + [Entry(ws, parts, v)], closed)
  {
    CloseConserves(emitted, list, was, before, ws, added);
    AddConserves(emitted + list, map[], ws, added, parts, v);
    if Climbing(added + [Entry(ws, parts, v)]) && !closed {
      ClimbingFront(added, Entry(ws, parts, v));
      NextWindowOnce(emitted, list, was, before, added, ws, parts, v);
    }
  }

  /** An event of the open window. */
  lemma SameKeeps(emitted: seq<Metric>, state: map<string, real>, ws: int, added: seq<Entry>, parts: seq<string>, v: real, closed: bool)
    requires Keeps(emitted, state, ws, added, closed)
    ensures Keeps(emitted, state[KeyOf(parts) := Plus(state, KeyOf(parts), v)], ws, added + [Entry(ws, parts, v)], closed)
  {
    AddConserves(emitted, state, ws, added, parts, v);
    if Climbing(added + [Entry(ws, parts, v)]) && !closed {
      ClimbingFront(added, Entry(ws, parts, v));
      SameWindowOnce(emitted, state, ws, added, parts, v, Plus(state, KeyOf(parts), v));
    }
  }

  // ---------- The aggregator ----------

  /** CountAgg and SumAgg: a counter adds 1 for every event. `added` and `out` are the events counted and
      the metrics handed out so far, `closed` says whether FinalFlush was called. */
  class WindowAgg {
    const width: int
    var state: map<string, real>
    var groups: map<string, Labels>
    var wstart: int
    var ready: seq<Metric>
    ghost var added: seq<Entry>
    ghost var out: seq<Metric>
    ghost var closed: bool

    ghost predicate Valid()
      reads this
    {
      && state.Keys == groups.Keys
      && Keeps(out + ready, state, wstart, added, closed)
    }

    /** `now` is the clock's reading; the window it falls in is open first, and empty. */
    constructor (now: int, d: int)
      ensures Valid() && added == [] && out == [] && !closed && width == d
    {
      width, state, groups, wstart, ready := d, map[], map[], WindowStart(now, d), [];
      added, out, closed := [], [], false;
    }

    /** One metric for every key of the open window, in the map's order. */
    method Report() returns (list: seq<Metric>)
      requires state.Keys == groups.Keys
      ensures Reports(list, state, wstart)
      ensures Labelled(list, groups)
    {
      list := [];
      var todo := state.Keys;
      ghost var done: map<string, real> := map[];
      while exists k :: k in todo
        invariant todo <= state.Keys && done.Keys == state.Keys - todo
        invariant forall k :: k in done ==> done[k] == state[k]
        invariant Reports(list, done, wstart)
        invariant Labelled(list, groups)
        decreases |todo|
      {
        var k :| k in todo;
        var m := Metric(wstart, k, groups[k], state[k]);
        ReportOne(list, done, wstart, m);
        assert (list + [m])[..|list|] == list;
        list := list + [m];
        done := done[k := state[k]];
        todo := todo - {k};
      }
      assert todo == {};
      assert done == state;
    }

    method Add(t: int, results: seq<Option<string>>, names: seq<string>, value: Option<real>) returns (ok: bool)
      requires Valid() && |results| <= |names|
      modifies this
      ensures Valid() && closed == old(closed) && out == old(out)
      ensures ok <==> Values(results).Some? && value.Some?
      ensures ok ==> added == old(added) + [Entry(WindowStart(t, width), Values(results).value, value.value)]
      ensures ok ==> var parts := Values(results).value;
                     |parts| <= |names| && KeyOf(parts) in groups && groups[KeyOf(parts)] == LabelsFor(results, names)
      ensures !ok ==> added == old(added) && state == old(state) && ready == old(ready) && wstart == old(wstart)
    {
      var fine, key, group := GroupKey(results, names);
      if !fine || value.None? { return false; }
      Record(WindowStart(t, width), key, value.value, group, Values(results).value);
      return true;
    }

    /** emit, and a new empty window. */
    method Roll(ws: int) returns (ghost list: seq<Metric>)
      requires state.Keys == groups.Keys
      modifies this`ready, this`wstart, this`state, this`groups
      ensures Reports(list, old(state), old(wstart)) && ready == old(ready) + list
      ensures wstart == ws && state == map[] && groups == map[]
    {
      var metrics := Report();
      list := metrics;
      ready := ready + metrics;
      wstart, state, groups := ws, map[], map[];
    }

    /** Add behind its two evaluations. */
    method Record(ws: int, key: string, v: real, group: Labels, ghost parts: seq<string>)
      requires Valid() && key == KeyOf(parts)
      modifies this
      ensures Valid() && closed == old(closed) && out == old(out)
      ensures added == old(added) + [Entry(ws, parts, v)] && key in groups && groups[key] == group
    {
      ghost var emitted := out + ready;
      ghost var was, before := state, wstart;
      if ws != wstart {
        ghost var list := Roll(ws);
        assert out + ready == emitted + list;
        RolledKeeps(emitted, list, was, before, ws, added, parts, v, closed);
      } else {
        SameKeeps(emitted, was, ws, added, parts, v, closed);
      }
      state := state[key := Plus(state, key, v)];
      groups := groups[key := group];
      added := added + [Entry(ws, parts, v)];
    }

    /** The metrics of closed windows; the open window goes on. */
    method Flush() returns (list: seq<Metric>)
      requires Valid()
      modifies this`ready, this`out
      ensures Valid() && list == old(ready) && ready == [] && out == old(out) + list
    {
      list := ready;
      ready := [];
      out := out + list;
      assert out + ready == out;
    }

    /** Everything that is left. All metrics handed out then sum to the batch result, and with time never
        going back each window and key seen was emitted exactly once. */
    method FinalFlush() returns (list: seq<Metric>)
      requires Valid()
      modifies this
      ensures Valid() && state == map[] && ready == [] && out == old(out) + list && added == old(added) && closed
      ensures SumsToBatch(out, added) && GroupsKept(out, added)
      ensures Climbing(added) && !old(closed) ==> SeenOnce(out, added)
      ensures old(state) == map[] && old(ready) == [] ==> list == []
    {
      var last := Report();
      ghost var emitted := out + ready;
      CloseConserves(emitted, last, state, wstart, wstart, added);
      ConservedTotal(emitted + last, wstart, added);
      SumsKeepGroups(emitted + last, added);
      EmptyReport(last, state, wstart);
      if Climbing(added) && !closed { ClosedOnce(emitted, last, state, wstart, added); }
      list := ready + last;
      ready, state, groups, closed := [], map[], map[], true;
      out := out + list;
      assert out + ready == out && out == emitted + last;
    }
  }

  lemma ReportOne(list: seq<Metric>, done: map<string, real>, wstart: int, m: Metric)
    requires Reports(list, done, wstart) && m.window == wstart && m.key !in done
    ensures Reports(list + [m], done[m.key := m.value], wstart)
  {
    forall w: int, k: string
      ensures Total(list + [m], w, k) == Open(done[m.key := m.value], wstart, w, k)
      ensures Times(list + [m], w, k) == if w == wstart && k in done[m.key := m.value] then 1 else 0
    {
      MetricSnoc(list, m, w, k);
    }
  }

  /** Two events of different groups counted under one key: FinalFlush hands out 2 for it. */
  method BarMergesGroups() returns (out: seq<Metric>)
    ensures Total(out, 0, KeyOf(["a|b", "c"])) == 2.0
  {
    var a, b := [Some("a|b"), Some("c")], [Some("a"), Some("b|c")];
    var agg := new WindowAgg(0, 10);
    ValuesOfTwo("a|b", "c");
    ValuesOfTwo("a", "b|c");
    SameKey();
    var first := agg.Add(1, a, ["x", "y"], Some(1.0));
    var second := agg.Add(2, b, ["x", "y"], Some(1.0));
    ghost var e, f := Entry(0, ["a|b", "c"], 1.0), Entry(0, ["a", "b|c"], 1.0);
    assert agg.added == [e] + [f];
    EntrySnoc([e], f, 0, KeyOf(e.parts));
    BatchOfOne(e, 0, KeyOf(e.parts), e.parts);
    out := agg.FinalFlush();
    assert agg.out == out;
  }

  lemma ValuesSnoc(rs: seq<Option<string>>, x: string)
    requires Values(rs).Some?
    ensures Values(rs + [Some(x)]) == Some(Values(rs).value + [x])
  {
    assert (rs + [Some(x)])[..|rs|] == rs;
  }

  lemma ValuesOfTwo(x: string, y: string)
    ensures Values([Some(x), Some(y)]) == Some([x, y])
  {
    ValuesSnoc([], x);
    ValuesSnoc([] + [Some(x)], y);
    assert [] + [Some(x)] + [Some(y)] == [Some(x), Some(y)] && [] + [x] + [y] == [x, y];
  }

  lemma SameKey()
    ensures KeyOf(["a|b", "c"]) == KeyOf(["a", "b|c"])
  {
    JoinTwo("a|b", "c");
    JoinTwo("a", "b|c");
    assert "a|b" + "|" + "c" == "a" + "|" + "b|c";
  }
}
