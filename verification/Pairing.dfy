/** Pairing of requests and responses in one flow (cmd/gt-mcp/trace_helpers.go:125-296, pkg/decode/fields.go:112-119). */
module Pairing {
  import opened Util

  datatype Direction = ToServer | ToClient | Unknown

  /** `index` is the position the message believes it has; `time` counts in the unit of the windows. */
  datatype Message = Message(index: nat, name: string, direction: Direction, push: bool, time: int)

  datatype Rule = ByName | ByTime | Unpaired

  /** A request and its response, by position (the noise filter makes every index the position). */
  datatype Pair = Pair(request: nat, response: Option<nat>, rule: Rule)

  // ---------- Names ----------

  predicate EndsWith(s: string, t: string) { |t| <= |s| && s[|s| - |t|..] == t }

  function Trim(s: string, t: string): string
    requires |t| <= |s|
  {
    s[..|s| - |t|]
  }

  /** The first of the four endings that fits is cut off. */
  function Base(name: string): string {
    if EndsWith(name, "Req") then Trim(name, "Req")
    else if EndsWith(name, "Resp") then Trim(name, "Resp")
    else if EndsWith(name, "Request") then Trim(name, "Request")
    else if EndsWith(name, "Response") then Trim(name, "Response")
    else name
  }

  /** A name without one of the endings is its own base; with one it is its base and that ending, so a request
      and its response, whichever endings they use, share the base and no other names do. */
  lemma BaseExactly(name: string, b: string)
    ensures Base(name) == b <==>
              || name == b + "Req" || name == b + "Resp" || name == b + "Request" || name == b + "Response"
              || (name == b && !EndsWith(b, "Req") && !EndsWith(b, "Resp") && !EndsWith(b, "Request") && !EndsWith(b, "Response"))
  {
    Cut(name, b, "Req");
    Cut(name, b, "Resp");
    Cut(name, b, "Request");
    Cut(name, b, "Response");
    OneEnding(name);
  }

  lemma Cut(name: string, b: string, t: string)
    ensures name == b + t <==> EndsWith(name, t) && Trim(name, t) == b
  {
    if EndsWith(name, t) { assert name == Trim(name, t) + t; }
    if name == b + t { assert name[|name| - |t|..] == t && name[..|name| - |t|] == b; }
  }

  /** The last letter tells "Req" and "Resp" apart from each other and the rest, the last but four the rest. */
  lemma OneEnding(name: string)
    ensures EndsWith(name, "Req") ==> !EndsWith(name, "Resp") && !EndsWith(name, "Request") && !EndsWith(name, "Response")
    ensures EndsWith(name, "Resp") ==> !EndsWith(name, "Request") && !EndsWith(name, "Response")
    ensures EndsWith(name, "Request") ==> !EndsWith(name, "Response")
  {
    LastIs(name, "Req");
    LastIs(name, "Resp");
    LastIs(name, "Request");
    LastIs(name, "Response");
  }

  lemma LastIs(name: string, t: string)
    requires t != []
    ensures EndsWith(name, t) ==> name[|name| - 1] == t[|t| - 1]
  {
    if EndsWith(name, t) { assert name[|name| - |t|..][|t| - 1] == t[|t| - 1]; }
  }

  function Lower(s: string): string {
    if s == [] then []
    else [if 'A' <= s[0] <= 'Z' then s[0] - 'A' + 'a' else s[0]] + Lower(s[1..])
  }

  predicate Contains(s: string, t: string) {
    |t| <= |s| && (s[..|t|] == t || (s != [] && Contains(s[1..], t)))
  }

  predicate Heartbeat(name: string) {
    Contains(Lower(name), "heartbeat") || Contains(Lower(name), "ping") || Contains(Lower(name), "pong")
  }

  predicate OccursAt(s: string, t: string, i: nat) { i + |t| <= |s| && s[i..i + |t|] == t }

  lemma {:induction false} ContainsExactly(s: string, t: string)
    ensures Contains(s, t) <==> exists i: nat :: OccursAt(s, t, i)
  {
    if |t| <= |s| && s != [] {
      var u := s[1..];
      ContainsExactly(u, t);
      assert s[..|t|] == t <==> OccursAt(s, t, 0);
      forall i: nat ensures OccursAt(u, t, i) <==> OccursAt(s, t, i + 1) {
        if i + |t| <= |u| { assert u[i..i + |t|] == s[i + 1..i + 1 + |t|]; }
      }
      if i: nat :| OccursAt(s, t, i) && i > 0 { assert OccursAt(u, t, i - 1); }
      if i: nat :| OccursAt(u, t, i) { assert OccursAt(s, t, i + 1); }
    } else if |t| <= |s| {
      assert OccursAt(s, t, 0);
    }
  }

  lemma {:induction false} LowerAt(s: string)
    ensures |Lower(s)| == |s|
    ensures forall i :: 0 <= i < |s| ==> Lower(s)[i] == if 'A' <= s[i] <= 'Z' then s[i] - 'A' + 'a' else s[i]
  {
    if s != [] { LowerAt(s[1..]); }
  }

  ghost predicate Occurs(s: string, t: string) { exists i: nat :: OccursAt(s, t, i) }

  /** A heartbeat has one of three words in its name, in capitals or not. */
  lemma HeartbeatExactly(name: string)
    ensures var low := Lower(name); Heartbeat(name) <==> Occurs(low, "heartbeat") || Occurs(low, "ping") || Occurs(low, "pong")
  {
    ContainsExactly(Lower(name), "heartbeat");
    ContainsExactly(Lower(name), "ping");
    ContainsExactly(Lower(name), "pong");
  }

  // ---------- The noise filter ----------

  datatype Noise = Noise(dropNames: seq<string>, dropHeartbeats: bool)

  predicate IsNoise(m: Message, cfg: Noise) { m.name in cfg.dropNames || (cfg.dropHeartbeats && Heartbeat(m.name)) }

  /** What is left, renumbered. */
  function Cleaned(ms: seq<Message>, cfg: Noise): seq<Message> {
    if ms == [] then []
    else
      var front, z := Cleaned(ms[..|ms| - 1], cfg), ms[|ms| - 1];
      if IsNoise(z, cfg) then front else front + [z.(index := |front|)]
  }

  ghost predicate Indexed(ms: seq<Message>) { forall i :: 0 <= i < |ms| ==> ms[i].index == i }

  lemma {:induction false} CleanedIndexed(ms: seq<Message>, cfg: Noise)
    ensures Indexed(Cleaned(ms, cfg)) && forall i :: 0 <= i < |Cleaned(ms, cfg)| ==> !IsNoise(Cleaned(ms, cfg)[i], cfg)
  {
    if ms != [] { CleanedIndexed(ms[..|ms| - 1], cfg); }
  }

  /** What is left are exactly the messages whose name is not to be dropped and that are no heartbeats to be
      dropped, in order, and nothing of them changes but the index. */
  lemma {:induction false} CleanedExactly(ms: seq<Message>, cfg: Noise) returns (at: seq<nat>)
    ensures |at| == |Cleaned(ms, cfg)| && (forall k, l :: 0 <= k < l < |at| ==> at[k] < at[l])
    ensures forall i: nat :: i in at <==> i < |ms| && ms[i].name !in cfg.dropNames && !(cfg.dropHeartbeats && Heartbeat(ms[i].name))
    ensures forall k :: 0 <= k < |at| ==> at[k] < |ms| && Cleaned(ms, cfg)[k] == ms[at[k]].(index := k)
  {
    at := [];
    if ms != [] {
      var n := |ms| - 1;
      at := CleanedExactly(ms[..n], cfg);
      forall k | 0 <= k < |at| ensures at[k] < n { assert at[k] in at; }
      if !IsNoise(ms[n], cfg) { at := at + [n]; }
    }
  }

  method ApplyNoiseFilter(ms: seq<Message>, cfg: Noise) returns (kept: seq<Message>)
    ensures kept == Cleaned(ms, cfg)
  {
    var filtered: seq<Message> := [];
    for k := 0 to |ms|
      invariant Renumbered(filtered) == Cleaned(ms[..k], cfg)
    {
      assert ms[..k + 1][..k] == ms[..k];
      var drop := false;
      for n := 0 to |cfg.dropNames|
        invariant drop == (ms[k].name in cfg.dropNames[..n])
      {
        if ms[k].name == cfg.dropNames[n] { drop := true; }
      }
      assert cfg.dropNames[..|cfg.dropNames|] == cfg.dropNames;
      if cfg.dropHeartbeats && Heartbeat(ms[k].name) { drop := true; }
      if !drop {
        RenumberedSnoc(filtered, ms[k]);
        filtered := filtered + [ms[k]];
      }
    }
    assert ms[..|ms|] == ms;
    kept := filtered;
    for i := 0 to |kept|
      invariant |kept| == |filtered|
      invariant forall j :: 0 <= j < |kept| ==> kept[j] == if j < i then filtered[j].(index := j) else filtered[j]
    {
      kept := kept[i := kept[i].(index := i)];
    }
    assert kept == Renumbered(filtered);
  }

  ghost function Renumbered(ms: seq<Message>): (r: seq<Message>)
    ensures |r| == |ms| && forall i :: 0 <= i < |ms| ==> r[i] == ms[i].(index := i)
  {
    seq(|ms|, i requires 0 <= i < |ms| => ms[i].(index := i))
  }

  lemma RenumberedSnoc(ms: seq<Message>, x: Message)
    ensures Renumbered(ms + [x]) == Renumbered(ms) + [x.(index := |ms|)]
  {}

  // ---------- Stage one: by name ----------

  predicate Asks(m: Message) { m.direction.ToServer? && !m.push }

  predicate Answers(m: Message) { m.direction.ToClient? && !m.push }

  predicate SameName(req: Message, resp: Message) { Base(req.name) == Base(resp.name) && Base(req.name) != req.name }

  /** From `j` on, the first answer not used yet with the request's name; an unused answer outside the window
      ends the search. */
  function FindByName(ms: seq<Message>, req: Message, j: nat, used: set<nat>, w: int): Option<nat>
    decreases |ms| - j
  {
    if j >= |ms| then None
    else if j in used || !Answers(ms[j]) then FindByName(ms, req, j + 1, used, w)
    else if ms[j].time - req.time > w then None
    else if SameName(req, ms[j]) then Some(j)
    else FindByName(ms, req, j + 1, used, w)
  }

  lemma {:induction false} FoundByName(ms: seq<Message>, req: Message, j: nat, used: set<nat>, w: int)
    ensures var r := FindByName(ms, req, j, used, w);
            r.Some? ==> && j <= r.value < |ms| && r.value !in used && Answers(ms[r.value])
                        && ms[r.value].time - req.time <= w && SameName(req, ms[r.value])
    decreases |ms| - j
  {
    if j < |ms| { FoundByName(ms, req, j + 1, used, w); }
  }

  /** The pairs of the first k messages and the responses they use. */
  function NamePairs(ms: seq<Message>, k: nat, w: int): (seq<Pair>, set<nat>)
    requires k <= |ms|
  {
    if k == 0 then ([], {})
    else
      var (pairs, used) := NamePairs(ms, k - 1, w);
      if !Asks(ms[k - 1]) then (pairs, used)
      else
        var r := FindByName(ms, ms[k - 1], k, used, w);
        if r.None? then (pairs, used) else (pairs + [Pair(k - 1, r, ByName)], used + {r.value})
  }

  method PairByMsgName(ms: seq<Message>, w: int) returns (pairs: seq<Pair>)
    ensures pairs == NamePairs(ms, |ms|, w).0
  {
    pairs := [];
    var used: set<nat> := {};
    for i := 0 to |ms|
      invariant (pairs, used) == NamePairs(ms, i, w)
    {
      if !Asks(ms[i]) { continue; }
      var base := Base(ms[i].name);
      var found := None;
      var j := i + 1;
      while j < |ms|
        invariant i + 1 <= j && found.None?
        invariant FindByName(ms, ms[i], i + 1, used, w) == FindByName(ms, ms[i], j, used, w)
        decreases |ms| - j
      {
        if j in used || !Answers(ms[j]) {
          j := j + 1;
          continue;
        }
        if ms[j].time - ms[i].time > w { break; }
        if base == Base(ms[j].name) && base != ms[i].name {
          found := Some(j);
          break;
        }
        j := j + 1;
      }
      if found.Some? {
        pairs := pairs + [Pair(i, found, ByName)];
        used := used + {found.value};
      }
    }
  }

  // ---------- Stage two: by direction and time ----------

  /** The nearest answer from `j` on, the earliest among equally near ones, up to the first one outside the
      window. */
  function FindByTime(ms: seq<Message>, req: Message, j: nat, best: Option<nat>, w: int): Option<nat>
    requires best.Some? ==> best.value < |ms|
    decreases |ms| - j
  {
    if j >= |ms| then best
    else if !Answers(ms[j]) then FindByTime(ms, req, j + 1, best, w)
    else if ms[j].time - req.time > w then best
    else FindByTime(ms, req, j + 1, if best.None? || ms[j].time < ms[best.value].time then Some(j) else best, w)
  }

  function Requests(pairs: seq<Pair>): set<nat> { set p | p in pairs :: p.request }

  function TimePairs(ms: seq<Message>, done: set<nat>, k: nat, w: int): seq<Pair>
    requires k <= |ms|
  {
    if k == 0 then []
    else
      var front := TimePairs(ms, done, k - 1, w);
      if k - 1 in done || !Asks(ms[k - 1]) then front
      else
        var r := FindByTime(ms, ms[k - 1], k, None, w);
        if r.None? then front else front + [Pair(k - 1, r, ByTime)]
  }

  method PairedRequests(pairs: seq<Pair>) returns (paired: set<nat>)
    ensures paired == Requests(pairs)
  {
    paired := {};
    for i := 0 to |pairs|
      invariant paired == Requests(pairs[..i])
    {
      assert pairs[..i + 1] == pairs[..i] + [pairs[i]];
      paired := paired + {pairs[i].request};
    }
    assert pairs[..|pairs|] == pairs;
  }

  method PairByDirection(ms: seq<Message>, pairs: seq<Pair>, w: int) returns (all: seq<Pair>)
    ensures all == pairs + TimePairs(ms, Requests(pairs), |ms|, w)
  {
    var paired := PairedRequests(pairs);
    all := pairs;
    for i := 0 to |ms|
      invariant all == pairs + TimePairs(ms, paired, i, w)
    {
      if i in paired || !Asks(ms[i]) { continue; }
      var best: Option<nat> := None;
      var j := i + 1;
      while j < |ms|
        invariant i + 1 <= j && (best.Some? ==> best.value < |ms|)
        invariant FindByTime(ms, ms[i], i + 1, None, w) == FindByTime(ms, ms[i], j, best, w)
        decreases |ms| - j
      {
        if !Answers(ms[j]) {
          j := j + 1;
          continue;
        }
        if ms[j].time - ms[i].time > w { break; }
        if best.None? || ms[j].time - ms[i].time < ms[best.value].time - ms[i].time { best := Some(j); }
        j := j + 1;
      }
      if best.Some? { all := all + [Pair(i, best, ByTime)]; }
    }
  }

  // ---------- Stage three: the rest ----------

  function Leftovers(ms: seq<Message>, done: set<nat>, k: nat): seq<Pair>
    requires k <= |ms|
  {
    if k == 0 then []
    else
      var front := Leftovers(ms, done, k - 1);
      if k - 1 in done || !Asks(ms[k - 1]) then front else front + [Pair(k - 1, None, Unpaired)]
  }

  /** `warned` lists the requests reported as uncertain. */
  method FinalizePairs(ms: seq<Message>, pairs: seq<Pair>) returns (all: seq<Pair>, warned: seq<nat>)
    ensures all == pairs + Leftovers(ms, Requests(pairs), |ms|)
    ensures warned == Asked(Leftovers(ms, Requests(pairs), |ms|))
  {
    var paired := PairedRequests(pairs);
    all, warned := pairs, [];
    for i := 0 to |ms|
      invariant all == pairs + Leftovers(ms, paired, i)
      invariant warned == Asked(Leftovers(ms, paired, i))
    {
      if i in paired || !Asks(ms[i]) { continue; }
      all := all + [Pair(i, None, Unpaired)];
      warned := warned + [i];
    }
  }

  ghost function Asked(pairs: seq<Pair>): (r: seq<nat>)
    ensures |r| == |pairs| && forall i :: 0 <= i < |pairs| ==> r[i] == pairs[i].request
  {
    seq(|pairs|, i requires 0 <= i < |pairs| => pairs[i].request)
  }

  // ---------- Every request exactly once ----------

  function Suffixed(ms: seq<Message>, w: int): seq<Pair> { NamePairs(ms, |ms|, w).0 }

  function Directed(ms: seq<Message>, w: int): seq<Pair> {
    Suffixed(ms, w) + TimePairs(ms, Requests(Suffixed(ms, w)), |ms|, w)
  }

  /** The three stages one after the other. */
  function AllPairs(ms: seq<Message>, w: int): seq<Pair> {
    Directed(ms, w) + Leftovers(ms, Requests(Directed(ms, w)), |ms|)
  }

  /** How often `i` is the request of a pair. */
  function Uses(pairs: seq<Pair>, i: nat): nat {
    if pairs == [] then 0
    else Uses(pairs[..|pairs| - 1], i) + (if pairs[|pairs| - 1].request == i then 1 else 0)
  }

  lemma UsesSnoc(a: seq<Pair>, p: Pair, i: nat)
    ensures Uses(a + [p], i) == Uses(a, i) + (if p.request == i then 1 else 0)
  {
    assert (a + [p])[..|a|] == a;
  }

  lemma {:induction false} UsesConcat(a: seq<Pair>, b: seq<Pair>, i: nat)
    ensures Uses(a + b, i) == Uses(a, i) + Uses(b, i)
  {
    if b == [] {
      assert a + b == a;
    } else {
      var front, z := b[..|b| - 1], b[|b| - 1];
      assert a + b == (a + front) + [z] && b == front + [z];
      UsesSnoc(a + front, z, i);
      UsesConcat(a, front, i);
    }
  }

  lemma {:induction false} UsedIsRequest(a: seq<Pair>, i: nat)
    ensures Uses(a, i) > 0 <==> i in Requests(a)
  {
    if a != [] {
      var front, z := a[..|a| - 1], a[|a| - 1];
      assert a == front + [z];
      UsedIsRequest(front, i);
      assert Requests(a) == Requests(front) + {z.request};
    }
  }

  lemma {:induction false} NameUses(ms: seq<Message>, k: nat, w: int, i: nat)
    requires k <= |ms|
    ensures var u := Uses(NamePairs(ms, k, w).0, i); u <= 1 && (u == 1 ==> i < k && Asks(ms[i]))
  {
    if k > 0 {
      NameUses(ms, k - 1, w, i);
      var (pairs, used) := NamePairs(ms, k - 1, w);
      UsesSnoc(pairs, Pair(k - 1, FindByName(ms, ms[k - 1], k, used, w), ByName), i);
    }
  }

  lemma {:induction false} TimeUses(ms: seq<Message>, done: set<nat>, k: nat, w: int, i: nat)
    requires k <= |ms|
    ensures Uses(TimePairs(ms, done, k, w), i)
            == if i < k && i !in done && Asks(ms[i]) && FindByTime(ms, ms[i], i + 1, None, w).Some? then 1 else 0
  {
    if k > 0 {
      TimeUses(ms, done, k - 1, w, i);
      UsesSnoc(TimePairs(ms, done, k - 1, w), Pair(k - 1, FindByTime(ms, ms[k - 1], k, None, w), ByTime), i);
    }
  }

  lemma {:induction false} LeftUses(ms: seq<Message>, done: set<nat>, k: nat, i: nat)
    requires k <= |ms|
    ensures Uses(Leftovers(ms, done, k), i) == if i < k && i !in done && Asks(ms[i]) then 1 else 0
  {
    if k > 0 {
      LeftUses(ms, done, k - 1, i);
      UsesSnoc(Leftovers(ms, done, k - 1), Pair(k - 1, None, Unpaired), i);
    }
  }

  lemma DirectedUses(ms: seq<Message>, w: int, i: nat)
    ensures var u := Uses(Directed(ms, w), i); u <= 1 && (u == 1 ==> i < |ms| && Asks(ms[i]))
  {
    NameUses(ms, |ms|, w, i);
    TimeUses(ms, Requests(Suffixed(ms, w)), |ms|, w, i);
    UsedIsRequest(Suffixed(ms, w), i);
    UsesConcat(Suffixed(ms, w), TimePairs(ms, Requests(Suffixed(ms, w)), |ms|, w), i);
  }

  /** Every message from the client that is not a push is the request of exactly one pair, and nothing else
      is. */
  lemma EveryRequestOnce(ms: seq<Message>, w: int, i: nat)
    ensures Uses(AllPairs(ms, w), i) == if i < |ms| && ms[i].direction == ToServer && !ms[i].push then 1 else 0
  {
    DirectedUses(ms, w, i);
    UsedIsRequest(Directed(ms, w), i);
    LeftUses(ms, Requests(Directed(ms, w)), |ms|, i);
    UsesConcat(Directed(ms, w), Leftovers(ms, Requests(Directed(ms, w)), |ms|), i);
  }

  // ---------- What the responses are ----------

  /** A later answer within the window. */
  ghost predicate Eligible(ms: seq<Message>, i: nat, j: nat, w: int) {
    i < j < |ms| && ms[j].direction == ToClient && !ms[j].push && ms[j].time - ms[i].time <= w
  }

  ghost predicate Fits(ms: seq<Message>, p: Pair, w: int) {
    && p.request < |ms| && ms[p.request].direction == ToServer && !ms[p.request].push
    && (p.rule.Unpaired? <==> p.response.None?)
    && (p.response.Some? ==> Eligible(ms, p.request, p.response.value, w))
    && (p.rule.ByName? ==>
          Base(ms[p.request].name) == Base(ms[p.response.value].name) && Base(ms[p.request].name) != ms[p.request].name)
  }

  lemma {:induction false} NameFits(ms: seq<Message>, k: nat, w: int)
    requires k <= |ms|
    ensures forall n :: 0 <= n < |NamePairs(ms, k, w).0| ==> Fits(ms, NamePairs(ms, k, w).0[n], w) && NamePairs(ms, k, w).0[n].rule.ByName?
  {
    if k > 0 {
      NameFits(ms, k - 1, w);
      FoundByName(ms, ms[k - 1], k, NamePairs(ms, k - 1, w).1, w);
    }
  }

  /** Up to position `to` every answer after request i is within the window. */
  ghost predicate Reached(ms: seq<Message>, i: nat, to: int, w: int)
    requires i < |ms|
  {
    forall k :: i < k < to && k < |ms| && Answers(ms[k]) ==> ms[k].time - ms[i].time <= w
  }

  /** An answer that comes before the first one outside the window. */
  ghost predicate Considered(ms: seq<Message>, i: nat, j: nat, w: int)
    requires i < |ms|
  {
    i < j < |ms| && Answers(ms[j]) && Reached(ms, i, j + 1, w)
  }

  ghost predicate Nearer(ms: seq<Message>, x: nat, k: nat)
    requires x < |ms| && k < |ms|
  {
    ms[x].time < ms[k].time || (ms[x].time == ms[k].time && x <= k)
  }

  /** `best` is the nearest answer between i and j. */
  ghost predicate BestBefore(ms: seq<Message>, i: nat, j: nat, best: Option<nat>)
    requires i < j <= |ms|
  {
    && (best.Some? ==> i < best.value < j && Answers(ms[best.value]))
    && (forall k :: i < k < j && Answers(ms[k]) ==> best.Some? && Nearer(ms, best.value, k))
  }

  /** No answer considered, or the nearest of those considered and the earliest among equally near ones. */
  ghost predicate Chosen(ms: seq<Message>, i: nat, r: Option<nat>, w: int)
    requires i < |ms|
  {
    if r.None? then forall k: nat :: !Considered(ms, i, k, w)
    else Considered(ms, i, r.value, w) && forall k: nat :: Considered(ms, i, k, w) ==> Nearer(ms, r.value, k)
  }

  lemma {:induction false} FoundByTime(ms: seq<Message>, i: nat, j: nat, best: Option<nat>, w: int)
    requires i < j <= |ms| && Reached(ms, i, j, w) && BestBefore(ms, i, j, best)
    ensures Chosen(ms, i, FindByTime(ms, ms[i], j, best, w), w)
    decreases |ms| - j
  {
    if j < |ms| && (!Answers(ms[j]) || ms[j].time - ms[i].time <= w) {
      var next := if Answers(ms[j]) && (best.None? || ms[j].time < ms[best.value].time) then Some(j) else best;
      FoundByTime(ms, i, j + 1, next, w);
    }
  }

  /** The choice by time, for messages in any order: none exactly if no answer comes before the first one
      outside the window; otherwise the nearest of those, the earliest among equals. */
  lemma NearestAnswer(ms: seq<Message>, i: nat, w: int)
    requires i < |ms|
    ensures Chosen(ms, i, FindByTime(ms, ms[i], i + 1, None, w), w)
  {
    FoundByTime(ms, i, i + 1, None, w);
  }

  lemma {:induction false} TimeFits(ms: seq<Message>, done: set<nat>, k: nat, w: int)
    requires k <= |ms|
    ensures forall n :: 0 <= n < |TimePairs(ms, done, k, w)| ==>
              Fits(ms, TimePairs(ms, done, k, w)[n], w) && TimePairs(ms, done, k, w)[n].rule.ByTime?
  {
    if k > 0 {
      TimeFits(ms, done, k - 1, w);
      NearestAnswer(ms, k - 1, w);
    }
  }

  lemma {:induction false} LeftFits(ms: seq<Message>, done: set<nat>, k: nat, w: int)
    requires k <= |ms|
    ensures forall n :: 0 <= n < |Leftovers(ms, done, k)| ==>
              Fits(ms, Leftovers(ms, done, k)[n], w) && Leftovers(ms, done, k)[n].rule.Unpaired?
  {
    if k > 0 { LeftFits(ms, done, k - 1, w); }
  }

  /** Every response comes after its request, is no push, is within the window, and for a pair by name has the
      request's base name. */
  lemma ResponsesFit(ms: seq<Message>, w: int)
    ensures forall n :: 0 <= n < |AllPairs(ms, w)| ==> Fits(ms, AllPairs(ms, w)[n], w)
  {
    NameFits(ms, |ms|, w);
    TimeFits(ms, Requests(Suffixed(ms, w)), |ms|, w);
    LeftFits(ms, Requests(Directed(ms, w)), |ms|, w);
  }

  ghost predicate Unshared(pairs: seq<Pair>, used: set<nat>) {
    && (forall n :: 0 <= n < |pairs| ==> pairs[n].response.Some? && pairs[n].response.value in used)
    && (forall m, n :: 0 <= m < n < |pairs| ==> pairs[m].response != pairs[n].response)
  }

  /** No two pairs by name share a response. */
  lemma {:induction false} NameResponsesDistinct(ms: seq<Message>, k: nat, w: int)
    requires k <= |ms|
    ensures Unshared(NamePairs(ms, k, w).0, NamePairs(ms, k, w).1)
  {
    if k > 0 {
      NameResponsesDistinct(ms, k - 1, w);
      FoundByName(ms, ms[k - 1], k, NamePairs(ms, k - 1, w).1, w);
    }
  }

  // ---------- When a request stays unpaired ----------

  ghost predicate Chronological(ms: seq<Message>) { forall i, j :: 0 <= i < j < |ms| ==> ms[i].time <= ms[j].time }

  /** With messages in order of time the choice is the first answer, if that is within the window. */
  lemma {:induction false} FirstAnswer(ms: seq<Message>, i: nat, j: nat, w: int)
    requires Chronological(ms) && i < j <= |ms| && forall k :: i < k < j ==> !Answers(ms[k])
    ensures var r := FindByTime(ms, ms[i], j, None, w);
            && (r.None? <==> forall k :: i < k < |ms| ==> !Eligible(ms, i, k, w))
            && (r.Some? ==> Eligible(ms, i, r.value, w) && forall k :: i < k < r.value ==> !Answers(ms[k]))
    decreases |ms| - j
  {
    if j < |ms| {
      if !Answers(ms[j]) {
        FirstAnswer(ms, i, j + 1, w);
      } else if ms[j].time - ms[i].time <= w {
        assert Eligible(ms, i, j, w);
        BestStays(ms, i, j, j + 1, w);
      }
    }
  }

  lemma {:induction false} BestStays(ms: seq<Message>, i: nat, best: nat, j: nat, w: int)
    requires Chronological(ms) && best < j <= |ms|
    ensures i < |ms| ==> FindByTime(ms, ms[i], j, Some(best), w) == Some(best)
    decreases |ms| - j
  {
    if j < |ms| { BestStays(ms, i, best, j + 1, w); }
  }

  /** The response x already went to an earlier request by name. */
  ghost predicate Taken(ms: seq<Message>, w: int, i: nat, x: nat) {
    exists r: nat :: r < i && Pair(r, Some(x), ByName) in AllPairs(ms, w)
  }

  /** What the name stage can give request i: an answer of its name, not taken, before the first answer that
      is outside the window and not taken. */
  ghost predicate Candidate(ms: seq<Message>, w: int, i: nat, j: nat)
    requires i < |ms|
  {
    && i < j < |ms| && ms[j].direction == ToClient && !ms[j].push && !Taken(ms, w, i, j)
    && Base(ms[i].name) == Base(ms[j].name) && Base(ms[i].name) != ms[i].name
    && (forall k :: i < k <= j && ms[k].direction == ToClient && !ms[k].push && !Taken(ms, w, i, k) ==> ms[k].time - ms[i].time <= w)
  }

  lemma {:induction false} NamePrefix(ms: seq<Message>, k: nat, n: nat, w: int)
    requires k <= n <= |ms|
    ensures var a, b := NamePairs(ms, k, w).0, NamePairs(ms, n, w).0;
            a <= b && (forall p :: p in b <==> p in a || (p in b && p.request >= k)) && (forall p :: p in a ==> p.request < k)
  {
    if n > 0 {
      if k < n { NamePrefix(ms, k, n - 1, w); } else { NamePrefix(ms, k - 1, n - 1, w); }
    }
  }

  lemma {:induction false} UsedAreResponses(ms: seq<Message>, k: nat, w: int)
    requires k <= |ms|
    ensures forall x :: x in NamePairs(ms, k, w).1 <==>
              exists r: nat :: r < k && Pair(r, Some(x), ByName) in NamePairs(ms, k, w).0
  {
    if k > 0 {
      UsedAreResponses(ms, k - 1, w);
      NamePrefix(ms, k - 1, k - 1, w);
      var (a, used) := NamePairs(ms, k - 1, w);
      var (b, all) := NamePairs(ms, k, w);
      forall x ensures x in all <==> exists r: nat :: r < k && Pair(r, Some(x), ByName) in b {
        if x in used {
          var r: nat :| r < k - 1 && Pair(r, Some(x), ByName) in a;
          assert Pair(r, Some(x), ByName) in b;
        } else if x in all {
          assert Pair(k - 1, Some(x), ByName) in b;
        }
      }
    }
  }

  lemma OnlyNameStageIsByName(ms: seq<Message>, w: int, p: Pair)
    requires p.rule.ByName?
    ensures p in AllPairs(ms, w) <==> p in Suffixed(ms, w)
  {
    TimeFits(ms, Requests(Suffixed(ms, w)), |ms|, w);
    LeftFits(ms, Requests(Directed(ms, w)), |ms|, w);
  }

  lemma TakenIsUsed(ms: seq<Message>, w: int, i: nat, x: nat)
    requires i <= |ms|
    ensures Taken(ms, w, i, x) <==> x in NamePairs(ms, i, w).1
  {
    UsedAreResponses(ms, i, w);
    NamePrefix(ms, i, |ms|, w);
    forall r: nat | r < i ensures Pair(r, Some(x), ByName) in AllPairs(ms, w) <==> Pair(r, Some(x), ByName) in NamePairs(ms, i, w).0 {
      OnlyNameStageIsByName(ms, w, Pair(r, Some(x), ByName));
    }
  }

  /** Every answer before j that is not taken is within the window and of another name. */
  ghost predicate PassedOver(ms: seq<Message>, i: nat, j: nat, used: set<nat>, w: int)
    requires i < |ms|
  {
    forall k :: i < k < j && k < |ms| && Answers(ms[k]) && k !in used ==> ms[k].time - ms[i].time <= w && !SameName(ms[i], ms[k])
  }

  lemma {:induction false} FirstByName(ms: seq<Message>, i: nat, j: nat, used: set<nat>, w: int)
    requires i < j <= |ms| && PassedOver(ms, i, j, used, w)
    ensures var r := FindByName(ms, ms[i], j, used, w);
            && (r.Some? ==> j <= r.value < |ms| && PassedOver(ms, i, r.value, used, w))
            && (r.None? ==> PassedOver(ms, i, |ms|, used, w)
                            || exists k :: i < k < |ms| && Answers(ms[k]) && k !in used && ms[k].time - ms[i].time > w && PassedOver(ms, i, k, used, w))
    decreases |ms| - j
  {
    if j < |ms| && (j in used || !Answers(ms[j]) || (ms[j].time - ms[i].time <= w && !SameName(ms[i], ms[j]))) {
      FirstByName(ms, i, j + 1, used, w);
    }
  }

  /** What is a candidate by name when the responses in `used` are taken. */
  ghost predicate Open(ms: seq<Message>, i: nat, j: nat, used: set<nat>, w: int)
    requires i < |ms|
  {
    && i < j < |ms| && Answers(ms[j]) && j !in used && SameName(ms[i], ms[j])
    && (forall k :: i < k <= j && Answers(ms[k]) && k !in used ==> ms[k].time - ms[i].time <= w)
  }

  lemma SearchIsLeast(ms: seq<Message>, i: nat, used: set<nat>, w: int)
    requires i < |ms|
    ensures var f := FindByName(ms, ms[i], i + 1, used, w);
            && (f.Some? ==> Open(ms, i, f.value, used, w) && forall k: nat :: k < f.value ==> !Open(ms, i, k, used, w))
            && (f.None? ==> forall k: nat :: !Open(ms, i, k, used, w))
  {
    FirstByName(ms, i, i + 1, used, w);
    FoundByName(ms, ms[i], i + 1, used, w);
  }

  lemma {:induction false} NameMember(ms: seq<Message>, k: nat, w: int, i: nat, r: Option<nat>)
    requires k <= |ms|
    ensures Pair(i, r, ByName) in NamePairs(ms, k, w).0 <==>
              i < k && Asks(ms[i]) && r.Some? && r == FindByName(ms, ms[i], i + 1, NamePairs(ms, i, w).1, w)
  {
    if k > 0 {
      NameMember(ms, k - 1, w, i, r);
      NamePrefix(ms, k - 1, k - 1, w);
    }
  }

  /** The name stage gives a request its first candidate, and no pair exactly if there is none. */
  lemma FirstCandidateByName(ms: seq<Message>, w: int, i: nat, j: nat)
    requires i < |ms| && Asks(ms[i])
    ensures Pair(i, Some(j), ByName) in AllPairs(ms, w) <==>
              Candidate(ms, w, i, j) && forall k: nat :: k < j ==> !Candidate(ms, w, i, k)
  {
    var used := NamePairs(ms, i, w).1;
    forall x: nat ensures Taken(ms, w, i, x) <==> x in used { TakenIsUsed(ms, w, i, x); }
    OnlyNameStageIsByName(ms, w, Pair(i, Some(j), ByName));
    NameMember(ms, |ms|, w, i, Some(j));
    SearchIsLeast(ms, i, used, w);
    forall k: nat ensures Candidate(ms, w, i, k) <==> Open(ms, i, k, used, w) {}
  }

  /** The first answer after request i. */
  ghost predicate FirstAfter(ms: seq<Message>, i: nat, j: nat) {
    i < j < |ms| && ms[j].direction == ToClient && !ms[j].push && forall k :: i < k < j ==> ms[k].direction != ToClient || ms[k].push
  }

  /** Whatever the order of the messages, a request stays unpaired exactly if it has no candidate by name and
      the first answer after it, if there is one, is outside the window. */
  lemma UnpairedExactly(ms: seq<Message>, w: int, i: nat)
    requires i < |ms| && ms[i].direction == ToServer && !ms[i].push
    ensures Pair(i, None, Unpaired) in AllPairs(ms, w) <==>
              && (forall j: nat :: !Candidate(ms, w, i, j))
              && (forall j: nat :: FirstAfter(ms, i, j) ==> ms[j].time - ms[i].time > w)
  {
    var a := Suffixed(ms, w);
    var b := Directed(ms, w);
    TimeUses(ms, Requests(a), |ms|, w, i);
    UsesConcat(a, TimePairs(ms, Requests(a), |ms|, w), i);
    UsedIsRequest(a, i);
    UsedIsRequest(b, i);
    LeftMember(ms, Requests(b), |ms|, i);
    NoneInDirected(ms, w, i);
    NamedHasCandidate(ms, w, i);
    NearestAnswer(ms, i, w);
    ConsideredIsFirst(ms, i, w);
  }

  lemma NamedHasCandidate(ms: seq<Message>, w: int, i: nat)
    requires i < |ms| && Asks(ms[i])
    ensures i in Requests(Suffixed(ms, w)) <==> exists j: nat :: Candidate(ms, w, i, j)
  {
    var a := Suffixed(ms, w);
    NameFits(ms, |ms|, w);
    if i in Requests(a) {
      var p :| p in a && p.request == i;
      assert p == Pair(i, Some(p.response.value), ByName);
      OnlyNameStageIsByName(ms, w, p);
      FirstCandidateByName(ms, w, i, p.response.value);
    }
    if exists j: nat :: Candidate(ms, w, i, j) {
      var j: nat :| Candidate(ms, w, i, j);
      var f := LeastCandidate(ms, w, i, j);
      FirstCandidateByName(ms, w, i, f);
      OnlyNameStageIsByName(ms, w, Pair(i, Some(f), ByName));
    }
  }

  lemma {:induction false} LeastCandidate(ms: seq<Message>, w: int, i: nat, j: nat) returns (f: nat)
    requires i < |ms| && Candidate(ms, w, i, j)
    ensures Candidate(ms, w, i, f) && forall k: nat :: k < f ==> !Candidate(ms, w, i, k)
    decreases j
  {
    if k: nat :| k < j && Candidate(ms, w, i, k) { f := LeastCandidate(ms, w, i, k); } else { f := j; }
  }

  /** Some answer is considered exactly if the first one is within the window. */
  lemma ConsideredIsFirst(ms: seq<Message>, i: nat, w: int)
    requires i < |ms|
    ensures (exists j: nat :: Considered(ms, i, j, w)) <==> exists j: nat :: FirstAfter(ms, i, j) && ms[j].time - ms[i].time <= w
  {
    if exists j: nat :: Considered(ms, i, j, w) {
      var j: nat :| Considered(ms, i, j, w);
      var f := LeastAnswer(ms, i, j);
      assert FirstAfter(ms, i, f) && ms[f].time - ms[i].time <= w;
    }
    if exists j: nat :: FirstAfter(ms, i, j) && ms[j].time - ms[i].time <= w {
      var j: nat :| FirstAfter(ms, i, j) && ms[j].time - ms[i].time <= w;
      assert Considered(ms, i, j, w);
    }
  }

  lemma {:induction false} LeastAnswer(ms: seq<Message>, i: nat, j: nat) returns (f: nat)
    requires i < j < |ms| && Answers(ms[j])
    ensures f <= j && FirstAfter(ms, i, f)
    decreases j
  {
    if k: nat :| i < k < j && Answers(ms[k]) { f := LeastAnswer(ms, i, k); } else { f := j; }
  }

  /** With messages in order of time a request is left unpaired exactly if no answer within the window
      follows it. */
  lemma UnpairedIffNoneEligible(ms: seq<Message>, w: int, i: nat)
    requires Chronological(ms) && i < |ms| && Asks(ms[i])
    ensures Pair(i, None, Unpaired) in AllPairs(ms, w) <==> forall j :: i < j < |ms| ==> !Eligible(ms, i, j, w)
  {
    UnpairedExactly(ms, w, i);
    forall j: nat | Candidate(ms, w, i, j) ensures Eligible(ms, i, j, w) {}
    forall j: nat | FirstAfter(ms, i, j) && ms[j].time - ms[i].time <= w ensures Eligible(ms, i, j, w) {}
    if j :| i < j < |ms| && Eligible(ms, i, j, w) {
      var f := LeastAnswer(ms, i, j);
      assert ms[f].time <= ms[j].time;
    }
  }

  lemma {:induction false} LeftMember(ms: seq<Message>, done: set<nat>, k: nat, i: nat)
    requires k <= |ms|
    ensures Pair(i, None, Unpaired) in Leftovers(ms, done, k) <==> i < k && i !in done && Asks(ms[i])
  {
    if k > 0 { LeftMember(ms, done, k - 1, i); }
  }

  lemma NoneInDirected(ms: seq<Message>, w: int, i: nat)
    ensures Pair(i, None, Unpaired) !in Directed(ms, w)
  {
    NameFits(ms, |ms|, w);
    TimeFits(ms, Requests(Suffixed(ms, w)), |ms|, w);
  }

  /** Out of order the search stops too early: the answer at 5 is never looked at behind the one at 100, and
      the request stays unpaired although that answer is eligible. */
  lemma OutOfOrderStaysUnpaired()
    ensures var ms := [Message(0, "a", ToServer, false, 0), Message(1, "b", ToClient, false, 100), Message(2, "c", ToClient, false, 5)];
            Eligible(ms, 0, 2, 10) && Pair(0, None, Unpaired) in AllPairs(ms, 10)
  {
    var ms := [Message(0, "a", ToServer, false, 0), Message(1, "b", ToClient, false, 100), Message(2, "c", ToClient, false, 5)];
    assert Base("a") == "a";
    assert Answers(ms[1]) && ms[1].time - ms[0].time > 10;
    UnpairedExactly(ms, 10, 0);
  }

  // ---------- Pushes ----------

  /** The messages to the client from `j` on that are nobody's response, up to the first message outside the
      window. */
  function Related(ms: seq<Message>, paired: set<nat>, start: int, j: nat, w: int): seq<nat>
    decreases |ms| - j
  {
    if j >= |ms| || ms[j].time - start > w then []
    else (if ms[j].direction.ToClient? && j !in paired then [j] else []) + Related(ms, paired, start, j + 1, w)
  }

  function After(ms: seq<Message>, paired: set<nat>, i: nat, w: int): seq<nat> {
    if i < |ms| then Related(ms, paired, ms[i].time, i + 1, w) else []
  }

  function Responses(pairs: seq<Pair>): set<nat> { set p | p in pairs && p.response.Some? :: p.response.value }

  /** The pushes found for request `i` by the first k pairs: each pair of that request adds its list. */
  function PushesOf(ms: seq<Message>, pairs: seq<Pair>, paired: set<nat>, k: nat, i: nat, w: int): seq<nat>
    requires k <= |pairs|
  {
    if k == 0 then []
    else
      var front := PushesOf(ms, pairs, paired, k - 1, i, w);
      if pairs[k - 1].request == i then front + After(ms, paired, i, w) else front
  }

  function Get(m: map<nat, seq<nat>>, i: nat): seq<nat> { if i in m then m[i] else [] }

  /** The map after the first k pairs. */
  function PushMap(ms: seq<Message>, pairs: seq<Pair>, paired: set<nat>, k: nat, w: int): map<nat, seq<nat>>
    requires k <= |pairs|
  {
    if k == 0 then map[]
    else
      var r := pairs[k - 1].request;
      Add(PushMap(ms, pairs, paired, k - 1, w), r, After(ms, paired, r, w))
  }

  function Add(m: map<nat, seq<nat>>, r: nat, found: seq<nat>): map<nat, seq<nat>> {
    if found == [] then m else m[r := Get(m, r) + found]
  }

  lemma AddGet(m: map<nat, seq<nat>>, r: nat, found: seq<nat>, i: nat)
    ensures Get(Add(m, r, found), i) == if r == i then Get(m, i) + found else Get(m, i)
  {
    if found == [] { assert Get(m, i) + found == Get(m, i); }
  }

  lemma {:induction false} PushMapLists(ms: seq<Message>, pairs: seq<Pair>, paired: set<nat>, k: nat, w: int, i: nat)
    requires k <= |pairs|
    ensures Get(PushMap(ms, pairs, paired, k, w), i) == PushesOf(ms, pairs, paired, k, i, w)
  {
    if k > 0 {
      var j: nat := k - 1;
      PushMapLists(ms, pairs, paired, j, w, i);
      var r := pairs[j].request;
      AddGet(PushMap(ms, pairs, paired, j, w), r, After(ms, paired, r, w), i);
      PushMapNext(ms, pairs, paired, j, w);
      PushesNext(ms, pairs, paired, j, w, i);
    }
  }

  lemma PushMapNext(ms: seq<Message>, pairs: seq<Pair>, paired: set<nat>, j: nat, w: int)
    requires j < |pairs|
    ensures var r := pairs[j].request;
            PushMap(ms, pairs, paired, j + 1, w) == Add(PushMap(ms, pairs, paired, j, w), r, After(ms, paired, r, w))
  {}

  lemma PushesNext(ms: seq<Message>, pairs: seq<Pair>, paired: set<nat>, j: nat, w: int, i: nat)
    requires j < |pairs|
    ensures var front := PushesOf(ms, pairs, paired, j, i, w);
            PushesOf(ms, pairs, paired, j + 1, i, w) == if pairs[j].request == i then front + After(ms, paired, i, w) else front
  {}

  method PairedResponses(pairs: seq<Pair>) returns (paired: set<nat>)
    ensures paired == Responses(pairs)
  {
    paired := {};
    for k := 0 to |pairs|
      invariant paired == Responses(pairs[..k])
    {
      assert pairs[..k + 1] == pairs[..k] + [pairs[k]];
      if pairs[k].response.Some? { paired := paired + {pairs[k].response.value}; }
    }
    assert pairs[..|pairs|] == pairs;
  }

  method IdentifyPushes(ms: seq<Message>, pairs: seq<Pair>, w: int) returns (pushes: map<nat, seq<nat>>)
    requires forall k :: 0 <= k < |pairs| ==> pairs[k].request < |ms|
    ensures pushes == PushMap(ms, pairs, Responses(pairs), |pairs|, w)
  {
    var paired := PairedResponses(pairs);
    pushes := map[];
    for k := 0 to |pairs|
      invariant pushes == PushMap(ms, pairs, paired, k, w)
    {
      var r := pairs[k].request;
      var found := PushesAfter(ms, paired, r, w);
      PushMapNext(ms, pairs, paired, k, w);
      pushes := Add(pushes, r, found);
    }
  }

  method PushesAfter(ms: seq<Message>, paired: set<nat>, i: nat, w: int) returns (found: seq<nat>)
    requires i < |ms|
    ensures found == Related(ms, paired, ms[i].time, i + 1, w)
  {
    found := [];
    var j := i + 1;
    while j < |ms|
      invariant i + 1 <= j
      invariant Related(ms, paired, ms[i].time, i + 1, w) == found + Related(ms, paired, ms[i].time, j, w)
      decreases |ms| - j
    {
      if ms[j].time - ms[i].time > w { break; }
      RelatedNext(ms, paired, ms[i].time, j, w, found);
      if ms[j].direction.ToClient? && j !in paired { found := found + [j]; }
      j := j + 1;
    }
  }

  lemma RelatedNext(ms: seq<Message>, paired: set<nat>, start: int, j: nat, w: int, found: seq<nat>)
    requires j < |ms| && ms[j].time - start <= w
    ensures found + Related(ms, paired, start, j, w)
            == (if ms[j].direction.ToClient? && j !in paired then found + [j] else found) + Related(ms, paired, start, j + 1, w)
  {
    assert [] + Related(ms, paired, start, j + 1, w) == Related(ms, paired, start, j + 1, w);
  }

  lemma {:induction false} RelatedUnpaired(ms: seq<Message>, paired: set<nat>, start: int, j: nat, w: int)
    ensures forall n :: 0 <= n < |Related(ms, paired, start, j, w)| ==>
              var x := Related(ms, paired, start, j, w)[n];
              j <= x < |ms| && x !in paired && ms[x].direction.ToClient? && ms[x].time - start <= w
    decreases |ms| - j
  {
    if j < |ms| && ms[j].time - start <= w { RelatedUnpaired(ms, paired, start, j + 1, w); }
  }

  lemma {:induction false} PushIsRelated(ms: seq<Message>, pairs: seq<Pair>, paired: set<nat>, k: nat, i: nat, w: int, x: nat)
    requires k <= |pairs| && x in PushesOf(ms, pairs, paired, k, i, w)
    ensures x in After(ms, paired, i, w)
  {
    if x in PushesOf(ms, pairs, paired, k - 1, i, w) { PushIsRelated(ms, pairs, paired, k - 1, i, w, x); }
  }

  /** No response of any pair is ever reported as a push, of whichever request; what is reported comes after
      the request, from the server and within the window. */
  lemma NoResponseIsPush(ms: seq<Message>, pairs: seq<Pair>, i: nat, w: int, x: nat)
    requires x in Get(PushMap(ms, pairs, Responses(pairs), |pairs|, w), i)
    ensures x !in Responses(pairs) && i < x < |ms| && ms[x].direction.ToClient? && ms[x].time - ms[i].time <= w
  {
    PushMapLists(ms, pairs, Responses(pairs), |pairs|, w, i);
    PushIsRelated(ms, pairs, Responses(pairs), |pairs|, i, w, x);
    RelatedUnpaired(ms, Responses(pairs), ms[i].time, i + 1, w);
  }

  lemma {:induction false} RelatedExactly(ms: seq<Message>, paired: set<nat>, start: int, j: nat, w: int, x: nat)
    ensures x in Related(ms, paired, start, j, w) <==>
              j <= x < |ms| && x !in paired && ms[x].direction == ToClient && forall k :: j <= k <= x ==> ms[k].time - start <= w
    decreases |ms| - j
  {
    if j < |ms| && ms[j].time - start <= w { RelatedExactly(ms, paired, start, j + 1, w, x); }
  }

  ghost predicate Rises(s: seq<nat>) {
    forall a, b :: 0 <= a < b < |s| ==> s[a] < s[b]
  }

  lemma RisesAfter(j: nat, rest: seq<nat>)
    requires Rises(rest) && forall x :: x in rest ==> j < x
    ensures Rises([j] + rest)
  {
    assert forall b :: 0 <= b < |rest| ==> rest[b] in rest;
  }

  lemma {:induction false} RelatedRises(ms: seq<Message>, paired: set<nat>, start: int, j: nat, w: int)
    ensures Rises(Related(ms, paired, start, j, w))
    decreases |ms| - j
  {
    if j < |ms| && ms[j].time - start <= w {
      RelatedRises(ms, paired, start, j + 1, w);
      var rest := Related(ms, paired, start, j + 1, w);
      forall x | x in rest ensures j < x { RelatedExactly(ms, paired, start, j + 1, w, x); }
      RisesAfter(j, rest);
      assert [] + rest == rest;
    }
  }

  lemma {:induction false} PushesOnce(ms: seq<Message>, pairs: seq<Pair>, paired: set<nat>, k: nat, i: nat, w: int)
    requires k <= |pairs| && Uses(pairs[..k], i) <= 1
    ensures PushesOf(ms, pairs, paired, k, i, w) == if Uses(pairs[..k], i) == 1 then After(ms, paired, i, w) else []
  {
    if k > 0 {
      assert pairs[..k][..k - 1] == pairs[..k - 1];
      PushesOnce(ms, pairs, paired, k - 1, i, w);
    }
  }

  /** For the pairs of one flow: the pushes reported for a request are exactly the messages to the client after
      it that are nobody's response, up to the first message outside the window, each once and in order; other
      messages have none. */
  lemma PushesExactly(ms: seq<Message>, w: int, window: int, i: nat, x: nat)
    ensures var pairs := AllPairs(ms, w);
            var r := Get(PushMap(ms, pairs, Responses(pairs), |pairs|, window), i);
            && (x in r <==>
                  && i < x < |ms| && ms[i].direction == ToServer && !ms[i].push
                  && (forall p :: p in pairs ==> p.response != Some(x)) && ms[x].direction == ToClient
                  && forall k :: i < k <= x ==> ms[k].time - ms[i].time <= window)
            && Rises(r)
  {
    var pairs := AllPairs(ms, w);
    PushMapLists(ms, pairs, Responses(pairs), |pairs|, window, i);
    EveryRequestOnce(ms, w, i);
    assert pairs[..|pairs|] == pairs;
    PushesOnce(ms, pairs, Responses(pairs), |pairs|, i, window);
    if i < |ms| {
      RelatedExactly(ms, Responses(pairs), ms[i].time, i + 1, window, x);
      RelatedRises(ms, Responses(pairs), ms[i].time, i + 1, window);
    }
    ResponsesAre(pairs, x);
  }

  lemma ResponsesAre(pairs: seq<Pair>, x: nat)
    ensures x in Responses(pairs) <==> exists p :: p in pairs && p.response == Some(x)
  {}
}
