/** The overflow queue in front of the decoder (cmd/gt-pipeline/pending_decode.go:27-83). */
module PendingQueues {

  /** `no` is the packet's place in the capture, `size` the length of its raw bytes. */
  datatype Packet = Packet(no: nat, size: nat)

  function Bytes(s: seq<Packet>): nat {
    if s == [] then 0 else s[0].size + Bytes(s[1..])
  }

  lemma {:induction false} BytesConcat(a: seq<Packet>, b: seq<Packet>)
    ensures Bytes(a + b) == Bytes(a) + Bytes(b)
  {
    if a == [] {
      assert a + b == b;
    } else {
      assert (a + b)[1..] == a[1..] + b;
      BytesConcat(a[1..], b);
    }
  }

  /** How many packets go when the queue is cut to `max` bytes, oldest first, the newest always staying. */
  function Excess(s: seq<Packet>, max: nat): (k: nat)
    ensures s == [] ==> k == 0
    ensures s != [] ==> k < |s|
  {
    if |s| <= 1 || Bytes(s) <= max then 0 else 1 + Excess(s[1..], max)
  }

  function Fit(s: seq<Packet>, max: nat): seq<Packet> { s[Excess(s, max)..] }

  /** Cutting is minimal: what stays fits (or is one packet), and keeping one more would not have. */
  lemma {:induction false} FitIsLongest(s: seq<Packet>, max: nat)
    ensures |Fit(s, max)| <= 1 || Bytes(Fit(s, max)) <= max
    ensures forall k :: 0 <= k < Excess(s, max) ==> Bytes(s[k..]) > max
  {
    if |s| > 1 && Bytes(s) > max {
      FitIsLongest(s[1..], max);
      assert Fit(s, max) == Fit(s[1..], max);
      forall k | 0 <= k < Excess(s, max) ensures Bytes(s[k..]) > max {
        if k > 0 { assert s[k..] == s[1..][k - 1..]; }
      }
    }
  }

  class PendingQueue {
    var items: seq<Packet>
    var bytes: int
    var dropped: nat
    const maxBytes: nat

    ghost predicate Valid()
      reads this
    {
      bytes == Bytes(items)
    }

    /** maxBytes <= 0 selects the default of 64 MB. */
    constructor (max: int)
      ensures Valid() && items == [] && dropped == 0
      ensures maxBytes == if max <= 0 then 64 * 1024 * 1024 else max
    {
      items, bytes, dropped := [], 0, 0;
      maxBytes := if max <= 0 then 64 * 1024 * 1024 else max;
    }

    function HeadOr(fallback: Packet): (p: Packet)
      reads this
      ensures p == (items + [fallback])[0]
    {
      if items == [] then fallback else items[0]
    }

    method PopHead()
      requires Valid() && items != []
      modifies this`items, this`bytes
      ensures Valid() && items == old(items)[1..]
    {
      bytes := bytes - items[0].size;
      items := items[1..];
    }

    method Push(pkt: Packet)
      requires Valid()
      modifies this
      ensures Valid()
      ensures items == Fit(old(items) + [pkt], maxBytes)
      ensures dropped == old(dropped) + Excess(old(items) + [pkt], maxBytes)
    {
      BytesConcat(items, [pkt]);
      items := items + [pkt];
      bytes := bytes + pkt.size;
      ghost var full := items;
      while bytes > maxBytes && |items| > 1
        invariant Valid() && items != []
        invariant Fit(full, maxBytes) == Fit(items, maxBytes)
        invariant dropped + Excess(items, maxBytes) == old(dropped) + Excess(full, maxBytes)
        decreases |items|
      {
        PopHead();
        dropped := dropped + 1;
      }
    }
  }
}
