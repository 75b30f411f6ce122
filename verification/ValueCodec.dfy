/** Event values and their conversions (pkg/event/value_msgpack.go:39-135, value_conv.go:12-110). */
module ValueCodec {
  import opened Util

  const MIN64: int := -0x8000_0000_0000_0000
  const MAX64: int := 0x7FFF_FFFF_FFFF_FFFF

  type Int64 = i: int | MIN64 <= i <= MAX64

  type Uint64 = u: int | 0 <= u <= 0xFFFF_FFFF_FFFF_FFFF

  /** A float64: a finite value other than minus zero, or one of the special ones. */
  datatype Float64 = Finite(x: real) | NegZero | NaN | PosInf | NegInf

  /** The tagged value; `Invalid` is a kind number outside the known nine. */
  datatype Value =
    | Null
    | Bool(b: bool)
    | Int(i: Int64)
    | Uint(u: Uint64)
    | Float(f: Float64)
    | Str(s: string)
    | Bytes(bytes: seq<Byte>)
    | Array(items: seq<Value>)
    | Object(fields: map<string, Value>)
    | Invalid(kind: int)

  /** The type field of a message: one of the nine names, or any other string. */
  datatype Kind =
    | KNull | KBool | KInt | KUint | KFloat | KString | KBytes | KArray | KObject
    | KOther(name: string)

  /** msgpackValue: a type name and a field for every kind, pointers as options. */
  datatype Msg = Msg(
    kind: Kind, b: Option<bool>, i: Option<Int64>, u: Option<Uint64>, f: Option<Float64>, s: Option<string>,
    bytes: seq<Byte>, items: seq<Msg>, fields: Fields)

  datatype Fields = NoFields | Fields(entries: map<string, Msg>)

  function Blank(kind: Kind): Msg { Msg(kind, None, None, None, None, None, [], [], NoFields) }

  function Encode(v: Value): Msg {
    match v
    case Null => Blank(KNull)
    case Bool(b) => Blank(KBool).(b := Some(b))
    case Int(i) => Blank(KInt).(i := Some(i))
    case Uint(u) => Blank(KUint).(u := Some(u))
    case Float(f) => Blank(KFloat).(f := Some(f))
    case Str(s) => Blank(KString).(s := Some(s))
    case Bytes(bytes) => Blank(KBytes).(bytes := bytes)
    case Array(items) => Blank(KArray).(items := seq(|items|, n requires 0 <= n < |items| => Encode(items[n])))
    case Object(fields) => Blank(KObject).(fields := Fields(map k | k in fields :: Encode(fields[k])))
    case Invalid(_) => Blank(KNull)
  }

  /** A message that can be decoded: a known type with its field present, all the way down. */
  predicate Sound(m: Msg) {
    match m.kind
    case KNull => true
    case KBool => m.b.Some?
    case KInt => m.i.Some?
    case KUint => m.u.Some?
    case KFloat => m.f.Some?
    case KString => m.s.Some?
    case KBytes => true
    case KArray => forall n :: 0 <= n < |m.items| ==> Sound(m.items[n])
    case KObject => m.fields.Fields? && forall k :: k in m.fields.entries ==> Sound(m.fields.entries[k])
    case KOther(_) => false
  }

  /** msgpackToValue on the messages it accepts. */
  function Decode(m: Msg): Value
    requires Sound(m)
  {
    match m.kind
    case KNull => Null
    case KBool => Bool(m.b.value)
    case KInt => Int(m.i.value)
    case KUint => Uint(m.u.value)
    case KFloat => Float(m.f.value)
    case KString => Str(m.s.value)
    case KBytes => Bytes(m.bytes)
    case KArray => Array(seq(|m.items|, n requires 0 <= n < |m.items| => Decode(m.items[n])))
    case KObject => Object(map k | k in m.fields.entries :: Decode(m.fields.entries[k]))
  }

  /** The value with every unknown kind in it replaced by null. */
  function Known(v: Value): Value {
    match v
    case Invalid(_) => Null
    case Array(items) => Array(seq(|items|, n requires 0 <= n < |items| => Known(items[n])))
    case Object(fields) => Object(map k | k in fields :: Known(fields[k]))
    case _ => v
  }

  predicate AllKnown(v: Value) {
    match v
    case Invalid(_) => false
    case Array(items) => forall n :: 0 <= n < |items| ==> AllKnown(items[n])
    case Object(fields) => forall k :: k in fields ==> AllKnown(fields[k])
    case _ => true
  }

  /** Decoding undoes encoding for every nested value, but for unknown kinds, which come back as null. */
  lemma {:induction false} DecodeUndoesEncode(v: Value)
    ensures Sound(Encode(v)) && Decode(Encode(v)) == Known(v)
  {
    match v
    case Array(items) =>
      forall n | 0 <= n < |items| ensures Sound(Encode(items[n])) && Decode(Encode(items[n])) == Known(items[n]) {
        DecodeUndoesEncode(items[n]);
      }
      ItemsBack(items);
    case Object(fields) =>
      forall k | k in fields ensures Sound(Encode(fields[k])) && Decode(Encode(fields[k])) == Known(fields[k]) {
        DecodeUndoesEncode(fields[k]);
      }
      FieldsBack(fields);
    case _ =>
  }

  lemma ItemsBack(items: seq<Value>)
    requires forall n :: 0 <= n < |items| ==> Sound(Encode(items[n])) && Decode(Encode(items[n])) == Known(items[n])
    ensures Sound(Encode(Array(items))) && Decode(Encode(Array(items))) == Known(Array(items))
  {}

  lemma FieldsBack(fields: map<string, Value>)
    requires forall k :: k in fields ==> Sound(Encode(fields[k])) && Decode(Encode(fields[k])) == Known(fields[k])
    ensures Sound(Encode(Object(fields))) && Decode(Encode(Object(fields))) == Known(Object(fields))
  {
    var m := Encode(Object(fields));
    assert Sound(m);
    assert Decode(m).fields == Known(Object(fields)).fields;
  }

  lemma {:induction false} KnownIsSame(v: Value)
    ensures Known(v) == v <==> AllKnown(v)
  {
    match v
    case Array(items) =>
      var r := seq(|items|, n requires 0 <= n < |items| => Known(items[n]));
      forall n | 0 <= n < |items| ensures r[n] == items[n] <==> AllKnown(items[n]) { KnownIsSame(items[n]); }
      assert r == items <==> forall n :: 0 <= n < |items| ==> r[n] == items[n];
    case Object(fields) =>
      var r := map k | k in fields :: Known(fields[k]);
      forall k | k in fields ensures r[k] == fields[k] <==> AllKnown(fields[k]) { KnownIsSame(fields[k]); }
      assert r == fields <==> forall k :: k in fields ==> r[k] == fields[k];
    case _ =>
  }

  /** The round trip is exact precisely for values without unknown kinds. */
  lemma RoundTripExact(v: Value)
    ensures Sound(Encode(v)) && (Decode(Encode(v)) == v <==> AllKnown(v))
  {
    DecodeUndoesEncode(v);
    KnownIsSame(v);
  }

  // ---------- Native values ----------

  /** What ToAny yields and ValueFromAny takes. The integer widths are one case each, a float32 is apart;
      `Other` is any other type, with its printed form. */
  datatype Any =
    | Nil
    | ABool(b: bool)
    | AInt(i: Int64)
    | AUint(u: Uint64)
    | AFloat32(f: Float64)
    | AFloat64(f: Float64)
    | AString(s: string)
    | ABytes(bytes: seq<Byte>)
    | AList(items: seq<Any>)
    | AMap(fields: map<string, Any>)
    | Other(text: string)

  function Trunc(x: real): int { if x >= 0.0 then x.Floor else -((-x).Floor) }

  /** int64(f): towards zero; what does not fit becomes the smallest int64, as on amd64. */
  function ToInt64(f: Float64): Int64 {
    match f
    case Finite(x) => if MIN64 <= Trunc(x) <= MAX64 then Trunc(x) else MIN64
    case NegZero => 0
    case _ => MIN64
  }

  /** f == float64(i); -0 equals 0 and NaN equals nothing. */
  predicate EqualsInt(f: Float64, i: int) {
    match f
    case Finite(x) => x == i as real
    case NegZero => i == 0
    case _ => false
  }

  function FromAny(a: Any): Value {
    match a
    case Nil => Null
    case ABool(b) => Bool(b)
    case AInt(i) => Int(i)
    case AUint(u) => Uint(u)
    case AFloat32(f) => Float(f)
    case AFloat64(f) => if EqualsInt(f, ToInt64(f)) then Int(ToInt64(f)) else Float(f)
    case AString(s) => Str(s)
    case ABytes(bytes) => Bytes(bytes)
    case AList(items) => Array(seq(|items|, n requires 0 <= n < |items| => FromAny(items[n])))
    case AMap(fields) => Object(map k | k in fields :: FromAny(fields[k]))
    case Other(text) => Str(text)
  }

  function ToAny(v: Value): Any {
    match v
    case Null => Nil
    case Bool(b) => ABool(b)
    case Int(i) => AInt(i)
    case Uint(u) => AUint(u)
    case Float(f) => AFloat64(f)
    case Str(s) => AString(s)
    case Bytes(bytes) => ABytes(bytes)
    case Array(items) => AList(seq(|items|, n requires 0 <= n < |items| => ToAny(items[n])))
    case Object(fields) => AMap(map k | k in fields :: ToAny(fields[k]))
    case Invalid(_) => Nil
  }

  /** A whole number that an int64 holds, minus zero included. */
  predicate Whole(f: Float64) {
    f.NegZero? || (f.Finite? && f.x == f.x.Floor as real && MIN64 as real <= f.x <= MAX64 as real)
  }

  function WholePart(f: Float64): Int64
    requires Whole(f)
  {
    if f.NegZero? then 0 else f.x.Floor
  }

  /** The test in the code finds exactly the whole numbers in range, and converts them exactly. */
  lemma WholeIsTested(f: Float64)
    ensures EqualsInt(f, ToInt64(f)) <==> Whole(f)
    ensures Whole(f) ==> ToInt64(f) == WholePart(f)
  {
    if f.Finite? && f.x < 0.0 {
      var y := -f.x;
      assert y.Floor as real <= y < y.Floor as real + 1.0;
      if f.x == f.x.Floor as real { assert y == (-f.x.Floor) as real; }
    }
  }

  /** Whole floats become ints, unknown kinds null, and nothing else changes. */
  function Normal(v: Value): Value {
    match v
    case Float(f) => if Whole(f) then Int(WholePart(f)) else v
    case Invalid(_) => Null
    case Array(items) => Array(seq(|items|, n requires 0 <= n < |items| => Normal(items[n])))
    case Object(fields) => Object(map k | k in fields :: Normal(fields[k]))
    case _ => v
  }

  lemma {:induction false} ThereAndBackIsNormal(v: Value)
    ensures FromAny(ToAny(v)) == Normal(v)
  {
    match v
    case Float(f) => WholeIsTested(f);
    case Array(items) =>
      forall n | 0 <= n < |items| ensures FromAny(ToAny(items[n])) == Normal(items[n]) { ThereAndBackIsNormal(items[n]); }
    case Object(fields) =>
      forall k | k in fields ensures FromAny(ToAny(fields[k])) == Normal(fields[k]) { ThereAndBackIsNormal(fields[k]); }
    case _ =>
  }

  predicate IsNormal(v: Value) {
    match v
    case Float(f) => !Whole(f)
    case Invalid(_) => false
    case Array(items) => forall n :: 0 <= n < |items| ==> IsNormal(items[n])
    case Object(fields) => forall k :: k in fields ==> IsNormal(fields[k])
    case _ => true
  }

  lemma {:induction false} NormalIsNormal(v: Value)
    ensures IsNormal(Normal(v))
  {
    match v
    case Array(items) => forall n | 0 <= n < |items| ensures IsNormal(Normal(items[n])) { NormalIsNormal(items[n]); }
    case Object(fields) => forall k | k in fields ensures IsNormal(Normal(fields[k])) { NormalIsNormal(fields[k]); }
    case _ =>
  }

  lemma {:induction false} NormalKeepsNormal(v: Value)
    ensures Normal(v) == v <==> IsNormal(v)
  {
    match v
    case Array(items) =>
      var r := seq(|items|, n requires 0 <= n < |items| => Normal(items[n]));
      forall n | 0 <= n < |items| ensures r[n] == items[n] <==> IsNormal(items[n]) { NormalKeepsNormal(items[n]); }
      assert r == items <==> forall n :: 0 <= n < |items| ==> r[n] == items[n];
    case Object(fields) =>
      var r := map k | k in fields :: Normal(fields[k]);
      forall k | k in fields ensures r[k] == fields[k] <==> IsNormal(fields[k]) { NormalKeepsNormal(fields[k]); }
      assert r == fields <==> forall k :: k in fields ==> r[k] == fields[k];
    case _ =>
  }

  /** Going there and back a second time changes nothing more. */
  lemma ThereAndBackTwice(v: Value)
    ensures var w := FromAny(ToAny(v)); FromAny(ToAny(w)) == w
    ensures FromAny(ToAny(v)) == v <==> IsNormal(v)
  {
    ThereAndBackIsNormal(v);
    ThereAndBackIsNormal(Normal(v));
    NormalIsNormal(v);
    NormalKeepsNormal(Normal(v));
    NormalKeepsNormal(v);
  }

  // ---------- The conversions as the program runs them ----------

  method ValueToMsgpack(v: Value) returns (m: Msg)
    ensures m == Encode(v)
    decreases v, 1
  {
    match v
    case Array(items) => m := EncodeItems(v);
    case Object(fields) => m := EncodeFields(v);
    case Null => return Blank(KNull);
    case Bool(b) => return Blank(KBool).(b := Some(b));
    case Int(i) => return Blank(KInt).(i := Some(i));
    case Uint(u) => return Blank(KUint).(u := Some(u));
    case Float(f) => return Blank(KFloat).(f := Some(f));
    case Str(s) => return Blank(KString).(s := Some(s));
    case Bytes(bytes) => return Blank(KBytes).(bytes := bytes);
    case Invalid(_) => return Blank(KNull);
  }

  method EncodeItems(v: Value) returns (m: Msg)
    requires v.Array?
    ensures m == Encode(v)
    decreases v, 0
  {
    var arr: seq<Msg> := [];
    for n := 0 to |v.items|
      invariant |arr| == n && forall j :: 0 <= j < n ==> arr[j] == Encode(v.items[j])
    {
      var x := ValueToMsgpack(v.items[n]);
      arr := arr + [x];
    }
    return Blank(KArray).(items := arr);
  }

  method EncodeFields(v: Value) returns (m: Msg)
    requires v.Object?
    ensures m == Encode(v)
    decreases v, 0
  {
    var obj: map<string, Msg> := map[];
    var todo := v.fields.Keys;
    while exists k :: k in todo
      invariant todo <= v.fields.Keys && obj.Keys == v.fields.Keys - todo
      invariant forall k :: k in obj ==> obj[k] == Encode(v.fields[k])
      decreases |todo|
    {
      var k :| k in todo;
      var x := ValueToMsgpack(v.fields[k]);
      obj, todo := obj[k := x], todo - {k};
    }
    assert todo == {};
    assert obj == map k | k in v.fields :: Encode(v.fields[k]);
    return Blank(KObject).(fields := Fields(obj));
  }

  /** Fails exactly on the messages that are not sound, and then yields null. */
  method MsgpackToValue(m: Msg) returns (v: Value, ok: bool)
    ensures ok <==> Sound(m)
    ensures ok ==> v == Decode(m)
    ensures !ok ==> v == Null
    decreases m, 1
  {
    match m.kind
    case KArray => v, ok := DecodeItems(m);
    case KObject =>
      if m.fields.NoFields? { return Null, false; }
      v, ok := DecodeFields(m);
    case KNull => return Null, true;
    case KBytes => return Bytes(m.bytes), true;
    case KBool =>
      if m.b.None? { return Null, false; }
      return Bool(m.b.value), true;
    case KInt =>
      if m.i.None? { return Null, false; }
      return Int(m.i.value), true;
    case KUint =>
      if m.u.None? { return Null, false; }
      return Uint(m.u.value), true;
    case KFloat =>
      if m.f.None? { return Null, false; }
      return Float(m.f.value), true;
    case KString =>
      if m.s.None? { return Null, false; }
      return Str(m.s.value), true;
    case KOther(_) => return Null, false;
  }

  method DecodeItems(m: Msg) returns (v: Value, ok: bool)
    requires m.kind.KArray?
    ensures ok <==> Sound(m)
    ensures ok ==> v == Decode(m)
    ensures !ok ==> v == Null
    decreases m, 0
  {
    var arr: seq<Value> := [];
    for n := 0 to |m.items|
      invariant |arr| == n && forall j :: 0 <= j < n ==> Sound(m.items[j]) && arr[j] == Decode(m.items[j])
    {
      var x, fine := MsgpackToValue(m.items[n]);
      if !fine { return Null, false; }
      arr := arr + [x];
    }
    return Array(arr), true;
  }

  lemma FieldsDecoded(m: Msg, obj: map<string, Value>)
    requires m.kind.KObject? && m.fields.Fields? && obj.Keys == m.fields.entries.Keys
    requires forall k :: k in obj ==> Sound(m.fields.entries[k]) && obj[k] == Decode(m.fields.entries[k])
    ensures Sound(m) && Decode(m) == Object(obj)
  {
    forall k | k in m.fields.entries ensures Sound(m.fields.entries[k]) { assert k in obj; }
    var all := map k | k in m.fields.entries :: Decode(m.fields.entries[k]);
    assert all == obj;
  }

  method DecodeFields(m: Msg) returns (v: Value, ok: bool)
    requires m.kind.KObject? && m.fields.Fields?
    ensures ok <==> Sound(m)
    ensures ok ==> v == Decode(m)
    ensures !ok ==> v == Null
    decreases m, 0
  {
    var entries := m.fields.entries;
    var obj: map<string, Value> := map[];
    var todo := entries.Keys;
    while exists k :: k in todo
      invariant todo <= entries.Keys && obj.Keys == entries.Keys - todo
      invariant forall k :: k in obj ==> Sound(entries[k]) && obj[k] == Decode(entries[k])
      decreases |todo|
    {
      var k :| k in todo;
      var x, fine := MsgpackToValue(entries[k]);
      if !fine { return Null, false; }
      obj, todo := obj[k := x], todo - {k};
    }
    assert todo == {};
    FieldsDecoded(m, obj);
    return Object(obj), true;
  }

  method ValueFromAny(a: Any) returns (v: Value)
    ensures v == FromAny(a)
    decreases a
  {
    match a
    case AList(items) =>
      var arr: seq<Value> := [];
      for n := 0 to |items|
        invariant |arr| == n && forall j :: 0 <= j < n ==> arr[j] == FromAny(items[j])
      {
        var x := ValueFromAny(items[n]);
        arr := arr + [x];
      }
      return Array(arr);
    case AMap(fields) =>
      var obj: map<string, Value> := map[];
      var todo := fields.Keys;
      while exists k :: k in todo
        invariant todo <= fields.Keys && obj.Keys == fields.Keys - todo
        invariant forall k :: k in obj ==> obj[k] == FromAny(fields[k])
        decreases |todo|
      {
        var k :| k in todo;
        var x := ValueFromAny(fields[k]);
        obj, todo := obj[k := x], todo - {k};
      }
      assert todo == {};
      assert obj == map k | k in fields :: FromAny(fields[k]);
      return Object(obj);
    case Nil => return Null;
    case ABool(b) => return Bool(b);
    case AInt(i) => return Int(i);
    case AUint(u) => return Uint(u);
    case AFloat32(f) => return Float(f);
    case AFloat64(f) =>
      if EqualsInt(f, ToInt64(f)) { return Int(ToInt64(f)); }
      return Float(f);
    case AString(s) => return Str(s);
    case ABytes(bytes) => return Bytes(bytes);
    case Other(text) => return Str(text);
  }

  method ValueToAny(v: Value) returns (a: Any)
    ensures a == ToAny(v)
    decreases v
  {
    match v
    case Array(items) =>
      var arr: seq<Any> := [];
      for n := 0 to |items|
        invariant |arr| == n && forall j :: 0 <= j < n ==> arr[j] == ToAny(items[j])
      {
        var x := ValueToAny(items[n]);
        arr := arr + [x];
      }
      return AList(arr);
    case Object(fields) =>
      var obj: map<string, Any> := map[];
      var todo := fields.Keys;
      while exists k :: k in todo
        invariant todo <= fields.Keys && obj.Keys == fields.Keys - todo
        invariant forall k :: k in obj ==> obj[k] == ToAny(fields[k])
        decreases |todo|
      {
        var k :| k in todo;
        var x := ValueToAny(fields[k]);
        obj, todo := obj[k := x], todo - {k};
      }
      assert todo == {};
      assert obj == map k | k in fields :: ToAny(fields[k]);
      return AMap(obj);
    case Null => return Nil;
    case Bool(b) => return ABool(b);
    case Int(i) => return AInt(i);
    case Uint(u) => return AUint(u);
    case Float(f) => return AFloat64(f);
    case Str(s) => return AString(s);
    case Bytes(bytes) => return ABytes(bytes);
    case Invalid(_) => return Nil;
  }
}
