/** The AMF3 codec (utils/amf/amf3.go). */
module Amf3 {
  import opened ByteIO
  import opened AmfIO

  // ---------------------------------------------------------------- U29

  /** At most four bytes, seven bits in each of the first three. None when out of range. */
  function PutU29(n: U32): (r: Option<Bytes>)
    ensures r.Some? <==> n <= 0x1FFFFFFF
    ensures r.Some? ==> |r.value| == if n < 0x80 then 1 else if n < 0x4000 then 2 else if n < 0x200000 then 3 else 4
  {
    if n <= 0x7F then Some([n])
    else if n <= 0x3FFF then Some([n / 0x80 + 0x80, n % 0x80])
    else if n <= 0x1FFFFF then Some([n / 0x80 / 0x80 + 0x80, n / 0x80 % 0x80 + 0x80, n % 0x80])
    else if n <= 0x1FFFFFFF then
      var h := n / 0x100;
      Some([h / 0x80 / 0x80 + 0x80, h / 0x80 % 0x80 + 0x80, h % 0x80 + 0x80, n % 0x100])
    else None
  }

  /** The reader's loop from its i-th byte, with n read so far. */
  function GetU29From(b: Bytes, i: nat, n: nat): (r: Read<nat>)
    requires i <= 3
    ensures r.Got? ==> |r.rest| < |b|
    decreases 3 - i
  {
    if |b| == 0 then Fail(Eof)
    else if i == 3 then Got(n * 0x100 + b[0], b[1..])
    else
      var n1 := n * 0x80 + b[0] % 0x80;
      if b[0] < 0x80 then Got(n1, b[1..]) else GetU29From(b[1..], i + 1, n1)
  }

  function GetU29(b: Bytes): (r: Read<nat>)
    ensures r.Got? ==> |r.rest| < |b|
  {
    GetU29From(b, 0, 0)
  }

  /** Seven more bits, with the continuation bit set. */
  lemma MoreU29(x: nat, tail: Bytes, i: nat, n: nat)
    requires i < 3 && x < 0x80
    ensures GetU29From([x + 0x80] + tail, i, n) == GetU29From(tail, i + 1, n * 0x80 + x)
  {
    assert ([x + 0x80] + tail)[1..] == tail;
  }

  lemma LastU29(x: Byte, tail: Bytes, i: nat, n: nat)
    requires i <= 3 && (i < 3 ==> x < 0x80)
    ensures GetU29From([x] + tail, i, n) == Got(n * (if i < 3 then 0x80 else 0x100) + x, tail)
  {
    assert ([x] + tail)[1..] == tail;
  }

  lemma ThreeU29(x: nat, y: nat, z: nat, suffix: Bytes)
    requires x < 0x80 && y < 0x80 && z < 0x80
    ensures GetU29([x + 0x80, y + 0x80, z] + suffix) == Got((x * 0x80 + y) * 0x80 + z, suffix)
  {
    hide GetU29From;
    var t2 := [z] + suffix;
    var t1 := [y + 0x80] + t2;
    assert [x + 0x80, y + 0x80, z] + suffix == [x + 0x80] + t1;
    MoreU29(x, t1, 0, 0);
    MoreU29(y, t2, 1, x);
    LastU29(z, suffix, 2, x * 0x80 + y);
  }

  lemma FourU29(w: nat, x: nat, y: nat, z: Byte, suffix: Bytes)
    requires w < 0x80 && x < 0x80 && y < 0x80
    ensures GetU29([w + 0x80, x + 0x80, y + 0x80, z] + suffix)
            == Got(((w * 0x80 + x) * 0x80 + y) * 0x100 + z, suffix)
  {
    hide GetU29From;
    var t3 := [z] + suffix;
    var t2 := [y + 0x80] + t3;
    var t1 := [x + 0x80] + t2;
    assert [w + 0x80, x + 0x80, y + 0x80, z] + suffix == [w + 0x80] + t1;
    MoreU29(w, t1, 0, 0);
    MoreU29(x, t2, 1, w);
    MoreU29(y, t3, 2, w * 0x80 + x);
    LastU29(z, suffix, 3, (w * 0x80 + x) * 0x80 + y);
  }

  lemma TwoU29(y: nat, z: nat, suffix: Bytes)
    requires y < 0x80 && z < 0x80
    ensures GetU29([y + 0x80, z] + suffix) == Got(y * 0x80 + z, suffix)
  {
    hide GetU29From;
    assert [y + 0x80, z] + suffix == [y + 0x80] + ([z] + suffix);
    MoreU29(y, [z] + suffix, 0, 0);
    LastU29(z, suffix, 1, y);
  }

  /** Decoding undoes encoding, and leaves what follows. */
  lemma U29RoundTrip(n: U32, suffix: Bytes)
    requires n <= 0x1FFFFFFF
    ensures GetU29(PutU29(n).value + suffix) == Got(n, suffix)
  {
    hide GetU29From;
    if n <= 0x7F {
      LastU29(n, suffix, 0, 0);
    } else if n <= 0x3FFF {
      TwoU29(n / 0x80, n % 0x80, suffix);
    } else if n <= 0x1FFFFF {
      ThreeU29(n / 0x80 / 0x80, n / 0x80 % 0x80, n % 0x80, suffix);
    } else {
      var h := n / 0x100;
      FourU29(h / 0x80 / 0x80, h / 0x80 % 0x80, h % 0x80, n % 0x100, suffix);
    }
  }

  method ReadU29(b: Bytes) returns (r: Read<nat>)
    ensures r == GetU29(b)
    ensures r.Got? ==> r.value <= 0x1FFFFFFF
  {
    var n: nat := 0;
    var rest := b;
    for i := 0 to 3
      invariant GetU29From(rest, i, n) == GetU29(b)
      invariant n < if i == 0 then 1 else if i == 1 then 0x80 else if i == 2 then 0x4000 else 0x200000
    {
      if |rest| == 0 { return Fail(Eof); }
      var c := rest[0];
      rest := rest[1..];
      n := n * 0x80 + c % 0x80;
      if c < 0x80 { return Got(n, rest); }
    }
    if |rest| == 0 { return Fail(Eof); }
    return Got(n * 0x100 + rest[0], rest[1..]);
  }

  // ---------------------------------------------------------------- values

  /** What is written. An object carries an iteration order of its properties. */
  datatype Tree =
    | Null | Bool(b: bool) | Num(raw: Raw8) | Str(s: Bytes) | Blob(data: Bytes)
    | Arr(elems: seq<Tree>) | Obj(names: seq<Bytes>, values: seq<Tree>)

  /** What is read. */
  datatype Value =
    | VUndefined | VNull | VBool(b: bool) | VInt(n: nat) | VNum(raw: Raw8) | VStr(s: Bytes) | VBlob(data: Bytes)
    | VObj(props: map<Bytes, Value>)

  /** A length as it is written inline: shifted as a uint32, low bit set. */
  function Inline(n: nat): U32 { (2 * n + 1) % 0x1_0000_0000 }

  predicate LengthFits(n: nat) { Inline(n) <= 0x1FFFFFFF }

  function PutLength(n: nat): Bytes
    requires LengthFits(n)
  {
    PutU29(Inline(n)).value
  }

  lemma SmallLength(n: nat)
    requires n < 0x1000_0000
    ensures Inline(n) == 2 * n + 1 && LengthFits(n)
  {
  }

  /** As many names as values. */
  predicate Shaped(t: Tree) {
    match t
    case Arr(elems) => forall i :: 0 <= i < |elems| ==> Shaped(elems[i])
    case Obj(names, values) => |names| == |values| && forall i :: 0 <= i < |values| ==> Shaped(values[i])
    case _ => true
  }

  /** What the writer accepts: no length out of the range of a U29. */
  predicate Writable(t: Tree)
    decreases t, 1
  {
    match t
    case Str(s) => LengthFits(|s|)
    case Blob(d) => LengthFits(|d|)
    case Arr(elems) => LengthFits(|elems|) && forall i :: 0 <= i < |elems| ==> Writable(elems[i])
    case Obj(names, values) => |names| == |values| && PropsWritable(names, values)
    case _ => true
  }

  predicate PropsWritable(names: seq<Bytes>, values: seq<Tree>)
    decreases values, 0
  {
    && (forall i :: 0 <= i < |names| ==> LengthFits(|names[i]|))
    && (forall i :: 0 <= i < |values| ==> Writable(values[i]))
  }

  /** What the reader then understands: lengths that do not wrap, no empty byte array, no array, and property names
      non-empty and distinct. */
  predicate Wf(t: Tree) {
    Writable(t) &&
    match t
    case Str(s) => |s| < 0x1000_0000
    case Blob(d) => 0 < |d| < 0x1000_0000
    case Arr(_) => false
    case Obj(names, values) =>
      && |names| == |values| && Distinct(names)
      && (forall i :: 0 <= i < |names| ==> 0 < |names[i]| < 0x1000_0000)
      && (forall i :: 0 <= i < |values| ==> Wf(values[i]))
    case _ => true
  }

  function PutUtf8(s: Bytes): Bytes
    requires LengthFits(|s|)
  {
    PutLength(|s|) + s
  }

  function Encode(t: Tree): (b: Bytes)
    requires Writable(t)
    ensures |b| >= 1
    decreases t, 1
  {
    match t
    case Null => [0x01]
    case Bool(b) => [if b then 0x03 else 0x02]
    case Num(raw) => [0x05] + raw
    case Str(s) => [0x06] + PutUtf8(s)
    case Blob(d) => [0x0c] + (PutLength(|d|) + d)
    case Arr(elems) => [0x09] + (PutLength(|elems|) + ([0x01] + EncodeAll(elems)))
    case Obj(names, values) => [0x0a, 0x0b, 0x01] + (EncodeProps(names, values) + [0x01])
  }

  function EncodeAll(elems: seq<Tree>): Bytes
    requires forall i :: 0 <= i < |elems| ==> Writable(elems[i])
    decreases elems, 0
  {
    if |elems| == 0 then [] else Encode(elems[0]) + EncodeAll(elems[1..])
  }

  function EncodeProps(names: seq<Bytes>, values: seq<Tree>): Bytes
    requires |names| == |values| && PropsWritable(names, values)
    decreases values, 0
  {
    if |names| == 0 then []
    else PutUtf8(names[0]) + Encode(values[0]) + EncodeProps(names[1..], values[1..])
  }

  function GetUtf8(b: Bytes): (r: Read<Bytes>)
    ensures r.Got? ==> |r.rest| < |b|
  {
    var l := GetU29(b);
    if l.Fail? then Fail(l.failure)
    else if l.value % 2 != 1 then Fail(Bad)
    else if l.value / 2 == 0 then Got([], l.rest)
    else ReadInto(l.rest, l.value / 2)
  }

  function GetBlob(b: Bytes): (r: Read<Bytes>)
    ensures r.Got? ==> |r.rest| < |b|
  {
    var l := GetU29(b);
    if l.Fail? then Fail(l.failure)
    else if l.value % 2 != 1 then Fail(Bad)
    else if |l.rest| == 0 then Fail(Eof)
    else if |l.rest| < l.value / 2 then Fail(Bad)
    else Got(l.rest[..l.value / 2], l.rest[l.value / 2..])
  }

  function ReadValue(b: Bytes): (r: Read<Value>)
    ensures r.Got? ==> |r.rest| < |b|
    decreases |b|
  {
    if |b| == 0 then Fail(Eof)
    else
      var body := b[1..];
      match b[0]
      case 0x00 => Got(VUndefined, body)
      case 0x01 => Got(VNull, body)
      case 0x02 => Got(VBool(false), body)
      case 0x03 => Got(VBool(true), body)
      case 0x04 => var n := GetU29(body); if n.Fail? then Fail(n.failure) else Got(VInt(n.value), n.rest)
      case 0x05 => var x := ReadExactly(body, 8); if x.Fail? then Fail(x.failure) else Got(VNum(x.value), x.rest)
      case 0x06 => var s := GetUtf8(body); if s.Fail? then Fail(s.failure) else Got(VStr(s.value), s.rest)
      case 0x0a => ReadObject(body)
      case 0x0c => var d := GetBlob(body); if d.Fail? then Fail(d.failure) else Got(VBlob(d.value), d.rest)
      case _ => Fail(Bad)
  }

  function ReadObject(b: Bytes): (r: Read<Value>)
    ensures r.Got? ==> |r.rest| < |b|
    decreases |b|
  {
    if |b| == 0 then Fail(Eof)
    else if b[0] != 0x0b then Fail(Bad)
    else if |b| == 1 then Fail(Eof)
    else if b[1] != 0x01 then Fail(Bad)
    else
      var ps := ReadProps(b[2..], map[]);
      if ps.Fail? then Fail(ps.failure) else Got(VObj(ps.value), ps.rest)
  }

  function ReadProps(b: Bytes, acc: map<Bytes, Value>): (r: Read<map<Bytes, Value>>)
    ensures r.Got? ==> |r.rest| < |b|
    decreases |b|
  {
    var name := GetUtf8(b);
    if name.Fail? then Fail(name.failure)
    else if name.value == [] then Got(acc, name.rest)
    else if name.value in acc then Fail(Bad)
    else
      var v := ReadValue(name.rest);
      if v.Fail? then Fail(v.failure)
      else ReadProps(v.rest, acc[name.value := v.value])
  }

  /** The value a written tree stands for. */
  function Norm(t: Tree): Value
    requires Wf(t)
    decreases t, 1
  {
    match t
    case Null => VNull
    case Bool(b) => VBool(b)
    case Num(raw) => VNum(raw)
    case Str(s) => VStr(s)
    case Blob(d) => VBlob(d)
    case Obj(names, values) => VObj(Gather(map[], names, values))
  }

  function Gather(acc: map<Bytes, Value>, names: seq<Bytes>, values: seq<Tree>): map<Bytes, Value>
    requires |names| == |values| && forall i :: 0 <= i < |values| ==> Wf(values[i])
    decreases values, 0
  {
    if |names| == 0 then acc
    else Gather(acc[names[0] := Norm(values[0])], names[1..], values[1..])
  }

  lemma Utf8RoundTrip(s: Bytes, suffix: Bytes)
    requires |s| < 0x1000_0000
    ensures GetUtf8(PutUtf8(s) + suffix) == Got(s, suffix)
  {
    hide GetU29, PutU29;
    SmallLength(|s|);
    assert PutUtf8(s) + suffix == PutU29(2 * |s| + 1).value + (s + suffix);
    U29RoundTrip(2 * |s| + 1, s + suffix);
    Seam(s, suffix);
  }

  /** Reading undoes writing, for every nested value and whatever follows. */
  lemma {:induction false} RoundTrip(t: Tree, suffix: Bytes)
    requires Wf(t)
    ensures ReadValue(Encode(t) + suffix) == Got(Norm(t), suffix)
    decreases t, 1
  {
    hide GetU29, PutU29, GetUtf8, PutUtf8, GetBlob, Inline;
    var b := Encode(t) + suffix;
    match t
    case Null => assert b[1..] == suffix;
    case Bool(_) => assert b[1..] == suffix;
    case Num(raw) =>
      assert b[1..] == raw + suffix;
      Seam(raw, suffix);
    case Str(s) =>
      assert b[1..] == PutUtf8(s) + suffix;
      Utf8RoundTrip(s, suffix);
    case Blob(d) =>
      assert b[1..] == (PutLength(|d|) + d) + suffix;
      BlobRoundTrip(d, suffix);
    case Obj(names, values) =>
      assert b[1..][2..] == EncodeProps(names, values) + ([0x01] + suffix);
      PropsRoundTrip(names, values, map[], suffix);
  }

  lemma BlobRoundTrip(d: Bytes, suffix: Bytes)
    requires 0 < |d| < 0x1000_0000
    ensures LengthFits(|d|) && GetBlob((PutLength(|d|) + d) + suffix) == Got(d, suffix)
  {
    hide GetU29, PutU29;
    SmallLength(|d|);
    Assoc(PutLength(|d|), d, suffix);
    U29RoundTrip(2 * |d| + 1, d + suffix);
    Seam(d, suffix);
  }

  lemma EndOfProps(acc: map<Bytes, Value>, suffix: Bytes)
    ensures ReadProps([0x01] + suffix, acc) == Got(acc, suffix)
  {
    hide GetUtf8;
    assert PutUtf8([]) == [0x01];
    Utf8RoundTrip([], suffix);
  }

  lemma {:induction false} PropsRoundTrip(
    names: seq<Bytes>, values: seq<Tree>, acc: map<Bytes, Value>, suffix: Bytes)
    requires |names| == |values| && Distinct(names)
    requires PropsWritable(names, values)
    requires forall i :: 0 <= i < |names| ==> 0 < |names[i]| < 0x1000_0000 && names[i] !in acc
    requires forall i :: 0 <= i < |values| ==> Wf(values[i])
    ensures ReadProps(EncodeProps(names, values) + ([0x01] + suffix), acc)
            == Got(Gather(acc, names, values), suffix)
    decreases values, 0
  {
    hide GetUtf8, PutUtf8, Wf;
    if |names| == 0 {
      EndOfProps(acc, suffix);
      assert [] + ([0x01] + suffix) == [0x01] + suffix;
    } else {
      var tail := EncodeProps(names[1..], values[1..]) + ([0x01] + suffix);
      var b := EncodeProps(names, values) + ([0x01] + suffix);
      assert b == PutUtf8(names[0]) + (Encode(values[0]) + tail);
      Utf8RoundTrip(names[0], Encode(values[0]) + tail);
      RoundTrip(values[0], tail);
      PropsRoundTrip(names[1..], values[1..], acc[names[0] := Norm(values[0])], suffix);
    }
  }

  /** Only the string marker makes a string. */
  lemma StringRead(b: Bytes)
    requires ReadValue(b).Got? && ReadValue(b).value.VStr?
    ensures b[0] == 0x06 && GetUtf8(b[1..]) == Got(ReadValue(b).value.s, ReadValue(b).rest)
  {
    hide GetUtf8, GetU29, GetBlob;
  }

  /** An empty byte array is written, but reads back only when something follows it. */
  lemma EmptyBlobReadsIff(suffix: Bytes)
    ensures ReadValue([0x0c, 0x01] + suffix) == Got(VBlob([]), suffix) <==> suffix != []
  {
    var b := [0x0c, 0x01] + suffix;
    assert b[1..][1..] == suffix;
  }

  // ---------------------------------------------------------------- as the program writes, with the counts it reports

  /** Bytes written and the count reported, or the out-of-range error. */
  datatype Wrote = Wrote(bytes: Bytes, count: nat) | OutOfRange

  method WriteU29(n: U32) returns (w: Wrote)
    ensures w == if n <= 0x1FFFFFFF then Wrote(PutU29(n).value, |PutU29(n).value|) else OutOfRange
  {
    if n <= 0x7F { return Wrote([n], 1); }
    if n <= 0x3FFF { return Wrote([n / 0x80 + 0x80, n % 0x80], 2); }
    if n <= 0x1FFFFF { return Wrote([n / 0x80 / 0x80 + 0x80, n / 0x80 % 0x80 + 0x80, n % 0x80], 3); }
    if n > 0x1FFFFFFF { return OutOfRange; }
    var h := n / 0x100;
    return Wrote([h / 0x80 / 0x80 + 0x80, h / 0x80 % 0x80 + 0x80, h % 0x80 + 0x80, n % 0x100], 4);
  }

  method WriteUtf8(s: Bytes) returns (w: Wrote)
    ensures w == if LengthFits(|s|) then Wrote(PutUtf8(s), |PutUtf8(s)|) else OutOfRange
  {
    if |s| == 0 {
      assert PutUtf8([]) == [0x01];
      return Wrote([0x01], 1);
    }
    var l := WriteU29(Inline(|s|));
    if l.OutOfRange? { return OutOfRange; }
    return Wrote(l.bytes + s, |s| + l.count);
  }

  /** AMF3_WriteValue: an error exactly when some length is out of range, otherwise the bytes; and the count, added up
      from what each writer reports, is their number. */
  method WriteValue(t: Tree) returns (w: Wrote)
    requires Shaped(t)
    ensures w == if Writable(t) then Wrote(Encode(t), |Encode(t)|) else OutOfRange
    decreases t, 1
  {
    hide PutU29, Inline;
    match t
    case Null => return Wrote([0x01], 1);
    case Bool(b) => return Wrote([if b then 0x03 else 0x02], 1);
    case Num(raw) => return Wrote([0x05] + raw, 9);
    case Str(s) =>
      var u := WriteUtf8(s);
      if u.OutOfRange? { return OutOfRange; }
      return Wrote([0x06] + u.bytes, 1 + u.count);
    case Blob(d) =>
      var l := WriteU29(Inline(|d|));
      if l.OutOfRange? { return OutOfRange; }
      return Wrote([0x0c] + (l.bytes + d), 1 + l.count + |d|);
    case Arr(elems) =>
      var l := WriteU29(Inline(|elems|));
      if l.OutOfRange? { return OutOfRange; }
      var es := WriteElems(elems);
      if es.OutOfRange? { return OutOfRange; }
      return Wrote([0x09] + (l.bytes + ([0x01] + es.bytes)), 1 + l.count + 1 + es.count);
    case Obj(names, values) =>
      var ps := WriteProps(names, values);
      if ps.OutOfRange? { return OutOfRange; }
      return Wrote([0x0a, 0x0b, 0x01] + (ps.bytes + [0x01]), 1 + 1 + 1 + ps.count + 1);
  }

  /** The loop over an array's elements. */
  method WriteElems(elems: seq<Tree>) returns (w: Wrote)
    requires forall i :: 0 <= i < |elems| ==> Shaped(elems[i])
    ensures w == if forall i :: 0 <= i < |elems| ==> Writable(elems[i]) then Wrote(EncodeAll(elems), |EncodeAll(elems)|)
                 else OutOfRange
    decreases elems, 0
  {
    hide Shaped, Writable, Encode;
    var out, n: nat := [], 0;
    for i := 0 to |elems|
      invariant forall j :: 0 <= j < i ==> Writable(elems[j])
      invariant (forall j :: 0 <= j < |elems| ==> Writable(elems[j])) ==>
                  EncodeAll(elems) == out + EncodeAll(elems[i..])
      invariant n == |out|
    {
      assert elems[i..][1..] == elems[i + 1..];
      var v := WriteValue(elems[i]);
      if v.OutOfRange? { return OutOfRange; }
      if forall j :: 0 <= j < |elems| ==> Writable(elems[j]) { Assoc(out, v.bytes, EncodeAll(elems[i + 1..])); }
      out, n := out + v.bytes, n + v.count;
    }
    assert out + [] == out;
    return Wrote(out, n);
  }

  /** The loop over an object's properties. */
  method WriteProps(names: seq<Bytes>, values: seq<Tree>) returns (w: Wrote)
    requires |names| == |values| && forall i :: 0 <= i < |values| ==> Shaped(values[i])
    ensures w == if PropsWritable(names, values) then Wrote(EncodeProps(names, values), |EncodeProps(names, values)|)
                 else OutOfRange
    decreases values, 0
  {
    hide Shaped, Writable, Encode, PutUtf8, LengthFits;
    var out, n: nat := [], 0;
    for i := 0 to |names|
      invariant forall j :: 0 <= j < i ==> LengthFits(|names[j]|) && Writable(values[j])
      invariant PropsWritable(names, values) ==>
                  EncodeProps(names, values) == out + EncodeProps(names[i..], values[i..])
      invariant n == |out|
    {
      assert names[i..][1..] == names[i + 1..] && values[i..][1..] == values[i + 1..];
      var k := WriteUtf8(names[i]);
      if k.OutOfRange? { return OutOfRange; }
      var v := WriteValue(values[i]);
      if v.OutOfRange? { return OutOfRange; }
      var piece := k.bytes + v.bytes;
      if PropsWritable(names, values) { Assoc(out, piece, EncodeProps(names[i + 1..], values[i + 1..])); }
      out, n := out + piece, n + k.count + v.count;
    }
    assert out + [] == out;
    return Wrote(out, n);
  }

  /** The loop that fills the object's map. */
  method ReadObjectProperty(b: Bytes) returns (r: Read<Value>)
    ensures r == ReadObject(b)
  {
    if |b| == 0 { return Fail(Eof); }
    if b[0] != 0x0b { return Fail(Bad); }
    if |b| == 1 { return Fail(Eof); }
    if b[1] != 0x01 { return Fail(Bad); }
    var obj: map<Bytes, Value>, rest := map[], b[2..];
    while true
      invariant ReadProps(rest, obj) == ReadProps(b[2..], map[])
      decreases |rest|
    {
      var name := GetUtf8(rest);
      if name.Fail? { return Fail(name.failure); }
      if name.value == [] { return Got(VObj(obj), name.rest); }
      if name.value in obj { return Fail(Bad); }
      var v := ReadValue(name.rest);
      if v.Fail? { return Fail(v.failure); }
      obj, rest := obj[name.value := v.value], v.rest;
    }
  }
}
