/** The AMF0 codec (utils/amf/amf0.go) and the sibling writer built on it (utils/amf/amftools.go). */
module Amf0 {
  import opened ByteIO
  import opened AmfIO
  import Amf3

  /** What is written. An object carries an iteration order of its properties; the writer sorts names in one
      code path and takes the map's order in the other. */
  datatype Tree =
    | Null | Bool(b: bool) | Num(raw: Raw8) | Str(s: Bytes)
    | Arr(elems: seq<Tree>) | Obj(names: seq<Bytes>, values: seq<Tree>)

  /** What is read. */
  datatype Value =
    | VNull | VUndefined | VBool(b: bool) | VNum(raw: Raw8) | VStr(s: Bytes) | VObj(props: map<Bytes, Value>)
    | VStrict(elems: seq<Value>) | VDate(raw: Raw8, zone: Bytes) | VAmf3(v: Amf3.Value)

  // ---------------------------------------------------------------- decimal array keys

  function Decimal(n: nat): (d: Bytes)
    ensures |d| >= 1
  {
    if n < 10 then [0x30 + n] else Decimal(n / 10) + [0x30 + n % 10]
  }

  function Undecimal(d: Bytes): int {
    if |d| == 0 then 0 else Undecimal(d[..|d| - 1]) * 10 + (d[|d| - 1] as int - 0x30)
  }

  lemma {:induction false} DecimalValue(n: nat)
    ensures Undecimal(Decimal(n)) == n
    ensures n < 0x8000_0000 ==> |Decimal(n)| <= 10
  {
    DecimalLength(n, 10);
    if n >= 10 {
      var d := Decimal(n);
      assert d[..|d| - 1] == Decimal(n / 10);
      DecimalValue(n / 10);
    } else {
      assert Decimal(n)[..0] == [];
    }
  }

  function Pow10(k: nat): nat { if k == 0 then 1 else 10 * Pow10(k - 1) }

  lemma {:induction false} DecimalLength(n: nat, k: nat)
    requires k >= 1
    ensures n < Pow10(k) ==> |Decimal(n)| <= k
    ensures Pow10(10) == 10_000_000_000
  {
    assert Pow10(10) == 10 * Pow10(9) && Pow10(9) == 10 * Pow10(8) && Pow10(8) == 10 * Pow10(7)
           && Pow10(7) == 10 * Pow10(6) && Pow10(6) == 10 * Pow10(5) && Pow10(5) == 10 * Pow10(4)
           && Pow10(4) == 10 * Pow10(3) && Pow10(3) == 10 * Pow10(2) && Pow10(2) == 10 * Pow10(1);
    if n >= 10 && k > 1 {
      DecimalLength(n / 10, k - 1);
    }
  }

  function Indices(n: nat): (names: seq<Bytes>)
    ensures |names| == n
  {
    seq(n, i requires 0 <= i < n => Decimal(i))
  }

  lemma IndicesFit(n: nat)
    requires n <= 0x8000_0000
    ensures Distinct(Indices(n)) && NamesFit(Indices(n), 65533)
  {
    forall i | 0 <= i < n ensures Undecimal(Indices(n)[i]) == i && |Indices(n)[i]| <= 10 { DecimalValue(i); }
  }

  // ---------------------------------------------------------------- writing

  predicate NamesFit(names: seq<Bytes>, most: nat) {
    forall i :: 0 <= i < |names| ==> 0 < |names[i]| <= most
  }

  /** As many names as values. */
  predicate Shaped(t: Tree) {
    match t
    case Arr(elems) => forall i :: 0 <= i < |elems| ==> Shaped(elems[i])
    case Obj(names, values) => |names| == |values| && forall i :: 0 <= i < |values| ==> Shaped(values[i])
    case _ => true
  }

  /** What the writer frames correctly: names non-empty, distinct and of 16-bit length; strings of 32-bit
      length; arrays of 31-bit length. */
  predicate Wf(t: Tree) {
    Shaped(t) &&
    match t
    case Str(s) => |s| < 0x1_0000_0000
    case Arr(elems) => |elems| < 0x8000_0000 && forall i :: 0 <= i < |elems| ==> Wf(elems[i])
    case Obj(names, values) =>
      && |names| == |values| && Distinct(names) && NamesFit(names, 0xFFFF)
      && forall i :: 0 <= i < |values| ==> Wf(values[i])
    case _ => true
  }

  function PutName(s: Bytes): Bytes { PutU16BE(|s|) + s }

  /** The length as a uint32 decides the form. */
  function PutString(s: Bytes): Bytes {
    if |s| % 0x1_0000_0000 > 0xFFFF then [0x0c] + (PutU32BE(|s|) + s) else [0x02] + PutName(s)
  }

  /** How many elements of an array are written: as many as its length says as an int32, none if that is negative. */
  function Elements(n: nat): (k: nat)
    ensures k <= n && (n < 0x8000_0000 ==> k == n)
  {
    if n % 0x1_0000_0000 < 0x8000_0000 then n % 0x1_0000_0000 else 0
  }

  function Written(elems: seq<Tree>): (w: seq<Tree>)
    ensures |w| == Elements(|elems|) && w <= elems && (|elems| < 0x8000_0000 ==> w == elems)
  {
    if Elements(|elems|) == |elems| then elems else elems[..Elements(|elems|)]
  }

  const END: Bytes := [0x00, 0x00, 0x09]

  function Encode(t: Tree): (b: Bytes)
    requires Shaped(t)
    ensures |b| >= 1
    decreases t, 1
  {
    match t
    case Null => [0x05]
    case Bool(b) => [0x01, if b then 1 else 0]
    case Num(raw) => [0x00] + raw
    case Str(s) => PutString(s)
    case Arr(elems) => [0x08] + (PutU32BE(|elems|) + (EncodeProps(Indices(|Written(elems)|), Written(elems)) + END))
    case Obj(names, values) => [0x03] + (EncodeProps(names, values) + END)
  }

  function EncodeProps(names: seq<Bytes>, values: seq<Tree>): Bytes
    requires |names| == |values| && forall i :: 0 <= i < |values| ==> Shaped(values[i])
    decreases values, 0
  {
    if |names| == 0 then []
    else PutName(names[0]) + Encode(values[0]) + EncodeProps(names[1..], values[1..])
  }

  // ---------------------------------------------------------------- the reported count

  /** WriteObjectName reports int(uint16(len) + 2), which wraps. */
  function NameCount(s: Bytes): nat { (|s| % 0x1_0000 + 2) % 0x1_0000 }

  /** WriteString adds marker and length field to the length as a uint32. */
  function Overhead(s: Bytes): nat { if |s| % 0x1_0000_0000 > 0xFFFF then 5 else 3 }
  function StringCount(s: Bytes): nat { (|s| % 0x1_0000_0000 + Overhead(s)) % 0x1_0000_0000 }

  function Count(t: Tree): nat
    requires Shaped(t)
    decreases t, 1
  {
    match t
    case Null => 1
    case Bool(_) => 2
    case Num(_) => 9
    case Str(s) => StringCount(s)
    case Arr(elems) => 5 + CountProps(Indices(|Written(elems)|), Written(elems)) + 3
    case Obj(names, values) => 1 + CountProps(names, values) + 3
  }

  function CountProps(names: seq<Bytes>, values: seq<Tree>): nat
    requires |names| == |values| && forall i :: 0 <= i < |values| ==> Shaped(values[i])
    decreases values, 0
  {
    if |names| == 0 then 0 else NameCount(names[0]) + Count(values[0]) + CountProps(names[1..], values[1..])
  }

  /** What wrapping takes off the count: 65536 for every 65536 bytes of a name and its length field, 2^32 for every 2^32
      bytes of a string with its marker and length field. */
  function Lost(t: Tree): nat
    requires Shaped(t)
    decreases t, 1
  {
    match t
    case Str(s) => (|s| + Overhead(s)) / 0x1_0000_0000 * 0x1_0000_0000
    case Arr(elems) => LostIn(Indices(|Written(elems)|), Written(elems))
    case Obj(names, values) => LostIn(names, values)
    case _ => 0
  }

  function LostIn(names: seq<Bytes>, values: seq<Tree>): nat
    requires |names| == |values| && forall i :: 0 <= i < |values| ==> Shaped(values[i])
    decreases values, 0
  {
    if |names| == 0 then 0
    else (|names[0]| + 2) / 0x1_0000 * 0x1_0000 + Lost(values[0]) + LostIn(names[1..], values[1..])
  }

  /** The bytes written are the reported count and what wrapping took off it. */
  lemma {:induction false} CountLaw(t: Tree)
    requires Shaped(t)
    ensures |Encode(t)| == Count(t) + Lost(t)
    decreases t, 1
  {
    hide Decimal, PutName;
    match t
    case Str(s) => StringCountLaw(s);
    case Arr(elems) => CountPropsLaw(Indices(|Written(elems)|), Written(elems));
    case Obj(names, values) => CountPropsLaw(names, values);
    case _ =>
  }

  lemma NameCountLaw(s: Bytes)
    ensures |PutName(s)| == NameCount(s) + (|s| + 2) / 0x1_0000 * 0x1_0000
  {
  }

  lemma StringCountLaw(s: Bytes)
    ensures |PutString(s)| == StringCount(s) + (|s| + Overhead(s)) / 0x1_0000_0000 * 0x1_0000_0000
  {
    assert |PutString(s)| == |s| + Overhead(s);
    Fold(|s|, Overhead(s));
  }

  lemma Fold(x: nat, k: nat)
    ensures (x % 0x1_0000_0000 + k) % 0x1_0000_0000 == (x + k) % 0x1_0000_0000
  {
  }

  lemma {:induction false} CountPropsLaw(names: seq<Bytes>, values: seq<Tree>)
    requires |names| == |values| && forall i :: 0 <= i < |values| ==> Shaped(values[i])
    ensures |EncodeProps(names, values)| == CountProps(names, values) + LostIn(names, values)
    decreases values, 0
  {
    hide Shaped, Encode, Count, Lost, PutName, NameCount;
    if |names| > 0 {
      NameCountLaw(names[0]);
      CountLaw(values[0]);
      CountPropsLaw(names[1..], values[1..]);
    }
  }

  /** No name over 65533 bytes and no string over 2^32 - 6, at any depth. */
  predicate Countable(t: Tree)
    requires Shaped(t)
    decreases t, 1
  {
    match t
    case Str(s) => |s| <= 0xFFFF_FFFA
    case Arr(elems) => CountableIn(Indices(|Written(elems)|), Written(elems))
    case Obj(names, values) => CountableIn(names, values)
    case _ => true
  }

  predicate CountableIn(names: seq<Bytes>, values: seq<Tree>)
    requires |names| == |values| && forall i :: 0 <= i < |values| ==> Shaped(values[i])
    decreases values, 0
  {
    |names| == 0 || (|names[0]| <= 65533 && Countable(values[0]) && CountableIn(names[1..], values[1..]))
  }

  lemma {:induction false} LostIff(t: Tree)
    requires Shaped(t)
    ensures Lost(t) == 0 <==> Countable(t)
    decreases t, 1
  {
    match t
    case Arr(elems) => LostInIff(Indices(|Written(elems)|), Written(elems));
    case Obj(names, values) => LostInIff(names, values);
    case _ =>
  }

  lemma {:induction false} LostInIff(names: seq<Bytes>, values: seq<Tree>)
    requires |names| == |values| && forall i :: 0 <= i < |values| ==> Shaped(values[i])
    ensures LostIn(names, values) == 0 <==> CountableIn(names, values)
    decreases values, 0
  {
    hide Shaped, Lost, Countable;
    if |names| > 0 {
      LostIff(values[0]);
      LostInIff(names[1..], values[1..]);
    }
  }

  /** The reported count is the number of bytes written exactly when nothing is too long for it. */
  lemma CountExactIff(t: Tree)
    requires Shaped(t)
    ensures Count(t) == |Encode(t)| <==> Countable(t)
  {
    hide Encode, Count, Lost, Countable;
    CountLaw(t);
    LostIff(t);
  }

  // ---------------------------------------------------------------- reading

  function GetName(b: Bytes): (r: Read<Bytes>)
    ensures r.Got? ==> |r.rest| < |b|
  {
    var l := ReadExactly(b, 2);
    if l.Fail? then Fail(l.failure)
    else if U16BE(l.value) == 0 then Got([], l.rest)
    else ReadInto(l.rest, U16BE(l.value))
  }

  function GetLong(b: Bytes): (r: Read<Bytes>)
    ensures r.Got? ==> |r.rest| < |b|
  {
    var l := ReadExactly(b, 4);
    if l.Fail? then Fail(l.failure)
    else if U32BE(l.value) == 0 then Got([], l.rest)
    else ReadInto(l.rest, U32BE(l.value))
  }

  function ReadValue(b: Bytes): (r: Read<Value>)
    ensures r.Got? ==> |r.rest| < |b|
    decreases |b|, 0
  {
    if |b| == 0 then Fail(Eof)
    else
      var body := b[1..];
      match b[0]
      case 0x00 => var x := ReadExactly(body, 8); if x.Fail? then Fail(x.failure) else Got(VNum(x.value), x.rest)
      case 0x01 => var x := ReadByte(body); if x.Fail? then Fail(x.failure) else Got(VBool(x.value != 0), x.rest)
      case 0x02 => var s := GetName(body); if s.Fail? then Fail(s.failure) else Got(VStr(s.value), s.rest)
      case 0x03 => var o := ReadProps(body, map[]); if o.Fail? then Fail(o.failure) else Got(VObj(o.value), o.rest)
      case 0x05 => Got(VNull, body)
      case 0x06 => Got(VUndefined, body)
      case 0x08 =>
        var l := ReadInto(body, 4);
        if l.Fail? then Fail(l.failure)
        else
          var o := ReadProps(l.rest, map[]);
          if o.Fail? then Fail(o.failure) else Got(VObj(o.value), o.rest)
      case 0x0a =>
        var n := ReadExactly(body, 4);
        if n.Fail? then Fail(n.failure)
        else
          var es := ReadElems(n.rest, U32BE(n.value));
          if es.Fail? then Fail(es.failure) else Got(VStrict(es.value), es.rest)
      case 0x0b =>
        var d := ReadExactly(body, 8);
        if d.Fail? then Fail(d.failure)
        else
          var z := ReadExactly(d.rest, 2);
          if z.Fail? then Fail(z.failure) else Got(VDate(d.value, z.value), z.rest)
      case 0x0c => var s := GetLong(body); if s.Fail? then Fail(s.failure) else Got(VStr(s.value), s.rest)
      case 0x11 => var v := Amf3.ReadValue(body); if v.Fail? then Fail(v.failure) else Got(VAmf3(v.value), v.rest)
      case _ => Fail(Bad)
  }

  function ReadProps(b: Bytes, acc: map<Bytes, Value>): (r: Read<map<Bytes, Value>>)
    ensures r.Got? ==> |r.rest| < |b|
    decreases |b|, 0
  {
    var name := GetName(b);
    if name.Fail? then Fail(name.failure)
    else if name.value == [] then
      var end := ReadByte(name.rest);
      if end.Fail? then Fail(end.failure) else if end.value == 0x09 then Got(acc, end.rest) else Fail(Bad)
    else if name.value in acc then Fail(Bad)
    else
      var v := ReadValue(name.rest);
      if v.Fail? then Fail(v.failure) else ReadProps(v.rest, acc[name.value := v.value])
  }

  function ReadElems(b: Bytes, n: nat): (r: Read<seq<Value>>)
    ensures r.Got? ==> |r.rest| <= |b| && |r.value| == n
    decreases |b|, 1
  {
    if n == 0 then Got([], b)
    else
      var v := ReadValue(b);
      if v.Fail? then Fail(v.failure)
      else
        var vs := ReadElems(v.rest, n - 1);
        if vs.Fail? then Fail(vs.failure) else Got([v.value] + vs.value, vs.rest)
  }

  // ---------------------------------------------------------------- the round trip

  /** The value a written tree stands for: an array is read back as an object with decimal keys. */
  function Norm(t: Tree): Value
    requires Wf(t)
    decreases t, 1
  {
    match t
    case Null => VNull
    case Bool(b) => VBool(b)
    case Num(raw) => VNum(raw)
    case Str(s) => VStr(s)
    case Arr(elems) => VObj(Gather(map[], Indices(|elems|), elems))
    case Obj(names, values) => VObj(Gather(map[], names, values))
  }

  function Gather(acc: map<Bytes, Value>, names: seq<Bytes>, values: seq<Tree>): map<Bytes, Value>
    requires |names| == |values| && forall i :: 0 <= i < |values| ==> Wf(values[i])
    decreases values, 0
  {
    if |names| == 0 then acc
    else Gather(acc[names[0] := Norm(values[0])], names[1..], values[1..])
  }

  lemma NameRoundTrip(s: Bytes, suffix: Bytes)
    requires |s| <= 0xFFFF
    ensures GetName(PutName(s) + suffix) == Got(s, suffix)
  {
    hide PutU16BE, U16BE;
    assert PutName(s) + suffix == PutU16BE(|s|) + (s + suffix);
    Seam(PutU16BE(|s|), s + suffix);
    GetPutU16BE(|s|);
    Seam(s, suffix);
  }

  lemma LongRoundTrip(s: Bytes, suffix: Bytes)
    requires 0xFFFF < |s| < 0x1_0000_0000
    ensures GetLong(PutU32BE(|s|) + (s + suffix)) == Got(s, suffix)
  {
    hide PutU32BE, U32BE;
    Seam(PutU32BE(|s|), s + suffix);
    GetPutU32BE(|s|);
    Seam(s, suffix);
  }

  lemma StringRoundTrip(s: Bytes, suffix: Bytes)
    requires |s| < 0x1_0000_0000
    ensures ReadValue(PutString(s) + suffix) == Got(VStr(s), suffix)
  {
    hide PutU32BE, GetLong, GetName, PutName, ReadProps, ReadElems, Amf3.ReadValue;
    if |s| > 0xFFFF {
      Marked(0x0c, PutU32BE(|s|) + s, suffix);
      Assoc(PutU32BE(|s|), s, suffix);
      LongRoundTrip(s, suffix);
    } else {
      Marked(0x02, PutName(s), suffix);
      NameRoundTrip(s, suffix);
    }
  }

  /** Reading the written bytes gives the value back and leaves exactly what follows. */
  lemma {:induction false} RoundTrip(t: Tree, suffix: Bytes)
    requires Wf(t)
    ensures ReadValue(Encode(t) + suffix) == Got(Norm(t), suffix)
    decreases t, 1
  {
    hide GetName, PutString, Indices, PutU32BE;
    var b := Encode(t) + suffix;
    match t
    case Null => assert b[1..] == suffix;
    case Bool(_) => assert b[1..][1..] == suffix;
    case Num(raw) =>
      assert b[1..] == raw + suffix;
      Seam(raw, suffix);
    case Str(s) => StringRoundTrip(s, suffix);
    case Arr(elems) =>
      IndicesFit(|elems|);
      PropsRoundTrip(Indices(|elems|), elems, map[], suffix);
      ReadArray(PutU32BE(|elems|), EncodeProps(Indices(|elems|), elems), suffix);
    case Obj(names, values) =>
      assert b[1..] == EncodeProps(names, values) + (END + suffix);
      PropsRoundTrip(names, values, map[], suffix);
  }

  /** An ECMA array's count is read and ignored. */
  lemma ReadArray(count: Bytes, props: Bytes, suffix: Bytes)
    requires |count| == 4
    ensures var o := ReadProps(props + (END + suffix), map[]);
            o.Got? ==> ReadValue([0x08] + (count + (props + END)) + suffix) == Got(VObj(o.value), o.rest)
  {
    hide ReadProps;
    Marked(0x08, count + (props + END), suffix);
    Assoc(count, props + END, suffix);
    Assoc(props, END, suffix);
    Seam(count, props + (END + suffix));
  }

  lemma EndOfProps(acc: map<Bytes, Value>, suffix: Bytes)
    ensures ReadProps(END + suffix, acc) == Got(acc, suffix)
  {
    var b := END + suffix;
    assert b[2..][1..] == suffix;
    assert U16BE(b[..2]) == 0;
  }

  lemma {:induction false} PropsRoundTrip(
    names: seq<Bytes>, values: seq<Tree>, acc: map<Bytes, Value>, suffix: Bytes)
    requires |names| == |values| && Distinct(names) && NamesFit(names, 0xFFFF)
    requires forall i :: 0 <= i < |names| ==> names[i] !in acc
    requires forall i :: 0 <= i < |values| ==> Shaped(values[i]) && Wf(values[i])
    ensures ReadProps(EncodeProps(names, values) + (END + suffix), acc)
            == Got(Gather(acc, names, values), suffix)
    decreases values, 0
  {
    hide GetName, PutName, Wf;
    if |names| == 0 {
      EndOfProps(acc, suffix);
      assert [] + (END + suffix) == END + suffix;
    } else {
      var tail := EncodeProps(names[1..], values[1..]) + (END + suffix);
      var b := EncodeProps(names, values) + (END + suffix);
      assert b == PutName(names[0]) + (Encode(values[0]) + tail);
      NameRoundTrip(names[0], Encode(values[0]) + tail);
      RoundTrip(values[0], tail);
      PropsRoundTrip(names[1..], values[1..], acc[names[0] := Norm(values[0])], suffix);
    }
  }

  // ---------------------------------------------------------------- property order

  /** The gathered map, property by property. */
  lemma {:induction false} GatherIs(acc: map<Bytes, Value>, names: seq<Bytes>, values: seq<Tree>)
    requires |names| == |values| && Distinct(names) && forall i :: 0 <= i < |values| ==> Wf(values[i])
    ensures var g := Gather(acc, names, values);
            && (forall i :: 0 <= i < |names| ==> names[i] in g && g[names[i]] == Norm(values[i]))
            && (forall k :: k in g <==> k in acc || k in names)
            && (forall k :: k in acc && k !in names ==> g[k] == acc[k])
    decreases |values|
  {
    hide Norm, Wf;
    if |names| > 0 {
      var acc1 := acc[names[0] := Norm(values[0])];
      GatherIs(acc1, names[1..], values[1..]);
      var g := Gather(acc, names, values);
      assert names[0] !in names[1..];
      forall i | 0 <= i < |names| ensures names[i] in g && g[names[i]] == Norm(values[i]) {
        assert i > 0 ==> names[i] == names[1..][i - 1] && values[i] == values[1..][i - 1];
      }
      assert forall k :: k in names <==> k == names[0] || k in names[1..];
    }
  }

  /** Two orders of the same properties. */
  ghost predicate SameProps(names: seq<Bytes>, values: seq<Tree>, names': seq<Bytes>, values': seq<Tree>)
    requires |names| == |values| && |names'| == |values'|
  {
    && (forall i :: 0 <= i < |names| ==>
          exists j :: 0 <= j < |names'| && names'[j] == names[i] && values'[j] == values[i])
    && (forall j :: 0 <= j < |names'| ==> names'[j] in names)
  }

  /** The decoded object does not depend on the order in which its properties were written. */
  lemma OrderDoesNotMatter(
    names: seq<Bytes>, values: seq<Tree>, names': seq<Bytes>, values': seq<Tree>, s: Bytes, s': Bytes)
    requires Wf(Obj(names, values)) && Wf(Obj(names', values')) && SameProps(names, values, names', values')
    ensures var r, r' := ReadValue(Encode(Obj(names, values)) + s), ReadValue(Encode(Obj(names', values')) + s');
            r.Got? && r'.Got? && r.value == r'.value && r.rest == s && r'.rest == s'
  {
    RoundTrip(Obj(names, values), s);
    RoundTrip(Obj(names', values'), s');
    GathersAgree(names, values, names', values');
  }

  lemma GathersAgree(names: seq<Bytes>, values: seq<Tree>, names': seq<Bytes>, values': seq<Tree>)
    requires Wf(Obj(names, values)) && Wf(Obj(names', values')) && SameProps(names, values, names', values')
    ensures Gather(map[], names, values) == Gather(map[], names', values')
  {
    hide Norm, Gather;
    GatherIs(map[], names, values);
    GatherIs(map[], names', values');
    var g, g' := Gather(map[], names, values), Gather(map[], names', values');
    forall k ensures k in g <==> k in g' {
      if k in names { var i :| 0 <= i < |names| && names[i] == k; assert k in names'; }
    }
    forall k | k in g ensures g[k] == g'[k] {
      var i :| 0 <= i < |names| && names[i] == k;
    }
  }

  // ---------------------------------------------------------------- sibling values

  /** A flat name/value list as an object; None where the writer would panic. */
  function PairUp(flat: seq<Tree>): Option<Tree> {
    if |flat| % 2 != 0 || exists i :: 0 <= i < |flat| / 2 && !flat[2 * i].Str? then None
    else Some(Obj(seq(|flat| / 2, i requires 0 <= i < |flat| / 2 => flat[2 * i].s),
                  seq(|flat| / 2, i requires 0 <= i < |flat| / 2 => flat[2 * i + 1])))
  }

  function AsSibling(t: Tree): Option<Tree> {
    if t.Arr? then PairUp(t.elems) else Some(t)
  }

  /** Name/value lists that are: even in length, names in the even places. */
  predicate Paired(ts: seq<Tree>) {
    forall i :: 0 <= i < |ts| ==> AsSibling(ts[i]).Some? && Shaped(AsSibling(ts[i]).value)
  }

  predicate SiblingsFit(ts: seq<Tree>) {
    Paired(ts) && forall i :: 0 <= i < |ts| ==> Wf(AsSibling(ts[i]).value)
  }

  function Siblings(ts: seq<Tree>): Bytes
    requires Paired(ts)
  {
    if |ts| == 0 then [] else Encode(AsSibling(ts[0]).value) + Siblings(ts[1..])
  }

  /** Reading sibling values until the input is used up. */
  function ReadAll(b: Bytes): Option<seq<Value>>
    decreases |b|
  {
    if |b| == 0 then Some([])
    else
      var v := ReadValue(b);
      if v.Fail? then None
      else
        var vs := ReadAll(v.rest);
        if vs.None? then None else Some([v.value] + vs.value)
  }

  /** A command message's arguments come back one by one, each name/value list as one object. */
  lemma {:induction false} SiblingsRoundTrip(ts: seq<Tree>)
    requires SiblingsFit(ts)
    ensures var r := ReadAll(Siblings(ts));
            r.Some? && |r.value| == |ts| && forall i :: 0 <= i < |ts| ==> r.value[i] == Norm(AsSibling(ts[i]).value)
    decreases |ts|
  {
    hide ReadValue, Encode, Norm, Wf, AsSibling;
    if |ts| > 0 {
      RoundTrip(AsSibling(ts[0]).value, Siblings(ts[1..]));
      SiblingsRoundTrip(ts[1..]);
      var r := ReadAll(Siblings(ts));
      forall i | 0 <= i < |ts| ensures r.value[i] == Norm(AsSibling(ts[i]).value) {
        assert i > 0 ==> ts[i] == ts[1..][i - 1];
      }
    }
  }

  // ---------------------------------------------------------------- what a written list of arguments reads back as

  /** Even in length, with strings in the even places. */
  predicate Pairable(flat: seq<Tree>) {
    |flat| % 2 == 0 && forall k :: 0 <= k < |flat| / 2 ==> flat[2 * k].Str?
  }

  /** A list's names are distinct and fit, and every value is one the reader gets back. */
  predicate Readable(t: Tree) {
    if !t.Arr? then Wf(t)
    else
      && Pairable(t.elems)
      && (forall k :: 0 <= k < |t.elems| / 2 ==> 0 < |t.elems[2 * k].s| <= 0xFFFF && Wf(t.elems[2 * k + 1]))
      && (forall j, k :: 0 <= j < k < |t.elems| / 2 ==> t.elems[2 * j].s != t.elems[2 * k].s)
  }

  /** A list is read back as an object that has exactly its names, each with the value next to it. */
  ghost predicate ReadsAs(t: Tree, v: Value)
    requires Readable(t)
  {
    if !t.Arr? then v == Norm(t)
    else
      && v.VObj?
      && (forall k :: 0 <= k < |t.elems| / 2 ==>
            t.elems[2 * k].s in v.props && v.props[t.elems[2 * k].s] == Norm(t.elems[2 * k + 1]))
      && (forall name :: name in v.props ==> exists k :: 0 <= k < |t.elems| / 2 && t.elems[2 * k].s == name)
  }

  lemma PairableIff(t: Tree)
    ensures AsSibling(t).Some? <==> (t.Arr? ==> Pairable(t.elems))
  {
  }

  /** The lists of these arguments pair up exactly when they are even with strings in the even places. */
  lemma PairableAll(ts: seq<Tree>)
    requires forall i :: 0 <= i < |ts| ==> Shaped(ts[i])
    ensures AllPairable(ts) <==> Paired(ts)
    ensures forall i :: 0 <= i < |ts| ==> AsSibling(ts[i]).Some? ==> Shaped(AsSibling(ts[i]).value)
  {
    hide AsSibling, Shaped, Pairable;
    forall i | 0 <= i < |ts|
      ensures AsSibling(ts[i]).Some? <==> (ts[i].Arr? ==> Pairable(ts[i].elems))
      ensures AsSibling(ts[i]).Some? ==> Shaped(AsSibling(ts[i]).value)
    {
      PairableIff(ts[i]);
      SiblingShaped(ts[i]);
    }
  }

  lemma ReadableFits(t: Tree)
    requires Readable(t)
    ensures AsSibling(t).Some? && Shaped(AsSibling(t).value) && Wf(AsSibling(t).value)
    ensures ReadsAs(t, Norm(AsSibling(t).value))
  {
    if t.Arr? {
      PairsUp(t.elems);
      PairsFit(t);
      hide Wf, Shaped, Readable, PairUp, Gather, ReadsAs, Pairable;
      var o := PairUp(t.elems).value;
      GatherIs(map[], o.names, o.values);
      ListReads(t, o.names, o.values, Gather(map[], o.names, o.values));
    }
  }

  lemma ListReads(t: Tree, names: seq<Bytes>, values: seq<Tree>, g: map<Bytes, Value>)
    requires t.Arr? && Readable(t) && |names| == |values| == |t.elems| / 2
    requires forall k :: 0 <= k < |names| ==> names[k] == t.elems[2 * k].s && values[k] == t.elems[2 * k + 1]
    requires forall k :: 0 <= k < |names| ==> names[k] in g && g[names[k]] == Norm(values[k])
    requires forall name :: name in g ==> name in names
    ensures ReadsAs(t, VObj(g))
  {
    hide Norm, Wf;
    forall name | name in g
      ensures exists k :: 0 <= k < |t.elems| / 2 && t.elems[2 * k].s == name
    {
      var k :| 0 <= k < |names| && names[k] == name;
      assert t.elems[2 * k].s == name;
    }
    forall k | 0 <= k < |names|
      ensures t.elems[2 * k].s in g && g[t.elems[2 * k].s] == Norm(t.elems[2 * k + 1])
    {
      assert names[k] == t.elems[2 * k].s;
    }
  }

  lemma PairsUp(flat: seq<Tree>)
    requires Pairable(flat)
    ensures var o := PairUp(flat);
            && o.Some? && o.value.Obj? && |o.value.names| == |o.value.values| == |flat| / 2
            && forall k :: 0 <= k < |flat| / 2 ==>
                 o.value.names[k] == flat[2 * k].s && o.value.values[k] == flat[2 * k + 1]
  {
  }

  lemma PairsFit(t: Tree)
    requires t.Arr? && Readable(t)
    ensures PairUp(t.elems).Some? && Shaped(PairUp(t.elems).value) && Wf(PairUp(t.elems).value)
  {
    PairsUp(t.elems);
    hide PairUp;
    var o := PairUp(t.elems).value;
    forall k | 0 <= k < |o.values|
      ensures Wf(o.values[k]) && Shaped(o.values[k]) && 0 < |o.names[k]| <= 0xFFFF
    {
      assert o.values[k] == t.elems[2 * k + 1] && o.names[k] == t.elems[2 * k].s;
    }
    assert forall j, k :: 0 <= j < k < |o.names| ==> o.names[j] == t.elems[2 * j].s && o.names[k] == t.elems[2 * k].s;
  }

  predicate AllPairable(ts: seq<Tree>) { forall i :: 0 <= i < |ts| ==> ts[i].Arr? ==> Pairable(ts[i].elems) }
  predicate AllReadable(ts: seq<Tree>) { forall i :: 0 <= i < |ts| ==> Readable(ts[i]) }

  /** These bytes read back as these arguments, one by one. */
  ghost predicate ReadBack(b: Bytes, ts: seq<Tree>)
    requires AllReadable(ts)
  {
    var r := ReadAll(b);
    r.Some? && |r.value| == |ts| && forall i :: 0 <= i < |ts| ==> ReadsAs(ts[i], r.value[i])
  }

  /** The arguments of a command, read back one by one. */
  lemma ArgumentsReadBack(ts: seq<Tree>)
    requires AllReadable(ts)
    ensures Paired(ts) && ReadBack(Siblings(ts), ts)
  {
    hide Readable, ReadsAs, AsSibling, Norm, Wf, Shaped;
    forall i | 0 <= i < |ts|
      ensures AsSibling(ts[i]).Some? && Shaped(AsSibling(ts[i]).value) && Wf(AsSibling(ts[i]).value)
      ensures ReadsAs(ts[i], Norm(AsSibling(ts[i]).value))
    {
      ReadableFits(ts[i]);
    }
    SiblingsRoundTrip(ts);
  }

  // ---------------------------------------------------------------- as the program does it

  /** The loop over an array's or an object's members, with the running count. */
  method WriteProps(names: seq<Bytes>, values: seq<Tree>) returns (out: Bytes, n: nat)
    requires |names| == |values| && forall i :: 0 <= i < |values| ==> Shaped(values[i])
    ensures out == EncodeProps(names, values) && n == CountProps(names, values)
    decreases values, 0
  {
    hide Shaped, PutName, NameCount;
    out, n := [], 0;
    for i := 0 to |names|
      invariant EncodeProps(names, values) == out + EncodeProps(names[i..], values[i..])
      invariant CountProps(names, values) == n + CountProps(names[i..], values[i..])
    {
      assert names[i..][1..] == names[i + 1..] && values[i..][1..] == values[i + 1..];
      var v, m := WriteValue(values[i]);
      var piece := PutName(names[i]) + v;
      ghost var tail := EncodeProps(names[i + 1..], values[i + 1..]);
      assert out + (piece + tail) == out + piece + tail;
      out, n := out + piece, n + NameCount(names[i]) + m;
    }
    assert out + [] == out;
  }

  /** WriteValue: the bytes and the count it reports. */
  method WriteValue(t: Tree) returns (out: Bytes, n: nat)
    requires Shaped(t)
    ensures out == Encode(t) && n == Count(t)
    decreases t, 1
  {
    match t
    case Null => return [0x05], 1;
    case Bool(b) => return [0x01, if b then 1 else 0], 2;
    case Num(raw) => return [0x00] + raw, 9;
    case Str(s) => return PutString(s), StringCount(s);
    case Arr(elems) =>
      var props, m := WriteProps(Indices(|Written(elems)|), Written(elems));
      return [0x08] + (PutU32BE(|elems|) + (props + END)), 5 + m + 3;
    case Obj(names, values) =>
      var props, m := WriteProps(names, values);
      return [0x03] + (props + END), 1 + m + 3;
  }

  /** The loop that fills the object's map, refusing a repeated name. */
  method ReadObjectProperty(b: Bytes) returns (r: Read<map<Bytes, Value>>)
    ensures r == ReadProps(b, map[])
  {
    var obj: map<Bytes, Value>, rest := map[], b;
    while true
      invariant ReadProps(rest, obj) == ReadProps(b, map[])
      decreases |rest|
    {
      var name := GetName(rest);
      if name.Fail? { return Fail(name.failure); }
      if name.value == [] {
        var end := ReadByte(name.rest);
        if end.Fail? { return Fail(end.failure); }
        if end.value != 0x09 { return Fail(Bad); }
        return Got(obj, end.rest);
      }
      if name.value in obj { return Fail(Bad); }
      var v := ReadValue(name.rest);
      if v.Fail? { return Fail(v.failure); }
      obj, rest := obj[name.value := v.value], v.rest;
    }
  }

  /** A flat list of shaped values pairs up to a shaped object. */
  lemma SiblingShaped(t: Tree)
    requires Shaped(t)
    ensures AsSibling(t).Some? ==> Shaped(AsSibling(t).value)
  {
  }

  /** WriteArrayAsSiblingButElemArrayAsObject; None where it would panic. */
  method WriteSiblings(ts: seq<Tree>) returns (out: Option<Bytes>)
    requires forall i :: 0 <= i < |ts| ==> Shaped(ts[i])
    ensures out.Some? <==> AllPairable(ts)
    ensures out.Some? ==> Paired(ts) && out.value == Siblings(ts)
    ensures AllReadable(ts) ==> out.Some? && ReadBack(out.value, ts)
  {
    hide AllPairable, AllReadable, ReadBack, AsSibling, Shaped, Encode;
    PairableAll(ts);
    if AllReadable(ts) { ArgumentsReadBack(ts); }
    var b := [];
    for i := 0 to |ts|
      invariant Paired(ts[..i])
      invariant Paired(ts) ==> Siblings(ts) == b + Siblings(ts[i..])
    {
      assert ts[i..][1..] == ts[i + 1..] && ts[i..][0] == ts[i];
      var t := AsSibling(ts[i]);
      if t.None? { return None; }
      var bytes, n := WriteValue(t.value);
      if Paired(ts) { assert b + (bytes + Siblings(ts[i + 1..])) == b + bytes + Siblings(ts[i + 1..]); }
      b := b + bytes;
      assert ts[..i + 1] == ts[..i] + [ts[i]];
    }
    assert ts[..|ts|] == ts && b + [] == b;
    return Some(b);
  }
}
