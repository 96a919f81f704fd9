/** The AMF wire forms with their bytes spelled out (sections 2.2 to 2.14 of the AMF0 specification, 1.3.1 and 3 of the
    AMF3 one), and what the readers take that the writers never produce. */
module AmfForms {
  import opened ByteIO
  import opened AmfIO
  import A = Amf0
  import B = Amf3

  // ---------------------------------------------------------------- written

  lemma Forms0(name: Bytes, s: Bytes, raw: Raw8)
    requires |name| <= 0xFFFF && |s| <= 0xFFFF
    ensures A.Encode(A.Null) == [0x05]
    ensures A.Encode(A.Bool(true)) == [0x01, 0x01] && A.Encode(A.Bool(false)) == [0x01, 0x00]
    ensures A.Encode(A.Num(raw)) == [0x00] + raw
    ensures A.Encode(A.Str(s)) == [0x02, |s| / 0x100, |s| % 0x100] + s
    ensures A.Encode(A.Obj([name], [A.Num(raw)]))
            == [0x03, |name| / 0x100, |name| % 0x100] + name + ([0x00] + raw) + [0x00, 0x00, 0x09]
    ensures A.Encode(A.Arr([A.Null])) == [0x08, 0, 0, 0, 1, 0, 1, 0x30, 0x05, 0x00, 0x00, 0x09]
  {
    var o, v := A.Obj([name], [A.Num(raw)]), A.Num(raw);
    assert [name][1..] == [] && [v][1..] == [];
    assert A.EncodeProps([name], [v]) == A.PutName(name) + A.Encode(v) + A.EncodeProps([], []);
    assert A.Encode(o) == [0x03] + ((A.PutName(name) + A.Encode(v)) + A.END);
    assert A.PutName(name) == [|name| / 0x100, |name| % 0x100] + name;
    ArrayOfOne();
  }

  lemma ArrayOfOne()
    ensures A.Encode(A.Arr([A.Null])) == [0x08, 0, 0, 0, 1, 0, 1, 0x30, 0x05, 0x00, 0x00, 0x09]
  {
    var es := [A.Null];
    assert A.Written(es) == es && A.Indices(1) == A.Indices(0) + [A.Decimal(0)] && A.Decimal(0) == [0x30];
    assert A.Indices(1) == [[0x30]];
    assert es[1..] == [] && [[0x30]][1..] == [];
    assert A.EncodeProps([[0x30]], es) == A.PutName([0x30]) + A.Encode(A.Null) + A.EncodeProps([], []);
    assert A.PutName([0x30]) == [0, 1, 0x30];
  }

  /** A long string, and the element count of an array. */
  lemma Lengths0(s: Bytes, elems: seq<A.Tree>)
    requires 0xFFFF < |s| < 0x1_0000_0000 && |elems| < 0x8000_0000 && A.Shaped(A.Arr(elems))
    ensures A.Encode(A.Str(s))[0] == 0x0c && U32BE(A.Encode(A.Str(s))[1..5]) == |s| && A.Encode(A.Str(s))[5..] == s
    ensures var b := A.Encode(A.Arr(elems)); |b| >= 8 && b[0] == 0x08 && U32BE(b[1..5]) == |elems|
  {
    hide PutU32BE, U32BE, A.EncodeProps;
    GetPutU32BE(|s|);
    GetPutU32BE(|elems|);
    Field(0x0c, PutU32BE(|s|), s);
    Field(0x08, PutU32BE(|elems|), A.EncodeProps(A.Indices(|A.Written(elems)|), A.Written(elems)) + A.END);
  }

  lemma Field(m: Byte, f: Bytes, rest: Bytes)
    requires |f| == 4
    ensures var b := [m] + (f + rest); b[0] == m && b[1..5] == f && b[5..] == rest && |b| == 5 + |rest|
  {
  }

  lemma Forms3(s: Bytes, raw: Raw8)
    requires |s| < 0x40
    ensures B.Encode(B.Null) == [0x01] && B.Encode(B.Bool(false)) == [0x02] && B.Encode(B.Bool(true)) == [0x03]
    ensures B.Encode(B.Num(raw)) == [0x05] + raw
    ensures B.Encode(B.Str(s)) == [0x06, 2 * |s| + 1] + s && B.Encode(B.Blob(s)) == [0x0c, 2 * |s| + 1] + s
  {
    hide B.PutU29, B.Inline;
    ShortLength(|s|);
  }

  lemma ShortLength(n: nat)
    requires n < 0x40
    ensures B.LengthFits(n) && B.PutLength(n) == [2 * n + 1]
  {
    B.SmallLength(n);
  }

  lemma Object3(name: Bytes)
    requires 0 < |name| < 0x40
    ensures B.Writable(B.Obj([name], [B.Null]))
    ensures B.Encode(B.Obj([name], [B.Null])) == [0x0a, 0x0b, 0x01, 2 * |name| + 1] + name + [0x01, 0x01]
  {
    hide B.PutU29, B.Inline, B.PutLength, B.LengthFits;
    ShortLength(|name|);
    assert [name][1..] == [] && [B.Null][1..] == [];
    assert B.EncodeProps([name], [B.Null]) == B.PutUtf8(name) + B.Encode(B.Null) + B.EncodeProps([], []);
    assert B.PutUtf8(name) == [2 * |name| + 1] + name;
  }

  lemma Array3()
    ensures B.Writable(B.Arr([B.Null])) && B.Encode(B.Arr([B.Null])) == [0x09, 0x03, 0x01, 0x01]
  {
    hide B.PutU29, B.Inline, B.PutLength, B.LengthFits;
    ShortLength(1);
    assert B.EncodeAll([B.Null]) == B.Encode(B.Null) + B.EncodeAll([]);
  }

  /** The bounds of each U29 length. */
  lemma FormsU29()
    ensures B.PutU29(0x7F) == Some([0x7F]) && B.PutU29(0x80) == Some([0x81, 0x00])
    ensures B.PutU29(0x3FFF) == Some([0xFF, 0x7F]) && B.PutU29(0x4000) == Some([0x81, 0x80, 0x00])
    ensures B.PutU29(0x1F_FFFF) == Some([0xFF, 0xFF, 0x7F]) && B.PutU29(0x20_0000) == Some([0x80, 0xC0, 0x80, 0x00])
    ensures B.PutU29(0x1FFF_FFFF) == Some([0xFF, 0xFF, 0xFF, 0xFF])
  {
  }

  // ---------------------------------------------------------------- read only

  lemma {:induction false} ElemsBack(ts: seq<A.Tree>, suffix: Bytes)
    requires forall i :: 0 <= i < |ts| ==> A.Shaped(ts[i]) && A.Wf(ts[i])
    ensures A.ReadElems(Each(ts) + suffix, |ts|) == Got(Norms(ts), suffix)
    decreases |ts|
  {
    hide A.ReadValue, A.Encode, A.Norm, A.Wf, A.Shaped;
    if |ts| == 0 {
      assert [] + suffix == suffix;
    } else {
      Assoc(A.Encode(ts[0]), Each(ts[1..]), suffix);
      A.RoundTrip(ts[0], Each(ts[1..]) + suffix);
      ElemsBack(ts[1..], suffix);
    }
  }

  function Each(ts: seq<A.Tree>): Bytes
    requires forall i :: 0 <= i < |ts| ==> A.Shaped(ts[i])
  {
    if |ts| == 0 then [] else A.Encode(ts[0]) + Each(ts[1..])
  }

  function Norms(ts: seq<A.Tree>): seq<A.Value>
    requires forall i :: 0 <= i < |ts| ==> A.Wf(ts[i])
  {
    if |ts| == 0 then [] else [A.Norm(ts[0])] + Norms(ts[1..])
  }

  /** A strict array of written values comes back element by element. */
  lemma StrictArrayRead(ts: seq<A.Tree>, suffix: Bytes)
    requires |ts| < 0x1_0000_0000 && forall i :: 0 <= i < |ts| ==> A.Shaped(ts[i]) && A.Wf(ts[i])
    ensures A.ReadValue([0x0a] + (PutU32BE(|ts|) + (Each(ts) + suffix))) == Got(A.VStrict(Norms(ts)), suffix)
  {
    hide A.Encode, A.Norm, A.Wf, A.Shaped, PutU32BE, U32BE, A.ReadElems;
    var rest := Each(ts) + suffix;
    var b := [0x0a] + (PutU32BE(|ts|) + rest);
    assert b[0] == 0x0a && b[1..] == PutU32BE(|ts|) + rest;
    Seam(PutU32BE(|ts|), rest);
    GetPutU32BE(|ts|);
    ElemsBack(ts, suffix);
  }

  /** Undefined, and dates. */
  lemma OthersRead(raw: Raw8, zone: Bytes, suffix: Bytes)
    requires |zone| == 2
    ensures A.ReadValue([0x06] + suffix) == Got(A.VUndefined, suffix)
    ensures A.ReadValue([0x0b] + (raw + (zone + suffix))) == Got(A.VDate(raw, zone), suffix)
  {
    hide A.GetName, A.GetLong, A.ReadProps, A.ReadElems, B.ReadValue;
    Seam([0x06], suffix);
    Seam([0x0b], raw + (zone + suffix));
    Seam(raw, zone + suffix);
    Seam(zone, suffix);
  }

  /** A value in the other format. */
  lemma Amf3Inside(t: B.Tree, suffix: Bytes)
    requires B.Wf(t)
    ensures B.Writable(t) && A.ReadValue([0x11] + (B.Encode(t) + suffix)) == Got(A.VAmf3(B.Norm(t)), suffix)
  {
    assert B.Writable(t);
    hide A.GetName, A.GetLong, A.ReadProps, A.ReadElems, B.ReadValue, B.Encode, B.Wf, B.Writable, B.Norm;
    B.RoundTrip(t, suffix);
    Seam([0x11], B.Encode(t) + suffix);
  }

  /** AMF3 undefined and integers. */
  lemma Others3Read(n: U32, suffix: Bytes)
    requires n <= 0x1FFF_FFFF
    ensures B.ReadValue([0x00] + suffix) == Got(B.VUndefined, suffix)
    ensures B.ReadValue([0x04] + (B.PutU29(n).value + suffix)) == Got(B.VInt(n), suffix)
  {
    hide B.PutU29, B.GetU29;
    B.U29RoundTrip(n, suffix);
    assert ([0x00] + suffix)[1..] == suffix;
    assert ([0x04] + (B.PutU29(n).value + suffix))[1..] == B.PutU29(n).value + suffix;
  }

  // ---------------------------------------------------------------- refused

  /** Nothing is read from nothing, and no other marker is known. */
  lemma MarkersRefused(b: Bytes)
    ensures b == [] ==> A.ReadValue(b) == Fail(Eof) && B.ReadValue(b) == Fail(Eof)
    ensures b != [] && b[0] !in {0x00, 0x01, 0x02, 0x03, 0x05, 0x06, 0x08, 0x0a, 0x0b, 0x0c, 0x11} ==>
              A.ReadValue(b) == Fail(Bad)
    ensures b != [] && (b[0] in {0x07, 0x08, 0x09, 0x0b} || b[0] > 0x0c) ==> B.ReadValue(b) == Fail(Bad)
  {
  }

  /** A string cut short is not refused: what is missing reads as zeros, unless all of it is. */
  lemma CutStringPads(n: nat, part: Bytes)
    requires |part| < n <= 0xFFFF
    ensures A.ReadValue([0x02] + (PutU16BE(n) + part))
            == if part == [] then Fail(Eof) else Got(A.VStr(part + seq(n - |part|, i => 0)), [])
  {
    hide A.GetName, A.GetLong, A.ReadProps, A.ReadElems, B.ReadValue, PutU16BE;
    CutName(n, part);
    Seam([0x02], PutU16BE(n) + part);
  }

  /** The same in AMF3. */
  lemma CutString3Pads(n: nat, part: Bytes)
    requires |part| < n < 0x40
    ensures B.ReadValue([0x06, 2 * n + 1] + part)
            == if part == [] then Fail(Eof) else Got(B.VStr(part + seq(n - |part|, i => 0)), [])
  {
    hide B.GetUtf8, B.GetU29, B.GetBlob, B.ReadObject;
    CutUtf8(n, part);
    var b, body := [0x06, 2 * n + 1] + part, [2 * n + 1] + part;
    assert b[0] == 0x06 && b[1..] == body;
  }

  lemma CutName(n: nat, part: Bytes)
    requires |part| < n <= 0xFFFF
    ensures A.GetName(PutU16BE(n) + part) == if part == [] then Fail(Eof) else Got(part + seq(n - |part|, i => 0), [])
  {
    GetPutU16BE(n);
    hide PutU16BE, U16BE;
    Seam(PutU16BE(n), part);
    assert Zeros(n - |part|) == seq(n - |part|, i => 0);
  }

  lemma CutUtf8(n: nat, part: Bytes)
    requires |part| < n < 0x40
    ensures B.GetUtf8([2 * n + 1] + part) == if part == [] then Fail(Eof) else Got(part + seq(n - |part|, i => 0), [])
  {
    B.LastU29(2 * n + 1, part, 0, 0);
    hide B.GetU29From;
    assert Zeros(n - |part|) == seq(n - |part|, i => 0);
  }

  /** A number cut short is refused. */
  lemma CutNumberRefused(part: Bytes)
    requires |part| < 8
    ensures A.ReadValue([0x00] + part) == Fail(if part == [] then Eof else Bad)
    ensures B.ReadValue([0x05] + part) == Fail(if part == [] then Eof else Bad)
  {
    assert ([0x00] + part)[1..] == part && ([0x05] + part)[1..] == part;
  }

  /** An object that names a property twice is refused. */
  lemma RepeatedNameRefused(name: Bytes, x: A.Tree, y: A.Tree, suffix: Bytes)
    requires 0 < |name| <= 0xFFFF && A.Wf(x) && A.Shaped(y)
    ensures var rest := A.PutName(name) + (A.Encode(y) + suffix);
            A.ReadProps(A.PutName(name) + (A.Encode(x) + rest), map[]) == Fail(Bad)
  {
    hide A.Encode, A.PutName, A.GetName, A.ReadValue;
    var rest := A.PutName(name) + (A.Encode(y) + suffix);
    A.NameRoundTrip(name, A.Encode(x) + rest);
    A.RoundTrip(x, rest);
    A.NameRoundTrip(name, A.Encode(y) + suffix);
  }
}
