/** The bit reader (utils/bitreader/bitreader.go): a 64-bit shift buffer that refines a plain list of bits. */
module BitReader {
  import opened ByteIO

  type Bits = seq<bool>

  // ---------------------------------------------------------------- numbers and bits, most significant first

  function Num(bits: Bits): nat {
    if |bits| == 0 then 0 else 2 * Num(bits[..|bits| - 1]) + (if bits[|bits| - 1] then 1 else 0)
  }

  function BitsOf(n: nat, k: nat): (bits: Bits)
    ensures |bits| == k
  {
    if k == 0 then [] else BitsOf(n / 2, k - 1) + [n % 2 == 1]
  }

  function Pow2(k: nat): nat { if k == 0 then 1 else 2 * Pow2(k - 1) }

  lemma {:induction false} NumOfBits(n: nat, k: nat)
    requires n < Pow2(k)
    ensures Num(BitsOf(n, k)) == n
  {
    if k > 0 {
      NumOfBits(n / 2, k - 1);
      assert BitsOf(n, k)[..k - 1] == BitsOf(n / 2, k - 1);
    }
  }

  function ByteBits(b: Byte): (bits: Bits)
    ensures |bits| == 8
  {
    BitsOf(b, 8)
  }

  lemma NumOfByte(b: Byte)
    ensures Num(ByteBits(b)) == b
  {
    assert Pow2(8) == 2 * Pow2(7) && Pow2(7) == 2 * Pow2(6) && Pow2(6) == 2 * Pow2(5) && Pow2(5) == 2 * Pow2(4)
           && Pow2(4) == 2 * Pow2(3) && Pow2(3) == 2 * Pow2(2) && Pow2(2) == 2 * Pow2(1);
    NumOfBits(b, 8);
  }

  function Zeros(n: nat): (z: Bits)
    ensures |z| == n && forall i :: 0 <= i < n ==> !z[i]
  {
    seq(n, i => false)
  }

  lemma {:induction false} LeadingZeros(n: nat, bits: Bits)
    ensures Num(Zeros(n) + bits) == Num(bits)
    decreases n + |bits|
  {
    var w := Zeros(n) + bits;
    if |bits| > 0 {
      assert w[..|w| - 1] == Zeros(n) + bits[..|bits| - 1];
      LeadingZeros(n, bits[..|bits| - 1]);
    } else if n > 0 {
      assert w[..|w| - 1] == Zeros(n - 1) + bits;
      LeadingZeros(n - 1, bits);
    }
  }

  lemma {:induction false} NumBound(bits: Bits)
    ensures Num(bits) < Pow2(|bits|)
  {
    if |bits| > 0 { NumBound(bits[..|bits| - 1]); }
  }

  /** A byte stream as bits. */
  function Flat(bytes: Bytes): (bits: Bits)
    ensures |bits| == 8 * |bytes|
  {
    if |bytes| == 0 then [] else Flat(bytes[..|bytes| - 1]) + ByteBits(bytes[|bytes| - 1])
  }

  lemma FlatPush(bytes: Bytes, b: Byte)
    ensures Flat(bytes + [b]) == Flat(bytes) + ByteBits(b)
  {
    assert (bytes + [b])[..|bytes|] == bytes;
  }

  lemma {:induction false} FlatPrefix(a: Bytes, b: Bytes)
    ensures Flat(a) <= Flat(a + b)
  {
    if |b| == 0 {
      assert a + b == a;
    } else {
      FlatPrefix(a, b[..|b| - 1]);
      assert a + b == a + b[..|b| - 1] + [b[|b| - 1]];
      FlatPush(a + b[..|b| - 1], b[|b| - 1]);
    }
  }

  /** Eight bits at a byte boundary are that byte. */
  lemma {:induction false} FlatByte(bytes: Bytes, i: nat)
    requires i < |bytes|
    ensures Flat(bytes)[8 * i..8 * i + 8] == ByteBits(bytes[i])
    decreases |bytes|
  {
    var init := bytes[..|bytes| - 1];
    if i < |init| {
      FlatByte(init, i);
      assert Flat(bytes)[8 * i..8 * i + 8] == Flat(init)[8 * i..8 * i + 8];
    } else {
      assert Flat(bytes)[8 * i..8 * i + 8] == ByteBits(bytes[i]);
    }
  }

  // ---------------------------------------------------------------- uint64, bit for bit

  type Word = w: Bits | |w| == 64 witness Zeros(64)

  function Shl(w: Word, n: nat): Word { if n >= 64 then Zeros(64) else w[n..] + Zeros(n) }
  function Shr(w: Word, n: nat): Word { if n >= 64 then Zeros(64) else Zeros(n) + w[..64 - n] }
  function Or(a: Word, b: Word): Word { seq(64, i requires 0 <= i < 64 => a[i] || b[i]) }
  function And(a: Word, b: Word): Word { seq(64, i requires 0 <= i < 64 => a[i] && b[i]) }
  function Not(a: Word): Word { seq(64, i requires 0 <= i < 64 => !a[i]) }
  function OfByte(b: Byte): Word { Zeros(56) + ByteBits(b) }

  /** A word whose top bits are x and whose other bits are zero. */
  function Top(x: Bits): Word
    requires |x| <= 64
  {
    x + Zeros(64 - |x|)
  }

  /** Filling one byte below the bits already there. */
  lemma OrByte(x: Bits, b: Byte)
    requires |x| <= 56
    ensures Or(Top(x), Shl(OfByte(b), 56 - |x|)) == Top(x + ByteBits(b))
  {
    var n := |x|;
    var s := Shl(OfByte(b), 56 - n);
    assert forall i :: 0 <= i < n ==> !s[i];
    assert forall i :: 0 <= i < 8 ==> s[n + i] == ByteBits(b)[i];
    assert forall i :: n + 8 <= i < 64 ==> !s[i];
  }

  /** Masking the top n bits and shifting them down. */
  lemma TakeTop(w: Word, n: nat)
    requires n <= 64
    ensures Shr(And(w, Shl(Not(Zeros(64)), 64 - n)), 64 - n) == Zeros(64 - n) + w[..n]
  {
    var mask := Shl(Not(Zeros(64)), 64 - n);
    assert forall i :: 0 <= i < 64 ==> mask[i] == (i < n);
    var low := And(w, mask);
    assert forall i :: 0 <= i < n ==> low[i] == w[i];
    assert low[..n] == w[..n];
    if n == 0 { assert Shr(low, 64) == Zeros(64) + w[..0]; }
  }

  lemma TopPrefix(x: Bits, c: nat, n: nat)
    requires c + n <= |x| && |x| - c <= 64
    ensures Top(x[c..])[..n] == x[c..c + n]
  {
  }

  lemma ShlTop(x: Bits, n: nat)
    requires n <= |x| <= 64
    ensures Shl(Top(x), n) == Top(x[n..])
  {
  }

  /** One byte more at the bottom of the buffered bits, of which c have been consumed. */
  lemma Grow(x: Bytes, c: nat, b: Byte)
    requires c <= 8 * |x| && 8 * |x| - c <= 56
    ensures Or(Top(Flat(x)[c..]), Shl(OfByte(b), 56 - (8 * |x| - c))) == Top(Flat(x + [b])[c..])
  {
    hide Or, Shl, Top, OfByte, Flat, ByteBits;
    FlatPush(x, b);
    OrByte(Flat(x)[c..], b);
    DropOfConcat(Flat(x), ByteBits(b), c);
  }

  lemma WholeBytes(before: nat, after: nat, skipped: nat)
    requires before == after + skipped && skipped < 8 && after % 8 == 0
    ensures after == before / 8 * 8 && (after + 7) / 8 == before / 8 && skipped == before % 8
  {
  }

  lemma JoinBytes(s: Bytes, more: Bytes, first: nat, count: nat)
    requires first + count <= |s| && (more == [] || first + count == |s|)
    ensures s[first..first + count] + more == (s + more)[first..first + count + |more|]
  {
  }

  lemma Joined(s: Bytes, a: nat, b: nat, c: nat)
    requires a <= b <= c <= |s|
    ensures s[a..b] + s[b..c] == s[a..c]
  {
  }

  lemma DropOfConcat(a: Bits, b: Bits, c: nat)
    requires c <= |a|
    ensures (a + b)[c..] == a[c..] + b
  {
  }

  /** The next byte boundary. */
  function Boundary(c: nat): nat { (c + 7) / 8 * 8 }

  lemma BoundaryIs(c: nat, n: nat)
    requires n < 8 && (c + n) % 8 == 0
    ensures c + n == Boundary(c)
  {
  }

  // ---------------------------------------------------------------- the underlying reader

  datatype Error = Eof | UnexpectedEof | Other | Mismatch | Overflow

  function CheckEof(e: Option<Error>): Option<Error> { if e == Some(Eof) then Some(UnexpectedEof) else e }

  /** How the reader will answer a call: at most so many bytes, with or without an error. */
  datatype Answer = Answer(most: nat, error: Option<Error>)

  datatype Taken = Taken(bytes: Bytes, error: Option<Error>, pos: nat, script: seq<Answer>)

  /** What a call for n bytes gets: the next bytes, as many as are asked for, answered with and there. */
  function Take(data: Bytes, pos: nat, script: seq<Answer>, n: nat): Taken
    requires pos <= |data|
  {
    if |script| == 0 then Taken([], Some(Eof), pos, [])
    else
      var k := Min(n, Min(script[0].most, |data| - pos));
      Taken(data[pos..pos + k], script[0].error, pos + k, script[1..])
  }

  /** Any reader: its answers are whatever the script says, short reads, empty reads and errors included; after that it
      is at its end. */
  class ByteSource {
    const data: Bytes
    var pos: nat
    var script: seq<Answer>

    ghost predicate Valid()
      reads this
    {
      pos <= |data|
    }

    /** It never hands out bytes together with an error. */
    ghost predicate Clean()
      reads this
    {
      forall i :: 0 <= i < |script| ==> script[i].error.Some? ==> script[i].most == 0
    }

    constructor (data: Bytes, script: seq<Answer>)
      ensures Valid() && this.data == data && pos == 0 && this.script == script
    {
      this.data, pos, this.script := data, 0, script;
    }

    method Read(n: nat) returns (b: Bytes, e: Option<Error>)
      requires Valid()
      modifies this
      ensures Valid() && |b| <= n && pos == old(pos) + |b| && b == data[old(pos)..pos]
      ensures Taken(b, e, pos, script) == Take(data, old(pos), old(script), n)
      ensures old(Clean()) ==> Clean() && (e.Some? ==> b == [])
    {
      if |script| == 0 {
        return [], Some(Eof);
      }
      var k := Min(n, Min(script[0].most, |data| - pos));
      b, e := data[pos..pos + k], script[0].error;
      pos, script := pos + k, script[1..];
    }
  }

  // ---------------------------------------------------------------- what an operation takes in and consumes

  /** A source, what has been taken in of it without error, and how many of those bits have been consumed. */
  datatype Flow = Flow(data: Bytes, pos: nat, script: seq<Answer>, stream: Bytes, consumed: nat) {
    /** At most 64 bits are taken in and not consumed. */
    predicate Ok() { pos <= |data| && consumed <= 8 * |stream| <= consumed + 64 }

    function Left(): nat
      requires Ok()
    {
      8 * |stream| - consumed
    }
  }

  datatype Flown = Flown(flow: Flow, error: Option<Error>)

  /** fill: one call for as many whole bytes as there is room for. Bytes that come with an error are lost. */
  function FillFlow(f: Flow): (r: Flown)
    requires f.Ok()
    ensures r.flow.Ok() && r.flow.consumed == f.consumed && f.stream <= r.flow.stream && r.flow.data == f.data
    ensures |r.flow.script| < |f.script| || (f.script == [] && r.error == Some(Eof))
  {
    var t := Take(f.data, f.pos, f.script, (64 - f.Left()) / 8);
    var f1 := f.(pos := t.pos, script := t.script);
    if t.error.Some? then Flown(f1, t.error) else Flown(f1.(stream := f.stream + t.bytes), None)
  }

  /** peek's loop: fill until n bits are there, or the source fails. */
  function NeedFlow(f: Flow, n: nat): (r: Flown)
    requires f.Ok()
    ensures r.flow.Ok() && r.flow.consumed == f.consumed && f.stream <= r.flow.stream && r.flow.data == f.data
    ensures if r.error.None? then r.flow.Left() >= n else r.flow.Left() < n
    decreases |f.script|
  {
    if f.Left() >= n then Flown(f, None)
    else
      var t := FillFlow(f);
      if t.error.Some? then t else NeedFlow(t.flow, n)
  }

  lemma NeedNext(f: Flow, n: nat)
    requires f.Ok()
    ensures f.Left() >= n ==> NeedFlow(f, n) == Flown(f, None)
    ensures f.Left() < n ==> var t := FillFlow(f); NeedFlow(f, n) == if t.error.Some? then t else NeedFlow(t.flow, n)
  {
    hide FillFlow;
  }

  function PeekFlow(f: Flow, n: nat): (r: Flown)
    requires f.Ok()
    ensures r.flow.Ok() && r.flow.consumed == f.consumed && f.stream <= r.flow.stream && r.flow.data == f.data
  {
    if n > 56 && f.Left() % 8 != 0 then Flown(f, Some(Mismatch)) else NeedFlow(f, n)
  }

  /** skip's loop: drop what is there, then fill again for the rest. */
  function SkipFlow(f: Flow, n: nat): (r: Flown)
    requires f.Ok()
    ensures r.flow.Ok() && f.stream <= r.flow.stream && r.flow.data == f.data
    ensures if r.error.None? then r.flow.consumed == f.consumed + n
            else r.flow.consumed == 8 * |r.flow.stream| < f.consumed + n
    decreases n, |f.script|
  {
    var len := Min(n, f.Left());
    var f1 := f.(consumed := f.consumed + len);
    if n == len then Flown(f1, None)
    else
      var t := FillFlow(f1);
      if t.error.Some? then t.(error := CheckEof(t.error)) else SkipFlow(t.flow, n - len)
  }

  /** read: peek, and then skip what has been seen. */
  function ReadFlow(f: Flow, n: nat): (r: Flown)
    requires f.Ok()
    ensures r.flow.Ok() && f.stream <= r.flow.stream && r.flow.data == f.data
    ensures r.flow.consumed == if r.error.None? then f.consumed + n else f.consumed
  {
    var t := PeekFlow(f, n);
    if t.error.Some? then t.(error := CheckEof(t.error)) else t.(flow := t.flow.(consumed := f.consumed + n))
  }

  /** Reading bytes: skip to the boundary, take the whole bytes already there, and make one call for the others. */
  function BytesFlow(f: Flow, size: nat): (r: Flown)
    requires f.Ok()
    ensures r.flow.Ok() && f.stream <= r.flow.stream && r.flow.data == f.data
  {
    var k := Min(f.Left() / 8, size);
    var t := Take(f.data, f.pos, f.script, size - k);
    var at := f.consumed + f.Left() % 8 + 8 * k;
    Flown(Flow(f.data, t.pos, t.script, f.stream + t.bytes, at + 8 * |t.bytes|), t.error)
  }

  lemma ReadFails(f: Flow, n: nat)
    requires f.Ok()
    ensures var e := ReadFlow(f, n).error; CheckEof(e) == e
  {
  }

  // ---------------------------------------------------------------- when an operation succeeds

  /** The source's first error; when its answers run out, the end of its input. */
  function FirstError(script: seq<Answer>): Error {
    if |script| == 0 then Eof else if script[0].error.Some? then script[0].error.value else FirstError(script[1..])
  }

  /** An end of input in the middle of a read or skip is unexpected. */
  function Unexpected(e: Error): Error { if e == Eof then UnexpectedEof else e }

  /** A look ahead fails with the source's first error, reading and skipping with that or, for the end of the input,
      with an unexpected end; and none of them with anything else, but for the refused look ahead. */
  lemma ErrorsAre(f: Flow, n: nat)
    requires f.Ok()
    ensures var e := PeekFlow(f, n).error;
            e.Some? ==> e.value == if n > 56 && f.Left() % 8 != 0 then Mismatch else FirstError(f.script)
    ensures var e := ReadFlow(f, n).error;
            e.Some? ==> e.value == if n > 56 && f.Left() % 8 != 0 then Mismatch else Unexpected(FirstError(f.script))
    ensures SkipFlow(f, n).error.Some? ==> SkipFlow(f, n).error.value == Unexpected(FirstError(f.script))
  {
    hide FirstError, NeedFlow, SkipFlow;
    NeedFails(f, n);
    SkipFails(f, n);
  }

  lemma {:induction false} NeedFails(f: Flow, n: nat)
    requires f.Ok()
    ensures NeedFlow(f, n).error.Some? ==> NeedFlow(f, n).error.value == FirstError(f.script)
    decreases |f.script|
  {
    hide FillFlow, NeedFlow;
    NeedNext(f, n);
    if f.Left() < n {
      FillError(f);
      var t := FillFlow(f);
      if t.error.None? { NeedFails(t.flow, n); }
    }
  }

  lemma FillError(f: Flow)
    requires f.Ok()
    ensures var t := FillFlow(f);
            if t.error.Some? then t.error.value == FirstError(f.script)
            else FirstError(t.flow.script) == FirstError(f.script) && |t.flow.script| < |f.script|
  {
  }

  lemma {:induction false} SkipFails(f: Flow, n: nat)
    requires f.Ok()
    ensures SkipFlow(f, n).error.Some? ==> SkipFlow(f, n).error.value == Unexpected(FirstError(f.script))
    decreases n, |f.script|
  {
    hide FillFlow, SkipFlow, FirstError;
    if f.Left() < n {
      var f1 := f.(consumed := f.consumed + f.Left());
      SkipNext(f, n);
      FillError(f1);
      var t := FillFlow(f1);
      if t.error.None? { SkipFails(t.flow, n - f.Left()); }
    } else {
      SkipBuffered(f, n);
    }
  }

  /** The bytes offered before the first error, each answer counting up to `cap`. */
  function Offered(script: seq<Answer>, cap: nat): nat {
    if |script| == 0 || script[0].error.Some? then 0 else Min(script[0].most, cap) + Offered(script[1..], cap)
  }

  /** One fill that does not fail: the bytes taken in, and what is then still offered. */
  lemma FillGets(f: Flow, cap: nat)
    requires f.Ok() && |f.script| > 0 && f.script[0].error.None?
    ensures var t, k := FillFlow(f), Min((64 - f.Left()) / 8, Min(f.script[0].most, |f.data| - f.pos));
            && t.error.None?
            && t.flow == Flow(f.data, f.pos + k, f.script[1..], f.stream + f.data[f.pos..f.pos + k], f.consumed)
            && t.flow.Ok() && t.flow.Left() == f.Left() + 8 * k && |t.flow.data| - t.flow.pos == |f.data| - f.pos - k
            && Offered(f.script, cap) == Min(f.script[0].most, cap) + Offered(t.flow.script, cap)
  {
  }

  /** A look ahead succeeds exactly when the bytes offered before the first error, as far as there are any, make up the
      bits wanted; however they are portioned out. */
  lemma {:induction false} NeedIff(f: Flow, n: nat)
    requires f.Ok() && n <= 64 && (n > 56 ==> f.Left() % 8 == 0)
    ensures NeedFlow(f, n).error.None? <==> n <= f.Left() + 8 * Min(Offered(f.script, 8), |f.data| - f.pos)
    decreases |f.script|
  {
    hide FillFlow, Offered;
    if f.Left() < n {
      NoOffer(f, 8);
      if |f.script| > 0 && f.script[0].error.None? {
        FillGets(f, 8);
        NeedIff(FillFlow(f).flow, n);
      }
    }
  }

  /** The same for skipping, any number of bits. */
  lemma {:induction false} SkipIff(f: Flow, n: nat)
    requires f.Ok()
    ensures SkipFlow(f, n).error.None? <==> n <= f.Left() + 8 * Min(Offered(f.script, 8), |f.data| - f.pos)
    decreases n, |f.script|
  {
    hide FillFlow, Offered, SkipFlow;
    if f.Left() < n {
      var f1 := f.(consumed := f.consumed + f.Left());
      NoOffer(f1, 8);
      SkipNext(f, n);
      if |f.script| > 0 && f.script[0].error.None? {
        FillGets(f1, 8);
        SkipIff(FillFlow(f1).flow, n - f.Left());
      }
    } else {
      SkipBuffered(f, n);
    }
  }

  lemma NoOffer(f: Flow, cap: nat)
    requires f.Ok()
    ensures |f.script| == 0 || f.script[0].error.Some? ==> Offered(f.script, cap) == 0 && FillFlow(f).error.Some?
  {
  }

  // ---------------------------------------------------------------- the bit reader

  class Reader {
    const r: ByteSource
    var buffer: Word
    var remaining: nat
    ghost const start: nat
    ghost const clean: bool
    ghost var stream: Bytes   // the bytes taken in so far, without those that came with an error
    ghost var consumed: nat   // how many of their bits have been read or skipped

    /** The buffer holds exactly the bits taken in and not yet consumed, then zeros. From a clean source, nothing is
        lost on the way in. */
    ghost predicate Valid()
      reads this, r
    {
      && r.Valid() && remaining <= 64 && consumed + remaining == 8 * |stream|
      && buffer == Top(Flat(stream)[consumed..])
      && (clean ==> r.Clean() && start <= r.pos && stream == r.data[start..r.pos])
    }

    ghost function Now(): Flow
      reads this, r
    {
      Flow(r.data, r.pos, r.script, stream, consumed)
    }

    /** The plain list of bits this reader refines. */
    ghost function Seen(): Bits
      reads this
    {
      Flat(stream)
    }

    constructor (r: ByteSource)
      requires r.Valid()
      ensures Valid() && this.r == r && stream == [] && consumed == 0 && remaining == 0
      ensures clean == r.Clean() && start == r.pos
    {
      this.r, buffer, remaining, stream, consumed := r, Zeros(64), 0, [], 0;
      start, clean := r.pos, r.Clean();
    }

    predicate IsAligned()
      requires Valid()
      reads this, r
      ensures IsAligned() <==> consumed % 8 == 0
    {
      remaining % 8 == 0
    }

    /** Takes in as many whole bytes as fit. Every caller leaves room for one. */
    method Fill() returns (e: Option<Error>)
      requires Valid() && remaining <= 56
      modifies this`buffer, this`remaining, this`stream, r
      ensures Valid() && Flown(Now(), e) == FillFlow(old(Now()))
      ensures e.None? ==> remaining >= old(remaining) && remaining % 8 == old(remaining) % 8
    {
      hide Or, Shl, OfByte, Top, Flat, Take;
      var total := (64 - remaining) / 8;
      assert total >= 1;
      var raw;
      raw, e := r.Read(total);
      if e.Some? { return; }
      if clean { Joined(r.data, start, old(r.pos), r.pos); }
      Absorb(raw);
    }

    /** Fill's loop: each byte goes below the bits already there. */
    method Absorb(raw: Bytes)
      requires remaining + 8 * |raw| <= 64 && consumed + remaining == 8 * |stream|
      requires buffer == Top(Flat(stream)[consumed..])
      modifies this`buffer, this`remaining, this`stream
      ensures remaining == old(remaining) + 8 * |raw| && consumed + remaining == 8 * |stream|
      ensures stream == old(stream) + raw && buffer == Top(Flat(stream)[consumed..])
    {
      hide Or, Shl, OfByte, Top, Flat;
      var ir := remaining;
      for i := 0 to |raw|
        invariant remaining == ir + 8 * i && consumed + remaining == 8 * |stream|
        invariant stream == old(stream) + raw[..i] && buffer == Top(Flat(stream)[consumed..])
      {
        Grow(stream, consumed, raw[i]);
        assert stream + [raw[i]] == old(stream) + raw[..i + 1];
        var pos := 64 - 8 - 8 * i - ir;
        buffer := Or(buffer, Shl(OfByte(raw[i]), pos));
        remaining := remaining + 8;
        stream := stream + [raw[i]];
      }
      assert raw[..|raw|] == raw;
    }

    /** The next n bits, without consuming them. */
    method Peek(n: nat) returns (val: Word, e: Option<Error>)
      requires Valid() && n <= 64
      modifies this`buffer, this`remaining, this`stream, r
      ensures Valid() && Flown(Now(), e) == PeekFlow(old(Now()), n)
      ensures n > 56 && old(remaining) % 8 != 0 ==> e == Some(Mismatch) && buffer == old(buffer)
      ensures e.None? ==> remaining >= n && val == Zeros(64 - n) + Seen()[consumed..consumed + n]
      ensures e.Some? ==> val == Zeros(64)
    {
      hide Shl, Shr, And, Not, Top, Flat, FillFlow, NeedFlow;
      val, e := Zeros(64), None;
      if n > 56 && remaining % 8 != 0 {
        return val, Some(Mismatch);
      }
      while remaining < n
        invariant Valid() && remaining % 8 == old(remaining) % 8 && e.None?
        invariant NeedFlow(Now(), n) == NeedFlow(old(Now()), n)
        decreases |r.script|
      {
        NeedNext(Now(), n);
        e := Fill();
        if e.Some? { return; }
      }
      NeedNext(Now(), n);
      var dist := 64 - n;
      var mask := Shl(Not(Zeros(64)), dist);
      TakeTop(buffer, n);
      val := Shr(And(buffer, mask), dist);
      TopPrefix(Flat(stream), consumed, n);
    }

    /** Consumes n bits, any number; on an error, all that were taken in. */
    method SkipBits(count: nat) returns (e: Option<Error>)
      requires Valid()
      modifies this, r
      ensures Valid() && Flown(Now(), e) == SkipFlow(old(Now()), count)
    {
      hide Shl, Top, Flat, FillFlow, SkipFlow;
      var n: nat := count;
      while n > 0
        invariant Valid()
        invariant SkipFlow(Now(), n) == SkipFlow(old(Now()), count)
        decreases n, |r.script|
      {
        var len := Min(n, remaining);
        if n <= remaining { SkipBuffered(Now(), n); } else { SkipNext(Now(), n); }
        ShlTop(Flat(stream)[consumed..], len);
        assert Flat(stream)[consumed..][len..] == Flat(stream)[consumed + len..];
        buffer := Shl(buffer, len);
        remaining := remaining - len;
        consumed := consumed + len;
        n := n - len;
        if n > 0 {
          e := Fill();
          if e.Some? { return CheckEof(e); }
        } else {
          SkipBuffered(Now(), 0);
        }
      }
      SkipBuffered(Now(), 0);
      return None;
    }

    method ReadBits(n: nat) returns (val: Word, e: Option<Error>)
      requires Valid() && n <= 64
      modifies this, r
      ensures Valid() && Flown(Now(), e) == ReadFlow(old(Now()), n)
      ensures e.None? ==> val == Zeros(64 - n) + Seen()[old(consumed)..consumed]
      ensures e.Some? ==> val == Zeros(64)
    {
      hide Flat, Top, FillFlow;
      val, e := Peek(n);
      if e.Some? {
        return Zeros(64), CheckEof(e);
      }
      e := SkipBits(n);
    }

    /** Skips to the next byte boundary. */
    method Align() returns (n: nat)
      requires Valid()
      modifies this, r
      ensures Valid() && Now() == old(Now()).(consumed := consumed)
      ensures n < 8 && consumed == old(consumed) + n == Boundary(old(consumed)) && consumed % 8 == 0
    {
      hide Flat, Top, FillFlow;
      n := remaining % 8;
      BoundaryIs(consumed, n);
      var e := SkipBits(n);
    }

    method Peek64(n: nat) returns (val: nat, e: Option<Error>)
      requires Valid()
      modifies this`buffer, this`remaining, this`stream, r
      ensures Valid()
      ensures Flown(Now(), e) == if n > 64 then Flown(old(Now()), Some(Overflow)) else PeekFlow(old(Now()), n)
      ensures e.None? ==> consumed + n <= |Seen()| && val == Num(Seen()[consumed..consumed + n])
    {
      hide Flat, Top, PeekFlow;
      if n > 64 { return 0, Some(Overflow); }
      var w;
      w, e := Peek(n);
      if e.None? { LeadingZeros(64 - n, Seen()[consumed..consumed + n]); }
      val := Num(w);
    }

    method Read64(n: nat) returns (val: nat, e: Option<Error>)
      requires Valid()
      modifies this, r
      ensures Valid()
      ensures Flown(Now(), e) == if n > 64 then Flown(old(Now()), Some(Overflow)) else ReadFlow(old(Now()), n)
      ensures e.None? ==> consumed <= |Seen()| && val == Num(Seen()[old(consumed)..consumed])
    {
      hide Flat, Top, ReadFlow;
      if n > 64 { return 0, Some(Overflow); }
      var w;
      w, e := ReadBits(n);
      if e.None? { LeadingZeros(64 - n, Seen()[old(consumed)..consumed]); }
      val := Num(w);
    }

    method Read8(n: nat) returns (val: Byte, e: Option<Error>)
      requires Valid()
      modifies this, r
      ensures Valid()
      ensures Flown(Now(), e) == if n > 8 then Flown(old(Now()), Some(Overflow)) else ReadFlow(old(Now()), n)
      ensures e.None? ==> consumed <= |Seen()| && val == Num(Seen()[old(consumed)..consumed])
    {
      hide ReadFlow, PeekFlow, Flat, Top;
      if n > 8 { return 0, Some(Overflow); }
      var w;
      w, e := ReadBits(n);
      if e.Some? {
        ReadFails(old(Now()), n);
        return 0, CheckEof(e);
      }
      ghost var bits := Flat(stream)[old(consumed)..consumed];
      var low := w[56..];
      assert low == Zeros(8 - n) + bits;
      LeadingZeros(8 - n, bits);
      ByteRange(low);
      val := Num(low);
    }

    /** A single bit. An error while looking for it is swallowed: the result is then false, and nothing is consumed. */
    method Read1() returns (bit: bool, e: Option<Error>)
      requires Valid()
      modifies this, r
      ensures Valid() && e.None? && Now() == ReadFlow(old(Now()), 1).flow
      ensures if ReadFlow(old(Now()), 1).error.None? then consumed <= |Seen()| && bit == Seen()[old(consumed)] else !bit
    {
      hide Flat, Top, FillFlow, NeedFlow;
      var w;
      w, e := Peek(1);
      if e.Some? { return false, None; }
      bit := w[63];
      assert w[63] == Flat(stream)[consumed..consumed + 1][0];
      e := SkipBits(1);
    }

    /** Whole bytes: realigns, drains the buffer, then makes one call for the others. What it delivers is exactly the
        next bytes of the stream, from the first byte boundary. */
    method Read(size: nat) returns (p: Bytes, e: Option<Error>)
      requires Valid()
      modifies this, r
      ensures Valid() && Flown(Now(), e) == BytesFlow(old(Now()), size)
      ensures consumed % 8 == 0 && consumed == Boundary(old(consumed)) + 8 * |p| <= 8 * |stream|
      ensures p == stream[Boundary(old(consumed)) / 8..consumed / 8]
      ensures var k := Min(old(remaining) / 8, size);
              |p| == k + |Take(r.data, old(r.pos), old(r.script), size - k).bytes|
    {
      hide Flat, Top, Boundary, Take, SkipFlow;
      var skipped := Align();
      WholeBytes(old(remaining), remaining, skipped);
      p, e := Whole(size);
    }

    /** The whole bytes, once at a byte boundary. */
    method Whole(size: nat) returns (p: Bytes, e: Option<Error>)
      requires Valid() && consumed % 8 == 0 && remaining % 8 == 0
      modifies this, r
      ensures Valid() && consumed == old(consumed) + 8 * |p| <= 8 * |stream|
      ensures p == stream[old(consumed) / 8..consumed / 8]
      ensures var k := Min(old(remaining) / 8, size);
              var t := Take(r.data, old(r.pos), old(r.script), size - k);
              && |p| == k + |t.bytes| && Taken(t.bytes, e, r.pos, r.script) == t && stream == old(stream) + t.bytes
    {
      hide Flat, Top, Take, SkipFlow;
      var count := Min((remaining + 7) / 8, size);
      p := Buffered(count);
      ghost var first := old(consumed) / 8;
      var more;
      more, e := Direct(size - count);
      JoinBytes(old(stream), more, first, count);
      p := p + more;
    }

    /** Reads past the buffer, which is empty unless nothing is wanted. */
    method Direct(n: nat) returns (more: Bytes, e: Option<Error>)
      requires Valid() && consumed % 8 == 0 && (n > 0 ==> remaining == 0)
      modifies this, r
      ensures Valid() && |more| <= n && stream == old(stream) + more && consumed == old(consumed) + 8 * |more|
      ensures Taken(more, e, r.pos, r.script) == Take(r.data, old(r.pos), old(r.script), n)
    {
      hide Flat, Top;
      more, e := r.Read(n);
      if |more| > 0 {
        TakeDirect(more);
      } else {
        assert stream + more == stream;
      }
    }

    /** Read's loop over the bytes still in the buffer. */
    method Buffered(count: nat) returns (p: Bytes)
      requires Valid() && consumed % 8 == 0 && 8 * count <= remaining
      modifies this, r
      ensures Valid() && Now() == old(Now()).(consumed := consumed)
      ensures consumed == old(consumed) + 8 * count && remaining == old(remaining) - 8 * count
      ensures p == stream[old(consumed) / 8..consumed / 8]
    {
      hide Flat, Top;
      ghost var first := consumed / 8;
      p := [];
      for i := 0 to count
        invariant Valid() && Now() == old(Now()).(consumed := consumed)
        invariant consumed == 8 * (first + i) && remaining == old(remaining) - 8 * i
        invariant p == stream[first..first + i]
      {
        var val := BufferedByte();
        p := p + [val];
      }
    }

    /** Read8(8) at a byte boundary, with a whole byte in the buffer: it cannot fail. */
    method BufferedByte() returns (val: Byte)
      requires Valid() && remaining >= 8 && consumed % 8 == 0
      modifies this, r
      ensures Valid() && consumed == old(consumed) + 8 && remaining == old(remaining) - 8
      ensures Now() == old(Now()).(consumed := consumed)
      ensures val == stream[old(consumed) / 8]
    {
      hide Top, Shl;
      var w, e := ReadBits(8);
      ghost var i := old(consumed) / 8;
      FlatByte(stream, i);
      NumOfByte(stream[i]);
      var low := w[56..];
      assert low == Flat(stream)[8 * i..8 * i + 8];
      val := Num(low);
    }

    /** Bytes that went past the buffer count as taken in and consumed. */
    ghost method TakeDirect(more: Bytes)
      requires r.Valid() && remaining == 0 && consumed == 8 * |stream| && buffer == Top(Flat(stream)[consumed..])
      requires clean ==> r.Clean() && start + |stream| + |more| == r.pos && stream + more == r.data[start..r.pos]
      modifies this`stream, this`consumed
      ensures Valid() && stream == old(stream) + more && consumed == old(consumed) + 8 * |more|
    {
      assert Flat(stream)[consumed..] == [];
      stream, consumed := stream + more, consumed + 8 * |more|;
      assert Flat(stream)[consumed..] == [];
    }
  }

  // ---------------------------------------------------------------- whole runs against a plain list of bits

  datatype Op = PeekOp(n: nat) | ReadOp(n: nat) | SkipOp(n: nat) | AlignOp

  datatype Plain = Plain(results: seq<nat>, pos: nat)

  /** One operation on a list of bits and a position in it; None past the end. */
  function PlainStep(bits: Bits, s: Plain, op: Op): Option<Plain> {
    var n := if op.AlignOp? then (8 - s.pos % 8) % 8 else op.n;
    if s.pos + n > |bits| then None
    else
      var val := if op.PeekOp? || op.ReadOp? then Num(bits[s.pos..s.pos + n]) else n;
      Some(Plain(s.results + [val], if op.PeekOp? then s.pos else s.pos + n))
  }

  function PlainRun(bits: Bits, s: Plain, ops: seq<Op>): Option<Plain> {
    if |ops| == 0 then Some(s)
    else
      var before := PlainRun(bits, s, ops[..|ops| - 1]);
      if before.None? then None else PlainStep(bits, before.value, ops[|ops| - 1])
  }

  /** More input does not change what has been read. */
  lemma {:induction false} PlainRunGrows(bits: Bits, more: Bits, s: Plain, ops: seq<Op>)
    requires bits <= more && PlainRun(bits, s, ops).Some?
    ensures PlainRun(more, s, ops) == PlainRun(bits, s, ops)
    decreases |ops|
  {
    if |ops| > 0 {
      PlainRunGrows(bits, more, s, ops[..|ops| - 1]);
      var before := PlainRun(bits, s, ops[..|ops| - 1]).value;
      var op := ops[|ops| - 1];
      var n := if op.AlignOp? then (8 - before.pos % 8) % 8 else op.n;
      assert bits[before.pos..before.pos + n] == more[before.pos..before.pos + n];
    }
  }

  /** The byte 0xA5, four bits at a time: the high half first. */
  lemma HalvesSpelled()
    ensures PlainRun(Flat([0xA5]), Plain([], 0), [ReadOp(4), ReadOp(4)]) == Some(Plain([10, 5], 8))
  {
    EightBits();
    hide ByteBits, Num;
    var bits := [true, false, true, false, false, true, false, true];
    var ops := [ReadOp(4), ReadOp(4)];
    assert [0xA5][..0] == [] && Flat([0xA5]) == [] + ByteBits(0xA5) == bits;
    assert bits[0..4] == [true, false, true, false] && bits[4..8] == [false, true, false, true];
    FourBits(true, false, true, false);
    FourBits(false, true, false, true);
    assert ops[..1] == [ReadOp(4)] && ops[..1][..0] == [];
    assert [] + [10] == [10] && [10] + [5] == [10, 5];
    assert PlainRun(bits, Plain([], 0), []) == Some(Plain([], 0));
    assert PlainRun(bits, Plain([], 0), ops[..1]) == Some(Plain([10], 4));
  }

  lemma EightBits()
    ensures ByteBits(0xA5) == [true, false, true, false, false, true, false, true]
  {
    hide BitsOf;
    NextBit(1, 1, []);
    NextBit(2, 2, [true]);
    NextBit(5, 3, [true, false]);
    NextBit(10, 4, [true, false, true]);
    NextBit(20, 5, [true, false, true, false]);
    NextBit(41, 6, [true, false, true, false, false]);
    NextBit(82, 7, [true, false, true, false, false, true]);
    NextBit(165, 8, [true, false, true, false, false, true, false]);
  }

  lemma NextBit(n: nat, k: nat, high: Bits)
    requires k > 0 && (high == BitsOf(n / 2, k - 1) || (k == 1 && high == []))
    ensures BitsOf(n, k) == high + [n % 2 == 1]
  {
  }

  lemma FourBits(a: bool, b: bool, c: bool, d: bool)
    ensures Num([a, b, c, d])
            == (if a then 8 else 0) + (if b then 4 else 0) + (if c then 2 else 0) + if d then 1 else 0
  {
    assert [a, b, c, d][..3] == [a, b, c] && [a, b, c][..2] == [a, b] && [a, b][..1] == [a] && [a][..0] == [];
    assert Num([a]) == if a then 1 else 0;
    assert Num([a, b]) == 2 * Num([a]) + if b then 1 else 0;
    assert Num([a, b, c]) == 2 * Num([a, b]) + if c then 1 else 0;
  }

  /** One operation of the bit reader. */
  function OpFlow(f: Flow, op: Op): (r: Flown)
    requires f.Ok()
    ensures r.flow.Ok() && f.stream <= r.flow.stream && r.flow.data == f.data
  {
    match op
    case PeekOp(n) => if n > 64 then Flown(f, Some(Overflow)) else PeekFlow(f, n)
    case ReadOp(n) => if n > 64 then Flown(f, Some(Overflow)) else ReadFlow(f, n)
    case SkipOp(n) => SkipFlow(f, n)
    case AlignOp => SkipFlow(f, f.Left() % 8)
  }

  datatype Ran = Ran(flow: Flow, done: nat, error: Option<Error>)

  /** Operations in turn, up to the first that fails. */
  function RunFlow(f: Flow, ops: seq<Op>): (r: Ran)
    requires f.Ok()
    ensures r.flow.Ok() && r.done <= |ops| && (r.error.None? <==> r.done == |ops|)
  {
    if |ops| == 0 then Ran(f, 0, None)
    else
      var before := RunFlow(f, ops[..|ops| - 1]);
      if before.error.Some? then before
      else
        var t := OpFlow(before.flow, ops[|ops| - 1]);
        Ran(t.flow, if t.error.None? then |ops| else |ops| - 1, t.error)
  }

  method Perform(br: Reader, op: Op) returns (val: nat, e: Option<Error>)
    requires br.Valid()
    modifies br, br.r
    ensures br.Valid() && Flown(br.Now(), e) == OpFlow(old(br.Now()), op)
    ensures e.None? ==> PlainStep(br.Seen(), Plain([], old(br.consumed)), op) == Some(Plain([val], br.consumed))
  {
    hide Flat, Top, Num, NeedFlow, PeekFlow, ReadFlow, SkipFlow, FillFlow;
    match op {
      case PeekOp(n) => val, e := br.Peek64(n);
      case ReadOp(n) => val, e := br.Read64(n);
      case SkipOp(n) =>
        e := br.SkipBits(n);
        val := n;
      case AlignOp =>
        val := br.Align();
        e := None;
        AlignAmount(old(br.consumed), val);
        AlignLeft(old(br.Now()), val);
    }
    assert [] + [val] == [val];
  }

  lemma AlignLeft(f: Flow, n: nat)
    requires f.Ok() && n < 8 && (f.consumed + n) % 8 == 0
    ensures SkipFlow(f, f.Left() % 8) == Flown(f.(consumed := f.consumed + n), None)
  {
    hide FillFlow, SkipFlow;
    ModEight(f.consumed, n, |f.stream|);
    var left := f.Left();
    assert left % 8 == n && n <= left;
    SkipBuffered(f, n);
  }

  lemma AlignTo(c: nat)
    ensures var n := (8 - c % 8) % 8; n < 8 && (c + n) % 8 == 0
  {
  }

  lemma ModEight(c: nat, n: nat, k: nat)
    requires n < 8 && (c + n) % 8 == 0 && c <= 8 * k
    ensures (8 * k - c) % 8 == n && c + n <= 8 * k
  {
    var q := (c + n) / 8;
    assert c == 8 * q - n && q <= k;
    assert 8 * k - c == 8 * (k - q) + n;
  }

  /** What is there already is skipped without asking for more. */
  lemma SkipBuffered(f: Flow, n: nat)
    requires f.Ok() && n <= f.Left()
    ensures SkipFlow(f, n) == Flown(f.(consumed := f.consumed + n), None)
  {
  }

  lemma AlignAmount(c: nat, n: nat)
    requires n < 8 && (c + n) % 8 == 0
    ensures n == (8 - c % 8) % 8
  {
  }

  // ---------------------------------------------------------------- when a whole run succeeds

  /** The bytes taken in already and those the source is sure to hand over: one for every answer that offers any, before
      the first error, as far as there are any. */
  function Sure(f: Flow): Bytes
    requires f.Ok()
  {
    f.stream + f.data[f.pos..f.pos + Min(Offered(f.script, 1), |f.data| - f.pos)]
  }

  lemma {:induction false} CapsGrow(script: seq<Answer>)
    ensures Offered(script, 1) <= Offered(script, 8)
  {
    if |script| > 0 { CapsGrow(script[1..]); }
  }

  /** Taking bytes in leaves sure what was sure. */
  lemma FillKeeps(f: Flow)
    requires f.Ok() && (64 - f.Left()) / 8 >= 1
    ensures Sure(f) <= Sure(FillFlow(f).flow)
  {
    hide FillFlow, Offered, Sure;
    NoOffer(f, 1);
    if |f.script| > 0 && f.script[0].error.None? {
      FillGets(f, 1);
      var f1 := FillFlow(f).flow;
      var k, j := Min(Offered(f.script, 1), |f.data| - f.pos), f1.pos - f.pos;
      var j1 := Min(Offered(f1.script, 1), |f.data| - f1.pos);
      assert k <= j + j1;
      Extends(f.stream, f.data, f.pos, k, j, j1);
      SureIs(f, k);
      SureIs(f1, j1);
    } else {
      FillFails(f);
    }
  }

  lemma SureIs(f: Flow, k: nat)
    requires f.Ok() && k == Min(Offered(f.script, 1), |f.data| - f.pos)
    ensures Sure(f) == f.stream + f.data[f.pos..f.pos + k]
  {
  }

  lemma FillFails(f: Flow)
    requires f.Ok() && (|f.script| == 0 || f.script[0].error.Some?)
    ensures Sure(f) <= Sure(FillFlow(f).flow)
  {
    assert Sure(f) == f.stream;
  }

  lemma Extends(s: Bytes, data: Bytes, pos: nat, k: nat, j: nat, j1: nat)
    requires k <= j + j1 && pos + j + j1 <= |data|
    ensures s + data[pos..pos + k] <= (s + data[pos..pos + j]) + data[pos + j..pos + j + j1]
  {
    var d := data[pos..pos + j + j1];
    assert data[pos..pos + j] + data[pos + j..pos + j + j1] == d && data[pos..pos + k] == d[..k];
    Assoc(s, data[pos..pos + j], data[pos + j..pos + j + j1]);
    assert s + d[..k] == (s + d)[..|s| + k];
  }

  lemma RoomLeft(f: Flow, n: nat)
    requires f.Ok() && f.Left() < n <= 64 && (n > 56 ==> f.Left() % 8 == 0)
    ensures (64 - f.Left()) / 8 >= 1
  {
  }

  lemma {:induction false} NeedKeeps(f: Flow, n: nat)
    requires f.Ok() && n <= 64 && (n > 56 ==> f.Left() % 8 == 0)
    ensures Sure(f) <= Sure(NeedFlow(f, n).flow)
    decreases |f.script|
  {
    hide Sure, FillFlow;
    if f.Left() < n {
      RoomLeft(f, n);
      FillKeeps(f);
      var t := FillFlow(f);
      if t.error.None? { NeedKeeps(t.flow, n); }
    }
  }

  lemma SkipNext(f: Flow, n: nat)
    requires f.Ok() && f.Left() < n
    ensures var t := FillFlow(f.(consumed := f.consumed + f.Left()));
            SkipFlow(f, n) == if t.error.Some? then t.(error := CheckEof(t.error)) else SkipFlow(t.flow, n - f.Left())
  {
    hide FillFlow;
  }

  lemma {:induction false} SkipKeeps(f: Flow, n: nat)
    requires f.Ok()
    ensures Sure(f) <= Sure(SkipFlow(f, n).flow)
    decreases n, |f.script|
  {
    hide Sure, FillFlow, SkipFlow;
    if f.Left() < n {
      var f1 := f.(consumed := f.consumed + f.Left());
      SureStays(f, f1);
      FillKeeps(f1);
      SkipNext(f, n);
      var t := FillFlow(f1);
      if t.error.None? {
        SkipKeeps(t.flow, n - f.Left());
        PrefixTrans(Sure(f), Sure(t.flow), Sure(SkipFlow(f, n).flow));
      }
    } else {
      SkipBuffered(f, n);
      SureStays(f, SkipFlow(f, n).flow);
    }
  }

  lemma PrefixTrans(a: Bytes, b: Bytes, c: Bytes)
    requires a <= b && b <= c
    ensures a <= c
  {
  }

  /** What the bit reader refuses however much there is to read. */
  predicate Refused(pos: nat, op: Op) {
    (op.PeekOp? || op.ReadOp?) && (op.n > 64 || (op.n > 56 && pos % 8 != 0))
  }

  lemma SureLength(f: Flow)
    requires f.Ok()
    ensures |Sure(f)| <= |f.stream| + Min(Offered(f.script, 8), |f.data| - f.pos)
  {
    CapsGrow(f.script);
  }

  /** An operation the sure bits are enough for succeeds, unless it is one that is refused. */
  lemma OpSucceeds(f: Flow, op: Op)
    requires f.Ok() && !Refused(f.consumed, op) && PlainStep(Flat(Sure(f)), Plain([], f.consumed), op).Some?
    ensures OpFlow(f, op).error.None? && Sure(f) <= Sure(OpFlow(f, op).flow)
  {
    hide Flat, Num, Offered, NeedFlow, SkipFlow;
    SureLength(f);
    match op
    case AlignOp =>
      AlignTo(f.consumed);
      AlignLeft(f, (8 - f.consumed % 8) % 8);
      SureStays(f, OpFlow(f, op).flow);
    case SkipOp(n) =>
      hide Sure;
      SkipIff(f, n);
      SkipKeeps(f, n);
    case PeekOp(n) =>
      hide Sure;
      Aligned(f);
      NeedIff(f, n);
      NeedKeeps(f, n);
    case ReadOp(n) =>
      Aligned(f);
      NeedIff(f, n);
      NeedKeeps(f, n);
      SureStays(PeekFlow(f, n).flow, OpFlow(f, op).flow);
  }

  /** Consuming changes nothing about what is sure. */
  lemma SureStays(f: Flow, f1: Flow)
    requires f.Ok() && f1.Ok() && f1 == f.(consumed := f1.consumed)
    ensures Sure(f1) == Sure(f)
  {
  }

  lemma Aligned(f: Flow)
    requires f.Ok()
    ensures f.Left() % 8 == 0 <==> f.consumed % 8 == 0
  {
  }

  predicate NoneRefused(bits: Bits, s: Plain, ops: seq<Op>) {
    |ops| == 0 ||
    (var before := PlainRun(bits, s, ops[..|ops| - 1]);
     NoneRefused(bits, s, ops[..|ops| - 1]) && (before.Some? ==> !Refused(before.value.pos, ops[|ops| - 1])))
  }

  /** A run succeeds when the sure bits are enough for it and nothing in it is refused. */
  lemma {:induction false} RunSucceeds(f: Flow, ops: seq<Op>)
    requires f.Ok() && PlainRun(Flat(Sure(f)), Plain([], f.consumed), ops).Some?
    requires NoneRefused(Flat(Sure(f)), Plain([], f.consumed), ops)
    ensures var r := RunFlow(f, ops);
            && r.error.None? && Sure(f) <= Sure(r.flow)
            && PlainRun(Flat(Sure(f)), Plain([], f.consumed), ops).value.pos == r.flow.consumed
    decreases |ops|
  {
    if |ops| > 0 {
      hide PlainStep, OpFlow, Sure, Flat, Refused;
      var init, op := ops[..|ops| - 1], ops[|ops| - 1];
      RunSucceeds(f, init);
      var f1 := RunFlow(f, init).flow;
      SeenGrows(Sure(f), Sure(f1));
      StepGrows(Flat(Sure(f)), Flat(Sure(f1)), PlainRun(Flat(Sure(f)), Plain([], f.consumed), init).value, op);
      OpSucceeds(f1, op);
      OpMoves(f1, op);
    }
  }

  function Moved(pos: nat, op: Op): nat {
    match op
    case PeekOp(_) => pos
    case AlignOp => pos + (8 - pos % 8) % 8
    case _ => pos + op.n
  }

  /** Whether a step succeeds depends neither on the results before it nor on input it does not reach. */
  lemma StepGrows(bits: Bits, more: Bits, s: Plain, op: Op)
    requires bits <= more && PlainStep(bits, s, op).Some?
    ensures PlainStep(more, Plain([], s.pos), op).Some? && PlainStep(bits, s, op).value.pos == Moved(s.pos, op)
  {
  }

  lemma OpMoves(f: Flow, op: Op)
    requires f.Ok() && OpFlow(f, op).error.None?
    ensures OpFlow(f, op).flow.consumed == Moved(f.consumed, op)
  {
    hide NeedFlow, SkipFlow, FillFlow;
    match op
    case AlignOp =>
      AlignTo(f.consumed);
      AlignLeft(f, (8 - f.consumed % 8) % 8);
    case _ =>
  }

  /** Any sequence of operations, on any source: up to the first error, every result is what a plain list of the bits
      taken in gives; and there is no error when the bytes the source is sure to hand over are enough. */
  method RunOps(br: Reader, ops: seq<Op>) returns (results: seq<nat>, e: Option<Error>)
    requires br.Valid()
    modifies br, br.r
    ensures br.Valid() && Ran(br.Now(), |results|, e) == RunFlow(old(br.Now()), ops)
    ensures var run := PlainRun(br.Seen(), Plain([], old(br.consumed)), ops[..|results|]);
            run.Some? && run.value.results == results && (e.None? ==> run.value.pos == br.consumed)
    ensures var f, s := old(br.Now()), Plain([], old(br.consumed));
            var plain := PlainRun(Flat(Sure(f)), s, ops);
            plain.Some? && NoneRefused(Flat(Sure(f)), s, ops) ==>
              && e.None? && plain == Some(Plain(results, br.consumed))
              && PlainRun(Flat(f.stream + f.data[f.pos..]), s, ops) == plain
  {
    hide PlainStep, Flat, OpFlow, Sure;
    ghost var f, s := br.Now(), Plain([], br.consumed);
    results, e := [], None;
    for i := 0 to |ops|
      invariant br.Valid() && |results| == i && e.None? && RunFlow(f, ops[..i]) == Ran(br.Now(), i, None)
      invariant PlainRun(br.Seen(), s, ops[..i]) == Some(Plain(results, br.consumed))
    {
      ghost var seen, pos := br.stream, br.consumed;
      var val;
      val, e := Perform(br, ops[i]);
      SeenGrows(seen, br.stream);
      PlainRunGrows(Flat(seen), Flat(br.stream), s, ops[..i]);
      assert ops[..i + 1][..i] == ops[..i];
      if e.Some? {
        StopsRun(f, ops, i);
        RunHolds(f, ops, br.stream);
        return;
      }
      StepAppends(br.Seen(), results, pos, ops[i], val, br.consumed);
      results := results + [val];
    }
    assert ops[..|ops|] == ops;
    RunHolds(f, ops, br.stream);
  }

  lemma {:induction false} StopsRun(f: Flow, ops: seq<Op>, i: nat)
    requires f.Ok() && i < |ops| && RunFlow(f, ops[..i + 1]).error.Some?
    ensures RunFlow(f, ops) == RunFlow(f, ops[..i + 1])
    decreases |ops|
  {
    if i + 1 == |ops| {
      assert ops[..i + 1] == ops;
    } else {
      assert ops[..|ops| - 1][..i + 1] == ops[..i + 1];
      StopsRun(f, ops[..|ops| - 1], i);
    }
  }

  /** The plain run over the sure bits, over all the source has, and over what was taken in, are one. */
  lemma RunHolds(f: Flow, ops: seq<Op>, stream: Bytes)
    requires f.Ok() && stream == RunFlow(f, ops).flow.stream
    ensures var s := Plain([], f.consumed);
            var plain := PlainRun(Flat(Sure(f)), s, ops);
            plain.Some? && NoneRefused(Flat(Sure(f)), s, ops) ==>
              && RunFlow(f, ops).error.None? && PlainRun(Flat(f.stream + f.data[f.pos..]), s, ops) == plain
              && (PlainRun(Flat(stream), s, ops).Some? ==> PlainRun(Flat(stream), s, ops) == plain)
  {
    var s := Plain([], f.consumed);
    if PlainRun(Flat(Sure(f)), s, ops).Some? && NoneRefused(Flat(Sure(f)), s, ops) {
      RunSucceeds(f, ops);
      var f1 := RunFlow(f, ops).flow;
      SeenGrows(Sure(f), f.stream + f.data[f.pos..]);
      PlainRunGrows(Flat(Sure(f)), Flat(f.stream + f.data[f.pos..]), s, ops);
      SeenGrows(Sure(f), Sure(f1));
      PlainRunGrows(Flat(Sure(f)), Flat(Sure(f1)), s, ops);
      SeenGrows(stream, Sure(f1));
      if PlainRun(Flat(stream), s, ops).Some? {
        PlainRunGrows(Flat(stream), Flat(Sure(f1)), s, ops);
      }
    }
  }

  lemma SeenGrows(a: Bytes, b: Bytes)
    requires a <= b
    ensures Flat(a) <= Flat(b)
  {
    FlatPrefix(a, b[|a|..]);
    assert a + b[|a|..] == b;
  }

  lemma StepAppends(bits: Bits, results: seq<nat>, pos: nat, op: Op, val: nat, pos1: nat)
    requires PlainStep(bits, Plain([], pos), op) == Some(Plain([val], pos1))
    ensures PlainStep(bits, Plain(results, pos), op) == Some(Plain(results + [val], pos1))
  {
    var one := PlainStep(bits, Plain([], pos), op).value.results;
    assert one == [] + [one[0]];
  }

  lemma ByteRange(bits: Bits)
    requires |bits| == 8
    ensures Num(bits) < 0x100
  {
    NumBound(bits);
    assert Pow2(8) == 2 * Pow2(7) && Pow2(7) == 2 * Pow2(6) && Pow2(6) == 2 * Pow2(5) && Pow2(5) == 2 * Pow2(4)
           && Pow2(4) == 2 * Pow2(3) && Pow2(3) == 2 * Pow2(2) && Pow2(2) == 2 * Pow2(1);
  }
}
