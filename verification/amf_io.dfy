/** What the AMF readers see of a byte reader, error kinds included. */
module AmfIO {
  import opened ByteIO

  datatype Failure = Eof | Bad
  datatype Read<+T> = Got(value: T, rest: Bytes) | Fail(failure: Failure)

  function ReadByte(b: Bytes): (r: Read<Byte>)
    ensures r.Got? ==> |r.rest| < |b|
  {
    if |b| == 0 then Fail(Eof) else Got(b[0], b[1..])
  }

  /** A full read: end of file only when nothing at all could be read. */
  function ReadExactly(b: Bytes, n: nat): (r: Read<Bytes>)
    requires n > 0
    ensures r.Got? ==> |r.value| == n && |r.rest| < |b|
  {
    if |b| >= n then Got(b[..n], b[n..]) else if |b| == 0 then Fail(Eof) else Fail(Bad)
  }

  function Zeros(n: nat): (z: Bytes)
    ensures |z| == n
  {
    seq(n, i => 0)
  }

  /** A single Read into a zeroed buffer of n bytes, whose count is not looked at: what was missing
      stays zero. */
  function ReadInto(b: Bytes, n: nat): (r: Read<Bytes>)
    ensures r.Got? ==> |r.value| == n && |r.rest| <= |b|
  {
    if |b| == 0 then Fail(Eof)
    else if |b| >= n then Got(b[..n], b[n..])
    else Got(b + Zeros(n - |b|), [])
  }

  type Raw8 = b: Bytes | |b| == 8 witness Zeros(8)

  /** Names are distinct, as a map's keys are. */
  predicate Distinct(names: seq<Bytes>) {
    forall i, j :: 0 <= i < j < |names| ==> names[i] != names[j]
  }
}
