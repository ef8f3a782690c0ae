/**
 * The request-payload decoders of the session layer (server.go).
 *
 * They are simplified forms of the SSH `string` and `uint32` encodings of
 * section 5 of RFC 4251: a `uint32` is four bytes, most significant first, and
 * a `string` is a `uint32` length followed by that many bytes. The server
 * deviates from that encoding in two ways that this module keeps:
 *   - it reads only byte 3 of the 4-byte length prefix;
 *   - it adds 4 to that byte in Go `byte` arithmetic, so the end offset wraps
 *     modulo 256.
 * Go checks every index and slice bound at run time; a failed check is a
 * panic, which here is the `Panicked` outcome (never a polite rejection).
 */
module Wire {
  newtype byte = b: int | 0 <= b < 0x100
  newtype uint32 = x: int | 0 <= x < 0x1_0000_0000

  /** The run-time error a failed Go bounds check raises. */
  datatype Panic = IndexOutOfRange | SliceBoundsOutOfRange

  /** The outcome of running a decoder: a value, or a panic. */
  datatype Decoded<T> = Ok(value: T) | Panicked(panic: Panic)

  /** Terminal dimensions as the server reads them: width first, then height. */
  datatype Dims = Dims(width: uint32, height: uint32)

  /** The parts of a `pty-req` body (section 6.2 of RFC 4254) the server reads. */
  datatype PtyRequest = PtyRequest(term: seq<byte>, width: uint32, height: uint32)

  /** The sum of two Go `byte` values: eight-bit, wrapping. */
  function WrappingAdd(a: byte, b: byte): (r: byte)
    ensures a as int + b as int < 0x100 ==> r as int == a as int + b as int
    ensures a as int + b as int >= 0x100 ==> r as int == a as int + b as int - 0x100
  {
    ((a as int + b as int) % 0x100) as byte
  }

  /** The big-endian value of the first four bytes of `b`. */
  function BE32(b: seq<byte>): uint32
    requires |b| >= 4
  {
    (b[0] as int * 0x100_0000 + b[1] as int * 0x1_0000 + b[2] as int * 0x100 + b[3] as int) as uint32
  }

  /**
   * `binary.BigEndian.Uint32(b)`: it first evaluates `b[3]`, so a buffer shorter
   * than four bytes panics with an index error; longer buffers are read only up to
   * byte 3.
   */
  function Uint32(b: seq<byte>): (r: Decoded<uint32>)
    ensures r.Ok? <==> |b| >= 4
    ensures r.Ok? ==> r.value == BE32(b[..4])
    ensures r.Panicked? ==> r.panic == IndexOutOfRange
  {
    if |b| < 4 then Panicked(IndexOutOfRange) else Ok(BE32(b))
  }

  /**
   * `parseDims(b)`: width from bytes 0-3 and height from bytes 4-7, both
   * big-endian. Fewer than eight bytes panic; bytes after the eighth are ignored.
   */
  function ParseDims(b: seq<byte>): (r: Decoded<Dims>)
    ensures r.Ok? <==> |b| >= 8
    ensures r.Ok? ==> r.value == Dims(BE32(b[..4]), BE32(b[4..8]))
    ensures r.Panicked? ==> r.panic == IndexOutOfRange
  {
    match Uint32(b)
    case Panicked(e) => Panicked(e)
    case Ok(w) =>
      // b[4:] is in bounds: Uint32 succeeded, so |b| >= 4
      match Uint32(b[4..])
      case Panicked(e) => Panicked(e)
      case Ok(h) => Ok(Dims(w, h))
  }

  /**
   * The slice `p[4 : p[3]+4]`, used for the `exec` command and the `pty-req`
   * terminal name. `p[3]` panics when `p` is shorter than four bytes; the slice
   * panics when its wrapped end is below its start 4 (a length byte of 252 or
   * more) or beyond the payload (a length longer than what follows).
   */
  function LengthPrefixed(p: seq<byte>): (r: Decoded<seq<byte>>)
    ensures r.Ok? <==> |p| >= 4 && p[3] < 252 && 4 + p[3] as int <= |p|
    ensures r.Ok? ==> r.value == p[4 .. 4 + p[3] as int]
    ensures |p| < 4 ==> r == Panicked(IndexOutOfRange)
    ensures |p| >= 4 && r.Panicked? ==> r.panic == SliceBoundsOutOfRange
  {
    if |p| < 4 then Panicked(IndexOutOfRange)
    else
      var high := WrappingAdd(p[3], 4);
      if high < 4 || |p| < high as int then Panicked(SliceBoundsOutOfRange)
      else Ok(p[4 .. high])
  }

  /**
   * The `pty-req` body as the server reads it: the terminal name by
   * `LengthPrefixed`, then `parseDims` of everything after the name. The pixel
   * sizes and terminal modes that follow the two dimensions are ignored.
   */
  function ParsePtyReq(p: seq<byte>): (r: Decoded<PtyRequest>)
    ensures r.Ok? <==> |p| >= 4 && p[3] < 252 && 12 + p[3] as int <= |p|
    ensures r.Ok? ==>
              var n := p[3] as int;
              r.value == PtyRequest(p[4 .. 4 + n], BE32(p[4 + n ..]), BE32(p[8 + n ..]))
    ensures LengthPrefixed(p).Panicked? ==> r == Panicked(LengthPrefixed(p).panic)
    ensures LengthPrefixed(p).Ok? && r.Panicked? ==> r.panic == IndexOutOfRange
  {
    match LengthPrefixed(p)
    case Panicked(e) => Panicked(e)
    case Ok(term) =>
      // p[termLen+4:] with the same wrapped byte sum as the name's end
      match ParseDims(p[WrappingAdd(p[3], 4) ..])
      case Panicked(e) => Panicked(e)
      case Ok(d) => Ok(PtyRequest(term, d.width, d.height))
  }

  // ---------------------------------------------------------------------
  // The client side of the encoding (section 5 of RFC 4251), used to state
  // round trips.

  /** A `uint32` as four big-endian bytes. */
  function EncodeUint32(x: uint32): (r: seq<byte>)
    ensures |r| == 4
    ensures BE32(r) == x
  {
    var q1 := x as int / 0x100;
    var q2 := q1 / 0x100;
    var q3 := q2 / 0x100;
    assert q3 < 0x100;
    [q3 as byte, (q2 % 0x100) as byte, (q1 % 0x100) as byte, (x as int % 0x100) as byte]
  }

  /** A byte string with its full 4-byte big-endian length prefix. */
  function EncodeString(s: seq<byte>): (r: seq<byte>)
    requires |s| < 0x1_0000_0000
    ensures |r| == 4 + |s| && r[4..] == s
  {
    EncodeUint32(|s| as uint32) + s
  }

  /** Encoding and `BE32` are inverse in the other direction too: four bytes are re-encoded unchanged. */
  lemma EncodeBE32(b: seq<byte>)
    requires |b| == 4
    ensures EncodeUint32(BE32(b)) == b
  {
    var x := BE32(b) as int;
    var lo := b[0] as int * 0x1_0000 + b[1] as int * 0x100 + b[2] as int;
    assert x == lo * 0x100 + b[3] as int;
    assert x / 0x100 == lo && x % 0x100 == b[3] as int;
    var mid := b[0] as int * 0x100 + b[1] as int;
    assert lo == mid * 0x100 + b[2] as int;
    assert lo / 0x100 == mid && lo % 0x100 == b[2] as int;
    assert mid / 0x100 == b[0] as int && mid % 0x100 == b[1] as int;
  }

  /** Bytes 0-2 of the length prefix are never read: changing them does not change the decoded string. */
  lemma {:induction false} LengthPrefixedIgnoresHighBytes(p: seq<byte>, q: seq<byte>)
    requires |p| == |q| >= 3 && p[3..] == q[3..]
    ensures LengthPrefixed(p) == LengthPrefixed(q)
  {
    forall k | 3 <= k < |p|
      ensures p[k] == q[k]
    {
      assert p[k] == p[3..][k - 3] && q[k] == q[3..][k - 3];
    }
    if |p| >= 4 && LengthPrefixed(p).Ok? {
      var n := p[3] as int;
      assert p[4 .. 4 + n] == q[4 .. 4 + n];
    }
  }

  /** A string of at most 251 bytes, properly encoded, round-trips; trailing bytes are ignored. */
  lemma StringRoundTrip(s: seq<byte>, rest: seq<byte>)
    requires |s| <= 251
    ensures LengthPrefixed(EncodeString(s) + rest) == Ok(s)
  {
  }

  /** Strings of 252 to 255 bytes make the slice's wrapped end fall below its start: a panic. */
  lemma LongStringPanics(s: seq<byte>, rest: seq<byte>)
    requires 252 <= |s| <= 255
    ensures LengthPrefixed(EncodeString(s) + rest) == Panicked(SliceBoundsOutOfRange)
  {
  }

  /**
   * A string of 256 bytes or more is read with only the low byte of its length,
   * so the server sees a truncated prefix of it (when that byte is below 252).
   */
  lemma LongStringTruncated(s: seq<byte>, rest: seq<byte>)
    requires 256 <= |s| < 0x1_0000_0000 && |s| % 0x100 < 252
    ensures LengthPrefixed(EncodeString(s) + rest) == Ok(s[.. |s| % 0x100])
  {
    var p := EncodeString(s) + rest;
    assert p[4 .. 4 + |s| % 0x100] == s[.. |s| % 0x100];
  }

  /** Any pair of dimensions encoded as eight big-endian bytes parses back; extra bytes are ignored. */
  lemma DimsRoundTrip(w: uint32, h: uint32, rest: seq<byte>)
    ensures ParseDims(EncodeUint32(w) + EncodeUint32(h) + rest) == Ok(Dims(w, h))
  {
  }

  /** A `pty-req` body built from a short terminal name and two dimensions decodes back to them. */
  lemma PtyReqRoundTrip(term: seq<byte>, w: uint32, h: uint32, rest: seq<byte>)
    requires |term| <= 251
    ensures ParsePtyReq(EncodeString(term) + EncodeUint32(w) + EncodeUint32(h) + rest)
            == Ok(PtyRequest(term, w, h))
  {
    var n := |term|;
    var tail := EncodeUint32(w) + EncodeUint32(h) + rest;
    var p := EncodeString(term) + EncodeUint32(w) + EncodeUint32(h) + rest;
    assert p == EncodeUint32(n as uint32) + term + tail;
    assert p[3] as int == n;
    assert WrappingAdd(p[3], 4) as int == 4 + n;
    assert LengthPrefixed(p) == Ok(term) by {
      assert p[4 .. 4 + n] == term;
    }
    assert p[4 + n ..] == tail;
    DimsRoundTrip(w, h, rest);
  }
}
