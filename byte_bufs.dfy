/** Byte-level primitives of the stack's BufWriter / BufReader and of the
    host/network byte-order conversions, written as functions on byte
    sequences.  CIP puts multi-byte integers on the wire little-endian; the
    host is taken to be little-endian, so htonl and ntohl both swap the four
    bytes of a word. */
module ByteBufs {

  type Bytes = seq<bv8>

  datatype Option<T> = None | Some(value: T)

  /** Little-endian value of two bytes. */
  function Le16(b0: bv8, b1: bv8): bv16
  {
    (b0 as bv16) | ((b1 as bv16) << 8)
  }

  /** Little-endian value of four bytes. */
  function Le32(b0: bv8, b1: bv8, b2: bv8, b3: bv8): bv32
  {
    (b0 as bv32) | ((b1 as bv32) << 8) | ((b2 as bv32) << 16) | ((b3 as bv32) << 24)
  }

  // ---------------------------------------------------------------- writer

  /** put8: the byte itself. */
  function Put8(x: bv8): (r: Bytes)
    ensures |r| == 1 && r[0] == x
  {
    [x]
  }

  /** put16: the low byte first. */
  function Put16(x: bv16): (r: Bytes)
    ensures |r| == 2 && Le16(r[0], r[1]) == x
  {
    [(x & 0xFF) as bv8, (x >> 8) as bv8]
  }

  /** put32: the least significant byte first. */
  function Put32(x: bv32): (r: Bytes)
    ensures |r| == 4 && Le32(r[0], r[1], r[2], r[3]) == x
  {
    [(x & 0xFF) as bv8, ((x >> 8) & 0xFF) as bv8, ((x >> 16) & 0xFF) as bv8, (x >> 24) as bv8]
  }

  /** fill(n): n zero bytes. */
  function Fill(n: nat): (r: Bytes)
    ensures |r| == n
    ensures forall k :: 0 <= k < n ==> r[k] == 0
  {
    seq(n, _ => 0)
  }

  /** put_STRING, the CIP STRING encoding: a 16-bit character count, low byte
      first, then the characters.  The count is the low 16 bits of the
      length, as put16 of a size would write it. */
  function PutString(s: Bytes): (r: Bytes)
    ensures |r| == 2 + |s|
    ensures Le16(r[0], r[1]) == (|s| % 0x1_0000) as bv16
    ensures r[2..] == s
  {
    Put16((|s| % 0x1_0000) as bv16) + s
  }

  /** Writing the bytes of a little-endian value gives those bytes back. */
  lemma PutLe(b0: bv8, b1: bv8, b2: bv8, b3: bv8)
    ensures Put16(Le16(b0, b1)) == [b0, b1]
    ensures Put32(Le32(b0, b1, b2, b3)) == [b0, b1, b2, b3]
  {
  }

  /** The first two and first four elements of a sequence. */
  lemma Prefixes<T>(r: seq<T>)
    ensures |r| >= 2 ==> r[..2] == [r[0], r[1]]
    ensures |r| >= 4 ==> r[..4] == [r[0], r[1], r[2], r[3]]
  {
  }

  // ---------------------------------------------------------------- reader

  /** get8 on a reader positioned at `r`: the byte read and what remains, or
      None when the reader has run out of bytes. */
  function Get8(r: Bytes): (o: Option<(bv8, Bytes)>)
    ensures o.Some? <==> |r| >= 1
    ensures o.Some? ==> Put8(o.value.0) + o.value.1 == r
  {
    if |r| < 1 then None else Some((r[0], r[1..]))
  }

  function Get16(r: Bytes): (o: Option<(bv16, Bytes)>)
    ensures o.Some? <==> |r| >= 2
    ensures o.Some? ==> Put16(o.value.0) + o.value.1 == r
  {
    if |r| < 2 then None
    else
      var v := Le16(r[0], r[1]);
      PutLe(r[0], r[1], 0, 0);
      Prefixes(r);
      Some((v, r[2..]))
  }

  function Get32(r: Bytes): (o: Option<(bv32, Bytes)>)
    ensures o.Some? <==> |r| >= 4
    ensures o.Some? ==> Put32(o.value.0) + o.value.1 == r
  {
    if |r| < 4 then None
    else
      var v := Le32(r[0], r[1], r[2], r[3]);
      PutLe(r[0], r[1], r[2], r[3]);
      Prefixes(r);
      Some((v, r[4..]))
  }

  /** Reading back what put wrote yields the value and leaves the rest. */
  lemma GetPut(x8: bv8, x16: bv16, x32: bv32, rest: Bytes)
    ensures Get8(Put8(x8) + rest) == Some((x8, rest))
    ensures Get16(Put16(x16) + rest) == Some((x16, rest))
    ensures Get32(Put32(x32) + rest) == Some((x32, rest))
  {
    assert (Put8(x8) + rest)[1..] == rest;
    assert (Put16(x16) + rest)[2..] == rest;
    assert (Put32(x32) + rest)[4..] == rest;
  }

  // ---------------------------------------------------------- byte order

  /** The four bytes of a word in the opposite order. */
  function Swap32(x: bv32): bv32
  {
    ((x & 0xFF) << 24) | ((x & 0xFF00) << 8) | ((x >> 8) & 0xFF00) | (x >> 24)
  }

  /** Swap32 writes out as the bytes of its argument in reverse order. */
  lemma SwapReversesBytes(x: bv32)
    ensures var b, s := Put32(x), Put32(Swap32(x)); s == [b[3], b[2], b[1], b[0]]
  {
  }

  /** htonl on a little-endian host: the word whose in-memory bytes are the
      argument's, most significant first. */
  function Htonl(x: bv32): (r: bv32)
    ensures var b, s := Put32(x), Put32(r); s == [b[3], b[2], b[1], b[0]]
  {
    SwapReversesBytes(x);
    Swap32(x)
  }

  /** ntohl on a little-endian host: the inverse reordering, which on four
      bytes is the same reversal. */
  function Ntohl(x: bv32): (r: bv32)
    ensures var b, s := Put32(x), Put32(r); s == [b[3], b[2], b[1], b[0]]
  {
    SwapReversesBytes(x);
    Swap32(x)
  }

  /** htonl and ntohl undo each other. */
  lemma HtonlNtohl(x: bv32)
    ensures Ntohl(Htonl(x)) == x
    ensures Htonl(Ntohl(x)) == x
  {
  }
}
