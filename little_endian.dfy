/** The 8-byte little-endian encoding used around every MSR access
  * (binary.LittleEndian.PutUint64 and binary.LittleEndian.Uint64). */
module LittleEndian {

  /** The eight bytes of `v`, least significant first: decoding them gives `v` back, so by
    * Decode's contract byte `i` is bits 8i .. 8i+7 of `v`. */
  function Encode(v: bv64): (b: seq<bv8>)
    ensures |b| == 8 && Decode(b) == v
  {
    [(v & 0xFF) as bv8, ((v >> 8) & 0xFF) as bv8, ((v >> 16) & 0xFF) as bv8, ((v >> 24) & 0xFF) as bv8,
     ((v >> 32) & 0xFF) as bv8, ((v >> 40) & 0xFF) as bv8, ((v >> 48) & 0xFF) as bv8, ((v >> 56) & 0xFF) as bv8]
  }

  /** The 64-bit value whose little-endian bytes are `b`: bits 8i .. 8i+7 are byte `i`. */
  function Decode(b: seq<bv8>): (v: bv64)
    requires |b| == 8
    ensures forall i: bv64 {:trigger b[i as int]} :: i < 8 ==> (v >> (8 * i)) & 0xFF == b[i as int] as bv64
  {
    (b[0] as bv64) | (b[1] as bv64 << 8) | (b[2] as bv64 << 16) | (b[3] as bv64 << 24) |
    (b[4] as bv64 << 32) | (b[5] as bv64 << 40) | (b[6] as bv64 << 48) | (b[7] as bv64 << 56)
  }

  /** Encoding what was decoded gives the eight bytes back: the encoding is a bijection. */
  lemma EncodeDecode(b: seq<bv8>)
    requires |b| == 8
    ensures Encode(Decode(b)) == b
  {
  }

  /** Fills an 8-byte buffer in place with the encoding of `v`. */
  method PutUint64(buf: array<bv8>, v: bv64)
    requires buf.Length == 8
    modifies buf
    ensures buf[..] == Encode(v)
  {
    buf[0] := (v & 0xFF) as bv8;
    buf[1] := ((v >> 8) & 0xFF) as bv8;
    buf[2] := ((v >> 16) & 0xFF) as bv8;
    buf[3] := ((v >> 24) & 0xFF) as bv8;
    buf[4] := ((v >> 32) & 0xFF) as bv8;
    buf[5] := ((v >> 40) & 0xFF) as bv8;
    buf[6] := ((v >> 48) & 0xFF) as bv8;
    buf[7] := ((v >> 56) & 0xFF) as bv8;
  }
}
