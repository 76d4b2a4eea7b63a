/** The Borsh wire format for the field types the registry stores: a `u32` as four
    little-endian bytes, a `Pubkey` as its 32 raw bytes, a `Vec<Pubkey>` as a `u32`
    length followed by the keys, and a `String` as a `u32` byte length followed by
    well-formed UTF-8. */
module Borsh {
  import opened Host

  /** The four little-endian bytes of `x`. */
  function U32Bytes(x: u32): (b: seq<u8>)
    ensures |b| == 4
  {
    [x % 256, (x / 256) % 256, (x / 65536) % 256, x / 16777216]
  }

  /** The `u32` that four little-endian bytes stand for: every four bytes are the
      encoding of exactly one value. */
  function U32Of(b: seq<u8>): (x: u32)
    requires |b| == 4
    ensures U32Bytes(x) == b
  {
    var b0: int, b1: int, b2: int, b3: int := b[0], b[1], b[2], b[3];
    LittleEndianDigits(b0, b1, b2, b3);
    b0 + 256 * (b1 + 256 * (b2 + 256 * b3))
  }

  /** The base-256 digits of a four-digit little-endian number are its bytes. */
  lemma LittleEndianDigits(b0: int, b1: int, b2: int, b3: int)
    requires 0 <= b0 < 256 && 0 <= b1 < 256 && 0 <= b2 < 256 && 0 <= b3 < 256
    ensures var n := b0 + 256 * (b1 + 256 * (b2 + 256 * b3));
      n % 256 == b0 && (n / 256) % 256 == b1 && (n / 65536) % 256 == b2 && n / 16777216 == b3
  {
    var n := b0 + 256 * (b1 + 256 * (b2 + 256 * b3));
    assert n % 256 == b0 && n / 256 == b1 + 256 * (b2 + 256 * b3);
    assert n / 65536 == (n / 256) / 256;
    assert n / 16777216 == (n / 65536) / 256;
  }

  lemma U32RoundTrip(x: u32)
    ensures U32Of(U32Bytes(x)) == x
  {
    var b := U32Bytes(x);
    assert x / 65536 == (x / 256) / 256;
    assert x / 16777216 == (x / 65536) / 256;
    assert x / 65536 == 256 * (b[3] as int) + b[2];
    assert x / 256 == 256 * (x / 65536) + b[1];
  }

  /** The keys of a `Vec<Pubkey>`, back to back. */
  function Flatten(keys: seq<Pubkey>): (b: seq<u8>)
    ensures |b| == 32 * |keys|
  {
    if keys == [] then [] else keys[0] + Flatten(keys[1..])
  }

  /** Byte `j` of key `i` sits at offset `32 * i + j` of the flattened keys. */
  lemma {:induction false} FlattenIndex(keys: seq<Pubkey>)
    ensures forall i, j :: 0 <= i < |keys| && 0 <= j < 32 ==> Flatten(keys)[32 * i + j] == keys[i][j]
  {
    if keys != [] {
      var rest := Flatten(keys[1..]);
      FlattenIndex(keys[1..]);
      forall i, j | 0 <= i < |keys| && 0 <= j < 32
        ensures Flatten(keys)[32 * i + j] == keys[i][j]
      {
        if i > 0 {
          assert 32 * i + j == 32 + (32 * (i - 1) + j);
          assert keys[1..][i - 1] == keys[i];
        }
      }
    }
  }

  /** A byte string cut into consecutive 32-byte keys. */
  function Chunk(b: seq<u8>): (keys: seq<Pubkey>)
    requires |b| % 32 == 0
    ensures 32 * |keys| == |b|
    decreases |b|
  {
    if b == [] then [] else [b[..32]] + Chunk(b[32..])
  }

  lemma {:induction false} ChunkFlatten(keys: seq<Pubkey>)
    ensures Chunk(Flatten(keys)) == keys
  {
    if keys != [] {
      var b := Flatten(keys);
      assert b == keys[0] + Flatten(keys[1..]);
      assert b[..32] == keys[0];
      assert b[32..] == Flatten(keys[1..]);
      ChunkFlatten(keys[1..]);
    }
  }

  lemma {:induction false} FlattenChunk(b: seq<u8>)
    requires |b| % 32 == 0
    ensures Flatten(Chunk(b)) == b
    decreases |b|
  {
    if b != [] {
      var keys := Chunk(b);
      assert keys == [b[..32]] + Chunk(b[32..]);
      assert keys[1..] == Chunk(b[32..]);
      FlattenChunk(b[32..]);
      assert Flatten(keys) == b[..32] + b[32..];
    }
  }

  /** Borsh `Vec<Pubkey>`: the length as a `u32`, then the keys. */
  function KeyVecBytes(keys: seq<Pubkey>): (b: seq<u8>)
    requires |keys| <= U32_MAX
    ensures |b| == 4 + 32 * |keys|
  {
    U32Bytes(|keys|) + Flatten(keys)
  }

  /** Strict Borsh decoding of a `Vec<Pubkey>` that fills the whole buffer: the length
      prefix must announce exactly the bytes that follow it. */
  function KeyVecOf(b: seq<u8>): (r: Option<seq<Pubkey>>)
    ensures r.Some? ==> |b| == 4 + 32 * |r.value| && |r.value| == U32Of(b[..4])
  {
    if |b| < 4 then None
    else if |b| - 4 != 32 * U32Of(b[..4]) then None
    else Some(Chunk(b[4..]))
  }

  lemma KeyVecRoundTrip(keys: seq<Pubkey>)
    requires |keys| <= U32_MAX
    ensures KeyVecOf(KeyVecBytes(keys)) == Some(keys)
  {
    var b := KeyVecBytes(keys);
    assert b[..4] == U32Bytes(|keys|);
    assert b[4..] == Flatten(keys);
    U32RoundTrip(|keys|);
    ChunkFlatten(keys);
  }

  lemma KeyVecCanonical(b: seq<u8>)
    requires KeyVecOf(b).Some?
    ensures |KeyVecOf(b).value| <= U32_MAX
    ensures KeyVecBytes(KeyVecOf(b).value) == b
  {
    var keys := KeyVecOf(b).value;
    assert 32 * |keys| == |b| - 4;
    assert |keys| == U32Of(b[..4]);
    FlattenChunk(b[4..]);
    assert b == b[..4] + b[4..];
  }

  /** A continuation byte `10xxxxxx` of a UTF-8 sequence. */
  predicate Continuation(c: u8)
  {
    0x80 <= c <= 0xBF
  }

  /** Well-formed UTF-8 as Rust's `str::from_utf8` accepts it: no overlong forms, no
      surrogates, nothing above U+10FFFF. */
  function ValidUtf8(s: seq<u8>): (ok: bool)
    ensures ok && s != [] ==> !Continuation(s[0])
    ensures (forall i :: 0 <= i < |s| ==> s[i] < 0x80) ==> ok
    decreases |s|
  {
    if s == [] then true
    else if s[0] < 0x80 then ValidUtf8(s[1..])
    else if 0xC2 <= s[0] <= 0xDF then
      |s| >= 2 && Continuation(s[1]) && ValidUtf8(s[2..])
    else if 0xE0 <= s[0] <= 0xEF then
      |s| >= 3 && Continuation(s[1]) && Continuation(s[2])
      && (s[0] == 0xE0 ==> s[1] >= 0xA0)
      && (s[0] == 0xED ==> s[1] <= 0x9F)
      && ValidUtf8(s[3..])
    else if 0xF0 <= s[0] <= 0xF4 then
      |s| >= 4 && Continuation(s[1]) && Continuation(s[2]) && Continuation(s[3])
      && (s[0] == 0xF0 ==> s[1] >= 0x90)
      && (s[0] == 0xF4 ==> s[1] <= 0x8F)
      && ValidUtf8(s[4..])
    else false
  }

  /** Borsh `String`: the byte length as a `u32`, then the UTF-8 bytes. */
  function StringBytes(s: seq<u8>): (b: seq<u8>)
    requires |s| <= U32_MAX
    ensures |b| == 4 + |s|
  {
    U32Bytes(|s|) + s
  }

  /** Strict Borsh decoding of a `String` that fills the whole buffer. */
  function StringOf(b: seq<u8>): (r: Option<seq<u8>>)
    ensures r.Some? ==> ValidUtf8(r.value) && |b| == 4 + |r.value| && |r.value| == U32Of(b[..4])
    ensures |b| >= 4 && !ValidUtf8(b[4..]) ==> r.None?
  {
    if |b| < 4 || |b| - 4 != U32Of(b[..4]) || !ValidUtf8(b[4..]) then None
    else Some(b[4..])
  }

  lemma StringRoundTrip(s: seq<u8>)
    requires |s| <= U32_MAX && ValidUtf8(s)
    ensures StringOf(StringBytes(s)) == Some(s)
  {
    var b := StringBytes(s);
    assert b[..4] == U32Bytes(|s|);
    assert b[4..] == s;
    U32RoundTrip(|s|);
  }

  lemma StringCanonical(b: seq<u8>)
    requires StringOf(b).Some?
    ensures |StringOf(b).value| <= U32_MAX && ValidUtf8(StringOf(b).value)
    ensures StringBytes(StringOf(b).value) == b
  {
    assert b == b[..4] + b[4..];
  }
}
