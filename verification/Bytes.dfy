/** Bytes and little-endian integers, as struct.pack and struct.unpack write and
    read them. */
module Bytes {
  type byte = x: int | 0 <= x < 256

  function Range(width: nat): nat {
    if width == 0 then 1 else 256 * Range(width - 1)
  }

  function Pack(n: nat, width: nat): (r: seq<byte>)
    ensures |r| == width
  {
    if width == 0 then [] else [n % 256] + Pack(n / 256, width - 1)
  }

  function Unpack(bytes: seq<byte>): nat {
    if bytes == [] then 0 else bytes[0] + 256 * Unpack(bytes[1..])
  }

  lemma {:induction false} UnpackPack(n: nat, width: nat)
    requires n < Range(width)
    ensures Unpack(Pack(n, width)) == n
  {
    if width > 0 {
      UnpackPack(n / 256, width - 1);
      assert Pack(n, width)[1..] == Pack(n / 256, width - 1);
    }
  }

  /** The bytes are the digits to the base 256, the lowest first. */
  lemma {:induction false} PackDigit(n: nat, width: nat, i: nat)
    requires i < width
    ensures Pack(n, width)[i] == Digit(n, i)
  {
    if i > 0 {
      PackDigit(n / 256, width - 1, i - 1);
      assert Pack(n, width)[1..] == Pack(n / 256, width - 1);
    }
  }

  function Digit(n: nat, i: nat): byte {
    if i == 0 then n % 256 else Digit(n / 256, i - 1)
  }

  lemma {:induction false} UnpackBound(bytes: seq<byte>)
    ensures Unpack(bytes) < Range(|bytes|)
  {
    if bytes != [] {
      UnpackBound(bytes[1..]);
    }
  }

  lemma {:induction false} PackUnpack(bytes: seq<byte>)
    ensures Pack(Unpack(bytes), |bytes|) == bytes
  {
    if bytes != [] {
      PackUnpack(bytes[1..]);
      assert (bytes[0] + 256 * Unpack(bytes[1..])) / 256 == Unpack(bytes[1..]);
    }
  }

  function Zeros(n: nat): (r: seq<byte>)
    ensures |r| == n
  {
    seq(n, i => 0)
  }

  /** A piece of a piece. */
  lemma SubSlice(file: seq<byte>, offset: nat, piece: seq<byte>, lo: nat, hi: nat)
    requires offset + |piece| <= |file| && file[offset..offset + |piece|] == piece && lo <= hi <= |piece|
    ensures file[offset + lo..offset + hi] == piece[lo..hi]
  {
    forall k | 0 <= k < hi - lo ensures file[offset + lo..offset + hi][k] == piece[lo..hi][k] {
      assert file[offset..offset + |piece|][lo + k] == piece[lo + k];
    }
  }

  /** The file with `values` at `offset`. */
  function Patched(file: seq<byte>, offset: nat, values: seq<byte>): (r: seq<byte>)
    requires offset + |values| <= |file|
    ensures |r| == |file|
  {
    file[..offset] + values + file[offset + |values|..]
  }

  lemma PatchedAt(file: seq<byte>, offset: nat, values: seq<byte>)
    requires offset + |values| <= |file|
    ensures Patched(file, offset, values)[offset..offset + |values|] == values
  {
  }

  lemma PatchedBefore(file: seq<byte>, offset: nat, values: seq<byte>, lo: nat, hi: nat)
    requires lo <= hi <= offset && offset + |values| <= |file|
    ensures Patched(file, offset, values)[lo..hi] == file[lo..hi]
  {
  }

  lemma PatchedBehind(file: seq<byte>, offset: nat, values: seq<byte>, lo: nat, hi: nat)
    requires offset + |values| <= lo <= hi <= |file|
    ensures Patched(file, offset, values)[lo..hi] == file[lo..hi]
  {
  }
}
