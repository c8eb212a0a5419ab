/** Bytes and little-endian integers, as in maubot/lib/zipimport.py. */
module ByteCodec {

  type byte = b: int | 0 <= b < 256

  type Bytes = seq<byte>

  function Pow256(k: nat): (n: nat)
    ensures n > 0
  {
    if k == 0 then 1 else 256 * Pow256(k - 1)
  }

  /** `int.from_bytes(data, "little")`. */
  function FromLittle(s: Bytes): (n: nat)
    ensures n < Pow256(|s|)
  {
    if s == [] then 0 else s[0] + 256 * FromLittle(s[1..])
  }

  function ToLittle(n: nat, width: nat): (s: Bytes)
    ensures |s| == width
  {
    if width == 0 then [] else [n % 256] + ToLittle(n / 256, width - 1)
  }

  /** The unpackers invert the writer on every value that fits the field. */
  lemma {:induction false} FromToLittle(n: nat, width: nat)
    requires n < Pow256(width)
    ensures FromLittle(ToLittle(n, width)) == n
  {
    if width > 0 {
      FromToLittle(n / 256, width - 1);
    }
  }

  /** ... and the writer inverts the unpackers on every field. */
  lemma {:induction false} ToFromLittle(s: Bytes)
    ensures ToLittle(FromLittle(s), |s|) == s
  {
    if s != [] {
      ToFromLittle(s[1..]);
      assert FromLittle(s) == s[0] + 256 * FromLittle(s[1..]);
      assert FromLittle(s) % 256 == s[0] && FromLittle(s) / 256 == FromLittle(s[1..]);
      assert s == [s[0]] + s[1..];
    }
  }

  /** What a two-byte and a four-byte field stand for: the least significant byte comes first. */
  lemma {:induction false} FieldValues(s: Bytes)
    ensures |s| == 2 ==> FromLittle(s) == s[0] + 256 * (s[1] as int)
    ensures |s| == 4 ==> FromLittle(s) == s[0] + 256 * (s[1] as int) + 65536 * (s[2] as int) + 16777216 * (s[3] as int)
  {
    if |s| == 2 {
      assert FromLittle(s[1..]) == s[1] + 256 * FromLittle(s[1..][1..]);
    } else if |s| == 4 {
      assert s[1..][1..] == s[2..] && s[2..][1..] == s[3..] && s[3..][1..] == [];
      assert FromLittle(s[3..]) == s[3] && FromLittle(s[2..]) == s[2] + 256 * FromLittle(s[3..]);
      assert FromLittle(s[1..]) == s[1] + 256 * FromLittle(s[2..]);
    }
  }

  const LIMIT16 := 0x1_0000
  const LIMIT32 := 0x1_0000_0000

  lemma {:induction false} FieldLimits()
    ensures Pow256(2) == LIMIT16 && Pow256(4) == LIMIT32
  {
    assert Pow256(1) == 256 && Pow256(2) == 256 * Pow256(1) && Pow256(3) == 256 * Pow256(2);
  }

  /** `fp.read(n)` with the cursor at `pos`: short at end of file. */
  function Read(b: Bytes, pos: nat, n: nat): (r: Bytes)
    ensures |r| <= n
    ensures |r| == n <==> n == 0 || pos + n <= |b|
    ensures |r| == n && n > 0 ==> r == b[pos..pos + n]
  {
    if pos >= |b| then [] else if pos + n <= |b| then b[pos..pos + n] else b[pos..]
  }
}
