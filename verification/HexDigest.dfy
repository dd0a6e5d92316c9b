/** The in-place expansion of a SHA-256 digest to hexadecimal text. The digest starts in the
    upper half of the buffer and is overwritten by its own text from the front. */
module HexDigest {
  import opened Bytes

  const SHA256_DIGEST_LENGTH := 32
  const MAX_HASH_SIZE := 64

  type Nibble = n: int | 0 <= n < 16

  /** The code of a lowercase hexadecimal digit. */
  function HexCode(n: Nibble): (c: Byte)
    ensures c != 0
  {
    if n < 10 then '0' as int + n else 'a' as int + (n - 10)
  }

  function HexValue(c: Byte): Nibble {
    if '0' as int <= c <= '9' as int then c - '0' as int
    else if 'a' as int <= c <= 'f' as int then c - 'a' as int + 10
    else 0
  }

  /** Two digits for each byte, high nibble first. */
  function Hex(d: seq<Byte>): (t: seq<Byte>)
    ensures |t| == 2 * |d|
  {
    seq(2 * |d|, i requires 0 <= i < 2 * |d| => HexCode(if i % 2 == 0 then d[i / 2] / 16 else d[i / 2] % 16))
  }

  function Unhex(t: seq<Byte>): seq<Byte>
    requires |t| % 2 == 0
  {
    seq(|t| / 2, i requires 0 <= i < |t| / 2 => 16 * HexValue(t[2 * i]) + HexValue(t[2 * i + 1]))
  }

  lemma DigitRoundTrip(n: Nibble)
    ensures HexValue(HexCode(n)) == n
  {
  }

  /** Decoding the text gives the digest back. */
  lemma UnhexOfHex(d: seq<Byte>)
    ensures Unhex(Hex(d)) == d
  {
    forall i | 0 <= i < |d| ensures Unhex(Hex(d))[i] == d[i] {
      assert Hex(d)[2 * i] == HexCode(d[i] / 16) && Hex(d)[2 * i + 1] == HexCode(d[i] % 16);
      DigitRoundTrip(d[i] / 16);
      DigitRoundTrip(d[i] % 16);
    }
  }

  /** Distinct digests have distinct texts. */
  lemma HexIsInjective(a: seq<Byte>, b: seq<Byte>)
    ensures Hex(a) == Hex(b) <==> a == b
  {
    UnhexOfHex(a);
    UnhexOfHex(b);
  }

  /** The text a terminated buffer stands for: everything before the first zero byte. */
  function CString(buf: seq<Byte>): seq<Byte> {
    if buf == [] || buf[0] == 0 then [] else [buf[0]] + CString(buf[1..])
  }

  lemma {:induction false} CStringOf(text: seq<Byte>, rest: seq<Byte>)
    requires forall i :: 0 <= i < |text| ==> text[i] != 0
    ensures CString(text + [0] + rest) == text
  {
    if text != [] {
      CStringOf(text[1..], rest);
      assert (text + [0] + rest)[1..] == text[1..] + [0] + rest;
    }
  }

  predicate IsHashSizeValid(text: seq<Byte>) {
    0 < |text| <= MAX_HASH_SIZE
  }

  /** Expands the digest found at 32..63; no digest byte is overwritten before it is read. */
  method ExpandDigest(out: array<Byte>) returns (text: seq<Byte>)
    requires out.Length == 2 * SHA256_DIGEST_LENGTH + 1
    modifies out
    ensures text == Hex(old(out[SHA256_DIGEST_LENGTH..2 * SHA256_DIGEST_LENGTH]))
    ensures out[..] == text + [0]
    ensures IsHashSizeValid(text)
  {
    ghost var digest := out[SHA256_DIGEST_LENGTH..2 * SHA256_DIGEST_LENGTH];
    for i := 0 to SHA256_DIGEST_LENGTH
      invariant forall j :: 0 <= j < 2 * i ==> out[j] == Hex(digest)[j]
      invariant forall j :: SHA256_DIGEST_LENGTH + i <= j < 2 * SHA256_DIGEST_LENGTH ==>
        out[j] == digest[j - SHA256_DIGEST_LENGTH]
    {
      var value := out[SHA256_DIGEST_LENGTH + i];
      assert value == digest[i];
      out[2 * i] := HexCode(value / 16);
      out[2 * i + 1] := HexCode(value % 16);
    }
    out[2 * SHA256_DIGEST_LENGTH] := 0;
    assert out[..] == Hex(digest) + [0] + [];
    CStringOf(Hex(digest), []);
    text := CString(out[..]);
  }
}
