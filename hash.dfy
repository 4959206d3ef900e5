/**
 * Hash.BuildSHA256 and Hash.Verify: a password's SHA-256 digest written as
 * lowercase hexadecimal, two characters per byte, high nibble first (the "x2"
 * format). The digest itself comes from a function parameter `sha256`, which
 * stands for UTF-8 encoding followed by SHA-256; only the hex encoding is
 * modelled concretely. Python's `hashlib.sha256(p.encode()).hexdigest()` is the
 * same encoding and reuses these definitions.
 */
module Hash {

  newtype byte = x: int | 0 <= x < 256

  /** A SHA-256 digest: 32 bytes. */
  type Digest = d: seq<byte> | |d| == 32 witness seq(32, _ => 0 as byte)

  predicate IsHexDigit(c: char) {
    '0' <= c <= '9' || 'a' <= c <= 'f'
  }

  /** The value of a lowercase hex digit. */
  function DigitValue(c: char): (n: nat)
    requires IsHexDigit(c)
    ensures n < 16
  {
    if c <= '9' then c as int - '0' as int else c as int - 'a' as int + 10
  }

  /** The lowercase hex digit of a nibble. */
  function HexDigit(n: nat): (c: char)
    requires n < 16
    ensures IsHexDigit(c) && DigitValue(c) == n
  {
    if n < 10 then ('0' as int + n) as char else ('a' as int + n - 10) as char
  }

  /** b.ToString("x2"): two lowercase digits, high nibble first. */
  function ByteHex(b: byte): (s: string)
    ensures |s| == 2 && IsHexDigit(s[0]) && IsHexDigit(s[1])
    ensures DigitValue(s[0]) * 16 + DigitValue(s[1]) == b as int
  {
    [HexDigit(b as int / 16), HexDigit(b as int % 16)]
  }

  /** The hex text of a byte sequence: the bytes' "x2" forms, concatenated. */
  function HexOf(bytes: seq<byte>): (s: string)
    ensures |s| == 2 * |bytes|
    ensures forall i :: 0 <= i < |s| ==> IsHexDigit(s[i])
  {
    if bytes == [] then "" else ByteHex(bytes[0]) + HexOf(bytes[1..])
  }

  /** Appending a byte appends its two digits. */
  lemma {:induction false} HexOfAppend(bytes: seq<byte>, b: byte)
    ensures HexOf(bytes + [b]) == HexOf(bytes) + ByteHex(b)
  {
    if bytes != [] {
      assert (bytes + [b])[1..] == bytes[1..] + [b];
      HexOfAppend(bytes[1..], b);
    }
  }

  /** The inverse of HexOf on well-formed hex text. */
  function HexDecode(s: string): (bytes: seq<byte>)
    requires |s| % 2 == 0
    requires forall i :: 0 <= i < |s| ==> IsHexDigit(s[i])
    ensures |bytes| * 2 == |s|
  {
    if s == [] then []
    else [(DigitValue(s[0]) * 16 + DigitValue(s[1])) as byte] + HexDecode(s[2..])
  }

  /** Decoding the hex text gives back the bytes. */
  lemma {:induction false} HexRoundTrip(bytes: seq<byte>)
    ensures HexDecode(HexOf(bytes)) == bytes
  {
    if bytes != [] {
      var s := HexOf(bytes);
      assert s[2..] == HexOf(bytes[1..]);
      HexRoundTrip(bytes[1..]);
    }
  }

  /** A digit is the digit of its own value. */
  lemma HexDigitOfValue(c: char)
    requires IsHexDigit(c)
    ensures HexDigit(DigitValue(c)) == c
  {
  }

  /** Encoding decoded hex text gives back the text: lowercase hex has one spelling per byte. */
  lemma {:induction false} DecodeRoundTrip(s: string)
    requires |s| % 2 == 0
    requires forall i :: 0 <= i < |s| ==> IsHexDigit(s[i])
    ensures HexOf(HexDecode(s)) == s
  {
    if s != [] {
      var hi, lo := DigitValue(s[0]), DigitValue(s[1]);
      var b := (hi * 16 + lo) as byte;
      assert b as int / 16 == hi && b as int % 16 == lo;
      HexDigitOfValue(s[0]);
      HexDigitOfValue(s[1]);
      assert ByteHex(b) == s[..2];
      DecodeRoundTrip(s[2..]);
      assert HexDecode(s)[1..] == HexDecode(s[2..]);
      assert s == s[..2] + s[2..];
    }
  }

  /** Different digests never give the same hex text. */
  lemma HexInjective(a: seq<byte>, b: seq<byte>)
    requires HexOf(a) == HexOf(b)
    ensures a == b
  {
    HexRoundTrip(a);
    HexRoundTrip(b);
  }

  /** The hex text Hash.BuildSHA256 returns for `password`. */
  function Sha256Hex(password: string, sha256: string -> Digest): (h: string)
    ensures |h| == 64
    ensures forall i :: 0 <= i < |h| ==> IsHexDigit(h[i])
  {
    HexOf(sha256(password))
  }

  /** Hash.BuildSHA256: the digest bytes appended to a builder one "x2" pair at a time. */
  method BuildSHA256(password: string, sha256: string -> Digest) returns (h: string)
    ensures h == Sha256Hex(password, sha256)
    ensures |h| == 64 && HexDecode(h) == sha256(password)
    ensures Verify(password, h, sha256)
  {
    var hashBytes := sha256(password);
    var builder := "";
    for i := 0 to |hashBytes|
      invariant builder == HexOf(hashBytes[..i])
    {
      assert hashBytes[..i + 1] == hashBytes[..i] + [hashBytes[i]];
      HexOfAppend(hashBytes[..i], hashBytes[i]);
      builder := builder + ByteHex(hashBytes[i]);
    }
    assert hashBytes[..|hashBytes|] == hashBytes;
    h := builder;
    HexRoundTrip(hashBytes);
  }

  /** Hash.Verify: the password's hex digest equals the stored text. */
  predicate Verify(password: string, hash: string, sha256: string -> Digest) {
    Sha256Hex(password, sha256) == hash
  }

  /**
   * Only well-formed 64-digit lowercase hex text can verify, and a text that
   * verifies two passwords means their digests are equal.
   */
  lemma VerifyDeterminesDigest(p: string, q: string, hash: string, sha256: string -> Digest)
    requires Verify(p, hash, sha256) && Verify(q, hash, sha256)
    ensures |hash| == 64 && forall i :: 0 <= i < |hash| ==> IsHexDigit(hash[i])
    ensures sha256(p) == sha256(q)
  {
    HexInjective(sha256(p), sha256(q));
  }
}
