/** The multi-client sample's EncryptionHelper: lowercase hex rendering of
    digests (with truncation), hex decoding, UUID <-> 16 big-endian bytes, and
    the AES key/IV buffers that every encrypt/decrypt call refills.

    The digests (SHA-256, MD5), the random source and the AES-CBC/PKCS#5
    cipher are foreign code; they enter as parameters. */
module EncryptionHelper {
  import opened JavaLang

  // ------------------------------------------------------------------
  // Hex rendering
  // ------------------------------------------------------------------

  /** The lowercase hex digit of a nibble. */
  function NibbleChar(n: int): char
    requires 0 <= n < 16
  {
    if n < 10 then ('0' as int + n) as char else ('a' as int + n - 10) as char
  }

  predicate IsLowerHex(c: char) {
    '0' <= c <= '9' || 'a' <= c <= 'f'
  }

  /** `String.format("%02x", b)`: high nibble, then low nibble. */
  function Hex2(b: Byte): (h: string)
    ensures |h| == 2 && IsLowerHex(h[0]) && IsLowerHex(h[1])
    ensures Digit(h[0]) * 16 + Digit(h[1]) == b
  {
    [NibbleChar(b / 16), NibbleChar(b % 16)]
  }

  /** The bytes rendered one after another with `%02x`. */
  function HexOf(bytes: seq<Byte>): (s: string)
    ensures |s| == 2 * |bytes|
  {
    if bytes == [] then "" else HexOf(bytes[..|bytes| - 1]) + Hex2(bytes[|bytes| - 1])
  }

  /** Characters 2i and 2i+1 of the rendering are byte i's two nibbles. */
  lemma {:induction false} HexOfAt(bytes: seq<Byte>, i: int)
    requires 0 <= i < |bytes|
    ensures HexOf(bytes)[2 * i] == NibbleChar(bytes[i] / 16)
    ensures HexOf(bytes)[2 * i + 1] == NibbleChar(bytes[i] % 16)
  {
    var n := |bytes| - 1;
    var front := bytes[..n];
    assert HexOf(bytes) == HexOf(front) + Hex2(bytes[n]);
    if i < n {
      HexOfAt(front, i);
    }
  }

  /** Every character of a rendering is a lowercase hex digit. */
  lemma HexOfIsLowercase(bytes: seq<Byte>)
    ensures forall k :: 0 <= k < |HexOf(bytes)| ==> IsLowerHex(HexOf(bytes)[k])
  {
    forall k | 0 <= k < |HexOf(bytes)|
      ensures IsLowerHex(HexOf(bytes)[k])
    {
      HexOfAt(bytes, k / 2);
      assert k == 2 * (k / 2) || k == 2 * (k / 2) + 1;
    }
  }

  // ------------------------------------------------------------------
  // Hex decoding: hexStringToByteArray
  // ------------------------------------------------------------------

  /** `Character.digit(c, 16)` over ASCII: the digit's value, or -1. */
  function Digit(c: char): (d: int)
    ensures -1 <= d < 16
    ensures d >= 0 <==> ('0' <= c <= '9' || 'a' <= c <= 'f' || 'A' <= c <= 'F')
  {
    if '0' <= c <= '9' then c as int - '0' as int
    else if 'a' <= c <= 'f' then c as int - 'a' as int + 10
    else if 'A' <= c <= 'F' then c as int - 'A' as int + 10
    else -1
  }

  /** `(byte) ((hi << 4) + lo)`, seen unsigned; a -1 digit wraps around. */
  function PackNibbles(hi: int, lo: int): (b: Byte)
    ensures 0 <= hi < 16 && 0 <= lo < 16 ==> b == hi * 16 + lo
    ensures hi == -1 && 0 <= lo < 16 ==> b == 240 + lo
  {
    (hi * 16 + lo) % 256
  }

  /** Byte i of the decoding is built from characters 2i and 2i+1: a pair of
      hex digits gives the byte whose high and low nibbles they are. */
  function HexDecode(s: string): (r: seq<Byte>)
    requires |s| % 2 == 0
    ensures |r| == |s| / 2
    ensures forall i :: 0 <= i < |r| && Digit(s[2 * i]) >= 0 && Digit(s[2 * i + 1]) >= 0 ==>
              r[i] / 16 == Digit(s[2 * i]) && r[i] % 16 == Digit(s[2 * i + 1])
  {
    seq(|s| / 2, i requires 0 <= i < |s| / 2 => PackNibbles(Digit(s[2 * i]), Digit(s[2 * i + 1])))
  }

  /** `hexStringToByteArray(s)`: fills `len / 2` bytes in an index loop. With
      an odd length the last `charAt(i + 1)` runs off the end of the string
      before the array store, so StringIndexOutOfBoundsException escapes. */
  method HexStringToByteArray(s: string) returns (r: Outcome<seq<Byte>>)
    ensures |s| % 2 == 1 <==> r == Thrown(StringIndexOutOfBounds)
    ensures |s| % 2 == 0 ==> r.Normal? && |r.value| == |s| / 2
    ensures |s| % 2 == 0 ==> forall i :: 0 <= i < |s| / 2 ==>
              r.value[i] == PackNibbles(Digit(s[2 * i]), Digit(s[2 * i + 1]))
  {
    var len := |s|;
    var data := new Byte[len / 2];
    var i := 0;
    while i < len
      invariant 0 <= i <= len && i % 2 == 0
      invariant forall k :: 0 <= k < i / 2 ==> data[k] == PackNibbles(Digit(s[2 * k]), Digit(s[2 * k + 1]))
    {
      if i + 1 >= len {
        return Thrown(StringIndexOutOfBounds);
      }
      data[i / 2] := PackNibbles(Digit(s[i]), Digit(s[i + 1]));
      i := i + 2;
    }
    r := Normal(data[..]);
  }

  /** A byte's two rendered nibbles pack back into the byte. */
  lemma PackNibbleChars(b: Byte)
    ensures PackNibbles(Digit(NibbleChar(b / 16)), Digit(NibbleChar(b % 16))) == b
  {
    assert Digit(NibbleChar(b / 16)) == b / 16;
    assert Digit(NibbleChar(b % 16)) == b % 16;
  }

  /** Decoding a rendering gives the bytes back. */
  lemma HexRoundTrip(bytes: seq<Byte>)
    ensures HexDecode(HexOf(bytes)) == bytes
  {
    var s := HexOf(bytes);
    var d := HexDecode(s);
    assert |d| == |bytes|;
    forall i | 0 <= i < |bytes|
      ensures d[i] == bytes[i]
    {
      HexOfAt(bytes, i);
      assert d[i] == PackNibbles(Digit(s[2 * i]), Digit(s[2 * i + 1]));
      PackNibbleChars(bytes[i]);
    }
  }

  /** A lowercase hex digit renders back from its value. */
  lemma NibbleCharOfDigit(c: char)
    requires IsLowerHex(c)
    ensures 0 <= Digit(c) < 16 && NibbleChar(Digit(c)) == c
  {
  }

  /** Packing two digits and splitting the byte again gives the digits. */
  lemma UnpackNibbles(hi: int, lo: int)
    requires 0 <= hi < 16 && 0 <= lo < 16
    ensures PackNibbles(hi, lo) / 16 == hi && PackNibbles(hi, lo) % 16 == lo
  {
    assert hi * 16 + lo < 256;
  }

  /** Rendering a decoded even-length lowercase hex string gives the string back. */
  lemma HexRoundTripFromString(s: string)
    requires |s| % 2 == 0
    requires forall k :: 0 <= k < |s| ==> IsLowerHex(s[k])
    ensures HexOf(HexDecode(s)) == s
  {
    var bytes := HexDecode(s);
    var h := HexOf(bytes);
    forall k | 0 <= k < |s|
      ensures h[k] == s[k]
    {
      var i := k / 2;
      HexOfAt(bytes, i);
      NibbleCharOfDigit(s[2 * i]);
      NibbleCharOfDigit(s[2 * i + 1]);
      UnpackNibbles(Digit(s[2 * i]), Digit(s[2 * i + 1]));
      assert k == 2 * i || k == 2 * i + 1;
    }
  }

  // ------------------------------------------------------------------
  // SHA256(text, length), md5(text), generateRandomIV(length)
  // ------------------------------------------------------------------

  /** The StringBuffer loop shared by SHA256 and generateRandomIV: append
      `String.format("%02x", b)` for every byte. */
  method AppendHex(bytes: seq<Byte>) returns (result: string)
    ensures result == HexOf(bytes)
  {
    result := "";
    var i := 0;
    while i < |bytes|
      invariant 0 <= i <= |bytes|
      invariant result == HexOf(bytes[..i])
    {
      assert bytes[..i + 1][..i] == bytes[..i];
      result := result + Hex2(bytes[i]);
      i := i + 1;
    }
    assert bytes[..i] == bytes;
  }

  /** `length > s.length() ? s : s.substring(0, length)`; a negative length
      makes `substring` throw. */
  function Truncate(s: string, length: int): (r: Outcome<string>)
    ensures length < 0 ==> r == Thrown(StringIndexOutOfBounds)
    ensures length >= 0 ==> r.Normal? && |r.value| == Min(length, |s|) && r.value == s[..Min(length, |s|)]
  {
    if length > |s| then Normal(s)
    else if length < 0 then Thrown(StringIndexOutOfBounds)
    else Normal(s[..length])
  }

  /** `SHA256(text, length)`. `sha256` is None when MessageDigest has no
      SHA-256 (or the JVM has no UTF-8); the source then returns "". */
  method Sha256(text: string, length: int, sha256: Option<string -> Sha256Digest>) returns (r: Outcome<string>)
    ensures sha256.None? ==> r == Normal("")
    ensures sha256.Some? && length < 0 ==> r == Thrown(StringIndexOutOfBounds)
    ensures sha256.Some? && length >= 0 ==>
              r.Normal? && |r.value| == Min(length, 64) &&
              r.value == HexOf(sha256.value(text))[..Min(length, 64)] &&
              forall k :: 0 <= k < |r.value| ==> IsLowerHex(r.value[k])
    ensures sha256.Some? && length >= 64 ==> r == Normal(HexOf(sha256.value(text)))
  {
    if sha256.None? {
      return Normal("");
    }
    var digest := sha256.value(text);
    var result := AppendHex(digest);
    HexOfIsLowercase(digest);
    r := Truncate(result, length);
    assert result[..64] == result;
  }

  /** `Integer.toString(v, 16)` / `Integer.toHexString(v)` for v >= 0: no
      leading zeros. */
  function ToHexString(v: nat): (s: string)
    ensures |s| >= 1
  {
    if v < 16 then [NibbleChar(v)] else ToHexString(v / 16) + [NibbleChar(v % 16)]
  }

  /** SHA256 also builds (and discards) a second rendering,
      `Integer.toString((b & 0xff) + 0x100, 16).substring(1)`; it agrees with
      `%02x` on every byte. */
  lemma AlternateRenderingAgrees(b: Byte)
    ensures |ToHexString(b + 256)| == 3 && ToHexString(b + 256)[1..] == Hex2(b)
  {
    assert (b + 256) / 16 == 16 + b / 16;
    assert ToHexString(16 + b / 16) == ToHexString(1) + [NibbleChar(b / 16)];
  }

  /** md5's per-byte rendering: `Integer.toHexString(0xFF & b)`, then
      prepend "0" while shorter than two characters. */
  method PaddedHex(b: Byte) returns (h: string)
    ensures h == Hex2(b)
  {
    h := ToHexString(b);
    if b < 16 {
      assert h == [NibbleChar(b)];
    } else {
      assert ToHexString(b / 16) == [NibbleChar(b / 16)];
      assert h == Hex2(b);
    }
    while |h| < 2
      invariant b >= 16 ==> h == Hex2(b)
      invariant b < 16 ==> h == [NibbleChar(b)] || h == Hex2(b)
      decreases 2 - |h|
    {
      h := "0" + h;
    }
  }

  /** `md5(inputString)`; `digest` is None when MD5 is unavailable. */
  method Md5(digest: Option<Md5Digest>) returns (s: string)
    ensures digest.None? ==> s == ""
    ensures digest.Some? ==> s == HexOf(digest.value) && |s| == 32
  {
    if digest.None? {
      return "";
    }
    var bytes := digest.value;
    s := "";
    var i := 0;
    while i < |bytes|
      invariant 0 <= i <= |bytes|
      invariant s == HexOf(bytes[..i])
    {
      var h := PaddedHex(bytes[i]);
      assert bytes[..i + 1][..i] == bytes[..i];
      s := s + h;
      i := i + 1;
    }
    assert bytes[..i] == bytes;
  }

  /** `generateRandomIV(length)`: `random` stands for the 16 bytes that
      `SecureRandom.nextBytes` put in the array. */
  method GenerateRandomIv(random: seq<Byte>, length: int) returns (r: Outcome<string>)
    requires |random| == 16
    ensures length < 0 ==> r == Thrown(StringIndexOutOfBounds)
    ensures length >= 0 ==> r.Normal? && r.value == HexOf(random)[..Min(length, 32)]
    ensures length >= 0 ==> HexDecode(HexOf(random)) == random
  {
    var result := AppendHex(random);
    HexRoundTrip(random);
    r := Truncate(result, length);
  }

  // ------------------------------------------------------------------
  // UUID <-> 16 bytes (ByteBuffer putLong/getLong, big-endian)
  // ------------------------------------------------------------------

  datatype Uuid = Uuid(mostSigBits: Long, leastSigBits: Long)

  function Pow256(n: nat): (p: nat)
    ensures p >= 1
  {
    if n == 0 then 1 else 256 * Pow256(n - 1)
  }

  /** The n low bytes of v, most significant first. */
  function BigEndian(v: nat, n: nat): (s: seq<Byte>)
    ensures |s| == n
  {
    if n == 0 then [] else BigEndian(v / 256, n - 1) + [v % 256]
  }

  function FromBigEndian(s: seq<Byte>): nat
  {
    if s == [] then 0 else FromBigEndian(s[..|s| - 1]) * 256 + s[|s| - 1]
  }

  lemma {:induction false} FromBigEndianBound(s: seq<Byte>)
    ensures FromBigEndian(s) < Pow256(|s|)
  {
    if s != [] {
      FromBigEndianBound(s[..|s| - 1]);
    }
  }

  lemma MulAtLeast(a: int, m: int)
    requires a >= 1 && m > 0
    ensures a * m >= m
  {
    var b := a - 1;
    assert a * m == b * m + m;
    assert b * m >= 0;
  }

  /** Euclidean division is unique: q and t are the quotient and remainder. */
  lemma ModOfSum(v: nat, m: nat, q: nat, t: nat)
    requires m > 0 && t < m && v == q * m + t
    ensures v % m == t && v / m == q
  {
    var d := v / m;
    var r := v % m;
    assert d * m + r == v;
    assert (q - d) * m == q * m - d * m == r - t;
    if q > d {
      MulAtLeast(q - d, m);
    } else if d > q {
      MulAtLeast(d - q, m);
    }
  }

  /** The remainder modulo 256m splits into the low byte and the rest. */
  lemma SplitMod(v: nat, m: nat)
    requires m > 0
    ensures v % (m * 256) == ((v / 256) % m) * 256 + v % 256
  {
    var q := (v / 256) / m;
    var t := (v / 256) % m;
    var low := v % 256;
    assert v / 256 == q * m + t;
    assert v == 256 * (v / 256) + low;
    assert 256 * (q * m + t) == q * (m * 256) + t * 256;
    assert v == q * (m * 256) + (t * 256 + low);
    assert t * 256 <= (m - 1) * 256 == m * 256 - 256;
    ModOfSum(v, m * 256, q, t * 256 + low);
  }

  /** Reading back n big-endian bytes gives the value modulo 256^n. */
  lemma {:induction false} FromBigEndianOfBigEndian(v: nat, n: nat)
    ensures FromBigEndian(BigEndian(v, n)) == v % Pow256(n)
  {
    if n > 0 {
      var s := BigEndian(v, n);
      assert s[..n - 1] == BigEndian(v / 256, n - 1);
      FromBigEndianOfBigEndian(v / 256, n - 1);
      var m := Pow256(n - 1);
      assert FromBigEndian(s) == ((v / 256) % m) * 256 + v % 256;
      SplitMod(v, m);
      assert Pow256(n) == m * 256;
    }
  }

  /** Writing the value of n bytes back as n bytes gives the bytes. */
  lemma {:induction false} BigEndianOfFromBigEndian(s: seq<Byte>)
    ensures BigEndian(FromBigEndian(s), |s|) == s
  {
    if s != [] {
      var front := s[..|s| - 1];
      BigEndianOfFromBigEndian(front);
      ModOfSum(FromBigEndian(s), 256, FromBigEndian(front), s[|s| - 1]);
    }
  }

  /** The first byte weighs 256^(n-1). */
  lemma {:induction false} FromBigEndianHead(s: seq<Byte>)
    requires |s| >= 1
    ensures FromBigEndian(s) == s[0] * Pow256(|s| - 1) + FromBigEndian(s[1..])
  {
    if |s| > 1 {
      var front := s[..|s| - 1];
      FromBigEndianHead(front);
      assert front[1..] == s[1..][..|s| - 2];
      assert front[0] == s[0];
    } else {
      assert s[1..] == [];
    }
  }

  /** `ByteBuffer.putLong(x)`: eight bytes, most significant first. */
  function PutLong(x: Long): (b: seq<Byte>)
    ensures |b| == 8
    ensures FromBigEndian(b) == Unsigned64(x)
  {
    FromBigEndianOfBigEndian(Unsigned64(x), 8);
    assert Pow256(8) == TwoTo64;
    BigEndian(Unsigned64(x), 8)
  }

  /** `ByteBuffer.getLong()` over the next eight bytes. */
  function GetLong(b: seq<Byte>): (x: Long)
    requires |b| == 8
    ensures Unsigned64(x) == FromBigEndian(b)
    ensures x < 0 <==> b[0] >= 128
  {
    FromBigEndianHead(b);
    FromBigEndianBound(b[1..]);
    assert Pow256(7) * 128 == TwoTo63;
    FromBigEndianBound(b);
    Signed64(FromBigEndian(b))
  }

  lemma LongRoundTrip(x: Long)
    ensures GetLong(PutLong(x)) == x
  {
    FromBigEndianOfBigEndian(Unsigned64(x), 8);
    assert Pow256(8) == TwoTo64;
  }

  lemma BytesRoundTrip(b: seq<Byte>)
    requires |b| == 8
    ensures PutLong(GetLong(b)) == b
  {
    FromBigEndianBound(b);
    BigEndianOfFromBigEndian(b);
    assert Pow256(8) == TwoTo64;
  }

  /** `getBytesFromUUID(uuid)`: most significant long, then least significant. */
  function GetBytesFromUuid(u: Uuid): (r: seq<Byte>)
    ensures |r| == 16
    ensures r[..8] == PutLong(u.mostSigBits) && r[8..] == PutLong(u.leastSigBits)
  {
    PutLong(u.mostSigBits) + PutLong(u.leastSigBits)
  }

  /** `getUUIDFromBytes(bytes)`: the first sixteen bytes; fewer make
      `getLong` throw BufferUnderflowException. */
  function GetUuidFromBytes(bytes: seq<Byte>): (r: Outcome<Uuid>)
    ensures |bytes| < 16 <==> r == Thrown(BufferUnderflow)
  {
    if |bytes| < 16 then Thrown(BufferUnderflow)
    else Normal(Uuid(GetLong(bytes[..8]), GetLong(bytes[8..16])))
  }

  /** Packing then unpacking a UUID gives it back. */
  lemma UuidRoundTrip(u: Uuid)
    ensures GetUuidFromBytes(GetBytesFromUuid(u)) == Normal(u)
  {
    var b := GetBytesFromUuid(u);
    LongRoundTrip(u.mostSigBits);
    LongRoundTrip(u.leastSigBits);
    assert b[8..16] == b[8..];
  }

  /** Unpacking then packing gives back the first sixteen bytes. */
  lemma UuidBytesRoundTrip(bytes: seq<Byte>)
    requires |bytes| >= 16
    ensures GetUuidFromBytes(bytes).Normal?
    ensures GetBytesFromUuid(GetUuidFromBytes(bytes).value) == bytes[..16]
  {
    BytesRoundTrip(bytes[..8]);
    BytesRoundTrip(bytes[8..16]);
    assert bytes[..16] == bytes[..8] + bytes[8..16];
  }

  /** Byte 0 is the top byte of the most significant long (RFC 4122 section
      4.1.2 order). */
  lemma UuidFirstByteIsTopByte(u: Uuid)
    ensures GetBytesFromUuid(u)[0] == Unsigned64(u.mostSigBits) / Pow256(7)
  {
    var b := PutLong(u.mostSigBits);
    assert GetBytesFromUuid(u)[0] == b[0];
    FromBigEndianHead(b);
    FromBigEndianBound(b[1..]);
    ModOfSum(Unsigned64(u.mostSigBits), Pow256(7), b[0], FromBigEndian(b[1..]));
  }

  // ------------------------------------------------------------------
  // The helper object: reused key/IV buffers and the cipher
  // ------------------------------------------------------------------

  datatype EncryptMode = Encrypt | Decrypt

  /** The exceptions `encrypt`/`decrypt` catch and turn into "". */
  predicate IsSwallowed(e: JavaException) {
    e in {InvalidKey, UnsupportedEncoding, InvalidAlgorithmParameter, IllegalBlockSize, BadPadding}
  }

  /** AES/CBC/PKCS5Padding with Base64 at the text boundary, as one foreign
      function of (mode, the 32 key bytes, the 16 IV bytes, the input text). */
  type Cipher = (EncryptMode, seq<Byte>, seq<Byte>, string) -> Outcome<string>

  /** What `encrypt`/`decrypt` make of an `encryptDecrypt` outcome. */
  function Swallow(r: Outcome<string>): (s: Outcome<string>)
    ensures r.Thrown? && IsSwallowed(r.exception) ==> s == Normal("")
    ensures s.Thrown? ==> !IsSwallowed(s.exception) && s == r
    ensures r.Normal? ==> s == r
  {
    if r.Thrown? && IsSwallowed(r.exception) then Normal("") else r
  }

  class EncryptionHelper {
    /** The 32-byte key and 16-byte IV buffers, allocated once and refilled
        by every call. */
    const key: array<Byte>
    const iv: array<Byte>

    predicate Valid() {
      key.Length == 32 && iv.Length == 16 && key != iv
    }

    constructor ()
      ensures Valid() && fresh(key) && fresh(iv)
      ensures key[..] == seq(32, i => 0) && iv[..] == seq(16, i => 0)
    {
      key := new Byte[32](i => 0);
      iv := new Byte[16](i => 0);
    }

    /** `encryptDecrypt`: copy `min(len, 32)` decoded key bytes and
        `min(len, 16)` IV bytes over the front of the buffers, leave the rest
        of each buffer as the previous call left it, then run the cipher on
        the whole buffers. An odd-length key string throws before anything is
        copied. */
    method EncryptDecrypt(inputText: string, encryptionKey: string, mode: EncryptMode,
                          initVector: seq<Byte>, cipher: Cipher) returns (r: Outcome<string>)
      requires Valid()
      modifies key, iv
      ensures |encryptionKey| % 2 == 1 ==> r == Thrown(StringIndexOutOfBounds) && unchanged(key, iv)
      ensures |encryptionKey| % 2 == 0 ==>
                var decoded := HexDecode(encryptionKey);
                var len := Min(|decoded|, 32);
                var ivLen := Min(|initVector|, 16);
                && key[..len] == decoded[..len] && key[len..] == old(key[len..])
                && iv[..ivLen] == initVector[..ivLen] && iv[ivLen..] == old(iv[ivLen..])
                && r == cipher(mode, key[..], iv[..], inputText)
    {
      // The source decodes the same key string three times; the results agree.
      var decoded := HexStringToByteArray(encryptionKey);
      if decoded.Thrown? {
        return Thrown(decoded.exception);
      }
      var hashDigest := decoded.value;
      assert hashDigest == HexDecode(encryptionKey);
      var len := |hashDigest|;
      if len > key.Length {
        len := key.Length;
      }
      var ivLen := |initVector|;
      if ivLen > iv.Length {
        ivLen := iv.Length;
      }
      ArrayCopy(hashDigest, 0, key, 0, len);
      ArrayCopy(initVector, 0, iv, 0, ivLen);
      r := cipher(mode, key[..], iv[..], inputText);
    }

    /** `encrypt`: the swallowed cipher exceptions become "", others escape. */
    method EncryptText(plainText: string, encryptionKey: string, initVector: seq<Byte>, cipher: Cipher)
      returns (r: Outcome<string>)
      requires Valid()
      modifies key, iv
      ensures r.Thrown? ==> !IsSwallowed(r.exception)
      ensures |encryptionKey| % 2 == 1 ==> r == Thrown(StringIndexOutOfBounds) && unchanged(key, iv)
      ensures |encryptionKey| % 2 == 0 ==>
                var decoded := HexDecode(encryptionKey);
                var len := Min(|decoded|, 32);
                var ivLen := Min(|initVector|, 16);
                && key[..len] == decoded[..len] && key[len..] == old(key[len..])
                && iv[..ivLen] == initVector[..ivLen] && iv[ivLen..] == old(iv[ivLen..])
                && r == Swallow(cipher(Encrypt, key[..], iv[..], plainText))
    {
      r := EncryptDecrypt(plainText, encryptionKey, Encrypt, initVector, cipher);
      r := Swallow(r);
    }

    /** `decrypt`: as `encrypt`, in the other direction. */
    method DecryptText(encryptedText: string, encryptionKey: string, initVector: seq<Byte>, cipher: Cipher)
      returns (r: Outcome<string>)
      requires Valid()
      modifies key, iv
      ensures r.Thrown? ==> !IsSwallowed(r.exception)
      ensures |encryptionKey| % 2 == 1 ==> r == Thrown(StringIndexOutOfBounds) && unchanged(key, iv)
      ensures |encryptionKey| % 2 == 0 ==>
                var decoded := HexDecode(encryptionKey);
                var len := Min(|decoded|, 32);
                var ivLen := Min(|initVector|, 16);
                && key[..len] == decoded[..len] && key[len..] == old(key[len..])
                && iv[..ivLen] == initVector[..ivLen] && iv[ivLen..] == old(iv[ivLen..])
                && r == Swallow(cipher(Decrypt, key[..], iv[..], encryptedText))
    {
      r := EncryptDecrypt(encryptedText, encryptionKey, Decrypt, initVector, cipher);
      r := Swallow(r);
    }
  }
}
