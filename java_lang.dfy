/** Java-level vocabulary shared by the sample clients: byte and long values,
    the `null`-able reference as an Option, and the outcome of a call that may
    end with an exception nobody catches. */
module JavaLang {

  /** A Java `byte`, seen through `b & 0xff`: its unsigned value. */
  type Byte = x: int | 0 <= x < 256

  /** A Java `long`. */
  type Long = x: int | -0x8000_0000_0000_0000 <= x < 0x8000_0000_0000_0000

  const TwoTo63: int := 0x8000_0000_0000_0000
  const TwoTo64: int := 0x1_0000_0000_0000_0000

  /** What `MessageDigest.getInstance("SHA-256").digest(..)` returns: 32 bytes. */
  type Sha256Digest = s: seq<Byte> | |s| == 32 witness seq(32, i => 0)

  /** What `MessageDigest.getInstance("MD5").digest(..)` returns: 16 bytes. */
  type Md5Digest = s: seq<Byte> | |s| == 16 witness seq(16, i => 0)

  function Min(a: int, b: int): int { if a < b then a else b }

  /** A Java reference that may be `null`. */
  datatype Option<+T> = None | Some(value: T)

  /** The exceptions the modelled code can raise or catch. */
  datatype JavaException =
    | NullPointer                  // dereferencing `null`
    | StringIndexOutOfBounds       // `charAt`/`substring` outside the string
    | BufferUnderflow              // `ByteBuffer.getLong` with fewer than 8 bytes left
    | NumberFormat                 // `Long.parseLong` on a malformed string
    | NegativeArraySize            // `new byte[n]` with n < 0
    | IllegalArgument              // thrown explicitly, or by the Base64 decoder
    | PlainException               // `throw new Exception(..)` by the sample itself
    | InvalidKey                   // checked
    | UnsupportedEncoding          // checked
    | InvalidAlgorithmParameter    // checked
    | IllegalBlockSize             // checked
    | BadPadding                   // checked

  /** How a Java call ended: it returned a value, or an exception escaped it. */
  datatype Outcome<+T> = Normal(value: T) | Thrown(exception: JavaException)

  /** Two's-complement bit pattern of a `long`, as an unsigned 64-bit value. */
  function Unsigned64(x: Long): (u: nat)
    ensures u < TwoTo64
    ensures u % TwoTo64 == x % TwoTo64
  {
    if x < 0 then x + TwoTo64 else x
  }

  /** The `long` whose bit pattern is the unsigned value `u`. */
  function Signed64(u: nat): (x: Long)
    requires u < TwoTo64
    ensures Unsigned64(x) == u
  {
    if u >= TwoTo63 then u - TwoTo64 else u
  }

  /** The value of an ASCII decimal digit, or -1. */
  function DecimalDigit(c: char): int
  {
    if '0' <= c <= '9' then c as int - '0' as int else -1
  }

  function DecimalValue(s: string): nat
    requires forall i :: 0 <= i < |s| ==> '0' <= s[i] <= '9'
  {
    if s == [] then 0 else DecimalValue(s[..|s| - 1]) * 10 + DecimalDigit(s[|s| - 1])
  }

  /** Every character is an ASCII decimal digit. */
  predicate AllDigits(s: string) {
    forall i :: 0 <= i < |s| ==> '0' <= s[i] <= '9'
  }

  /** The length of the optional leading sign `-` or `+`. */
  function SignLength(s: string): nat {
    if |s| > 0 && (s[0] == '-' || s[0] == '+') then 1 else 0
  }

  /** `Long.parseLong(s)` for ASCII input: an optional sign, then at least one
      digit, and a value inside the range of `long`; any other ASCII string
      throws NumberFormatException. */
  function ParseLong(s: string): (r: Outcome<Long>)
    ensures r.Thrown? ==> r.exception == NumberFormat
    ensures s == "" || s == "-" || s == "+" ==> r == Thrown(NumberFormat)
    // a character after the sign that is not a digit
    ensures (exists j :: SignLength(s) <= j < |s| && !('0' <= s[j] <= '9')) ==> r == Thrown(NumberFormat)
    // a parse that succeeds read a sign and digits, and returns their signed value
    ensures r.Normal? ==>
              && |s| > SignLength(s) && AllDigits(s[SignLength(s)..])
              && var magnitude: int := DecimalValue(s[SignLength(s)..]);
                 r.value == if s[0] == '-' then -magnitude else magnitude
    // well-formed input throws exactly when its value is outside the range of `long`
    ensures |s| > SignLength(s) && AllDigits(s[SignLength(s)..]) ==>
              var magnitude := DecimalValue(s[SignLength(s)..]);
              (r.Thrown? <==> (if s[0] == '-' then magnitude > TwoTo63 else magnitude >= TwoTo63))
  {
    var start := SignLength(s);
    var digits := s[start..];
    if digits == [] || exists j :: 0 <= j < |digits| && !('0' <= digits[j] <= '9') then
      assert forall j :: start <= j < |s| ==> s[j] == digits[j - start];
      Thrown(NumberFormat)
    else
      var magnitude: int := DecimalValue(digits);
      var v: int := if start == 1 && s[0] == '-' then -magnitude else magnitude;
      if -TwoTo63 <= v < TwoTo63 then Normal(v) else Thrown(NumberFormat)
  }

  /** `Integer.toString(n)` / `Long.toString(n)` for a non-negative value. */
  function NatToString(n: nat): (s: string)
    ensures |s| > 0 && forall i :: 0 <= i < |s| ==> '0' <= s[i] <= '9'
  {
    var c := ('0' as int + n % 10) as char;
    if n < 10 then [c] else NatToString(n / 10) + [c]
  }

  /** `Integer.toString(n)` for any `int`. */
  function IntToString(n: int): (s: string)
    ensures |s| > 0
    ensures n >= 0 ==> s == NatToString(n)
    ensures n < 0 ==> s[0] == '-'
  {
    if n < 0 then "-" + NatToString(-n) else NatToString(n)
  }

  lemma {:induction false} DecimalValueOfNatToString(n: nat)
    ensures DecimalValue(NatToString(n)) == n
  {
    var s := NatToString(n);
    if n >= 10 {
      DecimalValueOfNatToString(n / 10);
      assert s[..|s| - 1] == NatToString(n / 10);
    }
  }

  /** Parsing what `Long.toString` printed gives the number back. */
  lemma ParseLongOfNatToString(n: nat)
    requires n < TwoTo63
    ensures ParseLong(NatToString(n)) == Normal(n)
  {
    DecimalValueOfNatToString(n);
    var s := NatToString(n);
    assert s[0..] == s;
  }

  /** Leading zeros do not change a decimal value. */
  lemma {:induction false} DecimalValueLeadingZero(d: string)
    requires AllDigits(d)
    ensures DecimalValue("0" + d) == DecimalValue(d)
  {
    if d != [] {
      var z := "0" + d;
      assert z[..|z| - 1] == "0" + d[..|d| - 1];
      assert z[|z| - 1] == d[|d| - 1];
      DecimalValueLeadingZero(d[..|d| - 1]);
    }
  }

  /** Two well-formed strings with the same sign and the same digit value
      parse alike. */
  lemma ParseLongBySignAndValue(a: string, b: string)
    requires |a| > SignLength(a) && AllDigits(a[SignLength(a)..])
    requires |b| > SignLength(b) && AllDigits(b[SignLength(b)..])
    requires (a[0] == '-') == (b[0] == '-')
    requires DecimalValue(a[SignLength(a)..]) == DecimalValue(b[SignLength(b)..])
    ensures ParseLong(a) == ParseLong(b)
  {
    if ParseLong(a).Normal? {
      assert ParseLong(b).Normal?;
    }
  }

  /** A zero after the sign, or at the start, leaves the parsed value as it was. */
  lemma ParseLongZeroPadded(sign: string, d: string)
    requires sign == "" || sign == "-" || sign == "+"
    requires d != [] && AllDigits(d)
    ensures ParseLong(sign + "0" + d) == ParseLong(sign + d)
  {
    var padded, plain := sign + "0" + d, sign + d;
    assert padded[|sign|..] == "0" + d && plain[|sign|..] == d;
    assert SignLength(padded) == |sign| && SignLength(plain) == |sign|;
    assert AllDigits(padded[|sign|..]) && AllDigits(plain[|sign|..]);
    assert padded[0] == '-' <==> plain[0] == '-';
    DecimalValueLeadingZero(d);
    ParseLongBySignAndValue(padded, plain);
  }

  /** Parsing `"-"` followed by what `Long.toString` printed for a magnitude
      up to 2^63 gives the negative number; -2^63 itself is accepted. */
  lemma ParseLongOfNegative(n: nat)
    requires 0 < n <= TwoTo63
    ensures ParseLong("-" + NatToString(n)).Normal? && ParseLong("-" + NatToString(n)).value == -(n as int)
  {
    DecimalValueOfNatToString(n);
    assert ("-" + NatToString(n))[1..] == NatToString(n);
  }

  /** `System.arraycopy(src, srcPos, dst, dstPos, length)` from a byte source:
      the copied range is replaced, every other element of `dst` is kept. */
  method ArrayCopy(src: seq<Byte>, srcPos: nat, dst: array<Byte>, dstPos: nat, length: nat)
    requires srcPos + length <= |src| && dstPos + length <= dst.Length
    modifies dst
    ensures dst[dstPos..dstPos + length] == src[srcPos..srcPos + length]
    ensures dst[..dstPos] == old(dst[..dstPos]) && dst[dstPos + length..] == old(dst[dstPos + length..])
  {
    var i := 0;
    while i < length
      invariant 0 <= i <= length
      invariant dst[dstPos..dstPos + i] == src[srcPos..srcPos + i]
      invariant dst[..dstPos] == old(dst[..dstPos]) && dst[dstPos + length..] == old(dst[dstPos + length..])
    {
      dst[dstPos + i] := src[srcPos + i];
      i := i + 1;
    }
  }
}
