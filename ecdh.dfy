/** EclypsesECDH: a single-use elliptic-curve Diffie-Hellman helper. The object
    holds at most one key pair (`kp`); the pair is generated lazily by
    `GetDevicePublicKey`, and every return from `CreateSharedSecret` drops it,
    so a second derivation needs a new public key first.

    The JCA algorithms (P-256 key generation, X.509 SubjectPublicKeyInfo
    decoding per section 4.1.2.7 of RFC 5280, ECDH, SHA-256) are foreign and
    enter as parameters. */
module Ecdh {
  import opened JavaLang

  datatype PrivateKey = PrivateKey(scalar: nat)

  /** A public key, carried by its X.509 encoding (`getEncoded()`). */
  datatype PublicKey = PublicKey(encoded: seq<Byte>)

  datatype KeyPair = KeyPair(privateKey: PrivateKey, publicKey: PublicKey)

  /** The providers `createSharedSecret` asks for, each of which may be missing. */
  datatype EcProvider = EcProvider(
    keyFactory: bool,                                     // KeyFactory.getInstance("EC")
    decodePublic: seq<Byte> -> Option<PublicKey>,         // generatePublic; None: InvalidKeySpecException
    keyAgreement: bool,                                   // KeyAgreement.getInstance("ECDH")
    agree: (PrivateKey, PublicKey) -> Option<seq<Byte>>,  // init, doPhase, generateSecret; None: InvalidKeyException
    sha256: Option<seq<Byte> -> Sha256Digest>)            // MessageDigest.getInstance("SHA-256")

  /** What `getDevicePublicKey` returns on a fresh object whose generator
      yields `pair`: its encoded public key, or null. */
  function PublicKeyOf(pair: Option<KeyPair>): Option<seq<Byte>> {
    if pair.Some? then Some(pair.value.publicKey.encoded) else None
  }

  /** Every provider is present and the peer key is accepted. */
  predicate AgreementSucceeds(kp: KeyPair, partner: seq<Byte>, ec: EcProvider) {
    && ec.keyFactory
    && ec.decodePublic(partner).Some?
    && ec.keyAgreement
    && ec.agree(kp.privateKey, ec.decodePublic(partner).value).Some?
    && ec.sha256.Some?
  }

  /** What `createSharedSecret(partner)` returns when the object holds `held`:
      null (None) on each of the five failure branches; a NullPointerException
      when the partner key is null (in `X509EncodedKeySpec`) or no key pair is
      held by the time the private key is needed; and otherwise SHA-256 of the
      raw agreement. */
  function SharedSecret(held: Option<KeyPair>, partner: Option<seq<Byte>>, ec: EcProvider): (r: Outcome<Option<Sha256Digest>>)
    ensures r.Thrown? <==>
              ec.keyFactory &&
              (partner.None? || (ec.decodePublic(partner.value).Some? && ec.keyAgreement && held.None?))
    ensures r.Thrown? ==> r.exception == NullPointer
    ensures (r.Normal? && r.value.Some?) <==> held.Some? && partner.Some? && AgreementSucceeds(held.value, partner.value, ec)
    ensures r.Normal? && r.value.Some? ==>
              |r.value.value| == 32 &&
              r.value.value == ec.sha256.value(ec.agree(held.value.privateKey, ec.decodePublic(partner.value).value).value)
  {
    if !ec.keyFactory then Normal(None)
    else if partner.None? then Thrown(NullPointer)
    else if ec.decodePublic(partner.value).None? then Normal(None)
    else if !ec.keyAgreement then Normal(None)
    else if held.None? then Thrown(NullPointer)
    else
      var raw := ec.agree(held.value.privateKey, ec.decodePublic(partner.value).value);
      if raw.None? then Normal(None)
      else if ec.sha256.None? then Normal(None)
      else Normal(Some(ec.sha256.value(raw.value)))
  }

  /** `Arrays.fill(a, (byte) 0)`. */
  method Wipe(a: array<Byte>)
    modifies a
    ensures forall i :: 0 <= i < a.Length ==> a[i] == 0
  {
    var i := 0;
    while i < a.Length
      invariant 0 <= i <= a.Length
      invariant forall k :: 0 <= k < i ==> a[k] == 0
    {
      a[i] := 0;
      i := i + 1;
    }
  }

  class EclypsesECDH {
    const logging: bool
    var kp: Option<KeyPair>

    /** `EclypsesECDH()`, which is `this(false)`. */
    constructor ()
      ensures kp == None && !logging
    {
      logging := false;
      kp := None;
    }

    /** `EclypsesECDH(doLogging)`; DEBUG is true, so logging follows the flag. */
    constructor WithLogging(doLogging: bool)
      ensures kp == None && logging == doLogging
    {
      logging := doLogging;
      kp := None;
    }

    /** `getDevicePublicKey()`. `generator` is what an EC KeyPairGenerator of
        size 256 would produce now, or None when "EC" is unavailable. A held
        pair is reused; otherwise the generated one is kept. The result is
        the encoded public key of the pair held afterwards, or null. */
    method GetDevicePublicKey(generator: Option<KeyPair>) returns (publicKey: Option<seq<Byte>>)
      modifies this`kp
      ensures kp == if old(kp).Some? then old(kp) else generator
      ensures publicKey == if kp.Some? then Some(kp.value.publicKey.encoded) else None
    {
      if kp.None? {
        if generator.None? {
          return None;
        }
        kp := generator;
      }
      publicKey := Some(kp.value.publicKey.encoded);
    }

    /** `createSharedSecret(partnerPublicKey)`: every return drops the pair; an
        exception leaves it as it was (it escapes before any `kp = null`). */
    method CreateSharedSecret(partnerPublicKey: Option<seq<Byte>>, ec: EcProvider) returns (r: Outcome<Option<Sha256Digest>>)
      modifies this`kp
      ensures r == SharedSecret(old(kp), partnerPublicKey, ec)
      ensures kp == if r.Normal? then None else old(kp)
    {
      if !ec.keyFactory {
        kp := None;
        return Normal(None);
      }
      if partnerPublicKey.None? {
        // `new X509EncodedKeySpec(null)`
        return Thrown(NullPointer);
      }
      var partnerKey := ec.decodePublic(partnerPublicKey.value);
      if partnerKey.None? {
        kp := None;
        return Normal(None);
      }
      if !ec.keyAgreement {
        kp := None;
        return Normal(None);
      }
      if kp.None? {
        // `kp.getPrivate()` on null
        return Thrown(NullPointer);
      }
      var agreed := ec.agree(kp.value.privateKey, partnerKey.value);
      if agreed.None? {
        kp := None;
        return Normal(None);
      }
      var sharedSecret := new Byte[|agreed.value|](i requires 0 <= i < |agreed.value| => agreed.value[i]);
      if ec.sha256.None? {
        Wipe(sharedSecret);
        kp := None;
        return Normal(None);
      }
      var digest := ec.sha256.value(sharedSecret[..]);
      assert sharedSecret[..] == agreed.value;
      kp := None;
      r := Normal(Some(digest));
    }

    /** `ClearDeviceKeyPair()`. */
    method ClearDeviceKeyPair()
      modifies this`kp
      ensures kp == None
    {
      kp := None;
    }
  }

  /** Asking twice without deriving in between gives the same public key and
      consults the generator only once. */
  method PublicKeyIsStable(e: EclypsesECDH, first: Option<KeyPair>, second: Option<KeyPair>)
    returns (k1: Option<seq<Byte>>, k2: Option<seq<Byte>>)
    requires first.Some?
    modifies e`kp
    ensures k1 == k2 == Some(if old(e.kp).Some? then old(e.kp).value.publicKey.encoded else first.value.publicKey.encoded)
  {
    k1 := e.GetDevicePublicKey(first);
    k2 := e.GetDevicePublicKey(second);
  }

  /** The single-use discipline: after a derivation (successful or not), a
      second one without a new `GetDevicePublicKey` never yields a secret. */
  method SecondDerivationFails(e: EclypsesECDH, p1: seq<Byte>, p2: Option<seq<Byte>>, ec: EcProvider)
    returns (first: Outcome<Option<Sha256Digest>>, second: Outcome<Option<Sha256Digest>>)
    modifies e`kp
    ensures !(second.Normal? && second.value.Some?)
  {
    first := e.CreateSharedSecret(Some(p1), ec);
    second := e.CreateSharedSecret(p2, ec);
  }
}
