/** The licensed MTE engine, seen from outside. Its algorithms are not part of
    this model: an engine is a record of functions over opaque instances, and
    every call that reports an `MteStatus` yields `Ok` for
    `mte_status_success` or `Failed` with the status' name and description. */
module MteEngine {
  import opened JavaLang

  datatype Role = Encoder | Decoder

  datatype Status<+T> = Ok(value: T) | Failed(status: string)

  /** An engine object (`MteEnc`, `MteDec`, `MteMkeEnc`, `MteMkeDec`): its
      opaque DRBG state and its reseed counter (`getReseedCounter()`). */
  datatype Instance = Instance(role: Role, drbg: seq<int>, reseedCounter: nat)

  /** The `MteEnc`/`MteDec` calls the samples make. */
  datatype Engine = Engine(
    instantiate: (Role, Option<seq<Byte>>, Long, string) -> Status<Instance>,  // setEntropy, setNonce, instantiate(personal)
    reseedInterval: nat,                                    // MteBase.getDrbgsReseedInterval(getDrbg())
    save: Instance -> string,                               // saveStateB64
    restore: (Role, Option<string>) -> Status<Instance>,    // restoreStateB64
    encode: (Instance, string) -> Status<(string, Instance)>,        // encodeB64
    decode: (Instance, Option<string>) -> Status<(string, Instance)>, // decodeStrB64
    uninstantiate: Instance -> bool)                        // uninstantiate() == mte_status_success

  /** The `MteMkeEnc`/`MteMkeDec` chunking calls. */
  datatype ChunkEngine = ChunkEngine(
    entropyMinBytes: nat,                                   // MteBase.getDrbgsEntropyMinBytes(getDrbg())
    cipherBlockBytes: int,                                  // MteBase.getCiphersBlockBytes(getCipher())
    instantiate: (Role, seq<Byte>, Long, string) -> Status<Instance>,
    restore: (Role, Option<string>) -> Status<Instance>,
    save: Instance -> string,
    uninstantiate: Instance -> bool,
    start: Instance -> Status<Instance>,                    // startEncrypt / startDecrypt
    encryptChunk: (Instance, seq<Byte>) -> Status<(seq<Byte>, Instance)>,      // in place
    finishEncrypt: Instance -> Status<(Option<seq<Byte>>, Instance)>,
    decryptChunk: (Instance, seq<Byte>) -> (Option<seq<Byte>>, Instance),      // decryptChunk(byte[])
    decryptChunkInto: (Instance, seq<Byte>, nat) -> (int, seq<Byte>, Instance), // decryptChunk(in, 0, n, out, 0)
    finishDecrypt: Instance -> Status<(Option<seq<Byte>>, Instance)>)

  /** What the library guarantees about its in-place and caller-sized calls:
      `encryptChunk` rewrites exactly the bytes it is given, and the sized
      `decryptChunk` fills exactly the output array it is handed. */
  ghost predicate InPlace(ce: ChunkEngine) {
    && (forall i: Instance, data: seq<Byte> ::
          ce.encryptChunk(i, data).Ok? ==> |ce.encryptChunk(i, data).value.0| == |data|)
    && (forall i: Instance, data: seq<Byte>, n: nat ::
          |ce.decryptChunkInto(i, data, n).1| == n)
  }

  /** `currentSeed > maxSeed * 0.9`, in exact arithmetic. */
  predicate PastReseedThreshold(counter: nat, maxSeed: int) {
    10 * counter > 9 * maxSeed
  }
}
