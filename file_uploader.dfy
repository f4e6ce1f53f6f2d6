/** The file-upload console client. One handshake at start-up gives the
    client a saved encoder state and a saved decoder state (`HandshakeResponse`).
    Each upload restores the encoder into a chunking (MKE) encoder, encrypts
    the file through a 1 KB buffer in place, and posts it. It then either
    saves the encoder state back or, once the encoder's reseed counter has
    passed 90% of the interval, replaces both states from a new handshake.
    The server's reply is decrypted by a restored decoder in one chunk plus
    the finish chunk, and the decoder state is swapped by the same rule.

    The engines, the ECDH providers and the two HTTP endpoints (with their
    JSON decoding) enter through an `UploadWorld`; the key pairs a handshake
    generates enter as a `KeyDraw`. */
module FileUploader {
  import opened JavaLang
  import opened Models
  import opened MteEngine
  import opened Ecdh
  import Chunking

  const HandshakeExceptionMessage := "Exception during handshake: "

  /** What the two EC key-pair generators of one handshake produce. */
  datatype KeyDraw = KeyDraw(encoderPair: Option<KeyPair>, decoderPair: Option<KeyPair>)

  /** Everything outside the client's own code. */
  datatype UploadWorld = UploadWorld(
    engine: Engine,            // MteEnc / MteDec, used by the handshake
    chunkEngine: ChunkEngine,  // MteMkeEnc / MteMkeDec, used by the uploads
    ec: EcProvider,
    handshakeServer: HandshakeModel -> ResponseModel<HandshakeModel>,           // POST /api/handshake, parsed
    uploadServer: (string, string, seq<Byte>) -> ResponseModel<seq<Byte>>)  // POST /FileUpload/mte (client id, file name, body), parsed

  /** The client's mutable state: the static `maxSeed` and `main`'s
      `handshake` object. */
  datatype ClientState = ClientState(maxSeed: int, handshake: HandshakeResponse)

  /** Both saved states are present. */
  predicate Ready(h: HandshakeResponse) {
    h.encoderState.Some? && h.decoderState.Some?
  }

  function StateOf(h: HandshakeResponse, role: Role): Option<string> {
    if role == Encoder then h.encoderState else h.decoderState
  }

  /** The handshake request: a default `HandshakeModel` carrying the client id
      and the two device public keys. */
  function HandshakeRequest(clientId: string, draw: KeyDraw): (r: HandshakeModel)
    ensures r.conversationIdentifier == clientId
    ensures r.clientEncoderPublicKey == PublicKeyOf(draw.encoderPair)
    ensures r.clientDecoderPublicKey == PublicKeyOf(draw.decoderPair)
    ensures r.timestamp == NewHandshakeModel().timestamp
  {
    NewHandshakeModel().(conversationIdentifier := clientId,
                         clientEncoderPublicKey := PublicKeyOf(draw.encoderPair),
                         clientDecoderPublicKey := PublicKeyOf(draw.decoderPair))
  }

  /** What the handshake computes from an accepted reply before touching the
      engine: both shared secrets and the nonce, or the exception that the
      catch-all turns into RC "302" (a null `Data`, a null partner key, an
      unparsable `Timestamp`). */
  function EngineInputs(reply: ResponseModel<HandshakeModel>, draw: KeyDraw, ec: EcProvider)
    : (r: Outcome<(Option<Sha256Digest>, Option<Sha256Digest>, Long)>)
    ensures r.Normal? ==> reply.data.Some? && ParseLong(reply.data.value.timestamp) == Normal(r.value.2)
    ensures r.Normal? ==> SharedSecret(draw.encoderPair, reply.data.value.clientEncoderPublicKey, ec) == Normal(r.value.0)
    ensures r.Normal? ==> SharedSecret(draw.decoderPair, reply.data.value.clientDecoderPublicKey, ec) == Normal(r.value.1)
    ensures r.Thrown? <==>
              || reply.data.None?
              || SharedSecret(draw.encoderPair, reply.data.value.clientEncoderPublicKey, ec).Thrown?
              || SharedSecret(draw.decoderPair, reply.data.value.clientDecoderPublicKey, ec).Thrown?
              || ParseLong(reply.data.value.timestamp).Thrown?
  {
    if reply.data.None? then Thrown(NullPointer)
    else
      var encoderSecret := SharedSecret(draw.encoderPair, reply.data.value.clientEncoderPublicKey, ec);
      if encoderSecret.Thrown? then Thrown(encoderSecret.exception)
      else
        var decoderSecret := SharedSecret(draw.decoderPair, reply.data.value.clientDecoderPublicKey, ec);
        if decoderSecret.Thrown? then Thrown(decoderSecret.exception)
        else
          var nonce := ParseLong(reply.data.value.timestamp);
          if nonce.Thrown? then Thrown(nonce.exception)
          else Normal((encoderSecret.value, decoderSecret.value, nonce.value))
  }

  function Failure(response: ResponseModel<HandshakeResponse>, message: string, resultCode: string): ResponseModel<HandshakeResponse> {
    response.(message := message, resultCode := resultCode, success := false)
  }

  function CreateMessage(role: string, status: string): string {
    "Error creating " + role + ": Status: " + status
  }

  /** `HandshakeWithServer(clientId)`: the response it returns and the value
      of `maxSeed` afterwards. Every exception is caught. */
  function HandshakeReply(maxSeed: int, w: UploadWorld, clientId: string, draw: KeyDraw): (res: (ResponseModel<HandshakeResponse>, int))
    ensures var reply := w.handshakeServer(HandshakeRequest(clientId, draw));
            var inputs := EngineInputs(reply, draw, w.ec);
            var r := res.0;
            // `Data` is never null, and the states are filled in order
            && r.data.Some?
            && (r.data.value.decoderState.Some? ==> r.data.value.encoderState.Some?)
            && r.exceptionUid == "" && r.accessToken == ""
            // a rejected handshake: the server's status, verbatim, and no state
            && (!reply.success ==>
                  && r.message == reply.message && r.success == reply.success && r.resultCode == reply.resultCode
                  && r.data.value == HandshakeResponse(None, None) && res.1 == maxSeed)
            // an exception before the engine: RC "302", no state
            && (reply.success && inputs.Thrown? ==>
                  && !r.success && r.resultCode == RcHandshakeException && r.message == HandshakeExceptionMessage
                  && r.data.value == HandshakeResponse(None, None) && res.1 == maxSeed)
            && (reply.success && inputs.Normal? ==>
                  var encoder := w.engine.instantiate(Encoder, inputs.value.0, inputs.value.2, clientId);
                  var decoder := w.engine.instantiate(Decoder, inputs.value.1, inputs.value.2, clientId);
                  && (encoder.Failed? ==>
                        !r.success && r.resultCode == RcMteEncodeException && r.data.value == HandshakeResponse(None, None))
                  && (encoder.Ok? ==> r.data.value.encoderState == Some(w.engine.save(encoder.value)))
                  && (encoder.Ok? && decoder.Failed? ==> !r.success && r.resultCode == RcMteDecodeException && r.data.value.decoderState == None)
                  && (r.success <==> encoder.Ok? && decoder.Ok?)
                  && (r.success ==> r.data.value.decoderState == Some(w.engine.save(decoder.value))))
            // success: the default status and both states
            && (r.success ==> HasDefaultStatus(r) && Ready(r.data.value))
            // `maxSeed` is overwritten exactly when an encoder was created
            && (r.data.value.encoderState.Some? ==> res.1 == w.engine.reseedInterval)
            && (r.data.value.encoderState.None? ==> res.1 == maxSeed)
  {
    var response := NewResponseWith(Some(HandshakeResponse(None, None)));
    var reply := w.handshakeServer(HandshakeRequest(clientId, draw));
    if !reply.success then
      (response.(message := reply.message, success := reply.success, resultCode := reply.resultCode), maxSeed)
    else
      var inputs := EngineInputs(reply, draw, w.ec);
      if inputs.Thrown? then (Failure(response, HandshakeExceptionMessage, RcHandshakeException), maxSeed)
      else
        var encoder := w.engine.instantiate(Encoder, inputs.value.0, inputs.value.2, clientId);
        if encoder.Failed? then (Failure(response, CreateMessage("Encoder", encoder.status), RcMteEncodeException), maxSeed)
        else
          var withEncoder := response.(data := Some(HandshakeResponse(Some(w.engine.save(encoder.value)), None)));
          var decoder := w.engine.instantiate(Decoder, inputs.value.1, inputs.value.2, clientId);
          if decoder.Failed? then
            (Failure(withEncoder, CreateMessage("Decoder", decoder.status), RcMteDecodeException), w.engine.reseedInterval)
          else
            (withEncoder.(data := Some(HandshakeResponse(Some(w.engine.save(encoder.value)), Some(w.engine.save(decoder.value))))),
             w.engine.reseedInterval)
  }

  /** The start of `main`: the first handshake, whose failure ends the
      program, and whose states become the client's. */
  function Begin(st: ClientState, w: UploadWorld, clientId: string, draw: KeyDraw): (res: (Outcome<()>, ClientState))
    ensures res.0.Normal? <==> HandshakeReply(st.maxSeed, w, clientId, draw).0.success
    ensures res.0.Normal? ==> Ready(res.1.handshake) && res.1.maxSeed == w.engine.reseedInterval
    ensures res.0.Thrown? ==> res.0.exception == PlainException && res.1.handshake == st.handshake
  {
    var (response, maxSeed) := HandshakeReply(st.maxSeed, w, clientId, draw);
    if !response.success then (Thrown(PlainException), st.(maxSeed := maxSeed))
    else (Normal(()), ClientState(maxSeed, response.data.value))
  }

  /** The state swap after an encode (`role == Encoder`, `instance` the
      encoder after `finishEncrypt`) or a decode (`Decoder`, after
      `finishDecrypt`): under the threshold only that role's state is saved;
      over it the engine is uninstantiated and both states are replaced from a
      new handshake, and either of those failing throws. */
  function SwapStates(st: ClientState, w: UploadWorld, clientId: string, role: Role, instance: Instance, draw: KeyDraw)
    : (res: (Outcome<()>, ClientState))
    ensures !PastReseedThreshold(instance.reseedCounter, st.maxSeed) ==>
              && res.0 == Normal(())
              && res.1.maxSeed == st.maxSeed
              && StateOf(res.1.handshake, role) == Some(w.chunkEngine.save(instance))
              && StateOf(res.1.handshake, OtherRole(role)) == StateOf(st.handshake, OtherRole(role))
    ensures PastReseedThreshold(instance.reseedCounter, st.maxSeed) && res.0.Normal? ==>
              && w.chunkEngine.uninstantiate(instance)
              && var (reply, maxSeed) := HandshakeReply(st.maxSeed, w, clientId, draw);
                 reply.success && res.1 == ClientState(maxSeed, reply.data.value) && Ready(res.1.handshake)
    // over it, the swap succeeds exactly when the engine is uninstantiated and
    // the new handshake succeeds
    ensures PastReseedThreshold(instance.reseedCounter, st.maxSeed) ==>
              (res.0.Normal? <==>
                 w.chunkEngine.uninstantiate(instance) && HandshakeReply(st.maxSeed, w, clientId, draw).0.success)
    ensures res.0.Thrown? ==>
              && PastReseedThreshold(instance.reseedCounter, st.maxSeed)
              && res.0.exception == PlainException
              && res.1.handshake == st.handshake
    ensures Ready(st.handshake) && res.0.Normal? ==> Ready(res.1.handshake)
  {
    if PastReseedThreshold(instance.reseedCounter, st.maxSeed) then
      if !w.chunkEngine.uninstantiate(instance) then (Thrown(PlainException), st)
      else
        var (reply, maxSeed) := HandshakeReply(st.maxSeed, w, clientId, draw);
        if !reply.success then (Thrown(PlainException), st.(maxSeed := maxSeed))
        else (Normal(()), ClientState(maxSeed, HandshakeResponse(reply.data.value.encoderState, reply.data.value.decoderState)))
    else if role == Encoder then
      (Normal(()), st.(handshake := st.handshake.(encoderState := Some(w.chunkEngine.save(instance)))))
    else
      (Normal(()), st.(handshake := st.handshake.(decoderState := Some(w.chunkEngine.save(instance)))))
  }

  function OtherRole(role: Role): Role {
    if role == Encoder then Decoder else Encoder
  }

  /** The body of one upload: the chunks encrypted in place, then the finish
      chunk; a null finish array makes `output.write` throw. */
  function UploadBody(ce: ChunkEngine, encoder: Instance, chunks: seq<seq<Byte>>): (r: Outcome<(seq<Byte>, Instance)>)
    requires InPlace(ce)
    ensures r.Normal? ==>
              && Chunking.EncryptAll(ce, encoder, chunks).Ok?
              && |r.value.0| >= Chunking.TotalLength(chunks)
              && r.value.0[..Chunking.TotalLength(chunks)] == Chunking.EncryptAll(ce, encoder, chunks).value.0
    ensures Chunking.EncryptAll(ce, encoder, chunks).Failed? ==> r == Thrown(PlainException)
    // once every chunk is encrypted, the finish chunk decides the outcome and
    // ends the body
    ensures var body := Chunking.EncryptAll(ce, encoder, chunks);
            body.Ok? ==>
              var finish := ce.finishEncrypt(body.value.1);
              && (finish.Failed? ==> r == Thrown(PlainException))
              && (finish.Ok? && finish.value.0.None? ==> r == Thrown(NullPointer))
              && (r.Normal? <==> finish.Ok? && finish.value.0.Some?)
              && (r.Normal? ==>
                    && r.value.0[Chunking.TotalLength(chunks)..] == finish.value.0.value
                    && r.value.1 == finish.value.1)
  {
    var body := Chunking.EncryptAll(ce, encoder, chunks);
    if body.Failed? then Thrown(PlainException)
    else
      var finish := ce.finishEncrypt(body.value.1);
      if finish.Failed? then Thrown(PlainException)
      else if finish.value.0.None? then Thrown(NullPointer)
      else Normal((body.value.0 + finish.value.0.value, finish.value.1))
  }

  /** The encoder restored from `encoderState` and started, then the body
      built with it: the body and the encoder after `finishEncrypt`, or the
      exception. */
  function EncodedUpload(ce: ChunkEngine, encoderState: Option<string>, chunks: seq<seq<Byte>>)
    : (r: Outcome<(seq<Byte>, Instance)>)
    requires InPlace(ce)
    ensures ce.restore(Encoder, encoderState).Failed? ==> r == Thrown(PlainException)
    ensures r.Normal? ==>
              && ce.restore(Encoder, encoderState).Ok?
              && var started := ce.start(ce.restore(Encoder, encoderState).value);
                 && started.Ok?
                 && Chunking.EncryptAll(ce, started.value, chunks).Ok?
                 && |r.value.0| >= Chunking.TotalLength(chunks)
                 && r.value.0[..Chunking.TotalLength(chunks)] == Chunking.EncryptAll(ce, started.value, chunks).value.0
    // it succeeds exactly when the encoder restores and starts, every chunk
    // encrypts and the finish chunk is non-null; that chunk ends the body
    ensures r.Normal? <==>
              && ce.restore(Encoder, encoderState).Ok?
              && var started := ce.start(ce.restore(Encoder, encoderState).value);
                 && started.Ok?
                 && var body := Chunking.EncryptAll(ce, started.value, chunks);
                    && body.Ok?
                    && ce.finishEncrypt(body.value.1).Ok? && ce.finishEncrypt(body.value.1).value.0.Some?
    ensures r.Normal? ==>
              var body := Chunking.EncryptAll(ce, ce.start(ce.restore(Encoder, encoderState).value).value, chunks);
              && r.value.0[Chunking.TotalLength(chunks)..] == ce.finishEncrypt(body.value.1).value.0.value
              && r.value.1 == ce.finishEncrypt(body.value.1).value.1
  {
    var restored := ce.restore(Encoder, encoderState);
    if restored.Failed? then Thrown(PlainException)
    else
      var started := ce.start(restored.value);
      if started.Failed? then Thrown(PlainException)
      else UploadBody(ce, started.value, chunks)
  }

  /** The encode half of an upload: restore the encoder from the saved
      state, start it, build the body, then swap states. A failed restore,
      start or body throws before anything changes. */
  function SendFile(st: ClientState, w: UploadWorld, clientId: string, chunks: seq<seq<Byte>>, draw: KeyDraw)
    : (res: (Outcome<seq<Byte>>, ClientState))
    requires InPlace(w.chunkEngine)
    ensures w.chunkEngine.restore(Encoder, st.handshake.encoderState).Failed? ==> res == (Thrown(PlainException), st)
    ensures var encoded := EncodedUpload(w.chunkEngine, st.handshake.encoderState, chunks);
            && (encoded.Thrown? ==> res == (Thrown(encoded.exception), st))
            // the encoder after `finishEncrypt` goes through the save-or-rotate rule
            && (encoded.Normal? ==>
                  var swapped := SwapStates(st, w, clientId, Encoder, encoded.value.1, draw);
                  && res.1 == swapped.1
                  && (res.0.Normal? <==> swapped.0.Normal?)
                  && (res.0.Normal? ==> res.0.value == encoded.value.0))
            // under the threshold only the encoder state changes
            && (encoded.Normal? && !PastReseedThreshold(encoded.value.1.reseedCounter, st.maxSeed) ==>
                  res == (Normal(encoded.value.0),
                          st.(handshake := st.handshake.(encoderState := Some(w.chunkEngine.save(encoded.value.1))))))
    ensures Ready(st.handshake) && res.0.Normal? ==> Ready(res.1.handshake)
  {
    var ce := w.chunkEngine;
    var restored := ce.restore(Encoder, st.handshake.encoderState);
    if restored.Failed? then (Thrown(PlainException), st)
    else
      var started := ce.start(restored.value);
      if started.Failed? then (Thrown(PlainException), st)
      else
        var body := UploadBody(ce, started.value, chunks);
        if body.Thrown? then (Thrown(body.exception), st)
        else
          var swapped := SwapStates(st, w, clientId, Encoder, body.value.1, draw);
          if swapped.0.Thrown? then (Thrown(swapped.0.exception), swapped.1)
          else (Normal(body.value.0), swapped.1)
  }

  /** What `main` prints for an upload: the server's message, or the
      decrypted reply. */
  datatype Display = ServerMessage(message: string) | Decoded(bytes: seq<Byte>)

  /** `finalBytes`: the `decryptChunk` output followed by the finish output,
      a null finish array counting as empty; a null `decryptChunk` output
      throws at `decodedBytes.length`. */
  function Concat(decoded: Option<seq<Byte>>, finish: Option<seq<Byte>>): (r: Outcome<seq<Byte>>)
    ensures r.Thrown? <==> decoded.None?
    ensures r.Thrown? ==> r.exception == NullPointer
    ensures r.Normal? ==>
              && |r.value| == |decoded.value| + |Chunking.FinalChunk(finish)|
              && r.value[..|decoded.value|] == decoded.value
              && r.value[|decoded.value|..] == Chunking.FinalChunk(finish)
  {
    if decoded.None? then Thrown(NullPointer) else Normal(decoded.value + Chunking.FinalChunk(finish))
  }

  /** The decoder restored from `decoderState` and started, then the reply's
      data decrypted whole followed by the finish chunk: the decoded bytes and
      the decoder after `finishDecrypt`, or the exception. */
  function DecodedReply(ce: ChunkEngine, decoderState: Option<string>, data: Option<seq<Byte>>)
    : (r: Outcome<(seq<Byte>, Instance)>)
    ensures ce.restore(Decoder, decoderState).Failed? ==> r == Thrown(PlainException)
    ensures data.None? ==> r.Thrown?
    ensures r.Normal? ==>
              && ce.restore(Decoder, decoderState).Ok?
              && var started := ce.start(ce.restore(Decoder, decoderState).value);
                 && started.Ok?
                 && var (chunk, afterChunk) := ce.decryptChunk(started.value, data.value);
                    && chunk.Some? && ce.finishDecrypt(afterChunk).Ok?
                    && r.value.0 == chunk.value + Chunking.FinalChunk(ce.finishDecrypt(afterChunk).value.0)
                    && r.value.1 == ce.finishDecrypt(afterChunk).value.1
    // and those conditions are enough: a restored and started decoder whose
    // whole-data chunk and finish both succeed yields the decoded reply
    ensures (&& data.Some?
             && ce.restore(Decoder, decoderState).Ok?
             && var started := ce.start(ce.restore(Decoder, decoderState).value);
                && started.Ok?
                && var (chunk, afterChunk) := ce.decryptChunk(started.value, data.value);
                   chunk.Some? && ce.finishDecrypt(afterChunk).Ok?) ==> r.Normal?
  {
    var restored := ce.restore(Decoder, decoderState);
    if restored.Failed? then Thrown(PlainException)
    else
      var started := ce.start(restored.value);
      if started.Failed? then Thrown(PlainException)
      else if data.None? then Thrown(NullPointer)
      else
        var (decoded, afterChunk) := ce.decryptChunk(started.value, data.value);
        var finish := ce.finishDecrypt(afterChunk);
        if finish.Failed? then Thrown(PlainException)
        else
          var finalBytes := Concat(decoded, finish.value.0);
          if finalBytes.Thrown? then Thrown(finalBytes.exception)
          else Normal((finalBytes.value, finish.value.1))
  }

  /** The decode half: a rejected reply shows the server's message and
      changes nothing; an accepted one is decrypted by the restored decoder,
      and the decoder state is swapped. A null `Data` is taken to make
      `decryptChunk` throw. */
  function ReceiveReply(st: ClientState, w: UploadWorld, clientId: string, reply: ResponseModel<seq<Byte>>, draw: KeyDraw)
    : (res: (Outcome<Display>, ClientState))
    ensures !reply.success ==> res == (Normal(ServerMessage(reply.message)), st)
    ensures reply.success ==>
              var decoded := DecodedReply(w.chunkEngine, st.handshake.decoderState, reply.data);
              && (decoded.Thrown? ==> res == (Thrown(decoded.exception), st))
              // the decoder after `finishDecrypt` goes through the save-or-rotate rule
              && (decoded.Normal? ==>
                    var swapped := SwapStates(st, w, clientId, Decoder, decoded.value.1, draw);
                    && res.1 == swapped.1
                    && (res.0.Normal? <==> swapped.0.Normal?)
                    && (res.0.Normal? ==> res.0.value == Decoded(decoded.value.0)))
              // under the threshold only the decoder state changes
              && (decoded.Normal? && !PastReseedThreshold(decoded.value.1.reseedCounter, st.maxSeed) ==>
                    res == (Normal(Decoded(decoded.value.0)),
                            st.(handshake := st.handshake.(decoderState := Some(w.chunkEngine.save(decoded.value.1))))))
    ensures res.0.Normal? && res.0.value.Decoded? ==> reply.success
    ensures Ready(st.handshake) && res.0.Normal? ==> Ready(res.1.handshake)
  {
    if !reply.success then (Normal(ServerMessage(reply.message)), st)
    else
      var ce := w.chunkEngine;
      var restored := ce.restore(Decoder, st.handshake.decoderState);
      if restored.Failed? then (Thrown(PlainException), st)
      else
        var started := ce.start(restored.value);
        if started.Failed? then (Thrown(PlainException), st)
        else if reply.data.None? then (Thrown(NullPointer), st)
        else
          var (decoded, afterChunk) := ce.decryptChunk(started.value, reply.data.value);
          var finish := ce.finishDecrypt(afterChunk);
          if finish.Failed? then (Thrown(PlainException), st)
          else
            var finalBytes := Concat(decoded, finish.value.0);
            if finalBytes.Thrown? then (Thrown(finalBytes.exception), st)
            else
              var swapped := SwapStates(st, w, clientId, Decoder, finish.value.1, draw);
              if swapped.0.Thrown? then (Thrown(swapped.0.exception), swapped.1)
              else (Normal(Decoded(finalBytes.value)), swapped.1)
  }

  /** One pass of `main`'s upload loop for the file `fileName` whose reads are
      `chunks`; `encodeDraw` and `decodeDraw` are the key pairs a rotation on
      either side would generate. */
  function UploadOnce(st: ClientState, w: UploadWorld, clientId: string, fileName: string, chunks: seq<seq<Byte>>,
                      encodeDraw: KeyDraw, decodeDraw: KeyDraw): (res: (Outcome<Display>, ClientState))
    requires InPlace(w.chunkEngine)
    // nothing is shown unless the file was encrypted and posted
    ensures res.0.Normal? ==> SendFile(st, w, clientId, chunks, encodeDraw).0.Normal?
    ensures SendFile(st, w, clientId, chunks, encodeDraw).0.Thrown? ==> res.1 == SendFile(st, w, clientId, chunks, encodeDraw).1
    // a decrypted reply is shown only when the server accepted the posted body
    ensures res.0.Normal? && res.0.value.Decoded? ==>
              w.uploadServer(clientId, fileName, SendFile(st, w, clientId, chunks, encodeDraw).0.value).success
    // a posted body: the outcome is the decode half on the server's reply,
    // from the state the encode half left
    ensures var sent := SendFile(st, w, clientId, chunks, encodeDraw);
            sent.0.Normal? ==>
              res == ReceiveReply(sent.1, w, clientId, w.uploadServer(clientId, fileName, sent.0.value), decodeDraw)
  {
    var sent := SendFile(st, w, clientId, chunks, encodeDraw);
    if sent.0.Thrown? then (Thrown(sent.0.exception), sent.1)
    else ReceiveReply(sent.1, w, clientId, w.uploadServer(clientId, fileName, sent.0.value), decodeDraw)
  }

  /** Once both states are present, every upload that completes leaves both
      present, whichever way each side swapped them. */
  lemma UploadKeepsReady(st: ClientState, w: UploadWorld, clientId: string, fileName: string, chunks: seq<seq<Byte>>,
                         encodeDraw: KeyDraw, decodeDraw: KeyDraw)
    requires InPlace(w.chunkEngine)
    requires Ready(st.handshake)
    requires UploadOnce(st, w, clientId, fileName, chunks, encodeDraw, decodeDraw).0.Normal?
    ensures Ready(UploadOnce(st, w, clientId, fileName, chunks, encodeDraw, decodeDraw).1.handshake)
  {
    var sent := SendFile(st, w, clientId, chunks, encodeDraw);
    assert Ready(sent.1.handshake);
  }

  /** A rejected upload reply leaves the decoder state exactly as the encode
      half left it, and shows the server's message. */
  lemma RejectedReplyKeepsStates(st: ClientState, w: UploadWorld, clientId: string, fileName: string, chunks: seq<seq<Byte>>,
                                 encodeDraw: KeyDraw, decodeDraw: KeyDraw)
    requires InPlace(w.chunkEngine)
    requires SendFile(st, w, clientId, chunks, encodeDraw).0.Normal?
    requires !w.uploadServer(clientId, fileName, SendFile(st, w, clientId, chunks, encodeDraw).0.value).success
    ensures var sent := SendFile(st, w, clientId, chunks, encodeDraw);
            UploadOnce(st, w, clientId, fileName, chunks, encodeDraw, decodeDraw)
              == (Normal(ServerMessage(w.uploadServer(clientId, fileName, sent.0.value).message)), sent.1)
  {
  }

  /** `main`'s state. */
  class UploadClient {
    const clientId: string
    var maxSeed: int
    var handshake: HandshakeResponse

    function Snapshot(): ClientState
      reads this
    {
      ClientState(maxSeed, handshake)
    }

    /** The start of `main`: `maxSeed` is 0, the states are null, and the
        client id is `UUID.randomUUID().toString()`. */
    constructor (randomId: string)
      ensures clientId == randomId && maxSeed == 0 && handshake == HandshakeResponse(None, None)
    {
      clientId := randomId;
      maxSeed := 0;
      handshake := HandshakeResponse(None, None);
    }

    /** `HandshakeWithServer(clientId)`. */
    method HandshakeWithServer(w: UploadWorld, draw: KeyDraw) returns (response: ResponseModel<HandshakeResponse>)
      modifies this`maxSeed
      ensures (response, maxSeed) == HandshakeReply(old(maxSeed), w, clientId, draw)
    {
      response := NewResponseWith(Some(HandshakeResponse(None, None)));
      var request := NewHandshakeModel().(conversationIdentifier := clientId);
      var encoderEcdh := new EclypsesECDH();
      var decoderEcdh := new EclypsesECDH();
      var encoderPublicKey := encoderEcdh.GetDevicePublicKey(draw.encoderPair);
      var decoderPublicKey := decoderEcdh.GetDevicePublicKey(draw.decoderPair);
      request := request.(clientEncoderPublicKey := encoderPublicKey, clientDecoderPublicKey := decoderPublicKey);
      assert request == HandshakeRequest(clientId, draw);
      var serverResponse := w.handshakeServer(request);
      if !serverResponse.success {
        response := response.(message := serverResponse.message, success := serverResponse.success,
                              resultCode := serverResponse.resultCode);
        return;
      }
      if serverResponse.data.None? {
        return Failure(response, HandshakeExceptionMessage, RcHandshakeException);
      }
      var encoderSharedSecret := encoderEcdh.CreateSharedSecret(serverResponse.data.value.clientEncoderPublicKey, w.ec);
      if encoderSharedSecret.Thrown? {
        return Failure(response, HandshakeExceptionMessage, RcHandshakeException);
      }
      var decoderSharedSecret := decoderEcdh.CreateSharedSecret(serverResponse.data.value.clientDecoderPublicKey, w.ec);
      if decoderSharedSecret.Thrown? {
        return Failure(response, HandshakeExceptionMessage, RcHandshakeException);
      }
      var nonce := ParseLong(serverResponse.data.value.timestamp);
      if nonce.Thrown? {
        return Failure(response, HandshakeExceptionMessage, RcHandshakeException);
      }
      var encoder := w.engine.instantiate(Encoder, encoderSharedSecret.value, nonce.value, clientId);
      if encoder.Failed? {
        return Failure(response, CreateMessage("Encoder", encoder.status), RcMteEncodeException);
      }
      maxSeed := w.engine.reseedInterval;
      response := response.(data := Some(response.data.value.(encoderState := Some(w.engine.save(encoder.value)))));
      var decoder := w.engine.instantiate(Decoder, decoderSharedSecret.value, nonce.value, clientId);
      if decoder.Failed? {
        return Failure(response, CreateMessage("Decoder", decoder.status), RcMteDecodeException);
      }
      response := response.(data := Some(response.data.value.(decoderState := Some(w.engine.save(decoder.value)))));
    }

    /** The first handshake of `main`. */
    method Start(w: UploadWorld, draw: KeyDraw) returns (r: Outcome<()>)
      modifies this
      ensures (r, Snapshot()) == Begin(old(Snapshot()), w, clientId, draw)
    {
      var handshakeResponse := HandshakeWithServer(w, draw);
      if !handshakeResponse.success {
        return Thrown(PlainException);
      }
      handshake := handshakeResponse.data.value;
      r := Normal(());
    }

    /** The reseed check after an encode or a decode. */
    method SaveOrRotate(w: UploadWorld, role: Role, instance: Instance, draw: KeyDraw) returns (r: Outcome<()>)
      modifies this
      ensures (r, Snapshot()) == SwapStates(old(Snapshot()), w, clientId, role, instance, draw)
    {
      var currentSeed := instance.reseedCounter;
      if PastReseedThreshold(currentSeed, maxSeed) {
        if !w.chunkEngine.uninstantiate(instance) {
          return Thrown(PlainException);
        }
        var updateHandshakeResponse := HandshakeWithServer(w, draw);
        if !updateHandshakeResponse.success {
          return Thrown(PlainException);
        }
        handshake := handshake.(decoderState := updateHandshakeResponse.data.value.decoderState);
        handshake := handshake.(encoderState := updateHandshakeResponse.data.value.encoderState);
      } else if role == Encoder {
        handshake := handshake.(encoderState := Some(w.chunkEngine.save(instance)));
      } else {
        handshake := handshake.(decoderState := Some(w.chunkEngine.save(instance)));
      }
      r := Normal(());
    }

    /** The encode half of one upload; the result is the body posted. */
    method Send(w: UploadWorld, chunks: seq<seq<Byte>>, draw: KeyDraw) returns (r: Outcome<seq<Byte>>)
      requires InPlace(w.chunkEngine) && Chunking.ValidReads(chunks)
      modifies this
      ensures (r, Snapshot()) == SendFile(old(Snapshot()), w, clientId, chunks, draw)
    {
      var ce := w.chunkEngine;
      var restored := ce.restore(Encoder, handshake.encoderState);
      if restored.Failed? {
        return Thrown(PlainException);
      }
      var started := ce.start(restored.value);
      if started.Failed? {
        return Thrown(PlainException);
      }
      var body := Chunking.EncryptChunks(ce, started.value, chunks);
      if body.Failed? {
        return Thrown(PlainException);
      }
      var finish := ce.finishEncrypt(body.value.1);
      if finish.Failed? {
        return Thrown(PlainException);
      }
      if finish.value.0.None? {
        return Thrown(NullPointer);
      }
      var swapped := SaveOrRotate(w, Encoder, finish.value.1, draw);
      if swapped.Thrown? {
        return Thrown(swapped.exception);
      }
      r := Normal(body.value.0 + finish.value.0.value);
    }

    /** The decode half of one upload. */
    method Receive(w: UploadWorld, reply: ResponseModel<seq<Byte>>, draw: KeyDraw) returns (r: Outcome<Display>)
      modifies this
      ensures (r, Snapshot()) == ReceiveReply(old(Snapshot()), w, clientId, reply, draw)
    {
      if !reply.success {
        return Normal(ServerMessage(reply.message));
      }
      var ce := w.chunkEngine;
      var restored := ce.restore(Decoder, handshake.decoderState);
      if restored.Failed? {
        return Thrown(PlainException);
      }
      var started := ce.start(restored.value);
      if started.Failed? {
        return Thrown(PlainException);
      }
      if reply.data.None? {
        return Thrown(NullPointer);
      }
      var (decodedBytes, afterChunk) := ce.decryptChunk(started.value, reply.data.value);
      var finalEncodedChunk := ce.finishDecrypt(afterChunk);
      if finalEncodedChunk.Failed? {
        return Thrown(PlainException);
      }
      var finalBytes := ConcatFinal(decodedBytes, finalEncodedChunk.value.0);
      if finalBytes.Thrown? {
        return Thrown(finalBytes.exception);
      }
      var swapped := SaveOrRotate(w, Decoder, finalEncodedChunk.value.1, draw);
      if swapped.Thrown? {
        return Thrown(swapped.exception);
      }
      r := Normal(Decoded(finalBytes.value));
    }

    /** One pass of the upload loop. */
    method Upload(w: UploadWorld, fileName: string, chunks: seq<seq<Byte>>, encodeDraw: KeyDraw, decodeDraw: KeyDraw)
      returns (r: Outcome<Display>)
      requires InPlace(w.chunkEngine) && Chunking.ValidReads(chunks)
      modifies this
      ensures (r, Snapshot()) == UploadOnce(old(Snapshot()), w, clientId, fileName, chunks, encodeDraw, decodeDraw)
    {
      var body := Send(w, chunks, encodeDraw);
      if body.Thrown? {
        return Thrown(body.exception);
      }
      var serverResponse := w.uploadServer(clientId, fileName, body.value);
      r := Receive(w, serverResponse, decodeDraw);
    }
  }

  /** The `finalBytes` concatenation with `System.arraycopy`. */
  method ConcatFinal(decodedBytes: Option<seq<Byte>>, finishArr: Option<seq<Byte>>) returns (r: Outcome<seq<Byte>>)
    ensures r == Concat(decodedBytes, finishArr)
  {
    if decodedBytes.None? {
      return Thrown(NullPointer);
    }
    var arr: seq<Byte> := if finishArr.None? then [] else finishArr.value;
    var finalBytes := new Byte[|decodedBytes.value| + |arr|];
    ArrayCopy(decodedBytes.value, 0, finalBytes, 0, |decodedBytes.value|);
    ArrayCopy(arr, 0, finalBytes, |decodedBytes.value|, |arr|);
    assert finalBytes[..|decodedBytes.value|] == decodedBytes.value;
    assert finalBytes[|decodedBytes.value|..] == arr == Chunking.FinalChunk(finishArr);
    assert finalBytes[..] == finalBytes[..|decodedBytes.value|] + finalBytes[|decodedBytes.value|..];
    r := Normal(finalBytes[..]);
  }
}
