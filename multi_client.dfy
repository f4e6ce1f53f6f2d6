/** The multiple-clients console sample. Each client has a conversation id;
    the client's encoder and decoder states live, sealed, in a shared cache
    under "ENC_" + id and "DEC_" + id. A `ContactServer` task makes 1 to 4
    trips. Each trip restores the encoder, encodes a greeting, posts it, and
    then restores the decoder and decodes the reply. Along the way it
    re-handshakes when the server has lost the conversation, and rotates
    both engines when the decoder's reseed counter passes 90% of the interval.

    The engine, the ECDH providers, the HTTP calls with their JSON decoding,
    and the sealing of states with `EncryptionHelper` all enter through a
    `World`. The per-handshake randomness (a fresh UUID and two key pairs)
    enters as a `HandshakeDraw`. */
module MultiClient {
  import opened JavaLang
  import opened Models
  import opened MteEngine
  import opened Ecdh

  const EncoderPrefix := "ENC_"
  const DecoderPrefix := "DEC_"
  const MaxNumberOfTrips := 5

  /** The cache key of a conversation's encoder state. */
  function EncKey(id: string): string { EncoderPrefix + id }

  /** The cache key of a conversation's decoder state. */
  function DecKey(id: string): string { DecoderPrefix + id }

  /** The two prefixes keep the roles and the conversations apart: no encoder
      key is a decoder key, and each key names exactly one conversation. */
  lemma StateKeysDistinct(a: string, b: string)
    ensures EncKey(a) != DecKey(b)
    ensures EncKey(a) == EncKey(b) <==> a == b
    ensures DecKey(a) == DecKey(b) <==> a == b
  {
    assert EncKey(a)[0] == 'E' && DecKey(b)[0] == 'D';
    assert EncKey(a)[4..] == a && EncKey(b)[4..] == b;
    assert DecKey(a)[4..] == a && DecKey(b)[4..] == b;
  }

  /** The randomness one handshake consumes: `UUID.randomUUID()` and what the
      two EC key-pair generators produce (None when "EC" is unavailable). */
  datatype HandshakeDraw = HandshakeDraw(freshId: string, encoderPair: Option<KeyPair>, decoderPair: Option<KeyPair>)

  /** Everything outside the sample's own code. */
  datatype World = World(
    engine: Engine,
    ec: EcProvider,
    seal: (string, string) -> string,    // crypt.encrypt(state, SHA256(id, 64), encIV)
    unseal: (string, string) -> string,  // crypt.decrypt(sealed, SHA256(id, 64), encIV)
    handshakeServer: HandshakeModel -> ResponseModel<HandshakeModel>,  // POST /api/handshake, parsed
    messageServer: (string, string) -> ResponseModel<string>)          // POST /api/multiclient (id header, body), parsed

  /** The state the client tasks share: the `clients` map, the state cache
      and the static `maxSeedInterval`. */
  datatype Session = Session(clients: map<int, string>, cache: map<string, string>, maxSeedInterval: int)

  /** Key `k` is present in both maps with the same value, or absent from both. */
  predicate Untouched(before: map<string, string>, after: map<string, string>, k: string) {
    (k in before <==> k in after) && (k in before ==> before[k] == after[k])
  }

  /** Every client number keeps its conversation id; new numbers may appear. */
  predicate ClientsKept(before: map<int, string>, after: map<int, string>) {
    forall c :: c in before ==> c in after && after[c] == before[c]
  }

  /** A cache entry the sample accepts: present and not "". */
  function LiveEntry(cache: map<string, string>, key: string): (r: Option<string>)
    ensures r.Some? <==> key in cache && cache[key] != ""
    ensures r.Some? ==> r.value == cache[key]
  {
    if key in cache && cache[key] != "" then Some(cache[key]) else None
  }

  /** The conversation id a handshake uses: the current one when non-null and
      non-empty, else the fresh UUID. */
  function ChooseConversation(current: Option<string>, freshId: string): (id: string)
    ensures current.Some? && current.value != "" ==> id == current.value
    ensures current.None? || current.value == "" ==> id == freshId
  {
    if current.Some? && current.value != "" then current.value else freshId
  }

  /** The handshake request: a default `HandshakeModel` with the id and the
      two device public keys filled in. */
  function Request(current: Option<string>, draw: HandshakeDraw): (r: HandshakeModel)
    ensures r.conversationIdentifier == ChooseConversation(current, draw.freshId)
    ensures r.clientEncoderPublicKey == PublicKeyOf(draw.encoderPair)
    ensures r.clientDecoderPublicKey == PublicKeyOf(draw.decoderPair)
    ensures r.timestamp == NewHandshakeModel().timestamp
  {
    NewHandshakeModel().(conversationIdentifier := ChooseConversation(current, draw.freshId),
                         clientEncoderPublicKey := PublicKeyOf(draw.encoderPair),
                         clientDecoderPublicKey := PublicKeyOf(draw.decoderPair))
  }

  /** The two cache keys a handshake reply makes `CreateMteStates` write. */
  function ReplyKeys(reply: ResponseModel<HandshakeModel>): (keys: set<string>)
    ensures reply.data.None? ==> keys == {}
    ensures reply.data.Some? ==>
              var id := reply.data.value.conversationIdentifier;
              |keys| == 2 && forall k :: k in keys <==> k == EncKey(id) || k == DecKey(id)
  {
    if reply.data.Some? then
      var id := reply.data.value.conversationIdentifier;
      StateKeysDistinct(id, id);
      {EncKey(id), DecKey(id)}
    else {}
  }

  function CreateStatesMessage(role: string, status: string): string {
    "Error creating " + role + ": Status: " + status
  }

  /** `CreateMteStates(personal, encoderEntropy, decoderEntropy, nonce)`: the
      response and the shared state afterwards. */
  function CreateStates(s: Session, w: World, personal: string, encoderEntropy: Option<seq<Byte>>,
                        decoderEntropy: Option<seq<Byte>>, nonce: Long): (res: (ResponseModel<()>, Session))
    ensures var encoder := w.engine.instantiate(Encoder, encoderEntropy, nonce, personal);
            var decoder := w.engine.instantiate(Decoder, decoderEntropy, nonce, personal);
            && res.1.clients == s.clients
            && (res.0.success <==> encoder.Ok? && decoder.Ok?)
            && res.0.resultCode == (if encoder.Failed? then RcMteEncodeException
                                    else if decoder.Failed? then RcMteDecodeException
                                    else RcSuccess)
            && res.0.data == None
            && (encoder.Failed? ==> res.1 == s)
            && (encoder.Ok? ==>
                  && res.1.maxSeedInterval == (if s.maxSeedInterval <= 0 then w.engine.reseedInterval else s.maxSeedInterval)
                  && EncKey(personal) in res.1.cache
                  && res.1.cache[EncKey(personal)] == w.seal(w.engine.save(encoder.value), personal))
            && (encoder.Ok? && decoder.Failed? ==>
                  res.1.cache == s.cache[EncKey(personal) := w.seal(w.engine.save(encoder.value), personal)])
            && (res.0.success ==>
                  && res.0.message == StrSuccess
                  && res.1.cache == s.cache[EncKey(personal) := w.seal(w.engine.save(encoder.value), personal)]
                                           [DecKey(personal) := w.seal(w.engine.save(decoder.value), personal)])
  {
    var response := NewResponse<()>();
    var encoder := w.engine.instantiate(Encoder, encoderEntropy, nonce, personal);
    if encoder.Failed? then
      (response.(message := CreateStatesMessage("Encoder", encoder.status), resultCode := RcMteEncodeException, success := false), s)
    else
      var maxSeed := if s.maxSeedInterval <= 0 then w.engine.reseedInterval else s.maxSeedInterval;
      var s1 := s.(maxSeedInterval := maxSeed,
                   cache := s.cache[EncKey(personal) := w.seal(w.engine.save(encoder.value), personal)]);
      var decoder := w.engine.instantiate(Decoder, decoderEntropy, nonce, personal);
      StateKeysDistinct(personal, personal);
      if decoder.Failed? then
        (response.(message := CreateStatesMessage("Decoder", decoder.status), resultCode := RcMteDecodeException, success := false), s1)
      else
        (response.(success := true, resultCode := RcSuccess, message := StrSuccess),
         s1.(cache := s1.cache[DecKey(personal) := w.seal(w.engine.save(decoder.value), personal)]))
  }

  /** The session after `if (!clients.containsKey(clientId)) clients.put(clientId, id)`. */
  function Registered(s: Session, clientId: int, id: string): Session {
    s.(clients := if clientId in s.clients then s.clients else s.clients[clientId := id])
  }

  /** `HandshakeWithServer(clientId, clients, currentConversation)`: true when
      states were created, false when the server or `CreateMteStates`
      reported failure, or the exception it rethrows. */
  function Handshake(s: Session, w: World, clientId: int, current: Option<string>, draw: HandshakeDraw): (res: (Outcome<bool>, Session))
    // an accepted reply creates the states under the id the server echoes,
    // from the encoder pair with its encoder key, the decoder pair with its
    // decoder key, and the parsed timestamp as nonce
    ensures var reply := w.handshakeServer(Request(current, draw));
            var s1 := Registered(s, clientId, ChooseConversation(current, draw.freshId));
            reply.success && reply.data.Some? ==>
              var data := reply.data.value;
              var encoderSecret := SharedSecret(draw.encoderPair, data.clientEncoderPublicKey, w.ec);
              var decoderSecret := SharedSecret(draw.decoderPair, data.clientDecoderPublicKey, w.ec);
              var nonce := ParseLong(data.timestamp);
              && (res.0.Thrown? <==> encoderSecret.Thrown? || decoderSecret.Thrown? || nonce.Thrown?)
              && (encoderSecret.Normal? && decoderSecret.Normal? && nonce.Normal? ==>
                    var created := CreateStates(s1, w, data.conversationIdentifier, encoderSecret.value, decoderSecret.value, nonce.value);
                    res == (Normal(created.0.success), created.1))
    ensures w.handshakeServer(Request(current, draw)).success && w.handshakeServer(Request(current, draw)).data.None? ==>
              res.0 == Thrown(NullPointer)
    // an exception leaves the cache and the interval as they were
    ensures res.0.Thrown? ==> res.1.cache == s.cache && res.1.maxSeedInterval == s.maxSeedInterval
    ensures var id := ChooseConversation(current, draw.freshId);
            && res.1.clients == (if clientId in s.clients then s.clients else s.clients[clientId := id])
            && ClientsKept(s.clients, res.1.clients)
            && (s.maxSeedInterval > 0 ==> res.1.maxSeedInterval == s.maxSeedInterval)
            && (forall k :: k !in ReplyKeys(w.handshakeServer(Request(current, draw))) ==> Untouched(s.cache, res.1.cache, k))
            && (!w.handshakeServer(Request(current, draw)).success ==> res.0 == Normal(false) && res.1.cache == s.cache)
            && (res.0 == Normal(true) ==>
                  forall k :: k in ReplyKeys(w.handshakeServer(Request(current, draw))) ==> k in res.1.cache)
  {
    var s1 := Registered(s, clientId, ChooseConversation(current, draw.freshId));
    var reply := w.handshakeServer(Request(current, draw));
    if !reply.success then (Normal(false), s1)
    else if reply.data.None? then (Thrown(NullPointer), s1)
    else
      var data := reply.data.value;
      var encoderSecret := SharedSecret(draw.encoderPair, data.clientEncoderPublicKey, w.ec);
      if encoderSecret.Thrown? then (Thrown(encoderSecret.exception), s1)
      else
        var decoderSecret := SharedSecret(draw.decoderPair, data.clientDecoderPublicKey, w.ec);
        if decoderSecret.Thrown? then (Thrown(decoderSecret.exception), s1)
        else
          var nonce := ParseLong(data.timestamp);
          if nonce.Thrown? then (Thrown(nonce.exception), s1)
          else
            var created := CreateStates(s1, w, data.conversationIdentifier, encoderSecret.value, decoderSecret.value, nonce.value);
            (Normal(created.0.success), created.1)
  }

  /** How one trip of `ContactServer` ends. */
  datatype TripEnd = Continue | Abandon | Fail(exception: JavaException)

  function Greeting(clientNum: int, t: nat): string {
    "Hello from client " + IntToString(clientNum) + " for the " + NatToString(t + 1) + " time."
  }

  /** The first half of trip `t`: restore the encoder from the cache, encode
      the greeting and post it. Yields the encoder after encoding and the
      parsed reply, or the exception that ends the task. */
  function Sent(s: Session, w: World, clientNum: int, id: string, t: nat): (r: Outcome<(Instance, ResponseModel<string>)>)
    ensures LiveEntry(s.cache, EncKey(id)).None? ==> r == Thrown(PlainException)
    ensures r.Thrown? ==> r.exception == PlainException
    // it succeeds exactly when a live entry restores and the greeting encodes
    ensures r.Normal? <==>
              && LiveEntry(s.cache, EncKey(id)).Some?
              && var encoder := w.engine.restore(Encoder, Some(w.unseal(LiveEntry(s.cache, EncKey(id)).value, id)));
                 encoder.Ok? && w.engine.encode(encoder.value, Greeting(clientNum, t)).Ok?
    // the greeting goes out encoded by the encoder restored from the unsealed
    // "ENC_" entry, under the conversation's id
    ensures r.Normal? ==>
              && EncKey(id) in s.cache
              && var encoder := w.engine.restore(Encoder, Some(w.unseal(s.cache[EncKey(id)], id)));
                 && encoder.Ok?
                 && var encoded := w.engine.encode(encoder.value, Greeting(clientNum, t));
                    && encoded.Ok?
                    && r.value == (encoded.value.1, w.messageServer(id, encoded.value.0))
  {
    var sealedState := LiveEntry(s.cache, EncKey(id));
    if sealedState.None? then Thrown(PlainException)
    else
      var encoder := w.engine.restore(Encoder, Some(w.unseal(sealedState.value, id)));
      if encoder.Failed? then Thrown(PlainException)
      else
        var encoded := w.engine.encode(encoder.value, Greeting(clientNum, t));
        if encoded.Failed? then Thrown(PlainException)
        else Normal((encoded.value.1, w.messageServer(id, encoded.value.0)))
  }

  /** The reply says the server has no state for this conversation. */
  predicate StateNotFound(reply: ResponseModel<string>) {
    !reply.success && reply.resultCode == RcMteStateNotFound
  }

  /** The state after the encoder of trip `t` was saved back. */
  function EncoderSaved(s: Session, w: World, id: string, encoder: Instance): (s1: Session)
    ensures s1.clients == s.clients && s1.maxSeedInterval == s.maxSeedInterval
    ensures EncKey(id) in s1.cache && s1.cache[EncKey(id)] == w.seal(w.engine.save(encoder), id)
    ensures forall k :: k != EncKey(id) ==> Untouched(s.cache, s1.cache, k)
  {
    s.(cache := s.cache[EncKey(id) := w.seal(w.engine.save(encoder), id)])
  }

  /** The second half of a trip: restore the decoder and decode the reply.
      Yields the decoder after decoding, or the exception that ends the task. */
  function Received(s: Session, w: World, id: string, reply: ResponseModel<string>): (r: Outcome<Instance>)
    ensures LiveEntry(s.cache, DecKey(id)).None? ==> r == Thrown(PlainException)
    ensures r.Thrown? ==> r.exception == PlainException
    // it succeeds exactly when a live entry restores and the reply decodes
    ensures r.Normal? <==>
              && LiveEntry(s.cache, DecKey(id)).Some?
              && var decoder := w.engine.restore(Decoder, Some(w.unseal(LiveEntry(s.cache, DecKey(id)).value, id)));
                 decoder.Ok? && w.engine.decode(decoder.value, reply.data).Ok?
    // the reply's data is decoded by the decoder restored from the unsealed
    // "DEC_" entry
    ensures r.Normal? ==>
              && DecKey(id) in s.cache
              && var decoder := w.engine.restore(Decoder, Some(w.unseal(s.cache[DecKey(id)], id)));
                 && decoder.Ok?
                 && w.engine.decode(decoder.value, reply.data).Ok?
                 && r.value == w.engine.decode(decoder.value, reply.data).value.1
  {
    var sealedState := LiveEntry(s.cache, DecKey(id));
    if sealedState.None? then Thrown(PlainException)
    else
      var decoder := w.engine.restore(Decoder, Some(w.unseal(sealedState.value, id)));
      if decoder.Failed? then Thrown(PlainException)
      else
        var decoded := w.engine.decode(decoder.value, reply.data);
        if decoded.Failed? then Thrown(PlainException) else Normal(decoded.value.1)
  }

  /** A handshake's outcome as the end of a trip that carries on after it. */
  function AfterHandshake(ok: Outcome<bool>, onSuccess: TripEnd): (end: TripEnd)
    ensures !onSuccess.Fail? ==> (end == onSuccess <==> ok == Normal(true))
    ensures ok.Thrown? ==> end == Fail(ok.exception)
    ensures ok == Normal(false) ==> end == Fail(PlainException)
  {
    if ok.Thrown? then Fail(ok.exception) else if ok.value then onSuccess else Fail(PlainException)
  }

  /** Trip `t` of `ContactServer` for conversation `id`. */
  function Trip(s: Session, w: World, clientNum: int, id: string, t: nat, draw: HandshakeDraw): (res: (TripEnd, Session))
    // a task is abandoned only after a "117" reply and a successful re-handshake
    ensures res.0 == Abandon ==>
              && Sent(s, w, clientNum, id, t).Normal? && StateNotFound(Sent(s, w, clientNum, id, t).value.1)
              && Handshake(s, w, clientNum, Some(id), draw).0 == Normal(true)
    // a trip carries on only once the reply was decoded by the restored decoder
    ensures res.0 == Continue ==>
              && Sent(s, w, clientNum, id, t).Normal? && !StateNotFound(Sent(s, w, clientNum, id, t).value.1)
              && var (encoder, reply) := Sent(s, w, clientNum, id, t).value;
                 Received(EncoderSaved(s, w, id, encoder), w, id, reply).Normal?
    // a trip that fails before its encoder is saved changes nothing
    ensures Sent(s, w, clientNum, id, t).Thrown? ==> res == (Fail(PlainException), s)
  {
    var sent := Sent(s, w, clientNum, id, t);
    if sent.Thrown? then (Fail(sent.exception), s)
    else
      var (encoder, reply) := sent.value;
      if StateNotFound(reply) then
        var rehandshake := Handshake(s, w, clientNum, Some(id), draw);
        (AfterHandshake(rehandshake.0, Abandon), rehandshake.1)
      else
        var s1 := EncoderSaved(s, w, id, encoder);
        var received := Received(s1, w, id, reply);
        if received.Thrown? then (Fail(received.exception), s1)
        else
          var decoder := received.value;
          if PastReseedThreshold(decoder.reseedCounter, s1.maxSeedInterval) then
            if !w.engine.uninstantiate(decoder) || !w.engine.uninstantiate(encoder) then (Fail(PlainException), s1)
            else
              var reseed := Handshake(s1, w, clientNum, None, draw);
              (AfterHandshake(reseed.0, Continue), reseed.1)
          else
            (Continue, s1.(cache := s1.cache[DecKey(id) := w.seal(w.engine.save(decoder), id)]))
  }

  /** A "117" reply makes the trip re-handshake under the same id and end the
      task: the encoder state of the trip is not saved, and the cache is
      exactly what the re-handshake left. */
  lemma StateNotFoundAbandons(s: Session, w: World, clientNum: int, id: string, t: nat, draw: HandshakeDraw)
    requires Sent(s, w, clientNum, id, t).Normal? && StateNotFound(Sent(s, w, clientNum, id, t).value.1)
    ensures var res := Trip(s, w, clientNum, id, t, draw);
            var rehandshake := Handshake(s, w, clientNum, Some(id), draw);
            && res.1 == rehandshake.1
            && res.0 != Continue
            && (res.0 == Abandon <==> rehandshake.0 == Normal(true))
            && (forall k :: k !in ReplyKeys(w.handshakeServer(Request(Some(id), draw))) ==> Untouched(s.cache, res.1.cache, k))
  {
  }

  /** A missing or empty "ENC_" entry ends the task before any engine is
      restored, and nothing changes. */
  lemma MissingEncoderStateFails(s: Session, w: World, clientNum: int, id: string, t: nat, draw: HandshakeDraw)
    requires LiveEntry(s.cache, EncKey(id)).None?
    ensures Trip(s, w, clientNum, id, t, draw) == (Fail(PlainException), s)
  {
  }

  /** A missing or empty "DEC_" entry ends the task after the encoder state
      was saved back and before any decoder is restored. */
  lemma MissingDecoderStateFails(s: Session, w: World, clientNum: int, id: string, t: nat, draw: HandshakeDraw)
    requires Sent(s, w, clientNum, id, t).Normal?
    requires !StateNotFound(Sent(s, w, clientNum, id, t).value.1)
    requires LiveEntry(s.cache, DecKey(id)).None?
    ensures Trip(s, w, clientNum, id, t, draw) == (Fail(PlainException), EncoderSaved(s, w, id, Sent(s, w, clientNum, id, t).value.0))
  {
    StateKeysDistinct(id, id);
  }

  /** Past the threshold the decoder and then the encoder are uninstantiated,
      either failure ending the task with only the encoder state saved; when
      both succeed a handshake runs with a null id and decides how the trip
      ends. */
  lemma ReseedRotates(s: Session, w: World, clientNum: int, id: string, t: nat, draw: HandshakeDraw)
    requires Sent(s, w, clientNum, id, t).Normal?
    requires !StateNotFound(Sent(s, w, clientNum, id, t).value.1)
    requires var (encoder, reply) := Sent(s, w, clientNum, id, t).value;
             var received := Received(EncoderSaved(s, w, id, encoder), w, id, reply);
             received.Normal? && PastReseedThreshold(received.value.reseedCounter, s.maxSeedInterval)
    ensures var (encoder, reply) := Sent(s, w, clientNum, id, t).value;
            var decoder := Received(EncoderSaved(s, w, id, encoder), w, id, reply).value;
            var s1 := EncoderSaved(s, w, id, encoder);
            var h := Handshake(s1, w, clientNum, None, draw);
            && (w.engine.uninstantiate(decoder) && w.engine.uninstantiate(encoder) ==>
                  Trip(s, w, clientNum, id, t, draw) == (AfterHandshake(h.0, Continue), h.1))
            && (!w.engine.uninstantiate(decoder) || !w.engine.uninstantiate(encoder) ==>
                  Trip(s, w, clientNum, id, t, draw) == (Fail(PlainException), s1))
  {
  }

  /** Past the threshold the conversation's decoder state is not saved:
      unless the reply to the null-id handshake names this conversation, its
      "DEC_" entry keeps its value from before the trip. */
  lemma ReseedLeavesDecoderState(s: Session, w: World, clientNum: int, id: string, t: nat, draw: HandshakeDraw)
    requires Sent(s, w, clientNum, id, t).Normal?
    requires !StateNotFound(Sent(s, w, clientNum, id, t).value.1)
    requires var (encoder, reply) := Sent(s, w, clientNum, id, t).value;
             var received := Received(EncoderSaved(s, w, id, encoder), w, id, reply);
             received.Normal? && PastReseedThreshold(received.value.reseedCounter, s.maxSeedInterval)
    requires DecKey(id) !in ReplyKeys(w.handshakeServer(Request(None, draw)))
    ensures Untouched(s.cache, Trip(s, w, clientNum, id, t, draw).1.cache, DecKey(id))
  {
    StateKeysDistinct(id, id);
  }

  /** Under the threshold a successful trip saves both states of the
      conversation and changes nothing else. */
  lemma OrdinaryTripSavesBoth(s: Session, w: World, clientNum: int, id: string, t: nat, draw: HandshakeDraw)
    requires Sent(s, w, clientNum, id, t).Normal?
    requires !StateNotFound(Sent(s, w, clientNum, id, t).value.1)
    requires var (encoder, reply) := Sent(s, w, clientNum, id, t).value;
             var received := Received(EncoderSaved(s, w, id, encoder), w, id, reply);
             received.Normal? && !PastReseedThreshold(received.value.reseedCounter, s.maxSeedInterval)
    ensures var (encoder, reply) := Sent(s, w, clientNum, id, t).value;
            var decoder := Received(EncoderSaved(s, w, id, encoder), w, id, reply).value;
            Trip(s, w, clientNum, id, t, draw)
              == (Continue, s.(cache := s.cache[EncKey(id) := w.seal(w.engine.save(encoder), id)]
                                               [DecKey(id) := w.seal(w.engine.save(decoder), id)]))
  {
  }

  /** A trip keeps every client's conversation id and a set reseed interval. */
  lemma TripKeepsClients(s: Session, w: World, clientNum: int, id: string, t: nat, draw: HandshakeDraw)
    ensures ClientsKept(s.clients, Trip(s, w, clientNum, id, t, draw).1.clients)
    ensures s.maxSeedInterval > 0 ==> Trip(s, w, clientNum, id, t, draw).1.maxSeedInterval == s.maxSeedInterval
  {
  }

  /** How a `ContactServer` task ended: all its trips done, abandoned after a
      re-handshake in a trip, or stopped by an exception in a trip. */
  datatype ContactOutcome = Completed(trips: nat) | Abandoned(trip: nat) | Stopped(trip: nat, exception: JavaException)

  /** The outcome after trip `t` ended with `end`. */
  function Advance(t: nat, end: TripEnd): ContactOutcome {
    match end
    case Continue => Completed(t + 1)
    case Abandon => Abandoned(t)
    case Fail(e) => Stopped(t, e)
  }

  /** The first `n` trips of a task, stopping at the first trip that ends it. */
  function RunTrips(s: Session, w: World, clientNum: int, id: string, n: nat, draws: nat -> HandshakeDraw): (res: (ContactOutcome, Session))
    ensures res.0.Completed? ==> res.0.trips == n
    ensures res.0.Abandoned? ==> res.0.trip < n
    ensures res.0.Stopped? ==> res.0.trip < n
  {
    if n == 0 then (Completed(0), s)
    else
      var before := RunTrips(s, w, clientNum, id, n - 1, draws);
      if !before.0.Completed? then before
      else
        var trip := Trip(before.1, w, clientNum, id, n - 1, draws(n - 1));
        (Advance(n - 1, trip.0), trip.1)
  }

  /** A task still running after `t` trips makes trip `t` next. */
  lemma RunTripsNext(s: Session, w: World, clientNum: int, id: string, t: nat, draws: nat -> HandshakeDraw)
    requires RunTrips(s, w, clientNum, id, t, draws).0.Completed?
    ensures var trip := Trip(RunTrips(s, w, clientNum, id, t, draws).1, w, clientNum, id, t, draws(t));
            RunTrips(s, w, clientNum, id, t + 1, draws) == (Advance(t, trip.0), trip.1)
  {
  }

  /** Once a task has ended, further trips change nothing. */
  lemma {:induction false} RunTripsStable(s: Session, w: World, clientNum: int, id: string, n: nat, m: nat, draws: nat -> HandshakeDraw)
    requires n <= m
    requires !RunTrips(s, w, clientNum, id, n, draws).0.Completed?
    ensures RunTrips(s, w, clientNum, id, m, draws) == RunTrips(s, w, clientNum, id, n, draws)
  {
    if n < m {
      RunTripsStable(s, w, clientNum, id, n, m - 1, draws);
    }
  }

  /** A task never re-points or removes a client, and never changes a reseed
      interval that is already set. */
  lemma {:induction false} RunTripsKeepsClients(s: Session, w: World, clientNum: int, id: string, n: nat, draws: nat -> HandshakeDraw)
    ensures ClientsKept(s.clients, RunTrips(s, w, clientNum, id, n, draws).1.clients)
    ensures s.maxSeedInterval > 0 ==> RunTrips(s, w, clientNum, id, n, draws).1.maxSeedInterval == s.maxSeedInterval
  {
    if n > 0 {
      RunTripsKeepsClients(s, w, clientNum, id, n - 1, draws);
      var before := RunTrips(s, w, clientNum, id, n - 1, draws);
      if before.0.Completed? {
        TripKeepsClients(before.1, w, clientNum, id, n - 1, draws(n - 1));
      }
    }
  }

  /** The program's shared state: the `clients` map of `main`, the static
      state cache and the static `maxSeedInterval`. */
  class MultiClientApp {
    var clients: map<int, string>
    var cache: map<string, string>
    var maxSeedInterval: int

    function Snapshot(): Session
      reads this
    {
      Session(clients, cache, maxSeedInterval)
    }

    constructor ()
      ensures Snapshot() == Session(map[], map[], 0)
    {
      clients := map[];
      cache := map[];
      maxSeedInterval := 0;
    }

    /** `CreateMteStates(personal, encoderEntropy, decoderEntropy, nonce)`. */
    method CreateMteStates(w: World, personal: string, encoderEntropy: Option<seq<Byte>>,
                           decoderEntropy: Option<seq<Byte>>, nonce: Long) returns (response: ResponseModel<()>)
      modifies this
      ensures (response, Snapshot()) == CreateStates(old(Snapshot()), w, personal, encoderEntropy, decoderEntropy, nonce)
    {
      response := NewResponse<()>();
      var encoder := w.engine.instantiate(Encoder, encoderEntropy, nonce, personal);
      if encoder.Failed? {
        response := response.(message := CreateStatesMessage("Encoder", encoder.status));
        response := response.(resultCode := RcMteEncodeException, success := false);
        return;
      }
      if maxSeedInterval <= 0 {
        maxSeedInterval := w.engine.reseedInterval;
      }
      cache := cache[EncKey(personal) := w.seal(w.engine.save(encoder.value), personal)];
      var decoder := w.engine.instantiate(Decoder, decoderEntropy, nonce, personal);
      if decoder.Failed? {
        response := response.(message := CreateStatesMessage("Decoder", decoder.status));
        response := response.(resultCode := RcMteDecodeException, success := false);
        return;
      }
      cache := cache[DecKey(personal) := w.seal(w.engine.save(decoder.value), personal)];
      response := response.(success := true, resultCode := RcSuccess, message := StrSuccess);
    }

    /** `HandshakeWithServer(clientId, clients, currentConversation)`. */
    method HandshakeWithServer(w: World, clientId: int, currentConversation: Option<string>, draw: HandshakeDraw)
      returns (r: Outcome<bool>)
      modifies this
      ensures (r, Snapshot()) == Handshake(old(Snapshot()), w, clientId, currentConversation, draw)
    {
      var request := NewHandshakeModel().(conversationIdentifier := draw.freshId);
      if currentConversation.Some? && currentConversation.value != "" {
        request := request.(conversationIdentifier := currentConversation.value);
      }
      if clientId !in clients {
        clients := clients[clientId := request.conversationIdentifier];
      }
      var encoderEcdh := new EclypsesECDH();
      var decoderEcdh := new EclypsesECDH();
      var encoderPublicKey := encoderEcdh.GetDevicePublicKey(draw.encoderPair);
      var decoderPublicKey := decoderEcdh.GetDevicePublicKey(draw.decoderPair);
      request := request.(clientEncoderPublicKey := encoderPublicKey, clientDecoderPublicKey := decoderPublicKey);
      assert request == Request(currentConversation, draw);
      var response := w.handshakeServer(request);
      if !response.success {
        return Normal(false);
      }
      if response.data.None? {
        return Thrown(NullPointer);
      }
      var encoderSharedSecret := encoderEcdh.CreateSharedSecret(response.data.value.clientEncoderPublicKey, w.ec);
      if encoderSharedSecret.Thrown? {
        return Thrown(encoderSharedSecret.exception);
      }
      var decoderSharedSecret := decoderEcdh.CreateSharedSecret(response.data.value.clientDecoderPublicKey, w.ec);
      if decoderSharedSecret.Thrown? {
        return Thrown(decoderSharedSecret.exception);
      }
      var nonce := ParseLong(response.data.value.timestamp);
      if nonce.Thrown? {
        return Thrown(nonce.exception);
      }
      var mteResponse := CreateMteStates(w, response.data.value.conversationIdentifier,
                                         encoderSharedSecret.value, decoderSharedSecret.value, nonce.value);
      r := Normal(mteResponse.success);
    }

    /** `ContactServer(rnd, currentConversation, clientNum, clients)`.
        `nextInt` is `rnd.nextInt(maxNumberOfTrips - 1)`, and `draws(t)` the
        randomness of a handshake in trip `t`. Every exception is caught and
        reported; the outcome says which trip ended the task and how. */
    method ContactServer(w: World, nextInt: int, currentConversation: string, clientNum: int, draws: nat -> HandshakeDraw)
      returns (numberTrips: int, outcome: ContactOutcome)
      requires 0 <= nextInt < MaxNumberOfTrips - 1
      modifies this
      ensures 1 <= numberTrips <= MaxNumberOfTrips - 1
      ensures (outcome, Snapshot()) == RunTrips(old(Snapshot()), w, clientNum, currentConversation, numberTrips, draws)
    {
      ghost var start := Snapshot();
      numberTrips := nextInt + 1;
      outcome := Completed(0);
      var t := 0;
      while t < numberTrips && outcome.Completed?
        invariant 0 <= t <= numberTrips
        invariant (outcome, Snapshot()) == RunTrips(start, w, clientNum, currentConversation, t, draws)
      {
        outcome := NextTrip(w, currentConversation, clientNum, t, draws, start);
        t := t + 1;
      }
      if !outcome.Completed? {
        RunTripsStable(start, w, clientNum, currentConversation, t, numberTrips, draws);
      }
    }

    /** Trip `t` of a task still running after `t` trips. */
    method NextTrip(w: World, currentConversation: string, clientNum: int, t: nat, draws: nat -> HandshakeDraw, ghost start: Session)
      returns (outcome: ContactOutcome)
      requires RunTrips(start, w, clientNum, currentConversation, t, draws).0.Completed?
      requires Snapshot() == RunTrips(start, w, clientNum, currentConversation, t, draws).1
      modifies this
      ensures (outcome, Snapshot()) == RunTrips(start, w, clientNum, currentConversation, t + 1, draws)
    {
      var end := ContactOnce(w, currentConversation, clientNum, t, draws(t));
      RunTripsNext(start, w, clientNum, currentConversation, t, draws);
      outcome := Advance(t, end);
    }

    /** The body of the `for t < numberTrips` loop of `ContactServer`. */
    method ContactOnce(w: World, currentConversation: string, clientNum: int, t: nat, draw: HandshakeDraw)
      returns (end: TripEnd)
      modifies this
      ensures (end, Snapshot()) == Trip(old(Snapshot()), w, clientNum, currentConversation, t, draw)
    {
      var encryptedEncState := LiveEntry(cache, EncKey(currentConversation));
      if encryptedEncState.None? {
        return Fail(PlainException);
      }
      var encoder := w.engine.restore(Encoder, Some(w.unseal(encryptedEncState.value, currentConversation)));
      if encoder.Failed? {
        return Fail(PlainException);
      }
      var encodedPayload := w.engine.encode(encoder.value, Greeting(clientNum, t));
      if encodedPayload.Failed? {
        return Fail(PlainException);
      }
      var encoderAfter := encodedPayload.value.1;
      var serverResponse := w.messageServer(currentConversation, encodedPayload.value.0);
      if !serverResponse.success && serverResponse.resultCode == RcMteStateNotFound {
        var handshakeIsSuccessful := HandshakeWithServer(w, clientNum, Some(currentConversation), draw);
        return AfterHandshake(handshakeIsSuccessful, Abandon);
      }
      cache := cache[EncKey(currentConversation) := w.seal(w.engine.save(encoderAfter), currentConversation)];
      var encryptedDecState := LiveEntry(cache, DecKey(currentConversation));
      if encryptedDecState.None? {
        return Fail(PlainException);
      }
      var decoder := w.engine.restore(Decoder, Some(w.unseal(encryptedDecState.value, currentConversation)));
      if decoder.Failed? {
        return Fail(PlainException);
      }
      var decodedMessage := w.engine.decode(decoder.value, serverResponse.data);
      if decodedMessage.Failed? {
        return Fail(PlainException);
      }
      var decoderAfter := decodedMessage.value.1;
      if PastReseedThreshold(decoderAfter.reseedCounter, maxSeedInterval) {
        if !w.engine.uninstantiate(decoderAfter) {
          return Fail(PlainException);
        }
        if !w.engine.uninstantiate(encoderAfter) {
          return Fail(PlainException);
        }
        var handshakeSuccessful := HandshakeWithServer(w, clientNum, None, draw);
        return AfterHandshake(handshakeSuccessful, Continue);
      }
      cache := cache[DecKey(currentConversation) := w.seal(w.engine.save(decoderAfter), currentConversation)];
      end := Continue;
    }
  }
}
