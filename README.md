# Eclypses MTE Java samples: a Dafny model of the client logic

This project models the sequential logic of the Eclypses MTE Java sample clients. The samples talk to a licensed
encode/decode engine (MTE) and to a demo server. The engine, the cryptography (ECDH on P-256, SHA-256, MD5,
AES-CBC), the HTTP calls and all randomness are foreign to the samples. They enter the model as function-valued
parameters: `Engine`, `ChunkEngine`, `EcProvider`, `World`, `UploadWorld`, `HandshakeDraw`, `KeyDraw`. What is
modelled is what the samples do around those calls:

- `JavaLang` (java_lang.dfy): Java vocabulary shared by every module.
  - Unsigned bytes and 64-bit longs.
  - `Outcome`: a call either returns a value or an exception escapes it.
  - `Long.parseLong`, decimal rendering, and `System.arraycopy` on arrays.
- `EncryptionHelper` (encryption_helper.dfy):
  - lowercase `%02x` hex rendering, truncated to a requested length, as SHA256, md5 and generateRandomIV use it;
  - `hexStringToByteArray` as an index loop over an array;
  - the 16-byte big-endian UUID layout of section 4.1.2 of RFC 4122;
  - the reused 32-byte key and 16-byte IV buffers of `encryptDecrypt`;
  - the way `encrypt` and `decrypt` swallow cipher exceptions.
- `Ecdh` (ecdh.dfy): `EclypsesECDH` as a class with a single held key pair. The pair is made lazily, reused while held,
  and dropped by every return of `createSharedSecret`. The derived secret is SHA-256 of the raw agreement, 32 bytes.
- `Models` (models.dfy): the `ResponseModel` envelope's constructors and its field-copying re-wrap, plus the handshake
  data carriers.
- `MteEngine` (mte_engine.dfy): the engine as a record of functions over opaque instances. It also holds the 90%
  reseed threshold, in exact arithmetic.
- `MultiClient` (multi_client.dfy): the multiple-clients console sample. `MultiClientApp` holds the `clients` map, the
  state cache and the static `maxSeedInterval`. Its methods `CreateMteStates`, `HandshakeWithServer` and
  `ContactServer` are each proved equal to a pure function of the previous state. Lemmas about those functions cover:
  - the cache keys;
  - the "117" re-handshake that abandons the task;
  - the reseed rotation;
  - the `clients` map.
- `FileUploader` (file_uploader.dfy): the upload console client. `UploadClient` holds the static `maxSeed` and `main`'s
  `HandshakeResponse`. Its methods are proved equal to functions whose contracts cover:
  - the handshake result codes;
  - the encoder/decoder state swap;
  - the in-place upload body;
  - the concatenation of the decoded reply.
- `Chunking` (chunking.dfy): the chunking sample.
  - The prompt loop, and the output-path extension taken from the last `.`.
  - The all-`'0'` entropy string.
  - The in-place 1 KB encode loop, and the decode loop with its buffer sizing. Both are proved against
    chunk-by-chunk specification functions.

## Model

| member | source | states |
|---|---|---|
| JavaLang.ParseLong | mte-file-upload/MteConsoleUploadFile/src/uploadClient/FileUploader.java:484 | `Long.parseLong` on ASCII input: only NumberFormatException arises; an empty string, a lone sign or a non-digit after the sign throws; well-formed input throws exactly when its value is outside the range of `long`, and otherwise returns the sign applied to the decimal value of the digits |
| JavaLang.ParseLongOfNatToString | mte-multiple-clients/MteMultipleClient/src/multiClient/MteConsoleMultipleClients.java:469 | parsing a printed non-negative long gives it back |
| JavaLang.DecimalValueLeadingZero | mte-file-upload/MteConsoleUploadFile/src/uploadClient/FileUploader.java:484 | leading zeros do not change a decimal value |
| JavaLang.ParseLongBySignAndValue | mte-file-upload/MteConsoleUploadFile/src/uploadClient/FileUploader.java:484 | two well-formed strings with the same sign and digit value parse alike |
| JavaLang.ParseLongZeroPadded | mte-file-upload/MteConsoleUploadFile/src/uploadClient/FileUploader.java:484 | a leading zero after the optional sign does not change what is parsed |
| JavaLang.ParseLongOfNegative | mte-multiple-clients/MteMultipleClient/src/multiClient/MteConsoleMultipleClients.java:469 | a minus sign before a printed magnitude up to 2^63 parses to the negative number, -2^63 included |
| JavaLang.DecimalValueOfNatToString | mte-multiple-clients/MteMultipleClient/src/multiClient/MteConsoleMultipleClients.java:469 | the decimal value of a printed number is the number |
| JavaLang.Unsigned64 | mte-multiple-clients/MteMultipleClient/src/multiClient/EncryptionHelper.java:126-127 | a long's bit pattern is below 2^64 and congruent to it modulo 2^64 |
| JavaLang.Signed64 | mte-multiple-clients/MteMultipleClient/src/multiClient/EncryptionHelper.java:139-140 | the long read from a 64-bit pattern has that pattern |
| JavaLang.NatToString | mte-multiple-clients/MteMultipleClient/src/multiClient/MteConsoleMultipleClients.java:248 | the rendering of a non-negative number is a non-empty run of decimal digits |
| JavaLang.IntToString | mte-multiple-clients/MteMultipleClient/src/multiClient/MteConsoleMultipleClients.java:248 | non-negative numbers render as digits, negative ones start with '-' |
| JavaLang.ArrayCopy | mte-multiple-clients/MteMultipleClient/src/multiClient/EncryptionHelper.java:183-184 | `System.arraycopy`: the destination range equals the source range, and every other destination byte is unchanged |
| EncryptionHelper.HexOf | mte-multiple-clients/MteMultipleClient/src/multiClient/EncryptionHelper.java:254-256 | rendering n bytes gives 2n characters |
| EncryptionHelper.HexOfAt | mte-multiple-clients/MteMultipleClient/src/multiClient/EncryptionHelper.java:255 | characters 2i and 2i+1 are the high and low nibble of byte i |
| EncryptionHelper.HexOfIsLowercase | mte-multiple-clients/MteMultipleClient/src/multiClient/EncryptionHelper.java:255 | every rendered character is a lowercase hex digit |
| EncryptionHelper.Hex2 | mte-multiple-clients/MteMultipleClient/src/multiClient/EncryptionHelper.java:255 | `%02x` of a byte: two lowercase hex digits worth 16 times the first plus the second, which is the byte |
| EncryptionHelper.Digit | mte-multiple-clients/MteMultipleClient/src/multiClient/EncryptionHelper.java:292-293 | `Character.digit(c, 16)` is in [0, 16) exactly for hex digits of either case, else -1 |
| EncryptionHelper.PackNibbles | mte-multiple-clients/MteMultipleClient/src/multiClient/EncryptionHelper.java:292-293 | `(byte) ((hi << 4) + lo)`: two digits in [0, 16) give `16 * hi + lo`; a -1 high digit wraps around to `240 + lo` |
| EncryptionHelper.HexDecode | mte-multiple-clients/MteMultipleClient/src/multiClient/EncryptionHelper.java:288-296 | half as many bytes as characters; whenever characters 2i and 2i+1 are hex digits, they are the high and low nibble of byte i |
| EncryptionHelper.HexStringToByteArray | mte-multiple-clients/MteMultipleClient/src/multiClient/EncryptionHelper.java:288-296 | odd length throws StringIndexOutOfBounds (and only odd length does); else `len/2` bytes, byte i packed from characters 2i and 2i+1 |
| EncryptionHelper.PackNibbleChars | mte-multiple-clients/MteMultipleClient/src/multiClient/EncryptionHelper.java:292-293 | a byte's two rendered nibbles pack back into the byte |
| EncryptionHelper.HexRoundTrip | mte-multiple-clients/MteMultipleClient/src/multiClient/EncryptionHelper.java:254-256 | decoding the `%02x` rendering of any bytes gives the bytes back |
| EncryptionHelper.NibbleCharOfDigit | mte-multiple-clients/MteMultipleClient/src/multiClient/EncryptionHelper.java:292-293 | a lowercase hex digit renders back from its value |
| EncryptionHelper.UnpackNibbles | mte-multiple-clients/MteMultipleClient/src/multiClient/EncryptionHelper.java:292-293 | the packed byte splits back into its two digits |
| EncryptionHelper.HexRoundTripFromString | mte-multiple-clients/MteMultipleClient/src/multiClient/EncryptionHelper.java:288-296 | rendering the decoding of an even-length lowercase hex string gives the string back |
| EncryptionHelper.AppendHex | mte-multiple-clients/MteMultipleClient/src/multiClient/EncryptionHelper.java:253-256 | the StringBuffer loop builds exactly the `%02x` rendering |
| EncryptionHelper.Truncate | mte-multiple-clients/MteMultipleClient/src/multiClient/EncryptionHelper.java:261-268 | the result is the first `min(length, s.length())` characters; a negative length throws |
| EncryptionHelper.Sha256 | mte-multiple-clients/MteMultipleClient/src/multiClient/EncryptionHelper.java:243-281 | no digest gives ""; otherwise the first `min(length, 64)` hex characters of the digest, all 64 when `length >= 64`; a negative length throws |
| EncryptionHelper.ToHexString | mte-multiple-clients/MteMultipleClient/src/multiClient/EncryptionHelper.java:106 | `Integer.toHexString` of a non-negative value is non-empty |
| EncryptionHelper.AlternateRenderingAgrees | mte-multiple-clients/MteMultipleClient/src/multiClient/EncryptionHelper.java:259 | the discarded second rendering gives the same two characters per byte |
| EncryptionHelper.PaddedHex | mte-multiple-clients/MteMultipleClient/src/multiClient/EncryptionHelper.java:105-109 | md5's padding loop renders each byte as its two `%02x` characters |
| EncryptionHelper.Md5 | mte-multiple-clients/MteMultipleClient/src/multiClient/EncryptionHelper.java:90-117 | no MD5 gives ""; otherwise the 32-character lowercase rendering of the digest |
| EncryptionHelper.GenerateRandomIv | mte-multiple-clients/MteMultipleClient/src/multiClient/EncryptionHelper.java:397-414 | the first `min(length, 32)` characters of the rendering of 16 random bytes, which decode back to those bytes; a negative length throws |
| EncryptionHelper.Pow256 | mte-multiple-clients/MteMultipleClient/src/multiClient/EncryptionHelper.java:125-127 | powers of 256 are positive |
| EncryptionHelper.BigEndian | mte-multiple-clients/MteMultipleClient/src/multiClient/EncryptionHelper.java:126-127 | a value's n-byte big-endian form has n bytes |
| EncryptionHelper.FromBigEndianBound | mte-multiple-clients/MteMultipleClient/src/multiClient/EncryptionHelper.java:139-140 | n bytes read big-endian are below 256^n |
| EncryptionHelper.FromBigEndianOfBigEndian | mte-multiple-clients/MteMultipleClient/src/multiClient/EncryptionHelper.java:124-143 | reading back n written bytes gives the value modulo 256^n |
| EncryptionHelper.BigEndianOfFromBigEndian | mte-multiple-clients/MteMultipleClient/src/multiClient/EncryptionHelper.java:124-143 | writing back the value of n bytes gives the bytes |
| EncryptionHelper.FromBigEndianHead | mte-multiple-clients/MteMultipleClient/src/multiClient/EncryptionHelper.java:139-140 | the first of n bytes weighs 256^(n-1) in their big-endian value |
| EncryptionHelper.PutLong | mte-multiple-clients/MteMultipleClient/src/multiClient/EncryptionHelper.java:126-127 | `putLong` writes eight bytes whose big-endian value is the long's two's-complement bit pattern |
| EncryptionHelper.GetLong | mte-multiple-clients/MteMultipleClient/src/multiClient/EncryptionHelper.java:139-140 | `getLong` reads the long whose bit pattern is the bytes' big-endian value; it is negative exactly when the first byte's top bit is set |
| EncryptionHelper.LongRoundTrip | mte-multiple-clients/MteMultipleClient/src/multiClient/EncryptionHelper.java:124-143 | `getLong` after `putLong` gives the long back |
| EncryptionHelper.BytesRoundTrip | mte-multiple-clients/MteMultipleClient/src/multiClient/EncryptionHelper.java:124-143 | `putLong` after `getLong` gives the eight bytes back |
| EncryptionHelper.GetBytesFromUuid | mte-multiple-clients/MteMultipleClient/src/multiClient/EncryptionHelper.java:124-130 | 16 bytes: the most significant long, then the least significant one, both big-endian |
| EncryptionHelper.GetUuidFromBytes | mte-multiple-clients/MteMultipleClient/src/multiClient/EncryptionHelper.java:137-143 | fewer than 16 bytes, and only that, throws BufferUnderflow |
| EncryptionHelper.UuidRoundTrip | mte-multiple-clients/MteMultipleClient/src/multiClient/EncryptionHelper.java:124-143 | `getUUIDFromBytes(getBytesFromUUID(u)) == u` |
| EncryptionHelper.UuidBytesRoundTrip | mte-multiple-clients/MteMultipleClient/src/multiClient/EncryptionHelper.java:124-143 | unpacking then packing gives back the first 16 bytes |
| EncryptionHelper.UuidFirstByteIsTopByte | mte-multiple-clients/MteMultipleClient/src/multiClient/EncryptionHelper.java:126 | byte 0 is the top byte of the most significant long |
| EncryptionHelper.Swallow | mte-multiple-clients/MteMultipleClient/src/multiClient/EncryptionHelper.java:316-343 | a swallowed cipher exception becomes ""; other outcomes pass through |
| EncryptionHelper.EncryptionHelper.constructor | mte-multiple-clients/MteMultipleClient/src/multiClient/EncryptionHelper.java:66-82 | fresh zeroed 32-byte key and 16-byte IV buffers |
| EncryptionHelper.EncryptionHelper.EncryptDecrypt | mte-multiple-clients/MteMultipleClient/src/multiClient/EncryptionHelper.java:162-233 | an odd-length key throws before any copy; else exactly `min(len, 32)` key bytes and `min(len, 16)` IV bytes are copied and the rest of both buffers is unchanged |
| EncryptionHelper.EncryptionHelper.EncryptText | mte-multiple-clients/MteMultipleClient/src/multiClient/EncryptionHelper.java:316-343 | an odd-length key throws and leaves the buffers; otherwise the key and IV buffers hold the clamped copies over their unchanged tails, and the result is the cipher over them, with the five cipher exceptions turned into "" |
| EncryptionHelper.EncryptionHelper.DecryptText | mte-multiple-clients/MteMultipleClient/src/multiClient/EncryptionHelper.java:363-389 | as `encrypt`, in the decrypt direction: the same buffer contents and the same swallowed exceptions |
| Ecdh.SharedSecret | diffie-hellman-handshake/ecdh_src/com/eclypses/ecdh/EclypsesECDH.java:78-164 | null on each of the five failure branches; NullPointerException exactly for a null partner key or no held pair; a secret exactly when all providers succeed, and then 32 bytes of SHA-256 of the raw agreement |
| Ecdh.Wipe | diffie-hellman-handshake/ecdh_src/com/eclypses/ecdh/EclypsesECDH.java:148 | every byte of the raw secret becomes 0 |
| Ecdh.EclypsesECDH.constructor | diffie-hellman-handshake/ecdh_src/com/eclypses/ecdh/EclypsesECDH.java:34-36 | no key pair held, logging off |
| Ecdh.EclypsesECDH.WithLogging | diffie-hellman-handshake/ecdh_src/com/eclypses/ecdh/EclypsesECDH.java:38-46 | no key pair held, logging as requested |
| Ecdh.EclypsesECDH.GetDevicePublicKey | diffie-hellman-handshake/ecdh_src/com/eclypses/ecdh/EclypsesECDH.java:48-75 | a held pair is kept, else the generated one (none when "EC" is unavailable); returns the held pair's encoded public key or null |
| Ecdh.EclypsesECDH.CreateSharedSecret | diffie-hellman-handshake/ecdh_src/com/eclypses/ecdh/EclypsesECDH.java:78-164 | returns `SharedSecret` of the held pair; every return drops the pair, an escaping exception leaves it |
| Ecdh.EclypsesECDH.ClearDeviceKeyPair | diffie-hellman-handshake/ecdh_src/com/eclypses/ecdh/EclypsesECDH.java:169-171 | no key pair held afterwards, nothing else changed |
| Ecdh.PublicKeyIsStable | diffie-hellman-handshake/ecdh_src/com/eclypses/ecdh/EclypsesECDH.java:54-74 | two calls in a row return the same key and consult the generator at most once |
| Ecdh.SecondDerivationFails | diffie-hellman-handshake/ecdh_src/com/eclypses/ecdh/EclypsesECDH.java:126-162 | a second derivation without a new public key never yields a secret |
| Models.NewResponse | diffie-hellman-handshake/src/handshake/Models/ResponseModel.java:24-32 | "Success", "000", true, "", "" and a null `Data` |
| Models.NewResponseWith | diffie-hellman-handshake/src/handshake/Models/ResponseModel.java:14-22 | the same defaults around the given `Data` |
| Models.ReturnDataWithResponseModel | diffie-hellman-handshake/src/handshake/Models/ResponseModel.java:35-43 | status fields copied from `inResponse`, `Data` replaced |
| Models.RewrapIgnoresReceiver | diffie-hellman-handshake/src/handshake/Models/ResponseModel.java:35-43 | the result does not depend on the receiver |
| Models.RewrapRoundTrip | diffie-hellman-handshake/src/handshake/Models/ResponseModel.java:35-43 | re-wrapping an envelope's own data gives it back; a second re-wrap keeps the first's status |
| Models.NewHandshakeModel | mte-multiple-clients/MteMultipleClient/src/multiClient/Models/HandshakeModel.java:65-70 | empty timestamp and id, empty key arrays |
| MultiClient.StateKeysDistinct | mte-multiple-clients/MteMultipleClient/src/multiClient/MteConsoleMultipleClients.java:292-297 | no "ENC_" key is a "DEC_" key, and each key names one conversation |
| MultiClient.LiveEntry | mte-multiple-clients/MteMultipleClient/src/multiClient/MteConsoleMultipleClients.java:226-229 | a cache entry is used exactly when present and non-empty |
| MultiClient.ChooseConversation | mte-multiple-clients/MteMultipleClient/src/multiClient/MteConsoleMultipleClients.java:404-413 | the current id when non-null and non-empty, else the fresh UUID |
| MultiClient.Request | mte-multiple-clients/MteMultipleClient/src/multiClient/MteConsoleMultipleClients.java:404-440 | the request carries the chosen id, the encoder pair's public key as `ClientEncoderPublicKey` and the decoder pair's as `ClientDecoderPublicKey`; the timestamp stays the default |
| MultiClient.ReplyKeys | mte-multiple-clients/MteMultipleClient/src/multiClient/MteConsoleMultipleClients.java:466-469 | a reply with `Data` names exactly two distinct cache keys, "ENC_" and "DEC_" of the id it echoes; one without names none |
| MultiClient.CreateStates | mte-multiple-clients/MteMultipleClient/src/multiClient/MteConsoleMultipleClients.java:501-579 | "104" with nothing stored; "112" with only the encoder state stored; "000"/"SUCCESS" with both; `maxSeedInterval` set only while <= 0 |
| MultiClient.Handshake | mte-multiple-clients/MteMultipleClient/src/multiClient/MteConsoleMultipleClients.java:395-491 | an accepted reply with `Data` creates the states under the echoed id, from the encoder pair with `ClientEncoderPublicKey`, the decoder pair with `ClientDecoderPublicKey` and the parsed `Timestamp` as nonce; it throws exactly when a derivation or the parse throws, or `Data` is null; an exception leaves the cache and the interval; a new client number gets the chosen id, an existing one is never re-pointed; only the reply's two keys can change; a rejected reply changes no cache entry |
| MultiClient.Sent | mte-multiple-clients/MteMultipleClient/src/multiClient/MteConsoleMultipleClients.java:226-265 | it succeeds exactly when the "ENC_" entry is live, the encoder restores from the unsealed entry and the greeting encodes; the result is the encoder after encoding and the server's reply to the encoded greeting posted under the conversation's id; every failure is a plain exception |
| MultiClient.EncoderSaved | mte-multiple-clients/MteMultipleClient/src/multiClient/MteConsoleMultipleClients.java:287-292 | only the "ENC_" entry changes, to the sealed saved encoder state; `clients` and the interval stay |
| MultiClient.Received | mte-multiple-clients/MteMultipleClient/src/multiClient/MteConsoleMultipleClients.java:297-325 | it succeeds exactly when the "DEC_" entry is live, the decoder restores from the unsealed entry and the reply's data decodes; the result is the decoder after decoding; every failure is a plain exception |
| MultiClient.AfterHandshake | mte-multiple-clients/MteMultipleClient/src/multiClient/MteConsoleMultipleClients.java:356-361 | the trip carries on exactly when the handshake returned true; false ends it with a plain exception, and a thrown exception ends it with that exception |
| MultiClient.Trip | mte-multiple-clients/MteMultipleClient/src/multiClient/MteConsoleMultipleClients.java:226-372 | a task is abandoned only after a "117" reply and a successful re-handshake; a trip carries on only after the reply was decoded; a failure before the encoder save changes nothing |
| MultiClient.MissingEncoderStateFails | mte-multiple-clients/MteMultipleClient/src/multiClient/MteConsoleMultipleClients.java:226-229 | a missing or empty "ENC_" entry ends the task before any engine is restored, with nothing changed |
| MultiClient.MissingDecoderStateFails | mte-multiple-clients/MteMultipleClient/src/multiClient/MteConsoleMultipleClients.java:285-300 | a missing or empty "DEC_" entry ends the task after the encoder save and before any decoder is restored |
| MultiClient.ReseedRotates | mte-multiple-clients/MteMultipleClient/src/multiClient/MteConsoleMultipleClients.java:330-361 | past 90% the decoder and then the encoder are uninstantiated, either failure throwing with only the encoder saved; when both succeed the null-id handshake decides how the trip ends |
| MultiClient.StateNotFoundAbandons | mte-multiple-clients/MteMultipleClient/src/multiClient/MteConsoleMultipleClients.java:266-281 | a "117" reply re-handshakes under the same id and ends the task; the trip's encoder state is not saved |
| MultiClient.ReseedLeavesDecoderState | mte-multiple-clients/MteMultipleClient/src/multiClient/MteConsoleMultipleClients.java:330-362 | past 90% the conversation's decoder state is not saved: its "DEC_" entry keeps its value unless the null-id handshake's reply names this conversation |
| MultiClient.OrdinaryTripSavesBoth | mte-multiple-clients/MteMultipleClient/src/multiClient/MteConsoleMultipleClients.java:285-372 | under the threshold a trip saves exactly the two states of its conversation |
| MultiClient.TripKeepsClients | mte-multiple-clients/MteMultipleClient/src/multiClient/MteConsoleMultipleClients.java:418-420 | a trip never re-points a client, nor changes a set reseed interval |
| MultiClient.RunTrips | mte-multiple-clients/MteMultipleClient/src/multiClient/MteConsoleMultipleClients.java:221-280 | completed runs did all n trips; an abandoned or stopped run names a trip before n |
| MultiClient.RunTripsNext | mte-multiple-clients/MteMultipleClient/src/multiClient/MteConsoleMultipleClients.java:221-222 | a task still running after t trips makes trip t next, and its end decides the outcome |
| MultiClient.RunTripsStable | mte-multiple-clients/MteMultipleClient/src/multiClient/MteConsoleMultipleClients.java:221-280 | once a task has ended, further trips change nothing |
| MultiClient.RunTripsKeepsClients | mte-multiple-clients/MteMultipleClient/src/multiClient/MteConsoleMultipleClients.java:418-420 | a whole task never re-points a client, nor changes a set reseed interval |
| MultiClient.MultiClientApp.constructor | mte-multiple-clients/MteMultipleClient/src/multiClient/MteConsoleMultipleClients.java:60 | empty clients and cache, `maxSeedInterval` 0 |
| MultiClient.MultiClientApp.CreateMteStates | mte-multiple-clients/MteMultipleClient/src/multiClient/MteConsoleMultipleClients.java:501-579 | response and new state are `CreateStates` of the old state |
| MultiClient.MultiClientApp.HandshakeWithServer | mte-multiple-clients/MteMultipleClient/src/multiClient/MteConsoleMultipleClients.java:395-491 | result and new state are `Handshake` of the old state |
| MultiClient.MultiClientApp.ContactServer | mte-multiple-clients/MteMultipleClient/src/multiClient/MteConsoleMultipleClients.java:206-386 | 1 to 4 trips; outcome and new state are `RunTrips` of the old state |
| MultiClient.MultiClientApp.NextTrip | mte-multiple-clients/MteMultipleClient/src/multiClient/MteConsoleMultipleClients.java:221-378 | one pass of the trip loop on a running task moves the state from `RunTrips` of `t` trips to `RunTrips` of `t + 1` |
| MultiClient.MultiClientApp.ContactOnce | mte-multiple-clients/MteMultipleClient/src/multiClient/MteConsoleMultipleClients.java:226-372 | one trip's end and new state are `Trip` of the old state |
| FileUploader.EngineInputs | mte-file-upload/MteConsoleUploadFile/src/uploadClient/FileUploader.java:470-484 | the two shared secrets and the parsed nonce, or an exception exactly when `Data` is null, a derivation throws or the timestamp does not parse |
| FileUploader.HandshakeRequest | mte-file-upload/MteConsoleUploadFile/src/uploadClient/FileUploader.java:427-440 | the request carries the client id, the encoder pair's public key as `ClientEncoderPublicKey` and the decoder pair's as `ClientDecoderPublicKey`; the timestamp stays the default |
| FileUploader.HandshakeReply | mte-file-upload/MteConsoleUploadFile/src/uploadClient/FileUploader.java:418-533 | a rejection copies the server's status; an exception gives "302"; "104" leaves no state; "112" leaves only the encoder state; success has the default status and both states; `maxSeed` is overwritten exactly when an encoder was created |
| FileUploader.Begin | mte-file-upload/MteConsoleUploadFile/src/uploadClient/FileUploader.java:94-98 | the first handshake either throws with no states taken, or leaves both states present |
| FileUploader.SwapStates | mte-file-upload/MteConsoleUploadFile/src/uploadClient/FileUploader.java:230-258 | under the threshold only the given role's state is saved; over it the swap succeeds exactly when the engine uninstantiates and the rehandshake succeeds, and then both states are replaced from that handshake; a failure throws and keeps both states |
| FileUploader.UploadBody | mte-file-upload/MteConsoleUploadFile/src/uploadClient/FileUploader.java:182-218 | the body starts with the in-place encryption of every read; a failed chunk or a failed finish throws a plain exception, a null finish array throws NullPointerException; it succeeds exactly when every chunk encrypts and the finish array is non-null, and that array ends the body |
| FileUploader.EncodedUpload | mte-file-upload/MteConsoleUploadFile/src/uploadClient/FileUploader.java:147-218 | it succeeds exactly when the encoder restores and starts, every read encrypts and the finish array is non-null; the body is the encryption of every read followed by that array, and the encoder after `finishEncrypt` comes back |
| FileUploader.SendFile | mte-file-upload/MteConsoleUploadFile/src/uploadClient/FileUploader.java:147-258 | a failed restore, start or body throws and changes nothing; otherwise the encoder after `finishEncrypt` goes through the save-or-rotate rule, which decides the new state; under the threshold only the encoder state is saved |
| FileUploader.Concat | mte-file-upload/MteConsoleUploadFile/src/uploadClient/FileUploader.java:341-350 | the chunk output followed by the finish output, a null finish counting as empty; a null chunk output throws |
| FileUploader.DecodedReply | mte-file-upload/MteConsoleUploadFile/src/uploadClient/FileUploader.java:303-350 | it succeeds exactly when the decoder restores and starts, the data is present, its whole-data chunk is non-null and the finish succeeds; the decoded bytes are that chunk followed by the finish output |
| FileUploader.ReceiveReply | mte-file-upload/MteConsoleUploadFile/src/uploadClient/FileUploader.java:298-392 | a rejected reply shows the server's message and changes nothing; for an accepted one a failed decode changes nothing, otherwise the decoder after `finishDecrypt` goes through the save-or-rotate rule; under the threshold only the decoder state is saved |
| FileUploader.UploadOnce | mte-file-upload/MteConsoleUploadFile/src/uploadClient/FileUploader.java:104-392 | nothing is shown unless the file was encrypted and posted; a posted body's outcome is `ReceiveReply` of the server's reply from the state the encode half left; a decrypted reply is shown only when the server accepted the body |
| FileUploader.UploadKeepsReady | mte-file-upload/MteConsoleUploadFile/src/uploadClient/FileUploader.java:360-385 | a completed upload keeps both saved states present |
| FileUploader.RejectedReplyKeepsStates | mte-file-upload/MteConsoleUploadFile/src/uploadClient/FileUploader.java:298-392 | a rejected reply ends the upload with the states the encode half left |
| FileUploader.UploadClient.constructor | mte-file-upload/MteConsoleUploadFile/src/uploadClient/FileUploader.java:91-92 | `maxSeed` 0, both states null, the given client id |
| FileUploader.UploadClient.HandshakeWithServer | mte-file-upload/MteConsoleUploadFile/src/uploadClient/FileUploader.java:418-533 | response and new `maxSeed` are `HandshakeReply` of the old `maxSeed` |
| FileUploader.UploadClient.Start | mte-file-upload/MteConsoleUploadFile/src/uploadClient/FileUploader.java:91-98 | result and new state are `Begin` of the old state |
| FileUploader.UploadClient.SaveOrRotate | mte-file-upload/MteConsoleUploadFile/src/uploadClient/FileUploader.java:358-385 | result and new state are `SwapStates` of the old state |
| FileUploader.UploadClient.Send | mte-file-upload/MteConsoleUploadFile/src/uploadClient/FileUploader.java:141-258 | result and new state are `SendFile` of the old state |
| FileUploader.UploadClient.Receive | mte-file-upload/MteConsoleUploadFile/src/uploadClient/FileUploader.java:298-392 | result and new state are `ReceiveReply` of the old state |
| FileUploader.UploadClient.Upload | mte-file-upload/MteConsoleUploadFile/src/uploadClient/FileUploader.java:104-392 | one pass of the upload loop: the encode half, the post, then the decode half |
| FileUploader.ConcatFinal | mte-file-upload/MteConsoleUploadFile/src/uploadClient/FileUploader.java:347-350 | the two `arraycopy` calls build exactly `Concat` |
| Chunking.LastIndexOf | mte-chunking/src/ChunkingSample/chunking.java:88 | the last position of the character, or -1 when it does not occur |
| Chunking.FileName | mte-chunking/src/ChunkingSample/chunking.java:83-85 | `File.getName()`: the name holds no '/'; for a path not ending in '/' it is what follows the last '/' |
| Chunking.CollapseSlashes | mte-chunking/src/ChunkingSample/chunking.java:83-85 | collapsing runs of '/' keeps the last character |
| Chunking.CollapseKeepsLastComponent | mte-chunking/src/ChunkingSample/chunking.java:83-85 | collapsing runs of '/' keeps what follows the last '/' |
| Chunking.TrailingSlashIgnored | mte-chunking/src/ChunkingSample/chunking.java:83-85 | a trailing '/' does not change the name, so "data.v2/" is named "data.v2" |
| Chunking.NormalizedAppendSlash | mte-chunking/src/ChunkingSample/chunking.java:83-85 | appending '/' to a non-empty path leaves its normalized form |
| Chunking.RootHasEmptyName | mte-chunking/src/ChunkingSample/chunking.java:83-85 | the root path and the empty path both have the empty name |
| Chunking.LastComponentAppend | mte-chunking/src/ChunkingSample/chunking.java:83-85 | appending a character other than '/' extends what follows the last '/' |
| Chunking.Extension | mte-chunking/src/ChunkingSample/chunking.java:87-94 | the suffix starts with '.'; a name without '.' gets ".txt" |
| Chunking.ExtensionIsLastDotSuffix | mte-chunking/src/ChunkingSample/chunking.java:85-94 | with a '.', the suffix from the last '.' on, holding no other '.'; without one, ".txt" |
| Chunking.Replace | mte-chunking/src/ChunkingSample/chunking.java:123 | `String.replace` maps every occurrence and keeps the length |
| Chunking.ZeroEntropy | mte-chunking/src/ChunkingSample/chunking.java:117-123 | exactly `entropyMinBytes` '0's; the discarded `replace` would change nothing |
| Chunking.ReplaceWithoutOccurrence | mte-chunking/src/ChunkingSample/chunking.java:123 | replacing an absent character changes nothing |
| Chunking.ChunkingSample.constructor | mte-chunking/src/ChunkingSample/chunking.java:51-52 | the two output path bases |
| Chunking.ChunkingSample.PromptForFile | mte-chunking/src/ChunkingSample/chunking.java:77-99 | stops at the first existing path and suffixes both output paths once with its extension; running out of input throws and changes nothing |
| Chunking.EncryptAll | mte-chunking/src/ChunkingSample/chunking.java:175-187 | a completed encode writes exactly as many bytes as were read; when it completes is stated by `EncryptAllCompletes` and `EncryptAllTotal` |
| Chunking.EncryptAllLayout | mte-chunking/src/ChunkingSample/chunking.java:179-186 | each read's ciphertext lands at that read's position |
| Chunking.EncryptAllCompletes | mte-chunking/src/ChunkingSample/chunking.java:175-187 | the encode completes exactly when every read, from the encoder the reads before it left, encrypts |
| Chunking.EncryptAllTotal | mte-chunking/src/ChunkingSample/chunking.java:175-187 | an encoder that never fails on the reads, whatever its state, completes the encode |
| Chunking.EncryptChunks | mte-chunking/src/ChunkingSample/chunking.java:173-187 | the in-place buffer loop computes `EncryptAll` |
| Chunking.EncryptAllStopped | mte-chunking/src/ChunkingSample/chunking.java:180-185 | a failed chunk ends the encode for good |
| Chunking.DecryptChunk | mte-chunking/src/ChunkingSample/chunking.java:271-292 | a full buffer throws NullPointerException exactly when `decryptChunk` returns null, and otherwise yields its output; a short read yields `bytesRead - cipherBlock` bytes, throws NegativeArraySizeException when that is negative, and otherwise throws IllegalArgumentException exactly when the error code is negative |
| Chunking.DecryptAll | mte-chunking/src/ChunkingSample/chunking.java:266-298 | a decode stops only with one of the three exceptions a chunk can raise; its contents are stated by `DecryptAllLayout`, and when it completes by `DecryptAllCompletes` and `DecryptAllTotal` |
| Chunking.DecryptAllLayout | mte-chunking/src/ChunkingSample/chunking.java:266-298 | the output is in read order: what the reads before read `i` decoded, followed by read `i`'s decoded chunk, begins the whole output |
| Chunking.DecryptAllCompletes | mte-chunking/src/ChunkingSample/chunking.java:266-298 | the decode completes exactly when every read, from the decoder the reads before it left, decodes |
| Chunking.DecryptAllTotal | mte-chunking/src/ChunkingSample/chunking.java:266-298 | a decoder that never fails on the reads, whatever its state, completes the decode |
| Chunking.DecryptAllStopped | mte-chunking/src/ChunkingSample/chunking.java:266-298 | a failed chunk ends the decode for good |
| Chunking.DecryptAllLength | mte-chunking/src/ChunkingSample/chunking.java:281-286 | with no full-buffer read, the output is `cipherBlock` bytes shorter per read |
| Chunking.DecryptOne | mte-chunking/src/ChunkingSample/chunking.java:271-292 | one pass over the buffer computes `DecryptChunk` |
| Chunking.DecryptChunks | mte-chunking/src/ChunkingSample/chunking.java:263-298 | the buffer loop computes `DecryptAll` |
| Chunking.FinalChunk | mte-chunking/src/ChunkingSample/chunking.java:313 | a null or empty final chunk is written as empty, any other as is |

## Left out

- The MTE engine (`MteEnc`, `MteDec`, `MteMkeEnc`, `MteMkeDec`) is a licensed library. Instances are opaque values,
  and its calls are function parameters returning a status.
- `InPlace` states two library guarantees the loops rely on as a precondition:
  - `encryptChunk` rewrites exactly the bytes it is given;
  - the sized `decryptChunk` fills the array it is handed.
- The cryptography is outside the model: key generation, X.509 decoding, ECDH, SHA-256, MD5, AES-CBC/PKCS#5, Base64.
  `SecureRandom` and `UUID.randomUUID` are left out too. Their results enter as parameters.
- `MakeHttpCall`, Gson and the servers are left out. Each server is a function from the request to its parsed reply,
  so it is deterministic here. The status classification (RC "200"/"201") is not modelled. Its error envelope carries
  `Success == true` and flows into the same paths as any other reply.
- Console and file I/O are left out. Input lines, file existence and the chunks `read(buffer)` returns are
  parameters. What is written to files and printed is left out.
- The `CompletableFuture` fan-out in the multiple-clients `main` is left out, along with `Thread.sleep`. So is the
  Ehcache cache (modelled as a map, without its heap eviction). The tasks share `clients`, the cache and
  `maxSeedInterval` without synchronisation; the model runs one task at a time.
- The `main` loops that repeat uploads or client rounds until the user answers "n" are not modelled. Also left out:
  the creation of the initial clients, and the chunking sample's engine set-up and finish calls. The model covers the
  operations those loops call.
- `MultiClient.Trip`: sealing a state is the foreign function `seal`, keyed by the conversation id. It stands for
  `crypt.encrypt(state, SHA256(id, 64), encIV)`, and `unseal` stands for the matching decrypt. The
  `EncryptionHelper` model covers what these calls do before the cipher; `unseal` also stands for a decrypt that
  fails and returns "".
- `PastReseedThreshold`: the 0.9 threshold is float/double arithmetic in the source. It is modelled exactly as
  `10 * counter > 9 * max`, without floating-point rounding. In the upload client `reseedPercentage` is declared
  `float` and initialised with the double literal `.9`.
- `EncryptionHelper.Digit`: `Character.digit` is modelled for ASCII only. Non-ASCII Unicode digits are out of scope.
- `JavaLang.ParseLong`: only ASCII digits are accepted. `Long.parseLong` reads digits with `Character.digit` and so also
  accepts non-ASCII Unicode digits, which the model rejects.
  `getBytes` charset encoding is taken as the identity on the bytes given.
- `EncryptionHelper.EncryptionHelper.constructor`: a failing `Cipher.getInstance` is not modelled. That failure
  would leave the buffers null.
- `MultiClient.Handshake`: a JSON `null` in `Timestamp` or `ConversationIdentifier` is not modelled. Missing public
  keys are modelled as null.
- `FileUploader.HandshakeReply`: the message of a caught exception is the prefix "Exception during handshake: "
  alone; `ex.getMessage()` is not modelled. Exception messages elsewhere are not modelled either: a
  `throw new Exception(..)` in the samples is the single `PlainException`.
- `FileUploader.ReceiveReply`: a null `Data` in an accepted reply is taken to make `decryptChunk` throw
  NullPointerException. The library's behaviour on null is not visible.
- `uploadClient/Models/HandshakeModel.java`, `uploadClient/Models/ResponseModel.java` and
  `uploadClient/Models/HandshakeResponse.java` are not part of this model. The upload client uses the same shapes
  as the multiple-clients and handshake models: default status "Success"/"000", null saved states.
- The reseed rotation of `ContactServer` handshakes with a null conversation id, so under a
  fresh UUID. The model follows the code. The old conversation's states stay in the cache, and `clients` keeps the
  old id for the client number.
- `Chunking.FileName`: only the Unix form of `File`'s path normalization is modelled. Windows separators and drive
  prefixes are not.
- The greeting text of a trip, the role selector `FileUploader.StateOf` and the read-size bound `Chunking.ValidReads`
  carry no contract of their own. They are definitions that the contracts above use.
- The `catch (Exception ex)` of `CreateMteStates` (RC "104") cannot be reached in the model. The engine calls, `seal`
  and the cache are functions that do not throw, so an exception after the "ENC_" entry was stored is not modelled.
- The cache entry check `encryptedEncState == ""` compares references in Java. It is modelled as a content comparison,
  and `equalsIgnoreCase("117")` as equality.
- The sequencing, jailbreak and switching samples and `Handshake.java` are outside this model. They are engine
  demonstrations and a duplicate handshake client.
