/** The data carriers the clients exchange with the server: the generic
    response envelope, the handshake request/reply, the uploader's pair of
    saved states, and the result codes. */
module Models {
  import opened JavaLang

  /** `ResponseModel<T>`: a payload (null-able) and the server's status. */
  datatype ResponseModel<T> = ResponseModel(
    data: Option<T>,
    message: string,
    success: bool,
    resultCode: string,
    exceptionUid: string,
    accessToken: string)

  const StrSuccess := "SUCCESS"
  const RcSuccess := "000"
  const RcMteEncodeException := "104"
  const RcMteDecodeException := "112"
  const RcMteStateNotFound := "117"
  const RcHttpError := "200"
  const RcHttpException := "201"
  const RcHandshakeException := "302"

  /** The envelope's status part is the default one: "Success", "000",
      success, and empty exception id and access token. */
  predicate HasDefaultStatus<T>(r: ResponseModel<T>) {
    r.message == "Success" && r.resultCode == RcSuccess && r.success && r.exceptionUid == "" && r.accessToken == ""
  }

  /** Two envelopes carry the same status fields, whatever their payloads. */
  predicate SameStatus<T, M>(a: ResponseModel<T>, b: ResponseModel<M>) {
    a.message == b.message && a.resultCode == b.resultCode && a.success == b.success &&
    a.exceptionUid == b.exceptionUid && a.accessToken == b.accessToken
  }

  /** `new ResponseModel<T>()`: default status, `Data` left null. */
  function NewResponse<T>(): (r: ResponseModel<T>)
    ensures HasDefaultStatus(r) && r.data == None
  {
    ResponseModel(None, "Success", true, RcSuccess, "", "")
  }

  /** `new ResponseModel<T>(data)`: default status around the given payload. */
  function NewResponseWith<T>(data: Option<T>): (r: ResponseModel<T>)
    ensures HasDefaultStatus(r) && r.data == data
    ensures SameStatus(r, NewResponse<T>())
  {
    ResponseModel(data, "Success", true, RcSuccess, "", "")
  }

  /** `self.ReturnDataWithResponseModel(inResponse, data)`: a new envelope with
      `inResponse`'s status and the new payload. `self` is not consulted, and
      neither argument is changed (they are values here). */
  function ReturnDataWithResponseModel<T, M>(self: ResponseModel<T>, inResponse: ResponseModel<T>, data: Option<M>): (r: ResponseModel<M>)
    ensures SameStatus(r, inResponse) && r.data == data
  {
    var response := NewResponseWith(data);
    response.(message := inResponse.message, resultCode := inResponse.resultCode, success := inResponse.success,
              accessToken := inResponse.accessToken, exceptionUid := inResponse.exceptionUid)
  }

  /** The re-wrap does not depend on the receiver. */
  lemma RewrapIgnoresReceiver<T, M>(self1: ResponseModel<T>, self2: ResponseModel<T>, inResponse: ResponseModel<T>, data: Option<M>)
    ensures ReturnDataWithResponseModel(self1, inResponse, data) == ReturnDataWithResponseModel(self2, inResponse, data)
  {
  }

  /** Re-wrapping an envelope's own payload gives the envelope back, and the
      status of a re-wrap is kept by a second re-wrap. */
  lemma RewrapRoundTrip<T>(self: ResponseModel<T>, inResponse: ResponseModel<T>, d1: Option<T>, d2: Option<T>)
    ensures ReturnDataWithResponseModel(self, inResponse, inResponse.data) == inResponse
    ensures ReturnDataWithResponseModel(self, ReturnDataWithResponseModel(self, inResponse, d1), d2)
         == ReturnDataWithResponseModel(self, inResponse, d2)
  {
  }

  /** `HandshakeModel`: both directions of the key exchange. Every field
      starts non-null (`""`, empty arrays); the public keys may be set to null
      by `getDevicePublicKey` or by a JSON null. */
  datatype HandshakeModel = HandshakeModel(
    timestamp: string,
    conversationIdentifier: string,
    clientEncoderPublicKey: Option<seq<Byte>>,
    clientDecoderPublicKey: Option<seq<Byte>>)

  /** `new HandshakeModel()`. */
  function NewHandshakeModel(): (h: HandshakeModel)
    ensures h.timestamp == "" && h.conversationIdentifier == ""
    ensures h.clientEncoderPublicKey == Some([]) && h.clientDecoderPublicKey == Some([])
  {
    HandshakeModel("", "", Some([]), Some([]))
  }

  /** The upload client's `HandshakeResponse`: the saved encoder and decoder
      states (null until set). */
  datatype HandshakeResponse = HandshakeResponse(encoderState: Option<string>, decoderState: Option<string>)
}
