/** The shared request helper of the Fish Audio node: the API's base URL,
    the table of audio MIME types, and the assembly of the request options
    handed to the host's authenticated HTTP client. */
module GenericFunctions {
  import opened DataObjects

  const ApiBaseUrl := "https://api.fish.audio"

  /** The only credential the node ever authenticates with. */
  const CredentialName := "fishaudioApi"

  /** `MIME_TYPES`: the content type of each audio format the API produces. */
  const MimeTypes: map<string, string> :=
    map["mp3" := "audio/mpeg", "wav" := "audio/wav", "opus" := "audio/opus", "pcm" := "audio/pcm"]

  /** The table has exactly the four formats of the API, with their types. */
  lemma MimeTypesTable()
    ensures MimeTypes.Keys == {"mp3", "wav", "opus", "pcm"}
    ensures MimeTypes["mp3"] == "audio/mpeg" && MimeTypes["wav"] == "audio/wav"
    ensures MimeTypes["opus"] == "audio/opus" && MimeTypes["pcm"] == "audio/pcm"
  {
  }

  /** `MIME_TYPES[format] || 'audio/mpeg'`: the table entry, or MP3's type
      for a format the table does not know. */
  function MimeTypeFor(format: string): (mime: string)
    ensures format in MimeTypes ==> mime == MimeTypes[format]
    ensures format !in MimeTypes ==> mime == "audio/mpeg"
    ensures mime in MimeTypes.Values
  {
    if format in MimeTypes && MimeTypes[format] != "" then MimeTypes[format]
    else assert MimeTypes["mp3"] == "audio/mpeg"; "audio/mpeg"
  }

  /** One call to `httpRequestWithAuthentication`: the credential name and
      the request options. */
  datatype HttpCall = HttpCall(credential: string, options: DataObject)

  /** What the host's HTTP client answers: the response body, or a rejected
      promise carrying the error message. */
  datatype HttpReply = Reply(body: Value) | Rejected(message: string)

  /** The host's HTTP client: the reply to the n-th call of an execution. */
  type Host = (nat, HttpCall) -> HttpReply

  /** `x && Object.keys(x).length > 0` for an optional object. */
  predicate HasKeys(o: Option<DataObject>) {
    o.Some? && |o.value| > 0
  }

  /** The options every request starts from, before the caller's overrides. */
  function BaseOptions(httpMethod: string, endpoint: string): DataObject {
    map["method" := Str(httpMethod), "baseURL" := Str(ApiBaseUrl), "url" := Str(endpoint), "json" := Bool(true)]
  }

  /** The request options `fishAudioApiRequest` hands to the HTTP client:
      the base options overridden by the caller's `options`, plus `body`
      and `qs` when each is a non-empty object. */
  function RequestOptions(httpMethod: string, endpoint: string, body: Option<DataObject>,
                          qs: Option<DataObject>, options: DataObject): (r: DataObject)
    ensures r.Keys == BaseOptions(httpMethod, endpoint).Keys + options.Keys
                      + (if HasKeys(body) then {"body"} else {})
                      + (if HasKeys(qs) then {"qs"} else {})
    // the caller's options win over every base option
    ensures forall k :: k in options && k != "body" && k != "qs" ==> r[k] == options[k]
    ensures forall k :: k in BaseOptions(httpMethod, endpoint) && k !in options ==>
              r[k] == BaseOptions(httpMethod, endpoint)[k]
    // a non-empty body or query replaces whatever the options carried
    ensures HasKeys(body) ==> r["body"] == Obj(body.value)
    ensures !HasKeys(body) && "body" in options ==> r["body"] == options["body"]
    ensures HasKeys(qs) ==> r["qs"] == Obj(qs.value)
    ensures !HasKeys(qs) && "qs" in options ==> r["qs"] == options["qs"]
  {
    var merged := BaseOptions(httpMethod, endpoint) + options;
    var withBody := if HasKeys(body) then merged["body" := Obj(body.value)] else merged;
    if HasKeys(qs) then withBody["qs" := Obj(qs.value)] else withBody
  }

  /** With no body, no query and no overrides, the request is exactly the
      four base options. */
  lemma PlainRequest(httpMethod: string, endpoint: string)
    ensures RequestOptions(httpMethod, endpoint, None, None, map[]) == BaseOptions(httpMethod, endpoint)
    ensures "body" !in RequestOptions(httpMethod, endpoint, None, None, map[])
    ensures "qs" !in RequestOptions(httpMethod, endpoint, None, None, map[])
  {
  }

  /** An empty body or query object is dropped: passing `{}` is the same as
      passing nothing. */
  lemma EmptyObjectsDropped(httpMethod: string, endpoint: string, body: Option<DataObject>,
                            qs: Option<DataObject>, options: DataObject)
    ensures RequestOptions(httpMethod, endpoint, Some(map[]), qs, options)
         == RequestOptions(httpMethod, endpoint, None, qs, options)
    ensures RequestOptions(httpMethod, endpoint, body, Some(map[]), options)
         == RequestOptions(httpMethod, endpoint, body, None, options)
  {
  }

  /** `fishAudioApiRequest`: builds the request options step by step and
      sends them, as call number `seqNo`, with the node's credential. */
  method FishAudioApiRequest(host: Host, seqNo: nat, httpMethod: string, endpoint: string,
                             body: Option<DataObject>, qs: Option<DataObject>, options: DataObject)
    returns (call: HttpCall, reply: HttpReply)
    ensures call == HttpCall(CredentialName, RequestOptions(httpMethod, endpoint, body, qs, options))
    ensures reply == host(seqNo, call)
  {
    var requestOptions := BaseOptions(httpMethod, endpoint) + options;
    if body.Some? && |body.value| > 0 {
      requestOptions := requestOptions["body" := Obj(body.value)];
    }
    if qs.Some? && |qs.value| > 0 {
      requestOptions := requestOptions["qs" := Obj(qs.value)];
    }
    call := HttpCall(CredentialName, requestOptions);
    reply := host(seqNo, call);
  }
}
