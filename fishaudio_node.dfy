/** The Fish Audio node: routing of a (resource, operation) pair to its
    handler, the text-to-speech handler that turns every input item into
    one request and one output item with an audio attachment, and the
    credit-balance handler. */
module FishaudioNode {
  import opened DataObjects
  import opened GenericFunctions

  /** The handled (resource, operation) pairs, as one tagged union. */
  datatype Action = SpeechGenerate | AccountGetCredits

  function ResourceName(a: Action): string {
    match a
    case SpeechGenerate => "speech"
    case AccountGetCredits => "account"
  }

  function OperationName(a: Action): string {
    match a
    case SpeechGenerate => "generate"
    case AccountGetCredits => "getCredits"
  }

  /** The resources the node's parameter schema offers, in display order. */
  const ResourceOptions := ["speech", "account"]

  datatype NodeError =
    | NodeOperationError(message: string)  // thrown by the node itself
    | RequestFailed(message: string)       // a rejected HTTP request, passed through

  function UnsupportedMessage(resource: string, operation: string): string {
    "Unsupported resource/operation: " + resource + "/" + operation
  }

  /** The router of `execute`: exactly the two handled pairs select a
      handler; any other pair is an error naming the pair. */
  function Route(resource: string, operation: string): (r: Result<Action, NodeError>)
    ensures r.Success? <==> exists a: Action :: resource == ResourceName(a) && operation == OperationName(a)
    ensures r.Success? ==> resource == ResourceName(r.value) && operation == OperationName(r.value)
    ensures r.Failure? ==> r.error == NodeOperationError(UnsupportedMessage(resource, operation))
  {
    if resource == "speech" && operation == "generate" then
      assert resource == ResourceName(SpeechGenerate) && operation == OperationName(SpeechGenerate);
      Success(SpeechGenerate)
    else if resource == "account" && operation == "getCredits" then
      assert resource == ResourceName(AccountGetCredits) && operation == OperationName(AccountGetCredits);
      Success(AccountGetCredits)
    else Failure(NodeOperationError(UnsupportedMessage(resource, operation)))
  }

  /** Every handler is reached from its own pair, and the resources with a
      handler are exactly those the schema offers. */
  lemma RouteCoversOfferedResources(a: Action)
    ensures Route(ResourceName(a), OperationName(a)) == Success(a)
    ensures ResourceName(a) in ResourceOptions
    ensures forall r :: r in ResourceOptions ==> exists b: Action :: ResourceName(b) == r
  {
    assert ResourceName(SpeechGenerate) == ResourceOptions[0];
    assert ResourceName(AccountGetCredits) == ResourceOptions[1];
  }

  /** The voice-model resource declared elsewhere in the package has no
      handler: every one of its operations is refused. */
  lemma VoiceModelNotRouted(operation: string)
    ensures Route("voiceModel", operation) == Failure(NodeOperationError(UnsupportedMessage("voiceModel", operation)))
  {
  }

  /** The `voiceId` parameter: a plain id, or a resource locator whose
      `value` is the id. */
  datatype VoiceParam = VoiceIdString(id: string) | ResourceLocator(mode: string, value: string)

  /** The `additionalOptions` collection; `None` is an option the user did
      not add. `temperature` and `topP` are offered by the schema but never read. */
  datatype AdditionalOptions = AdditionalOptions(
    latency: Option<string>,
    speed: Option<real>,
    sampleRate: Option<real>,
    normalize: Option<bool>,
    temperature: Option<real>,
    topP: Option<real>)

  /** The parameters of one input item for speech generation; `None` is an
      undefined parameter. `model` is offered by the schema but never read. */
  datatype GenerateParams = GenerateParams(
    text: string,
    voiceId: VoiceParam,
    model: Option<string>,
    format: Option<string>,
    binaryPropertyName: Option<string>,
    additionalOptions: AdditionalOptions)

  /** What `getNodeParameter` yields for one item index. */
  datatype ItemParameters = ItemParameters(resource: string, operation: string, generate: GenerateParams)

  function VoiceIdOf(v: VoiceParam): string {
    match v
    case VoiceIdString(id) => id
    case ResourceLocator(_, value) => value
  }

  /** The output format, `mp3` unless set. */
  function FormatOf(p: GenerateParams): string {
    p.format.GetOr("mp3")
  }

  /** The binary field that receives the audio, `data` unless set. */
  function OutputFieldOf(p: GenerateParams): string {
    p.binaryPropertyName.GetOr("data")
  }

  /** Every key a text-to-speech request body can have. */
  const TtsBodyKeys: set<string> := {"text", "reference_id", "format", "latency", "prosody", "sample_rate", "normalize"}

  /** The JSON body of the text-to-speech request for one item; its fields
      are stated by `TtsBodyFields`. */
  function TtsBody(p: GenerateParams): DataObject
  {
    var o := p.additionalOptions;
    var required := map["text" := Str(p.text), "reference_id" := Str(VoiceIdOf(p.voiceId)), "format" := Str(FormatOf(p))];
    var withLatency := if TruthyString(o.latency) then required["latency" := Str(o.latency.value)] else required;
    var withSpeed := if o.speed.Some? then withLatency["prosody" := Obj(map["speed" := Num(o.speed.value)])] else withLatency;
    var withRate := if o.sampleRate.Some? then withSpeed["sample_rate" := Num(o.sampleRate.value)] else withSpeed;
    if o.normalize.Some? then withRate["normalize" := Bool(o.normalize.value)] else withRate
  }

  /** The body has the text, the voice and the format, and each optional
      field exactly when its option is set (the latency only when it is a
      non-empty string), with the option's value; nothing else. */
  lemma TtsBodyFields(p: GenerateParams)
    ensures "text" in TtsBody(p) && TtsBody(p)["text"] == Str(p.text)
    ensures "reference_id" in TtsBody(p) && TtsBody(p)["reference_id"] == Str(VoiceIdOf(p.voiceId))
    ensures "format" in TtsBody(p) && TtsBody(p)["format"] == Str(FormatOf(p))
    ensures "latency" in TtsBody(p) <==> TruthyString(p.additionalOptions.latency)
    ensures "latency" in TtsBody(p) ==> TtsBody(p)["latency"] == Str(p.additionalOptions.latency.value)
    ensures "prosody" in TtsBody(p) <==> p.additionalOptions.speed.Some?
    ensures "prosody" in TtsBody(p) ==> TtsBody(p)["prosody"] == Obj(map["speed" := Num(p.additionalOptions.speed.value)])
    ensures "sample_rate" in TtsBody(p) <==> p.additionalOptions.sampleRate.Some?
    ensures "sample_rate" in TtsBody(p) ==> TtsBody(p)["sample_rate"] == Num(p.additionalOptions.sampleRate.value)
    ensures "normalize" in TtsBody(p) <==> p.additionalOptions.normalize.Some?
    ensures "normalize" in TtsBody(p) ==> TtsBody(p)["normalize"] == Bool(p.additionalOptions.normalize.value)
    ensures TtsBody(p).Keys <= TtsBodyKeys
  {
  }

  /** The model, temperature and top-p settings never reach the request:
      changing them leaves the body as it was. */
  lemma TtsBodyIgnoresUnsentOptions(p: GenerateParams, model: Option<string>,
                                    temperature: Option<real>, topP: Option<real>)
    ensures TtsBody(p.(model := model,
                       additionalOptions := p.additionalOptions.(temperature := temperature, topP := topP)))
         == TtsBody(p)
    ensures "temperature" !in TtsBody(p) && "top_p" !in TtsBody(p) && "model" !in TtsBody(p)
  {
  }

  /** The caller's overrides for the text-to-speech request: raw bytes back, no JSON parsing. */
  const TtsOverrides: DataObject := map["encoding" := Str("arraybuffer"), "json" := Bool(false)]

  /** The request for one item: a POST to `/v1/tts` whose options are the
      base options with the overrides spread over them, plus the body. */
  function TtsCall(p: GenerateParams): (call: HttpCall)
    ensures call.credential == CredentialName
    ensures "body" in call.options && "qs" !in call.options
  {
    HttpCall(CredentialName, (BaseOptions("POST", "/v1/tts") + TtsOverrides)["body" := Obj(TtsBody(p))])
  }

  /** `TtsCall` is what the request helper builds from the item's body and
      the overrides: the body is never empty, so it is always attached. */
  lemma TtsCallIsApiRequest(p: GenerateParams)
    ensures TtsCall(p) == HttpCall(CredentialName, RequestOptions("POST", "/v1/tts", Some(TtsBody(p)), None, TtsOverrides))
  {
    assert "text" in TtsBody(p);
  }

  /** The text-to-speech request: JSON parsing switched off in favour of a
      raw `arraybuffer`, the item's body, and no query. */
  lemma TtsCallShape(p: GenerateParams)
    ensures TtsCall(p).credential == CredentialName
    ensures TtsCall(p).options.Keys == {"method", "baseURL", "url", "json", "encoding", "body"}
    ensures TtsCall(p).options["method"] == Str("POST") && TtsCall(p).options["url"] == Str("/v1/tts")
    ensures TtsCall(p).options["baseURL"] == Str(ApiBaseUrl)
    ensures TtsCall(p).options["json"] == Bool(false) && TtsCall(p).options["encoding"] == Str("arraybuffer")
    ensures TtsCall(p).options["body"] == Obj(TtsBody(p))
  {
  }

  /** A binary attachment: the response body and the file name and MIME type given to the host. */
  datatype BinaryData = BinaryData(data: Value, fileName: string, mimeType: string)

  /** One output item of the node: its JSON and, optionally, its binary attachments. */
  datatype ExecutionData = ExecutionData(json: Value, binary: Option<map<string, BinaryData>>)

  /** The output item for one input item, given the audio the API returned. */
  function GenerateOutput(p: GenerateParams, audio: Value): (item: ExecutionData)
    ensures item.binary.Some? && item.binary.value.Keys == {OutputFieldOf(p)}
  {
    var format := FormatOf(p);
    ExecutionData(
      Obj(map["format" := Str(format), "voiceId" := Str(VoiceIdOf(p.voiceId)),
              "textLength" := Num(Utf16Length(p.text) as real)]),
      Some(map[OutputFieldOf(p) := BinaryData(audio, "output." + format, MimeTypeFor(format))]))
  }

  /** The output item's JSON reports the format, the voice and the text's
      JavaScript length, and the audio is attached under exactly the chosen
      field, as `output.<format>` with the format's MIME type. */
  lemma GenerateOutputFields(p: GenerateParams, audio: Value)
    ensures GenerateOutput(p, audio).json.Obj?
    ensures GenerateOutput(p, audio).json.fields.Keys == {"format", "voiceId", "textLength"}
    ensures GenerateOutput(p, audio).json.fields["format"] == Str(FormatOf(p))
    ensures GenerateOutput(p, audio).json.fields["voiceId"] == Str(VoiceIdOf(p.voiceId))
    ensures GenerateOutput(p, audio).json.fields["textLength"] == Num(Utf16Length(p.text) as real)
    // the audio is stored under exactly the chosen field
    ensures GenerateOutput(p, audio).binary.Some?
    ensures GenerateOutput(p, audio).binary.value.Keys == {OutputFieldOf(p)}
    ensures GenerateOutput(p, audio).binary.value[OutputFieldOf(p)].data == audio
    ensures GenerateOutput(p, audio).binary.value[OutputFieldOf(p)].fileName == "output." + FormatOf(p)
    ensures GenerateOutput(p, audio).binary.value[OutputFieldOf(p)].mimeType == MimeTypeFor(FormatOf(p))
  {
  }

  /** With format and output field left unset, the audio is an MP3 file
      `output.mp3` of type `audio/mpeg` in the field `data`. */
  lemma GenerateDefaults(p: GenerateParams, audio: Value)
    requires p.format.None? && p.binaryPropertyName.None?
    ensures TtsBody(p)["format"] == Str("mp3")
    ensures GenerateOutput(p, audio).binary.value.Keys == {"data"}
    ensures GenerateOutput(p, audio).binary.value["data"] == BinaryData(audio, "output.mp3", "audio/mpeg")
  {
    assert MimeTypes["mp3"] == "audio/mpeg";
  }

  /** The body assembly of `executeSpeechGenerate` for one item: the three
      required fields, then each optional field assigned in place when its
      option calls for it. */
  method BuildTtsBody(p: GenerateParams) returns (body: DataObject)
    ensures body == TtsBody(p)
  {
    var additionalOptions := p.additionalOptions;
    body := map["text" := Str(p.text), "reference_id" := Str(VoiceIdOf(p.voiceId)),
                "format" := Str(p.format.GetOr("mp3"))];
    if additionalOptions.latency.Some? && additionalOptions.latency.value != "" {
      body := body["latency" := Str(additionalOptions.latency.value)];
    }
    if additionalOptions.speed.Some? {
      body := body["prosody" := Obj(map["speed" := Num(additionalOptions.speed.value)])];
    }
    if additionalOptions.sampleRate.Some? {
      body := body["sample_rate" := Num(additionalOptions.sampleRate.value)];
    }
    if additionalOptions.normalize.Some? {
      body := body["normalize" := Bool(additionalOptions.normalize.value)];
    }
  }

  /** The request of one item: its body, posted to `/v1/tts` through the
      request helper with the raw-bytes overrides, as call number `seqNo`. */
  method SendSpeechRequest(host: Host, seqNo: nat, p: GenerateParams) returns (call: HttpCall, reply: HttpReply)
    ensures call == TtsCall(p) && reply == host(seqNo, call)
  {
    var body := BuildTtsBody(p);
    call, reply := FishAudioApiRequest(host, seqNo, "POST", "/v1/tts", Some(body), None, TtsOverrides);
    TtsCallIsApiRequest(p);
  }

  /** The state of a speech run: the output items so far (or the error that
      ended the run) and the requests made. */
  datatype Run = Run(outcome: Result<seq<ExecutionData>, NodeError>, calls: seq<HttpCall>)

  /** The run of the speech handler over the first `n` items: item by item,
      one request and one output item, until a request is rejected. */
  function SpeechRun(n: nat, param: nat -> ItemParameters, host: Host): (run: Run)
    ensures |run.calls| <= n
    ensures run.outcome.Success? ==> |run.calls| == n && |run.outcome.value| == n
    ensures run.outcome.Failure? ==> |run.calls| > 0
  {
    if n == 0 then Run(Success([]), [])
    else
      var prev := SpeechRun(n - 1, param, host);
      if prev.outcome.Failure? then prev
      else
        var p := param(n - 1).generate;
        var call := TtsCall(p);
        match host(n - 1, call)
        case Rejected(message) => Run(Failure(RequestFailed(message)), prev.calls + [call])
        case Reply(audio) => Run(Success(prev.outcome.value + [GenerateOutput(p, audio)]), prev.calls + [call])
  }

  /** One more item after a successful run: the request for it is made,
      and its reply either extends the output or ends the run. */
  lemma SpeechRunStep(n: nat, param: nat -> ItemParameters, host: Host, out: seq<ExecutionData>, calls: seq<HttpCall>)
    requires SpeechRun(n, param, host) == Run(Success(out), calls)
    ensures var p := param(n).generate;
            var call := TtsCall(p);
            SpeechRun(n + 1, param, host)
            == match host(n, call)
               case Rejected(message) => Run(Failure(RequestFailed(message)), calls + [call])
               case Reply(audio) => Run(Success(out + [GenerateOutput(p, audio)]), calls + [call])
  {
  }

  /** Once a request is rejected the run makes no further requests. */
  lemma {:induction false} RejectionEndsRun(k: nat, n: nat, param: nat -> ItemParameters, host: Host)
    requires k <= n && SpeechRun(k, param, host).outcome.Failure?
    ensures SpeechRun(n, param, host) == SpeechRun(k, param, host)
  {
    if k < n {
      RejectionEndsRun(k, n - 1, param, host);
    }
  }

  /** What the speech handler promises of a run over `n` items: the requests
      are made item by item, in order, up to the first rejected one; on
      success there is exactly one output item per input item, in order. */
  ghost predicate GenerateOutcome(n: nat, param: nat -> ItemParameters, host: Host,
                                  outcome: Result<seq<ExecutionData>, NodeError>, calls: seq<HttpCall>)
  {
    && |calls| <= n
    && (forall i :: 0 <= i < |calls| ==> calls[i] == TtsCall(param(i).generate))
    && (forall i :: 0 <= i < |calls| - 1 ==> host(i, calls[i]).Reply?)
    && match outcome
       case Success(out) =>
         && |calls| == n && |out| == n
         && forall i :: 0 <= i < n ==>
              && host(i, calls[i]).Reply?
              && out[i] == GenerateOutput(param(i).generate, host(i, calls[i]).body)
       case Failure(e) =>
         && |calls| > 0
         && host(|calls| - 1, calls[|calls| - 1]).Rejected?
         && e == RequestFailed(host(|calls| - 1, calls[|calls| - 1]).message)
  }

  /** A failed run stays failed, with the same requests, when it is given
      more items. */
  lemma FailureStays(n: nat, param: nat -> ItemParameters, host: Host, e: NodeError, calls: seq<HttpCall>)
    requires n > 0 && GenerateOutcome(n - 1, param, host, Failure(e), calls)
    ensures GenerateOutcome(n, param, host, Failure(e), calls)
  {
  }

  /** A successful run over the first `n - 1` items, followed by a rejected
      request for item `n - 1`, fails with that rejection's message. */
  lemma ExtendRejected(n: nat, param: nat -> ItemParameters, host: Host, out: seq<ExecutionData>,
                       calls: seq<HttpCall>, message: string)
    requires n > 0 && GenerateOutcome(n - 1, param, host, Success(out), calls)
    requires host(n - 1, TtsCall(param(n - 1).generate)) == Rejected(message)
    ensures GenerateOutcome(n, param, host, Failure(RequestFailed(message)), calls + [TtsCall(param(n - 1).generate)])
  {
    var calls' := calls + [TtsCall(param(n - 1).generate)];
    assert forall i :: 0 <= i < n - 1 ==> calls'[i] == calls[i];
  }

  /** A successful run over the first `n - 1` items, followed by a reply
      to the request for item `n - 1`, succeeds with one more output item. */
  lemma ExtendReply(n: nat, param: nat -> ItemParameters, host: Host, out: seq<ExecutionData>,
                    calls: seq<HttpCall>, audio: Value)
    requires n > 0 && GenerateOutcome(n - 1, param, host, Success(out), calls)
    requires host(n - 1, TtsCall(param(n - 1).generate)) == Reply(audio)
    ensures GenerateOutcome(n, param, host, Success(out + [GenerateOutput(param(n - 1).generate, audio)]),
                            calls + [TtsCall(param(n - 1).generate)])
  {
    var calls' := calls + [TtsCall(param(n - 1).generate)];
    var out' := out + [GenerateOutput(param(n - 1).generate, audio)];
    assert forall i :: 0 <= i < n - 1 ==> calls'[i] == calls[i];
    assert forall i :: 0 <= i < n - 1 ==> out'[i] == out[i];
  }

  /** The speech run keeps every promise. */
  lemma {:induction false} SpeechRunMeetsOutcome(n: nat, param: nat -> ItemParameters, host: Host)
    ensures GenerateOutcome(n, param, host, SpeechRun(n, param, host).outcome, SpeechRun(n, param, host).calls)
  {
    if n > 0 {
      SpeechRunMeetsOutcome(n - 1, param, host);
      var prev := SpeechRun(n - 1, param, host);
      var p := param(n - 1).generate;
      match prev.outcome
      case Failure(e) =>
        FailureStays(n, param, host, e, prev.calls);
      case Success(out) =>
        match host(n - 1, TtsCall(p))
        case Rejected(message) =>
          ExtendRejected(n, param, host, out, prev.calls, message);
        case Reply(audio) =>
          ExtendReply(n, param, host, out, prev.calls, audio);
    }
  }

  /** The outcome of a speech run is determined by the item parameters and
      the host's replies: two runs that meet the promises agree. */
  lemma {:induction false} GenerateOutcomeUnique(n: nat, param: nat -> ItemParameters, host: Host,
                                                 r1: Result<seq<ExecutionData>, NodeError>, c1: seq<HttpCall>,
                                                 r2: Result<seq<ExecutionData>, NodeError>, c2: seq<HttpCall>)
    requires GenerateOutcome(n, param, host, r1, c1)
    requires GenerateOutcome(n, param, host, r2, c2)
    ensures c1 == c2 && r1 == r2
  {
    // the shorter list of calls is a prefix of the longer one, so the run
    // that stopped first met a rejection the other run got past
    if |c1| < |c2| {
      if r1.Success? {
        assert false;
      }
      assert false;
    } else if |c2| < |c1| {
      if r2.Success? {
        assert false;
      }
      assert false;
    }
    assert c1 == c2;
    if r1.Success? && r2.Success? {
      assert forall i :: 0 <= i < n ==> r1.value[i] == r2.value[i];
      assert r1.value == r2.value;
    } else if r1.Success? || r2.Success? {
      assert false;
    }
  }

  /** `executeSpeechGenerate`: for each item in turn, builds the request
      body, sends it, and appends the output item; a rejected request
      aborts the run. */
  method ExecuteSpeechGenerate(items: seq<Value>, param: nat -> ItemParameters, host: Host)
    returns (result: Result<seq<seq<ExecutionData>>, NodeError>, calls: seq<HttpCall>)
    ensures calls == SpeechRun(|items|, param, host).calls
    // the output items form the node's single output branch; an error is passed on
    ensures result.Success? <==> SpeechRun(|items|, param, host).outcome.Success?
    ensures result.Success? ==> result.value == [SpeechRun(|items|, param, host).outcome.value]
    ensures result.Failure? ==> result.error == SpeechRun(|items|, param, host).outcome.error
  {
    var returnData: seq<ExecutionData> := [];
    calls := [];
    var i := 0;
    while i < |items|
      invariant 0 <= i <= |items|
      invariant SpeechRun(i, param, host) == Run(Success(returnData), calls)
    {
      var p := param(i).generate;
      var call, response := SendSpeechRequest(host, i, p);
      SpeechRunStep(i, param, host, returnData, calls);
      calls := calls + [call];
      if response.Rejected? {
        RejectionEndsRun(i + 1, |items|, param, host);
        return Failure(RequestFailed(response.message)), calls;
      }
      returnData := returnData + [GenerateOutput(p, response.body)];
      i := i + 1;
    }
    result := Success([returnData]);
  }

  /** The request for the account's credit balance. */
  function CreditsCall(): (call: HttpCall)
    ensures call.credential == CredentialName
    ensures call.options.Keys == {"method", "baseURL", "url", "json"}
    ensures call.options["method"] == Str("GET") && call.options["url"] == Str("/wallet/self/api-credit")
    ensures "body" !in call.options && "qs" !in call.options
  {
    HttpCall(CredentialName, BaseOptions("GET", "/wallet/self/api-credit"))
  }

  /** What the credits handler produces: one request, and one output item
      whose JSON is the response, however many items came in. */
  ghost predicate CreditsOutcome(host: Host, result: Result<seq<seq<ExecutionData>>, NodeError>, calls: seq<HttpCall>)
  {
    && calls == [CreditsCall()]
    && match host(0, CreditsCall())
       case Reply(accountData) => result == Success([[ExecutionData(accountData, None)]])
       case Rejected(message) => result == Failure(RequestFailed(message))
  }

  /** `executeAccountGetCredits`. */
  method ExecuteAccountGetCredits(host: Host)
    returns (result: Result<seq<seq<ExecutionData>>, NodeError>, calls: seq<HttpCall>)
    ensures CreditsOutcome(host, result, calls)
  {
    var call, accountData := FishAudioApiRequest(host, 0, "GET", "/wallet/self/api-credit", None, None, map[]);
    PlainRequest("GET", "/wallet/self/api-credit");
    calls := [call];
    match accountData
    case Reply(body) =>
      result := Success([[ExecutionData(body, None)]]);
    case Rejected(message) =>
      result := Failure(RequestFailed(message));
  }

  /** `execute`: reads the resource and operation once, from item 0, and
      runs the selected handler over the whole batch; an unhandled pair is
      refused before any request is made. */
  method Execute(items: seq<Value>, param: nat -> ItemParameters, host: Host)
    returns (result: Result<seq<seq<ExecutionData>>, NodeError>, calls: seq<HttpCall>)
    ensures var route := Route(param(0).resource, param(0).operation);
            route.Failure? ==> result == Failure(route.error) && calls == []
    ensures Route(param(0).resource, param(0).operation) == Success(SpeechGenerate) ==>
              && calls == SpeechRun(|items|, param, host).calls
              && (result.Success? <==> SpeechRun(|items|, param, host).outcome.Success?)
              && (result.Success? ==> result.value == [SpeechRun(|items|, param, host).outcome.value])
              && (result.Failure? ==> result.error == SpeechRun(|items|, param, host).outcome.error)
    ensures Route(param(0).resource, param(0).operation) == Success(AccountGetCredits) ==>
              CreditsOutcome(host, result, calls)
  {
    var resource := param(0).resource;
    var operation := param(0).operation;
    var route := Route(resource, operation);
    match route
    case Failure(e) =>
      result, calls := Failure(e), [];
    case Success(SpeechGenerate) =>
      result, calls := ExecuteSpeechGenerate(items, param, host);
    case Success(AccountGetCredits) =>
      result, calls := ExecuteAccountGetCredits(host);
  }
}
