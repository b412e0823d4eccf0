# Fish Audio n8n node — Dafny model

This project models the executing core of the Fish Audio community node for n8n:

- the node's router (`execute`), which picks a handler from the `resource` and `operation` parameters of item 0;
- the text-to-speech handler (`executeSpeechGenerate`), which sends one `POST /v1/tts` request per input item and emits one output item per request;
- the credit-balance handler (`executeAccountGetCredits`);
- the shared request helper (`fishAudioApiRequest`) and its MIME type table;
- the voice picker's search (`voiceSearch`) and its display-name builder (`formatVoiceDisplayName`).

Modules follow the source files:

| file | module | models |
|---|---|---|
| `data_objects.dfy` | `DataObjects` | JavaScript values, `Option`/`Result`, truthiness of strings, the UTF-16 `length` of a string |
| `generic_functions.dfy` | `GenericFunctions` | `nodes/Fishaudio/GenericFunctions.ts` |
| `list_search.dfy` | `ListSearch` | `nodes/Fishaudio/methods/listSearch.ts` |
| `fishaudio_node.dfy` | `FishaudioNode` | `nodes/Fishaudio/Fishaudio.node.ts` |

The host is represented by parameters:

- the host's authenticated HTTP client is a function `host: (nat, HttpCall) -> HttpReply`. It maps the number of the call within one execution, and the request (credential name and request options), to a response body or a rejection with a message;
- `getNodeParameter` is a function `param: nat -> ItemParameters` from the item index to that item's parameters;
- `toLocaleString` is a function `fmt: int -> string`.

Code that updates state step by step is modelled imperatively:

- `FishAudioApiRequest` builds the request options by assigning fields;
- `BuildTtsBody` adds optional fields one by one;
- `FormatVoiceDisplayName` pushes onto a local list;
- `ExecuteSpeechGenerate` is the item loop.

Each of these methods is proved equal to a function that states its result, and the properties are proved about those functions.

The speech loop is specified by `SpeechRun`, the run over the first `n` items. `SpeechRunMeetsOutcome` proves the promises the handler makes:

- one request per item, in order;
- one output per item, in order;
- the run stops at the first rejected request and passes its error on.

`GenerateOutcomeUnique` shows that those promises determine the result completely.

`reference_id` is always in the request body and holds the resolved voice id, even when that id is empty (the voice parameter defaults to an empty locator, `nodes/Fishaudio/resources/speech/generate.ts:28`). `TtsBodyFields` states this. The handler has no error recovery: a rejected request ends the run with its error.

## Model

| member | source | states |
|---|---|---|
| DataObjects.Utf16Length | nodes/Fishaudio/Fishaudio.node.ts:136 | `text.length` counts UTF-16 code units: at least one and at most two per character |
| DataObjects.Utf16LengthIsCharCount | nodes/Fishaudio/Fishaudio.node.ts:136 | the reported `textLength` equals the number of characters exactly when every character is in the Basic Multilingual Plane |
| GenericFunctions.MimeTypesTable | nodes/Fishaudio/GenericFunctions.ts:11-16 | the MIME table has exactly the keys mp3, wav, opus, pcm, mapped to audio/mpeg, audio/wav, audio/opus, audio/pcm |
| GenericFunctions.MimeTypeFor | nodes/Fishaudio/Fishaudio.node.ts:132 | the table's type for a known format, `audio/mpeg` for any other; always one of the table's types |
| GenericFunctions.RequestOptions | nodes/Fishaudio/GenericFunctions.ts:26-40 | the keys are the four base options, the caller's options, and `body`/`qs` exactly when a non-empty object was given; caller options override the base options; a non-empty body or query replaces the caller's |
| GenericFunctions.PlainRequest | nodes/Fishaudio/GenericFunctions.ts:26-40 | with no body, query or overrides, the request is exactly method, baseURL, url and `json: true`, with no body and no qs |
| GenericFunctions.EmptyObjectsDropped | nodes/Fishaudio/GenericFunctions.ts:34-40 | passing `{}` as body or query is the same as passing nothing |
| GenericFunctions.FishAudioApiRequest | nodes/Fishaudio/GenericFunctions.ts:18-46 | the field-by-field assembly builds exactly `RequestOptions`; the request is sent once with the fixed credential `fishaudioApi`, and the host's reply is returned |
| ListSearch.MetaParts | nodes/Fishaudio/methods/listSearch.ts:17-24 | the nickname part exists iff the nickname is truthy and comes first; the usage part exists iff `task_count` is non-zero and reads "<count> uses" |
| ListSearch.DisplayName | nodes/Fishaudio/methods/listSearch.ts:16-27 | the name starts with the title; it equals the title iff there is no nickname and no non-zero count; otherwise the parts are joined with " · " in parentheses after a space |
| ListSearch.FormatVoiceDisplayName | nodes/Fishaudio/methods/listSearch.ts:16-27 | the push-based builder yields `DisplayName` |
| ListSearch.DisplayNameWithAuthorAndUsage | nodes/Fishaudio/methods/listSearch.ts:19-26 | with both parts, the name is `title (nickname · <count> uses)` |
| ListSearch.ZeroUsageOmitted | nodes/Fishaudio/methods/listSearch.ts:22 | a `task_count` of 0 gives the same name as a missing one |
| ListSearch.DisplayNameWithOnePart | nodes/Fishaudio/methods/listSearch.ts:19-26 | with one part, the parentheses hold only that part |
| ListSearch.VoiceSearchQuery | nodes/Fishaudio/methods/listSearch.ts:33-36 | the query has `page_size` 50 and a `title` key, which is the filter when it is non-empty and `undefined` otherwise |
| ListSearch.VoiceSearchRequest | nodes/Fishaudio/methods/listSearch.ts:33-36 | the search is a GET of `/model` with the fixed credential, the base options and the query, and no body |
| ListSearch.VoiceSearchResults | nodes/Fishaudio/methods/listSearch.ts:38-46 | no results without `items`; otherwise one result per voice, in order, with value = `_id`, url = `https://fish.audio/m/` + `_id`, and the display name |
| ListSearch.ToSearchResult | nodes/Fishaudio/methods/listSearch.ts:41-45 | one voice's entry: its display name, value = `_id`, url = `https://fish.audio/m/` + `_id` |
| ListSearch.ResultUrlNamesVoice | nodes/Fishaudio/methods/listSearch.ts:41-45 | the url of every result ends in its value, which is that voice's id |
| FishaudioNode.Route | nodes/Fishaudio/Fishaudio.node.ts:66-83 | a pair is handled iff it is (speech, generate) or (account, getCredits); any other pair fails with "Unsupported resource/operation: r/o" |
| FishaudioNode.RouteCoversOfferedResources | nodes/Fishaudio/Fishaudio.node.ts:45-56 | every handler is reached by its own pair, and the two offered resources are exactly the handled ones |
| FishaudioNode.VoiceModelNotRouted | nodes/Fishaudio/Fishaudio.node.ts:71-82 | every operation of the `voiceModel` resource is refused |
| FishaudioNode.TtsBody | nodes/Fishaudio/Fishaudio.node.ts:105-122 | the request body of one item; its promises are stated by `TtsBodyFields` |
| FishaudioNode.TtsBodyFields | nodes/Fishaudio/Fishaudio.node.ts:105-122 | text, reference_id and format are always present; latency iff truthy; prosody `{speed}`, sample_rate and normalize iff defined, with their values; no other keys |
| FishaudioNode.TtsBodyIgnoresUnsentOptions | nodes/Fishaudio/Fishaudio.node.ts:98-122 | model, temperature and topP never reach the body: changing them leaves it unchanged |
| FishaudioNode.BuildTtsBody | nodes/Fishaudio/Fishaudio.node.ts:105-122 | the field-by-field assembly yields `TtsBody` |
| FishaudioNode.TtsCall | nodes/Fishaudio/Fishaudio.node.ts:124-127 | the request for one item is made with the credential `fishaudioApi`, carries a body and no query; `TtsCallShape` and `TtsCallIsApiRequest` give the full options |
| FishaudioNode.TtsCallIsApiRequest | nodes/Fishaudio/Fishaudio.node.ts:124-127 | the per-item request is what the request helper builds from the body and the overrides `encoding: arraybuffer`, `json: false` |
| FishaudioNode.TtsCallShape | nodes/Fishaudio/Fishaudio.node.ts:124-127 | the request is a POST to `/v1/tts` at the API base URL with `json` off, `encoding` arraybuffer, the body, and no query |
| FishaudioNode.SendSpeechRequest | nodes/Fishaudio/Fishaudio.node.ts:105-127 | one item's body is built and sent as the item's call; the host's reply is returned |
| FishaudioNode.GenerateOutput | nodes/Fishaudio/Fishaudio.node.ts:129-138 | the output item of one input item has binary data under exactly the chosen field; `GenerateOutputFields` states its JSON and the file |
| FishaudioNode.GenerateOutputFields | nodes/Fishaudio/Fishaudio.node.ts:129-138 | the output JSON is `{format, voiceId, textLength}`; the audio is stored under exactly the chosen field, named `output.<format>`, with the table's MIME type |
| FishaudioNode.GenerateDefaults | nodes/Fishaudio/Fishaudio.node.ts:96-97 | with format and field unset, the body's format is mp3 and the audio is `output.mp3`, `audio/mpeg`, under `data` |
| FishaudioNode.SpeechRun | nodes/Fishaudio/Fishaudio.node.ts:90-141 | a run over `n` items makes at most `n` requests; a successful run makes exactly `n` and has exactly `n` outputs; a failed run made at least one; `SpeechRunMeetsOutcome` states its full promises |
| FishaudioNode.SpeechRunStep | nodes/Fishaudio/Fishaudio.node.ts:92-139 | after a successful prefix, the next item's request is made; a reply appends its output, a rejection ends the run with that error |
| FishaudioNode.RejectionEndsRun | nodes/Fishaudio/Fishaudio.node.ts:124-127 | once a request is rejected, later items change nothing: no further requests, the same error |
| FishaudioNode.FailureStays | nodes/Fishaudio/Fishaudio.node.ts:124-127 | a failed run keeps its promises when more items follow |
| FishaudioNode.ExtendRejected | nodes/Fishaudio/Fishaudio.node.ts:124-127 | a rejection after a successful prefix fails the run with the rejection's message, after exactly that one further request |
| FishaudioNode.ExtendReply | nodes/Fishaudio/Fishaudio.node.ts:124-138 | a reply after a successful prefix adds one request and one output, in order |
| FishaudioNode.SpeechRunMeetsOutcome | nodes/Fishaudio/Fishaudio.node.ts:90-141 | requests go out item by item in order; on success there is one output per input item, in order, each built from that item's reply; on failure the last request was rejected and its message is the error |
| FishaudioNode.GenerateOutcomeUnique | nodes/Fishaudio/Fishaudio.node.ts:90-141 | two runs that keep those promises agree on requests and result |
| FishaudioNode.ExecuteSpeechGenerate | nodes/Fishaudio/Fishaudio.node.ts:86-142 | the loop makes exactly the requests of `SpeechRun`; it succeeds iff the run does, with the run's outputs as the single output branch, and otherwise fails with the run's error |
| FishaudioNode.CreditsCall | nodes/Fishaudio/Fishaudio.node.ts:147-151 | the credits request is a GET of `/wallet/self/api-credit` with the credential `fishaudioApi`, exactly the four base options, no body and no query |
| FishaudioNode.ExecuteAccountGetCredits | nodes/Fishaudio/Fishaudio.node.ts:144-153 | one plain GET of `/wallet/self/api-credit`; its reply is the JSON of the single output item, however many items came in |
| FishaudioNode.Execute | nodes/Fishaudio/Fishaudio.node.ts:66-83 | resource and operation are read from item 0 only; an unhandled pair fails before any request; (speech, generate) makes the requests of `SpeechRun` over the whole batch and returns its outputs as one branch or its error; (account, getCredits) meets the credits handler's promises |

## Left out

- The HTTP client, `prepareBinaryData`, `Buffer` and async/await are host I/O. The client is the `host` parameter. The attached binary is modelled as the response body together with the file name and MIME type handed to `prepareBinaryData`. `prepareBinaryData` is taken never to reject, so in the model a run in which every request gets a reply always succeeds.
- `toLocaleString` depends on the locale, so it is the parameter `fmt`.
- Numbers (speed, sample rate, temperature, top-p, `task_count`, numbers in JSON) are IEEE doubles in the source. They are only passed through, so they are modelled as reals. `task_count` is modelled as an optional integer: a `NaN` count (falsy in JavaScript) is not modelled.
- The cast of the search response to `VoiceListResponse` is taken as given: `VoiceSearchResults` takes the typed response, and decoding an arbitrary body is not modelled.
- `MIME_TYPES[format]` on an inherited `Object.prototype` key (such as `constructor`) is not modelled. Such a key is treated like any unknown format.
- `getNodeParameter` throwing for a missing parameter is not modelled: `param` is total.
- The 32-hexadecimal-character voice-id check in `nodes/Fishaudio/resources/speech/generate.ts` is applied by the host, not by this code.
- The parameter schemas under `nodes/Fishaudio/resources/` only declare UI fields. Their `model`, `temperature` and `topP` settings appear only as parameters that are never read.
- `credentials/FishaudioApi.credentials.ts` configures the host's authentication. It is represented only by the credential name.
- `nodes/Fishaudio/methods/index.ts` only re-exports `voiceSearch`.
- Pagination, multipart upload, tag splitting, transcription and the voice-model operations have no executing code in these files. The router refuses those operations (`VoiceModelNotRouted`).
- FishaudioNode.ExecuteSpeechGenerate: states its result through `SpeechRun`; the per-item promises are proved about `SpeechRun` by `SpeechRunMeetsOutcome` rather than repeated in the method's own contract.
