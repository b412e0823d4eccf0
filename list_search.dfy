/** The searchable voice list of the node's voice picker: the query sent to
    the model-list endpoint and the mapping of the returned voice models to
    picker entries with a human-readable display name. */
module ListSearch {
  import opened DataObjects
  import opened GenericFunctions

  datatype Author = Author(nickname: Option<string>)

  /** A voice model as the list endpoint returns it. */
  datatype VoiceModel = VoiceModel(id: string, title: string, taskCount: Option<int>, author: Option<Author>)

  /** The list endpoint's response; `items` may be missing. */
  datatype VoiceListResponse = VoiceListResponse(items: Option<seq<VoiceModel>>, total: int)

  /** One entry of the picker: display name, voice id and the voice's web page. */
  datatype SearchResult = SearchResult(name: string, value: string, url: string)

  /** The separator between the parts of the parenthesised meta list: a middle dot with a space on each side. */
  const MetaSeparator := " \U{B7} "

  const VoicePageUrl := "https://fish.audio/m/"

  const SearchPageSize := 50

  /** `Array.prototype.join`. */
  function Join(parts: seq<string>, sep: string): string {
    if |parts| == 0 then ""
    else if |parts| == 1 then parts[0]
    else parts[0] + sep + Join(parts[1..], sep)
  }

  /** `voice.author?.nickname` is truthy. */
  predicate HasNickname(voice: VoiceModel) {
    voice.author.Some? && TruthyString(voice.author.value.nickname)
  }

  /** `voice.task_count` is truthy: present and not zero. */
  predicate HasUsage(voice: VoiceModel) {
    voice.taskCount.Some? && voice.taskCount.value != 0
  }

  /** The meta parts of a display name: the author's nickname, then the usage
      count rendered by `fmt` (the host's `toLocaleString`) followed by " uses". */
  function MetaParts(voice: VoiceModel, fmt: int -> string): (meta: seq<string>)
    ensures |meta| == (if HasNickname(voice) then 1 else 0) + (if HasUsage(voice) then 1 else 0)
    ensures HasNickname(voice) ==> meta[0] == voice.author.value.nickname.value
    ensures HasUsage(voice) ==> meta[|meta| - 1] == fmt(voice.taskCount.value) + " uses"
  {
    (if HasNickname(voice) then [voice.author.value.nickname.value] else [])
    + (if HasUsage(voice) then [fmt(voice.taskCount.value) + " uses"] else [])
  }

  /** The display name of a voice: its title, followed by the meta parts in
      parentheses when there are any. */
  function DisplayName(voice: VoiceModel, fmt: int -> string): (name: string)
    ensures voice.title <= name
    ensures name == voice.title <==> !HasNickname(voice) && !HasUsage(voice)
    ensures name != voice.title ==> name == voice.title + " (" + Join(MetaParts(voice, fmt), MetaSeparator) + ")"
  {
    var meta := MetaParts(voice, fmt);
    if |meta| > 0 then voice.title + " (" + Join(meta, MetaSeparator) + ")" else voice.title
  }

  /** `formatVoiceDisplayName`: collects the meta parts by pushing onto a
      local array, then wraps them after the title. */
  method FormatVoiceDisplayName(voice: VoiceModel, fmt: int -> string) returns (name: string)
    ensures name == DisplayName(voice, fmt)
  {
    var meta: seq<string> := [];
    if voice.author.Some? && voice.author.value.nickname.Some? && voice.author.value.nickname.value != "" {
      meta := meta + [voice.author.value.nickname.value];
    }
    if voice.taskCount.Some? && voice.taskCount.value != 0 {
      meta := meta + [fmt(voice.taskCount.value) + " uses"];
    }
    if |meta| > 0 {
      name := voice.title + " (" + Join(meta, MetaSeparator) + ")";
    } else {
      name := voice.title;
    }
  }

  /** With both a nickname and a non-zero usage count, the nickname comes
      first and the two are joined by the separator. */
  lemma DisplayNameWithAuthorAndUsage(voice: VoiceModel, fmt: int -> string)
    requires HasNickname(voice) && HasUsage(voice)
    ensures DisplayName(voice, fmt)
         == voice.title + " (" + voice.author.value.nickname.value + MetaSeparator
            + fmt(voice.taskCount.value) + " uses)"
  {
    var meta := MetaParts(voice, fmt);
    assert Join(meta, MetaSeparator) == meta[0] + MetaSeparator + meta[1];
  }

  /** A usage count of zero is treated exactly like a missing one. */
  lemma ZeroUsageOmitted(voice: VoiceModel, fmt: int -> string)
    ensures DisplayName(voice.(taskCount := Some(0)), fmt) == DisplayName(voice.(taskCount := None), fmt)
  {
  }

  /** With only one of the two meta parts, the parentheses hold just that part. */
  lemma DisplayNameWithOnePart(voice: VoiceModel, fmt: int -> string)
    ensures HasNickname(voice) && !HasUsage(voice) ==>
              DisplayName(voice, fmt) == voice.title + " (" + voice.author.value.nickname.value + ")"
    ensures !HasNickname(voice) && HasUsage(voice) ==>
              DisplayName(voice, fmt) == voice.title + " (" + fmt(voice.taskCount.value) + " uses)"
  {
  }

  /** The query of a voice search: a fixed page size, and the filter as the
      title, or `undefined` when the filter is missing or empty. */
  function VoiceSearchQuery(filter: Option<string>): (qs: DataObject)
    ensures qs.Keys == {"page_size", "title"}
    ensures qs["page_size"] == Num(SearchPageSize as real)
    ensures qs["title"] == if TruthyString(filter) then Str(filter.value) else Undefined
  {
    map["page_size" := Num(SearchPageSize as real),
        "title" := if filter.Some? && filter.value != "" then Str(filter.value) else Undefined]
  }

  /** The request `voiceSearch` sends: a GET of the model list with the query. */
  function VoiceSearchRequest(filter: Option<string>): (call: HttpCall)
    ensures call.credential == CredentialName
    // exactly the base options plus the query: the title key is present even
    // when undefined, so the query is never dropped, and there is no body
    ensures call.options == BaseOptions("GET", "/model")["qs" := Obj(VoiceSearchQuery(filter))]
  {
    var qs := VoiceSearchQuery(filter);
    assert HasKeys(Some(qs)) by { assert "page_size" in qs; }
    HttpCall(CredentialName, RequestOptions("GET", "/model", None, Some(qs), map[]))
  }

  /** The picker entry of one voice. */
  function ToSearchResult(voice: VoiceModel, fmt: int -> string): (r: SearchResult)
    ensures r.value == voice.id && r.url == VoicePageUrl + voice.id
    ensures r.name == DisplayName(voice, fmt)
  {
    SearchResult(DisplayName(voice, fmt), voice.id, VoicePageUrl + voice.id)
  }

  /** The picker entries for a response: one per returned voice, in order;
      none when the response has no `items`. */
  function VoiceSearchResults(response: VoiceListResponse, fmt: int -> string): (results: seq<SearchResult>)
    ensures response.items.None? ==> results == []
    ensures response.items.Some? ==> |results| == |response.items.value|
    ensures forall i :: 0 <= i < |results| ==>
              && results[i].value == response.items.value[i].id
              && results[i].url == VoicePageUrl + results[i].value
              && results[i].name == DisplayName(response.items.value[i], fmt)
  {
    var voices := response.items.GetOr([]);
    seq(|voices|, i requires 0 <= i < |voices| => ToSearchResult(voices[i], fmt))
  }

  /** Every entry's voice id can be read back from its URL. */
  lemma {:induction false} ResultUrlNamesVoice(response: VoiceListResponse, fmt: int -> string, i: nat)
    requires i < |VoiceSearchResults(response, fmt)|
    ensures var r := VoiceSearchResults(response, fmt)[i];
            r.url[|VoicePageUrl|..] == r.value == response.items.value[i].id
  {
    var r := VoiceSearchResults(response, fmt)[i];
    assert r.url == VoicePageUrl + r.value;
  }
}
