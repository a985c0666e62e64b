/**
 * The remote endpoint client (class MCPServerPlugin in
 * backend/open_webui/utils/mcp_plugin.py). Each HTTP call is an application
 * of a `Remote`, a function from the request the client builds to the
 * response the server gives, so the URL, headers and payload sent are part
 * of every contract.
 */
module McpPlugin {
  import opened Wrappers
  import opened PyJson

  newtype byte = x: int | 0 <= x < 256
  type Bytes = seq<byte>

  datatype HttpRequest =
    | HttpGet(url: string, headers: map<string, string>, timeout: nat)
    | HttpPost(url: string, headers: map<string, string>, payload: Json, stream: bool, timeout: nat)

  /**
   * The outcome of one HTTP call: no response at all (connection error,
   * timeout), or a status with a body. The body is seen either as parsed
   * JSON (None when it is not valid JSON) or as the lines of a stream.
   */
  datatype HttpResponse =
    | NoResponse
    | Response(status: int, json: Option<Json>, lines: seq<Bytes>)

  type Remote = HttpRequest -> HttpResponse

  const ModelsPath := "/v1/models"
  const ChatPath := "/v1/chat/completions"

  /** `raise_for_status` raises for client (4xx) and server (5xx) errors only. */
  predicate IsHttpError(status: int)
  {
    400 <= status < 600
  }

  /** A call the client treats as successful: some response, and not a 4xx or 5xx one. */
  predicate Succeeded(resp: HttpResponse)
  {
    resp.Response? && !IsHttpError(resp.status)
  }

  /** `if api_key:` for an optional string key. */
  predicate KeyTruthy(apiKey: Option<string>)
  {
    apiKey.Some? && apiKey.value != ""
  }

  /** The headers after the conditional `headers["Authorization"] = f"Bearer {api_key}"`. */
  function AuthHeaders(base: map<string, string>, apiKey: Option<string>): map<string, string>
  {
    if KeyTruthy(apiKey) then base["Authorization" := "Bearer " + apiKey.value] else base
  }

  /** Builds the header dictionary in place, as each of the three calls does. */
  method BuildHeaders(base: map<string, string>, apiKey: Option<string>) returns (headers: map<string, string>)
    ensures headers == AuthHeaders(base, apiKey)
  {
    headers := base;
    if apiKey.Some? && apiKey.value != "" {
      headers := headers["Authorization" := "Bearer " + apiKey.value];
    }
  }

  /**
   * The bearer rule: starting from a base without an Authorization entry, the
   * header is present exactly when the key is truthy, it then reads
   * "Bearer <key>", and every other header is left as it was.
   */
  lemma BearerHeaderRule(base: map<string, string>, apiKey: Option<string>)
    requires "Authorization" !in base
    ensures "Authorization" in AuthHeaders(base, apiKey) <==> KeyTruthy(apiKey)
    ensures KeyTruthy(apiKey) ==> AuthHeaders(base, apiKey)["Authorization"] == "Bearer " + apiKey.value
    ensures AuthHeaders(base, apiKey).Keys - {"Authorization"} == base.Keys
    ensures forall h :: h in base ==> AuthHeaders(base, apiKey)[h] == base[h]
  {
  }

  // ---------------------------------------------------------------------
  // verify_connection

  /** The connectivity probe: GET {url}/v1/models with a 5 second timeout. */
  function ProbeRequest(url: string, apiKey: Option<string>): HttpRequest
  {
    HttpGet(url + ModelsPath, AuthHeaders(map[], apiKey), 5)
  }

  /** True exactly when the probe got a response that is not 4xx or 5xx; every failure is False. */
  method VerifyConnection(url: string, apiKey: Option<string>, remote: Remote) returns (ok: bool)
    ensures ok <==> Succeeded(remote(ProbeRequest(url, apiKey)))
  {
    var headers := BuildHeaders(map[], apiKey);
    var response := remote(HttpGet(url + ModelsPath, headers, 5));
    if response.NoResponse? {
      return false;
    }
    if IsHttpError(response.status) {
      return false;
    }
    return true;
  }

  // ---------------------------------------------------------------------
  // get_models: one formatted model per entry of the remote's `data` array

  datatype Capabilities = Capabilities(chat: bool, vision: Json, tools: Json)
  datatype Meta = Meta(profileImageUrl: string, description: Json, capabilities: Capabilities)

  /** A model as the listing formats it (the dictionary built at mcp_plugin.py:77-93). */
  datatype Model = Model(
    id: Json,
    name: Json,
    objectType: string,
    created: Json,
    ownedBy: string,
    mcp: Json,
    meta: Meta)

  const DefaultDescription := "Modelo MCP"
  const ProfileImageUrl := "/static/favicon.png"

  /**
   * Formats one raw entry; None when the code would raise: the entry is not a
   * dictionary, or its `capabilities` is present but not a dictionary.
   */
  function FormatModel(entry: Json): Option<Model>
  {
    match entry
    case JObject(m) =>
      var caps := Get(m, "capabilities", JObject(map[]));
      if !caps.JObject? then None
      else
        var id := Get(m, "id", JString(""));
        Some(Model(
          id,
          Get(m, "name", id),
          "model",
          Get(m, "created", JInt(0)),
          "mcp",
          entry,
          Meta(
            ProfileImageUrl,
            Get(m, "description", JString(DefaultDescription)),
            Capabilities(true, Get(caps.fields, "vision", JBool(false)), Get(caps.fields, "tools", JBool(false))))))
    case _ => None
  }

  /** The defaults of the formatted fields, for every entry that formats. */
  lemma FormatModelDefaults(entry: Json)
    requires FormatModel(entry).Some?
    ensures var m := FormatModel(entry).value;
      && entry.JObject?
      && m.id == Get(entry.fields, "id", JString(""))
      && ("name" in entry.fields ==> m.name == entry.fields["name"])
      && ("name" !in entry.fields ==> m.name == m.id)
      && ("id" !in entry.fields && "name" !in entry.fields ==> m.name == JString(""))
      && ("created" in entry.fields ==> m.created == entry.fields["created"])
      && ("created" !in entry.fields ==> m.created == JInt(0))
      && m.objectType == "model" && m.ownedBy == "mcp"
      && m.mcp == entry
      && ("description" in entry.fields ==> m.meta.description == entry.fields["description"])
      && ("description" !in entry.fields ==> m.meta.description == JString(DefaultDescription))
      && m.meta.profileImageUrl == "/static/favicon.png"
      && m.meta.capabilities.chat
      && ("capabilities" !in entry.fields ==> m.meta.capabilities.vision == JBool(false) && m.meta.capabilities.tools == JBool(false))
      && ("capabilities" in entry.fields ==>
            var caps := entry.fields["capabilities"].fields;
            && m.meta.capabilities.vision == (if "vision" in caps then caps["vision"] else JBool(false))
            && m.meta.capabilities.tools == (if "tools" in caps then caps["tools"] else JBool(false)))
  {
  }

  /** An entry formats exactly when it is a dictionary whose `capabilities`, if present, is a dictionary. */
  lemma FormatModelSucceeds(entry: Json)
    ensures FormatModel(entry).Some? <==>
      entry.JObject? && ("capabilities" in entry.fields ==> entry.fields["capabilities"].JObject?)
  {
  }

  /** The formatting loop: None as soon as one entry fails (the loop raises). */
  function FormatAll(entries: seq<Json>): Option<seq<Model>>
  {
    if entries == [] then Some([])
    else
      match FormatAll(entries[..|entries| - 1])
      case None => None
      case Some(ms) =>
        match FormatModel(entries[|entries| - 1])
        case None => None
        case Some(m) => Some(ms + [m])
  }

  /** FormatAll succeeds exactly when every entry formats, and then gives one model per entry, in order. */
  lemma {:induction false} FormatAllOnePerEntry(entries: seq<Json>)
    ensures FormatAll(entries).Some? <==> forall i :: 0 <= i < |entries| ==> FormatModel(entries[i]).Some?
    ensures FormatAll(entries).Some? ==>
      |FormatAll(entries).value| == |entries|
      && forall i :: 0 <= i < |entries| ==> FormatModel(entries[i]) == Some(FormatAll(entries).value[i])
  {
    if entries != [] {
      var init := entries[..|entries| - 1];
      FormatAllOnePerEntry(init);
      assert forall i :: 0 <= i < |init| ==> init[i] == entries[i];
    }
  }

  /** A failure in a prefix is a failure of the whole loop. */
  lemma {:induction false} FormatAllFailurePersists(entries: seq<Json>, n: nat)
    requires n <= |entries|
    requires FormatAll(entries[..n]).None?
    ensures FormatAll(entries).None?
  {
    if n < |entries| {
      assert entries[..|entries| - 1][..n] == entries[..n];
      FormatAllFailurePersists(entries[..|entries| - 1], n);
    } else {
      assert entries[..n] == entries;
    }
  }

  /** The listing call: GET {url}/v1/models with a 10 second timeout. */
  function ListingRequest(url: string, apiKey: Option<string>): HttpRequest
  {
    HttpGet(url + ModelsPath, AuthHeaders(map[], apiKey), 10)
  }

  /**
   * The entries the formatting loop walks, or None when the call fails before
   * the loop (no response, a 4xx/5xx status, a body that is not JSON or not a
   * dictionary). A `data` that is not a list also ends in an empty result:
   * iterating a dict or a string meets keys or characters, which have no
   * `.get`, other scalars are not iterable, and an empty one gives nothing.
   */
  function ListingEntries(resp: HttpResponse): Option<seq<Json>>
  {
    if !Succeeded(resp) then None
    else match resp.json
      case None => None
      case Some(body) =>
        if !body.JObject? then None
        else match Get(body.fields, "data", JArray([]))
          case JArray(entries) => Some(entries)
          case _ => None
  }

  /** What get_models returns: the formatted entries, or [] on any failure. */
  function ListModels(url: string, apiKey: Option<string>, remote: Remote): seq<Model>
  {
    match ListingEntries(remote(ListingRequest(url, apiKey)))
    case None => []
    case Some(entries) =>
      match FormatAll(entries)
      case None => []
      case Some(ms) => ms
  }

  /** get_models: the request, then the formatting loop with `append`. */
  method GetModels(url: string, apiKey: Option<string>, remote: Remote) returns (formatted: seq<Model>)
    ensures formatted == ListModels(url, apiKey, remote)
  {
    var headers := BuildHeaders(map[], apiKey);
    var response := remote(HttpGet(url + ModelsPath, headers, 10));
    var data := ListingEntries(response);
    if data.None? {
      return [];
    }
    var entries := data.value;
    formatted := [];
    var i := 0;
    while i < |entries|
      invariant 0 <= i <= |entries|
      invariant FormatAll(entries[..i]) == Some(formatted)
    {
      var m := FormatModel(entries[i]);
      assert entries[..i + 1][..i] == entries[..i];
      if m.None? {
        FormatAllFailurePersists(entries, i + 1);
        return [];
      }
      formatted := formatted + [m.value];
      i := i + 1;
    }
    assert entries[..i] == entries;
  }

  /**
   * get_models returns one formatted model per `data` entry, in the same
   * order, when the call succeeds and every entry formats; otherwise [].
   */
  lemma ListModelsOnePerEntry(url: string, apiKey: Option<string>, remote: Remote)
    ensures var data := ListingEntries(remote(ListingRequest(url, apiKey)));
      var ms := ListModels(url, apiKey, remote);
      if data.Some? && forall i :: 0 <= i < |data.value| ==> FormatModel(data.value[i]).Some?
      then |ms| == |data.value| && forall i :: 0 <= i < |ms| ==> Some(ms[i]) == FormatModel(data.value[i])
      else ms == []
  {
    var data := ListingEntries(remote(ListingRequest(url, apiKey)));
    if data.Some? {
      FormatAllOnePerEntry(data.value);
    }
  }

  // ---------------------------------------------------------------------
  // create_chat_completion

  /** The parameter names of create_chat_completion; `**kwargs` can never hold one of them. */
  const DeclaredParams: set<string> := {"self", "url", "api_key", "model", "messages", "stream"}

  /** `{"model": model, "messages": messages, "stream": stream, **kwargs}`, with `messages=None` read as []. */
  function ChatPayload(model: Json, messages: Json, stream: Json, kwargs: map<string, Json>): Json
  {
    JObject(kwargs + map["model" := model, "messages" := if messages == JNull then JArray([]) else messages, "stream" := stream])
  }

  /** The payload holds the three explicit arguments and every keyword argument, and nothing else. */
  lemma ChatPayloadContents(model: Json, messages: Json, stream: Json, kwargs: map<string, Json>)
    requires kwargs.Keys !! DeclaredParams
    ensures var p := ChatPayload(model, messages, stream, kwargs).fields;
      && p.Keys == kwargs.Keys + {"model", "messages", "stream"}
      && p["model"] == model && p["stream"] == stream
      && p["messages"] == (if messages == JNull then JArray([]) else messages)
      && forall k :: k in kwargs ==> p[k] == kwargs[k]
  {
  }

  /** POST {url}/v1/chat/completions with a 60 second timeout. */
  function ChatRequest(url: string, apiKey: Option<string>, model: Json, messages: Json, stream: Json, kwargs: map<string, Json>): HttpRequest
  {
    HttpPost(url + ChatPath, AuthHeaders(map["Content-Type" := "application/json"], apiKey),
         ChatPayload(model, messages, stream, kwargs), Truthy(stream), 60)
  }

  datatype ChatResult = Completed(body: Json) | Lines(lines: seq<Bytes>)

  /** Why a completion call failed; the plugin re-raises every one of them. */
  datatype PluginFailure = ConnectionFailed | HttpStatus(status: int) | InvalidJson

  /** What create_chat_completion makes of the response. */
  function ChatOutcome(resp: HttpResponse, stream: bool): (r: Result<ChatResult, PluginFailure>)
    ensures resp.NoResponse? ==> r == Err(ConnectionFailed)
    ensures resp.Response? && IsHttpError(resp.status) ==> r == Err(HttpStatus(resp.status))
    ensures r.Ok? <==> Succeeded(resp) && (stream || resp.json.Some?)
    ensures r.Ok? && stream ==> r.value == Lines(resp.lines)
    ensures r.Ok? && !stream ==> r.value == Completed(resp.json.value)
  {
    if resp.NoResponse? then Err(ConnectionFailed)
    else if IsHttpError(resp.status) then Err(HttpStatus(resp.status))
    else if stream then Ok(Lines(resp.lines))
    else match resp.json
      case None => Err(InvalidJson)
      case Some(j) => Ok(Completed(j))
  }

  /**
   * create_chat_completion. Python binds a keyword argument named after a
   * declared parameter to that parameter, so `kwargs` never holds one.
   */
  method CreateChatCompletion(url: string, apiKey: Option<string>, model: Json, messages: Json, stream: Json,
                              kwargs: map<string, Json>, remote: Remote)
    returns (r: Result<ChatResult, PluginFailure>)
    requires kwargs.Keys !! DeclaredParams
    ensures r == ChatOutcome(remote(ChatRequest(url, apiKey, model, messages, stream, kwargs)), Truthy(stream))
  {
    var msgs := messages;
    if msgs == JNull {
      msgs := JArray([]);
    }
    var headers := BuildHeaders(map["Content-Type" := "application/json"], apiKey);
    var payload := JObject(kwargs + map["model" := model, "messages" := msgs, "stream" := stream]);
    var response := remote(HttpPost(url + ChatPath, headers, payload, Truthy(stream), 60));
    if response.NoResponse? {
      return Err(ConnectionFailed);
    }
    if IsHttpError(response.status) {
      return Err(HttpStatus(response.status));
    }
    if Truthy(stream) {
      return Ok(Lines(response.lines));
    }
    if response.json.None? {
      return Err(InvalidJson);
    }
    return Ok(Completed(response.json.value));
  }

  // ---------------------------------------------------------------------
  // get_model_config_template and convert_to_openai_format

  datatype ConfigTemplate = ConfigTemplate(
    enabled: bool,
    baseUrls: seq<string>,
    apiKeys: map<string, Json>,
    apiConfigs: map<string, Json>)

  /** The configuration template: the API disabled, no URLs, no keys, no per-endpoint settings. */
  function GetModelConfigTemplate(): (t: ConfigTemplate)
    ensures !t.enabled && t.baseUrls == [] && t.apiKeys == map[] && t.apiConfigs == map[]
  {
    ConfigTemplate(false, [], map[], map[])
  }

  /** The host's ModelMeta record, kept as the three values passed to it. */
  datatype ModelMeta = ModelMeta(profileImageUrl: string, description: Json, capabilities: map<string, Json>)

  /** The host's ModelParams record, built with no arguments. */
  datatype ModelParams = DefaultModelParams

  datatype OpenAiModel = OpenAiModel(
    id: Json,
    name: Json,
    objectType: string,
    created: Json,
    ownedBy: string,
    mcp: Json,
    meta: ModelMeta,
    params: ModelParams)

  /** convert_to_openai_format; None when it raises (the same cases as FormatModel). */
  function ConvertToOpenAiFormat(modelData: Json): Option<OpenAiModel>
  {
    if !modelData.JObject? then None
    else
      var m := modelData.fields;
      var caps := Get(m, "capabilities", JObject(map[]));
      if !caps.JObject? then None
      else
        Some(OpenAiModel(
          Get(m, "id", JString("")),
          Get(m, "name", Get(m, "id", JString(""))),
          "model",
          Get(m, "created", JInt(0)),
          "mcp",
          modelData,
          ModelMeta(
            ProfileImageUrl,
            Get(m, "description", JString(DefaultDescription)),
            map["chat" := JBool(true),
                "vision" := Get(caps.fields, "vision", JBool(false)),
                "tools" := Get(caps.fields, "tools", JBool(false))]),
          DefaultModelParams))
  }

  /**
   * convert_to_openai_format and the get_models formatting agree: they fail on
   * the same entries and compute the same id, name, created, description and
   * capabilities, with the same defaults.
   */
  lemma ConvertAgreesWithListing(entry: Json)
    ensures ConvertToOpenAiFormat(entry).Some? <==> FormatModel(entry).Some?
    ensures FormatModel(entry).Some? ==>
      var c := ConvertToOpenAiFormat(entry).value;
      var f := FormatModel(entry).value;
      && c.id == f.id && c.name == f.name && c.created == f.created
      && c.objectType == f.objectType && c.ownedBy == f.ownedBy && c.mcp == f.mcp
      && c.meta.profileImageUrl == f.meta.profileImageUrl
      && c.meta.description == f.meta.description
      && c.meta.capabilities == map["chat" := JBool(f.meta.capabilities.chat),
                                   "vision" := f.meta.capabilities.vision,
                                   "tools" := f.meta.capabilities.tools]
  {
  }
}
