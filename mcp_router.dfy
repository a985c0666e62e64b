/**
 * The MCP router (backend/open_webui/routers/mcp.py): the shared
 * configuration and model catalog, the catalog refresh behind GET /models,
 * the pruning done by POST /config/update, and the lookup, routing and
 * stream framing of POST /chat/completions.
 *
 * Each operation has a pure specification on a value view of the state
 * (`StateView`); the methods of McpState run the source's loops and
 * in-place updates on objects and are proved to follow those functions.
 */
module McpRouter {
  import opened Wrappers
  import opened PyJson
  import opened McpPlugin
  import opened McpCatalog

  // ---------------------------------------------------------------------
  // Configuration

  /**
   * The three configuration attributes, each possibly never set
   * (`hasattr(request.app.state.config, ...)` is false).
   */
  datatype McpConfig = McpConfig(
    enabled: Option<bool>,
    baseUrls: Option<seq<string>>,
    apiConfigs: Option<map<string, Json>>)

  /** `hasattr(config, "ENABLE_MCP_API") and config.ENABLE_MCP_API` */
  predicate Enabled(c: McpConfig)
  {
    c.enabled == Some(true)
  }

  /** The body of POST /config/update. */
  datatype ConfigForm = ConfigForm(enabled: bool, baseUrls: seq<string>, apiConfigs: map<string, Json>)

  /** `list(map(str, range(n)))` */
  function IndexKeys(n: nat): seq<string>
  {
    seq(n, (i: int) requires 0 <= i => NatToString(i))
  }

  /** k is the decimal form of an index below n. */
  predicate IsIndexKey(k: string, n: nat)
  {
    exists i: nat :: i < n && k == NatToString(i)
  }

  lemma InIndexKeys(n: nat, k: string)
    ensures k in IndexKeys(n) <==> IsIndexKey(k, n)
  {
    if k in IndexKeys(n) {
      var j :| 0 <= j < n && IndexKeys(n)[j] == k;
      assert k == NatToString(j);
    }
    if IsIndexKey(k, n) {
      var i: nat :| i < n && k == NatToString(i);
      assert IndexKeys(n)[i] == k;
    }
  }

  lemma IndexKeysMembership(n: nat)
    ensures forall k :: k in IndexKeys(n) <==> IsIndexKey(k, n)
  {
    forall k ensures k in IndexKeys(n) <==> IsIndexKey(k, n) {
      InIndexKeys(n, k);
    }
  }

  /** update_config's dict comprehension: keep the entries whose key is `str(i)` for a valid index i. */
  function PruneConfigs(configs: map<string, Json>, n: nat): (r: map<string, Json>)
    ensures forall k :: k in r <==> k in configs && IsIndexKey(k, n)
    ensures forall k :: k in r ==> r[k] == configs[k]
  {
    IndexKeysMembership(n);
    map k | k in configs && k in IndexKeys(n) :: configs[k]
  }

  /** The configuration update_config stores. */
  function FormConfig(form: ConfigForm): McpConfig
  {
    McpConfig(Some(form.enabled), Some(form.baseUrls), Some(PruneConfigs(form.apiConfigs, |form.baseUrls|)))
  }

  /** The example of a two-URL list and settings keyed "0", "1" and "2": only "0" and "1" stay. */
  lemma PruneConfigsExample(a: Json, b: Json, c: Json)
    ensures PruneConfigs(map["0" := a, "1" := b, "2" := c], 2) == map["0" := a, "1" := b]
  {
    assert NatToString(0) == "0" && NatToString(1) == "1";
    var r := PruneConfigs(map["0" := a, "1" := b, "2" := c], 2);
    assert "2" !in r by {
      forall i | 0 <= i < 2 ensures "2" != NatToString(i) {
      }
    }
  }

  /** A key with a leading zero, such as "01", is not the decimal form of an index and is dropped. */
  lemma PruneDropsNonCanonicalKeys(configs: map<string, Json>, n: nat, k: string)
    requires |k| > 1 && k[0] == '0'
    ensures k !in PruneConfigs(configs, n)
  {
  }

  // ---------------------------------------------------------------------
  // The api key of an endpoint

  /** Why the router fails where the source raises. */
  datatype Cause =
    | MissingBaseUrls           // config.MCP_BASE_URLS was never set (AttributeError)
    | ApiConfigNotObject        // the settings of the endpoint are not a dict (AttributeError on .get)
    | BodyNotObject             // the request body is not a JSON object
    | UnhashableModelId         // the model id is a list or a dict (TypeError)
    | StaleEndpointIndex        // urls[0] is no longer an index of MCP_BASE_URLS (IndexError)
    | DuplicateKeywordArgument  // the body holds "self", "url" or "api_key" (TypeError)
    | Upstream(failure: PluginFailure)

  /**
   * The key passed to the plugin for a configured `api_key` value: a falsy
   * value sends no header, a scalar one its text.
   */
  function ApiKeyText(j: Json): Option<string>
  {
    if Truthy(j) then ScalarText(j) else None
  }

  /** `MCP_API_CONFIGS.get(str(idx), {}).get("api_key", None)`, when MCP_API_CONFIGS exists. */
  function ApiKeyFor(configs: Option<map<string, Json>>, idx: nat): Result<Option<string>, Cause>
  {
    match configs
    case None => Ok(None)
    case Some(m) =>
      match Get(m, NatToString(idx), JObject(map[]))
      case JObject(settings) => Ok(ApiKeyText(Get(settings, "api_key", JNull)))
      case _ => Err(ApiConfigNotObject)
  }

  /** A scalar api key is sent as a bearer header exactly when it is truthy. */
  lemma ScalarApiKeyHeader(j: Json)
    requires !j.JArray? && !j.JObject?
    ensures KeyTruthy(ApiKeyText(j)) <==> Truthy(j)
  {
  }

  /**
   * After pruning to n URLs, the key of every index below n is looked up as
   * before, and no index at or beyond n finds any settings.
   */
  lemma PrunedApiKeyLookup(configs: map<string, Json>, n: nat, idx: nat)
    ensures idx < n ==> ApiKeyFor(Some(PruneConfigs(configs, n)), idx) == ApiKeyFor(Some(configs), idx)
    ensures idx >= n ==> ApiKeyFor(Some(PruneConfigs(configs, n)), idx) == Ok(None)
  {
    var pruned := PruneConfigs(configs, n);
    if idx >= n && NatToString(idx) in pruned {
      var i: nat :| i < n && NatToString(idx) == NatToString(i);
      NatToStringInjective(idx, i);
    }
  }

  // ---------------------------------------------------------------------
  // The catalog refresh (get_all_models)

  /** The state the router reads and writes: the configuration, whether MCP_MODELS exists, and the catalog. */
  datatype StateView = StateView(config: McpConfig, hasCatalog: bool, cat: CatalogView)

  /** What endpoint idx yields: skipped when its settings cannot be read, else the plugin's listing. */
  function EndpointOutcome(configs: Option<map<string, Json>>, idx: nat, url: string, listing: Remote): Outcome
  {
    match ApiKeyFor(configs, idx)
    case Err(_) => Skipped
    case Ok(apiKey) => Listed(ListModels(url, apiKey, listing))
  }

  function Outcomes(c: McpConfig, urls: seq<string>, listing: Remote): seq<Outcome>
  {
    seq(|urls|, (i: int) requires 0 <= i < |urls| => EndpointOutcome(c.apiConfigs, i, urls[i], listing))
  }

  datatype RefreshResult = RefreshResult(state: StateView, listing: Result<seq<FlatItem>, Cause>)

  /** get_all_models on the state view. */
  function GetAllModelsSpec(v: StateView, listing: Remote): RefreshResult
  {
    if !Enabled(v.config) then RefreshResult(v, Ok([]))
    else match v.config.baseUrls
      case None => RefreshResult(v.(hasCatalog := true), Err(MissingBaseUrls))
      case Some(urls) =>
        var r := MergeAll(Refresh(v.cat, []), Outcomes(v.config, urls, listing));
        RefreshResult(StateView(v.config, true, r.cat), Ok(r.flat))
  }

  /** With the API disabled the listing is empty and nothing changes, whatever the remotes say. */
  lemma DisabledListing(v: StateView, listing: Remote)
    requires !Enabled(v.config)
    ensures GetAllModelsSpec(v, listing) == RefreshResult(v, Ok([]))
  {
  }

  /**
   * A refresh keeps the configuration, keeps the catalog well formed, never
   * removes a key, never rewrites a stored model, and only appends indices.
   */
  lemma RefreshPreservesCatalog(v: StateView, listing: Remote)
    requires WellFormed(v.cat)
    ensures var w := GetAllModelsSpec(v, listing).state;
      && w.config == v.config
      && WellFormed(w.cat)
      && v.cat.Keys <= w.cat.Keys
      && Grows(v.cat, w.cat)
      && (GetAllModelsSpec(v, listing).listing.Ok? ==> OwnersResolve(w.cat, GetAllModelsSpec(v, listing).listing.value))
  {
    if Enabled(v.config) && v.config.baseUrls.Some? {
      MergeAllCoherent(Refresh(v.cat, []), Outcomes(v.config, v.config.baseUrls.value, listing));
    }
  }

  /**
   * The listing of a refresh: every endpoint whose settings could be read
   * and whose models all have hashable ids, in index order, with its models
   * in the remote's order. An endpoint that fails adds nothing and does not
   * stop the later ones.
   */
  lemma RefreshListing(v: StateView, listing: Remote)
    requires Enabled(v.config) && v.config.baseUrls.Some?
    ensures var r := GetAllModelsSpec(v, listing);
      var os := Outcomes(v.config, v.config.baseUrls.value, listing);
      r.listing.Ok? && Strip(r.listing.value) == Contributions(os)
  {
    MergeAllFlat(Refresh(v.cat, []), Outcomes(v.config, v.config.baseUrls.value, listing));
    assert Strip([]) == [];
  }

  // ---------------------------------------------------------------------
  // Stream framing

  const Delimiter: Bytes := [10, 10]

  /** `for line in response: if line: yield line + b"\n\n"` */
  function Frames(lines: seq<Bytes>): seq<Bytes>
  {
    if lines == [] then []
    else Frames(lines[..|lines| - 1]) + (if lines[|lines| - 1] != [] then [lines[|lines| - 1] + Delimiter] else [])
  }

  /** The non-empty lines, in order. */
  function NonEmptyLines(lines: seq<Bytes>): (r: seq<Bytes>)
    ensures forall i :: 0 <= i < |r| ==> r[i] != [] && r[i] in lines
    ensures forall i :: 0 <= i < |lines| && lines[i] != [] ==> lines[i] in r
  {
    if lines == [] then []
    else NonEmptyLines(lines[..|lines| - 1]) + (if lines[|lines| - 1] != [] then [lines[|lines| - 1]] else [])
  }

  /** Keeping the non-empty lines works piecewise, so their order is the order of `lines`. */
  lemma {:induction false} NonEmptyLinesAppend(a: seq<Bytes>, b: seq<Bytes>)
    ensures NonEmptyLines(a + b) == NonEmptyLines(a) + NonEmptyLines(b)
  {
    if b == [] {
      assert a + b == a;
    } else {
      var init := b[..|b| - 1];
      NonEmptyLinesAppend(a, init);
      assert (a + b)[..|a + b| - 1] == a + init;
      assert (a + b)[|a + b| - 1] == b[|b| - 1];
    }
  }

  /** Removes the delimiter from each frame. */
  function Unframe(frames: seq<Bytes>): seq<Bytes>
  {
    seq(|frames|, (i: int) requires 0 <= i < |frames| => if |frames[i]| >= 2 then frames[i][..|frames[i]| - 2] else frames[i])
  }

  /**
   * One frame per non-empty line, in order: the line followed by a blank
   * line. Empty lines are dropped and no two lines are merged, so removing
   * the delimiters gives back exactly the non-empty lines.
   */
  lemma {:induction false} FramesOfLines(lines: seq<Bytes>)
    ensures |Frames(lines)| == |NonEmptyLines(lines)|
    ensures forall i :: 0 <= i < |Frames(lines)| ==> Frames(lines)[i] == NonEmptyLines(lines)[i] + Delimiter
    ensures Unframe(Frames(lines)) == NonEmptyLines(lines)
  {
    if lines != [] {
      FramesOfLines(lines[..|lines| - 1]);
    }
    var fs := Frames(lines);
    forall i | 0 <= i < |fs| ensures Unframe(fs)[i] == NonEmptyLines(lines)[i] {
      assert fs[i][..|fs[i]| - 2] == NonEmptyLines(lines)[i];
    }
  }

  /** The example of two upstream lines "data: A" and "data: B". */
  lemma TwoLineStream(a: Bytes, b: Bytes)
    requires a != [] && b != []
    ensures Frames([a, b]) == [a + Delimiter, b + Delimiter]
  {
    assert [a, b][..1] == [a];
    assert [a][..0] == [];
    assert Frames([a]) == [a + Delimiter];
  }

  /** The framing generator, run to the end. */
  method FrameStream(lines: seq<Bytes>) returns (frames: seq<Bytes>)
    ensures frames == Frames(lines)
  {
    frames := [];
    for i := 0 to |lines|
      invariant frames == Frames(lines[..i])
    {
      assert lines[..i + 1][..i] == lines[..i];
      if lines[i] != [] {
        frames := frames + [lines[i] + Delimiter];
      }
    }
    assert lines[..|lines|] == lines;
  }

  // ---------------------------------------------------------------------
  // Completion routing (create_chat_completion)

  /** The verified caller. */
  datatype User = User(name: string, id: string, email: string, role: string)

  datatype Reply = JsonReply(body: Json) | EventStream(frames: seq<Bytes>)

  /** An HTTPException's detail: a fixed message, or a prefix followed by the text of the exception caught. */
  datatype Detail = Message(text: string) | Wrapped(prefix: string, cause: Cause)

  datatype HttpError = HttpError(status: int, detail: Detail)

  const NotEnabledMessage := "API MCP não está habilitada"
  const NotFoundPrefix := "Modelo não encontrado: "
  const CompletionErrorPrefix := "Erro ao criar chat completion: "

  /** Any exception other than an HTTPException becomes a 500. */
  function Internal(cause: Cause): HttpError
  {
    HttpError(500, Wrapped(CompletionErrorPrefix, cause))
  }

  /** `Modelo não encontrado: {model_id}` for an id that may be used as a key. */
  function NotFound(modelId: Json): HttpError
    requires KeyOf(modelId).Some?
  {
    HashableHasText(modelId);
    HttpError(400, Message(NotFoundPrefix + ScalarText(modelId).value))
  }

  /** The `user_info` value added to the body when forwarding is enabled. */
  function UserInfo(u: User): Json
  {
    JObject(map["name" := JString(u.name), "id" := JString(u.id), "email" := JString(u.email), "role" := JString(u.role)])
  }

  /** `{k: v for k, v in body.items() if k not in ["model", "messages", "stream"]}` */
  function Extras(body: map<string, Json>): (r: map<string, Json>)
    ensures r.Keys == body.Keys - {"model", "messages", "stream"}
    ensures forall k :: k in r ==> r[k] == body[k]
  {
    map k | k in body && k !in {"model", "messages", "stream"} :: body[k]
  }

  /** The body after the optional `body["user_info"] = {...}`. */
  function OutgoingBody(body: map<string, Json>, user: User, forwardUserInfo: bool): map<string, Json>
  {
    if forwardUserInfo then body["user_info" := UserInfo(user)] else body
  }

  /**
   * Whether the lookup of mcp.py:180 refreshes: MCP_MODELS does not exist yet,
   * or the id is hashable and not in it. An unhashable id against an existing
   * catalog raises at the `in` test instead, before any refresh.
   */
  predicate NeedsRefresh(v: StateView, modelId: Json)
  {
    !v.hasCatalog || (KeyOf(modelId).Some? && KeyOf(modelId).value !in v.cat)
  }

  /**
   * The model lookup: the cached entry, or one refresh and a second look.
   * The membership test is only evaluated when MCP_MODELS exists.
   */
  function Resolve(v: StateView, modelId: Json, listing: Remote): (r: (StateView, Result<Entry, HttpError>))
    requires Enabled(v.config) && WellFormed(v.cat)
    ensures WellFormed(r.0.cat)
    ensures r.1.Ok? ==> r.1.value.urls != []
  {
    RefreshPreservesCatalog(v, listing);
    var key := KeyOf(modelId);
    if !NeedsRefresh(v, modelId) then
      if key.None? then (v, Err(Internal(UnhashableModelId))) else (v, Ok(v.cat[key.value]))
    else
      var refreshed := GetAllModelsSpec(v, listing);
      var w := refreshed.state;
      if refreshed.listing.Err? then (w, Err(Internal(refreshed.listing.error)))
      else if key.None? then (w, Err(Internal(UnhashableModelId)))
      else if key.value !in w.cat then (w, Err(NotFound(modelId)))
      else (w, Ok(w.cat[key.value]))
  }

  /** What the router makes of the plugin's result. */
  function ReplyOf(r: Result<ChatResult, PluginFailure>): Result<Reply, HttpError>
  {
    match r
    case Err(f) => Err(Internal(Upstream(f)))
    case Ok(Completed(j)) => Ok(JsonReply(j))
    case Ok(Lines(ls)) => Ok(EventStream(Frames(ls)))
  }

  /** From the resolved entry to the reply: target endpoint urls[0], its api key, the extras, the call. */
  function Dispatch(c: McpConfig, e: Entry, body: map<string, Json>, modelId: Json, user: User, forwardUserInfo: bool,
                    completion: Remote): Result<Reply, HttpError>
    requires e.urls != []
  {
    var idx := e.urls[0];
    if c.baseUrls.None? then Err(Internal(MissingBaseUrls))
    else if idx >= |c.baseUrls.value| then Err(Internal(StaleEndpointIndex))
    else match ApiKeyFor(c.apiConfigs, idx)
      case Err(cause) => Err(Internal(cause))
      case Ok(apiKey) =>
        var b := OutgoingBody(body, user, forwardUserInfo);
        var extras := Extras(b);
        if !(extras.Keys !! DeclaredParams) then Err(Internal(DuplicateKeywordArgument))
        else
          var stream := Get(b, "stream", JBool(false));
          var request := ChatRequest(c.baseUrls.value[idx], apiKey, modelId, Get(b, "messages", JArray([])), stream, extras);
          ReplyOf(ChatOutcome(completion(request), Truthy(stream)))
  }

  /** POST /chat/completions on the state view, with streaming replies framed as server-sent events. */
  function CompletionSpec(v: StateView, body: Json, user: User, forwardUserInfo: bool, listing: Remote, completion: Remote)
    : (r: (StateView, Result<Reply, HttpError>))
    requires WellFormed(v.cat)
    ensures WellFormed(r.0.cat)
  {
    if !Enabled(v.config) then (v, Err(HttpError(400, Message(NotEnabledMessage))))
    else if !body.JObject? then (v, Err(Internal(BodyNotObject)))
    else
      var modelId := Get(body.fields, "model", JString(""));
      var resolved := Resolve(v, modelId, listing);
      match resolved.1
      case Err(e) => (resolved.0, Err(e))
      case Ok(entry) => (resolved.0, Dispatch(resolved.0.config, entry, body.fields, modelId, user, forwardUserInfo, completion))
  }

  /** With the API disabled a completion fails with 400 before the body is read, and nothing changes. */
  lemma DisabledCompletion(v: StateView, body: Json, user: User, forwardUserInfo: bool, listing: Remote, completion: Remote)
    requires WellFormed(v.cat) && !Enabled(v.config)
    ensures CompletionSpec(v, body, user, forwardUserInfo, listing, completion) == (v, Err(HttpError(400, Message(NotEnabledMessage))))
  {
  }

  /**
   * A model id in the catalog is served without a refresh. An id not in it
   * triggers exactly one refresh; if the id is still absent afterwards, the
   * call fails with 400 "Modelo não encontrado".
   */
  lemma LookupRefreshesOnce(v: StateView, body: Json, user: User, forwardUserInfo: bool, listing: Remote, completion: Remote)
    requires WellFormed(v.cat) && Enabled(v.config) && body.JObject?
    requires KeyOf(Get(body.fields, "model", JString(""))).Some?
    ensures var key := KeyOf(Get(body.fields, "model", JString(""))).value;
      var r := CompletionSpec(v, body, user, forwardUserInfo, listing, completion);
      var refreshed := GetAllModelsSpec(v, listing);
      && (NeedsRefresh(v, Get(body.fields, "model", JString(""))) <==> !v.hasCatalog || key !in v.cat)
      && (v.hasCatalog && key in v.cat ==> r.0 == v)
      && (!v.hasCatalog || key !in v.cat ==> r.0 == refreshed.state)
      && (!v.hasCatalog || key !in v.cat ==> refreshed.listing.Ok? && key !in refreshed.state.cat ==>
            r.1 == Err(NotFound(Get(body.fields, "model", JString("")))))
    ensures var key := KeyOf(Get(body.fields, "model", JString(""))).value;
      var w := GetAllModelsSpec(v, listing).state;
      (!v.hasCatalog || key !in v.cat) && GetAllModelsSpec(v, listing).listing.Ok? && key in w.cat ==>
        && WellFormed(w.cat) && w.hasCatalog
        && CompletionSpec(v, body, user, forwardUserInfo, listing, completion)
           == (w, Dispatch(w.config, w.cat[key], body.fields, Get(body.fields, "model", JString("")), user, forwardUserInfo, completion))
        && CompletionSpec(v, body, user, forwardUserInfo, listing, completion)
           == CompletionSpec(w, body, user, forwardUserInfo, listing, completion)
  {
    RefreshPreservesCatalog(v, listing);
  }

  /**
   * For a known model the call goes to endpoint urls[0], with the api key
   * configured under str(urls[0]), the body's model and messages (None read
   * as []), its stream flag, and every other body key as an extra, including
   * user_info when forwarding is enabled.
   */
  lemma KnownModelRouting(v: StateView, body: Json, user: User, forwardUserInfo: bool, listing: Remote, completion: Remote)
    requires WellFormed(v.cat) && Enabled(v.config) && body.JObject? && v.hasCatalog
    requires KeyOf(Get(body.fields, "model", JString(""))).Some?
    requires KeyOf(Get(body.fields, "model", JString(""))).value in v.cat
    requires v.config.baseUrls.Some?
    requires v.cat[KeyOf(Get(body.fields, "model", JString(""))).value].urls[0] < |v.config.baseUrls.value|
    requires ApiKeyFor(v.config.apiConfigs, v.cat[KeyOf(Get(body.fields, "model", JString(""))).value].urls[0]).Ok?
    requires Extras(OutgoingBody(body.fields, user, forwardUserInfo)).Keys !! DeclaredParams
    ensures var modelId := Get(body.fields, "model", JString(""));
      var idx := v.cat[KeyOf(modelId).value].urls[0];
      var b := OutgoingBody(body.fields, user, forwardUserInfo);
      var apiKey := ApiKeyFor(v.config.apiConfigs, idx).value;
      var request := ChatRequest(v.config.baseUrls.value[idx], apiKey, modelId, Get(b, "messages", JArray([])),
                                 Get(b, "stream", JBool(false)), Extras(b));
      && CompletionSpec(v, body, user, forwardUserInfo, listing, completion)
         == (v, ReplyOf(ChatOutcome(completion(request), Truthy(Get(b, "stream", JBool(false))))))
      && request.url == v.config.baseUrls.value[idx] + ChatPath
      && ("Authorization" in request.headers <==> KeyTruthy(apiKey))
      && request.payload.fields.Keys == body.fields.Keys + {"model", "messages", "stream"} + (if forwardUserInfo then {"user_info"} else {})
      && request.payload.fields["model"] == modelId
      && (forwardUserInfo ==> request.payload.fields["user_info"] == UserInfo(user))
      && forall k :: k in body.fields && k !in {"model", "messages", "stream", "user_info"} ==> request.payload.fields[k] == body.fields[k]
  {
    var modelId := Get(body.fields, "model", JString(""));
    var idx := v.cat[KeyOf(modelId).value].urls[0];
    var b := OutgoingBody(body.fields, user, forwardUserInfo);
    var apiKey := ApiKeyFor(v.config.apiConfigs, idx).value;
    BearerHeaderRule(map["Content-Type" := "application/json"], apiKey);
    ChatPayloadContents(modelId, Get(b, "messages", JArray([])), Get(b, "stream", JBool(false)), Extras(b));
  }

  /** A catalog index left stale by a shorter URL list makes the call fail with 500, and no request is sent. */
  lemma StaleIndexFails(v: StateView, body: Json, user: User, forwardUserInfo: bool, listing: Remote, completion: Remote)
    requires WellFormed(v.cat) && Enabled(v.config) && body.JObject? && v.hasCatalog
    requires KeyOf(Get(body.fields, "model", JString(""))).Some?
    requires KeyOf(Get(body.fields, "model", JString(""))).value in v.cat
    requires v.config.baseUrls.Some?
    requires v.cat[KeyOf(Get(body.fields, "model", JString(""))).value].urls[0] >= |v.config.baseUrls.value|
    ensures CompletionSpec(v, body, user, forwardUserInfo, listing, completion) == (v, Err(Internal(StaleEndpointIndex)))
  {
  }

  /**
   * A body key named like a parameter of the plugin call ("self", "url",
   * "api_key") never reaches the endpoint: the reply is the lookup's own
   * error, or, once the model is found, a 500.
   */
  lemma ReservedBodyKeyFails(v: StateView, body: Json, user: User, forwardUserInfo: bool, listing: Remote, completion: Remote,
                             completion': Remote)
    requires WellFormed(v.cat) && Enabled(v.config) && body.JObject?
    requires "url" in body.fields || "api_key" in body.fields || "self" in body.fields
    ensures CompletionSpec(v, body, user, forwardUserInfo, listing, completion)
         == CompletionSpec(v, body, user, forwardUserInfo, listing, completion')
    ensures var resolved := Resolve(v, Get(body.fields, "model", JString("")), listing);
      var r := CompletionSpec(v, body, user, forwardUserInfo, listing, completion);
      && r.0 == resolved.0
      && r.1.Err?
      && (resolved.1.Err? ==> r.1 == Err(resolved.1.error))
      && (resolved.1.Ok? ==> r.1.error.status == 500)
  {
    var modelId := Get(body.fields, "model", JString(""));
    var resolved := Resolve(v, modelId, listing);
    if resolved.1.Ok? {
      var b := OutgoingBody(body.fields, user, forwardUserInfo);
      assert !(Extras(b).Keys !! DeclaredParams) by {
        if "url" in body.fields { assert "url" in Extras(b); }
        else if "api_key" in body.fields { assert "api_key" in Extras(b); }
        else { assert "self" in Extras(b); }
      }
    }
  }

  /**
   * A consequence of two definitions, not a path the router takes (nothing
   * in it stores the template): a configuration shaped like the template has
   * the API disabled, so the listing is empty and every completion is a 400.
   */
  lemma TemplateDisablesApi(hasCatalog: bool, cat: CatalogView, body: Json, user: User, forwardUserInfo: bool,
                            listing: Remote, completion: Remote)
    requires WellFormed(cat)
    ensures var t := GetModelConfigTemplate();
      var v := StateView(FormConfig(ConfigForm(t.enabled, t.baseUrls, t.apiConfigs)), hasCatalog, cat);
      && v.config == McpConfig(Some(false), Some([]), Some(map[]))
      && GetAllModelsSpec(v, listing) == RefreshResult(v, Ok([]))
      && CompletionSpec(v, body, user, forwardUserInfo, listing, completion).1 == Err(HttpError(400, Message(NotEnabledMessage)))
  {
    assert PruneConfigs(map[], 0) == map[];
  }

  // ---------------------------------------------------------------------
  // The source as written: StreamingResponse is never imported

  /**
   * The completion as the source runs it: `StreamingResponse` is not
   * imported in mcp.py, so building the streaming reply raises NameError,
   * which the outer handler turns into a 500.
   */
  function CompletionAsWritten(v: StateView, body: Json, user: User, forwardUserInfo: bool, listing: Remote, completion: Remote)
    : (StateView, Result<Reply, HttpError>)
    requires WellFormed(v.cat)
  {
    var r := CompletionSpec(v, body, user, forwardUserInfo, listing, completion);
    if r.1.Ok? && r.1.value.EventStream? then (r.0, Err(StreamingNameError()))
    else r
  }

  /** The error of NameError: name 'StreamingResponse' is not defined. */
  function StreamingNameError(): HttpError
  {
    HttpError(500, Message(CompletionErrorPrefix + "name 'StreamingResponse' is not defined"))
  }

  /**
   * As written, no completion ever streams: the state reached is the one the
   * corrected route reaches, a reply it would stream is the NameError 500
   * instead, and every other reply is the same.
   */
  lemma StreamingNeverSucceedsAsWritten(v: StateView, body: Json, user: User, forwardUserInfo: bool, listing: Remote, completion: Remote)
    requires WellFormed(v.cat)
    ensures var fixed := CompletionSpec(v, body, user, forwardUserInfo, listing, completion);
      var asWritten := CompletionAsWritten(v, body, user, forwardUserInfo, listing, completion);
      && asWritten.0 == fixed.0
      && !(asWritten.1.Ok? && asWritten.1.value.EventStream?)
      && (fixed.1.Ok? && fixed.1.value.EventStream? ==> asWritten.1 == Err(StreamingNameError()))
      && (!(fixed.1.Ok? && fixed.1.value.EventStream?) ==> asWritten.1 == fixed.1)
  {
  }

  /** The model of the example below: an entry listed with id "m1" and no other field. */
  function ExampleModel(): Model
  {
    Model(JString("m1"), JString("m1"), "model", JInt(0), "mcp", JObject(map["id" := JString("m1")]),
          Meta(ProfileImageUrl, JString(DefaultDescription), Capabilities(true, JBool(false), JBool(false))))
  }

  /**
   * An input that shows the defect: model "m1" cached on endpoint 0, a body
   * asking for a stream, and an upstream answering 200 with one line. The
   * corrected route streams one frame; the route as written fails with 500.
   */
  lemma StreamingRequestExample(user: User, listing: Remote, completion: Remote)
    requires completion(ChatRequest("http://mcp", None, JString("m1"), JArray([]), JBool(true), map[])) == Response(200, None, [[100]])
    ensures var v := StateView(McpConfig(Some(true), Some(["http://mcp"]), None), true, map[KStr("m1") := Entry(ExampleModel(), [0])]);
      var body := JObject(map["model" := JString("m1"), "stream" := JBool(true)]);
      && WellFormed(v.cat)
      && CompletionSpec(v, body, user, false, listing, completion).1 == Ok(EventStream([[100, 10, 10]]))
      && CompletionAsWritten(v, body, user, false, listing, completion).1 == Err(StreamingNameError())
  {
    var body := map["model" := JString("m1"), "stream" := JBool(true)];
    assert NatToString(0) == "0";
    assert Extras(body) == map[];
    var frame: Bytes := [100];
    assert Frames([frame]) == [[100, 10, 10]] by {
      assert [frame][..0] == [];
      assert frame + Delimiter == [100, 10, 10];
    }
    var v := StateView(McpConfig(Some(true), Some(["http://mcp"]), None), true, map[KStr("m1") := Entry(ExampleModel(), [0])]);
    assert WellFormed(v.cat);
    assert Resolve(v, JString("m1"), listing) == (v, Ok(Entry(ExampleModel(), [0])));
    assert Get(body, "stream", JBool(false)) == JBool(true);
    assert Get(body, "messages", JArray([])) == JArray([]);
    assert OutgoingBody(body, user, false) == body;
    assert ApiKeyFor(None, 0) == Ok(None);
    assert Dispatch(v.config, Entry(ExampleModel(), [0]), body, JString("m1"), user, false, completion)
        == Ok(EventStream([[100, 10, 10]]));
    assert CompletionSpec(v, JObject(body), user, false, listing, completion).1 == Ok(EventStream([[100, 10, 10]]));
  }

  // ---------------------------------------------------------------------
  // get_config and the update round trip

  /** get_config: each attribute, or its default when it was never set. */
  function ConfigReport(c: McpConfig): ConfigForm
  {
    ConfigForm(
      if c.enabled.Some? then c.enabled.value else false,
      if c.baseUrls.Some? then c.baseUrls.value else [],
      if c.apiConfigs.Some? then c.apiConfigs.value else map[])
  }

  /**
   * After an update, get_config reports what update_config returned, and
   * submitting that report again stores the same configuration: pruning is
   * idempotent.
   */
  lemma UpdateRoundTrip(form: ConfigForm)
    ensures ConfigReport(FormConfig(form)) == ConfigForm(form.enabled, form.baseUrls, PruneConfigs(form.apiConfigs, |form.baseUrls|))
    ensures FormConfig(ConfigReport(FormConfig(form))) == FormConfig(form)
  {
    var p := PruneConfigs(form.apiConfigs, |form.baseUrls|);
    assert PruneConfigs(p, |form.baseUrls|) == p;
  }

  // ---------------------------------------------------------------------
  // The router's state, held in objects

  /** A model dictionary of MCP_MODELS: the formatted model and its `urls` list, which merges append to. */
  class ModelRecord {
    const model: Model
    var urls: seq<nat>

    constructor (m: Model)
      ensures model == m && urls == []
    {
      model := m;
      urls := [];
    }
  }

  /** request.app.state: the configuration attributes and the MCP_MODELS dictionary (absent until the first refresh). */
  class McpState {
    var enabled: Option<bool>
    var baseUrls: Option<seq<string>>
    var apiConfigs: Option<map<string, Json>>
    var hasCatalog: bool
    var catalog: map<Key, ModelRecord>
    /** How many times get_all_models has run; it makes the number of refreshes part of the contracts. */
    ghost var refreshes: nat

    function ConfigView(): McpConfig
      reads this
    {
      McpConfig(enabled, baseUrls, apiConfigs)
    }

    function CatalogView(): CatalogView
      reads this, catalog.Values
    {
      map k | k in catalog :: Entry(catalog[k].model, catalog[k].urls)
    }

    function View(): StateView
      reads this, catalog.Values
    {
      StateView(ConfigView(), hasCatalog, CatalogView())
    }

    /** MCP_MODELS is empty until it exists, and well formed. */
    ghost predicate Valid()
      reads this, catalog.Values
    {
      (!hasCatalog ==> catalog == map[]) && WellFormed(CatalogView())
    }

    /**
     * The objects of a listing against its value description: an owner item
     * is the very object the catalog holds under its id; any other item is
     * an object outside the catalog that holds just its endpoint.
     */
    ghost predicate Matches(objs: seq<ModelRecord>, items: seq<FlatItem>)
      reads this, catalog.Values, set o | o in objs
    {
      && |objs| == |items|
      && forall i :: 0 <= i < |objs| ==>
           && objs[i].model == items[i].model
           && (items[i].owner ==>
                 KeyOf(items[i].model.id).Some? && KeyOf(items[i].model.id).value in catalog
                 && catalog[KeyOf(items[i].model.id).value] == objs[i])
           && (!items[i].owner ==> objs[i] !in catalog.Values && objs[i].urls == [items[i].endpoint])
    }

    /** The listing as the caller sees it: each object's model and urls. */
    ghost function Views(objs: seq<ModelRecord>): seq<Entry>
      reads set o | o in objs
    {
      seq(|objs|, (i: int) reads set o | o in objs requires 0 <= i < |objs| => Entry(objs[i].model, objs[i].urls))
    }

    /** The application state before any MCP request. */
    constructor (config: McpConfig)
      ensures Valid() && View() == StateView(config, false, map[]) && refreshes == 0
    {
      enabled := config.enabled;
      baseUrls := config.baseUrls;
      apiConfigs := config.apiConfigs;
      hasCatalog := false;
      catalog := map[];
      refreshes := 0;
    }

    /** POST /config/update: stores the form with the settings pruned to the URL list, and returns what it stored. */
    method UpdateConfig(form: ConfigForm) returns (stored: ConfigForm)
      requires Valid()
      modifies this`enabled, this`baseUrls, this`apiConfigs
      ensures Valid()
      ensures ConfigView() == FormConfig(form) && stored == ConfigReport(ConfigView())
      ensures hasCatalog == old(hasCatalog) && CatalogView() == old(CatalogView())
    {
      enabled := Some(form.enabled);
      baseUrls := Some(form.baseUrls);
      apiConfigs := Some(form.apiConfigs);
      var keys := IndexKeys(|form.baseUrls|);
      apiConfigs := Some(map k | k in form.apiConfigs && k in keys :: form.apiConfigs[k]);
      stored := ConfigForm(enabled.value, baseUrls.value, apiConfigs.value);
    }

    /**
     * One model of the loop of mcp.py:142-154: a fresh dictionary with
     * `urls = [idx]`, stored under its id when the id is new; a known entry
     * gains idx instead when it does not hold it yet.
     */
    method MergeOne(idx: nat, m: Model) returns (rec: ModelRecord, aborted: bool)
      requires Valid() && hasCatalog
      modifies this`catalog, catalog.Values
      ensures Valid()
      ensures fresh(rec) && rec.model == m && rec.urls == [idx]
      ensures aborted <==> KeyOf(m.id).None?
      ensures CatalogView() == MergeModel(MergeState(old(CatalogView()), [], false), idx, m).cat
      ensures !aborted && KeyOf(m.id).value !in old(catalog) ==> catalog == old(catalog)[KeyOf(m.id).value := rec]
      ensures aborted || KeyOf(m.id).value in old(catalog) ==> catalog == old(catalog)
    {
      rec := new ModelRecord(m);
      rec.urls := rec.urls + [idx];
      ghost var before := CatalogView();
      assert before == old(CatalogView());
      MergeModelCoherent(MergeState(before, [], false), idx, m, []);
      var key := KeyOf(m.id);
      if key.None? {
        return rec, true;
      }
      aborted := false;
      if key.value !in catalog {
        Insert(key.value, rec);
      } else {
        AddEndpoint(key.value, idx);
      }
    }

    /** `MCP_MODELS[model_id] = model` for an id not yet present. */
    method Insert(k: Key, rec: ModelRecord)
      requires Valid() && hasCatalog && k !in catalog && rec !in catalog.Values
      requires KeyOf(rec.model.id) == Some(k) && rec.urls != [] && NoDuplicates(rec.urls)
      modifies this`catalog
      ensures Valid()
      ensures catalog == old(catalog)[k := rec]
      ensures CatalogView() == old(CatalogView())[k := Entry(rec.model, rec.urls)]
    {
      ghost var before := CatalogView();
      ghost var objs := catalog;
      catalog := catalog[k := rec];
      forall k' | k' in catalog ensures CatalogView()[k'] == before[k := Entry(rec.model, rec.urls)][k'] {
        if k' != k {
          assert catalog[k'] == objs[k'];
        }
      }
      assert CatalogView() == before[k := Entry(rec.model, rec.urls)];
    }

    /** `if idx not in MCP_MODELS[model_id]["urls"]: ....append(idx)` */
    method AddEndpoint(k: Key, idx: nat)
      requires Valid() && k in catalog
      modifies catalog[k]
      ensures Valid()
      ensures CatalogView() == old(CatalogView())[k := old(CatalogView())[k].(urls := AddIndex(old(CatalogView())[k].urls, idx))]
    {
      ghost var before := CatalogView();
      var entry := catalog[k];
      assert before[k] == Entry(entry.model, entry.urls) && KeyOf(entry.model.id) == Some(k);
      forall k' | k' in catalog && k' != k ensures catalog[k'] != entry {
        assert before[k'] == Entry(catalog[k'].model, catalog[k'].urls);
        assert KeyOf(catalog[k'].model.id) == Some(k');
      }
      AddIndexKeepsNoDuplicates(entry.urls, idx);
      if idx !in entry.urls {
        entry.urls := entry.urls + [idx];
      }
      assert CatalogView() == before[k := before[k].(urls := AddIndex(before[k].urls, idx))];
    }

    /** MergeOne, keeping the objects listed so far in step with the value description. */
    method MergeStep(idx: nat, m: Model, pending: seq<ModelRecord>, ghost s: MergeState)
      returns (pending': seq<ModelRecord>, aborted: bool)
      requires Valid() && hasCatalog && !s.aborted
      requires CatalogView() == s.cat && Matches(pending, s.pending)
      modifies this`catalog, catalog.Values
      ensures Valid()
      ensures var t := MergeModel(s, idx, m);
        CatalogView() == t.cat && aborted == t.aborted && Matches(pending', t.pending)
      ensures forall k :: k in old(catalog) ==> k in catalog && catalog[k] == old(catalog[k])
      ensures forall o :: o in catalog.Values ==> o in old(catalog.Values) || fresh(o)
    {
      var rec, failed := MergeOne(idx, m);
      ghost var t := MergeModel(s, idx, m);
      aborted := failed;
      if failed {
        pending' := pending;
      } else {
        assert t.pending == s.pending + [t.pending[|t.pending| - 1]];
        MatchesAppend(this, pending, s.pending, [rec], [t.pending[|t.pending| - 1]]);
        pending' := pending + [rec];
      }
    }

    /** The model loop of mcp.py:142-154 for endpoint idx, stopped by an unhashable id. */
    method MergeEndpointModels(idx: nat, ms: seq<Model>) returns (pending: seq<ModelRecord>, aborted: bool)
      requires Valid() && hasCatalog
      modifies this`catalog, catalog.Values
      ensures Valid()
      ensures var s := MergeModels(MergeState(old(CatalogView()), [], false), idx, ms);
        CatalogView() == s.cat && aborted == s.aborted && Matches(pending, s.pending)
      ensures forall k :: k in old(catalog) ==> k in catalog && catalog[k] == old(catalog[k])
      ensures forall o :: o in catalog.Values ==> o in old(catalog.Values) || fresh(o)
    {
      ghost var s0 := MergeState(CatalogView(), [], false);
      ghost var s := s0;
      pending := [];
      aborted := false;
      var j := 0;
      while j < |ms| && !aborted
        invariant 0 <= j <= |ms|
        invariant Valid() && hasCatalog
        invariant s == MergeModels(s0, idx, ms[..j])
        invariant CatalogView() == s.cat && aborted == s.aborted && Matches(pending, s.pending)
        invariant forall k :: k in old(catalog) ==> k in catalog && catalog[k] == old(catalog[k])
        invariant forall o :: o in catalog.Values ==> o in old(catalog.Values) || fresh(o)
      {
        assert ms[..j + 1][..j] == ms[..j];
        pending, aborted := MergeStep(idx, ms[j], pending, s);
        s := MergeModel(s, idx, ms[j]);
        j := j + 1;
      }
      if aborted {
        MergeModelsAfterAbort(s0, idx, ms, j);
      } else {
        assert ms[..j] == ms;
      }
    }

    /**
     * One iteration of the endpoint loop of get_all_models: the api key of
     * endpoint idx, the plugin's listing, and the merge of its models. An
     * endpoint whose settings cannot be read or whose merge meets an
     * unhashable id adds nothing to the listing.
     */
    method RefreshEndpoint(idx: nat, url: string, listing: Remote, ghost flat: seq<FlatItem>)
      returns (added: seq<ModelRecord>, ghost addedItems: seq<FlatItem>)
      requires Valid() && hasCatalog
      modifies this`catalog, catalog.Values
      ensures Valid()
      ensures Refresh(CatalogView(), flat + addedItems) == MergeEndpoint(Refresh(old(CatalogView()), flat), idx, EndpointOutcome(apiConfigs, idx, url, listing))
      ensures Matches(added, addedItems)
      ensures forall k :: k in old(catalog) ==> k in catalog && catalog[k] == old(catalog[k])
      ensures forall o :: o in catalog.Values ==> o in old(catalog.Values) || fresh(o)
    {
      added, addedItems := [], [];
      var apiKey := ApiKeyFor(apiConfigs, idx);
      if apiKey.Err? {
        assert flat + [] == flat;
        return;
      }
      var serverModels := McpPlugin.GetModels(url, apiKey.value, listing);
      ghost var s := MergeModels(MergeState(CatalogView(), [], false), idx, serverModels);
      var pending, aborted := MergeEndpointModels(idx, serverModels);
      if !aborted {
        added, addedItems := pending, s.pending;
      } else {
        assert flat + [] == flat;
      }
    }

    /**
     * One iteration of the endpoint loop: with the catalog and listing after
     * the first `idx` endpoints, merge endpoint `idx` and extend the listing.
     */
    method RefreshStep(idx: nat, url: string, listing: Remote, models: seq<ModelRecord>,
                       ghost flat: seq<FlatItem>, ghost r0: Refresh, ghost os: seq<Outcome>)
      returns (models': seq<ModelRecord>, ghost flat': seq<FlatItem>)
      requires Valid() && hasCatalog && Matches(models, flat)
      requires idx < |os| && os[idx] == EndpointOutcome(apiConfigs, idx, url, listing)
      requires Refresh(CatalogView(), flat) == MergeAll(r0, os[..idx])
      modifies this`catalog, catalog.Values
      ensures Valid() && hasCatalog
      ensures Refresh(CatalogView(), flat') == MergeAll(r0, os[..idx + 1])
      ensures Matches(models', flat')
      ensures forall k :: k in old(catalog) ==> k in catalog && catalog[k] == old(catalog[k])
      ensures forall o :: o in catalog.Values ==> o in old(catalog.Values) || fresh(o)
    {
      assert os[..idx + 1][..idx] == os[..idx];
      var added, addedItems := RefreshEndpoint(idx, url, listing, flat);
      MatchesAppend(this, models, flat, added, addedItems);
      models', flat' := models + added, flat + addedItems;
    }

    /** The endpoint loop of mcp.py:132-158: every endpoint in index order, the listing extended by each. */
    method RefreshAll(urls: seq<string>, listing: Remote) returns (models: seq<ModelRecord>, ghost flat: seq<FlatItem>)
      requires Valid() && hasCatalog && baseUrls == Some(urls)
      modifies this`catalog, catalog.Values
      ensures Valid() && hasCatalog
      ensures ConfigView() == old(ConfigView())
      ensures Refresh(CatalogView(), flat) == MergeAll(Refresh(old(CatalogView()), []), Outcomes(ConfigView(), urls, listing))
      ensures Matches(models, flat)
      ensures forall k :: k in old(catalog) ==> k in catalog && catalog[k] == old(catalog[k])
      ensures forall o :: o in catalog.Values ==> o in old(catalog.Values) || fresh(o)
    {
      ghost var os := Outcomes(ConfigView(), urls, listing);
      ghost var r0 := Refresh(CatalogView(), []);
      flat := [];
      models := [];
      for idx := 0 to |urls|
        invariant Valid() && hasCatalog
        invariant ConfigView() == old(ConfigView())
        invariant Refresh(CatalogView(), flat) == MergeAll(r0, os[..idx])
        invariant Matches(models, flat)
        invariant forall k :: k in old(catalog) ==> k in catalog && catalog[k] == old(catalog[k])
        invariant forall o :: o in catalog.Values ==> o in old(catalog.Values) || fresh(o)
      {
        assert os[idx] == EndpointOutcome(apiConfigs, idx, urls[idx], listing);
        models, flat := RefreshStep(idx, urls[idx], listing, models, flat, r0, os);
      }
      assert os[..|urls|] == os;
    }

    /**
     * GET /models (get_all_models): with the API enabled, creates MCP_MODELS
     * when missing, merges every endpoint's listing into it and returns the
     * flat listing of objects, catalog entries included.
     */
    method GetAllModels(listing: Remote) returns (r: Result<seq<ModelRecord>, Cause>)
      requires Valid()
      modifies this`hasCatalog, this`catalog, this`refreshes, catalog.Values
      ensures Valid()
      ensures refreshes == old(refreshes) + 1
      ensures var spec := GetAllModelsSpec(old(View()), listing);
        && View() == spec.state
        && (r.Ok? <==> spec.listing.Ok?)
        && (r.Err? ==> r.error == spec.listing.error)
        && (r.Ok? ==> Matches(r.value, spec.listing.value) && Views(r.value) == Observe(CatalogView(), spec.listing.value))
      ensures forall k :: k in old(catalog) ==> k in catalog && catalog[k] == old(catalog[k])
      ensures forall o :: o in catalog.Values ==> o in old(catalog.Values) || fresh(o)
    {
      ghost var v0 := View();
      refreshes := refreshes + 1;
      if enabled != Some(true) {
        return Ok([]);
      }
      if !hasCatalog {
        hasCatalog := true;
        catalog := map[];
      }
      assert CatalogView() == v0.cat;
      if baseUrls.None? {
        return Err(MissingBaseUrls);
      }
      var urls := baseUrls.value;
      ghost var after := MergeAll(Refresh(v0.cat, []), Outcomes(v0.config, urls, listing));
      var models, flat := RefreshAll(urls, listing);
      assert CatalogView() == after.cat && flat == after.flat;
      assert GetAllModelsSpec(v0, listing) == RefreshResult(StateView(v0.config, true, after.cat), Ok(after.flat));
      MatchesObserve(this, models, flat);
      r := Ok(models);
    }

    /**
     * The model lookup of create_chat_completion, with at most one refresh;
     * on success the object stored under the id.
     */
    method Lookup(modelId: Json, listing: Remote) returns (found: Result<ModelRecord, HttpError>)
      requires Valid() && enabled == Some(true)
      modifies this`hasCatalog, this`catalog, this`refreshes, catalog.Values
      ensures Valid()
      ensures refreshes == old(refreshes) + (if NeedsRefresh(old(View()), modelId) then 1 else 0)
      ensures var spec := Resolve(old(View()), modelId, listing);
        && View() == spec.0
        && (found.Ok? <==> spec.1.Ok?)
        && (found.Err? ==> found.error == spec.1.error)
        && (found.Ok? ==> found.value in catalog.Values && Entry(found.value.model, found.value.urls) == spec.1.value)
    {
      var key := KeyOf(modelId);
      if hasCatalog && key.None? {
        return Err(Internal(UnhashableModelId));
      }
      if !hasCatalog || key.value !in catalog {
        var refreshed := GetAllModels(listing);
        if refreshed.Err? {
          return Err(Internal(refreshed.error));
        }
        if key.None? {
          return Err(Internal(UnhashableModelId));
        }
        if key.value !in catalog {
          return Err(NotFound(modelId));
        }
      }
      found := Ok(catalog[key.value]);
      assert CatalogView()[key.value] == Entry(found.value.model, found.value.urls);
    }

    /** From the model object to the reply; nothing in the state changes from here on. */
    method Route(record: ModelRecord, body: map<string, Json>, modelId: Json, user: User, forwardUserInfo: bool, completion: Remote)
      returns (r: Result<Reply, HttpError>)
      requires record.urls != []
      ensures r == Dispatch(ConfigView(), Entry(record.model, record.urls), body, modelId, user, forwardUserInfo, completion)
    {
      var urlIdx := record.urls[0];
      if baseUrls.None? {
        return Err(Internal(MissingBaseUrls));
      }
      if urlIdx >= |baseUrls.value| {
        return Err(Internal(StaleEndpointIndex));
      }
      var url := baseUrls.value[urlIdx];
      var apiKey := ApiKeyFor(apiConfigs, urlIdx);
      if apiKey.Err? {
        return Err(Internal(apiKey.error));
      }
      var b := body;
      if forwardUserInfo {
        b := b["user_info" := UserInfo(user)];
      }
      var stream := Get(b, "stream", JBool(false));
      var extras := Extras(b);
      if !(extras.Keys !! DeclaredParams) {
        return Err(Internal(DuplicateKeywordArgument));
      }
      var response := McpPlugin.CreateChatCompletion(url, apiKey.value, modelId, Get(b, "messages", JArray([])), stream, extras, completion);
      match response {
        case Err(f) =>
          r := Err(Internal(Upstream(f)));
        case Ok(Completed(j)) =>
          r := Ok(JsonReply(j));
        case Ok(Lines(lines)) =>
          var frames := FrameStream(lines);
          r := Ok(EventStream(frames));
      }
    }

    /**
     * POST /chat/completions: the disabled check, the body, the lookup with
     * at most one refresh, and the routing to the first endpoint of the
     * model; a streamed reply is framed as server-sent events.
     */
    method CreateChatCompletion(body: Json, user: User, forwardUserInfo: bool, listing: Remote, completion: Remote)
      returns (r: Result<Reply, HttpError>)
      requires Valid()
      modifies this`hasCatalog, this`catalog, this`refreshes, catalog.Values
      ensures Valid()
      ensures refreshes == old(refreshes)
        + (if Enabled(old(ConfigView())) && body.JObject? && NeedsRefresh(old(View()), Get(body.fields, "model", JString("")))
           then 1 else 0)
      ensures (View(), r) == CompletionSpec(old(View()), body, user, forwardUserInfo, listing, completion)
    {
      if enabled != Some(true) {
        return Err(HttpError(400, Message(NotEnabledMessage)));
      }
      if !body.JObject? {
        return Err(Internal(BodyNotObject));
      }
      var modelId := Get(body.fields, "model", JString(""));
      var found := Lookup(modelId, listing);
      if found.Err? {
        return Err(found.error);
      }
      r := Route(found.value, body.fields, modelId, user, forwardUserInfo, completion);
    }
  }

  lemma MatchesAppend(st: McpState, objs: seq<ModelRecord>, items: seq<FlatItem>, more: seq<ModelRecord>, moreItems: seq<FlatItem>)
    requires st.Matches(objs, items) && st.Matches(more, moreItems)
    ensures st.Matches(objs + more, items + moreItems)
  {
  }

  /** A matching listing shows, element by element, what Observe computes from the catalog view. */
  lemma MatchesObserve(st: McpState, objs: seq<ModelRecord>, items: seq<FlatItem>)
    requires st.Matches(objs, items)
    ensures OwnersResolve(st.CatalogView(), items)
    ensures st.Views(objs) == Observe(st.CatalogView(), items)
  {
  }

  lemma {:induction false} MergeModelsAfterAbort(s: MergeState, idx: nat, ms: seq<Model>, j: nat)
    requires j <= |ms| && MergeModels(s, idx, ms[..j]).aborted
    ensures MergeModels(s, idx, ms) == MergeModels(s, idx, ms[..j])
    decreases |ms|
  {
    if j < |ms| {
      assert ms[..|ms| - 1][..j] == ms[..j];
      MergeModelsAfterAbort(s, idx, ms[..|ms| - 1], j);
    } else {
      assert ms[..j] == ms;
    }
  }
}
