# MCP proxy core, modelled in Dafny

This project models the core of Open WebUI's MCP proxy. The proxy lets a chat
server use models hosted on remote MCP servers that speak the OpenAI wire
format. The core has two parts:

- **The remote endpoint client** (`MCPServerPlugin`,
  `backend/open_webui/utils/mcp_plugin.py`) sends three HTTP calls: a
  connectivity probe, a model listing and a chat completion. It also formats
  raw model entries, builds bearer headers and payloads, and returns a
  configuration template. This is module `McpPlugin` (mcp_plugin.dfy).
- **The router** (`backend/open_webui/routers/mcp.py`) keeps two things in the
  application state. One is the configuration (`ENABLE_MCP_API`,
  `MCP_BASE_URLS`, `MCP_API_CONFIGS`). The other is the model catalog
  `MCP_MODELS`: a dictionary from model id to model dictionary, each with a
  `urls` list of endpoint indices. The router prunes the per-endpoint settings
  on update. It refreshes the catalog from every endpoint. It routes chat
  completions to the first endpoint of a model, and frames streamed lines as
  server-sent events.

The files:

- wrappers.dfy holds `Option` and `Result`.
- pyjson.dfy (`PyJson`) holds JSON values as Python sees them. It gives
  `dict.get` with a default and truthiness. It gives hashing: a list or dict
  cannot be a key, and `True` and `1` are the same key. It gives `str()` of
  scalars and the decimal form of an index.
- catalog.dfy (`McpCatalog`) states the catalog merge of `get_all_models` on
  values. It proves what a whole refresh computes against reference
  definitions built independently of the step-by-step merge.
- mcp_router.dfy (`McpRouter`) holds the router's pure specifications and the
  class `McpState`.
  - The class keeps the model dictionaries as objects (`ModelRecord`), so one
    dictionary can be both in the catalog and in the returned listing.
  - Its methods run the source's loops and in-place updates. Each is proved to
    follow a specification function.

Every HTTP call is an application of a `Remote`, a function from the request
the client builds to the response. The URL, headers, timeout and payload sent
are therefore part of the contracts. `ENABLE_FORWARD_USER_INFO_HEADERS` and the
verified user are parameters.

Two consequences of the code are worth stating:

- `raise_for_status` raises only for statuses 400 to 599, so a 1xx or 3xx
  answer counts as success just as a 2xx one does (`IsHttpError`). The model
  follows this exactly.
- The router turns every upstream failure during a completion into a 500, and
  the upstream status is not passed on. The detail is
  "Erro ao criar chat completion: " followed by the exception's text. The
  model keeps the status and the prefix. In place of the text it records the
  cause (a `Cause` value), except for the NameError, whose text it spells out.

## Model

| member | source | states |
|---|---|---|
| PyJson.KeyOf | backend/open_webui/routers/mcp.py:148-149 | a value can be a dictionary key exactly when it is not a list or a dict |
| PyJson.NatToString | backend/open_webui/routers/mcp.py:73 | `str(i)` of an index: at least one character, all decimal digits, a leading '0' only for 0 itself |
| PyJson.NatToStringValue | backend/open_webui/routers/mcp.py:73 | the digits of `str(i)` read back in base 10 as i itself |
| PyJson.NatToStringInjective | backend/open_webui/routers/mcp.py:73-78 | two different indices never have the same decimal key |
| PyJson.HashableHasText | backend/open_webui/routers/mcp.py:187 | every id that can be a key has a text for the not-found message |
| McpPlugin.BuildHeaders | backend/open_webui/utils/mcp_plugin.py:42-44 | the headers built in place equal the bearer rule `AuthHeaders` |
| McpPlugin.BearerHeaderRule | backend/open_webui/utils/mcp_plugin.py:65-67 | Authorization is present iff the api key is truthy; it then reads "Bearer " + key; all other headers are unchanged |
| McpPlugin.VerifyConnection | backend/open_webui/utils/mcp_plugin.py:30-51 | true exactly when GET {url}/v1/models (5 s timeout, bearer rule) gets a response that is not 4xx/5xx; every failure is false |
| McpPlugin.FormatModelDefaults | backend/open_webui/utils/mcp_plugin.py:77-93 | id, name, created and description are the entry's own values when given; otherwise id defaults to "", name to the id, created to 0, description to "Modelo MCP"; profile_image_url is "/static/favicon.png"; vision and tools to false when `capabilities` or the key inside it is missing, and to the given value otherwise; object "model", owned_by "mcp", mcp the raw entry, chat true |
| McpPlugin.FormatModelSucceeds | backend/open_webui/utils/mcp_plugin.py:76-93 | an entry formats iff it is a dict whose capabilities, when present, is a dict |
| McpPlugin.FormatAllOnePerEntry | backend/open_webui/utils/mcp_plugin.py:75-94 | the loop succeeds iff every entry formats, and then gives one model per entry, in order |
| McpPlugin.FormatAllFailurePersists | backend/open_webui/utils/mcp_plugin.py:76-99 | one entry that fails makes the whole loop fail |
| McpPlugin.GetModels | backend/open_webui/utils/mcp_plugin.py:53-99 | the loop with `append` returns what ListModels specifies: formatted entries or [] on any failure |
| McpPlugin.ListModelsOnePerEntry | backend/open_webui/utils/mcp_plugin.py:72-99 | one formatted model per `data` entry, in order, when the call succeeds and every entry formats; otherwise [] |
| McpPlugin.ChatPayloadContents | backend/open_webui/utils/mcp_plugin.py:118-133 | the payload holds model, messages (None becomes []) and stream from the arguments, every keyword argument, and nothing else |
| McpPlugin.ChatOutcome | backend/open_webui/utils/mcp_plugin.py:135-150 | no response and 4xx/5xx are failures that are passed on; success streams the lines, or else returns the parsed body |
| McpPlugin.CreateChatCompletion | backend/open_webui/utils/mcp_plugin.py:101-150 | the reply is ChatOutcome of POST {url}/v1/chat/completions with JSON headers, the bearer rule, the payload, 60 s timeout |
| McpPlugin.GetModelConfigTemplate | backend/open_webui/utils/mcp_plugin.py:152-164 | the API disabled, no URLs, empty key and settings maps |
| McpPlugin.ConvertAgreesWithListing | backend/open_webui/utils/mcp_plugin.py:166-192 | fails on the same entries as the listing's formatting, and computes the same id, name, created, description and capabilities |
| McpCatalog.Observe | backend/open_webui/routers/mcp.py:145-158 | the listing as seen has one element per item with that item's model |
| McpCatalog.ObserveAfterRefresh | backend/open_webui/routers/mcp.py:143-154 | after any refresh, the element that is the catalog's object for its id shows its old indices followed by every endpoint that listed it, later ones included; every other element shows only its own endpoint |
| McpCatalog.MergeModelsAborts | backend/open_webui/routers/mcp.py:142-158 | an endpoint's merge stops exactly when one of its model ids cannot be a key |
| McpCatalog.MergeModelsUrls | backend/open_webui/routers/mcp.py:142-154 | within one endpoint, each merged key gains the index once and every other key keeps its urls |
| McpCatalog.MergeModelsKeys | backend/open_webui/routers/mcp.py:148-150 | one endpoint's merge adds exactly the keys it processed |
| McpCatalog.MergeModelsModel | backend/open_webui/routers/mcp.py:148-154 | a stored model is never replaced; a new key holds its first model |
| McpCatalog.MergeModelsPending | backend/open_webui/routers/mcp.py:142-158 | an endpoint that merges without failing adds all its models, in order, tagged with its index |
| McpCatalog.AddIndexKeepsNoDuplicates | backend/open_webui/routers/mcp.py:153-154 | the guarded append keeps urls free of duplicates, keeps them as a prefix, and holds the index afterwards |
| McpCatalog.MergeModelCoherent | backend/open_webui/routers/mcp.py:142-154 | one merge step keeps the catalog well formed, keeps every owner resolvable, and only grows the entries |
| McpCatalog.MergeModelsCoherent | backend/open_webui/routers/mcp.py:142-154 | the same for a whole endpoint |
| McpCatalog.MergeAllUrls | backend/open_webui/routers/mcp.py:132-154 | after a refresh a key's urls are its old urls, then each endpoint that merged it, each added once |
| McpCatalog.MergeAllKeys | backend/open_webui/routers/mcp.py:127-154 | a key is in the catalog after a refresh iff it was before, or some endpoint merged it |
| McpCatalog.MergeAllModels | backend/open_webui/routers/mcp.py:148-154 | the model under a key is the old one, or else the first one merged under it |
| McpCatalog.MergeAllFlat | backend/open_webui/routers/mcp.py:130-160 | the flat listing is the concatenation of the endpoints that did not fail, in index order |
| McpCatalog.MergeEndpointFlat | backend/open_webui/routers/mcp.py:139-158 | one endpoint extends the flat listing by all its models tagged with its index, or by nothing when it was skipped or an id aborted the merge |
| McpCatalog.MergeAllCoherent | backend/open_webui/routers/mcp.py:130-160 | a refresh keeps the catalog well formed and every owner resolvable |
| McpCatalog.RefreshNeverPrunes | backend/open_webui/routers/mcp.py:127-154 | the key set after a refresh contains the key set before |
| McpCatalog.NewEntryAfterRefresh | backend/open_webui/routers/mcp.py:148-154 | a new id ends with exactly the endpoints that listed it, ascending, and the model first listed |
| McpCatalog.KnownEntryAfterRefresh | backend/open_webui/routers/mcp.py:151-154 | a known id keeps its model; its old urls stay a prefix; no duplicates; it gains exactly the endpoints that listed it |
| McpCatalog.ContributionsOrdered | backend/open_webui/routers/mcp.py:130-160 | the listing is ordered by endpoint; every element comes from an endpoint that merged without failing |
| McpCatalog.TwoEndpointsOneModel | backend/open_webui/routers/mcp.py:145-154 | one model on endpoints 0 and 1 gives one entry with urls [0, 1], listed twice: the first element shows [0, 1] through the shared object, the second shows [1] |
| McpRouter.IndexKeysMembership | backend/open_webui/routers/mcp.py:73 | the kept keys are the decimal forms of 0 .. n-1 |
| McpRouter.PruneConfigs | backend/open_webui/routers/mcp.py:73-78 | a key is kept iff it was given and is `str(i)` for some index i below the URL count; kept values are unchanged |
| McpRouter.PruneConfigsExample | backend/open_webui/routers/mcp.py:73-78 | two URLs with settings under "0", "1" and "2" keep "0" and "1" |
| McpRouter.PruneDropsNonCanonicalKeys | backend/open_webui/routers/mcp.py:73-78 | a key with a leading zero such as "01" is dropped |
| McpRouter.ScalarApiKeyHeader | backend/open_webui/routers/mcp.py:134-137 | a configured scalar api_key gives a bearer header iff it is truthy |
| McpRouter.PrunedApiKeyLookup | backend/open_webui/routers/mcp.py:194-197 | after pruning, the api key of every index below the URL count is looked up as before; any other index finds none |
| McpRouter.DisabledListing | backend/open_webui/routers/mcp.py:124-125 | with the API disabled the listing is empty and the state is unchanged |
| McpRouter.RefreshPreservesCatalog | backend/open_webui/routers/mcp.py:127-158 | a refresh keeps the configuration and a well formed catalog; it never drops a key or rewrites a model; it only grows urls |
| McpRouter.RefreshListing | backend/open_webui/routers/mcp.py:130-160 | the listing is every endpoint that did not fail, in index order, each with its models in order |
| McpRouter.NonEmptyLines | backend/open_webui/routers/mcp.py:223-224 | every element kept is a non-empty upstream line, and every non-empty upstream line is kept |
| McpRouter.NonEmptyLinesAppend | backend/open_webui/routers/mcp.py:223-224 | the lines kept from a + b are those kept from a followed by those kept from b, so the upstream order is kept |
| McpRouter.FramesOfLines | backend/open_webui/routers/mcp.py:222-225 | one frame per non-empty line, in order, each the line + "\n\n"; removing the delimiters gives back exactly the non-empty lines |
| McpRouter.TwoLineStream | backend/open_webui/routers/mcp.py:222-225 | two non-empty lines give two frames |
| McpRouter.FrameStream | backend/open_webui/routers/mcp.py:222-225 | the framing loop yields exactly Frames of the upstream lines |
| McpRouter.Extras | backend/open_webui/routers/mcp.py:217 | the extras are every body key except model, messages and stream, with the body's values |
| McpRouter.Resolve | backend/open_webui/routers/mcp.py:177-190 | the lookup keeps the catalog well formed, and an entry it finds has an endpoint |
| McpRouter.DisabledCompletion | backend/open_webui/routers/mcp.py:169-173 | with the API disabled a completion fails with 400 "API MCP não está habilitada" and nothing changes |
| McpRouter.LookupRefreshesOnce | backend/open_webui/routers/mcp.py:180-188 | a refresh is due exactly when MCP_MODELS is missing or lacks the id; a cached id leaves the state as it was; an unknown id leaves the state of one refresh; if that refresh finds it, the reply is Dispatch of the refreshed entry, as for a cached id in the refreshed state; if still unknown the reply is 400 "Modelo não encontrado: " + id |
| McpRouter.KnownModelRouting | backend/open_webui/routers/mcp.py:190-218 | a known model is sent to base URL urls[0] with the key under str(urls[0]); the payload holds the body's keys, with user_info when forwarding |
| McpRouter.StaleIndexFails | backend/open_webui/routers/mcp.py:191-192 | an index beyond the URL list gives 500 and sends nothing |
| McpRouter.ReservedBodyKeyFails | backend/open_webui/routers/mcp.py:211-218 | a body key "url", "api_key" or "self" never reaches the endpoint: the reply is the lookup's own error (such as the 400 not-found), or a 500 once the model is found, whatever the upstream would answer |
| McpRouter.TemplateDisablesApi | backend/open_webui/utils/mcp_plugin.py:159-164 | a consequence of the two definitions, not a path the router takes: a configuration shaped like the template gives an empty listing and 400 for every completion |
| McpRouter.UpdateRoundTrip | backend/open_webui/routers/mcp.py:47-84 | after an update get_config reports what update_config returned, and submitting it again stores the same configuration |
| McpRouter.StreamingNeverSucceedsAsWritten | backend/open_webui/routers/mcp.py:220-238 | as written, no completion streams: every reply the corrected route streams is a 500 instead |
| McpRouter.StreamingRequestExample | backend/open_webui/routers/mcp.py:220-227 | a concrete streaming request that the corrected route answers with one frame and the code as written with 500 |
| McpRouter.McpState.UpdateConfig | backend/open_webui/routers/mcp.py:61-84 | stores the flag, the URLs and the pruned settings, returns them, and leaves the catalog alone |
| McpRouter.McpState.MergeOne | backend/open_webui/routers/mcp.py:142-154 | one model on the objects: a fresh dictionary with urls [idx], stored under a new id, or the index added to the known entry |
| McpRouter.McpState.Insert | backend/open_webui/routers/mcp.py:149-150 | the new dictionary is stored under its id and nothing else changes |
| McpRouter.McpState.AddEndpoint | backend/open_webui/routers/mcp.py:151-154 | only the entry under the id gains the index, once |
| McpRouter.McpState.MergeEndpointModels | backend/open_webui/routers/mcp.py:142-154 | the model loop of one endpoint follows MergeModels; its dictionaries match the listing items, owners being the stored objects |
| McpRouter.McpState.RefreshEndpoint | backend/open_webui/routers/mcp.py:132-158 | one endpoint iteration follows MergeEndpoint: skipped on unreadable settings; nothing added on an unhashable id |
| McpRouter.McpState.MergeStep | backend/open_webui/routers/mcp.py:142-154 | one model on the objects takes the catalog to what MergeModel computes, reports its abort, and keeps the listed objects matching the pending items |
| McpRouter.McpState.RefreshStep | backend/open_webui/routers/mcp.py:133-156 | one endpoint iteration extends the catalog and the listing exactly as MergeAll does for one more endpoint; the objects keep matching the listing |
| McpRouter.McpState.RefreshAll | backend/open_webui/routers/mcp.py:130-158 | the endpoint loop leaves the catalog and listing MergeAll computes over all endpoints, in index order, configuration untouched, no stored object replaced |
| McpRouter.McpState.GetAllModels | backend/open_webui/routers/mcp.py:119-160 | one call is one refresh in the `refreshes` count; the state and listing are those of GetAllModelsSpec; the objects returned show what Observe computes, catalog entries shared |
| McpRouter.MatchesObserve | backend/open_webui/routers/mcp.py:145-158 | listed objects show, element by element, the catalog entry for owners and [endpoint] otherwise |
| McpRouter.McpState.Lookup | backend/open_webui/routers/mcp.py:177-190 | the lookup refreshes exactly once when NeedsRefresh holds and not at all otherwise (the `refreshes` count); its state and result follow Resolve, and it returns the stored object |
| McpRouter.McpState.Route | backend/open_webui/routers/mcp.py:190-230 | the reply is the one Dispatch specifies, and the state is unchanged |
| McpRouter.McpState.CreateChatCompletion | backend/open_webui/routers/mcp.py:162-238 | the new state and the reply are those of CompletionSpec; one refresh is counted exactly when the API is enabled, the body is an object and NeedsRefresh holds for its model id, none otherwise |
| McpPlugin.AuthHeaders | backend/open_webui/utils/mcp_plugin.py:42-44 | definition of the bearer rule; characterised by McpPlugin.BearerHeaderRule |
| McpPlugin.FormatModel | backend/open_webui/utils/mcp_plugin.py:77-93 | definition of one formatted entry; characterised by McpPlugin.FormatModelDefaults and McpPlugin.FormatModelSucceeds |
| McpPlugin.IsHttpError | backend/open_webui/utils/mcp_plugin.py:47 | definition of the statuses `raise_for_status` rejects (400 to 599); characterised by McpPlugin.VerifyConnection and McpPlugin.ChatOutcome |
| McpPlugin.FormatAll | backend/open_webui/utils/mcp_plugin.py:75-94 | definition of the formatting loop; characterised by McpPlugin.FormatAllOnePerEntry and McpPlugin.FormatAllFailurePersists |
| McpPlugin.KeyTruthy | backend/open_webui/utils/mcp_plugin.py:43 | definition of `if api_key:` for an optional text key; characterised by McpPlugin.BearerHeaderRule |
| McpPlugin.ProbeRequest | backend/open_webui/utils/mcp_plugin.py:42-46 | definition of the probe GET {url}/v1/models, bearer rule, 5 s timeout; characterised by McpPlugin.VerifyConnection |
| McpPlugin.Succeeded | backend/open_webui/utils/mcp_plugin.py:46-51 | definition of a probe that returns True: a response that is not 4xx/5xx; characterised by McpPlugin.VerifyConnection |
| McpPlugin.ListingRequest | backend/open_webui/utils/mcp_plugin.py:64-68 | definition of the listing GET {url}/v1/models, bearer rule, 10 s timeout; characterised by McpPlugin.ListModelsOnePerEntry and McpPlugin.GetModels |
| McpPlugin.ListingEntries | backend/open_webui/utils/mcp_plugin.py:69-72 | definition of the `data` entries of a listing response; characterised by McpPlugin.ListModelsOnePerEntry |
| McpPlugin.ListModels | backend/open_webui/utils/mcp_plugin.py:64-99 | definition of get_models; characterised by McpPlugin.ListModelsOnePerEntry and followed by McpPlugin.GetModels |
| McpPlugin.ChatPayload | backend/open_webui/utils/mcp_plugin.py:128-133 | definition of the payload; characterised by McpPlugin.ChatPayloadContents |
| McpPlugin.ChatRequest | backend/open_webui/utils/mcp_plugin.py:118-141 | definition of the POST sent; characterised by McpPlugin.CreateChatCompletion and McpRouter.KnownModelRouting |
| McpPlugin.ConvertToOpenAiFormat | backend/open_webui/utils/mcp_plugin.py:166-192 | definition; characterised by McpPlugin.ConvertAgreesWithListing |
| McpCatalog.MergeModel | backend/open_webui/routers/mcp.py:142-154 | definition of one model's merge; characterised by McpCatalog.MergeModelCoherent and McpRouter.McpState.MergeOne |
| McpCatalog.AddIndex | backend/open_webui/routers/mcp.py:153-154 | definition of the guarded append; characterised by McpCatalog.AddIndexKeepsNoDuplicates |
| McpCatalog.MergeModels | backend/open_webui/routers/mcp.py:142-154 | definition of one endpoint's model loop; characterised by McpCatalog.MergeModelsAborts, MergeModelsUrls, MergeModelsKeys, MergeModelsModel and MergeModelsPending |
| McpCatalog.MergeEndpoint | backend/open_webui/routers/mcp.py:132-158 | definition of one endpoint's iteration; characterised by McpCatalog.MergeModelsAborts and McpCatalog.MergeModelsPending |
| McpCatalog.MergeAll | backend/open_webui/routers/mcp.py:130-160 | definition of the endpoint loop; characterised by McpCatalog.MergeAllUrls, MergeAllKeys, MergeAllModels and MergeAllFlat |
| McpRouter.FormConfig | backend/open_webui/routers/mcp.py:68-78 | definition of the stored configuration; characterised by McpRouter.PruneConfigs and McpRouter.UpdateRoundTrip |
| McpRouter.ConfigReport | backend/open_webui/routers/mcp.py:47-59 | definition of get_config, whose `baseUrls` is also get_urls (mcp.py:86-94); characterised by McpRouter.UpdateRoundTrip |
| McpRouter.ApiKeyFor | backend/open_webui/routers/mcp.py:194-197 | definition of the api key lookup under str(idx); characterised by McpRouter.ScalarApiKeyHeader and McpRouter.PrunedApiKeyLookup |
| McpRouter.GetAllModelsSpec | backend/open_webui/routers/mcp.py:119-160 | definition of get_all_models on values; characterised by McpRouter.DisabledListing, RefreshPreservesCatalog and RefreshListing |
| McpRouter.Frames | backend/open_webui/routers/mcp.py:222-225 | definition of the framing; characterised by McpRouter.FramesOfLines |
| McpRouter.Enabled | backend/open_webui/routers/mcp.py:124 | definition of the feature flag test (also mcp.py:169); characterised by McpRouter.DisabledListing and McpRouter.DisabledCompletion |
| McpRouter.ApiKeyText | backend/open_webui/routers/mcp.py:137 | definition of the key text the plugin sends for a configured `api_key`; characterised by McpRouter.ScalarApiKeyHeader |
| McpRouter.Internal | backend/open_webui/routers/mcp.py:233-238 | definition of the 500 "Erro ao criar chat completion: " + the cause; characterised by McpRouter.StaleIndexFails and McpRouter.ReservedBodyKeyFails |
| McpRouter.StreamingNameError | backend/open_webui/routers/mcp.py:227-238 | definition of the 500 the missing StreamingResponse import causes; characterised by McpRouter.StreamingNeverSucceedsAsWritten and McpRouter.StreamingRequestExample |
| McpRouter.ModelRecord.constructor | backend/open_webui/routers/mcp.py:143-144 | a model dictionary starts with the formatted model and an empty `urls` list, which the merge then appends to |
| McpRouter.IndexKeys | backend/open_webui/routers/mcp.py:73 | definition of `list(map(str, range(n)))`; characterised by McpRouter.IndexKeysMembership |
| McpRouter.EndpointOutcome | backend/open_webui/routers/mcp.py:133-139 | definition of what one endpoint yields: skipped when its settings cannot be read, else get_models with the key under str(idx); characterised by McpRouter.McpState.RefreshEndpoint and McpRouter.RefreshListing |
| McpRouter.Outcomes | backend/open_webui/routers/mcp.py:132-139 | definition of the outcomes of all endpoints in index order; characterised by McpRouter.RefreshListing |
| McpRouter.NeedsRefresh | backend/open_webui/routers/mcp.py:180 | definition of the refresh test; characterised by McpRouter.LookupRefreshesOnce and McpRouter.McpState.Lookup |
| McpRouter.NotFound | backend/open_webui/routers/mcp.py:184-188 | definition of the 400 "Modelo não encontrado: " + id; characterised by McpRouter.LookupRefreshesOnce |
| McpRouter.UserInfo | backend/open_webui/routers/mcp.py:201-206 | definition of the forwarded name, id, email and role; characterised by McpRouter.KnownModelRouting |
| McpRouter.OutgoingBody | backend/open_webui/routers/mcp.py:200-206 | definition of the body after the optional user_info injection; characterised by McpRouter.KnownModelRouting and McpRouter.ReservedBodyKeyFails |
| McpRouter.ReplyOf | backend/open_webui/routers/mcp.py:220-230 | definition of the reply made of the plugin's result; characterised by McpRouter.KnownModelRouting and McpRouter.FramesOfLines |
| McpRouter.Dispatch | backend/open_webui/routers/mcp.py:190-218 | definition of the call to the resolved endpoint; characterised by McpRouter.KnownModelRouting, StaleIndexFails and ReservedBodyKeyFails |
| McpRouter.CompletionSpec | backend/open_webui/routers/mcp.py:162-238 | definition of the completion (corrected for the streaming finding); characterised by McpRouter.DisabledCompletion, LookupRefreshesOnce and KnownModelRouting |
| McpRouter.CompletionAsWritten | backend/open_webui/routers/mcp.py:220-238 | definition of the completion as written; characterised by McpRouter.StreamingNeverSucceedsAsWritten and StreamingRequestExample |

## Left out

- HTTP itself (`requests`, timeouts as time, `iter_lines` reading a live
  connection) is replaced by the `Remote` parameter. A remote is a pure
  function, so the model says nothing about retries, reuse or the order of
  side effects on the server.
- FastAPI routing, the `get_admin_user`/`get_verified_user` dependencies and
  pydantic validation are not modelled. Forms arrive already typed, and the
  verified user is always present.
- Logging is not modelled. Every `log.error`/`log.exception` has no other
  effect.
- JSON parsing of request and response bodies is outside the model.
  `request.json()` yields a `Json` value, and `response.json()` yields
  `Option<Json>`, which is None when the body is not JSON.
- The `Json` values hold no floats, so float ids, float truthiness and
  `1.0 == 1` as a key are outside the model.
- Dictionary key order (payload, catalog, settings) is not modelled, because
  maps are unordered here. The order of the flat listing is kept.
- Concurrent requests are not modelled. Each method runs alone on the state.
- `ModelMeta` and `ModelParams` are foreign classes. They are records holding
  the values passed to them.
- The POST /verify endpoint (mcp.py:96-117) is not modelled, nor its wrapping
  of its own 400 in the generic except. Only the plugin's `verify_connection`
  is.
- `get_urls` (mcp.py:86-94) is the `baseUrls` field of `ConfigReport`, and has
  no member of its own.
- ApiKeyText: a truthy list or dict `api_key` would be formatted by Python into
  the header text. The model sends no header for it.
- McpRouter.Internal: the text of the caught exception (`str(e)`) is a
  `Cause` value. Only the NameError text and the fixed 400 messages are
  modelled as text.
- McpRouter.FrameStream: it computes all frames at once. The model does not
  capture that the generator is lazy, nor an upstream failure in the middle of
  a stream.
- McpRouter.McpState.Route: the streamed branch is chosen by the plugin's
  result, not by re-testing `stream`. The two are equivalent by
  `ChatOutcome`'s contract.
- The template's `MCP_API_KEYS` map is returned, but nothing in the core reads
  it.

## Findings

| source | as written | input that shows it | evidently intended | confidence | as-written member | corrected member |
|---|---|---|---|---|---|---|
| backend/open_webui/routers/mcp.py:227 | `StreamingResponse` is used, but mcp.py never imports it. Answering a streaming completion therefore raises NameError, which the generic handler turns into a 500 | model "m1" cached on endpoint 0; body `{"model": "m1", "stream": true}`; upstream answers 200 with one line | reply with the framed lines as a `text/event-stream` response | not executed | McpRouter.CompletionAsWritten | McpRouter.McpState.CreateChatCompletion |

`McpRouter.StreamingRequestExample` exhibits the input above.
`McpRouter.StreamingNeverSucceedsAsWritten` shows that the code as written
streams nothing at all. The corrected specification `McpRouter.CompletionSpec`
streams `Frames` of the upstream lines. The class method follows it.
