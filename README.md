# simple_mcp_client in Dafny

This project models the core of `simple_mcp_client`, a Python client for MCP (Model
Context Protocol) servers. It covers six parts:

- **The multi-server registry and router** (`MultiMCPClient`). It keeps a table of
  servers keyed by their normalised origin `scheme://netloc`, a table of tools keyed by
  name, and four routing counters. It adds and removes servers, discovers and
  refreshes their tools, finds and searches tools, and routes a tool call to the
  server that advertised the tool.
- **The security screening policy** (`SecurityManager`). It turns the verdicts of the
  Lakera Guard service into a return value or a `SecurityViolation`, four screening
  counters, and a filter over tool lists.
- **The Lakera Guard client.** This covers how the client is configured, what it sends
  for a piece of content, how it reads the verdict, and its fail-closed safety check.
- **The single-server MCP client** (`MCPClient`). This covers URL normalisation, the
  request pipeline (screen the request, post it, parse the reply, screen the result),
  the `tools/call` parameters, and the in-place filtering of `tools/list` results.
- **The JSON-RPC 2.0 envelope helpers.** These are `format_request`,
  `parse_response` and `validate_url`.
- **The server configuration list.** It supports add with duplicate rejection,
  remove-first-by-name and lookup.

A Python dict is an insertion-ordered association list, `OrderedDict.Dict`. Assigning
an existing key keeps its position, and assigning a new key appends it. A raised
exception is the `Raised` case of `Errors.Outcome`. Every network exchange is a
function passed in as a parameter:

- the Lakera Guard reply to a request posted to an endpoint (`Lakera.Guard`);
- the MCP server's reply to a posted body (`Client.Post`);
- the health probe (`Client.Health`);
- what a server's own client returns for `list_tools()` and `call_tool()` inside the
  multi-server client (`MultiClient.Listing`, `MultiClient.Invoke`).

The configuration file is an in-memory list (`ServerConfigs.ConfigStore.servers`).

Stateful parts are classes whose methods are proved against specification
functions:

- `Security.SecurityManager` is proved against `ToolStep`, `InteractionStep`,
  `ScreenList` and `ToolsListOutcome`. Tool screening and the filter loop of
  `screen_tools_list` are the methods `ScreenTool` and `ScreenTools`: they take
  the counters as a value and return the new ones, and the class methods store the
  result in `stats`.
- `Client.McpClient` is proved against `SendOutcome` and `ListToolsOutcome`.
- `MultiClient.MultiMcpClient` is proved against `Discover`, `RefreshAll`,
  `ToolsNotFrom` and `Matching`. It keeps the registry invariant `Valid()`: no
  duplicate keys, each entry stored under its own key, and every registered tool's
  server URL is a key of the server table.
- `ServerConfigs.ConfigStore` keeps names and URLs distinct.

## Model

| member | source | states |
|---|---|---|
| `Text.Lower` | src/simple_mcp_client/core/multi_client.py:238 | `s.lower()`: same length, every character lower-cased (ASCII) |
| `Text.RStrip` | src/simple_mcp_client/core/client.py:61 | `rstrip(c)`: the result is a prefix of the input that does not end in `c`, and every character dropped is `c` |
| `Text.RStripIdempotent` | src/simple_mcp_client/core/client.py:61 | a stripped server URL has nothing left to strip |
| `Text.NatToString` | src/simple_mcp_client/utils/helpers.py:53 | `str(n)` of a natural number: non-empty, decimal digits only, no leading zero, and the digits spell `n` |
| `Text.IntToString` | src/simple_mcp_client/utils/helpers.py:53 | `str(n)` of an error code: non-empty, starting with `-` exactly when negative, and the digits spell `|n|` |
| `OrderedDict.Get` | src/simple_mcp_client/core/multi_client.py:226 | `d.get(k)` is `None` exactly when `k` is not a key, and otherwise a value stored under `k` |
| `OrderedDict.Set` | src/simple_mcp_client/core/multi_client.py:123 | after `d[k] = v`, `k` finds `v`, every other key finds what it found before, and the key order is kept (a new key comes last) |
| `OrderedDict.SetNewKeyAppends` | src/simple_mcp_client/core/multi_client.py:183 | assigning a key not yet present appends exactly that entry |
| `OrderedDict.SetKeepsDistinct` | src/simple_mcp_client/core/multi_client.py:183 | assignment never creates a duplicate key |
| `OrderedDict.SetKeepsOthers` | src/simple_mcp_client/core/multi_client.py:183 | assignment leaves every entry under another key in its position |
| `OrderedDict.DeleteFacts` | src/simple_mcp_client/core/multi_client.py:154 | after `del d[k]`, `k` is absent, other lookups are unchanged and no entry is new; deleting an absent key changes nothing |
| `OrderedDict.DeleteDistinct` | src/simple_mcp_client/core/multi_client.py:158 | deletion never creates a duplicate key |
| `OrderedDict.DistinctKeysCount` | src/simple_mcp_client/core/multi_client.py:306-307 | `len(d)` is the number of distinct keys |
| `OrderedDict.MapValues` | src/simple_mcp_client/core/multi_client.py:288-295 | the table built from `d` has the same keys in the same order, each with its value mapped |
| `OrderedDict.GetMapValues` | src/simple_mcp_client/core/multi_client.py:288-295 | a lookup in the mapped table is the mapped lookup |
| `OrderedDict.MapValuesSnoc` | src/simple_mcp_client/core/multi_client.py:288-295 | one more loop assignment adds exactly the next mapped entry |
| `Json.EmptyObjectFalsy` | src/simple_mcp_client/security/security_manager.py:148 | an empty dict is falsy |
| `Url.SchemeOf` | src/simple_mcp_client/core/multi_client.py:95 | `urlparse` splits a lower-case scheme and the text after its `:` back off unchanged |
| `Url.NetlocOf` | src/simple_mcp_client/core/multi_client.py:95-96 | after `//`, the network location runs to the first `/`, `?` or `#` |
| `Url.NetlocHasNoDelimiter` | src/simple_mcp_client/core/multi_client.py:95-96 | a network location never contains `/`, `?` or `#` |
| `Url.OriginParts` | src/simple_mcp_client/core/multi_client.py:95-96 | `scheme://host/path` normalises to `scheme://host` |
| `Url.Normalize` | src/simple_mcp_client/core/multi_client.py:95-96 | `f"{scheme}://{netloc}"` of the parsed URL; its contract is stated by `Url.OriginParts` and `Url.NormalizeIdempotent` |
| `Url.NormalizeIdempotent` | src/simple_mcp_client/core/multi_client.py:143-147 | a normalised server key normalises to itself, so passing it back to `remove_server` or `refresh_tools` finds the same server |
| `Url.JoinAbsolutePath` | src/simple_mcp_client/security/lakera_client.py:107 | `urljoin(base, path)` for a path starting with a single `/`; its contract is stated by `Url.JoinAbsolutePathKeepsOnlyOrigin` |
| `Url.JoinAbsolutePathKeepsOnlyOrigin` | src/simple_mcp_client/security/lakera_client.py:107 | `urljoin(base, "/path")` on an http(s) base is the base's origin followed by the path; the base's own path is dropped |
| `Helpers.FormatRequest` | src/simple_mcp_client/utils/helpers.py:11-32 | the JSON-RPC request dict; its contract is stated by `Helpers.FormatRequestIsRequestObject` |
| `Helpers.FormatRequestIsRequestObject` | src/simple_mcp_client/utils/helpers.py:23-32 | the request is a JSON-RPC 2.0 request object with the given method and id; `params` is present exactly when non-empty, and then equals the params |
| `Helpers.ParseResponse` | src/simple_mcp_client/utils/helpers.py:48-55 | a missing or wrong `jsonrpc` is rejected before `error` is looked at; the call returns exactly when there is no `error`, and then returns `result`, or `{}` when it is absent |
| `Helpers.ParseSuccessResponse` | src/simple_mcp_client/utils/helpers.py:55 | a success response yields exactly its result |
| `Helpers.ParseErrorResponse` | src/simple_mcp_client/utils/helpers.py:51-53 | an error response is rejected with `MCP Error <code>: <message>` |
| `Helpers.ParseBareErrorObject` | src/simple_mcp_client/utils/helpers.py:51-53 | an error object without code or message is reported as `MCP Error unknown: Unknown error` |
| `Helpers.ValidateUrl` | src/simple_mcp_client/utils/helpers.py:68-75 | true exactly when the URL is non-empty and starts with `http://` or `https://`; such a URL parses with scheme `http` or `https` |
| `Helpers.ValidateUrlIsCaseSensitive` | src/simple_mcp_client/utils/helpers.py:72 | `HTTP://host` is refused although it parses as an http URL |
| `ServerConfigs.NewServerConfig` | src/simple_mcp_client/config/server_config.py:126-134 | the new record has the given fields, tags default to `[]` and metadata is empty |
| `ServerConfigs.ServerConfigDefaults` | src/simple_mcp_client/config/server_config.py:18-25 | defaults: enabled, 30 second timeout, priority 0, no description, no tags, no metadata |
| `ServerConfigs.IndexOfName` | src/simple_mcp_client/config/server_config.py:156-157 | the index of the first server with that name, or the length when there is none |
| `ServerConfigs.GetServerConfig` | src/simple_mcp_client/config/server_config.py:194-198 | `None` exactly when no server has the name; otherwise the first server with that name |
| `ServerConfigs.ConfigStore.ListServerConfigs` | src/simple_mcp_client/config/server_config.py:167-178 | the configured servers; on a valid store no two share a name or a URL |
| `ServerConfigs.RemoveAtDistinct` | src/simple_mcp_client/config/server_config.py:158 | popping an entry keeps names and URLs pairwise distinct |
| `ServerConfigs.GetAfterRemove` | src/simple_mcp_client/config/server_config.py:156-161 | with distinct names, a removed name is no longer found and every other lookup is unchanged |
| `ServerConfigs.GetAfterAppend` | src/simple_mcp_client/config/server_config.py:136 | an appended server with a new name is what a lookup of its name finds |
| `ServerConfigs.ConfigStore.constructor` | src/simple_mcp_client/config/server_config.py:31 | the configuration starts with no servers |
| `ServerConfigs.ConfigStore.AddServerConfig` | src/simple_mcp_client/config/server_config.py:117-140 | adds exactly when no server has the same name or URL, and then appends exactly the new record; otherwise nothing changes; distinct names and URLs are preserved |
| `ServerConfigs.ConfigStore.RemoveServerConfig` | src/simple_mcp_client/config/server_config.py:154-164 | removes exactly when some server has the name, and then only the first such entry, the rest in order; otherwise nothing changes; distinctness is preserved |
| `Lakera.NewGuardRequest` | src/simple_mcp_client/security/lakera_client.py:22-23 | the request carries the messages, and `dev_info` defaults to false |
| `Lakera.BoolFieldsFacts` | src/simple_mcp_client/security/lakera_client.py:30 | categories are accepted exactly when every member is a boolean, and keep the keys, their order and their values |
| `Lakera.ParseGuardResponse` | src/simple_mcp_client/security/lakera_client.py:26-32 | an object reply is accepted exactly when `flagged` is a boolean, `categories` (if present) an object of booleans, `category_scores` (if present) an object of numbers and `dev_info` absent, null or an object; the accepted members are carried over unchanged; absent categories and scores are empty; `dev_info` is absent exactly when missing or null; a non-object body cannot be unpacked |
| `Lakera.ParseGuardResponseDefaults` | src/simple_mcp_client/security/lakera_client.py:29-32 | a reply with only `flagged` has empty categories, empty scores and no developer information |
| `Lakera.NewLakeraClient` | src/simple_mcp_client/security/lakera_client.py:59-74 | raises `ValueError` exactly when neither the argument nor the environment gives a non-empty key; the argument wins; a region sets `https://<region>.api.lakera.ai/v2` over any base URL; `Authorization` is `Bearer <key>` |
| `Lakera.DefaultBaseUrlShape` | src/simple_mcp_client/security/lakera_client.py:46 | the default base URL is the https origin `api.lakera.ai` followed by the path `/v2` |
| `Lakera.GuardEndpointDropsVersion` | src/simple_mcp_client/security/lakera_client.py:107 | as written, the endpoint for every https base URL with a path is `https://<host>/guard`, never `<base>/guard` (see Findings) |
| `Lakera.GuardEndpointAsWritten` | src/simple_mcp_client/security/lakera_client.py:107 | the endpoint as written, `urljoin(base_url, "/guard")`; its contract is stated by `Lakera.GuardEndpointDropsVersion` (see Findings) |
| `Lakera.GuardEndpoint` | src/simple_mcp_client/security/lakera_client.py:107 | the corrected endpoint: the base URL without trailing `/`, followed by `/guard` |
| `Lakera.GuardEndpointKeepsVersion` | src/simple_mcp_client/security/lakera_client.py:107 | the corrected endpoint of the default base URL is `https://api.lakera.ai/v2/guard`, and a trailing `/` on the base is immaterial |
| `Lakera.UserMessage` | src/simple_mcp_client/security/lakera_client.py:96 | a text becomes `{"role": "user", "content": text}`, in that key order |
| `Lakera.ToMessages` | src/simple_mcp_client/security/lakera_client.py:95-98 | a string becomes one user message with that content; a list of messages is sent unchanged |
| `Lakera.ScreenContent` | src/simple_mcp_client/security/lakera_client.py:100-118 | a transport failure raises `RequestException`; every decoded reply yields exactly `ParseGuardResponse` of it. The request is the guard request built from the content, posted to the corrected endpoint `GuardEndpoint` (see Findings) |
| `Lakera.ScreenToolDescription` | src/simple_mcp_client/security/lakera_client.py:120-130 | screens the description as a plain string, so its properties are those of `Lakera.ScreenContent` on one user message |
| `Lakera.ScreenServerInteraction` | src/simple_mcp_client/security/lakera_client.py:132-152 | screens `InteractionText` of the method and parameters as a plain string; properties as in the `Lakera.InteractionText` and `Lakera.ScreenContent` rows |
| `Lakera.InteractionText` | src/simple_mcp_client/security/lakera_client.py:148-150 | `Method: <m>`, followed by `\nParameters: <params>` exactly when the parameters are non-empty |
| `Lakera.IsContentSafe` | src/simple_mcp_client/security/lakera_client.py:164-170 | true exactly when a verdict arrives and does not flag the content |
| `Lakera.GetThreatCategories` | src/simple_mcp_client/security/lakera_client.py:182-187 | the verdict's categories, or `{}` when screening fails |
| `Lakera.FailClosed` | src/simple_mcp_client/security/lakera_client.py:164-187 | an unreachable service, or a reply that is not a verdict, makes content unsafe with no categories (the reply from the corrected endpoint `GuardEndpoint`) |
| `Security.ToolStepOutcome` | src/simple_mcp_client/security/security_manager.py:82-117 | screening off: true, no counter moves. Screening fails: true, one more error. Unflagged: true, one more tool screened, no violation. Flagged: one more violation; with `fail_on_violation` it raises `SecurityViolation` with the categories and scores and counts an error, otherwise it returns false. Counters never go down |
| `Security.ToolStep` | src/simple_mcp_client/security/security_manager.py:82-117 | the tool-screening policy on a verdict and the counters; its contract is stated by `Security.ToolStepOutcome` |
| `Security.InteractionVerdicts` | src/simple_mcp_client/security/security_manager.py:144-150 | the request is always screened, and the response only when it is non-empty |
| `Security.InteractionStepOutcome` | src/simple_mcp_client/security/security_manager.py:139-187 | screening off: true, no change. A failed screening: true, one more error. Otherwise one more interaction; allowed exactly when neither verdict is flagged; one more violation exactly when flagged; the exception carries the request's categories and scores. Counters never go down |
| `Security.InteractionStep` | src/simple_mcp_client/security/security_manager.py:139-187 | the interaction-screening policy on the two verdicts and the counters; its contract is stated by `Security.InteractionStepOutcome` |
| `Security.EmptyResponseNotScreened` | src/simple_mcp_client/security/security_manager.py:147-152 | an empty response is not screened: a clean request only counts one interaction |
| `Security.ScreenList` | src/simple_mcp_client/security/security_manager.py:202-218 | the filter loop never decreases a counter |
| `Security.ScreenListStep` | src/simple_mcp_client/security/security_manager.py:204-216 | one more tool: kept exactly when its screening returns true, and a `SecurityViolation` is absorbed |
| `Security.ScreenListStopsAtError` | src/simple_mcp_client/security/security_manager.py:204-207 | once a non-dict tool raises, later tools change nothing |
| `Security.ScreenListKeepsSafeTools` | src/simple_mcp_client/security/security_manager.py:202-218 | with screening on, a list of dicts is filtered to exactly the tools judged safe, in order |
| `Security.SafeToolsSubsequence` | src/simple_mcp_client/security/security_manager.py:202-218 | the kept tools are an order-preserving subsequence of the input |
| `Security.SafeToolsMembers` | src/simple_mcp_client/security/security_manager.py:202-218 | a tool is kept exactly when it is in the input and judged safe |
| `Security.ToolsListOutcome` | src/simple_mcp_client/security/security_manager.py:189-218 | screening off: the input unchanged, no counter moves; on: a list of dicts becomes the safe tools. Counters never go down |
| `Security.StatsDictFacts` | src/simple_mcp_client/security/security_manager.py:55-60 | the statistics hold exactly the four counter keys, each with its counter |
| `Security.ScreenTool` | src/simple_mcp_client/security/security_manager.py:62-117 | on the counters it starts from, the result and new counters are `ToolStep` on the verdict for the tool's text |
| `Security.ScreenTools` | src/simple_mcp_client/security/security_manager.py:202-218 | the loop's result and counters, each tool going through tool screening, are `ScreenList` of the tools |
| `Security.DecideTool` | src/simple_mcp_client/security/security_manager.py:91-117 | once the verdict is in (or the screening failed), the result and counters agree with the policy `ToolStep` |
| `Security.DecideInteraction` | src/simple_mcp_client/security/security_manager.py:152-178 | the last steps of interaction screening agree with the policy `InteractionStep` |
| `Security.SecurityManager.constructor` | src/simple_mcp_client/security/security_manager.py:33-60 | the given client and switches, all four counters zero |
| `Security.SecurityManager.Create` | src/simple_mcp_client/security/security_manager.py:49 | without a client one is built from the environment key: it raises the missing-key `ValueError` exactly when there is none, and otherwise the manager holds `NewLakeraClient` of that key; zero counters and the given switches |
| `Security.SecurityManager.ScreenToolRegistration` | src/simple_mcp_client/security/security_manager.py:62-117 | result and new counters are `ToolStep` on the verdict for the tool's text |
| `Security.SecurityManager.ScreenServerInteraction` | src/simple_mcp_client/security/security_manager.py:119-187 | result and new counters are `InteractionStep` on the verdicts of the request and of a non-empty response |
| `Security.SecurityManager.ScreenToolsList` | src/simple_mcp_client/security/security_manager.py:189-218 | result and counters are `ToolsListOutcome` of the value passed |
| `Security.SecurityManager.ResetStats` | src/simple_mcp_client/security/security_manager.py:229-236 | all four counters back to zero |
| `Security.SecurityManager.GetScreeningStats` | src/simple_mcp_client/security/security_manager.py:220-227 | a copy of the counters as a dict; its contents are stated by `Security.StatsDictFacts` |
| `Client.NewMcpRequest` | src/simple_mcp_client/core/client.py:20-25 | `params` and `id` default to absent |
| `Client.RequestToJson` | src/simple_mcp_client/core/client.py:20-25 | the posted request object has the keys `method`, `params`, `id` in that order, with absent ones as null |
| `Client.OptionalObject` | src/simple_mcp_client/core/client.py:31-32 | an optional dict member is read when absent, null or an object, and rejected otherwise |
| `Client.ParseMcpResponse` | src/simple_mcp_client/core/client.py:131 | a non-object reply is a `TypeError`; an object is accepted exactly when `result` and `error` are each absent, null or an object and `id` is absent, null or a string; then `result` and `error` are those members and `id` is the string, or `None` when absent or null |
| `Client.ConnectsTo` | src/simple_mcp_client/core/client.py:83-91 | connected exactly when the health URL answers status 200; an unreachable server is not connected |
| `Client.RequestBody` | src/simple_mcp_client/core/client.py:116-120 | the posted body has the method, the params or `{}` when absent, and id `"1"` |
| `Client.PreScreenFacts` | src/simple_mcp_client/core/client.py:109-114 | without a manager nothing is screened; a screening that raises raises a `SecurityViolation`; counters never go down |
| `Client.PostScreenFacts` | src/simple_mcp_client/core/client.py:134-141 | response screening passes the response through unchanged or raises, does nothing without a manager, and never decreases a counter |
| `Client.SendOutcomeFacts` | src/simple_mcp_client/core/client.py:93-147 | without a manager the body is always posted and no counter moves; nothing is posted only after a `SecurityViolation`; a transport failure raises `RequestException`; a returned response is the parsed reply |
| `Client.SendOutcome` | src/simple_mcp_client/core/client.py:93-147 | the result, posted body and counters of `send_request`; its contract is stated by `Client.SendOutcomeFacts`, `Client.RequestViolationPostsNothing` and `Client.FlaggedRequestStillSent` |
| `Client.RequestViolationPostsNothing` | src/simple_mcp_client/core/client.py:109-114 | a request screening that raises stops the request before anything is posted |
| `Client.FlaggedRequestStillSent` | src/simple_mcp_client/core/client.py:109-120 | when the manager only warns, a flagged request is still posted |
| `Client.EmptyResultNotScreened` | src/simple_mcp_client/core/client.py:134 | a reply without a non-empty result moves the counters only for the request screening |
| `Client.CallToolParams` | src/simple_mcp_client/core/client.py:183-186 | the parameters are exactly `name` and `arguments`, in that order |
| `Client.ListToolsOutcomeFacts` | src/simple_mcp_client/core/client.py:156-170 | a failed or unscreened request is returned as it came; a screened non-empty result has `tools` replaced by the filtered list and keeps its error and id; counters never go down |
| `Client.ListToolsOutcome` | src/simple_mcp_client/core/client.py:149-170 | the result and counters of `list_tools`; its contract is stated by `Client.ListToolsOutcomeFacts` and `Client.ListToolsKeepsOtherMembers` |
| `Client.ListToolsKeepsOtherMembers` | src/simple_mcp_client/core/client.py:161 | replacing `tools` changes no other member of the result and keeps the key order |
| `Client.ScreenReply` | src/simple_mcp_client/core/client.py:134-141 | the manager's screening of a reply agrees with `PostScreen` |
| `Client.ScreenListed` | src/simple_mcp_client/core/client.py:159-162 | the manager's filtering of a listing agrees with `ScreenListing` |
| `Client.McpClient.ScreeningOf` | src/simple_mcp_client/core/client.py:66-68 | there is a screening exactly when the client has a manager |
| `Client.McpClient.constructor` | src/simple_mcp_client/core/client.py:45-68 | the URL is stored without trailing `/`; there is a manager only when security is enabled |
| `Client.McpClient.Create` | src/simple_mcp_client/core/client.py:66-68 | with security on and no manager given, a default manager is built with all three switches on and the Lakera client of the environment key; it raises exactly when the environment has no key; with security off there is no manager even if one was passed |
| `Client.McpClient.Connect` | src/simple_mcp_client/core/client.py:76-91 | true exactly when the client's health URL answers status 200 |
| `Client.McpClient.SendRequest` | src/simple_mcp_client/core/client.py:93-147 | the result, the posted body and the manager's counters are `SendOutcome` |
| `Client.McpClient.ListTools` | src/simple_mcp_client/core/client.py:156-170 | the result and the manager's counters are `ListToolsOutcome` |
| `Client.McpClient.CallTool` | src/simple_mcp_client/core/client.py:183-186 | a `tools/call` request with `CallToolParams`, as `SendOutcome` describes |
| `Client.McpClient.GetSecurityStats` | src/simple_mcp_client/core/client.py:195-197 | `None` exactly when there is no manager, else the manager's counters |
| `MultiClient.ToolOf` | src/simple_mcp_client/core/multi_client.py:175-180 | an entry is read when it is a dict with string name and description; the name defaults to `Unknown`, the description to `""` and falsy parameters to `{}`; the tool belongs to the listing server |
| `MultiClient.ToolOfDefaults` | src/simple_mcp_client/core/multi_client.py:21-25 | an empty entry is the tool `Unknown` with no description and `{}` parameters |
| `MultiClient.ParseToolsFacts` | src/simple_mcp_client/core/multi_client.py:174-187 | the tools read are the entries from the front, each read in place, up to the first unreadable entry, all belonging to the server |
| `MultiClient.ParseTools` | src/simple_mcp_client/core/multi_client.py:174-187 | the tools read from a listing; its contract is stated by `MultiClient.ParseToolsFacts` |
| `MultiClient.LastNamed` | src/simple_mcp_client/core/multi_client.py:183 | the last tool of a list with a given name, `None` exactly when none has it |
| `MultiClient.RegisterAllLastWriterWins` | src/simple_mcp_client/core/multi_client.py:174-183 | after registration a name is bound to the last advertised tool with that name, or keeps its old binding |
| `MultiClient.RegisterAllEntries` | src/simple_mcp_client/core/multi_client.py:183 | registration only adds the given tools under their own names, and keeps keys distinct |
| `MultiClient.RegisterAll` | src/simple_mcp_client/core/multi_client.py:174-183 | `self.tools[tool.name] = tool` for each tool in turn; its contract is stated by `MultiClient.RegisterAllLastWriterWins` and `MultiClient.RegisterAllEntries` |
| `MultiClient.Discover` | src/simple_mcp_client/core/multi_client.py:163-187 | an unusable listing (raised, error or no result) changes nothing; the server keeps its URL and connection flag |
| `MultiClient.DiscoverOutcome` | src/simple_mcp_client/core/multi_client.py:171-184 | a usable listing clears the server's tools and refills them with tools of this server, each registered under its name and counted once |
| `MultiClient.DiscoverEveryAdvertisedTool` | src/simple_mcp_client/core/multi_client.py:174-184 | when every entry is readable, each becomes the tool at its position and `tools_discovered` grows by the number of entries |
| `MultiClient.DiscoverFound` | src/simple_mcp_client/core/multi_client.py:171-184 | a list of entries is read from the front, registered and counted |
| `MultiClient.DiscoverNotList` | src/simple_mcp_client/core/multi_client.py:171-174 | a `tools` value that is not a list empties the server's tools and changes neither the table nor the counters |
| `MultiClient.ReadStep` | src/simple_mcp_client/core/multi_client.py:174-184 | a readable entry is the next tool read and the next assignment; an unreadable one ends the tools read |
| `MultiClient.ReadTools` | src/simple_mcp_client/core/multi_client.py:174-184 | the loop reads exactly the tools of `ParseTools` and registers them in turn |
| `MultiClient.DiscoverListing` | src/simple_mcp_client/core/multi_client.py:163-187 | the discovery steps agree with `Discover` |
| `MultiClient.RegisterListed` | src/simple_mcp_client/core/multi_client.py:171-184 | storing and registering the tools read agrees with `Registered` |
| `MultiClient.RegisteredOf` | src/simple_mcp_client/core/multi_client.py:181-184 | registering the tools read gives the server those tools, the table built from them, and the counter moved by their number |
| `MultiClient.StoreDiscovered` | src/simple_mcp_client/core/multi_client.py:120-123 | discovering a server's tools and storing it under its URL keeps the registry invariant |
| `MultiClient.StoreServer` | src/simple_mcp_client/core/multi_client.py:120-123 | discover then store: agrees with `Discover` and keeps the registry invariant |
| `MultiClient.ToolsNotFrom` | src/simple_mcp_client/core/multi_client.py:152-158 | the tool table without the tools of the removed server: an entry stays exactly when its tool is from another server |
| `MultiClient.ToolsNotFromLookup` | src/simple_mcp_client/core/multi_client.py:152-158 | a name bound to a tool of the removed server is gone; every other name keeps its binding |
| `MultiClient.ToolsNotFromDistinct` | src/simple_mcp_client/core/multi_client.py:152-158 | removal keeps tool names distinct |
| `MultiClient.DeleteToolsOf` | src/simple_mcp_client/core/multi_client.py:152-154 | the delete loop leaves exactly `ToolsNotFrom` |
| `MultiClient.RemoveStep` | src/simple_mcp_client/core/multi_client.py:153-154 | one deletion of the loop extends the removed prefix by one entry |
| `MultiClient.RemoveKeepsRegistry` | src/simple_mcp_client/core/multi_client.py:152-158 | deleting a server and its tools keeps the registry invariant |
| `MultiClient.MatchingMembers` | src/simple_mcp_client/core/multi_client.py:238-246 | a tool is found exactly when it is listed and the query occurs in its lower-cased name or description |
| `MultiClient.MatchingSubsequence` | src/simple_mcp_client/core/multi_client.py:238-246 | the search keeps table order |
| `MultiClient.Matching` | src/simple_mcp_client/core/multi_client.py:238-246 | the search filter; its contract is stated by `MultiClient.MatchingMembers` and `MultiClient.MatchingSubsequence` |
| `MultiClient.RefreshEvery` | src/simple_mcp_client/core/multi_client.py:203-205 | refreshing every server in table order agrees with `RefreshAll` and keeps the registry invariant and the server keys |
| `MultiClient.RefreshStep` | src/simple_mcp_client/core/multi_client.py:204-205 | one server's refresh keeps the invariant and the keys, and leaves later servers alone |
| `MultiClient.RefreshAll` | src/simple_mcp_client/core/multi_client.py:203-205 | rediscovery of the first `n` servers in table order; its contract is stated by `MultiClient.RefreshEvery` and `MultiClient.RefreshStep` |
| `MultiClient.StatsReportFacts` | src/simple_mcp_client/core/multi_client.py:304-309 | the report holds the four counters, then `total_servers` and `total_tools`, each under its own key |
| `MultiClient.StatsReport` | src/simple_mcp_client/core/multi_client.py:297-309 | the statistics dict; its contract is stated by `MultiClient.StatsReportFacts` |
| `MultiClient.TableSize` | src/simple_mcp_client/core/multi_client.py:306-307 | a table without repeated keys has as many entries as keys |
| `MultiClient.MultiMcpClient.constructor` | src/simple_mcp_client/core/multi_client.py:55-81 | no servers, no tools, zero counters, the given manager and settings |
| `MultiClient.MultiMcpClient.DiscoverTools` | src/simple_mcp_client/core/multi_client.py:163-187 | the server, tool table and counters are `Discover`; the server table is untouched |
| `MultiClient.MultiMcpClient.AddServer` | src/simple_mcp_client/core/multi_client.py:83-131 | added exactly when the normalised URL is new, the server's client can be built, and the health check answers 200. Otherwise nothing changes. When added, the server is stored connected under its normalised URL with its discovered tools, and `servers_added` grows by one. The registry invariant is kept |
| `MultiClient.MultiMcpClient.RemoveServer` | src/simple_mcp_client/core/multi_client.py:133-161 | removed exactly when the normalised URL is a key; then the server entry and exactly its tools are deleted; otherwise nothing changes; invariant kept |
| `MultiClient.MultiMcpClient.RefreshTools` | src/simple_mcp_client/core/multi_client.py:196-205 | with a URL, that server alone is rediscovered (an unknown one is ignored); without one, every server in table order; invariant and server keys kept |
| `MultiClient.MultiMcpClient.ListTools` | src/simple_mcp_client/core/multi_client.py:207-214 | the table's tools, one per entry and in table order, each routed to a registered server |
| `MultiClient.MultiMcpClient.FindTool` | src/simple_mcp_client/core/multi_client.py:216-226 | `None` exactly when the name is not registered; otherwise the tool stored under that name, on a registered server |
| `MultiClient.MultiMcpClient.SearchTools` | src/simple_mcp_client/core/multi_client.py:238-246 | exactly the listed tools matching the lower-cased query, in table order, as a subsequence of `list_tools()` |
| `MultiClient.MultiMcpClient.CallTool` | src/simple_mcp_client/core/multi_client.py:263-279 | an unknown tool or server raises `ValueError` with counters unchanged; otherwise the call is delegated, `requests_routed` grows by one, and `routing_errors` grows by one exactly when the delegate raises |
| `MultiClient.MultiMcpClient.GetServerInfo` | src/simple_mcp_client/core/multi_client.py:288-295 | one record per server under its URL, in table order, with its connection flag, tool count and tool names |
| `MultiClient.ServerInfo` | src/simple_mcp_client/core/multi_client.py:289-293 | one server's record; its keys and values are stated by `MultiClient.MultiMcpClient.GetServerInfo` |
| `MultiClient.MultiMcpClient.GetStats` | src/simple_mcp_client/core/multi_client.py:304-309 | the counters plus `total_servers` and `total_tools`, which equal the numbers of server and tool keys |
| `MultiClient.MultiMcpClient.Close` | src/simple_mcp_client/core/multi_client.py:311-316 | both tables empty, counters kept, invariant holds |

## Left out

- The network: HTTP posts and gets, `raise_for_status`, `.json()` and timeouts. Each
  becomes a function parameter that returns a reply or a failure. A reply that is not
  JSON counts as a transport failure.
- Session objects, logging, `close()` on the single-server client, on the security
  manager and on the Lakera client, and the context-manager methods. In
  `MultiMcpClient.Close`, closing each server's client is not modelled.
- In the multi-server client, each server's own `MCPClient` is reached only through
  `Listing` and `Invoke`. Its security counters and its screening are therefore not
  tracked there. Building it is modelled only for whether it raises.
- `Lakera.ScreenContent`: it posts to the corrected endpoint `GuardEndpoint`
  (`<base URL>/guard`). The source posts to `urljoin(base_url, "/guard")`, which drops
  the `/v2` of the base URL (lakera_client.py:107; see Findings). That endpoint is
  `GuardEndpointAsWritten`, and `GuardEndpointDropsVersion` states how the two differ.
  `Lakera.FailClosed` and every verdict used by `Security` and `Client` inherit the
  corrected endpoint. The guard service is a parameter, so only the endpoint string
  handed to it differs.
- `MultiClient.ToolOf`: a tool entry whose name or description is present but not a
  string ends discovery here, before the tool is stored anywhere. Python differs by
  the kind of value:
  - A number, bool or null name is stored in `server.tools` and registered under that
    key. A non-string description is stored as it is. Both fail only later, for
    example in `search_tools`.
  - A list or object name is appended to `server.tools`. The table assignment at
    multi_client.py:183 then raises `TypeError` (unhashable key), which ends discovery
    with that tool in `server.tools` but not in the table.
- `MultiClient.RefreshEvery`: it requires the registry invariant that every public
  method keeps. `MultiMcpClient.RefreshTools` therefore requires `Valid()`, and so do
  `AddServer` and `RemoveServer`.
- `urlparse` is modelled only as far as the client uses it:
  - scheme splitting with lower-casing;
  - the network location up to `/`, `?` or `#`.

  Whitespace stripping, bracketed IPv6 hosts, the schemes `urlparse` treats
  specially and port validation are left out. `urljoin` is modelled only for a single
  absolute path segment.
- `str()` and `repr()` of dicts and lists follow Python's layout. Escapes inside
  strings and float formatting are not modelled. Category scores are carried as
  opaque JSON values, and nothing is proved about their numbers.
- Lower-casing is ASCII only; Unicode case mapping is not modelled.
- pydantic validation is modelled only for the fields the core reads: `flagged`,
  `categories`, `category_scores`, `dev_info`, and the `result`, `error` and `id` of
  a response. Type coercion (for example a number where a string is expected) is
  treated as a validation error.
- Config file loading and saving, `get_config_path` and the `ClientConfig` fields
  other than `servers`. The configuration is an in-memory list.
- `safe_json_loads` and the command-line interface.

## Findings

| source | as written | input that shows it | evidently intended | confidence | as-written member | corrected member |
|---|---|---|---|---|---|---|
| src/simple_mcp_client/security/lakera_client.py:107 | `urljoin(self.base_url, "/guard")` replaces the whole path of the base URL, so the `/v2` version segment of every default and regional base URL is dropped | base URL `https://api.lakera.ai/v2` gives `https://api.lakera.ai/guard` | `https://api.lakera.ai/v2/guard`, the versioned endpoint the base URL names | not executed | `Lakera.GuardEndpointDropsVersion` | `Lakera.GuardEndpointKeepsVersion` |
