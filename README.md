# YouTube sponsor analyst: dispatcher, cache and detector

This project models the core of a small system that finds sponsor segments in
YouTube videos. It has three parts:

- **The MCP server.** It offers one tool, `analyze_sponsor_block`. The tool
  fetches a video's transcript, stores it in a shared transcript cache and
  analyses it. With no model client configured, the analysis is a fixed mock
  report. The server also lists every cached transcript as a
  `youtube://transcript/<id>` resource, reads those resources back, and
  serves one prompt template, `sponsor_detective`.
- **A cache-less variant of the server** (`server.py`). It uses the same tool
  name but has its own mock text and its own error texts.
- **The proxy add-on.** It watches browser traffic for YouTube watch pages and
  queues the video ids it sees. An inspector window drains that queue and
  starts an analysis.

Configuration also makes two choices at start-up: which transports run (stdio,
SSE or both) and which model client is used (a local Ollama endpoint, the
hosted API, or none).

Modules, one per source file:

| module | file | models |
|---|---|---|
| `McpTypes` | mcp_types.dfy | the `mcp.types` records. `Option`/`Result`. The Python exceptions a handler raises (`Raised`). |
| `Text` | text.dfy | `str.split("/")`, with `Join` as its reference inverse. The substring test `t in s`. |
| `Core` | core.dfy | client selection in both `core.py` files. The text `fetch_transcript` returns. The shared cache, as a class over a Python dict that keeps insertion order. |
| `Resources` | resources.dfy | `handle_list_resources` and `handle_read_resource` |
| `Prompts` | prompts.dfy | `handle_list_prompts` and `handle_get_prompt` |
| `Tools` | tools.dfy | `handle_list_tools` and `handle_call_tool`. The mock report. |
| `Transport` | transport.dfy | the mode to transports choice in `main` of `mcp_test/server.py` |
| `SimpleServer` | simple_server.dfy | `list_tools` and `call_tool` of `server.py` |
| `ProxyAddon` | proxy_addon.dfy | `Detector.request`, `check_queue`, `on_analyze` |

The external collaborators are function-typed parameters:

- `extract: string -> Extraction` stands for yt-dlp's `extract_info`.
- `complete: string -> Completion` stands for the chat-completion call.

Places where the code behaves in ways a reader might not expect:

- After a tool call, reading the resource returns the cached **transcript**
  (the text `fetch_transcript` returned). It does not return the analysis or
  mock text. `handle_call_tool` caches the transcript, not the analysis.
- The detector has no connection-level (server-name) filter. Only the
  per-request host/path/query test exists.
- A resource read also rejects URIs with fewer than four `/`-separated parts.
  Parts after the fourth are ignored. Neither the scheme nor the second part
  (the host position) is checked.
- The tool and prompt argument is called `video_id`. The tool rejects an empty
  `video_id` as well as a missing one. `server.py` accepts an empty one.
- `on_analyze` does nothing for an empty detected id as well as for none.

## Model

| member | source | states |
|---|---|---|
| `Text.Split` | mcp/resources.py:18 | `str.split("/")` has one more part than there are slashes, and no part contains a slash |
| `Text.JoinSplit` | mcp/resources.py:18 | joining the parts of a split with "/" gives back the URI |
| `Text.SplitJoin` | mcp/resources.py:18 | splitting a "/"-join of slash-free parts gives back exactly those parts |
| `Text.ContainsIff` | proxy_addon.py:113 | the substring test used for host and path holds exactly when the text occurs at some index |
| `Core.SelectClient` | mcp_test/core.py:20-34 | provider "ollama" gives the local endpoint with base URL OLLAMA_BASE_URL and dummy key "ollama", whatever the API key. Otherwise a non-empty key gives the hosted client with that key. Otherwise there is no client (mock mode). |
| `Core.SelectClientByKey` | mcp/core.py:20-22 | a client is configured exactly when OPENAI_API_KEY is non-empty, and it is always the hosted one (server.py:14 makes the same choice) |
| `Core.SelectionsAgreeWithoutOllama` | mcp_test/core.py:30-34 | outside the Ollama provider, both selections choose the same client |
| `Core.DownloadText` | mcp_test/core.py:39-50 | the text starts with "Title: " exactly when the extraction succeeded with a description; every other outcome starts with "Error: ". mcp/core.py:27-38 is the same. |
| `Core.DownloadSummary` | mcp_test/core.py:48 | success text is "Title: " + title (or "None") + "\nDesc: " + a prefix of the description of length min(500, its length) + "...". mcp/core.py:36 is the same. |
| `Core.DownloadFailureIsText` | mcp_test/core.py:46-50 | an extraction failure, including a missing description, comes back as text starting with "Error: ". It is not raised. For a failed extraction it is "Error: " + the message. mcp/core.py:34-38 is the same. |
| `Core.TranscriptCache.constructor` | mcp_test/core.py:17 | the shared cache starts empty. mcp/core.py:17 is the same. |
| `Core.TranscriptCache.Store` | mcp_test/tools.py:37 | overwrites exactly one key. Other keys are unchanged. A new key goes last in listing order; an existing key keeps its position. |
| `Resources.ListResources` | mcp/resources.py:4-13 | one descriptor per cache key, in key order: uri "youtube://transcript/"+key, name "Transcript for "+key, mime "text/plain" |
| `Resources.ListedOncePerKey` | mcp/resources.py:6-13 | with distinct keys, every cached key is listed, and by exactly one descriptor |
| `Resources.ReadResource` | mcp/resources.py:16-23 | the only error is ValueError("Invalid Resource URI"), raised exactly when the URI has fewer than four "/"-parts or its third part is not "transcript"; a URI with fewer than three slashes is always rejected. A successful read gives a cached transcript or the not-found sentinel. |
| `Resources.UnseenIdNotListed` | mcp/resources.py:6-13 | an id never cached is not listed, whatever characters it holds |
| `Resources.UnseenIdReadsNotFound` | mcp/resources.py:22-23 | reading the URI of a slash-free id never cached gives the sentinel "Transcript not found (Analyze first)." |
| `Resources.ReadIgnoresSchemeAndTail` | mcp/resources.py:18-23 | the scheme, the second part (host position) and any parts after the fourth are not checked; the fourth part is the id that is looked up |
| `Resources.ReadTranscriptUri` | mcp/resources.py:18-23 | reading `youtube://transcript/<id>` for a slash-free id gives the cached text, or the sentinel when the id is not cached |
| `Resources.ReadListedResource` | mcp/resources.py:8-23 | round trip: reading the URI listed for a slash-free key gives that key's cached text |
| `Resources.ReadRejectsShortUri` | mcp/resources.py:18-20 | a URI with fewer than four "/"-parts raises ValueError("Invalid Resource URI") |
| `Resources.ReadRejectsOtherCategory` | mcp/resources.py:18-20 | a third part other than "transcript" raises ValueError("Invalid Resource URI") |
| `Prompts.ListPrompts` | mcp_test/prompts.py:4-14 | exactly one prompt "sponsor_detective", with one argument "video_id" marked required |
| `Prompts.GetPrompt` | mcp_test/prompts.py:16-34 | any other name raises "Unknown prompt: "+name. Otherwise the result is exactly one user message: the detective template with video_id, or "UNKNOWN" when absent. It fails only when arguments is None. |
| `Prompts.DetectiveTextInjective` | mcp_test/prompts.py:30 | the prompt text determines the video id it was built from |
| `Prompts.ListedPromptIsServed` | mcp_test/prompts.py:6-21 | the listed prompt name is the one the get handler accepts |
| `Prompts.MissingIdReadsUnknown` | mcp_test/prompts.py:23 | a missing video_id does not fail, and the text contains "UNKNOWN" |
| `Tools.ListTools` | mcp_test/tools.py:6-20 | exactly one tool, "analyze_sponsor_block". Its schema requires only "video_id", and that property is declared. |
| `Tools.ReportJson` | mcp_test/tools.py:56-61 | the `json.dumps(indent=2)` layout of the report: it opens with `{` and the status field on the first indented line, and closes with `}` on a line of its own. `Tools.MockReport` is this layout on the fixed mock values. |
| `Tools.ReportJsonFields` | mcp_test/tools.py:56-61 | the report JSON carries its status, sponsor and summary fields, the "segments" key and the quoted segment |
| `Tools.MockReportFields` | mcp_test/tools.py:56-61 | the mock report (`Tools.MockReport`) contains "status": "mock_success", "sponsor": "NordVPN (Simulated)", the segment "02:30 - 03:15" and the fixed summary |
| `Tools.Analyze` | mcp_test/tools.py:39-61 | without a client, the result is the fixed mock report, whatever the transcript or id. With a client, it is the model's reply, or text starting "LLM API Error: " when the call fails. It never raises. |
| `Tools.TranscriptIsNotSentinel` | mcp/resources.py:23 | no fetched transcript equals the not-found sentinel, so a cached entry always reads as real text |
| `Tools.CallTool` | mcp_test/tools.py:22-63 | an unknown name raises "Unknown tool: "+name. A None, missing or empty video_id raises, before any fetch. Every error leaves the cache unchanged. Otherwise the cache maps video_id to the fetched transcript, whatever the analysis yields, and the resource URI reads it back. The result is one text block holding the analysis. |
| `Transport.SelectTransports` | mcp_test/server.py:69-81 | stdio runs exactly for "stdio"/"both", SSE exactly for "sse"/"online"/"both", stdio first. Any other mode runs nothing and yields the logged error. |
| `Transport.BothStartsStdioThenSse` | mcp_test/server.py:73-77 | "both" starts stdio, then SSE |
| `SimpleServer.ListTools` | server.py:16-22 | one tool, "analyze_sponsor_block", requiring "video_id" |
| `SimpleServer.CallTool` | server.py:24-47 | an unknown name raises ValueError("Unknown tool"). A missing key raises KeyError. Without a client the text is the "[MOCK] Detected Sponsor" line naming the video. Any model failure gives "Error calling OpenAI.". The result is always one text block, and no cache is written. |
| `SimpleServer.TranscriptStub` | server.py:32 | the stand-in transcript sent to the model names the requested video |
| `SimpleServer.MockDetection` | server.py:45 | the mock line starts "[MOCK] Detected Sponsor: NordVPN (Video: " and names the requested video |
| `SimpleServer.MockDetectionNamesVideo` | server.py:45 | the mock text contains the video id and determines it |
| `SimpleServer.EmptyIdAccepted` | server.py:27 | an empty video_id is accepted here |
| `ProxyAddon.FirstIndex` | proxy_addon.py:114-115 | finds the first query pair with the key: every earlier pair has another key |
| `ProxyAddon.QueryGet` | proxy_addon.py:114-115 | `query["v"]` is absent exactly when no pair has key "v"; when present, its value comes from a "v" pair |
| `ProxyAddon.QueryGetFirst` | proxy_addon.py:114-115 | `query["v"]` is the value of the earliest "v" pair, and it is absent exactly when no pair has key "v" |
| `ProxyAddon.Detect` | proxy_addon.py:113-117 | a pushed id is never the current id and comes from a "v" pair of the query; nothing is pushed unless the host contains "youtube.com" and the path contains "/watch" |
| `ProxyAddon.DetectIff` | proxy_addon.py:111-117 | a request pushes v exactly when the host contains "youtube.com", the path contains "/watch", the first "v" value is v, and v is not the current id |
| `ProxyAddon.SuppressOnlyCurrent` | proxy_addon.py:113-117 | for a qualifying request for v, duplicates are suppressed only against the current id: v is appended even when it is already waiting, so the queue then holds it at least twice; nothing is appended when v is current |
| `ProxyAddon.Inspector.constructor` | proxy_addon.py:17 | the queue starts empty and no id is detected (proxy_addon.py:56) |
| `ProxyAddon.Inspector.Request` | proxy_addon.py:111-118 | appends at most the one detected value. It leaves the queue unchanged when any condition fails, and never changes the current id. |
| `ProxyAddon.Inspector.CheckQueue` | proxy_addon.py:76-84 | pops every queued id in FIFO order and empties the queue. The current id becomes the last id popped, or is unchanged (and nothing fails) when the queue was empty. |
| `ProxyAddon.Inspector.OnAnalyze` | proxy_addon.py:92-95 | does nothing unless a non-empty id is detected; otherwise it targets exactly that id |

## Left out

- Network and foreign calls are not modelled. This covers the yt-dlp extraction, the OpenAI/Ollama chat call with its model name and system message, and the MCP client round trip (`mcp_client_task`). The collaborators are function parameters that return text or a failure.
- The stdio/SSE servers (`run_stdio`, `run_sse`), Starlette, CORS, uvicorn and `start_system.py` are library networking and OS side effects. Only the mode choice is modelled.
- The Tkinter window, `root.after` polling, daemon threads, `run_bridge` and logging are UI and threading. Only the queue and `current_video_id` are modelled. The `Inspector` class holds both the module-level queue and the window's field.
- Concurrency is not modelled. The cache is a plain dict under one event loop, and `queue.Queue`'s locking is taken as given. The model is sequential.
- Reading the configuration from the environment is I/O. The mode, provider, base URL and key are plain inputs. The mode is assumed to be lower-cased already. `mcp_test/config.py` defines no `LLM_PROVIDER`, `OLLAMA_BASE_URL` or `LLM_MODEL`. `Core.SelectClient` takes them as given inputs.
- URL normalisation by `AnyUrl` (host case, percent-encoding) is not modelled. URIs are plain strings, and the read-back properties are stated for ids without "/". By `Resources.ReadIgnoresSchemeAndTail`, the listed URI of a key "a/b" reads the entry of "a", and the host part of a URI is never checked.
- `Tools.ReportJsonFields`: only stated for field values that need no JSON escaping. That holds for the fixed mock values. The `indent=2` layout is written out for this one report shape, not for JSON in general.
- Argument values are strings. Python's truthiness for other JSON values in `arguments`, and a model reply whose content is None, are not modelled.
- `mcp/core.py` and `mcp_test/core.py` each hold their own module-level cache. The model uses one `TranscriptCache` that the tool writes and the resource handlers read, as in the served process.
- Determinism and statelessness of prompt and resource handling are not stated as separate lemmas. `GetPrompt`, `ListResources` and `ReadResource` are functions of their inputs, so they cannot change the cache and always give the same result for the same inputs.
