/** Process-wide state and start-up choices of the analysis server
    (mcp_test/core.py and mcp/core.py): which model client is configured,
    the shared transcript cache, and the text `fetch_transcript` returns. */
module Core {
  import opened McpTypes

  /** The client a process configures once at start-up. */
  datatype LlmClient =
    | LocalEndpoint(baseUrl: string, apiKey: string)  // an Ollama server speaking the OpenAI API
    | HostedApi(apiKey: string)                       // the hosted OpenAI API
    | NoClient                                        // mock mode

  /** What the model-call collaborator gives back for one chat request. */
  datatype Completion = Replied(content: string) | Failed(message: string)

  /** Python truthiness of an optional environment value. */
  predicate IsSet(v: Option<string>)
  {
    v.Some? && v.value != ""
  }

  const OllamaProvider := "ollama"
  const OllamaDummyKey := "ollama"

  /** Selection in mcp_test/core.py: the Ollama provider wins, then a
      non-empty API key, else mock mode. */
  function SelectClient(provider: string, ollamaBaseUrl: string, apiKey: Option<string>): (c: LlmClient)
    ensures provider == OllamaProvider ==> c == LocalEndpoint(ollamaBaseUrl, OllamaDummyKey)
    ensures provider != OllamaProvider ==> (c.HostedApi? <==> IsSet(apiKey))
    ensures c.HostedApi? ==> apiKey == Some(c.apiKey) && c.apiKey != ""
    ensures c.NoClient? <==> provider != OllamaProvider && !IsSet(apiKey)
  {
    if provider == OllamaProvider then LocalEndpoint(ollamaBaseUrl, OllamaDummyKey)
    else if IsSet(apiKey) then HostedApi(apiKey.value)
    else NoClient
  }

  /** Selection in mcp/core.py (and server.py): a client exactly when the key is set. */
  function SelectClientByKey(apiKey: Option<string>): (c: LlmClient)
    ensures !c.NoClient? <==> IsSet(apiKey)
    ensures !c.LocalEndpoint?
    ensures c.HostedApi? ==> apiKey == Some(c.apiKey)
  {
    if IsSet(apiKey) then HostedApi(apiKey.value) else NoClient
  }

  /** Outside the Ollama provider, the two selections agree. */
  lemma SelectionsAgreeWithoutOllama(provider: string, ollamaBaseUrl: string, apiKey: Option<string>)
    requires provider != OllamaProvider
    ensures SelectClient(provider, ollamaBaseUrl, apiKey) == SelectClientByKey(apiKey)
  {
  }

  /** What yt-dlp's `extract_info` produced: the info fields the shaping reads,
      or the message of the exception it raised. */
  datatype Extraction =
    | Extracted(title: Option<string>, description: Option<string>)
    | ExtractionFailed(message: string)

  const DescriptionLimit := 500
  /** The message of the TypeError raised by slicing a missing description. */
  const NoneNotSubscriptable := "'NoneType' object is not subscriptable"

  /** An f-string renders a missing value as "None". */
  function Render(v: Option<string>): string
  {
    if v.Some? then v.value else "None"
  }

  /** The text `_download` returns: a title/description summary, or the
      caught exception as "Error: ...". It never raises. */
  function DownloadText(e: Extraction): (text: string)
    ensures ("Title: " <= text) <==> e.Extracted? && e.description.Some?
    ensures !("Title: " <= text) ==> "Error: " <= text
  {
    match e
    case ExtractionFailed(message) =>
      assert ("Error: " + message)[0] != "Title: "[0];
      "Error: " + message
    case Extracted(title, description) =>
      if description.None? then
        assert ("Error: " + NoneNotSubscriptable)[0] != "Title: "[0];
        "Error: " + NoneNotSubscriptable
      else
        var d := description.value;
        var cut := if |d| <= DescriptionLimit then |d| else DescriptionLimit;
        "Title: " + Render(title) + "\nDesc: " + d[..cut] + "..."
  }

  /** A successful extraction yields the title and at most the first 500
      characters of the description, marked with a trailing "...". */
  lemma DownloadSummary(title: Option<string>, d: string)
    ensures exists shown: string ::
      && shown <= d
      && |shown| == (if |d| < DescriptionLimit then |d| else DescriptionLimit)
      && DownloadText(Extracted(title, Some(d))) == "Title: " + Render(title) + "\nDesc: " + shown + "..."
  {
    var cut := if |d| <= DescriptionLimit then |d| else DescriptionLimit;
    assert d[..cut] <= d;
  }

  /** Every failure of the extraction, a missing description included, comes
      back as text starting with "Error: ". */
  lemma DownloadFailureIsText(e: Extraction)
    requires e.ExtractionFailed? || e.description.None?
    ensures "Error: " <= DownloadText(e)
    ensures e.ExtractionFailed? ==> DownloadText(e) == "Error: " + e.message
  {
  }

  /** The shared transcript cache: a Python dict from video id to transcript
      text. `order` keeps the dict's insertion order, which listing follows. */
  class TranscriptCache {
    var entries: map<string, string>
    var order: seq<string>

    ghost predicate Valid()
      reads this
    {
      && (forall i, j :: 0 <= i < j < |order| ==> order[i] != order[j])
      && (forall k :: k in entries <==> k in order)
    }

    /** The cache starts empty. */
    constructor ()
      ensures Valid() && entries == map[] && order == []
    {
      entries := map[];
      order := [];
    }

    /** `transcript_cache[id] = text`: overwrites one key, keeps the position
        of an existing key, appends a new one. */
    method Store(id: string, text: string)
      requires Valid()
      modifies this
      ensures Valid()
      ensures entries == old(entries)[id := text]
      ensures order == if id in old(entries) then old(order) else old(order) + [id]
    {
      if id !in entries {
        order := order + [id];
      }
      entries := entries[id := text];
    }
  }
}
