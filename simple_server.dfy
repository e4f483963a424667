/** The stand-alone server of server.py: the same tool name, but no cache,
    no transcript fetch, and its own mock and error texts. Its client is the
    key-only selection of Core (server.py:14). */
module SimpleServer {
  import opened McpTypes
  import opened Text
  import opened Core

  const ToolName := "analyze_sponsor_block"
  const ArgumentName := "video_id"
  const ModelFailure := "Error calling OpenAI."
  const MockOpening := "[MOCK] Detected Sponsor: NordVPN (Video: "
  const MockClosing := ")"

  /** `list_tools`: one tool requiring only "video_id". */
  function ListTools(): (tools: seq<Tool>)
    ensures |tools| == 1 && tools[0].name == ToolName
    ensures tools[0].required == [ArgumentName]
    ensures forall r :: r in tools[0].required ==> exists p :: p in tools[0].properties && p.name == r
  {
    [Tool(ToolName, "Analyze YouTube video for sponsors",
          [SchemaProperty(ArgumentName, "string", None)], [ArgumentName])]
  }

  /** The stand-in transcript built in place of a download. */
  function TranscriptStub(videoId: string): (t: string)
    ensures Contains(t, videoId)
  {
    ContainsInfix("This is a transcript for video ", videoId, ". Today's sponsor is NordVPN...");
    "This is a transcript for video " + videoId + ". Today's sponsor is NordVPN..."
  }

  /** The mock line reports the sponsor NordVPN for the video it names. */
  function MockDetection(videoId: string): (t: string)
    ensures MockOpening <= t && Contains(t, videoId)
  {
    ContainsInfix(MockOpening, videoId, MockClosing);
    MockOpening + videoId + MockClosing
  }

  /** `call_tool`: an unknown name and a missing key raise; any present value,
      the empty string included, is analysed; every model failure becomes one
      fixed text. The result is a single text block and no state changes. */
  function CallTool(client: LlmClient, name: string, arguments: map<string, string>,
                    complete: string -> Completion): (r: Result<seq<TextContent>, Raised>)
    ensures name != ToolName ==> r == Err(ValueError("Unknown tool"))
    ensures name == ToolName && ArgumentName !in arguments ==> r == Err(KeyError(ArgumentName))
    ensures r.Ok? <==> name == ToolName && ArgumentName in arguments
    ensures r.Ok? ==> |r.value| == 1
    ensures r.Ok? && client.NoClient? ==> r.value[0].text == MockDetection(arguments[ArgumentName])
    ensures r.Ok? && !client.NoClient? ==>
      var reply := complete("Find sponsors: " + TranscriptStub(arguments[ArgumentName]));
      r.value[0].text == if reply.Replied? then reply.content else ModelFailure
  {
    if name != ToolName then Err(ValueError("Unknown tool"))
    else if ArgumentName !in arguments then Err(KeyError(ArgumentName))
    else
      var videoId := arguments[ArgumentName];
      var text :=
        if client.NoClient? then MockDetection(videoId)
        else match complete("Find sponsors: " + TranscriptStub(videoId))
          case Replied(content) => content
          case Failed(_) => ModelFailure;
      Ok([TextContent(text)])
  }

  /** The mock text names the video it was asked about, and only that one. */
  lemma MockDetectionNamesVideo(a: string, b: string)
    ensures Contains(MockDetection(a), a)
    ensures MockDetection(a) == MockDetection(b) ==> a == b
  {
    ContainsInfix(MockOpening, a, MockClosing);
    if MockDetection(a) == MockDetection(b) {
      FramedInjective(MockOpening, a, b, MockClosing);
    }
  }

  /** An empty video id is accepted here (the cached variant rejects it). */
  lemma EmptyIdAccepted(client: LlmClient, complete: string -> Completion)
    ensures CallTool(client, ToolName, map[ArgumentName := ""], complete).Ok?
    ensures client.NoClient? ==>
      CallTool(client, ToolName, map[ArgumentName := ""], complete).value == [TextContent(MockOpening + MockClosing)]
  {
    assert MockOpening + "" + MockClosing == MockOpening + MockClosing;
  }
}
