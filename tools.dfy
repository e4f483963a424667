/** The tool handlers of mcp_test/tools.py: the one "analyze_sponsor_block"
    tool, which fetches a transcript, caches it, and analyses it with the
    configured model client or returns a fixed mock report. */
module Tools {
  import opened McpTypes
  import opened Text
  import opened Core
  import opened Resources

  const ToolName := "analyze_sponsor_block"
  const ArgumentName := "video_id"
  const IdRequired := "video_id is required"
  const LlmErrorPrefix := "LLM API Error: "

  /** `handle_list_tools`: one tool whose schema declares and requires only "video_id". */
  function ListTools(): (tools: seq<Tool>)
    ensures |tools| == 1 && tools[0].name == ToolName
    ensures tools[0].required == [ArgumentName]
    ensures forall r :: r in tools[0].required ==> exists p :: p in tools[0].properties && p.name == r
  {
    [Tool(ToolName, "유튜브 영상 ID를 받아 스폰서 광고 구간을 분석합니다.",
          [SchemaProperty(ArgumentName, "string", Some("Youtube Video ID (e.g. dQw4w9WgXcQ)"))],
          [ArgumentName])]
  }

  function Quote(s: string): string
  {
    "\"" + s + "\""
  }

  function Field(key: string, value: string): string
  {
    Quote(key) + ": " + value
  }

  /** The mock report as json.dumps(..., indent=2) lays it out, for values
      that need no escaping. */
  function ReportJson(status: string, sponsor: string, segment: string, summary: string): (r: string)
    ensures "{\n  " + Field("status", Quote(status)) <= r
    ensures |r| >= 2 && r[|r| - 2..] == "\n}"
  {
    "{\n  " + Field("status", Quote(status)) +
    ",\n  " + Field("sponsor", Quote(sponsor)) +
    ",\n  " + Field("segments", "[\n    " + Quote(segment) + "\n  ]") +
    ",\n  " + Field("summary", Quote(summary)) + "\n}"
  }

  /** The report carries each of its four fields, and the "segments" key. */
  lemma ReportJsonFields(status: string, sponsor: string, segment: string, summary: string)
    ensures Contains(ReportJson(status, sponsor, segment, summary), Field("status", Quote(status)))
    ensures Contains(ReportJson(status, sponsor, segment, summary), Field("sponsor", Quote(sponsor)))
    ensures Contains(ReportJson(status, sponsor, segment, summary), Quote("segments"))
    ensures Contains(ReportJson(status, sponsor, segment, summary), Quote(segment))
    ensures Contains(ReportJson(status, sponsor, segment, summary), Field("summary", Quote(summary)))
  {
    var s := ReportJson(status, sponsor, segment, summary);
    var a := Field("status", Quote(status));
    var b := Field("sponsor", Quote(sponsor));
    var d := Field("summary", Quote(summary));
    var open := "[\n    ";
    var c := Field("segments", open + Quote(segment) + "\n  ]");
    // Each field sits between the pieces before and after it.
    ContainsItself(a);
    ContainsExtendLeft("{\n  ", a, a);
    ExtendRightToReport(status, sponsor, segment, summary, 1, a);
    ContainsItself(b);
    ContainsExtendLeft("{\n  " + a + ",\n  ", b, b);
    ExtendRightToReport(status, sponsor, segment, summary, 2, b);
    ContainsItself(Quote(segment));
    ContainsExtendLeft(open, Quote(segment), Quote(segment));
    ContainsExtendRight(open + Quote(segment), "\n  ]", Quote(segment));
    ContainsExtendLeft(Quote("segments") + ": ", open + Quote(segment) + "\n  ]", Quote(segment));
    ContainsExtendLeft("{\n  " + a + ",\n  " + b + ",\n  ", c, Quote(segment));
    ExtendRightToReport(status, sponsor, segment, summary, 3, Quote(segment));
    SegmentsKeyInReport(status, sponsor, segment, summary);
    ContainsItself(d);
    ContainsExtendLeft("{\n  " + a + ",\n  " + b + ",\n  " + c + ",\n  ", d, d);
    ContainsExtendRight("{\n  " + a + ",\n  " + b + ",\n  " + c + ",\n  " + d, "\n}", d);
  }

  lemma SegmentsKeyInReport(status: string, sponsor: string, segment: string, summary: string)
    ensures Contains(ReportJson(status, sponsor, segment, summary), Quote("segments"))
  {
    var key := Quote("segments");
    var value := "[\n    " + Quote(segment) + "\n  ]";
    var before := "{\n  " + Field("status", Quote(status)) + ",\n  " + Field("sponsor", Quote(sponsor)) + ",\n  ";
    ContainsItself(key);
    ContainsExtendRight(key, ": " + value, key);
    assert key + (": " + value) == Field("segments", value);
    ContainsExtendLeft(before, Field("segments", value), key);
    assert before + Field("segments", value) == ReportUpTo(status, sponsor, segment, summary, 3);
    ExtendRightToReport(status, sponsor, segment, summary, 3, key);
  }

  /** The report's leading pieces, up to and including its `n`-th field. */
  function ReportUpTo(status: string, sponsor: string, segment: string, summary: string, n: nat): string
    requires 1 <= n <= 3
  {
    var a := "{\n  " + Field("status", Quote(status));
    var b := a + ",\n  " + Field("sponsor", Quote(sponsor));
    var c := b + ",\n  " + Field("segments", "[\n    " + Quote(segment) + "\n  ]");
    if n == 1 then a else if n == 2 then b else c
  }

  lemma ExtendRightToReport(status: string, sponsor: string, segment: string, summary: string, n: nat, t: string)
    requires 1 <= n <= 3
    requires Contains(ReportUpTo(status, sponsor, segment, summary, n), t)
    ensures Contains(ReportJson(status, sponsor, segment, summary), t)
  {
    var a := ReportUpTo(status, sponsor, segment, summary, 1);
    var b := ReportUpTo(status, sponsor, segment, summary, 2);
    var c := ReportUpTo(status, sponsor, segment, summary, 3);
    if n == 1 {
      ContainsExtendRight(a, ",\n  ", t);
      ContainsExtendRight(a + ",\n  ", Field("sponsor", Quote(sponsor)), t);
    }
    if n <= 2 {
      ContainsExtendRight(b, ",\n  ", t);
      ContainsExtendRight(b + ",\n  ", Field("segments", "[\n    " + Quote(segment) + "\n  ]"), t);
    }
    ContainsExtendRight(c, ",\n  ", t);
    ContainsExtendRight(c + ",\n  ", Field("summary", Quote(summary)), t);
    ContainsExtendRight(c + ",\n  " + Field("summary", Quote(summary)), "\n}", t);
  }

  const MockStatus := "mock_success"
  const MockSponsor := "NordVPN (Simulated)"
  const MockSegment := "02:30 - 03:15"
  const MockSummary := "This is a simulated analysis because LLM Client is missing."
  const MockReport := ReportJson(MockStatus, MockSponsor, MockSegment, MockSummary)

  /** The mock report has status "mock_success", sponsor "NordVPN (Simulated)",
      the single segment "02:30 - 03:15" and the fixed summary. */
  lemma MockReportFields()
    ensures Contains(MockReport, Field("status", Quote(MockStatus)))
    ensures Contains(MockReport, Field("sponsor", Quote(MockSponsor)))
    ensures Contains(MockReport, Quote(MockSegment))
    ensures Contains(MockReport, Field("summary", Quote(MockSummary)))
  {
    ReportJsonFields(MockStatus, MockSponsor, MockSegment, MockSummary);
  }

  /** The analysis step: the model's reply, or its failure as
      "LLM API Error: ..." text; without a client, the mock report. */
  function Analyze(client: LlmClient, complete: string -> Completion, transcript: string): (text: string)
    ensures client.NoClient? ==> text == MockReport
    ensures !client.NoClient? && complete(transcript).Replied? ==> text == complete(transcript).content
    ensures !client.NoClient? && complete(transcript).Failed? ==> LlmErrorPrefix <= text
  {
    if client.NoClient? then MockReport
    else match complete(transcript)
      case Replied(content) => content
      case Failed(message) => LlmErrorPrefix + message
  }

  /** The fetched transcript never reads as the resource sentinel. */
  lemma TranscriptIsNotSentinel(e: Extraction)
    ensures DownloadText(e) != NotFound
  {
    var text := DownloadText(e);
    if e.ExtractionFailed? || e.description.None? {
      assert "Error: " <= text;
      assert text[0] == 'E';
    } else {
      assert "Title: " <= text;
      assert text[1] == 'i';
    }
    assert NotFound[0] == 'T' && NotFound[1] == 'r';
  }

  predicate HasVideoId(args: map<string, string>)
  {
    ArgumentName in args && args[ArgumentName] != ""
  }

  /** `handle_call_tool`. The name is checked, then a truthy "video_id"; only
      then is the transcript fetched and stored under that id (before the
      analysis, so it is stored whatever the analysis yields), and the
      analysis text is returned as one text block. */
  method CallTool(cache: TranscriptCache, client: LlmClient, name: string, arguments: Option<map<string, string>>,
                  extract: string -> Extraction, complete: string -> Completion)
    returns (result: Result<seq<TextContent>, Raised>)
    requires cache.Valid()
    modifies cache
    ensures cache.Valid()
    ensures name != ToolName ==> result == Err(ValueError("Unknown tool: " + name))
    ensures name == ToolName && arguments.None? ==> result == Err(AttributeError(NoneHasNoGet))
    ensures name == ToolName && arguments.Some? && !HasVideoId(arguments.value) ==> result == Err(ValueError(IdRequired))
    ensures result.Err? ==> unchanged(cache)
    ensures result.Ok? <==> name == ToolName && arguments.Some? && HasVideoId(arguments.value)
    ensures result.Ok? ==>
      var videoId := arguments.value[ArgumentName];
      var transcript := DownloadText(extract(videoId));
      && cache.entries == old(cache.entries)[videoId := transcript]
      && cache.order == (if videoId in old(cache.entries) then old(cache.order) else old(cache.order) + [videoId])
      && result.value == [TextContent(Analyze(client, complete, transcript))]
      && ('/' !in videoId ==> ReadResource(TranscriptUri(videoId), cache.entries) == Ok(transcript) && transcript != NotFound)
  {
    if name != ToolName {
      return Err(ValueError("Unknown tool: " + name));
    }
    if arguments.None? {
      return Err(AttributeError(NoneHasNoGet));
    }
    var args := arguments.value;
    if !HasVideoId(args) {
      return Err(ValueError(IdRequired));
    }
    var videoId := args[ArgumentName];
    var transcript := DownloadText(extract(videoId));
    cache.Store(videoId, transcript);
    if '/' !in videoId {
      ReadTranscriptUri(videoId, cache.entries);
      TranscriptIsNotSentinel(extract(videoId));
    }
    var analysis := Analyze(client, complete, transcript);
    result := Ok([TextContent(analysis)]);
  }
}
