/** The transport choice made by `main` in mcp_test/server.py: the configured
    mode picks the stdio server, the SSE server, both, or none. */
module Transport {
  import opened McpTypes

  datatype Transport = Stdio | Sse

  const StdioModes := ["stdio", "both"]
  const SseModes := ["sse", "online", "both"]

  /** The transports started for `mode`, stdio first; a mode naming neither
      is an error whose text is the logged message, and nothing is started.
      The mode arrives already lower-cased by the configuration. */
  function SelectTransports(mode: string): (r: Result<seq<Transport>, string>)
    ensures r.Err? <==> mode !in StdioModes && mode !in SseModes
    ensures r.Err? ==> r.error == "Invalid TRANSPORT config: " + mode
    ensures r.Ok? ==> (Stdio in r.value <==> mode in StdioModes)
    ensures r.Ok? ==> (Sse in r.value <==> mode in SseModes)
    ensures r.Ok? ==> forall i, j :: 0 <= i < j < |r.value| ==> r.value[i] == Stdio && r.value[j] == Sse
  {
    var tasks := (if mode in StdioModes then [Stdio] else []) + (if mode in SseModes then [Sse] else []);
    if tasks == [] then Err("Invalid TRANSPORT config: " + mode) else Ok(tasks)
  }

  /** "both" starts the stdio server first, then the SSE server. */
  lemma BothStartsStdioThenSse()
    ensures SelectTransports("both") == Ok([Stdio, Sse])
  {
    assert "both" == StdioModes[1] && "both" == SseModes[2];
    assert [Stdio] + [Sse] == [Stdio, Sse];
  }
}
