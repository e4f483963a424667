/** The prompt handlers of mcp_test/prompts.py: one "sponsor_detective"
    template that takes a video id. */
module Prompts {
  import opened McpTypes
  import opened Text

  const PromptName := "sponsor_detective"
  const ArgumentName := "video_id"
  const MissingId := "UNKNOWN"
  const Opening := "Please act as a meticulous detective analyzing video "
  const Closing := " for hidden marketing."

  /** `handle_list_prompts`: the one template and its one required argument. */
  function ListPrompts(): (ps: seq<Prompt>)
    ensures |ps| == 1 && ps[0].name == PromptName
    ensures |ps[0].arguments| == 1
    ensures ps[0].arguments[0].name == ArgumentName && ps[0].arguments[0].required
  {
    [Prompt(PromptName, "스폰서 탐정 페르소나",
            [PromptArgument(ArgumentName, "Target Video ID", true)])]
  }

  function DetectiveText(videoId: string): string
  {
    Opening + videoId + Closing
  }

  /** `handle_get_prompt`: the name is checked first; then the video id, or
      "UNKNOWN" when the argument is absent, is put into the template as the
      single user message. `arguments` being None makes `.get` raise. */
  function GetPrompt(name: string, arguments: Option<map<string, string>>): (r: Result<GetPromptResult, Raised>)
    ensures name != PromptName ==> r == Err(ValueError("Unknown prompt: " + name))
    ensures name == PromptName ==> (r.Ok? <==> arguments.Some?)
    ensures r.Err? && arguments.None? && name == PromptName ==> r.error.AttributeError?
    ensures r.Ok? ==>
      && |r.value.messages| == 1
      && r.value.messages[0].role == "user"
      && r.value.messages[0].content.text ==
           DetectiveText(if ArgumentName in arguments.value then arguments.value[ArgumentName] else MissingId)
  {
    if name != PromptName then Err(ValueError("Unknown prompt: " + name))
    else if arguments.None? then Err(AttributeError(NoneHasNoGet))
    else
      var args := arguments.value;
      var videoId := if ArgumentName in args then args[ArgumentName] else MissingId;
      Ok(GetPromptResult([PromptMessage("user", TextContent(DetectiveText(videoId)))]))
  }

  /** The prompt text determines the video id put into it. */
  lemma DetectiveTextInjective(a: string, b: string)
    requires DetectiveText(a) == DetectiveText(b)
    ensures a == b
  {
    FramedInjective(Opening, a, b, Closing);
  }

  /** The listed prompt is the one `GetPrompt` serves. */
  lemma ListedPromptIsServed(args: map<string, string>)
    ensures forall p :: p in ListPrompts() ==> GetPrompt(p.name, Some(args)).Ok?
  {
  }

  /** A missing video id does not fail: the text names "UNKNOWN". */
  lemma MissingIdReadsUnknown(args: map<string, string>)
    requires ArgumentName !in args
    ensures GetPrompt(PromptName, Some(args)).Ok?
    ensures Contains(GetPrompt(PromptName, Some(args)).value.messages[0].content.text, MissingId)
  {
    ContainsInfix(Opening, MissingId, Closing);
  }
}
