/**
 * Chat message and tool-call records, the canned response table and the
 * selector that picks a canned response for a prompt (lib/chat.ts).
 */
module ChatData {
  import opened Wrappers
  import opened PromptMatch

  datatype Role = User | Assistant | System

  datatype MessageStatus = Complete | ThinkingStatus

  datatype ToolCallStatus = ToolRunning | ToolCompleted | ToolFailed

  /** The loosely typed values that appear in the canned tool-call inputs. */
  datatype InputValue = Text(text: string) | Number(number: int) | TextList(items: seq<string>)

  /** A tool-call record; `input` is an object, kept as its fields in order. */
  datatype ToolCall = ToolCall(
    id: string,
    name: string,
    status: ToolCallStatus,
    input: Option<seq<(string, InputValue)>>,
    output: Option<string>)

  datatype Message = Message(
    id: string,
    role: Role,
    content: string,
    status: MessageStatus,
    timestamp: int,
    toolCalls: Option<seq<ToolCall>>)

  /** A canned response bundle: response text and its tool-call records. */
  datatype SampleResponse = SampleResponse(response: string, toolCalls: Option<seq<ToolCall>>)

  const SpaceXText: string :=
    "Here's a summary of the latest SpaceX news:\n\n1. SpaceX successfully launched another batch of Starlink satellites yesterday, bringing the total constellation size to over 5,000 satellites.\n\n2. The company announced plans for a new Starship test flight next month, aiming to achieve orbital velocity.\n\n3. SpaceX and NASA are finalizing preparations for the next crew rotation mission to the International Space Station, scheduled for launch in two weeks."

  const MarketingText: string :=
    "# Marketing Plan for New Product\n\n## Executive Summary\nThis marketing plan outlines a comprehensive strategy for launching your new product, focusing on digital channels, content marketing, and strategic partnerships.\n\n## Target Audience\nBased on market research, your primary audience consists of tech-savvy professionals aged 25-45 with disposable income and interest in innovative solutions.\n\n## Marketing Channels\n1. **Social Media**: Focus on LinkedIn, Instagram, and Twitter with targeted ads\n2. **Content Marketing**: Blog posts, case studies, and video tutorials\n3. **Email Marketing**: Nurture campaigns for leads and existing customers\n4. **Partnerships**: Collaborate with complementary brands\n\n## Budget Allocation\n- Digital Advertising: 40%\n- Content Creation: 25%\n- Partnerships & Events: 20%\n- Analytics & Tools: 15%\n\n## Timeline\n- Pre-launch (2 months): Build anticipation with teasers\n- Launch (1 month): Heavy promotion across all channels\n- Post-launch (3 months): Optimization based on performance data\n\nI recommend starting with a soft launch to gather initial feedback before the full market rollout."

  const SpaceXResponse: SampleResponse := SampleResponse(
    SpaceXText,
    Some([
      ToolCall("tool-1", "web-search", ToolCompleted,
        Some([("query", Text("latest SpaceX news"))]),
        Some("Found 15 recent news articles about SpaceX launches and announcements")),
      ToolCall("tool-2", "summarize-document", ToolCompleted,
        Some([("text", Text("Multiple news articles about SpaceX"))]),
        Some("Summary of key SpaceX developments from the past week"))
    ]))

  const MarketingResponse: SampleResponse := SampleResponse(
    MarketingText,
    Some([
      ToolCall("tool-1", "market-research", ToolCompleted,
        Some([("industry", Text("technology")), ("product_type", Text("new product"))]),
        Some("Market size: $4.2B, Growth rate: 12% YoY, Key competitors: 5")),
      ToolCall("tool-2", "competitor-analysis", ToolCompleted,
        Some([("market", Text("technology")), ("top_competitors", Number(5))]),
        Some("Analysis of pricing strategies, marketing channels, and positioning")),
      ToolCall("tool-3", "budget-calculator", ToolCompleted,
        Some([("market_size", Text("medium")), ("channels", TextList(["digital", "content", "partnerships"]))]),
        Some("Recommended budget allocation across marketing channels"))
    ]))

  /** `sampleResponses`, in the insertion order of its keys. */
  const SampleResponses: seq<(string, SampleResponse)> := [
    (SpaceXKey, SpaceXResponse),
    (MarketingKey, MarketingResponse)
  ]

  const GenericText: string :=
    "I've analyzed your request and gathered the relevant information. Here's what I found based on the latest data and best practices in this area."

  /**
   * The generic bundle, whose one tool call "tool-1" has finished and records
   * the prompt as given.
   */
  function GenericResponse(prompt: string): (r: SampleResponse)
    ensures WellFormedBundle(r) && |r.toolCalls.value| == 1
    ensures r.toolCalls.value[0].input == Some([("query", Text(prompt))])
  {
    assert NumberedId("tool-", 1) == "tool-1";
    SampleResponse(GenericText, Some([
      ToolCall("tool-1", "information-retrieval", ToolCompleted,
        Some([("query", Text(prompt))]),
        Some("Retrieved relevant information from knowledge base"))
    ]))
  }

  /** Every tool call of a bundle has finished, and the ids are "tool-1", "tool-2", ... in order. */
  ghost predicate WellFormedBundle(r: SampleResponse) {
    && r.response != []
    && r.toolCalls.Some? && |r.toolCalls.value| <= 9
    && (forall i :: 0 <= i < |r.toolCalls.value| ==> r.toolCalls.value[i].status == ToolCompleted)
    && (forall i :: 0 <= i < |r.toolCalls.value| ==> r.toolCalls.value[i].id == NumberedId("tool-", i + 1))
  }

  /** The SpaceX bundle has two completed tool calls, "tool-1" and "tool-2". */
  lemma SpaceXBundleWellFormed()
    ensures WellFormedBundle(SpaceXResponse) && |SpaceXResponse.toolCalls.value| == 2
  {
    assert NumberedId("tool-", 1) == "tool-1" && NumberedId("tool-", 2) == "tool-2";
  }

  /** The marketing bundle has three completed tool calls, "tool-1" to "tool-3". */
  lemma MarketingBundleWellFormed()
    ensures WellFormedBundle(MarketingResponse) && |MarketingResponse.toolCalls.value| == 3
  {
    assert NumberedId("tool-", 1) == "tool-1" && NumberedId("tool-", 2) == "tool-2" && NumberedId("tool-", 3) == "tool-3";
  }

  /**
   * `getSampleResponse`: the table bundle of the first key the lower-cased
   * prompt contains, else the generic bundle built around the prompt.
   */
  function GetSampleResponse(prompt: string): (r: SampleResponse)
    ensures r == SpaceXResponse || r == MarketingResponse || r == GenericResponse(prompt)
    ensures WellFormedBundle(r)
  {
    SpaceXBundleWellFormed();
    MarketingBundleWellFormed();
    match FirstMatch(Keys(SampleResponses), ToLower(prompt))
    case Some(k) => SampleResponses[k].1
    case None => GenericResponse(prompt)
  }

  /** The selection as a decision list: SpaceX wins over marketing, else the generic bundle. */
  lemma SelectsFirstContainedResponse(prompt: string)
    ensures var lower := ToLower(prompt);
      GetSampleResponse(prompt) ==
        if Contains(lower, SpaceXKey) then SpaceXResponse
        else if Contains(lower, MarketingKey) then MarketingResponse
        else GenericResponse(prompt)
  {
    var keys, lower := Keys(SampleResponses), ToLower(prompt);
    assert keys == [SpaceXKey, MarketingKey];
    var r := FirstMatch(keys, lower);
    if Contains(lower, SpaceXKey) {
      assert r == Some(0);
    } else if Contains(lower, MarketingKey) {
      FirstMatchStopsBy(keys, lower, 1);
      assert r == Some(1);
    } else {
      assert r == None;
    }
  }

  /**
   * With no key in the prompt the response carries exactly one completed
   * "information-retrieval" call whose query is the prompt as typed, not
   * lower-cased.
   */
  lemma FallbackRecordsPrompt(prompt: string)
    requires var lower := ToLower(prompt);
      !Contains(lower, SpaceXKey) && !Contains(lower, MarketingKey)
    ensures var r := GetSampleResponse(prompt);
      && r.response == GenericText
      && r.toolCalls.Some? && |r.toolCalls.value| == 1
      && r.toolCalls.value[0].name == "information-retrieval"
      && r.toolCalls.value[0].status == ToolCompleted
      && r.toolCalls.value[0].input == Some([("query", Text(prompt))])
  {
    SelectsFirstContainedResponse(prompt);
  }

  /** Matching ignores case: a prompt and its lower-cased form select the same table entry. */
  lemma ResponseSelectionIgnoresCase(prompt: string)
    requires var lower := ToLower(prompt);
      Contains(lower, SpaceXKey) || Contains(lower, MarketingKey)
    ensures GetSampleResponse(prompt) == GetSampleResponse(ToLower(prompt))
  {
    ToLowerNormalises(prompt);
    SelectsFirstContainedResponse(prompt);
    SelectsFirstContainedResponse(ToLower(prompt));
  }
}
