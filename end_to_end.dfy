/**
 * How the pieces fit together: the two selectors agree on a prompt, the
 * client's success test matches the endpoint's status code, and a whole
 * send of the marketing prompt runs to its final state.
 */
module EndToEnd {
  import opened Wrappers
  import opened PromptMatch
  import opened AgentPlans
  import opened ChatData
  import opened ChatHook
  import opened ChatRoute

  /** What `fetch` hands the client: `response.ok` and `data.message.content`. */
  function Received(r: HttpResponse): (reply: Reply)
    ensures reply.Response?
    ensures reply.ok <==> 200 <= r.status < 300
  {
    Response(200 <= r.status < 300, if r.body.MessageBody? then Some(r.body.message.content) else None)
  }

  /** The client takes its success path exactly when the endpoint answers 200, with that answer. */
  lemma ClientSucceedsExactlyOn200(body: RequestBody, complete: seq<CompletionMessage> -> Completion)
    ensures var r := Post(body, complete);
      ReplyContent(Received(r)) == if r.status == 200 then Some(r.body.message.content) else None
  {
  }

  /**
   * Both selectors classify a prompt alike: SpaceX plan with SpaceX bundle,
   * marketing plan with marketing bundle, or the default plan with the
   * generic bundle.
   */
  lemma SelectorsAgree(prompt: string)
    ensures GetSimulationSteps(prompt) == SpaceXPlan <==> GetSampleResponse(prompt) == SpaceXResponse
    ensures GetSimulationSteps(prompt) == MarketingPlan <==> GetSampleResponse(prompt) == MarketingResponse
    ensures GetSimulationSteps(prompt) == DefaultPlan <==> GetSampleResponse(prompt) == GenericResponse(prompt)
  {
    SelectsFirstContainedKey(prompt);
    SelectsFirstContainedResponse(prompt);
    assert SpaceXPlan[0].title != MarketingPlan[0].title;
    assert SpaceXPlan[0].title != DefaultPlan[0].title;
    assert MarketingPlan[0].description != DefaultPlan[0].description;
    assert |SpaceXResponse.toolCalls.value| == 2 && |MarketingResponse.toolCalls.value| == 3;
    assert |GenericResponse(prompt).toolCalls.value| == 1;
  }

  /**
   * A first send of a marketing prompt (one naming the marketing key and not
   * the SpaceX key) against an endpoint whose service answers "OK": the list
   * ends with the user message and the assistant's "OK", and the five-step
   * plan ends fully completed once its steps have run.
   */
  method MarketingSend(prompt: string, draws: seq<int>)
    returns (messages: seq<Message>, processing: bool, nodes: seq<FlowNode>)
    requires Contains(ToLower(prompt), MarketingKey) && !Contains(ToLower(prompt), SpaceXKey)
    requires |draws| == 5 && forall k :: 0 <= k < 5 ==> 0 <= draws[k] < 2000
    ensures messages == [UserMessage("user-1", prompt, 1), Message("assistant-1", Assistant, "OK", Complete, 1, None)]
    ensures !processing
    ensures |nodes| == 5 && forall k :: 0 <= k < 5 ==> nodes[k].status == Completed
  {
    var session := new ChatSession();
    var user, placeholder := UserMessage("user-1", prompt, 1), ThinkingMessage("assistant-1", 1);
    assert !session.isProcessing && session.messages == [];
    var request := session.Begin(prompt, "user-1", 1, "assistant-1", 1);
    assert [] + [user] == [user];
    assert request == Some([user]);
    assert session.messages == [user, placeholder];
    SelectsFirstContainedKey(prompt);
    var simulation := session.simulation;
    assert |simulation.flowNodes| == |MarketingPlan| == 5;
    var elapsed := simulation.RunSimulation(simulation.flowNodes, draws);
    var response := Post(Body(request), _ => Choices([Choice(Some("OK"))]));
    assert response == HttpResponse(200, MessageBody(ReplyMessage(Assistant, "OK")));
    assert ReplyContent(Received(response)) == Some("OK");
    session.Settle(Received(response), "assistant-1");
    SuccessSettles([], user, placeholder, "OK");
    messages, processing, nodes := session.messages, session.isProcessing, simulation.flowNodes;
  }

  /**
   * The same send when the service throws: only the user message remains and
   * no send is in flight.
   */
  method FailedSend(prompt: string) returns (messages: seq<Message>, processing: bool)
    ensures messages == [UserMessage("user-1", prompt, 1)]
    ensures !processing
  {
    var session := new ChatSession();
    var request := session.Begin(prompt, "user-1", 1, "assistant-1", 1);
    var response := Post(Body(request), _ => Threw);
    session.Settle(Received(response), "assistant-1");
    FailureRollsBack([], UserMessage("user-1", prompt, 1), ThinkingMessage("assistant-1", 1));
    messages, processing := session.messages, session.isProcessing;
  }
}
