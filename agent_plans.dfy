/**
 * The step plans of the agent simulation and the selector that picks one for
 * a prompt (lib/agent-simulation.ts).
 */
module AgentPlans {
  import opened Wrappers
  import opened PromptMatch

  datatype FlowNodeType = Thinking | Tool | Search | Summarize | Decision

  datatype NodeStatus = Pending | Running | Completed | Failed

  /** One stage of a plan; the optional `details` field is never set and is left out. */
  datatype FlowNode = FlowNode(
    id: string,
    kind: FlowNodeType,
    title: string,
    description: string,
    status: NodeStatus)

  /** The third key of the table, which is also the fallback entry. */
  const DefaultKey: string := "default"

  const SpaceXPlan: seq<FlowNode> := [
    FlowNode("step-1", Thinking, "Planning", "Determining the best approach to find SpaceX news", Pending),
    FlowNode("step-2", Search, "Web Search", "Searching for latest SpaceX news articles", Pending),
    FlowNode("step-3", Thinking, "Analyzing Results", "Reviewing search results for relevance", Pending),
    FlowNode("step-4", Summarize, "Summarization", "Creating a concise summary of the latest SpaceX news", Pending)
  ]

  const MarketingPlan: seq<FlowNode> := [
    FlowNode("step-1", Thinking, "Understanding Request", "Analyzing the marketing plan requirements", Pending),
    FlowNode("step-2", Tool, "Market Research", "Gathering market data and trends", Pending),
    FlowNode("step-3", Thinking, "Strategy Development", "Formulating marketing strategies based on research", Pending),
    FlowNode("step-4", Tool, "Competitor Analysis", "Analyzing competitor strategies and positioning", Pending),
    FlowNode("step-5", Summarize, "Plan Creation", "Creating a comprehensive marketing plan document", Pending)
  ]

  const DefaultPlan: seq<FlowNode> := [
    FlowNode("step-1", Thinking, "Understanding Request", "Analyzing the user's request", Pending),
    FlowNode("step-2", Tool, "Information Gathering", "Collecting relevant information", Pending),
    FlowNode("step-3", Thinking, "Processing Information", "Analyzing and processing the gathered information", Pending),
    FlowNode("step-4", Summarize, "Response Generation", "Creating a comprehensive response", Pending)
  ]

  /** `simulationSteps`, in the insertion order of its keys. */
  const SimulationSteps: seq<(string, seq<FlowNode>)> := [
    (SpaceXKey, SpaceXPlan),
    (MarketingKey, MarketingPlan),
    (DefaultKey, DefaultPlan)
  ]

  /** Ids "step-1".."step-n" in order, and every step still pending. */
  ghost predicate WellFormedPlan(plan: seq<FlowNode>) {
    && 0 < |plan| <= 9
    && (forall i :: 0 <= i < |plan| ==> plan[i].id == NumberedId("step-", i + 1))
    && (forall i :: 0 <= i < |plan| ==> plan[i].status == Pending)
  }

  /** Step ids within a well-formed plan are pairwise distinct. */
  lemma StepIdsDistinct(plan: seq<FlowNode>, i: nat, j: nat)
    requires WellFormedPlan(plan)
    requires i < |plan| && j < |plan| && i != j
    ensures plan[i].id != plan[j].id
  {
    assert plan[i].id[5] != plan[j].id[5];
  }

  /** The three table entries have 4, 5 and 4 steps, numbered and pending. */
  lemma TablePlansWellFormed()
    ensures WellFormedPlan(SpaceXPlan) && |SpaceXPlan| == 4
    ensures WellFormedPlan(MarketingPlan) && |MarketingPlan| == 5
    ensures WellFormedPlan(DefaultPlan) && |DefaultPlan| == 4
    ensures forall i :: 0 <= i < |SimulationSteps| ==> WellFormedPlan(SimulationSteps[i].1)
  {
    assert NumberedId("step-", 1) == "step-1" && NumberedId("step-", 2) == "step-2" && NumberedId("step-", 3) == "step-3";
    assert NumberedId("step-", 4) == "step-4" && NumberedId("step-", 5) == "step-5";
  }

  /**
   * `getSimulationSteps`: the plan of the first key the lower-cased prompt
   * contains, else the default plan. Plans are values, so the result is a copy
   * that its receiver may change without touching the table.
   */
  function GetSimulationSteps(prompt: string): (plan: seq<FlowNode>)
    ensures plan == SpaceXPlan || plan == MarketingPlan || plan == DefaultPlan
    ensures WellFormedPlan(plan)
  {
    TablePlansWellFormed();
    match FirstMatch(Keys(SimulationSteps), ToLower(prompt))
    case Some(k) => SimulationSteps[k].1
    case None => DefaultPlan
  }

  /**
   * The selection as a decision list: SpaceX wins over marketing, and the
   * literal key "default" and the fallback give the same plan.
   */
  lemma SelectsFirstContainedKey(prompt: string)
    ensures var lower := ToLower(prompt);
      GetSimulationSteps(prompt) ==
        if Contains(lower, SpaceXKey) then SpaceXPlan
        else if Contains(lower, MarketingKey) then MarketingPlan
        else DefaultPlan
  {
    var keys, lower := Keys(SimulationSteps), ToLower(prompt);
    assert keys == [SpaceXKey, MarketingKey, DefaultKey];
    var r := FirstMatch(keys, lower);
    if Contains(lower, SpaceXKey) {
      assert r == Some(0);
    } else if Contains(lower, MarketingKey) {
      FirstMatchStopsBy(keys, lower, 1);
      assert r == Some(1);
    } else {
      assert r == None || r == Some(2);
    }
  }

  /** The literal key "default" reaches through the loop the plan the fallback returns. */
  lemma DefaultPathsAgree(prompt: string)
    requires var lower := ToLower(prompt);
      !Contains(lower, SpaceXKey) && !Contains(lower, MarketingKey)
    ensures var lower := ToLower(prompt);
      Contains(lower, DefaultKey) ==>
        FirstMatch(Keys(SimulationSteps), lower) == Some(2) && GetSimulationSteps(prompt) == SimulationSteps[2].1
    ensures SimulationSteps[2].1 == DefaultPlan && GetSimulationSteps(prompt) == DefaultPlan
  {
    var keys := Keys(SimulationSteps);
    assert keys == [SpaceXKey, MarketingKey, DefaultKey];
  }

  /** Matching ignores case: a prompt and its lower-cased form select the same plan. */
  lemma SelectionIgnoresCase(prompt: string)
    ensures GetSimulationSteps(prompt) == GetSimulationSteps(ToLower(prompt))
  {
    ToLowerNormalises(prompt);
  }

  /** The SpaceX key, in any letter case, selects the SpaceX plan whatever surrounds it. */
  lemma SpaceXKeyAnywhere(before: string, key: string, after: string)
    requires ToLower(key) == SpaceXKey
    ensures GetSimulationSteps(before + key + after) == SpaceXPlan
  {
    ToLowerAppend(before + key, after);
    ToLowerAppend(before, key);
    ContainsInfix(ToLower(before), SpaceXKey, ToLower(after));
    SelectsFirstContainedKey(before + key + after);
  }

  /** "what is the weather" contains no key (it has no 'f', which "default" needs): default plan. */
  lemma WeatherPromptGetsDefault(prompt: string)
    requires prompt == "what is the weather"
    ensures GetSimulationSteps(prompt) == DefaultPlan
  {
    var lower := ToLower(prompt);
    assert |lower| == 19;
    assert !Contains(lower, SpaceXKey) && !Contains(lower, MarketingKey);
    assert 'f' !in lower by {
      forall i | 0 <= i < |lower| ensures lower[i] != 'f' {
        assert prompt[i] != 'f' && prompt[i] != 'F';
      }
    }
    assert 'f' in DefaultKey by { assert DefaultKey[2] == 'f'; }
    if Contains(lower, DefaultKey) {
      ContainsChars(lower, DefaultKey, 'f');
    }
    SelectsFirstContainedKey(prompt);
  }
}
