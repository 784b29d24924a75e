/**
 * The step sequencer behind the agent-simulation panel
 * (hooks/use-agent-simulation.ts): four state cells and the operations that
 * rewrite them. The timed loop of `runSimulation` is exposed both as its
 * single steps (BeginStep, CompleteStep, Finish) and as the whole loop
 * (RunSimulation).
 */
module SimulationHook {
  import opened Wrappers
  import opened AgentPlans

  const InitializingStatus: string := "Initializing agent simulation..."
  const CompleteStatus: string := "Simulation complete"

  /** The status line shown while step `title` runs. */
  function ExecutingStatus(title: string): (line: string)
    ensures |line| == 11 + |title| && line[..11] == "Executing: " && line[11..] == title
  {
    "Executing: " + title
  }

  /** The node list with node `i` set to `status` (a spread copy with one entry replaced). */
  function SetStatus(nodes: seq<FlowNode>, i: nat, status: NodeStatus): (r: seq<FlowNode>)
    requires i < |nodes|
    ensures |r| == |nodes|
    ensures r[i].status == status
    ensures r[i].id == nodes[i].id && r[i].kind == nodes[i].kind
    ensures r[i].title == nodes[i].title && r[i].description == nodes[i].description
    ensures forall j :: 0 <= j < |nodes| && j != i ==> r[j] == nodes[j]
  {
    nodes[i := nodes[i].(status := status)]
  }

  /**
   * `Math.floor(Math.random() * 2000) + 1000`, with the floor of the random
   * draw given as `draw`: the delay in milliseconds before a step completes.
   */
  function ProcessingTime(draw: int): (ms: int)
    requires 0 <= draw < 2000
    ensures 1000 <= ms <= 2999
    ensures ms - 1000 == draw
  {
    draw + 1000
  }

  /** Completed nodes form a prefix of the list. */
  ghost predicate CompletedPrefix(nodes: seq<FlowNode>) {
    forall i, j :: 0 <= i < j < |nodes| && nodes[j].status == Completed ==> nodes[i].status == Completed
  }

  /** At most one node is running. */
  ghost predicate AtMostOneRunning(nodes: seq<FlowNode>) {
    forall i, j :: 0 <= i < |nodes| && 0 <= j < |nodes| && nodes[i].status == Running && nodes[j].status == Running ==> i == j
  }

  /**
   * The shape of the list while the loop stands at step `k`: everything
   * before `k` completed, everything after it pending, and step `k` itself
   * pending or running.
   */
  ghost predicate ProgressAt(nodes: seq<FlowNode>, k: nat) {
    && k <= |nodes|
    && (forall j :: 0 <= j < k ==> nodes[j].status == Completed)
    && (forall j :: k < j < |nodes| ==> nodes[j].status == Pending)
    && (k < |nodes| ==> nodes[k].status == Pending || nodes[k].status == Running)
  }

  /** Any list with the loop's shape has a completed prefix and at most one running node. */
  lemma ProgressGivesInvariants(nodes: seq<FlowNode>, k: nat)
    requires ProgressAt(nodes, k)
    ensures CompletedPrefix(nodes) && AtMostOneRunning(nodes)
  {
  }

  /** A freshly selected plan stands at step 0. */
  lemma SelectedPlanStartsAtZero(prompt: string)
    ensures ProgressAt(GetSimulationSteps(prompt), 0)
  {
  }

  /** Beginning the pending step `k` keeps the shape at `k` and makes `k` the running node. */
  lemma BeginKeepsProgress(nodes: seq<FlowNode>, k: nat)
    requires ProgressAt(nodes, k) && k < |nodes|
    ensures ProgressAt(SetStatus(nodes, k, Running), k)
    ensures forall j :: 0 <= j < |nodes| ==> (SetStatus(nodes, k, Running)[j].status == Running <==> j == k)
  {
  }

  /** Completing step `k` moves the shape on to `k + 1`. */
  lemma CompleteAdvancesProgress(nodes: seq<FlowNode>, k: nat)
    requires ProgressAt(nodes, k) && k < |nodes|
    ensures ProgressAt(SetStatus(nodes, k, Completed), k + 1)
  {
  }

  /**
   * The panel's flags for node `index`: active when it is the current step,
   * completed when the current step is past it.
   */
  predicate IsActive(currentStep: int, index: nat): (active: bool)
    ensures active ==> !IsCompletedFlag(currentStep, index)
  {
    currentStep == index
  }

  /** Before the loop reaches its second step, no node is flagged completed. */
  predicate IsCompletedFlag(currentStep: int, index: nat): (completed: bool)
    ensures currentStep <= 0 ==> !completed
  {
    currentStep > index
  }

  /**
   * While step `k` runs, the panel's flags agree with the node statuses: the
   * active node is the running one and the nodes flagged completed are the
   * completed ones.
   */
  lemma FlagsAgreeWhileRunning(nodes: seq<FlowNode>, k: nat)
    requires ProgressAt(nodes, k) && k < |nodes| && nodes[k].status == Running
    ensures forall j :: 0 <= j < |nodes| ==> (IsActive(k, j) <==> nodes[j].status == Running)
    ensures forall j :: 0 <= j < |nodes| ==> (IsCompletedFlag(k, j) <==> nodes[j].status == Completed)
  {
  }

  /** The state of one `useAgentSimulation` instance. */
  class Simulation {
    var flowNodes: seq<FlowNode>
    var currentStep: int
    var isSimulationActive: bool
    var simulationState: Option<string>

    /** The hook's initial state. */
    constructor ()
      ensures flowNodes == [] && currentStep == -1
      ensures !isSimulationActive && simulationState == None
    {
      flowNodes := [];
      currentStep := -1;
      isSimulationActive := false;
      simulationState := None;
    }

    /** `startSimulation`: load the plan for `prompt`; returns the plan the loop will walk. */
    method Start(prompt: string) returns (steps: seq<FlowNode>)
      modifies this
      ensures steps == GetSimulationSteps(prompt) && flowNodes == steps
      ensures WellFormedPlan(flowNodes) && ProgressAt(flowNodes, 0)
      ensures currentStep == -1 && isSimulationActive
      ensures simulationState == Some(InitializingStatus)
    {
      steps := GetSimulationSteps(prompt);
      flowNodes := steps;
      currentStep := -1;
      isSimulationActive := true;
      simulationState := Some(InitializingStatus);
    }

    /**
     * First half of loop iteration `i`: step `i` becomes current and running.
     * The updater indexes whatever list is current, so `i` must be in range.
     */
    method BeginStep(steps: seq<FlowNode>, i: nat)
      requires i < |steps| && i < |flowNodes|
      modifies this
      ensures currentStep == i
      ensures flowNodes == SetStatus(old(flowNodes), i, Running)
      ensures simulationState == Some(ExecutingStatus(steps[i].title))
      ensures isSimulationActive == old(isSimulationActive)
    {
      currentStep := i;
      flowNodes := SetStatus(flowNodes, i, Running);
      simulationState := Some(ExecutingStatus(steps[i].title));
    }

    /** Second half of loop iteration `i`, after the delay: step `i` completes. */
    method CompleteStep(i: nat)
      requires i < |flowNodes|
      modifies this`flowNodes
      ensures flowNodes == SetStatus(old(flowNodes), i, Completed)
    {
      flowNodes := SetStatus(flowNodes, i, Completed);
    }

    /** After the loop: the status line reports completion and the run is no longer active. */
    method Finish()
      modifies this`simulationState, this`isSimulationActive
      ensures simulationState == Some(CompleteStatus) && !isSimulationActive
    {
      simulationState := Some(CompleteStatus);
      isSimulationActive := false;
    }

    /** `resetSimulation`: back to the initial state. */
    method Reset()
      modifies this
      ensures flowNodes == [] && currentStep == -1
      ensures !isSimulationActive && simulationState == None
    {
      flowNodes := [];
      currentStep := -1;
      isSimulationActive := false;
      simulationState := None;
    }

    /**
     * `runSimulation(steps)` run to the end without interference, with
     * `draws[i]` the random draw for step `i`. Every node ends completed and
     * nothing else about it changes; `currentStep` stays on the last step.
     * Returns the total simulated delay.
     */
    method RunSimulation(steps: seq<FlowNode>, draws: seq<int>) returns (elapsed: int)
      requires |flowNodes| == |steps| && |draws| == |steps|
      requires forall k :: 0 <= k < |draws| ==> 0 <= draws[k] < 2000
      modifies this
      ensures |flowNodes| == |steps|
      ensures forall k :: 0 <= k < |steps| ==> flowNodes[k] == old(flowNodes)[k].(status := Completed)
      ensures currentStep == if steps == [] then old(currentStep) else |steps| - 1
      ensures simulationState == Some(CompleteStatus) && !isSimulationActive
      ensures 1000 * |steps| <= elapsed <= 2999 * |steps|
      ensures ProgressAt(old(flowNodes), 0) ==> ProgressAt(flowNodes, |steps|)
    {
      elapsed := 0;
      var i := 0;
      while i < |steps|
        invariant 0 <= i <= |steps| && |flowNodes| == |steps|
        invariant forall k :: 0 <= k < i ==> flowNodes[k] == old(flowNodes)[k].(status := Completed)
        invariant forall k :: i <= k < |steps| ==> flowNodes[k] == old(flowNodes)[k]
        invariant currentStep == if i == 0 then old(currentStep) else i - 1
        invariant 1000 * i <= elapsed <= 2999 * i
        invariant ProgressAt(old(flowNodes), 0) ==> ProgressAt(flowNodes, i)
      {
        BeginStep(steps, i);
        elapsed := elapsed + ProcessingTime(draws[i]);
        CompleteStep(i);
        i := i + 1;
      }
      Finish();
    }
  }

  /**
   * The walk RunSimulation performs, one step at a time: starting from the
   * plan, interleaving BeginStep and CompleteStep keeps a completed prefix and
   * at most one running node throughout, and ends with every node completed.
   */
  lemma {:induction false} WalkKeepsInvariants(nodes: seq<FlowNode>, k: nat)
    requires ProgressAt(nodes, k)
    ensures CompletedPrefix(nodes) && AtMostOneRunning(nodes)
    ensures k < |nodes| && nodes[k].status == Pending ==>
      var begun := SetStatus(nodes, k, Running);
      CompletedPrefix(begun) && AtMostOneRunning(begun) && ProgressAt(SetStatus(begun, k, Completed), k + 1)
    ensures k == |nodes| ==> forall j :: 0 <= j < |nodes| ==> nodes[j].status == Completed
  {
    ProgressGivesInvariants(nodes, k);
    if k < |nodes| && nodes[k].status == Pending {
      var begun := SetStatus(nodes, k, Running);
      BeginKeepsProgress(nodes, k);
      ProgressGivesInvariants(begun, k);
      CompleteAdvancesProgress(begun, k);
    }
  }

  /**
   * `startSimulation` has no guard and the loop never checks which plan is
   * current, so a restart while a run is in flight lets the old run write
   * into the new plan. Here a run of `first` has completed two steps and
   * begun the third when `second` restarts the sequencer: the old run's
   * completion of step 2 leaves a completed node after pending ones, and its
   * next step running beside the new run's first leaves two nodes running.
   */
  method OverlappingRunsBreakInvariants(first: string, second: string)
    returns (afterStaleComplete: seq<FlowNode>, afterBothBegin: seq<FlowNode>)
    ensures !CompletedPrefix(afterStaleComplete)
    ensures !AtMostOneRunning(afterBothBegin)
  {
    TablePlansWellFormed();
    var simulation := new Simulation();
    var steps1 := simulation.Start(first);
    simulation.BeginStep(steps1, 0);
    simulation.CompleteStep(0);
    simulation.BeginStep(steps1, 1);
    simulation.CompleteStep(1);
    simulation.BeginStep(steps1, 2);
    var steps2 := simulation.Start(second);
    simulation.CompleteStep(2);
    afterStaleComplete := simulation.flowNodes;
    assert afterStaleComplete[0].status == Pending && afterStaleComplete[2].status == Completed;
    simulation.BeginStep(steps1, 3);
    simulation.BeginStep(steps2, 0);
    afterBothBegin := simulation.flowNodes;
    assert afterBothBegin[0].status == Running && afterBothBegin[3].status == Running;
  }
}
