# Agent-simulation chat: a Dafny model of its sequential core

The application is a browser chat with an "agent workflow" side panel. A
prompt picks a canned step plan by case-insensitive substring match, and a
sequencer flips the plan's steps from pending to running to completed. A chat
hook keeps the message list, with an optimistic "thinking" placeholder, and
starts that sequencer on every accepted send. A `POST /api/chat` handler
validates the history and forwards it to a hosted completion service. The
library also defines a canned-response selector built on the same matching
strategy.

This project models those five pieces and proves what they promise:

- `PromptMatch`: the matching strategy both selectors share. It covers ASCII
  lower-casing, substring containment (`String.prototype.includes`) and the
  early-return search for the first contained key of an ordered table.
- `AgentPlans` (lib/agent-simulation.ts): the `FlowNode` record, the three step
  plans and `getSimulationSteps`.
- `ChatData` (lib/chat.ts): the `Message` and `ToolCall` records, the two
  canned bundles and `getSampleResponse` with its generic fallback.
- `SimulationHook` (hooks/use-agent-simulation.ts): class `Simulation`. Its four
  fields are the hook's four state cells. `Start`, `BeginStep`, `CompleteStep`,
  `Finish` and `Reset` are the state changes. `RunSimulation` is the whole
  `for` loop of `runSimulation`.
- `ChatHook` (hooks/use-chat.ts): class `ChatSession`, holding `messages` and
  `isProcessing`. `sendMessage` is split at its `await` into `Begin` (guard and
  appends) and `Settle` (try/catch/finally). `Settle` dispatches to `OnSuccess`
  or `OnFailure`. `SendMessage` runs the two back to back, and `Reset` is
  `resetChat`.
- `ChatRoute` (app/api/chat/route.ts): `Post`, a function from the parsed body
  and the completion service to a status code and JSON envelope.
- `EndToEnd`: the client's reading of the endpoint's reply, the agreement of
  the two selectors, and complete sends.

Modelling choices:

- Strings are `seq<char>`.
- A plan is a value (`seq<FlowNode>`). The deep copy `getSimulationSteps` makes
  is therefore implicit: whatever the sequencer does to its list cannot reach
  the table.
- The completion service is a function parameter of `Post`. "The service is not
  called" is then stated as "the answer does not depend on the service".
- Random draws, ids and timestamps are parameters.

In the source, every call to `useAgentSimulation()` creates its own state. The
instance that `useChat` starts (hooks/use-chat.ts:12, 46) is not the one the
panel renders (components/agent-simulation.tsx:11). `ChatSession` therefore owns
its own `Simulation`, and `Begin` starts that one.

Behaviour of the code that the model keeps as written:

- The per-step delay is `Math.floor(Math.random() * 2000) + 1000` ms, so at
  most 2999 ms, although the comment at hooks/use-agent-simulation.ts:40 says
  "1-3 seconds".
- Neither hook ignores stale updates after a reset or a restart.
  - `ChatHook.StaleReplyAfterReset` shows a late reply overwriting a newer
    send's placeholder.
  - `ChatHook.StaleFailureAfterReset` shows two placeholders thinking at once.
  - So "at most one thinking message" holds only for sends that settle without
    a reset in between (`ChatHook.ChatSession.SendMessage`).
  - `startSimulation` has no guard, and nothing ever resets the instance
    `useChat` starts: the Reset button's `resetSimulation`
    (components/chat-interface.tsx:22, 34) belongs to yet another instance. A
    second send, accepted as soon as the first reply lands, restarts the plan
    while the first run's loop is still writing into the list.
    `SimulationHook.OverlappingRunsBreakInvariants` shows a completed node
    after pending ones and two nodes running at once.
  - So the sequencer's "completed prefix, at most one running" invariant holds
    only within one uninterrupted run (`SimulationHook.WalkKeepsInvariants`,
    `SimulationHook.Simulation.RunSimulation`).
- The sequencer instance that `useChat` starts is rendered by no component:
  the panel (components/agent-simulation.tsx:11) calls `useAgentSimulation()`
  itself and nothing starts that instance, so the panel never shows a plan.
- The canned-response selector `getSampleResponse` (lib/chat.ts:80) is defined
  but never called, so replies never carry its text or tool calls; the handler
  sends back only role and content (app/api/chat/route.ts:51-55). It is modelled
  as the library defines it.
- The canned-response selector returns the shared table entry, not a copy.
- The `failed` step and tool-call statuses are never produced.

## Model

| member | source | states |
|---|---|---|
| PromptMatch.LowerChar | lib/agent-simulation.ts:115 | the result is never an upper-case ASCII letter; an upper-case letter moves up by 32 and every other character is kept |
| PromptMatch.ToLower | lib/agent-simulation.ts:115 | lower-casing keeps the length and lower-cases each character in place |
| PromptMatch.ToLowerNormalises | lib/chat.ts:84 | the lower-cased prompt has no upper-case letter, lower-casing is idempotent, and an already lower-case key is unchanged |
| PromptMatch.ToLowerAppend | lib/agent-simulation.ts:115 | lower-casing distributes over concatenation, so text around a key is lower-cased independently |
| PromptMatch.Contains | lib/agent-simulation.ts:119 | `includes` holds only if the key is no longer than the text |
| PromptMatch.ContainsIffOccurs | lib/agent-simulation.ts:119 | the recursive containment test holds exactly when the key occurs at some position (both directions) |
| PromptMatch.ContainsInfix | lib/chat.ts:88 | a key is contained in any text of the form before + key + after |
| PromptMatch.ContainsChars | lib/agent-simulation.ts:119 | every character of a contained key occurs in the text |
| PromptMatch.Keys | lib/agent-simulation.ts:118 | the keys of an ordered table are listed in table order |
| PromptMatch.FirstMatch | lib/agent-simulation.ts:118-122 | the result is the first key in order that the text contains, and no earlier key is contained; None exactly when no key is contained |
| PromptMatch.FirstMatchStopsBy | lib/chat.ts:87-91 | the search never passes a contained key: it stops at that key or at an earlier one |
| AgentPlans.StepIdsDistinct | lib/agent-simulation.ts:14-110 | within a well-formed plan the step ids are pairwise distinct |
| AgentPlans.TablePlansWellFormed | lib/agent-simulation.ts:13-111 | the SpaceX, marketing and default plans have 4, 5 and 4 steps, with ids step-1..step-n in order and every step pending |
| AgentPlans.GetSimulationSteps | lib/agent-simulation.ts:114-126 | the result is one of the three table plans; it is non-empty, numbered step-1..step-n and all pending |
| AgentPlans.SelectsFirstContainedKey | lib/agent-simulation.ts:118-125 | the selected plan is SpaceX if the lower-cased prompt contains that key, else marketing if it contains that key, else default; a prompt with both keys gets SpaceX |
| AgentPlans.DefaultPathsAgree | lib/agent-simulation.ts:81-125 | with neither specific key, a prompt containing "default" is matched by the loop at the third key, and that path and the fallback give the same default plan |
| AgentPlans.SelectionIgnoresCase | lib/agent-simulation.ts:115-119 | a prompt and its lower-cased form select the same plan |
| AgentPlans.SpaceXKeyAnywhere | lib/agent-simulation.ts:14-121 | the SpaceX key in any letter case, with any text around it, selects the SpaceX plan |
| AgentPlans.WeatherPromptGetsDefault | lib/agent-simulation.ts:118-125 | "what is the weather" contains no key and gets the default plan |
| ChatData.SpaceXBundleWellFormed | lib/chat.ts:30-49 | the SpaceX bundle has non-empty text and two completed tool calls, tool-1 and tool-2 |
| ChatData.MarketingBundleWellFormed | lib/chat.ts:50-76 | the marketing bundle has non-empty text and three completed tool calls, tool-1..tool-3 |
| ChatData.GenericResponse | lib/chat.ts:94-106 | the generic bundle has non-empty text and exactly one completed tool call, tool-1, whose query input is the prompt as given |
| ChatData.GetSampleResponse | lib/chat.ts:80-107 | the result is a table bundle or the generic bundle for this prompt; on every path the text is non-empty and every tool call is completed |
| ChatData.SelectsFirstContainedResponse | lib/chat.ts:84-97 | the bundle is SpaceX if the lower-cased prompt contains that key, else marketing if it contains that key, else the generic bundle built from the prompt |
| ChatData.FallbackRecordsPrompt | lib/chat.ts:94-106 | with no key matched there is exactly one tool call, "information-retrieval", completed, whose query is the prompt as typed, not lower-cased |
| ChatData.ResponseSelectionIgnoresCase | lib/chat.ts:84-89 | when a key matches, a prompt and its lower-cased form select the same table entry (the fallback instead records the prompt's own letters) |
| SimulationHook.ExecutingStatus | hooks/use-agent-simulation.ts:38 | the status line is "Executing: " followed by exactly the step title |
| SimulationHook.SetStatus | hooks/use-agent-simulation.ts:31-35 | the updated list has the same length; node i gets the new status and keeps its id, type, title and description; every other node is unchanged |
| SimulationHook.ProcessingTime | hooks/use-agent-simulation.ts:41 | for a draw in [0, 2000) the delay is an integer in [1000, 2999] ms, 1000 plus the draw |
| SimulationHook.ProgressGivesInvariants | hooks/use-agent-simulation.ts:26-50 | in the loop's shape (before i completed, after i pending) the completed nodes form a prefix and at most one node is running |
| SimulationHook.SelectedPlanStartsAtZero | hooks/use-agent-simulation.ts:13-14 | a freshly selected plan is in the loop's shape at step 0 |
| SimulationHook.BeginKeepsProgress | hooks/use-agent-simulation.ts:28-35 | marking step k running keeps the shape at k and makes k the only running node |
| SimulationHook.CompleteAdvancesProgress | hooks/use-agent-simulation.ts:45-49 | marking step k completed moves the shape to k + 1 |
| SimulationHook.FlagsAgreeWhileRunning | components/agent-simulation.tsx:35 | while step k runs with currentStep k, "active" marks exactly the running node and "completed" exactly the completed nodes |
| SimulationHook.IsActive | components/agent-simulation.tsx:35 | the panel flags node `index` active when it is the current step; an active node is never also flagged completed |
| SimulationHook.IsCompletedFlag | components/agent-simulation.tsx:35 | the panel flags node `index` completed when the current step is past it; before the loop reaches its second step (currentStep -1 or 0) no node is flagged completed |
| SimulationHook.WalkKeepsInvariants | hooks/use-agent-simulation.ts:26-50 | every state of the begin/complete walk has a completed prefix and at most one running node, and at the end every node is completed |
| SimulationHook.OverlappingRunsBreakInvariants | hooks/use-agent-simulation.ts:12-50 | a restart while a run is in flight (no guard in `startSimulation`) lets the old run's updates land in the new plan: a completed node after pending ones, then two nodes running |
| SimulationHook.Simulation.constructor | hooks/use-agent-simulation.ts:7-10 | initial state: no nodes, currentStep -1, inactive, no status line |
| SimulationHook.Simulation.Start | hooks/use-agent-simulation.ts:12-17 | flowNodes becomes the selected plan (well formed, at step 0), currentStep -1, active, status "Initializing agent simulation..." |
| SimulationHook.Simulation.BeginStep | hooks/use-agent-simulation.ts:28-38 | currentStep becomes i, node i running and nothing else in the list changes, status "Executing: " + title; active is unchanged |
| SimulationHook.Simulation.CompleteStep | hooks/use-agent-simulation.ts:45-49 | only node i changes, to completed; the length and the other fields are unchanged |
| SimulationHook.Simulation.Finish | hooks/use-agent-simulation.ts:52-54 | status "Simulation complete" and inactive; the nodes and currentStep are untouched |
| SimulationHook.Simulation.Reset | hooks/use-agent-simulation.ts:57-62 | no nodes, currentStep -1, inactive, no status line |
| SimulationHook.Simulation.RunSimulation | hooks/use-agent-simulation.ts:25-55 | after the loop every node is its old self marked completed, currentStep stays at n - 1, status "Simulation complete", inactive; the total delay lies in [1000n, 2999n] ms; from a list at step 0 every intermediate list keeps the loop's shape (loop invariant) and the final list stands at step n |
| ChatHook.ReplyContent | hooks/use-chat.ts:58-72 | the success path is taken exactly for an ok response with non-empty content; a network error, a non-ok status, or missing or empty content takes the failure path |
| ChatHook.UserMessage | hooks/use-chat.ts:22-28 | the user's message has role user and the typed content, and is not thinking |
| ChatHook.ThinkingMessage | hooks/use-chat.ts:34-40 | the placeholder has role assistant and empty content, and is thinking: a list holding only it has thinking count 1 |
| ChatHook.WithReply | hooks/use-chat.ts:75-86 | same length, all but the last message unchanged; the last takes the content and status complete and keeps its id, role, timestamp and tool calls |
| ChatHook.RemoveById | hooks/use-chat.ts:93 | the result holds exactly the messages whose id differs from the given one, and is no longer than the input |
| ChatHook.RemoveByIdAppend | hooks/use-chat.ts:93 | filtering keeps order: filtering a concatenation is the concatenation of the filtered parts |
| ChatHook.RemoveAbsentId | hooks/use-chat.ts:93 | filtering by an id no message has changes nothing |
| ChatHook.ThinkingCount | hooks/use-chat.ts:34-42 | the count of thinking messages is zero exactly when no message is thinking |
| ChatHook.ThinkingCountAppend | hooks/use-chat.ts:42 | the thinking count of a concatenation is the sum of the parts' counts |
| ChatHook.BeginLeavesOneThinking | hooks/use-chat.ts:22-42 | appending the user message and the placeholder to a settled list leaves exactly one message thinking |
| ChatHook.SuccessSettles | hooks/use-chat.ts:75-86 | on success the placeholder becomes the reply in place, earlier messages are untouched, and nothing is thinking |
| ChatHook.FailureRollsBack | hooks/use-chat.ts:88-93 | on failure with a fresh placeholder id, the list is the earlier messages plus the user message, in order, with nothing thinking |
| ChatHook.ChatSession.constructor | hooks/use-chat.ts:9-12 | no messages, not processing, and a fresh simulation in its initial state: no nodes, currentStep -1, inactive, no status line |
| ChatHook.ChatSession.Begin | hooks/use-chat.ts:14-56 | a no-op while processing; otherwise appends the user message (role user, complete) and the placeholder (assistant, "", thinking), sets the flag, starts the simulation on the prompt (its plan, currentStep -1, active, "Initializing agent simulation..."), and returns the prior messages plus the user message (no placeholder) as the request |
| ChatHook.ChatSession.OnSuccess | hooks/use-chat.ts:75-86 | the list becomes WithReply of the old list |
| ChatHook.ChatSession.OnFailure | hooks/use-chat.ts:88-93 | the list becomes the old list filtered by the placeholder's id |
| ChatHook.ChatSession.Settle | hooks/use-chat.ts:56-97 | the success or failure update chosen by ReplyContent, and isProcessing false on every exit path |
| ChatHook.ChatSession.SendMessage | hooks/use-chat.ts:14-100 | a no-op while processing; otherwise the flag ends false, the request is the prior messages plus the user message, the simulation is started on the prompt (its plan, currentStep -1, active, "Initializing agent simulation..."), and from any list the final list is the prior messages plus user message and placeholder, then WithReply on success or filtered by the placeholder id on failure; from a settled list with fresh ids the list ends as prior + user (+ the completed reply on success) with nothing thinking |
| ChatHook.ChatSession.Reset | hooks/use-chat.ts:102-107 | the list is empty and the flag false; the simulation is not touched |
| ChatHook.StaleReplyAfterReset | components/chat-interface.tsx:32-35 | send, reset, send again, then the first reply arrives: the second send's placeholder shows the first reply, and the flag is false while the second request is pending |
| ChatHook.StaleFailureAfterReset | hooks/use-chat.ts:93-96 | send, reset, send again, the first send fails, send a third time: two placeholders are thinking at once |
| ChatRoute.Project | app/api/chat/route.ts:30 | the projection has the same length and order and keeps exactly each message's role and content |
| ChatRoute.FirstContent | app/api/chat/route.ts:43 | the first choice's content, absent when there are no choices or the first has no content |
| ChatRoute.Post | app/api/chat/route.ts:16-63 | the status is 200, 400 or 500; 200 exactly with a message body whose role is assistant and whose content is non-empty; 400 exactly for a missing or empty history, with "Messages are required" |
| ChatRoute.RejectsEmptyHistoryWithoutCalling | app/api/chat/route.ts:22-25 | a missing or empty history gives 400 "Messages are required" whatever the service would answer, so the service is not consulted |
| ChatRoute.ServiceSeesOnlyProjection | app/api/chat/route.ts:30-38 | the handler's answer depends on the service only through its answer to the projected history |
| ChatRoute.ProjectionIgnoresBookkeeping | app/api/chat/route.ts:30 | histories that agree on role and content project alike: ids, statuses, timestamps and tool calls are dropped |
| ChatRoute.EnvelopeByAnswer | app/api/chat/route.ts:33-62 | for a non-empty history: 200 with the first choice's content; 500 "Failed to get response from AI" when it is absent or empty (or there is no choice); 500 "Internal Server Error" when the call throws |
| ChatRoute.MalformedBodyIsInternalError | app/api/chat/route.ts:19-20 | a body that cannot be parsed gives 500 "Internal Server Error" |
| EndToEnd.Received | hooks/use-chat.ts:58-66 | the client's ok flag holds exactly for a 2xx status |
| EndToEnd.ClientSucceedsExactlyOn200 | hooks/use-chat.ts:58-72 | the client takes its success path exactly when the handler answers 200, and with that answer's content |
| EndToEnd.SelectorsAgree | lib/chat.ts:84-106 | the plan and the bundle agree: SpaceX with SpaceX, marketing with marketing, default plan with generic bundle |
| EndToEnd.MarketingSend | hooks/use-chat.ts:14-97 | a first marketing-prompt send whose service answers "OK" ends with two messages, the second assistant, complete, "OK"; the five-step plan ends fully completed; the flag is false |
| EndToEnd.FailedSend | hooks/use-chat.ts:88-97 | a first send whose service throws ends with only the user message and the flag false |

## Left out

- Rendering (components/*.tsx, app/page.tsx) is not modelled: JSX, animation, icons and styling. The panel's "active"/"completed" flags appear only as two predicates.
- Timers and `await` are not modelled: the 500 ms start delay, the per-step waits, and the unsynchronised interleaving of the sequencer with the fetch. Each state change is an explicit sequential call, and callers choose the interleaving.
- `Math.random` floating point is not modelled: the floor of the draw is an integer parameter in [0, 2000).
- `Date.now()` is not modelled: message ids and timestamps are parameters, and freshness of the placeholder id is a hypothesis of the lemmas that need it.
- The I/O and foreign libraries are not modelled: `fetch`, the OpenAI client, the `OPENAI_API_KEY` start-up check, `req.json()`, `toast` and `console` logging. The completion result and the parse failure are inputs.
- `toLowerCase` is modelled for ASCII letters only, not full Unicode.
- The `JSON.parse(JSON.stringify(...))` mechanics are not modelled; plans are values, so copies are independent by construction.
- Object identity is not modelled: that `getSampleResponse` hands out the shared table entry (an alias) rather than a copy cannot be observed in a value model.
- The `any`-typed tool-call `input` and `output` are modelled as a small value type and a string; the never-set `details` field of a flow node is omitted.
- SimulationHook.Simulation.BeginStep: requires `i < |flowNodes|`. After a reset, the source's late update would write a partial node at index i of the empty list; that case is excluded rather than modelled.
- SimulationHook.Simulation.CompleteStep: requires `i < |flowNodes|`, for the same reason as BeginStep.
- SimulationHook.Simulation.RunSimulation: requires the current list to be as long as the plan being walked, and models a run with no reset or restart in between; interleavings are covered only by the single-step methods.
- ChatHook.ChatSession.Begin: the history sent is built from the current list, whereas the source uses the list captured when the callback was created; the two agree whenever the guard lets a send through.
