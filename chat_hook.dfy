/**
 * The chat message list and its in-flight flag (hooks/use-chat.ts).
 * `sendMessage` is split at its `await`: Begin runs up to the request,
 * Settle runs the try/catch/finally once the reply is known.
 */
module ChatHook {
  import opened Wrappers
  import opened AgentPlans
  import opened ChatData
  import opened SimulationHook

  /** What the client sees of the HTTP exchange with the chat endpoint. */
  datatype Reply =
    | NetworkError
      /** A response arrived: its `ok` flag and `data.message.content`, None when absent or unreadable. */
    | Response(ok: bool, content: Option<string>)

  /**
   * The reply content the success path uses, or None when the failure path is
   * taken: a network error, a response that is not ok, or content that is
   * missing or empty (JavaScript treats "" as false).
   */
  function ReplyContent(reply: Reply): (c: Option<string>)
    ensures c.Some? <==> reply.Response? && reply.ok && reply.content.Some? && reply.content.value != ""
    ensures c.Some? ==> c == reply.content && c.value != ""
  {
    match reply
    case NetworkError => None
    case Response(ok, content) =>
      if ok && content.Some? && content.value != "" then content else None
  }

  /** The user's message, complete as soon as it is sent. */
  function UserMessage(id: string, content: string, time: int): (m: Message)
    ensures m.role == User && m.content == content && ThinkingCount([m]) == 0
  {
    Message(id, User, content, Complete, time, None)
  }

  /** The assistant placeholder shown while the reply is awaited: empty and thinking. */
  function ThinkingMessage(id: string, time: int): (m: Message)
    ensures m.role == Assistant && m.content == "" && ThinkingCount([m]) == 1
  {
    Message(id, Assistant, "", ThinkingStatus, time, None)
  }

  /**
   * The success update: the last message takes the reply content and status
   * "complete" and keeps everything else. On an empty list the JavaScript
   * write lands on the property "-1" and no element changes.
   */
  function WithReply(messages: seq<Message>, content: string): (r: seq<Message>)
    ensures |r| == |messages|
    ensures forall i :: 0 <= i < |messages| - 1 ==> r[i] == messages[i]
    ensures messages != [] ==>
      var last, was := r[|r| - 1], messages[|messages| - 1];
      && last.content == content && last.status == Complete
      && last.id == was.id && last.role == was.role
      && last.timestamp == was.timestamp && last.toolCalls == was.toolCalls
  {
    if messages == [] then []
    else messages[|messages| - 1 := messages[|messages| - 1].(content := content, status := Complete)]
  }

  /** `messages.filter(m => m.id !== id)`. */
  function RemoveById(messages: seq<Message>, id: string): (r: seq<Message>)
    ensures |r| <= |messages|
    ensures forall m :: m in r <==> m in messages && m.id != id
  {
    if messages == [] then []
    else if messages[0].id == id then RemoveById(messages[1..], id)
    else [messages[0]] + RemoveById(messages[1..], id)
  }

  /** Filtering works element by element, so it keeps order across a concatenation. */
  lemma {:induction false} RemoveByIdAppend(a: seq<Message>, b: seq<Message>, id: string)
    ensures RemoveById(a + b, id) == RemoveById(a, id) + RemoveById(b, id)
  {
    if a == [] {
      assert a + b == b;
    } else {
      assert (a + b)[1..] == a[1..] + b;
      RemoveByIdAppend(a[1..], b, id);
    }
  }

  /** Filtering by an id nobody has changes nothing. */
  lemma {:induction false} RemoveAbsentId(messages: seq<Message>, id: string)
    requires forall i :: 0 <= i < |messages| ==> messages[i].id != id
    ensures RemoveById(messages, id) == messages
  {
    if messages != [] {
      RemoveAbsentId(messages[1..], id);
    }
  }

  ghost predicate IdsDifferFrom(messages: seq<Message>, id: string) {
    forall i :: 0 <= i < |messages| ==> messages[i].id != id
  }

  /** The number of messages in status "thinking". */
  function ThinkingCount(messages: seq<Message>): (n: nat)
    ensures n <= |messages|
    ensures n == 0 <==> forall i :: 0 <= i < |messages| ==> messages[i].status != ThinkingStatus
  {
    if messages == [] then 0
    else (if messages[0].status == ThinkingStatus then 1 else 0) + ThinkingCount(messages[1..])
  }

  lemma {:induction false} ThinkingCountAppend(a: seq<Message>, b: seq<Message>)
    ensures ThinkingCount(a + b) == ThinkingCount(a) + ThinkingCount(b)
  {
    if a == [] {
      assert a + b == b;
    } else {
      assert (a + b)[1..] == a[1..] + b;
      ThinkingCountAppend(a[1..], b);
    }
  }

  /**
   * A send on a settled list (no message thinking) leaves exactly one
   * message thinking, the placeholder, which is last.
   */
  lemma BeginLeavesOneThinking(prior: seq<Message>, user: Message, placeholder: Message)
    requires ThinkingCount(prior) == 0
    requires user.status == Complete && placeholder.status == ThinkingStatus
    ensures ThinkingCount(prior + [user, placeholder]) == 1
  {
    ThinkingCountAppend(prior, [user, placeholder]);
    assert [user, placeholder][1..] == [placeholder];
  }

  /**
   * On success the placeholder becomes the reply in place: earlier messages
   * are untouched and nothing is left thinking.
   */
  lemma SuccessSettles(prior: seq<Message>, user: Message, placeholder: Message, content: string)
    requires ThinkingCount(prior) == 0 && user.status == Complete
    ensures WithReply(prior + [user, placeholder], content) ==
      prior + [user, placeholder.(content := content, status := Complete)]
    ensures ThinkingCount(WithReply(prior + [user, placeholder], content)) == 0
  {
    var r := WithReply(prior + [user, placeholder], content);
    assert r == prior + [user, placeholder.(content := content, status := Complete)];
    ThinkingCountAppend(prior, [user, placeholder.(content := content, status := Complete)]);
    assert [user, placeholder.(content := content, status := Complete)][1..] ==
      [placeholder.(content := content, status := Complete)];
  }

  /**
   * On failure, when the placeholder's id is fresh, filtering it out leaves
   * the earlier messages and the user message in order, nothing thinking.
   */
  lemma FailureRollsBack(prior: seq<Message>, user: Message, placeholder: Message)
    requires IdsDifferFrom(prior, placeholder.id) && user.id != placeholder.id
    requires ThinkingCount(prior) == 0 && user.status == Complete
    ensures RemoveById(prior + [user, placeholder], placeholder.id) == prior + [user]
    ensures ThinkingCount(RemoveById(prior + [user, placeholder], placeholder.id)) == 0
  {
    RemoveByIdAppend(prior, [user, placeholder], placeholder.id);
    RemoveAbsentId(prior, placeholder.id);
    assert [user, placeholder][1..] == [placeholder];
    assert RemoveById([user, placeholder], placeholder.id) == [user];
    ThinkingCountAppend(prior, [user]);
  }

  /** The state of one `useChat` instance. */
  class ChatSession {
    var messages: seq<Message>
    var isProcessing: bool
    /** The hook's own `useAgentSimulation` instance. */
    const simulation: Simulation

    constructor ()
      ensures messages == [] && !isProcessing
      ensures fresh(simulation) && simulation.flowNodes == [] && simulation.currentStep == -1
      ensures !simulation.isSimulationActive && simulation.simulationState == None
    {
      messages := [];
      isProcessing := false;
      simulation := new Simulation();
    }

    /**
     * `sendMessage` up to its request: ignored while a send is in flight;
     * otherwise appends the user message and the thinking placeholder, sets
     * the flag, starts the simulation and returns the history to send, which
     * ends with the user message and leaves the placeholder out.
     */
    method Begin(content: string, userId: string, userTime: int, assistantId: string, assistantTime: int)
      returns (request: Option<seq<Message>>)
      modifies this, simulation
      ensures request.Some? <==> !old(isProcessing)
      ensures old(isProcessing) ==> unchanged(this) && unchanged(simulation)
      ensures !old(isProcessing) ==>
        && messages == old(messages) + [UserMessage(userId, content, userTime), ThinkingMessage(assistantId, assistantTime)]
        && request == Some(old(messages) + [UserMessage(userId, content, userTime)])
        && isProcessing
        && simulation.flowNodes == GetSimulationSteps(content)
        && simulation.isSimulationActive && simulation.currentStep == -1
        && simulation.simulationState == Some(InitializingStatus)
    {
      if isProcessing {
        return None;
      }
      var user := UserMessage(userId, content, userTime);
      var updated := messages + [user];
      messages := updated;
      messages := messages + [ThinkingMessage(assistantId, assistantTime)];
      isProcessing := true;
      var _ := simulation.Start(content);
      request := Some(updated);
    }

    /** The success branch: the last message takes the reply. */
    method OnSuccess(content: string)
      modifies this`messages
      ensures messages == WithReply(old(messages), content)
    {
      if messages != [] {
        var last := |messages| - 1;
        messages := messages[last := messages[last].(content := content, status := Complete)];
      }
    }

    /** The catch branch: the placeholder is filtered out by id. */
    method OnFailure(placeholderId: string)
      modifies this`messages
      ensures messages == RemoveById(old(messages), placeholderId)
    {
      messages := RemoveById(messages, placeholderId);
    }

    /** The rest of `sendMessage` once `reply` is known: try, catch, then finally clear the flag. */
    method Settle(reply: Reply, placeholderId: string)
      modifies this`messages, this`isProcessing
      ensures !isProcessing
      ensures messages ==
        match ReplyContent(reply)
        case Some(c) => WithReply(old(messages), c)
        case None => RemoveById(old(messages), placeholderId)
    {
      var content := ReplyContent(reply);
      if content.Some? {
        OnSuccess(content.value);
      } else {
        OnFailure(placeholderId);
      }
      isProcessing := false;
    }

    /**
     * The whole of `sendMessage` when nothing runs in between: Begin, then
     * Settle with the reply to the request. From a settled list with fresh
     * ids it ends with the user message, followed on success by the reply,
     * and nothing thinking.
     */
    method SendMessage(content: string, userId: string, userTime: int, assistantId: string, assistantTime: int, reply: Reply)
      returns (request: Option<seq<Message>>)
      modifies this, simulation
      ensures old(isProcessing) ==> unchanged(this) && unchanged(simulation) && request == None
      ensures !old(isProcessing) ==>
        && !isProcessing
        && request == Some(old(messages) + [UserMessage(userId, content, userTime)])
        && simulation.flowNodes == GetSimulationSteps(content)
        && simulation.isSimulationActive && simulation.currentStep == -1
        && simulation.simulationState == Some(InitializingStatus)
      ensures !old(isProcessing) ==>
        var sent := old(messages) + [UserMessage(userId, content, userTime), ThinkingMessage(assistantId, assistantTime)];
        messages ==
          match ReplyContent(reply)
          case Some(c) => WithReply(sent, c)
          case None => RemoveById(sent, assistantId)
      ensures (!old(isProcessing) && ThinkingCount(old(messages)) == 0
               && IdsDifferFrom(old(messages), assistantId) && userId != assistantId) ==>
        && ThinkingCount(messages) == 0
        && messages ==
          old(messages) + [UserMessage(userId, content, userTime)] +
          match ReplyContent(reply)
          case Some(c) => [Message(assistantId, Assistant, c, Complete, assistantTime, None)]
          case None => []
    {
      ghost var prior := messages;
      request := Begin(content, userId, userTime, assistantId, assistantTime);
      if request.Some? {
        Settle(reply, assistantId);
        var user, placeholder := UserMessage(userId, content, userTime), ThinkingMessage(assistantId, assistantTime);
        if ThinkingCount(prior) == 0 && IdsDifferFrom(prior, assistantId) && userId != assistantId {
          match ReplyContent(reply)
          case Some(c) =>
            SuccessSettles(prior, user, placeholder, c);
          case None =>
            FailureRollsBack(prior, user, placeholder);
        }
      }
    }

    /** `resetChat`: no messages, no send in flight; the simulation is not touched. */
    method Reset()
      modifies this`messages, this`isProcessing
      ensures messages == [] && !isProcessing
    {
      messages := [];
      isProcessing := false;
    }
  }

  /**
   * Reset is not blocked while a send is in flight. If the first send's reply
   * arrives after a reset and a second send, it overwrites the second send's
   * placeholder, and the flag is cleared while the second request is pending.
   */
  method StaleReplyAfterReset(first: string, second: string, staleAnswer: string)
    returns (messages: seq<Message>, processing: bool)
    requires staleAnswer != ""
    ensures |messages| == 2 && messages[0] == UserMessage("user-2", second, 2)
    ensures messages[1] == Message("assistant-2", Assistant, staleAnswer, Complete, 2, None)
    ensures !processing
  {
    var session := new ChatSession();
    var firstRequest := session.Begin(first, "user-1", 1, "assistant-1", 1);
    session.Reset();
    var secondRequest := session.Begin(second, "user-2", 2, "assistant-2", 2);
    session.Settle(Response(true, Some(staleAnswer)), "assistant-1");
    messages, processing := session.messages, session.isProcessing;
  }

  /**
   * If instead the first send fails after a reset and a second send, the
   * filter finds nothing to remove but the flag is cleared, so a third send
   * is accepted and two placeholders are thinking at once.
   */
  method StaleFailureAfterReset(first: string, second: string, third: string)
    returns (messages: seq<Message>, thinking: nat)
    ensures |messages| == 4 && thinking == ThinkingCount(messages) == 2
    ensures messages[1].status == ThinkingStatus && messages[3].status == ThinkingStatus
  {
    var session := new ChatSession();
    var firstRequest := session.Begin(first, "user-1", 1, "assistant-1", 1);
    session.Reset();
    var secondRequest := session.Begin(second, "user-2", 2, "assistant-2", 2);
    session.Settle(NetworkError, "assistant-1");
    RemoveAbsentId(session.messages, "assistant-1");
    var thirdRequest := session.Begin(third, "user-3", 3, "assistant-3", 3);
    messages := session.messages;
    ThinkingCountAppend(messages[..2], messages[2..]);
    assert messages[..2] == [UserMessage("user-2", second, 2), ThinkingMessage("assistant-2", 2)];
    assert messages[2..] == [UserMessage("user-3", third, 3), ThinkingMessage("assistant-3", 3)];
    ThinkingCountAppend([UserMessage("user-2", second, 2)], [ThinkingMessage("assistant-2", 2)]);
    ThinkingCountAppend([UserMessage("user-3", third, 3)], [ThinkingMessage("assistant-3", 3)]);
    thinking := ThinkingCount(messages);
  }
}
