/**
 * One chat turn: resolve the session, load its log, ask the model, and only when the
 * model answered, append the user turn and the assistant turn and save the whole log.
 * Everything the turn takes from outside (a fresh id, the clock, backend faults, the
 * model, the system prompt) arrives in an Environment value.
 */
module Server {
  import opened Wrappers
  import opened Memory
  import opened Bedrock

  /** An inbound turn; the session id is optional. */
  datatype ChatRequest = ChatRequest(message: string, sessionId: Option<string>)

  /** The answer: the reply text and the session id to reuse on the next turn. */
  datatype ChatResponse = ChatResponse(response: string, sessionId: string)

  /** Why a turn failed: a backend read or write error, or a failed model call. */
  datatype ChatError = StorageFailure(detail: string) | ModelFailure(detail: string)

  /** What a turn takes from outside the pipeline. */
  datatype Environment = Environment(
    freshId: string,             // a newly generated id, used when none was supplied
    readFault: Option<string>,   // a load error other than a missing record
    writeFault: Option<string>,  // a save error
    modelId: string,
    systemPrompt: string,
    model: ConverseRequest -> ConverseOutcome,
    userStamp: string,           // the clock when the user turn is recorded
    replyStamp: string)          // the clock when the assistant turn is recorded

  /** The outcome of a turn together with the backend's contents after it. */
  datatype TurnResult = TurnResult(outcome: Result<ChatResponse, ChatError>, objects: Objects)

  /** A supplied id is used unless it is absent or empty; then the fresh id is. */
  function ResolveSessionId(supplied: Option<string>, freshId: string): string
  {
    match supplied
    case Some(id) => if id != "" then id else freshId
    case None => freshId
  }

  function UserTurn(message: string, stamp: string): Message
  {
    Message(USER, message, stamp)
  }

  function AssistantTurn(reply: string, stamp: string): Message
  {
    Message(ASSISTANT, reply, stamp)
  }

  /** What a turn does to the backend, and what it answers, starting from `objects`. */
  function ChatTurn(objects: Objects, request: ChatRequest, env: Environment): TurnResult
  {
    var sessionId := ResolveSessionId(request.sessionId, env.freshId);
    if env.readFault.Some? then TurnResult(Err(StorageFailure(env.readFault.value)), objects)
    else
      var conversation := Lookup(objects, sessionId);
      var reply := ExtractReply(env.model(BuildRequest(env.modelId, env.systemPrompt, conversation, request.message)));
      if reply.Err? then TurnResult(Err(ModelFailure(reply.error)), objects)
      else if env.writeFault.Some? then TurnResult(Err(StorageFailure(env.writeFault.value)), objects)
      else
        var log := conversation + [UserTurn(request.message, env.userStamp), AssistantTurn(reply.value, env.replyStamp)];
        TurnResult(Ok(ChatResponse(reply.value, sessionId)), Store(objects, sessionId, log))
  }

  /** The session id a turn answers with: the supplied one when non-empty, else the fresh one. */
  lemma ChatTurnSessionId(objects: Objects, request: ChatRequest, env: Environment)
    requires ChatTurn(objects, request, env).outcome.Ok?
    ensures var id := ChatTurn(objects, request, env).outcome.value.sessionId;
      && (request.sessionId.Some? && request.sessionId.value != "" ==> id == request.sessionId.value)
      && (request.sessionId.None? || request.sessionId == Some("") ==> id == env.freshId)
  {
  }

  /**
   * A turn succeeds exactly when the load succeeds, the model answers with a text
   * part, and the save succeeds; its reply is the first text part of the model's
   * answer to the request built from the stored log.
   */
  lemma ChatTurnSucceeds(objects: Objects, request: ChatRequest, env: Environment)
    ensures var id := ResolveSessionId(request.sessionId, env.freshId);
      var answer := ExtractReply(env.model(BuildRequest(env.modelId, env.systemPrompt, Lookup(objects, id), request.message)));
      && (ChatTurn(objects, request, env).outcome.Ok? <==> env.readFault.None? && answer.Ok? && env.writeFault.None?)
      && (ChatTurn(objects, request, env).outcome.Ok? ==>
            ChatTurn(objects, request, env).outcome.value == ChatResponse(answer.value, id))
  {
  }

  /** A failed turn, whatever failed, leaves every stored log as it was. */
  lemma ChatTurnFailureLeavesStore(objects: Objects, request: ChatRequest, env: Environment)
    requires ChatTurn(objects, request, env).outcome.Err?
    ensures ChatTurn(objects, request, env).objects == objects
  {
  }

  /** A load error other than a missing record aborts the turn before the model is asked. */
  lemma ChatTurnLoadFault(objects: Objects, request: ChatRequest, env: Environment)
    requires env.readFault.Some?
    ensures ChatTurn(objects, request, env) == TurnResult(Err(StorageFailure(env.readFault.value)), objects)
  {
  }

  /**
   * A successful turn appends exactly the user turn and then the assistant turn
   * carrying the returned reply to the full stored log, which is never cut to the window.
   */
  lemma ChatTurnAppendsTwo(objects: Objects, request: ChatRequest, env: Environment)
    requires ChatTurn(objects, request, env).outcome.Ok?
    ensures var t := ChatTurn(objects, request, env);
      var id := t.outcome.value.sessionId;
      && Lookup(t.objects, id) ==
           Lookup(objects, id) + [UserTurn(request.message, env.userStamp), AssistantTurn(t.outcome.value.response, env.replyStamp)]
      && |Lookup(t.objects, id)| == |Lookup(objects, id)| + 2
  {
    var id := ResolveSessionId(request.sessionId, env.freshId);
    var reply := ChatTurn(objects, request, env).outcome.value.response;
    LookupAfterStore(objects, id, Lookup(objects, id) + [UserTurn(request.message, env.userStamp), AssistantTurn(reply, env.replyStamp)]);
  }

  /** A turn touches only its own session's record. */
  lemma ChatTurnOtherSessions(objects: Objects, request: ChatRequest, env: Environment, other: string)
    requires other != ResolveSessionId(request.sessionId, env.freshId)
    ensures Lookup(ChatTurn(objects, request, env).objects, other) == Lookup(objects, other)
  {
    var t := ChatTurn(objects, request, env);
    if t.outcome.Ok? {
      var id := ResolveSessionId(request.sessionId, env.freshId);
      var conversation := Lookup(objects, id);
      var log := conversation + [UserTurn(request.message, env.userStamp), AssistantTurn(t.outcome.value.response, env.replyStamp)];
      LookupAfterStoreOther(objects, id, log, other);
    }
  }

  /**
   * Windowing affects only what is sent: on a log of any length the model is sent at
   * most the last 20 turns, while the stored log keeps every earlier turn and grows by two.
   */
  lemma WindowingOnlyAffectsRequest(objects: Objects, request: ChatRequest, env: Environment)
    requires ChatTurn(objects, request, env).outcome.Ok?
    ensures var id := ResolveSessionId(request.sessionId, env.freshId);
      var before := Lookup(objects, id);
      var after := Lookup(ChatTurn(objects, request, env).objects, id);
      && |BuildRequest(env.modelId, env.systemPrompt, before, request.message).messages| == Min(|before|, HISTORY_LIMIT) + 1
      && |after| == |before| + 2
      && after[..|before|] == before
  {
    var id := ResolveSessionId(request.sessionId, env.freshId);
    AssembledShape(Lookup(objects, id), request.message);
    ChatTurnAppendsTwo(objects, request, env);
  }

  /** A turn keeps a session's log alternating user and assistant turns: it appends one of each, in that order. */
  lemma ChatTurnKeepsAlternation(objects: Objects, request: ChatRequest, env: Environment, sessionId: string)
    requires Alternating(Lookup(objects, sessionId))
    ensures Alternating(Lookup(ChatTurn(objects, request, env).objects, sessionId))
  {
    var t := ChatTurn(objects, request, env);
    var id := ResolveSessionId(request.sessionId, env.freshId);
    if sessionId != id {
      ChatTurnOtherSessions(objects, request, env, sessionId);
    } else if t.outcome.Ok? {
      ChatTurnAppendsTwo(objects, request, env);
      var before := Lookup(objects, id);
      var after := Lookup(t.objects, id);
      forall i | 0 <= i < |after|
        ensures after[i].role == (if i % 2 == 0 then USER else ASSISTANT)
      {
        if i >= |before| {
          assert i == |before| || i == |before| + 1;
        }
      }
    }
  }

  /**
   * Two turns without a session id, given distinct fresh ids for sessions never saved,
   * open two sessions whose logs hold each its own exchange and nothing of the other.
   */
  lemma FreshSessionsIndependent(objects: Objects, first: ChatRequest, env1: Environment, second: ChatRequest, env2: Environment)
    requires first.sessionId.None? && second.sessionId.None?
    requires env1.freshId != env2.freshId
    requires Lookup(objects, env1.freshId) == [] && Lookup(objects, env2.freshId) == []
    requires ChatTurn(objects, first, env1).outcome.Ok?
    requires ChatTurn(ChatTurn(objects, first, env1).objects, second, env2).outcome.Ok?
    ensures var t1 := ChatTurn(objects, first, env1);
      var t2 := ChatTurn(t1.objects, second, env2);
      && t1.outcome.value.sessionId == env1.freshId
      && t2.outcome.value.sessionId == env2.freshId
      && Lookup(t2.objects, env1.freshId) ==
           [UserTurn(first.message, env1.userStamp), AssistantTurn(t1.outcome.value.response, env1.replyStamp)]
      && Lookup(t2.objects, env2.freshId) ==
           [UserTurn(second.message, env2.userStamp), AssistantTurn(t2.outcome.value.response, env2.replyStamp)]
  {
    var t1 := ChatTurn(objects, first, env1);
    ChatTurnAppendsTwo(objects, first, env1);
    ChatTurnOtherSessions(objects, second, env2, env1.freshId);
    ChatTurnOtherSessions(t1.objects, second, env2, env1.freshId);
    ChatTurnOtherSessions(objects, first, env1, env2.freshId);
    ChatTurnAppendsTwo(t1.objects, second, env2);
  }

  /**
   * The chat handler over the shared backend. On success the session's record holds the
   * old log plus the two new turns; on any failure the backend is unchanged.
   */
  method Chat(store: ConversationStore, request: ChatRequest, env: Environment) returns (r: Result<ChatResponse, ChatError>)
    modifies store
    ensures r == ChatTurn(old(store.objects), request, env).outcome
    ensures store.objects == ChatTurn(old(store.objects), request, env).objects
    ensures r.Err? ==> store.objects == old(store.objects)
    ensures r.Ok? ==> r.value.sessionId == ResolveSessionId(request.sessionId, env.freshId)
    ensures r.Ok? ==>
      store.History(r.value.sessionId) ==
      old(store.History(r.value.sessionId)) + [UserTurn(request.message, env.userStamp), AssistantTurn(r.value.response, env.replyStamp)]
  {
    var sessionId := ResolveSessionId(request.sessionId, env.freshId);
    var loaded := store.Load(sessionId, env.readFault);
    if loaded.Err? {
      return Err(StorageFailure(loaded.error));
    }
    var conversation := loaded.value;
    ghost var stored := conversation;
    var reply := CallBedrock(conversation, request.message, env.modelId, env.systemPrompt, env.model);
    if reply.Err? {
      return Err(ModelFailure(reply.error));
    }
    conversation := conversation + [UserTurn(request.message, env.userStamp)];
    conversation := conversation + [AssistantTurn(reply.value, env.replyStamp)];
    assert conversation == stored + [UserTurn(request.message, env.userStamp), AssistantTurn(reply.value, env.replyStamp)];
    var saved := store.Save(sessionId, conversation, env.writeFault);
    if saved.Err? {
      return Err(StorageFailure(saved.error));
    }
    r := Ok(ChatResponse(reply.value, sessionId));
    LookupAfterStore(old(store.objects), sessionId, conversation);
  }

  /** The history route: the session id and its full stored log; a load error propagates. */
  method GetConversation(store: ConversationStore, sessionId: string, fault: Option<string>)
    returns (r: Result<(string, Conversation), string>)
    ensures fault.Some? ==> r == Err(fault.value)
    ensures fault.None? ==> r == Ok((sessionId, store.History(sessionId)))
  {
    var loaded := store.Load(sessionId, fault);
    if loaded.Err? {
      return Err(loaded.error);
    }
    r := Ok((sessionId, loaded.value));
  }
}
