/**
 * The model invoker: turns a stored log and the new user message into a Converse
 * request for the hosted model, and extracts the reply text from its answer.
 * The service itself is a parameter: a function from the request sent to the
 * service's answer.
 */
module Bedrock {
  import opened Wrappers
  import opened Memory

  /** How many of the most recent stored turns are sent with a request. */
  const HISTORY_LIMIT: nat := 20
  /** The fixed cap on reply length sent with every request. */
  const MAX_TOKENS: nat := 2000
  /** The model's stand-in failure detail for an answer whose content list is empty. */
  const INDEX_ERROR: string := "list index out of range"

  /** One content part of a message: a text segment. */
  datatype ContentBlock = ContentBlock(text: string)

  /** A message in the shape the Converse API expects: a role and its content parts. */
  datatype NovaMessage = NovaMessage(role: string, content: seq<ContentBlock>)

  /** What is sent: the model, the system prompt apart from the messages, the messages, the reply cap. */
  datatype ConverseRequest = ConverseRequest(
    modelId: string,
    system: seq<ContentBlock>,
    messages: seq<NovaMessage>,
    maxTokens: nat)

  /** The service's answer: the content of its output message, or a client error with its text. */
  datatype ConverseOutcome = Converse(content: seq<ContentBlock>) | ClientError(detail: string)

  function Min(a: int, b: int): int
  {
    if a <= b then a else b
  }

  /** The stored turns sent with a request: the last HISTORY_LIMIT of them, or all if fewer. */
  function Window(conversation: Conversation): Conversation
  {
    if |conversation| <= HISTORY_LIMIT then conversation
    else conversation[|conversation| - HISTORY_LIMIT..]
  }

  /** The window is the most recent min(n, 20) turns of the log, in their stored order. */
  lemma WindowIsRecentSuffix(conversation: Conversation)
    ensures |Window(conversation)| == Min(|conversation|, HISTORY_LIMIT)
    ensures Window(conversation) == conversation[|conversation| - |Window(conversation)|..]
  {
  }

  /** A stored turn as sent: same role, its content as the single text part. */
  function ToNova(m: Message): NovaMessage
  {
    NovaMessage(m.role, [ContentBlock(m.content)])
  }

  /** The entry carrying the new user message. */
  function UserEntry(text: string): NovaMessage
  {
    NovaMessage(USER, [ContentBlock(text)])
  }

  /** Stored turns as sent, one entry per turn, in order. */
  function NovaHistory(log: Conversation): seq<NovaMessage>
  {
    if log == [] then [] else [ToNova(log[0])] + NovaHistory(log[1..])
  }

  lemma {:induction false} NovaHistoryAt(log: Conversation)
    ensures |NovaHistory(log)| == |log|
    ensures forall i :: 0 <= i < |log| ==> NovaHistory(log)[i] == ToNova(log[i])
  {
    if log != [] {
      NovaHistoryAt(log[1..]);
      forall i | 1 <= i < |log|
        ensures NovaHistory(log)[i] == ToNova(log[i])
      {
        assert NovaHistory(log)[i] == NovaHistory(log[1..])[i - 1];
      }
    }
  }

  /** The `messages` list of a request: the windowed history, then the new user message. */
  function Assembled(conversation: Conversation, userMessage: string): seq<NovaMessage>
  {
    NovaHistory(Window(conversation)) + [UserEntry(userMessage)]
  }

  /**
   * The request carries min(n, 20) history entries and then the user entry: entry i is
   * the stored turn n - k + i, so the history is the most recent k turns, oldest first.
   */
  lemma AssembledShape(conversation: Conversation, userMessage: string)
    ensures var k := Min(|conversation|, HISTORY_LIMIT);
      && |Assembled(conversation, userMessage)| == k + 1
      && (forall i :: 0 <= i < k ==>
            Assembled(conversation, userMessage)[i] == ToNova(conversation[|conversation| - k + i]))
      && Assembled(conversation, userMessage)[k] == UserEntry(userMessage)
  {
    var w := Window(conversation);
    WindowIsRecentSuffix(conversation);
    NovaHistoryAt(w);
  }

  /** A history entry keeps the stored role unchanged and carries the stored content as its one text part. */
  lemma AssembledKeepsStoredTurns(conversation: Conversation, userMessage: string, i: nat)
    requires i < Min(|conversation|, HISTORY_LIMIT)
    ensures var turn := conversation[|conversation| - Min(|conversation|, HISTORY_LIMIT) + i];
      && i < |Assembled(conversation, userMessage)|
      && Assembled(conversation, userMessage)[i].role == turn.role
      && Assembled(conversation, userMessage)[i].content == [ContentBlock(turn.content)]
  {
    AssembledShape(conversation, userMessage);
  }

  /** However long the stored log, at most 20 history entries are sent, and the last entry is the new message. */
  lemma AssembledBounded(conversation: Conversation, userMessage: string)
    ensures 1 <= |Assembled(conversation, userMessage)| <= HISTORY_LIMIT + 1
    ensures Assembled(conversation, userMessage)[|Assembled(conversation, userMessage)| - 1] == UserEntry(userMessage)
  {
    AssembledShape(conversation, userMessage);
  }

  /**
   * From a log written only by chat turns, the request's roles alternate user,
   * assistant, ..., user: the window drops an even number of turns, so it starts on
   * a user turn, and the new message follows an assistant turn, or stands alone when
   * the log is empty.
   */
  lemma AssembledAlternates(conversation: Conversation, userMessage: string)
    requires Alternating(conversation)
    ensures forall i :: 0 <= i < |Assembled(conversation, userMessage)| ==>
      Assembled(conversation, userMessage)[i].role == (if i % 2 == 0 then USER else ASSISTANT)
  {
    var messages := Assembled(conversation, userMessage);
    var n := |conversation|;
    var k := Min(n, HISTORY_LIMIT);
    AssembledShape(conversation, userMessage);
    EvenDifference(n, k);
    forall i | 0 <= i < |messages|
      ensures messages[i].role == (if i % 2 == 0 then USER else ASSISTANT)
    {
      if i < k {
        ParityShift(n - k, i);
        assert messages[i] == ToNova(conversation[n - k + i]);
      } else {
        ParityShift(n - k, k);
      }
    }
  }

  lemma EvenDifference(n: nat, k: nat)
    requires n % 2 == 0 && k == Min(n, HISTORY_LIMIT)
    ensures (n - k) % 2 == 0 && k % 2 == 0
  {
  }

  lemma ParityShift(a: int, i: nat)
    requires a % 2 == 0
    ensures (a + i) % 2 == i % 2
  {
  }

  /** With no stored history the new message is the only entry. */
  lemma AssembledFirstTurn(userMessage: string)
    ensures Assembled([], userMessage) == [UserEntry(userMessage)]
  {
  }

  /** Builds the `messages` list the way the handler does: append each windowed turn, then the new message. */
  method BuildMessages(conversation: Conversation, userMessage: string) returns (messages: seq<NovaMessage>)
    ensures messages == Assembled(conversation, userMessage)
  {
    var window := Window(conversation);
    messages := [];
    for i := 0 to |window|
      invariant |messages| == i
      invariant forall j :: 0 <= j < i ==> messages[j] == ToNova(window[j])
    {
      messages := messages + [ToNova(window[i])];
    }
    NovaHistoryAt(window);
    messages := messages + [UserEntry(userMessage)];
  }

  /** The whole request: the system prompt goes in `system`, never among the messages. */
  function BuildRequest(modelId: string, systemPrompt: string, conversation: Conversation, userMessage: string): ConverseRequest
  {
    ConverseRequest(modelId, [ContentBlock(systemPrompt)], Assembled(conversation, userMessage), MAX_TOKENS)
  }

  /**
   * The request holds one system part and min(n, 20) + 1 messages, so counting the
   * system instruction it has min(n, 20) + 2 entries; it always asks for at most 2000 tokens.
   */
  lemma RequestEntries(modelId: string, systemPrompt: string, conversation: Conversation, userMessage: string)
    ensures var request := BuildRequest(modelId, systemPrompt, conversation, userMessage);
      && request.modelId == modelId
      && request.system == [ContentBlock(systemPrompt)]
      && |request.system| + |request.messages| == Min(|conversation|, HISTORY_LIMIT) + 2
      && request.maxTokens == MAX_TOKENS
  {
    AssembledShape(conversation, userMessage);
  }

  /**
   * The reply is the text of the first content part of the answer. A client error
   * fails with its text; an answer with no content part fails as an index error.
   */
  function ExtractReply(outcome: ConverseOutcome): (r: Result<string, string>)
    ensures r.Ok? <==> outcome.Converse? && |outcome.content| > 0
    ensures r.Ok? ==> r.value == outcome.content[0].text
    ensures outcome.ClientError? ==> r == Err(outcome.detail)
  {
    match outcome
    case ClientError(detail) => Err(detail)
    case Converse(content) => if |content| == 0 then Err(INDEX_ERROR) else Ok(content[0].text)
  }

  /**
   * Sends the stored log and the new message to the model and returns its reply text.
   * Nothing is retried: a failed call is the result.
   */
  method CallBedrock(conversation: Conversation, userMessage: string, modelId: string, systemPrompt: string,
                     model: ConverseRequest -> ConverseOutcome)
    returns (r: Result<string, string>)
    ensures r == ExtractReply(model(BuildRequest(modelId, systemPrompt, conversation, userMessage)))
  {
    var messages := BuildMessages(conversation, userMessage);
    var response := model(ConverseRequest(modelId, [ContentBlock(systemPrompt)], messages, MAX_TOKENS));
    r := ExtractReply(response);
  }
}
