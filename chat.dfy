/** The follow-up chat panel of the result view (components/AnalysisDisplay.tsx):
    its history, input box and loading flag, and `handleSendMessage`, which is
    asynchronous. The handler is modelled as its two halves: `Send` runs up to the
    `await` of the AI call, `Settle` runs when that call resolves or throws. The
    call itself is outside the model; its outcome is a parameter of `Settle`. */
module Chat {

  import opened Types
  import opened JsBuiltins

  /** The fixed model turn appended when the AI call throws. */
  const Apology := "I'm sorry, I encountered an error while trying to answer. Please try again."

  /** The arguments `chatWithAI` is called with: the history including the new user
      turn, the message text again, and the analysis the chat is grounded in. */
  datatype ChatRequest = ChatRequest(history: seq<ChatMessage>, message: string, context: AnalysisResult)

  /** The model turn appended once the AI call settles: its reply, or the apology. */
  function ReplyTurn(reply: Outcome<string>): (m: ChatMessage)
    ensures m.role == Model
    ensures reply.Ok? ==> m.text == reply.value
    ensures reply.Failed? ==> m.text == Apology
  {
    match reply
    case Ok(text) => ChatMessage(Model, text)
    case Failed(_) => ChatMessage(Model, Apology)
  }

  /** Turns alternate user, model, user, model, ..., and every user turn has
      visible text: each reply directly follows the question it answers. */
  ghost predicate WellFormedHistory(h: seq<ChatMessage>) {
    forall k :: 0 <= k < |h| ==>
      if k % 2 == 0 then h[k].role == User && !IsBlank(h[k].text) else h[k].role == Model
  }

  class ChatPanel {
    /** The `result` prop the panel was mounted with. */
    const context: AnalysisResult
    var history: seq<ChatMessage>
    var input: string
    var loading: bool

    /** A request is outstanding exactly when the history ends in an unanswered user turn. */
    ghost predicate Valid()
      reads this
    {
      && WellFormedHistory(history)
      && (loading <==> |history| % 2 == 1)
    }

    /** Mounting the view: no turns, an empty input box, nothing loading. */
    constructor (result: AnalysisResult)
      ensures Valid()
      ensures context == result && history == [] && input == "" && !loading
    {
      context := result;
      history := [];
      input := "";
      loading := false;
    }

    /** Typing into the input box. */
    method EditInput(text: string)
      requires Valid()
      modifies this`input
      ensures Valid() && input == text
    {
      input := text;
    }

    /** `handleSendMessage` up to its `await`. A blank message, or any message while a
        reply is pending, is ignored; otherwise the user turn is appended, the input
        cleared, loading set, and the returned request is what the AI is asked. */
    method Send(messageText: string) returns (request: Option<ChatRequest>)
      requires Valid()
      modifies this`history, this`input, this`loading
      ensures Valid()
      ensures request.None? <==> IsBlank(messageText) || old(loading)
      ensures request.None? ==> history == old(history) && input == old(input) && loading == old(loading)
      ensures request.Some? ==>
        && history == old(history) + [ChatMessage(User, messageText)]
        && input == "" && loading
        && request.value == ChatRequest(history, messageText, context)
    {
      if IsBlank(messageText) || loading {
        return None;
      }
      var userMsg := ChatMessage(User, messageText);
      history := history + [userMsg];
      input := "";
      loading := true;
      request := Some(ChatRequest(history, messageText, context));
    }

    /** `handleSendMessage` after its `await`: exactly one model turn is appended,
        the reply or the apology, and loading ends. */
    method Settle(reply: Outcome<string>)
      requires Valid() && loading
      modifies this`history, this`loading
      ensures Valid()
      ensures history == old(history) + [ReplyTurn(reply)]
      ensures !loading
    {
      history := history + [ReplyTurn(reply)];
      loading := false;
    }

    /** The whole handler run to completion with the AI call's outcome: a send that
        passes the guard adds the user turn and then the model turn, nothing else. */
    method HandleSendMessage(messageText: string, reply: Outcome<string>) returns (request: Option<ChatRequest>)
      requires Valid()
      modifies this`history, this`input, this`loading
      ensures Valid()
      ensures request.None? <==> IsBlank(messageText) || old(loading)
      ensures request.None? ==> history == old(history) && input == old(input) && loading == old(loading)
      ensures request.Some? ==>
        && history == old(history) + [ChatMessage(User, messageText), ReplyTurn(reply)]
        && |history| == |old(history)| + 2
        && input == "" && !loading
        && request.value.history == old(history) + [ChatMessage(User, messageText)]
    {
      request := Send(messageText);
      if request.Some? {
        Settle(reply);
      }
    }

    /** `handleSuggestionClick`: a chip sends its full question, not its caption. */
    method HandleSuggestionClick(question: string, reply: Outcome<string>) returns (request: Option<ChatRequest>)
      requires Valid()
      modifies this`history, this`input, this`loading
      ensures Valid()
      ensures request.None? <==> IsBlank(question) || old(loading)
      ensures request.None? ==> history == old(history) && input == old(input) && loading == old(loading)
      ensures request.Some? ==>
        && history == old(history) + [ChatMessage(User, question), ReplyTurn(reply)]
        && input == "" && !loading
    {
      request := HandleSendMessage(question, reply);
    }
  }

  /** Two questions, the second asked while the first is still pending: the second
      is ignored, and asking it again after the reply gives the history
      [user 1, model 1, user 2, model 2] — replies are never interleaved. */
  method SerializedTurns(context: AnalysisResult, q1: string, q2: string, r1: Outcome<string>, r2: Outcome<string>)
    returns (history: seq<ChatMessage>, ignored: bool)
    requires !IsBlank(q1) && !IsBlank(q2)
    ensures ignored
    ensures history == [ChatMessage(User, q1), ReplyTurn(r1), ChatMessage(User, q2), ReplyTurn(r2)]
  {
    var panel := new ChatPanel(context);
    var first := panel.Send(q1);
    var early := panel.Send(q2);
    ignored := early.None?;
    panel.Settle(r1);
    var second := panel.Send(q2);
    panel.Settle(r2);
    history := panel.history;
  }
}
