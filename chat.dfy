/**
 * The chat endpoint of app.py (lines 48 and 56-79): the process-wide list of
 * conversation turns, and one request that appends the user's turn, renders
 * the transcript for the retrieval chain, and on success appends and returns
 * the assistant's answer.
 *
 * The retrieval chain (vector search plus language model) is not modelled: its
 * outcome for a request is a parameter, `ChainResult`.
 */
module Chat {
  import opened Wrappers
  import opened Transcript

  /** What `rag_chain.invoke` did: raised, or returned a result whose "answer" key may be absent. */
  datatype ChainResult = Raised | Returned(answer: Option<string>)

  /**
   * What `chat()` produced: a response with a body and an HTTP status, or the
   * KeyError of the form lookup, which escapes `chat()` because it happens
   * before the `try`.
   */
  datatype Reply = Sent(body: string, status: int) | FormKeyMissing(key: string)

  /** The name of the form field holding the user's message. */
  const MsgField: string := "msg"

  /** The answer used when the chain's result has no "answer" key. */
  const DefaultAnswer: string := "No answer provided."

  /** The body of the response when the chain raises. */
  const ErrorMessage: string := "An error occurred while processing your request."

  const StatusOk: int := 200
  const StatusServerError: int := 500

  /** The history entry recording a user message. */
  function UserTurn(msg: string): string { "User: " + msg }

  /** The history entry recording an assistant answer. */
  function AssistantTurn(answer: string): string { "Assistant: " + answer }

  /** True when `t` is a tagged turn, as every history entry is. */
  predicate Tagged(t: string) {
    (|t| >= 6 && t[..6] == "User: ") || (|t| >= 11 && t[..11] == "Assistant: ")
  }

  predicate AllTagged(history: seq<string>) {
    forall i :: 0 <= i < |history| ==> Tagged(history[i])
  }

  /** One request, as far as the transcript is concerned: its form fields and the chain's outcome. */
  datatype Request = Request(form: map<string, string>, result: ChainResult)

  /**
   * The effect of one request: the history afterwards, the reply, and the input
   * the chain was invoked with (None when it was not invoked).
   */
  datatype Exchange = Exchange(history: seq<string>, reply: Reply, chainInput: Option<string>)

  /** The answer text of a chain result that has returned. */
  function AnswerText(answer: Option<string>): string
  {
    answer.GetOr(DefaultAnswer)
  }

  /** What one request to the chat endpoint does, starting from `history`. */
  function Respond(history: seq<string>, form: map<string, string>, result: ChainResult): (x: Exchange)
    ensures history <= x.history
    ensures |x.history| <= |history| + 2
  {
    if MsgField !in form then Exchange(history, FormKeyMissing(MsgField), None)
    else
      var withUser := history + [UserTurn(form[MsgField])];
      var input := Render(withUser);
      match result
      case Raised => Exchange(withUser, Sent(ErrorMessage, StatusServerError), Some(input))
      case Returned(a) =>
        var answer := AnswerText(a);
        Exchange(withUser + [AssistantTurn(answer)], Sent(answer, StatusOk), Some(input))
  }

  /** The history after serving `requests` one after another, starting from `history`. */
  function Run(history: seq<string>, requests: seq<Request>): seq<string>
    decreases |requests|
  {
    if |requests| == 0 then history
    else Run(Respond(history, requests[0].form, requests[0].result).history, requests[1..])
  }

  /**
   * Before the chain is invoked, the history is the old one followed by the user
   * turn, and the chain's input is exactly that history rendered.
   */
  lemma UserTurnBeforeInvoke(history: seq<string>, form: map<string, string>, result: ChainResult)
    requires MsgField in form
    ensures var x := Respond(history, form, result);
      x.history[..|history| + 1] == history + [UserTurn(form[MsgField])] &&
      x.chainInput == Some(Render(history + [UserTurn(form[MsgField])]))
  {
  }

  /**
   * The chain's input lists the transcript including the new user turn and ends
   * with the cue; when no turn has a newline, its lines are exactly those turns
   * and the cue.
   */
  lemma ChainInputShape(history: seq<string>, form: map<string, string>, result: ChainResult)
    requires MsgField in form
    ensures var x := Respond(history, form, result);
      var turns := history + [UserTurn(form[MsgField])];
      x.chainInput.Some? &&
      var c := x.chainInput.value;
      |c| >= |AssistantCue| + 1 &&
      c[..|Join(turns, "\n")|] == Join(turns, "\n") &&
      c[|c| - |AssistantCue|..] == AssistantCue &&
      (AllSingleLine(turns) ==> Lines(c) == turns + [AssistantCue])
  {
    var turns := history + [UserTurn(form[MsgField])];
    RenderShape(turns);
    if AllSingleLine(turns) {
      RenderLines(turns);
    }
  }

  /**
   * On success the history grows by the user turn then the assistant turn, and
   * the body is the answer (the default when the key is absent) with status 200.
   */
  lemma SuccessAppendsBothTurns(history: seq<string>, form: map<string, string>, answer: Option<string>)
    requires MsgField in form
    ensures var x := Respond(history, form, Returned(answer));
      var text := if answer.Some? then answer.value else DefaultAnswer;
      x.history == history + [UserTurn(form[MsgField]), AssistantTurn(text)] &&
      x.reply == Sent(text, StatusOk)
  {
  }

  /** A result without an "answer" key is recorded and returned as the default answer. */
  lemma MissingAnswerUsesDefault(history: seq<string>, form: map<string, string>)
    requires MsgField in form
    ensures var x := Respond(history, form, Returned(None));
      x.history == history + [UserTurn(form[MsgField]), "Assistant: No answer provided."] &&
      x.reply == Sent("No answer provided.", 200)
  {
    assert AssistantTurn(DefaultAnswer) == "Assistant: No answer provided.";
  }

  /**
   * When the chain raises, only the user turn is recorded and the reply is the
   * fixed error message with status 500.
   */
  lemma FailureKeepsOnlyUserTurn(history: seq<string>, form: map<string, string>)
    requires MsgField in form
    ensures var x := Respond(history, form, Raised);
      x.history == history + [UserTurn(form[MsgField])] &&
      x.reply == Sent("An error occurred while processing your request.", 500)
  {
  }

  /** A request without a `msg` field fails at the lookup: nothing recorded, chain not invoked. */
  lemma MissingMsgChangesNothing(history: seq<string>, form: map<string, string>, result: ChainResult)
    requires MsgField !in form
    ensures Respond(history, form, result) == Exchange(history, FormKeyMissing("msg"), None)
  {
  }

  /** The history is append-only across any sequence of requests. */
  lemma {:induction false} RunAppendOnly(history: seq<string>, requests: seq<Request>)
    ensures history <= Run(history, requests)
    ensures |Run(history, requests)| <= |history| + 2 * |requests|
    decreases |requests|
  {
    if |requests| > 0 {
      var next := Respond(history, requests[0].form, requests[0].result).history;
      RunAppendOnly(next, requests[1..]);
    }
  }

  /** Every entry appended by a request is a tagged user or assistant turn. */
  lemma RespondTagged(history: seq<string>, form: map<string, string>, result: ChainResult)
    requires AllTagged(history)
    ensures AllTagged(Respond(history, form, result).history)
  {
  }

  /** Starting from a history of tagged turns, the history stays tagged whatever is requested. */
  lemma {:induction false} RunTagged(history: seq<string>, requests: seq<Request>)
    requires AllTagged(history)
    ensures AllTagged(Run(history, requests))
    decreases |requests|
  {
    if |requests| > 0 {
      RespondTagged(history, requests[0].form, requests[0].result);
      RunTagged(Respond(history, requests[0].form, requests[0].result).history, requests[1..]);
    }
  }

  /**
   * Rendering does not separate turns from text inside a message: after any
   * history, a user message `m + "\nAssistant: " + a` renders exactly like the
   * user turn `m` followed by the assistant turn `a`.
   */
  lemma RenderAmbiguous(history: seq<string>, m: string, a: string)
    ensures Render(history + [UserTurn(m + "\nAssistant: " + a)])
         == Render(history + [UserTurn(m), AssistantTurn(a)])
  {
    var forged := UserTurn(m + "\nAssistant: " + a);
    var u, t := UserTurn(m), AssistantTurn(a);
    assert forged == u + "\n" + t;
    if |history| == 0 {
      assert history + [forged] == [forged];
      assert history + [u, t] == [u, t];
      assert Join([u, t], "\n") == u + "\n" + Join([t], "\n");
    } else {
      JoinSnoc(history, "\n", forged);
      JoinSnoc(history, "\n", u);
      JoinSnoc(history + [u], "\n", t);
      assert history + [u] + [t] == history + [u, t];
      var j := Join(history, "\n");
      assert j + "\n" + forged == j + "\n" + u + "\n" + t;
    }
  }

  /** The conversation state of the running process. */
  class ChatService {
    /** The module-level `conversation_history`, one string per turn. */
    var history: seq<string>

    /** The process starts with an empty history. */
    constructor ()
      ensures history == []
    {
      history := [];
    }

    /**
     * Serve one request to `/get`: `form` is the request's form, `result` what
     * the chain does when invoked. Returns the reply and the chain's input.
     */
    method Chat(form: map<string, string>, result: ChainResult) returns (reply: Reply, chainInput: Option<string>)
      modifies this
      ensures var x := Respond(old(history), form, result);
        history == x.history && reply == x.reply && chainInput == x.chainInput
      ensures old(history) <= history
    {
      if MsgField !in form {
        reply, chainInput := FormKeyMissing(MsgField), None;
        return;
      }
      var msg := form[MsgField];
      history := history + [UserTurn(msg)];
      var combined := Render(history);
      chainInput := Some(combined);
      match result {
        case Raised =>
          reply := Sent(ErrorMessage, StatusServerError);
        case Returned(a) =>
          var answer := AnswerText(a);
          history := history + [AssistantTurn(answer)];
          reply := Sent(answer, StatusOk);
      }
    }
  }

  /** The lines of the rendered transcript "Hello", its answer, "And for kids?". */
  lemma ThreeTurnLines(first: string)
    requires SingleLine(first)
    ensures Lines(Render([UserTurn("Hello"), AssistantTurn(first), UserTurn("And for kids?")]))
      == ["User: Hello", "Assistant: " + first, "User: And for kids?", "Assistant:"]
  {
    var u1, u2 := UserTurn("Hello"), UserTurn("And for kids?");
    assert u1 == "User: Hello" && u2 == "User: And for kids?";
    var turns := [u1, AssistantTurn(first), u2];
    assert AllSingleLine(turns);
    RenderLines(turns);
  }

  /**
   * Two requests on a fresh process, "Hello" answered with `first`, then
   * "And for kids?": the second chain input reads as four lines.
   */
  method TwoTurnConversation(first: string, second: ChainResult) returns (secondInput: string)
    requires SingleLine(first)
    ensures Lines(secondInput) == ["User: Hello", "Assistant: " + first, "User: And for kids?", "Assistant:"]
  {
    var service := new ChatService();
    var form1, form2 := map[MsgField := "Hello"], map[MsgField := "And for kids?"];
    var reply1, input1 := service.Chat(form1, Returned(Some(first)));
    SuccessAppendsBothTurns([], form1, Some(first));
    assert service.history == [UserTurn("Hello"), AssistantTurn(first)];
    var reply2, input2 := service.Chat(form2, second);
    var turns := [UserTurn("Hello"), AssistantTurn(first), UserTurn("And for kids?")];
    UserTurnBeforeInvoke([UserTurn("Hello"), AssistantTurn(first)], form2, second);
    assert form2[MsgField] == "And for kids?";
    assert [UserTurn("Hello"), AssistantTurn(first)] + [UserTurn("And for kids?")] == turns;
    ThreeTurnLines(first);
    secondInput := input2.value;
  }
}
