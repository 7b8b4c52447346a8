# Conversation transcript of the medical chatbot

The chatbot is a Flask service. `POST /get` takes a form field `msg` and keeps one
process-wide list of conversation turns, `conversation_history`. The retrieval chain
is a Pinecone similarity retriever feeding a Cohere model through LangChain.
This project models the bookkeeping that `chat()` does around that chain:

- the history starts empty;
- each request appends `"User: " + msg`;
- the whole history, joined with newlines and followed by `"\nAssistant:"`, becomes the chain's input;
- on success, `"Assistant: " + answer` is appended and the answer is returned with status 200.
  The answer is `"No answer provided."` when the chain's result has no `answer` key;
- on an exception from the chain, the fixed error message is returned with status 500.
  The user turn stays in the history.

Files:

- `wrappers.dfy`: `Option`, with `GetOr` for `dict.get(key, default)`.
- `transcript.dfy` (module `Transcript`): Python's `str.join` (`Join`) and
  `str.split("\n")` (`Lines`), and the rendering of a history into the chain input
  (`Render`). Lemmas show that joining and splitting undo each other when no turn
  contains a newline. Reading the rendered input back line by line gives every turn
  in order, followed by the `Assistant:` line.
- `chat.dfy` (module `Chat`): the chain's outcome as a parameter (`ChainResult`),
  the reply (`Reply`), and `Respond`, a pure function for one request.
  `Run` serves a sequence of requests. `ChatService` is a class whose field
  `history` stands for the module-level list. Its method `Chat` updates that field
  in place, in the same order of steps as the source, and is proved equal to
  `Respond`. Lemmas about `Respond` and `Run` state what one request and any
  sequence of requests do to the history and to the reply.

The chain call `rag_chain.invoke` is an oracle. Whether it raises, and what its
result's `answer` key holds, is the `result` parameter of a request. The input it
would have received is returned as `chainInput`, so contracts can state it.

A missing `msg` field raises `KeyError` at `request.form["msg"]`. That happens
before the `try`, so the exception leaves `chat()`. The model returns it as
`FormKeyMissing("msg")`, with the history unchanged and the chain not invoked.

## Model

| member | source | states |
|---|---|---|
| `Transcript.Join` | Medical-Chatbot-Application-main/Medical-Chatbot-Application-main/app.py:66 | Python's `sep.join(parts)`: the parts in order with `sep` between neighbours, and `""` for no parts; its properties are stated by `JoinSnoc`, `LinesOfJoin` and `JoinOfLines` |
| `Transcript.JoinSnoc` | Medical-Chatbot-Application-main/Medical-Chatbot-Application-main/app.py:66 | joining a non-empty history with one more turn adds one separator, then that turn |
| `Transcript.Lines` | Medical-Chatbot-Application-main/Medical-Chatbot-Application-main/app.py:66 | reading a string line by line gives at least one line, and no line contains a newline |
| `Transcript.LinesOfJoin` | Medical-Chatbot-Application-main/Medical-Chatbot-Application-main/app.py:66 | the newline-join of a non-empty history of one-line turns splits back into exactly those turns |
| `Transcript.JoinOfLines` | Medical-Chatbot-Application-main/Medical-Chatbot-Application-main/app.py:66 | joining the lines of any string with newlines gives back that string |
| `Transcript.Render` | Medical-Chatbot-Application-main/Medical-Chatbot-Application-main/app.py:66 | the chain input: the newline-join of the history followed by a newline and `Assistant:`; its properties are stated by `RenderAsJoin`, `RenderLines`, `RenderInjective`, `RenderShape` and `Chat.RenderAmbiguous` |
| `Transcript.RenderAsJoin` | Medical-Chatbot-Application-main/Medical-Chatbot-Application-main/app.py:66 | the chain input for a non-empty history is the join of the history with `Assistant:` as a last line |
| `Transcript.RenderLines` | Medical-Chatbot-Application-main/Medical-Chatbot-Application-main/app.py:66 | the chain input holds every one-line turn on its own line, in order, then the line `Assistant:`; an empty history gives an empty line first |
| `Transcript.RenderInjective` | Medical-Chatbot-Application-main/Medical-Chatbot-Application-main/app.py:66 | two non-empty histories of one-line turns give the same chain input only if they are equal |
| `Transcript.RenderShape` | Medical-Chatbot-Application-main/Medical-Chatbot-Application-main/app.py:66 | the chain input starts with the joined transcript and ends with `Assistant:` |
| `Chat.UserTurn` | Medical-Chatbot-Application-main/Medical-Chatbot-Application-main/app.py:63 | the history entry `User: ` followed by the message; `RespondTagged` and `RenderAmbiguous` state its properties |
| `Chat.AssistantTurn` | Medical-Chatbot-Application-main/Medical-Chatbot-Application-main/app.py:74 | the history entry `Assistant: ` followed by the answer; `RespondTagged` and `RenderAmbiguous` state its properties |
| `Chat.AnswerText` | Medical-Chatbot-Application-main/Medical-Chatbot-Application-main/app.py:70 | the result's answer, or `No answer provided.` when the key is absent; `SuccessAppendsBothTurns` and `MissingAnswerUsesDefault` state its effect |
| `Chat.Respond` | Medical-Chatbot-Application-main/Medical-Chatbot-Application-main/app.py:56-79 | one request only appends: the old history is a prefix of the new one, and at most two entries are added |
| `Chat.UserTurnBeforeInvoke` | Medical-Chatbot-Application-main/Medical-Chatbot-Application-main/app.py:58-69 | when `msg` is present, the history at the chain call is the old history plus `User: msg`, and the chain input is that history rendered |
| `Chat.ChainInputShape` | Medical-Chatbot-Application-main/Medical-Chatbot-Application-main/app.py:63-69 | the chain is invoked, with an input that starts with the join of the history including the new user turn and ends with a newline and `Assistant:`; with one-line turns, its lines are exactly those turns and the cue |
| `Chat.SuccessAppendsBothTurns` | Medical-Chatbot-Application-main/Medical-Chatbot-Application-main/app.py:69-76 | on success the history is the old one plus the user turn, then `Assistant: answer`; the reply is the answer with status 200 |
| `Chat.MissingAnswerUsesDefault` | Medical-Chatbot-Application-main/Medical-Chatbot-Application-main/app.py:70-76 | a result without an `answer` key makes the new history the old one plus the user turn and `Assistant: No answer provided.`, and returns `No answer provided.` with status 200 |
| `Chat.FailureKeepsOnlyUserTurn` | Medical-Chatbot-Application-main/Medical-Chatbot-Application-main/app.py:77-79 | when the chain raises, only the user turn is appended, and the reply is the fixed error message with status 500 |
| `Chat.MissingMsgChangesNothing` | Medical-Chatbot-Application-main/Medical-Chatbot-Application-main/app.py:58-63 | a form without `msg` raises at the lookup: the history is unchanged and the chain is not invoked |
| `Chat.Run` | Medical-Chatbot-Application-main/Medical-Chatbot-Application-main/app.py:48-79 | the history after serving requests strictly one after another on the shared list; `RunAppendOnly` and `RunTagged` state its properties |
| `Chat.RunAppendOnly` | Medical-Chatbot-Application-main/Medical-Chatbot-Application-main/app.py:63-74 | across any sequence of requests the old history is a prefix of the new one, which has at most two entries more per request |
| `Chat.RespondTagged` | Medical-Chatbot-Application-main/Medical-Chatbot-Application-main/app.py:63-74 | every entry one request appends starts with `User: ` or `Assistant: ` |
| `Chat.RunTagged` | Medical-Chatbot-Application-main/Medical-Chatbot-Application-main/app.py:48-74 | a history of tagged turns stays tagged across any sequence of requests |
| `Chat.RenderAmbiguous` | Medical-Chatbot-Application-main/Medical-Chatbot-Application-main/app.py:63-66 | after any history, a user message `m + "\nAssistant: " + a` renders exactly like the user turn `m` followed by a genuine assistant turn `a` |
| `Chat.ChatService.constructor` | Medical-Chatbot-Application-main/Medical-Chatbot-Application-main/app.py:48 | the history starts empty |
| `Chat.ChatService.Chat` | Medical-Chatbot-Application-main/Medical-Chatbot-Application-main/app.py:56-79 | updating the history in place gives exactly the history, reply and chain input of `Respond`, and the old history stays a prefix |
| `Chat.ThreeTurnLines` | Medical-Chatbot-Application-main/Medical-Chatbot-Application-main/app.py:66 | rendering `Hello`, a one-line answer and `And for kids?` gives four lines, ending with `Assistant:` |
| `Chat.TwoTurnConversation` | Medical-Chatbot-Application-main/Medical-Chatbot-Application-main/app.py:63-74 | on a fresh process, `Hello` answered and then `And for kids?` makes the second chain input the four lines `User: Hello`, `Assistant: <answer>`, `User: And for kids?`, `Assistant:` |

## Left out

- Flask setup, the `/` route with its template, and `app.run` (app.py lines 14, 50-52, 82-83). These are HTTP and UI plumbing.
- Flask turning the escaped `KeyError` into a 400 Bad Request page. That is framework behaviour, so the model stops at `FormKeyMissing`.
- Loading API keys from the environment (lines 16-22). This is process configuration.
- The embedding model, the Pinecone index, the k = 3 similarity retriever, the Cohere model (temperature 0.4, 500 tokens), the prompt template and the chain construction (lines 24-45). These are external services and library code. Only their combined outcome per request enters the model, as `ChainResult`. The model does not tie that outcome to the chain input.
- The `print` logging (lines 60, 71, 78). It does not affect state.
- Concurrent requests racing on the shared list. Requests are modelled as strictly sequential calls.
- `str(answer)` on an answer that is not a string (line 76). Answers are modelled as strings.
- Exceptions from inside the `try` other than the chain's own. `response.get`, the append and `str` are taken not to raise.
