# ollama-flask: a verified model of the chat core

ollama-flask is a small Flask web front end for a locally hosted language model
served by Ollama. It stores conversation turns per browser session and forwards
each new message to the model with the recent history. This project models the
part of it that has precise behaviour:

- **Prompt assembly** (`prepare_messages`). The message list always starts with
  the fixed system instruction. Then come at most the ten latest history
  exchanges, each as a user message followed by an assistant message, in their
  original order. The current prompt comes last, as a user message.
  Module `Prompt` builds the list with the source's append loop
  (`PrepareMessages`) and checks it against the specification function
  `PromptMessages`.
- **Reply extraction and the error sentinel** (`extract_content`,
  `generate_ai_response`). A response is a tagged value: an object exposing
  `message.content`, a mapping, or anything else. Module `Inference` models it
  with a total extraction, with one failure case: a mapping whose `"message"`
  entry is not itself a mapping makes `.get` raise. The model server is a
  `Gateway` object. It answers through a fixed function of the message list; a
  ghost log of the requests lets the contracts say when it was called. Any failure becomes the reply `"Ошибка: <reason>"`.
- **The per-session turn store** (`chat`, `get_history`, `clear_history` over
  `Conversation` rows). The table is a sequence of `Turn` values in insertion
  order. Identifiers and timestamps come from counters the store advances, so
  the sequence order is the timestamp order the queries sort by. `TurnStore`
  keeps the invariant that identifiers and timestamps strictly increase.
  - `Chat` refuses an empty or whitespace-only message (400) before anything
    else.
  - Without a session, `Chat` fails with the caught `KeyError` text (500).
  - Otherwise `Chat` takes the session's ten latest turns, oldest first, makes
    exactly one gateway call and appends exactly one turn.
  - `History` lists the session's turns in ascending time.
  - `Clear` deletes the session's turns and nothing else.
- **Joke selection** (`generate_joke`). The joke table is passed in. Module
  `Humor` models `random.choice` as a nondeterministic pick.

Modules: `Wrappers` (Option, Result), `Text` (Python's `str.strip()`), `Prompt`,
`Inference`, `Store`, `Humor`.

Specification functions without a contract of their own (the lemmas in the
table below state what they mean):
- `Text.IsWhitespace` is the character set of Python's `str.isspace()`.
- `Text.TrimStart`, `Text.TrimEnd` and `Text.Strip` are `lstrip()`, `rstrip()`
  and `strip()` without arguments.
- `Prompt.SystemMessage` is `system_msg`, the fixed system instruction.
- `Prompt.PromptMessages` is the list `prepare_messages` returns.
- `Prompt.Expand` turns exchanges into user/assistant pairs.
- `Store.Where` keeps the turns whose session is, or is not, a given id.
- `Store.SessionOf` is `filter_by(session_id=...)`.
- `Store.WithoutSession` is what `.delete()` leaves.
- `Store.Reversed` is `order_by(... desc())` over the time-ordered rows, and
  Python's `reversed`.
- `Store.Limit` is `.limit(n)`.
- `Store.RecentTurns` is chat's newest-first, limit-ten, reversed query.
- `Store.Exchanges` is the `{"user", "ai"}` list chat builds from the context
  turns.
- `Store.UserInput` is `data.get("message", "").strip()`.
- `Inference.NestedContent` is the text at `message.content`.
- `Inference.Rendering` is `str(response)`, the fallback of `extract_content`.
- `Inference.Generated` is the inner `try` of `generate_ai_response`: the
  extracted text, or the reason the call or the extraction raised.
- `Store.ItemOf` is the `{"user", "ai", "time"}` entry of the history answer.
- `Humor.HasJokes` is `choice in humor and humor[choice]`.

Behaviour worth knowing:
- With the category `"random"`, the code first draws a category, then looks it
  up. If the drawn category maps to an empty list, the result is the apology,
  even when the table is non-empty. `Humor.GenerateJoke` states this: with
  `"random"`, the result is a joke of some category or the apology. When every
  list is non-empty, the result is always a joke from the table.
- The failure sentinel is `"Ошибка: "` followed by the reason.
- `clear_history` reports only a success status. Without a session it raises
  (a server error) and removes nothing.
- `get_history` without a session returns a bare empty list (`NoSession`). With
  a session it returns a `{"history": [...]}` object.
- The `index` route is meant to provision the session, but as written it calls
  `uuid.uuid4()` without importing `uuid` and raises `NameError` before it
  assigns `session["session_id"]`. The program as written therefore never has a
  session: every non-blank chat takes the 500 branch with `'session_id'`,
  `/history` always returns the bare `[]`, and `/clear` always raises. The
  session branches of `Chat`, `History` and `Clear` are reachable only when the
  session is set some other way; the model states them for that case.

## Model

| member | source | states |
|---|---|---|
| Text.TrimStartDropsLeadingWhitespace | app/routes.py:138 | trimming the start leaves the suffix of the input after its leading whitespace, which starts with a non-whitespace character if non-empty |
| Text.TrimEndDropsTrailingWhitespace | app/routes.py:138 | trimming the end leaves the prefix of the input before its trailing whitespace, which ends with a non-whitespace character if non-empty |
| Text.StripTrimsBothEnds | app/routes.py:138 | the stripped message neither starts nor ends with whitespace and is no longer than the message |
| Text.StripIsInnerSlice | app/routes.py:138 | `strip()` removes only whitespace: the result is the slice between the leading and the trailing whitespace |
| Text.StripEmptyIffBlank | app/routes.py:138-140 | the stripped message is empty exactly when the message is empty or whitespace only |
| Text.StripIdempotent | app/routes.py:138 | stripping an already stripped message changes nothing |
| Prompt.LastAtMost | app/routes.py:82 | `history[-10:]` keeps min(len, 10) entries, the last ones, in their order |
| Prompt.ExpandShape | app/routes.py:82-84 | each history entry k becomes a user message at 2k and its assistant message at 2k+1, so the expansion has twice as many messages |
| Prompt.PromptFrame | app/routes.py:67-91 | every prompt has 1 + 2*min(len(history), 10) + 1 messages, the fixed system message first and `{user, prompt}` last, for any prompt and history |
| Prompt.PromptCarriesWindow | app/routes.py:78-84 | only the last ten history entries are used: entry j of them sits at 1+2(j-start) (user) and 2+2(j-start) (assistant), in the original order |
| Prompt.PrepareMessages | app/routes.py:65-91 | the append loop builds exactly the specified prompt list |
| Inference.ExtractContent | app/routes.py:56-62 | the nested `message.content` when there is one, else the string rendering; it fails only for a mapping whose "message" is not a mapping |
| Inference.ReplyText | app/routes.py:118-131 | a successful call yields the extracted text; any failure, a raised call or a failed extraction, yields "Ошибка: " followed by the failure reason |
| Inference.ShapesAgree | app/routes.py:58-61 | the object shape and the mapping shape carrying the same text give the same reply |
| Inference.Gateway.constructor | app/routes.py:110-115 | a new gateway has answered no requests |
| Inference.Gateway.Call | app/routes.py:110-115 | one call logs exactly the given message list and returns the server's answer to it |
| Inference.GenerateAiResponse | app/routes.py:94-131 | exactly one gateway call, with the assembled prompt; the reply is its text or the failure sentinel |
| Store.WhereMembers | app/routes.py:146-147 | the filter yields exactly the table's turns that match the session condition |
| Store.WhereOrdered | app/routes.py:146-148 | a filtered table is still in strictly increasing id and time order |
| Store.AppendOrdered | app/models.py:19-23 | a row with the next id and the current time keeps the table ordered |
| Store.WhereAppend | app/routes.py:159-165 | filtering a table with one more row lists that row last, if it matches |
| Store.SessionOfAppend | app/routes.py:159-165 | a new turn joins its own session's turns at the end and no other session's |
| Store.RecentIsLastTen | app/routes.py:146-153 | newest first, limited to ten, then reversed: this is the session's last ten turns, oldest first |
| Store.WindowReachesModel | app/routes.py:153-156 | turn j of a context window of at most ten turns is sent as a user message at 1+2j and its answer as an assistant message at 2+2j |
| Store.ChatPromptCarriesSessionTurns | app/routes.py:146-156 | each of the session's last ten turns, k, reaches the model: its input at 1+2(k-start) and its answer at 2+2(k-start) of the prompt, where start is the first kept turn |
| Store.NewestTurnInContext | app/routes.py:146-165 | a just-stored turn is the newest entry of its session's next context window |
| Store.ClearEmptiesSession | app/routes.py:212-213 | after clearing, the session has no turns, so its history is empty |
| Store.ClearKeepsOthers | app/routes.py:212-213 | clearing one session leaves every other session's turns as they were, in order |
| Store.ClearTwice | app/routes.py:212-213 | clearing a session twice leaves the same table as clearing it once |
| Store.UnknownSessionEmpty | app/routes.py:191-195 | a session with no stored turns has an empty history |
| Store.TurnStore.constructor | app/models.py:15-23 | a new table is empty and valid |
| Store.TurnStore.History | app/routes.py:185-206 | no session gives the bare empty list; otherwise exactly the session's turns as (user, ai, time) entries, in strictly ascending time |
| Store.TurnStore.Chat | app/routes.py:134-174 | an empty or whitespace-only message gives 400 with the store and gateway untouched; no session gives 500; otherwise one gateway call with the session's last ten turns, exactly one appended turn holding the stripped input and the reply (sentinel included), other sessions unchanged |
| Store.TurnStore.Converse | app/routes.py:144-170 | for a caller with a session: one gateway call with the session's last ten turns, oldest first; one appended turn with the stripped input and the reply (sentinel included); other sessions unchanged; the answer carries the reply and a later clock reading |
| Store.TurnStore.Now | app/routes.py:169 | reading the clock returns its current value and advances it, leaving the turns untouched |
| Store.TurnStore.Add | app/routes.py:159-165 | one commit appends one turn with the next id and current time, after every other row, and keeps the table valid |
| Store.TurnStore.Clear | app/routes.py:209-214 | the session's turns are removed and nothing else changes; ids and clock are untouched |
| Store.FirstChatScenario | app/routes.py:134-206 | on a fresh store, "hello" yields exactly one history entry, with user "hello" |
| Store.BlankMessageScenario | app/routes.py:138-142 | on a fresh store, a whitespace-only message is refused with 400 and the session's history stays empty |
| Humor.GenerateJoke | app/humor.py:22-29 | a category with jokes yields one of them; a missing or empty category yields the apology verbatim; "random" draws some category and raises only on an empty table |

## Left out

- Flask routing, JSON request parsing, the `session` cookie and `jsonify` are not modelled. The session id and the `"message"` field are plain `Option` parameters.
- A `"message"` value that is not a string is not modelled. In the source, `.strip()` on it raises outside the `try` block.
- The `index` route is not modelled. It is meant to provision a session and render a page; as written it raises `NameError` on `uuid` (never imported) before it assigns the session, and `render_template` is never imported either.
- SQLAlchemy, `db.session.commit`, migrations and storage failures are not modelled. The table is an in-memory sequence. The 500 branch of `chat` is modelled only for its one reachable cause here, a missing session.
- `Store.TurnStore.Add`: ids come from a counter that never reuses a value. A database may hand out an id again after the newest rows were deleted.
- The `ollama.chat` network call is not modelled, nor its options (`temperature`, `num_predict`). `Inference.Gateway` answers through a fixed function of the message list. So the model gives identical prompts identical outcomes, while the real server samples at `temperature` 0.7 and can fail on one call and succeed on the next; no property stated here relies on that determinism.
- `Inference.ExtractContent`: the content of a response is modelled as a string only, for both the object shape and the mapping shape. In the source, a content without a length, such as `None` or a number, makes the log line at app/routes.py:119-122 raise on `len(result)`, and the reply becomes the "Ошибка: " sentinel. A list content, possible only in the mapping shape, passes the log line, is returned as the reply and then fails at `db.session.commit()`, which gives the 500 branch. Neither path is modelled. The rendering `str(response)` is an opaque string carried by the response.
- Logging (`ThoughtLoggerFormatter`, `log_thought` and its string truncations) is not modelled. For string content it does not affect any result; for other content see the `Inference.ExtractContent` line.
- Concurrency is not modelled. Each handler call is atomic. Flask's threaded server can interleave two chats of one session between reading the context and committing, and then the later prompt can miss the earlier turn; `Store.TurnStore.Chat` and `Store.TurnStore.Converse` hold only for requests that run one at a time.
- Wall-clock time (`datetime.utcnow`) is a logical clock. `chat` reads it twice: once for the stored row, once for the response timestamp.
- Reading `humor.json` (`load_humor`) is not modelled. The table is a parameter; a missing file corresponds to the empty table.
- The random draws of `random.choice` are not modelled as values. They are nondeterministic picks, so every contract holds for every possible draw.
- config.py, run.py and the app factory are not modelled. They load settings and start the server.
