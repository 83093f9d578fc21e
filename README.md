# OpenFabric-APP agent core, modelled in Dafny

The application turns a user's chat message into an image and then a 3D
model. Its back end is an *agent* that runs one conversation turn per
request. The agent sends the prompt to an LLM client (Gemini or Ollama). A
*processor* reads each answer as a JSON directive wrapped in a Markdown
code fence. The directive's `state` picks one of five intents: EXIT,
MEM_RECALL, IMAGE, MODEL or QUERY. The handler for that intent updates the
turn's `SessionData` record and returns either a sentinel string or the
text to send back to the LLM. On "EXIT" the agent writes the client's
history back to the process-wide session cache. It then saves the session
to the store, but only when an image description was produced. The front
end parses the server's reply, which is a Python dictionary printed as
text, after rewriting its single quotes into double quotes.

The project has nine modules:

- `Wrappers` (`wrappers.dfy`): `Option`, `Outcome` (a value or a raised
  exception) and the string predicates `StartsWith`, `EndsWith` and
  `Contains`.
- `Llm` (`llm.dfy`): messages, and the decoded vendor reply bodies.
- `Collaborators` (`collaborators.dfy`): the store, the image and 3D
  generator, the processor's text generator and the prompt templates.
  Each is a scripted oracle.
- `Sessions` (`sessions.dfy`): `SessionManager` and `SessionData`.
- `Processor` (`processor.dfy`): fence unwrapping, the intents, and the
  `Processor` class.
- `Gemini` (`gemini.dfy`) and `Ollama` (`ollama.dfy`): the two clients.
- `AgentLoop` (`agent.dfy`): the `Agent` class and its turn loop.
- `MessageSender` (`message_sender.dfy`): the front end's `cleanJSON`.

Python exceptions become `Outcome.Raises`, or `Run.Raised` at the agent
level. `json.loads` and `JSON.parse` are function parameters that return
`None` where they would throw. The vendor's HTTP endpoint is an `Endpoint`
object holding the decoded bodies of its next replies. Each `prompt` call
consumes one of them. When none are left, the agent stops with
`OutOfScript`. This gives the source's `while True` loops a measure to
decrease.

Class-level attributes are objects shared by every instance:

- `SessionManager._sessions` is one `SessionManager` object.
- `Agent._generator`, `_sessionsManager` and `_db` are held by an
  `AgentStatics` object.
- `OllamaLLM.MODEL_NAME` is an `OllamaSettings` object.

Some behaviour is kept exactly as the source has it:

- `SessionData.set(summary=...)` writes to an attribute spelled `sumary`.
  The `summary` field therefore never changes (`Sessions.Merge`,
  `Sessions.SummaryGoesToSumary`).
- `int(State['state'])` is evaluated outside the `try`. A directive
  whose state is missing or outside 0..4 therefore raises instead of
  answering "WRONG RESPONSE".
- Ollama's `prompt` catches only a missing key (`KeyError`). A reply
  body of any other wrong shape raises. Gemini's `prompt` returns the
  raw body in both cases; its `generate_content` has no `try` and
  raises on either.
- `Agent.get_session_history` reads the class attribute `Agent.llm`,
  which does not exist. It therefore raises whenever a client is set.

Some helpers have no row of their own, because the rows of their callers
state what they do: `Processor.Handle` (the dispatch of `process`,
Processor.py:50-63), `Processor.Description` (the LLM call of
`generate_image`, Processor.py:87-88), and `AgentLoop.ReplyRole` and
`AgentLoop.Exchange` (the turn a client appends on a reply, Gemini.py:46
and Ollama.py:55-58).

## Model

| member | source | states |
|---|---|---|
| Collaborators.Db.GetImageDescription | APP/app/Agent/Storage/VectorDB.py:25-30 | returns the stored description exactly when the intent has one, and raises otherwise |
| Collaborators.Db.GetConversationHistory | APP/app/Agent/Storage/VectorDB.py:33-38 | returns the stored history exactly when the session has one, and raises otherwise |
| Collaborators.Db.SaveSession | APP/app/Agent/Storage/VectorDB.py:42-44 | upserts the history under the session id and logs the call, in order |
| Collaborators.Generator.GenerateImage | APP/app/Agent/Processor.py:91 | the generator raises exactly when it has no image for the description |
| Collaborators.Generator.Generate3dRender | APP/app/Agent/Processor.py:102 | the generator raises exactly when it has no render for the image |
| Collaborators.Describer.GenerateContent | APP/app/Agent/Processor.py:88 | the processor's LLM raises exactly when it has no reply for the prompt list |
| Sessions.SessionManager.constructor | APP/app/Agent/SessionsManager.py:10-15 | the shared cache starts empty, over one store and one set of prompts |
| Sessions.SessionManager.AddSession | APP/app/Agent/SessionsManager.py:18-25 | an empty id mints the new id and seeds it with the base prompt; a cached id is returned with the cache unchanged; an uncached id is loaded from the store, or raises with the cache unchanged; a returned id is non-empty and cached |
| Sessions.SessionManager.LoadSessionHistory | APP/app/Agent/SessionsManager.py:32-35 | a cache hit changes nothing; a miss caches the stored history, or raises and changes nothing |
| Sessions.SessionManager.GetSessionHistory | APP/app/Agent/SessionsManager.py:38-47 | the answer is `Lookup` of the cache and the store; the cache is not written |
| Sessions.SessionManager.SetSessionHistory | APP/app/Agent/SessionsManager.py:50-52 | the cache maps the id to the new history, and every other id is unchanged |
| Sessions.SessionManager.SaveSession | APP/app/Agent/SessionsManager.py:55-57 | a cached id sends exactly one save with the cached history; an uncached id raises and leaves the store untouched |
| Sessions.Lookup | APP/app/Agent/SessionsManager.py:38-47 | the cache wins over the store; an id found in neither raises |
| Sessions.SetThenGet | APP/app/Agent/SessionsManager.py:38-52 | after setting an id's history, a lookup of that id returns it and a lookup of any other id is unchanged |
| Sessions.Keep | APP/app/Agent/SessionsManager.py:72-83 | a non-empty argument overwrites the field; an empty one keeps it, so the field ends empty only when both were empty |
| Sessions.Merge | APP/app/Agent/SessionsManager.py:71-85 | `summary` never changes, and no non-empty field is ever emptied |
| Sessions.MergeNothing | APP/app/Agent/SessionsManager.py:71-85 | `set()` with no arguments leaves the record unchanged |
| Sessions.MergeIdempotent | APP/app/Agent/SessionsManager.py:71-85 | applying the same `set` twice is the same as applying it once |
| Sessions.MergeNoClobber | APP/app/Agent/SessionsManager.py:72-85 | every field a later `set` leaves empty keeps what the earlier `set` stored |
| Sessions.SummaryGoesToSumary | APP/app/Agent/SessionsManager.py:80-81 | a non-empty summary lands in `sumary`, and `summary` keeps its old value |
| Sessions.SessionData.constructor | APP/app/Agent/SessionsManager.py:60-69 | the id and username are as given; every text field is empty, and `sumary` and `history` do not exist |
| Sessions.SessionData.Set | APP/app/Agent/SessionsManager.py:71-85 | the new record is `Merge` of the old record and the arguments |
| Processor.RemovePrefix | APP/app/Agent/Processor.py:114-117 | a non-empty prefix that is present is removed exactly once; otherwise the text is unchanged |
| Processor.RemoveSuffix | APP/app/Agent/Processor.py:119-122 | a non-empty suffix that is present is removed exactly once; otherwise the text is unchanged |
| Processor.Unwrap | APP/app/Agent/Processor.py:124-130 | the text handed to `json.loads` is a stretch of the answer that lost at most fifteen characters at the front and seven at the back |
| Processor.UnwrapSteps | APP/app/Agent/Processor.py:124-128 | the unwrapping is the two opening removals, then the two closing removals, each at most once and in the source's order |
| Processor.OpenLineOpens | APP/app/Agent/Processor.py:125-126 | text opening with the marker plus a line break also opens with the bare marker |
| Processor.ClosedPayloadNotOpened | APP/app/Agent/Processor.py:125-128 | a plain payload followed by a closing marker never starts with an opening marker |
| Processor.UnwrapOpening | APP/app/Agent/Processor.py:125-126 | both opening forms lose exactly their marker |
| Processor.UnwrapClosing | APP/app/Agent/Processor.py:127-128 | both closing forms lose exactly their marker |
| Processor.UnwrapFenced | APP/app/Agent/Processor.py:124-130 | all four fenced forms of a plain payload unwrap to exactly the payload |
| Processor.UnwrapBare | APP/app/Agent/Processor.py:124-130 | an unfenced plain payload unwraps to itself, unless it ends with the closing marker plus a line break |
| Processor.UnwrapBareTrailingFence | APP/app/Agent/Processor.py:124-130 | that exception is real: `{}` followed by the closing marker and a line break unwraps to `{}` |
| Processor.StateOf | APP/app/Agent/Processor.py:17-23 | an integer names a state exactly when it is in 0..4 |
| Processor.Code | APP/app/Agent/Processor.py:17-23 | every state has a value in 0..4 |
| Processor.StateCodes | APP/app/Agent/Processor.py:17-23 | `StateOf` and `Code` are inverse, in both directions |
| Processor.ExitStep | APP/app/Agent/Processor.py:66-69 | raises exactly when the summary is missing, and then leaves the record unchanged; otherwise answers "EXIT", and the only field that can change is `sumary`, which takes a non-empty summary |
| Processor.RecallStep | APP/app/Agent/Processor.py:71-77 | returns a value exactly when there is an intent and the store finds a description for it; that value is the description, and only `image_description` can change; a raise leaves the record unchanged |
| Processor.QueryStep | APP/app/Agent/Processor.py:79-82 | raises exactly when the query is missing, and then leaves the record unchanged; otherwise answers "EXIT", and the only field that can change is `message`, which takes a non-empty query |
| Processor.ImageStep | APP/app/Agent/Processor.py:84-97 | never raises; answers "IMAGE GENERATED" exactly when the processor's LLM describes the image intent and the generator draws that description, and then stores the description and the image and changes nothing else; "FAILED" stores the description if one was obtained and changes nothing else |
| Processor.ModelStep | APP/app/Agent/Processor.py:99-107 | answers "MODEL GENERATED" exactly when the stored image renders, and then only `OBJECT` changes, to the render; otherwise answers "FAILED" and leaves the record unchanged |
| Processor.ProcessStep | APP/app/Agent/Processor.py:42-63 | an answer that raises leaves the record unchanged |
| Processor.ProcessReplies | APP/app/Agent/Processor.py:42-63 | `process` either raises, or answers a sentinel, or answers the description recalled for a MEM_RECALL intent |
| Processor.HandleReplies | APP/app/Agent/Processor.py:50-107 | every handler raises or answers a sentinel, except MEM_RECALL, which answers the description the store found for the intent |
| Processor.ProcessKeepsCurrentPrompt | APP/app/Agent/Processor.py:42-107 | no handler sets `current_prompt`, so `process` leaves it as it was |
| Processor.ProcessEndsTurn | APP/app/Agent/Processor.py:42-82 | "EXIT" is answered exactly for EXIT with a summary, QUERY with a query, or a recall whose description is "EXIT" |
| Processor.WrongResponse | APP/app/Agent/Processor.py:42-47 | a raw object, or text that does not parse, answers "WRONG RESPONSE" and leaves the record unchanged |
| Processor.UnknownStateRaises | APP/app/Agent/Processor.py:48 | a parsed directive with no state, or a state outside 0..4, raises |
| Processor.QueryEndsWithMessage | APP/app/Agent/Processor.py:79-82 | a QUERY with a non-empty query answers "EXIT" and stores the query as the message |
| Processor.RecallFeedsBack | APP/app/Agent/Processor.py:71-77 | a recall with a non-empty description returns it and stores it |
| Processor.ImageFailureKeepsDescription | APP/app/Agent/Processor.py:84-97 | when the generator fails after the description was obtained, IMAGE answers "FAILED" but keeps the description and the old image |
| Processor.ModelRendersStoredImage | APP/app/Agent/Processor.py:99-107 | MODEL renders whichever image is stored, and stores the render |
| Processor.Processor.constructor | APP/app/Agent/Processor.py:26-33 | the processor holds the shared session data and its collaborators, and has parsed nothing yet |
| Processor.Processor.Process | APP/app/Agent/Processor.py:42-63 | the answer and the new record are exactly `ProcessStep` of the answer and the old record |
| Processor.Processor.Exit | APP/app/Agent/Processor.py:66-69 | the answer and the new record are `ExitStep` of the parsed directive |
| Processor.Processor.RecallFromMemory | APP/app/Agent/Processor.py:71-77 | the answer and the new record are `RecallStep` of the parsed directive |
| Processor.Processor.ProcessQuery | APP/app/Agent/Processor.py:79-82 | the answer and the new record are `QueryStep` of the parsed directive |
| Processor.Processor.GenerateImage | APP/app/Agent/Processor.py:84-97 | the answer and the new record are `ImageStep` of the parsed directive |
| Processor.Processor.GenerateModel | APP/app/Agent/Processor.py:99-107 | the answer and the new record are `ModelStep` of the old record |
| Gemini.ToTurns | APP/app/Agent/LLM/Gemini.py:18-21 | one turn per message, in order, each holding one part with the message text |
| Gemini.FromTurns | APP/app/Agent/LLM/Gemini.py:51-56 | one message per turn, in order, with the role and the first part's text |
| Gemini.RoundTrip | APP/app/Agent/LLM/Gemini.py:51-56 | reading back the turns built from a history gives that history |
| Gemini.FromTurnsAppend | APP/app/Agent/LLM/Gemini.py:51-56 | reading back an extended history gives the old messages followed by the new ones |
| Gemini.GeminiLLM.constructor | APP/app/Agent/LLM/Gemini.py:18-21 | the history is the converted message list, and it reads back as that list |
| Gemini.GeminiLLM.GenerateContent | APP/app/Agent/LLM/Gemini.py:23-34 | sends one user turn per prompt, in order; returns the reply text, and raises on any other body |
| Gemini.GeminiLLM.Prompt | APP/app/Agent/LLM/Gemini.py:37-49 | the request carries the whole history with the user turn appended; a reply adds a "model" turn and returns the text; any other body returns the raw object; the history reads back extended by exactly those messages |
| Gemini.GeminiLLM.GetHistory | APP/app/Agent/LLM/Gemini.py:51-56 | returns the history read back as messages |
| Ollama.OllamaSettings.constructor | APP/app/Agent/LLM/Ollama.py:8 | the shared model name starts as "llama3.2:1b" |
| Ollama.OllamaLLM.constructor | APP/app/Agent/LLM/Ollama.py:10-19 | the history is a copy of the messages; a non-empty model name renames the model for every client |
| Ollama.OllamaLLM.GenerateContent | APP/app/Agent/LLM/Ollama.py:21-36 | sends the shared model name, no streaming and one user message per prompt; a reply returns its content, a missing key returns the raw body, and any other body raises |
| Ollama.OllamaLLM.Prompt | APP/app/Agent/LLM/Ollama.py:38-61 | sends the whole history with the user message appended; only a reply with content adds an "assistant" message; a missing key returns the raw body; any other body raises |
| Ollama.OllamaLLM.GetHistory | APP/app/Agent/LLM/Ollama.py:63-64 | a copy of the history, message for message |
| Ollama.SharedModelName | APP/app/Agent/LLM/Ollama.py:8-13 | building a client for a named model renames the model for a client built earlier |
| AgentLoop.AgentStatics.constructor | APP/app/Agent/Agent.py:17-19 | the shared generator, session manager and store all start unset |
| AgentLoop.KindFor | APP/app/Agent/Agent.py:50-56 | "gemini" selects Gemini, a name containing "llama" selects Ollama, and any other name selects no client |
| AgentLoop.AnswerOf | APP/app/Agent/LLM/Ollama.py:53-61 | what `prompt` hands back for a reply body: a reply's text; Ollama raises exactly on a body of the wrong shape, while Gemini (Gemini.py:44-49) returns every non-reply raw |
| AgentLoop.SendOutcome | APP/app/Agent/Agent.py:76 | one `prompt` call raises with no client, and runs out of script exactly when a client has no reply left |
| AgentLoop.Unread | APP/app/Agent/Agent.py:76 | a call that answers consumes exactly the first scripted reply; otherwise at most one is consumed |
| AgentLoop.Added | APP/app/Agent/Agent.py:76 | with a client and a reply, the history gains the prompt as a user message first; otherwise it gains nothing |
| AgentLoop.ProcessorFor | APP/app/Agent/Agent.py:79-86 | the processor `exec` builds for each answer acts as `ProcessStep` over the shared record |
| AgentLoop.Talk | APP/app/Agent/Agent.py:75-91 | an `exec` that finishes returns "EXIT" or "REFRESH", had a client and read at least one reply; it never reads more replies than there are |
| AgentLoop.Answered | APP/app/Agent/Agent.py:77-91 | the loop from an answer finishes only on "EXIT" or "REFRESH", and with no client it adds no history |
| AgentLoop.Turns | APP/app/Agent/Agent.py:59-68 | `Exec`'s loop finishes only on "EXIT"; it rebuilt the client exactly when the first `exec` returned "REFRESH" |
| AgentLoop.NoClientHistory | APP/app/Agent/Agent.py:70-72 | with no client, the history the loop starts from makes no difference |
| AgentLoop.TalkPrompts | APP/app/Agent/Agent.py:75-91 | whatever the processor does, the client's history only grows, and it gains one user message per reply read: first the prompt `exec` got, then processor replies, none of them "EXIT" or "REFRESH"; with no client nothing is read |
| AgentLoop.FirstAnswerPrompts | APP/app/Agent/Agent.py:76-91 | when the LLM answers the first prompt, that prompt is the first user message gained, and every later one is a processor reply that did not end `exec` |
| AgentLoop.AnsweredPrompts | APP/app/Agent/Agent.py:77-91 | from an answer on, `exec` sends only processor replies that did not end it, one per reply read |
| AgentLoop.TalkKeepsCurrentPrompt | APP/app/Agent/Agent.py:65-67 | `exec` leaves `current_prompt` as it found it, so the prompt re-sent after "REFRESH" is the one the record started with, "" for a new agent |
| AgentLoop.AnsweredKeepsCurrentPrompt | APP/app/Agent/Agent.py:77-91 | the loop inside `exec` leaves `current_prompt` as it found it |
| AgentLoop.Agent.Create | APP/app/Agent/Agent.py:21-36 | the first agent fixes the shared generator, session manager and store, and later agents keep them; a created agent has a resolved session id, empty session data and the shared collaborators; its client is the kind the name selects and holds the cached history; it raises exactly when a non-empty id is neither cached nor stored; the cache afterwards holds the base prompt under a new id, or is kept for a cached id, or gains the stored history of a loaded id; only a created Ollama agent renames the shared model |
| AgentLoop.Agent.constructor | APP/app/Agent/Agent.py:32-36 | the session data starts empty; "gemini" builds Gemini, a name containing "llama" builds Ollama and renames the shared model, any other name builds nothing; a client holds the cached history of the session; a name without "llama" leaves the shared model name unchanged |
| AgentLoop.Agent.GetSessionHistory | APP/app/Agent/Agent.py:41-45 | with no client, returns the cached history; with a client, raises |
| AgentLoop.Agent.InitBaseLLM | APP/app/Agent/Agent.py:50-56 | "gemini" builds a Gemini client; a name containing "llama" builds an Ollama client and renames the shared model; any other name builds nothing; a new client holds the cached history; a name without "llama" leaves the shared model name unchanged |
| AgentLoop.GeminiIsNoLlama | APP/app/Agent/Agent.py:52-55 | "gemini" does not contain "llama", so at most one client kind is built |
| AgentLoop.Agent.Refresh | APP/app/Agent/Agent.py:70-72 | the client is rebuilt, of the name's kind, from the session cache and not from the dropped client's history; only an Ollama rebuild renames the shared model |
| AgentLoop.Agent.SendPrompt | APP/app/Agent/Agent.py:75 | with no client, raises; otherwise consumes one scripted reply; the answer and the messages added to the history follow that client's rules |
| AgentLoop.Agent.ProcessAnswer | APP/app/Agent/Agent.py:78-85 | a fresh processor over the agent's session data gives `ProcessStep` of the answer |
| AgentLoop.Agent.ExecTurn | APP/app/Agent/Agent.py:75-91 | the outcome, the session record, the unread replies and the client's history are exactly those of `Talk` from the user prompt, with each answer handled by `ProcessStep` over the record the previous one left |
| AgentLoop.Agent.Relay | APP/app/Agent/Agent.py:76 | when the LLM answers, one reply is consumed and `exec` goes on with that answer; otherwise the call's exception, or the end of the script, is the outcome of `exec` |
| AgentLoop.Agent.Converse | APP/app/Agent/Agent.py:77-91 | the outcome, record, unread replies and history are exactly those of `Answered` from the first answer |
| AgentLoop.Agent.Forward | APP/app/Agent/Agent.py:79-91 | one pass takes `Answered` one round further: the processor's reply ends `exec`, or it is sent to the LLM, one reply is consumed, and the loop goes on from the LLM's answer |
| AgentLoop.Agent.Reply | APP/app/Agent/Agent.py:88-90 | given the processor's reply to an answer, the rest of the pass agrees with `Answered`: "EXIT", "REFRESH" or an exception ends `exec` with the record the processor left; any other reply goes to the LLM, one vendor reply is consumed, and `Answered` from the LLM's answer is the same turn |
| AgentLoop.Agent.Exec | APP/app/Agent/Agent.py:59-68 | the outcome, record, unread replies and history are those of `Turns` from the user prompt: `exec`, then after each "REFRESH" a client rebuilt from the cache and `exec` from `current_prompt`, until "EXIT"; on success it returns the session data's message, image, object and id, the cache holds the client's history, and the store received a save, upserting this session's history and no other, exactly when a description exists; on failure neither the cache nor the store changes; the shared model name changes only to an Ollama agent's own name |
| AgentLoop.Agent.ExecLoop | APP/app/Agent/Agent.py:60-67 | the loop does exactly what `Turns` describes, and it ends on "EXIT" only with a client; the shared model name changes only to an Ollama agent's own name |
| AgentLoop.Agent.ExecPass | APP/app/Agent/Agent.py:62-67 | one pass runs `exec`; after "REFRESH" it rebuilds the client of the name's kind and goes on from `current_prompt`, and otherwise it leaves the client and ends the loop; only a rebuilt Ollama client renames the shared model |
| AgentLoop.Agent.ExitTurn | APP/app/Agent/Agent.py:93-100 | saves the session, then returns `return_data`; the store's history for this session becomes the client's history when a description exists, and no other session's stored history changes |
| AgentLoop.Agent.SaveSession | APP/app/Agent/Agent.py:103-118 | the client's history replaces the cached one; the store receives one save, with the description as both description and summary, exactly when the description is non-empty, and that save upserts only this session's stored history |
| AgentLoop.Saved | APP/app/Agent/Agent.py:111-118 | one save call exactly when the description is non-empty, carrying the description twice and the history |
| MessageSender.ReplaceAll | Frontend/src/components/MessageSender.jsx:18 | a global replace whose replacement is as long as its pattern keeps the text's length |
| MessageSender.ApplyRewrites | Frontend/src/components/MessageSender.jsx:17-25 | a chain of such replaces keeps the text's length |
| MessageSender.RewriteQuotes | Frontend/src/components/MessageSender.jsx:16-25 | the text given to `JSON.parse` is as long as the reply |
| MessageSender.ReplaceAllQuoteOnly | Frontend/src/components/MessageSender.jsx:18-25 | a global replace whose pattern and replacement differ only by quotes keeps the length and changes only `'` into `"` |
| MessageSender.ApplyRewritesQuoteOnly | Frontend/src/components/MessageSender.jsx:17-25 | a chain of such replaces changes only `'` into `"` |
| MessageSender.RewritesQuoteOnly | Frontend/src/components/MessageSender.jsx:18-25 | each of the eight rules changes only quotes |
| MessageSender.RewriteQuotesOnlyQuotes | Frontend/src/components/MessageSender.jsx:16-26 | the text given to `JSON.parse` has the reply's length and differs from it only where `'` became `"` |
| MessageSender.NoQuotesUnchanged | Frontend/src/components/MessageSender.jsx:16-26 | a reply without single quotes reaches `JSON.parse` unchanged |
| MessageSender.ClosingRule | Frontend/src/components/MessageSender.jsx:25 | the last rule turns a trailing `'}` into `"}` |
| MessageSender.OpeningBecomesDoubleQuoted | Frontend/src/components/MessageSender.jsx:18 | a reply opening with `{'` reaches `JSON.parse` opening with `{"` |
| MessageSender.ClosingBecomesDoubleQuoted | Frontend/src/components/MessageSender.jsx:17-25 | a reply closing with `'}` reaches `JSON.parse` closing with `"}` |
| MessageSender.ReplaceAllInterleave | Frontend/src/components/MessageSender.jsx:18-25 | on a printed dictionary whose keys and values cannot take part in a match, one replace acts on each delimiter on its own |
| MessageSender.ApplyRewritesInterleave | Frontend/src/components/MessageSender.jsx:17-25 | the same holds for the whole chain |
| MessageSender.RuleOnDelimiter | Frontend/src/components/MessageSender.jsx:18-25 | one rule rewrites a delimiter exactly when the delimiter is its pattern, and leaves it alone otherwise |
| MessageSender.ChainOnDelimiter | Frontend/src/components/MessageSender.jsx:17-25 | a chain of quote-swapping rules turns a delimiter into its swap when some rule names it, and leaves it alone otherwise |
| MessageSender.RewritesOnDelimiters | Frontend/src/components/MessageSender.jsx:18-25 | each of the eight rules maps a delimiter holding a single quote to the same delimiter with its single quotes doubled |
| MessageSender.DelimiterRewrites | Frontend/src/components/MessageSender.jsx:17-25 | every delimiter Python can print, with either quote on either side, reaches `JSON.parse` with its single quotes doubled |
| MessageSender.PrintedDictionary | Frontend/src/components/MessageSender.jsx:16-26 | a flat dictionary of plain strings, printed with either quote around each key and value, reaches `JSON.parse` with every single quote turned into a double quote |
| MessageSender.TwoEntries | Frontend/src/components/MessageSender.jsx:16-26 | `{'k': 'v', 'k2': 'v2'}` reaches `JSON.parse` as `{"k": "v", "k2": "v2"}` |
| MessageSender.CleanJSON | Frontend/src/components/MessageSender.jsx:14-31 | returns the parse of the rewritten text exactly when the body is text and parses; every other case throws "Invalid server response format" |

## Left out

- HTTP requests, API keys and URLs of both clients are replaced by
  scripted reply bodies (`Endpoint`, `ResponseBody`). The JSON encoding of
  payloads is left out.
- The store's internals are left out: the vector search over intents,
  sentence embeddings, PostgreSQL and MongoDB. `Db` keeps only what a
  lookup finds and which saves were made.
- `PromptManager` file reading is left out; prompts are a map that always
  holds "BasePrompt" and "ImagePrompt". A `Processor` uses the session
  manager's prompts instead of building its own `PromptManager`.
- `Agent/Generator.py` is not part of this model; the generator is an
  oracle of images and renders.
- `main.py`, the web server and the front end's rendering and HTTP code
  are left out.
- Logging, concurrency and the uuid generator are left out. The new
  session id is a parameter.
- Construction defects that would stop the source before any modelled
  behaviour are left out. `Agent.exec` builds a `Processor` without its
  `baseLLM` argument, and `Processor.init_baseLLM` reads
  `self.baseLLM`, which does not exist. The model wires every processor
  with a working text generator (`Describer`) instead.
- Directive fields are modelled as present-or-missing text or integers.
  Values of other JSON types are not modelled, except that a `state`
  which `int()` rejects counts as missing.
- The case where Ollama's `generate_content` hands a raw object to
  `session_data.set` inside `generate_image` is left out: the processor's
  text generator returns text or raises.
- A reply body that decodes to a JSON string is not modelled. Gemini's
  `prompt` would return that string, and `process` would unwrap and
  parse it as text. The model turns every malformed body into a raw
  non-string object, which `process` answers with "WRONG RESPONSE".
- AgentLoop.Agent.ExecTurn: termination rests on the scripted replies
  running out (`OutOfScript`); an unbounded conversation is not modelled.
- AgentLoop.Agent.InitBaseLLM: requires that no client is set, as at
  both of its call sites; a call that would replace a live client is not
  modelled.
- MessageSender.PrintedDictionary: covers only keys and values that hold
  no quote or brace and do not start with `:`, `,`, a space or `}`. A
  value with an apostrophe, or a nested dictionary or list, is not
  covered.
