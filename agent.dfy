/** `Agent.py`: one conversation turn. The agent sends the user's prompt
    to its LLM client, hands each answer to a fresh `Processor`, sends
    every reply that is not "EXIT" or "REFRESH" back to the LLM, and on
    exit writes the client's history back to the session cache, saving
    the session durably only when an image description was produced. */
module AgentLoop {
  import opened Wrappers
  import opened Llm
  import opened Collaborators
  import opened Sessions
  import opened Gemini
  import opened Ollama
  import opened Processor

  /** The agent's `llm` attribute: no client (`None`) or one of the two. */
  datatype Client = NoClient | GeminiClient(g: GeminiLLM) | OllamaClient(o: OllamaLLM)

  /** The outcome of an agent operation: its value, an exception that
      escapes it, or the end of the vendor's scripted replies. */
  datatype Run<T> = Done(value: T) | Raised | OutOfScript

  /** The vendor's HTTP endpoint as a scripted oracle: the decoded bodies
      of its next replies, one per `prompt` call. */
  class Endpoint {
    var replies: seq<ResponseBody>

    constructor (replies: seq<ResponseBody>)
      ensures this.replies == replies
    {
      this.replies := replies;
    }
  }

  /** `Agent`'s class-level attributes `_generator`, `_sessionsManager`
      and `_db`, shared by every agent; `None`/`null` until set. */
  class AgentStatics {
    var generator: Option<Generator>
    var sessionsManager: SessionManager?
    var db: Db?

    ghost predicate Valid()
      reads this, sessionsManager
    {
      (generator.Some? <==> sessionsManager != null) &&
      (sessionsManager != null <==> db != null) &&
      (sessionsManager != null ==> sessionsManager.db == db)
    }

    constructor ()
      ensures Valid() && generator == None && sessionsManager == null && db == null
    {
      generator, sessionsManager, db := None, null, null;
    }
  }

  /** Which client `init_baseLLM` built. */
  datatype Kind = NoLLM | GeminiKind | OllamaKind

  function KindOf(c: Client): Kind {
    match c
    case NoClient => NoLLM
    case GeminiClient(_) => GeminiKind
    case OllamaClient(_) => OllamaKind
  }

  /** The client `init_baseLLM` builds for a name. The "llama" test comes
      second and would win, but "gemini" does not contain "llama". */
  function KindFor(name: string): (k: Kind)
    ensures name == "gemini" ==> k == GeminiKind
    ensures Contains(name, "llama") ==> k == OllamaKind
    ensures name != "gemini" && !Contains(name, "llama") ==> k == NoLLM
  {
    GeminiIsNoLlama();
    if Contains(name, "llama") then OllamaKind
    else if name == "gemini" then GeminiKind
    else NoLLM
  }

  /** The role the client gives the LLM's turns. */
  function ReplyRole(k: Kind): string {
    if k == OllamaKind then "assistant" else "model"
  }

  /** What `prompt` hands back for a reply body. Gemini catches every
      failure to find the text; Ollama catches only a missing key. */
  function AnswerOf(k: Kind, body: ResponseBody): (r: Run<Answer>)
    ensures r.Done? <==> !(k == OllamaKind && body.WrongShape?)
    ensures body.Reply? ==> r == Done(Text(body.text))
  {
    match body
    case Reply(t) => Done(Text(t))
    case KeyMissing(raw) => Done(RawObject(raw))
    case WrongShape(raw) => if k == OllamaKind then Raised else Done(RawObject(raw))
  }

  /** The messages one `prompt` call adds to the client's history. */
  function Exchange(k: Kind, prompt: string, body: ResponseBody): seq<Message> {
    [Message("user", prompt)] + if body.Reply? then [Message(ReplyRole(k), body.text)] else []
  }

  /** What one `prompt` call hands back: with no client the call raises
      (`None` has no `prompt`); otherwise the client reads one reply. */
  function SendOutcome(k: Kind, script: seq<ResponseBody>): (r: Run<Answer>)
    ensures r.OutOfScript? <==> k != NoLLM && script == []
  {
    if k == NoLLM then Raised
    else if script == [] then OutOfScript
    else AnswerOf(k, script[0])
  }

  /** The replies left after one `prompt` call. */
  function Unread(k: Kind, script: seq<ResponseBody>): (rest: seq<ResponseBody>)
    ensures SendOutcome(k, script).Done? ==> |rest| < |script|
    ensures rest == script || (script != [] && rest == script[1..])
  {
    if k == NoLLM || script == [] then script else script[1..]
  }

  /** The messages one `prompt` call adds to the client's history. */
  function Added(k: Kind, prompt: string, script: seq<ResponseBody>): (ms: seq<Message>)
    ensures k != NoLLM && script != [] ==> |ms| > 0 && ms[0] == Message("user", prompt)
    ensures k == NoLLM || script == [] ==> ms == []
  {
    if k == NoLLM || script == [] then [] else Exchange(k, prompt, script[0])
  }

  /** The processor replies that end `exec`. */
  predicate EndsExec(reply: string) {
    reply == "EXIT" || reply == "REFRESH"
  }

  /** A processor as a function: the reply and the record it leaves, for
      an answer and the record it starts from. */
  type Handler = (Answer, Record) -> Step

  /** `proc` does what a fresh `Processor` does, given `json.loads` and
      the agent's collaborators. */
  ghost predicate Processes(proc: Handler, loads: string -> Option<Directive>, env: Services) {
    forall a, sd {:trigger ProcessStep(a, loads, sd, env)} :: proc(a, sd) == ProcessStep(a, loads, sd, env)
  }

  /** The processor `exec` builds for each answer. */
  function ProcessorFor(loads: string -> Option<Directive>, env: Services): (proc: Handler)
    ensures Processes(proc, loads, env)
  {
    (a, sd) => ProcessStep(a, loads, sd, env)
  }

  /** What part of a turn did: how it ended, the session record and the
      client's history it left, and the vendor replies it left unread. */
  datatype Talked = Talked(outcome: Run<string>, data: Record, history: seq<Message>, rest: seq<ResponseBody>)

  /** `exec` from a prompt, with the client's history `h`: the prompt goes
      to the LLM, which reads one scripted reply, and the LLM's answer goes
      to a fresh processor. With no client there is no history. */
  function Talk(k: Kind, prompt: string, script: seq<ResponseBody>, proc: Handler, sd: Record, h: seq<Message>)
    : (t: Talked)
    ensures |t.rest| <= |script|
    ensures t.outcome.Done? ==> EndsExec(t.outcome.value) && |t.rest| < |script| && k != NoLLM
    decreases |script|, 0
  {
    var sent, rest := if k == NoLLM then [] else h + Added(k, prompt, script), Unread(k, script);
    match SendOutcome(k, script)
    case Done(a) => Answered(k, a, rest, proc, sd, sent)
    case Raised => Talked(Raised, sd, sent, rest)
    case OutOfScript => Talked(OutOfScript, sd, sent, rest)
  }

  /** One round of `exec`'s loop from an LLM answer: a fresh processor
      handles it; "EXIT" and "REFRESH" end `exec`, an exception escapes it,
      and any other reply is sent back to the LLM as the next prompt. */
  function Answered(k: Kind, answer: Answer, script: seq<ResponseBody>, proc: Handler, sd: Record, h: seq<Message>)
    : (t: Talked)
    ensures |t.rest| <= |script|
    ensures t.outcome.Done? ==> EndsExec(t.outcome.value) && (k == NoLLM ==> t.history == h)
    decreases |script|, 1
  {
    var s := proc(answer, sd);
    if s.reply.Raises? then Talked(Raised, s.data, h, script)
    else if EndsExec(s.reply.value) then Talked(Done(s.reply.value), s.data, h, script)
    else Talk(k, s.reply.value, script, proc, s.data, h)
  }

  /** With no client, the history `Exec` starts from makes no difference. */
  lemma NoClientHistory(again: Kind, prompt: string, script: seq<ResponseBody>, proc: Handler, sd: Record,
                        cached: seq<Message>)
    ensures Turns(NoLLM, again, prompt, script, proc, sd, [], cached) ==
            Turns(NoLLM, again, prompt, script, proc, sd, cached, cached)
  {
  }

  /** What `Exec` did: its last `exec`, and whether a "REFRESH" rebuilt
      the client before it. */
  datatype Turned = Turned(last: Talked, rebuilt: bool)

  /** `x`, after an earlier "REFRESH" when `rebuilt` holds. */
  function Resume(x: Turned, rebuilt: bool): Turned {
    if rebuilt then Turned(x.last, true) else x
  }

  /** `Exec`'s loop: `exec` from the user's prompt with a client of kind
      `k` holding `h`; each "REFRESH" rebuilds the client, of kind `again`
      and seeded with the cached history `cached`, and runs `exec` from the
      record's `current_prompt`, until "EXIT". */
  function Turns(k: Kind, again: Kind, prompt: string, script: seq<ResponseBody>, proc: Handler, sd: Record,
                 h: seq<Message>, cached: seq<Message>): (r: Turned)
    ensures r.last.outcome.Done? ==> r.last.outcome == Done("EXIT")
    ensures r.rebuilt <==> Talk(k, prompt, script, proc, sd, h).outcome == Done("REFRESH")
    decreases |script|
  {
    var t := Talk(k, prompt, script, proc, sd, h);
    if t.outcome == Done("REFRESH") then
      Turned(Turns(again, again, t.data.currentPrompt, t.rest, proc, t.data, cached, cached).last, true)
    else Turned(t, false)
  }

  class Agent {
    const sessionId: string
    const sessionData: SessionData
    const manager: SessionManager
    const db: Db
    const generator: Generator
    const settings: OllamaSettings
    var baseLLM: string
    var llm: Client

    function ClientObjects(): set<object>
      reads this
    {
      match llm
      case NoClient => {}
      case GeminiClient(g) => {g}
      case OllamaClient(o) => {o}
    }

    ghost predicate Valid()
      reads this, manager, sessionData, ClientObjects()
    {
      sessionData.sessionId == sessionId &&
      sessionId in manager.sessions &&
      manager.db == db &&
      (llm.GeminiClient? ==> llm.g.Valid()) &&
      (llm.OllamaClient? ==> llm.o.settings == settings)
    }

    /** The client's history as messages. */
    ghost function Conversation(): seq<Message>
      reads this, ClientObjects(), if llm.GeminiClient? then {llm.g} else {}
      requires llm.GeminiClient? ==> llm.g.Valid()
    {
      match llm
      case NoClient => []
      case GeminiClient(g) => g.Messages()
      case OllamaClient(o) => o.history
    }

    /** `Agent.__init__`: the first agent fixes the shared generator,
        session manager and store; later agents' `generator` is ignored.
        The session is then resolved (minting `newId` for an empty id),
        and the client is built from the cached history. */
    static method Create(baseLLM: string, username: string, sessionId: string, generator: Generator,
                         statics: AgentStatics, store: Db, prompts: Prompts,
                         settings: OllamaSettings, newId: string)
      returns (r: Outcome<Agent>)
      requires statics.Valid() && newId != ""
      modifies statics, statics.sessionsManager, settings
      ensures statics.Valid()
      ensures statics.generator == if old(statics.generator).None? then Some(generator) else old(statics.generator)
      ensures old(statics.sessionsManager) != null ==> statics.sessionsManager == old(statics.sessionsManager)
      ensures old(statics.db) != null ==> statics.db == old(statics.db)
      ensures old(statics.db) == null ==> statics.db == store && fresh(statics.sessionsManager)
      ensures r.Returns? ==>
                var a := r.value;
                fresh(a) && a.Valid() && a.generator == statics.generator.value &&
                a.manager == statics.sessionsManager && a.db == statics.db &&
                a.sessionId == (if sessionId == "" then newId else sessionId) &&
                a.sessionData.View() == Empty && a.sessionData.username == username &&
                a.baseLLM == baseLLM && KindOf(a.llm) == KindFor(baseLLM) &&
                (!a.llm.NoClient? ==> a.Conversation() == a.manager.sessions[a.sessionId])
      ensures var cached := if old(statics.sessionsManager) == null then map[] else old(statics.sessionsManager.sessions);
              var m := statics.sessionsManager;
              (r.Raises? <==> sessionId != "" && sessionId !in cached && m.db.GetConversationHistory(sessionId).Raises?) &&
              m.sessions == if sessionId == "" then cached[newId := Seed(m.prompts)]
                            else if sessionId in cached || m.db.GetConversationHistory(sessionId).Raises? then cached
                            else cached[sessionId := m.db.GetConversationHistory(sessionId).value]
      ensures settings.modelName == if r.Returns? && Contains(baseLLM, "llama") then baseLLM else old(settings.modelName)
    {
      if statics.generator.None? {
        statics.generator := Some(generator);
      }
      if statics.sessionsManager == null {
        statics.sessionsManager := new SessionManager(store, prompts);
      }
      if statics.db == null {
        statics.db := store;
      }
      var m := statics.sessionsManager;
      var id := m.AddSession(sessionId, newId);
      if id.Raises? {
        return Raises;
      }
      var a := new Agent(baseLLM, username, id.value, statics.generator.value, m, settings);
      r := Returns(a);
    }

    /** The rest of `__init__`, once the session id is known: an empty
        `SessionData`, then `init_baseLLM` with no client set. */
    constructor (baseLLM: string, username: string, sessionId: string, generator: Generator,
                 manager: SessionManager, settings: OllamaSettings)
      requires sessionId in manager.sessions
      modifies settings
      ensures Valid() && fresh(sessionData) && fresh(ClientObjects())
      ensures this.sessionId == sessionId && this.manager == manager && this.db == manager.db
      ensures this.generator == generator && this.settings == settings && this.baseLLM == baseLLM
      ensures sessionData.View() == Empty && sessionData.username == username
      ensures baseLLM == "gemini" ==> llm.GeminiClient?
      ensures Contains(baseLLM, "llama") ==> llm.OllamaClient? && settings.modelName == baseLLM
      ensures baseLLM != "gemini" && !Contains(baseLLM, "llama") ==> llm.NoClient?
      ensures KindOf(llm) == KindFor(baseLLM)
      ensures !llm.NoClient? ==> Conversation() == manager.sessions[sessionId]
      ensures settings.modelName == if Contains(baseLLM, "llama") then baseLLM else old(settings.modelName)
    {
      this.sessionId := sessionId;
      this.manager := manager;
      this.db := manager.db;
      this.generator := generator;
      this.settings := settings;
      this.baseLLM := baseLLM;
      llm := NoClient;
      sessionData := new SessionData(sessionId, username);
      new;
      InitBaseLLM(baseLLM);
    }

    /** `get_session_history`: with no client it asks the session manager,
        which has the session cached. With a client it reads the class
        attribute `Agent.llm`, which does not exist, and raises. */
    method GetSessionHistory() returns (r: Outcome<seq<Message>>)
      requires Valid()
      ensures llm.NoClient? ==> r == Returns(manager.sessions[sessionId])
      ensures !llm.NoClient? ==> r == Raises
    {
      if !llm.NoClient? {
        return Raises;
      }
      r := manager.GetSessionHistory(sessionData.sessionId);
    }

    /** `init_baseLLM`: "gemini" builds a Gemini client, a name containing
        "llama" an Ollama client for that model; any other name leaves no
        client. Both are seeded from the cached history. */
    method InitBaseLLM(name: string)
      requires Valid() && llm.NoClient?
      modifies this, settings
      ensures Valid() && baseLLM == name && fresh(ClientObjects())
      ensures name == "gemini" ==> llm.GeminiClient?
      ensures Contains(name, "llama") ==> llm.OllamaClient? && settings.modelName == name
      ensures name != "gemini" && !Contains(name, "llama") ==> llm.NoClient?
      ensures KindOf(llm) == KindFor(name)
      ensures !llm.NoClient? ==> Conversation() == manager.sessions[sessionId]
      ensures settings.modelName == if Contains(name, "llama") then name else old(settings.modelName)
    {
      baseLLM := name;
      GeminiIsNoLlama();
      var h := GetSessionHistory();
      var history := h.value;
      if baseLLM == "gemini" {
        var g := new GeminiLLM(history);
        llm := GeminiClient(g);
      }
      if Contains(baseLLM, "llama") {
        var o := new OllamaLLM(history, baseLLM, settings);
        llm := OllamaClient(o);
      }
    }

    /** `refresh`: drops the client and builds a new one, seeded from the
        session cache (not from the dropped client's history). */
    method Refresh()
      requires Valid()
      modifies this, settings
      ensures Valid() && baseLLM == old(baseLLM) && fresh(ClientObjects())
      ensures !llm.NoClient? ==> Conversation() == manager.sessions[sessionId]
      ensures KindOf(llm) == KindFor(baseLLM)
      ensures settings.modelName == if Contains(baseLLM, "llama") then baseLLM else old(settings.modelName)
    {
      llm := NoClient;
      InitBaseLLM(baseLLM);
    }

    /** `self.llm.prompt(p)` against the next scripted reply. */
    method SendPrompt(p: string, endpoint: Endpoint) returns (r: Run<Answer>)
      requires Valid()
      modifies endpoint, ClientObjects()
      ensures Valid()
      ensures r == SendOutcome(KindOf(llm), old(endpoint.replies))
      ensures endpoint.replies == Unread(KindOf(llm), old(endpoint.replies))
      ensures Conversation() == old(Conversation()) + Added(KindOf(llm), p, old(endpoint.replies))
    {
      if llm.NoClient? {
        return Raised;
      }
      if endpoint.replies == [] {
        return OutOfScript;
      }
      var body := endpoint.replies[0];
      endpoint.replies := endpoint.replies[1..];
      match llm
      case GeminiClient(g) =>
        var _, a := g.Prompt(p, body);
        r := Done(a);
      case OllamaClient(o) =>
        var _, a := o.Prompt(p, body);
        r := if a.Raises? then Raised else Done(a.value);
    }

    /** The collaborators every processor this agent builds is wired with. */
    function Env(describer: Describer): Services {
      Services(db, generator, describer, manager.prompts)
    }

    /** One round of `exec`: a fresh `Processor` over the agent's session
        data handles one answer. */
    method ProcessAnswer(answer: Answer, loads: string -> Option<Directive>, describer: Describer)
      returns (reply: Outcome<string>)
      requires Valid()
      modifies sessionData
      ensures Valid() && Conversation() == old(Conversation())
      ensures Step(reply, sessionData.View()) == ProcessStep(answer, loads, old(sessionData.View()), Env(describer))
    {
      ghost var before := sessionData.View();
      var env := Env(describer);
      var processor := new Processor(sessionData, env);
      reply := processor.Process(answer, loads);
      assert Step(reply, sessionData.View()) == ProcessStep(answer, loads, before, env);
    }

    /** `exec`: sends the prompt, then hands each answer to a processor and
        sends its reply back, until the reply is "EXIT" or "REFRESH". */
    method ExecTurn(userPrompt: string, endpoint: Endpoint, loads: string -> Option<Directive>, describer: Describer,
                    ghost proc: Handler)
      returns (r: Run<string>)
      requires Valid() && Processes(proc, loads, Env(describer))
      modifies sessionData, endpoint, ClientObjects()
      ensures Valid()
      ensures var t := Talk(KindOf(llm), userPrompt, old(endpoint.replies), proc, old(sessionData.View()),
                            old(Conversation()));
              r == t.outcome && sessionData.View() == t.data && endpoint.replies == t.rest && Conversation() == t.history
    {
      var sent, first := Relay(userPrompt, endpoint, proc);
      if !sent.Done? {
        return sent;
      }
      r := Converse(first, endpoint, loads, describer, proc);
    }

    /** `self.llm.prompt(p)` inside `exec`: when the LLM answers, `exec`
        goes on with that answer (`Done`); otherwise the call's exception,
        or the end of the script, ends `exec`. */
    method Relay(p: string, endpoint: Endpoint, ghost proc: Handler) returns (r: Run<string>, next: Answer)
      requires Valid()
      modifies endpoint, ClientObjects()
      ensures Valid()
      ensures var t := Talk(KindOf(llm), p, old(endpoint.replies), proc, sessionData.View(), old(Conversation()));
              if r.Done? then
                |endpoint.replies| < |old(endpoint.replies)| &&
                t == Answered(KindOf(llm), next, endpoint.replies, proc, sessionData.View(), Conversation())
              else
                r == t.outcome && sessionData.View() == t.data && endpoint.replies == t.rest && Conversation() == t.history
    {
      next := Text(p);
      var sent := SendPrompt(p, endpoint);
      match sent
      case Done(a) =>
        r, next := Done(""), a;
      case Raised =>
        r := Raised;
      case OutOfScript =>
        r := OutOfScript;
    }

    /** The `while True` loop of `exec`, from the first answer on. */
    method Converse(answer: Answer, endpoint: Endpoint, loads: string -> Option<Directive>, describer: Describer,
                    ghost proc: Handler)
      returns (r: Run<string>)
      requires Valid() && Processes(proc, loads, Env(describer))
      modifies sessionData, endpoint, ClientObjects()
      ensures Valid()
      ensures var t := Answered(KindOf(llm), answer, old(endpoint.replies), proc, old(sessionData.View()),
                                old(Conversation()));
              r == t.outcome && sessionData.View() == t.data && endpoint.replies == t.rest && Conversation() == t.history
    {
      var current := answer;
      while true
        invariant Valid()
        invariant Answered(KindOf(llm), answer, old(endpoint.replies), proc, old(sessionData.View()), old(Conversation())) ==
                  Answered(KindOf(llm), current, endpoint.replies, proc, sessionData.View(), Conversation())
        decreases |endpoint.replies|
      {
        var more, next, reply := Forward(current, endpoint, loads, describer, proc);
        if !more {
          return reply;
        }
        current := next;
      }
    }

    /** One pass of that loop: a fresh processor handles the answer; a reply
        that does not end `exec` is sent to the LLM, whose answer is next. */
    method Forward(current: Answer, endpoint: Endpoint, loads: string -> Option<Directive>, describer: Describer,
                   ghost proc: Handler)
      returns (more: bool, next: Answer, r: Run<string>)
      requires Valid() && Processes(proc, loads, Env(describer))
      modifies sessionData, endpoint, ClientObjects()
      ensures Valid()
      ensures var t := Answered(KindOf(llm), current, old(endpoint.replies), proc, old(sessionData.View()),
                                old(Conversation()));
              if more then
                |endpoint.replies| < |old(endpoint.replies)| &&
                t == Answered(KindOf(llm), next, endpoint.replies, proc, sessionData.View(), Conversation())
              else
                r == t.outcome && sessionData.View() == t.data && endpoint.replies == t.rest && Conversation() == t.history
    {
      ghost var before := sessionData.View();
      var reply := ProcessAnswer(current, loads, describer);
      more, next, r := Reply(reply, current, endpoint, proc, before);
    }

    /** The rest of that pass, once the processor has replied to `current`
        from the record `before`: "EXIT", "REFRESH" or an exception ends
        `exec`, and any other reply is sent to the LLM. */
    method Reply(reply: Outcome<string>, current: Answer, endpoint: Endpoint, ghost proc: Handler, ghost before: Record)
      returns (more: bool, next: Answer, r: Run<string>)
      requires Valid() && Step(reply, sessionData.View()) == proc(current, before)
      modifies endpoint, ClientObjects()
      ensures Valid()
      ensures var t := Answered(KindOf(llm), current, old(endpoint.replies), proc, before, old(Conversation()));
              if more then
                |endpoint.replies| < |old(endpoint.replies)| &&
                t == Answered(KindOf(llm), next, endpoint.replies, proc, sessionData.View(), Conversation())
              else
                r == t.outcome && sessionData.View() == t.data && endpoint.replies == t.rest && Conversation() == t.history
    {
      more, next, r := false, current, Raised;
      if reply.Raises? {
        return;
      }
      if reply.value == "EXIT" || reply.value == "REFRESH" {
        r := Done(reply.value);
        return;
      }
      var sent;
      sent, next := Relay(reply.value, endpoint, proc);
      more := sent.Done?;
      if !more {
        r := sent;
      }
    }

    /** `Exec`: runs `exec` until it returns "EXIT"; on "REFRESH" it
        rebuilds the client and sends `current_prompt`. On exit the
        session is saved and the turn's outputs are returned. An exception
        escaping the loop skips the save. */
    method Exec(userPrompt: string, endpoint: Endpoint, loads: string -> Option<Directive>, describer: Describer)
      returns (r: Run<(string, string, string, string)>)
      requires Valid()
      modifies this, sessionData, manager, db, endpoint, settings, ClientObjects()
      ensures Valid() && baseLLM == old(baseLLM)
      ensures settings.modelName == old(settings.modelName) || (Contains(baseLLM, "llama") && settings.modelName == baseLLM)
      ensures var x := Turns(KindOf(old(llm)), KindFor(baseLLM), userPrompt, old(endpoint.replies),
                             ProcessorFor(loads, Env(describer)), old(sessionData.View()), old(Conversation()),
                             old(manager.sessions[sessionId]));
              (r.Done? <==> x.last.outcome.Done?) && (r.Raised? <==> x.last.outcome.Raised?) &&
              sessionData.View() == x.last.data && endpoint.replies == x.last.rest &&
              Conversation() == x.last.history
      ensures r.Done? ==> r.value == ReturnData()
      ensures r.Done? ==> !llm.NoClient? && manager.sessions == old(manager.sessions)[sessionId := Conversation()]
      ensures r.Done? ==> db.saves == old(db.saves) + Saved(sessionData.username, sessionId, sessionData.imageDescription, Conversation())
      ensures r.Done? ==> db.histories == if sessionData.imageDescription != "" then old(db.histories)[sessionId := Conversation()]
                                          else old(db.histories)
      ensures !r.Done? ==> manager.sessions == old(manager.sessions) && unchanged(db)
    {
      var last := ExecLoop(userPrompt, endpoint, loads, describer, ProcessorFor(loads, Env(describer)));
      if !last.Done? {
        return if last.Raised? then Raised else OutOfScript;
      }
      var out := ExitTurn();
      r := Done(out);
    }

    /** The `while True` loop of `Exec`, up to the "EXIT" that ends it or
        the exception that escapes it. */
    method ExecLoop(userPrompt: string, endpoint: Endpoint, loads: string -> Option<Directive>, describer: Describer,
                    ghost proc: Handler)
      returns (r: Run<string>)
      requires Valid() && Processes(proc, loads, Env(describer))
      modifies this, sessionData, endpoint, settings, ClientObjects()
      ensures Valid() && baseLLM == old(baseLLM)
      ensures var x := Turns(KindOf(old(llm)), KindFor(baseLLM), userPrompt, old(endpoint.replies), proc,
                             old(sessionData.View()), old(Conversation()), old(manager.sessions[sessionId]));
              r == x.last.outcome && sessionData.View() == x.last.data && endpoint.replies == x.last.rest &&
              Conversation() == x.last.history
      ensures r.Done? ==> !llm.NoClient?
      ensures settings.modelName == old(settings.modelName) || (Contains(baseLLM, "llama") && settings.modelName == baseLLM)
    {
      var prompt := userPrompt;
      ghost var rebuilt := false;
      ghost var first := KindOf(llm);
      ghost var cached := manager.sessions[sessionId];
      while true
        invariant Valid() && baseLLM == old(baseLLM)
        invariant ClientObjects() == old(ClientObjects()) || fresh(ClientObjects())
        invariant settings.modelName == old(settings.modelName) ||
                  (Contains(baseLLM, "llama") && settings.modelName == baseLLM)
        invariant !rebuilt ==> KindOf(llm) == first
        invariant Turns(first, KindFor(baseLLM), userPrompt, old(endpoint.replies), proc, old(sessionData.View()),
                        old(Conversation()), cached) ==
                  Resume(Turns(KindOf(llm), KindFor(baseLLM), prompt, endpoint.replies, proc, sessionData.View(),
                               Conversation(), cached), rebuilt)
        decreases |endpoint.replies|
      {
        var again;
        r, again, prompt := ExecPass(prompt, endpoint, loads, describer, proc, cached);
        if !again {
          return;
        }
        rebuilt := true;
      }
    }

    /** One pass of `Exec`'s loop: `exec(prompt)`, and after "REFRESH" a
        new client and the record's `current_prompt` as the next prompt. */
    method ExecPass(prompt: string, endpoint: Endpoint, loads: string -> Option<Directive>, describer: Describer,
                    ghost proc: Handler, ghost cached: seq<Message>)
      returns (r: Run<string>, again: bool, next: string)
      requires Valid() && Processes(proc, loads, Env(describer)) && cached == manager.sessions[sessionId]
      modifies this, sessionData, endpoint, settings, ClientObjects()
      ensures Valid() && baseLLM == old(baseLLM)
      ensures ClientObjects() == old(ClientObjects()) || fresh(ClientObjects())
      ensures settings.modelName == if again && Contains(baseLLM, "llama") then baseLLM else old(settings.modelName)
      ensures var x := Turns(KindOf(old(llm)), KindFor(baseLLM), prompt, old(endpoint.replies), proc,
                             old(sessionData.View()), old(Conversation()), cached);
              if again then
                |endpoint.replies| < |old(endpoint.replies)| && KindOf(llm) == KindFor(baseLLM) &&
                x == Resume(Turns(KindOf(llm), KindFor(baseLLM), next, endpoint.replies, proc, sessionData.View(),
                                  Conversation(), cached), true)
              else
                llm == old(llm) && r == x.last.outcome && !x.rebuilt &&
                sessionData.View() == x.last.data && endpoint.replies == x.last.rest && Conversation() == x.last.history
    {
      r := ExecTurn(prompt, endpoint, loads, describer, proc);
      again, next := r == Done("REFRESH"), prompt;
      if again {
        Refresh();
        next := sessionData.currentPrompt;
        if llm.NoClient? {
          NoClientHistory(KindFor(baseLLM), next, endpoint.replies, proc, sessionData.View(), cached);
        }
      }
    }

    /** `EXIT`: saves the session, then returns the turn's outputs. */
    method ExitTurn() returns (out: (string, string, string, string))
      requires Valid() && !llm.NoClient?
      modifies manager, db
      ensures Valid()
      ensures out == ReturnData()
      ensures manager.sessions == old(manager.sessions)[sessionId := Conversation()]
      ensures db.saves == old(db.saves) + Saved(sessionData.username, sessionId, sessionData.imageDescription, Conversation())
      ensures db.histories == if sessionData.imageDescription != "" then old(db.histories)[sessionId := Conversation()]
                              else old(db.histories)
    {
      SaveSession();
      out := ReturnData();
    }

    /** `return_data`: (`message`, `IMAGE`, `OBJECT`, `session_id`). */
    function ReturnData(): (string, string, string, string)
      reads this, sessionData
    {
      (sessionData.message, sessionData.image, sessionData.obj, sessionData.sessionId)
    }

    /** `save_session`: the client's history replaces the cached one; the
        store is called only when an image description was produced, with
        that description as both its description and its summary. */
    method SaveSession()
      requires Valid() && !llm.NoClient?
      modifies manager, db
      ensures Valid()
      ensures manager.sessions == old(manager.sessions)[sessionId := Conversation()]
      ensures db.saves == old(db.saves) + Saved(sessionData.username, sessionId, sessionData.imageDescription, Conversation())
      ensures db.histories == if sessionData.imageDescription != "" then old(db.histories)[sessionId := Conversation()]
                              else old(db.histories)
    {
      var history: seq<Message>;
      if llm.GeminiClient? {
        history := llm.g.GetHistory();
      } else {
        history := llm.o.GetHistory();
      }
      manager.SetSessionHistory(sessionId, history);
      assert manager.sessions == old(manager.sessions)[sessionId := Conversation()];
      var desc := sessionData.imageDescription;
      if desc != "" {
        var _ := manager.SaveSession(sessionData.username, sessionData.sessionId, desc, desc);
      }
      assert manager.sessions == old(manager.sessions)[sessionId := Conversation()];
    }
  }

  /** None of `replies` ends `exec`. */
  predicate ForwardedOnly(replies: seq<string>) {
    forall i :: 0 <= i < |replies| ==> !EndsExec(replies[i])
  }

  /** The text of `m` if the user sent it. */
  function UserText(m: Message): seq<string> {
    if m.role == "user" then [m.content] else []
  }

  /** The texts of the user messages among `ms`: the prompts sent. */
  function UserTexts(ms: seq<Message>): (ps: seq<string>)
    ensures |ps| <= |ms|
  {
    if ms == [] then [] else UserText(ms[0]) + UserTexts(ms[1..])
  }

  lemma {:induction false} UserTextsAppend(a: seq<Message>, b: seq<Message>)
    ensures UserTexts(a + b) == UserTexts(a) + UserTexts(b)
    decreases |a|
  {
    if a == [] {
      assert a + b == b;
    } else {
      assert (a + b)[0] == a[0] && (a + b)[1..] == a[1..] + b;
      UserTextsAppend(a[1..], b);
      assert UserTexts(a + b) == UserText(a[0]) + (UserTexts(a[1..]) + UserTexts(b));
    }
  }

  /** In a run of `exec`, whatever the processor does, the client's
      history only grows, and what it gains holds one user message per
      vendor reply read: first the prompt `exec` was given, then processor
      replies that did not end `exec`. With no client nothing is read and
      there is no history. */
  lemma {:induction false} TalkPrompts(k: Kind, prompt: string, script: seq<ResponseBody>, proc: Handler,
                                       sd: Record, h: seq<Message>)
    ensures var t := Talk(k, prompt, script, proc, sd, h);
            if k == NoLLM then t.history == [] && t.rest == script
            else
              h <= t.history &&
              var ps := UserTexts(t.history[|h|..]);
              |ps| == |script| - |t.rest| &&
              (ps != [] ==> ps[0] == prompt && ForwardedOnly(ps[1..]))
    decreases |script|, 1
  {
    if k != NoLLM {
      var t := Talk(k, prompt, script, proc, sd, h);
      var ex := Added(k, prompt, script);
      if script == [] {
        assert t.history[|h|..] == [] by {
          assert t.history == h + ex && ex == [];
        }
      } else {
        if SendOutcome(k, script).Done? {
          FirstAnswerPrompts(k, prompt, script, proc, sd, h);
        } else {
          Gained(h, ex, [], prompt);
        }
      }
    }
  }

  /** `TalkPrompts` when the LLM answers the prompt: the prompt, then what
      `exec` sends from that answer on. */
  lemma {:induction false} FirstAnswerPrompts(k: Kind, prompt: string, script: seq<ResponseBody>, proc: Handler,
                                              sd: Record, h: seq<Message>)
    requires k != NoLLM && SendOutcome(k, script).Done?
    ensures var t := Talk(k, prompt, script, proc, sd, h);
            h <= t.history &&
            var ps := UserTexts(t.history[|h|..]);
            |ps| == |script| - |t.rest| && ps != [] && ps[0] == prompt && ForwardedOnly(ps[1..])
    decreases |script|, 0
  {
    var ex := Added(k, prompt, script);
    var next := h + ex;
    var u := Answered(k, SendOutcome(k, script).value, script[1..], proc, sd, next);
    assert Talk(k, prompt, script, proc, sd, h) == u;
    AnsweredPrompts(k, SendOutcome(k, script).value, script[1..], proc, sd, next);
    Gained(h, ex, u.history[|next|..], prompt);
  }

  /** From an answer on, `exec` sends only processor replies that did not
      end it, and the LLM reads one scripted reply for each. */
  lemma {:induction false} AnsweredPrompts(k: Kind, answer: Answer, script: seq<ResponseBody>, proc: Handler,
                                           sd: Record, h: seq<Message>)
    ensures var t := Answered(k, answer, script, proc, sd, h);
            k != NoLLM ==>
              h <= t.history &&
              var ps := UserTexts(t.history[|h|..]);
              |ps| == |script| - |t.rest| && ForwardedOnly(ps)
    decreases |script|, 2
  {
    if k != NoLLM {
      var t := Answered(k, answer, script, proc, sd, h);
      var s := proc(answer, sd);
      if s.reply.Returns? && !EndsExec(s.reply.value) {
        assert t == Talk(k, s.reply.value, script, proc, s.data, h);
        TalkPrompts(k, s.reply.value, script, proc, s.data, h);
        var ps := UserTexts(t.history[|h|..]);
        assert ps != [] ==> ps == [ps[0]] + ps[1..];
      } else {
        assert t.history == h;
        assert t.history[|h|..] == [];
      }
    }
  }

  /** `exec` leaves `current_prompt` as it found it, since no processor
      sets it. So the prompt `Exec` re-sends after "REFRESH" is the one the
      record started with: "" for the fresh record of a new agent. */
  lemma {:induction false} TalkKeepsCurrentPrompt(k: Kind, prompt: string, script: seq<ResponseBody>, proc: Handler,
                                                  sd: Record, h: seq<Message>,
                                                  loads: string -> Option<Directive>, env: Services)
    requires Processes(proc, loads, env)
    ensures Talk(k, prompt, script, proc, sd, h).data.currentPrompt == sd.currentPrompt
    decreases |script|, 0
  {
    var a := SendOutcome(k, script);
    if a.Done? {
      var sent := if k == NoLLM then [] else h + Added(k, prompt, script);
      AnsweredKeepsCurrentPrompt(k, a.value, Unread(k, script), proc, sd, sent, loads, env);
    }
  }

  /** The same from an answer on. */
  lemma {:induction false} AnsweredKeepsCurrentPrompt(k: Kind, answer: Answer, script: seq<ResponseBody>, proc: Handler,
                                                      sd: Record, h: seq<Message>,
                                                      loads: string -> Option<Directive>, env: Services)
    requires Processes(proc, loads, env)
    ensures Answered(k, answer, script, proc, sd, h).data.currentPrompt == sd.currentPrompt
    decreases |script|, 1
  {
    ProcessKeepsCurrentPrompt(answer, loads, sd, env);
    var s := proc(answer, sd);
    if s.reply.Returns? && !EndsExec(s.reply.value) {
      TalkKeepsCurrentPrompt(k, s.reply.value, script, proc, s.data, h, loads, env);
    }
  }

  /** A history `h` extended by a prompt's exchange `ex` and then by `more`
      gains the prompt, then the user texts of `more`. */
  lemma Gained(h: seq<Message>, ex: seq<Message>, more: seq<Message>, prompt: string)
    requires |ex| > 0 && ex[0] == Message("user", prompt)
    requires |ex| == 1 || (|ex| == 2 && ex[1].role != "user")
    ensures (h + ex + more)[|h|..] == ex + more
    ensures UserTexts(ex + more) == [prompt] + UserTexts(more)
  {
    assert (h + ex + more)[|h|..] == ex + more;
    assert UserTexts(ex) == [prompt] by {
      assert ex[1..] == [] || (ex[1..] == [ex[1]] && ex[1].role != "user");
    }
    UserTextsAppend(ex, more);
  }

  /** A text shorter than the searched one does not contain it. */
  lemma {:induction false} ShortNotContains(s: string, sub: string)
    requires |s| < |sub|
    ensures !Contains(s, sub)
    decreases |s|
  {
    if |s| > 0 {
      ShortNotContains(s[1..], sub);
    }
  }

  /** "gemini" does not contain "llama", so the two client kinds never both apply. */
  lemma GeminiIsNoLlama()
    ensures !Contains("gemini", "llama")
  {
    assert "gemini"[0] != "llama"[0] && "gemini"[1..] == "emini";
    assert "emini"[0] != "llama"[0] && "emini"[1..] == "mini";
    ShortNotContains("mini", "llama");
  }

  /** The store calls `save_session` makes: one exactly when the image
      description is non-empty. */
  function Saved(username: string, sessionId: string, desc: string, history: seq<Message>): (s: seq<SaveCall>)
    ensures |s| == (if desc != "" then 1 else 0)
    ensures desc != "" ==> s[0].imageDesc == desc && s[0].summary == desc && s[0].history == history
  {
    if desc != "" then [SaveCall(username, sessionId, desc, history, desc)] else []
  }
}
