/** `LLM/Ollama.py`: the Ollama client keeps its history as
    `{role, content}` messages, the same shape it hands back. */
module Ollama {
  import opened Wrappers
  import opened Llm

  /** The model name used when no client has named another one. */
  const DefaultModelName: string := "llama3.2:1b"

  /** `OllamaLLM.MODEL_NAME`, the class-level attribute every client shares. */
  class OllamaSettings {
    var modelName: string

    constructor ()
      ensures modelName == DefaultModelName
    {
      modelName := DefaultModelName;
    }
  }

  /** The request body sent for a list of messages. */
  datatype Payload = Payload(model: string, stream: bool, messages: seq<Message>)

  class OllamaLLM {
    var history: seq<Message>
    const settings: OllamaSettings

    /** `__init__`: a non-empty `MODEL` renames the model for every client;
        the messages are copied one by one into a fresh list. */
    constructor (h: seq<Message>, model: string, settings: OllamaSettings)
      modifies settings
      ensures this.settings == settings
      ensures settings.modelName == if model != "" then model else old(settings.modelName)
      ensures history == h
    {
      this.settings := settings;
      history := [];
      new;
      if model != "" {
        settings.modelName := model;
      }
      var i := 0;
      while i < |h|
        invariant 0 <= i <= |h|
        invariant history == h[..i]
        invariant settings.modelName == if model != "" then model else old(settings.modelName)
      {
        history := history + [Message(h[i].role, h[i].content)];
        i := i + 1;
      }
      assert h[..i] == h;
    }

    /** `generate_content`: one user message per prompt, on a list of its
        own. A missing key returns the raw body; any other malformed body
        raises, since only KeyError is caught. */
    method GenerateContent(prompts: seq<string>, body: ResponseBody)
      returns (sent: Payload, r: Outcome<Answer>)
      ensures sent.model == settings.modelName && !sent.stream
      ensures |sent.messages| == |prompts|
      ensures forall i :: 0 <= i < |prompts| ==> sent.messages[i] == Message("user", prompts[i])
      ensures body.Reply? ==> r == Returns(Text(body.text))
      ensures body.KeyMissing? ==> r == Returns(RawObject(body.raw))
      ensures body.WrongShape? ==> r == Raises
    {
      var hist := seq(|prompts|, i requires 0 <= i < |prompts| => Message("user", prompts[i]));
      sent := Payload(settings.modelName, false, hist);
      match body
      case Reply(t) => r := Returns(Text(t));
      case KeyMissing(raw) => r := Returns(RawObject(raw));
      case WrongShape(_) => r := Raises;
    }

    /** `prompt`: appends the user message and sends the whole history. A
        reply with content appends an "assistant" message and returns the
        content; a missing key returns the raw body; any other malformed
        body raises. Only a reply with content adds a second message. */
    method Prompt(prompt: string, body: ResponseBody) returns (sent: Payload, r: Outcome<Answer>)
      modifies this
      ensures sent == Payload(settings.modelName, false, old(history) + [Message("user", prompt)])
      ensures body.Reply? ==>
                r == Returns(Text(body.text)) &&
                history == old(history) + [Message("user", prompt), Message("assistant", body.text)]
      ensures body.KeyMissing? ==>
                r == Returns(RawObject(body.raw)) && history == old(history) + [Message("user", prompt)]
      ensures body.WrongShape? ==>
                r == Raises && history == old(history) + [Message("user", prompt)]
    {
      history := history + [Message("user", prompt)];
      sent := Payload(settings.modelName, false, history);
      match body
      case Reply(t) =>
        history := history + [Message("assistant", t)];
        r := Returns(Text(t));
      case KeyMissing(raw) => r := Returns(RawObject(raw));
      case WrongShape(_) => r := Raises;
    }

    /** `get_history`: a fresh list holding a copy of each message. */
    function GetHistory(): (h: seq<Message>)
      reads this
      ensures h == history
    {
      seq(|history|, i requires 0 <= i < |history| reads this => Message(history[i].role, history[i].content))
    }
  }

  /** Two clients share the model name: building a client for a named model
      renames the model for a client built earlier. */
  method SharedModelName(s: OllamaSettings, h: seq<Message>) returns (a: OllamaLLM, b: OllamaLLM)
    modifies s
    ensures a.settings == b.settings == s && s.modelName == "llama3.2:3b"
  {
    a := new OllamaLLM(h, "", s);
    b := new OllamaLLM(h, "llama3.2:3b", s);
  }
}
