/** The vendor-neutral vocabulary of `LLM/llm.py`: the message record and
    the two shapes of what a vendor's HTTP endpoint can hand back. */
module Llm {

  /** `LLM.Message`: a `{role, content}` record. Roles are kept as text
      because the clients write "user", "model" and "assistant". */
  datatype Message = Message(role: string, content: string)

  /** The decoded JSON body of a vendor reply, reduced to what a client
      looks at: the reply text where the client expects it, a body where a
      dictionary key on that path is missing (KeyError), or a body whose
      shape breaks the path some other way (TypeError or IndexError). */
  datatype ResponseBody =
    | Reply(text: string)
    | KeyMissing(raw: string)
    | WrongShape(raw: string)

  /** What a client's `prompt` hands back to its caller: the reply text, or
      the raw decoded body, here always a non-string value such as a
      dictionary, which `process` cannot unwrap. */
  datatype Answer = Text(text: string) | RawObject(raw: string)
}
