/** `LLM/Gemini.py`: the Gemini client keeps its history in Gemini's own
    turn format, `{role, parts: [{text}]}`, and converts it back to
    `{role, content}` messages on request. */
module Gemini {
  import opened Wrappers
  import opened Llm

  datatype Part = Part(text: string)
  datatype Turn = Turn(role: string, parts: seq<Part>)

  /** The Gemini turn one message becomes. */
  function ToTurn(m: Message): Turn {
    Turn(m.role, [Part(m.content)])
  }

  /** The message read back from a turn: its role and its first part's text. */
  function FromTurn(t: Turn): Message
    requires |t.parts| > 0
  {
    Message(t.role, t.parts[0].text)
  }

  /** Every turn has a first part, so `item["parts"][0]` never fails. */
  ghost predicate Readable(ts: seq<Turn>) {
    forall i :: 0 <= i < |ts| ==> |ts[i].parts| > 0
  }

  /** The conversion of a whole message list, order and length kept. */
  function ToTurns(h: seq<Message>): (r: seq<Turn>)
    ensures |r| == |h| && Readable(r)
    ensures forall i :: 0 <= i < |h| ==> r[i] == ToTurn(h[i])
  {
    if h == [] then [] else [ToTurn(h[0])] + ToTurns(h[1..])
  }

  /** The conversion back, order and length kept. */
  function FromTurns(ts: seq<Turn>): (r: seq<Message>)
    requires Readable(ts)
    ensures |r| == |ts|
    ensures forall i :: 0 <= i < |ts| ==> r[i] == FromTurn(ts[i])
  {
    if ts == [] then [] else [FromTurn(ts[0])] + FromTurns(ts[1..])
  }

  /** Converting a history to Gemini turns and back gives the same history. */
  lemma {:induction false} RoundTrip(h: seq<Message>)
    ensures FromTurns(ToTurns(h)) == h
  {
    if h != [] {
      RoundTrip(h[1..]);
      assert ToTurns(h)[1..] == ToTurns(h[1..]);
    }
  }

  /** The user turn a prompt text becomes. */
  function UserTurn(text: string): Turn {
    Turn("user", [Part(text)])
  }

  class GeminiLLM {
    var history: seq<Turn>

    ghost predicate Valid()
      reads this
    {
      Readable(history)
    }

    /** The client's history as messages, the value `get_history` returns. */
    ghost function Messages(): seq<Message>
      reads this
      requires Valid()
    {
      FromTurns(history)
    }

    /** `__init__`: converts each message into a fresh history list. */
    constructor (h: seq<Message>)
      ensures Valid() && history == ToTurns(h)
      ensures Messages() == h
    {
      history := [];
      new;
      var i := 0;
      while i < |h|
        invariant 0 <= i <= |h|
        invariant |history| == i
        invariant forall k :: 0 <= k < i ==> history[k] == ToTurn(h[k])
      {
        history := history + [ToTurn(h[i])];
        i := i + 1;
      }
      RoundTrip(h);
    }

    /** `generate_content`: sends one user turn per prompt, on a list of
        its own; a reply without text raises. The history is not touched. */
    method GenerateContent(prompts: seq<string>, body: ResponseBody)
      returns (sent: seq<Turn>, r: Outcome<string>)
      ensures |sent| == |prompts|
      ensures forall i :: 0 <= i < |prompts| ==> sent[i] == UserTurn(prompts[i])
      ensures r == if body.Reply? then Returns(body.text) else Raises
    {
      sent := [];
      var i := 0;
      while i < |prompts|
        invariant 0 <= i <= |prompts|
        invariant |sent| == i
        invariant forall k :: 0 <= k < i ==> sent[k] == UserTurn(prompts[k])
      {
        sent := sent + [UserTurn(prompts[i])];
        i := i + 1;
      }
      r := if body.Reply? then Returns(body.text) else Raises;
    }

    /** `prompt`: appends the user turn, sends the whole history (`sent`),
        and on a reply with text appends a "model" turn and returns the
        text; any other reply is returned raw after the user turn alone. */
    method Prompt(prompt: string, body: ResponseBody) returns (sent: seq<Turn>, a: Answer)
      requires Valid()
      modifies this
      ensures Valid()
      ensures sent == old(history) + [UserTurn(prompt)]
      ensures body.Reply? ==>
                a == Text(body.text) &&
                history == old(history) + [UserTurn(prompt), Turn("model", [Part(body.text)])]
      ensures !body.Reply? ==>
                a == RawObject(body.raw) &&
                history == old(history) + [UserTurn(prompt)]
      ensures Messages() == old(Messages()) + [Message("user", prompt)]
        + (if body.Reply? then [Message("model", body.text)] else [])
    {
      ghost var before := history;
      ghost var added: seq<Turn>;
      history := history + [UserTurn(prompt)];
      sent := history;
      if body.Reply? {
        history := history + [Turn("model", [Part(body.text)])];
        a := Text(body.text);
        added := [UserTurn(prompt), Turn("model", [Part(body.text)])];
      } else {
        a := RawObject(body.raw);
        added := [UserTurn(prompt)];
      }
      assert history == before + added;
      ReadableAppend(before, added);
      FromTurnsAppend(before, added);
    }

    /** `get_history`: a fresh list with one message per turn. */
    method GetHistory() returns (h: seq<Message>)
      requires Valid()
      ensures h == Messages()
    {
      h := [];
      var i := 0;
      while i < |history|
        invariant 0 <= i <= |history|
        invariant |h| == i
        invariant forall k :: 0 <= k < i ==> h[k] == FromTurn(history[k])
      {
        h := h + [FromTurn(history[i])];
        i := i + 1;
      }
    }
  }

  /** Appending readable turns keeps a history readable. */
  lemma ReadableAppend(ts: seq<Turn>, more: seq<Turn>)
    requires Readable(ts) && Readable(more)
    ensures Readable(ts + more)
  {
    forall i | 0 <= i < |ts + more| ensures |(ts + more)[i].parts| > 0 {
      if i >= |ts| {
        assert (ts + more)[i] == more[i - |ts|];
      }
    }
  }

  /** Reading back a history that was extended reads back the old part unchanged. */
  lemma {:induction false} FromTurnsAppend(ts: seq<Turn>, more: seq<Turn>)
    requires Readable(ts + more)
    ensures Readable(ts) && Readable(more)
    ensures FromTurns(ts + more) == FromTurns(ts) + FromTurns(more)
    decreases |ts|
  {
    var r := ts + more;
    forall i | 0 <= i < |more| ensures |more[i].parts| > 0 {
      assert more[i] == r[|ts| + i];
    }
    if ts == [] {
      assert r == more;
    } else {
      assert r[1..] == ts[1..] + more;
      FromTurnsAppend(ts[1..], more);
    }
  }
}
