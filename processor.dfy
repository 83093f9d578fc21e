/** `Processor.py`: unwraps the LLM's fenced JSON directive, maps its
    `state` to one of five intents and runs that intent's handler, which
    updates the shared `SessionData` and answers with a sentinel string or
    with the text to send back to the LLM. */
module Processor {
  import opened Wrappers
  import opened Llm
  import opened Collaborators
  import opened Sessions

  /** `remove_prefix`: drops one leading `prefix` when it is non-empty and present. */
  function RemovePrefix(s: string, prefix: string): (r: string)
    ensures prefix != "" && StartsWith(s, prefix) ==> s == prefix + r
    ensures !(prefix != "" && StartsWith(s, prefix)) ==> r == s
    ensures |s| - |prefix| <= |r| <= |s| && r == s[|s| - |r|..]
  {
    if prefix != "" && StartsWith(s, prefix) then s[|prefix|..] else s
  }

  /** `remove_suffix`: drops one trailing `suffix` when it is non-empty and present. */
  function RemoveSuffix(s: string, suffix: string): (r: string)
    ensures suffix != "" && EndsWith(s, suffix) ==> s == r + suffix
    ensures !(suffix != "" && EndsWith(s, suffix)) ==> r == s
    ensures |s| - |suffix| <= |r| <= |s| && r == s[..|r|]
  {
    if suffix != "" && EndsWith(s, suffix) then s[..|s| - |suffix|] else s
  }

  const FenceOpenLine: string := "```json\n"
  const FenceOpen: string := "```json"
  const FenceCloseLine: string := "```\n"
  const FenceClose: string := "```"

  /** `remove_prefix` with each of `ps` in turn. */
  function RemovePrefixes(s: string, ps: seq<string>): (r: string)
    decreases |ps|
  {
    if ps == [] then s else RemovePrefixes(RemovePrefix(s, ps[0]), ps[1..])
  }

  /** `remove_suffix` with each of `ps` in turn. */
  function RemoveSuffixes(s: string, ps: seq<string>): (r: string)
    decreases |ps|
  {
    if ps == [] then s else RemoveSuffixes(RemoveSuffix(s, ps[0]), ps[1..])
  }

  /** The text `preprocess` hands to `json.loads`: both opening markers,
      then both closing markers, each removed at most once, in this order.
      What is left is a stretch of the answer that lost at most fifteen
      characters at the front and seven at the back. */
  function Unwrap(resp: string): (r: string)
    ensures exists i, j :: 0 <= i <= 15 && |resp| - 7 <= j <= |resp| && i <= j && r == resp[i..j]
  {
    var inner := RemovePrefixes(resp, [FenceOpenLine, FenceOpen]);
    var r := RemoveSuffixes(inner, [FenceCloseLine, FenceClose]);
    TrimsStretch(resp, inner, r);
    assert r == resp[|resp| - |inner|..|resp| - |inner| + |r|];
    r
  }

  /** The two trims keep the stretch of the answer that starts where the
      opening markers end: within its first fifteen characters, and ending
      within its last seven. */
  lemma TrimsStretch(resp: string, inner: string, r: string)
    requires inner == RemovePrefixes(resp, [FenceOpenLine, FenceOpen])
    requires r == RemoveSuffixes(inner, [FenceCloseLine, FenceClose])
    ensures |r| <= |inner| <= |resp| && |resp| - |inner| <= 15 && |resp| - 7 <= |resp| - |inner| + |r|
    ensures r == resp[|resp| - |inner|..|resp| - |inner| + |r|]
  {
    Trims(resp);
    RemovalsStretch(resp, RemovePrefix(resp, FenceOpenLine), inner, RemoveSuffix(inner, FenceCloseLine), r);
  }

  /** The same, one removal at a time. */
  lemma RemovalsStretch(resp: string, x: string, inner: string, y: string, r: string)
    requires x == RemovePrefix(resp, FenceOpenLine) && inner == RemovePrefix(x, FenceOpen)
    requires y == RemoveSuffix(inner, FenceCloseLine) && r == RemoveSuffix(y, FenceClose)
    ensures |r| <= |inner| <= |resp| && |resp| - |inner| <= 15 && |resp| - 7 <= |resp| - |inner| + |r|
    ensures r == resp[|resp| - |inner|..|resp| - |inner| + |r|]
  {
    BackOfBack(resp, x, inner);
    FrontOfFront(inner, y, r);
    Stretch(resp, inner, r);
  }

  /** A back part of a back part of `s` is a back part of `s`. */
  lemma BackOfBack(s: string, x: string, y: string)
    requires |x| <= |s| && x == s[|s| - |x|..]
    requires |y| <= |x| && y == x[|x| - |y|..]
    ensures y == s[|s| - |y|..]
  {
  }

  /** A front part of a front part of `s` is a front part of `s`. */
  lemma FrontOfFront(s: string, x: string, y: string)
    requires |x| <= |s| && x == s[..|x|]
    requires |y| <= |x| && y == x[..|y|]
    ensures y == s[..|y|]
  {
  }

  /** A front part of a back part of `s` is a stretch of `s`. */
  lemma Stretch(s: string, back: string, front: string)
    requires |back| <= |s| && back == s[|s| - |back|..]
    requires |front| <= |back| && front == back[..|front|]
    ensures s[|s| - |back|..|s| - |back| + |front|] == front
  {
  }

  /** The two trims are the four removals of `preprocess`, one after another. */
  lemma Trims(resp: string)
    ensures RemovePrefixes(resp, [FenceOpenLine, FenceOpen]) == RemovePrefix(RemovePrefix(resp, FenceOpenLine), FenceOpen)
    ensures var inner := RemovePrefixes(resp, [FenceOpenLine, FenceOpen]);
            RemoveSuffixes(inner, [FenceCloseLine, FenceClose]) == RemoveSuffix(RemoveSuffix(inner, FenceCloseLine), FenceClose)
  {
    var x := RemovePrefix(resp, FenceOpenLine);
    assert [FenceOpenLine, FenceOpen][1..] == [FenceOpen];
    assert RemovePrefixes(resp, [FenceOpenLine, FenceOpen]) == RemovePrefixes(x, [FenceOpen]);
    assert RemovePrefixes(x, [FenceOpen]) == RemovePrefixes(RemovePrefix(x, FenceOpen), []);
    var inner := RemovePrefixes(resp, [FenceOpenLine, FenceOpen]);
    var y := RemoveSuffix(inner, FenceCloseLine);
    assert [FenceCloseLine, FenceClose][1..] == [FenceClose];
    assert RemoveSuffixes(inner, [FenceCloseLine, FenceClose]) == RemoveSuffixes(y, [FenceClose]);
    assert RemoveSuffixes(y, [FenceClose]) == RemoveSuffixes(RemoveSuffix(y, FenceClose), []);
  }

  /** `Unwrap` is the four removals of `preprocess`, one after another. */
  lemma UnwrapSteps(resp: string)
    ensures Unwrap(resp) == RemoveSuffix(RemoveSuffix(RemovePrefix(RemovePrefix(resp, FenceOpenLine), FenceOpen),
                                                      FenceCloseLine), FenceClose)
  {
    Trims(resp);
  }

  /** A payload the unwrapping leaves intact: it neither opens with a line
      break or an opening marker nor closes with a closing marker. */
  predicate Plain(p: string) {
    !StartsWith(p, "\n") && !StartsWith(p, FenceOpen) && !EndsWith(p, FenceClose)
  }

  /** Text opening with a marker and a line break opens with the marker. */
  lemma OpenLineOpens(s: string)
    ensures StartsWith(s, FenceOpenLine) ==> StartsWith(s, FenceOpen)
  {
    if StartsWith(s, FenceOpenLine) {
      assert s[..|FenceOpen|] == s[..|FenceOpenLine|][..|FenceOpen|];
    }
  }

  /** A closing marker after a plain payload never reads as an opening marker. */
  lemma ClosedPayloadNotOpened(p: string, close: string)
    requires Plain(p) && (close == FenceClose || close == FenceCloseLine)
    ensures !StartsWith(p + close, FenceOpen)
  {
    // a position where the text and the marker differ (a payload of
    // fewer than three characters leaves the text too short)
    var s := p + close;
    if |p| >= 7 {
      assert s[..7] == p[..7];
    } else if |p| >= 3 && |s| >= 7 {
      assert s[|p|] == close[0] == '`' != FenceOpen[|p|];
      assert s[..7][|p|] != FenceOpen[|p|];
    }
  }

  /** Both opening forms of a plain payload lose exactly their marker. */
  lemma UnwrapOpening(p: string, open: string, close: string)
    requires Plain(p)
    requires open == FenceOpenLine || open == FenceOpen
    requires close == FenceClose || close == FenceCloseLine
    ensures RemovePrefix(RemovePrefix(open + p + close, FenceOpenLine), FenceOpen) == p + close
  {
    var s := open + p + close;
    ClosedPayloadNotOpened(p, close);
    OpenLineOpens(p + close);
    if open == FenceOpenLine {
      assert s[..|FenceOpenLine|] == FenceOpenLine;
      assert s[|FenceOpenLine|..] == p + close;
      assert RemovePrefix(s, FenceOpenLine) == p + close;
    } else {
      assert s[|FenceOpen|..] == p + close;
      // the character after the marker is the payload's first, or a backquote
      if |p| > 0 {
        assert p[..1] != "\n" && p[..1] == [p[0]];
        assert s[7] == p[0] != '\n';
      } else {
        assert s[7] == close[0] == '`';
      }
      assert s[..8][7] != FenceOpenLine[7];
      assert RemovePrefix(s, FenceOpenLine) == s;
      assert s[..|FenceOpen|] == FenceOpen;
      assert RemovePrefix(s, FenceOpen) == p + close;
    }
  }

  /** Both closing forms after a plain payload lose exactly their marker. */
  lemma UnwrapClosing(p: string, close: string)
    requires Plain(p)
    requires close == FenceClose || close == FenceCloseLine
    ensures RemoveSuffix(RemoveSuffix(p + close, FenceCloseLine), FenceClose) == p
  {
    var t := p + close;
    assert t[..|p|] == p;
    if close == FenceCloseLine {
      assert t[|t| - |FenceCloseLine|..] == FenceCloseLine;
      assert RemoveSuffix(t, FenceCloseLine) == p;
    } else {
      assert t[|t| - 1] == '`';
      assert !EndsWith(t, FenceCloseLine);
      assert t[|t| - |FenceClose|..] == FenceClose;
      assert RemoveSuffix(t, FenceClose) == p;
    }
  }

  /** Each of the four fenced forms of a plain payload, with or without a
      line break after either marker, unwraps to exactly the payload. */
  lemma {:induction false} UnwrapFenced(p: string)
    requires Plain(p)
    ensures Unwrap(FenceOpenLine + p + FenceClose) == p
    ensures Unwrap(FenceOpen + p + FenceClose) == p
    ensures Unwrap(FenceOpenLine + p + FenceCloseLine) == p
    ensures Unwrap(FenceOpen + p + FenceCloseLine) == p
  {
    UnwrapSteps(FenceOpenLine + p + FenceClose);
    UnwrapSteps(FenceOpen + p + FenceClose);
    UnwrapSteps(FenceOpenLine + p + FenceCloseLine);
    UnwrapSteps(FenceOpen + p + FenceCloseLine);
    UnwrapOpening(p, FenceOpenLine, FenceClose);
    UnwrapOpening(p, FenceOpen, FenceClose);
    UnwrapOpening(p, FenceOpenLine, FenceCloseLine);
    UnwrapOpening(p, FenceOpen, FenceCloseLine);
    UnwrapClosing(p, FenceClose);
    UnwrapClosing(p, FenceCloseLine);
  }

  /** An unfenced plain payload that does not end with a closing marker and
      a line break also unwraps to itself. */
  lemma UnwrapBare(p: string)
    requires Plain(p) && !EndsWith(p, FenceCloseLine)
    ensures Unwrap(p) == p
  {
    UnwrapSteps(p);
    OpenLineOpens(p);
  }

  /** The bare form needs that last condition: a payload ending with a
      closing marker and a line break loses them. */
  lemma UnwrapBareTrailingFence()
    ensures Unwrap("{}```\n") == "{}"
  {
    UnwrapSteps("{}```\n");
    assert !StartsWith("{}```\n", FenceOpenLine);
    assert !StartsWith("{}```\n", FenceOpen);
    assert EndsWith("{}```\n", FenceCloseLine);
    assert !EndsWith("{}", FenceClose);
  }

  /** `Processor.States`. */
  datatype State = Exit | MemRecall | Image | Model | Query

  /** `Processor.States(n)`: `None` where the enum constructor raises. */
  function StateOf(n: int): (s: Option<State>)
    ensures s.Some? <==> 0 <= n <= 4
  {
    if n == 0 then Some(Exit)
    else if n == 1 then Some(MemRecall)
    else if n == 2 then Some(Image)
    else if n == 3 then Some(Model)
    else if n == 4 then Some(Query)
    else None
  }

  /** The integer value of each member of `States`. */
  function Code(s: State): (n: int)
    ensures 0 <= n <= 4
  {
    match s
    case Exit => 0
    case MemRecall => 1
    case Image => 2
    case Model => 3
    case Query => 4
  }

  /** `StateOf` and `Code` are inverse: every member has exactly one value. */
  lemma StateCodes(n: int, s: State)
    ensures StateOf(n) == Some(s) <==> Code(s) == n
  {
  }

  /** The parsed directive, reduced to the fields the handlers read; `None`
      where the lookup raises. `state` is `int(State['state'])`: `None` for a
      missing key, a parsed value that is not an object, or a value `int`
      rejects. `intent` is `State["data"]["intent"]`. */
  datatype Directive = Directive(
    state: Option<int>, summary: Option<string>, intent: Option<string>,
    image: Option<string>, query: Option<string>)

  /** The collaborators a processor is wired with. */
  datatype Services = Services(db: Db, generator: Generator, llm: Describer, prompts: Prompts)

  /** One handler's effect: what it answers and the record it leaves. */
  datatype Step = Step(reply: Outcome<string>, data: Record)

  const Sentinels: set<string> :=
    {"EXIT", "IMAGE GENERATED", "MODEL GENERATED", "FAILED", "WRONG RESPONSE"}

  /** `exit`: stores the summary and ends the turn. */
  function ExitStep(d: Directive, sd: Record): (r: Step)
    ensures r.reply.Raises? <==> d.summary.None?
    ensures r.reply.Raises? ==> r.data == sd
    ensures r.reply.Returns? ==>
              r.reply.value == "EXIT" &&
              r.data == sd.(sumary := if d.summary.value != "" then Some(d.summary.value) else sd.sumary)
  {
    if d.summary.None? then Step(Raises, sd)
    else Step(Returns("EXIT"), Merge(sd, Update(summary := d.summary.value)))
  }

  /** `recall_from_memory`: the description the store finds for the intent
      is stored and sent back as the next prompt. */
  function RecallStep(d: Directive, sd: Record, env: Services): (r: Step)
    ensures r.reply.Returns? <==> d.intent.Some? && env.db.GetImageDescription(d.intent.value).Returns?
    ensures r.reply.Returns? ==> r.reply == env.db.GetImageDescription(d.intent.value)
    ensures r.reply.Returns? ==> r.data == sd.(imageDescription := Keep(sd.imageDescription, r.reply.value))
    ensures r.reply.Raises? ==> r.data == sd
  {
    if d.intent.None? then Step(Raises, sd)
    else match env.db.GetImageDescription(d.intent.value)
      case Raises => Step(Raises, sd)
      case Returns(desc) => Step(Returns(desc), Merge(sd, Update(imageDescription := desc)))
  }

  /** `process_query`: stores the answer text and ends the turn. */
  function QueryStep(d: Directive, sd: Record): (r: Step)
    ensures r.reply.Raises? <==> d.query.None?
    ensures r.reply.Raises? ==> r.data == sd
    ensures r.reply.Returns? ==> r.reply.value == "EXIT" && r.data == sd.(message := Keep(sd.message, d.query.value))
  {
    if d.query.None? then Step(Raises, sd)
    else Step(Returns("EXIT"), Merge(sd, Update(message := d.query.value)))
  }

  /** The description the processor's LLM gives for the directive's image
      intent, `None` when there is no intent or the call raises. */
  function Description(d: Directive, env: Services): Option<string> {
    if d.image.None? then None
    else match env.llm.GenerateContent([env.prompts["ImagePrompt"], d.image.value])
      case Raises => None
      case Returns(desc) => Some(desc)
  }

  /** `generate_image`: a description from the LLM, then an image from the
      generator. The description is stored as soon as it is obtained; any
      failure answers "FAILED" and keeps the image that was stored. */
  function ImageStep(d: Directive, sd: Record, env: Services): (r: Step)
    ensures r.reply == Returns("IMAGE GENERATED") || r.reply == Returns("FAILED")
    ensures var desc := Description(d, env);
            r.reply == Returns("IMAGE GENERATED") <==>
              desc.Some? && env.generator.GenerateImage(desc.value).Returns?
    ensures var desc := Description(d, env);
            r.reply == Returns("IMAGE GENERATED") ==>
              r.data == sd.(imageDescription := Keep(sd.imageDescription, desc.value),
                            image := Keep(sd.image, env.generator.GenerateImage(desc.value).value))
    ensures var desc := Description(d, env);
            r.reply == Returns("FAILED") ==>
              r.data == if desc.Some? then sd.(imageDescription := Keep(sd.imageDescription, desc.value)) else sd
  {
    if d.image.None? then Step(Returns("FAILED"), sd)
    else match env.llm.GenerateContent([env.prompts["ImagePrompt"], d.image.value])
      case Raises => Step(Returns("FAILED"), sd)
      case Returns(desc) =>
        var sd1 := Merge(sd, Update(imageDescription := desc));
        match env.generator.GenerateImage(desc)
        case Raises => Step(Returns("FAILED"), sd1)
        case Returns(img) => Step(Returns("IMAGE GENERATED"), Merge(sd1, Update(image := img)))
  }

  /** `generate_model`: a 3D render of the stored image. */
  function ModelStep(sd: Record, env: Services): (r: Step)
    ensures r.reply == Returns("MODEL GENERATED") <==> env.generator.Generate3dRender(sd.image).Returns?
    ensures r.reply == Returns("MODEL GENERATED") ==>
              r.data == sd.(obj := Keep(sd.obj, env.generator.Generate3dRender(sd.image).value))
    ensures r.reply != Returns("MODEL GENERATED") ==> r == Step(Returns("FAILED"), sd)
  {
    match env.generator.Generate3dRender(sd.image)
    case Raises => Step(Returns("FAILED"), sd)
    case Returns(obj) => Step(Returns("MODEL GENERATED"), Merge(sd, Update(obj := obj)))
  }

  /** The handler `process` runs for each state. */
  function Handle(st: State, d: Directive, sd: Record, env: Services): (r: Step)
    ensures r.reply.Raises? ==> r.data == sd
  {
    match st
    case Exit => ExitStep(d, sd)
    case MemRecall => RecallStep(d, sd, env)
    case Image => ImageStep(d, sd, env)
    case Model => ModelStep(sd, env)
    case Query => QueryStep(d, sd)
  }

  /** `process`: the reply to one LLM answer and the record it leaves.
      `loads` is `json.loads`, `None` where it raises. A raw (non-string)
      answer makes `remove_prefix` raise inside the `try`. */
  function ProcessStep(answer: Answer, loads: string -> Option<Directive>, sd: Record, env: Services): (r: Step)
    ensures r.reply.Raises? ==> r.data == sd
  {
    if answer.RawObject? then Step(Returns("WRONG RESPONSE"), sd)
    else match loads(Unwrap(answer.text))
      case None => Step(Returns("WRONG RESPONSE"), sd)
      case Some(d) =>
        if d.state.None? || StateOf(d.state.value).None? then Step(Raises, sd)
        else Handle(StateOf(d.state.value).value, d, sd, env)
  }

  /** The answers `process` can give: a raise, one of the sentinel strings,
      or the description the store recalled for the directive's intent. */
  lemma {:induction false} ProcessReplies(answer: Answer, loads: string -> Option<Directive>, sd: Record, env: Services)
    ensures var s := ProcessStep(answer, loads, sd, env);
            s.reply.Raises? || s.reply.value in Sentinels ||
            (answer.Text? && loads(Unwrap(answer.text)).Some? &&
             var d := loads(Unwrap(answer.text)).value;
             d.state == Some(1) && d.intent.Some? &&
             env.db.GetImageDescription(d.intent.value) == s.reply)
  {
    if answer.Text? && loads(Unwrap(answer.text)).Some? {
      var d := loads(Unwrap(answer.text)).value;
      if d.state.Some? && StateOf(d.state.value).Some? {
        StateCodes(d.state.value, MemRecall);
        HandleReplies(StateOf(d.state.value).value, d, sd, env);
      }
    }
  }

  /** Every handler answers a sentinel or raises, except a recall, which
      answers the description the store found. */
  lemma HandleReplies(st: State, d: Directive, sd: Record, env: Services)
    ensures var r := Handle(st, d, sd, env);
            r.reply.Raises? || r.reply.value in Sentinels ||
            (st == MemRecall && d.intent.Some? && r.reply == env.db.GetImageDescription(d.intent.value))
  {
    match st
    case Exit =>
    case MemRecall =>
    case Image =>
    case Model =>
    case Query =>
  }

  /** No handler sets `current_prompt`: `process` leaves it as it was. */
  lemma ProcessKeepsCurrentPrompt(answer: Answer, loads: string -> Option<Directive>, sd: Record, env: Services)
    ensures ProcessStep(answer, loads, sd, env).data.currentPrompt == sd.currentPrompt
  {
  }

  /** `process` answers "EXIT" exactly for a well-formed EXIT or QUERY
      directive, or for a recall whose description is itself "EXIT". */
  lemma {:induction false} ProcessEndsTurn(answer: Answer, loads: string -> Option<Directive>, sd: Record, env: Services)
    ensures ProcessStep(answer, loads, sd, env).reply == Returns("EXIT") <==>
            answer.Text? && loads(Unwrap(answer.text)).Some? &&
            var d := loads(Unwrap(answer.text)).value;
            (d.state == Some(0) && d.summary.Some?) ||
            (d.state == Some(4) && d.query.Some?) ||
            (d.state == Some(1) && d.intent.Some? && env.db.GetImageDescription(d.intent.value) == Returns("EXIT"))
  {
    if answer.Text? && loads(Unwrap(answer.text)).Some? {
      var d := loads(Unwrap(answer.text)).value;
      var s := ProcessStep(answer, loads, sd, env);
      if d.state.Some? && StateOf(d.state.value).Some? {
        var st := StateOf(d.state.value).value;
        StateCodes(d.state.value, st);
        match st
        case Exit => assert s == ExitStep(d, sd);
        case MemRecall => assert s == RecallStep(d, sd, env);
        case Image => assert s == ImageStep(d, sd, env);
        case Model => assert s == ModelStep(sd, env);
        case Query => assert s == QueryStep(d, sd);
      }
    }
  }

  /** Text that does not parse answers "WRONG RESPONSE" and leaves the record alone. */
  lemma WrongResponse(answer: Answer, loads: string -> Option<Directive>, sd: Record, env: Services)
    requires answer.RawObject? || loads(Unwrap(answer.text)).None?
    ensures ProcessStep(answer, loads, sd, env) == Step(Returns("WRONG RESPONSE"), sd)
  {
  }

  /** A parsed directive without a state in 0..4 raises; it is not turned
      into "WRONG RESPONSE". */
  lemma UnknownStateRaises(text: string, loads: string -> Option<Directive>, sd: Record, env: Services)
    requires loads(Unwrap(text)).Some?
    requires var st := loads(Unwrap(text)).value.state; st.None? || st.value < 0 || st.value > 4
    ensures ProcessStep(Text(text), loads, sd, env) == Step(Raises, sd)
  {
  }

  /** A well-formed QUERY stores the query as the message and ends the turn. */
  lemma QueryEndsWithMessage(text: string, loads: string -> Option<Directive>, sd: Record, env: Services, q: string)
    requires loads(Unwrap(text)).Some?
    requires var d := loads(Unwrap(text)).value; d.state == Some(4) && d.query == Some(q) && q != ""
    ensures ProcessStep(Text(text), loads, sd, env).reply == Returns("EXIT")
    ensures ProcessStep(Text(text), loads, sd, env).data.message == q
  {
    var d := loads(Unwrap(text)).value;
    assert StateOf(4) == Some(Query);
    assert ProcessStep(Text(text), loads, sd, env) == Handle(Query, d, sd, env);
  }

  /** A recall stores a non-empty description and sends it back. */
  lemma RecallFeedsBack(text: string, loads: string -> Option<Directive>, sd: Record, env: Services, desc: string)
    requires loads(Unwrap(text)).Some?
    requires var d := loads(Unwrap(text)).value;
             d.state == Some(1) && d.intent.Some? && env.db.GetImageDescription(d.intent.value) == Returns(desc)
    requires desc != ""
    ensures ProcessStep(Text(text), loads, sd, env) ==
            Step(Returns(desc), Merge(sd, Update(imageDescription := desc)))
  {
    assert StateOf(1) == Some(MemRecall);
  }

  /** When the generator fails after the description was obtained, IMAGE
      answers "FAILED" but keeps the stored description. */
  lemma ImageFailureKeepsDescription(d: Directive, sd: Record, env: Services, desc: string)
    requires d.image.Some?
    requires env.llm.GenerateContent([env.prompts["ImagePrompt"], d.image.value]) == Returns(desc)
    requires env.generator.GenerateImage(desc).Raises?
    ensures ImageStep(d, sd, env).reply == Returns("FAILED")
    ensures ImageStep(d, sd, env).data.imageDescription == Keep(sd.imageDescription, desc)
    ensures ImageStep(d, sd, env).data.image == sd.image
  {
  }

  /** MODEL renders whatever image is stored at the time. */
  lemma ModelRendersStoredImage(sd: Record, env: Services)
    ensures ModelStep(sd, env).reply ==
            if sd.image in env.generator.renders then Returns("MODEL GENERATED") else Returns("FAILED")
    ensures sd.image in env.generator.renders ==>
            ModelStep(sd, env).data.obj == Keep(sd.obj, env.generator.renders[sd.image])
  {
  }

  /** A processor for one LLM answer; `parsed` is its `State` attribute. */
  class Processor {
    const sessionData: SessionData
    const env: Services
    var parsed: Option<Directive>

    constructor (sessionData: SessionData, env: Services)
      ensures this.sessionData == sessionData && this.env == env && parsed == None
    {
      this.sessionData := sessionData;
      this.env := env;
      parsed := None;
    }

    /** `process`: unwraps and parses the answer, then runs the handler of
        its state. */
    method Process(answer: Answer, loads: string -> Option<Directive>) returns (r: Outcome<string>)
      modifies this, sessionData
      ensures Step(r, sessionData.View()) == ProcessStep(answer, loads, old(sessionData.View()), env)
    {
      if answer.RawObject? {
        return Returns("WRONG RESPONSE");
      }
      var p := loads(Unwrap(answer.text));
      if p.None? {
        return Returns("WRONG RESPONSE");
      }
      parsed := p;
      var d := p.value;
      if d.state.None? || StateOf(d.state.value).None? {
        return Raises;
      }
      match StateOf(d.state.value).value
      case Exit => r := Exit();
      case MemRecall => r := RecallFromMemory();
      case Image => r := GenerateImage();
      case Model => r := GenerateModel();
      case Query => r := ProcessQuery();
    }

    method Exit() returns (r: Outcome<string>)
      requires parsed.Some?
      modifies sessionData
      ensures Step(r, sessionData.View()) == ExitStep(parsed.value, old(sessionData.View()))
    {
      var d := parsed.value;
      if d.summary.None? {
        return Raises;
      }
      sessionData.Set(Update(summary := d.summary.value));
      r := Returns("EXIT");
    }

    method RecallFromMemory() returns (r: Outcome<string>)
      requires parsed.Some?
      modifies sessionData
      ensures Step(r, sessionData.View()) == RecallStep(parsed.value, old(sessionData.View()), env)
    {
      var d := parsed.value;
      if d.intent.None? {
        return Raises;
      }
      var desc := env.db.GetImageDescription(d.intent.value);
      if desc.Raises? {
        return Raises;
      }
      sessionData.Set(Update(imageDescription := desc.value));
      r := desc;
    }

    method ProcessQuery() returns (r: Outcome<string>)
      requires parsed.Some?
      modifies sessionData
      ensures Step(r, sessionData.View()) == QueryStep(parsed.value, old(sessionData.View()))
    {
      var d := parsed.value;
      if d.query.None? {
        return Raises;
      }
      sessionData.Set(Update(message := d.query.value));
      r := Returns("EXIT");
    }

    method GenerateImage() returns (r: Outcome<string>)
      requires parsed.Some?
      modifies sessionData
      ensures Step(r, sessionData.View()) == ImageStep(parsed.value, old(sessionData.View()), env)
    {
      var d := parsed.value;
      if d.image.None? {
        return Returns("FAILED");
      }
      var desc := env.llm.GenerateContent([env.prompts["ImagePrompt"], d.image.value]);
      if desc.Raises? {
        return Returns("FAILED");
      }
      sessionData.Set(Update(imageDescription := desc.value));
      var img := env.generator.GenerateImage(desc.value);
      if img.Raises? {
        return Returns("FAILED");
      }
      sessionData.Set(Update(image := img.value));
      r := Returns("IMAGE GENERATED");
    }

    method GenerateModel() returns (r: Outcome<string>)
      modifies sessionData
      ensures Step(r, sessionData.View()) == ModelStep(old(sessionData.View()), env)
    {
      var obj := env.generator.Generate3dRender(sessionData.image);
      if obj.Raises? {
        return Returns("FAILED");
      }
      sessionData.Set(Update(obj := obj.value));
      r := Returns("MODEL GENERATED");
    }
  }
}
