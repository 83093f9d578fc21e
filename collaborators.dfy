/** The external collaborators of the agent, as scripted oracles: the
    store behind the `DB` interface, the image and 3D generator, the
    stateless text generator the processor's LLM offers, and the prompt
    templates. */
module Collaborators {
  import opened Wrappers
  import opened Llm

  /** The prompt templates, keyed by name; `BasePrompt` and `ImagePrompt`
      are always present. */
  type Prompts = m: map<string, string> | "BasePrompt" in m && "ImagePrompt" in m
    witness map["BasePrompt" := "", "ImagePrompt" := ""]

  /** One call of `DB.save_session`. */
  datatype SaveCall = SaveCall(
    username: string, sessionId: string, imageDesc: string,
    history: seq<Message>, summary: string)

  /** The persistent store behind the `DB` interface. A lookup that finds
      nothing raises, as the store's document lookups do. */
  class Db {
    /** Image description found for an intent (vector search, then document lookup). */
    const imageDescriptions: map<string, string>
    /** Conversation history stored per session id. */
    var histories: map<string, seq<Message>>
    /** Every `save_session` call, in order. */
    var saves: seq<SaveCall>

    constructor (imageDescriptions: map<string, string>, histories: map<string, seq<Message>>)
      ensures this.imageDescriptions == imageDescriptions
      ensures this.histories == histories && saves == []
    {
      this.imageDescriptions := imageDescriptions;
      this.histories := histories;
      saves := [];
    }

    /** `get_image_description(intent=...)`. */
    function GetImageDescription(intent: string): (r: Outcome<string>)
      ensures r.Returns? <==> intent in imageDescriptions
      ensures r.Returns? ==> r.value == imageDescriptions[intent]
    {
      if intent in imageDescriptions then Returns(imageDescriptions[intent]) else Raises
    }

    /** `get_conversation_history(session_id=...)`. */
    function GetConversationHistory(sessionId: string): (r: Outcome<seq<Message>>)
      reads this
      ensures r.Returns? <==> sessionId in histories
      ensures r.Returns? ==> r.value == histories[sessionId]
    {
      if sessionId in histories then Returns(histories[sessionId]) else Raises
    }

    /** `save_session`: the history is upserted under the session id and the call is logged. */
    method SaveSession(call: SaveCall)
      modifies this
      ensures saves == old(saves) + [call]
      ensures histories == old(histories)[call.sessionId := call.history]
    {
      histories := histories[call.sessionId := call.history];
      saves := saves + [call];
    }
  }

  /** The image and 3D generator: a missing entry means the call raised. */
  datatype Generator = Generator(images: map<string, string>, renders: map<string, string>) {
    function GenerateImage(description: string): (r: Outcome<string>)
      ensures r.Returns? <==> description in images
    {
      if description in images then Returns(images[description]) else Raises
    }

    function Generate3dRender(image: string): (r: Outcome<string>)
      ensures r.Returns? <==> image in renders
    {
      if image in renders then Returns(renders[image]) else Raises
    }
  }

  /** The stateless `generate_content` of the LLM the processor uses: the
      reply to each list of prompts; a missing entry means the call raised. */
  datatype Describer = Describer(replies: map<seq<string>, string>) {
    function GenerateContent(prompts: seq<string>): (r: Outcome<string>)
      ensures r.Returns? <==> prompts in replies
    {
      if prompts in replies then Returns(replies[prompts]) else Raises
    }
  }
}
