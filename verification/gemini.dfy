/** The configuration half of the remote-model service wrapper: which model
    and reasoning budget a profile selects, the fixed system instruction,
    and the shape of what a send returns. The SDK itself is not modelled:
    a chat handle is an opaque value and a response stream is given data. */
module Gemini {
  import opened Wrappers
  import opened Types

  /** Reasoning budget of the deep profile; the fast profile gets none. */
  const TutorThinkingBudget: nat := 16384

  /** The profile `createChatSession` uses when called without one. */
  const DefaultModelType: ModelType := Tutor

  /** The tag the instruction asks the remote model to put before its
      suggestion list. */
  const SuggestionsTag: string := "<<SUGGESTIONS>>"

  /** The system instruction, cut at its two mentions of the suggestion tag
      so that the tag is written out on its own below. */
  const InstructionHead: string := @"
You are Tomo (友), a wise, patient, and encouraging AI learning companion. 
Your core purpose is to help users (students and creators) truly understand concepts and innovate, rather than just providing the final answer.
You are a Socratic tutor.

**CORE BEHAVIORS:**

1.  **EXPLAIN YOUR REASONING:** 
    - When providing a solution, be concise first.
    - ALWAYS offer to ""Explain reasoning"" or ""Show steps"" in the suggestions if you haven't already.

2.  **LEARNING MODULES:**
    - If a user asks about a broad topic (e.g., ""Algebra"", ""Python"", ""Essay writing""), do not dump a textbook.
    - Instead, propose a ""Learning Module"" with a few key sub-topics.
    - If the user agrees, guide them through one sub-topic at a time.
    - Suggest ""Start Module: [Topic Name]"" in the suggestions.

3.  **ACTIVE RECALL QUIZZES:**
    - After explaining a concept or completing a module step, ALWAYS offer to test their knowledge.
    - Suggest ""Quiz me on this"" in the suggestions.
    - If they accept, ask ONE question at a time.
    - Adapt difficulty based on their previous answers.

**GENERAL GUIDELINES:**
- **Do Not Give Direct Answers:** If a user asks a homework question, guide them.
- **Tone:** Friendly, professional, calm, and intelligent.
- **Formatting:** Use Markdown.

**CRITICAL OUTPUT FORMAT:**
At the very end of your response, after all text, you MUST append a list of 2-4 interactive suggestion chips for the user.
Use the tag `"

  const InstructionFormatExample: string := @"` followed by a JSON array of strings.

Example:
Here is the solution to your equation...
"

  const InstructionExampleChips: string := @"[""Explain reasoning"", ""Show steps"", ""Quiz me"", ""Start Module: Linear Equations""]
"

  /** The system instruction a session is created with. There is one, the
      Socratic-tutor instruction, shared by both profiles; a configuration
      refers to it by name and `Text` is its verbatim wording. */
  datatype Instruction = SocraticTutor {
    function Text(): string {
      InstructionHead + SuggestionsTag + (InstructionFormatExample + SuggestionsTag + InstructionExampleChips)
    }
  }

  datatype ThinkingConfig = ThinkingConfig(thinkingBudget: nat)

  datatype ChatConfig = ChatConfig(model: string, systemInstruction: Instruction, thinkingConfig: ThinkingConfig)

  /** An opaque chat handle. Only its configuration is observable; `serial`
      tells apart handles created one after another with equal configs. */
  datatype Chat = Chat(config: ChatConfig, serial: nat)

  /** The configuration `createChatSession` hands to the SDK; `None` is a
      call without an argument. */
  function ChatConfigFor(modelType: Option<ModelType>): (config: ChatConfig)
    ensures config.model == modelType.GetOr(DefaultModelType).Id()
    ensures config.thinkingConfig.thinkingBudget == 0 <==> modelType == Some(Fast)
    ensures modelType != Some(Fast) ==> config.thinkingConfig.thinkingBudget == TutorThinkingBudget
  {
    var profile := modelType.GetOr(DefaultModelType);
    var isFast := profile == Fast;
    ChatConfig(profile.Id(), SocraticTutor,
               if isFast then ThinkingConfig(0) else ThinkingConfig(TutorThinkingBudget))
  }

  /** `createChatSession`: a new handle for the profile's configuration. */
  function CreateChatSession(modelType: Option<ModelType>, serial: nat): (chat: Chat)
    ensures chat.config == ChatConfigFor(modelType)
    ensures chat.serial == serial
  {
    Chat(ChatConfigFor(modelType), serial)
  }

  /** Two calls produce the same configuration exactly when they select the
      same profile: sessions of different profiles never share one. */
  lemma ConfigIdentifiesProfile(a: Option<ModelType>, b: Option<ModelType>)
    ensures ChatConfigFor(a) == ChatConfigFor(b) <==> a.GetOr(DefaultModelType) == b.GetOr(DefaultModelType)
  {
    if ChatConfigFor(a) == ChatConfigFor(b) {
      ModelIdsDistinct(a.GetOr(DefaultModelType), b.GetOr(DefaultModelType));
    }
  }

  /** What a send asks of the remote side: this message, on this chat. */
  datatype Request = Request(chat: Chat, message: string)

  /** `sendMessageStream`: forwards the message text to the chat as is. */
  function SendMessageStream(chat: Chat, message: string): (request: Request)
    ensures request.chat == chat
    ensures request.message == message
  {
    Request(chat, message)
  }

  /** One element of a response stream; `text` may be missing. */
  datatype Chunk = Chunk(text: Option<string>)

  /** How a response stream ends: closed by the remote side, or by an error
      thrown from the send or from the iteration. */
  datatype Ending = Closed | Raised

  /** A response stream as the client sees it: the chunks delivered before
      it ended, then how it ended. An error thrown after `k` chunks is a
      stream of `k` chunks ending in `Raised`. */
  datatype Stream = Stream(chunks: seq<Chunk>, ending: Ending)
}
