/** The request the server builds for the vision model: the instruction
    chosen from the analysis type, and at most five frames. */
module Gpt {
  import opened Frames

  /** The predefined analysis types and their instructions. */
  const ANALYSIS_TYPES: map<string, string> := map[
    "general" := "Provide a general analysis of the video content.",
    "ui_interaction" := "Analyze the user interface interactions in the video.",
    "emotion" := "Detect and analyze emotions of people in the video.",
    "object_detection" := "Identify and describe key objects in the video.",
    "text_recognition" := "Recognize and transcribe any text visible in the video."
  ]

  const DEFAULT_PROMPT: string := "Provide a general analysis of the video content."
  const SYSTEM_MESSAGE: string :=
    "You are an AI assistant that analyzes video frames and provides insights based on the given prompt."
  const INSTRUCTION_PREFIX: string := "Analyze the following video frames based on this instruction: "
  const MODEL: string := "gpt-4-vision-preview"
  const MAX_TOKENS: nat := 300
  const MAX_FRAMES: nat := 5

  /** One part of a user message: text, or a frame (the source sends the base64
      text of the frame's JPEG file as a data URL; the index is not sent). */
  datatype Part = Text(text: string) | ImageUrl(frame: Extracted)

  datatype Message = System(content: string) | User(parts: seq<Part>)

  /** The chat-completions payload. */
  datatype ChatPayload = ChatPayload(model: string, messages: seq<Message>, maxTokens: nat)

  function Min(a: nat, b: nat): nat
  {
    if a <= b then a else b
  }

  /** The instruction: a predefined type's description; for any other type the
      custom prompt when it is non-empty, else the general-analysis text. */
  function SelectPrompt(analysisType: string, customPrompt: string): (prompt: string)
    ensures prompt != ""
    ensures analysisType in ANALYSIS_TYPES ==> prompt == ANALYSIS_TYPES[analysisType]
    ensures analysisType !in ANALYSIS_TYPES && customPrompt != "" ==> prompt == customPrompt
    ensures analysisType !in ANALYSIS_TYPES && customPrompt == "" ==> prompt == ANALYSIS_TYPES["general"]
  {
    if analysisType in ANALYSIS_TYPES then ANALYSIS_TYPES[analysisType]
    else if customPrompt != "" then customPrompt
    else DEFAULT_PROMPT
  }

  /** One image message per frame, in order. */
  function ImageMessages(frames: seq<Extracted>): seq<Message>
  {
    if frames == [] then [] else [User([ImageUrl(frames[0])])] + ImageMessages(frames[1..])
  }

  /** The conversation: the system message, the instruction, then the first
      five frames (`frames[:5]`) each in its own message. */
  function Messages(prompt: string, frames: seq<Extracted>): (ms: seq<Message>)
    ensures |ms| == 2 + Min(MAX_FRAMES, |frames|)
    ensures ms[0] == System(SYSTEM_MESSAGE)
    ensures ms[1] == User([Text(INSTRUCTION_PREFIX + prompt)])
    ensures forall i :: 2 <= i < |ms| ==> ms[i] == User([ImageUrl(frames[i - 2])])
  {
    ImageMessagesAt(frames[..Min(MAX_FRAMES, |frames|)]);
    [System(SYSTEM_MESSAGE), User([Text(INSTRUCTION_PREFIX + prompt)])]
      + ImageMessages(frames[..Min(MAX_FRAMES, |frames|)])
  }

  lemma {:induction false} ImageMessagesAt(frames: seq<Extracted>)
    ensures |ImageMessages(frames)| == |frames|
    ensures forall i :: 0 <= i < |frames| ==> ImageMessages(frames)[i] == User([ImageUrl(frames[i])])
  {
    if frames != [] {
      ImageMessagesAt(frames[1..]);
    }
  }

  /** The payload posted for a list of extracted frames: the vision model with
      a 300-token budget, the system message, the instruction chosen from the
      analysis type, then one message for each of the first five frames. */
  function ChatRequest(frames: seq<Extracted>, analysisType: string, customPrompt: string): (p: ChatPayload)
    ensures p.model == MODEL && p.maxTokens == MAX_TOKENS
    ensures |p.messages| == 2 + Min(MAX_FRAMES, |frames|)
    ensures p.messages[0] == System(SYSTEM_MESSAGE)
    ensures p.messages[1] == User([Text(INSTRUCTION_PREFIX + SelectPrompt(analysisType, customPrompt))])
    ensures analysisType in ANALYSIS_TYPES ==>
              p.messages[1] == User([Text(INSTRUCTION_PREFIX + ANALYSIS_TYPES[analysisType])])
    ensures forall i :: 0 <= i < Min(MAX_FRAMES, |frames|) ==> p.messages[i + 2] == User([ImageUrl(frames[i])])
  {
    ChatPayload(MODEL, Messages(SelectPrompt(analysisType, customPrompt), frames), MAX_TOKENS)
  }

  /** The custom prompt is ignored for a predefined type, and an unknown type
      without a custom prompt is analysed like "general". */
  lemma PromptChoiceConsequences(analysisType: string, p1: string, p2: string)
    ensures analysisType in ANALYSIS_TYPES ==> SelectPrompt(analysisType, p1) == SelectPrompt(analysisType, p2)
    ensures analysisType !in ANALYSIS_TYPES ==> SelectPrompt(analysisType, "") == SelectPrompt("general", p1)
  {
  }
}
