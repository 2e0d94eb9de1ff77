/** The application's records and enumerations (types.ts), plus the shapes of what the browser and the AI provider hand back. */
module Types {
  import opened Wrappers

  /** The workflow position; exactly one at a time, and it alone decides which view is shown. */
  datatype AppStage = Upload | Transcribing | ReviewTranscript | SelectPersona | Generating | Result | Error

  /** A fixed stylistic profile from the catalog. */
  datatype Persona = Persona(
    id: string,
    name: string,
    role: string,
    description: string,
    icon: string,
    promptInstruction: string,
    color: string)

  /** The outcome of one successful generation. */
  datatype PodcastResult = PodcastResult(transcript: string, transformedContent: string, selectedPersonaId: string)

  /** What the core reads of a browser `File`: its name, its MIME type and its size in bytes. */
  datatype FileInfo = FileInfo(name: string, mimeType: string, size: nat)

  /** The uploaded recording held in memory (its preview URL is browser state and is not modelled). */
  datatype AudioFile = AudioFile(file: FileInfo, base64: string, mimeType: string)

  /** One stored transformation, tied to the file it came from. */
  datatype HistoryItem = HistoryItem(
    id: string,
    timestamp: nat,
    fileName: string,
    personaId: string,
    transcriptSnippet: string,
    fullTranscript: string,
    transformedContent: string)

  datatype Role = User | Model

  datatype ChatMessage = ChatMessage(id: string, role: Role, text: string, timestamp: nat)

  /** The two tabs of the result view. */
  datatype Tab = Script | Chat

  /**
   * How an awaited call settles: resolved with a text, or rejected. A rejection
   * carries the thrown value's `message` when it was an `Error`, and `None` when
   * something else was thrown.
   */
  datatype Outcome = Ok(text: string) | Err(message: Option<string>)

  /** The two things a chat session is opened with: the transcript it is grounded in and the persona it plays. */
  datatype ChatSeed = ChatSeed(transcript: string, persona: Persona)
}
