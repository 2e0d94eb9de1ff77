/**
 * The workflow controller of App.tsx: the application state and the handlers that
 * move it through Upload, Transcribing, ReviewTranscript, SelectPersona, Generating,
 * Result and Error. Every awaited call (reading the file, transcribing, transforming,
 * the chat reply) is settled before the handler is entered and passed in as an
 * `Outcome`; clock readings and the random pick are parameters too.
 */
module App {
  import opened Wrappers
  import opened Types
  import Text
  import Constants
  import History

  /** Shown when a thrown value that is not an `Error` aborts reading or transcribing. */
  const ProcessAudioFallback: string := "Failed to process audio"
  /** Shown when a thrown value that is not an `Error` aborts the transformation. */
  const GenerateFallback: string := "Failed to generate persona content"
  /** The model's turn when the provider answers with empty text. */
  const NoReplyText: string := "I'm having trouble thinking of a response right now."
  /** The model's turn when the chat call fails. */
  const ChatErrorText: string := "Sorry, I encountered an error. Please try again."

  /** `err instanceof Error ? err.message : fallback`. */
  function Describe(message: Option<string>, fallback: string): (r: string)
    ensures message.Some? ==> r == message.value
    ensures message.None? ==> r == fallback
  {
    message.GetOr(fallback)
  }

  /** The text of the one model message a chat turn appends: never empty, and the reply itself whenever there is one. */
  function ReplyText(reply: Outcome): (r: string)
    ensures r != ""
    ensures reply.Ok? && reply.text != "" ==> r == reply.text
    ensures reply.Ok? && reply.text == "" ==> r == NoReplyText
    ensures reply.Err? ==> r == ChatErrorText
  {
    match reply
    case Ok(text) => if text != "" then text else NoReplyText
    case Err(_) => ChatErrorText
  }

  /** The controller's result when a history item is restored. */
  function Restored(item: HistoryItem): (r: PodcastResult)
    ensures r.transcript == item.fullTranscript && r.transformedContent == item.transformedContent
    ensures r.selectedPersonaId == item.personaId
  {
    PodcastResult(item.fullTranscript, item.transformedContent, item.personaId)
  }

  /** Restoring the item saved for a result gives back that result, whatever the file and the time. */
  lemma RestoreUndoesRecord(res: PodcastResult, fileName: string, now: nat)
    ensures Restored(History.NewItem(res, fileName, now)) == res
  {
  }

  class Controller {
    var stage: AppStage
    var audioFile: Option<AudioFile>
    var transcript: string
    var selectedPersona: Option<Persona>
    var result: Option<PodcastResult>
    var error: Option<string>
    var history: seq<HistoryItem>
    var folderFiles: seq<FileInfo>
    var activeTab: Tab
    var chatMessages: seq<ChatMessage>
    var isChatLoading: bool
    /** `chatSessionRef.current`: absent, or the transcript and persona the session was opened with. */
    var chatSession: Option<ChatSeed>
    /** Every stage written, in order, starting with the initial one. */
    ghost var stageTrail: seq<AppStage>

    ghost predicate Valid()
      reads this
    {
      && |history| <= History.HistoryLimit
      && (selectedPersona.Some? ==> selectedPersona.value.id in Constants.CatalogIdSet)
      && (chatSession.Some? ==> result.Some? && selectedPersona.Some?)
      && stageTrail != [] && stageTrail[|stageTrail| - 1] == stage
    }

    /** The state at mount, before stored history is read (storage is not modelled). */
    constructor ()
      ensures Valid()
      ensures stage == Upload && audioFile == None && transcript == "" && selectedPersona == None
      ensures result == None && error == None && history == [] && folderFiles == []
      ensures activeTab == Script && chatMessages == [] && !isChatLoading && chatSession == None
      ensures stageTrail == [Upload]
    {
      stage := Upload;
      audioFile := None;
      transcript := "";
      selectedPersona := None;
      result := None;
      error := None;
      history := [];
      folderFiles := [];
      activeTab := Script;
      chatMessages := [];
      isChatLoading := false;
      chatSession := None;
      stageTrail := [Upload];
    }

    /** `setStage`, with the write recorded. */
    method SetStage(s: AppStage)
      modifies this
      ensures stage == s && stageTrail == old(stageTrail) + [s]
      ensures audioFile == old(audioFile) && transcript == old(transcript)
      ensures selectedPersona == old(selectedPersona) && result == old(result) && error == old(error)
      ensures history == old(history) && folderFiles == old(folderFiles) && activeTab == old(activeTab)
      ensures chatMessages == old(chatMessages) && isChatLoading == old(isChatLoading)
      ensures chatSession == old(chatSession)
    {
      stage := s;
      stageTrail := stageTrail + [s];
    }

    /**
     * `handleFileSelect`: enters Transcribing, reads the file (`read`), keeps it,
     * transcribes it (`transcription`) and moves to ReviewTranscript; any failure
     * ends in Error with the thrown message.
     */
    method HandleFileSelect(file: FileInfo, read: Outcome, transcription: Outcome)
      requires Valid()
      requires transcription.Ok? ==> transcription.text != ""
      modifies this
      ensures Valid()
      ensures read.Err? ==> && stage == Error && error == Some(Describe(read.message, ProcessAudioFallback))
                            && stageTrail == old(stageTrail) + [Transcribing, Error]
                            && audioFile == old(audioFile) && transcript == old(transcript)
      ensures read.Ok? ==> audioFile == Some(AudioFile(file, read.text, file.mimeType))
      ensures read.Ok? && transcription.Ok? ==>
                && stage == ReviewTranscript && transcript == transcription.text && error == old(error)
                && stageTrail == old(stageTrail) + [Transcribing, ReviewTranscript]
      ensures read.Ok? && transcription.Err? ==>
                && stage == Error && error == Some(Describe(transcription.message, ProcessAudioFallback))
                && stageTrail == old(stageTrail) + [Transcribing, Error] && transcript == old(transcript)
      ensures selectedPersona == old(selectedPersona) && result == old(result)
      ensures history == old(history) && folderFiles == old(folderFiles) && activeTab == old(activeTab)
      ensures chatMessages == old(chatMessages) && isChatLoading == old(isChatLoading)
      ensures chatSession == old(chatSession)
    {
      SetStage(Transcribing);
      match read {
        case Err(m) =>
          error := Some(Describe(m, ProcessAudioFallback));
          SetStage(Error);
        case Ok(base64) =>
          audioFile := Some(AudioFile(file, base64, file.mimeType));
          match transcription {
            case Ok(text) =>
              transcript := text;
              SetStage(ReviewTranscript);
            case Err(m) =>
              error := Some(Describe(m, ProcessAudioFallback));
              SetStage(Error);
          }
      }
    }

    /** `handleFolderSelected`: remembers the files that passed the folder filter. */
    method HandleFolderSelected(files: seq<FileInfo>)
      modifies this`folderFiles
      ensures folderFiles == files
    {
      folderFiles := files;
    }

    /**
     * The effect that opens the chat session: when the chat tab is shown and there
     * is a result and a persona but no session yet, one is opened from the
     * result's transcript and the selected persona.
     */
    method SyncChatSession()
      requires Valid()
      modifies this`chatSession
      ensures Valid()
      ensures if old(chatSession).None? && activeTab == Chat && result.Some? && selectedPersona.Some?
              then chatSession == Some(ChatSeed(result.value.transcript, selectedPersona.value))
              else chatSession == old(chatSession)
    {
      if activeTab == Chat && chatSession.None? && result.Some? && selectedPersona.Some? {
        chatSession := Some(ChatSeed(result.value.transcript, selectedPersona.value));
      }
    }

    /** A tab click of the result view, followed by the chat-session effect. */
    method SelectTab(tab: Tab)
      requires Valid()
      modifies this`activeTab, this`chatSession
      ensures Valid() && activeTab == tab
      ensures if old(chatSession).None? && tab == Chat && result.Some? && selectedPersona.Some?
              then chatSession == Some(ChatSeed(result.value.transcript, selectedPersona.value))
              else chatSession == old(chatSession)
    {
      activeTab := tab;
      SyncChatSession();
    }

    /**
     * A persona card's `onSelect` (the cards list the catalog): selects it, moves to
     * SelectPersona, then runs the chat-session effect. An open session is kept.
     */
    method PickPersona(p: Persona)
      requires Valid()
      requires p in Constants.Personas
      modifies this
      ensures Valid()
      ensures selectedPersona == Some(p) && stage == SelectPersona
      ensures stageTrail == old(stageTrail) + [SelectPersona]
      ensures if old(chatSession).None? && activeTab == Chat && result.Some?
              then chatSession == Some(ChatSeed(result.value.transcript, p))
              else chatSession == old(chatSession)
      ensures audioFile == old(audioFile) && transcript == old(transcript)
      ensures result == old(result) && error == old(error)
      ensures history == old(history) && folderFiles == old(folderFiles) && activeTab == old(activeTab)
      ensures chatMessages == old(chatMessages) && isChatLoading == old(isChatLoading)
    {
      selectedPersona := Some(p);
      SetStage(SelectPersona);
      SyncChatSession();
    }

    /**
     * `handlePersonaSelect` (the Generate button): nothing without a persona or a
     * transcript; otherwise enters Generating and, on success, stores the result,
     * saves it to history when an uploaded file is present (`now` is `Date.now()`),
     * shows the script tab with a fresh chat and enters Result; a failure ends in Error.
     */
    method HandlePersonaSelect(transformation: Outcome, now: nat)
      requires Valid()
      requires transformation.Ok? ==> transformation.text != ""
      modifies this
      ensures Valid()
      ensures old(selectedPersona).None? || old(transcript) == "" ==> unchanged(this)
      ensures old(selectedPersona).Some? && old(transcript) != "" && transformation.Ok? ==>
                var res := PodcastResult(old(transcript), transformation.text, old(selectedPersona).value.id);
                && result == Some(res)
                && (old(audioFile).Some? ==>
                      history == History.Save(old(history), History.NewItem(res, old(audioFile).value.file.name, now)))
                && (old(audioFile).None? ==> history == old(history))
                && activeTab == Script && chatMessages == [] && chatSession == None
                && stage == Result && stageTrail == old(stageTrail) + [Generating, Result]
                && error == old(error)
      ensures old(selectedPersona).Some? && old(transcript) != "" && transformation.Err? ==>
                && stage == Error && error == Some(Describe(transformation.message, GenerateFallback))
                && stageTrail == old(stageTrail) + [Generating, Error]
                && result == old(result) && history == old(history) && activeTab == old(activeTab)
                && chatMessages == old(chatMessages) && chatSession == old(chatSession)
      ensures audioFile == old(audioFile) && transcript == old(transcript) && selectedPersona == old(selectedPersona)
      ensures folderFiles == old(folderFiles) && isChatLoading == old(isChatLoading)
    {
      if selectedPersona.None? || transcript == "" {
        return;
      }
      SetStage(Generating);
      match transformation {
        case Ok(transformed) =>
          var newResult := PodcastResult(transcript, transformed, selectedPersona.value.id);
          result := Some(newResult);
          if audioFile.Some? {
            history := History.Save(history, History.NewItem(newResult, audioFile.value.file.name, now));
          }
          activeTab := Script;
          chatMessages := [];
          chatSession := None;
          SetStage(Result);
        case Err(m) =>
          error := Some(Describe(m, GenerateFallback));
          SetStage(Error);
      }
    }

    /** `reset`: back to Upload with the session cleared; history, folder files, tab and chat loading flag stay. */
    method Reset()
      requires Valid()
      modifies this
      ensures Valid()
      ensures stage == Upload && stageTrail == old(stageTrail) + [Upload]
      ensures audioFile == None && transcript == "" && selectedPersona == None && result == None
      ensures error == None && chatMessages == [] && chatSession == None
      ensures history == old(history) && folderFiles == old(folderFiles) && activeTab == old(activeTab)
      ensures isChatLoading == old(isChatLoading)
    {
      SetStage(Upload);
      audioFile := None;
      transcript := "";
      selectedPersona := None;
      result := None;
      error := None;
      chatMessages := [];
      chatSession := None;
    }

    /**
     * `loadFromHistory`: whatever the state, shows the item as a result on the
     * script tab, with its catalog persona (or none), no audio and a fresh chat.
     */
    method LoadFromHistory(item: HistoryItem)
      requires Valid()
      modifies this
      ensures Valid()
      ensures stage == Result && stageTrail == old(stageTrail) + [Result]
      ensures activeTab == Script && chatMessages == [] && chatSession == None && audioFile == None
      ensures result == Some(Restored(item)) && transcript == item.fullTranscript
      ensures selectedPersona == Constants.FindPersona(item.personaId)
      ensures error == old(error) && history == old(history) && folderFiles == old(folderFiles)
      ensures isChatLoading == old(isChatLoading)
    {
      selectedPersona := Constants.FindPersona(item.personaId);
      result := Some(PodcastResult(item.fullTranscript, item.transformedContent, item.personaId));
      transcript := item.fullTranscript;
      audioFile := None;
      chatMessages := [];
      chatSession := None;
      activeTab := Script;
      SetStage(Result);
    }

    /** `loadRandomHistory`: nothing on an empty history, otherwise loads the item at `index` (the random pick). */
    method LoadRandomHistory(index: nat)
      requires Valid()
      requires |history| > 0 ==> index < |history|
      modifies this
      ensures Valid()
      ensures old(history) == [] ==> unchanged(this)
      ensures old(history) != [] ==>
                var item := old(history)[index];
                && stage == Result && stageTrail == old(stageTrail) + [Result]
                && activeTab == Script && chatMessages == [] && chatSession == None && audioFile == None
                && result == Some(Restored(item)) && transcript == item.fullTranscript
                && selectedPersona == Constants.FindPersona(item.personaId)
                && error == old(error) && history == old(history) && folderFiles == old(folderFiles)
                && isChatLoading == old(isChatLoading)
    {
      if |history| == 0 {
        return;
      }
      LoadFromHistory(history[index]);
    }

    /** `deleteHistoryItem`: drops every item with that id. */
    method DeleteHistoryItem(id: string)
      requires Valid()
      modifies this`history
      ensures Valid()
      ensures history == History.Delete(old(history), id)
    {
      history := History.Delete(history, id);
    }

    /**
     * `handleNavigate`: "top" resets unless already at Upload; any other section
     * only switches the stage to Upload, keeping everything else.
     */
    method HandleNavigate(sectionId: string)
      requires Valid()
      modifies this
      ensures Valid()
      ensures old(stage) == Upload ==> unchanged(this)
      ensures old(stage) != Upload && sectionId == "top" ==>
                && stage == Upload && stageTrail == old(stageTrail) + [Upload]
                && audioFile == None && transcript == "" && selectedPersona == None && result == None
                && error == None && chatMessages == [] && chatSession == None
                && history == old(history) && folderFiles == old(folderFiles) && activeTab == old(activeTab)
                && isChatLoading == old(isChatLoading)
      ensures old(stage) != Upload && sectionId != "top" ==>
                && stage == Upload && stageTrail == old(stageTrail) + [Upload]
                && audioFile == old(audioFile) && transcript == old(transcript)
                && selectedPersona == old(selectedPersona) && result == old(result) && error == old(error)
                && history == old(history) && folderFiles == old(folderFiles) && activeTab == old(activeTab)
                && chatMessages == old(chatMessages) && isChatLoading == old(isChatLoading)
                && chatSession == old(chatSession)
    {
      if sectionId == "top" {
        if stage != Upload {
          Reset();
        }
        return;
      }
      if stage != Upload {
        SetStage(Upload);
      }
    }

    /**
     * `handleSendMessage`: nothing without a session; otherwise appends the user's
     * message (sent at `sentAt`), then exactly one model message (at `repliedAt`)
     * carrying the reply or a fixed apology, and ends not loading.
     */
    method HandleSendMessage(text: string, sentAt: nat, reply: Outcome, repliedAt: nat)
      requires Valid()
      modifies this`chatMessages, this`isChatLoading
      ensures Valid()
      ensures old(chatSession).None? ==> chatMessages == old(chatMessages) && isChatLoading == old(isChatLoading)
      ensures old(chatSession).Some? ==>
                && chatMessages == old(chatMessages) + [
                     ChatMessage(Text.Decimal(sentAt), User, text, sentAt),
                     ChatMessage(Text.Decimal(repliedAt + 1), Model, ReplyText(reply), repliedAt)]
                && !isChatLoading
    {
      if chatSession.None? {
        return;
      }
      var userMsg := ChatMessage(Text.Decimal(sentAt), User, text, sentAt);
      chatMessages := chatMessages + [userMsg];
      isChatLoading := true;
      var modelMsg := ChatMessage(Text.Decimal(repliedAt + 1), Model, ReplyText(reply), repliedAt);
      chatMessages := chatMessages + [modelMsg];
      isChatLoading := false;
    }
  }

  /**
   * A walk-through: "meeting.mp3" (audio/mpeg, 2 MB) is transcribed as "Hello world",
   * the comedian is picked and the script generated; the history then starts with an
   * item for that file and persona.
   */
  method MeetingScenario(now: nat) returns (first: HistoryItem, stage: AppStage)
    ensures first.fileName == "meeting.mp3" && first.personaId == "comedian"
    ensures first.fullTranscript == "Hello world" && first.transformedContent == "A bit about greetings"
    ensures stage == Result
  {
    var app := new Controller();
    var file := FileInfo("meeting.mp3", "audio/mpeg", 2 * 1024 * 1024);
    app.HandleFileSelect(file, Ok("bWVldGluZw=="), Ok("Hello world"));
    Constants.CatalogIds();
    app.PickPersona(Constants.Personas[0]);
    app.HandlePersonaSelect(Ok("A bit about greetings"), now);
    first := app.history[0];
    stage := app.stage;
  }
}
