/** The business-context chat of the first step: the user describes the
    business to the assistant, possibly with files, and finishing the chat
    hands the whole conversation, one line per message, to the application. */
module ContextChat {
  import opened Options
  import opened Types
  import opened Text
  import opened Gemini
  import opened Formats

  /** The context summary every request of this chat carries. */
  const ContextNote := "User is defining their business context."

  /** The separator between the lines of the finished summary. */
  const SummarySeparator := "\n"

  /** How one readable file is passed to the assistant. */
  function FileNote(name: string, text: string): string {
    "File: " + name + "\nContent: " + text
  }

  /** The notes of the readable files, in order; unreadable files are
      skipped. */
  function FileNotes(files: seq<FileInput>): (r: seq<string>)
    ensures |r| <= |files|
    decreases |files|
  {
    if files == [] then []
    else
      var last := files[|files| - 1];
      var init := FileNotes(files[..|files| - 1]);
      match last.text
      case None => init
      case Some(t) => init + [FileNote(last.name, t)]
  }

  /** This chat and the global assistant read the same files: a batch gives
      as many notes here as it gives tags there. */
  lemma {:induction false} FileNotesCount(files: seq<FileInput>)
    ensures |FileNotes(files)| == |FileTags(files)|
    decreases |files|
  {
    if files != [] {
      FileNotesCount(files[..|files| - 1]);
    }
  }

  /** The loop of `handleSend` over the attached files. */
  method ReadFiles(files: seq<FileInput>) returns (fileContents: seq<string>)
    ensures fileContents == FileNotes(files)
  {
    fileContents := [];
    var i := 0;
    while i < |files|
      invariant 0 <= i <= |files|
      invariant fileContents == FileNotes(files[..i])
    {
      assert files[..i + 1][..i] == files[..i];
      match files[i].text {
        case Some(text) =>
          fileContents := fileContents + [FileNote(files[i].name, text)];
        case None =>
      }
      i := i + 1;
    }
    assert files[..i] == files;
  }

  /** The user's message holds only what was typed: the files reach the
      assistant but are not kept in the conversation. */
  function SentMessage(input: string, now: nat): Message {
    Message(Decimal(now), User, input, now)
  }

  function ReplyMessage(text: string, now: nat): Message {
    Message(Decimal(now + 1), Model, text, now)
  }

  /** The arguments of a pending `sendAssistantMessage` call. */
  datatype Pending = Pending(history: seq<Turn>, newMessage: string, fileContents: seq<string>)

  class Chat {
    var messages: seq<Message>
    var input: string
    var isLoading: bool
    var files: seq<FileInput>
    const language: Language

    /** The conversation opens with the introduction, marked "1", and goes on
        in exchanges. */
    predicate Valid()
      reads this
    {
      Alternating(messages) && messages[0].id == "1"
    }

    /** `intro` is the translated introduction of the chosen language. */
    constructor (language: Language, intro: string, now: nat)
      ensures Valid()
      ensures messages == [Message("1", Model, intro, now)] && input == "" && !isLoading && files == []
      ensures this.language == language
    {
      messages := [Message("1", Model, intro, now)];
      input := "";
      isLoading := false;
      files := [];
      this.language := language;
    }

    method SetInput(text: string)
      modifies this
      ensures input == text
      ensures messages == old(messages) && files == old(files) && isLoading == old(isLoading)
    {
      input := text;
    }

    /** `handleFileUpload`: a selection replaces the attached files. */
    method SelectFiles(selected: Option<seq<FileInput>>)
      modifies this
      ensures files == selected.GetOr(old(files))
      ensures messages == old(messages) && input == old(input) && isLoading == old(isLoading)
    {
      if selected.Some? {
        files := selected.value;
      }
    }

    /** Whether `handleSend` stops at once. */
    predicate Idle()
      reads this
    {
      (Trim(input) == "" && files == []) || isLoading
    }

    /** `handleSend` up to the backend call: the typed text is stored, the
        input cleared, the files read and cleared, and the arguments of the
        call returned. */
    method BeginSend(sentAt: nat) returns (pending: Option<Pending>)
      modifies this
      ensures old(Idle()) <==> pending.None?
      ensures old(Idle()) ==>
                && messages == old(messages) && input == old(input)
                && files == old(files) && isLoading == old(isLoading)
      ensures !old(Idle()) ==>
                && pending == Some(Pending(History(old(messages)), old(input), FileNotes(old(files))))
                && messages == old(messages) + [SentMessage(old(input), sentAt)]
                && input == "" && files == [] && isLoading
    {
      if (Trim(input) == "" && |files| == 0) || isLoading {
        return None;
      }
      var userMsg := Message(Decimal(sentAt), User, input, sentAt);
      var history := History(messages);
      messages := messages + [userMsg];
      input := "";
      isLoading := true;
      var fileContents := ReadFiles(files);
      files := [];
      pending := Some(Pending(history, userMsg.text, fileContents));
    }

    /** `handleSend` after the backend call: the reply is stored. */
    method ReceiveReply(responseText: string, repliedAt: nat)
      modifies this
      ensures messages == old(messages) + [ReplyMessage(responseText, repliedAt)]
      ensures input == old(input) && files == old(files) && !isLoading
    {
      messages := messages + [Message(Decimal(repliedAt + 1), Model, responseText, repliedAt)];
      isLoading := false;
    }

    /** `handleSend`: nothing happens when there is neither text nor a file,
        or while a reply is awaited; otherwise one exchange is added. The
        assistant is given the conversation as it was before the message,
        the typed text, the file notes and the fixed context note. */
    method HandleSend(backend: Backend<ChatRequest>, sentAt: nat, repliedAt: nat)
      requires Valid()
      modifies this
      ensures Valid()
      ensures old(Idle()) ==>
                && messages == old(messages) && input == old(input)
                && files == old(files) && isLoading == old(isLoading)
      ensures !old(Idle()) ==>
                && messages == old(messages) + [SentMessage(old(input), sentAt),
                                                ReplyMessage(SendAssistantMessage(History(old(messages)), old(input),
                                                                                  FileNotes(old(files)), language,
                                                                                  ContextNote, backend), repliedAt)]
                && input == "" && files == [] && !isLoading
    {
      var before := messages;
      var pending := BeginSend(sentAt);
      if pending.None? {
        return;
      }
      var p := pending.value;
      var responseText := SendAssistantMessage(p.history, p.newMessage, p.fileContents, language, ContextNote, backend);
      ReceiveReply(responseText, repliedAt);
      ghost var user := SentMessage(old(input), sentAt);
      ghost var reply := ReplyMessage(responseText, repliedAt);
      assert messages == before + [user, reply];
      AlternatingExchange(before, user, reply);
    }

    /** `handleFinish`: the summary handed to `onContextComplete`. It opens
        with the introduction's line and, when no message spans several
        lines, holds exactly one line per message. */
    method HandleFinish() returns (summary: string)
      requires Valid()
      ensures summary == Transcript(messages, SummarySeparator)
      ensures Line(messages[0]) <= summary
      ensures (forall i :: 0 <= i < |messages| ==> '\n' !in messages[i].text) ==>
                Split(summary, SummarySeparator) == Lines(messages)
    {
      summary := Transcript(messages, SummarySeparator);
      TranscriptFirst(messages, SummarySeparator);
      if forall i :: 0 <= i < |messages| ==> '\n' !in messages[i].text {
        TranscriptLines(messages);
      }
    }
  }
}
