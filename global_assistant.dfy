/** The global assistant drawer: a conversation with the AI backend. Attached
    files are read and stored inside the user's message, the raw input and
    the file contents go to the backend separately, and every change of the
    conversation is reported to the application as its new business context. */
module GlobalAssistant {
  import opened Options
  import opened Types
  import opened Text
  import opened Gemini
  import opened Formats

  // ---------------------------------------------------------------------------
  // The opening message

  const GreetingFr := "Bonjour ! Je suis votre assistant stratégique. **Expliquez-moi votre business**, ou glissez des fichiers pour commencer."
  const GreetingEs := "¡Hola! Soy tu asistente estratégico. **Explícame tu negocio** o arrastra archivos para empezar."
  const GreetingEn := "Hello! I am your strategic assistant. **Explain your business**, or drop files to start."

  function Greeting(language: Language): string {
    match language
    case Fr => GreetingFr
    case Es => GreetingEs
    case En => GreetingEn
  }

  /** The conversation always opens with the assistant's greeting, marked
      "init". */
  function Opening(language: Language, now: nat): Message {
    Message("init", Model, Greeting(language), now)
  }

  /** The separator between the lines of the reported context. */
  const ContextSeparator := "\n---\n"

  // ---------------------------------------------------------------------------
  // One exchange

  /** The text stored for the user: the input followed by the tag of every
      readable file. */
  function CombinedInput(input: string, files: seq<FileInput>): string {
    input + Join(FileTags(files), "")
  }

  /** The stored text begins with what was typed, and adds to it exactly when
      some attached file could be read. */
  lemma CombinedInputExtends(input: string, files: seq<FileInput>)
    ensures input <= CombinedInput(input, files)
    ensures CombinedInput(input, files) == input <==> forall i :: 0 <= i < |files| ==> files[i].text.None?
  {
    FileTextEmpty(files);
    var rest := Join(FileTags(files), "");
    assert |CombinedInput(input, files)| == |input| + |rest|;
  }

  /** The user's message: its id is the sending instant in decimal. */
  function SentMessage(input: string, files: seq<FileInput>, now: nat): Message {
    Message(Decimal(now), User, CombinedInput(input, files), now)
  }

  /** The assistant's message: its id is one past the instant of the reply. */
  function ReplyMessage(text: string, now: nat): Message {
    Message(Decimal(now + 1), Model, text, now)
  }

  /** The answer is given after the question, so the two messages of an
      exchange never share an id. */
  lemma ExchangeIdsDistinct(input: string, files: seq<FileInput>, text: string, sentAt: nat, repliedAt: nat)
    requires sentAt <= repliedAt
    ensures SentMessage(input, files, sentAt).id != ReplyMessage(text, repliedAt).id
  {
    if Decimal(sentAt) == Decimal(repliedAt + 1) {
      DecimalInjective(sentAt, repliedAt + 1);
    }
  }

  /** The two contexts reported during an exchange: the first ends with the
      user's line, the second extends it by the assistant's line. */
  lemma ContextUpdates(messages: seq<Message>, user: Message, reply: Message)
    requires messages != []
    ensures Transcript(messages + [user], ContextSeparator)
         == Transcript(messages, ContextSeparator) + ContextSeparator + Line(user)
    ensures Transcript(messages + [user, reply], ContextSeparator)
         == Transcript(messages + [user], ContextSeparator) + ContextSeparator + Line(reply)
  {
    TranscriptSnoc(messages, user, ContextSeparator);
    assert messages + [user, reply] == (messages + [user]) + [reply];
    TranscriptSnoc(messages + [user], reply, ContextSeparator);
  }

  /** The loop of `handleSend` over the attached files: each readable file's
      tag is collected and appended to the input, each unreadable one is
      skipped. */
  method ReadFiles(input: string, files: seq<FileInput>) returns (fileContents: seq<string>, combinedInput: string)
    ensures fileContents == FileTags(files)
    ensures combinedInput == CombinedInput(input, files)
  {
    fileContents := [];
    combinedInput := input;
    var i := 0;
    while i < |files|
      invariant 0 <= i <= |files|
      invariant fileContents == FileTags(files[..i])
      invariant combinedInput == input + Join(fileContents, "")
    {
      assert files[..i + 1][..i] == files[..i];
      match files[i].text {
        case Some(text) =>
          var fileTag := FileTag(files[i].name, text);
          ConcatSnoc(fileContents, fileTag);
          fileContents := fileContents + [fileTag];
          combinedInput := combinedInput + fileTag;
        case None =>
      }
      i := i + 1;
    }
    assert files[..i] == files;
  }

  // ---------------------------------------------------------------------------
  // The drawer

  /** The arguments of a pending `sendAssistantMessage` call. */
  datatype Pending = Pending(history: seq<Turn>, newMessage: string, fileContents: seq<string>)

  class Assistant {
    var messages: seq<Message>
    var input: string
    var isLoading: bool
    var files: seq<FileInput>
    /** Prop: the parent re-renders the drawer with its current language; the
        greeting keeps the language of the first render. */
    var language: Language

    /** The conversation opens with the greeting and goes on in exchanges. */
    predicate Valid()
      reads this
    {
      Alternating(messages) && messages[0].id == "init"
    }

    constructor (language: Language, now: nat)
      ensures Valid()
      ensures messages == [Opening(language, now)] && input == "" && !isLoading && files == []
      ensures this.language == language
    {
      messages := [Opening(language, now)];
      input := "";
      isLoading := false;
      files := [];
      this.language := language;
    }

    /** A re-render after the language switch: the conversation is kept. */
    method SetLanguage(language: Language)
      modifies this
      ensures this.language == language
      ensures messages == old(messages) && input == old(input)
      ensures files == old(files) && isLoading == old(isLoading)
    {
      this.language := language;
    }

    method SetInput(text: string)
      modifies this
      ensures language == old(language)
      ensures input == text
      ensures messages == old(messages) && files == old(files) && isLoading == old(isLoading)
    {
      input := text;
    }

    /** `handleFileUpload`: a selection replaces the attached files; an event
        without a file list changes nothing. */
    method SelectFiles(selected: Option<seq<FileInput>>)
      modifies this
      ensures language == old(language)
      ensures files == selected.GetOr(old(files))
      ensures messages == old(messages) && input == old(input) && isLoading == old(isLoading)
    {
      if selected.Some? {
        files := selected.value;
      }
    }

    /** Whether `handleSend` stops at once: neither text nor a file, or a
        reply is still awaited. */
    predicate Idle()
      reads this
    {
      (Trim(input) == "" && files == []) || isLoading
    }

    /** `handleSend` up to the backend call: the files are read and cleared,
        the user's message is stored and reported, the input is cleared, and
        the arguments of the call are returned. */
    method BeginSend(sentAt: nat) returns (pending: Option<Pending>, updates: seq<string>)
      modifies this
      ensures language == old(language)
      ensures old(Idle()) <==> pending.None?
      ensures old(Idle()) ==>
                && updates == [] && messages == old(messages) && input == old(input)
                && files == old(files) && isLoading == old(isLoading)
      ensures !old(Idle()) ==>
                && pending == Some(Pending(History(old(messages)), old(input), FileTags(old(files))))
                && messages == old(messages) + [SentMessage(old(input), old(files), sentAt)]
                && updates == [Transcript(messages, ContextSeparator)]
                && input == "" && files == [] && isLoading
    {
      if (Trim(input) == "" && |files| == 0) || isLoading {
        return None, [];
      }
      isLoading := true;
      var fileContents, combinedInput := ReadFiles(input, files);
      files := [];
      var userMsg := Message(Decimal(sentAt), User, combinedInput, sentAt);
      pending := Some(Pending(History(messages), input, fileContents));
      messages := messages + [userMsg];
      updates := [Transcript(messages, ContextSeparator)];
      input := "";
    }

    /** `handleSend` after the backend call: the reply is stored and the
        conversation reported again. */
    method ReceiveReply(responseText: string, repliedAt: nat) returns (update: string)
      modifies this
      ensures language == old(language)
      ensures messages == old(messages) + [ReplyMessage(responseText, repliedAt)]
      ensures update == Transcript(messages, ContextSeparator)
      ensures input == old(input) && files == old(files) && !isLoading
    {
      var modelMsg := Message(Decimal(repliedAt + 1), Model, responseText, repliedAt);
      messages := messages + [modelMsg];
      update := Transcript(messages, ContextSeparator);
      isLoading := false;
    }

    /** `handleSend`: returns the contexts handed to `onUpdateContext`, in
        order. The backend receives the conversation as it was before the
        user's message, the raw input and the file tags; the stored user
        message holds the input and the tags together. */
    method HandleSend(backend: Backend<ChatRequest>, currentContext: string, sentAt: nat, repliedAt: nat)
      returns (updates: seq<string>)
      requires Valid()
      modifies this
      ensures language == old(language)
      ensures Valid()
      ensures old(Idle()) ==>
                && updates == [] && messages == old(messages) && input == old(input)
                && files == old(files) && isLoading == old(isLoading)
      ensures !old(Idle()) ==>
                var user := SentMessage(old(input), old(files), sentAt);
                var reply := ReplyMessage(SendAssistantMessage(History(old(messages)), old(input), FileTags(old(files)),
                                                               language, currentContext, backend), repliedAt);
                && messages == old(messages) + [user, reply]
                && updates == [Transcript(old(messages) + [user], ContextSeparator),
                               Transcript(messages, ContextSeparator)]
                && input == "" && files == [] && !isLoading
    {
      var before := messages;
      var pending;
      pending, updates := BeginSend(sentAt);
      if pending.None? {
        return;
      }
      var p := pending.value;
      var responseText := SendAssistantMessage(p.history, p.newMessage, p.fileContents, language, currentContext, backend);
      var last := ReceiveReply(responseText, repliedAt);
      ghost var user := SentMessage(old(input), old(files), sentAt);
      ghost var reply := ReplyMessage(responseText, repliedAt);
      assert messages == before + [user, reply];
      AlternatingExchange(before, user, reply);
      updates := updates + [last];
    }
  }
}
