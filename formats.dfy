/** Text formats that two components share: the tag wrapped around an
    attached file's text (application start screen and global assistant), and
    the "ROLE: text" transcript of a conversation (global assistant and
    context chat). */
module Formats {
  import opened Options
  import opened Types
  import opened Text
  import opened Gemini

  /** A file handed to an upload handler; `text` is None when `file.text()`
      rejects. */
  datatype FileInput = FileInput(name: string, text: Option<string>)

  function FileTag(name: string, text: string): string {
    "\n\n[FILE: " + name + "]\n" + text + "\n[/FILE]"
  }

  /** The tags of the readable files, in order; unreadable files are skipped. */
  function FileTags(files: seq<FileInput>): (r: seq<string>)
    ensures |r| <= |files|
    decreases |files|
  {
    if files == [] then []
    else
      var last := files[|files| - 1];
      var init := FileTags(files[..|files| - 1]);
      match last.text
      case None => init
      case Some(t) => init + [FileTag(last.name, t)]
  }

  /** Tags are produced file by file: a batch's tags are those of its parts. */
  lemma {:induction false} FileTagsAppend(a: seq<FileInput>, b: seq<FileInput>)
    ensures FileTags(a + b) == FileTags(a) + FileTags(b)
    decreases |b|
  {
    if b == [] {
      assert a + b == a;
    } else {
      var b' := b[..|b| - 1];
      assert (a + b)[..|a + b| - 1] == a + b';
      assert (a + b)[|a + b| - 1] == b[|b| - 1];
      FileTagsAppend(a, b');
    }
  }

  /** Some tag is produced exactly when some file is readable. */
  lemma {:induction false} FileTagsEmpty(files: seq<FileInput>)
    ensures FileTags(files) == [] <==> forall i :: 0 <= i < |files| ==> files[i].text.None?
    decreases |files|
  {
    if files != [] {
      var init := files[..|files| - 1];
      FileTagsEmpty(init);
      assert forall i :: 0 <= i < |init| ==> init[i] == files[i];
    }
  }

  /** The concatenated tags are empty exactly when no file is readable:
      every tag holds at least its own brackets. */
  lemma {:induction false} FileTextEmpty(files: seq<FileInput>)
    ensures Join(FileTags(files), "") == "" <==> forall i :: 0 <= i < |files| ==> files[i].text.None?
    decreases |files|
  {
    FileTagsEmpty(files);
    if files != [] {
      var init := files[..|files| - 1];
      var last := files[|files| - 1];
      FileTextEmpty(init);
      FileTagsEmpty(init);
      match last.text
      case None =>
      case Some(t) =>
        var tag := FileTag(last.name, t);
        assert tag[0] == '\n';
        JoinSnoc(FileTags(init), tag, "");
    }
  }

  function RoleLabel(role: Role): string {
    match role
    case User => "USER"
    case Model => "MODEL"
  }

  /** One message as `${m.role.toUpperCase()}: ${m.text}`. */
  function Line(m: Message): string {
    RoleLabel(m.role) + ": " + m.text
  }

  function Lines(messages: seq<Message>): (r: seq<string>)
    ensures |r| == |messages|
    ensures forall i :: 0 <= i < |messages| ==> r[i] == Line(messages[i])
  {
    seq(|messages|, i requires 0 <= i < |messages| => Line(messages[i]))
  }

  /** The conversation rendered line by line and joined by `sep`. */
  function Transcript(messages: seq<Message>, sep: string): string {
    Join(Lines(messages), sep)
  }

  /** Appending a message extends the transcript by one separator and the new
      line; nothing already rendered changes. */
  lemma TranscriptSnoc(messages: seq<Message>, m: Message, sep: string)
    ensures Transcript(messages + [m], sep)
         == if messages == [] then Line(m) else Transcript(messages, sep) + sep + Line(m)
  {
    assert Lines(messages + [m]) == Lines(messages) + [Line(m)];
    JoinSnoc(Lines(messages), Line(m), sep);
  }

  /** The first line of a transcript is the first message's. */
  lemma TranscriptFirst(messages: seq<Message>, sep: string)
    requires messages != []
    ensures Line(messages[0]) <= Transcript(messages, sep)
  {
    var lines := Lines(messages);
    if |lines| > 1 {
      var rest := Join(lines[1..], sep);
      assert Join(lines, sep) == lines[0] + sep + rest;
      assert (lines[0] + sep + rest)[..|lines[0]|] == lines[0];
    }
  }

  /** With the line feed as separator, a transcript of single-line messages
      splits back into one line per message. */
  lemma TranscriptLines(messages: seq<Message>)
    requires messages != []
    requires forall i :: 0 <= i < |messages| ==> '\n' !in messages[i].text
    ensures Split(Transcript(messages, "\n"), "\n") == Lines(messages)
  {
    var lines := Lines(messages);
    forall k | 0 <= k < |lines| ensures '\n' !in lines[k] {
      var m := messages[k];
      assert '\n' !in RoleLabel(m.role) + ": ";
      assert forall c :: c in lines[k] ==> c in RoleLabel(m.role) + ": " || c in m.text;
    }
    assert "\n"[..0] == [];
    SplitJoinParts(lines, "\n");
  }

  // ---------------------------------------------------------------------------
  // Conversations with the assistant

  /** `messages.map(m => ({ role: m.role, text: m.text }))`: the history the
      assistant is given. */
  function History(messages: seq<Message>): (r: seq<Turn>)
    ensures |r| == |messages|
    ensures forall i :: 0 <= i < |messages| ==> r[i].role == messages[i].role && r[i].text == messages[i].text
  {
    seq(|messages|, i requires 0 <= i < |messages| => Turn(messages[i].role, messages[i].text))
  }

  /** A conversation opened by the assistant's greeting and continued by
      whole exchanges: the assistant speaks at even positions, the user at odd
      ones, and the assistant has the last word. */
  predicate Alternating(messages: seq<Message>) {
    && |messages| % 2 == 1
    && forall i :: 0 <= i < |messages| ==> messages[i].role == (if i % 2 == 0 then Model else User)
  }

  /** A user message answered by the assistant keeps the conversation
      alternating, and nothing else does: appending two messages keeps it
      alternating exactly when they are a user turn and a model turn. */
  lemma AlternatingExchange(messages: seq<Message>, user: Message, reply: Message)
    requires Alternating(messages)
    ensures Alternating(messages + [user, reply]) <==> user.role == User && reply.role == Model
  {
    var n := |messages|;
    var ms := messages + [user, reply];
    assert ms[n] == user && ms[n + 1] == reply;
    if user.role == User && reply.role == Model {
      forall i | 0 <= i < |ms| ensures ms[i].role == (if i % 2 == 0 then Model else User) {
        if i < n {
          assert ms[i] == messages[i];
        }
      }
    }
  }
}
