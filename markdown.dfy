/** The small Markdown renderer of the chat panels: the text is cut into
    paragraphs at blank lines, each paragraph is classified as a bullet list,
    a numbered list, a heading or plain text, and its text goes through an
    inline rewriter producing HTML. A rendered block is written as the HTML
    handed to the page. */
module Markdown {
  import opened Options
  import opened Text

  // ---------------------------------------------------------------------------
  // Inline rewriting

  const StrongOpen := "<strong class=\"text-white font-semibold\">"
  const StrongClose := "</strong>"
  const EmOpen := "<em class=\"text-zinc-300\">"
  const EmClose := "</em>"
  const CodeOpen := "<code class=\"bg-white/10 px-1 rounded text-xs font-mono\">"
  const CodeClose := "</code>"

  /** An inline marker: one character, written once or twice. */
  datatype Marker = Marker(c: char, double: bool) {
    function Text(): (r: string)
      ensures |r| >= 1 && r[0] == c
    {
      if double then [c, c] else [c]
    }
  }

  const Bold := Marker('*', true)
  const Italic := Marker('*', false)
  const Code := Marker('`', false)

  /** `t` starts with the marker. */
  predicate OpensAt(t: string, m: Marker) {
    |t| >= |m.Text()| && t[0] == m.c && (!m.double || t[1] == m.c)
  }

  /** The characters `.` does not match in a regular expression without the
      `s` flag: line feed, carriage return, line separator and paragraph
      separator. */
  predicate LineBreak(c: char) {
    c == '\n' || c == '\r' || c == '\U{2028}' || c == '\U{2029}'
  }

  predicate OneLine(s: string) {
    forall i :: 0 <= i < |s| ==> !LineBreak(s[i])
  }

  /** The length of the text a lazy `(.*?)` captures before the closing
      marker at the start of `t`: at each position the closing marker is
      tried first, and a line break ends the attempt. */
  function CloseLen(t: string, m: Marker): (r: Option<nat>)
    ensures r.Some? ==> r.value + |m.Text()| <= |t|
    decreases |t|
  {
    if OpensAt(t, m) then Some(0)
    else if t == [] || LineBreak(t[0]) then None
    else match CloseLen(t[1..], m)
      case None => None
      case Some(k) => Some(k + 1)
  }

  /** Text on one line without the marker's character is captured whole, up
      to the marker after it. */
  lemma {:induction false} CloseLenFound(x: string, m: Marker, rest: string)
    requires m.c !in x && OneLine(x)
    ensures CloseLen(x + m.Text() + rest, m) == Some(|x|)
    decreases |x|
  {
    var t := x + m.Text() + rest;
    if x == [] {
      assert t == m.Text() + rest;
    } else {
      assert t[0] == x[0];
      assert t[1..] == x[1..] + m.Text() + rest;
      CloseLenFound(x[1..], m, rest);
    }
  }

  /** A line break before any marker ends the attempt. */
  lemma {:induction false} CloseLenBlocked(x: string, m: Marker, rest: string)
    requires m.c !in x && !OneLine(x)
    ensures CloseLen(x + rest, m).None?
    decreases |x|
  {
    var t := x + rest;
    assert t[0] == x[0];
    if !LineBreak(x[0]) {
      assert t[1..] == x[1..] + rest;
      assert !OneLine(x[1..]) by {
        var i :| 0 <= i < |x| && LineBreak(x[i]);
        assert x[1..][i - 1] == x[i];
      }
      CloseLenBlocked(x[1..], m, rest);
    }
  }

  /** The length of the span enclosed by a marker pair at the start of `s`,
      if there is one. */
  function SpanAt(s: string, m: Marker): (r: Option<nat>)
    ensures r.Some? ==> |m.Text()| + r.value + |m.Text()| <= |s|
  {
    if OpensAt(s, m) then CloseLen(s[|m.Text()|..], m) else None
  }

  /** `s.replace(/m(.*?)m/g, open + "$1" + close)`: scanning left to right,
      an opening marker with a closing one later on the same line wraps the
      text between them; any other character is copied. */
  function Wrap(s: string, m: Marker, open: string, close: string): string
    decreases |s|
  {
    if s == [] then []
    else match SpanAt(s, m)
      case Some(k) =>
        var n := |m.Text()|;
        open + s[n..n + k] + close + Wrap(s[n + k + n..], m, open, close)
      case None => [s[0]] + Wrap(s[1..], m, open, close)
  }

  /** Text free of the marker's character is copied as it is. */
  lemma {:induction false} WrapPass(x: string, rest: string, m: Marker, open: string, close: string)
    requires m.c !in x
    ensures Wrap(x + rest, m, open, close) == x + Wrap(rest, m, open, close)
    decreases |x|
  {
    if x != [] {
      var s := x + rest;
      assert s[0] == x[0] && s[1..] == x[1..] + rest;
      WrapPass(x[1..], rest, m, open, close);
      assert x == [x[0]] + x[1..];
    } else {
      assert x + rest == rest;
    }
  }

  /** Text without the marker's character passes through. */
  lemma WrapAbsent(s: string, m: Marker, open: string, close: string)
    requires m.c !in s
    ensures Wrap(s, m, open, close) == s
  {
    WrapPass(s, [], m, open, close);
    assert s + [] == s;
  }

  /** Wrapping adds no line feed beyond those of the text and the tags. */
  lemma {:induction false} WrapSingleLine(s: string, m: Marker, open: string, close: string)
    requires '\n' !in s && '\n' !in open && '\n' !in close
    ensures '\n' !in Wrap(s, m, open, close)
    decreases |s|
  {
    if s != [] {
      match SpanAt(s, m)
      case Some(k) =>
        var n := |m.Text()|;
        assert forall c :: c in s[n..n + k] ==> c in s;
        assert forall c :: c in s[n + k + n..] ==> c in s;
        WrapSingleLine(s[n + k + n..], m, open, close);
      case None =>
        WrapSingleLine(s[1..], m, open, close);
    }
  }

  /** A delimited span on one line is wrapped, the shortest one first. */
  lemma WrapSpan(x: string, rest: string, m: Marker, open: string, close: string)
    requires m.c !in x && OneLine(x)
    ensures Wrap(m.Text() + x + m.Text() + rest, m, open, close) == open + x + close + Wrap(rest, m, open, close)
  {
    var d := m.Text();
    var s := d + x + d + rest;
    assert s[|d|..] == x + d + rest;
    CloseLenFound(x, m, rest);
    assert s[|d|..|d| + |x|] == x;
    assert s[|d| + |x| + |d|..] == rest;
  }

  /** A one-character marker pair around text holding a line break is left
      as it is: the match does not cross the line. */
  lemma WrapAcrossLine(x: string, m: Marker, open: string, close: string)
    requires !m.double && m.c !in x && !OneLine(x)
    ensures Wrap([m.c] + x + [m.c], m, open, close) == [m.c] + x + [m.c]
  {
    var s := [m.c] + x + [m.c];
    assert s[1..] == x + [m.c];
    CloseLenBlocked(x, m, [m.c]);
    WrapPass(x, [m.c], m, open, close);
    assert Wrap([m.c], m, open, close) == [m.c];
  }

  /** `parseInline`: bold, then italic, then code, then every line feed
      becomes `<br/>`. The output never holds a line feed. */
  function ParseInline(text: string): (r: string)
    ensures '\n' !in r
  {
    var bold := Wrap(text, Bold, StrongOpen, StrongClose);
    var italic := Wrap(bold, Italic, EmOpen, EmClose);
    var code := Wrap(italic, Code, CodeOpen, CodeClose);
    ReplaceChar(code, '\n', "<br/>")
  }

  /** Neither a marker character nor a line feed. */
  predicate Plain(s: string) {
    forall i :: 0 <= i < |s| ==> s[i] != '*' && s[i] != '`' && s[i] != '\n'
  }

  /** Text that is plain passes through unchanged: nothing is escaped, so
      markup in the text reaches the page as markup. */
  lemma ParseInlinePlain(text: string)
    requires Plain(text)
    ensures ParseInline(text) == text
  {
    assert '*' !in text && '`' !in text && '\n' !in text;
    WrapAbsent(text, Bold, StrongOpen, StrongClose);
    WrapAbsent(text, Italic, EmOpen, EmClose);
    WrapAbsent(text, Code, CodeOpen, CodeClose);
  }

  /** The tags the bold and italic stages insert are plain. */
  lemma StrongPlain()
    ensures Plain(StrongOpen)
  {
  }

  lemma EmPlain()
    ensures Plain(EmOpen) && Plain(EmClose)
  {
  }

  lemma PlainConcat(a: string, b: string, c: string)
    requires Plain(a) && Plain(b) && Plain(c)
    ensures Plain(a + b + c)
  {
    var s := a + b + c;
    forall i | 0 <= i < |s| ensures s[i] != '*' && s[i] != '`' && s[i] != '\n' {
      if i < |a| {
        assert s[i] == a[i];
      } else if i < |a| + |b| {
        assert s[i] == b[i - |a|];
      } else {
        assert s[i] == c[i - |a| - |b|];
      }
    }
  }

  /** Once a stage leaves plain text, the later stages change nothing. */
  lemma AfterItalic(text: string, e: string)
    requires Wrap(Wrap(text, Bold, StrongOpen, StrongClose), Italic, EmOpen, EmClose) == e
    requires Plain(e)
    ensures ParseInline(text) == e
  {
    assert '`' !in e && '\n' !in e;
    WrapAbsent(e, Code, CodeOpen, CodeClose);
  }

  lemma AfterBold(text: string, b: string)
    requires Wrap(text, Bold, StrongOpen, StrongClose) == b
    requires Plain(b)
    ensures ParseInline(text) == b
  {
    assert '*' !in b;
    WrapAbsent(b, Italic, EmOpen, EmClose);
    AfterItalic(text, b);
  }

  /** A bold span on one line becomes a `strong` element. */
  lemma ParseInlineBold(x: string)
    requires Plain(x) && OneLine(x)
    ensures ParseInline("**" + x + "**") == StrongOpen + x + StrongClose
  {
    assert Bold.Text() == "**";
    assert '*' !in x;
    WrapSpan(x, [], Bold, StrongOpen, StrongClose);
    assert "**" + x + "**" + [] == "**" + x + "**";
    WrapAbsent([], Bold, StrongOpen, StrongClose);
    StrongPlain();
    assert Plain(StrongClose);
    PlainConcat(StrongOpen, x, StrongClose);
    AfterBold("**" + x + "**", StrongOpen + x + StrongClose);
  }

  /** An italic span on one line becomes an `em` element. */
  lemma ParseInlineItalic(x: string)
    requires Plain(x) && OneLine(x)
    ensures ParseInline("*" + x + "*") == EmOpen + x + EmClose
  {
    assert '*' !in x && '`' !in x;
    BoldSkipsSingle(x);
    assert Italic.Text() == "*";
    WrapSpan(x, [], Italic, EmOpen, EmClose);
    assert "*" + x + "*" + [] == "*" + x + "*";
    WrapAbsent([], Italic, EmOpen, EmClose);
    EmPlain();
    PlainConcat(EmOpen, x, EmClose);
    AfterItalic("*" + x + "*", EmOpen + x + EmClose);
  }

  /** Single asterisks around asterisk-free text are not a bold span. */
  lemma BoldSkipsSingle(x: string)
    requires '*' !in x
    ensures Wrap("*" + x + "*", Bold, StrongOpen, StrongClose) == "*" + x + "*"
  {
    var s := "*" + x + "*";
    assert Wrap("*", Bold, StrongOpen, StrongClose) == "*";
    if x == [] {
      assert s == "**" && s[2..] == [];
      assert SpanAt(s, Bold).None?;
      assert s[1..] == "*";
    } else {
      assert s[1] == x[0];
      assert s[1..] == x + "*";
      WrapPass(x, "*", Bold, StrongOpen, StrongClose);
    }
  }

  /** Markers on different lines are not paired, whichever line break
      separates them: both asterisks stay, and only line feeds become
      breaks. */
  lemma ParseInlineAcrossLines(x: string)
    requires '*' !in x && '`' !in x && !OneLine(x)
    ensures ParseInline("*" + x + "*") == "*" + ReplaceChar(x, '\n', "<br/>") + "*"
  {
    BoldSkipsSingle(x);
    WrapAcrossLine(x, Italic, EmOpen, EmClose);
    var s := "*" + x + "*";
    assert '`' !in s;
    WrapAbsent(s, Code, CodeOpen, CodeClose);
    ReplaceCharAppend("*" + x, "*", '\n', "<br/>");
    ReplaceCharAppend("*", x, '\n', "<br/>");
  }

  // ---------------------------------------------------------------------------
  // Paragraphs

  datatype ListKind = Bullets | Numbers

  /** The length of the leading run of decimal digits. */
  function DigitRun(p: string): (r: nat)
    ensures r <= |p|
    ensures forall i :: 0 <= i < r ==> IsDigit(p[i])
    ensures r == |p| || !IsDigit(p[r])
  {
    if p != [] && IsDigit(p[0]) then 1 + DigitRun(p[1..]) else 0
  }

  /** `/^\d+\. /`: the digits before ". " must be the whole leading run. */
  predicate IsNumbered(p: string) {
    var n := DigitRun(p);
    n >= 1 && n + 2 <= |p| && p[n] == '.' && p[n + 1] == ' '
  }

  /** The test succeeds exactly when some non-empty run of digits is followed
      by a dot and a space. */
  lemma NumberedIff(p: string)
    ensures IsNumbered(p) <==>
            exists k :: 1 <= k && k + 2 <= |p| && (forall i :: 0 <= i < k ==> IsDigit(p[i])) && p[k] == '.' && p[k + 1] == ' '
  {
    var n := DigitRun(p);
    if IsNumbered(p) {
      assert (forall i :: 0 <= i < n ==> IsDigit(p[i])) && p[n] == '.';
    }
    forall k | 1 <= k && k + 2 <= |p| && (forall i :: 0 <= i < k ==> IsDigit(p[i])) && p[k] == '.' && p[k + 1] == ' '
      ensures IsNumbered(p)
    {
    }
  }

  predicate IsBullet(p: string) {
    "- " <= p || "* " <= p
  }

  /** The length of the item separator starting `rest`, 0 when there is none:
      a line feed, "-" or "*", a space for bullets; a line feed, digits, a
      dot and a space for numbers. */
  function SepLen(kind: ListKind, rest: string): (r: nat)
    ensures r <= |rest|
    ensures r > 0 ==> r >= 3 && rest[0] == '\n'
  {
    if rest == [] || rest[0] != '\n' then 0
    else match kind
      case Bullets =>
        if |rest| >= 3 && (rest[1] == '-' || rest[1] == '*') && rest[2] == ' ' then 3 else 0
      case Numbers =>
        if IsNumbered(rest[1..]) then 1 + DigitRun(rest[1..]) + 2 else 0
  }

  /** `paragraph.split(/\n[-*] /)` or `paragraph.split(/\n\d+\. /)`. */
  function SplitItems(rest: string, kind: ListKind, piece: string): (r: seq<string>)
    ensures |r| >= 1
    decreases |rest|
  {
    if rest == [] then [piece]
    else if SepLen(kind, rest) > 0 then [piece] + SplitItems(rest[SepLen(kind, rest)..], kind, "")
    else SplitItems(rest[1..], kind, piece + [rest[0]])
  }

  /** Reading a line-feed-free stretch only extends the current item. */
  lemma {:induction false} ScanItem(x: string, tail: string, kind: ListKind, piece: string)
    requires '\n' !in x
    ensures SplitItems(x + tail, kind, piece) == SplitItems(tail, kind, piece + x)
    decreases |x|
  {
    if x == [] {
      assert x + tail == tail && piece + x == piece;
    } else {
      var s := x + tail;
      assert s[0] == x[0] && s[1..] == x[1..] + tail;
      ScanItem(x[1..], tail, kind, piece + [x[0]]);
      assert piece + [x[0]] + x[1..] == piece + x;
    }
  }

  /** `.filter(Boolean)`: the empty items are dropped. */
  function Compact(parts: seq<string>): (r: seq<string>)
    ensures |r| <= |parts|
    ensures forall i :: 0 <= i < |r| ==> r[i] != "" && r[i] in parts
    ensures (forall i :: 0 <= i < |parts| ==> parts[i] != "") ==> r == parts
  {
    if parts == [] then []
    else if parts[0] == "" then Compact(parts[1..])
    else [parts[0]] + Compact(parts[1..])
  }

  /** Filtering distributes over concatenation, so it keeps the order of the
      non-empty parts. */
  lemma {:induction false} CompactAppend(a: seq<string>, b: seq<string>)
    ensures Compact(a + b) == Compact(a) + Compact(b)
    decreases |a|
  {
    if a == [] {
      assert a + b == b;
    } else {
      assert (a + b)[0] == a[0] && (a + b)[1..] == a[1..] + b;
      CompactAppend(a[1..], b);
    }
  }

  /** One part is kept exactly when it is not empty. */
  lemma CompactSingle(x: string)
    ensures Compact([x]) == (if x == "" then [] else [x])
  {
    assert [x][1..] == [];
  }

  function ListItems(kind: ListKind, p: string): seq<string> {
    Compact(SplitItems(p, kind, ""))
  }

  /** The first item is the text before the first separator, list marker
      included. */
  lemma FirstItem(kind: ListKind, x: string, rest: string)
    requires x != "" && '\n' !in x
    requires rest == [] || SepLen(kind, rest) > 0
    ensures |ListItems(kind, x + rest)| >= 1 && ListItems(kind, x + rest)[0] == x
  {
    ScanItem(x, rest, kind, "");
    assert "" + x == x;
  }

  /** Two bullet lines give two items: the first keeps its "- ", the second
      loses its marker. */
  lemma TwoBullets(a: string, b: string)
    requires '\n' !in a && '\n' !in b && b != ""
    ensures ListItems(Bullets, "- " + a + "\n* " + b) == ["- " + a, b]
  {
    var x := "- " + a;
    var t := "\n* " + b;
    assert '\n' !in x by { assert forall c :: c in x ==> c in "- " || c in a; }
    assert SepLen(Bullets, t) == 3;
    ScanItem(x, t, Bullets, "");
    assert "" + x == x;
    assert SplitItems(t, Bullets, x) == [x] + SplitItems(b, Bullets, "") by {
      assert t[3..] == b;
    }
    ScanItem(b, [], Bullets, "");
    assert b + [] == b && "" + b == b;
    assert SplitItems(b, Bullets, "") == [b];
    assert SplitItems(x + t, Bullets, "") == [x, b];
    assert x + t == "- " + a + "\n* " + b;
  }

  function InlineAll(items: seq<string>): (r: seq<string>)
    ensures |r| == |items|
    ensures forall i :: 0 <= i < |r| ==> r[i] == ParseInline(items[i])
  {
    seq(|items|, i requires 0 <= i < |items| => ParseInline(items[i]))
  }

  /** One rendered paragraph; each holds the HTML of its text. */
  datatype Block =
    | BulletList(items: seq<string>)
    | NumberedList(items: seq<string>)
    | Heading3(html: string)
    | Heading2(html: string)
    | Paragraph(html: string)

  /** The classification, first match wins: bullets, numbers, "### ", "## ",
      plain text. A heading loses its first marker. */
  function RenderParagraph(p: string): (r: Block)
    ensures r.BulletList? <==> IsBullet(p)
    ensures r.NumberedList? <==> !IsBullet(p) && IsNumbered(p)
    ensures r.Heading3? <==> !IsBullet(p) && !IsNumbered(p) && "### " <= p
    ensures r.Heading2? <==> !IsBullet(p) && !IsNumbered(p) && !("### " <= p) && "## " <= p
    ensures r.Paragraph? ==> r.html == ParseInline(p)
  {
    if IsBullet(p) then BulletList(InlineAll(ListItems(Bullets, p)))
    else if IsNumbered(p) then NumberedList(InlineAll(ListItems(Numbers, p)))
    else if "### " <= p then Heading3(ParseInline(ReplaceFirst(p, "### ", "")))
    else if "## " <= p then Heading2(ParseInline(ReplaceFirst(p, "## ", "")))
    else Paragraph(ParseInline(p))
  }

  /** A paragraph starting with '#' is no list. */
  lemma NotList(p: string)
    requires p != [] && p[0] == '#'
    ensures !IsBullet(p) && !IsNumbered(p)
  {
    assert DigitRun(p) == 0;
  }

  /** A "### " paragraph is a level-3 heading of the text after the marker. */
  lemma Heading3Text(p: string)
    requires "### " <= p
    ensures RenderParagraph(p) == Heading3(ParseInline(p[4..]))
  {
    NotList(p);
    ReplaceFirstAtStart(p, "### ", "");
    assert ReplaceFirst(p, "### ", "") == p[4..];
  }

  /** A "## " paragraph is a level-2 heading of the text after the marker. */
  lemma Heading2Text(p: string)
    requires "## " <= p
    ensures RenderParagraph(p) == Heading2(ParseInline(p[3..]))
  {
    NotList(p);
    assert !("### " <= p) by { assert p[2] == ' '; }
    ReplaceFirstAtStart(p, "## ", "");
    assert ReplaceFirst(p, "## ", "") == p[3..];
  }

  /** A paragraph starting with digits, a dot and a space is a numbered list. */
  lemma NumberedListParagraph(p: string)
    requires IsNumbered(p)
    ensures RenderParagraph(p).NumberedList?
  {
    assert IsDigit(p[0]);
  }

  /** The HTML of a block never holds a line feed. */
  lemma BlockSingleLine(p: string)
    ensures var b := RenderParagraph(p);
            && (b.BulletList? || b.NumberedList? ==> forall i :: 0 <= i < |b.items| ==> '\n' !in b.items[i])
            && (!(b.BulletList? || b.NumberedList?) ==> '\n' !in b.html)
  {
  }

  function RenderAll(paragraphs: seq<string>): (r: seq<Block>)
    ensures |r| == |paragraphs|
    ensures forall i :: 0 <= i < |r| ==> r[i] == RenderParagraph(paragraphs[i])
  {
    seq(|paragraphs|, i requires 0 <= i < |paragraphs| => RenderParagraph(paragraphs[i]))
  }

  /** `Markdown`: nothing for empty content, otherwise one block per
      blank-line-separated paragraph. */
  function Render(content: string): (r: Option<seq<Block>>)
    ensures r.None? <==> content == ""
    ensures r.Some? ==> |r.value| == |Split(content, "\n\n")|
  {
    if content == "" then None else Some(RenderAll(Split(content, "\n\n")))
  }

  /** Rendering yields nothing exactly for the empty content; otherwise the
      paragraphs, rejoined with blank lines, give back the content, and the
      blocks follow them one for one and in order. */
  lemma RenderParagraphs(content: string)
    ensures Render(content).None? <==> content == ""
    ensures content != "" ==>
              var ps := Split(content, "\n\n");
              && Join(ps, "\n\n") == content
              && |Render(content).value| == |ps|
              && forall i :: 0 <= i < |ps| ==> Render(content).value[i] == RenderParagraph(ps[i])
  {
    JoinSplit(content, "\n\n");
  }
}
