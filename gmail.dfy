/** The Gmail service: the raw-message encoder and the handling of the send
    endpoint's response. The HTTP transport is an oracle from the request to
    the response, or to the error `fetch` rejects with. */
module Gmail {
  import opened Options
  import opened Types
  import opened Text
  import opened Encoding

  // ---------------------------------------------------------------------------
  // The raw message

  /** The Subject header: the subject as a "B" encoded word of RFC 2047
      (UTF-8, standard base64 with padding). */
  function SubjectHeader(subject: string): string {
    "Subject: =?utf-8?B?" + Encode(Utf8(subject), false, true) + "?="
  }

  /** `body.replace(/\n/g, '<br>')`. */
  function HtmlBody(body: string): (r: string)
    ensures '\n' !in r
    ensures '\n' !in body ==> r == body
  {
    ReplaceChar(body, '\n', "<br>")
  }

  /** Every line break of the draft becomes one `<br>`. */
  lemma HtmlBodyBreak(a: string, b: string)
    ensures HtmlBody(a + "\n" + b) == HtmlBody(a) + "<br>" + HtmlBody(b)
  {
    ReplaceCharAppend(a + "\n", b, '\n', "<br>");
    ReplaceCharAppend(a, "\n", '\n', "<br>");
  }

  /** The two fixed MIME headers are single lines. */
  lemma FixedHeadersSingleLine()
    ensures '\n' !in "MIME-Version: 1.0"
    ensures '\n' !in "Content-Type: text/html; charset=utf-8"
  {
    var h := "Content-Type: text/html; charset=utf-8";
    forall i | 0 <= i < |h| ensures h[i] != '\n' {
    }
  }

  /** The six lines of the message: the recipient verbatim, the encoded
      subject, the two MIME headers, the empty line ending the header section
      (section 2.1 of RFC 2822) and the HTML body. */
  function MessageLines(to: string, subject: string, body: string): seq<string> {
    ["To: " + to, SubjectHeader(subject), "MIME-Version: 1.0",
     "Content-Type: text/html; charset=utf-8", "", HtmlBody(body)]
  }

  function RawMessage(to: string, subject: string, body: string): string {
    Join(MessageLines(to, subject, body), "\r\n")
  }

  /** The URL-safe rewriting as the encoder writes it: every '+' becomes '-',
      every '/' becomes '_', and the trailing run of '=' is removed. */
  function UrlSafe(std: string): string {
    TrimTrailing(ReplaceChar(ReplaceChar(std, '+', "-"), '/', "_"), '=')
  }

  /** `createEmailRawString(to, subject, body)`. */
  function CreateEmailRawString(to: string, subject: string, body: string): (r: string)
    // the unpadded base64 of the message's UTF-8 bytes in the alphabet of
    // section 5 of RFC 4648
    ensures r == Encode(Utf8(RawMessage(to, subject, body)), true, false)
    ensures forall i :: 0 <= i < |r| ==> InAlphabet(r[i], true)
    ensures '+' !in r && '/' !in r && '=' !in r
  {
    var b := Utf8(RawMessage(to, subject, body));
    UrlSafeEncode(b);
    UrlSafeCharacters(b);
    UrlSafe(Encode(b, false, true))
  }

  /** The URL-safe unpadded encoding holds no character that would need
      escaping in a URL. */
  lemma UrlSafeCharacters(b: seq<byte>)
    ensures var r := Encode(b, true, false);
            && (forall i :: 0 <= i < |r| ==> InAlphabet(r[i], true))
            && '+' !in r && '/' !in r && '=' !in r
  {
    EncodeAlphabet(b, true);
  }

  /** The rewriting of one character: '+' to '-', '/' to '_'. */
  function SafeChar(c: char): char {
    if c == '+' then '-' else if c == '/' then '_' else c
  }

  /** The rewriting maps the standard alphabet onto the URL-safe one. */
  lemma SafeSextet(i: nat)
    requires i < 64
    ensures SafeChar(Sextet(i, false)) == Sextet(i, true)
  {
  }

  /** Translating one standard chunk gives the URL-safe chunk. */
  lemma UrlSafeChunk(g: seq<byte>)
    requires 1 <= |g| <= 3
    ensures ReplaceChar(ReplaceChar(Chunk(g, false), '+', "-"), '/', "_") == Chunk(g, true)
  {
    var s, u := Chunk(g, false), Chunk(g, true);
    var v := Sextets(g);
    forall i | 0 <= i < |s| ensures u[i] == SafeChar(s[i]) {
      SafeSextet(v[i]);
    }
    TranslateEach(s, u);
  }

  /** The two replacements act character by character. */
  lemma {:induction false} TranslateEach(s: string, u: string)
    requires |s| == |u|
    requires forall i :: 0 <= i < |s| ==> u[i] == SafeChar(s[i])
    ensures ReplaceChar(ReplaceChar(s, '+', "-"), '/', "_") == u
    decreases |s|
  {
    if s != [] {
      var t := ReplaceChar(s[1..], '+', "-");
      assert ReplaceChar(ReplaceChar(s, '+', "-"), '/', "_") == [u[0]] + ReplaceChar(t, '/', "_") by {
        var h := if s[0] == '+' then "-" else [s[0]];
        assert ReplaceChar(s, '+', "-") == h + t;
        ReplaceCharAppend(h, t, '/', "_");
        assert ReplaceChar(h, '/', "_") == [u[0]];
      }
      TranslateEach(s[1..], u[1..]);
      assert u == [u[0]] + u[1..];
    }
  }

  /** Rewriting standard unpadded base64 gives the URL-safe unpadded base64. */
  lemma {:induction false} UrlSafeUnpadded(b: seq<byte>)
    ensures ReplaceChar(ReplaceChar(Encode(b, false, false), '+', "-"), '/', "_") == Encode(b, true, false)
    decreases |b|
  {
    if 0 < |b| <= 3 {
      UrlSafeChunk(b);
      assert Encode(b, false, false) == Chunk(b, false);
      assert Encode(b, true, false) == Chunk(b, true);
    } else if |b| > 3 {
      UrlSafeChunk(b[..3]);
      UrlSafeUnpadded(b[3..]);
      ReplaceCharAppend(Chunk(b[..3], false), Encode(b[3..], false, false), '+', "-");
      ReplaceCharAppend(ReplaceChar(Chunk(b[..3], false), '+', "-"), ReplaceChar(Encode(b[3..], false, false), '+', "-"), '/', "_");
    }
  }

  /** The rewriting of `btoa`'s output is the URL-safe encoding without
      padding. */
  lemma UrlSafeEncode(b: seq<byte>)
    ensures UrlSafe(Encode(b, false, true)) == Encode(b, true, false)
  {
    var k := (3 - |b| % 3) % 3;
    var u := Encode(b, true, false);
    EncodePadding(b, false);
    UrlSafeUnpadded(b);
    ReplaceCharAppend(Encode(b, false, false), Repeat('=', k), '+', "-");
    ReplaceCharAppend(ReplaceChar(Encode(b, false, false), '+', "-"), Repeat('=', k), '/', "_");
    EncodeAlphabet(b, true);
    if u != [] {
      assert InAlphabet(u[|u| - 1], true);
    }
    TrimTrailingRepeat(u, '=', k);
  }

  /** The raw string decodes to the message's bytes, and those to the message. */
  lemma RawRoundTrip(to: string, subject: string, body: string)
    ensures Decode(CreateEmailRawString(to, subject, body), true) == Some(Utf8(RawMessage(to, subject, body)))
    ensures Utf8Decode(Utf8(RawMessage(to, subject, body))) == Some(RawMessage(to, subject, body))
  {
    DecodeEncode(Utf8(RawMessage(to, subject, body)), true);
    Utf8RoundTrip(RawMessage(to, subject, body));
  }

  /** The encoded word decodes back to the subject. */
  lemma SubjectRoundTrip(subject: string)
    ensures var h := SubjectHeader(subject);
            var word := h[19..|h| - 2];
            h[..19] == "Subject: =?utf-8?B?" && h[|h| - 2..] == "?=" &&
            DecodePadded(word, false) == Some(Utf8(subject))
    ensures Utf8Decode(Utf8(subject)) == Some(subject)
  {
    var h := SubjectHeader(subject);
    assert h[19..|h| - 2] == Encode(Utf8(subject), false, true);
    DecodePaddedEncode(Utf8(subject), false);
    Utf8RoundTrip(subject);
  }

  /** The encoded subject holds only alphabet characters and padding. */
  lemma SubjectSingleLine(subject: string)
    ensures '\n' !in SubjectHeader(subject)
  {
    var b := Utf8(subject);
    var e := Encode(b, false, true);
    var k := (3 - |b| % 3) % 3;
    EncodePadding(b, false);
    EncodeAlphabet(b, false);
    forall i | 0 <= i < |e| ensures e[i] != '\n' {
      if i < |Encode(b, false, false)| {
        assert InAlphabet(e[i], false);
      } else {
        assert e[i] == Repeat('=', k)[i - |Encode(b, false, false)|];
      }
    }
  }

  /** When the recipient holds no line feed, splitting the message on CRLF
      gives back exactly its six lines; `to` is not checked for one. */
  lemma MessageLayout(to: string, subject: string, body: string)
    requires '\n' !in to
    ensures Split(RawMessage(to, subject, body), "\r\n") == MessageLines(to, subject, body)
  {
    var lines := MessageLines(to, subject, body);
    SubjectSingleLine(subject);
    assert "\r\n"[1] !in "\r\n"[..1];
    assert '\n' !in lines[0] by {
      assert '\n' !in "To: ";
      assert forall c :: c in lines[0] ==> c in "To: " || c in to;
    }
    FixedHeadersSingleLine();
    forall k | 0 <= k < |lines| ensures '\n' !in lines[k] {
      assert k in {0, 1, 2, 3, 4, 5};
    }
    SplitJoinParts(lines, "\r\n");
  }

  // ---------------------------------------------------------------------------
  // Sending

  /** The POST to the send endpoint: the bearer token and the `raw` field. */
  datatype GmailRequest = GmailRequest(authorization: string, raw: string)

  /** The fields of a response body the application reads: the error message
      of a failure, the ids of a sent message. */
  datatype ReplyBody = ReplyBody(errorMessage: Option<string>, id: Option<string>, threadId: Option<string>)

  /** What `fetch` gives: a response, with its `ok` flag and its body (None
      when the body is not JSON), or the error it rejects with when no
      response arrives. */
  datatype GmailReply =
    | Response(ok: bool, body: Option<ReplyBody>)
    | NetworkError(message: string)

  datatype SendResult =
    | Sent(reply: ReplyBody)   // the parsed body of an OK response
    | Failed(message: string)  // the Error thrown for a non-OK response, or by `fetch`
    | Unreadable               // `response.json()` itself threw

  type Transport = GmailRequest -> GmailReply

  const SendFailure := "Failed to send email via Gmail API"

  function SendRequest(accessToken: string, to: string, subject: string, body: string): GmailRequest {
    GmailRequest("Bearer " + accessToken, CreateEmailRawString(to, subject, body))
  }

  /** `sendGmail`: an OK response yields its parsed body; any other response
      fails with the provider's message, or a fixed one when that is absent or
      empty; a network error fails with its own message. */
  function SendGmail(accessToken: string, to: string, subject: string, body: string, transport: Transport): (r: SendResult)
    ensures var reply := transport(SendRequest(accessToken, to, subject, body));
            && (reply.NetworkError? ==> r == Failed(reply.message))
            && (r.Sent? <==> reply.Response? && reply.ok && reply.body.Some?)
            && (r.Sent? ==> r.reply == reply.body.value)
            && (r.Unreadable? <==> reply.Response? && reply.body.None?)
            && (reply.Response? && r.Failed? ==>
                  && !reply.ok && r.message != ""
                  && (reply.body.value.errorMessage == Some(r.message)
                      || (!Truthy(reply.body.value.errorMessage) && r.message == SendFailure)))
  {
    match transport(SendRequest(accessToken, to, subject, body))
    case NetworkError(message) => Failed(message)
    case Response(ok, reply) =>
      match reply
      case None => Unreadable
      case Some(data) =>
        if ok then Sent(data)
        else if Truthy(data.errorMessage) then Failed(data.errorMessage.value)
        else Failed(SendFailure)
  }
}
