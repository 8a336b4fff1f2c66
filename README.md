# AutoPropecAI in Dafny

A Dafny model of AutoPropecAI's core logic. AutoPropecAI is a browser application for B2B prospecting. It finds or audits prospects ("leads") with an AI backend, enriches them with a fit analysis and a first e-mail draft, and refines the draft in a chat. It sends the draft through the Gmail API and keeps campaigns ("projects") and the working session in browser storage.

The model is split into modules that follow the source files:

| module | file | models |
|---|---|---|
| `Types` | `types.dfy` | `types.ts`: leads, projects, messages, audit and fit results, steps, languages |
| `Gemini` | `gemini.dfy` | `services/geminiService.ts`: the retry wrapper and the six stage operations with their safe defaults |
| `Encoding` | `encoding.dfy` | UTF-8 (RFC 3629) and base64 / base64url (sections 4 and 5 of RFC 4648), with decoders for the round trips |
| `Gmail` | `gmail.dfy` | `services/gmailService.ts`: the raw RFC 2822 message, its RFC 2047 Subject, the URL-safe encoding and the response handling |
| `EmailDashboard` | `dashboard.dfy` | `components/EmailDashboard.tsx`: enrichment, refinement, manual edit and send of a lead |
| `App` | `app.dfy` | `App.tsx`: the session and project store and its persistence |
| `WebAnalyzer` | `web_analyzer.dfy` | `components/WebAnalyzer.tsx`: URL cleaning, name derivation, the audit lead |
| `LeadFinder` | `lead_finder.dfy` | `components/LeadFinder.tsx`: the search guard, the context text, the result branch |
| `Markdown` | `markdown.dfy` | `components/Markdown.tsx`: paragraph classification and the inline rewriter |
| `GlobalAssistant` | `global_assistant.dfy` | `components/GlobalAssistant.tsx`: the assistant drawer's send handler |
| `ContextChat` | `context_chat.dfy` | `components/ContextChat.tsx`: the business-context chat's send and finish handlers |
| `Formats` | `formats.dfy` | file tags and transcripts shared by the handlers above |
| `Text`, `Options` | `text.dfy`, `option.dfy` | JavaScript string operations (`startsWith`, first-occurrence `replace`, `split`, `join`, `trim`, `toString` of an integer) and `Option` |

**Abstractions.** The model makes these substitutions for the parts it cannot see:

- **AI backend.** It is an oracle `Backend<R> = (R, nat) -> Outcome<string>`: for a request and the number of earlier invocations, it gives the reply text or the thrown error. The text "" stands for an absent `response.text`.
- **JSON parsing.** `JSON.parse` together with the schema of a stage is an oracle `string -> Option<T>`; None stands for a `JSON.parse` throw. What a reply that parses to a partial object, `{}` or `null` yields is up to the oracle, because the closed records cannot hold such a value (see "Left out").
- **Gmail `fetch`.** It is a `Transport` from the request to an abstract response, or to the network error `fetch` rejects with.
- **Browser storage.** It is a map from key to the parsed value last written there.
- **Clock readings.** They are `nat` parameters; `toLocaleDateString` is a `dateText` parameter.
- **Attached files.** `file.text()` is an `Option<string>` per file, where None is a failed read.

React components whose state the handlers update are classes. Their handlers are atomic methods with `modifies this`. Each handler is proved against a pure function that states the new lead or state: `AnalyzedLead`, `RefinedLead`, `ContactedLead`, `ReplaceById`, `SetProjectLeads`, `NewProject`, `FileTags`, `Transcript`. Those functions' properties are proved as lemmas.

The enumerations of `types.ts` are closed datatypes, so a `Lead.status` is exactly one of four values (types.ts:45), a role one of two (types.ts:30), an `AppStep` one of five (types.ts:76-82) and a `Language` one of three (types.ts:1). The `Lead` enrichment fields and `verificationStatus` are independent `Option`s (types.ts:25, types.ts:48-53).

## Model

| member | source | states |
|---|---|---|
| Gemini.RateLimitSignals | services/geminiService.ts:16-24 | Without a message, an error is a rate limit exactly when its status or its code is 429. A message containing "429", "RESOURCE_EXHAUSTED" or "quota" anywhere makes any error a rate limit. |
| Gemini.CallWithRetry | services/geminiService.ts:9-33 | A wrapped call waits at most `retries` times, and its result is the outcome of the invocation that follows its last wait. |
| Gemini.RetryContract | services/geminiService.ts:9-33 | The wrapper stops after at most `retries` waits. The k-th wait is `delay·2^k`. Every invocation before the last threw a rate-limit error. The result is exactly the last invocation's outcome. Stopping early means that outcome is not a rate-limit error. |
| Gemini.RetryRecovers | services/geminiService.ts:14-29 | After m ≤ retries rate-limit errors and then a success, the success is returned unchanged, after the m doubling waits. |
| Gemini.RetryGivesUp | services/geminiService.ts:26-31 | When every invocation is rate-limited, the wrapper makes retries+1 attempts with `retries` waits and rethrows the last error. |
| Gemini.RetryFailsFast | services/geminiService.ts:17-31 | An error that is not a rate limit (status, code and message all fail the test) is rethrown at once, with no wait. |
| Gemini.CallCases | services/geminiService.ts:9-33 | With the stage defaults (3 retries), an exhausted budget yields an error. A first error that is not a rate limit is returned as it is. A first success is returned as it is. |
| Gemini.SendAssistantMessage | services/geminiService.ts:36-77 | The assistant always answers with a non-empty text: the fixed apology when the wrapped call fails, "Error." for an empty reply, and otherwise the reply, whether it came at once or after rate-limit retries. |
| Gemini.AssistantPromptExtends | services/geminiService.ts:59-62 | The prompt begins with the user's message. It differs from it exactly when file contents are attached. |
| Gemini.AssistantFallback | services/geminiService.ts:64-76 | The request carries the history unchanged followed by one turn. A failed call gives "System overloaded. Try again.". An empty reply gives "Error.". Any other reply is returned as it is, including one that arrives after rate-limit retries. |
| Gemini.FindLeadsOnMaps | services/geminiService.ts:80-143 | Every found lead has status new and id `lead-<t>-<i>` for its index i, so the ids are pairwise distinct. None has a rating, audit or draft. A failed search, a failed extraction call or a reply that does not parse yields the empty list; a parsed reply yields exactly its discovered leads. |
| Gemini.DiscoveredLeads | services/geminiService.ts:127-137 | One lead per parsed record, in order. Each copies the record's name, address, website, phone, business type and notes, with status new and a distinct index-based id. |
| Gemini.DiscoveryIdInjective | services/geminiService.ts:129 | Two discovery ids are equal only for the same instant and index. |
| Gemini.FindLeadsKeepsRecords | services/geminiService.ts:96-137 | When both calls and the parse succeed, the result has exactly the parsed records' count and copied fields. |
| Gemini.DeepAnalyzeLead | services/geminiService.ts:146-198 | A failed call gives the failure analysis. Any other result is the parse of the reply, or of "{}" when the reply is empty. A reply, at once or after rate-limit retries, gives what it parses to, and the failure analysis when it does not parse. |
| Gemini.DeepAnalysisFallback | services/geminiService.ts:146-198 | A failed call gives the fixed failure analysis (score 0, "Analysis failed.", no pain points, no stack, Uncertain). An empty reply is parsed as "{}" rather than replaced. A parse error also gives the failure analysis. |
| Gemini.LeadScoreUnchecked | services/geminiService.ts:188 | The score is whatever the backend's JSON holds, not necessarily within 0-100. |
| Gemini.AnalyzeWebsite | services/geminiService.ts:201-228 | A failed call gives the failure report. Any other result is the parse of the reply, or of "{}" when the reply is empty. A reply, at once or after rate-limit retries, gives what it parses to, and the failure report when it does not parse. |
| Gemini.AuditFallback | services/geminiService.ts:201-228 | A failed call or parse gives all-zero scores, no issues, no positives and the summary "Error". A successful reply, or "{}" when it is empty, is parsed. |
| Gemini.GenerateInitialEmail | services/geminiService.ts:231-263 | A failed call gives "Error generating email.". Any other result is the reply text, an empty one included. A reply, at once or after rate-limit retries, is the draft as it is. |
| Gemini.DraftFallback | services/geminiService.ts:231-263 | A failed call gives "Error generating email."; otherwise the reply text, possibly empty, is the draft. |
| Gemini.RefineEmailWithAI | services/geminiService.ts:266-299 | The result is either the current draft or the reply text, and a non-empty draft is never replaced by an empty text. A failed call or an empty reply keeps the draft; a non-empty reply, at once or after retries, replaces it. |
| Gemini.RefineFallback | services/geminiService.ts:266-299 | A failed call or an empty reply keeps the current draft; any other reply replaces it. |
| Encoding.CharBytes | services/gmailService.ts:5 | One character's UTF-8 form takes 1 to 4 bytes, one exactly for ASCII, and every byte after the first is a continuation byte. |
| Encoding.Utf8 | services/gmailService.ts:15 | The UTF-8 bytes of a text are at least as many as its characters; `Utf8Append` and `Utf8RoundTrip` state the rest. |
| Encoding.Utf8Append | services/gmailService.ts:15 | UTF-8 encoding distributes over concatenation. |
| Encoding.Utf8RoundTrip | services/gmailService.ts:15 | Decoding the UTF-8 bytes of any text gives the text back. |
| Encoding.SextetRoundTrip | services/gmailService.ts:15-17 | Each 6-bit value maps to a letter of the chosen alphabet, and that letter maps back to the value. |
| Encoding.Encode | services/gmailService.ts:15 | Padded base64 has 4·⌈n/3⌉ characters; unpadded base64 has n + ⌈n/3⌉. |
| Encoding.EncodeAlphabet | services/gmailService.ts:15-17 | Every character of the unpadded encoding is in the chosen alphabet. |
| Encoding.EncodePadding | services/gmailService.ts:15-18 | The padded encoding is the unpadded one followed by (3 − n mod 3) mod 3 '=' characters. |
| Encoding.ChunkRoundTrip | services/gmailService.ts:15 | A group of 1-3 bytes is recovered from its 2-4 characters. |
| Encoding.DecodeEncode | services/gmailService.ts:15-18 | Decoding the unpadded encoding of any bytes gives them back, in both alphabets. |
| Encoding.TrimTrailingRepeat | services/gmailService.ts:18 | Removing the trailing '=' run from text that ends otherwise, followed by k '=', gives the text back. |
| Encoding.DecodePaddedEncode | services/gmailService.ts:5 | The padded standard encoding decodes back to the bytes. |
| Gmail.HtmlBody | services/gmailService.ts:9 | The converted body has no line feed; a body without one is unchanged. |
| Gmail.HtmlBodyBreak | services/gmailService.ts:9 | Each line feed of the body becomes "<br>", and the rest is kept. |
| Gmail.CreateEmailRawString | services/gmailService.ts:2-19 | The raw string is the unpadded base64url of the message's UTF-8 bytes. Every character is in the URL-safe alphabet, with no '+', '/' or '='. |
| Gmail.UrlSafeEncode | services/gmailService.ts:15-18 | Replacing '+' with '-' and '/' with '_' in the standard padded encoding, then stripping the trailing '=', gives the unpadded URL-safe encoding. |
| Gmail.UrlSafeUnpadded | services/gmailService.ts:16-17 | The two character replacements turn the standard unpadded encoding into the URL-safe one. |
| Gmail.RawRoundTrip | services/gmailService.ts:2-19 | Decoding the raw string gives back the UTF-8 bytes of the message, and they decode to the message text. |
| Gmail.SubjectRoundTrip | services/gmailService.ts:5 | The Subject line is "Subject: =?utf-8?B?" followed by an encoded word and then "?=". The word decodes to the subject's UTF-8 bytes, which decode to the subject. |
| Gmail.SubjectSingleLine | services/gmailService.ts:5 | The Subject header never contains a line feed, whatever the subject. |
| Gmail.MessageLayout | services/gmailService.ts:3-12 | For a recipient without a line feed, splitting the message at CRLF gives exactly the six lines: To, Subject, MIME-Version, Content-Type, the empty line and the body. |
| Gmail.SendGmail | services/gmailService.ts:21-41 | The result is the provider's body exactly when the response is OK. A non-OK response fails with the provider's error message, or with "Failed to send email via Gmail API" when there is none; the message is never empty. A network error fails with its own message. An unreadable body is an error of its own. |
| EmailDashboard.ReplaceById | components/EmailDashboard.tsx:69 | The list keeps its length. Entries with the id become the new lead, and every other entry is unchanged. |
| EmailDashboard.ReplaceByIdAbsent | components/EmailDashboard.tsx:113 | A list without the id is left as it is. |
| EmailDashboard.ReplaceByIdTwice | components/EmailDashboard.tsx:135 | A second replacement of the same lead overrides the first. |
| EmailDashboard.AnalyzedLead | components/EmailDashboard.tsx:45-66 | Only the audit, analysis, draft, history and status change; the status becomes analyzed. The analysis is always the analysis service's answer for the lead's name and website. An existing audit, or a lead without a website, keeps its audit; otherwise the audit is the audit service's report for the website. An existing draft keeps the draft and history. Otherwise the draft is the drafting service's answer for the new analysis, and the history is one 'init' model message holding it. |
| EmailDashboard.AuditGate | components/EmailDashboard.tsx:48-50 | The audit backend is consulted exactly when the lead has a website and no audit, and its report is then stored. |
| EmailDashboard.AnalyzedNeedsNoAudit | components/EmailDashboard.tsx:48-50 | An analyzed lead is never audited again. |
| EmailDashboard.ReanalysisKeepsDraft | components/EmailDashboard.tsx:53-66 | Analyzing again keeps the draft, the history and the audit, and sets the status to analyzed. |
| EmailDashboard.EmptyDraftReseeded | components/EmailDashboard.tsx:56-64 | An empty draft is falsy, so it is regenerated and the history is reseeded. |
| EmailDashboard.WithoutInit | components/EmailDashboard.tsx:289 | The chat view holds exactly the history's messages whose id is not 'init'. |
| EmailDashboard.WithoutInitAppend | components/EmailDashboard.tsx:289 | Filtering distributes over concatenation. |
| EmailDashboard.RefinedLead | components/EmailDashboard.tsx:83-110 | Only the draft and its history change. The new draft is the refinement service's rewrite of the current draft with the instruction. The history becomes the old one (or empty) followed by the user's instruction and the new draft as a model message. |
| EmailDashboard.RefineExtendsChat | components/EmailDashboard.tsx:83-110 | The visible chat grows by exactly those two messages. |
| EmailDashboard.RefineFailureKeepsDraft | components/EmailDashboard.tsx:94-110 | When the refinement call fails, the draft is kept but the history still grows by two. |
| EmailDashboard.SeededChatEmpty | components/EmailDashboard.tsx:56-64 | Right after seeding, the visible chat is empty. |
| EmailDashboard.ContactedLead | components/EmailDashboard.tsx:129-134 | A sent lead is contacted, with the provider's message id and the sending time; every other field, the draft included, is kept. |
| EmailDashboard.EnrichLead | components/EmailDashboard.tsx:45-66 | The field-by-field update of the copy yields exactly `AnalyzedLead`. |
| EmailDashboard.Dashboard.constructor | components/EmailDashboard.tsx:18-37 | The dashboard starts with no selection, no loading lead, an empty instruction and no refinement running. |
| EmailDashboard.Dashboard.Rerender | App.tsx:276-283 | A render with new props takes the current business description, language and Gmail token, and keeps the leads, the selection, the loading lead, the instruction and the refinement flag. |
| EmailDashboard.Dashboard.Select | components/EmailDashboard.tsx:159 | Clicking a card selects that lead and changes nothing else. |
| EmailDashboard.Dashboard.SetRefineInput | components/EmailDashboard.tsx:304 | Typing replaces the refinement input and changes nothing else. |
| EmailDashboard.Dashboard.HandleDeepAnalyze | components/EmailDashboard.tsx:43-73 | The lead analyzed with the current business description and language replaces its entry and becomes the selection, and loading is cleared. The props are left as they are. |
| EmailDashboard.Dashboard.HandleRefineEmail | components/EmailDashboard.tsx:75-117 | Without a selection, a non-blank instruction or a draft, nothing changes. Otherwise the lead refined with the current business description replaces its entry and the selection, the instruction is cleared and refinement ends. The props are left as they are. |
| EmailDashboard.Dashboard.EditDraft | components/EmailDashboard.tsx:274-278 | A manual edit changes only the draft, in the selection and in the list, and leaves the visible chat as it was. |
| EmailDashboard.Dashboard.HandleSendEmail | components/EmailDashboard.tsx:119-141 | Without a selection, a draft or a token, the user is asked to connect and nothing changes. A successful send marks the lead contacted in the list and the selection and alerts "Sent!". A failure changes nothing and alerts "Error: " followed by the message. The token used is the current prop. |
| App.RestoreSession | App.tsx:46-57 | Each session field is restored only when its stored value is truthy, and a blob that fails to parse leaves every default. |
| App.ResumeAfterReload | App.tsx:46-74 | Restoring the saved session reproduces it, unless the project id is "". |
| App.EmptyIdLost | App.tsx:53 | An empty project id is falsy and is lost on reload. |
| App.RestoreProjects | App.tsx:42-43 | Absent projects give the empty list; a stored list is restored; an unparsable blob is a startup failure. |
| App.ReloadResumes | App.tsx:40-74 | After both save effects, a reload restores exactly the saved projects and session. |
| App.SetProjectLeads | App.tsx:157 | Only the project with the id gets the new leads; the list keeps its length and order. |
| App.NewProject | App.tsx:135-141 | The id is the creation instant. The name is the given one, or "Campaign <date>" when empty, so it is never empty. The project holds the initial leads and the current business description. |
| App.Workspace.Mount | App.tsx:40-58 | Mounting fails exactly when the projects blob does not parse. Otherwise the projects and the session are restored from storage. |
| App.Workspace.Persist | App.tsx:61-74 | The save effects write the projects and the session record under their keys and touch no other key. |
| App.Workspace.CreateNewProject | App.tsx:134-145 | One project is prepended and the others keep their order. It becomes active, and the leads become its leads. The open flag of the assistant and the queued startup files are unchanged. |
| App.Workspace.LoadProject | App.tsx:147-152 | The session becomes the project's leads, its business context, the outreach step and its id. The open flag of the assistant and the queued startup files are unchanged. |
| App.Workspace.HandleLeadsFound | App.tsx:154-162 | With an active project, its leads are replaced; otherwise a "New Search" project is created. Either way the step becomes outreach. The open flag of the assistant and the queued startup files are unchanged. |
| App.Workspace.HandleUpdateLeads | App.tsx:164-169 | The leads are always set. Projects change only at the active id, and not at all without one. The open flag of the assistant and the queued startup files are unchanged. |
| App.Workspace.ProcessFiles | App.tsx:112-124 | The files are queued. The tag of every readable file is appended, in order, to the business description. The assistant opens when some file was read. |
| App.Workspace.SetBusinessDescription | App.tsx:233 | Editing the description, or a context update from the assistant (App.tsx:358), replaces the description and changes no other session field, no project, and neither the open flag nor the startup files. |
| App.Workspace.SetStep | App.tsx:241-246 | Choosing a mode replaces the step and changes no other session field, no project, and neither the open flag nor the startup files. |
| Formats.FileTagsAppend | App.tsx:116-121 | Reading two batches of files gives the tags of the first followed by those of the second. |
| Formats.FileTextEmpty | App.tsx:122-123 | The appended text is empty exactly when no file could be read. |
| Formats.TranscriptSnoc | components/GlobalAssistant.tsx:88 | Adding a message to the conversation adds the separator and its "ROLE: text" line to the transcript. |
| Formats.TranscriptLines | components/ContextChat.tsx:82 | When no message spans lines, the finished summary splits back into one line per message. |
| Formats.History | components/GlobalAssistant.tsx:96 | The history sent to the backend has one turn per message, with its role and text. |
| Formats.AlternatingExchange | components/GlobalAssistant.tsx:84-110 | Appending one exchange keeps the log alternating exactly when it is a user message followed by a model reply. |
| WebAnalyzer.CleanUrl | components/WebAnalyzer.tsx:22-25 | The cleaned URL always starts with "http". |
| WebAnalyzer.CleanUrlIdempotent | components/WebAnalyzer.tsx:22-25 | Cleaning a cleaned URL changes nothing. |
| WebAnalyzer.CleanUrlAddsScheme | components/WebAnalyzer.tsx:23-24 | A trimmed host not starting with "http" gets "https://" in front. |
| WebAnalyzer.CleanUrlKeepsHttp | components/WebAnalyzer.tsx:23 | Any trimmed text starting with "http", even "httpbin.org", is kept as it is. |
| WebAnalyzer.BlankUrl | components/WebAnalyzer.tsx:18-32 | A blank but non-empty URL passes the guard and yields the bare scheme and an empty name. |
| WebAnalyzer.LeadNameNoSlash | components/WebAnalyzer.tsx:32 | The derived name never holds a '/'. |
| WebAnalyzer.LeadNameHost | components/WebAnalyzer.tsx:32 | For "https://www.<host>/<path>" the name is the host. |
| WebAnalyzer.LeadNameHttp | components/WebAnalyzer.tsx:32 | For an "http://" URL the name is "http:". |
| WebAnalyzer.AuditLeadReady | components/WebAnalyzer.tsx:30-38 | The audit lead is new and carries the report and a website starting with "http". Its name has no '/', and the dashboard never audits it again. |
| WebAnalyzer.AuditIdsDistinct | components/WebAnalyzer.tsx:31 | Audits at different instants give different ids. |
| WebAnalyzer.Panel.constructor | components/WebAnalyzer.tsx:14-15 | The panel starts with an empty URL and no analysis running. |
| WebAnalyzer.Panel.SetUrl | components/WebAnalyzer.tsx:64 | Typing replaces the URL and leaves the analyzing flag. |
| WebAnalyzer.Panel.SetLanguage | App.tsx:272 | A render with a new language takes it and keeps the URL and the analyzing flag. |
| WebAnalyzer.Panel.HandleAnalyze | components/WebAnalyzer.tsx:17-46 | An empty URL does nothing. Otherwise exactly one audit lead for the cleaned URL, audited in the current language, is handed on, and analyzing ends. |
| LeadFinder.SearchContextHasStrategy | components/LeadFinder.tsx:30-34 | The search context contains the user's strategy. |
| LeadFinder.SearchContextHasBusiness | components/LeadFinder.tsx:30-34 | The search context contains the business context. |
| LeadFinder.SearchContextHasFilter | components/LeadFinder.tsx:32 | The context states the hiring filter: "YES - PRIORITIZE GROWING COMPANIES" when on, "NO" when off. |
| LeadFinder.SearchContextDistinguishesFilter | components/LeadFinder.tsx:32 | The two filter settings always give different contexts. |
| LeadFinder.HiringMarkerInStrategy | components/LeadFinder.tsx:31-32 | The marker text is not reserved: a strategy quoting it puts it in the context while the filter is off. |
| LeadFinder.Panel.constructor | components/LeadFinder.tsx:15-21 | The panel starts with empty sector, location and strategy, the hiring filter off, no search running and an empty status. |
| LeadFinder.Panel.Rerender | App.tsx:270 | A render with new props takes the current language, business description and translated messages, and keeps the form fields, the search flag and the status. |
| LeadFinder.Panel.SetInputs | components/LeadFinder.tsx:71-118 | The form fields take the typed values and the search flag and status are left. |
| LeadFinder.Panel.HandleSearch | components/LeadFinder.tsx:23-48 | Without a sector and a location, nothing happens. An empty result shows the no-leads message and hands nothing on. A non-empty result is handed on unchanged. The search uses the current language and business description. Searching ends either way, and a failed search counts as empty. |
| Markdown.CloseLenFound | components/Markdown.tsx:60-62 | The closing marker found is the first one, provided no line break (line feed, carriage return, U+2028, U+2029) comes before it: the match is the shortest. |
| Markdown.CloseLenBlocked | components/Markdown.tsx:60-62 | Any line break before the closing marker means there is no match. |
| Markdown.WrapSpan | components/Markdown.tsx:60-62 | A marked span with no line break is replaced by the opening tag, its text and the closing tag, and rewriting goes on after it. |
| Markdown.WrapAbsent | components/Markdown.tsx:60-62 | Text without the marker is unchanged. |
| Markdown.WrapAcrossLine | components/Markdown.tsx:61 | A span crossing a line break of any of the four kinds is not rewritten. |
| Markdown.ParseInline | components/Markdown.tsx:58-65 | The rewritten text never contains a line feed. |
| Markdown.ParseInlinePlain | components/Markdown.tsx:58-65 | Text with no marker and no line feed passes through unchanged, without escaping. |
| Markdown.ParseInlineBold | components/Markdown.tsx:60 | "**x**" becomes a strong element around x, for x without markers and line breaks. |
| Markdown.ParseInlineItalic | components/Markdown.tsx:61 | "*x*" becomes an emphasis element around x, for x without markers and line breaks. |
| Markdown.BoldSkipsSingle | components/Markdown.tsx:60 | The bold pass leaves single-star spans alone. |
| Markdown.ParseInlineAcrossLines | components/Markdown.tsx:61-63 | A star pair around any line break stays literal, and only line feeds become "<br/>". |
| Markdown.NumberedIff | components/Markdown.tsx:29 | A paragraph is a numbered list exactly when it starts with one or more digits, '.' and a space. |
| Markdown.FirstItem | components/Markdown.tsx:18 | The first list item keeps its leading marker. |
| Markdown.TwoBullets | components/Markdown.tsx:18 | "- a\n* b" splits into "- a" and "b". |
| Markdown.Compact | components/Markdown.tsx:18 | Filtering never adds items: each kept item is non-empty and one of the parts, and a list without empty parts is kept whole. |
| Markdown.CompactAppend | components/Markdown.tsx:18 | Filtering distributes over concatenation, so the kept items stay in their order. |
| Markdown.CompactSingle | components/Markdown.tsx:18 | A single part is kept exactly when it is non-empty. |
| Markdown.NotList | components/Markdown.tsx:17-45 | A heading is never taken for a list. |
| Markdown.Heading3Text | components/Markdown.tsx:41-42 | A "### " paragraph is a level-3 heading of the rest. |
| Markdown.Heading2Text | components/Markdown.tsx:44-45 | A "## " paragraph is a level-2 heading of the rest. |
| Markdown.NumberedListParagraph | components/Markdown.tsx:29-30 | A numbered paragraph is a numbered list. |
| Markdown.BlockSingleLine | components/Markdown.tsx:17-50 | No rendered block holds a line feed. |
| Markdown.RenderParagraph | components/Markdown.tsx:14-50 | The first matching class wins: a bullet start gives a bullet list, otherwise digits, '.' and ' ' give a numbered list, otherwise "### " and then "## " give headings; any other paragraph is its rewritten text. |
| Markdown.Render | components/Markdown.tsx:8-15 | Empty content renders nothing; other content renders one block per blank-line-separated paragraph. |
| Markdown.RenderParagraphs | components/Markdown.tsx:8-15 | Empty content renders nothing. Otherwise there is one block per paragraph, in order, and the paragraphs joined back give the content. |
| GlobalAssistant.CombinedInputExtends | components/GlobalAssistant.tsx:62-74 | The stored text begins with the input and differs from it exactly when some file could be read. |
| GlobalAssistant.ExchangeIdsDistinct | components/GlobalAssistant.tsx:78-100 | The two messages of an exchange never share an id. |
| GlobalAssistant.ContextUpdates | components/GlobalAssistant.tsx:84-110 | The first context reported ends with the user's line; the second extends it by the reply's line. |
| GlobalAssistant.ReadFiles | components/GlobalAssistant.tsx:61-74 | The loop collects the tag of each readable file, in order, and appends them all to the input. |
| GlobalAssistant.Assistant.constructor | components/GlobalAssistant.tsx:24-35 | The log opens with the greeting, marked 'init', in the chosen language. |
| GlobalAssistant.Assistant.SetLanguage | App.tsx:353-359 | A render with a new language takes it and keeps the log, the input, the files and the loading flag. |
| GlobalAssistant.Assistant.SetInput | components/GlobalAssistant.tsx:182 | Typing replaces the input; the log, the files and the loading flag are kept. |
| GlobalAssistant.Assistant.SelectFiles | components/GlobalAssistant.tsx:49-53 | A file selection replaces the attached files; an event without files changes nothing. The log, the input and the loading flag are kept. |
| GlobalAssistant.Assistant.BeginSend | components/GlobalAssistant.tsx:55-97 | A blank send without files, or any send while loading, does nothing. Otherwise the user message is stored and reported, and the input and files are cleared. The backend gets the earlier history, the raw input and the tags. |
| GlobalAssistant.Assistant.ReceiveReply | components/GlobalAssistant.tsx:100-111 | The reply is appended as a model message, the whole conversation is reported as the new context, and loading ends. |
| GlobalAssistant.Assistant.HandleSend | components/GlobalAssistant.tsx:55-112 | A send adds exactly the user message and the reply and reports the context twice. The backend gets the current language and the given current context. The log stays alternating, the files are cleared and loading ends. |
| ContextChat.FileNotesCount | components/ContextChat.tsx:55-63 | A batch gives as many notes as the assistant drawer gives tags. |
| ContextChat.FileNotes | components/ContextChat.tsx:55-63 | There are never more notes than files; `FileNotesCount` and `ReadFiles` state which ones. |
| ContextChat.ReadFiles | components/ContextChat.tsx:55-63 | The loop collects "File: <name>\nContent: <text>" for each readable file, in order. |
| ContextChat.Chat.constructor | components/ContextChat.tsx:14-21 | The log opens with the introduction, marked '1'. |
| ContextChat.Chat.SetInput | components/ContextChat.tsx:138 | Typing replaces the input; the log, the files and the loading flag are kept. |
| ContextChat.Chat.SelectFiles | components/ContextChat.tsx:35-39 | A file selection replaces the attached files; an event without files changes nothing. |
| ContextChat.Chat.BeginSend | components/ContextChat.tsx:41-66 | A blank send without files, or any send while loading, does nothing. Otherwise only the typed text is stored and the input and files are cleared. The backend gets the earlier history and the notes. |
| ContextChat.Chat.ReceiveReply | components/ContextChat.tsx:70-78 | The reply is appended as a model message and loading ends; the input and files are kept. |
| ContextChat.Chat.HandleSend | components/ContextChat.tsx:41-79 | A send adds exactly the user message and the reply. The reply is given the fixed context note, and the log stays alternating. |
| ContextChat.Chat.HandleFinish | components/ContextChat.tsx:81-84 | The summary is one "ROLE: text" line per message joined by line feeds, and it opens with the introduction's line. |

## Left out

- Prompt wording, model names, system instructions and the response schemas are not modelled. A request records only the inputs its prompt is built from.
- The `translations` module is not part of this model. Translated texts (the chat introduction, "processing", "no leads") are parameters.
- The `setTimeout` sleep is recorded as the list of waits; no time passes. The `console.warn`/`console.error` logging is left out.
- Asynchronous interleaving of React state updates is not modelled. Each handler is one atomic step, so the stale `leads` closure of overlapping handlers and `loadingLeadId` not acting as a lock are not captured.
- Presentation is not modelled: the JSX layout, the drag-over flags, scrolling, the theme effect (App.tsx:97-107), `components/Button.tsx` and `vite.config.ts`.
- The Google Identity client setup and `handleConnectGmail` (App.tsx:77-94, App.tsx:171-177) are left out; the token reaches the dashboard as a prop through `EmailDashboard.Dashboard.Rerender`.
- `encodeURIComponent` throws on a lone surrogate. A Dafny `char` is a Unicode scalar value, so a string holding a lone surrogate cannot be written in the model, and that failure is left out.
- WebAnalyzer.Panel.HandleAnalyze: a reply that parses to `null` is returned as the report, reading `report.summary` then throws (components/WebAnalyzer.tsx:37), and the `catch` (components/WebAnalyzer.tsx:41-42) swallows it, so no lead is handed on. The audit parse oracle gives a record or None, so this path is not modelled.
- The `catch` of `handleSearch` (components/LeadFinder.tsx:43-44) is not modelled. `findLeadsOnMaps` catches its own failures, so that block cannot be reached.
- Gemini.DeepAnalysisFallback: a reply of `{}` or a partial object becomes an analysis with missing fields (services/geminiService.ts:188), and `null` becomes null. The closed `DeepAnalysis` record cannot hold either; which record, or None, the parse oracle gives for them is left to the oracle.
- Gemini.AuditFallback: the same holds for the audit report (services/geminiService.ts:224).
- The optional `isProcessing` flag of a `Message` (types.ts:33) is not modelled: no code in the modelled files reads or sets it.
- `refineEmailWithAI` receives the history (services/geminiService.ts:271) but never uses it, so the refinement request does not carry it.
- The `rating` of an extracted record is never copied into the lead (services/geminiService.ts:128-137), and the model does not copy it either.
- EmailDashboard.Dashboard.HandleSendEmail: the recipient is the hard-coded "example@test.com" of the source. A body the provider returns that fails to parse shows the parse error's own text, which is modelled as one opaque notice.
- App: the `date` of a new project is the creation instant as a `nat`; its `Date` object is not modelled.
