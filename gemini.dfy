/** The AI backend service: the retry wrapper every call goes through, and the
    six stage operations, each of which turns any failure into a fixed safe
    value instead of throwing.

    The backend itself is an oracle. A `Backend<R>` gives, for a request of
    type `R` and the number `k` of earlier invocations of the same call, the
    outcome of the k-th invocation: the reply text (`response.text`, with ""
    standing for an absent text) or the error it throws. JSON parsing of a
    reply against the stage's schema is an oracle too (`string -> Option<T>`,
    None when `JSON.parse` throws). Prompt
    wording and model names are not modelled; a request records the inputs the
    prompt is built from. */
module Gemini {
  import opened Options
  import opened Types
  import opened Text

  // ---------------------------------------------------------------------------
  // Retry with exponential backoff

  /** The parts of a thrown error that the rate-limit classifier reads. */
  datatype ApiError = ApiError(status: Option<int>, code: Option<int>, message: Option<string>)

  datatype Outcome<+T> = Ok(value: T) | Err(error: ApiError)

  /** The outcome of each successive invocation of a wrapped operation. */
  type Attempts<T> = nat -> Outcome<T>

  type Backend<-R> = (R, nat) -> Outcome<string>

  /** The defaults every stage uses: three retries, first wait 2000 ms. */
  const MaxRetries: nat := 3
  const InitialDelay: nat := 2000

  /** A rate-limit error: status 429, code 429, or a (truthy) message that
      mentions "429", "RESOURCE_EXHAUSTED" or "quota". */
  predicate IsRateLimit(e: ApiError) {
    || e.status == Some(429)
    || e.code == Some(429)
    || (Truthy(e.message)
        && (Contains(e.message.value, "429")
            || Contains(e.message.value, "RESOURCE_EXHAUSTED")
            || Contains(e.message.value, "quota")))
  }

  /** Without a message only the two numeric fields decide; a message that
      mentions one of the three markers anywhere makes any error a rate
      limit. */
  lemma RateLimitSignals(e: ApiError, before: string, after: string)
    ensures !Truthy(e.message) ==> (IsRateLimit(e) <==> e.status == Some(429) || e.code == Some(429))
    ensures IsRateLimit(ApiError(None, None, Some(before + "429" + after)))
    ensures IsRateLimit(ApiError(None, None, Some(before + "RESOURCE_EXHAUSTED" + after)))
    ensures IsRateLimit(ApiError(None, None, Some(before + "quota" + after)))
  {
    ContainsMiddle(before, "429", after);
    ContainsMiddle(before, "RESOURCE_EXHAUSTED", after);
    ContainsMiddle(before, "quota", after);
  }

  predicate RateLimited<T>(o: Outcome<T>) {
    o.Err? && IsRateLimit(o.error)
  }

  /** What one wrapped call returned or threw, and the waits (in ms) it slept
      before its retries, in order. */
  datatype RetryRun<T> = RetryRun(result: Outcome<T>, waits: seq<nat>)

  function Pow2(k: nat): (r: nat)
    ensures r >= 1
  {
    if k == 0 then 1 else 2 * Pow2(k - 1)
  }

  /** The waits of a call that retried `m` times: delay, 2 delay, 4 delay, ... */
  function Backoff(delay: nat, m: nat): (r: seq<nat>)
    ensures |r| == m
  {
    seq(m, k requires 0 <= k < m => delay * Pow2(k))
  }

  /** `callGeminiWithRetry(fn, retries, delay)`. Invocation j of `fn` yields
      `attempts(j)`; `made` counts the invocations already made by the calls
      this one is a retry of. A rate-limit error with retries left is followed
      by a wait of `delay` and a retry with one retry fewer and twice the
      delay; any other error, or a rate-limit error with no retry left, is
      rethrown unchanged; the first success is returned unchanged. */
  function CallWithRetry<T>(attempts: Attempts<T>, retries: nat, delay: nat, made: nat := 0): (r: RetryRun<T>)
    ensures |r.waits| <= retries
    ensures r.result == attempts(made + |r.waits|)
    decreases retries
  {
    match attempts(made)
    case Ok(v) => RetryRun(Ok(v), [])
    case Err(e) =>
      if retries > 0 && IsRateLimit(e) then
        var rest := CallWithRetry(attempts, retries - 1, delay * 2, made + 1);
        RetryRun(rest.result, [delay] + rest.waits)
      else
        RetryRun(Err(e), [])
  }

  /** What every wrapped call does: at most `retries` waits, the k-th being
      delay * 2^k; every invocation before the last one was rate-limited; the
      last invocation's outcome is passed through unchanged; and the call stops
      early only on success or on an error that is not a rate limit. */
  lemma {:induction false} RetryContract<T>(attempts: Attempts<T>, retries: nat, delay: nat, made: nat)
    ensures var r := CallWithRetry(attempts, retries, delay, made);
            && |r.waits| <= retries
            && (forall k :: 0 <= k < |r.waits| ==> r.waits[k] == delay * Pow2(k))
            && (forall j :: made <= j < made + |r.waits| ==> RateLimited(attempts(j)))
            && r.result == attempts(made + |r.waits|)
            && (|r.waits| < retries ==> !RateLimited(r.result))
    decreases retries
  {
    match attempts(made)
    case Ok(v) =>
    case Err(e) =>
      if retries > 0 && IsRateLimit(e) {
        var rest := CallWithRetry(attempts, retries - 1, delay * 2, made + 1);
        RetryContract(attempts, retries - 1, delay * 2, made + 1);
        BackoffShift(delay, rest.waits);
      }
  }

  /** Doubling the delay of the retried call continues the backoff sequence. */
  lemma BackoffShift(delay: nat, waits: seq<nat>)
    requires forall k :: 0 <= k < |waits| ==> waits[k] == (delay * 2) * Pow2(k)
    ensures forall k :: 0 <= k < |[delay] + waits| ==> ([delay] + waits)[k] == delay * Pow2(k)
  {
    forall k | 1 <= k < |[delay] + waits|
      ensures ([delay] + waits)[k] == delay * Pow2(k)
    {
      calc {
        ([delay] + waits)[k];
        waits[k - 1];
        (delay * 2) * Pow2(k - 1);
        { MulAssoc(delay, 2, Pow2(k - 1)); }
        delay * (2 * Pow2(k - 1));
      }
    }
  }

  lemma MulAssoc(a: int, b: int, c: int)
    ensures (a * b) * c == a * (b * c)
  {
  }

  /** Rate-limit errors within the budget are absorbed: after m of them the
      (m+1)-th invocation's success is returned, after waits of
      delay * 2^(k-1) before attempt k + 1. */
  lemma RetryRecovers<T>(attempts: Attempts<T>, retries: nat, delay: nat, m: nat)
    requires m <= retries
    requires forall j :: 0 <= j < m ==> RateLimited(attempts(j))
    requires attempts(m).Ok?
    ensures CallWithRetry(attempts, retries, delay) == RetryRun(attempts(m), Backoff(delay, m))
  {
    var r := CallWithRetry(attempts, retries, delay);
    RetryContract(attempts, retries, delay, 0);
  }

  /** Once the budget is spent the last rate-limit error is rethrown, after
      exactly `retries` waits. */
  lemma RetryGivesUp<T>(attempts: Attempts<T>, retries: nat, delay: nat)
    requires forall j :: 0 <= j <= retries ==> RateLimited(attempts(j))
    ensures CallWithRetry(attempts, retries, delay) == RetryRun(attempts(retries), Backoff(delay, retries))
  {
    var r := CallWithRetry(attempts, retries, delay);
    RetryContract(attempts, retries, delay, 0);
  }

  /** Any other error is rethrown at once, with no wait and no retry. */
  lemma RetryFailsFast<T>(attempts: Attempts<T>, retries: nat, delay: nat)
    requires attempts(0).Err? && !IsRateLimit(attempts(0).error)
    ensures CallWithRetry(attempts, retries, delay) == RetryRun(attempts(0), [])
  {
    var r := CallWithRetry(attempts, retries, delay);
    RetryContract(attempts, retries, delay, 0);
  }

  /** A backend call made with the default budget. */
  function Call<R>(backend: Backend<R>, req: R): Outcome<string> {
    CallWithRetry((k: nat) => backend(req, k), MaxRetries, InitialDelay).result
  }

  /** Every invocation within the budget was rate-limited. */
  predicate Exhausted<R>(backend: Backend<R>, req: R) {
    forall j :: 0 <= j <= MaxRetries ==> RateLimited(backend(req, j))
  }

  /** The first invocation threw an error that is not a rate limit. */
  predicate FailsFast<R>(backend: Backend<R>, req: R) {
    backend(req, 0).Err? && !IsRateLimit(backend(req, 0).error)
  }

  /** A call whose budget is exhausted, or whose first error is not a rate
      limit, fails; a call whose first invocation succeeds returns that reply. */
  lemma CallCases<R>(backend: Backend<R>, req: R)
    ensures Exhausted(backend, req) ==> Call(backend, req) == backend(req, MaxRetries) && Call(backend, req).Err?
    ensures FailsFast(backend, req) ==> Call(backend, req) == backend(req, 0)
    ensures backend(req, 0).Ok? ==> Call(backend, req) == backend(req, 0)
  {
    var attempts: Attempts<string> := (k: nat) => backend(req, k);
    if Exhausted(backend, req) {
      RetryGivesUp(attempts, MaxRetries, InitialDelay);
    }
    if FailsFast(backend, req) {
      RetryFailsFast(attempts, MaxRetries, InitialDelay);
    }
    if backend(req, 0).Ok? {
      RetryRecovers(attempts, MaxRetries, InitialDelay, 0);
    }
  }

  /** `response.text || fallback`. */
  function TextOr(text: string, fallback: string): string {
    if text == "" then fallback else text
  }

  // ---------------------------------------------------------------------------
  // Requests: what each stage sends, without the prompt wording

  datatype Turn = Turn(role: Role, text: string)
  datatype ChatRequest = ChatRequest(turns: seq<Turn>, language: Language, contextSummary: string)
  datatype SearchRequest = SearchRequest(query: string, location: string, language: Language, contextStrategy: string)
  datatype ExtractRequest = ExtractRequest(textOutput: string)
  datatype AnalysisRequest = AnalysisRequest(leadName: string, website: Option<string>, businessContext: string, language: Language)
  datatype AuditRequest = AuditRequest(url: string, language: Language)
  datatype DraftRequest = DraftRequest(businessContext: string, leadName: string, businessType: Option<string>,
                                       analysis: Option<DeepAnalysis>, language: Language)
  datatype RefineRequest = RefineRequest(currentEmail: string, instruction: string, businessContext: string, leadName: string)

  // ---------------------------------------------------------------------------
  // 1. Global assistant chat

  /** The user turn: the new message, followed by the attached file contents
      when there are any. */
  function AssistantPrompt(newMessage: string, fileContents: seq<string>): string {
    if |fileContents| > 0 then newMessage + "\n\n[Attached File Contents]:\n" + Join(fileContents, "\n---\n")
    else newMessage
  }

  function AssistantRequest(history: seq<Turn>, newMessage: string, fileContents: seq<string>,
                            language: Language, contextSummary: string): ChatRequest
  {
    ChatRequest(history + [Turn(User, AssistantPrompt(newMessage, fileContents))], language, contextSummary)
  }

  const AssistantEmptyReply := "Error."
  const AssistantFailure := "System overloaded. Try again."

  /** `sendAssistantMessage`: the reply, "Error." for an empty reply, and a
      fixed apology when the call fails. */
  function SendAssistantMessage(history: seq<Turn>, newMessage: string, fileContents: seq<string>,
                                language: Language, contextSummary: string,
                                backend: Backend<ChatRequest>): (r: string)
    ensures r != ""
    ensures var call := Call(backend, AssistantRequest(history, newMessage, fileContents, language, contextSummary));
            && (call.Err? ==> r == AssistantFailure)
            && (call == Ok("") ==> r == AssistantEmptyReply)
            && (call.Ok? && call.value != "" ==> r == call.value)
  {
    match Call(backend, AssistantRequest(history, newMessage, fileContents, language, contextSummary))
    case Ok(text) => TextOr(text, AssistantEmptyReply)
    case Err(_) => AssistantFailure
  }

  /** The user turn begins with the new message, and adds to it exactly when
      some file content is attached. */
  lemma AssistantPromptExtends(newMessage: string, fileContents: seq<string>)
    ensures newMessage <= AssistantPrompt(newMessage, fileContents)
    ensures AssistantPrompt(newMessage, fileContents) == newMessage <==> fileContents == []
  {
    if fileContents != [] {
      var p := AssistantPrompt(newMessage, fileContents);
      assert |p| > |newMessage|;
    }
  }

  /** The conversation is sent as it was, followed by the new user turn; a
      failed call gives the apology and an empty reply gives "Error.". */
  lemma AssistantFallback(history: seq<Turn>, newMessage: string, fileContents: seq<string>,
                          language: Language, contextSummary: string, backend: Backend<ChatRequest>)
    ensures var req := AssistantRequest(history, newMessage, fileContents, language, contextSummary);
            var r := SendAssistantMessage(history, newMessage, fileContents, language, contextSummary, backend);
            && req.turns[..|history|] == history && |req.turns| == |history| + 1
            && (Exhausted(backend, req) || FailsFast(backend, req) ==> r == AssistantFailure)
            && (backend(req, 0) == Ok("") ==> r == AssistantEmptyReply)
            && (backend(req, 0).Ok? && backend(req, 0).value != "" ==> r == backend(req, 0).value)
            // a reply after rate-limit retries is handled the same way
            && (Call(backend, req) == Ok("") ==> r == AssistantEmptyReply)
            && (Call(backend, req).Ok? && Call(backend, req).value != "" ==> r == Call(backend, req).value)
  {
    var req := AssistantRequest(history, newMessage, fileContents, language, contextSummary);
    CallCases(backend, req);
    assert req.turns[..|history|] == history;
  }

  // ---------------------------------------------------------------------------
  // 2. Lead discovery

  /** One record of the extraction pass (the schema's fields). */
  datatype ExtractedLead = ExtractedLead(
    name: string, address: string, rating: Option<real>, website: Option<string>,
    phone: Option<string>, businessType: Option<string>, notes: Option<string>)

  /** `lead-${Date.now()}-${i}`. */
  function DiscoveryId(t: nat, i: nat): string {
    "lead-" + Decimal(t) + "-" + Decimal(i)
  }

  /** The index is recoverable from an id, whatever clock values were read:
      ids of different positions never collide. */
  lemma DiscoveryIdInjective(t1: nat, i1: nat, t2: nat, i2: nat)
    requires DiscoveryId(t1, i1) == DiscoveryId(t2, i2)
    ensures t1 == t2 && i1 == i2
  {
    var s := DiscoveryId(t1, i1);
    assert s[5..] == Decimal(t1) + "-" + Decimal(i1);
    assert s[5..] == Decimal(t2) + "-" + Decimal(i2);
    NumeralPrefixUnique(Decimal(t1), Decimal(i1), Decimal(t2), Decimal(i2), '-');
    DecimalInjective(t1, t2);
    DecimalInjective(i1, i2);
  }

  /** The lead built from record `l` at index `i` when the clock reads `t`;
      the record's rating is not copied. */
  function DiscoveredLead(l: ExtractedLead, t: nat, i: nat): Lead {
    FreshLead(DiscoveryId(t, i), l.name, l.address).(
      website := l.website, phone := l.phone, businessType := l.businessType, notes := l.notes)
  }

  /** `findLeadsOnMaps`: a search call, then an extraction call on the search
      text, then a JSON parse of the extraction reply ("[]" when empty).
      `clock(i)` is what `Date.now()` returns while record i is mapped. Any
      failure yields no leads. */
  function FindLeadsOnMaps(req: SearchRequest, search: Backend<SearchRequest>, extract: Backend<ExtractRequest>,
                           parse: string -> Option<seq<ExtractedLead>>, clock: nat -> nat): (r: seq<Lead>)
    ensures forall i :: 0 <= i < |r| ==> r[i].status == New && r[i].id == DiscoveryId(clock(i), i)
    ensures forall i :: 0 <= i < |r| ==> r[i].rating.None? && r[i].auditReport.None? && r[i].generatedEmail.None?
    ensures forall i, j :: 0 <= i < j < |r| ==> r[i].id != r[j].id
    ensures Call(search, req).Err? ==> r == []
    ensures Call(search, req).Ok? && Call(extract, ExtractRequest(Call(search, req).value)).Err? ==> r == []
    ensures Call(search, req).Ok? && Call(extract, ExtractRequest(Call(search, req).value)).Ok? ==>
              var parsed := parse(TextOr(Call(extract, ExtractRequest(Call(search, req).value)).value, "[]"));
              && (parsed.None? ==> r == [])
              && (parsed.Some? ==> r == DiscoveredLeads(parsed.value, clock))
  {
    match Call(search, req)
    case Err(_) => []
    case Ok(text) =>
      match Call(extract, ExtractRequest(text))
      case Err(_) => []
      case Ok(json) =>
        match parse(TextOr(json, "[]"))
        case None => []
        case Some(items) => DiscoveredLeads(items, clock)
  }

  /** `items.map((l, i) => ...)`, reading the clock once per record. */
  function DiscoveredLeads(items: seq<ExtractedLead>, clock: nat -> nat): (r: seq<Lead>)
    ensures |r| == |items|
    ensures forall i :: 0 <= i < |r| ==> r[i].status == New && r[i].id == DiscoveryId(clock(i), i)
    ensures forall i :: 0 <= i < |r| ==> r[i].rating.None? && r[i].auditReport.None? && r[i].generatedEmail.None?
    ensures forall i :: 0 <= i < |r| ==>
              r[i].name == items[i].name && r[i].address == items[i].address &&
              r[i].website == items[i].website && r[i].notes == items[i].notes &&
              r[i].phone == items[i].phone && r[i].businessType == items[i].businessType
    ensures forall i, j :: 0 <= i < j < |r| ==> r[i].id != r[j].id
  {
    var r := seq(|items|, i requires 0 <= i < |items| => DiscoveredLead(items[i], clock(i), i));
    assert forall i :: 0 <= i < |r| ==> r[i] == DiscoveredLead(items[i], clock(i), i);
    assert forall i, j :: 0 <= i < j < |r| ==> r[i].id != r[j].id by {
      forall i, j | 0 <= i < j < |r| ensures r[i].id != r[j].id {
        if r[i].id == r[j].id {
          DiscoveryIdInjective(clock(i), i, clock(j), j);
        }
      }
    }
    r
  }

  /** With a working search and extraction, the leads are the parsed records,
      one per record, in order. */
  lemma FindLeadsKeepsRecords(req: SearchRequest, search: Backend<SearchRequest>, extract: Backend<ExtractRequest>,
                              parse: string -> Option<seq<ExtractedLead>>, clock: nat -> nat)
    requires search(req, 0).Ok? && extract(ExtractRequest(search(req, 0).value), 0).Ok?
    requires parse(TextOr(extract(ExtractRequest(search(req, 0).value), 0).value, "[]")).Some?
    ensures var items := parse(TextOr(extract(ExtractRequest(search(req, 0).value), 0).value, "[]")).value;
            var r := FindLeadsOnMaps(req, search, extract, parse, clock);
            |r| == |items| &&
            forall i :: 0 <= i < |r| ==>
              r[i].name == items[i].name && r[i].address == items[i].address &&
              r[i].website == items[i].website && r[i].notes == items[i].notes &&
              r[i].phone == items[i].phone && r[i].businessType == items[i].businessType
  {
    CallCases(search, req);
    CallCases(extract, ExtractRequest(search(req, 0).value));
  }

  // ---------------------------------------------------------------------------
  // 3. Deep analysis

  const FailedAnalysis := DeepAnalysis(0, "Analysis failed.", [], [], None, Some(Uncertain))

  /** `deepAnalyzeLead`: the parsed reply ("{}" when empty), or the fixed
      failure analysis when the call or the parse throws. */
  function DeepAnalyzeLead(req: AnalysisRequest, backend: Backend<AnalysisRequest>,
                           parse: string -> Option<DeepAnalysis>): (r: DeepAnalysis)
    ensures Call(backend, req).Err? ==> r == FailedAnalysis
    // a reply, retried or not, gives what it parses to, and the failure value
    // when it does not parse
    ensures Call(backend, req).Ok? ==>
              var parsed := parse(TextOr(Call(backend, req).value, "{}"));
              && (parsed.Some? ==> r == parsed.value)
              && (parsed.None? ==> r == FailedAnalysis)
    // anything but the failure value is what the reply parsed to
    ensures r != FailedAnalysis ==> Call(backend, req).Ok? && parse(TextOr(Call(backend, req).value, "{}")) == Some(r)
  {
    match Call(backend, req)
    case Err(_) => FailedAnalysis
    case Ok(text) => parse(TextOr(text, "{}")).GetOr(FailedAnalysis)
  }

  lemma DeepAnalysisFallback(req: AnalysisRequest, backend: Backend<AnalysisRequest>, parse: string -> Option<DeepAnalysis>)
    ensures Exhausted(backend, req) || FailsFast(backend, req) ==> DeepAnalyzeLead(req, backend, parse) == FailedAnalysis
    // an empty reply is parsed as "{}", not replaced by the failure value
    ensures backend(req, 0) == Ok("") ==> DeepAnalyzeLead(req, backend, parse) == parse("{}").GetOr(FailedAnalysis)
    ensures backend(req, 0).Ok? && backend(req, 0).value != "" ==>
              DeepAnalyzeLead(req, backend, parse) == parse(backend(req, 0).value).GetOr(FailedAnalysis)
  {
    CallCases(backend, req);
  }

  /** Nothing bounds the score: whatever the parse yields is passed on. */
  lemma LeadScoreUnchecked(req: AnalysisRequest, score: int)
    ensures DeepAnalyzeLead(req, (q, k) => Ok("{}"), s => Some(FailedAnalysis.(leadScore := score))).leadScore == score
  {
    CallCases((q, k) => Ok("{}"), req);
  }

  // ---------------------------------------------------------------------------
  // 4. Website audit

  const FailedAudit := AuditReport(0, 0, 0, [], [], "Error")

  /** `analyzeWebsite`: the parsed reply ("{}" when empty), or the all-zero
      report with summary "Error" when the call or the parse throws. */
  function AnalyzeWebsite(req: AuditRequest, backend: Backend<AuditRequest>,
                          parse: string -> Option<AuditReport>): (r: AuditReport)
    ensures Call(backend, req).Err? ==> r == FailedAudit
    ensures Call(backend, req).Ok? ==>
              var parsed := parse(TextOr(Call(backend, req).value, "{}"));
              && (parsed.Some? ==> r == parsed.value)
              && (parsed.None? ==> r == FailedAudit)
    // anything but the failure value is what the reply parsed to
    ensures r != FailedAudit ==> Call(backend, req).Ok? && parse(TextOr(Call(backend, req).value, "{}")) == Some(r)
  {
    match Call(backend, req)
    case Err(_) => FailedAudit
    case Ok(text) => parse(TextOr(text, "{}")).GetOr(FailedAudit)
  }

  lemma AuditFallback(req: AuditRequest, backend: Backend<AuditRequest>, parse: string -> Option<AuditReport>)
    ensures Exhausted(backend, req) || FailsFast(backend, req) ==> AnalyzeWebsite(req, backend, parse) == FailedAudit
    ensures backend(req, 0).Ok? ==> AnalyzeWebsite(req, backend, parse) == parse(TextOr(backend(req, 0).value, "{}")).GetOr(FailedAudit)
  {
    CallCases(backend, req);
  }

  // ---------------------------------------------------------------------------
  // 5. Initial email

  const DraftFailure := "Error generating email."

  /** `generateInitialEmail`: the reply text ("" when empty), or a fixed error
      text when the call fails. */
  function GenerateInitialEmail(req: DraftRequest, backend: Backend<DraftRequest>): (r: string)
    ensures Call(backend, req).Err? ==> r == DraftFailure
    ensures Call(backend, req).Ok? ==> r == Call(backend, req).value
    // anything but the failure text is the reply, an empty one included
    ensures r != DraftFailure ==> Call(backend, req) == Ok(r)
  {
    match Call(backend, req)
    case Err(_) => DraftFailure
    case Ok(text) => text
  }

  lemma DraftFallback(req: DraftRequest, backend: Backend<DraftRequest>)
    ensures Exhausted(backend, req) || FailsFast(backend, req) ==> GenerateInitialEmail(req, backend) == DraftFailure
    ensures backend(req, 0).Ok? ==> GenerateInitialEmail(req, backend) == backend(req, 0).value
  {
    CallCases(backend, req);
  }

  // ---------------------------------------------------------------------------
  // 6. Email refinement

  /** `refineEmailWithAI`: the reply text, or the current draft unchanged when
      the reply is empty or the call fails. */
  function RefineEmailWithAI(req: RefineRequest, backend: Backend<RefineRequest>): (r: string)
    // either the reply text or the current draft, and never an empty text
    // in place of a non-empty draft
    ensures r == req.currentEmail || Call(backend, req) == Ok(r)
    ensures Call(backend, req).Err? || Call(backend, req) == Ok("") ==> r == req.currentEmail
    ensures Call(backend, req).Ok? && Call(backend, req).value != "" ==> r == Call(backend, req).value
    ensures req.currentEmail != "" ==> r != ""
  {
    match Call(backend, req)
    case Err(_) => req.currentEmail
    case Ok(text) => TextOr(text, req.currentEmail)
  }

  lemma RefineFallback(req: RefineRequest, backend: Backend<RefineRequest>)
    ensures Exhausted(backend, req) || FailsFast(backend, req) ==> RefineEmailWithAI(req, backend) == req.currentEmail
    ensures backend(req, 0) == Ok("") ==> RefineEmailWithAI(req, backend) == req.currentEmail
    ensures backend(req, 0).Ok? && backend(req, 0).value != "" ==> RefineEmailWithAI(req, backend) == backend(req, 0).value
  {
    CallCases(backend, req);
  }
}
