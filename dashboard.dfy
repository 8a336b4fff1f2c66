/** The outreach dashboard: per-lead enrichment (audit, fit analysis, first
    draft), conversational refinement of the draft, manual edits and sending.

    Each handler is one atomic step. The list a handler passes to
    `onUpdateLeads` comes back as the `leads` property, so the handlers assign
    it to the `leads` field. The AI stages are the oracles of `Services`; the
    clock readings are parameters. */
module EmailDashboard {
  import opened Options
  import opened Types
  import opened Text
  import opened Gemini
  import opened Gmail

  /** The AI backend as the dashboard's handlers use it. */
  datatype Services = Services(
    audit: Backend<AuditRequest>, parseAudit: string -> Option<AuditReport>,
    analysis: Backend<AnalysisRequest>, parseAnalysis: string -> Option<DeepAnalysis>,
    draft: Backend<DraftRequest>,
    refine: Backend<RefineRequest>)

  // ---------------------------------------------------------------------------
  // The list update every handler ends with

  /** `leads.map(l => l.id === id ? updated : l)`. */
  function ReplaceById(leads: seq<Lead>, id: string, updated: Lead): (r: seq<Lead>)
    ensures |r| == |leads|
    ensures forall i :: 0 <= i < |r| && leads[i].id == id ==> r[i] == updated
    ensures forall i :: 0 <= i < |r| && leads[i].id != id ==> r[i] == leads[i]
    decreases |leads|
  {
    if leads == [] then []
    else [if leads[0].id == id then updated else leads[0]] + ReplaceById(leads[1..], id, updated)
  }

  /** A list without the id is left as it is. */
  lemma ReplaceByIdAbsent(leads: seq<Lead>, id: string, updated: Lead)
    requires forall i :: 0 <= i < |leads| ==> leads[i].id != id
    ensures ReplaceById(leads, id, updated) == leads
  {
  }

  /** Of two updates of the same lead, the later one wins. */
  lemma ReplaceByIdTwice(leads: seq<Lead>, id: string, first: Lead, second: Lead)
    requires first.id == id
    ensures ReplaceById(ReplaceById(leads, id, first), id, second) == ReplaceById(leads, id, second)
  {
    var a := ReplaceById(ReplaceById(leads, id, first), id, second);
    var b := ReplaceById(leads, id, second);
    forall i | 0 <= i < |leads| ensures a[i] == b[i] {
    }
  }

  // ---------------------------------------------------------------------------
  // Analysis

  /** The audit runs only for a lead with a (non-empty) website and no report. */
  predicate NeedsAudit(lead: Lead) {
    Truthy(lead.website) && lead.auditReport.None?
  }

  /** The first draft and its `init` history entry, unless the lead already
      has a non-empty draft. */
  function Seeded(lead: Lead, draft: string, now: nat): Lead {
    if Truthy(lead.generatedEmail) then lead
    else lead.(generatedEmail := Some(draft), emailRefinementHistory := Some([Message("init", Model, draft, now)]))
  }

  /** What analysing `lead` produces: the audit if needed, a fresh analysis,
      the first draft if none, and the status `analyzed`. */
  function AnalyzedLead(lead: Lead, businessContext: string, language: Language, s: Services, now: nat): (r: Lead)
    // only the four enrichment fields and the status change
    ensures r == lead.(auditReport := r.auditReport, deepAnalysis := r.deepAnalysis, generatedEmail := r.generatedEmail,
                       emailRefinementHistory := r.emailRefinementHistory, status := Analyzed)
    // the analysis always comes from the analysis service, for this lead
    ensures r.deepAnalysis == Some(DeepAnalyzeLead(AnalysisRequest(lead.name, lead.website, businessContext, language), s.analysis, s.parseAnalysis))
    ensures !NeedsAudit(lead) ==> r.auditReport == lead.auditReport
    ensures NeedsAudit(lead) ==> r.auditReport == Some(AnalyzeWebsite(AuditRequest(lead.website.value, language), s.audit, s.parseAudit))
    ensures Truthy(lead.generatedEmail) ==>
              r.generatedEmail == lead.generatedEmail && r.emailRefinementHistory == lead.emailRefinementHistory
    // a missing or empty draft is written from the new analysis
    ensures !Truthy(lead.generatedEmail) ==>
              && r.generatedEmail == Some(GenerateInitialEmail(DraftRequest(businessContext, lead.name, lead.businessType, r.deepAnalysis, language), s.draft))
              && r.emailRefinementHistory == Some([Message("init", Model, r.generatedEmail.value, now)])
  {
    var audited :=
      if NeedsAudit(lead) then lead.(auditReport := Some(AnalyzeWebsite(AuditRequest(lead.website.value, language), s.audit, s.parseAudit)))
      else lead;
    var analysis := DeepAnalyzeLead(AnalysisRequest(audited.name, audited.website, businessContext, language), s.analysis, s.parseAnalysis);
    var analyzed := audited.(deepAnalysis := Some(analysis));
    var draft := GenerateInitialEmail(DraftRequest(businessContext, analyzed.name, analyzed.businessType, analyzed.deepAnalysis, language), s.draft);
    Seeded(analyzed, draft, now).(status := Analyzed)
  }

  /** A lead that needs no audit is analysed without consulting the audit
      service at all; one that needs it gets the service's report. */
  lemma AuditGate(lead: Lead, businessContext: string, language: Language, s: Services, now: nat, other: Backend<AuditRequest>)
    ensures !NeedsAudit(lead) ==>
              AnalyzedLead(lead, businessContext, language, s, now) == AnalyzedLead(lead, businessContext, language, s.(audit := other), now)
    ensures NeedsAudit(lead) ==>
              AnalyzedLead(lead, businessContext, language, s, now).auditReport
                == Some(AnalyzeWebsite(AuditRequest(lead.website.value, language), s.audit, s.parseAudit))
  {
  }

  /** Once analysed, a lead never needs an audit again. */
  lemma AnalyzedNeedsNoAudit(lead: Lead, businessContext: string, language: Language, s: Services, now: nat)
    ensures !NeedsAudit(AnalyzedLead(lead, businessContext, language, s, now))
  {
  }

  /** Re-analysis replaces the analysis but keeps a non-empty draft and its
      history, and the audit report, of the first analysis. */
  lemma ReanalysisKeepsDraft(lead: Lead, businessContext: string, language: Language, s1: Services, s2: Services, t1: nat, t2: nat)
    requires Truthy(AnalyzedLead(lead, businessContext, language, s1, t1).generatedEmail)
    ensures var first := AnalyzedLead(lead, businessContext, language, s1, t1);
            var second := AnalyzedLead(first, businessContext, language, s2, t2);
            && second.generatedEmail == first.generatedEmail
            && second.emailRefinementHistory == first.emailRefinementHistory
            && second.auditReport == first.auditReport
            && second.status == Analyzed
  {
    AnalyzedNeedsNoAudit(lead, businessContext, language, s1, t1);
  }

  /** An empty first draft is treated as no draft: the next analysis seeds a
      new one and resets the history. */
  lemma EmptyDraftReseeded(lead: Lead, businessContext: string, language: Language, s: Services, now: nat)
    requires lead.generatedEmail == Some("")
    ensures var r := AnalyzedLead(lead, businessContext, language, s, now);
            r.emailRefinementHistory == Some([Message("init", Model, r.generatedEmail.value, now)])
  {
  }

  // ---------------------------------------------------------------------------
  // Refinement

  /** The refinement chat shows the history without its `init` entry. */
  function WithoutInit(history: seq<Message>): (r: seq<Message>)
    ensures |r| <= |history|
    ensures forall m :: m in r <==> m in history && m.id != "init"
    decreases |history|
  {
    if history == [] then []
    else (if history[0].id == "init" then [] else [history[0]]) + WithoutInit(history[1..])
  }

  lemma {:induction false} WithoutInitAppend(a: seq<Message>, b: seq<Message>)
    ensures WithoutInit(a + b) == WithoutInit(a) + WithoutInit(b)
    decreases |a|
  {
    if a == [] {
      assert a + b == b;
    } else {
      assert (a + b)[1..] == a[1..] + b;
      WithoutInitAppend(a[1..], b);
    }
  }

  function ChatView(lead: Lead): seq<Message> {
    match lead.emailRefinementHistory
    case None => []
    case Some(h) => WithoutInit(h)
  }

  /** A numeral id is never `init`. */
  lemma DecimalNotInit(n: nat)
    ensures Decimal(n) != "init"
  {
    var d := Decimal(n);
    assert IsDigit(d[0]) && !IsDigit("init"[0]);
  }

  function UserMessage(instruction: string, t: nat): Message {
    Message(Decimal(t), User, instruction, t)
  }

  function ModelMessage(text: string, t: nat): Message {
    Message(Decimal(t + 1), Model, text, t)
  }

  /** The lead after one refinement turn: the history (or none) followed by
      the instruction and the new draft, which also replaces the draft. `t1`
      and `t2` are the clock readings before and after the AI call. */
  function RefinedLead(lead: Lead, instruction: string, businessContext: string, s: Services, t1: nat, t2: nat): (r: Lead)
    requires lead.generatedEmail.Some?
    ensures r == lead.(generatedEmail := r.generatedEmail, emailRefinementHistory := r.emailRefinementHistory)
    // the new draft is the refinement service's rewrite of the current one
    ensures r.generatedEmail == Some(RefineEmailWithAI(RefineRequest(lead.generatedEmail.value, instruction, businessContext, lead.name), s.refine))
    ensures r.emailRefinementHistory ==
              Some(lead.emailRefinementHistory.GetOr([]) + [UserMessage(instruction, t1), ModelMessage(r.generatedEmail.value, t2)])
  {
    var history := lead.emailRefinementHistory.GetOr([]) + [UserMessage(instruction, t1)];
    var email := RefineEmailWithAI(RefineRequest(lead.generatedEmail.value, instruction, businessContext, lead.name), s.refine);
    assert history + [ModelMessage(email, t2)]
        == lead.emailRefinementHistory.GetOr([]) + [UserMessage(instruction, t1), ModelMessage(email, t2)];
    lead.(emailRefinementHistory := Some(history + [ModelMessage(email, t2)]), generatedEmail := Some(email))
  }

  /** Each refinement adds exactly the two new turns to the visible chat. */
  lemma RefineExtendsChat(lead: Lead, instruction: string, businessContext: string, s: Services, t1: nat, t2: nat)
    requires lead.generatedEmail.Some?
    ensures var r := RefinedLead(lead, instruction, businessContext, s, t1, t2);
            ChatView(r) == ChatView(lead) + [UserMessage(instruction, t1), ModelMessage(r.generatedEmail.value, t2)]
  {
    var r := RefinedLead(lead, instruction, businessContext, s, t1, t2);
    var h := lead.emailRefinementHistory.GetOr([]);
    var u, m := UserMessage(instruction, t1), ModelMessage(r.generatedEmail.value, t2);
    DecimalNotInit(t1);
    DecimalNotInit(t2 + 1);
    assert WithoutInit([m]) == [m] by {
      assert [m][1..] == [];
    }
    assert WithoutInit([u, m]) == [u, m] by {
      assert [u, m][1..] == [m];
    }
    WithoutInitAppend(h, [u, m]);
    assert ChatView(lead) == WithoutInit(h);
  }

  /** When the refinement call fails, the draft is kept, but both turns are
      still recorded, the model's turn repeating the old draft. */
  lemma RefineFailureKeepsDraft(lead: Lead, instruction: string, businessContext: string, s: Services, t1: nat, t2: nat)
    requires lead.generatedEmail.Some?
    requires var req := RefineRequest(lead.generatedEmail.value, instruction, businessContext, lead.name);
             Exhausted(s.refine, req) || FailsFast(s.refine, req)
    ensures var r := RefinedLead(lead, instruction, businessContext, s, t1, t2);
            r.generatedEmail == lead.generatedEmail &&
            |r.emailRefinementHistory.value| == |lead.emailRefinementHistory.GetOr([])| + 2
  {
    RefineFallback(RefineRequest(lead.generatedEmail.value, instruction, businessContext, lead.name), s.refine);
  }

  /** A freshly seeded lead shows an empty chat. */
  lemma SeededChatEmpty(lead: Lead, draft: string, now: nat)
    requires !Truthy(lead.generatedEmail)
    ensures ChatView(Seeded(lead, draft, now)) == []
  {
    assert WithoutInit([Message("init", Model, draft, now)]) == [];
  }

  // ---------------------------------------------------------------------------
  // Sending

  const Recipient := "example@test.com"

  function Subject(lead: Lead): string {
    "Proposal for " + lead.name
  }

  /** The lead once the provider has accepted the message. */
  function ContactedLead(lead: Lead, reply: ReplyBody, now: nat): (r: Lead)
    ensures r.status == Contacted && r.gmailMessageId == reply.id && r.lastEmailSentAt == Some(now)
    // the draft, its history and every other field are kept
    ensures r.(status := lead.status, gmailMessageId := lead.gmailMessageId, lastEmailSentAt := lead.lastEmailSentAt) == lead
  {
    lead.(status := Contacted, gmailMessageId := reply.id, lastEmailSentAt := Some(now))
  }

  /** What the user is shown after pressing send. */
  datatype SendNotice =
    | AskedToConnect           // `onConnectGmail()` was called
    | Ignored                  // guard failed and there is no `onConnectGmail`
    | Alert(text: string)      // `alert(...)`
    | ParseErrorAlert          // `alert` of the JSON parse error's own message

  // ---------------------------------------------------------------------------
  // The component

  /** The body of `handleDeepAnalyze` between the loading marks: the copy of
      the lead is enriched field by field. */
  method EnrichLead(lead: Lead, businessContext: string, language: Language, s: Services, now: nat)
    returns (updated: Lead)
    ensures updated == AnalyzedLead(lead, businessContext, language, s, now)
  {
    updated := lead;
    if Truthy(lead.website) && lead.auditReport.None? {
      updated := updated.(auditReport := Some(AnalyzeWebsite(AuditRequest(lead.website.value, language), s.audit, s.parseAudit)));
    }
    var analysis := DeepAnalyzeLead(AnalysisRequest(updated.name, updated.website, businessContext, language), s.analysis, s.parseAnalysis);
    updated := updated.(deepAnalysis := Some(analysis));
    if !Truthy(updated.generatedEmail) {
      var draft := GenerateInitialEmail(DraftRequest(businessContext, updated.name, updated.businessType, updated.deepAnalysis, language), s.draft);
      updated := updated.(generatedEmail := Some(draft));
      updated := updated.(emailRefinementHistory := Some([Message("init", Model, draft, now)]));
    }
    updated := updated.(status := Analyzed);
  }

  class Dashboard {
    var leads: seq<Lead>
    /** Props the parent passes anew on every render. */
    var businessContext: string
    var language: Language
    var gmailToken: Option<string>
    /** Whether the `onConnectGmail` property is given. */
    const canConnect: bool
    var selectedLead: Option<Lead>
    var loadingLeadId: Option<string>
    var refineInput: string
    var isRefining: bool

    constructor(leads: seq<Lead>, businessContext: string, language: Language, gmailToken: Option<string>, canConnect: bool)
      ensures this.leads == leads && this.businessContext == businessContext && this.language == language
      ensures this.gmailToken == gmailToken && this.canConnect == canConnect
      ensures selectedLead.None? && loadingLeadId.None? && refineInput == "" && !isRefining
    {
      this.leads := leads;
      this.businessContext := businessContext;
      this.language := language;
      this.gmailToken := gmailToken;
      this.canConnect := canConnect;
      selectedLead := None;
      loadingLeadId := None;
      refineInput := "";
      isRefining := false;
    }

    /** A re-render with new props (the language switch, the assistant
        updating the business description, a Gmail connection): the
        dashboard's own state is kept. */
    method Rerender(businessContext: string, language: Language, gmailToken: Option<string>)
      modifies this
      ensures this.businessContext == businessContext && this.language == language && this.gmailToken == gmailToken
      ensures leads == old(leads) && selectedLead == old(selectedLead) && loadingLeadId == old(loadingLeadId)
      ensures refineInput == old(refineInput) && isRefining == old(isRefining)
    {
      this.businessContext, this.language, this.gmailToken := businessContext, language, gmailToken;
    }

    /** Clicking a lead card. */
    method Select(lead: Lead)
      modifies this
      ensures businessContext == old(businessContext) && language == old(language) && gmailToken == old(gmailToken)
      ensures selectedLead == Some(lead)
      ensures leads == old(leads) && loadingLeadId == old(loadingLeadId)
      ensures refineInput == old(refineInput) && isRefining == old(isRefining)
    {
      selectedLead := Some(lead);
    }

    /** Typing in the refinement box. */
    method SetRefineInput(text: string)
      modifies this
      ensures businessContext == old(businessContext) && language == old(language) && gmailToken == old(gmailToken)
      ensures refineInput == text
      ensures leads == old(leads) && selectedLead == old(selectedLead)
      ensures loadingLeadId == old(loadingLeadId) && isRefining == old(isRefining)
    {
      refineInput := text;
    }

    /** `handleDeepAnalyze(lead)`. */
    method HandleDeepAnalyze(lead: Lead, s: Services, now: nat)
      modifies this
      ensures businessContext == old(businessContext) && language == old(language) && gmailToken == old(gmailToken)
      ensures var r := AnalyzedLead(lead, businessContext, language, s, now);
              leads == ReplaceById(old(leads), lead.id, r) && selectedLead == Some(r)
      ensures loadingLeadId.None?
      ensures refineInput == old(refineInput) && isRefining == old(isRefining)
    {
      loadingLeadId := Some(lead.id);
      var updated := EnrichLead(lead, businessContext, language, s, now);
      leads := ReplaceById(leads, lead.id, updated);
      selectedLead := Some(updated);
      loadingLeadId := None;
    }

    /** `handleRefineEmail()`: nothing happens without a selected lead, a
        non-blank instruction and a non-empty draft. */
    method HandleRefineEmail(s: Services, t1: nat, t2: nat)
      modifies this
      ensures businessContext == old(businessContext) && language == old(language) && gmailToken == old(gmailToken)
      ensures old(selectedLead).None? || Trim(old(refineInput)) == "" || !Truthy(old(selectedLead).value.generatedEmail) ==>
                leads == old(leads) && selectedLead == old(selectedLead) && refineInput == old(refineInput) && isRefining == old(isRefining)
      ensures old(selectedLead).Some? && Trim(old(refineInput)) != "" && Truthy(old(selectedLead).value.generatedEmail) ==>
                var sel := old(selectedLead).value;
                var r := RefinedLead(sel, old(refineInput), businessContext, s, t1, t2);
                && leads == ReplaceById(old(leads), sel.id, r)
                && selectedLead == Some(r)
                && refineInput == ""
                && !isRefining
      ensures loadingLeadId == old(loadingLeadId)
    {
      if selectedLead.None? || Trim(refineInput) == "" || !Truthy(selectedLead.value.generatedEmail) {
        return;
      }
      var sel := selectedLead.value;
      isRefining := true;
      var instruction := refineInput;
      refineInput := "";
      var history := sel.emailRefinementHistory.GetOr([]) + [UserMessage(instruction, t1)];
      var updated := sel.(emailRefinementHistory := Some(history));
      var email := RefineEmailWithAI(RefineRequest(updated.generatedEmail.value, instruction, businessContext, updated.name), s.refine);
      updated := updated.(emailRefinementHistory := Some(history + [ModelMessage(email, t2)]));
      updated := updated.(generatedEmail := Some(email));
      leads := ReplaceById(leads, sel.id, updated);
      selectedLead := Some(updated);
      isRefining := false;
    }

    /** Typing in the draft editor, which is shown only for a selected lead:
        the draft changes, nothing else does. */
    method EditDraft(text: string)
      requires selectedLead.Some?
      modifies this
      ensures businessContext == old(businessContext) && language == old(language) && gmailToken == old(gmailToken)
      ensures var r := old(selectedLead).value.(generatedEmail := Some(text));
              leads == ReplaceById(old(leads), r.id, r) && selectedLead == Some(r)
      ensures ChatView(selectedLead.value) == ChatView(old(selectedLead).value)
      ensures loadingLeadId == old(loadingLeadId) && refineInput == old(refineInput) && isRefining == old(isRefining)
    {
      var updated := selectedLead.value.(generatedEmail := Some(text));
      selectedLead := Some(updated);
      leads := ReplaceById(leads, updated.id, updated);
    }

    /** `handleSendEmail()`: the message goes to a fixed recipient; only a
        successful send changes the lead. */
    method HandleSendEmail(transport: Transport, now: nat) returns (notice: SendNotice)
      modifies this
      ensures businessContext == old(businessContext) && language == old(language) && gmailToken == old(gmailToken)
      ensures old(selectedLead).None? || !Truthy(old(selectedLead).value.generatedEmail) || !Truthy(gmailToken) ==>
                notice == (if canConnect then AskedToConnect else Ignored) && leads == old(leads) && selectedLead == old(selectedLead)
      ensures old(selectedLead).Some? && Truthy(old(selectedLead).value.generatedEmail) && Truthy(gmailToken) ==>
                var sel := old(selectedLead).value;
                var result := SendGmail(gmailToken.value, Recipient, Subject(sel), sel.generatedEmail.value, transport);
                && (result.Sent? ==>
                      leads == ReplaceById(old(leads), sel.id, ContactedLead(sel, result.reply, now))
                      && selectedLead == Some(ContactedLead(sel, result.reply, now))
                      && notice == Alert("Sent!"))
                && (result.Failed? ==> leads == old(leads) && selectedLead == old(selectedLead) && notice == Alert("Error: " + result.message))
                && (result.Unreadable? ==> leads == old(leads) && selectedLead == old(selectedLead) && notice == ParseErrorAlert)
      ensures loadingLeadId == old(loadingLeadId) && refineInput == old(refineInput) && isRefining == old(isRefining)
    {
      if selectedLead.None? || !Truthy(selectedLead.value.generatedEmail) || !Truthy(gmailToken) {
        notice := if canConnect then AskedToConnect else Ignored;
        return;
      }
      var sel := selectedLead.value;
      var result := SendGmail(gmailToken.value, Recipient, Subject(sel), sel.generatedEmail.value, transport);
      match result
      case Sent(reply) =>
        var updated := ContactedLead(sel, reply, now);
        leads := ReplaceById(leads, sel.id, updated);
        selectedLead := Some(updated);
        notice := Alert("Sent!");
      case Failed(message) =>
        notice := Alert("Error: " + message);
      case Unreadable =>
        notice := ParseErrorAlert;
    }
  }
}
