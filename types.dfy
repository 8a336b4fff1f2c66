/** The data model shared by every component: prospects (`Lead`), campaigns
    (`Project`), chat messages, and the two structured results the AI backend
    produces for a prospect. Instants (`Date`) are milliseconds since the
    epoch; a JavaScript `number` that is an integer score is an `int`. */
module Types {
  import opened Options

  datatype Language = En | Fr | Es

  /** The workflow step shown by the application. */
  datatype AppStep = Context | ModeSelect | Discovery | WebAudit | Outreach

  datatype Role = User | Model

  datatype Message = Message(id: string, role: Role, text: string, timestamp: nat)

  datatype AuditReport = AuditReport(
    seoScore: int,
    designScore: int,
    mobileScore: int,
    criticalIssues: seq<string>,
    positivePoints: seq<string>,
    summary: string)

  datatype VerificationStatus = VerifiedActive | Uncertain | LikelyClosed

  /** `leadScore` is documented as 0-100 but nothing enforces it, so it is an
      unbounded `int` here. */
  datatype DeepAnalysis = DeepAnalysis(
    leadScore: int,
    fitReasoning: string,
    keyPainPoints: seq<string>,
    techStack: seq<string>,
    decisionMaker: Option<string>,
    verificationStatus: Option<VerificationStatus>)

  datatype LeadStatus = New | Analyzed | Contacted | Converted

  datatype ComplianceStatus = SafeB2B | WarningPersonalEmail

  datatype Lead = Lead(
    id: string,
    name: string,
    address: string,
    rating: Option<real>,
    website: Option<string>,
    phone: Option<string>,
    businessType: Option<string>,
    openingHours: Option<string>,
    status: LeadStatus,
    notes: Option<string>,
    auditReport: Option<AuditReport>,
    deepAnalysis: Option<DeepAnalysis>,
    generatedEmail: Option<string>,
    emailRefinementHistory: Option<seq<Message>>,
    gmailMessageId: Option<string>,
    gmailThreadId: Option<string>,
    lastEmailSentAt: Option<nat>,
    sendingError: Option<string>,
    complianceStatus: Option<ComplianceStatus>)

  datatype Project = Project(
    id: string,
    name: string,
    date: nat,
    leads: seq<Lead>,
    businessContext: string)

  datatype BusinessContext = BusinessContext(description: string, uploadedFilesContent: seq<string>)

  /** A lead with only the mandatory fields set, as object literals with
      `status: 'new'` build them. */
  function FreshLead(id: string, name: string, address: string): Lead {
    Lead(id, name, address, None, None, None, None, None, New, None, None, None,
         None, None, None, None, None, None, None)
  }

  /** JavaScript truthiness of an optional string: absent and "" are false. */
  predicate Truthy(s: Option<string>) {
    s.Some? && s.value != ""
  }
}
