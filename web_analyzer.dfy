/** The web-audit panel: a single URL typed by the user is normalised, audited
    by the AI backend and turned into one prospect. */
module WebAnalyzer {
  import opened Options
  import opened Types
  import opened Text
  import opened Gemini
  import EmailDashboard

  // ---------------------------------------------------------------------------
  // Normalising the URL

  /** The URL is trimmed; anything that does not start with "http" gets the
      "https://" scheme in front. */
  function CleanUrl(url: string): (r: string)
    ensures StartsWith(r, "http")
  {
    var t := Trim(url);
    if StartsWith(t, "http") then t else "https://" + t
  }

  /** The trimmed text neither starts nor ends with white space. */
  lemma TrimEnds(url: string)
    ensures var t := Trim(url); t == [] || (!IsJsSpace(t[0]) && !IsJsSpace(t[|t| - 1]))
  {
    var s := TrimStart(url);
    var t := Trim(url);
    if t != [] {
      assert t[0] == s[0];
    }
  }

  /** Normalising a normalised URL changes nothing. */
  lemma CleanUrlIdempotent(url: string)
    ensures CleanUrl(CleanUrl(url)) == CleanUrl(url)
  {
    var t := Trim(url);
    TrimEnds(url);
    if StartsWith(t, "http") {
      TrimFixed(t);
    } else {
      SchemeKept(t);
    }
  }

  /** A trimmed host with the secure scheme in front is left as it is. */
  lemma SchemeKept(t: string)
    requires t == [] || (!IsJsSpace(t[0]) && !IsJsSpace(t[|t| - 1]))
    ensures CleanUrl("https://" + t) == "https://" + t
  {
    var c := "https://" + t;
    assert !IsJsSpace(c[|c| - 1]) by {
      if t != [] {
        assert c[|c| - 1] == t[|t| - 1];
      }
    }
    TrimFixed(c);
  }

  /** A host name that does not start with "http" is given the secure
      scheme. */
  lemma CleanUrlAddsScheme(host: string)
    requires host == [] || (!IsJsSpace(host[0]) && !IsJsSpace(host[|host| - 1]))
    requires !StartsWith(host, "http")
    ensures CleanUrl(host) == "https://" + host
  {
    TrimFixed(host);
  }

  /** Only the prefix "http" is tested, so a text starting with it is kept
      as it is, including a bare host name such as "httpbin.org". */
  lemma CleanUrlKeepsHttp(url: string)
    requires StartsWith(url, "http")
    requires !IsJsSpace(url[|url| - 1])
    ensures CleanUrl(url) == url
  {
    TrimFixed(url);
  }

  /** A URL that is not empty but blank passes the guard and becomes the bare
      scheme, whose prospect name is empty. */
  lemma BlankUrl(url: string)
    requires Blank(url)
    ensures CleanUrl(url) == "https://"
    ensures LeadName(CleanUrl(url)) == ""
  {
    TrimEmptyIffBlank(url);
    ReplaceFirstAtStart("https://", "https://", "");
    assert ReplaceFirst("", "www.", "") == "";
  }

  // ---------------------------------------------------------------------------
  // The prospect

  /** The prospect's name: the first "https://" and the first "www." are
      removed and the text up to the first '/' is kept. */
  function LeadName(cleanUrl: string): string {
    Split(ReplaceFirst(ReplaceFirst(cleanUrl, "https://", ""), "www.", ""), "/")[0]
  }

  /** The name never holds a '/'. */
  lemma LeadNameNoSlash(cleanUrl: string)
    ensures '/' !in LeadName(cleanUrl)
  {
    var x := ReplaceFirst(ReplaceFirst(cleanUrl, "https://", ""), "www.", "");
    assert "/" == ['/'];
    SplitPiecesExclude(x, '/', "");
    assert LeadName(cleanUrl) == SplitFrom(x, ['/'], "")[0];
  }

  /** For a secure URL with the "www." prefix the name is the host. */
  lemma LeadNameHost(host: string, path: string)
    requires '/' !in host
    ensures LeadName("https://www." + host + "/" + path) == host
  {
    var w := host + "/" + path;
    var v := "www." + w;
    assert "https://www." + host + "/" + path == "https://" + v;
    ReplaceFirstPrefix("https://", v);
    ReplaceFirstPrefix("www.", w);
    SplitHead(host, '/', path);
    assert "/" == ['/'];
  }

  /** Only the "https://" scheme is removed: for a plain "http://" URL the
      name is the scheme itself. */
  lemma LeadNameHttp(rest: string)
    ensures LeadName("http://" + rest) == "http:"
  {
    var s := "http://" + rest;
    assert s[0] == 'h' && s[1] == 't' && s[2] == 't' && s[3] == 'p' && s[4] == ':' && s[5] == '/';
    assert forall i :: 0 <= i < 6 ==> !OccursAt(s, "https://", i);
    var t := ReplaceFirst(s, "https://", "");
    ReplaceFirstKeepsPrefix(s, "https://", "", 6);
    assert t[..6] == s[..6] == "http:/";
    forall i | 0 <= i < 6 ensures !OccursAt(t, "www.", i) {
      assert t[i] == t[..6][i] != 'w';
    }
    var v := ReplaceFirst(t, "www.", "");
    ReplaceFirstKeepsPrefix(t, "www.", "", 6);
    assert v == v[..6] + v[6..];
    assert v == "http:" + ['/'] + v[6..];
    SplitHead("http:", '/', v[6..]);
  }

  /** The prospect built from one audit: marked by the time of the audit,
      named after the URL, its notes the audit's summary. */
  function AuditLead(cleanUrl: string, report: AuditReport, now: nat): Lead {
    FreshLead("audit-" + Decimal(now), LeadName(cleanUrl), "Web Prospect")
      .(website := Some(cleanUrl), auditReport := Some(report), notes := Some(report.summary))
  }

  /** An audited prospect is new, carries its audit and its URL, and is never
      audited again by the outreach dashboard's analysis. */
  lemma AuditLeadReady(url: string, report: AuditReport, now: nat)
    ensures var lead := AuditLead(CleanUrl(url), report, now);
            && lead.status == New && lead.auditReport == Some(report)
            && Truthy(lead.website) && StartsWith(lead.website.value, "http")
            && '/' !in lead.name
            && !EmailDashboard.NeedsAudit(lead)
  {
    LeadNameNoSlash(CleanUrl(url));
  }

  /** Two audits at different instants give prospects with different ids. */
  lemma AuditIdsDistinct(a: string, b: string, r: AuditReport, s: AuditReport, t1: nat, t2: nat)
    requires t1 != t2
    ensures AuditLead(a, r, t1).id != AuditLead(b, s, t2).id
  {
    if AuditLead(a, r, t1).id == AuditLead(b, s, t2).id {
      assert ("audit-" + Decimal(t1))[6..] == Decimal(t1);
      assert ("audit-" + Decimal(t2))[6..] == Decimal(t2);
      DecimalInjective(t1, t2);
    }
  }

  // ---------------------------------------------------------------------------
  // The panel

  class Panel {
    var url: string
    var isAnalyzing: bool
    /** Prop: the parent re-renders the panel with its current language. */
    var language: Language

    constructor (language: Language)
      ensures url == "" && !isAnalyzing && this.language == language
    {
      url := "";
      isAnalyzing := false;
      this.language := language;
    }

    method SetUrl(u: string)
      modifies this
      ensures url == u && isAnalyzing == old(isAnalyzing)
      ensures language == old(language)
    {
      url := u;
    }

    /** A re-render after the language switch: the typed URL is kept. */
    method SetLanguage(language: Language)
      modifies this
      ensures this.language == language
      ensures url == old(url) && isAnalyzing == old(isAnalyzing)
    {
      this.language := language;
    }

    /** `handleAnalyze`: returns the prospects handed to `onAuditComplete`, or
        None when the empty URL stops it. The audit service reports its own
        failures as a report; a reply that parses to `null`, which makes the
        handler's own catch run, is not modelled. */
    method HandleAnalyze(audit: Backend<AuditRequest>, parse: string -> Option<AuditReport>, now: nat)
      returns (found: Option<seq<Lead>>)
      modifies this
      ensures url == old(url) && language == old(language)
      ensures old(url) == "" ==> found.None? && isAnalyzing == old(isAnalyzing)
      ensures old(url) != "" ==> !isAnalyzing
      ensures old(url) != "" ==>
                var clean := CleanUrl(url);
                found == Some([AuditLead(clean, AnalyzeWebsite(AuditRequest(clean, language), audit, parse), now)])
    {
      if url == "" {
        return None;
      }
      isAnalyzing := true;
      var cleanUrl := Trim(url);
      if !(StartsWith(cleanUrl, "http")) {
        cleanUrl := "https://" + cleanUrl;
      }
      var report := AnalyzeWebsite(AuditRequest(cleanUrl, language), audit, parse);
      var lead := AuditLead(cleanUrl, report, now);
      found := Some([lead]);
      isAnalyzing := false;
    }
  }
}
