/** The prospect-search panel: a sector and a location, an optional strategy
    and a hiring filter are turned into one search of the AI backend. */
module LeadFinder {
  import opened Options
  import opened Types
  import opened Text
  import opened Gemini

  const HiringYes := "YES - PRIORITIZE GROWING COMPANIES"
  const HiringNo := "NO"
  const Indent := "\n    "
  const HiringKey := "Only Companies Hiring: "
  const StrategyLabel := Indent + "User Input Strategy: "
  const ContextLabel := Indent + "Global Chat Context & Business Info: "

  function HiringFlag(hiring: bool): string {
    if hiring then HiringYes else HiringNo
  }

  /** The strategy text handed to the search: the user's strategy, the hiring
      filter and the business context, one labelled line each. */
  function SearchContext(strategy: string, hiring: bool, businessContext: string): string {
    StrategyLabel + strategy + Indent + HiringKey + HiringFlag(hiring)
    + ContextLabel + businessContext + Indent
  }

  /** The context carries the user's strategy. */
  lemma SearchContextHasStrategy(strategy: string, hiring: bool, businessContext: string)
    ensures Contains(SearchContext(strategy, hiring, businessContext), strategy)
  {
    var s0 := StrategyLabel + strategy;
    ContainsMiddle(StrategyLabel, strategy, "");
    assert StrategyLabel + strategy + "" == s0;
    var s1 := s0 + Indent;
    ContainsWithin("", s0, Indent, strategy);
    var s2 := s1 + HiringKey;
    ContainsWithin("", s1, HiringKey, strategy);
    var s3 := s2 + HiringFlag(hiring);
    ContainsWithin("", s2, HiringFlag(hiring), strategy);
    var s4 := s3 + ContextLabel;
    ContainsWithin("", s3, ContextLabel, strategy);
    var s5 := s4 + businessContext;
    ContainsWithin("", s4, businessContext, strategy);
    ContainsWithin("", s5, Indent, strategy);
  }

  /** The context carries the business context. */
  lemma SearchContextHasBusiness(strategy: string, hiring: bool, businessContext: string)
    ensures Contains(SearchContext(strategy, hiring, businessContext), businessContext)
  {
    var head := StrategyLabel + strategy + Indent + HiringKey + HiringFlag(hiring) + ContextLabel;
    ContainsMiddle(head, businessContext, Indent);
  }

  /** The hiring line states the filter: the marker when it is on, "NO" when
      it is off. */
  lemma SearchContextHasFilter(strategy: string, hiring: bool, businessContext: string)
    ensures Contains(SearchContext(strategy, hiring, businessContext), HiringKey + HiringFlag(hiring))
  {
    var head := StrategyLabel + strategy + Indent;
    var line := HiringKey + HiringFlag(hiring);
    var tail := ContextLabel + businessContext + Indent;
    assert head + HiringKey + HiringFlag(hiring) == head + line;
    assert head + line + ContextLabel + businessContext + Indent == head + line + tail;
    ContainsMiddle(head, line, tail);
  }

  /** The filter is always visible to the search: the two settings give
      different contexts. */
  lemma SearchContextDistinguishesFilter(strategy: string, businessContext: string)
    ensures SearchContext(strategy, true, businessContext) != SearchContext(strategy, false, businessContext)
  {
    assert |SearchContext(strategy, true, businessContext)| == |SearchContext(strategy, false, businessContext)| + 32;
  }

  /** The marker is free text: a strategy quoting it puts it in the context
      while the filter is off. */
  lemma HiringMarkerInStrategy(businessContext: string)
    ensures Contains(SearchContext(HiringYes, false, businessContext), HiringYes)
  {
    SearchContextHasStrategy(HiringYes, false, businessContext);
  }

  class Panel {
    var sector: string
    var location: string
    var strategy: string
    var hiringFilter: bool
    var isSearching: bool
    var statusMsg: string
    /** Props: the parent re-renders the panel with its current language and
        business description, so these are re-read on every render. */
    var language: Language
    var businessContext: string
    /** The translated "processing" and "no leads" messages of `language`. */
    var processingText: string
    var noLeadsText: string

    constructor (language: Language, businessContext: string, processingText: string, noLeadsText: string)
      ensures sector == "" && location == "" && strategy == "" && !hiringFilter
      ensures !isSearching && statusMsg == ""
      ensures this.language == language && this.businessContext == businessContext
      ensures this.processingText == processingText && this.noLeadsText == noLeadsText
    {
      sector, location, strategy := "", "", "";
      hiringFilter, isSearching := false, false;
      statusMsg := "";
      this.language := language;
      this.businessContext := businessContext;
      this.processingText := processingText;
      this.noLeadsText := noLeadsText;
    }

    method SetInputs(sector: string, location: string, strategy: string, hiringFilter: bool)
      modifies this
      ensures this.sector == sector && this.location == location
      ensures this.strategy == strategy && this.hiringFilter == hiringFilter
      ensures isSearching == old(isSearching) && statusMsg == old(statusMsg)
      ensures language == old(language) && businessContext == old(businessContext)
      ensures processingText == old(processingText) && noLeadsText == old(noLeadsText)
    {
      this.sector, this.location := sector, location;
      this.strategy, this.hiringFilter := strategy, hiringFilter;
    }

    /** A re-render with new props (the language switch, or the assistant
        updating the business description): the panel's own state is kept. */
    method Rerender(language: Language, businessContext: string, processingText: string, noLeadsText: string)
      modifies this
      ensures this.language == language && this.businessContext == businessContext
      ensures this.processingText == processingText && this.noLeadsText == noLeadsText
      ensures sector == old(sector) && location == old(location)
      ensures strategy == old(strategy) && hiringFilter == old(hiringFilter)
      ensures isSearching == old(isSearching) && statusMsg == old(statusMsg)
    {
      this.language, this.businessContext := language, businessContext;
      this.processingText, this.noLeadsText := processingText, noLeadsText;
    }

    function Request(): SearchRequest
      reads this
    {
      SearchRequest(sector, location, language, SearchContext(strategy, hiringFilter, businessContext))
    }

    /** `handleSearch`: returns the list handed to `onLeadsFound`, None when it
        is not called. The search service turns every failure into an empty
        list, so the handler's own catch is never reached: a failed search
        shows the no-leads message. */
    method HandleSearch(search: Backend<SearchRequest>, extract: Backend<ExtractRequest>,
                        parse: string -> Option<seq<ExtractedLead>>, clock: nat -> nat)
      returns (found: Option<seq<Lead>>)
      modifies this
      ensures sector == old(sector) && location == old(location)
      ensures strategy == old(strategy) && hiringFilter == old(hiringFilter)
      ensures language == old(language) && businessContext == old(businessContext)
      ensures processingText == old(processingText) && noLeadsText == old(noLeadsText)
      ensures old(sector) == "" || old(location) == "" ==>
                found.None? && isSearching == old(isSearching) && statusMsg == old(statusMsg)
      ensures old(sector) != "" && old(location) != "" ==>
                var leads := FindLeadsOnMaps(Request(), search, extract, parse, clock);
                && !isSearching
                && (leads == [] ==> found.None? && statusMsg == noLeadsText)
                && (leads != [] ==> found == Some(leads) && statusMsg == processingText)
      ensures old(sector) != "" && old(location) != "" && Call(search, Request()).Err? ==>
                found.None? && statusMsg == noLeadsText
    {
      if sector == "" || location == "" {
        return None;
      }
      isSearching := true;
      statusMsg := processingText;
      var fullContext := SearchContext(strategy, hiringFilter, businessContext);
      var leads := FindLeadsOnMaps(SearchRequest(sector, location, language, fullContext), search, extract, parse, clock);
      if |leads| == 0 {
        statusMsg := noLeadsText;
        found := None;
      } else {
        found := Some(leads);
      }
      isSearching := false;
    }
  }
}
