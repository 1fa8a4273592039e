/** The search agent's glue: the wrapper that runs the search tool and reports its
    outcome as a record, and the guard that appends the reference-link section of a
    search result to a model reply that lacks one. */
module SearchAgent {
  import opened Outcomes
  import opened Strings
  import opened I18n
  import SearchTool

  /** The run of framing characters that opens the reference-link section. */
  const Marker: string := "━━━━━━━━"

  /** The texts whose presence says a search result carries links. */
  const LinkIcon: string := "🔗"
  const LabelJa: string := "参考URL"
  const LabelEn: string := "Reference URLs"

  /** `"🔗" in s or "参考URL" in s or "Reference URLs" in s`. */
  predicate HasTrigger(s: string) {
    Contains(s, LinkIcon) || Contains(s, LabelJa) || Contains(s, LabelEn)
  }

  /** A reply already holds a reference-link section: the marker and one of the labels. */
  predicate HasSection(reply: string) {
    Contains(reply, Marker) && (Contains(reply, LabelJa) || Contains(reply, LabelEn))
  }

  /** `process_search_result(search_result, ai_response_text)`: the reply changes exactly
      when the search result has a trigger text and a marker and the reply lacks a
      section, and then it gains a blank line and the search result's section. */
  function ProcessSearchResult(search: string, reply: string): (r: string)
    ensures r == reply <==> !(HasTrigger(search) && Contains(search, Marker) && !HasSection(reply))
    ensures r != reply ==> Contains(search, Marker) && r == reply + "\n\n" + SectionOf(search)
  {
    if HasTrigger(search) then
      var start := Find(search, Marker);
      if start != -1 then
        var section := search[start..];
        if !HasSection(reply) then reply + "\n\n" + section else reply
      else reply
    else reply
  }

  /** The reference-link section a search result would contribute. */
  function SectionOf(search: string): string
    requires Contains(search, Marker)
  {
    search[Find(search, Marker)..]
  }

  /** The reply is kept as the head of the result; the only possible change is a blank
      line and a suffix of the search result after it. */
  lemma ReplyIsKept(search: string, reply: string)
    ensures var r := ProcessSearchResult(search, reply);
            |reply| <= |r| && r[..|reply|] == reply
    ensures var r := ProcessSearchResult(search, reply);
            r == reply || exists k | 0 <= k <= |search| :: r == reply + "\n\n" + search[k..]
  {
    var r := ProcessSearchResult(search, reply);
    if r != reply {
      var k := Find(search, Marker);
      assert r == reply + "\n\n" + search[k..];
      assert r[..|reply|] == reply;
    }
  }

  /** Without any of the trigger texts the reply comes back unchanged. */
  lemma NoTriggerUnchanged(search: string, reply: string)
    requires !HasTrigger(search)
    ensures ProcessSearchResult(search, reply) == reply
  {
  }

  /** With a trigger text but no marker the reply comes back unchanged. */
  lemma NoMarkerUnchanged(search: string, reply: string)
    requires !Contains(search, Marker)
    ensures ProcessSearchResult(search, reply) == reply
  {
  }

  /** With a trigger and a marker, the section from the first marker to the end is
      appended exactly when the reply does not already hold a section. */
  lemma SectionAppended(search: string, reply: string)
    requires HasTrigger(search) && Contains(search, Marker)
    ensures !HasSection(reply) ==> ProcessSearchResult(search, reply) == reply + "\n\n" + SectionOf(search)
    ensures HasSection(reply) ==> ProcessSearchResult(search, reply) == reply
    ensures ProcessSearchResult(search, reply) != reply <==> !HasSection(reply)
  {
  }

  /** The extracted section begins with the marker. */
  lemma SectionStartsWithMarker(search: string)
    requires Contains(search, Marker)
    ensures OccursAt(SectionOf(search), Marker, 0)
  {
    var k := Find(search, Marker);
    OccursInSuffix(search, Marker, k, k);
  }

  /** Once a section holding a label is appended, a second pass appends nothing more. */
  lemma Idempotent(search: string, reply: string)
    requires Contains(search, Marker) ==> Contains(SectionOf(search), LabelJa) || Contains(SectionOf(search), LabelEn)
    ensures ProcessSearchResult(search, ProcessSearchResult(search, reply)) == ProcessSearchResult(search, reply)
  {
    var once := ProcessSearchResult(search, reply);
    if once != reply {
      var section := SectionOf(search);
      assert once == (reply + "\n\n") + section;
      SectionStartsWithMarker(search);
      ContainsAt(section, Marker, 0);
      ContainsRight(reply + "\n\n", section, Marker);
      if Contains(section, LabelJa) {
        ContainsRight(reply + "\n\n", section, LabelJa);
      } else {
        ContainsRight(reply + "\n\n", section, LabelEn);
      }
      assert HasSection(once);
    }
  }

  /** A label that occurs after some marker occurs in the section the guard extracts. */
  lemma LabelInSection(s: string, lbl: string, p: nat, q: nat)
    requires OccursAt(s, Marker, p) && OccursAt(s, lbl, q) && p <= q
    ensures Contains(s, Marker) && Contains(SectionOf(s), lbl)
  {
    ContainsAt(s, Marker, p);
    var k := Find(s, Marker);
    assert k <= p;
    OccursInSuffix(s, lbl, k, q);
    ContainsAt(s[k..], lbl, q - k);
  }

  /** The marker opens the reference-link section, and a label inside its caption
      follows the marker in the section. */
  lemma SectionMarks(lang: string, caption: string, items: seq<SearchTool.Item>, lbl: string, j: nat)
    requires OccursAt(caption, lbl, j)
    ensures OccursAt(SearchTool.ReferenceSection(lang, caption, items), Marker, 2)
    ensures OccursAt(SearchTool.ReferenceSection(lang, caption, items), lbl, 2 + |SearchTool.Bar| + 3 + j)
  {
    var section := SearchTool.ReferenceSection(lang, caption, items);
    SearchTool.SectionFraming(lang, caption, items);
    assert SearchTool.Bar[..|Marker|] == Marker;
    OccursPrefix(section, SearchTool.Bar, 2, |Marker|);
    OccursWithin(section, caption, 2 + |SearchTool.Bar| + 3, lbl, j);
  }

  /** Every answer the search tool builds from hits, under a reference-link caption
      holding one of the labels, is seen by the guard as carrying a section that holds
      that label. */
  lemma ToolSectionDetected(out: string, lang: string, caption: string, items: seq<SearchTool.Item>)
    requires var section := SearchTool.ReferenceSection(lang, caption, items);
             |section| <= |out| && out[|out| - |section|..] == section
    requires Contains(caption, LabelJa) || Contains(caption, LabelEn)
    ensures HasTrigger(out) && Contains(out, Marker)
    ensures Contains(SectionOf(out), LabelJa) || Contains(SectionOf(out), LabelEn)
  {
    var section := SearchTool.ReferenceSection(lang, caption, items);
    var at := |out| - |section|;
    assert OccursAt(out, section, at);
    var lbl := if Contains(caption, LabelJa) then LabelJa else LabelEn;
    var j :| 0 <= j <= |caption| && OccursAt(caption, lbl, j);
    SectionMarks(lang, caption, items, lbl, j);
    SectionInside(out, section, at, lbl, 2 + |SearchTool.Bar| + 3 + j);
  }

  /** A section that holds the marker and, after it, a label, carries both into any
      text it occurs in, and the guard finds the label in what it extracts. */
  lemma SectionInside(out: string, section: string, at: nat, lbl: string, c: nat)
    requires OccursAt(out, section, at)
    requires OccursAt(section, Marker, 2) && OccursAt(section, lbl, c) && 2 <= c
    ensures Contains(out, lbl) && Contains(out, Marker) && Contains(SectionOf(out), lbl)
  {
    OccursWithin(out, section, at, Marker, 2);
    OccursWithin(out, section, at, lbl, c);
    ContainsAt(out, lbl, at + c);
    LabelInSection(out, lbl, at + 2, at + c);
  }

  /** The captions of the built-in tables hold the labels the guard looks for. */
  lemma BuiltinCaptionsHoldLabels()
    ensures Contains("Reference URLs:", LabelEn) && Contains("参考URL:", LabelJa)
  {
    assert "Reference URLs:" == LabelEn + ":";
    assert "参考URL:" == LabelJa + ":";
    OccursAtStart(LabelEn, ":");
    OccursAtStart(LabelJa, ":");
    ContainsAt("Reference URLs:", LabelEn, 0);
    ContainsAt("参考URL:", LabelJa, 0);
  }

  /** What the tool answers from a non-empty list of hits, summarised or not, is seen
      by the guard as carrying a reference-link section, provided the caption holds a
      label (as both built-in captions do). */
  lemma HitsDetected(q: string, lang: string, cat: Catalog, services: SearchTool.Services, items: seq<SearchTool.Item>)
    requires Ready(cat) && |items| > 0
    requires Lookup(cat, lang, "search.results_prefix", NoArgs).Ok?
    requires var caption := Lookup(cat, lang, "search.reference_urls", NoArgs);
             caption.Ok? && (Contains(caption.value, LabelJa) || Contains(caption.value, LabelEn))
    ensures SearchTool.FromItems(q, lang, cat, services, Some(items)).Returned?
    ensures var out := SearchTool.FromItems(q, lang, cat, services, Some(items)).text;
            && HasTrigger(out) && Contains(out, Marker)
            && (Contains(SectionOf(out), LabelJa) || Contains(SectionOf(out), LabelEn))
  {
    SearchTool.HitsEndInSection(q, lang, cat, services, items);
    var out := SearchTool.FromItems(q, lang, cat, services, Some(items)).text;
    var caption := Lookup(cat, lang, "search.reference_urls", NoArgs).value;
    ToolSectionDetected(out, lang, caption, SearchTool.TopResults(items));
  }

  /** With the built-in English tables, what the tool answers from a non-empty list of
      hits is seen by the guard as carrying a reference-link section. */
  lemma BuiltinHitsDetectedEn(q: string, format: (string, string, string) -> string,
                              services: SearchTool.Services, items: seq<SearchTool.Item>)
    requires |items| > 0
    ensures var r := SearchTool.FromItems(q, "en", Catalog(Builtin(), format), services, Some(items));
            && r.Returned? && HasTrigger(r.text) && Contains(r.text, Marker)
            && (Contains(SectionOf(r.text), LabelJa) || Contains(SectionOf(r.text), LabelEn))
  {
    BuiltinResultsPrefixEn(format);
    BuiltinReferenceLabelEn(format);
    BuiltinCaptionsHoldLabels();
    HitsDetected(q, "en", Catalog(Builtin(), format), services, items);
  }

  /** The same with the built-in Japanese tables. */
  lemma BuiltinHitsDetectedJa(q: string, format: (string, string, string) -> string,
                              services: SearchTool.Services, items: seq<SearchTool.Item>)
    requires |items| > 0
    ensures var r := SearchTool.FromItems(q, "ja", Catalog(Builtin(), format), services, Some(items));
            && r.Returned? && HasTrigger(r.text) && Contains(r.text, Marker)
            && (Contains(SectionOf(r.text), LabelJa) || Contains(SectionOf(r.text), LabelEn))
  {
    BuiltinResultsPrefixJa(format);
    BuiltinReferenceLabelJa(format);
    BuiltinCaptionsHoldLabels();
    HitsDetected(q, "ja", Catalog(Builtin(), format), services, items);
  }

  // ---------------------------------------------------------------------------
  // execute_search

  /** The record `execute_search` returns. */
  datatype SearchOutcome = SearchOutcome(success: bool, result: Option<string>, error: Option<string>)

  /** `execute_search(query, lang)`, with the search tool as a given function that returns
      its text or raises; raises itself only when a message lookup raises. */
  function ExecuteSearch(query: string, lang: string, cat: Catalog, tool: string -> Result<string>): (r: Result<SearchOutcome>)
    requires Ready(cat)
    ensures r.Ok? ==> (r.value.success <==> r.value.error.None?)
    ensures r.Ok? ==> (r.value.success <==> r.value.result.Some?)
  {
    if query == "" then
      var msg :- Lookup(cat, lang, "moderator.search_query_not_specified", NoArgs);
      Ok(SearchOutcome(false, None, Some(msg)))
    else
      match tool(query)
      case Ok(text) => Ok(SearchOutcome(true, Some(text), None))
      case Raised(f) =>
        var msg :- Lookup(cat, lang, "moderator.search_error", Arg("error", f.message));
        Ok(SearchOutcome(false, None, Some(msg)))
  }

  /** An empty query never reaches the tool and is reported with the
      query-not-specified message. */
  lemma EmptyQueryMakesNoCall(lang: string, cat: Catalog, tool1: string -> Result<string>, tool2: string -> Result<string>)
    requires Ready(cat)
    ensures ExecuteSearch("", lang, cat, tool1) == ExecuteSearch("", lang, cat, tool2)
    ensures var m := Lookup(cat, lang, "moderator.search_query_not_specified", NoArgs);
            m.Ok? ==> ExecuteSearch("", lang, cat, tool1) == Ok(SearchOutcome(false, None, Some(m.value)))
  {
  }

  /** A search that returns is reported as a success carrying exactly the tool's text. */
  lemma SearchSucceeds(query: string, lang: string, cat: Catalog, tool: string -> Result<string>)
    requires Ready(cat) && query != "" && tool(query).Ok?
    ensures ExecuteSearch(query, lang, cat, tool) == Ok(SearchOutcome(true, Some(tool(query).value), None))
  {
  }

  /** A search that raises is reported as a failure with the search-error message,
      formatted with the exception's text. */
  lemma SearchRaises(query: string, lang: string, cat: Catalog, tool: string -> Result<string>)
    requires Ready(cat) && query != "" && tool(query).Raised?
    ensures var m := Lookup(cat, lang, "moderator.search_error", Arg("error", tool(query).fault.message));
            ExecuteSearch(query, lang, cat, tool) == (if m.Ok? then Ok(SearchOutcome(false, None, Some(m.value))) else Raised(m.fault))
  {
  }
}
