/** The web-search tool: language normalisation, the request it would send, the
    outcome branches, the bulleted digest, and the numbered reference-link section.
    The HTTP call and the summarising LLM call are taken as given functions. */
module SearchTool {
  import opened Outcomes
  import opened Strings
  import opened I18n

  /** One search hit; a field the record lacks reads as `""`. */
  datatype Item = Item(title: string, snippet: string, link: string)

  /** The search API key and engine id; `""` stands for an unset variable. */
  datatype Credentials = Credentials(apiKey: string, engineId: string)

  /** The query parameters of the search request. */
  datatype Request = Request(key: string, cx: string, q: string, num: nat, lr: string)

  /** The decoded JSON body: its `items` list, when there is one, or a decoding error. */
  datatype Body = Json(items: Option<seq<Item>>) | Undecodable(reason: string)

  /** An HTTP response: its status, the rendering of its error body (the `{error_data}`
      or `response.text` of the source), the message `raise_for_status` would raise
      with, and its body. */
  datatype HttpResponse = HttpResponse(status: int, detail: string, statusError: string, body: Body)

  /** What the request produced: a `RequestException` before any response, or a response. */
  datatype HttpOutcome = TransportError(reason: string) | Received(response: HttpResponse)

  /** The collaborators: the HTTP search call, and the summarising LLM call from prompt
      to reply text (`None` when it raises). */
  datatype Services = Services(http: Request -> HttpOutcome, summarise: string -> Option<string>)

  /** The decorative line that frames the reference-link section. */
  const Bar: string := "━━━━━━━━━━━━━━━━━━━━━━━━━━━━━━━━━━━━━━━━"

  /** The tool answers in Japanese or English only. */
  function ToolLanguage(lang: string): (l: string)
    ensures l == "ja" || l == "en"
    ensures lang == "ja" || lang == "en" ==> l == lang
  {
    if lang == "ja" || lang == "en" then lang else "en"
  }

  /** The parameters of the search request. */
  function SearchRequest(creds: Credentials, q: string, lang: string): Request {
    Request(creds.apiKey, creds.engineId, q, 5, if lang == "ja" then "lang_ja" else "lang_en")
  }

  /** At most five hits are used. */
  function TopResults(items: seq<Item>): (top: seq<Item>)
    ensures |top| == if |items| < 5 then |items| else 5
    ensures top == items[..|top|]
  {
    if |items| <= 5 then items else items[..5]
  }

  // ---------------------------------------------------------------------------
  // The texts of the branches

  function Unconfigured(q: string, lang: string, msg: string): string {
    if lang == "ja" then "「" + q + "」に関する検索結果：[" + msg + "]"
    else "Search results for \"" + q + "\": [" + msg + "]"
  }

  /** The diagnostic for status 403, up to the error detail. */
  const DeniedJa: string := "【検索エラー】Google Custom Search APIへのアクセスが拒否されました（403エラー）。\n\n考えられる原因:\n1. APIキーにCustom Search APIの権限がない\n2. APIキーが無効または期限切れ\n3. Custom Search Engine IDが間違っている\n4. APIキーの使用制限に達している\n\n環境変数 GOOGLE_SEARCH_API_KEY と GOOGLE_SEARCH_ENGINE_ID を確認してください。\n\nエラー詳細: "
  const DeniedEn: string := "【Search Error】Access to Google Custom Search API was denied (403 error).\n\nPossible causes:\n1. API key does not have Custom Search API permission\n2. API key is invalid or expired\n3. Custom Search Engine ID is incorrect\n4. API key usage limit reached\n\nPlease check environment variables GOOGLE_SEARCH_API_KEY and GOOGLE_SEARCH_ENGINE_ID.\n\nError details: "

  /** The wording of the 403 diagnostic in both languages. The operations take it as
      a parameter, so that proofs not about its text do not carry it; the tool uses
      `SourceDenied`. */
  datatype DeniedWording = DeniedWording(ja: string, en: string)

  const SourceDenied: DeniedWording := DeniedWording(DeniedJa, DeniedEn)

  function DeniedText(lang: string, words: DeniedWording): string {
    if lang == "ja" then words.ja else words.en
  }

  /** The diagnostic for status 403, ending with ` - ` and the error body. */
  function AccessDenied(lang: string, detail: string, words: DeniedWording): string {
    DeniedText(lang, words) + " - " + detail
  }

  function NoResults(q: string, lang: string, msg: string): string {
    if lang == "ja" then "「" + q + "」" + msg else msg + " \"" + q + "\"."
  }

  function RequestError(q: string, lang: string, msg: string, e: string): string {
    if lang == "ja" then "「" + q + "」" + msg + " " + e else msg + " \"" + q + "\": " + e
  }

  function UnexpectedError(q: string, lang: string, msg: string): string {
    if lang == "ja" then "「" + q + "」" + msg else msg
  }

  function Bullet(lang: string): string {
    if lang == "ja" then "・" else "•"
  }

  /** One digest entry: bullet and title, then the snippet, then the URL. */
  function DigestEntry(item: Item, bullet: string): string {
    bullet + item.title + "\n  " + item.snippet + "\n  URL: " + item.link
  }

  function DigestEntries(items: seq<Item>, bullet: string): (entries: seq<string>)
    ensures |entries| == |items|
  {
    seq(|items|, i requires 0 <= i < |items| => DigestEntry(items[i], bullet))
  }

  /** The bulleted digest of the hits, entries separated by a blank line. */
  function Digest(items: seq<Item>, lang: string): string {
    JoinWith(DigestEntries(items, Bullet(lang)), "\n\n")
  }

  /** The wording of the summary prompt, around the query and the digest. */
  const PromptHeadJa: string := "以下の検索結果を、議論の参考になるように簡潔に要約してください。\n検索クエリ: "
  const PromptMidJa: string := "\n\n検索結果:\n"
  const PromptTailJa: string := "\n\n要約では、主要な事実、統計、最新の情報を強調してください。日本語で応答してください。"
  const PromptHeadEn: string := "Please summarize the following search results concisely to be useful for discussion.\nSearch query: "
  const PromptMidEn: string := "\n\nSearch results:\n"
  const PromptTailEn: string := "\n\nIn the summary, emphasize key facts, statistics, and the latest information. Respond in English."

  /** The prompt sent to the summariser. */
  function SummaryPrompt(q: string, lang: string, digest: string): string {
    if lang == "ja" then PromptHeadJa + q + PromptMidJa + digest + PromptTailJa
    else PromptHeadEn + q + PromptMidEn + digest + PromptTailEn
  }

  /** The head of the reference-link section: a blank line, the framed caption. */
  function SectionHeader(caption: string): string {
    "\n\n" + Bar + "\n📎 " + caption + "\n" + Bar + "\n"
  }

  function SourceLabel(lang: string, idx: nat): string {
    if lang == "ja" then "【情報源 " + Decimal(idx) + "】" else "【Source " + Decimal(idx) + "】"
  }

  /** The lines for hit number `idx`: title and link, the link alone, or nothing without a link. */
  function SourceEntry(lang: string, idx: nat, item: Item): string {
    if item.title != "" && item.link != "" then
      "\n" + SourceLabel(lang, idx) + "\n📌 " + item.title + "\n🔗 " + item.link + "\n"
    else if item.link != "" then
      "\n" + SourceLabel(lang, idx) + "\n🔗 " + item.link + "\n"
    else ""
  }

  /** The entries for `items`, numbered from `start`. */
  function SourceEntries(lang: string, items: seq<Item>, start: nat): string {
    if |items| == 0 then "" else SourceEntry(lang, start, items[0]) + SourceEntries(lang, items[1..], start + 1)
  }

  /** The reference-link section for the hits, numbered from 1. */
  function ReferenceSection(lang: string, caption: string, items: seq<Item>): string {
    SectionHeader(caption) + SourceEntries(lang, items, 1)
  }

  /** The answer with a summary: the query and the summary prefix, the summary, then the section. */
  function SummaryReply(q: string, lang: string, prefix: string, summary: string, section: string): string {
    SummaryLead(q, lang, prefix, summary) + section
  }

  function SummaryLead(q: string, lang: string, prefix: string, summary: string): string {
    if lang == "ja" then "「" + q + "」" + prefix + "\n\n" + summary
    else prefix + " \"" + q + "\":\n\n" + summary
  }

  /** The answer without a summary: the query and the results prefix, the digest, then the section. */
  function FallbackReply(q: string, lang: string, prefix: string, digest: string, section: string): string {
    FallbackLead(q, lang, prefix, digest) + section
  }

  function FallbackLead(q: string, lang: string, prefix: string, digest: string): string {
    if lang == "ja" then "「" + q + "」" + prefix + ":\n\n" + digest
    else prefix + " \"" + q + "\":\n\n" + digest
  }

  // ---------------------------------------------------------------------------
  // The tool

  /** How the `try` block of the tool ended: it returned, it raised a
      `RequestException` (with its message), or it raised anything else. */
  datatype Attempt = Returned(text: string) | RequestFailed(reason: string) | OtherFailure

  /** The summary branch (its own `try`): `None` when the summariser raises or returns
      no text, or when a lookup inside the branch raises. */
  function Summarised(q: string, lang: string, cat: Catalog, services: Services, top: seq<Item>): Option<string>
    requires Ready(cat)
  {
    match services.summarise(SummaryPrompt(q, lang, Digest(top, lang)))
    case None => None
    case Some(text) => if text == "" then None else Framed(q, lang, cat, text, top)
  }

  /** A non-empty summary framed by the summary prefix and followed by the section. */
  function Framed(q: string, lang: string, cat: Catalog, summary: string, top: seq<Item>): Option<string>
    requires Ready(cat)
  {
    match (Lookup(cat, lang, "search.summary_prefix", NoArgs), Lookup(cat, lang, "search.reference_urls", NoArgs))
    case (Ok(prefix), Ok(caption)) => Some(SummaryReply(q, lang, prefix, summary, ReferenceSection(lang, caption, top)))
    case _ => None
  }

  /** What the outer `try` of the tool does with a list of hits. */
  function FromItems(q: string, lang: string, cat: Catalog, services: Services, items: Option<seq<Item>>): Attempt
    requires Ready(cat)
  {
    if items.None? || |items.value| == 0 then
      match Lookup(cat, lang, "search.no_results", NoArgs)
      case Ok(msg) => Returned(NoResults(q, lang, msg))
      case Raised(_) => OtherFailure
    else
      var top := TopResults(items.value);
      match Summarised(q, lang, cat, services, top)
      case Some(text) => Returned(text)
      case None =>
        match (Lookup(cat, lang, "search.results_prefix", NoArgs), Lookup(cat, lang, "search.reference_urls", NoArgs))
        case (Ok(prefix), Ok(caption)) => Returned(FallbackReply(q, lang, prefix, Digest(top, lang), ReferenceSection(lang, caption, top)))
        case _ => OtherFailure
  }

  /** The outer `try` of the tool: the request, the status checks, the body. */
  function TryBlock(q: string, lang: string, cat: Catalog, creds: Credentials, services: Services, words: DeniedWording): Attempt
    requires Ready(cat)
  {
    match services.http(SearchRequest(creds, q, lang))
    case TransportError(e) => RequestFailed(e)
    case Received(resp) =>
      if resp.status == 403 then Returned(AccessDenied(lang, resp.detail, words))
      else if resp.status != 200 && 400 <= resp.status < 600 then RequestFailed(resp.statusError)
      else
        match resp.body
        case Undecodable(e) => RequestFailed(e)
        case Json(items) => FromItems(q, lang, cat, services, items)
  }

  /** `data_gathering_tool(query)` under language `lang`: returns its text, or raises
      when a lookup outside its `try` or inside an `except` raises. */
  function Search(q: string, lang0: string, cat: Catalog, creds: Credentials, services: Services, words: DeniedWording): Result<string>
    requires Ready(cat)
  {
    var lang := ToolLanguage(lang0);
    if creds.apiKey == "" || creds.engineId == "" then
      var msg :- Lookup(cat, lang, "search.api_not_configured", NoArgs);
      Ok(Unconfigured(q, lang, msg))
    else
      Handled(q, lang, cat, TryBlock(q, lang, cat, creds, services, words))
  }

  /** The two `except` clauses of the tool around the outcome of its `try` block. */
  function Handled(q: string, lang: string, cat: Catalog, attempt: Attempt): Result<string>
    requires Ready(cat)
  {
    match attempt
    case Returned(text) => Ok(text)
    case RequestFailed(e) =>
      var msg :- Lookup(cat, lang, "search.error", NoArgs);
      Ok(RequestError(q, lang, msg, e))
    case OtherFailure =>
      var msg :- Lookup(cat, lang, "search.unexpected_error", NoArgs);
      Ok(UnexpectedError(q, lang, msg))
  }

  // ---------------------------------------------------------------------------
  // The loops of the tool

  /** The digest loop: one entry per hit among the first five, then the join. */
  method BuildDigest(items: seq<Item>, lang: string) returns (digest: string)
    ensures digest == Digest(TopResults(items), lang)
  {
    var top := TopResults(items);
    var bullet := Bullet(lang);
    var results: seq<string> := [];
    for i := 0 to |top|
      invariant |results| == i
      invariant forall k | 0 <= k < i :: results[k] == DigestEntry(top[k], bullet)
    {
      var item := top[i];
      results := results + [bullet + item.title + "\n  " + item.snippet + "\n  URL: " + item.link];
    }
    assert results == DigestEntries(top, bullet);
    digest := JoinWith(results, "\n\n");
  }

  /** The `enumerate(url_items, 1)` loop that builds the reference-link section. */
  method BuildReferenceSection(items: seq<Item>, lang: string, caption: string) returns (section: string)
    ensures section == ReferenceSection(lang, caption, items)
  {
    section := "\n\n" + Bar + "\n📎 " + caption + "\n" + Bar + "\n";
    for i := 0 to |items|
      invariant section == SectionHeader(caption) + SourceEntries(lang, items[..i], 1)
    {
      var idx := i + 1;
      var item := items[i];
      if item.title != "" && item.link != "" {
        section := section + ("\n" + SourceLabel(lang, idx) + "\n📌 " + item.title + "\n🔗 " + item.link + "\n");
      } else if item.link != "" {
        section := section + ("\n" + SourceLabel(lang, idx) + "\n🔗 " + item.link + "\n");
      }
      SourceEntriesSnoc(lang, items, i);
      Assoc(SectionHeader(caption), SourceEntries(lang, items[..i], 1), SourceEntry(lang, idx, item));
    }
    assert items[..|items|] == items;
  }

  /** The summary branch as written: the summariser call on the digest, then the
      reply framed by the summary prefix and followed by the section. */
  method SummariseHits(q: string, lang: string, cat: Catalog, services: Services, top: seq<Item>, digest: string)
    returns (summarised: Option<string>)
    requires Ready(cat) && digest == Digest(top, lang)
    ensures summarised == Summarised(q, lang, cat, services, top)
  {
    summarised := None;
    var summary := services.summarise(SummaryPrompt(q, lang, digest));
    if summary.Some? && summary.value != "" {
      summarised := FrameSummary(q, lang, cat, summary.value, top);
    }
  }

  /** The framing of a non-empty summary, as written. */
  method FrameSummary(q: string, lang: string, cat: Catalog, summary: string, top: seq<Item>)
    returns (framed: Option<string>)
    requires Ready(cat)
    ensures framed == Framed(q, lang, cat, summary, top)
  {
    framed := None;
    var prefix := Lookup(cat, lang, "search.summary_prefix", NoArgs);
    var caption := Lookup(cat, lang, "search.reference_urls", NoArgs);
    if prefix.Ok? && caption.Ok? {
      var section := BuildReferenceSection(top, lang, caption.value);
      framed := Some(SummaryReply(q, lang, prefix.value, summary, section));
    }
  }

  /** What the outer `try` does with the hits, as written. */
  method AnswerHits(q: string, lang: string, cat: Catalog, services: Services, items: Option<seq<Item>>)
    returns (attempt: Attempt)
    requires Ready(cat)
    ensures attempt == FromItems(q, lang, cat, services, items)
  {
    if items.None? || |items.value| == 0 {
      var msg := Lookup(cat, lang, "search.no_results", NoArgs);
      return if msg.Ok? then Returned(NoResults(q, lang, msg.value)) else OtherFailure;
    }
    var top := TopResults(items.value);
    var digest := BuildDigest(items.value, lang);
    var summarised := SummariseHits(q, lang, cat, services, top, digest);
    if summarised.Some? {
      return Returned(summarised.value);
    }
    var prefix := Lookup(cat, lang, "search.results_prefix", NoArgs);
    var caption := Lookup(cat, lang, "search.reference_urls", NoArgs);
    if prefix.Ok? && caption.Ok? {
      var section := BuildReferenceSection(top, lang, caption.value);
      attempt := Returned(FallbackReply(q, lang, prefix.value, digest, section));
    } else {
      attempt := OtherFailure;
    }
  }

  /** The outer `try` as written: the request and the status checks. */
  method TrySearch(q: string, lang: string, cat: Catalog, creds: Credentials, services: Services, words: DeniedWording)
    returns (attempt: Attempt)
    requires Ready(cat)
    ensures attempt == TryBlock(q, lang, cat, creds, services, words)
  {
    var outcome := services.http(SearchRequest(creds, q, lang));
    if outcome.TransportError? {
      return RequestFailed(outcome.reason);
    }
    var resp := outcome.response;
    if resp.status == 403 {
      return Returned(AccessDenied(lang, resp.detail, words));
    }
    if resp.status != 200 && 400 <= resp.status < 600 {
      return RequestFailed(resp.statusError);
    }
    if resp.body.Undecodable? {
      return RequestFailed(resp.body.reason);
    }
    attempt := AnswerHits(q, lang, cat, services, resp.body.items);
  }

  /** `data_gathering_tool(query)` with the source's wording of the 403 diagnostic. */
  method DataGatheringTool(q: string, lang0: string, cat: Catalog, creds: Credentials, services: Services)
    returns (r: Result<string>)
    requires Ready(cat)
    ensures r == Search(q, lang0, cat, creds, services, SourceDenied)
  {
    r := RunTool(q, lang0, cat, creds, services, SourceDenied);
  }

  /** The tool as written: the normalisation, the credential check, the `try` block
      and its `except` branches. */
  method RunTool(q: string, lang0: string, cat: Catalog, creds: Credentials, services: Services, words: DeniedWording)
    returns (r: Result<string>)
    requires Ready(cat)
    ensures r == Search(q, lang0, cat, creds, services, words)
  {
    var lang := lang0;
    if lang != "ja" && lang != "en" {
      lang := "en";
    }
    if creds.apiKey == "" || creds.engineId == "" {
      var msg := Lookup(cat, lang, "search.api_not_configured", NoArgs);
      if msg.Raised? {
        return Raised(msg.fault);
      }
      return Ok(Unconfigured(q, lang, msg.value));
    }
    assert lang == ToolLanguage(lang0);
    var attempt := TrySearch(q, lang, cat, creds, services, words);
    r := HandleFailure(q, lang, cat, attempt);
  }

  /** The `except requests.exceptions.RequestException` and `except Exception` clauses. */
  method HandleFailure(q: string, lang: string, cat: Catalog, attempt: Attempt) returns (r: Result<string>)
    requires Ready(cat)
    ensures r == Handled(q, lang, cat, attempt)
  {
    match attempt
    case Returned(text) =>
      r := Ok(text);
    case RequestFailed(e) =>
      var msg := Lookup(cat, lang, "search.error", NoArgs);
      r := if msg.Ok? then Ok(RequestError(q, lang, msg.value, e)) else Raised(msg.fault);
    case OtherFailure =>
      var msg := Lookup(cat, lang, "search.unexpected_error", NoArgs);
      r := if msg.Ok? then Ok(UnexpectedError(q, lang, msg.value)) else Raised(msg.fault);
  }

  // ---------------------------------------------------------------------------
  // Properties

  /** Entries of consecutive runs of hits concatenate, numbering carried on. */
  lemma {:induction false} SourceEntriesAppend(lang: string, a: seq<Item>, b: seq<Item>, start: nat)
    ensures SourceEntries(lang, a + b, start) == SourceEntries(lang, a, start) + SourceEntries(lang, b, start + |a|)
    decreases |a|
  {
    if |a| > 0 {
      assert (a + b)[0] == a[0];
      assert (a + b)[1..] == a[1..] + b;
      SourceEntriesAppend(lang, a[1..], b, start + 1);
      Assoc(SourceEntry(lang, start, a[0]), SourceEntries(lang, a[1..], start + 1), SourceEntries(lang, b, start + |a|));
    } else {
      assert a + b == b;
    }
  }

  /** A hit without a link gives no lines; the numbering moves on past it. */
  lemma SkipLinkless(lang: string, rest: seq<Item>, start: nat)
    requires |rest| > 0 && rest[0].link == ""
    ensures SourceEntries(lang, rest, start) == SourceEntries(lang, rest[1..], start + 1)
  {
    var tail := SourceEntries(lang, rest[1..], start + 1);
    assert SourceEntries(lang, rest, start) == SourceEntry(lang, start, rest[0]) + tail;
    assert SourceEntry(lang, start, rest[0]) == "";
    assert "" + tail == tail;
  }

  /** A hit without a link gives no lines, but the hits after it keep their numbers. */
  lemma SourceWithoutLinkSkipped(lang: string, items: seq<Item>, k: nat)
    requires k < |items| && items[k].link == ""
    ensures SourceEntries(lang, items, 1) == SourceEntries(lang, items[..k], 1) + SourceEntries(lang, items[k + 1..], k + 2)
  {
    var rest := items[k..];
    assert items == items[..k] + rest;
    SourceEntriesAppend(lang, items[..k], rest, 1);
    SkipLinkless(lang, rest, k + 1);
    assert rest[1..] == items[k + 1..];
  }

  /** One more hit adds its own lines, numbered by its position. */
  lemma SourceEntriesSnoc(lang: string, items: seq<Item>, i: nat)
    requires i < |items|
    ensures SourceEntries(lang, items[..i + 1], 1) == SourceEntries(lang, items[..i], 1) + SourceEntry(lang, i + 1, items[i])
  {
    assert items[..i + 1] == items[..i] + [items[i]];
    SourceEntriesAppend(lang, items[..i], [items[i]], 1);
    SourceEntriesSingle(lang, items[i], i + 1);
  }

  lemma SourceEntriesSingle(lang: string, item: Item, idx: nat)
    ensures SourceEntries(lang, [item], idx) == SourceEntry(lang, idx, item)
  {
    assert [item][1..] == [];
  }

  /** Any language but Japanese and English is answered as English. */
  lemma OtherLanguagesAreEnglish(q: string, lang: string, cat: Catalog, creds: Credentials, services: Services, words: DeniedWording)
    requires Ready(cat) && lang != "ja" && lang != "en"
    ensures Search(q, lang, cat, creds, services, words) == Search(q, "en", cat, creds, services, words)
  {
  }

  /** The request asks for five hits in the tool's language. */
  lemma RequestParameters(creds: Credentials, q: string, lang: string)
    ensures SearchRequest(creds, q, lang).num == 5
    ensures SearchRequest(creds, q, lang).q == q
    ensures SearchRequest(creds, q, lang).lr == (if lang == "ja" then "lang_ja" else "lang_en")
  {
  }

  /** Without credentials nothing is requested: the answer does not depend on the
      services and is the placeholder naming the query. */
  lemma UnconfiguredMakesNoRequest(q: string, lang: string, cat: Catalog, creds: Credentials, s1: Services, s2: Services, words: DeniedWording)
    requires Ready(cat) && (creds.apiKey == "" || creds.engineId == "")
    ensures Search(q, lang, cat, creds, s1, words) == Search(q, lang, cat, creds, s2, words)
    ensures var l := ToolLanguage(lang);
            Lookup(cat, l, "search.api_not_configured", NoArgs).Ok? ==>
              Search(q, lang, cat, creds, s1, words) == Ok(Unconfigured(q, l, Lookup(cat, l, "search.api_not_configured", NoArgs).value))
  {
  }

  /** Status 403 is answered by the access-denied diagnostic. */
  lemma AccessDeniedAnswer(q: string, lang: string, cat: Catalog, creds: Credentials, services: Services, words: DeniedWording)
    requires Ready(cat) && creds.apiKey != "" && creds.engineId != ""
    requires var o := services.http(SearchRequest(creds, q, ToolLanguage(lang))); o.Received? && o.response.status == 403
    ensures Search(q, lang, cat, creds, services, words)
            == Ok(AccessDenied(ToolLanguage(lang), services.http(SearchRequest(creds, q, ToolLanguage(lang))).response.detail, words))
  {
  }

  /** The access-denied diagnostic carries the error body. */
  lemma AccessDeniedCarriesDetail(lang: string, detail: string, words: DeniedWording)
    ensures Contains(AccessDenied(lang, detail, words), detail)
  {
    var pre := DeniedText(lang, words) + " - ";
    OccursAppended(pre, detail);
    ContainsAt(pre + detail, detail, |pre|);
  }

  /** A body without hits is answered by the no-results message, which names the query. */
  lemma NoResultsNamesQuery(q: string, lang: string, msg: string)
    ensures Contains(NoResults(q, lang, msg), q)
  {
    if lang == "ja" {
      assert NoResults(q, lang, msg) == "「" + (q + ("」" + msg));
      OccursAtStart(q, "」" + msg);
      OccursAfter("「", q + ("」" + msg), q, 0);
      ContainsAt(NoResults(q, lang, msg), q, 1);
    } else {
      assert NoResults(q, lang, msg) == (msg + " \"") + (q + "\".");
      OccursAtStart(q, "\".");
      OccursAfter(msg + " \"", q + "\".", q, 0);
      ContainsAt(NoResults(q, lang, msg), q, |msg + " \""|);
    }
  }

  /** A decodable body with status 200 is answered from its hits: whatever the `try`
      block returns from them is the tool's answer. */
  lemma HitsAnswer(q: string, lang: string, cat: Catalog, creds: Credentials, services: Services, words: DeniedWording, resp: HttpResponse)
    requires Ready(cat) && creds.apiKey != "" && creds.engineId != ""
    requires services.http(SearchRequest(creds, q, ToolLanguage(lang))) == Received(resp)
    requires resp.status == 200 && resp.body.Json?
    ensures var a := FromItems(q, ToolLanguage(lang), cat, services, resp.body.items);
            a.Returned? ==> Search(q, lang, cat, creds, services, words) == Ok(a.text)
  {
    var l := ToolLanguage(lang);
    assert TryBlock(q, l, cat, creds, services, words) == FromItems(q, l, cat, services, resp.body.items);
  }

  /** The tool never raises while its three diagnostic lookups succeed: every path
      through the `try` block and its two `except` clauses returns a text. */
  lemma NeverRaises(q: string, lang: string, cat: Catalog, creds: Credentials, services: Services, words: DeniedWording)
    requires Ready(cat)
    requires var l := ToolLanguage(lang);
             && Lookup(cat, l, "search.api_not_configured", NoArgs).Ok?
             && Lookup(cat, l, "search.error", NoArgs).Ok?
             && Lookup(cat, l, "search.unexpected_error", NoArgs).Ok?
    ensures Search(q, lang, cat, creds, services, words).Ok?
  {
    var l := ToolLanguage(lang);
    if creds.apiKey != "" && creds.engineId != "" {
      HandledOk(q, l, cat, TryBlock(q, l, cat, creds, services, words));
    }
  }

  /** With the built-in messages the tool always answers with a text. */
  lemma BuiltinNeverRaises(q: string, lang: string, format: (string, string, string) -> string,
                           creds: Credentials, services: Services, words: DeniedWording)
    ensures Search(q, lang, Catalog(Builtin(), format), creds, services, words).Ok?
  {
    BuiltinLanguages();
    BuiltinSearchFailureLookups(format, ToolLanguage(lang));
    NeverRaises(q, lang, Catalog(Builtin(), format), creds, services, words);
  }

  /** Both `except` clauses return a text while their lookups succeed. */
  lemma HandledOk(q: string, lang: string, cat: Catalog, attempt: Attempt)
    requires Ready(cat)
    requires Lookup(cat, lang, "search.error", NoArgs).Ok? && Lookup(cat, lang, "search.unexpected_error", NoArgs).Ok?
    ensures Handled(q, lang, cat, attempt).Ok?
  {
  }

  /** A request that fails before any response (a `RequestException`) is answered by the
      search-error text with the exception's message. */
  lemma TransportErrorAnswer(q: string, lang: string, cat: Catalog, creds: Credentials, services: Services, words: DeniedWording)
    requires Ready(cat) && creds.apiKey != "" && creds.engineId != ""
    requires services.http(SearchRequest(creds, q, ToolLanguage(lang))).TransportError?
    ensures var l := ToolLanguage(lang);
            var e := services.http(SearchRequest(creds, q, l)).reason;
            var msg := Lookup(cat, l, "search.error", NoArgs);
            Search(q, lang, cat, creds, services, words) == if msg.Ok? then Ok(RequestError(q, l, msg.value, e)) else Raised(msg.fault)
  {
    var l := ToolLanguage(lang);
    assert TryBlock(q, l, cat, creds, services, words) == RequestFailed(services.http(SearchRequest(creds, q, l)).reason);
    RequestFailedAnswer(q, lang, cat, creds, services, words, services.http(SearchRequest(creds, q, l)).reason);
  }

  /** An error status other than 403 makes `raise_for_status` raise: the answer is the
      search-error text with the message it raises with. */
  lemma ErrorStatusAnswer(q: string, lang: string, cat: Catalog, creds: Credentials, services: Services, words: DeniedWording, resp: HttpResponse)
    requires Ready(cat) && creds.apiKey != "" && creds.engineId != ""
    requires services.http(SearchRequest(creds, q, ToolLanguage(lang))) == Received(resp)
    requires resp.status != 403 && 400 <= resp.status < 600
    ensures var l := ToolLanguage(lang);
            var msg := Lookup(cat, l, "search.error", NoArgs);
            Search(q, lang, cat, creds, services, words) == if msg.Ok? then Ok(RequestError(q, l, msg.value, resp.statusError)) else Raised(msg.fault)
  {
    assert TryBlock(q, ToolLanguage(lang), cat, creds, services, words) == RequestFailed(resp.statusError);
    RequestFailedAnswer(q, lang, cat, creds, services, words, resp.statusError);
  }

  /** A body that does not decode is answered by the search-error text with the
      decoding error, whatever the non-error status. */
  lemma UndecodableAnswer(q: string, lang: string, cat: Catalog, creds: Credentials, services: Services, words: DeniedWording, resp: HttpResponse)
    requires Ready(cat) && creds.apiKey != "" && creds.engineId != ""
    requires services.http(SearchRequest(creds, q, ToolLanguage(lang))) == Received(resp)
    requires !(400 <= resp.status < 600) && resp.body.Undecodable?
    ensures var l := ToolLanguage(lang);
            var msg := Lookup(cat, l, "search.error", NoArgs);
            Search(q, lang, cat, creds, services, words) == if msg.Ok? then Ok(RequestError(q, l, msg.value, resp.body.reason)) else Raised(msg.fault)
  {
    assert TryBlock(q, ToolLanguage(lang), cat, creds, services, words) == RequestFailed(resp.body.reason);
    RequestFailedAnswer(q, lang, cat, creds, services, words, resp.body.reason);
  }

  lemma RequestFailedAnswer(q: string, lang: string, cat: Catalog, creds: Credentials, services: Services, words: DeniedWording, e: string)
    requires Ready(cat) && creds.apiKey != "" && creds.engineId != ""
    requires TryBlock(q, ToolLanguage(lang), cat, creds, services, words) == RequestFailed(e)
    ensures var l := ToolLanguage(lang);
            var msg := Lookup(cat, l, "search.error", NoArgs);
            Search(q, lang, cat, creds, services, words) == if msg.Ok? then Ok(RequestError(q, l, msg.value, e)) else Raised(msg.fault)
  {
  }

  /** A lookup that raises while the hits are answered (the no-results text, or the
      results prefix or caption of the fallback) is caught by `except Exception`: the
      answer is the unexpected-error text. */
  lemma HitsLookupRaises(q: string, lang: string, cat: Catalog, creds: Credentials, services: Services, words: DeniedWording, resp: HttpResponse)
    requires Ready(cat) && creds.apiKey != "" && creds.engineId != ""
    requires services.http(SearchRequest(creds, q, ToolLanguage(lang))) == Received(resp)
    requires !(400 <= resp.status < 600) && resp.body.Json?
    requires var l := ToolLanguage(lang);
             var items := resp.body.items;
             if items.None? || |items.value| == 0 then Lookup(cat, l, "search.no_results", NoArgs).Raised?
             else Summarised(q, l, cat, services, TopResults(items.value)).None?
                  && (Lookup(cat, l, "search.results_prefix", NoArgs).Raised? || Lookup(cat, l, "search.reference_urls", NoArgs).Raised?)
    ensures var l := ToolLanguage(lang);
            var msg := Lookup(cat, l, "search.unexpected_error", NoArgs);
            Search(q, lang, cat, creds, services, words) == if msg.Ok? then Ok(UnexpectedError(q, l, msg.value)) else Raised(msg.fault)
  {
    var l := ToolLanguage(lang);
    FromItemsFails(q, l, cat, services, resp.body.items);
    TryBlockHits(q, l, cat, creds, services, words, resp);
    OtherFailureAnswer(q, lang, cat, creds, services, words);
  }

  lemma OtherFailureAnswer(q: string, lang: string, cat: Catalog, creds: Credentials, services: Services, words: DeniedWording)
    requires Ready(cat) && creds.apiKey != "" && creds.engineId != ""
    requires TryBlock(q, ToolLanguage(lang), cat, creds, services, words) == OtherFailure
    ensures var l := ToolLanguage(lang);
            var msg := Lookup(cat, l, "search.unexpected_error", NoArgs);
            Search(q, lang, cat, creds, services, words) == if msg.Ok? then Ok(UnexpectedError(q, l, msg.value)) else Raised(msg.fault)
  {
  }

  lemma FromItemsFails(q: string, lang: string, cat: Catalog, services: Services, items: Option<seq<Item>>)
    requires Ready(cat)
    requires if items.None? || |items.value| == 0 then Lookup(cat, lang, "search.no_results", NoArgs).Raised?
             else Summarised(q, lang, cat, services, TopResults(items.value)).None?
                  && (Lookup(cat, lang, "search.results_prefix", NoArgs).Raised? || Lookup(cat, lang, "search.reference_urls", NoArgs).Raised?)
    ensures FromItems(q, lang, cat, services, items) == OtherFailure
  {
  }

  lemma TryBlockHits(q: string, lang: string, cat: Catalog, creds: Credentials, services: Services, words: DeniedWording, resp: HttpResponse)
    requires Ready(cat)
    requires services.http(SearchRequest(creds, q, lang)) == Received(resp)
    requires !(400 <= resp.status < 600) && resp.body.Json?
    ensures TryBlock(q, lang, cat, creds, services, words) == FromItems(q, lang, cat, services, resp.body.items)
  {
  }

  /** The search-error answer names both the localised message and the error. */
  lemma RequestErrorCarriesReason(q: string, lang: string, msg: string, e: string)
    ensures Contains(RequestError(q, lang, msg, e), msg) && Contains(RequestError(q, lang, msg, e), e)
  {
    var r := RequestError(q, lang, msg, e);
    if lang == "ja" {
      var pre := "「" + q + "」";
      assert r == pre + (msg + (" " + e));
      OccursAtStart(msg, " " + e);
      OccursAfter(pre, msg + (" " + e), msg, 0);
      ContainsAt(r, msg, |pre|);
      assert r == (pre + msg + " ") + e;
      OccursAppended(pre + msg + " ", e);
      ContainsAt(r, e, |pre + msg + " "|);
    } else {
      var rest := " \"" + q + "\": ";
      assert r == msg + (rest + e);
      OccursAtStart(msg, rest + e);
      ContainsAt(r, msg, 0);
      assert r == (msg + rest) + e;
      OccursAppended(msg + rest, e);
      ContainsAt(r, e, |msg + rest|);
    }
  }

  /** When the summariser gives no text, the answer is the prefixed digest followed by
      the reference-link section. */
  lemma FallbackLayout(q: string, lang: string, cat: Catalog, services: Services, items: seq<Item>)
    requires Ready(cat) && |items| > 0
    requires var s := services.summarise(SummaryPrompt(q, lang, Digest(TopResults(items), lang)));
             s.None? || s.value == ""
    requires Lookup(cat, lang, "search.results_prefix", NoArgs).Ok?
    requires Lookup(cat, lang, "search.reference_urls", NoArgs).Ok?
    ensures var top := TopResults(items);
            FromItems(q, lang, cat, services, Some(items)) ==
              Returned(FallbackReply(q, lang, Lookup(cat, lang, "search.results_prefix", NoArgs).value, Digest(top, lang),
                                     ReferenceSection(lang, Lookup(cat, lang, "search.reference_urls", NoArgs).value, top)))
  {
    assert Summarised(q, lang, cat, services, TopResults(items)).None?;
  }

  /** Every answer built from a non-empty list of hits, with or without a summary,
      is some text followed by the reference-link section of the first five hits. */
  lemma HitsEndInSection(q: string, lang: string, cat: Catalog, services: Services, items: seq<Item>)
    requires Ready(cat) && |items| > 0
    requires Lookup(cat, lang, "search.results_prefix", NoArgs).Ok?
    requires Lookup(cat, lang, "search.reference_urls", NoArgs).Ok?
    ensures FromItems(q, lang, cat, services, Some(items)).Returned?
    ensures var section := ReferenceSection(lang, Lookup(cat, lang, "search.reference_urls", NoArgs).value, TopResults(items));
            var out := FromItems(q, lang, cat, services, Some(items)).text;
            |section| <= |out| && out[|out| - |section|..] == section
  {
    var top := TopResults(items);
    var caption := Lookup(cat, lang, "search.reference_urls", NoArgs).value;
    if Summarised(q, lang, cat, services, top).Some? {
      SummaryEndsInSection(q, lang, cat, services, top, caption);
    } else {
      var prefix := Lookup(cat, lang, "search.results_prefix", NoArgs).value;
      EndsWith(FallbackLead(q, lang, prefix, Digest(top, lang)), ReferenceSection(lang, caption, top));
    }
  }

  lemma SummaryEndsInSection(q: string, lang: string, cat: Catalog, services: Services, top: seq<Item>, caption: string)
    requires Ready(cat) && Lookup(cat, lang, "search.reference_urls", NoArgs) == Ok(caption)
    requires Summarised(q, lang, cat, services, top).Some?
    ensures var section := ReferenceSection(lang, caption, top);
            var out := Summarised(q, lang, cat, services, top).value;
            |section| <= |out| && out[|out| - |section|..] == section
  {
    var text := services.summarise(SummaryPrompt(q, lang, Digest(top, lang))).value;
    var prefix := Lookup(cat, lang, "search.summary_prefix", NoArgs).value;
    EndsWith(SummaryLead(q, lang, prefix, text), ReferenceSection(lang, caption, top));
  }

  lemma EndsWith(a: string, b: string)
    ensures (a + b)[|a + b| - |b|..] == b
  {
  }

  /** The section opens with a blank line and the framing line, and the caption follows
      the line at a fixed distance. */
  lemma SectionFraming(lang: string, caption: string, items: seq<Item>)
    ensures OccursAt(ReferenceSection(lang, caption, items), Bar, 2)
    ensures OccursAt(ReferenceSection(lang, caption, items), caption, 2 + |Bar| + 3)
  {
    var h1 := "\n\n" + Bar;
    OccursAppended("\n\n", Bar);
    OccursBefore(h1, "\n📎 ", Bar, 2);
    var h2 := h1 + "\n📎 ";
    OccursBefore(h2, caption, Bar, 2);
    OccursAppended(h2, caption);
    var h3 := h2 + caption;
    OccursBefore(h3, "\n", Bar, 2);
    OccursBefore(h3, "\n", caption, |h2|);
    var h4 := h3 + "\n";
    OccursBefore(h4, Bar, Bar, 2);
    OccursBefore(h4, Bar, caption, |h2|);
    var h5 := h4 + Bar;
    OccursBefore(h5, "\n", Bar, 2);
    OccursBefore(h5, "\n", caption, |h2|);
    var h6 := h5 + "\n";
    assert h6 == SectionHeader(caption);
    OccursBefore(h6, SourceEntries(lang, items, 1), Bar, 2);
    OccursBefore(h6, SourceEntries(lang, items, 1), caption, |h2|);
  }
}
