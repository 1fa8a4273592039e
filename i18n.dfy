/** The message catalogue: the built-in tables, the shallow merge of the JSON
    tables into them, and the dotted-key lookup with its English and key fallbacks. */
module I18n {
  import opened Outcomes
  import opened Strings

  /** A catalogue entry: a message text or a nested table. */
  datatype Value = Text(text: string) | Table(entries: map<string, Value>)

  /** The top-level table of one language. */
  type LanguageTable = map<string, Value>

  /** Language code to its top-level table. */
  type Tables = map<string, LanguageTable>

  /** Named placeholder arguments of a lookup (the callers pass at most one). */
  datatype Placeholder = NoArgs | Arg(name: string, value: string)

  /** The merged tables and the placeholder formatter `template.format(name=value)`,
      which the model takes as given. */
  datatype Catalog = Catalog(tables: Tables, format: (string, string, string) -> string)

  /** The English table is always present; the lookup falls back to it. */
  predicate Ready(cat: Catalog) {
    "en" in cat.tables
  }

  /** The exception Python raises when the walk calls `.get` on a message text. */
  const StrHasNoGet: Fault := Fault("'str' object has no attribute 'get'")

  /** The tables written in the source. */
  function Builtin(): (t: Tables)
    ensures t.Keys == {"ja", "en"}
  {
    map["ja" := BuiltinJa(), "en" := BuiltinEn()]
  }

  function BuiltinJa(): LanguageTable {
    map["system" := Table(SystemJa()), "moderator" := Text("（AI司会者）"), "search" := Table(SearchJa())]
  }

  function BuiltinEn(): LanguageTable {
    map["system" := Table(SystemEn()), "moderator" := Text("(AI Moderator)"), "search" := Table(SearchEn())]
  }

  function SystemJa(): map<string, Value> {
    map[
      "discussion_start" := Text("（システム）議論を開始します。"),
      "rate_limit" := Text("（システム）発言が早すぎます。少し待ってください。"),
      "agent_error" := Text("（システム）AI司会者が応答できませんでした。")]
  }

  function SearchJa(): map<string, Value> {
    map[
      "api_not_configured" := Text("検索APIが設定されていません。環境変数を確認してください。"),
      "no_results" := Text("に関する検索結果が見つかりませんでした。"),
      "error" := Text("に関する検索中にエラーが発生しました:"),
      "unexpected_error" := Text("に関する検索中に予期しないエラーが発生しました。"),
      "summary_prefix" := Text("に関する検索結果の要約:"),
      "reference_urls" := Text("参考URL:"),
      "results_prefix" := Text("に関する検索結果:")]
  }

  function SystemEn(): map<string, Value> {
    map[
      "discussion_start" := Text("(System) Discussion started."),
      "rate_limit" := Text("(System) Message sent too quickly. Please wait a moment."),
      "agent_error" := Text("(System) AI moderator could not respond.")]
  }

  function SearchEn(): map<string, Value> {
    map[
      "api_not_configured" := Text("Search API is not configured. Please check environment variables."),
      "no_results" := Text("No search results found for"),
      "error" := Text("An error occurred while searching for"),
      "unexpected_error" := Text("An unexpected error occurred while searching."),
      "summary_prefix" := Text("Search results summary for"),
      "reference_urls" := Text("Reference URLs:"),
      "results_prefix" := Text("Search results for")]
  }

  // ---------------------------------------------------------------------------
  // Merging the JSON tables

  /** The tables after the merge: a language in both keeps its built-in top-level
      keys and takes the JSON's where they overlap; a new language is added whole. */
  function Merged(base: Tables, json: Tables): Tables {
    map l | l in base.Keys + json.Keys ::
      if l in json then (if l in base then base[l] + json[l] else json[l]) else base[l]
  }

  /** The merge loop: `MESSAGES[lang].update(...)` or `MESSAGES[lang] = ...` per JSON language. */
  method MergeMessages(base: Tables, json: Tables) returns (messages: Tables)
    ensures messages == Merged(base, json)
  {
    messages := base;
    var pending := json.Keys;
    while pending != {}
      invariant pending <= json.Keys
      invariant messages == Merged(base, json - pending)
      decreases pending
    {
      var l :| l in pending;
      MergedAdd(base, json - pending, l, json[l]);
      assert (json - pending)[l := json[l]] == json - (pending - {l});
      if l in messages {
        messages := messages[l := messages[l] + json[l]];
      } else {
        messages := messages[l := json[l]];
      }
      pending := pending - {l};
    }
    assert json - pending == json;
  }

  /** Merging one more JSON language updates only that language. */
  lemma MergedAdd(base: Tables, json: Tables, l: string, t: LanguageTable)
    requires l !in json
    ensures Merged(base, json[l := t]) == Merged(base, json)[l := if l in base then base[l] + t else t]
  {
  }

  /** What the merge keeps and what it replaces, key by key: the merge is shallow. */
  lemma MergeShallow(base: Tables, json: Tables, l: string, k: string)
    requires l in base || l in json
    ensures l in Merged(base, json)
    ensures k in Merged(base, json)[l] <==> (l in json && k in json[l]) || (l in base && k in base[l])
    ensures l in json && k in json[l] ==> Merged(base, json)[l][k] == json[l][k]
    ensures l in base && !(l in json && k in json[l]) && k in base[l] ==> Merged(base, json)[l][k] == base[l][k]
  {
  }

  /** The merged tables always hold English, so the lookup can fall back to it. */
  lemma MergedReady(json: Tables, format: (string, string, string) -> string)
    ensures Ready(Catalog(Merged(Builtin(), json), format))
  {
  }

  // ---------------------------------------------------------------------------
  // Lookup

  /** How a walk through one language's table ended: at a message text, having
      used up the key segments, or by calling `.get` on a message text. */
  datatype WalkOutcome = Found(text: string) | Exhausted | Stuck

  /** `table.get(k, {})` */
  function Get(table: LanguageTable, k: string): Value {
    if k in table then table[k] else Table(map[])
  }

  /** The walk over the key segments: a text reached at a segment named like the
      last segment is the answer; a text reached elsewhere ends the walk, and
      raises if there is a segment left to look up in it. */
  function Walk(table: LanguageTable, keys: seq<string>, last: string): WalkOutcome
    decreases |keys|
  {
    if |keys| == 0 then Exhausted
    else
      match Get(table, keys[0])
      case Text(s) => if keys[0] == last then Found(s) else if |keys| == 1 then Exhausted else Stuck
      case Table(t) => Walk(t, keys[1..], last)
  }

  /** The language the lookup will use. */
  function LookupLanguage(cat: Catalog, lang: string): string {
    if lang in cat.tables then lang else "en"
  }

  /** Both walks of `get_message`: the chosen language, then English. */
  function Resolve(cat: Catalog, lang: string, key: string): WalkOutcome
    requires Ready(cat)
  {
    var keys := Split(key, '.');
    var last := keys[|keys| - 1];
    var first := Walk(cat.tables[LookupLanguage(cat, lang)], keys, last);
    if first.Exhausted? then Walk(cat.tables["en"], keys, last) else first
  }

  /** `get_message(lang, key, **args)`: the message found (formatted when there are
      arguments), or the key itself when neither walk finds one; raises when a walk
      calls `.get` on a text. */
  function Lookup(cat: Catalog, lang: string, key: string, args: Placeholder): Result<string>
    requires Ready(cat)
  {
    match Resolve(cat, lang, key)
    case Found(s) => Ok(if args.Arg? then cat.format(s, args.name, args.value) else s)
    case Exhausted => Ok(key)
    case Stuck => Raised(StrHasNoGet)
  }

  /** What the walk continues with: a table is walked on; a text ends the walk,
      normally if no segment is left, otherwise by raising. */
  function Resume(v: Value, keys: seq<string>, last: string): WalkOutcome {
    if v.Table? then Walk(v.entries, keys, last)
    else if |keys| == 0 then Exhausted
    else Stuck
  }

  /** The `for k in keys` loop of `get_message`, over one language's table. */
  method WalkKeys(table: LanguageTable, keys: seq<string>) returns (w: WalkOutcome)
    requires |keys| >= 1
    ensures w == Walk(table, keys, keys[|keys| - 1])
  {
    var last := keys[|keys| - 1];
    var value := Table(table);
    var i := 0;
    while i < |keys|
      invariant 0 <= i <= |keys|
      invariant Walk(table, keys, last) == Resume(value, keys[i..], last)
    {
      if value.Text? {
        return Stuck;
      }
      var k := keys[i];
      assert keys[i..][1..] == keys[i + 1..];
      value := if k in value.entries then value.entries[k] else Table(map[]);
      if value.Text? && k == last {
        return Found(value.text);
      }
      i := i + 1;
    }
    return Exhausted;
  }

  /** `get_message` as written: choose the language, walk it, walk English, return the key. */
  method GetMessage(cat: Catalog, lang: string, key: string, args: Placeholder) returns (r: Result<string>)
    requires Ready(cat)
    ensures r == Lookup(cat, lang, key, args)
  {
    var l := lang;
    if l !in cat.tables {
      l := "en";
    }
    var keys := Split(key, '.');
    var w := WalkKeys(cat.tables[l], keys);
    if w.Exhausted? {
      w := WalkKeys(cat.tables["en"], keys);
    }
    match w
    case Found(s) =>
      r := Ok(if args.Arg? then cat.format(s, args.name, args.value) else s);
    case Exhausted =>
      r := Ok(key);
    case Stuck =>
      r := Raised(StrHasNoGet);
  }

  // ---------------------------------------------------------------------------
  // Properties of the lookup

  /** A language the tables do not hold is looked up as English. */
  lemma UnknownLanguageIsEnglish(cat: Catalog, lang: string, key: string, args: Placeholder)
    requires Ready(cat) && lang !in cat.tables
    ensures Lookup(cat, lang, key, args) == Lookup(cat, "en", key, args)
  {
  }

  /** The outcome of a lookup, by how the two walks ended. */
  lemma LookupCases(cat: Catalog, lang: string, key: string, args: Placeholder)
    requires Ready(cat)
    ensures var keys := Split(key, '.');
            var last := keys[|keys| - 1];
            var own := Walk(cat.tables[LookupLanguage(cat, lang)], keys, last);
            var en := Walk(cat.tables["en"], keys, last);
            && (own.Found? && args.NoArgs? ==> Lookup(cat, lang, key, args) == Ok(own.text))
            && (own.Stuck? ==> Lookup(cat, lang, key, args) == Raised(StrHasNoGet))
            && (own.Exhausted? && en.Found? && args.NoArgs? ==> Lookup(cat, lang, key, args) == Ok(en.text))
            && (own.Exhausted? && en.Stuck? ==> Lookup(cat, lang, key, args).Raised?)
            && (own.Exhausted? && en.Exhausted? ==> Lookup(cat, lang, key, args) == Ok(key))
  {
  }

  /** A walk finds a text only if the path to it goes through tables and it sits
      under a segment named like the last one. */
  lemma {:induction false} WalkFound(table: LanguageTable, keys: seq<string>, last: string)
    requires Walk(table, keys, last).Found?
    ensures exists j | 0 <= j < |keys| :: keys[j] == last
    decreases |keys|
  {
    match Get(table, keys[0])
    case Text(s) =>
      assert keys[0] == last;
    case Table(t) =>
      WalkFound(t, keys[1..], last);
      var j :| 0 <= j < |keys[1..]| && keys[1..][j] == last;
      assert keys[j + 1] == last;
  }

  /** A two-segment key: the first segment must name a table that holds the second. */
  lemma WalkTwo(table: LanguageTable, a: string, b: string)
    requires a != b
    ensures Get(table, a).Text? ==> Walk(table, [a, b], b) == Stuck
    ensures Get(table, a).Table? ==>
      var t := Get(table, a).entries;
      Walk(table, [a, b], b) == if b in t && t[b].Text? then Found(t[b].text) else Exhausted
  {
    assert [a, b][1..] == [b];
    assert [b][1..] == [];
    if Get(table, a).Table? {
      var t := Get(table, a).entries;
      assert Walk(table, [a, b], b) == Walk(t, [b], b);
      assert Walk(t, [b], b) == if b in t && t[b].Text? then Found(t[b].text) else Exhausted by {
        if b in t && t[b].Table? {
          assert Walk(t, [b], b) == Walk(t[b].entries, [], b);
        }
      }
    }
  }

  lemma {:induction false} SplitTwo(a: string, b: string)
    requires '.' !in a && '.' !in b
    ensures Split(a + "." + b, '.') == [a, b]
  {
    SplitAtFirst(a, b, '.');
    SplitWhole(b, '.');
  }

  /** The label `"moderator"` and the keys `"moderator.<x>"` cannot both resolve in one
      table: when `moderator.<x>` is found, `moderator` names a table, and looking up
      `"moderator"` there finds nothing. */
  lemma ModeratorLabelShadowed(table: LanguageTable, x: string)
    requires x != "moderator"
    requires Walk(table, ["moderator", x], x).Found?
    ensures Walk(table, ["moderator"], "moderator") == Exhausted
  {
    WalkTwo(table, "moderator", x);
  }

  /** The label lookup `get_message(lang, "moderator")`: the chosen language's text when
      `moderator` is one there; otherwise English's text when it is one there; otherwise,
      both entries being tables (or missing), the key `"moderator"` itself. */
  lemma ModeratorLabelLookup(cat: Catalog, lang: string)
    requires Ready(cat)
    ensures var own := Get(cat.tables[LookupLanguage(cat, lang)], "moderator");
            var en := Get(cat.tables["en"], "moderator");
            Lookup(cat, lang, "moderator", NoArgs) ==
              if own.Text? then Ok(own.text) else if en.Text? then Ok(en.text) else Ok("moderator")
  {
    SplitWhole("moderator", '.');
    assert ["moderator"][1..] == [];
  }

  /** A lookup answers the text that the walk of its own language finds. */
  lemma LookupFound(cat: Catalog, lang: string, key: string, keys: seq<string>, s: string)
    requires Ready(cat) && lang in cat.tables
    requires Split(key, '.') == keys && |keys| > 0
    requires Walk(cat.tables[lang], keys, keys[|keys| - 1]) == Found(s)
    ensures Lookup(cat, lang, key, NoArgs) == Ok(s)
  {
  }

  lemma BuiltinLanguages()
    ensures "ja" in Builtin() && Builtin()["ja"] == BuiltinJa()
    ensures "en" in Builtin() && Builtin()["en"] == BuiltinEn()
  {
  }

  lemma ReferenceKeySplits()
    ensures Split("search.reference_urls", '.') == ["search", "reference_urls"]
  {
    var key := "search.reference_urls";
    assert key[..6] == "search" && key[6] == '.' && key[7..] == "reference_urls";
    assert key == "search" + "." + "reference_urls";
    SplitTwo("search", "reference_urls");
  }

  lemma ResultsPrefixKeySplits()
    ensures Split("search.results_prefix", '.') == ["search", "results_prefix"]
  {
    var key := "search.results_prefix";
    assert key[..6] == "search" && key[6] == '.' && key[7..] == "results_prefix";
    assert key == "search" + "." + "results_prefix";
    SplitTwo("search", "results_prefix");
  }

  lemma ReferenceWalkEn()
    ensures Walk(BuiltinEn(), ["search", "reference_urls"], "reference_urls") == Found("Reference URLs:")
  {
    WalkTwo(BuiltinEn(), "search", "reference_urls");
  }

  lemma ReferenceWalkJa()
    ensures Walk(BuiltinJa(), ["search", "reference_urls"], "reference_urls") == Found("参考URL:")
  {
    WalkTwo(BuiltinJa(), "search", "reference_urls");
  }

  lemma ResultsPrefixWalkEn()
    ensures Walk(BuiltinEn(), ["search", "results_prefix"], "results_prefix") == Found("Search results for")
  {
    WalkTwo(BuiltinEn(), "search", "results_prefix");
  }

  lemma ResultsPrefixWalkJa()
    ensures Walk(BuiltinJa(), ["search", "results_prefix"], "results_prefix") == Found("に関する検索結果:")
  {
    WalkTwo(BuiltinJa(), "search", "results_prefix");
  }

  /** In the built-in English table the reference-link label resolves to its fixed text. */
  lemma BuiltinReferenceLabelEn(format: (string, string, string) -> string)
    ensures Lookup(Catalog(Builtin(), format), "en", "search.reference_urls", NoArgs) == Ok("Reference URLs:")
  {
    BuiltinLanguages();
    ReferenceKeySplits();
    ReferenceWalkEn();
    LookupFound(Catalog(Builtin(), format), "en", "search.reference_urls", ["search", "reference_urls"], "Reference URLs:");
  }

  /** In the built-in Japanese table the reference-link label resolves to its fixed text. */
  lemma BuiltinReferenceLabelJa(format: (string, string, string) -> string)
    ensures Lookup(Catalog(Builtin(), format), "ja", "search.reference_urls", NoArgs) == Ok("参考URL:")
  {
    BuiltinLanguages();
    ReferenceKeySplits();
    ReferenceWalkJa();
    LookupFound(Catalog(Builtin(), format), "ja", "search.reference_urls", ["search", "reference_urls"], "参考URL:");
  }

  /** With the built-in tables the English results prefix is `Search results for`. */
  lemma BuiltinResultsPrefixEn(format: (string, string, string) -> string)
    ensures Lookup(Catalog(Builtin(), format), "en", "search.results_prefix", NoArgs) == Ok("Search results for")
  {
    BuiltinLanguages();
    ResultsPrefixKeySplits();
    ResultsPrefixWalkEn();
    LookupFound(Catalog(Builtin(), format), "en", "search.results_prefix", ["search", "results_prefix"], "Search results for");
  }

  /** With the built-in tables the Japanese results prefix is `に関する検索結果:`. */
  lemma BuiltinResultsPrefixJa(format: (string, string, string) -> string)
    ensures Lookup(Catalog(Builtin(), format), "ja", "search.results_prefix", NoArgs) == Ok("に関する検索結果:")
  {
    BuiltinLanguages();
    ResultsPrefixKeySplits();
    ResultsPrefixWalkJa();
    LookupFound(Catalog(Builtin(), format), "ja", "search.results_prefix", ["search", "results_prefix"], "に関する検索結果:");
  }

  /** A key `search.<k>` resolves to a text when the language's `search` table holds `k` as one. */
  lemma SearchKeyFound(cat: Catalog, lang: string, key: string, k: string)
    requires Ready(cat) && lang in cat.tables
    requires Split(key, '.') == ["search", k] && k != "search"
    requires var t := Get(cat.tables[lang], "search"); t.Table? && k in t.entries && t.entries[k].Text?
    ensures Lookup(cat, lang, key, NoArgs) == Ok(Get(cat.tables[lang], "search").entries[k].text)
  {
    WalkTwo(cat.tables[lang], "search", k);
    LookupFound(cat, lang, key, ["search", k], Get(cat.tables[lang], "search").entries[k].text);
  }

  lemma NotConfiguredKeySplits()
    ensures Split("search.api_not_configured", '.') == ["search", "api_not_configured"]
  {
    var key := "search.api_not_configured";
    assert key[..6] == "search" && key[6] == '.' && key[7..] == "api_not_configured";
    assert key == "search" + "." + "api_not_configured";
    SplitTwo("search", "api_not_configured");
  }

  lemma ErrorKeySplits()
    ensures Split("search.error", '.') == ["search", "error"]
  {
    var key := "search.error";
    assert key[..6] == "search" && key[6] == '.' && key[7..] == "error";
    assert key == "search" + "." + "error";
    SplitTwo("search", "error");
  }

  lemma UnexpectedErrorKeySplits()
    ensures Split("search.unexpected_error", '.') == ["search", "unexpected_error"]
  {
    var key := "search.unexpected_error";
    assert key[..6] == "search" && key[6] == '.' && key[7..] == "unexpected_error";
    assert key == "search" + "." + "unexpected_error";
    SplitTwo("search", "unexpected_error");
  }

  /** The three `search` texts the tool's error paths need, in one built-in table. */
  predicate HoldsSearchFailureTexts(table: LanguageTable) {
    var t := Get(table, "search");
    && t.Table?
    && "api_not_configured" in t.entries && t.entries["api_not_configured"].Text?
    && "error" in t.entries && t.entries["error"].Text?
    && "unexpected_error" in t.entries && t.entries["unexpected_error"].Text?
  }

  lemma SearchFailureTextsEn()
    ensures HoldsSearchFailureTexts(BuiltinEn())
  {
  }

  lemma SearchFailureTextsJa()
    ensures HoldsSearchFailureTexts(BuiltinJa())
  {
  }

  /** Where the table holds them, the three failure texts resolve. */
  lemma SearchFailureLookups(cat: Catalog, lang: string)
    requires Ready(cat) && lang in cat.tables && HoldsSearchFailureTexts(cat.tables[lang])
    ensures Lookup(cat, lang, "search.api_not_configured", NoArgs).Ok?
    ensures Lookup(cat, lang, "search.error", NoArgs).Ok?
    ensures Lookup(cat, lang, "search.unexpected_error", NoArgs).Ok?
  {
    NotConfiguredKeySplits();
    SearchKeyFound(cat, lang, "search.api_not_configured", "api_not_configured");
    ErrorKeySplits();
    SearchKeyFound(cat, lang, "search.error", "error");
    UnexpectedErrorKeySplits();
    SearchKeyFound(cat, lang, "search.unexpected_error", "unexpected_error");
  }

  /** In both built-in languages the search tool's failure texts resolve. */
  lemma BuiltinSearchFailureLookups(format: (string, string, string) -> string, lang: string)
    requires lang == "en" || lang == "ja"
    ensures Lookup(Catalog(Builtin(), format), lang, "search.api_not_configured", NoArgs).Ok?
    ensures Lookup(Catalog(Builtin(), format), lang, "search.error", NoArgs).Ok?
    ensures Lookup(Catalog(Builtin(), format), lang, "search.unexpected_error", NoArgs).Ok?
  {
    BuiltinLanguages();
    if lang == "en" {
      SearchFailureTextsEn();
    } else {
      SearchFailureTextsJa();
    }
    SearchFailureLookups(Catalog(Builtin(), format), lang);
  }

  /** In the built-in tables every `moderator.<x>` key raises: `"moderator"` is a text there. */
  lemma BuiltinModeratorKeysRaise(format: (string, string, string) -> string, x: string, lang: string)
    requires '.' !in x && x != "moderator"
    ensures Lookup(Catalog(Builtin(), format), lang, "moderator." + x, NoArgs) == Raised(StrHasNoGet)
  {
    ModeratorKeySplits(x);
    BuiltinLanguages();
    if LookupLanguage(Catalog(Builtin(), format), lang) == "ja" {
      ModeratorWalkStuck(BuiltinJa(), x);
    } else {
      ModeratorWalkStuck(BuiltinEn(), x);
    }
  }

  lemma ModeratorKeySplits(x: string)
    requires '.' !in x
    ensures Split("moderator." + x, '.') == ["moderator", x]
  {
    assert "moderator." + x == "moderator" + "." + x;
    SplitTwo("moderator", x);
  }

  lemma ModeratorWalkStuck(table: LanguageTable, x: string)
    requires x != "moderator" && Get(table, "moderator").Text?
    ensures Walk(table, ["moderator", x], x) == Stuck
  {
    WalkTwo(table, "moderator", x);
  }
}
