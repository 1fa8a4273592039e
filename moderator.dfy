/** The moderator's `send`: it finds the latest participant turn, builds the model
    context (system prompt first, language reminder on the last entry), folds the
    parts of the model's answer (text concatenated, a search call routed through
    the search agent), falls back when nothing usable came back, and answers with
    a canned message when anything raised. The model and the search tool are taken
    as given functions. */
module Moderator {
  import opened Outcomes
  import opened Models
  import opened Conversion
  import opened I18n
  import SearchAgent

  /** The name under which the model calls the search tool. */
  const ToolName: string := "data_gathering_tool"

  /** One answer of the model: the parts of its first candidate (`None` when it has no
      candidate, content or parts), and its `.text` accessor (`None` when reading it
      raises). */
  datatype Response = Response(parts: Option<seq<Part>>, text: Option<string>)

  /** The collaborators of `send`: the model call (`None` when it raises), and the
      search tool under a given language, returning its text or raising. */
  datatype Collaborators = Collaborators(
    generate: seq<Content> -> Option<Response>,
    search: string -> string -> Result<string>)

  /** The exceptions `send` can meet outside a message lookup; only the fact that
      they were raised matters to the handler. */
  const ModelCallRaised: Fault := Fault("generate_content_async raised")
  const TextAccessRaised: Fault := Fault("response.text raised")

  // ---------------------------------------------------------------------------
  // The latest participant turn

  /** The content of the role-`"user"` message nearest the end, if any. */
  function LastUserContent(h: seq<Message>): Option<string> {
    if |h| == 0 then None
    else if h[|h| - 1].role == "user" then Some(h[|h| - 1].content)
    else LastUserContent(h[..|h| - 1])
  }

  /** `[msg for msg in history if msg.role == "user"]`. */
  function UserMessages(h: seq<Message>): (users: seq<Message>)
    ensures forall k | 0 <= k < |users| :: users[k].role == "user"
  {
    if |h| == 0 then []
    else UserMessages(h[..|h| - 1]) + (if h[|h| - 1].role == "user" then [h[|h| - 1]] else [])
  }

  /** The reversed loop: walk back from the end until a participant turn is met. */
  method FindLastUserMessage(history: seq<Message>) returns (last: Option<string>)
    ensures last == LastUserContent(history)
  {
    assert history[..|history|] == history;
    var i := |history|;
    while i > 0
      invariant 0 <= i <= |history|
      invariant LastUserContent(history) == LastUserContent(history[..i])
    {
      i := i - 1;
      assert history[..i + 1][..i] == history[..i];
      if history[i].role == "user" {
        return Some(history[i].content);
      }
    }
    return None;
  }

  /** The latest participant turn is the last participant message, and there is
      none exactly when no message has role `"user"`. */
  lemma {:induction false} LastUserIsLatest(h: seq<Message>)
    ensures LastUserContent(h).None? <==> forall i | 0 <= i < |h| :: h[i].role != "user"
    ensures LastUserContent(h).Some? ==>
              exists i | 0 <= i < |h| :: && h[i].role == "user" && h[i].content == LastUserContent(h).value
                                         && forall j | i < j < |h| :: h[j].role != "user"
  {
    if |h| > 0 {
      var init := h[..|h| - 1];
      LastUserIsLatest(init);
      if h[|h| - 1].role != "user" {
        assert forall i | 0 <= i < |init| :: init[i] == h[i];
        if LastUserContent(h).Some? {
          var i :| 0 <= i < |init| && init[i].role == "user" && init[i].content == LastUserContent(init).value
                   && forall j | i < j < |init| :: init[j].role != "user";
          assert h[i] == init[i];
        }
      }
    }
  }

  /** The loop of the `try` block and the list the `except` block builds agree on the
      latest participant turn. */
  lemma {:induction false} LastOfUserMessages(h: seq<Message>)
    ensures var users := UserMessages(h);
            LastUserContent(h) == if |users| == 0 then None else Some(users[|users| - 1].content)
    ensures |UserMessages(h)| == UserTurns(h)
  {
    if |h| > 0 {
      LastOfUserMessages(h[..|h| - 1]);
    }
  }

  // ---------------------------------------------------------------------------
  // The model context

  function PartText(p: Part): string {
    if p.TextPart? then p.text else ""
  }

  /** The language reminder joined onto the first-part text of the last entry, or
      added as an entry of its own. */
  function WithReminder(contents: seq<Content>, reminder: string): seq<Content> {
    if |contents| > 0 && |contents[|contents| - 1].parts| > 0 then
      var last := contents[|contents| - 1];
      contents[|contents| - 1 := last.(parts := last.parts[0 := TextPart(PartText(last.parts[0]) + reminder)])]
    else contents + [Content("user", [TextPart(reminder)])]
  }

  /** `full_history`: the system-prompt entry, then the converted history with the reminder. */
  function Context(history: seq<Message>, systemPrompt: string, reminder: string): seq<Content> {
    [Content("user", [TextPart(systemPrompt)])] + WithReminder(ToContent(history), reminder)
  }

  /** The context as the source builds it: convert, then update the last entry in place. */
  method BuildContext(history: seq<Message>, systemPrompt: string, reminder: string) returns (full: seq<Content>)
    ensures full == Context(history, systemPrompt, reminder)
  {
    var contents := MessagesToContent(history);
    if |contents| > 0 && |contents[|contents| - 1].parts| > 0 {
      var last := contents[|contents| - 1];
      var lastText := PartText(last.parts[0]);
      contents := contents[|contents| - 1 := last.(parts := last.parts[0 := TextPart(lastText + reminder)])];
    } else {
      contents := contents + [Content("user", [TextPart(reminder)])];
    }
    full := [Content("user", [TextPart(systemPrompt)])] + contents;
  }

  /** For a non-empty history the context is one entry longer than the history: the
      system prompt, then every message converted, the last one's text followed by
      the reminder. */
  lemma ContextShape(history: seq<Message>, systemPrompt: string, reminder: string)
    requires |history| > 0
    ensures var full := Context(history, systemPrompt, reminder);
            && |full| == |history| + 1
            && full[0] == Content("user", [TextPart(systemPrompt)])
            && (forall i | 0 <= i < |history| - 1 :: full[i + 1] == Convert(history[i]))
            && full[|history|] == Content(ContentRole(history[|history| - 1].role),
                                          [TextPart(history[|history| - 1].content + reminder)])
  {
    var c := ToContent(history);
    assert c[|c| - 1] == Convert(history[|history| - 1]);
  }

  // ---------------------------------------------------------------------------
  // The parts of the model's answer

  /** What the loop over the parts carries: `response_text` and `function_called`. */
  datatype FoldState = FoldState(text: string, called: bool)

  /** `function_args.get("query", "")`, an uncoercible carrier read as `{}`. */
  function QueryOf(args: Args): (q: string)
    ensures args.Uncoercible? ==> q == ""
    ensures args.Mapping? && "query" !in args.entries ==> q == ""
    ensures args.Mapping? && "query" in args.entries ==> q == args.entries["query"]
  {
    match args
    case Uncoercible => ""
    case Mapping(entries) => if "query" in entries then entries["query"] else ""
  }

  /** The history the second model call sees: the context, the call itself, the tool's
      answer, and the instruction to keep the links. */
  function Extended(full: seq<Content>, call: Part, result: string, instruction: string): seq<Content> {
    full + [Content("model", [call]), Content("function", [ResponsePart(ToolName, result)]),
            Content("user", [TextPart(instruction)])]
  }

  /** The search call's branch: run the search; on success ask the model again and
      merge the links into its text, or answer the raw result when it has none; on
      failure answer the error. */
  function SearchStep(env: Collaborators, lang: string, cat: Catalog, full: seq<Content>, call: Part): Result<string>
    requires Ready(cat) && call.CallPart?
  {
    var outcome :- SearchAgent.ExecuteSearch(QueryOf(call.args), lang, cat, env.search(lang));
    if outcome.success then
      var result := outcome.result.value;
      var instruction :- Lookup(cat, lang, "moderator.url_instruction", NoArgs);
      match env.generate(Extended(full, call, result, instruction))
      case None => Raised(ModelCallRaised)
      case Some(final) =>
        match final.text
        case None => Raised(TextAccessRaised)
        case Some(t) => Ok(if t != "" then SearchAgent.ProcessSearchResult(result, t) else result)
    else Ok(outcome.error.value)
  }

  /** One turn of the loop over the parts. */
  function PartStep(env: Collaborators, lang: string, cat: Catalog, full: seq<Content>, st: FoldState, p: Part): Result<FoldState>
    requires Ready(cat)
  {
    match p
    case CallPart(name, _) =>
      if name == ToolName then
        var text :- SearchStep(env, lang, cat, full, p);
        Ok(FoldState(text, true))
      else Ok(st.(called := true))
    case TextPart(t) => Ok(if t != "" then st.(text := st.text + t) else st)
    case _ => Ok(st)
  }

  /** The loop over the parts, from state `st`; it stops at the first exception. */
  function FoldParts(env: Collaborators, lang: string, cat: Catalog, full: seq<Content>, parts: seq<Part>, st: FoldState): Result<FoldState>
    requires Ready(cat)
    decreases |parts|
  {
    if |parts| == 0 then Ok(st)
    else
      var next :- PartStep(env, lang, cat, full, st, parts[0]);
      FoldParts(env, lang, cat, full, parts[1..], next)
  }

  /** The loop of the source over the parts of the first candidate. */
  method FoldResponseParts(env: Collaborators, lang: string, cat: Catalog, full: seq<Content>, parts: seq<Part>)
    returns (r: Result<FoldState>)
    requires Ready(cat)
    ensures r == FoldParts(env, lang, cat, full, parts, FoldState("", false))
  {
    var st := FoldState("", false);
    for i := 0 to |parts|
      invariant FoldParts(env, lang, cat, full, parts, FoldState("", false)) == FoldParts(env, lang, cat, full, parts[i..], st)
    {
      assert parts[i..][1..] == parts[i + 1..];
      var next := PartStep(env, lang, cat, full, st, parts[i]);
      if next.Raised? {
        return Raised(next.fault);
      }
      st := next.value;
    }
    assert parts[|parts|..] == [];
    return Ok(st);
  }

  /** The texts of the text parts, in order. */
  function Texts(parts: seq<Part>): string {
    if |parts| == 0 then "" else PartText(parts[0]) + Texts(parts[1..])
  }

  /** Without calls, the loop concatenates the texts of the parts in order. */
  lemma {:induction false} TextsConcatenate(env: Collaborators, lang: string, cat: Catalog, full: seq<Content>, parts: seq<Part>, st: FoldState)
    requires Ready(cat)
    requires forall k | 0 <= k < |parts| :: !parts[k].CallPart?
    ensures FoldParts(env, lang, cat, full, parts, st) == Ok(FoldState(st.text + Texts(parts), st.called))
    decreases |parts|
  {
    if |parts| > 0 {
      var next := PartStep(env, lang, cat, full, st, parts[0]);
      assert st.text + "" == st.text;
      assert next == Ok(FoldState(st.text + PartText(parts[0]), st.called));
      TextsConcatenate(env, lang, cat, full, parts[1..], next.value);
      assert st.text + PartText(parts[0]) + Texts(parts[1..]) == st.text + Texts(parts);
    }
  }

  /** A search call discards any text gathered before it. */
  lemma CallOverwrites(env: Collaborators, lang: string, cat: Catalog, full: seq<Content>, st1: FoldState, st2: FoldState, p: Part)
    requires Ready(cat) && p.CallPart? && p.name == ToolName
    ensures PartStep(env, lang, cat, full, st1, p) == PartStep(env, lang, cat, full, st2, p)
    ensures var r := PartStep(env, lang, cat, full, st1, p);
            r.Ok? ==> r.value.called && r.value.text == SearchStep(env, lang, cat, full, p).value
  {
  }

  /** A call of any other function only records that a call happened. */
  lemma OtherCallsAnswerNothing(env: Collaborators, lang: string, cat: Catalog, full: seq<Content>, st: FoldState, p: Part)
    requires Ready(cat) && p.CallPart? && p.name != ToolName
    ensures PartStep(env, lang, cat, full, st, p) == Ok(FoldState(st.text, true))
  {
  }

  /** A failed search answers exactly its error message. */
  lemma FailedSearchAnswersError(env: Collaborators, lang: string, cat: Catalog, full: seq<Content>, p: Part)
    requires Ready(cat) && p.CallPart?
    requires var o := SearchAgent.ExecuteSearch(QueryOf(p.args), lang, cat, env.search(lang));
             o.Ok? && !o.value.success
    ensures SearchStep(env, lang, cat, full, p)
            == Ok(SearchAgent.ExecuteSearch(QueryOf(p.args), lang, cat, env.search(lang)).value.error.value)
  {
  }

  /** A successful search followed by a model text answers that text with the links
      merged in; followed by an empty text it answers the raw search result. */
  lemma SucceededSearchAnswers(env: Collaborators, lang: string, cat: Catalog, full: seq<Content>, p: Part, r: Response, t: string)
    requires Ready(cat) && p.CallPart?
    requires var o := SearchAgent.ExecuteSearch(QueryOf(p.args), lang, cat, env.search(lang));
             o.Ok? && o.value.success
    requires var result := SearchAgent.ExecuteSearch(QueryOf(p.args), lang, cat, env.search(lang)).value.result.value;
             var m := Lookup(cat, lang, "moderator.url_instruction", NoArgs);
             && m.Ok?
             && env.generate(Extended(full, p, result, m.value)) == Some(r) && r.text == Some(t)
    ensures var result := SearchAgent.ExecuteSearch(QueryOf(p.args), lang, cat, env.search(lang)).value.result.value;
            SearchStep(env, lang, cat, full, p) == Ok(if t != "" then SearchAgent.ProcessSearchResult(result, t) else result)
  {
  }

  // ---------------------------------------------------------------------------
  // The whole exchange

  /** After the loop: with no call and no text, the model's own `.text` if it is not
      empty, otherwise the participant's turn echoed back. */
  function Finish(response: Option<Response>, st: FoldState, lastUser: string): Result<string> {
    if !st.called && st.text == "" then
      match response
      case None => Ok(lastUser)
      case Some(r) =>
        match r.text
        case None => Raised(TextAccessRaised)
        case Some(t) => Ok(if t != "" then t else lastUser)
    else Ok(st.text)
  }

  /** The parts the loop visits: none unless the answer has a first candidate with parts. */
  function PartsOf(response: Option<Response>): seq<Part> {
    if response.Some? && response.value.parts.Some? then response.value.parts.value else []
  }

  /** The body of the outer `try`: the reply text, or the exception it raises. */
  function Attempt(history: seq<Message>, lang: string, cat: Catalog, env: Collaborators): Result<string>
    requires Ready(cat)
  {
    if |history| == 0 then Lookup(cat, lang, "moderator.start_discussion", NoArgs)
    else
      var last := LastUserContent(history);
      if last.None? || last.value == "" then Lookup(cat, lang, "moderator.start_discussion", NoArgs)
      else
        var systemPrompt :- Lookup(cat, lang, "moderator.system_prompt", NoArgs);
        var _ :- Lookup(cat, lang, "moderator.tool_description", NoArgs);
        var _ :- Lookup(cat, lang, "moderator.tool_query_description", NoArgs);
        var reminder :- Lookup(cat, lang, "moderator.lang_reminder", NoArgs);
        var full := Context(history, systemPrompt, reminder);
        var response := env.generate(full);
        var st :- FoldParts(env, lang, cat, full, PartsOf(response), FoldState("", false));
        Finish(response, st, last.value)
  }

  /** A yielded text as the moderator's message, or the exception raised instead. */
  function AsAgent(m: Result<string>): Result<Message> {
    if m.Ok? then Ok(Message(m.value, "agent")) else Raised(m.fault)
  }

  /** The `except` block: the latest participant turn quoted back, or the opening
      message when there is none; raises only when its own lookup raises. */
  function Recover(history: seq<Message>, lang: string, cat: Catalog): (r: Result<Message>)
    requires Ready(cat)
    ensures r.Ok? ==> r.value.role == "agent"
  {
    var users := UserMessages(history);
    if |users| > 0 then AsAgent(Lookup(cat, lang, "moderator.understand_point", Arg("message", users[|users| - 1].content)))
    else AsAgent(Lookup(cat, lang, "moderator.start_discussion", NoArgs))
  }

  /** `send(history, lang)`: the one message it yields, or the exception that escapes
      it (only from a lookup inside the `except` block). */
  function ModeratorReply(history: seq<Message>, lang: string, cat: Catalog, env: Collaborators): (r: Result<Message>)
    requires Ready(cat)
    ensures r.Ok? ==> r.value.role == "agent"
  {
    match Attempt(history, lang, cat, env)
    case Ok(text) => Ok(Message(text, "agent"))
    case Raised(_) => Recover(history, lang, cat)
  }

  /** `send` as written: the steps of the `try` block in order, the handler on any exception. */
  method Send(history: seq<Message>, lang: string, cat: Catalog, env: Collaborators) returns (r: Result<Message>)
    requires Ready(cat)
    ensures r == ModeratorReply(history, lang, cat, env)
  {
    var attempt := TryReply(history, lang, cat, env);
    if attempt.Ok? {
      return Ok(Message(attempt.value, "agent"));
    }
    r := HandleRaise(history, lang, cat);
  }

  /** The outer `try` block of `send`: the reply text, or the exception it raises. */
  method TryReply(history: seq<Message>, lang: string, cat: Catalog, env: Collaborators) returns (attempt: Result<string>)
    requires Ready(cat)
    ensures attempt == Attempt(history, lang, cat, env)
  {
    if |history| == 0 {
      return Lookup(cat, lang, "moderator.start_discussion", NoArgs);
    }
    var last := FindLastUserMessage(history);
    if last.None? || last.value == "" {
      attempt := Lookup(cat, lang, "moderator.start_discussion", NoArgs);
    } else {
      attempt := Consult(history, lang, cat, env, last.value);
    }
  }

  /** The `except` block of `send`. */
  method HandleRaise(history: seq<Message>, lang: string, cat: Catalog) returns (r: Result<Message>)
    requires Ready(cat)
    ensures r == Recover(history, lang, cat)
  {
    var users := UserMessages(history);
    if |users| > 0 {
      var text := Lookup(cat, lang, "moderator.understand_point", Arg("message", users[|users| - 1].content));
      r := AsAgent(text);
    } else {
      var text := Lookup(cat, lang, "moderator.start_discussion", NoArgs);
      r := AsAgent(text);
    }
  }

  /** The model consultation of `send`, once a participant turn has been found. */
  method Consult(history: seq<Message>, lang: string, cat: Catalog, env: Collaborators, lastUser: string)
    returns (r: Result<string>)
    requires Ready(cat) && |history| > 0 && LastUserContent(history) == Some(lastUser) && lastUser != ""
    ensures r == Attempt(history, lang, cat, env)
  {
    var systemPrompt := Lookup(cat, lang, "moderator.system_prompt", NoArgs);
    if systemPrompt.Raised? {
      return Raised(systemPrompt.fault);
    }
    var description := Lookup(cat, lang, "moderator.tool_description", NoArgs);
    if description.Raised? {
      return Raised(description.fault);
    }
    var queryDescription := Lookup(cat, lang, "moderator.tool_query_description", NoArgs);
    if queryDescription.Raised? {
      return Raised(queryDescription.fault);
    }
    var reminder := Lookup(cat, lang, "moderator.lang_reminder", NoArgs);
    if reminder.Raised? {
      return Raised(reminder.fault);
    }
    var full := BuildContext(history, systemPrompt.value, reminder.value);
    var response := env.generate(full);
    var st := FoldResponseParts(env, lang, cat, full, PartsOf(response));
    if st.Raised? {
      return Raised(st.fault);
    }
    r := Finish(response, st.value, lastUser);
  }

  // ---------------------------------------------------------------------------
  // Properties of the whole exchange

  /** An empty history is answered with the opening message, whatever the model and
      the tool would do. */
  lemma EmptyHistoryOpens(lang: string, cat: Catalog, env1: Collaborators, env2: Collaborators)
    requires Ready(cat)
    ensures ModeratorReply([], lang, cat, env1) == ModeratorReply([], lang, cat, env2)
    ensures ModeratorReply([], lang, cat, env1) == AsAgent(Lookup(cat, lang, "moderator.start_discussion", NoArgs))
  {
    assert UserMessages([]) == [];
  }

  /** A history without a participant turn, or whose latest one is empty, is answered
      with the opening message without consulting the model. */
  lemma NoParticipantOpens(history: seq<Message>, lang: string, cat: Catalog, env: Collaborators)
    requires Ready(cat) && |history| > 0
    requires LastUserContent(history).None? || LastUserContent(history).value == ""
    requires Lookup(cat, lang, "moderator.start_discussion", NoArgs).Ok?
    ensures ModeratorReply(history, lang, cat, env)
            == Ok(Message(Lookup(cat, lang, "moderator.start_discussion", NoArgs).value, "agent"))
  {
  }

  /** Once a participant turn is found and the four lookups succeed, the reply is what
      the loop and the fallback make of the model's answer to the context. */
  lemma AttemptConsults(history: seq<Message>, lang: string, cat: Catalog, env: Collaborators)
    requires Ready(cat) && |history| > 0
    requires LastUserContent(history).Some? && LastUserContent(history).value != ""
    requires Lookup(cat, lang, "moderator.system_prompt", NoArgs).Ok?
    requires Lookup(cat, lang, "moderator.tool_description", NoArgs).Ok?
    requires Lookup(cat, lang, "moderator.tool_query_description", NoArgs).Ok?
    requires Lookup(cat, lang, "moderator.lang_reminder", NoArgs).Ok?
    ensures var full := Context(history, Lookup(cat, lang, "moderator.system_prompt", NoArgs).value,
                                Lookup(cat, lang, "moderator.lang_reminder", NoArgs).value);
            var response := env.generate(full);
            var st := FoldParts(env, lang, cat, full, PartsOf(response), FoldState("", false));
            Attempt(history, lang, cat, env) == if st.Ok? then Finish(response, st.value, LastUserContent(history).value) else Raised(st.fault)
  {
  }

  /** When the first model call raises, the participant's turn is echoed back. */
  lemma FailedModelEchoes(history: seq<Message>, lang: string, cat: Catalog, env: Collaborators)
    requires Ready(cat) && |history| > 0
    requires LastUserContent(history).Some? && LastUserContent(history).value != ""
    requires Lookup(cat, lang, "moderator.system_prompt", NoArgs).Ok?
    requires Lookup(cat, lang, "moderator.tool_description", NoArgs).Ok?
    requires Lookup(cat, lang, "moderator.tool_query_description", NoArgs).Ok?
    requires Lookup(cat, lang, "moderator.lang_reminder", NoArgs).Ok?
    requires env.generate(Context(history, Lookup(cat, lang, "moderator.system_prompt", NoArgs).value,
                                  Lookup(cat, lang, "moderator.lang_reminder", NoArgs).value)) == None
    ensures ModeratorReply(history, lang, cat, env) == Ok(Message(LastUserContent(history).value, "agent"))
  {
    AttemptConsults(history, lang, cat, env);
    var full := Context(history, Lookup(cat, lang, "moderator.system_prompt", NoArgs).value,
                        Lookup(cat, lang, "moderator.lang_reminder", NoArgs).value);
    assert PartsOf(env.generate(full)) == [];
    assert Attempt(history, lang, cat, env) == Ok(LastUserContent(history).value);
  }

  /** Any exception in the `try` block is answered by the `except` block. */
  lemma RaisedRecovers(history: seq<Message>, lang: string, cat: Catalog, env: Collaborators)
    requires Ready(cat) && Attempt(history, lang, cat, env).Raised?
    ensures ModeratorReply(history, lang, cat, env) == Recover(history, lang, cat)
  {
  }

  /** The `except` block quotes the latest participant turn, even an empty one. */
  lemma RecoverQuotesParticipant(history: seq<Message>, lang: string, cat: Catalog)
    requires Ready(cat)
    ensures LastUserContent(history).Some? ==>
              Recover(history, lang, cat)
              == AsAgent(Lookup(cat, lang, "moderator.understand_point", Arg("message", LastUserContent(history).value)))
  {
    LastOfUserMessages(history);
    var users := UserMessages(history);
    if |users| > 0 {
      var q := users[|users| - 1].content;
      assert Recover(history, lang, cat) == AsAgent(Lookup(cat, lang, "moderator.understand_point", Arg("message", q)));
    }
  }

  /** Without any participant turn, the `except` block answers with the opening message. */
  lemma RecoverOpensWithoutParticipant(history: seq<Message>, lang: string, cat: Catalog)
    requires Ready(cat)
    ensures LastUserContent(history).None? ==>
              Recover(history, lang, cat)
              == AsAgent(Lookup(cat, lang, "moderator.start_discussion", NoArgs))
  {
    LastOfUserMessages(history);
  }
}
