# Anonymous discussion moderator backend — a Dafny model

The backend relays anonymous discussion messages over WebSockets. It asks an
LLM-backed moderator to answer each accepted message. The moderator may call a
web-search tool and merge the tool's reference links into its reply.

This project models the sequential logic of that backend. The LLM, the search API
and the sockets are treated as given functions or recorded values. It proves what
the code promises about the modelled logic.

- `Outcomes` (outcomes.dfy): `Result<T>` (a value, or a raised Python exception
  with its message) and `Option<T>`.
- `Strings` (strings.dfy): the Python string operations the code relies on.
  These are `in`, `find`, `startswith`, `split` on one character, `join` on a
  glue string, and `str(n)`.
- `Models` (models.dfy): the `Message` record and the seeded history.
- `Conversion` (messages.dfy): `messages_to_content`, which converts the
  history into the LLM's content list.
- `I18n` (i18n.dfy): the built-in message tables, and the shallow merge of the
  JSON tables into them. It also has `get_message`: a dotted-key walk that falls
  back to English and then to the key itself. It raises when the walk calls
  `.get` on a text.
- `SearchTool` (data_gathering.py → data_gathering.dfy): `data_gathering_tool`.
  It covers language normalisation, the credential check, the request
  parameters and the status branches (403, other errors, no results). It also
  builds the bulleted digest and the numbered reference-link section, and it has
  the summary and fallback layouts and the two `except` branches.
- `SearchAgent` (data_gathering_agent.dfy): `execute_search` and
  `process_search_result`. The latter is the guard that appends a search
  result's reference-link section to a reply lacking one.
- `Moderator` (moderator.dfy): `ModeratorAgentWrapper.send`. It finds the
  latest participant turn and builds the model context. It folds the model's
  response parts and routes a tool call through `execute_search`. It applies the
  fallbacks and the canned answers of the `except` block.
- `Server` (main.dfy): `ConnectionManager` and one turn of `websocket_endpoint`.
  A turn covers `LANG:` frames, the per-client rate limit, the shared history,
  the moderator's reply, the moderator-label prefix and the agent-error notice.
  - `ConnectionManager` is a class whose `connections` sequence is updated in place.
  - `Backend` holds the process-wide state: history, rate-limit ledger and manager.
  - `Backend`'s methods are proved against the spec function `Step` and its parts.

Each imperative piece of the source is a method proved equal to a specification
function, and the lemmas state the source's promises about those functions:
the loops of `get_message`, the merge, the conversion, the digest, the reference
section, the parts fold, the last-user search, the broadcast and the
connection-list updates.

Each discussion URL carries an identifier. The code's comments plan one history
per discussion identifier for later (backend/main.py:46-49, backend/models.py:13),
but the code keeps one process-wide list that every discussion shares
(backend/main.py:23, backend/main.py:124, backend/models.py:14-16). The model
follows the code: `Backend.history` is that one list.

## Model

| member | source | states |
|---|---|---|
| Models.SeedHistory | backend/models.py:14-16 | the shared history starts as one system turn with the discussion-started text |
| Server.SeedHasNoParticipant | backend/models.py:14-16 | the seeded history holds no participant turn |
| Conversion.ContentRole | backend/utils/messages.py:20-25 | every converted role is `user` or `model`; it is `model` exactly for `agent`, so system and unknown roles become `user` |
| Conversion.ToContent | backend/utils/messages.py:18-30 | the converted list has one entry per history message |
| Conversion.MessagesToContent | backend/utils/messages.py:18-30 | the loop builds exactly the message-by-message conversion of the history |
| Conversion.ToContentEntry | backend/utils/messages.py:19-29 | entry i has exactly one part, the text of message i, and the mapped role of message i |
| Conversion.ToContentAppend | backend/utils/messages.py:19-29 | order is kept: converting a concatenation converts each half in place |
| I18n.Builtin | backend/i18n.py:19-54 | the built-in tables hold exactly Japanese and English |
| I18n.MergeMessages | backend/i18n.py:57-61 | the merge loop yields the shallow merge, whatever order it visits the JSON languages in |
| I18n.MergeShallow | backend/i18n.py:57-61 | after the merge a language holds a top-level key iff the JSON or the built-in table held it; JSON values win, and the other built-in values are kept |
| I18n.MergedReady | backend/i18n.py:57-61 | English is still present after any merge, so the English fallback is always available |
| I18n.WalkKeys | backend/i18n.py:78-86 | the loop over the key segments ends as the walk does: a text found at a segment named like the last one, segments used up, or a raise on `.get` of a text |
| I18n.GetMessage | backend/i18n.py:63-97 | `get_message` as written returns the lookup: the chosen or English language, then the English walk, then the key itself |
| I18n.UnknownLanguageIsEnglish | backend/i18n.py:75-76 | a language the tables lack is looked up as English |
| I18n.LookupCases | backend/i18n.py:78-97 | the outcome by how both walks end: own text; own raise; English text; English raise; the key when neither finds anything |
| I18n.WalkFound | backend/i18n.py:80-86 | a walk finds a text only at a segment named like the last segment |
| I18n.WalkTwo | backend/i18n.py:80-82 | a two-segment key raises when its first segment is a text; otherwise it finds the text under the second segment, or runs out (a missing segment reads as an empty table) |
| I18n.ModeratorLabelShadowed | backend/i18n.py:80-86 | one table cannot answer both the label `moderator` and a key `moderator.<x>`: when the latter is found, the former runs out |
| I18n.ModeratorLabelLookup | backend/i18n.py:63-97 | the label `moderator` is the chosen language's text if it is one there, else English's text if it is one there, else the key `moderator` itself |
| I18n.BuiltinReferenceLabelEn | backend/i18n.py:50 | with the built-in tables the English reference caption is `Reference URLs:` |
| I18n.BuiltinReferenceLabelJa | backend/i18n.py:33 | with the built-in tables the Japanese reference caption is `参考URL:` |
| I18n.BuiltinResultsPrefixEn | backend/i18n.py:51 | with the built-in tables the English results prefix is `Search results for` |
| I18n.BuiltinResultsPrefixJa | backend/i18n.py:34 | with the built-in tables the Japanese results prefix is `に関する検索結果:` |
| I18n.BuiltinModeratorKeysRaise | backend/i18n.py:78-82 | with the built-in tables alone, a key `moderator.<x>` raises for every single segment `x` other than `moderator`, because `moderator` is a text (lines 26 and 43); `moderator.moderator` instead finds that text |
| I18n.SearchKeyFound | backend/i18n.py:78-86 | a key `search.<k>` resolves to the text that the language's `search` table holds under `k` |
| I18n.BuiltinSearchFailureLookups | backend/i18n.py:27-48 | with the built-in tables, the not-configured, search-error and unexpected-error texts resolve in both languages |
| SearchTool.ToolLanguage | backend/tools/data_gathering.py:21-23 | the tool's language is `ja` or `en`; a supported language is kept |
| SearchTool.OtherLanguagesAreEnglish | backend/tools/data_gathering.py:21-23 | the tool answers an unsupported language exactly as it answers English |
| SearchTool.RequestParameters | backend/tools/data_gathering.py:39-51 | the request asks for 5 results for the query, with `lr` `lang_ja` for Japanese and `lang_en` otherwise |
| SearchTool.UnconfiguredMakesNoRequest | backend/tools/data_gathering.py:28-34 | with the key or the engine id missing, the answer does not depend on the HTTP service or the summariser; it is the not-configured text around the query |
| SearchTool.AccessDeniedAnswer | backend/tools/data_gathering.py:74-79 | a 403 response is answered with the language's access-denied diagnostic and the error detail |
| SearchTool.AccessDeniedCarriesDetail | backend/tools/data_gathering.py:75-77 | the access-denied diagnostic contains the error detail |
| SearchTool.NoResultsNamesQuery | backend/tools/data_gathering.py:86-91 | the no-results answer contains the query |
| SearchTool.HitsAnswer | backend/tools/data_gathering.py:81-86 | a 200 response with a JSON body is answered by the hits branch whenever that branch returns |
| SearchTool.TopResults | backend/tools/data_gathering.py:96 | at most the first five hits are used, in order |
| SearchTool.DigestEntries | backend/tools/data_gathering.py:94-100 | the digest has one entry per hit used |
| SearchTool.BuildDigest | backend/tools/data_gathering.py:94-102 | the loop builds the digest of the first five hits: bullet, title, snippet line, URL line, entries joined by a blank line |
| SearchTool.BuildReferenceSection | backend/tools/data_gathering.py:169-187 | the `enumerate` loop builds the framed caption, then one entry per hit numbered from 1 |
| SearchTool.SectionFraming | backend/tools/data_gathering.py:171 | the section opens with a blank line and the frame line, and the caption follows at a fixed offset |
| SearchTool.SourceEntriesAppend | backend/tools/data_gathering.py:172-178 | numbering continues across a split of the hits: the entries of a concatenation are those of each half, the second numbered on |
| SearchTool.SkipLinkless | backend/tools/data_gathering.py:175-178 | a hit without a link contributes nothing, but its number is used |
| SearchTool.SourceWithoutLinkSkipped | backend/tools/data_gathering.py:172-178 | dropping a linkless hit k leaves the entries before it and the later entries numbered from k + 2 |
| SearchTool.SummariseHits | backend/tools/data_gathering.py:106-161 | the summary branch answers the framed summary, or nothing when the summariser raises, returns no text, or a lookup inside the branch raises |
| SearchTool.FrameSummary | backend/tools/data_gathering.py:128-157 | a summary is framed by the query, the summary prefix and the reference section |
| SearchTool.AnswerHits | backend/tools/data_gathering.py:86-192 | the hits branch as written: no results, the summary answer, or the fallback answer |
| SearchTool.FallbackLayout | backend/tools/data_gathering.py:163-192 | when the summariser fails or returns empty text, the answer is the results prefix, the query, the digest and the section |
| SearchTool.HitsEndInSection | backend/tools/data_gathering.py:133-192 | both the summary and the fallback answer end with the same reference section for the same hits and language |
| SearchTool.TrySearch | backend/tools/data_gathering.py:36-192 | the outer `try` block as written: transport error, 403, other error status, undecodable body, or the hits; what the tool answers on each exit is stated by AccessDeniedAnswer, TransportErrorAnswer, ErrorStatusAnswer, UndecodableAnswer, HitsAnswer and HitsLookupRaises |
| SearchTool.HandleFailure | backend/tools/data_gathering.py:194-209 | the two `except` clauses as written: a returned text is kept, a failed request answers the search-error text with the reason, anything else the unexpected-error text; a raising lookup raises. HandledOk, RequestErrorCarriesReason and NeverRaises state what this gives |
| SearchTool.HandledOk | backend/tools/data_gathering.py:194-209 | whatever the `try` block did, the `except` clauses return a text while the search-error and unexpected-error lookups succeed |
| SearchTool.TransportErrorAnswer | backend/tools/data_gathering.py:56-201 | a request that fails without a response is answered by the search-error text, the query and the exception's message |
| SearchTool.ErrorStatusAnswer | backend/tools/data_gathering.py:61-201 | a status in 400-599 other than 403 makes `raise_for_status` raise; the answer is the search-error text, the query and that exception's message |
| SearchTool.UndecodableAnswer | backend/tools/data_gathering.py:83-201 | a body that does not decode, under a non-error status, is answered by the search-error text, the query and the decoding error |
| SearchTool.RequestFailedAnswer | backend/tools/data_gathering.py:194-201 | a `RequestException` from the `try` block is answered by the search-error text with its message, or raises when that lookup raises |
| SearchTool.RequestErrorCarriesReason | backend/tools/data_gathering.py:198-199 | the search-error answer contains both the localized text and the exception's message |
| SearchTool.HitsLookupRaises | backend/tools/data_gathering.py:86-209 | a raising no-results lookup, or (with no summary) a raising results-prefix or caption lookup, is caught by `except Exception`: the answer is the unexpected-error text |
| SearchTool.FromItemsFails | backend/tools/data_gathering.py:86-165 | those raising lookups make the hits branch fail with a non-request exception |
| SearchTool.TryBlockHits | backend/tools/data_gathering.py:61-86 | under a non-error status with a decoded body, the `try` block's outcome is that of the hits branch |
| SearchTool.OtherFailureAnswer | backend/tools/data_gathering.py:202-209 | any non-request exception from the `try` block is answered by the unexpected-error text, or raises when that lookup raises |
| SearchTool.NeverRaises | backend/tools/data_gathering.py:21-209 | the tool never raises while its not-configured, search-error and unexpected-error lookups succeed: every failure path returns a localized diagnostic |
| SearchTool.BuiltinNeverRaises | backend/tools/data_gathering.py:21-209 | with the built-in tables the tool never raises, whatever the HTTP service, the summariser and the credentials do |
| SearchTool.RunTool | backend/tools/data_gathering.py:21-209 | the whole tool as written, for any 403 wording: normalisation, credential check, the `try` block and its two `except` branches |
| SearchTool.DataGatheringTool | backend/tools/data_gathering.py:10-209 | `data_gathering_tool` with the source's own 403 wording |
| SearchAgent.ProcessSearchResult | backend/agents/data_gathering_agent.py:64-99 | the reply changes iff the search result holds a trigger text and the marker and the reply lacks a section; then exactly a blank line and the section from the first marker are appended |
| SearchAgent.ReplyIsKept | backend/agents/data_gathering_agent.py:77-99 | the reply always heads the result; the only change is a blank line and a suffix of the search result |
| SearchAgent.NoTriggerUnchanged | backend/agents/data_gathering_agent.py:77 | without the link icon or a label in the search result, the reply is unchanged |
| SearchAgent.NoMarkerUnchanged | backend/agents/data_gathering_agent.py:79-97 | without the marker in the search result, the reply is unchanged |
| SearchAgent.SectionAppended | backend/agents/data_gathering_agent.py:79-95 | the section from the first marker to the end is appended exactly when the reply lacks the marker or both labels |
| SearchAgent.SectionStartsWithMarker | backend/agents/data_gathering_agent.py:79-81 | the extracted section starts with the marker |
| SearchAgent.Idempotent | backend/agents/data_gathering_agent.py:81-95 | a second pass adds nothing when the extracted section holds a label |
| SearchAgent.SectionMarks | backend/tools/data_gathering.py:171 | the tool's section holds the marker, and after it every label that its caption holds |
| SearchAgent.ToolSectionDetected | backend/agents/data_gathering_agent.py:77-81 | a text ending in the tool's section, under a caption holding a label, triggers the guard, holds the marker, and the guard extracts a section holding that label |
| SearchAgent.BuiltinCaptionsHoldLabels | backend/i18n.py:33 | both built-in captions hold the labels the guard looks for |
| SearchAgent.HitsDetected | backend/agents/data_gathering_agent.py:77-87 | every tool answer built from hits under a labelled caption is seen by the guard as carrying a section with a label |
| SearchAgent.BuiltinHitsDetectedEn | backend/agents/data_gathering_agent.py:77-87 | with the built-in English tables, every tool answer built from hits, summarised or not, is seen by the guard as carrying a section with a label |
| SearchAgent.BuiltinHitsDetectedJa | backend/agents/data_gathering_agent.py:77-87 | the same with the built-in Japanese tables |
| SearchAgent.ExecuteSearch | backend/agents/data_gathering_agent.py:19-61 | on return, `success` holds iff `error` is absent, iff `result` is present |
| SearchAgent.EmptyQueryMakesNoCall | backend/agents/data_gathering_agent.py:35-40 | an empty query does not depend on the tool; it fails with the query-not-specified message |
| SearchAgent.SearchSucceeds | backend/agents/data_gathering_agent.py:42-52 | a returning tool gives success with exactly its text |
| SearchAgent.SearchRaises | backend/agents/data_gathering_agent.py:53-61 | a raising tool gives failure with the search-error message formatted with the exception text |
| Moderator.FindLastUserMessage | backend/agents/moderator_agent_wrapper.backup.py:42-46 | the reversed loop finds the content of the participant turn nearest the end |
| Moderator.LastUserIsLatest | backend/agents/moderator_agent_wrapper.backup.py:42-46 | there is no such content iff no turn is a participant's; otherwise it is a participant turn with none after it |
| Moderator.UserMessages | backend/agents/moderator_agent_wrapper.backup.py:221 | the list comprehension keeps only participant turns |
| Moderator.LastOfUserMessages | backend/agents/moderator_agent_wrapper.backup.py:221-223 | the last of the kept turns is the one the reversed loop finds, and there are as many as the history's participant turns |
| Moderator.BuildContext | backend/agents/moderator_agent_wrapper.backup.py:81-112 | the context is built as the source builds it, the reminder added to the last entry's first part |
| Moderator.ContextShape | backend/agents/moderator_agent_wrapper.backup.py:81-112 | the context has one more entry than the history: the system prompt first, the converted turns in order, and the reminder joined onto the last turn's text |
| Moderator.QueryOf | backend/agents/moderator_agent_wrapper.backup.py:138-150 | the query is the `query` argument; it is empty when the argument is missing or the carrier cannot be read as a dictionary |
| Moderator.FoldResponseParts | backend/agents/moderator_agent_wrapper.backup.py:128-198 | the loop over the parts ends in the fold's state, or raises as the fold does |
| Moderator.TextsConcatenate | backend/agents/moderator_agent_wrapper.backup.py:196-198 | without calls, the texts of the parts are concatenated in order |
| Moderator.CallOverwrites | backend/agents/moderator_agent_wrapper.backup.py:149-195 | a search call replaces any text gathered before it with its own outcome, and sets the call flag |
| Moderator.OtherCallsAnswerNothing | backend/agents/moderator_agent_wrapper.backup.py:134-149 | a call to another function sets the call flag and adds no text |
| Moderator.FailedSearchAnswersError | backend/agents/moderator_agent_wrapper.backup.py:193-195 | a failed search answers exactly its error message |
| Moderator.SucceededSearchAnswers | backend/agents/moderator_agent_wrapper.backup.py:155-192 | after a successful search, whatever parts the second response carries, a non-empty `.text` has the links merged in and an empty one yields the raw search result |
| Moderator.TryReply | backend/agents/moderator_agent_wrapper.backup.py:35-207 | the outer `try` block as written: the opening message for an empty history or no participant turn, otherwise the model consultation |
| Moderator.HandleRaise | backend/agents/moderator_agent_wrapper.backup.py:209-232 | the `except` block as written: quote the latest participant turn, or the opening message without one |
| Moderator.Consult | backend/agents/moderator_agent_wrapper.backup.py:52-207 | the model consultation as written: the four lookups, the context, the call, the fold, the fallbacks |
| Moderator.AttemptConsults | backend/agents/moderator_agent_wrapper.backup.py:54-207 | once the lookups succeed, the answer is the fold of the model's first response and its fallbacks |
| Moderator.FailedModelEchoes | backend/agents/moderator_agent_wrapper.backup.py:115-205 | when the model call fails, the reply is the participant's latest turn |
| Moderator.Recover | backend/agents/moderator_agent_wrapper.backup.py:209-232 | the `except` block answers with a message of role `agent` |
| Moderator.RecoverQuotesParticipant | backend/agents/moderator_agent_wrapper.backup.py:221-227 | with a participant turn, the `except` block quotes the latest, even an empty one |
| Moderator.RecoverOpensWithoutParticipant | backend/agents/moderator_agent_wrapper.backup.py:228-232 | without a participant turn, the `except` block answers the opening message |
| Moderator.RaisedRecovers | backend/agents/moderator_agent_wrapper.backup.py:209-232 | any exception in the `try` block is answered by the `except` block |
| Moderator.ModeratorReply | backend/agents/moderator_agent_wrapper.backup.py:21-232 | every message `send` yields has role `agent` |
| Moderator.Send | backend/agents/moderator_agent_wrapper.backup.py:21-232 | `send` as written yields the one reply message, or the exception its handler raises |
| Moderator.EmptyHistoryOpens | backend/agents/moderator_agent_wrapper.backup.py:37-39 | an empty history answers the opening message without consulting the model or the tool |
| Moderator.NoParticipantOpens | backend/agents/moderator_agent_wrapper.backup.py:48-50 | with no participant turn, or an empty latest one, the reply is the opening message |
| Server.Broadcasting | backend/main.py:61-64 | a broadcast sends the text once to every connection, in list order |
| Server.RemoveFirstCuts | backend/main.py:58-59 | removal cuts out exactly the first equal socket; an absent socket leaves the list as it is |
| Server.RemoveFirstCounts | backend/main.py:58-59 | removing a present socket takes one copy of it away and keeps every other |
| Server.ConnectionManager.constructor | backend/main.py:51-52 | the manager starts with no connections |
| Server.ConnectionManager.Connect | backend/main.py:54-56 | the accepted socket joins at the end |
| Server.ConnectionManager.Disconnect | backend/main.py:58-59 | the first equal socket leaves; the call raises iff the socket was not in the list |
| Server.ConnectionManager.Broadcast | backend/main.py:61-64 | the loop sends the text to every connection in order |
| Server.FrameLanguage | backend/main.py:104-107 | a `LANG:` frame selects `ja` or `en` |
| Server.LanguageFrameSplits | backend/main.py:105 | a `LANG:` frame has a piece after its first colon: the first piece of what follows the colon |
| Server.LanguageFrame | backend/main.py:104-110 | a `LANG:` frame selects the language named up to the next colon (English when unsupported) and changes nothing else |
| Server.LanguageStaysSupported | backend/main.py:90-107 | a session's language stays `ja` or `en` |
| Server.Backend.constructor | backend/main.py:66-73 | the process starts with the seeded history, an empty ledger and no connections |
| Server.Backend.Open | backend/main.py:83-90 | a new connection joins the list, and its loop starts in English |
| Server.Backend.HandleFrame | backend/main.py:98-174 | one turn of the loop moves the backend to the state `Step` gives, and reports its sends and whether the loop goes on |
| Server.Backend.SubmitFrame | backend/main.py:112-154 | the rate-limit check and the rest of the turn for a content frame |
| Server.Backend.Relay | backend/main.py:129-163 | the moderator's turn: a non-empty reply is recorded and broadcast; an empty one adds nothing; a raising moderator gets the agent-error notice; the ledger is untouched |
| Server.Backend.AnnounceReply | backend/main.py:144-152 | a reply is broadcast signed, or the agent-error notice goes out when the prefix lookup raises |
| Server.Backend.AgentNotice | backend/main.py:156-165 | the agent-error notice goes to everyone, or nothing when its own lookup raises |
| Server.JoinChunks | backend/main.py:132-137 | the streamed reply is the chunks' non-empty contents in order |
| Server.JoinedAppend | backend/main.py:132-137 | splitting the stream anywhere splits the reply there |
| Server.JoinedEmpty | backend/main.py:132-144 | the reply is empty, and nothing is recorded, exactly when every chunk is empty |
| Server.RateLimit | backend/main.py:113-119 | a content frame is accepted iff the client's last accepted post is at least 3 seconds old, and then only the client's ledger entry changes; a rejected frame leaves history and ledger alone and sends at most the notice, to that socket only |
| Server.AcceptedFrame | backend/main.py:119-154 | an accepted frame records the participant's turn, is broadcast unchanged to every connection first, and adds the moderator's reply exactly when it is non-empty; then nothing more is sent for an empty reply, the signed reply (or the agent-error notice when the label lookup raises) for a non-empty one, and the agent-error notice when the moderator raised |
| Server.OneTurnPerAcceptedFrame | backend/main.py:123-124 | each accepted frame adds exactly one participant turn |
| Server.QuickSecondFrameRejected | backend/main.py:113-124 | two frames from one client under 3 seconds apart add one participant turn |
| Server.ReplySigning | backend/main.py:147-152 | a reply gets `<prefix>: ` exactly when it starts with neither the prefix nor one of the two signatures |

## Left out

- The LLM calls (`generate_content_async`, the summariser) are given functions. So is the HTTP search call (`requests.get`, with its status, error detail and decoded body). Their results are parameters.
- `str.format` in `get_message` is the uninterpreted `format` field of `Catalog`.
- The JSON message file `messages.json` is not part of this model. Its tables are a parameter of the merge. JSON values other than texts and tables are not modelled.
- The ambient language (`current_lang`, a `ContextVar`) is passed explicitly. The search tool receives the moderator's language.
- async generators and cooperative concurrency are not modelled:
  - `send` returns one message;
  - in main.py the moderator is an abstract stream of chunks, or an exception that escapes it;
  - interleaving and unsynchronised access between connections are out of scope.
- `time.time()` is a real-valued parameter of a turn.
- Socket send failures, logging, `print` and tracebacks are left out. FastAPI and uvicorn are left out too.
- The ADK agent declarations, backend/config.py, backend/adk_agents.py and the sentiment tool are left out. The live `agents/moderator_agent_wrapper.py` is not part of this model; the backup's logic is modelled.
- SearchAgent.ProcessSearchResult: the unused `lang` parameter of `process_search_result` is dropped.
- SearchTool.DataGatheringTool: the 403 wording is a `DeniedWording` parameter of the operations. The tool passes the source's texts (`SourceDenied`), and lemmas about the 403 branch hold for any wording. This keeps proofs that do not need those long texts smaller.
- SearchTool.DataGatheringTool: an undecodable response body is answered as a failed request, which is how `requests` 2.27 and later raise it (a `RequestException`). With older `requests` the decode error is a plain `ValueError` and reaches the unexpected-error branch (backend/tools/data_gathering.py:202-209); that version is not modelled.
- SearchTool.DataGatheringTool: a decoded body is an object whose `items` are objects with text fields, or lack `items`. Other JSON shapes are not modelled. A JSON array or string body that does not contain `"items"` passes the membership test at backend/tools/data_gathering.py:86 and gets the no-results answer. A number, `null` or boolean body, an array or string body that contains `"items"`, `"items": null` and an item that is not an object raise `TypeError` or `AttributeError` and reach the unexpected-error branch. Non-text field values are printed as Python renders them, such as `None`.
- I18n.Lookup: `format` is a total function, so a `str.format` that raises (a placeholder the arguments do not supply, a stray brace) is not modelled. That includes such a raise inside `send`'s `except` block, which would escape `send`.
- Server.Backend.HandleFrame: when the loop ends, the socket is removed if present. If `disconnect` raises again inside an outer handler (the socket is already gone), that second exception is not modelled.
- Server.Backend.HandleFrame: a turn receives a recorded frame. The receive call itself, and any exception from a socket send, are outside the model.
- Moderator.Send: the model's response is its first candidate's parts plus its `.text` accessor. Any other attribute access that could raise is not modelled.

## Notes

- With the built-in tables alone, `"moderator"` is a text, so every `moderator.<x>` lookup with a single segment `x` other than `moderator` raises inside `send` (all the keys `send` uses are such); see `I18n.BuiltinModeratorKeysRaise`. For those lookups to succeed, the JSON tables must make `moderator` a table. That shadows the label lookup `get_message(lang, "moderator")` used for the broadcast prefix (`I18n.ModeratorLabelShadowed`), and `I18n.ModeratorLabelLookup` gives the outcome: a language whose `moderator` is a table falls back to English, so the label is English's text while English's `moderator` is still a text (the built-in `(AI Moderator)`), and the key `"moderator"` itself only when English's `moderator` is a table too.
- The Japanese fallback answer writes the results prefix followed by `:`. The built-in prefix already ends in `:`, so the answer shows a doubled colon. The model keeps it as written.
- The digest's `for` loop and the `enumerate` loops are methods proved equal to the functions that define the digest and the section. The two textually identical section-building blocks of the source share one function, `ReferenceSection`.
