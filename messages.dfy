/** Conversion of the discussion history into the content list the LLM API expects. */
module Conversion {
  import opened Models

  /** Arguments carried by a function call: a mapping when the carrier could be
      turned into a dictionary, otherwise nothing usable. */
  datatype Args = Mapping(entries: map<string, string>) | Uncoercible

  /** One part of an LLM content entry. */
  datatype Part =
    | TextPart(text: string)
    | CallPart(name: string, args: Args)
    | ResponsePart(name: string, result: string)
    | EmptyPart

  /** One entry of the LLM conversation: a role and its parts. */
  datatype Content = Content(role: string, parts: seq<Part>)

  /** The role table of the conversion: agents speak as the model, everyone else as the user. */
  function ContentRole(role: string): (r: string)
    ensures r == "user" || r == "model"
    ensures r == "model" <==> role == "agent"
  {
    if role == "user" then "user"
    else if role == "agent" then "model"
    else if role == "system" then "user"
    else "user"
  }

  /** The entry one history message becomes. */
  function Convert(m: Message): Content {
    Content(ContentRole(m.role), [TextPart(m.content)])
  }

  /** The whole history, converted message by message. */
  function ToContent(history: seq<Message>): (c: seq<Content>)
    ensures |c| == |history|
  {
    seq(|history|, i requires 0 <= i < |history| => Convert(history[i]))
  }

  /** The loop of the source: one entry appended per message, in order. */
  method MessagesToContent(history: seq<Message>) returns (contents: seq<Content>)
    ensures contents == ToContent(history)
  {
    contents := [];
    for i := 0 to |history|
      invariant |contents| == i
      invariant forall k | 0 <= k < i :: contents[k] == Convert(history[k])
    {
      var role := ContentRole(history[i].role);
      contents := contents + [Content(role, [TextPart(history[i].content)])];
    }
  }

  /** Entry `i` stands for message `i`: same text, one part, mapped role. */
  lemma ToContentEntry(history: seq<Message>, i: nat)
    requires i < |history|
    ensures |ToContent(history)[i].parts| == 1
    ensures ToContent(history)[i].parts[0] == TextPart(history[i].content)
    ensures ToContent(history)[i].role == (if history[i].role == "agent" then "model" else "user")
  {
  }

  /** Converting a concatenation converts each half. */
  lemma ToContentAppend(a: seq<Message>, b: seq<Message>)
    ensures ToContent(a + b) == ToContent(a) + ToContent(b)
  {
    assert forall k | 0 <= k < |a + b| :: ToContent(a + b)[k] == (ToContent(a) + ToContent(b))[k];
  }
}
