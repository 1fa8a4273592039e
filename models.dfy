/** The conversation record shared by every component. */
module Models {

  /** One turn of a discussion: its text and the role that produced it
      (`"user"`, `"agent"` or `"system"`; the source does not restrict it). */
  datatype Message = Message(content: string, role: string)

  /** The text of the system turn that seeds the shared history. */
  const DiscussionStarted: string := "（システム）議論を開始します。"

  /** The history every discussion starts from: one system turn. */
  function SeedHistory(): (h: seq<Message>)
    ensures |h| == 1 && h[0].role == "system" && h[0].content == DiscussionStarted
  {
    [Message(DiscussionStarted, "system")]
  }

  /** Number of turns posted by participants. */
  function UserTurns(h: seq<Message>): nat {
    if |h| == 0 then 0
    else UserTurns(h[..|h| - 1]) + (if h[|h| - 1].role == "user" then 1 else 0)
  }
}
