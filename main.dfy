/** The WebSocket server: the list of open connections, and one turn of a
    connection's receive loop (language frames, the per-client rate limit, the
    shared history, the moderator's reply and its broadcast). The moderator is
    taken as a given function; sends are recorded as (socket, text) pairs. */
module Server {
  import opened Outcomes
  import opened Strings
  import opened Models
  import opened I18n

  /** A client connection: its identity and the host the client connected from, if known. */
  datatype Socket = Socket(id: nat, host: Option<string>)

  /** One `send_text` to one socket. */
  datatype Send = Send(target: Socket, text: string)

  /** The key of the rate limit: the client's host, or `"unknown"`. */
  function ClientKey(ws: Socket): string {
    if ws.host.Some? then ws.host.value else "unknown"
  }

  /** `list.remove(x)`: the list without the first element equal to `x`. */
  function RemoveFirst(s: seq<Socket>, x: Socket): seq<Socket> {
    if |s| == 0 then []
    else if s[0] == x then s[1..]
    else [s[0]] + RemoveFirst(s[1..], x)
  }

  /** What `broadcast(text)` sends: the text to every connection, in list order. */
  function Broadcasting(connections: seq<Socket>, text: string): (sends: seq<Send>)
    ensures |sends| == |connections|
    ensures forall i | 0 <= i < |sends| :: sends[i] == Send(connections[i], text)
  {
    seq(|connections|, i requires 0 <= i < |connections| => Send(connections[i], text))
  }

  /** The first index holding `x`. */
  function IndexOf(s: seq<Socket>, x: Socket): (i: nat)
    requires x in s
    ensures i < |s| && s[i] == x && x !in s[..i]
  {
    if s[0] == x then 0 else 1 + IndexOf(s[1..], x)
  }

  /** Removing cuts out exactly the first occurrence; an absent element changes nothing. */
  lemma {:induction false} RemoveFirstCuts(s: seq<Socket>, x: Socket)
    ensures x in s ==> RemoveFirst(s, x) == s[..IndexOf(s, x)] + s[IndexOf(s, x) + 1..]
    ensures x !in s ==> RemoveFirst(s, x) == s
  {
    if |s| > 0 && s[0] != x {
      RemoveFirstCuts(s[1..], x);
      if x in s {
        var i := IndexOf(s[1..], x);
        assert [s[0]] + s[1..][..i] == s[..i + 1];
        assert s[1..][i + 1..] == s[i + 2..];
      } else {
        assert [s[0]] + s[1..] == s;
      }
    }
  }

  /** Removing a present element takes one copy of it away and keeps every other. */
  lemma RemoveFirstCounts(s: seq<Socket>, x: Socket)
    requires x in s
    ensures multiset(RemoveFirst(s, x)) == multiset(s) - multiset{x}
    ensures |RemoveFirst(s, x)| == |s| - 1
  {
    RemoveFirstCuts(s, x);
    var i := IndexOf(s, x);
    var before, after := s[..i], s[i + 1..];
    assert s == before + [x] + after;
    assert multiset(s) == multiset(before) + multiset{x} + multiset(after);
    assert multiset(RemoveFirst(s, x)) == multiset(before) + multiset(after);
  }

  /** The shared list of open connections. */
  class ConnectionManager {
    var connections: seq<Socket>

    constructor()
      ensures connections == []
    {
      connections := [];
    }

    /** `connect`: the accepted socket joins at the end. */
    method Connect(ws: Socket)
      modifies this
      ensures connections == old(connections) + [ws]
    {
      connections := connections + [ws];
    }

    /** `disconnect`: the first equal socket leaves; an absent one is an error. */
    method Disconnect(ws: Socket) returns (r: Result<()>)
      modifies this
      ensures connections == RemoveFirst(old(connections), ws)
      ensures r.Ok? <==> ws in old(connections)
    {
      var i := 0;
      while i < |connections| && connections[i] != ws
        invariant 0 <= i <= |connections|
        invariant ws !in connections[..i]
      {
        assert connections[..i + 1] == connections[..i] + [connections[i]];
        i := i + 1;
      }
      RemoveFirstCuts(connections, ws);
      if i == |connections| {
        assert connections[..i] == connections;
        return Raised(Fault("list.remove(x): x not in list"));
      }
      connections := connections[..i] + connections[i + 1..];
      r := Ok(());
    }

    /** `broadcast(text)`: one send per connection, in list order. */
    method Broadcast(text: string) returns (sends: seq<Send>)
      ensures sends == Broadcasting(connections, text)
    {
      sends := [];
      for i := 0 to |connections|
        invariant sends == Broadcasting(connections[..i], text)
      {
        assert connections[..i + 1] == connections[..i] + [connections[i]];
        sends := sends + [Send(connections[i], text)];
      }
      assert connections[..|connections|] == connections;
    }
  }

  // ---------------------------------------------------------------------------
  // One turn of the receive loop

  /** `RATE_LIMIT_SECONDS`. */
  const RateLimitSeconds: real := 3.0

  /** What `receive_text` delivered: a text frame, or the client went away. */
  datatype Frame = TextFrame(data: string) | Closed

  /** The shared state: the history, the time of each client's last accepted post,
      and the open connections. */
  datatype World = World(history: seq<Message>, ledger: map<string, real>, connections: seq<Socket>)

  /** The state of one connection's loop: its socket and its language. */
  datatype Session = Session(socket: Socket, lang: string)

  /** What a turn did: the new shared state, the new session state, the sends in
      order, and whether the loop goes on. */
  datatype Effect = Effect(world: World, session: Session, sends: seq<Send>, open: bool)

  /** The moderator's `send(history, lang=lang)`: the chunks it yields, or the
      exception that escapes it (chunks yielded before an exception are lost with it). */
  type Agent = seq<Message> -> string -> Result<seq<Message>>

  /** The prefixes that mark a reply as already signed by the moderator. */
  const SignedJa: string := "（AI司会者）"
  const SignedEn: string := "(AI Moderator)"

  /** The language a `LANG:` frame selects: the text between its first and second
      colon, when it names a supported language. */
  function FrameLanguage(data: string): (lang: string)
    requires StartsWith(data, "LANG:")
    ensures lang == "ja" || lang == "en"
  {
    LanguageFrameSplits(data);
    var named := Split(data, ':')[1];
    if named == "ja" || named == "en" then named else "en"
  }

  /** A `LANG:` frame splits into the tag and at least one more piece: the first piece
      of what follows the colon. */
  lemma LanguageFrameSplits(data: string)
    requires StartsWith(data, "LANG:")
    ensures |Split(data, ':')| >= 2 && Split(data, ':')[1] == Split(data[5..], ':')[0]
  {
    assert data == "LANG" + [':'] + data[5..];
    SplitAtFirst("LANG", data[5..], ':');
  }

  /** The time of a client's last accepted post, 0 when it has posted nothing. */
  function LastPost(ledger: map<string, real>, key: string): real {
    if key in ledger then ledger[key] else 0.0
  }

  predicate Accepted(ledger: map<string, real>, key: string, now: real) {
    now - LastPost(ledger, key) >= RateLimitSeconds
  }

  /** The text broadcast for a reply: prefixed unless it already carries a signature. */
  function Signed(prefix: string, reply: string): string {
    if !StartsWith(reply, prefix) && !StartsWith(reply, SignedJa) && !StartsWith(reply, SignedEn)
    then prefix + ": " + reply
    else reply
  }

  /** `ai_response_content`: the contents of the chunks, in order. */
  function Joined(chunks: seq<Message>): string {
    if |chunks| == 0 then "" else Joined(chunks[..|chunks| - 1]) + chunks[|chunks| - 1].content
  }

  /** The inner `except`: the agent-error notice to everyone, or nothing when its
      lookup raises too. */
  function AgentError(connections: seq<Socket>, lang: string, cat: Catalog): seq<Send>
    requires Ready(cat)
  {
    var m := Lookup(cat, lang, "system.agent_error", NoArgs);
    if m.Ok? then Broadcasting(connections, m.value) else []
  }

  /** Step 6 for a non-empty reply: the reply is already recorded; it is broadcast
      signed, or the agent-error notice goes out when the prefix lookup raises. */
  function Announce(connections: seq<Socket>, lang: string, cat: Catalog, reply: string): seq<Send>
    requires Ready(cat)
  {
    match Lookup(cat, lang, "moderator", NoArgs)
    case Raised(_) => AgentError(connections, lang, cat)
    case Ok(prefix) => Broadcasting(connections, Signed(prefix, reply))
  }

  /** Steps 5 and 6: the history after the moderator's turn and what is broadcast; the
      history passed in already holds the participant's turn. */
  function Moderate(history: seq<Message>, connections: seq<Socket>, lang: string, cat: Catalog, agent: Agent)
    : (seq<Message>, seq<Send>)
    requires Ready(cat)
  {
    match agent(history)(lang)
    case Raised(_) => (history, AgentError(connections, lang, cat))
    case Ok(chunks) =>
      var reply := Joined(chunks);
      if reply == "" then (history, [])
      else (history + [Message(reply, "agent")], Announce(connections, lang, cat, reply))
  }

  /** The loop ends: the socket leaves the list (an absent socket leaves it as it is). */
  function Hangup(w: World, s: Session, sends: seq<Send>): Effect {
    Effect(w.(connections := RemoveFirst(w.connections, s.socket)), s, sends, false)
  }

  /** Steps 3 to 6 for a frame that passed the rate limit. */
  function Admit(w: World, s: Session, data: string, now: real, cat: Catalog, agent: Agent): Effect
    requires Ready(cat)
  {
    var history := w.history + [Message(data, "user")];
    var raw := Broadcasting(w.connections, data);
    var (recorded, replies) := Moderate(history, w.connections, s.lang, cat, agent);
    Effect(World(recorded, w.ledger[ClientKey(s.socket) := now], w.connections), s, raw + replies, true)
  }

  /** Step 2 and on, for a frame that is not a language frame: a frame too soon after
      the client's last accepted one gets the notice, sent to that socket alone; when
      the notice's lookup raises, the loop ends. */
  function Submit(w: World, s: Session, data: string, now: real, cat: Catalog, agent: Agent): Effect
    requires Ready(cat)
  {
    if Accepted(w.ledger, ClientKey(s.socket), now) then Admit(w, s, data, now, cat, agent)
    else
      match Lookup(cat, s.lang, "system.rate_limit", NoArgs)
      case Ok(notice) => Effect(w, s, [Send(s.socket, notice)], true)
      case Raised(_) => Hangup(w, s, [])
  }

  /** One turn of the receive loop of `websocket_endpoint`. */
  function Step(w: World, s: Session, frame: Frame, now: real, cat: Catalog, agent: Agent): Effect
    requires Ready(cat)
  {
    match frame
    case Closed => Hangup(w, s, [])
    case TextFrame(data) =>
      if StartsWith(data, "LANG:") then Effect(w, s.(lang := FrameLanguage(data)), [], true)
      else Submit(w, s, data, now, cat, agent)
  }

  /** The process-wide state of the server: the shared history, the rate-limit
      ledger and the connection manager. */
  class Backend {
    var history: seq<Message>
    var ledger: map<string, real>
    const manager: ConnectionManager

    constructor()
      ensures history == SeedHistory() && ledger == map[]
      ensures fresh(manager) && manager.connections == []
    {
      history := SeedHistory();
      ledger := map[];
      manager := new ConnectionManager();
    }

    function State(): World
      reads this, manager
    {
      World(history, ledger, manager.connections)
    }

    /** The backend now holds the world of `e`, and the turn reported `e`. */
    predicate Did(e: Effect, next: Session, sends: seq<Send>, open: bool)
      reads this, manager
    {
      State() == e.world && next == e.session && sends == e.sends && open == e.open
    }

    /** The start of `websocket_endpoint`: the socket joins, the language is English. */
    method Open(ws: Socket) returns (s: Session)
      modifies manager
      ensures manager.connections == old(manager.connections) + [ws]
      ensures s == Session(ws, "en")
    {
      manager.Connect(ws);
      s := Session(ws, "en");
    }

    /** One turn of the receive loop as written. */
    method HandleFrame(s: Session, frame: Frame, now: real, cat: Catalog, agent: Agent)
      returns (next: Session, sends: seq<Send>, open: bool)
      requires Ready(cat)
      modifies this, manager
      ensures Did(Step(old(State()), s, frame, now, cat, agent), next, sends, open)
    {
      if frame.Closed? {
        var _ := manager.Disconnect(s.socket);
        return s, [], false;
      }
      var data := frame.data;
      if StartsWith(data, "LANG:") {
        LanguageFrameSplits(data);
        var lang := Split(data, ':')[1];
        if lang != "ja" && lang != "en" {
          lang := "en";
        }
        return s.(lang := lang), [], true;
      }
      next, sends, open := SubmitFrame(s, data, now, cat, agent);
    }

    /** The rate-limit check of a content frame, then the rest of the turn. */
    method SubmitFrame(s: Session, data: string, now: real, cat: Catalog, agent: Agent)
      returns (next: Session, sends: seq<Send>, open: bool)
      requires Ready(cat)
      modifies this, manager
      ensures Did(Submit(old(State()), s, data, now, cat, agent), next, sends, open)
    {
      var key := ClientKey(s.socket);
      var lastPost := if key in ledger then ledger[key] else 0.0;
      if now - lastPost < RateLimitSeconds {
        var notice := Lookup(cat, s.lang, "system.rate_limit", NoArgs);
        if notice.Raised? {
          var _ := manager.Disconnect(s.socket);
          return s, [], false;
        }
        return s, [Send(s.socket, notice.value)], true;
      }
      ledger := ledger[key := now];
      history := history + [Message(data, "user")];
      sends := manager.Broadcast(data);
      var replies := Relay(s.lang, cat, agent);
      return s, sends + replies, true;
    }

    /** Steps 5 and 6: call the moderator on the history, record and broadcast its reply. */
    method Relay(lang: string, cat: Catalog, agent: Agent) returns (sends: seq<Send>)
      requires Ready(cat)
      modifies this
      ensures (history, sends) == Moderate(old(history), manager.connections, lang, cat, agent)
      ensures ledger == old(ledger)
    {
      var stream := agent(history)(lang);
      if stream.Raised? {
        sends := AgentNotice(lang, cat);
        return;
      }
      var reply := JoinChunks(stream.value);
      sends := [];
      if reply != "" {
        history := history + [Message(reply, "agent")];
        sends := AnnounceReply(lang, cat, reply);
      }
    }

    /** Step 6 for a non-empty reply: sign it unless it already is, and broadcast it. */
    method AnnounceReply(lang: string, cat: Catalog, reply: string) returns (sends: seq<Send>)
      requires Ready(cat)
      ensures sends == Announce(manager.connections, lang, cat, reply)
    {
      var prefix := Lookup(cat, lang, "moderator", NoArgs);
      if prefix.Raised? {
        sends := AgentNotice(lang, cat);
        return;
      }
      var text := reply;
      if !StartsWith(reply, prefix.value) && !StartsWith(reply, SignedJa) && !StartsWith(reply, SignedEn) {
        text := prefix.value + ": " + reply;
      }
      sends := manager.Broadcast(text);
    }

    /** The inner `except` block: the agent-error notice to everyone. */
    method AgentNotice(lang: string, cat: Catalog) returns (sends: seq<Send>)
      requires Ready(cat)
      ensures sends == AgentError(manager.connections, lang, cat)
    {
      var m := Lookup(cat, lang, "system.agent_error", NoArgs);
      sends := [];
      if m.Ok? {
        sends := manager.Broadcast(m.value);
      }
    }
  }

  /** The `async for` over the chunks: the non-empty contents appended in order. */
  method JoinChunks(chunks: seq<Message>) returns (content: string)
    ensures content == Joined(chunks)
  {
    content := "";
    for i := 0 to |chunks|
      invariant content == Joined(chunks[..i])
    {
      assert chunks[..i + 1][..i] == chunks[..i];
      if chunks[i].content != "" {
        content := content + chunks[i].content;
      } else {
        assert content + chunks[i].content == content;
      }
    }
    assert chunks[..|chunks|] == chunks;
  }

  // ---------------------------------------------------------------------------
  // Properties of a turn

  /** The reply is the chunks' contents one after another: splitting the stream
      anywhere splits the reply there. */
  lemma {:induction false} JoinedAppend(a: seq<Message>, b: seq<Message>)
    ensures Joined(a + b) == Joined(a) + Joined(b)
    decreases |b|
  {
    if |b| > 0 {
      var b0 := b[..|b| - 1];
      assert (a + b)[..|a + b| - 1] == a + b0;
      JoinedAppend(a, b0);
    } else {
      assert a + b == a;
    }
  }

  /** The reply is empty exactly when every chunk is empty. */
  lemma {:induction false} JoinedEmpty(chunks: seq<Message>)
    ensures Joined(chunks) == "" <==> forall i | 0 <= i < |chunks| :: chunks[i].content == ""
  {
    if |chunks| > 0 {
      var init := chunks[..|chunks| - 1];
      JoinedEmpty(init);
      assert forall i | 0 <= i < |init| :: init[i] == chunks[i];
    }
  }

  /** The language of a session is always Japanese or English. */
  lemma LanguageStaysSupported(w: World, s: Session, frame: Frame, now: real, cat: Catalog, agent: Agent)
    requires Ready(cat) && (s.lang == "ja" || s.lang == "en")
    ensures var l := Step(w, s, frame, now, cat, agent).session.lang; l == "ja" || l == "en"
  {
  }

  /** A `LANG:` frame selects the language named before the next colon, English when
      it names another, and changes nothing else. */
  lemma LanguageFrame(w: World, s: Session, named: string, rest: string, now: real, cat: Catalog, agent: Agent)
    requires Ready(cat) && ':' !in named
    ensures var e := Step(w, s, TextFrame("LANG:" + named + rest), now, cat, agent);
            && (rest == "" || rest[0] == ':' ==> e.session.lang == (if named == "ja" || named == "en" then named else "en"))
            && e.world == w && e.sends == [] && e.open && e.session.socket == s.socket
  {
    var data := "LANG:" + named + rest;
    assert StartsWith(data, "LANG:");
    assert data[5..] == named + rest;
    LanguageFrameSplits(data);
    if rest == "" {
      assert named + rest == named;
      SplitWhole(named, ':');
    } else if rest[0] == ':' {
      assert named + rest == named + [':'] + rest[1..];
      SplitAtFirst(named, rest[1..], ':');
    }
  }

  /** A content frame is accepted exactly when the client's last accepted post is at
      least three seconds old; a rejected one leaves the history and the ledger as they
      were and sends at most the notice, to that socket only. */
  lemma RateLimit(w: World, s: Session, data: string, now: real, cat: Catalog, agent: Agent)
    requires Ready(cat) && !StartsWith(data, "LANG:")
    ensures var e := Step(w, s, TextFrame(data), now, cat, agent);
            var key := ClientKey(s.socket);
            && (Accepted(w.ledger, key, now) ==> e.world.ledger == w.ledger[key := now] && e.open)
            && (!Accepted(w.ledger, key, now) ==>
                  && e.world.history == w.history && e.world.ledger == w.ledger
                  && (e.open ==> e.world == w && e.sends == [Send(s.socket, Lookup(cat, s.lang, "system.rate_limit", NoArgs).value)])
                  && (!e.open ==> e.sends == []))
  {
  }

  /** An accepted frame adds the participant's turn, then the moderator's reply unless
      it is empty or the moderator raised, and is first broadcast unchanged to every
      connection. After that: nothing for an empty reply; the signed reply, or the
      agent-error notice when the label lookup raises, for a non-empty one; the
      agent-error notice when the moderator raised. */
  lemma AcceptedFrame(w: World, s: Session, data: string, now: real, cat: Catalog, agent: Agent)
    requires Ready(cat) && !StartsWith(data, "LANG:") && Accepted(w.ledger, ClientKey(s.socket), now)
    ensures var e := Step(w, s, TextFrame(data), now, cat, agent);
            var h := w.history + [Message(data, "user")];
            var stream := agent(h)(s.lang);
            var prefix := Lookup(cat, s.lang, "moderator", NoArgs);
            && e.world.connections == w.connections && e.open
            && |w.connections| <= |e.sends|
            && e.sends[..|w.connections|] == Broadcasting(w.connections, data)
            && (if stream.Ok? && Joined(stream.value) != ""
                then e.world.history == h + [Message(Joined(stream.value), "agent")]
                else e.world.history == h)
            && (stream.Raised? ==> e.sends == Broadcasting(w.connections, data) + AgentError(w.connections, s.lang, cat))
            && (stream.Ok? && Joined(stream.value) == "" ==> e.sends == Broadcasting(w.connections, data))
            && (stream.Ok? && Joined(stream.value) != "" && prefix.Ok? ==>
                  e.sends == Broadcasting(w.connections, data) + Broadcasting(w.connections, Signed(prefix.value, Joined(stream.value))))
            && (stream.Ok? && Joined(stream.value) != "" && prefix.Raised? ==>
                  e.sends == Broadcasting(w.connections, data) + AgentError(w.connections, s.lang, cat))
  {
    var h := w.history + [Message(data, "user")];
    var raw := Broadcasting(w.connections, data);
    var m := Moderate(h, w.connections, s.lang, cat, agent);
    assert (raw + m.1)[..|raw|] == raw;
  }

  /** A reply is broadcast with the moderator's prefix exactly when it does not already
      start with the prefix or one of the two signatures. */
  lemma ReplySigning(prefix: string, reply: string)
    ensures StartsWith(reply, prefix) || StartsWith(reply, SignedJa) || StartsWith(reply, SignedEn) ==> Signed(prefix, reply) == reply
    ensures !StartsWith(reply, prefix) && !StartsWith(reply, SignedJa) && !StartsWith(reply, SignedEn) ==>
              Signed(prefix, reply) == prefix + ": " + reply && StartsWith(Signed(prefix, reply), prefix)
  {
  }

  /** Each accepted frame adds exactly one participant turn. */
  lemma OneTurnPerAcceptedFrame(w: World, s: Session, data: string, now: real, cat: Catalog, agent: Agent)
    requires Ready(cat) && !StartsWith(data, "LANG:") && Accepted(w.ledger, ClientKey(s.socket), now)
    ensures UserTurns(Step(w, s, TextFrame(data), now, cat, agent).world.history) == UserTurns(w.history) + 1
  {
    var h := w.history + [Message(data, "user")];
    assert h[..|h| - 1] == w.history;
    var e := Step(w, s, TextFrame(data), now, cat, agent);
    AcceptedFrame(w, s, data, now, cat, agent);
    if e.world.history != h {
      var h2 := e.world.history;
      assert h2[..|h2| - 1] == h;
    }
  }

  /** Two content frames from one client less than three seconds apart: the second is
      turned away, so the pair adds one participant turn. */
  lemma QuickSecondFrameRejected(w: World, s: Session, a: string, b: string, now: real, later: real, cat: Catalog, agent: Agent)
    requires Ready(cat) && !StartsWith(a, "LANG:") && !StartsWith(b, "LANG:")
    requires Accepted(w.ledger, ClientKey(s.socket), now) && now <= later < now + RateLimitSeconds
    ensures var e1 := Step(w, s, TextFrame(a), now, cat, agent);
            var e2 := Step(e1.world, e1.session, TextFrame(b), later, cat, agent);
            e2.world.history == e1.world.history && UserTurns(e2.world.history) == UserTurns(w.history) + 1
  {
    OneTurnPerAcceptedFrame(w, s, a, now, cat, agent);
  }

  /** The seeded history holds no participant turn. */
  lemma SeedHasNoParticipant()
    ensures UserTurns(SeedHistory()) == 0
  {
    assert SeedHistory()[..0] == [];
  }
}
