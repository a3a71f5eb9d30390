/**
 * The chat panel of a live class (`ClassRoomDetail.jsx`): the client-side
 * moderation pre-check, the address of the class's realtime channel, the
 * handling of inbound frames and the guarded send of an outbound frame.
 * The socket is abstracted to its `readyState` and the list of frames sent on
 * it; inbound frames arrive already parsed, with `Malformed` standing for a
 * frame whose JSON could not be parsed or inspected.
 */
module ChatClient {
  import opened Wrappers
  import opened JsString

  /** The denylist the client checks before sending. */
  const Banned: seq<string> := ["offensiveword1", "offensiveword2"]

  /** `containsBanned(text)`: absent or empty text is never blocked; otherwise some term occurs in the lower-cased text. */
  function ContainsBanned(text: Option<string>): (r: bool)
    ensures text == None || text == Some("") ==> !r
  {
    if text.None? || text.value == "" then false
    else
      var lower := Lower(text.value);
      exists b :: b in Banned && Includes(lower, b)
  }

  /** Text is blocked exactly when some denylist term occurs in its lower-cased form. */
  lemma ContainsBannedIffSubstring(t: string)
    ensures ContainsBanned(Some(t)) <==> exists b :: b in Banned && IsSubstring(b, Lower(t))
  {
    forall b | b in Banned
      ensures Includes(Lower(t), b) <==> IsSubstring(b, Lower(t))
    {
      IncludesIsSubstring(Lower(t), b);
    }
  }

  /** A denylist term written in any letter-casing, anywhere in the text, blocks it. */
  lemma BannedTermInAnyCasing(t: string, b: string, i: nat)
    requires b in Banned
    requires i + |b| <= |t| && Lower(t[i..i + |b|]) == b
    ensures ContainsBanned(Some(t))
  {
    LowerSlice(t, i, i + |b|);
    assert OccursAt(b, Lower(t), i);
    IncludesIsSubstring(Lower(t), b);
  }

  /** Two texts that differ only in the case of their letters are both blocked or both allowed. */
  lemma ContainsBannedIgnoresCase(s: string, t: string)
    requires Lower(s) == Lower(t)
    ensures ContainsBanned(Some(s)) == ContainsBanned(Some(t))
  {
  }

  // ---------------------------------------------------------------------------
  // The channel address

  /** Used when neither `VITE_API_WS` nor `VITE_API_URL` is set. */
  const DefaultBase := "http://127.0.0.1:8000"

  /** JavaScript truthiness of an optional string: present and not empty. */
  predicate Truthy(v: Option<string>)
  {
    v.Some? && v.value != ""
  }

  /** `VITE_API_WS || VITE_API_URL || DefaultBase`: the first truthy value, so never empty. */
  function ResolveBase(apiWs: Option<string>, apiUrl: Option<string>): (base: string)
    ensures base != ""
    ensures Truthy(apiWs) ==> base == apiWs.value
    ensures !Truthy(apiWs) && Truthy(apiUrl) ==> base == apiUrl.value
    ensures !Truthy(apiWs) && !Truthy(apiUrl) ==> base == DefaultBase
  {
    if Truthy(apiWs) then apiWs.value
    else if Truthy(apiUrl) then apiUrl.value
    else DefaultBase
  }

  /** The secure realtime scheme exactly for a base that starts with `https`. */
  function WsScheme(base: string): (scheme: string)
    ensures scheme == "wss" <==> StartsWith(base, "https")
    ensures scheme == "wss" || scheme == "ws"
  {
    if StartsWith(base, "https") then "wss" else "ws"
  }

  /** `base.replace(/^https?:\/\//, "")`: one leading `http://` or `https://` removed, the rest unchanged. */
  function WsHost(base: string): (host: string)
    ensures StartsWith(base, "http://") ==> base == "http://" + host
    ensures StartsWith(base, "https://") ==> base == "https://" + host
    ensures !StartsWith(base, "http://") && !StartsWith(base, "https://") ==> host == base
  {
    assert StartsWith(base, "http://") ==> base[4] == ':';
    assert StartsWith(base, "https://") ==> base[4] == 's';
    if StartsWith(base, "http://") then base[7..]
    else if StartsWith(base, "https://") then base[8..]
    else base
  }

  /** The path of a class's channel. */
  function WsPath(classId: string): string
  {
    "/ws/live-class/" + classId + "/"
  }

  /** The channel URL for the class whose id renders as `classId`. */
  function WsUrl(base: string, classId: string): string
  {
    WsScheme(base) + "://" + WsHost(base) + WsPath(classId)
  }

  /** For an `http://` or `https://` base the URL is the base with its leading `http` replaced by `ws`, then the path. */
  lemma WsUrlReplacesHttpWithWs(base: string, classId: string)
    requires StartsWith(base, "http://") || StartsWith(base, "https://")
    ensures WsUrl(base, classId) == "ws" + base[4..] + WsPath(classId)
  {
    var host := WsHost(base);
    if StartsWith(base, "http://") {
      assert base == "http://" + host;
      assert !StartsWith(base, "https") by {
        assert base[4] == ':';
      }
      assert base[4..] == "://" + host;
    } else {
      assert base == "https://" + host;
      assert StartsWith(base, "https") by {
        assert base[..5] == ("https://" + host)[..5];
      }
      assert base[4..] == "s://" + host;
    }
  }

  /** Any other base (a `ws://` or `wss://` address included) is kept whole behind an insecure `ws://`. */
  lemma WsUrlOfOtherBase(base: string, classId: string)
    requires !StartsWith(base, "http")
    ensures WsUrl(base, classId) == "ws://" + base + WsPath(classId)
  {
    StartsWithConcat(base, "http", "://");
    StartsWithConcat(base, "http", "s://");
    StartsWithConcat(base, "http", "s");
  }

  /** The position of the first `/` in `s`, or `|s|` when there is none. */
  function FirstSlash(s: string): (k: nat)
    ensures k <= |s|
    ensures forall i :: 0 <= i < k ==> s[i] != '/'
    ensures k < |s| ==> s[k] == '/'
  {
    if s == [] || s[0] == '/' then 0 else 1 + FirstSlash(s[1..])
  }

  /** When `b` starts with `/`, the first `/` of `a + b` is the first `/` of `a`, or the start of `b`. */
  lemma FirstSlashBefore(a: string, b: string)
    requires b != [] && b[0] == '/'
    ensures FirstSlash(a + b) == FirstSlash(a)
  {
    var j := FirstSlash(a);
    var k := FirstSlash(a + b);
    assert (a + b)[j] == '/';
  }

  /** The path the base carries after its host and port: empty when it has none, and starting with `/` otherwise. */
  function BasePath(base: string): string
  {
    WsHost(base)[FirstSlash(WsHost(base))..]
  }

  /** A character the URL parser keeps as it is in a host name or a port. */
  predicate AuthorityChar(c: char)
  {
    ('a' <= c <= 'z') || ('A' <= c <= 'Z') || ('0' <= c <= '9') || c == '.' || c == '-' || c == ':'
  }

  /**
   * A character the URL parser keeps as it is in a path: printable ASCII other
   * than `?` and `#` (which end the path), `\` (which it reads as `/`), `%`
   * (an escape) and `.` (which can form a `.` or `..` segment it resolves).
   */
  predicate PathChar(c: char)
  {
    32 < c as int < 127 && c != '?' && c != '#' && c != '\\' && c != '%' && c != '.'
  }

  /**
   * A base whose channel URL the browser splits as `ChannelPath` reads it: a
   * non-empty host and port made of host-name characters, then a path the
   * parser keeps literally.
   */
  predicate LiteralBase(base: string)
  {
    var host := WsHost(base);
    && 0 < FirstSlash(host)
    && (forall i :: 0 <= i < FirstSlash(host) ==> AuthorityChar(host[i]))
    && (forall i :: FirstSlash(host) <= i < |host| ==> PathChar(host[i]))
  }

  /**
   * The request path of a WebSocket connection to `WsUrl(base, classId)`, read
   * literally: everything from the first `/` after `scheme://`. It is the path
   * the browser requests for a `LiteralBase`.
   */
  function ChannelPath(base: string, classId: string): (p: string)
    ensures p != [] && p[0] == '/'
  {
    var rest := WsUrl(base, classId)[|WsScheme(base)| + 3..];
    assert rest == WsHost(base) + WsPath(classId);
    assert rest[|WsHost(base)|] == '/';
    rest[FirstSlash(rest)..]
  }

  /** The request path is whatever path the base carries after its host, then the channel path. */
  lemma ChannelPathShape(base: string, classId: string)
    ensures ChannelPath(base, classId) == BasePath(base) + WsPath(classId)
  {
    var host := WsHost(base);
    var rest := WsUrl(base, classId)[|WsScheme(base)| + 3..];
    assert rest == host + WsPath(classId);
    FirstSlashBefore(host, WsPath(classId));
    assert rest[FirstSlash(host)..] == host[FirstSlash(host)..] + WsPath(classId);
  }

  /** The panel asks for exactly `/ws/live-class/<id>/` iff the configured base has no path after its host. */
  lemma ChannelPathIff(base: string, classId: string)
    ensures ChannelPath(base, classId) == WsPath(classId) <==> '/' !in WsHost(base)
  {
    var host := WsHost(base);
    ChannelPathShape(base, classId);
    if '/' in host {
      var i :| 0 <= i < |host| && host[i] == '/';
      assert FirstSlash(host) <= i;
      assert |host[FirstSlash(host)..] + WsPath(classId)| > |WsPath(classId)|;
    } else {
      assert host[FirstSlash(host)..] == [];
    }
  }

  // ---------------------------------------------------------------------------
  // Inbound frames

  /** A parsed inbound frame, by its `type` tag. */
  datatype Inbound =
    | ChatMessage(user: string, content: string)
    | ModerationRejected(message: string)
    | OtherType(tag: string)
    | Malformed

  /** A frame together with the clock reading (`Date.now()`) when it was handled. */
  datatype Arrival = Arrival(frame: Inbound, at: int)

  /** One line of the chat log; `id` is the clock reading at arrival. */
  datatype ChatEntry = ChatEntry(user: string, content: string, id: int)

  /** The log after one frame: a chat message is appended at the end, every other frame leaves it alone. */
  function Receive(log: seq<ChatEntry>, a: Arrival): (r: seq<ChatEntry>)
    ensures a.frame.ChatMessage? ==> |r| == |log| + 1 && r[..|log|] == log
    ensures a.frame.ChatMessage? ==> r[|log|] == ChatEntry(a.frame.user, a.frame.content, a.at)
    ensures !a.frame.ChatMessage? ==> r == log
  {
    match a.frame
    case ChatMessage(user, content) => log + [ChatEntry(user, content, a.at)]
    case _ => log
  }

  /** The notification a frame raises: only a moderation rejection raises one, showing its message. */
  function AlertFor(f: Inbound): (r: seq<string>)
    ensures r != [] <==> f.ModerationRejected?
    ensures f.ModerationRejected? ==> r == [f.message]
  {
    if f.ModerationRejected? then [f.message] else []
  }

  /** The log after a run of frames, handled one at a time in arrival order. */
  function ReceiveAll(log: seq<ChatEntry>, arrivals: seq<Arrival>): seq<ChatEntry>
    decreases |arrivals|
  {
    if arrivals == [] then log else ReceiveAll(Receive(log, arrivals[0]), arrivals[1..])
  }

  /** The entries of the chat frames of a run, in arrival order. */
  function ChatEntries(arrivals: seq<Arrival>): seq<ChatEntry>
    decreases |arrivals|
  {
    if arrivals == [] then []
    else
      var head := if arrivals[0].frame.ChatMessage?
        then [ChatEntry(arrivals[0].frame.user, arrivals[0].frame.content, arrivals[0].at)]
        else [];
      head + ChatEntries(arrivals[1..])
  }

  /** A run of frames extends the log by exactly its chat messages, in the order they arrived. */
  lemma {:induction false} ReceiveAllAppendsInOrder(log: seq<ChatEntry>, arrivals: seq<Arrival>)
    ensures ReceiveAll(log, arrivals) == log + ChatEntries(arrivals)
    decreases |arrivals|
  {
    if arrivals != [] {
      ReceiveAllAppendsInOrder(Receive(log, arrivals[0]), arrivals[1..]);
    }
  }

  // ---------------------------------------------------------------------------
  // Sending

  /** The WebSocket `readyState` values. */
  datatype ReadyState = Connecting | Open | Closing | Closed

  /** The position of a ready state in the socket's life: a socket only moves forward through them. */
  function Stage(s: ReadyState): nat
  {
    match s
    case Connecting => 0
    case Open => 1
    case Closing => 2
    case Closed => 3
  }

  /** `{ message, user, type }`; `kind` holds the `type` field. */
  datatype Outbound = Outbound(message: string, user: int, kind: string)

  /** How `sendMessage` ends. */
  datatype SendOutcome = Blank | Blocked | NotConnected | Sent

  const BlockedNotice := "Message blocked by moderation"
  const NotConnectedNotice := "Not connected"

  /** The guards of `sendMessage`, in the order the source checks them. */
  function SendDecision(input: string, state: ReadyState): SendOutcome
  {
    if Trim(input) == "" then Blank
    else if ContainsBanned(Some(input)) then Blocked
    else if state == Open then Sent
    else NotConnected
  }

  /** The notice each outcome shows: a blank input is dropped silently, a sent frame shows nothing. */
  function NoticeFor(outcome: SendOutcome): (r: seq<string>)
    ensures r != [] <==> outcome == Blocked || outcome == NotConnected
    ensures outcome == Blocked ==> r == [BlockedNotice]
    ensures outcome == NotConnected ==> r == [NotConnectedNotice]
  {
    match outcome
    case Blocked => [BlockedNotice]
    case NotConnected => [NotConnectedNotice]
    case _ => []
  }

  /** A frame goes out exactly when the input is not blank, passes the filter and the socket is open. */
  lemma SendDecisionSentIff(input: string, state: ReadyState)
    ensures SendDecision(input, state) == Sent <==> !IsBlank(input) && !ContainsBanned(Some(input)) && state == Open
    ensures SendDecision(input, state) == Blank <==> IsBlank(input)
    ensures SendDecision(input, state) == Blocked <==> !IsBlank(input) && ContainsBanned(Some(input))
  {
    TrimEmptyIffBlank(input);
  }

  /** Once the socket is closing or closed, which it is for good after unmounting, nothing is sent. */
  lemma NoSendOnceClosing(input: string, state: ReadyState)
    requires Stage(state) >= 2
    ensures SendDecision(input, state) != Sent
  {
  }

  /** A message containing a denylist term in any letter case is blocked, whatever the connection state. */
  lemma BannedTermBlocksSend(t: string, b: string, i: nat, state: ReadyState)
    requires b in Banned
    requires i + |b| <= |t| && Lower(t[i..i + |b|]) == b
    ensures SendDecision(t, state) == Blocked
  {
    assert b[0] == 'o';
    assert LowerChar(t[i]) == 'o' by {
      assert Lower(t[i..i + |b|])[0] == LowerChar(t[i..i + |b|][0]);
    }
    assert !IsWhitespace(t[i]);
    TrimEmptyIffBlank(t);
    BannedTermInAnyCasing(t, b, i);
  }

  /** The state of one mounted chat panel. */
  class ChatSession {
    const userId: int
    const url: string
    var readyState: ReadyState
    var messages: seq<ChatEntry>
    var input: string
    var sent: seq<Outbound>
    var alerts: seq<string>

    /** Mounting: the connection to the derived URL is opening, the log and the input are empty. */
    constructor (apiWs: Option<string>, apiUrl: Option<string>, classId: string, userId: int)
      ensures this.userId == userId && url == WsUrl(ResolveBase(apiWs, apiUrl), classId)
      ensures readyState == Connecting
      ensures messages == [] && input == "" && sent == [] && alerts == []
    {
      this.userId := userId;
      url := WsUrl(ResolveBase(apiWs, apiUrl), classId);
      readyState := Connecting;
      messages, input, sent, alerts := [], "", [], [];
    }

    /** Typing into the input box. */
    method SetInput(text: string)
      modifies this`input
      ensures input == text
    {
      input := text;
    }

    /** `onmessage`: the log follows `Receive`, a moderation rejection raises its notice, nothing else changes. */
    method OnMessage(a: Arrival)
      modifies this`messages, this`alerts
      ensures messages == Receive(old(messages), a)
      ensures alerts == old(alerts) + AlertFor(a.frame)
    {
      match a.frame {
        case ChatMessage(user, content) =>
          messages := messages + [ChatEntry(user, content, a.at)];
        case ModerationRejected(message) =>
          alerts := alerts + [message];
        case OtherType(_) =>
        case Malformed =>
      }
    }

    /**
     * `sendMessage`: on success exactly one frame carrying the untrimmed input
     * is sent and the input is cleared; otherwise nothing is sent and the input
     * stays. The log is never touched: sent text appears only when the server
     * echoes it back.
     */
    method SendMessage() returns (outcome: SendOutcome)
      modifies this`input, this`sent, this`alerts
      ensures outcome == SendDecision(old(input), readyState)
      ensures outcome == Sent ==> sent == old(sent) + [Outbound(old(input), userId, "chat")] && input == ""
      ensures outcome != Sent ==> sent == old(sent) && input == old(input)
      ensures alerts == old(alerts) + NoticeFor(outcome)
      ensures messages == old(messages)
    {
      if Trim(input) == "" {
        return Blank;
      }
      if ContainsBanned(Some(input)) {
        alerts := alerts + [BlockedNotice];
        return Blocked;
      }
      if readyState == Open {
        sent := sent + [Outbound(input, userId, "chat")];
        input := "";
        outcome := Sent;
      } else {
        alerts := alerts + [NotConnectedNotice];
        outcome := NotConnected;
      }
    }

    /** The browser moves the socket to another state (opened, failed, closed by the server). */
    method SocketStateChanged(s: ReadyState)
      requires Stage(readyState) <= Stage(s)
      modifies this`readyState
      ensures readyState == s
    {
      readyState := s;
    }

    /** Unmounting closes the socket: it is closing unless it had already closed. */
    method Unmount()
      modifies this`readyState
      ensures readyState == if old(readyState) == Closed then Closed else Closing
      ensures Stage(readyState) >= 2
    {
      if readyState != Closed {
        readyState := Closing;
      }
    }
  }
}
