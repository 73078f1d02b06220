/** The terminal session controller of the Shell panel: a process-wide
    registry of parked sessions, one controller per mounted panel holding a
    terminal handle, a socket handle and the connection flags, and the
    browser callbacks that move it between states.

    React state updates are applied at once; each callback, effect body and
    timer callback is a method, and the caller runs them in the order the
    browser and React would. */
module Shell {
  import opened Wrappers
  import opened Strings

  const MinFontSize := 8
  const MaxFontSize := 24
  const DefaultFontSize := 14
  /** The WebSocket close code of a normal closure. */
  const NormalClosure := 1000

  // ---------------------------------------------------------------------
  // Values

  /** The selected project: its name and both path spellings ("" when a
      spelling is missing). */
  datatype Project = Project(name: string, path: string, fullPath: string)

  /** The selected session: `id` and the older `sessionId` ("" when absent). */
  datatype Session = Session(id: string, sessionId: string)

  /** The page location the socket URL falls back to. */
  datatype Page = Page(protocol: string, hostname: string, port: string)

  /** Outbound JSON frames. A `sessionId` of "" is a missing field. */
  datatype Frame =
    | Init(projectPath: string, sessionId: string, hasSession: bool, cols: nat, rows: nat)
    | Input(data: string)
    | Resize(cols: nat, rows: nat)

  /** Inbound frames after JSON parsing; `Unparsable` is text that is not
      JSON, `Other` a frame of any other type. */
  datatype Inbound = Output(data: string) | UrlOpen(url: string) | Other | Unparsable

  /** What the controller writes to a terminal. */
  datatype Notice =
    | AuthRequired
    | ResetScreen
    | ConnectionClosed(reason: string, code: nat)
    | ConnectionError
    | FailedToConnect(message: string)
    | ShellOutput(data: string)

  /** A terminal's history: `clear()` calls and writes, in order. */
  datatype TermEvent = Cleared | Wrote(notice: Notice)

  /** The socket handle's ready state (a missing handle is a null `ws`). */
  datatype SocketState = Opening | Open | Closed

  /** A parked session in the registry. */
  datatype Record = Record(terminal: Terminal, ws: Socket?, isConnected: bool)

  /** The write-back a fresh mount registers for its cleanup: the key and
      the `isConnected` flag as they were when the effect ran. */
  datatype WriteBack = WriteBack(key: string, connected: bool)

  /** How far the socket-open handshake has got; the pending timers read
      the project and the session their socket's handlers closed over. */
  datatype Handshake =
    | Idle
    | AwaitingFit(project: Project, session: Option<Session>)
    | AwaitingInit(project: Project, session: Option<Session>)
    | AwaitingResize

  /** A configuration request in flight: the token it carries and the
      selected project and session of the render whose Connect button was
      clicked. */
  datatype PendingConnect = PendingConnect(token: string, project: Project, session: Option<Session>)

  /** A terminal's size, font size and disposal flag. */
  datatype TermAttrs = TermAttrs(cols: nat, rows: nat, fontSize: int, disposed: bool)

  /** What the controller keeps besides its handles and its four flags. */
  datatype Memory = Memory(
    project: Project,
    session: Option<Session>,
    lastSessionId: Option<string>,
    fontSize: int,
    cleanup: Option<WriteBack>,
    pendingConfig: Option<PendingConnect>,
    handshake: Handshake,
    openedUrls: seq<string>)

  /** The four connection flags. */
  datatype Status = Status(connected: bool, connecting: bool, initialized: bool, restarting: bool)

  /** The exact text written for each notice (ANSI colour codes included). */
  function Render(n: Notice): string {
    match n
    case AuthRequired => "\U{001B}[1;31mAuthentication required. Please log in first.\U{001B}[0m\r\n"
    case ResetScreen => "\U{001B}[2J\U{001B}[H"
    case ConnectionClosed(reason, code) =>
      "\U{001B}[1;31mConnection closed: " + CloseReason(reason, code) + "\U{001B}[0m\r\n"
    case ConnectionError => "\r\n\U{001B}[1;31mConnection error. Please check console for details.\U{001B}[0m\r\n"
    case FailedToConnect(message) => "\U{001B}[1;31mFailed to connect: " + message + "\U{001B}[0m\r\n"
    case ShellOutput(data) => data
  }

  /** The close event's reason, or a text naming its code when the reason
      is empty. */
  function CloseReason(reason: string, code: nat): string {
    if reason != "" then reason else "Unknown error (code: " + NatToString(code) + ")"
  }

  /** The close notice names the peer's reason when there is one and the
      close code otherwise. */
  lemma CloseNoticeNamesCause(reason: string, code: nat)
    ensures reason != "" ==> Contains(Render(ConnectionClosed(reason, code)), reason)
    ensures reason == "" ==> Contains(Render(ConnectionClosed(reason, code)), NatToString(code))
  {
    var head := "\U{001B}[1;31mConnection closed: ";
    var text := Render(ConnectionClosed(reason, code));
    if reason != "" {
      assert text[|head|..|head| + |reason|] == reason;
      OccurrenceContains(text, reason, |head|);
    } else {
      var digits := NatToString(code);
      var inner := "Unknown error (code: ";
      assert text[|head| + |inner|..|head| + |inner| + |digits|] == digits;
      OccurrenceContains(text, digits, |head| + |inner|);
    }
  }

  // ---------------------------------------------------------------------
  // Keys, purge, endpoint and font size

  /** The id of the selected session, "" when there is none. */
  function CurrentSessionId(session: Option<Session>): (r: Option<string>)
    ensures r.Some? <==> session.Some? && session.value.id != ""
    ensures r.Some? ==> r.value == session.value.id
  {
    if session.Some? && session.value.id != "" then Some(session.value.id) else None
  }

  /** The registry key of a session: its id, or `project-` and the project
      name when there is no id. Mount and unmount both use it. */
  function SessionKey(session: Option<Session>, project: Project): string {
    match CurrentSessionId(session)
    case Some(id) => id
    case None => "project-" + project.name
  }

  /** The registry after deleting every key that contains `name`. */
  function Purged(m: map<string, Record>, name: string): (r: map<string, Record>)
    ensures forall k :: k in r <==> k in m && !Contains(k, name)
    ensures forall k :: k in r ==> r[k] == m[k]
  {
    map k | k in m && !Contains(k, name) :: m[k]
  }

  /** The project's own key is always purged. */
  lemma ProjectKeyPurged(m: map<string, Record>, project: Project)
    ensures SessionKey(None, project) !in Purged(m, project.name)
  {
    var key := "project-" + project.name;
    assert key[8..8 + |project.name|] == project.name;
    OccurrenceContains(key, project.name, 8);
  }

  /** The purge matches substrings, not projects: purging for project
      `app` also drops the parked session of project `app2`. */
  lemma PurgeMatchesSubstrings(r: Record)
    ensures "project-app2" in map["project-app2" := r]
    ensures Purged(map["project-app2" := r], "app") == map[]
  {
    var key := "project-app2";
    assert key[8..11] == "app";
    OccurrenceContains(key, "app", 8);
  }

  /** The API server's port for a page port: the development front end on
      4009 talks to 4008. */
  function ApiPort(port: string): string {
    if port == "4009" then "4008" else port
  }

  /** The socket base built from the page location. */
  function FallbackBase(page: Page): string {
    (if page.protocol == "https:" then "wss:" else "ws:") + "//" + page.hostname + ":" + ApiPort(page.port)
  }

  /** The socket base: the configured `wsUrl`, unless the request for it
      failed (`None`) or it names localhost while the page does not. */
  function WsBase(config: Option<string>, page: Page): string {
    match config
    case None => FallbackBase(page)
    case Some(url) =>
      if Contains(url, "localhost") && !Contains(page.hostname, "localhost") then FallbackBase(page) else url
  }

  /** The socket URL; `encode` is `encodeURIComponent`. */
  function Endpoint(config: Option<string>, page: Page, token: string, encode: string -> string): (url: string)
    ensures StartsWith(url, WsBase(config, page))
    ensures EndsWith(url, "/shell?token=" + encode(token))
    ensures |url| == |WsBase(config, page)| + |"/shell?token=" + encode(token)|
  {
    var base := WsBase(config, page);
    assert (base + "/shell?token=" + encode(token))[..|base|] == base;
    base + "/shell?token=" + encode(token)
  }

  /** An occurrence cannot come from joining two strings that lack it at a
      character it does not use. */
  lemma JoinLacks(a: string, c: char, b: string, w: string)
    requires c !in w && !Contains(a, w) && !Contains(b, w)
    ensures !Contains(a + [c] + b, w)
  {
    if Contains(a + [c] + b, w) {
      ContainsAcross(a, c, b, w);
    }
  }

  /** A page that is not on localhost never gets a localhost socket base,
      whatever the configuration says. */
  lemma BaseAvoidsLocalhost(config: Option<string>, page: Page)
    requires !Contains(page.hostname, "localhost") && !Contains(page.port, "localhost")
    ensures !Contains(WsBase(config, page), "localhost")
  {
    var w := "localhost";
    assert ':' !in w && '/' !in w;
    FallbackLacks(page, w);
  }

  /** The fallback base holds a word without `:` or `/`, longer than the
      scheme and the port substitute, only if the page's host or port
      does. */
  lemma FallbackLacks(page: Page, w: string)
    requires ':' !in w && '/' !in w && |w| > 5
    requires !Contains(page.hostname, w) && !Contains(page.port, w)
    ensures !Contains(FallbackBase(page), w)
  {
    var prefix := if page.protocol == "https:" then "wss:" else "ws:";
    var port := ApiPort(page.port);
    ShortLacks(prefix + "/", w);
    if port == "4008" {
      ShortLacks(port, w);
    }
    JoinLacks(page.hostname, ':', port, w);
    JoinLacks(prefix + "/", '/', page.hostname + [':'] + port, w);
    Regroup(prefix, page.hostname, port);
  }

  /** The fallback base, regrouped around its second `/`. */
  lemma Regroup(prefix: string, host: string, port: string)
    ensures prefix + "//" + host + ":" + port == (prefix + "/") + ['/'] + (host + [':'] + port)
  {
  }

  /** The font size after the enlarge button: two points more, at most 24. */
  function LargerFont(size: int): (r: int)
    ensures r == if size + 2 <= MaxFontSize then size + 2 else MaxFontSize
    ensures size <= MaxFontSize ==> size <= r
  {
    if size + 2 < MaxFontSize then size + 2 else MaxFontSize
  }

  /** The font size after the shrink button: two points less, at least 8. */
  function SmallerFont(size: int): (r: int)
    ensures r == if size - 2 >= MinFontSize then size - 2 else MinFontSize
    ensures MinFontSize <= size ==> r <= size
  {
    if size - 2 > MinFontSize then size - 2 else MinFontSize
  }

  /** The font sizes reachable from the default: even sizes from 8 to 24. */
  predicate FontSizeOk(size: int) {
    MinFontSize <= size <= MaxFontSize && size % 2 == 0
  }

  /** Both steps keep the font size reachable, and away from the bounds one
      step undoes the other. */
  lemma FontSteps(size: int)
    requires FontSizeOk(size)
    ensures FontSizeOk(LargerFont(size)) && FontSizeOk(SmallerFont(size))
    ensures size < MaxFontSize ==> SmallerFont(LargerFont(size)) == size
    ensures size > MinFontSize ==> LargerFont(SmallerFont(size)) == size
  {
  }

  /** The `init` frame sent after the socket opens. */
  function InitFrame(project: Project, session: Option<Session>, cols: nat, rows: nat): (f: Frame)
    ensures f.Init? && f.cols == cols && f.rows == rows
    ensures f.hasSession <==> f.sessionId != ""
    ensures f.projectPath == (if project.fullPath != "" then project.fullPath else project.path)
    ensures session.None? ==> f.sessionId == ""
    ensures CurrentSessionId(session).Some? ==> f.sessionId == session.value.id
    ensures session.Some? && session.value.id == "" ==> f.sessionId == session.value.sessionId
  {
    var sid := match session
      case None => ""
      case Some(s) => if s.id != "" then s.id else s.sessionId;
    Init(if project.fullPath != "" then project.fullPath else project.path, sid, sid != "", cols, rows)
  }

  // ---------------------------------------------------------------------
  // Handles

  /** An xterm terminal as the controller sees it. */
  class Terminal {
    var log: seq<TermEvent>
    var cols: nat
    var rows: nat
    var fontSize: int
    var disposed: bool

    function Attrs(): TermAttrs
      reads this
    {
      TermAttrs(cols, rows, fontSize, disposed)
    }

    constructor(fontSize: int)
      ensures log == [] && cols == 80 && rows == 24
      ensures this.fontSize == fontSize && !disposed
    {
      log := [];
      cols := 80;
      rows := 24;
      this.fontSize := fontSize;
      disposed := false;
    }

    method Write(n: Notice)
      modifies this
      ensures log == old(log) + [Wrote(n)]
      ensures cols == old(cols) && rows == old(rows) && fontSize == old(fontSize) && disposed == old(disposed)
    {
      log := log + [Wrote(n)];
    }

    method Clear()
      modifies this
      ensures log == old(log) + [Cleared]
      ensures cols == old(cols) && rows == old(rows) && fontSize == old(fontSize) && disposed == old(disposed)
    {
      log := log + [Cleared];
    }

    /** The fit addon measured the container at `c` by `r` cells. */
    method Fit(c: nat, r: nat)
      modifies this
      ensures cols == c && rows == r
      ensures log == old(log) && fontSize == old(fontSize) && disposed == old(disposed)
    {
      cols, rows := c, r;
    }

    method SetFontSize(size: int)
      modifies this
      ensures fontSize == size
      ensures log == old(log) && cols == old(cols) && rows == old(rows) && disposed == old(disposed)
    {
      fontSize := size;
    }

    method Dispose()
      modifies this
      ensures disposed
      ensures log == old(log) && cols == old(cols) && rows == old(rows) && fontSize == old(fontSize)
    {
      disposed := true;
    }
  }

  /** A browser WebSocket: its ready state and the frames it carried.
      `project` and `session` are the selection its handlers closed over
      when it was opened. */
  class Socket {
    const url: string
    const project: Project
    const session: Option<Session>
    var state: SocketState
    var sent: seq<Frame>

    constructor(url: string, project: Project, session: Option<Session>)
      ensures this.url == url && this.project == project && this.session == session
      ensures state == Opening && sent == []
    {
      this.url := url;
      this.project := project;
      this.session := session;
      state := Opening;
      sent := [];
    }

    /** `send` on an open socket transmits; on a closed one the browser
        drops the data. */
    method Send(f: Frame)
      requires state != Opening
      modifies this
      ensures state == old(state)
      ensures sent == old(sent) + (if old(state) == Open then [f] else [])
    {
      if state == Open {
        sent := sent + [f];
      }
    }

    /** The open event has arrived. */
    method Opened()
      requires state == Opening
      modifies this
      ensures state == Open && sent == old(sent)
    {
      state := Open;
    }

    method Close()
      modifies this
      ensures state == Closed && sent == old(sent)
    {
      state := Closed;
    }
  }

  /** The module-level map of parked sessions, shared by every panel. */
  class SessionRegistry {
    var sessions: map<string, Record>

    constructor()
      ensures sessions == map[]
    {
      sessions := map[];
    }

    method Put(key: string, r: Record)
      modifies this
      ensures sessions == old(sessions)[key := r]
    {
      sessions := sessions[key := r];
    }

    method Delete(key: string)
      modifies this
      ensures sessions == old(sessions) - {key}
    {
      sessions := sessions - {key};
    }

    /** Deletes, one at a time, every key that contains `name`. */
    method PurgeProject(name: string)
      modifies this
      ensures sessions == Purged(old(sessions), name)
    {
      ghost var m0 := sessions;
      var keys := sessions.Keys;
      while keys != {}
        invariant keys <= m0.Keys
        invariant sessions == map k | k in m0 && (k in keys || !Contains(k, name)) :: m0[k]
        decreases keys
      {
        var k :| k in keys;
        if Contains(k, name) {
          sessions := sessions - {k};
        }
        keys := keys - {k};
      }
    }
  }

  // ---------------------------------------------------------------------
  // The controller

  class ShellController {
    const registry: SessionRegistry
    var project: Project
    var session: Option<Session>
    var terminal: Terminal?
    var ws: Socket?
    var isConnected: bool
    var isConnecting: bool
    var isInitialized: bool
    var isRestarting: bool
    var lastSessionId: Option<string>
    var fontSize: int
    /** The cleanup the mount effect registered, if any. */
    var cleanup: Option<WriteBack>
    /** The configuration request in flight. */
    var pendingConfig: Option<PendingConnect>
    var handshake: Handshake
    /** URLs handed to `window.open`. */
    var openedUrls: seq<string>

    function Flags(): Status
      reads this
    {
      Status(isConnected, isConnecting, isInitialized, isRestarting)
    }

    function Remembered(): Memory
      reads this
    {
      Memory(project, session, lastSessionId, fontSize, cleanup, pendingConfig, handshake, openedUrls)
    }

    /** The registry once the registered cleanup has run: the held handles
        parked under the cleanup's key with the flag it stored. */
    function Parked(): map<string, Record>
      reads this, registry
    {
      if cleanup.Some? && terminal != null
      then registry.sessions[cleanup.value.key := Record(terminal, ws, cleanup.value.connected)]
      else registry.sessions
    }

    /** How the mount effect attaches a terminal under `key` when it starts
        holding none, with the registry at `parked`, the socket `ws0` and
        the flag `connected0`. A parked session is taken over with its
        socket and flag; if reattaching throws, the record is dropped and a
        fresh terminal made; with no record a fresh terminal is made and its
        cleanup stores the key and the flag as the effect saw it. */
    twostate predicate Attached(key: string, parked: map<string, Record>, ws0: Socket?, connected0: bool, reattachFails: bool)
      reads this, registry, terminal
    {
      if key in parked && !reattachFails then
        var rec := parked[key];
        terminal == rec.terminal && ws == rec.ws && isConnected == rec.isConnected &&
        registry.sessions == parked && cleanup == None
      else
        terminal != null && fresh(terminal) && terminal.log == [] && terminal.fontSize == fontSize &&
        (key in parked ==>
           ws == null && isConnected == parked[key].isConnected && registry.sessions == parked - {key}) &&
        (key !in parked ==>
           ws == ws0 && isConnected == connected0 && registry.sessions == parked) &&
        cleanup == Some(WriteBack(key, connected0))
    }

    /** A terminal is held exactly while initialized, never while a restart
        is settling, and the font size is one the steps can reach. */
    predicate Valid()
      reads this
    {
      (isInitialized <==> terminal != null) &&
      (isRestarting ==> terminal == null) &&
      FontSizeOk(fontSize)
    }

    constructor(registry: SessionRegistry, project: Project, session: Option<Session>)
      ensures Valid()
      ensures this.registry == registry && this.project == project && this.session == session
      ensures terminal == null && ws == null && Flags() == Status(false, false, false, false)
      ensures lastSessionId == None && fontSize == DefaultFontSize
      ensures cleanup == None && pendingConfig == None && handshake == Idle && openedUrls == []
    {
      this.registry := registry;
      this.project := project;
      this.session := session;
      terminal := null;
      ws := null;
      isConnected := false;
      isConnecting := false;
      isInitialized := false;
      isRestarting := false;
      lastSessionId := None;
      fontSize := DefaultFontSize;
      cleanup := None;
      pendingConfig := None;
      handshake := Idle;
      openedUrls := [];
    }

    // --- mount, unmount and the session switch

    /** The mount effect's body. `hostPresent` says whether the container
        element exists; `reattachFails` whether moving a parked terminal
        into it throws. React has run the previous cleanup already. */
    method MountEffect(hostPresent: bool, reattachFails: bool)
      requires Valid() && cleanup == None
      modifies this, registry
      ensures Valid()
      ensures Remembered() == old(Remembered()).(cleanup := cleanup)
      ensures isConnecting == old(isConnecting) && isRestarting == old(isRestarting)
      ensures !hostPresent || old(isRestarting) || old(terminal) != null ==>
                terminal == old(terminal) && ws == old(ws) && Flags() == old(Flags()) &&
                registry.sessions == old(registry.sessions) && cleanup == None
      ensures hostPresent && !old(isRestarting) && old(terminal) == null ==>
                isInitialized &&
                Attached(SessionKey(session, project), old(registry.sessions), old(ws), old(isConnected), reattachFails)
    {
      if !hostPresent || isRestarting {
        return;
      }
      var key := SessionKey(session, project);
      // the closure of this effect run sees the flag as it is now
      var connectedAtRender := isConnected;
      if key in registry.sessions && terminal == null {
        var rec := registry.sessions[key];
        terminal := rec.terminal;
        ws := rec.ws;
        isConnected := rec.isConnected;
        if !reattachFails {
          isInitialized := true;
          return;
        }
        registry.Delete(key);
        terminal := null;
        ws := null;
      }
      if terminal != null {
        return;
      }
      CreateTerminal(key, connectedAtRender);
    }

    /** The fresh-terminal branch of the mount effect: a new terminal at
        the panel's font size, and a cleanup that will park it under `key`
        with the flag the effect saw. */
    method CreateTerminal(key: string, connectedAtRender: bool)
      requires Valid() && terminal == null && !isRestarting
      modifies this
      ensures Valid()
      ensures Remembered() == old(Remembered()).(cleanup := Some(WriteBack(key, connectedAtRender)))
      ensures fresh(terminal) && terminal.log == [] && terminal.fontSize == fontSize
      ensures ws == old(ws) && Flags() == old(Flags()).(initialized := true)
    {
      terminal := new Terminal(fontSize);
      isInitialized := true;
      cleanup := Some(WriteBack(key, connectedAtRender));
    }

    /** The mount effect's cleanup: park the held handles under the key of
        the effect run, with the flag that run saw (not the current one). */
    method RunCleanup()
      requires Valid()
      modifies this, registry
      ensures Valid()
      ensures Remembered() == old(Remembered()).(cleanup := None)
      ensures terminal == old(terminal) && ws == old(ws) && Flags() == old(Flags())
      ensures registry.sessions == old(Parked())
    {
      if cleanup.Some? {
        if terminal != null {
          registry.Put(cleanup.value.key, Record(terminal, ws, cleanup.value.connected));
        }
        cleanup := None;
      }
    }

    /** The session-switch effect: leaving one session for another while
        initialized disconnects and purges the project's parked sessions. */
    method SessionEffect()
      requires Valid()
      modifies this, registry, ws, terminal
      ensures Valid()
      ensures Remembered() == old(Remembered()).(lastSessionId := CurrentSessionId(session))
      ensures terminal == old(terminal) && (terminal != null ==> terminal.Attrs() == old(terminal.Attrs()))
      ensures var switched := old(lastSessionId).Some? && old(lastSessionId) != CurrentSessionId(session) && old(isInitialized);
              if switched then
                ws == null && Flags() == old(Flags()).(connected := false, connecting := false) &&
                (old(ws) != null ==> old(ws).state == Closed && old(ws).sent == old(ws.sent)) &&
                terminal.log == old(terminal.log) + [Cleared, Wrote(ResetScreen)] &&
                registry.sessions == Purged(old(registry.sessions), project.name)
              else
                ws == old(ws) && Flags() == old(Flags()) && registry.sessions == old(registry.sessions) &&
                (ws != null ==> ws.state == old(ws.state) && ws.sent == old(ws.sent)) &&
                (terminal != null ==> terminal.log == old(terminal.log))
    {
      var current := CurrentSessionId(session);
      if lastSessionId.Some? && lastSessionId != current && isInitialized {
        Disconnect();
        registry.PurgeProject(project.name);
      }
      lastSessionId := current;
    }

    /** First mount of the panel: the effects run in declaration order.
        The first render's dependencies hold no host element (the ref is
        attached only when that render commits), so the re-render that
        follows sees the host, runs the mount cleanup and runs the effects
        again. A fresh terminal is therefore filed under its key at once,
        with the socket and the flag of the first run, and the re-run
        returns early without registering a cleanup. After a session switch
        the session effect has disconnected, and the mount effect keeps the
        terminal still held. */
    method Mount(hostPresent: bool, reattachFails: bool)
      requires Valid() && cleanup == None
      modifies this, registry, ws, terminal
      ensures Valid()
      ensures lastSessionId == CurrentSessionId(session)
      ensures hostPresent && !old(isRestarting) ==> isInitialized && terminal != null
      ensures Remembered() == old(Remembered()).(lastSessionId := CurrentSessionId(session), cleanup := cleanup)
      ensures isRestarting == old(isRestarting)
      ensures var switched := old(lastSessionId).Some? && old(lastSessionId) != CurrentSessionId(session) && old(isInitialized);
              switched ==>
                terminal == old(terminal) && ws == null && cleanup == None &&
                Flags() == old(Flags()).(connected := false, connecting := false) &&
                (old(ws) != null ==> old(ws).state == Closed && old(ws).sent == old(ws.sent)) &&
                terminal.Attrs() == old(terminal.Attrs()) &&
                terminal.log == old(terminal.log) + [Cleared, Wrote(ResetScreen)] &&
                registry.sessions == Purged(old(registry.sessions), project.name)
      ensures var switched := old(lastSessionId).Some? && old(lastSessionId) != CurrentSessionId(session) && old(isInitialized);
              !switched ==>
                isConnecting == old(isConnecting) &&
                (old(ws) != null ==> old(ws).state == old(ws.state) && old(ws).sent == old(ws.sent)) &&
                (old(terminal) != null ==> old(terminal).Attrs() == old(terminal.Attrs()) && old(terminal).log == old(terminal.log))
      ensures var switched := old(lastSessionId).Some? && old(lastSessionId) != CurrentSessionId(session) && old(isInitialized);
              !switched && (!hostPresent || old(isRestarting) || old(terminal) != null) ==>
                terminal == old(terminal) && ws == old(ws) && Flags() == old(Flags()) &&
                registry.sessions == old(registry.sessions) && cleanup == None
      ensures var switched := old(lastSessionId).Some? && old(lastSessionId) != CurrentSessionId(session) && old(isInitialized);
              !switched && hostPresent && !old(isRestarting) && old(terminal) == null ==>
                var key := SessionKey(session, project);
                isInitialized && terminal != null && cleanup == None &&
                if key in old(registry.sessions) && !reattachFails then
                  // reuse: the parked handles and their flag
                  var rec := old(registry.sessions)[key];
                  terminal == rec.terminal && ws == rec.ws && isConnected == rec.isConnected &&
                  registry.sessions == old(registry.sessions)
                else
                  // a fresh terminal, filed by the re-render's cleanup
                  fresh(terminal) && terminal.log == [] && terminal.fontSize == fontSize &&
                  (key in old(registry.sessions) ==> ws == null && isConnected == old(registry.sessions)[key].isConnected) &&
                  (key !in old(registry.sessions) ==> ws == old(ws) && isConnected == old(isConnected)) &&
                  registry.sessions == old(registry.sessions)[key := Record(terminal, ws, old(isConnected))]
    {
      SessionEffect();
      MountEffect(hostPresent, reattachFails);
      if hostPresent {
        // the re-render: the host element is now among the dependencies;
        // the session effect re-runs with its remembered id current, which
        // changes nothing, so it is not repeated here
        RunCleanup();
        MountEffect(hostPresent, reattachFails);
      }
    }

    /** The panel unmounts: only the cleanup runs; the socket stays open
        and the terminal is parked, not disposed. Without a registered
        cleanup (none is left after a fresh first mount) or a held terminal
        nothing is parked, and an open socket is left with no owner. */
    method Unmount()
      requires Valid()
      modifies this, registry
      ensures Valid()
      ensures Remembered() == old(Remembered()).(cleanup := None)
      ensures terminal == old(terminal) && ws == old(ws) && Flags() == old(Flags())
      ensures registry.sessions == old(Parked())
    {
      RunCleanup();
    }

    /** Another session is selected: the previous mount's cleanup, the
        session-switch effect and the mount effect run in that order. A
        terminal still held is kept: the mount effect never takes over the
        new session's parked terminal then. */
    method SessionChanged(s: Option<Session>, hostPresent: bool, reattachFails: bool)
      requires Valid()
      modifies this, registry, ws, terminal
      ensures Valid()
      ensures session == s && lastSessionId == CurrentSessionId(s)
      ensures old(lastSessionId).Some? && old(lastSessionId) != CurrentSessionId(s) && old(isInitialized) ==>
                !isConnected && !isConnecting &&
                forall k :: k in registry.sessions ==> !Contains(k, project.name)
      ensures old(terminal) != null ==> terminal == old(terminal)
      ensures Remembered() == old(Remembered()).(session := s, lastSessionId := CurrentSessionId(s), cleanup := cleanup)
      ensures isRestarting == old(isRestarting)
      ensures var switched := old(lastSessionId).Some? && old(lastSessionId) != CurrentSessionId(s) && old(isInitialized);
              switched ==>
                terminal == old(terminal) && ws == null && cleanup == None &&
                Flags() == old(Flags()).(connected := false, connecting := false) &&
                (old(ws) != null ==> old(ws).state == Closed && old(ws).sent == old(ws.sent)) &&
                terminal.Attrs() == old(terminal.Attrs()) &&
                terminal.log == old(terminal.log) + [Cleared, Wrote(ResetScreen)] &&
                registry.sessions == Purged(old(Parked()), project.name)
      ensures var switched := old(lastSessionId).Some? && old(lastSessionId) != CurrentSessionId(s) && old(isInitialized);
              !switched ==>
                isConnecting == old(isConnecting) &&
                (old(ws) != null ==> old(ws).state == old(ws.state) && old(ws).sent == old(ws.sent)) &&
                (old(terminal) != null ==> old(terminal).Attrs() == old(terminal.Attrs()) && old(terminal).log == old(terminal.log))
      ensures var switched := old(lastSessionId).Some? && old(lastSessionId) != CurrentSessionId(s) && old(isInitialized);
              !switched && (!hostPresent || old(isRestarting) || old(terminal) != null) ==>
                terminal == old(terminal) && ws == old(ws) && Flags() == old(Flags()) &&
                registry.sessions == old(Parked()) && cleanup == None
      ensures var switched := old(lastSessionId).Some? && old(lastSessionId) != CurrentSessionId(s) && old(isInitialized);
              !switched && hostPresent && !old(isRestarting) && old(terminal) == null ==>
                isInitialized &&
                Attached(SessionKey(s, project), old(registry.sessions), old(ws), old(isConnected), reattachFails)
    {
      RunCleanup();
      session := s;
      SessionEffect();
      MountEffect(hostPresent, reattachFails);
    }

    /** Another project is selected on a mounted panel: the previous
        mount's cleanup parks the held terminal under the old key, and the
        mount effect, finding a terminal still held, keeps it. The session
        effect does not depend on the project and does not run. */
    method ProjectChanged(p: Project, hostPresent: bool, reattachFails: bool)
      requires Valid()
      modifies this, registry
      ensures Valid()
      ensures Remembered() == old(Remembered()).(project := p, cleanup := cleanup)
      ensures isConnecting == old(isConnecting) && isRestarting == old(isRestarting)
      ensures !hostPresent || old(isRestarting) || old(terminal) != null ==>
                terminal == old(terminal) && ws == old(ws) && Flags() == old(Flags()) &&
                registry.sessions == old(Parked()) && cleanup == None
      ensures hostPresent && !old(isRestarting) && old(terminal) == null ==>
                isInitialized &&
                Attached(SessionKey(session, p), old(registry.sessions), old(ws), old(isConnected), reattachFails)
    {
      RunCleanup();
      project := p;
      MountEffect(hostPresent, reattachFails);
    }

    // --- connecting

    /** The Connect button. `token` is the stored auth token ("" when
        missing); `tokenAgain` is the token as `connectWebSocket` reads it
        a second time. The request remembers the session of this render,
        which the socket's handlers will read. */
    method ConnectToShell(token: string, tokenAgain: string)
      requires Valid()
      modifies this, terminal
      ensures Valid()
      ensures terminal == old(terminal) && ws == old(ws)
      ensures terminal != null ==> terminal.Attrs() == old(terminal.Attrs())
      ensures token == "" ==>
                Flags() == old(Flags()) && Remembered() == old(Remembered()) &&
                (terminal != null ==> terminal.log == old(terminal.log) + [Wrote(AuthRequired)])
      ensures token != "" && !(old(isInitialized) && !old(isConnected) && !old(isConnecting)) ==>
                Flags() == old(Flags()) && Remembered() == old(Remembered()) &&
                (terminal != null ==> terminal.log == old(terminal.log))
      ensures token != "" && old(isInitialized) && !old(isConnected) && !old(isConnecting) ==>
                // a missing second token leaves `isConnecting` set
                Flags() == old(Flags()).(connecting := true) &&
                Remembered() == old(Remembered()).(pendingConfig :=
                  if tokenAgain == "" then old(pendingConfig) else Some(PendingConnect(tokenAgain, project, session))) &&
                terminal.log == old(terminal.log)
    {
      if token == "" {
        if terminal != null {
          terminal.Write(AuthRequired);
        }
        return;
      }
      if !isInitialized || isConnected || isConnecting {
        return;
      }
      isConnecting := true;
      // `connectWebSocket` starts here; its own guard reads the flags of the
      // render that created it, which the check above saw as false
      if tokenAgain == "" {
        return;
      }
      pendingConfig := Some(PendingConnect(tokenAgain, project, session));
    }

    /** The configuration request settled: `config` is its `wsUrl`, or
        `None` when the request or its parsing failed. `failure` is the
        message of an exception thrown while opening the socket. */
    method ConfigResolved(config: Option<string>, page: Page, encode: string -> string, failure: Option<string>)
      requires Valid()
      modifies this, terminal
      ensures Valid()
      ensures Remembered() == old(Remembered()).(pendingConfig := None)
      ensures terminal == old(terminal) && (terminal != null ==> terminal.Attrs() == old(terminal.Attrs()))
      ensures old(pendingConfig).None? ==>
                ws == old(ws) && Flags() == old(Flags()) && (terminal != null ==> terminal.log == old(terminal.log))
      ensures old(pendingConfig).Some? && failure.None? ==>
                ws != null && fresh(ws) && ws.state == Opening && ws.sent == [] &&
                ws.url == Endpoint(config, page, old(pendingConfig).value.token, encode) &&
                ws.project == old(pendingConfig).value.project && ws.session == old(pendingConfig).value.session &&
                Flags() == old(Flags()) && (terminal != null ==> terminal.log == old(terminal.log))
      ensures old(pendingConfig).Some? && failure.Some? ==>
                ws == old(ws) && Flags() == old(Flags()).(connected := false, connecting := false) &&
                (terminal != null ==> terminal.log == old(terminal.log) + [Wrote(FailedToConnect(failure.value))])
    {
      if pendingConfig.None? {
        return;
      }
      var pending := pendingConfig.value;
      pendingConfig := None;
      if failure.Some? {
        isConnected := false;
        isConnecting := false;
        if terminal != null {
          terminal.Write(FailedToConnect(failure.value));
        }
        return;
      }
      ws := new Socket(Endpoint(config, page, pending.token, encode), pending.project, pending.session);
    }

    // --- socket callbacks (they act on this controller's refs)

    /** The open event of socket `s`: the fit timer starts. */
    method SocketOpened(s: Socket)
      requires Valid() && s.state == Opening
      modifies this, s
      ensures Valid()
      ensures s.state == Open && s.sent == old(s.sent)
      ensures Flags() == old(Flags()).(connected := true, connecting := false)
      ensures Remembered() == old(Remembered()).(handshake := AwaitingFit(s.project, s.session))
      ensures terminal == old(terminal) && ws == old(ws)
    {
      s.Opened();
      isConnected := true;
      isConnecting := false;
      handshake := AwaitingFit(s.project, s.session);
    }

    /** The fit timer: with a terminal held, fit it to `cols` by `rows` and
        start the init timer; without one the handshake ends. */
    method HandshakeFit(cols: nat, rows: nat)
      requires Valid()
      modifies this, terminal
      ensures Valid()
      ensures terminal == old(terminal) && ws == old(ws) && Flags() == old(Flags())
      ensures old(handshake).AwaitingFit? && terminal != null ==>
                terminal.Attrs() == old(terminal.Attrs()).(cols := cols, rows := rows) &&
                terminal.log == old(terminal.log) &&
                handshake == AwaitingInit(old(handshake).project, old(handshake).session)
      ensures old(handshake).AwaitingFit? && terminal == null ==> handshake == Idle
      ensures !old(handshake).AwaitingFit? ==> handshake == old(handshake)
      ensures !(old(handshake).AwaitingFit? && terminal != null) && terminal != null ==>
                terminal.Attrs() == old(terminal.Attrs()) && terminal.log == old(terminal.log)
      ensures Remembered() == old(Remembered()).(handshake := handshake)
    {
      if handshake.AwaitingFit? {
        if terminal != null {
          terminal.Fit(cols, rows);
          handshake := AwaitingInit(handshake.project, handshake.session);
        } else {
          handshake := Idle;
        }
      }
    }

    /** The init timer: send `init` with the project and the session the
        socket's handlers closed over and the terminal's size, on the current socket and
        without checking that it is open. A missing terminal or socket, or
        a socket still opening, throws and ends the handshake; a closed
        socket drops the frame and the resize timer still starts. */
    method HandshakeInit()
      requires Valid()
      modifies this, ws
      ensures Valid()
      ensures terminal == old(terminal) && ws == old(ws) && Flags() == old(Flags())
      ensures ws != null ==> ws.state == old(ws.state)
      ensures var sends := old(handshake).AwaitingInit? && terminal != null && ws != null && old(ws.state) != Opening;
              (sends ==>
                handshake == AwaitingResize &&
                ws.sent == old(ws.sent) +
                  (if ws.state == Open then [InitFrame(old(handshake).project, old(handshake).session, terminal.cols, terminal.rows)] else [])) &&
              (!sends ==>
                handshake == (if old(handshake).AwaitingInit? then Idle else old(handshake)) &&
                (ws != null ==> ws.sent == old(ws.sent)))
      ensures Remembered() == old(Remembered()).(handshake := handshake)
    {
      if !handshake.AwaitingInit? {
        return;
      }
      if terminal == null || ws == null || ws.state == Opening {
        handshake := Idle;
        return;
      }
      ws.Send(InitFrame(handshake.project, handshake.session, terminal.cols, terminal.rows));
      handshake := AwaitingResize;
    }

    /** The resize timer: a `resize` with the terminal's size, only while
        the socket is open. */
    method HandshakeResize()
      requires Valid()
      modifies this, ws
      ensures Valid()
      ensures Remembered() == old(Remembered()).(handshake := if old(handshake) == AwaitingResize then Idle else old(handshake))
      ensures terminal == old(terminal) && ws == old(ws) && Flags() == old(Flags())
      ensures ws != null ==> ws.state == old(ws.state)
      ensures ws != null ==>
                ws.sent == old(ws.sent) +
                  (if old(handshake) == AwaitingResize && terminal != null && ws.state == Open
                   then [Resize(terminal.cols, terminal.rows)] else [])
    {
      if handshake == AwaitingResize {
        if terminal != null && ws != null && ws.state == Open {
          ws.Send(Resize(terminal.cols, terminal.rows));
        }
        handshake := Idle;
      }
    }

    /** A message event. Output goes to the terminal unchanged; a URL
        request goes to `window.open`; everything else is dropped and the
        socket stays as it is. */
    method FrameReceived(msg: Inbound)
      requires Valid()
      modifies this, terminal
      ensures Valid()
      ensures terminal == old(terminal) && ws == old(ws) && Flags() == old(Flags())
      ensures Remembered() == old(Remembered()).(openedUrls := old(openedUrls) + (if msg.UrlOpen? then [msg.url] else []))
      ensures terminal != null ==>
                terminal.Attrs() == old(terminal.Attrs()) &&
                terminal.log == old(terminal.log) +
                  (if msg.Output? then [Wrote(ShellOutput(msg.data))] else [])
    {
      match msg
      case Output(data) =>
        if terminal != null {
          terminal.Write(ShellOutput(data));
        }
      case UrlOpen(url) =>
        openedUrls := openedUrls + [url];
      case _ =>
    }

    /** The close event of socket `s`: reset the screen, then explain an
        abnormal close. Nothing reconnects. */
    method SocketClosed(s: Socket, code: nat, reason: string)
      requires Valid()
      modifies this, s, terminal
      ensures Valid()
      ensures s.state == Closed && s.sent == old(s.sent)
      ensures Flags() == old(Flags()).(connected := false, connecting := false)
      ensures Remembered() == old(Remembered())
      ensures terminal == old(terminal) && ws == old(ws)
      ensures terminal != null ==>
                terminal.Attrs() == old(terminal.Attrs()) &&
                terminal.log == old(terminal.log) + [Cleared, Wrote(ResetScreen)] +
                  (if code != NormalClosure then [Wrote(ConnectionClosed(reason, code))] else [])
    {
      s.Close();
      isConnected := false;
      isConnecting := false;
      if terminal != null {
        terminal.Clear();
        terminal.Write(ResetScreen);
        if code != NormalClosure {
          terminal.Write(ConnectionClosed(reason, code));
        }
      }
    }

    /** The error event. */
    method SocketErrored()
      requires Valid()
      modifies this, terminal
      ensures Valid()
      ensures Flags() == old(Flags()).(connected := false, connecting := false)
      ensures Remembered() == old(Remembered())
      ensures terminal == old(terminal) && ws == old(ws)
      ensures terminal != null ==>
                terminal.Attrs() == old(terminal.Attrs()) &&
                terminal.log == old(terminal.log) + [Wrote(ConnectionError)]
    {
      isConnected := false;
      isConnecting := false;
      if terminal != null {
        terminal.Write(ConnectionError);
      }
    }

    // --- disconnect and restart

    /** The Disconnect button. */
    method Disconnect()
      requires Valid()
      modifies this, ws, terminal
      ensures Valid() && ws == null
      ensures old(ws) != null ==> old(ws).state == Closed && old(ws).sent == old(ws.sent)
      ensures Flags() == old(Flags()).(connected := false, connecting := false)
      ensures Remembered() == old(Remembered())
      ensures terminal == old(terminal)
      ensures terminal != null ==>
                terminal.Attrs() == old(terminal.Attrs()) &&
                terminal.log == old(terminal.log) + [Cleared, Wrote(ResetScreen)]
    {
      if ws != null {
        ws.Close();
        ws := null;
      }
      if terminal != null {
        terminal.Clear();
        terminal.Write(ResetScreen);
      }
      isConnected := false;
      isConnecting := false;
    }

    /** `restartShell`: it has no guard of its own. `isConnecting` is left
        as it was. */
    method RestartShell()
      requires Valid()
      modifies this, registry, ws, terminal
      ensures Valid()
      ensures registry.sessions == Purged(old(registry.sessions), project.name)
      ensures ws == null && (old(ws) != null ==> old(ws).state == Closed && old(ws).sent == old(ws.sent))
      ensures terminal == null &&
              (old(terminal) != null ==>
                 old(terminal).Attrs() == old(terminal.Attrs()).(disposed := true) &&
                 old(terminal).log == old(terminal.log))
      ensures Flags() == Status(false, old(isConnecting), false, true)
      ensures Remembered() == old(Remembered())
    {
      isRestarting := true;
      registry.PurgeProject(project.name);
      if ws != null {
        ws.Close();
        ws := null;
      }
      if terminal != null {
        terminal.Dispose();
        terminal := null;
      }
      isConnected := false;
      isInitialized := false;
    }

    /** The Restart button, disabled while restarting or connected. The
        re-render runs the mount cleanup, which finds no terminal and parks
        nothing. */
    method ClickRestart()
      requires Valid()
      modifies this, registry, ws, terminal
      ensures Valid()
      ensures old(isRestarting) || old(isConnected) ==>
                Flags() == old(Flags()) && terminal == old(terminal) && ws == old(ws) &&
                registry.sessions == old(registry.sessions) && Remembered() == old(Remembered()) &&
                (terminal != null ==> terminal.Attrs() == old(terminal.Attrs()) && terminal.log == old(terminal.log)) &&
                (ws != null ==> ws.state == old(ws.state) && ws.sent == old(ws.sent))
      ensures !old(isRestarting) && !old(isConnected) ==>
                Flags() == Status(false, old(isConnecting), false, true) &&
                terminal == null && ws == null &&
                (old(ws) != null ==> old(ws).state == Closed && old(ws).sent == old(ws.sent)) &&
                (old(terminal) != null ==> old(terminal).disposed && old(terminal).log == old(terminal.log)) &&
                Remembered() == old(Remembered()).(cleanup := None) &&
                registry.sessions == Purged(old(registry.sessions), project.name)
    {
      if isRestarting || isConnected {
        return;
      }
      RestartShell();
      RunCleanup();
    }

    /** The restart timer: clear `isRestarting`, which re-runs the mount
        effect. A session-id key without the project name survives the
        restart's purge, so the terminal taken over can be the one the
        restart disposed. */
    method RestartSettled(hostPresent: bool, reattachFails: bool)
      requires Valid()
      modifies this, registry
      ensures Valid() && !isRestarting
      ensures hostPresent ==> isInitialized && terminal != null
      ensures Remembered() == old(Remembered()).(cleanup := cleanup)
      ensures isConnecting == old(isConnecting)
      ensures !hostPresent || old(terminal) != null ==>
                terminal == old(terminal) && ws == old(ws) && Flags() == old(Flags()).(restarting := false) &&
                registry.sessions == old(Parked()) && cleanup == None
      ensures hostPresent && old(terminal) == null ==>
                isInitialized &&
                Attached(SessionKey(session, project), old(registry.sessions), old(ws), old(isConnected), reattachFails)
    {
      isRestarting := false;
      RunCleanup();
      MountEffect(hostPresent, reattachFails);
    }

    // --- outbound frames

    /** A fit timer, the tab-activation refit, or the resize observer while
        the run that created it has its cleanup still registered (the
        cleanup disconnects it, so after a fresh first mount none is
        attached): fit to `cols` by `rows` and, when `notify` is set (every
        fit but the first one after creation), send `resize` if the socket
        is open. */
    method Fitted(cols: nat, rows: nat, notify: bool)
      requires Valid()
      modifies terminal, ws
      ensures terminal != null ==>
                terminal.Attrs() == old(terminal.Attrs()).(cols := cols, rows := rows) &&
                terminal.log == old(terminal.log)
      ensures ws != null ==> ws.state == old(ws.state)
      ensures ws != null ==>
                ws.sent == old(ws.sent) +
                  (if notify && terminal != null && ws.state == Open then [Resize(cols, rows)] else [])
    {
      if terminal != null {
        terminal.Fit(cols, rows);
        if notify && ws != null && ws.state == Open {
          ws.Send(Resize(cols, rows));
        }
      }
    }

    /** Keystrokes from the terminal and clipboard pastes are sent as they
        are, only while the socket is open. */
    method TerminalInput(data: string)
      requires Valid()
      modifies ws
      ensures ws != null ==> ws.state == old(ws.state)
      ensures ws != null ==> ws.sent == old(ws.sent) + (if ws.state == Open then [Input(data)] else [])
    {
      if ws != null && ws.state == Open {
        ws.Send(Input(data));
      }
    }

    /** A quick command: sent with a carriage return, only while the socket
        is open and the controller counts as connected. */
    method SendCommand(command: string)
      requires Valid()
      modifies ws
      ensures ws != null ==> ws.state == old(ws.state)
      ensures ws != null ==>
                ws.sent == old(ws.sent) + (if ws.state == Open && isConnected then [Input(command + "\r")] else [])
    {
      if ws != null && ws.state == Open && isConnected {
        ws.Send(Input(command + "\r"));
      }
    }

    method ClearTerminal()
      requires Valid()
      modifies terminal
      ensures terminal != null ==>
                terminal.Attrs() == old(terminal.Attrs()) && terminal.log == old(terminal.log) + [Cleared]
    {
      if terminal != null {
        terminal.Clear();
      }
    }

    /** The font buttons; the font effect passes the new size to the
        terminal, and its refit is a later `Fitted` step. */
    method IncreaseFontSize()
      requires Valid()
      modifies this, terminal
      ensures Valid()
      ensures Remembered() == old(Remembered()).(fontSize := LargerFont(old(fontSize)))
      ensures terminal == old(terminal) && ws == old(ws) && Flags() == old(Flags())
      ensures terminal != null ==>
                terminal.Attrs() == old(terminal.Attrs()).(fontSize := fontSize) && terminal.log == old(terminal.log)
    {
      FontSteps(fontSize);
      fontSize := LargerFont(fontSize);
      if terminal != null {
        terminal.SetFontSize(fontSize);
      }
    }

    method DecreaseFontSize()
      requires Valid()
      modifies this, terminal
      ensures Valid()
      ensures Remembered() == old(Remembered()).(fontSize := SmallerFont(old(fontSize)))
      ensures terminal == old(terminal) && ws == old(ws) && Flags() == old(Flags())
      ensures terminal != null ==>
                terminal.Attrs() == old(terminal.Attrs()).(fontSize := fontSize) && terminal.log == old(terminal.log)
    {
      FontSteps(fontSize);
      fontSize := SmallerFont(fontSize);
      if terminal != null {
        terminal.SetFontSize(fontSize);
      }
    }
  }
}
