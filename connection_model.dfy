/**
 * The state of one SMTP connection and what each of its operations and
 * socket events does to it, as pure transitions. The class in module
 * Connection is proved to follow these transitions step for step; module
 * ConnectionTraces proves what they guarantee over sequences of events.
 *
 * Callbacks (reply handlers, error handlers, the lifecycle listener) are
 * not run: invoking one appends a record to an output log in the state.
 */
module ConnectionModel {
  import opened Wrappers
  import opened CommandText

  /** Identifies a callback object; the source compares them by reference. */
  type HandlerId = nat

  /**
   * What sits in the reply slot. `Single(h)` is a handler given to `write`;
   * `Batch(h)` is the wrapper `writeCommands` puts around `h`, which sets
   * the parser's expected reply count back to 1 once `h` has run.
   */
  datatype ReplyHandler = Single(id: HandlerId) | Batch(id: HandlerId)

  /** What reaches an error handler: one of the connection's own messages, or a throwable from the socket or the connect attempt. */
  datatype Failure = Message(text: string) | Throwable(cause: nat)

  /** A call to the lifecycle listener; `ConnectionClosed(false)` is `connectionClosed(null)`. */
  datatype ListenerCall = ConnectionClosed(live: bool) | DataEnded

  datatype Delivery = Delivery(handler: HandlerId, failure: Failure)

  datatype Reply = Reply(handler: HandlerId, text: string)

  const ClosedOnWrite: string := "connection was closed by server"
  const ClosedByServer: string := "connection has been closed by the server"
  const IdleReturned: string := "state error: idle connection returned to pool"
  const CommandPrefix: string := "command: "

  /**
   * The connection's fields (`ns` as `hasSocket`, `context` as `hasContext`,
   * the parser's expected reply count, the capabilities as the EHLO reply they
   * were parsed from), the reply handler captured by a connect still in flight,
   * the number of quit steps started and not finished, and the outputs:
   * lines written to sockets, socket closes, listener calls, error
   * deliveries, fired reply handlers and logged commands.
   */
  datatype Conn = Conn(
    debugEnabled: bool,
    hasContext: bool,
    pendingConnect: Option<HandlerId>,
    hasSocket: bool,
    socketClosed: bool,
    socketShutDown: bool,
    broken: bool,
    idle: bool,
    doShutdown: bool,
    reply: Option<ReplyHandler>,
    errorHandler: Option<HandlerId>,
    prevErrorHandler: Option<HandlerId>,
    expected: int,
    capa: Option<string>,
    quitsInFlight: nat,
    written: seq<string>,
    socketCloses: nat,
    listener: seq<ListenerCall>,
    errors: seq<Delivery>,
    replies: seq<Reply>,
    commandLog: seq<string>)

  /** A freshly constructed connection: broken until opened, parser expecting one reply. */
  function Init(debugEnabled: bool): Conn
  {
    Conn(debugEnabled, false, None, false, false, false, true, false, false, None, None, None,
         1, None, 0, [], 0, [], [], [], [])
  }

  /** Already closed, shut down, idle or broken: socket exceptions are dropped. */
  predicate Retired(s: Conn)
  {
    s.socketClosed || s.socketShutDown || s.idle || s.broken
  }

  /** `shutdown()`: retire the connection from our side and close the socket if there is one. */
  function Shutdown(s: Conn): (r: Conn)
    ensures r.broken && r.socketShutDown && r.reply.None? && !r.hasSocket
    ensures r.socketCloses == s.socketCloses + (if s.hasSocket then 1 else 0)
    ensures r.(broken := s.broken, socketShutDown := s.socketShutDown, reply := s.reply,
               hasSocket := s.hasSocket, socketCloses := s.socketCloses) == s
  {
    var t := s.(broken := true, reply := None, socketShutDown := true);
    if t.hasSocket then t.(hasSocket := false, socketCloses := t.socketCloses + 1) else t
  }

  /**
   * `setBroken()`: a no-op on a broken connection; otherwise it breaks and
   * shuts the connection down and tells the listener the data ended, once.
   */
  function SetBroken(s: Conn): (r: Conn)
    ensures r.broken
    ensures s.broken ==> r == s
    ensures !s.broken ==>
      r.socketShutDown && r.reply.None? && !r.hasSocket &&
      r.socketCloses == s.socketCloses + (if s.hasSocket then 1 else 0) &&
      r.listener == s.listener + [DataEnded] &&
      r.(broken := s.broken, socketShutDown := s.socketShutDown, reply := s.reply,
         hasSocket := s.hasSocket, socketCloses := s.socketCloses, listener := s.listener) == s
  {
    if !s.broken then
      var t := Shutdown(s.(broken := true, reply := None));
      t.(listener := t.listener + [DataEnded])
    else s
  }

  /** What `write` demands: an error handler when it must report a closed socket, and a mask position the log code can cut at. */
  predicate WriteEnabled(s: Conn, str: string, blank: int)
  {
    (s.socketClosed ==> s.errorHandler.Some?) &&
    (!s.socketClosed && s.hasSocket && s.debugEnabled ==> blank <= |str|)
  }

  /**
   * `write(str, blank, handler)`: the handler always replaces the reply slot.
   * On a socket whose close handler has run, exactly one error is delivered
   * and nothing is written; otherwise, if there is a socket, exactly `str` + CRLF is
   * written (and, with debug logging, the masked command is logged).
   */
  function Write(s: Conn, str: string, blank: int, handler: ReplyHandler): (r: Conn)
    requires WriteEnabled(s, str, blank)
    ensures r.reply == Some(handler)
    ensures s.socketClosed ==>
      r.errors == s.errors + [Delivery(s.errorHandler.value, Message(ClosedOnWrite))] &&
      r.written == s.written && r.commandLog == s.commandLog
    ensures !s.socketClosed ==> r.errors == s.errors
    ensures !s.socketClosed && s.hasSocket ==>
      r.written == s.written + [str + CRLF] &&
      r.commandLog == s.commandLog + (if s.debugEnabled then [CommandPrefix + LogText(str, blank)] else [])
    ensures !s.hasSocket ==> r.written == s.written && r.commandLog == s.commandLog
    ensures r.(reply := s.reply, errors := s.errors, written := s.written, commandLog := s.commandLog) == s
  {
    var t := s.(reply := Some(handler));
    if t.socketClosed then
      t.(errors := t.errors + [Delivery(t.errorHandler.value, Message(ClosedOnWrite))])
    else if t.hasSocket then
      var logged := if t.debugEnabled then [CommandPrefix + LogText(str, blank)] else [];
      t.(written := t.written + [str + CRLF], commandLog := t.commandLog + logged)
    else t
  }

  /**
   * `writeCommands(commands, h)`: the parser now expects one reply per
   * command, the wrapper around `h` takes the reply slot, and on a live
   * socket the joined batch is written and logged as `write` does; a
   * non-empty batch goes on the wire as one CRLF-terminated line per command.
   */
  function WriteCommands(s: Conn, commands: seq<string>, handler: HandlerId): (r: Conn)
    requires s.socketClosed ==> s.errorHandler.Some?
    ensures r.expected == |commands| && r.reply == Some(Batch(handler))
    ensures !s.socketClosed && s.hasSocket ==>
      r.written == s.written + [Join(commands) + CRLF] &&
      r.commandLog == s.commandLog + (if s.debugEnabled then [CommandPrefix + LogText(Join(commands), -1)] else [])
    ensures !s.socketClosed && s.hasSocket && |commands| > 0 ==>
      r.written == s.written + [Terminated(commands)]
    ensures s.socketClosed || !s.hasSocket ==> r.written == s.written && r.commandLog == s.commandLog
    ensures s.socketClosed ==> r.errors == s.errors + [Delivery(s.errorHandler.value, Message(ClosedOnWrite))]
    ensures !s.socketClosed ==> r.errors == s.errors
    ensures r.(expected := s.expected, reply := s.reply, errors := s.errors,
               written := s.written, commandLog := s.commandLog) == s
  {
    JoinThenTerminate(commands);
    Write(s.(expected := |commands|), Join(commands), -1, Batch(handler))
  }

  /** `writeLine(str, mayLog)`: exactly `str` + CRLF is written; no reply is awaited. */
  function WriteLine(s: Conn, str: string, mayLog: bool): (r: Conn)
    requires s.hasSocket
    ensures r.written == s.written + [str + CRLF]
    ensures r.commandLog == s.commandLog + (if mayLog && s.debugEnabled then [str] else [])
    ensures r.(written := s.written, commandLog := s.commandLog) == s
  {
    s.(written := s.written + [str + CRLF],
       commandLog := s.commandLog + (if mayLog && s.debugEnabled then [str] else []))
  }

  /**
   * The parser's completion callback: with an empty slot the reply is
   * dropped; otherwise the slot is emptied before its handler runs, so that
   * handler fires once for this registration. A batch wrapper then sets the
   * expected count back to 1.
   */
  function ReplyAssembled(s: Conn, text: string): (r: Conn)
    ensures s.reply.None? ==> r == s
    ensures s.reply.Some? ==>
      r.reply.None? && r.replies == s.replies + [Reply(s.reply.value.id, text)] &&
      r.expected == (if s.reply.value.Batch? then 1 else s.expected)
    ensures r.(reply := s.reply, replies := s.replies, expected := s.expected) == s
  {
    match s.reply
    case None => s
    case Some(h) =>
      var t := s.(reply := None, replies := s.replies + [Reply(h.id, text)]);
      if h.Batch? then t.(expected := 1) else t
  }

  /** `openConnection(config, initial, handler)`, before the connect completes. */
  function OpenConnection(s: Conn, initial: HandlerId, handler: HandlerId): (r: Conn)
    ensures !r.broken && !r.idle && r.errorHandler == Some(handler) && r.pendingConnect == Some(initial)
    ensures r.(broken := s.broken, idle := s.idle, errorHandler := s.errorHandler,
               pendingConnect := s.pendingConnect) == s
  {
    s.(errorHandler := Some(handler), broken := false, idle := false, pendingConnect := Some(initial))
  }

  /** The connect succeeded: the new socket is live and the greeting handler takes the reply slot. */
  function ConnectSucceeded(s: Conn): (r: Conn)
    requires s.pendingConnect.Some?
    ensures r.hasContext && r.hasSocket && !r.socketClosed && r.pendingConnect.None?
    ensures r.reply == Some(Single(s.pendingConnect.value))
    ensures r.(hasContext := s.hasContext, hasSocket := s.hasSocket, socketClosed := s.socketClosed,
               pendingConnect := s.pendingConnect, reply := s.reply) == s
  {
    s.(hasContext := true, hasSocket := true, socketClosed := false,
       reply := Some(Single(s.pendingConnect.value)), pendingConnect := None)
  }

  /**
   * The connect failed: the attempt is over, so its greeting handler can no
   * longer take the reply slot; the listener hears `connectionClosed(null)`
   * once and nothing else, and the cause goes to the error handler once.
   */
  function ConnectFailed(s: Conn, cause: nat): (r: Conn)
    requires s.pendingConnect.Some? && s.errorHandler.Some?
    ensures r.pendingConnect.None?
    ensures r.listener == s.listener + [ConnectionClosed(false)]
    ensures r.errors == s.errors + [Delivery(s.errorHandler.value, Throwable(cause))]
    ensures r.(listener := s.listener, errors := s.errors, pendingConnect := s.pendingConnect) == s
  {
    s.(listener := s.listener + [ConnectionClosed(false)],
       errors := s.errors + [Delivery(s.errorHandler.value, Throwable(cause))],
       pendingConnect := None)
  }

  /** What the socket's exception handler demands: it is installed, and there is an error handler when the exception is reported. */
  predicate ExceptionEnabled(s: Conn)
  {
    s.hasContext && (!Retired(s) ==> s.errorHandler.Some?)
  }

  /**
   * The socket's exception handler: on a retired connection nothing changes;
   * otherwise the connection is broken (one `dataEnded`) and the exception is
   * delivered once.
   */
  function SocketException(s: Conn, cause: nat): (r: Conn)
    requires ExceptionEnabled(s)
    ensures Retired(s) ==> r == s
    ensures !Retired(s) ==>
      r.broken && r.socketShutDown && r.reply.None? && !r.hasSocket &&
      r.socketCloses == s.socketCloses + (if s.hasSocket then 1 else 0) &&
      r.listener == s.listener + [DataEnded] &&
      r.errors == s.errors + [Delivery(s.errorHandler.value, Throwable(cause))] &&
      r.(broken := s.broken, socketShutDown := s.socketShutDown, reply := s.reply, hasSocket := s.hasSocket,
         socketCloses := s.socketCloses, listener := s.listener, errors := s.errors) == s
  {
    if !Retired(s) then
      var t := SetBroken(s);
      t.(errors := t.errors + [Delivery(t.errorHandler.value, Throwable(cause))])
    else s
  }

  /** A close nobody on our side expected: not shut down, not idle, not broken. */
  predicate UnexpectedClose(s: Conn)
  {
    !s.socketShutDown && !s.idle && !s.broken
  }

  predicate CloseEnabled(s: Conn)
  {
    s.hasContext && (UnexpectedClose(s) ==> s.errorHandler.Some?)
  }

  /**
   * The socket's close handler. The listener always hears
   * `connectionClosed(this)`, and then `dataEnded` exactly once unless the
   * connection was already broken and shut down. Afterwards the connection is
   * closed and broken. Only an unexpected close delivers an error, exactly one.
   */
  function SocketClosed(s: Conn): (r: Conn)
    requires CloseEnabled(s)
    ensures r.socketClosed && r.broken
    ensures r.listener == s.listener + [ConnectionClosed(true)] +
                          (if s.broken && s.socketShutDown then [] else [DataEnded])
    ensures UnexpectedClose(s) ==>
      r.errors == s.errors + [Delivery(s.errorHandler.value, Message(ClosedByServer))]
    ensures !UnexpectedClose(s) ==> r.errors == s.errors
    ensures s.broken && s.socketShutDown ==> r == s.(socketClosed := true, listener := r.listener)
    ensures !(s.broken && s.socketShutDown) ==>
      r.socketShutDown && r.reply.None? && !r.hasSocket &&
      r.socketCloses == s.socketCloses + (if s.hasSocket then 1 else 0)
    ensures r.(socketClosed := s.socketClosed, broken := s.broken, socketShutDown := s.socketShutDown,
               reply := s.reply, hasSocket := s.hasSocket, socketCloses := s.socketCloses,
               listener := s.listener, errors := s.errors) == s
  {
    var t := s.(listener := s.listener + [ConnectionClosed(true)], socketClosed := true);
    if UnexpectedClose(t) then
      var u := SetBroken(t);
      u.(errors := u.errors + [Delivery(u.errorHandler.value, Message(ClosedByServer))])
    else
      var u := if !t.broken then SetBroken(t) else t;
      if !u.socketShutDown then
        var v := Shutdown(u);
        v.(listener := v.listener + [DataEnded])
      else u
  }

  /**
   * `quitCloseConnection()`, with the step scheduled on the connection's
   * context run at once: nothing after a shutdown; a socket the server
   * closed is only shut down; otherwise the connection is marked in use and
   * a quit step starts, which ends in `QuitDone`.
   */
  function QuitClose(s: Conn): (r: Conn)
    requires !s.socketShutDown ==> s.hasContext
    ensures s.socketShutDown ==> r == s
    ensures !s.socketShutDown && s.socketClosed ==> r == Shutdown(s)
    ensures !s.socketShutDown && !s.socketClosed ==>
      !r.idle && r.quitsInFlight == s.quitsInFlight + 1 &&
      r.(idle := s.idle, quitsInFlight := s.quitsInFlight) == s
  {
    if !s.socketShutDown then
      if s.socketClosed then Shutdown(s)
      else s.(idle := false, quitsInFlight := s.quitsInFlight + 1)
    else s
  }

  /** The quit step finished, whether the server accepted QUIT or not: the connection is shut down. */
  function QuitDone(s: Conn): (r: Conn)
    requires s.quitsInFlight > 0
    ensures r.quitsInFlight == s.quitsInFlight - 1
    ensures r.broken && r.socketShutDown && r.reply.None? && !r.hasSocket
    ensures r.(quitsInFlight := s.quitsInFlight) == Shutdown(s)
  {
    var t := Shutdown(s);
    t.(quitsInFlight := t.quitsInFlight - 1)
  }

  predicate ReturnEnabled(s: Conn)
  {
    (s.idle ==> s.errorHandler.Some?) &&
    (!s.idle && s.doShutdown && !s.socketShutDown ==> s.hasContext)
  }

  /**
   * `returnToPool()`, three ways. While idle it only reports a state error.
   * With a shutdown requested it takes the quit/close path. Otherwise it
   * empties the reply slot, tells the listener the data ended, once, and
   * drops the error handler.
   */
  function ReturnToPool(s: Conn): (r: Conn)
    requires ReturnEnabled(s)
    ensures s.idle ==>
      r.errors == s.errors + [Delivery(s.errorHandler.value, Message(IdleReturned))] &&
      r.(errors := s.errors) == s
    ensures !s.idle && s.doShutdown ==> r == QuitClose(s)
    ensures !s.idle && !s.doShutdown ==>
      r.reply.None? && r.listener == s.listener + [DataEnded] && r.errorHandler.None? &&
      r.(reply := s.reply, listener := s.listener, errorHandler := s.errorHandler) == s
  {
    if s.idle then
      s.(errors := s.errors + [Delivery(s.errorHandler.value, Message(IdleReturned))])
    else if s.doShutdown then
      QuitClose(s)
    else
      s.(reply := None, listener := s.listener + [DataEnded], errorHandler := None)
  }

  /**
   * `setErrorHandler(h)`: the active handler is saved only while the saved
   * slot is empty, so only the first override's predecessor is remembered;
   * `h` always becomes active.
   */
  function SetErrorHandler(s: Conn, handler: Option<HandlerId>): (r: Conn)
    ensures r.errorHandler == handler
    ensures s.prevErrorHandler.Some? ==> r.prevErrorHandler == s.prevErrorHandler
    ensures s.prevErrorHandler.None? ==> r.prevErrorHandler == s.errorHandler
    ensures r.(errorHandler := s.errorHandler, prevErrorHandler := s.prevErrorHandler) == s
  {
    var t := if s.prevErrorHandler.None? then s.(prevErrorHandler := s.errorHandler) else s;
    t.(errorHandler := handler)
  }

  /** `resetErrorHandler()`: the saved handler becomes active again; the saved slot keeps it. */
  function ResetErrorHandler(s: Conn): (r: Conn)
    ensures r.errorHandler == s.prevErrorHandler
    ensures r.(errorHandler := s.errorHandler) == s
  {
    s.(errorHandler := s.prevErrorHandler)
  }

  /** `parseCapabilities(message)`: the capabilities are rebuilt from `message` alone. */
  function ParseCapabilities(s: Conn, message: string): (r: Conn)
    ensures r.capa == Some(message)
    ensures r.(capa := s.capa) == s
  {
    s.(capa := Some(message))
  }
}
