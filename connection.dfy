/**
 * The SMTP connection object. Its fields mirror the source's; socket
 * callbacks, the connect result and the end of the quit step are methods
 * the event loop calls. Outputs (socket writes and closes, listener calls,
 * error deliveries, fired reply handlers, logged commands) are ghost logs.
 * Every method is proved to move the object exactly as the matching
 * transition of ConnectionModel moves its state.
 */
module Connection {
  import opened Wrappers
  import opened CommandText
  import opened ConnectionModel

  class SMTPConnection {
    /** Whether the logger is at debug level; fixed for the connection's life. */
    const debugEnabled: bool

    /** `context != null`: captured, with the socket handlers installed, when a connect succeeds. */
    var hasContext: bool
    /** The initial reply handler captured by a connect still in flight. */
    var connectReplyHandler: Option<HandlerId>
    /** `ns != null`. */
    var hasSocket: bool
    var socketClosed: bool
    var socketShutDown: bool
    var broken: bool
    var idle: bool
    var doShutdown: bool
    var commandReplyHandler: Option<ReplyHandler>
    var errorHandler: Option<HandlerId>
    var prevErrorHandler: Option<HandlerId>
    /** The reply parser's expected reply count. */
    var expected: int
    /** The EHLO reply the current capabilities were parsed from; `None` for the empty default. */
    var capa: Option<string>

    ghost var quitsInFlight: nat
    ghost var written: seq<string>
    ghost var socketCloses: nat
    ghost var listener: seq<ListenerCall>
    ghost var errors: seq<Delivery>
    ghost var replies: seq<Reply>
    ghost var commandLog: seq<string>

    ghost function Model(): Conn
      reads this
    {
      Conn(debugEnabled, hasContext, connectReplyHandler, hasSocket, socketClosed, socketShutDown,
           broken, idle, doShutdown, commandReplyHandler, errorHandler, prevErrorHandler,
           expected, capa, quitsInFlight, written, socketCloses, listener, errors, replies, commandLog)
    }

    constructor (debugEnabled: bool)
      ensures Model() == Init(debugEnabled)
    {
      this.debugEnabled := debugEnabled;
      broken := true;
      idle := false;
      doShutdown := false;
      socketClosed := false;
      socketShutDown := false;
      hasContext := false;
      connectReplyHandler := None;
      hasSocket := false;
      commandReplyHandler := None;
      errorHandler := None;
      prevErrorHandler := None;
      expected := 1;
      capa := None;
      quitsInFlight := 0;
      written := [];
      socketCloses := 0;
      listener := [];
      errors := [];
      replies := [];
      commandLog := [];
    }

    /** The parser's completion callback. */
    method OnReplyAssembled(text: string)
      modifies this
      ensures Model() == ReplyAssembled(old(Model()), text)
    {
      if commandReplyHandler.Some? {
        var current := commandReplyHandler.value;
        commandReplyHandler := None;
        replies := replies + [Reply(current.id, text)];
        if current.Batch? {
          expected := 1;
        }
      }
    }

    method ParseCapabilities(message: string)
      modifies this
      ensures Model() == ConnectionModel.ParseCapabilities(old(Model()), message)
    {
      capa := Some(message);
    }

    method Shutdown()
      modifies this
      ensures Model() == ConnectionModel.Shutdown(old(Model()))
    {
      broken := true;
      commandReplyHandler := None;
      socketShutDown := true;
      if hasSocket {
        socketCloses := socketCloses + 1;
        hasSocket := false;
      }
      assert Model().broken;
    }

    method WriteCommands(commands: seq<string>, handler: HandlerId)
      requires socketClosed ==> errorHandler.Some?
      modifies this
      ensures Model() == ConnectionModel.WriteCommands(old(Model()), commands, handler)
    {
      var cmds := Join(commands);
      expected := |commands|;
      Write(cmds, Batch(handler));
    }

    /** `write(str, handler)`: nothing is masked in the log. */
    method Write(str: string, handler: ReplyHandler)
      requires socketClosed ==> errorHandler.Some?
      modifies this
      ensures Model() == ConnectionModel.Write(old(Model()), str, -1, handler)
    {
      WriteMasked(str, -1, handler);
    }

    /** `write(str, blank, handler)`: the log masks everything from index `blank` on. */
    method WriteMasked(str: string, blank: int, handler: ReplyHandler)
      requires socketClosed ==> errorHandler.Some?
      requires !socketClosed && hasSocket && debugEnabled ==> blank <= |str|
      modifies this
      ensures Model() == ConnectionModel.Write(old(Model()), str, blank, handler)
    {
      commandReplyHandler := Some(handler);
      if socketClosed {
        HandleError(Message(ClosedOnWrite));
      } else if hasSocket {
        if debugEnabled {
          var logStr := BuildLogText(str, blank);
          commandLog := commandLog + [CommandPrefix + logStr];
        }
        written := written + [str + CRLF];
      }
    }

    method WriteLine(str: string, mayLog: bool)
      requires hasSocket
      modifies this
      ensures Model() == ConnectionModel.WriteLine(old(Model()), str, mayLog)
    {
      if mayLog && debugEnabled {
        commandLog := commandLog + [str];
      }
      written := written + [str + CRLF];
    }

    /** Deliver a failure to the active error handler. */
    method HandleError(failure: Failure)
      requires errorHandler.Some?
      modifies this
      ensures Model() == old(Model()).(errors := old(errors) + [Delivery(old(errorHandler).value, failure)])
    {
      errors := errors + [Delivery(errorHandler.value, failure)];
    }

    /** `openConnection(config, initial, handler)` up to the asynchronous connect. */
    method OpenConnection(initial: HandlerId, handler: HandlerId)
      modifies this
      ensures Model() == ConnectionModel.OpenConnection(old(Model()), initial, handler)
    {
      errorHandler := Some(handler);
      broken := false;
      idle := false;
      connectReplyHandler := Some(initial);
    }

    /** The connect callback on success. */
    method OnConnectSucceeded()
      requires connectReplyHandler.Some?
      modifies this
      ensures Model() == ConnectSucceeded(old(Model()))
    {
      hasContext := true;
      hasSocket := true;
      socketClosed := false;
      commandReplyHandler := Some(Single(connectReplyHandler.value));
      connectReplyHandler := None;
    }

    /** The connect callback on failure. */
    method OnConnectFailed(cause: nat)
      requires connectReplyHandler.Some? && errorHandler.Some?
      modifies this
      ensures Model() == ConnectFailed(old(Model()), cause)
    {
      connectReplyHandler := None;
      listener := listener + [ConnectionClosed(false)];
      HandleError(Throwable(cause));
    }

    /** The socket's exception handler. */
    method OnException(cause: nat)
      requires hasContext
      requires !socketClosed && !socketShutDown && !idle && !broken ==> errorHandler.Some?
      modifies this
      ensures Model() == SocketException(old(Model()), cause)
    {
      if !socketClosed && !socketShutDown && !idle && !broken {
        SetBroken();
        HandleError(Throwable(cause));
      }
    }

    /** The socket's close handler. */
    method OnClose()
      requires hasContext
      requires !socketShutDown && !idle && !broken ==> errorHandler.Some?
      modifies this
      ensures Model() == SocketClosed(old(Model()))
    {
      listener := listener + [ConnectionClosed(true)];
      socketClosed := true;
      if !socketShutDown && !idle && !broken {
        SetBroken();
        HandleError(Message(ClosedByServer));
      } else {
        if !broken {
          SetBroken();
        }
        if !socketShutDown {
          Shutdown();
          listener := listener + [DataEnded];
        }
      }
    }

    method ReturnToPool()
      requires idle ==> errorHandler.Some?
      requires !idle && doShutdown && !socketShutDown ==> hasContext
      modifies this
      ensures Model() == ConnectionModel.ReturnToPool(old(Model()))
    {
      if idle {
        HandleError(Message(IdleReturned));
      } else if doShutdown {
        QuitCloseConnection();
      } else {
        commandReplyHandler := None;
        listener := listener + [DataEnded];
        errorHandler := None;
      }
    }

    /** Send QUIT and close; the step scheduled on the connection's context runs at once. */
    method QuitCloseConnection()
      requires !socketShutDown ==> hasContext
      modifies this
      ensures Model() == QuitClose(old(Model()))
    {
      if !socketShutDown {
        if socketClosed {
          Shutdown();
        } else {
          UseConnection();
          quitsInFlight := quitsInFlight + 1;
        }
      }
    }

    /** The quit step's completion handler. */
    method OnQuitDone()
      requires quitsInFlight > 0
      modifies this
      ensures Model() == QuitDone(old(Model()))
    {
      quitsInFlight := quitsInFlight - 1;
      Shutdown();
    }

    /** Mark the connection as in use again. */
    method UseConnection()
      modifies this
      ensures Model() == old(Model()).(idle := false)
    {
      idle := false;
    }

    /** Mark the connection as free. */
    method SetIdle()
      modifies this
      ensures Model() == old(Model()).(idle := true)
    {
      idle := true;
    }

    method SetErrorHandler(newHandler: Option<HandlerId>)
      modifies this
      ensures Model() == ConnectionModel.SetErrorHandler(old(Model()), newHandler)
    {
      if prevErrorHandler.None? {
        prevErrorHandler := errorHandler;
      }
      errorHandler := newHandler;
    }

    method ResetErrorHandler()
      modifies this
      ensures Model() == ConnectionModel.ResetErrorHandler(old(Model()))
    {
      errorHandler := prevErrorHandler;
    }

    method SetBroken()
      modifies this
      ensures Model() == ConnectionModel.SetBroken(old(Model()))
    {
      if !broken {
        broken := true;
        commandReplyHandler := None;
        Shutdown();
        listener := listener + [DataEnded];
      }
    }

    /** Shut the connection down when the current operation returns it. */
    method SetDoShutdown()
      modifies this
      ensures Model() == old(Model()).(doShutdown := true)
    {
      doShutdown := true;
    }

    /** Close the connection, sending QUIT first. */
    method Close()
      requires !socketShutDown ==> hasContext
      modifies this
      ensures Model() == QuitClose(old(Model()))
    {
      QuitCloseConnection();
    }
  }
}
