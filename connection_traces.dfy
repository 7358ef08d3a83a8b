/**
 * Sequences of operations and events on one connection, and what the
 * connection guarantees over all of them: a reply handler fires at most once
 * per registration, socket events report at most one error, retirement is
 * never undone, and error handlers are saved and restored one level deep.
 */
module ConnectionTraces {
  import opened Wrappers
  import opened CommandText
  import M = ConnectionModel

  /** Everything that can happen to a connection: calls from the session layer and the pool, and callbacks from the event loop. */
  datatype Event =
    | Shutdown
    | SetBroken
    | Write(str: string, blank: int, handler: M.HandlerId)
    | WriteCommands(commands: seq<string>, handler: M.HandlerId)
    | WriteLine(line: string, mayLog: bool)
    | SetIdle
    | UseConnection
    | SetDoShutdown
    | ReturnToPool
    | Close
    | QuitDone
    | SetErrorHandler(newHandler: Option<M.HandlerId>)
    | ResetErrorHandler
    | ParseCapabilities(message: string)
    | OpenConnection(initial: M.HandlerId, errorHandler: M.HandlerId)
    | ConnectSucceeded
    | ConnectFailed(cause: nat)
    | SocketException(cause: nat)
    | SocketClosed
    | ReplyAssembled(text: string)

  /** When the event can happen without the source dereferencing a missing object. */
  predicate Enabled(s: M.Conn, e: Event)
  {
    match e
    case Write(str, blank, _) => M.WriteEnabled(s, str, blank)
    case WriteCommands(_, _) => s.socketClosed ==> s.errorHandler.Some?
    case WriteLine(_, _) => s.hasSocket
    case ReturnToPool => M.ReturnEnabled(s)
    case Close => !s.socketShutDown ==> s.hasContext
    case QuitDone => s.quitsInFlight > 0
    case ConnectSucceeded => s.pendingConnect.Some?
    case ConnectFailed(_) => s.pendingConnect.Some? && s.errorHandler.Some?
    case SocketException(_) => M.ExceptionEnabled(s)
    case SocketClosed => M.CloseEnabled(s)
    case _ => true
  }

  function Step(s: M.Conn, e: Event): M.Conn
    requires Enabled(s, e)
  {
    match e
    case Shutdown => M.Shutdown(s)
    case SetBroken => M.SetBroken(s)
    case Write(str, blank, h) => M.Write(s, str, blank, M.Single(h))
    case WriteCommands(commands, h) => M.WriteCommands(s, commands, h)
    case WriteLine(line, mayLog) => M.WriteLine(s, line, mayLog)
    case SetIdle => s.(idle := true)
    case UseConnection => s.(idle := false)
    case SetDoShutdown => s.(doShutdown := true)
    case ReturnToPool => M.ReturnToPool(s)
    case Close => M.QuitClose(s)
    case QuitDone => M.QuitDone(s)
    case SetErrorHandler(h) => M.SetErrorHandler(s, h)
    case ResetErrorHandler => M.ResetErrorHandler(s)
    case ParseCapabilities(message) => M.ParseCapabilities(s, message)
    case OpenConnection(initial, h) => M.OpenConnection(s, initial, h)
    case ConnectSucceeded => M.ConnectSucceeded(s)
    case ConnectFailed(cause) => M.ConnectFailed(s, cause)
    case SocketException(cause) => M.SocketException(s, cause)
    case SocketClosed => M.SocketClosed(s)
    case ReplyAssembled(text) => M.ReplyAssembled(s, text)
  }

  /** The state after the events, or `None` if one of them could not happen. */
  function Run(s: M.Conn, events: seq<Event>): Option<M.Conn>
    decreases |events|
  {
    if events == [] then Some(s)
    else if Enabled(s, events[0]) then Run(Step(s, events[0]), events[1..])
    else None
  }

  lemma RunCons(s: M.Conn, e: Event, rest: seq<Event>)
    ensures Run(s, [e] + rest) == if Enabled(s, e) then Run(Step(s, e), rest) else None
  {
    assert ([e] + rest)[0] == e && ([e] + rest)[1..] == rest;
  }

  lemma {:induction false} RunAppend(s: M.Conn, first: seq<Event>, second: seq<Event>)
    ensures Run(s, first + second) ==
      (match Run(s, first) case None => None case Some(t) => Run(t, second))
    decreases |first|
  {
    if first == [] {
      assert first + second == second;
    } else {
      assert first == [first[0]] + first[1..];
      assert first + second == [first[0]] + (first[1..] + second);
      RunCons(s, first[0], first[1..]);
      RunCons(s, first[0], first[1..] + second);
      if Enabled(s, first[0]) {
        RunAppend(Step(s, first[0]), first[1..], second);
      }
    }
  }

  // ---------------------------------------------------------------------
  // The events in four groups, so that each step lemma below reasons about
  // a few transitions at a time.

  predicate SessionEvent(e: Event)
  {
    e.Write? || e.WriteCommands? || e.WriteLine? || e.ReplyAssembled? || e.ParseCapabilities?
  }

  predicate FlagEvent(e: Event)
  {
    e.SetIdle? || e.UseConnection? || e.SetDoShutdown? || e.SetErrorHandler? || e.ResetErrorHandler?
  }

  predicate ShutdownEvent(e: Event)
  {
    e.Shutdown? || e.SetBroken? || e.ReturnToPool? || e.Close? || e.QuitDone?
  }

  predicate ConnectEvent(e: Event)
  {
    e.OpenConnection? || e.ConnectSucceeded? || e.ConnectFailed? || e.SocketException? || e.SocketClosed?
  }

  // ---------------------------------------------------------------------
  // A reply handler fires at most once per registration.

  function FiredIds(replies: seq<M.Reply>): set<M.HandlerId>
  {
    set r | r in replies :: r.handler
  }

  predicate NoHandlerFiredTwice(replies: seq<M.Reply>)
  {
    forall i, j :: 0 <= i < j < |replies| ==> replies[i].handler != replies[j].handler
  }

  /** Handlers registered and not yet fired: the reply slot and the greeting handler of a connect in flight. */
  function Armed(s: M.Conn): set<M.HandlerId>
  {
    (if s.reply.Some? then {s.reply.value.id} else {}) +
    (if s.pendingConnect.Some? then {s.pendingConnect.value} else {})
  }

  /** No handler has fired twice, and none that is armed has fired before. */
  predicate FiresOnce(s: M.Conn)
  {
    NoHandlerFiredTwice(s.replies) &&
    FiredIds(s.replies) !! Armed(s) &&
    (s.reply.Some? && s.pendingConnect.Some? ==> s.reply.value.id != s.pendingConnect.value)
  }

  /** The reply handlers an event registers. */
  function Registered(e: Event): set<M.HandlerId>
  {
    match e
    case Write(_, _, h) => {h}
    case WriteCommands(_, h) => {h}
    case OpenConnection(initial, _) => {initial}
    case _ => {}
  }

  /** Every event registers handlers never used before it. */
  predicate FreshRegistrations(events: seq<Event>, used: set<M.HandlerId>)
    decreases |events|
  {
    events == [] ||
    (Registered(events[0]) !! used && FreshRegistrations(events[1..], used + Registered(events[0])))
  }

  lemma AppendOneReply(replies: seq<M.Reply>, r: M.Reply)
    requires NoHandlerFiredTwice(replies) && r.handler !in FiredIds(replies)
    ensures NoHandlerFiredTwice(replies + [r])
    ensures FiredIds(replies + [r]) == FiredIds(replies) + {r.handler}
  {
    var rs := replies + [r];
    forall i, j | 0 <= i < j < |rs| ensures rs[i].handler != rs[j].handler {
      if j == |replies| {
        assert rs[i] in replies;
      }
    }
  }

  /** A connection that was ever opened is shut down whenever it is broken. */
  predicate BrokenOnlyWhenShutDown(s: M.Conn)
  {
    s.broken && !s.socketShutDown ==> !s.hasContext && s.pendingConnect.None?
  }

  /** What one step `s` to `t` by `e` preserves; `used` holds every handler registered so far. */
  predicate StepKeeps(s: M.Conn, e: Event, t: M.Conn, used: set<M.HandlerId>)
  {
    (s.socketShutDown ==> t.socketShutDown) &&
    (s.broken && !e.OpenConnection? ==> t.broken) &&
    (BrokenOnlyWhenShutDown(s) ==> BrokenOnlyWhenShutDown(t)) &&
    (FiresOnce(s) && FiredIds(s.replies) + Armed(s) <= used && Registered(e) !! used ==>
       FiresOnce(t) && FiredIds(t.replies) + Armed(t) <= used + Registered(e))
  }

  lemma SessionStepKeeps(s: M.Conn, e: Event, used: set<M.HandlerId>)
    requires Enabled(s, e) && SessionEvent(e)
    ensures StepKeeps(s, e, Step(s, e), used)
  {
    if e.ReplyAssembled? && s.reply.Some? && FiresOnce(s) {
      AppendOneReply(s.replies, M.Reply(s.reply.value.id, e.text));
    }
  }

  lemma FlagStepKeeps(s: M.Conn, e: Event, used: set<M.HandlerId>)
    requires Enabled(s, e) && FlagEvent(e)
    ensures StepKeeps(s, e, Step(s, e), used)
  {
  }

  lemma ShutdownStepKeeps(s: M.Conn, e: Event, used: set<M.HandlerId>)
    requires Enabled(s, e) && ShutdownEvent(e)
    ensures StepKeeps(s, e, Step(s, e), used)
  {
    if (e.ReturnToPool? && !s.idle && s.doShutdown) || e.Close? {
      if !s.socketShutDown && s.socketClosed {
        assert Step(s, e) == M.Shutdown(s);
      }
    }
  }

  lemma ConnectStepKeeps(s: M.Conn, e: Event, used: set<M.HandlerId>)
    requires Enabled(s, e) && ConnectEvent(e)
    ensures StepKeeps(s, e, Step(s, e), used)
  {
  }

  lemma StepKeepsAll(s: M.Conn, e: Event, used: set<M.HandlerId>)
    requires Enabled(s, e)
    ensures StepKeeps(s, e, Step(s, e), used)
  {
    if SessionEvent(e) {
      SessionStepKeeps(s, e, used);
    } else if FlagEvent(e) {
      FlagStepKeeps(s, e, used);
    } else if ShutdownEvent(e) {
      ShutdownStepKeeps(s, e, used);
    } else {
      ConnectStepKeeps(s, e, used);
    }
  }

  /**
   * Along any run in which every write, batch and connect registers a reply
   * handler not used before, no reply handler fires twice.
   */
  lemma {:induction false} RepliesFireAtMostOnce(s: M.Conn, events: seq<Event>, used: set<M.HandlerId>)
    requires FiresOnce(s) && FiredIds(s.replies) + Armed(s) <= used
    requires FreshRegistrations(events, used)
    requires Run(s, events).Some?
    ensures NoHandlerFiredTwice(Run(s, events).value.replies)
    decreases |events|
  {
    if events != [] {
      StepKeepsAll(s, events[0], used);
      RepliesFireAtMostOnce(Step(s, events[0]), events[1..], used + Registered(events[0]));
    }
  }

  // ---------------------------------------------------------------------
  // Retirement is never undone.

  /** Once shut down, a connection stays shut down; once broken, it stays broken until it is opened again. */
  lemma {:induction false} RetirementIsMonotone(s: M.Conn, events: seq<Event>)
    requires Run(s, events).Some?
    ensures s.socketShutDown ==> Run(s, events).value.socketShutDown
    ensures s.broken && (forall i :: 0 <= i < |events| ==> !events[i].OpenConnection?) ==>
      Run(s, events).value.broken
    decreases |events|
  {
    if events != [] {
      StepKeepsAll(s, events[0], {});
      RetirementIsMonotone(Step(s, events[0]), events[1..]);
      if s.broken && (forall i :: 0 <= i < |events| ==> !events[i].OpenConnection?) {
        assert !events[0].OpenConnection?;
        assert forall i :: 0 <= i < |events| - 1 ==> events[1..][i] == events[i + 1];
      }
    }
  }

  /** A new connection meets both trace invariants, so the lemmas above and below apply from construction on. */
  lemma InitStarts(debugEnabled: bool)
    ensures FiresOnce(M.Init(debugEnabled))
    ensures BrokenOnlyWhenShutDown(M.Init(debugEnabled))
    ensures FiredIds(M.Init(debugEnabled).replies) + Armed(M.Init(debugEnabled)) == {}
  {
  }

  /**
   * From construction on, a broken connection whose socket handlers are
   * installed is shut down. So the close handler's own `shutdown(); dataEnded`
   * step, taken only when it finds the connection broken but not shut down,
   * never runs.
   */
  lemma {:induction false} CloseNeverShutsDownItself(s: M.Conn, events: seq<Event>)
    requires BrokenOnlyWhenShutDown(s)
    requires Run(s, events).Some?
    ensures BrokenOnlyWhenShutDown(Run(s, events).value)
    ensures var t := Run(s, events).value;
            M.CloseEnabled(t) && t.broken ==> t.socketShutDown
    decreases |events|
  {
    if events != [] {
      StepKeepsAll(s, events[0], {});
      CloseNeverShutsDownItself(Step(s, events[0]), events[1..]);
    }
  }

  // ---------------------------------------------------------------------
  // Socket events report at most one error.

  predicate SocketEvent(e: Event)
  {
    e.SocketException? || e.SocketClosed?
  }

  /** What the socket handlers keep: how retired the connection is, and its error count but for one error that breaks it. */
  predicate SocketStepKeeps(s: M.Conn, t: M.Conn)
  {
    (s.broken ==> t.broken) && (s.socketShutDown ==> t.socketShutDown) && t.idle == s.idle &&
    (s.broken || s.socketShutDown || s.idle ==> t.errors == s.errors) &&
    (t.errors == s.errors || (|t.errors| == |s.errors| + 1 && t.broken))
  }

  lemma SocketStep(s: M.Conn, e: Event)
    requires Enabled(s, e) && SocketEvent(e)
    ensures SocketStepKeeps(s, Step(s, e))
  {
    if e.SocketException? {
      assert Step(s, e) == M.SocketException(s, e.cause);
    } else {
      assert Step(s, e) == M.SocketClosed(s);
    }
  }

  /**
   * Whatever mix of exceptions and closes the socket produces, at most one
   * error is delivered, and none at all on a connection that is already
   * broken, shut down or idle.
   */
  lemma {:induction false} SocketErrorsAtMostOnce(s: M.Conn, events: seq<Event>)
    requires forall i :: 0 <= i < |events| ==> SocketEvent(events[i])
    requires Run(s, events).Some?
    ensures |Run(s, events).value.errors| <= |s.errors| + 1
    ensures s.broken || s.socketShutDown || s.idle ==> Run(s, events).value.errors == s.errors
    decreases |events|
  {
    if events != [] {
      assert SocketEvent(events[0]);
      SocketStep(s, events[0]);
      assert forall i :: 0 <= i < |events| - 1 ==> events[1..][i] == events[i + 1];
      SocketErrorsAtMostOnce(Step(s, events[0]), events[1..]);
    }
  }

  // ---------------------------------------------------------------------
  // Error handlers are saved and restored one level deep.

  function Overrides(handlers: seq<Option<M.HandlerId>>): (events: seq<Event>)
    ensures |events| == |handlers|
    decreases |handlers|
  {
    if handlers == [] then [] else [SetErrorHandler(handlers[0])] + Overrides(handlers[1..])
  }

  /** The first handler present in the list, if any. */
  function FirstSome(handlers: seq<Option<M.HandlerId>>): Option<M.HandlerId>
    decreases |handlers|
  {
    if handlers == [] then None
    else if handlers[0].Some? then handlers[0]
    else FirstSome(handlers[1..])
  }

  /** The state after `setErrorHandler` with each of the handlers in turn. */
  function OverrideAll(s: M.Conn, handlers: seq<Option<M.HandlerId>>): M.Conn
    decreases |handlers|
  {
    if handlers == [] then s else OverrideAll(M.SetErrorHandler(s, handlers[0]), handlers[1..])
  }

  lemma {:induction false} RunOverrides(s: M.Conn, handlers: seq<Option<M.HandlerId>>)
    ensures Run(s, Overrides(handlers)) == Some(OverrideAll(s, handlers))
    decreases |handlers|
  {
    if handlers != [] {
      RunCons(s, SetErrorHandler(handlers[0]), Overrides(handlers[1..]));
      RunOverrides(M.SetErrorHandler(s, handlers[0]), handlers[1..]);
    }
  }

  lemma FirstSomeCons(x: Option<M.HandlerId>, rest: seq<Option<M.HandlerId>>)
    ensures FirstSome([x] + rest) == if x.Some? then x else FirstSome(rest)
  {
    assert ([x] + rest)[1..] == rest;
  }

  /** `setErrorHandler` calls change the two handler slots and nothing else. */
  lemma {:induction false} OverridesTouchOnlyHandlers(s: M.Conn, handlers: seq<Option<M.HandlerId>>)
    ensures var t := OverrideAll(s, handlers);
      t == s.(errorHandler := t.errorHandler, prevErrorHandler := t.prevErrorHandler)
    decreases |handlers|
  {
    if handlers != [] {
      OverridesTouchOnlyHandlers(M.SetErrorHandler(s, handlers[0]), handlers[1..]);
    }
  }

  /**
   * After a series of `setErrorHandler` calls the last handler is active,
   * and the saved slot keeps what it held or, if it was empty, the first
   * handler present among the one active before and all but the last new ones.
   */
  lemma {:induction false} OverridesSaveFirst(s: M.Conn, handlers: seq<Option<M.HandlerId>>)
    requires |handlers| > 0
    ensures OverrideAll(s, handlers).errorHandler == handlers[|handlers| - 1]
    ensures OverrideAll(s, handlers).prevErrorHandler ==
      (if s.prevErrorHandler.Some? then s.prevErrorHandler
       else FirstSome([s.errorHandler] + handlers[..|handlers| - 1]))
    decreases |handlers|
  {
    var s' := M.SetErrorHandler(s, handlers[0]);
    var rest := handlers[1..];
    assert OverrideAll(s, handlers) == OverrideAll(s', rest);
    FirstSomeCons(s.errorHandler, handlers[..|handlers| - 1]);
    if |handlers| == 1 {
      assert handlers[..|handlers| - 1] == [];
    } else {
      OverridesSaveFirst(s', rest);
      assert handlers[..|handlers| - 1] == [handlers[0]] + rest[..|rest| - 1];
      FirstSomeCons(handlers[0], rest[..|rest| - 1]);
    }
  }

  /**
   * `resetErrorHandler()` after a series of overrides brings back the handler
   * saved by the first of them; any handler installed in between is lost, and
   * nothing but the two handler slots has changed.
   */
  lemma ResetRestoresFirstSaved(s: M.Conn, handlers: seq<Option<M.HandlerId>>)
    requires |handlers| > 0 && s.prevErrorHandler.None?
    ensures Run(s, Overrides(handlers) + [ResetErrorHandler]).Some?
    ensures Run(s, Overrides(handlers) + [ResetErrorHandler]).value.errorHandler ==
      FirstSome([s.errorHandler] + handlers[..|handlers| - 1])
    ensures var t := Run(s, Overrides(handlers) + [ResetErrorHandler]).value;
      t == s.(errorHandler := t.errorHandler, prevErrorHandler := t.prevErrorHandler)
  {
    OverridesSaveFirst(s, handlers);
    OverridesTouchOnlyHandlers(s, handlers);
    RunOverrides(s, handlers);
    RunAppend(s, Overrides(handlers), [ResetErrorHandler]);
    RunCons(OverrideAll(s, handlers), ResetErrorHandler, []);
    assert [ResetErrorHandler] + [] == [ResetErrorHandler];
  }

  /** Overriding with A, B and C and then resetting, with nothing active or saved before, makes A active, not B. */
  lemma ResetSkipsIntermediateOverride(s: M.Conn, a: M.HandlerId, b: M.HandlerId, c: M.HandlerId)
    requires s.errorHandler.None? && s.prevErrorHandler.None?
    ensures Run(s, Overrides([Some(a), Some(b), Some(c)]) + [ResetErrorHandler]).Some?
    ensures Run(s, Overrides([Some(a), Some(b), Some(c)]) + [ResetErrorHandler]).value.errorHandler == Some(a)
  {
    ResetRestoresFirstSaved(s, [Some(a), Some(b), Some(c)]);
    assert [s.errorHandler] + [Some(a), Some(b), Some(c)][..2] == [None, Some(a), Some(b)];
  }

  // ---------------------------------------------------------------------
  // Single-step promises that read better as lemmas.

  /** Calling `setBroken()` twice is the same as calling it once. */
  lemma SetBrokenIdempotent(s: M.Conn)
    ensures Run(s, [SetBroken, SetBroken]) == Run(s, [SetBroken])
  {
    assert [SetBroken, SetBroken][1..] == [SetBroken];
    assert [SetBroken][1..] == [];
  }

  /**
   * A pipelined batch: after `writeCommands(commands, h)` and the assembled
   * reply, whatever the socket's state, `h` has fired exactly once with that reply and the
   * parser expects a single reply again.
   */
  lemma BatchThenReplyExpectsOne(s: M.Conn, commands: seq<string>, h: M.HandlerId, text: string)
    requires s.socketClosed ==> s.errorHandler.Some?
    ensures Run(s, [WriteCommands(commands, h), ReplyAssembled(text)]).Some?
    ensures var t := Run(s, [WriteCommands(commands, h), ReplyAssembled(text)]).value;
      t.replies == s.replies + [M.Reply(h, text)] && t.expected == 1 && t.reply.None?
  {
    var batch := M.WriteCommands(s, commands, h);
    RunCons(s, WriteCommands(commands, h), [ReplyAssembled(text)]);
    RunCons(batch, ReplyAssembled(text), []);
    assert [WriteCommands(commands, h), ReplyAssembled(text)]
        == [WriteCommands(commands, h)] + [ReplyAssembled(text)];
    assert [ReplyAssembled(text)] + [] == [ReplyAssembled(text)];
  }
}
