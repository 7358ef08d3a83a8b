# SMTP connection state machine

This project models `SMTPConnection`, the connection layer of the Vert.x mail client. One instance owns one socket to an SMTP server. It does four things:

- It correlates each written command with the next assembled reply through a single reply slot.
- It reports socket failures to an error handler, at most once.
- It tells the pool's lifecycle listener when a connection attempt fails, when the socket closes and when an operation's data has ended.
- It shuts itself down with a QUIT step when the pool asks.

The model has four modules:

- `CommandText` (`command_text.dfy`) covers what goes on the wire and into the debug log. It has the CRLF join of a pipelined batch and its line-per-command reading. It also has the masking and truncation of a logged command, with the source's builder loop as `BuildLogText`.
- `ConnectionModel` (`connection_model.dfy`) is the connection's whole state as a datatype: the five flags, the socket, the reply slot, the active and saved error handlers, the parser's expected count and the capabilities. It also holds every output as a log: socket writes and closes, listener calls, error deliveries, fired reply handlers and logged commands. Each operation and socket event is a pure transition whose contract says what it does to that state.
- `Connection` (`connection.dfy`) holds the class `SMTPConnection`. Its fields mirror the source's, and its outputs are ghost logs. Each method is proved to change the object exactly as the matching transition changes the state.
- `ConnectionTraces` (`connection_traces.dfy`) turns every operation and event into an `Event`. It runs sequences of them and proves what holds over any such sequence:
  - a reply handler fires at most once per registration;
  - socket events report at most one error;
  - a shut-down connection stays shut down, and a broken one stays broken until it is reopened;
  - error handlers are restored one level deep.

Socket callbacks, the connect result and the end of the quit step become method calls. Handlers are opaque ids, and Java's `null` is `None`.

## Model

| member | source | states |
|---|---|---|
| `Connection.SMTPConnection.constructor` | src/main/java/io/vertx/ext/mail/impl/SMTPConnection.java:54-61 | a new connection is broken, not idle, not closed or shut down, has no socket, no handlers and default capabilities, and its parser expects one reply |
| `ConnectionModel.ReplyAssembled` | src/main/java/io/vertx/ext/mail/impl/SMTPConnection.java:62-109 | with an empty slot the reply is dropped and nothing changes (lines 62-71); otherwise the slot is emptied and that handler fires exactly once with the reply; a batch wrapper then sets the expected count back to 1 (lines 104-109) |
| `Connection.SMTPConnection.OnReplyAssembled` | src/main/java/io/vertx/ext/mail/impl/SMTPConnection.java:62-71 | the parser callback changes the object exactly as `ReplyAssembled` does |
| `ConnectionModel.ParseCapabilities` | src/main/java/io/vertx/ext/mail/impl/SMTPConnection.java:86-89 | the capabilities are rebuilt from the given reply alone; nothing else changes |
| `Connection.SMTPConnection.ParseCapabilities` | src/main/java/io/vertx/ext/mail/impl/SMTPConnection.java:86-89 | follows `ConnectionModel.ParseCapabilities` |
| `ConnectionModel.Shutdown` | src/main/java/io/vertx/ext/mail/impl/SMTPConnection.java:91-99 | afterwards the connection is broken and shut down, with an empty slot and no socket; the socket is closed once if there was one; nothing else changes |
| `Connection.SMTPConnection.Shutdown` | src/main/java/io/vertx/ext/mail/impl/SMTPConnection.java:91-99 | follows `ConnectionModel.Shutdown` |
| `CommandText.Join` | src/main/java/io/vertx/ext/mail/impl/SMTPConnection.java:102 | `String.join` with CRLF: an empty batch joins to the empty string and a single command to itself; `JoinThenTerminate` relates longer batches to their line-per-command form |
| `CommandText.JoinThenTerminate` | src/main/java/io/vertx/ext/mail/impl/SMTPConnection.java:102 | for a non-empty batch, the commands joined by CRLF plus the CRLF that `write` adds are every command as its own CRLF-terminated line |
| `ConnectionModel.WriteCommands` | src/main/java/io/vertx/ext/mail/impl/SMTPConnection.java:101-111 | the parser expects one reply per command and the batch wrapper takes the slot; on a live socket exactly the joined batch + CRLF is written (just CRLF for an empty batch) and, at debug level, its truncated text is logged; a non-empty batch goes out as one CRLF-terminated line per command; on a closed socket exactly one "closed by server" error is delivered and nothing is written or logged; with no socket nothing is written or logged |
| `Connection.SMTPConnection.WriteCommands` | src/main/java/io/vertx/ext/mail/impl/SMTPConnection.java:101-111 | follows `ConnectionModel.WriteCommands` |
| `ConnectionModel.Write` | src/main/java/io/vertx/ext/mail/impl/SMTPConnection.java:123-153 | the new handler always replaces the slot; on a closed socket exactly one "connection was closed by server" error is delivered and nothing is written or logged; otherwise with a socket exactly `str` + CRLF is written and, at debug level, the masked text is logged; with no socket nothing else happens |
| `Connection.SMTPConnection.Write` | src/main/java/io/vertx/ext/mail/impl/SMTPConnection.java:116-118 | the two-argument write is the masked write with nothing masked |
| `Connection.SMTPConnection.WriteMasked` | src/main/java/io/vertx/ext/mail/impl/SMTPConnection.java:123-153 | follows `ConnectionModel.Write`; the logged text comes from `BuildLogText` |
| `CommandText.Stars` | src/main/java/io/vertx/ext/mail/impl/SMTPConnection.java:133-136 | a run of `n` characters, each of them `'*'` |
| `CommandText.Masked` | src/main/java/io/vertx/ext/mail/impl/SMTPConnection.java:132-140 | same length as the command; with `blank < 0` it is the command; otherwise the first `blank` characters are kept and every later one is `'*'` |
| `CommandText.LogText` | src/main/java/io/vertx/ext/mail/impl/SMTPConnection.java:141-146 | under 1000 characters the masked text is logged whole; otherwise its first 1000 characters followed by "..." |
| `CommandText.BuildLogText` | src/main/java/io/vertx/ext/mail/impl/SMTPConnection.java:130-146 | the builder loop and the truncation compute exactly `LogText` |
| `ConnectionModel.WriteLine` | src/main/java/io/vertx/ext/mail/impl/SMTPConnection.java:156-161 | exactly the line + CRLF is written and no reply is awaited; the line is logged only when asked to and at debug level |
| `Connection.SMTPConnection.WriteLine` | src/main/java/io/vertx/ext/mail/impl/SMTPConnection.java:156-161 | follows `ConnectionModel.WriteLine` |
| `Connection.SMTPConnection.HandleError` | src/main/java/io/vertx/ext/mail/impl/SMTPConnection.java:179-185 | one delivery of the failure to the active error handler; nothing else changes |
| `ConnectionModel.OpenConnection` | src/main/java/io/vertx/ext/mail/impl/SMTPConnection.java:187-191 | the error handler is installed, the connection is neither broken nor idle, and the greeting handler waits for the connect |
| `Connection.SMTPConnection.OpenConnection` | src/main/java/io/vertx/ext/mail/impl/SMTPConnection.java:187-192 | follows `ConnectionModel.OpenConnection` |
| `ConnectionModel.ConnectSucceeded` | src/main/java/io/vertx/ext/mail/impl/SMTPConnection.java:193-232 | the context is captured, the socket is live and not closed (lines 193-196), and the greeting handler takes the reply slot (line 232) |
| `Connection.SMTPConnection.OnConnectSucceeded` | src/main/java/io/vertx/ext/mail/impl/SMTPConnection.java:193-233 | follows `ConnectionModel.ConnectSucceeded` |
| `ConnectionModel.ConnectFailed` | src/main/java/io/vertx/ext/mail/impl/SMTPConnection.java:234-239 | the connect attempt is over, so its greeting handler can no longer take the reply slot; the listener hears `connectionClosed(null)` once and nothing else, and the cause is delivered to the error handler once |
| `Connection.SMTPConnection.OnConnectFailed` | src/main/java/io/vertx/ext/mail/impl/SMTPConnection.java:234-239 | follows `ConnectionModel.ConnectFailed` |
| `ConnectionModel.SocketException` | src/main/java/io/vertx/ext/mail/impl/SMTPConnection.java:197-207 | if the connection is closed, shut down, idle or broken, nothing changes and no error is delivered; otherwise it is broken and shut down with one `dataEnded`, and the exception is delivered exactly once |
| `Connection.SMTPConnection.OnException` | src/main/java/io/vertx/ext/mail/impl/SMTPConnection.java:197-207 | follows `ConnectionModel.SocketException` |
| `ConnectionModel.SocketClosed` | src/main/java/io/vertx/ext/mail/impl/SMTPConnection.java:208-231 | the listener always hears `connectionClosed(this)`, then `dataEnded` exactly once unless the connection was already broken and shut down; afterwards it is closed and broken; an unexpected close delivers exactly one "closed by the server" error; a close while idle, shut down or broken delivers none |
| `Connection.SMTPConnection.OnClose` | src/main/java/io/vertx/ext/mail/impl/SMTPConnection.java:208-231 | follows `ConnectionModel.SocketClosed` |
| `ConnectionModel.ReturnToPool` | src/main/java/io/vertx/ext/mail/impl/SMTPConnection.java:259-275 | while idle only a state error is delivered, with no listener call and the slot untouched; with a shutdown requested it takes the quit/close path; otherwise the slot is emptied, one `dataEnded` is sent and the error handler is dropped |
| `Connection.SMTPConnection.ReturnToPool` | src/main/java/io/vertx/ext/mail/impl/SMTPConnection.java:259-275 | follows `ConnectionModel.ReturnToPool` |
| `ConnectionModel.QuitClose` | src/main/java/io/vertx/ext/mail/impl/SMTPConnection.java:281-298 | after a shutdown nothing happens; a socket the server closed is only shut down; otherwise the connection is marked in use and one quit step starts |
| `Connection.SMTPConnection.QuitCloseConnection` | src/main/java/io/vertx/ext/mail/impl/SMTPConnection.java:281-298 | follows `ConnectionModel.QuitClose` |
| `ConnectionModel.QuitDone` | src/main/java/io/vertx/ext/mail/impl/SMTPConnection.java:291-294 | when the quit step ends, whatever the server answered, the connection is shut down |
| `Connection.SMTPConnection.OnQuitDone` | src/main/java/io/vertx/ext/mail/impl/SMTPConnection.java:291-294 | follows `ConnectionModel.QuitDone` |
| `Connection.SMTPConnection.UseConnection` | src/main/java/io/vertx/ext/mail/impl/SMTPConnection.java:303-305 | only `idle` changes, to false |
| `Connection.SMTPConnection.SetIdle` | src/main/java/io/vertx/ext/mail/impl/SMTPConnection.java:310-312 | only `idle` changes, to true |
| `ConnectionModel.SetErrorHandler` | src/main/java/io/vertx/ext/mail/impl/SMTPConnection.java:317-325 | the new handler is active; the active one is saved only while the saved slot is empty |
| `Connection.SMTPConnection.SetErrorHandler` | src/main/java/io/vertx/ext/mail/impl/SMTPConnection.java:317-325 | follows `ConnectionModel.SetErrorHandler` |
| `ConnectionModel.ResetErrorHandler` | src/main/java/io/vertx/ext/mail/impl/SMTPConnection.java:330-332 | the saved handler becomes active; nothing else changes |
| `Connection.SMTPConnection.ResetErrorHandler` | src/main/java/io/vertx/ext/mail/impl/SMTPConnection.java:330-332 | follows `ConnectionModel.ResetErrorHandler` |
| `ConnectionModel.SetBroken` | src/main/java/io/vertx/ext/mail/impl/SMTPConnection.java:337-348 | on a broken connection nothing changes; otherwise it becomes broken and shut down, with an empty slot and no socket, and `dataEnded` is sent exactly once |
| `Connection.SMTPConnection.SetBroken` | src/main/java/io/vertx/ext/mail/impl/SMTPConnection.java:337-348 | follows `ConnectionModel.SetBroken` |
| `ConnectionTraces.SetBrokenIdempotent` | src/main/java/io/vertx/ext/mail/impl/SMTPConnection.java:337-348 | calling `setBroken()` twice has the same effect as calling it once |
| `Connection.SMTPConnection.SetDoShutdown` | src/main/java/io/vertx/ext/mail/impl/SMTPConnection.java:354-357 | only `doShutdown` changes, to true |
| `Connection.SMTPConnection.Close` | src/main/java/io/vertx/ext/mail/impl/SMTPConnection.java:362-364 | `close()` is the quit/close path |
| `ConnectionTraces.RepliesFireAtMostOnce` | src/main/java/io/vertx/ext/mail/impl/SMTPConnection.java:62-71 | over any sequence of operations and events in which each write, batch and connect registers a new handler, no reply handler fires twice |
| `ConnectionTraces.SocketErrorsAtMostOnce` | src/main/java/io/vertx/ext/mail/impl/SMTPConnection.java:197-231 | over any mix of socket exceptions and closes at most one error is delivered, and none if the connection starts broken, shut down or idle |
| `ConnectionTraces.RetirementIsMonotone` | src/main/java/io/vertx/ext/mail/impl/SMTPConnection.java:91-99 | over any sequence, a shut-down connection stays shut down, and a broken one stays broken unless `openConnection` runs |
| `ConnectionTraces.InitStarts` | src/main/java/io/vertx/ext/mail/impl/SMTPConnection.java:54-71 | a new connection has fired no reply handler and armed none, and is broken only while it has no context and no connect in flight, so the trace invariants hold from construction |
| `ConnectionTraces.CloseNeverShutsDownItself` | src/main/java/io/vertx/ext/mail/impl/SMTPConnection.java:223-229 | from construction (`InitStarts`) on, a broken connection with socket handlers installed is always shut down, so the close handler's own `shutdown(); dataEnded` branch never runs |
| `ConnectionTraces.OverridesSaveFirst` | src/main/java/io/vertx/ext/mail/impl/SMTPConnection.java:319-325 | after several `setErrorHandler` calls the last one is active; the saved slot keeps what it held or, if it was empty, gets the first handler present among the previously active one and all overrides but the last |
| `ConnectionTraces.ResetRestoresFirstSaved` | src/main/java/io/vertx/ext/mail/impl/SMTPConnection.java:317-332 | `resetErrorHandler()` after several overrides makes that first saved handler active again, and only the two handler slots have changed |
| `ConnectionTraces.ResetSkipsIntermediateOverride` | src/main/java/io/vertx/ext/mail/impl/SMTPConnection.java:319-332 | overriding with A, B and C and then resetting, with nothing active or saved before, makes A active, not B |
| `ConnectionTraces.BatchThenReplyExpectsOne` | src/main/java/io/vertx/ext/mail/impl/SMTPConnection.java:101-111 | whatever the socket's state, after a batch and its assembled reply the batch's handler has fired exactly once with that reply, the slot is empty and the parser again expects one reply (a closed socket needs an error handler to report to) |

## Behaviour worth knowing

- `write` never reads `broken` (SMTPConnection.java:123-152). After `shutdown()` there is no socket, so the command is dropped and its handler stays in the reply slot. An error is delivered only once the socket's close handler has run, which sets `socketClosed` on every close (SMTPConnection.java:211), including the close that follows our own `shutdown()`. So once `setBroken()` has closed the socket and the close handler has run, a write reports "connection was closed by server" although the server closed nothing.
- A write after `setBroken()` fills the reply slot again, so a broken connection can hold a pending reply handler.
- A close while idle breaks the connection through `setBroken()` and leaves `idle` set (SMTPConnection.java:213-229), so a connection can be idle and broken at once.
- The close handler's own `shutdown(); listener.dataEnded(this)` at SMTPConnection.java:226-229 never runs once `openConnection` has been called: by the time the connection is broken it is always shut down (`CloseNeverShutsDownItself`). The single `dataEnded` of an idle close comes from `setBroken()`.
- `close()` does nothing once the connection is shut down (SMTPConnection.java:282).
- `prevErrorHandler` is saved only while it is null (SMTPConnection.java:320-322). Starting from an empty saved slot, overriding with A, B and C and then resetting brings back A if no handler was active before, and otherwise the handler that was active before the first override, for example the one `openConnection` installed.
- `prevErrorHandler` is never cleared: neither `resetErrorHandler()` (line 331) nor `returnToPool()` (lines 269-272) sets it back to null. Once a first override has saved a handler, every later reset on the same connection, including on a reused one, brings back that handler saved during its first use.

## Left out

- Outputs go to separate logs (socket writes, listener calls, error deliveries, fired reply handlers), so the order between a listener call and an error delivery within one step is not recorded. In the source, the exception handler sends `dataEnded` before the error (lines 201-203), the close handler calls `connectionClosed`, then `dataEnded`, then delivers the error (lines 210-216), and a failed connect calls `connectionClosed(null)` before delivering the cause (lines 237-238). This affects `SocketException`, `SocketClosed` and `ConnectFailed`.
- The debug log level is read once, when the connection is made (`debugEnabled`); the source asks `log.isDebugEnabled()` on every write (SMTPConnection.java:130), so a log level changed at run time is not followed.
- The network is not modelled: `NetClient.connect`, `NetSocket` I/O, `upgradeToSsl` and `isSsl`. A connect is the `OpenConnection` call followed by `OnConnectSucceeded` or `OnConnectFailed`. The socket is a present/absent flag plus logs of written lines and closes. Socket events are not tied to a particular socket, so a late close of an old socket acts like any close.
- `writeLineWithDrainPromise` is not modelled. It is backpressure plumbing: a one-shot drain hook, cleared before the write, and promise completion.
- `Context.runOnContext` in `quitCloseConnection` is not modelled as scheduling. The scheduled step runs at once, so no other event can come between the `socketShutDown` check and the `socketClosed` check.
- `SMTPQuit` is not part of this model. The quit step is a counter of steps started, and `OnQuitDone` stands for its completion handler. The QUIT command it writes and the reply it awaits are not modelled.
- `MultilineParser` is not part of this model. Only its expected reply count and its completion callback are kept, so assembling multi-line replies is not modelled.
- `Capabilities` is not part of this model. Parsed capabilities are the EHLO reply they came from.
- Reply handlers, error handlers and the listener are not run. Invoking one appends a record to a log. A handler's own calls are later events. A `writeCommands` issued from inside a batch handler would, in the source, have its expected count reset to 1 after that handler returns. In the model the reset comes first.
- Java's `NullPointerException`s are excluded by preconditions instead of being modelled:
  - delivering an error needs an error handler;
  - `writeLine` needs a socket;
  - the quit path needs the context;
  - socket events need the handlers installed by a successful connect.
- `write` needs a mask position within the command when it logs at debug level. Otherwise the source's `substring` throws.
- A second `openConnection` before the first connect completes replaces the captured greeting handler. The first callback is not tracked.
- Logging other than the text of commands is not modelled. Characters are Dafny `char`s, not UTF-16 code units.
- The getters (`getCapa`, `isBroken`, `isIdle`, `isClosed`, `getContext`, `getSocket`) are plain field reads and have no members of their own.
