# crunch: a verified model of the statement lifecycle and the worker command bridge

crunch is a thin JavaScript layer over SQLite compiled to WebAssembly. This
project models its three pieces with logic in them, and proves what they do:

- **The statement lifecycle and result iterator** (`src/index.mjs`).
  `CrunchEngine.open` picks the database URI. `CrunchConnection.exec` prepares,
  steps until SQLITE_DONE while discarding rows, then finalizes.
  `CrunchConnection.query` prepares and returns a lazy `CrunchResult`. Each
  `next()` of its iterator steps once and builds a row by column type;
  `[...result]` calls it until the sequence ends or a `next()` throws.
  SQLite and its raw bindings are an oracle, `Sqlite.Raw`:
  - every prepared statement follows a finite script of step outcomes;
  - every raw call is appended to a call log.

  Contracts therefore say exactly which raw calls each operation makes, in
  which order, what it returns or throws, and whether the statement ends up
  finalized.
- **The deferred command bridge** (`src/crunch-worker.mjs`).
  - Before the runtime is ready, incoming message data is queued.
  - `onRuntimeInitialized` registers one wrapper method per definition. It
    replays the queue through `handleMessage`, which validates `name` and
    `args` and calls `crunch_<name>`, then switches `onmessage`.

  The bridge is a class (`CrunchWorker.Bridge`). The methods are proved
  against a state-machine specification (`CrunchWorker.Initialize`,
  `Receive`, `Deliver`), and the ordering and loss properties are proved
  about that specification.
- **The command producer** (`src/crunch-api.mjs`).
  - `createDb` takes the next id, starts a worker and posts the `open`
    command to it.
  - `ConnectionProxy.exec` posts `exec` commands.
  - `postMessage` is an append to the worker's outbox.

  Cross-module lemmas show that every message this file builds passes the
  bridge's checks and reaches `crunch_open` / `crunch_exec` with its
  arguments in order.

Modules:
- `Wrappers` (Option, Result).
- `Decimal` (decimal rendering of numbers).
- `Js`. It holds the JavaScript values the bridge inspects: property
  access, truthiness, string conversion in template literals, and the
  array-like argument list of `Function.prototype.apply`.
- `Sqlite`, `Crunch`, `CrunchWorker` and `CrunchApi`.

Three places in the code work against what the code itself evidently means:
- `exec` throws on a failing step (src/index.mjs:77-79) before it reaches
  the finalize at line 82, although SQLite asks that every prepared
  statement be finalized exactly once;
- the iterator's guard at line 115 tests `isDone`, but its end sets
  `is_done` (line 143), so the guard meant to keep an ended iterator
  ended never fires;
- the iterator treats a failing step like SQLITE_DONE (lines 140-144),
  while `exec` in the same class turns a failing step into a thrown
  SqlError (lines 77-79).

The model follows the code in `Crunch.CrunchConnection.Exec` and
`Crunch.CrunchResult.Next`. Beside them it gives separate corrected
members, `ExecFinalizing` and `NextFixed` (see Findings).

## Model

| member | source | states |
|---|---|---|
| Crunch.CrunchEngine.constructor | src/index.mjs:7-12 | a new engine starts with `nextId` 1 over the given raw bindings |
| Crunch.CrunchEngine.Open | src/index.mjs:14-39 | with a file, the URI is `/db<nextId>` and `nextId` goes up by one; without one, it is `:memory:` and `nextId` is unchanged; exactly one `sqlite3_open` call; a non-OK open throws "Unable to open database" and returns no connection; otherwise a fresh connection on the new handle |
| Crunch.FileUrisDistinct | src/index.mjs:15-17 | files opened under different `nextId` values get different paths, and no path is `:memory:` |
| Crunch.CrunchConnection.constructor | src/index.mjs:44-47 | the connection keeps its engine and database handle |
| Crunch.CrunchConnection.ThrowSqlError | src/index.mjs:49-53 | calls errmsg and then errstr, and the thrown message is `errstr(status) + ": " + errmsg(db)` |
| Crunch.CrunchConnection.Query | src/index.mjs:55-61 | exactly one prepare; on success, a fresh unstepped, unfinalized result on the new statement and no other raw call; on failure, it throws the SqlError text, creates no result and no statement, and makes only the two error calls |
| Crunch.FirstNonRow | src/index.mjs:69-81 | the first non-row step at or after p: every step before it produces a row, and the step at it does not |
| Crunch.CrunchConnection.DiscardRows | src/index.mjs:68-81 | the step loop terminates; it makes exactly one step call per discarded row plus one, and returns the status of the first non-row step; the statement is left positioned after that step |
| Crunch.CrunchConnection.StepAndFinalize | src/index.mjs:68-85 | after a successful prepare, the completion, the whole raw call log, the statement's final state and the error messages equal the `exec` specification over the statement's script |
| Crunch.CrunchConnection.Exec | src/index.mjs:63-86 | exactly one prepare; the completion, call log, statement table and error messages equal `ExecResult`/`ExecCalls`/`ExecStmts`/`ExecMessages` of the prepare outcome; a rejected prepare throws the SqlError and creates no statement |
| Crunch.ExecFinalizeDiscipline | src/index.mjs:68-85 | the statement is finalized exactly once when the loop ended on SQLITE_DONE and never when a step failed, and it stays live in that case |
| Crunch.ExecNormalIff | src/index.mjs:68-85 | `exec` returns normally exactly when some step reports DONE after nothing but rows and finalize then succeeds |
| Crunch.ExecStepErrorSkipsFinalize | src/index.mjs:77-82 | for a row followed by a constraint failure, `exec` throws that failure's SqlError, never calls finalize and leaves the statement live, while the corrected `exec` finalizes it once |
| Crunch.CrunchConnection.StepAndFinalizeAlways | src/index.mjs:68-85 | corrected `exec` tail: the same completion as the original; the error is read first and the statement is then finalized on the error path too |
| Crunch.CrunchConnection.ExecFinalizing | src/index.mjs:63-86 | corrected `exec`: same prepare handling and completion as `exec`, and the statement is always left finalized |
| Crunch.ExecFinalizingFinalizesOnce | src/index.mjs:77-85 | the corrected `exec` calls finalize exactly once on every path after a compiled prepare and makes the same step calls as the original |
| Crunch.CrunchResult.constructor | src/index.mjs:90-94 | a new result is not done |
| Crunch.CrunchResult.NumColumns | src/index.mjs:108-110 | one `column_count` call, returning the statement's column count |
| Crunch.CrunchResult.ColumnName | src/index.mjs:104-106 | one `column_name` call, returning the name at that index |
| Crunch.CrunchResult.Columns | src/index.mjs:96-102 | returns `numColumns` names whose entry i is `columnName(i)`, which are the result column names of a live statement; the calls are each bound test followed by a name read |
| Crunch.FirstUnreadable | src/index.mjs:121-136 | the first column with no typed accessor: every earlier column has one, and the column at it has none |
| Crunch.CrunchResult.ReadColumn | src/index.mjs:122-136 | one pass of the row loop: type, name, then the matching accessor, whose value is assigned to the row under the name (for `__proto__` the assignment creates no property); BLOB and NULL throw `Unkown type <code>` after the name read |
| Crunch.CrunchResult.ReadRow | src/index.mjs:119-139 | the row built on a ROW step equals `RowStep` of the column names and current cells, and the calls equal `RowTrace` |
| Crunch.RowOfKeys | src/index.mjs:120-138 | a built row has exactly one key per distinct column name other than `__proto__` |
| Crunch.RowOfLastWins | src/index.mjs:121-133 | a name other than `__proto__` takes its value from the last column bearing it, read with that column's own accessor; `__proto__` never becomes a key |
| Crunch.RowOfNoProto | src/index.mjs:120-132 | no row has a `__proto__` key, whatever its columns |
| Crunch.RowStepCases | src/index.mjs:124-136 | a ROW step yields a row exactly when every column is INTEGER, TEXT or FLOAT; otherwise it throws `Unkown type <code>` for a BLOB or NULL column |
| Crunch.SpreadRowsInOrder | src/index.mjs:112-148 | when every row up to the first non-row step can be built, `[...result]` collects exactly those rows, one per ROW step, each built from its own step's cells, in step order |
| Crunch.SpreadReturnsRows | src/index.mjs:119-144 | under the same condition no `next()` throws, so `[...result]` returns the rows it collected |
| Crunch.SpreadFinalizesIff | src/index.mjs:118-144 | `[...result]` on a live statement returns its rows exactly when it leaves the statement finalized; a row it cannot build throws and leaves the statement live |
| Crunch.QueryOnePlusOne | src/end_to_end_systemtest.mjs:12-17 | over the statement of `select 1+1 as a` (one row, then DONE), `[...result]` is `[{a: 2}]` and the statement ends finalized |
| Crunch.QueryTextAndInteger | src/end_to_end_systemtest.mjs:19-28 | over `select * from foo` on two rows of a TEXT and an INTEGER column, `[...result]` is the two row objects in row order and the statement ends finalized |
| Crunch.QueryProtoColumn | src/index.mjs:120-132 | `[...result]` over `select 1 as __proto__` is `[{}]`: the value is read but creates no property |
| Crunch.CrunchResult.Next | src/index.mjs:112-148 | as written: on ROW, the row or the type error, with the statement stepped; on DONE or an error status, it finalizes and ends without throwing, sets `is_done` and leaves `isDone` unset |
| Crunch.CrunchResult.NextTwiceAtEnd | src/index.mjs:115-144 | as written, a second `next()` after the end steps the finalized statement and finalizes it again |
| Crunch.CrunchResult.NextFixed | src/index.mjs:112-148 | corrected iterator: a DONE step finalizes and ends; a failing step's SqlError is read, the statement finalized and the error thrown; afterwards every `next()` ends at once with no raw call |
| Crunch.CrunchResult.NextFixedTwiceAtEnd | src/index.mjs:115-144 | with the corrected iterator, the calls of two `next()`s at the end are one step and one finalize |
| Crunch.CrunchResult.Spread | src/index.mjs:112-148 | `[...result]` with the iterator as written: its value (the rows, or the thrown type error), its raw calls, the statement's final state and the error messages are those of the spread functions over the statement's script; `is_done` is set exactly when the rows ran out |
| CrunchWorker.RegisteredKeys | src/crunch-worker.mjs:7-11 | the wrapper has exactly one method per distinct entry name in `defs` other than `__proto__` |
| CrunchWorker.RegisteredLastWins | src/crunch-worker.mjs:8-10 | a name other than `__proto__` gets the method wrapping the last entry carrying it; `__proto__` never becomes a method |
| CrunchWorker.RegisteredNoProto | src/crunch-worker.mjs:8-10 | no registration creates a `__proto__` method |
| CrunchWorker.ModuleWrapper.constructor | src/crunch-worker.mjs:6-12 | the loop over `defs` fills the wrapper's methods with the registration map |
| CrunchWorker.Handled | src/crunch-worker.mjs:18-31 | a message that passes every check calls a registered method whose name starts with `crunch_` |
| CrunchWorker.HandledNeedsName | src/crunch-worker.mjs:19-21 | a message with `name` undefined throws "Message should have name ..." whatever its `args`, and calls nothing |
| CrunchWorker.HandledNeedsArgs | src/crunch-worker.mjs:22-24 | a message with a name but `args` undefined throws "Message should have args ...", and calls nothing |
| CrunchWorker.HandledNeedsMethod | src/crunch-worker.mjs:26-29 | a well-shaped message whose `crunch_<name>` is not a method throws "No method named crunch_<name> ...", and calls nothing |
| CrunchWorker.HandledDispatches | src/crunch-worker.mjs:26-30 | a well-shaped message calls exactly `crunch_<name>`, once, with `args` in their original order |
| CrunchWorker.HandledRejectsEveryEvent | src/crunch-worker.mjs:19-21 | a MessageEvent object has no `name`, so handling it always throws at the first check |
| CrunchWorker.Bridge.constructor | src/crunch-worker.mjs:3-4 | the worker starts with an empty queue and the queueing `onmessage` |
| CrunchWorker.Bridge.HandleMessage | src/crunch-worker.mjs:18-31 | the call log and the completion equal those of the `Deliver` specification: one call is appended, or the state is unchanged and the error thrown |
| CrunchWorker.Bridge.OnMessage | src/crunch-worker.mjs:3-4 | as written: before readiness the data joins the queue; after it, the event object is handed to `handleMessage` |
| CrunchWorker.Bridge.OnMessageFixed | src/crunch-worker.mjs:37 | corrected switched handler: the event's `data` is handed to `handleMessage` |
| CrunchWorker.QueueBeforeReady | src/crunch-worker.mjs:3-4 | before readiness every event only appends its data to the queue, in arrival order, and nothing is called |
| CrunchWorker.FirstRejected | src/crunch-worker.mjs:33-35 | the first queued message `handleMessage` rejects: every earlier one is accepted |
| CrunchWorker.Bridge.OnRuntimeInitialized | src/crunch-worker.mjs:15-38 | the replay and switch equal the `Initialize` specification: messages are handled in FIFO order up to the first that throws; that error ends the callback without the switch; if none throws, `onmessage` is switched; the queue keeps its contents |
| CrunchWorker.DispatchesAppend | src/crunch-worker.mjs:33-35 | handling two batches in turn logs the first batch's calls, then the second's |
| CrunchWorker.DispatchesInOrder | src/crunch-worker.mjs:33-35 | when every message is accepted, there is one call per message, in message order |
| CrunchWorker.ReplayAccepted | src/crunch-worker.mjs:33-37 | if every queued message is accepted, replay calls one handler per message in FIFO order, switches `onmessage`, returns normally and leaves the queue as it was |
| CrunchWorker.ReplayStopsAtFirstError | src/crunch-worker.mjs:33-35 | when message j is the first rejected, exactly the messages before it are handled, in order, and its error is thrown; the handler stays the queueing one |
| CrunchWorker.SwitchedBridgeDropsEvents | src/crunch-worker.mjs:37 | as written, once switched, every event throws the no-name error and the state never changes |
| CrunchWorker.FixedBridgeDeliversEvents | src/crunch-worker.mjs:37 | with the corrected switch, each later event is handled on its own and the accepted ones are logged in arrival order |
| CrunchWorker.FixedBridgeLosesNothing | src/crunch-worker.mjs:3-37 | with the corrected switch, the log over messages posted before and after readiness is that of handling them all in posting order |
| CrunchWorker.AsWrittenBridgeLosesPostReady | src/crunch-worker.mjs:33-37 | as written, the same run logs only the replayed messages |
| CrunchApi.Worker.constructor | src/crunch-api.mjs:5 | a new worker records its script and options and has an empty outbox |
| CrunchApi.Worker.PostMessage | src/crunch-api.mjs:7-10 | a posted message joins the end of the outbox |
| CrunchApi.DefaultOptions | src/crunch-api.mjs:4 | the options used are always truthy, are the given ones when truthy, and `{}` otherwise |
| CrunchApi.OpenMessage | src/crunch-api.mjs:7-10 | the `open` message has `name` 'open' and `args` `[id, options]` |
| CrunchApi.ExecMessage | src/crunch-api.mjs:21 | the `exec` message has `name` 'exec' and `args` `[id, query]` |
| CrunchApi.ConnectionProxy.constructor | src/crunch-api.mjs:15-18 | the proxy keeps its id and worker |
| CrunchApi.ConnectionProxy.Exec | src/crunch-api.mjs:20-22 | posts exactly one `exec` message with the proxy's own id to its own worker |
| CrunchApi.IssuedIds | src/crunch-api.mjs:6 | the ids the calls have taken are 1, 2, 3, ... in call order |
| CrunchApi.IssuedIdsIncreasing | src/crunch-api.mjs:6 | the ids handed out are distinct and strictly increasing |
| CrunchApi.Api.constructor | src/crunch-api.mjs:1 | the counter starts at 1 with no ids issued |
| CrunchApi.Api.CreateDb | src/crunch-api.mjs:3-12 | the id is the counter's current value, which goes up by one; the id is larger than every earlier id; a fresh worker is started on `crunch-worker.mjs` as a module; its outbox is exactly the `open` message with that id and the defaulted options; the returned proxy holds that id and worker |
| CrunchApi.OpenMessageHandled | src/crunch-api.mjs:7-10 | every `open` message passes the bridge's name and args checks. With `crunch_open` registered it calls that method once with `[id, options]`; otherwise the only error is the missing method |
| CrunchApi.ExecMessageHandled | src/crunch-api.mjs:21 | every `exec` message passes the bridge's name and args checks. With `crunch_exec` registered it calls that method once with `[id, query]`; otherwise the only error is the missing method |
| CrunchApi.OpenAfterReadyLostAsWritten | src/crunch-worker.mjs:37 | an `open` message posted after readiness calls `crunch_open` with the corrected switch, and calls nothing as written |

## Left out

- File loading in `CrunchEngine.open` is not modelled. This covers FileReader, the Promise and `FS.open`/`write`/`close` (asynchronous browser I/O). Only the URI choice and the `nextId` increment are modelled; a file's bytes play no part.
- Crunch.CrunchEngine.Open: runs atomically, which `open` does not. `open` is `async` (src/index.mjs:14), so it returns a Promise and a failed `sqlite3_open` rejects that Promise rather than throwing. With a file, `nextId++` (line 17) runs before `await p` (line 29) and `sqlite3_open` (line 34) after it, so other calls can run between the two.
- The end-to-end tests call `engine.open()` without `await` (src/end_to_end_systemtest.mjs:7, 14, 21, 32, 40), so as written `conn` is a Promise and has no `query` or `exec`. The test lemmas start from the statement a real connection would prepare.
- Sqlite.PrepareOutcome: has no outcome for SQLITE_OK with a NULL statement, which SQLite returns for empty or comment-only SQL. So `exec('')` stepping handle 0, getting SQLITE_MISUSE and throwing is not captured, and neither is `query('')` handing out a result on handle 0.
- `createEngine` (asynchronous emscripten start-up) is not modelled. Readiness is the bridge's one-shot `onRuntimeInitialized` transition.
- The `console.error` the iterator makes when finalize fails is not modelled. It writes to the console only.
- SQLite, the raw bindings and the status constants are an oracle:
  - raw.mjs and sqlite_codes.mjs are not part of this model, and neither is SQL semantics;
  - step outcomes are scripted per statement;
  - stepping past the end of a script, or stepping a finalized statement, reports SQLITE_MISUSE;
  - finalizing twice reports SQLITE_MISUSE. Real SQLite leaves this undefined.
- src/crunch.cc is not modelled. Its wrappers only forward to SQLite and print.
- Column values read with `sqlite3_column_double` are opaque values, with no floating point. Integers are unbounded. JavaScript's 2^53 limit on `nextId` and on ids is not modelled.
- A row is a map, so the insertion order of its keys is not modelled.
- `Bridge.OnRuntimeInitialized` takes `defs` as a parameter:
  - src/index.mjs exports neither `defs` nor `CrunchModule` (its one export is `createEngine`, line 152), so as written the worker's `import` at src/crunch-worker.mjs:1 fails when the module is linked and the worker script never runs; the model assumes the import resolves;
  - `module.cwrap` and the C function it wraps are not modelled. A wrapped method is its definition, and a call is logged as an invocation.
- The replay stops at the first thrown error because the throw leaves the `for` loop of `onRuntimeInitialized` (src/crunch-worker.mjs:33-35). Later events are different: the worker's event loop reports an uncaught error from `onmessage` and carries on with the next event, and `RunEvents` models exactly that.
- `Js.ArgList` treats an object as array-like only through a positive integer `length`. Fractional lengths and getters are not modelled.
- Error texts that JavaScript itself produces are approximations. This covers reading a property of undefined or null, and `apply` on a non-object.
- Inherited properties are not modelled, except that assigning to the key `__proto__` creates no own property (`Js.Assign`, used for row objects and the wrapper's methods). A message's `name` and `args`, and the wrapper's methods, are read as own properties only. No registered name collides with `Object.prototype` once prefixed with `crunch_`.
- Worker transport and structured cloning are not modelled. A posted message arrives as the same value, in FIFO order.

## Findings

| source | as written | input that shows it | evidently intended | confidence | as-written member | corrected member |
|---|---|---|---|---|---|---|
| src/index.mjs:77-82 | in `exec`, a failing step throws from inside the loop, so the finalize at line 82 is never reached and the statement stays live | a statement that yields a row, then fails a constraint check | finalize on every exit path and still throw the step's error (`ExecFinalizingFinalizesOnce`) | high; not executed | Crunch.ExecStepErrorSkipsFinalize | Crunch.CrunchConnection.ExecFinalizing |
| src/index.mjs:143 | the iterator's end sets `this.is_done`, but the guard at line 115 tests `this.isDone`, so the flag the guard reads is never set | a second `next()` after the sequence ended on SQLITE_DONE: it steps the finalized statement and finalizes it again | an exhausted iterator ends at once with no raw call (`NextFixedTwiceAtEnd`) | high; not executed | Crunch.CrunchResult.NextTwiceAtEnd | Crunch.CrunchResult.NextFixed |
| src/index.mjs:140-144 | a failing step during iteration finalizes and ends the sequence as if it were done; the error is swallowed | a statement whose next step fails: `next()` returns `done: true` | the step's SqlError is thrown after finalizing | medium; not executed | Crunch.CrunchResult.Next | Crunch.CrunchResult.NextFixed |
| src/crunch-worker.mjs:37 | `self.onmessage = handleMessage` hands the MessageEvent itself to `handleMessage`, not its `data`. The event has no `name`, so every message after readiness throws and is lost | the `open` message that `createDb` posts, arriving after readiness | `self.onmessage = m => handleMessage(m.data)`, so no message is dropped or reordered across the switch (`FixedBridgeLosesNothing`) | high; not executed | CrunchWorker.AsWrittenBridgeLosesPostReady | CrunchWorker.Bridge.OnMessageFixed |
