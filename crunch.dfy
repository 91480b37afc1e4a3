/**
 * The statement lifecycle and the result iterator of src/index.mjs:
 * `CrunchEngine` opens connections, `CrunchConnection` prepares statements
 * and runs them (`exec`) or hands them to a lazy `CrunchResult` (`query`),
 * whose iterator steps once per `next()` and builds each row by column type.
 *
 * Every operation is stated against the raw call log of `Sqlite.Raw`: which
 * raw calls it makes, in which order, what it returns or throws, and what
 * state the statement is left in. The model keeps the source's defects
 * (`Exec` leaves the statement live when a step fails; `Next` writes
 * `is_done` but tests `isDone`) and gives corrected variants beside them
 * (`ExecFinalizing`, `NextFixed`).
 */
module Crunch {
  import opened Wrappers
  import opened Js
  import opened Decimal
  import opened Sqlite

  /** A row value: a JavaScript number read as an integer or a double, or a string. */
  datatype Value = IntV(i: int) | TextV(s: string) | FloatV(d: Double)

  /** A row object: column name to value (a later column of the same name overwrites). */
  type Row = map<string, Value>

  /** What one `next()` of the result iterator does. */
  datatype IterStep = Yield(row: Row) | End | Throw(message: string)

  /** A browser `File` handed to `open`; its bytes go to the virtual file system. */
  datatype File = File(bytes: seq<bv8>)

  // ---------------------------------------------------------------------
  // CrunchEngine.open: the database URI

  const MemoryUri := ":memory:"

  function FileUri(id: nat): string
  {
    "/db" + NatToString(id)
  }

  /** The URI `open` passes to `sqlite3_open`, given the file (if any) and `nextId`. */
  function UriFor(file: Option<File>, id: nat): string
  {
    if file.Some? then FileUri(id) else MemoryUri
  }

  /** Files opened under different ids get different paths, none of them the in-memory URI. */
  lemma FileUrisDistinct(a: nat, b: nat)
    requires a != b
    ensures FileUri(a) != FileUri(b)
    ensures FileUri(a) != MemoryUri
  {
    assert FileUri(a)[0] == '/';
    if FileUri(a) == FileUri(b) {
      assert FileUri(a)[3..] == NatToString(a);
      assert FileUri(b)[3..] == NatToString(b);
      NatToStringInjective(a, b);
    }
  }

  // ---------------------------------------------------------------------
  // CrunchConnection.throwSqlError and exec

  /** The message of the `Error` thrown for `status` when errmsg reports `errmsg`. */
  function SqlErrorText(status: Status, errmsg: string): string
  {
    ErrStrText(status) + ": " + errmsg
  }

  /** The raw calls throwSqlError makes: errmsg first, then errstr. */
  function ThrowTrace(db: Handle, status: Status): seq<Call>
  {
    [ErrMsgCall(db), ErrStrCall(status)]
  }

  function StepCalls(h: Handle, n: nat): seq<Call>
  {
    seq(n, _ => StepCall(h))
  }

  /** The first step at or after `p` that does not produce a row. */
  function FirstNonRow(steps: seq<StepOutcome>, p: nat): (k: nat)
    requires p <= |steps|
    ensures p <= k <= |steps|
    ensures forall j :: p <= j < k ==> steps[j].Produce?
    ensures !OutcomeAt(steps, k).Produce?
    decreases |steps| - p
  {
    if p < |steps| && steps[p].Produce? then FirstNonRow(steps, p + 1) else p
  }

  /** How many rows `exec` discards before its loop meets a non-row step. */
  function ExecStop(sc: StmtScript): nat
  {
    FirstNonRow(sc.steps, 0)
  }

  /** The step outcome that ends `exec`'s loop: a completion or a failure. */
  function ExecStopOutcome(sc: StmtScript): (o: StepOutcome)
    ensures o.Complete? || o.Fail?
  {
    OutcomeAt(sc.steps, ExecStop(sc))
  }

  /** The raw calls of `exec` after a successful prepare of `sc` as statement `h`. */
  function ExecTrace(db: Handle, h: Handle, sc: StmtScript): seq<Call>
  {
    var o := ExecStopOutcome(sc);
    StepCalls(h, ExecStop(sc) + 1) +
    if o.Complete? then
      [FinalizeCall(h)] + (if sc.finalizeFault.Some? then ThrowTrace(db, Err(sc.finalizeFault.value.code)) else [])
    else ThrowTrace(db, StatusOf(o))
  }

  /** How `exec` ends after a successful prepare of `sc`. */
  function ExecCompletion(sc: StmtScript): Completion
  {
    var o := ExecStopOutcome(sc);
    if o.Fail? then Thrown(SqlErrorText(StatusOf(o), o.fault.message))
    else match sc.finalizeFault
      case None => Normal
      case Some(f) => Thrown(SqlErrorText(Err(f.code), f.message))
  }

  /** The statement as `exec` leaves it: finalized only on the DONE path. */
  function ExecFinalState(db: Handle, sc: StmtScript): StmtState
  {
    StmtState(db, sc, ExecStop(sc) + 1, [], ExecStopOutcome(sc).Complete?)
  }

  /** How `exec` ends, given the outcome of its prepare. */
  function ExecResult(p: PrepareOutcome): Completion
  {
    match p
    case Rejected(f) => Thrown(SqlErrorText(Err(f.code), f.message))
    case Compiled(sc) => ExecCompletion(sc)
  }

  /** The raw calls of `exec`, given the outcome of its prepare and the handle a compiled statement gets. */
  function ExecCalls(db: Handle, sql: string, h: Handle, p: PrepareOutcome): seq<Call>
  {
    [PrepareCall(db, sql, -1)] +
    match p
    case Rejected(f) => ThrowTrace(db, Err(f.code))
    case Compiled(sc) => ExecTrace(db, h, sc)
  }

  /** The engine's statements after `exec`. */
  function ExecStmts(stmts: seq<StmtState>, db: Handle, p: PrepareOutcome): seq<StmtState>
  {
    match p
    case Rejected(_) => stmts
    case Compiled(sc) => stmts + [ExecFinalState(db, sc)]
  }

  /** The connections' error messages after `exec` ran the compiled `sc`. */
  function ExecAfterMessages(messages: map<Handle, string>, db: Handle, sc: StmtScript): map<Handle, string>
  {
    var o := ExecStopOutcome(sc);
    if o.Fail? then messages[db := o.fault.message]
    else if sc.finalizeFault.Some? then messages[db := sc.finalizeFault.value.message]
    else messages
  }

  /** The connections' error messages after `exec`. */
  function ExecMessages(messages: map<Handle, string>, db: Handle, p: PrepareOutcome): map<Handle, string>
  {
    match p
    case Rejected(f) => messages[db := f.message]
    case Compiled(sc) => ExecAfterMessages(messages, db, sc)
  }

  function Count(calls: seq<Call>, c: Call): nat
  {
    multiset(calls)[c]
  }

  /**
   * `exec` finalizes its statement exactly once when the loop ended on
   * SQLITE_DONE and never when a step failed.
   */
  lemma ExecFinalizeDiscipline(db: Handle, h: Handle, sc: StmtScript)
    ensures Count(ExecTrace(db, h, sc), FinalizeCall(h)) == if ExecStopOutcome(sc).Complete? then 1 else 0
    ensures ExecFinalState(db, sc).finalized <==> ExecStopOutcome(sc).Complete?
  {
    var o := ExecStopOutcome(sc);
    var tail := if o.Complete? then
      [FinalizeCall(h)] + (if sc.finalizeFault.Some? then ThrowTrace(db, Err(sc.finalizeFault.value.code)) else [])
      else ThrowTrace(db, StatusOf(o));
    assert ExecTrace(db, h, sc) == StepCalls(h, ExecStop(sc) + 1) + tail;
    assert FinalizeCall(h) !in StepCalls(h, ExecStop(sc) + 1);
  }

  /**
   * `exec` returns normally exactly when some step reports SQLITE_DONE after
   * nothing but rows, and finalizing then succeeds.
   */
  lemma ExecNormalIff(sc: StmtScript)
    ensures ExecCompletion(sc) == Normal <==>
      && (exists k :: 0 <= k < |sc.steps| && sc.steps[k].Complete? && forall j :: 0 <= j < k ==> sc.steps[j].Produce?)
      && sc.finalizeFault.None?
  {
    var stop := ExecStop(sc);
    if ExecCompletion(sc) == Normal {
      assert stop < |sc.steps| && sc.steps[stop].Complete?;
    }
    forall k | 0 <= k < |sc.steps| && sc.steps[k].Complete? && (forall j :: 0 <= j < k ==> sc.steps[j].Produce?)
      ensures stop == k
    {
    }
  }

  /** The raw calls of the corrected `exec`: errors are read, then the statement is finalized. */
  function ExecFinalizingTrace(db: Handle, h: Handle, sc: StmtScript): seq<Call>
  {
    var o := ExecStopOutcome(sc);
    StepCalls(h, ExecStop(sc) + 1) +
    if o.Complete? then
      [FinalizeCall(h)] + (if sc.finalizeFault.Some? then ThrowTrace(db, Err(sc.finalizeFault.value.code)) else [])
    else ThrowTrace(db, StatusOf(o)) + [FinalizeCall(h)]
  }

  function ExecFinalizingCalls(db: Handle, sql: string, h: Handle, p: PrepareOutcome): seq<Call>
  {
    [PrepareCall(db, sql, -1)] +
    match p
    case Rejected(f) => ThrowTrace(db, Err(f.code))
    case Compiled(sc) => ExecFinalizingTrace(db, h, sc)
  }

  function ExecFinalizingStmts(stmts: seq<StmtState>, db: Handle, p: PrepareOutcome): seq<StmtState>
  {
    match p
    case Rejected(_) => stmts
    case Compiled(sc) => stmts + [ExecFinalState(db, sc).(finalized := true)]
  }

  function ExecFinalizingAfterMessages(messages: map<Handle, string>, db: Handle, sc: StmtScript): map<Handle, string>
  {
    if ExecStopOutcome(sc).Fail? && sc.finalizeFault.Some? then messages[db := sc.finalizeFault.value.message]
    else ExecAfterMessages(messages, db, sc)
  }

  function ExecFinalizingMessages(messages: map<Handle, string>, db: Handle, p: PrepareOutcome): map<Handle, string>
  {
    match p
    case Rejected(f) => messages[db := f.message]
    case Compiled(sc) => ExecFinalizingAfterMessages(messages, db, sc)
  }

  /**
   * The corrected `exec` finalizes its statement exactly once on every path
   * after a successful prepare, and surfaces the same error as the original.
   */
  lemma ExecFinalizingFinalizesOnce(db: Handle, h: Handle, sc: StmtScript)
    ensures Count(ExecFinalizingTrace(db, h, sc), FinalizeCall(h)) == 1
    ensures ExecFinalizingTrace(db, h, sc)[..ExecStop(sc) + 1] == ExecTrace(db, h, sc)[..ExecStop(sc) + 1]
  {
    var o := ExecStopOutcome(sc);
    var steps := StepCalls(h, ExecStop(sc) + 1);
    assert FinalizeCall(h) !in StepCalls(h, ExecStop(sc) + 1);
    if o.Complete? {
      var tail := [FinalizeCall(h)] + (if sc.finalizeFault.Some? then ThrowTrace(db, Err(sc.finalizeFault.value.code)) else []);
      assert ExecFinalizingTrace(db, h, sc) == steps + tail;
      assert Count(tail, FinalizeCall(h)) == 1;
    } else {
      var tail := ThrowTrace(db, StatusOf(o)) + [FinalizeCall(h)];
      assert ExecFinalizingTrace(db, h, sc) == steps + tail;
      assert ExecTrace(db, h, sc) == steps + ThrowTrace(db, StatusOf(o));
    }
  }

  /** A statement that yields one row, then fails a constraint check. */
  const FailingScript := StmtScript(["a"], [Produce([]), Fail(Fault(Constraint, "UNIQUE constraint failed"))], None)

  /**
   * The `exec` defect on one concrete statement: the step error is thrown
   * and the statement is never finalized, while the corrected `exec`
   * throws the same error and finalizes it.
   */
  lemma ExecStepErrorSkipsFinalize(db: Handle, h: Handle)
    ensures ExecCompletion(FailingScript) == Thrown(SqlErrorText(Err(Constraint), "UNIQUE constraint failed"))
    ensures Count(ExecTrace(db, h, FailingScript), FinalizeCall(h)) == 0
    ensures !ExecFinalState(db, FailingScript).finalized
    ensures Count(ExecFinalizingTrace(db, h, FailingScript), FinalizeCall(h)) == 1
  {
    assert FirstNonRow(FailingScript.steps, 1) == 1;
    assert ExecStop(FailingScript) == 1;
    ExecFinalizeDiscipline(db, h, FailingScript);
    ExecFinalizingFinalizesOnce(db, h, FailingScript);
  }

  // ---------------------------------------------------------------------
  // CrunchResult: rows

  /** The value the accessor matching the cell's type reads, if there is one. */
  function ReadValue(c: Cell): Option<Value>
  {
    match c.tag
    case Integer => Some(IntV(c.asInt))
    case Text => Some(TextV(c.asText))
    case Float => Some(FloatV(c.asDouble))
    case _ => None
  }

  /** The accessor call `next()` makes for a column of type `t`. */
  function ReadCalls(t: ColumnType, h: Handle, i: nat): seq<Call>
  {
    match t
    case Integer => [ColumnIntCall(h, i)]
    case Text => [ColumnTextCall(h, i)]
    case Float => [ColumnDoubleCall(h, i)]
    case _ => []
  }

  /** The row loop's calls over its first `n` columns: each bound test, then the column's type, name and accessor. */
  function ColumnsTrace(h: Handle, cells: seq<Cell>, n: nat): seq<Call>
  {
    if n == 0 then [ColumnCountCall(h)]
    else
      ColumnsTrace(h, cells, n - 1) + [ColumnTypeCall(h, n - 1)] + [ColumnNameCall(h, n - 1)]
      + ReadCalls(CellAt(cells, n - 1).tag, h, n - 1) + [ColumnCountCall(h)]
  }

  /** The log after one more column pass, written the way the calls append to it. */
  lemma ColumnsTraceAppend(start: seq<Call>, h: Handle, cells: seq<Cell>, i: nat)
    ensures start + ColumnsTrace(h, cells, i + 1) ==
      start + ColumnsTrace(h, cells, i) + [ColumnTypeCall(h, i)] + [ColumnNameCall(h, i)]
      + ReadCalls(CellAt(cells, i).tag, h, i) + [ColumnCountCall(h)]
    ensures start + (ColumnsTrace(h, cells, i) + [ColumnTypeCall(h, i)] + [ColumnNameCall(h, i)]) ==
      start + ColumnsTrace(h, cells, i) + [ColumnTypeCall(h, i)] + [ColumnNameCall(h, i)]
  {
    var x := ColumnsTrace(h, cells, i);
    var a, b, r, c := [ColumnTypeCall(h, i)], [ColumnNameCall(h, i)], ReadCalls(CellAt(cells, i).tag, h, i), [ColumnCountCall(h)];
    assert start + (x + a + b + r + c) == start + (x + a + b + r) + c;
    assert start + (x + a + b + r) == start + (x + a + b) + r;
    assert start + (x + a + b) == start + (x + a) + b;
    assert start + (x + a) == start + x + a;
  }

  /** The first column in `[p, n)` whose type has no accessor, or `n`. */
  function FirstUnreadable(cells: seq<Cell>, p: nat, n: nat): (j: nat)
    requires p <= n
    ensures p <= j <= n
    ensures forall i :: p <= i < j ==> ReadValue(CellAt(cells, i)).Some?
    ensures j < n ==> ReadValue(CellAt(cells, j)).None?
    decreases n - p
  {
    if p < n && ReadValue(CellAt(cells, p)).Some? then FirstUnreadable(cells, p + 1, n) else p
  }

  /**
   * The row built from the first `n` columns, each assigned in index order
   * with `row[name] = value` (so a column named `__proto__` adds no key).
   */
  function RowOf(names: seq<string>, cells: seq<Cell>, n: nat): Row
    requires n <= |names|
  {
    if n == 0 then map[]
    else match ReadValue(CellAt(cells, n - 1))
      case Some(v) => Assign(RowOf(names, cells, n - 1), names[n - 1], v)
      case None => RowOf(names, cells, n - 1)
  }

  /** What `next()` yields for a ROW step positioned on `cells`. */
  function RowStep(names: seq<string>, cells: seq<Cell>): IterStep
  {
    var j := FirstUnreadable(cells, 0, |names|);
    if j == |names| then Yield(RowOf(names, cells, |names|))
    else Throw("Unkown type " + NatToString(TypeCode(CellAt(cells, j).tag)))
  }

  /** The raw calls `next()` makes building that row, after its step. */
  function RowTrace(h: Handle, names: seq<string>, cells: seq<Cell>): seq<Call>
  {
    var j := FirstUnreadable(cells, 0, |names|);
    if j == |names| then ColumnsTrace(h, cells, j)
    else ColumnsTrace(h, cells, j) + [ColumnTypeCall(h, j)] + [ColumnNameCall(h, j)]
  }

  /** The row has exactly one key per distinct column name, except `__proto__`, which never becomes a key. */
  lemma {:induction false} RowOfKeys(names: seq<string>, cells: seq<Cell>, n: nat)
    requires n <= |names|
    requires forall i :: 0 <= i < n ==> ReadValue(CellAt(cells, i)).Some?
    ensures RowOf(names, cells, n).Keys == (set i | 0 <= i < n :: names[i]) - {ProtoKey}
  {
    if n > 0 {
      RowOfKeys(names, cells, n - 1);
      assert (set i | 0 <= i < n :: names[i]) == (set i | 0 <= i < n - 1 :: names[i]) + {names[n - 1]};
    }
  }

  /**
   * A name's value is read from the LAST column carrying that name; a
   * column named `__proto__` leaves no value at all.
   */
  lemma {:induction false} RowOfLastWins(names: seq<string>, cells: seq<Cell>, n: nat, i: nat)
    requires i < n <= |names|
    requires ReadValue(CellAt(cells, i)).Some?
    requires forall k :: i < k < n ==> names[k] != names[i]
    ensures names[i] != ProtoKey ==>
      names[i] in RowOf(names, cells, n) && RowOf(names, cells, n)[names[i]] == ReadValue(CellAt(cells, i)).value
    ensures names[i] == ProtoKey ==> names[i] !in RowOf(names, cells, n)
  {
    if i < n - 1 {
      RowOfLastWins(names, cells, n - 1, i);
    } else {
      RowOfNoProto(names, cells, n - 1);
    }
  }

  /** No row has a `__proto__` key. */
  lemma {:induction false} RowOfNoProto(names: seq<string>, cells: seq<Cell>, n: nat)
    requires n <= |names|
    ensures ProtoKey !in RowOf(names, cells, n)
  {
    if n > 0 {
      RowOfNoProto(names, cells, n - 1);
    }
  }

  /** A ROW step whose columns all have accessors yields a row; otherwise `next()` throws at the first that has none. */
  lemma RowStepCases(names: seq<string>, cells: seq<Cell>)
    ensures RowStep(names, cells).Yield? <==> forall i :: 0 <= i < |names| ==> CellAt(cells, i).tag in {Integer, Text, Float}
    ensures RowStep(names, cells).Throw? ==>
      exists j :: 0 <= j < |names| && CellAt(cells, j).tag in {Blob, ColumnType.Null}
        && RowStep(names, cells).message == "Unkown type " + NatToString(TypeCode(CellAt(cells, j).tag))
  {
    var j := FirstUnreadable(cells, 0, |names|);
    if j < |names| {
      assert CellAt(cells, j).tag in {Blob, ColumnType.Null};
    }
    if !RowStep(names, cells).Yield? {
      assert !(CellAt(cells, j).tag in {Integer, Text, Float});
    }
  }

  // ---------------------------------------------------------------------
  // `[...result]`: the iterator run to its end

  /**
   * The statement state from which `[...result]` takes its last step: the
   * first state, from `st` on, whose step does not yield a row.
   */
  function SpreadStop(st: StmtState): (e: StmtState)
    ensures e.db == st.db && e.script == st.script && e.finalized == st.finalized
    ensures NextOutcome(e).Produce? ==> RowStep(e.script.names, NextOutcome(e).cells).Throw?
    decreases |st.script.steps| - st.pos
  {
    match NextOutcome(st)
    case Produce(cells) =>
      if RowStep(st.script.names, cells).Yield? then SpreadStop(Stepped(st)) else st
    case _ => st
  }

  /** The rows `[...result]` collects from state `st` on, in step order. */
  function SpreadRows(st: StmtState): seq<Row>
    decreases |st.script.steps| - st.pos
  {
    match NextOutcome(st)
    case Produce(cells) =>
      (match RowStep(st.script.names, cells)
       case Yield(row) => [row] + SpreadRows(Stepped(st))
       case _ => [])
    case _ => []
  }

  /** The raw calls of `[...result]` from state `st` on. */
  function SpreadTrace(h: Handle, st: StmtState): seq<Call>
    decreases |st.script.steps| - st.pos
  {
    match NextOutcome(st)
    case Produce(cells) =>
      [StepCall(h)] + RowTrace(h, st.script.names, cells)
      + (if RowStep(st.script.names, cells).Yield? then SpreadTrace(h, Stepped(st)) else [])
    case _ => [StepCall(h), FinalizeCall(h)]
  }

  /**
   * What `[...result]` evaluates to: the array of the rows at the end of
   * the rows, or the type error of a row it cannot build, thrown (the rows
   * collected before it are lost with the unfinished array).
   */
  function SpreadResult(st: StmtState): Result<seq<Row>, string>
  {
    var e := SpreadStop(st);
    match NextOutcome(e)
    case Produce(cells) => Failure(RowStep(e.script.names, cells).message)
    case _ => Success(SpreadRows(st))
  }

  /** The statement after `[...result]`: finalized at the end of the rows, left live after a type error. */
  function SpreadFinal(st: StmtState): StmtState
  {
    var e := SpreadStop(st);
    if NextOutcome(e).Produce? then Stepped(e) else Finalized(Stepped(e))
  }

  function SpreadMessages(messages: map<Handle, string>, st: StmtState): map<Handle, string>
  {
    var e := SpreadStop(st);
    if NextOutcome(e).Produce? then messages else MessagesAfterFinalize(MessagesAfterStep(messages, e), Stepped(e))
  }

  /**
   * The loop invariant of `[...result]` started on `st`: from `cur` on, the
   * spread stops where it would have from `st`, and the rows and the raw
   * calls so far, followed by those still to come, are the whole spread's.
   */
  ghost predicate SpreadsTo(h: Handle, st: StmtState, log0: seq<Call>, cur: StmtState, rows: seq<Row>, log: seq<Call>)
  {
    && SpreadStop(cur) == SpreadStop(st)
    && rows + SpreadRows(cur) == SpreadRows(st)
    && log + SpreadTrace(h, cur) == log0 + SpreadTrace(h, st)
  }

  /** A `next()` that yields a row keeps the invariant, one step on. */
  lemma SpreadsToYield(h: Handle, st: StmtState, log0: seq<Call>, cur: StmtState, rows: seq<Row>, log: seq<Call>)
    requires SpreadsTo(h, st, log0, cur, rows, log)
    requires NextOutcome(cur).Produce? && RowStep(cur.script.names, NextOutcome(cur).cells).Yield?
    ensures SpreadsTo(h, st, log0, Stepped(cur), rows + [RowStep(cur.script.names, NextOutcome(cur).cells).row],
      log + [StepCall(h)] + RowTrace(h, cur.script.names, NextOutcome(cur).cells))
  {
    var cells := NextOutcome(cur).cells;
    var r := RowStep(cur.script.names, cells).row;
    assert SpreadRows(cur) == [r] + SpreadRows(Stepped(cur));
    assert rows + [r] + SpreadRows(Stepped(cur)) == rows + ([r] + SpreadRows(Stepped(cur)));
    var a, b, c := [StepCall(h)], RowTrace(h, cur.script.names, cells), SpreadTrace(h, Stepped(cur));
    assert SpreadTrace(h, cur) == a + b + c;
    assert log + a + b + c == log + (a + b + c);
  }

  /** A `next()` that ends the sequence ends the spread: its rows are all there were. */
  lemma SpreadsToEnd(h: Handle, st: StmtState, log0: seq<Call>, cur: StmtState, rows: seq<Row>, log: seq<Call>)
    requires SpreadsTo(h, st, log0, cur, rows, log)
    requires !NextOutcome(cur).Produce?
    ensures SpreadStop(st) == cur
    ensures SpreadResult(st) == Success(rows)
    ensures log + [StepCall(h), FinalizeCall(h)] == log0 + SpreadTrace(h, st)
  {
    assert rows + SpreadRows(cur) == rows;
  }

  /** A `next()` that throws ends the spread with its error. */
  lemma SpreadsToThrow(h: Handle, st: StmtState, log0: seq<Call>, cur: StmtState, rows: seq<Row>, log: seq<Call>)
    requires SpreadsTo(h, st, log0, cur, rows, log)
    requires NextOutcome(cur).Produce? && RowStep(cur.script.names, NextOutcome(cur).cells).Throw?
    ensures SpreadStop(st) == cur
    ensures SpreadResult(st) == Failure(RowStep(cur.script.names, NextOutcome(cur).cells).message)
    ensures log + [StepCall(h)] + RowTrace(h, cur.script.names, NextOutcome(cur).cells) == log0 + SpreadTrace(h, st)
  {
  }

  /**
   * A spread from a live statement returns its rows exactly when it leaves
   * the statement finalized; a row it cannot build throws and leaves the
   * statement live.
   */
  lemma SpreadFinalizesIff(st: StmtState)
    requires !st.finalized
    ensures SpreadResult(st).Success? <==> SpreadFinal(st).finalized
  {
  }

  /**
   * When every row up to the first non-row step can be built, a spread
   * from a live statement collects exactly those rows, one per step, in
   * script order.
   */
  lemma {:induction false} SpreadRowsInOrder(st: StmtState)
    requires !st.finalized && st.pos <= |st.script.steps|
    requires forall k :: st.pos <= k < FirstNonRow(st.script.steps, st.pos) ==>
      FirstUnreadable(st.script.steps[k].cells, 0, |st.script.names|) == |st.script.names|
    ensures |SpreadRows(st)| == FirstNonRow(st.script.steps, st.pos) - st.pos
    ensures forall j :: st.pos <= j < FirstNonRow(st.script.steps, st.pos) ==>
      SpreadRows(st)[j - st.pos] == RowOf(st.script.names, st.script.steps[j].cells, |st.script.names|)
    decreases |st.script.steps| - st.pos
  {
    var steps := st.script.steps;
    if st.pos < |steps| && steps[st.pos].Produce? {
      assert FirstNonRow(steps, st.pos) == FirstNonRow(steps, st.pos + 1);
      var next := Stepped(st);
      SpreadRowsInOrder(next);
      SpreadRowsHead(st);
      var names, rows := st.script.names, SpreadRows(st);
      assert next.script == st.script && next.pos == st.pos + 1;
      forall j | st.pos < j < FirstNonRow(steps, st.pos)
        ensures rows[j - st.pos] == RowOf(names, steps[j].cells, |names|)
      {
        assert rows[j - st.pos] == SpreadRows(next)[j - next.pos];
      }
    }
  }

  /** A buildable row heads the rows of the spread, followed by the rest of them. */
  lemma SpreadRowsHead(st: StmtState)
    requires !st.finalized && st.pos < |st.script.steps| && st.script.steps[st.pos].Produce?
    requires FirstUnreadable(st.script.steps[st.pos].cells, 0, |st.script.names|) == |st.script.names|
    ensures SpreadRows(st) == [RowOf(st.script.names, st.script.steps[st.pos].cells, |st.script.names|)] + SpreadRows(Stepped(st))
  {
  }

  /** Under the same condition the spread returns the rows it collected: no row throws. */
  lemma {:induction false} SpreadReturnsRows(st: StmtState)
    requires !st.finalized && st.pos <= |st.script.steps|
    requires forall k :: st.pos <= k < FirstNonRow(st.script.steps, st.pos) ==>
      FirstUnreadable(st.script.steps[k].cells, 0, |st.script.names|) == |st.script.names|
    ensures SpreadResult(st) == Success(SpreadRows(st))
    decreases |st.script.steps| - st.pos
  {
    if NextOutcome(st).Produce? {
      assert FirstNonRow(st.script.steps, st.pos) == FirstNonRow(st.script.steps, st.pos + 1);
      SpreadReturnsRows(Stepped(st));
      assert SpreadStop(st) == SpreadStop(Stepped(st));
    }
  }

  // ---------------------------------------------------------------------
  // Classes

  class CrunchEngine {
    const raw: Raw
    var nextId: nat

    constructor (raw: Raw)
      ensures this.raw == raw && nextId == 1
    {
      this.raw := raw;
      nextId := 1;
    }

    /**
     * `open(opt_file)`: a file goes to `/db<nextId>` and bumps `nextId`;
     * otherwise the database is in memory. A failing `sqlite3_open` throws.
     */
    method Open(file: Option<File>) returns (conn: CrunchConnection?, out: Completion)
      modifies this`nextId, raw`log, raw`opens, raw`messages
      ensures nextId == old(nextId) + (if file.Some? then 1 else 0)
      ensures raw.log == old(raw.log) + [OpenCall(UriFor(file, old(nextId)))]
      ensures raw.opens == old(raw.opens) + 1
      ensures raw.openOracle(old(raw.opens)).None? ==> out == Normal && raw.messages == old(raw.messages)
      ensures raw.openOracle(old(raw.opens)).Some? ==>
        && out == Thrown("Unable to open database")
        && raw.messages == old(raw.messages)[raw.opens := raw.openOracle(old(raw.opens)).value.message]
      ensures conn != null <==> out == Normal
      ensures conn != null ==> fresh(conn) && conn.engine == this && conn.db == raw.opens
    {
      var uri := MemoryUri;
      if file.Some? {
        var filename := FileUri(nextId);
        nextId := nextId + 1;
        uri := filename;
      }
      var result, db := raw.Open(uri);
      if result != Ok {
        return null, Thrown("Unable to open database");
      }
      conn := new CrunchConnection(this, db);
      out := Normal;
    }
  }

  class CrunchConnection {
    const engine: CrunchEngine
    const db: Handle

    constructor (engine: CrunchEngine, db: Handle)
      ensures this.engine == engine && this.db == db
    {
      this.engine := engine;
      this.db := db;
    }

    /** `throwSqlError(result)`: the message of the `Error` it throws. */
    method ThrowSqlError(result: Status) returns (message: string)
      modifies engine.raw`log
      ensures engine.raw.log == old(engine.raw.log) + ThrowTrace(db, result)
      ensures message == SqlErrorText(result, engine.raw.ErrMsgOf(db))
    {
      var msg := engine.raw.ErrMsg(db);
      var code := engine.raw.ErrStr(result);
      message := code + ": " + msg;
    }

    /** `query(sql)`: prepares and hands the statement, unstepped, to a new result. */
    method Query(sql: string) returns (res: CrunchResult?, out: Completion)
      modifies engine.raw`log, engine.raw`prepares, engine.raw`stmts, engine.raw`messages
      ensures engine.raw.prepares == old(engine.raw.prepares) + 1
      ensures match engine.raw.prepareOracle(old(engine.raw.prepares))
        case Compiled(sc) =>
          && out == Normal && res != null && fresh(res)
          && res.engine == engine && res.stmt == |old(engine.raw.stmts)| + 1
          && !res.isDone && !res.is_done
          && engine.raw.log == old(engine.raw.log) + [PrepareCall(db, sql, -1)]
          && engine.raw.stmts == old(engine.raw.stmts) + [StmtState(db, sc, 0, [], false)]
          && engine.raw.messages == old(engine.raw.messages)
        case Rejected(f) =>
          && out == Thrown(SqlErrorText(Err(f.code), f.message)) && res == null
          && engine.raw.log == old(engine.raw.log) + [PrepareCall(db, sql, -1)] + ThrowTrace(db, Err(f.code))
          && engine.raw.stmts == old(engine.raw.stmts)
          && engine.raw.messages == old(engine.raw.messages)[db := f.message]
    {
      var prepareResult, stmt := engine.raw.Prepare(db, sql, -1);
      if prepareResult != Ok {
        var msg := ThrowSqlError(prepareResult);
        return null, Thrown(msg);
      }
      res := new CrunchResult(engine, stmt);
      out := Normal;
    }

    /**
     * The loop of `exec` on a freshly prepared statement: it steps, discarding
     * rows, until a step reports something other than SQLITE_ROW, and returns
     * that status (SQLITE_DONE ends the loop; anything else is thrown).
     */
    method DiscardRows(stmt: Handle) returns (stepResult: Status)
      requires engine.raw.HasStmt(stmt)
      requires engine.raw.Stmt(stmt).pos == 0 && !engine.raw.Stmt(stmt).finalized
      modifies engine.raw`log, engine.raw`stmts, engine.raw`messages
      ensures var st := old(engine.raw.Stmt(stmt));
        && stepResult == StatusOf(ExecStopOutcome(st.script))
        && engine.raw.log == old(engine.raw.log) + StepCalls(stmt, ExecStop(st.script) + 1)
        && engine.raw.stmts == old(engine.raw.stmts)[stmt - 1 := st.(pos := ExecStop(st.script) + 1, current := [])]
        && engine.raw.messages == MessagesAfterStep(old(engine.raw.messages), st.(pos := ExecStop(st.script)))
    {
      var raw := engine.raw;
      ghost var st := raw.Stmt(stmt);
      ghost var stop := ExecStop(st.script);
      ghost var pos: nat, cur := 0, st.current;
      while true
        invariant raw.HasStmt(stmt) && pos <= stop
        invariant raw.stmts == old(raw.stmts)[stmt - 1 := st.(pos := pos, current := cur)]
        invariant raw.log == old(raw.log) + StepCalls(stmt, pos)
        invariant raw.messages == old(raw.messages)
        decreases |st.script.steps| + 1 - pos
      {
        ghost var o := OutcomeAt(st.script.steps, pos);
        stepResult := raw.Step(stmt);
        pos, cur := pos + 1, if o.Produce? then o.cells else [];
        if stepResult != Row {
          assert pos == stop + 1;
          return;
        }
      }
    }

    /**
     * The rest of `exec` once `prepare` compiled the statement: the step loop
     * (a failing step throws at once, leaving the statement live), then
     * `sqlite3_finalize`, whose failure throws too.
     */
    method StepAndFinalize(stmt: Handle) returns (out: Completion)
      requires engine.raw.HasStmt(stmt) && engine.raw.Stmt(stmt).db == db
      requires engine.raw.Stmt(stmt).pos == 0 && !engine.raw.Stmt(stmt).finalized
      modifies engine.raw`log, engine.raw`stmts, engine.raw`messages
      ensures var sc := old(engine.raw.Stmt(stmt)).script;
        && out == ExecCompletion(sc)
        && engine.raw.log == old(engine.raw.log) + ExecTrace(db, stmt, sc)
        && engine.raw.stmts == old(engine.raw.stmts)[stmt - 1 := ExecFinalState(db, sc)]
        && engine.raw.messages == ExecAfterMessages(old(engine.raw.messages), db, sc)
    {
      var raw := engine.raw;
      var stepResult := DiscardRows(stmt);
      if stepResult != Done {
        var msg := ThrowSqlError(stepResult);
        return Thrown(msg);
      }
      var finalizeResult := raw.Finalize(stmt);
      if finalizeResult != Ok {
        var msg := ThrowSqlError(finalizeResult);
        return Thrown(msg);
      }
      out := Normal;
    }

    /** The corrected rest of `exec`: a failing step's error is read, then the statement is finalized. */
    method StepAndFinalizeAlways(stmt: Handle) returns (out: Completion)
      requires engine.raw.HasStmt(stmt) && engine.raw.Stmt(stmt).db == db
      requires engine.raw.Stmt(stmt).pos == 0 && !engine.raw.Stmt(stmt).finalized
      modifies engine.raw`log, engine.raw`stmts, engine.raw`messages
      ensures var sc := old(engine.raw.Stmt(stmt)).script;
        && out == ExecCompletion(sc)
        && engine.raw.log == old(engine.raw.log) + ExecFinalizingTrace(db, stmt, sc)
        && engine.raw.stmts == old(engine.raw.stmts)[stmt - 1 := ExecFinalState(db, sc).(finalized := true)]
        && engine.raw.messages == ExecFinalizingAfterMessages(old(engine.raw.messages), db, sc)
    {
      var raw := engine.raw;
      var stepResult := DiscardRows(stmt);
      if stepResult != Done {
        var msg := ThrowSqlError(stepResult);
        var _ := raw.Finalize(stmt);
        return Thrown(msg);
      }
      var finalizeResult := raw.Finalize(stmt);
      if finalizeResult != Ok {
        var msg := ThrowSqlError(finalizeResult);
        return Thrown(msg);
      }
      out := Normal;
    }

    /**
     * `exec(sql)`: prepares, steps until SQLITE_DONE discarding rows, then
     * finalizes. A failing step throws and leaves the statement live.
     */
    method Exec(sql: string) returns (out: Completion)
      modifies engine.raw`log, engine.raw`prepares, engine.raw`stmts, engine.raw`messages
      ensures engine.raw.prepares == old(engine.raw.prepares) + 1
      ensures out == ExecResult(engine.raw.prepareOracle(old(engine.raw.prepares)))
      ensures engine.raw.log == old(engine.raw.log)
        + ExecCalls(db, sql, |old(engine.raw.stmts)| + 1, engine.raw.prepareOracle(old(engine.raw.prepares)))
      ensures engine.raw.stmts == ExecStmts(old(engine.raw.stmts), db, engine.raw.prepareOracle(old(engine.raw.prepares)))
      ensures engine.raw.messages == ExecMessages(old(engine.raw.messages), db, engine.raw.prepareOracle(old(engine.raw.prepares)))
    {
      var prepareResult, stmt := engine.raw.Prepare(db, sql, -1);
      if prepareResult != Ok {
        var msg := ThrowSqlError(prepareResult);
        return Thrown(msg);
      }
      out := StepAndFinalize(stmt);
    }

    /**
     * `exec` corrected so that its statement is finalized on every path, as
     * SQLite asks of every prepared statement: on a failing step the error
     * is read first and the statement is finalized before the error is thrown.
     */
    method ExecFinalizing(sql: string) returns (out: Completion)
      modifies engine.raw`log, engine.raw`prepares, engine.raw`stmts, engine.raw`messages
      ensures engine.raw.prepares == old(engine.raw.prepares) + 1
      ensures out == ExecResult(engine.raw.prepareOracle(old(engine.raw.prepares)))
      ensures engine.raw.log == old(engine.raw.log)
        + ExecFinalizingCalls(db, sql, |old(engine.raw.stmts)| + 1, engine.raw.prepareOracle(old(engine.raw.prepares)))
      ensures engine.raw.stmts == ExecFinalizingStmts(old(engine.raw.stmts), db, engine.raw.prepareOracle(old(engine.raw.prepares)))
      ensures engine.raw.messages == ExecFinalizingMessages(old(engine.raw.messages), db, engine.raw.prepareOracle(old(engine.raw.prepares)))
    {
      var prepareResult, stmt := engine.raw.Prepare(db, sql, -1);
      if prepareResult != Ok {
        var msg := ThrowSqlError(prepareResult);
        return Thrown(msg);
      }
      out := StepAndFinalizeAlways(stmt);
    }
  }

  class CrunchResult {
    const engine: CrunchEngine
    const stmt: Handle
    /** The flag `next()` tests (src/index.mjs:115); nothing ever sets it. */
    var isDone: bool
    /** The flag `next()` sets when it ends (src/index.mjs:143); nothing reads it. Undefined, so false, until then. */
    var is_done: bool

    constructor (engine: CrunchEngine, stmt: Handle)
      ensures this.engine == engine && this.stmt == stmt && !isDone && !is_done
    {
      this.engine := engine;
      this.stmt := stmt;
      isDone := false;
      is_done := false;
    }

    /** The `numColumns` getter. */
    method NumColumns() returns (n: nat)
      requires engine.raw.HasStmt(stmt)
      modifies engine.raw`log
      ensures engine.raw.log == old(engine.raw.log) + [ColumnCountCall(stmt)]
      ensures n == ColumnCountOf(engine.raw.Stmt(stmt))
    {
      n := engine.raw.ColumnCount(stmt);
    }

    /** `columnName(i)`. */
    method ColumnName(i: nat) returns (name: string)
      requires engine.raw.HasStmt(stmt)
      modifies engine.raw`log
      ensures engine.raw.log == old(engine.raw.log) + [ColumnNameCall(stmt, i)]
      ensures name == ColumnNameOf(engine.raw.Stmt(stmt), i)
    {
      name := engine.raw.ColumnName(stmt, i);
    }

    /** The `columns` getter: `numColumns` names, entry i being `columnName(i)`. */
    method Columns() returns (columns: seq<string>)
      requires engine.raw.HasStmt(stmt)
      modifies engine.raw`log
      ensures |columns| == ColumnCountOf(engine.raw.Stmt(stmt))
      ensures forall i :: 0 <= i < |columns| ==> columns[i] == ColumnNameOf(engine.raw.Stmt(stmt), i)
      ensures !engine.raw.Stmt(stmt).finalized ==> columns == engine.raw.Stmt(stmt).script.names
      ensures engine.raw.log == old(engine.raw.log) + NamesTrace(stmt, |columns|)
    {
      ghost var st := engine.raw.Stmt(stmt);
      columns := [];
      var i := 0;
      var n := NumColumns();
      while i < n
        invariant n == ColumnCountOf(st) && i <= n
        invariant |columns| == i
        invariant forall k :: 0 <= k < i ==> columns[k] == ColumnNameOf(st, k)
        invariant engine.raw.log == old(engine.raw.log) + NamesTrace(stmt, i)
      {
        var name := ColumnName(i);
        columns := columns + [name];
        i := i + 1;
        n := NumColumns();
      }
    }

    /**
     * One pass of the row loop of `next()`: the column's type, its name, then
     * the accessor matching the type, whose value is stored under the name.
     * BLOB and NULL have no accessor: the pass throws `Unkown type <code>`.
     * The ghost `start` is the log before the loop's first bound test.
     */
    method ReadColumn(ghost start: seq<Call>, ghost names: seq<string>, ghost cells: seq<Cell>, i: nat, row: Row)
      returns (next: Row, thrown: Option<string>)
      requires engine.raw.HasStmt(stmt) && !engine.raw.Stmt(stmt).finalized
      requires engine.raw.Stmt(stmt).script.names == names && engine.raw.Stmt(stmt).current == cells
      requires i < |names| && row == RowOf(names, cells, i)
      requires FirstUnreadable(cells, i, |names|) == FirstUnreadable(cells, 0, |names|)
      requires engine.raw.log == start + ColumnsTrace(stmt, cells, i)
      modifies engine.raw`log
      ensures thrown.None? ==>
        && next == RowOf(names, cells, i + 1)
        && FirstUnreadable(cells, i + 1, |names|) == FirstUnreadable(cells, 0, |names|)
        && engine.raw.log + [ColumnCountCall(stmt)] == start + ColumnsTrace(stmt, cells, i + 1)
      ensures thrown.Some? ==>
        && RowStep(names, cells) == Throw(thrown.value)
        && engine.raw.log == start + RowTrace(stmt, names, cells)
    {
      ColumnsTraceAppend(start, stmt, cells, i);
      var t := engine.raw.ColumnType(stmt, i);
      var name := ColumnName(i);
      next, thrown := row, None;
      match t {
        case Integer =>
          var x := engine.raw.ColumnInt(stmt, i);
          next := Assign(row, name, IntV(x));
        case Text =>
          var x := engine.raw.ColumnText(stmt, i);
          next := Assign(row, name, TextV(x));
        case Float =>
          var x := engine.raw.ColumnDouble(stmt, i);
          next := Assign(row, name, FloatV(x));
        case _ =>
          thrown := Some("Unkown type " + NatToString(TypeCode(t)));
      }
    }

    /** The row-building loop of `next()`, run right after a ROW step. */
    method ReadRow() returns (r: IterStep)
      requires engine.raw.HasStmt(stmt) && !engine.raw.Stmt(stmt).finalized
      modifies engine.raw`log
      ensures r == RowStep(engine.raw.Stmt(stmt).script.names, engine.raw.Stmt(stmt).current)
      ensures engine.raw.log == old(engine.raw.log) + RowTrace(stmt, engine.raw.Stmt(stmt).script.names, engine.raw.Stmt(stmt).current)
    {
      ghost var names := engine.raw.Stmt(stmt).script.names;
      ghost var cells := engine.raw.Stmt(stmt).current;
      var row: Row := map[];
      var i := 0;
      var n := NumColumns();
      while i < n
        invariant n == |names| && i <= n
        invariant FirstUnreadable(cells, i, n) == FirstUnreadable(cells, 0, n)
        invariant row == RowOf(names, cells, i)
        invariant engine.raw.log == old(engine.raw.log) + ColumnsTrace(stmt, cells, i)
      {
        var thrown;
        row, thrown := ReadColumn(old(engine.raw.log), names, cells, i, row);
        if thrown.Some? {
          return Throw(thrown.value);
        }
        i := i + 1;
        n := NumColumns();
      }
      r := Yield(row);
    }

    /**
     * `next()` as written: the `isDone` guard never fires, because the end
     * of the sequence sets `is_done`. A non-ROW step (DONE or an error)
     * finalizes the statement and ends the sequence without throwing.
     */
    method Next() returns (r: IterStep)
      requires engine.raw.HasStmt(stmt)
      modifies this`is_done, engine.raw`log, engine.raw`stmts, engine.raw`messages
      ensures old(isDone) ==> r == End && unchanged(engine.raw) && is_done == old(is_done)
      ensures !old(isDone) ==>
        var st := old(engine.raw.Stmt(stmt));
        var o := NextOutcome(st);
        if o.Produce? then
          && r == RowStep(st.script.names, o.cells)
          && engine.raw.log == old(engine.raw.log) + [StepCall(stmt)] + RowTrace(stmt, st.script.names, o.cells)
          && engine.raw.stmts == old(engine.raw.stmts)[stmt - 1 := Stepped(st)]
          && engine.raw.messages == old(engine.raw.messages)
          && is_done == old(is_done)
        else
          && r == End
          && engine.raw.log == old(engine.raw.log) + [StepCall(stmt), FinalizeCall(stmt)]
          && engine.raw.stmts == old(engine.raw.stmts)[stmt - 1 := Finalized(Stepped(st))]
          && engine.raw.messages == MessagesAfterFinalize(MessagesAfterStep(old(engine.raw.messages), st), Stepped(st))
          && is_done
    {
      if isDone {
        return End;
      }
      var stepResult := engine.raw.Step(stmt);
      if stepResult == Row {
        r := ReadRow();
      } else {
        var _ := engine.raw.Finalize(stmt);
        is_done := true;
        r := End;
      }
    }

    /**
     * The iterator defect on a statement at its end: the first `next()`
     * steps and finalizes, and since `isDone` is still unset a second one
     * steps the finalized statement and finalizes it again.
     */
    method NextTwiceAtEnd() returns (first: IterStep, second: IterStep)
      requires engine.raw.HasStmt(stmt) && !isDone && !NextOutcome(engine.raw.Stmt(stmt)).Produce?
      modifies this`is_done, engine.raw`log, engine.raw`stmts, engine.raw`messages
      ensures first == End && second == End
      ensures engine.raw.log == old(engine.raw.log) + [StepCall(stmt), FinalizeCall(stmt)] + [StepCall(stmt), FinalizeCall(stmt)]
    {
      first := Next();
      second := Next();
    }

    /**
     * `next()` corrected: the flag its guard tests (src/index.mjs:115) is
     * the flag its end sets, and a failing step is thrown as `exec` throws
     * one (src/index.mjs:77-79) instead of being swallowed. Its error is
     * read first, then the statement is finalized and the sequence ends
     * with that error thrown. A DONE step ends the sequence as before.
     */
    method NextFixed() returns (r: IterStep)
      requires engine.raw.HasStmt(stmt)
      modifies this`isDone, engine.raw`log, engine.raw`stmts, engine.raw`messages
      ensures old(isDone) ==> r == End && unchanged(engine.raw) && isDone
      ensures !old(isDone) ==>
        var st := old(engine.raw.Stmt(stmt));
        match NextOutcome(st)
        case Produce(cells) =>
          && r == RowStep(st.script.names, cells)
          && engine.raw.log == old(engine.raw.log) + [StepCall(stmt)] + RowTrace(stmt, st.script.names, cells)
          && engine.raw.stmts == old(engine.raw.stmts)[stmt - 1 := Stepped(st)]
          && engine.raw.messages == old(engine.raw.messages)
          && !isDone
        case Complete =>
          && r == End
          && engine.raw.log == old(engine.raw.log) + [StepCall(stmt), FinalizeCall(stmt)]
          && engine.raw.stmts == old(engine.raw.stmts)[stmt - 1 := Finalized(Stepped(st))]
          && engine.raw.messages == MessagesAfterFinalize(old(engine.raw.messages), Stepped(st))
          && isDone
        case Fail(f) =>
          && r == Throw(SqlErrorText(Err(f.code), f.message))
          && engine.raw.log == old(engine.raw.log) + [StepCall(stmt)] + ThrowTrace(st.db, Err(f.code)) + [FinalizeCall(stmt)]
          && engine.raw.stmts == old(engine.raw.stmts)[stmt - 1 := Finalized(Stepped(st))]
          && engine.raw.messages == MessagesAfterFinalize(old(engine.raw.messages)[st.db := f.message], Stepped(st))
          && isDone
    {
      if isDone {
        return End;
      }
      // The statement's connection, as `sqlite3_db_handle` reports it.
      var db := engine.raw.Stmt(stmt).db;
      var stepResult := engine.raw.Step(stmt);
      if stepResult == Row {
        r := ReadRow();
      } else if stepResult == Done {
        var _ := engine.raw.Finalize(stmt);
        isDone := true;
        r := End;
      } else {
        var msg := engine.raw.ErrMsg(db);
        var code := engine.raw.ErrStr(stepResult);
        var _ := engine.raw.Finalize(stmt);
        isDone := true;
        r := Throw(code + ": " + msg);
      }
    }

    /** With the corrected iterator, once the sequence has ended a further `next()` makes no raw call. */
    method NextFixedTwiceAtEnd() returns (first: IterStep, second: IterStep)
      requires engine.raw.HasStmt(stmt) && !isDone && NextOutcome(engine.raw.Stmt(stmt)).Complete?
      modifies this`isDone, engine.raw`log, engine.raw`stmts, engine.raw`messages
      ensures first == End && second == End
      ensures engine.raw.log == old(engine.raw.log) + [StepCall(stmt), FinalizeCall(stmt)]
    {
      first := NextFixed();
      second := NextFixed();
    }

    /**
     * `[...result]`: `next()` as written, called until it ends the
     * sequence or throws. Its result, raw calls and final statement are
     * those of the spread functions above; `is_done` is set exactly when
     * the rows ran out.
     */
    method Spread() returns (r: Result<seq<Row>, string>)
      requires engine.raw.HasStmt(stmt) && !isDone
      modifies this`is_done, engine.raw`log, engine.raw`stmts, engine.raw`messages
      ensures r == SpreadResult(old(engine.raw.Stmt(stmt)))
      ensures engine.raw.log == old(engine.raw.log) + SpreadTrace(stmt, old(engine.raw.Stmt(stmt)))
      ensures engine.raw.stmts == old(engine.raw.stmts)[stmt - 1 := SpreadFinal(old(engine.raw.Stmt(stmt)))]
      ensures engine.raw.messages == SpreadMessages(old(engine.raw.messages), old(engine.raw.Stmt(stmt)))
      ensures is_done == (old(is_done) || r.Success?)
    {
      ghost var st := engine.raw.Stmt(stmt);
      ghost var cur := st;
      var rows: seq<Row> := [];
      while true
        invariant engine.raw.HasStmt(stmt) && engine.raw.Stmt(stmt) == cur && !isDone
        invariant engine.raw.stmts == old(engine.raw.stmts)[stmt - 1 := cur]
        invariant SpreadsTo(stmt, st, old(engine.raw.log), cur, rows, engine.raw.log)
        invariant engine.raw.messages == old(engine.raw.messages) && is_done == old(is_done)
        decreases |cur.script.steps| - cur.pos
      {
        ghost var log := engine.raw.log;
        var step := Next();
        match step {
          case Yield(row) =>
            SpreadsToYield(stmt, st, old(engine.raw.log), cur, rows, log);
            rows := rows + [row];
            cur := Stepped(cur);
          case End =>
            SpreadsToEnd(stmt, st, old(engine.raw.log), cur, rows, log);
            return Success(rows);
          case Throw(message) =>
            SpreadsToThrow(stmt, st, old(engine.raw.log), cur, rows, log);
            return Failure(message);
        }
      }
    }
  }

  /** The raw calls of the `columns` getter for `n` columns. */
  function NamesTrace(h: Handle, n: nat): seq<Call>
  {
    if n == 0 then [ColumnCountCall(h)] else NamesTrace(h, n - 1) + [ColumnNameCall(h, n - 1), ColumnCountCall(h)]
  }

  /** The cells SQLite reports for `select 1+1 as a`. */
  const TwoCell := Cell(Integer, 2, "2", Double(2))

  /** The statement `query` hands over for `select 1+1 as a`: one row, then DONE. */
  function OnePlusOne(db: Handle): StmtState
  {
    StmtState(db, StmtScript(["a"], [Produce([TwoCell]), Complete], None), 0, [], false)
  }

  /** `[...conn.query('select 1+1 as a')]` is `[{a: 2}]`, and the spread finalizes the statement. */
  lemma QueryOnePlusOne(db: Handle)
    ensures SpreadResult(OnePlusOne(db)) == Success([map["a" := IntV(2)]])
    ensures SpreadFinal(OnePlusOne(db)).finalized
  {
    var st := OnePlusOne(db);
    assert FirstUnreadable([TwoCell], 1, 1) == 1;
    assert RowOf(["a"], [TwoCell], 0) == map[];
    assert FirstNonRow(st.script.steps, 1) == 1;
    SpreadRowsInOrder(st);
    SpreadReturnsRows(st);
    assert SpreadRows(st)[0] == Assign(map[], "a", IntV(2));
    assert SpreadRows(st) == [map["a" := IntV(2)]];
    SpreadFinalizesIff(st);
  }

  /** A row `(s, i)` of `foo (a string, b integer)`: a TEXT cell, then an INTEGER cell. */
  function FooCells(s: string, i: int): seq<Cell>
  {
    [Cell(Text, 0, s, Double(0)), Cell(Integer, i, "", Double(0))]
  }

  /** The statement `query` hands over for `select * from foo` on two rows. */
  function SelectFoo(db: Handle, s1: string, i1: int, s2: string, i2: int): StmtState
  {
    StmtState(db, StmtScript(["a", "b"], [Produce(FooCells(s1, i1)), Produce(FooCells(s2, i2)), Complete], None), 0, [], false)
  }

  /** Each `foo` row becomes `{a: s, b: i}`: each column read with its own type's accessor. */
  lemma FooRow(s: string, i: int)
    ensures FirstUnreadable(FooCells(s, i), 0, 2) == 2
    ensures RowOf(["a", "b"], FooCells(s, i), 2) == map["a" := TextV(s), "b" := IntV(i)]
  {
    var cells := FooCells(s, i);
    assert FirstUnreadable(cells, 2, 2) == 2;
    assert FirstUnreadable(cells, 1, 2) == 2;
    assert RowOf(["a", "b"], cells, 0) == map[];
    assert RowOf(["a", "b"], cells, 1) == map["a" := TextV(s)];
  }

  /**
   * `[...conn.query('select * from foo;')]` on the rows `("a", 1), ("b", 2)`
   * is `[{a: 'a', b: 1}, {a: 'b', b: 2}]`, one object per row in row order,
   * and the spread finalizes the statement.
   */
  lemma QueryTextAndInteger(db: Handle, s1: string, i1: int, s2: string, i2: int)
    ensures SpreadResult(SelectFoo(db, s1, i1, s2, i2))
      == Success([map["a" := TextV(s1), "b" := IntV(i1)], map["a" := TextV(s2), "b" := IntV(i2)]])
    ensures SpreadFinal(SelectFoo(db, s1, i1, s2, i2)).finalized
  {
    var st := SelectFoo(db, s1, i1, s2, i2);
    FooRow(s1, i1);
    FooRow(s2, i2);
    assert FirstNonRow(st.script.steps, 2) == 2;
    assert FirstNonRow(st.script.steps, 0) == 2;
    SpreadRowsInOrder(st);
    SpreadReturnsRows(st);
    assert SpreadRows(st) == [SpreadRows(st)[0], SpreadRows(st)[1]];
    SpreadFinalizesIff(st);
  }

  /**
   * `[...conn.query('select 1 as __proto__')]` is `[{}]`: the one value is
   * read, but storing it under `__proto__` creates no property.
   */
  lemma QueryProtoColumn(db: Handle)
    ensures SpreadResult(StmtState(db, StmtScript([ProtoKey], [Produce([TwoCell]), Complete], None), 0, [], false))
      == Success([map[]])
  {
    var st := StmtState(db, StmtScript([ProtoKey], [Produce([TwoCell]), Complete], None), 0, [], false);
    assert FirstUnreadable([TwoCell], 1, 1) == 1;
    assert RowOf([ProtoKey], [TwoCell], 0) == map[];
    assert FirstNonRow(st.script.steps, 1) == 1;
    SpreadRowsInOrder(st);
    SpreadReturnsRows(st);
    assert SpreadRows(st)[0] == Assign(map[], ProtoKey, IntV(2));
    assert SpreadRows(st) == [map[]];
  }
}
