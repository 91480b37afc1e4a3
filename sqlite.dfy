/**
 * The embedded SQLite engine behind its raw bindings, as an oracle.
 *
 * The repository reaches SQLite through a stateless wrapper (raw.mjs) that
 * returns status codes and out-parameters as values. Neither the wrapper nor
 * SQLite is part of this model. `Raw` stands in for both: every prepared
 * statement follows a finite script of step outcomes decided in advance, and
 * every raw call is appended to `log`, so that callers' contracts can say
 * exactly which raw calls they make and in what order.
 */
module Sqlite {
  import opened Wrappers

  /** An opaque engine handle (a connection or a statement); 0 stands for NULL. */
  type Handle = nat

  /** The error codes the model distinguishes (SQLITE_ERROR, SQLITE_BUSY, ...). */
  datatype ErrorCode = Error | Busy | Locked | NoMem | Constraint | Misuse

  /** A primary result code: SQLITE_OK, SQLITE_ROW, SQLITE_DONE or an error. */
  datatype Status = Ok | Row | Done | Err(code: ErrorCode)

  /** `sqlite3_errstr`: SQLite's fixed English text for a result code. */
  function ErrStrText(s: Status): string
  {
    match s
    case Ok => "not an error"
    case Row => "another row available"
    case Done => "no more rows available"
    case Err(Error) => "SQL logic error"
    case Err(Busy) => "database is locked"
    case Err(Locked) => "database table is locked"
    case Err(NoMem) => "out of memory"
    case Err(Constraint) => "constraint failed"
    case Err(Misuse) => "bad parameter or other API misuse"
  }

  /** The fundamental datatypes SQLite reports per value. */
  datatype ColumnType = Integer | Float | Text | Blob | Null

  /** SQLITE_INTEGER, SQLITE_FLOAT, SQLITE3_TEXT, SQLITE_BLOB, SQLITE_NULL. */
  function TypeCode(t: ColumnType): nat
  {
    match t
    case Integer => 1
    case Float => 2
    case Text => 3
    case Blob => 4
    case Null => 5
  }

  /** A double, kept opaque: only its identity matters here. */
  datatype Double = Double(bits: int)

  /**
   * One value of the current row: its reported type and what each typed
   * accessor (`sqlite3_column_int`, `_text`, `_double`) reads from it.
   */
  datatype Cell = Cell(tag: ColumnType, asInt: int, asText: string, asDouble: Double)

  /** What SQLite reports for a column index with no value behind it. */
  const NullCell := Cell(Null, 0, "", Double(0))

  function CellAt(cells: seq<Cell>, i: nat): Cell
  {
    if i < |cells| then cells[i] else NullCell
  }

  /** An error code together with the text `sqlite3_errmsg` reports for it. */
  datatype Fault = Fault(code: ErrorCode, message: string)

  const MisuseFault := Fault(Misuse, "bad parameter or other API misuse")

  /** One scripted outcome of `sqlite3_step`. */
  datatype StepOutcome = Produce(cells: seq<Cell>) | Complete | Fail(fault: Fault)

  function StatusOf(o: StepOutcome): Status
  {
    match o
    case Produce(_) => Row
    case Complete => Done
    case Fail(f) => Err(f.code)
  }

  /**
   * What a prepared statement will do: its result column names, its step
   * outcomes in order, and how finalizing it ends.
   */
  datatype StmtScript = StmtScript(names: seq<string>, steps: seq<StepOutcome>, finalizeFault: Option<Fault>)

  /** The outcome of one `sqlite3_prepare_v2`. */
  datatype PrepareOutcome = Compiled(script: StmtScript) | Rejected(fault: Fault)

  /**
   * A statement inside the engine: the connection it belongs to, its script,
   * how many steps it has taken, the cells of the row it is positioned on
   * (empty when it is not on a row) and whether it has been finalized.
   */
  datatype StmtState = StmtState(db: Handle, script: StmtScript, pos: nat, current: seq<Cell>, finalized: bool)

  /** The step outcome at position `p`; past the end of the script, misuse. */
  function OutcomeAt(steps: seq<StepOutcome>, p: nat): StepOutcome
  {
    if p < |steps| then steps[p] else Fail(MisuseFault)
  }

  /** What the next `sqlite3_step` on a statement in state `st` reports. */
  function NextOutcome(st: StmtState): StepOutcome
  {
    if st.finalized then Fail(MisuseFault) else OutcomeAt(st.script.steps, st.pos)
  }

  /** The statement after one `sqlite3_step`; a finalized one does not move. */
  function Stepped(st: StmtState): StmtState
  {
    if st.finalized then st
    else
      var o := NextOutcome(st);
      st.(pos := st.pos + 1, current := if o.Produce? then o.cells else [])
  }

  /** The connection's error messages after that step. */
  function MessagesAfterStep(messages: map<Handle, string>, st: StmtState): map<Handle, string>
  {
    var o := NextOutcome(st);
    if o.Fail? then messages[st.db := o.fault.message] else messages
  }

  /** What `sqlite3_finalize` returns; finalizing twice is misuse. */
  function FinalizeStatus(st: StmtState): Status
  {
    if st.finalized then Err(Misuse)
    else match st.script.finalizeFault
      case None => Ok
      case Some(f) => Err(f.code)
  }

  function Finalized(st: StmtState): StmtState
  {
    st.(finalized := true, current := [])
  }

  function MessagesAfterFinalize(messages: map<Handle, string>, st: StmtState): map<Handle, string>
  {
    if !st.finalized && st.script.finalizeFault.Some? then
      messages[st.db := st.script.finalizeFault.value.message]
    else messages
  }

  /** `sqlite3_column_count`; nothing is left of a finalized statement. */
  function ColumnCountOf(st: StmtState): nat
  {
    if st.finalized then 0 else |st.script.names|
  }

  function ColumnNameOf(st: StmtState, i: nat): string
  {
    if !st.finalized && i < |st.script.names| then st.script.names[i] else ""
  }

  /** The value a column accessor reads on the current row. */
  function ColumnCellOf(st: StmtState, i: nat): Cell
  {
    if st.finalized then NullCell else CellAt(st.current, i)
  }

  /** One call across the raw binding boundary. */
  datatype Call =
    | OpenCall(uri: string)
    | PrepareCall(db: Handle, sql: string, nByte: int)
    | StepCall(stmt: Handle)
    | FinalizeCall(stmt: Handle)
    | ColumnCountCall(stmt: Handle)
    | ColumnNameCall(stmt: Handle, col: nat)
    | ColumnTypeCall(stmt: Handle, col: nat)
    | ColumnIntCall(stmt: Handle, col: nat)
    | ColumnTextCall(stmt: Handle, col: nat)
    | ColumnDoubleCall(stmt: Handle, col: nat)
    | ErrMsgCall(db: Handle)
    | ErrStrCall(status: Status)

  /** The raw bindings over one engine, with the engine's behaviour scripted. */
  class Raw {
    /** The outcome of the n-th `sqlite3_prepare_v2` (counting from 0). */
    const prepareOracle: nat -> PrepareOutcome
    /** How the n-th `sqlite3_open` fails, if it does. */
    const openOracle: nat -> Option<Fault>

    /** Every raw call made so far, oldest first. */
    var log: seq<Call>
    /** Statement handle h (h >= 1) is `stmts[h - 1]`. */
    var stmts: seq<StmtState>
    var prepares: nat
    var opens: nat
    /** What `sqlite3_errmsg` reports per connection. */
    var messages: map<Handle, string>

    constructor (prepareOracle: nat -> PrepareOutcome, openOracle: nat -> Option<Fault>)
      ensures this.prepareOracle == prepareOracle && this.openOracle == openOracle
      ensures log == [] && stmts == [] && prepares == 0 && opens == 0 && messages == map[]
    {
      this.prepareOracle := prepareOracle;
      this.openOracle := openOracle;
      log, stmts, prepares, opens, messages := [], [], 0, 0, map[];
    }

    predicate HasStmt(h: Handle)
      reads this`stmts
    {
      1 <= h <= |stmts|
    }

    function Stmt(h: Handle): StmtState
      requires HasStmt(h)
      reads this`stmts
    {
      stmts[h - 1]
    }

    function ErrMsgOf(db: Handle): string
      reads this`messages
    {
      if db in messages then messages[db] else "not an error"
    }

    /** `sqlite3_open(uri)`: the status and the new connection handle. */
    method Open(uri: string) returns (status: Status, db: Handle)
      modifies this`log, this`opens, this`messages
      ensures log == old(log) + [OpenCall(uri)]
      ensures opens == old(opens) + 1 && db == opens
      ensures match openOracle(old(opens))
        case None => status == Ok && messages == old(messages)
        case Some(f) => status == Err(f.code) && messages == old(messages)[db := f.message]
    {
      log := log + [OpenCall(uri)];
      db := opens + 1;
      match openOracle(opens) {
        case None =>
          status := Ok;
        case Some(f) =>
          status := Err(f.code);
          messages := messages[db := f.message];
      }
      opens := opens + 1;
    }

    /** `sqlite3_prepare_v2(db, sql, nByte)`: the status and the statement handle (null on failure). */
    method Prepare(db: Handle, sql: string, nByte: int) returns (status: Status, stmt: Handle)
      modifies this`log, this`prepares, this`stmts, this`messages
      ensures log == old(log) + [PrepareCall(db, sql, nByte)]
      ensures prepares == old(prepares) + 1
      ensures match prepareOracle(old(prepares))
        case Compiled(sc) =>
          && status == Ok && stmt == |old(stmts)| + 1
          && stmts == old(stmts) + [StmtState(db, sc, 0, [], false)]
          && messages == old(messages)
        case Rejected(f) =>
          && status == Err(f.code) && stmt == 0
          && stmts == old(stmts)
          && messages == old(messages)[db := f.message]
    {
      log := log + [PrepareCall(db, sql, nByte)];
      match prepareOracle(prepares) {
        case Compiled(sc) =>
          status, stmt := Ok, |stmts| + 1;
          stmts := stmts + [StmtState(db, sc, 0, [], false)];
        case Rejected(f) =>
          status, stmt := Err(f.code), 0;
          messages := messages[db := f.message];
      }
      prepares := prepares + 1;
    }

    /** `sqlite3_step(stmt)`. */
    method Step(h: Handle) returns (status: Status)
      requires HasStmt(h)
      modifies this`log, this`stmts, this`messages
      ensures log == old(log) + [StepCall(h)]
      ensures status == StatusOf(NextOutcome(old(Stmt(h))))
      ensures stmts == old(stmts)[h - 1 := Stepped(old(Stmt(h)))]
      ensures messages == MessagesAfterStep(old(messages), old(Stmt(h)))
    {
      log := log + [StepCall(h)];
      var st := stmts[h - 1];
      status := StatusOf(NextOutcome(st));
      stmts := stmts[h - 1 := Stepped(st)];
      messages := MessagesAfterStep(messages, st);
    }

    /** `sqlite3_finalize(stmt)`. */
    method Finalize(h: Handle) returns (status: Status)
      requires HasStmt(h)
      modifies this`log, this`stmts, this`messages
      ensures log == old(log) + [FinalizeCall(h)]
      ensures status == FinalizeStatus(old(Stmt(h)))
      ensures stmts == old(stmts)[h - 1 := Finalized(old(Stmt(h)))]
      ensures messages == MessagesAfterFinalize(old(messages), old(Stmt(h)))
    {
      log := log + [FinalizeCall(h)];
      var st := stmts[h - 1];
      status := FinalizeStatus(st);
      stmts := stmts[h - 1 := Finalized(st)];
      messages := MessagesAfterFinalize(messages, st);
    }

    /** `sqlite3_column_count(stmt)`. */
    method ColumnCount(h: Handle) returns (n: nat)
      requires HasStmt(h)
      modifies this`log
      ensures log == old(log) + [ColumnCountCall(h)]
      ensures n == ColumnCountOf(Stmt(h))
    {
      log := log + [ColumnCountCall(h)];
      n := ColumnCountOf(stmts[h - 1]);
    }

    /** `sqlite3_column_name(stmt, i)`. */
    method ColumnName(h: Handle, i: nat) returns (name: string)
      requires HasStmt(h)
      modifies this`log
      ensures log == old(log) + [ColumnNameCall(h, i)]
      ensures name == ColumnNameOf(Stmt(h), i)
    {
      log := log + [ColumnNameCall(h, i)];
      name := ColumnNameOf(stmts[h - 1], i);
    }

    /** `sqlite3_column_type(stmt, i)`. */
    method ColumnType(h: Handle, i: nat) returns (t: ColumnType)
      requires HasStmt(h)
      modifies this`log
      ensures log == old(log) + [ColumnTypeCall(h, i)]
      ensures t == ColumnCellOf(Stmt(h), i).tag
    {
      log := log + [ColumnTypeCall(h, i)];
      t := ColumnCellOf(stmts[h - 1], i).tag;
    }

    /** `sqlite3_column_int(stmt, i)`. */
    method ColumnInt(h: Handle, i: nat) returns (v: int)
      requires HasStmt(h)
      modifies this`log
      ensures log == old(log) + [ColumnIntCall(h, i)]
      ensures v == ColumnCellOf(Stmt(h), i).asInt
    {
      log := log + [ColumnIntCall(h, i)];
      v := ColumnCellOf(stmts[h - 1], i).asInt;
    }

    /** `sqlite3_column_text(stmt, i)`. */
    method ColumnText(h: Handle, i: nat) returns (v: string)
      requires HasStmt(h)
      modifies this`log
      ensures log == old(log) + [ColumnTextCall(h, i)]
      ensures v == ColumnCellOf(Stmt(h), i).asText
    {
      log := log + [ColumnTextCall(h, i)];
      v := ColumnCellOf(stmts[h - 1], i).asText;
    }

    /** `sqlite3_column_double(stmt, i)`. */
    method ColumnDouble(h: Handle, i: nat) returns (v: Double)
      requires HasStmt(h)
      modifies this`log
      ensures log == old(log) + [ColumnDoubleCall(h, i)]
      ensures v == ColumnCellOf(Stmt(h), i).asDouble
    {
      log := log + [ColumnDoubleCall(h, i)];
      v := ColumnCellOf(stmts[h - 1], i).asDouble;
    }

    /** `sqlite3_errmsg(db)`. */
    method ErrMsg(db: Handle) returns (msg: string)
      modifies this`log
      ensures log == old(log) + [ErrMsgCall(db)]
      ensures msg == ErrMsgOf(db)
    {
      log := log + [ErrMsgCall(db)];
      msg := ErrMsgOf(db);
    }

    /** `sqlite3_errstr(status)`. */
    method ErrStr(status: Status) returns (text: string)
      modifies this`log
      ensures log == old(log) + [ErrStrCall(status)]
      ensures text == ErrStrText(status)
    {
      log := log + [ErrStrCall(status)];
      text := ErrStrText(status);
    }
  }
}
