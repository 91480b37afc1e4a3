// The page-side command producer: `createDb` opens a worker and tells it
// to open a database; a connection proxy forwards queries to its worker.
// `postMessage` is modelled as an append to the worker's outbox.

module CrunchApi {
  import opened Wrappers
  import opened Js
  import opened CrunchWorker

  /** The script every worker is started from. */
  const WorkerScript := "crunch-worker.mjs"

  /** The options every worker is started with: `{type: 'module'}`. */
  const WorkerOptions := Obj(map["type" := Str("module")])

  /** A `Worker` as seen from the page: how it was started and the messages posted to it, oldest first. */
  class Worker {
    const script: string
    const options: JsValue
    var outbox: seq<JsValue>

    constructor (script: string, options: JsValue)
      ensures this.script == script && this.options == options
      ensures outbox == []
    {
      this.script := script;
      this.options := options;
      outbox := [];
    }

    /** `worker.postMessage(message)`: the message joins the end of the outbox. */
    method PostMessage(message: JsValue)
      modifies this`outbox
      ensures outbox == old(outbox) + [message]
    {
      outbox := outbox + [message];
    }
  }

  /** `options || {}`: a falsy options value is replaced by an empty object. */
  function DefaultOptions(options: JsValue): (r: JsValue)
    ensures Truthy(r)
    ensures Truthy(options) ==> r == options
    ensures !Truthy(options) ==> r == Obj(map[])
  {
    if Truthy(options) then options else Obj(map[])
  }

  /** The message `{name: 'open', args: [id, options]}`. */
  function OpenMessage(id: int, options: JsValue): (m: JsValue)
    ensures Prop(m, "name") == Success(Str("open"))
    ensures Prop(m, "args") == Success(Arr([Num(id), options]))
  {
    Obj(map["name" := Str("open"), "args" := Arr([Num(id), options])])
  }

  /** The message `{name: 'exec', args: [id, query]}`. */
  function ExecMessage(id: int, query: JsValue): (m: JsValue)
    ensures Prop(m, "name") == Success(Str("exec"))
    ensures Prop(m, "args") == Success(Arr([Num(id), query]))
  {
    Obj(map["name" := Str("exec"), "args" := Arr([Num(id), query])])
  }

  /** A connection's page-side handle: its id and the worker holding the database. */
  class ConnectionProxy {
    const id: int
    const worker: Worker

    constructor (id: int, worker: Worker)
      ensures this.id == id && this.worker == worker
    {
      this.id := id;
      this.worker := worker;
    }

    /** `exec(query)`: exactly one `exec` message, carrying this proxy's id, is posted to its own worker. */
    method Exec(query: JsValue)
      modifies worker`outbox
      ensures worker.outbox == old(worker.outbox) + [ExecMessage(id, query)]
    {
      worker.PostMessage(ExecMessage(id, query));
    }
  }

  /** The ids `createDb` has handed out so far, given how many calls there were: 1, 2, 3, ... */
  function IssuedIds(calls: nat): (ids: seq<int>)
    ensures |ids| == calls
    ensures forall i :: 0 <= i < calls ==> ids[i] == i + 1
  {
    if calls == 0 then [] else IssuedIds(calls - 1) + [calls]
  }

  /** The ids handed out are distinct and strictly increasing. */
  lemma IssuedIdsIncreasing(calls: nat, i: nat, j: nat)
    requires i < j < calls
    ensures IssuedIds(calls)[i] < IssuedIds(calls)[j]
  {
  }

  /** The module-level state of the page-side script: the `nextId` counter. */
  class Api {
    var nextId: int
    /** How many times `createDb` has run. */
    ghost var calls: nat
    /** The ids handed out so far, in order. */
    ghost var issued: seq<int>

    ghost predicate Valid()
      reads this`nextId, this`calls, this`issued
    {
      nextId == calls + 1 && issued == IssuedIds(calls)
    }

    /** Loading the script: `let nextId = 1`. */
    constructor ()
      ensures Valid() && calls == 0 && nextId == 1
    {
      nextId := 1;
      calls := 0;
      issued := [];
    }

    /**
     * `createDb(options)`: a fresh worker is started, the current counter
     * value becomes the connection's id and the counter moves on by one;
     * the new worker receives exactly one message, the `open` command with
     * that id and the defaulted options.
     */
    method CreateDb(options: JsValue) returns (proxy: ConnectionProxy)
      requires Valid()
      modifies this`nextId, this`calls, this`issued
      ensures Valid()
      ensures nextId == old(nextId) + 1
      ensures issued == old(issued) + [proxy.id]
      ensures proxy.id == old(nextId)
      ensures forall k :: 0 <= k < |old(issued)| ==> old(issued)[k] < proxy.id
      ensures fresh(proxy) && fresh(proxy.worker)
      ensures proxy.worker.script == WorkerScript && proxy.worker.options == WorkerOptions
      ensures proxy.worker.outbox == [OpenMessage(proxy.id, DefaultOptions(options))]
    {
      var opts := DefaultOptions(options);
      var worker := new Worker(WorkerScript, WorkerOptions);
      var id := nextId;
      nextId := nextId + 1;
      calls := calls + 1;
      issued := issued + [id];
      worker.PostMessage(OpenMessage(id, opts));
      proxy := new ConnectionProxy(id, worker);
    }
  }

  // ---------------------------------------------------------------------
  // What the worker does with these messages

  /**
   * Every `open` message passes the worker's shape checks: with
   * `crunch_open` registered it calls that function once with `[id,
   * options]`; otherwise the only error is the missing method.
   */
  lemma OpenMessageHandled(methods: map<string, Def>, id: int, options: JsValue)
    ensures "crunch_open" in methods ==>
      Handled(methods, OpenMessage(id, options)) == Success(Invocation("crunch_open", methods["crunch_open"], [Num(id), options]))
    ensures "crunch_open" !in methods ==>
      Handled(methods, OpenMessage(id, options)) == Failure(NoMethodText("crunch_open", OpenMessage(id, options)))
  {
    var props := map["name" := Str("open"), "args" := Arr([Num(id), options])];
    assert "crunch_" + "open" == "crunch_open";
    if "crunch_open" in methods {
      HandledDispatches(methods, props, "open", [Num(id), options]);
    } else {
      HandledNeedsMethod(methods, props, "open");
    }
  }

  /**
   * Every `exec` message passes the worker's shape checks: with
   * `crunch_exec` registered it calls that function once with `[id,
   * query]`; otherwise the only error is the missing method.
   */
  lemma ExecMessageHandled(methods: map<string, Def>, id: int, query: JsValue)
    ensures "crunch_exec" in methods ==>
      Handled(methods, ExecMessage(id, query)) == Success(Invocation("crunch_exec", methods["crunch_exec"], [Num(id), query]))
    ensures "crunch_exec" !in methods ==>
      Handled(methods, ExecMessage(id, query)) == Failure(NoMethodText("crunch_exec", ExecMessage(id, query)))
  {
    var props := map["name" := Str("exec"), "args" := Arr([Num(id), query])];
    assert "crunch_" + "exec" == "crunch_exec";
    if "crunch_exec" in methods {
      HandledDispatches(methods, props, "exec", [Num(id), query]);
    } else {
      HandledNeedsMethod(methods, props, "exec");
    }
  }

  /** A wrapped `crunch_open` for the witness below. */
  const OpenDef := Def("crunch_open", Str("number"), Arr([Str("number"), Str("string")]))

  /**
   * The bridge defect on one concrete run: a worker that becomes ready
   * with an empty queue, then receives the `open` message `createDb`
   * posts, calls `crunch_open` with the fixed handler and calls nothing
   * as written.
   */
  lemma OpenAfterReadyLostAsWritten(options: JsValue)
    ensures Initialize(Initial, [OpenDef]).1 == Normal
    ensures RunEvents(Initialize(Initial, [OpenDef]).0, [OpenMessage(1, options)]).dispatched == []
    ensures RunEventsFixed(Initialize(Initial, [OpenDef]).0, [OpenMessage(1, options)]).dispatched
      == [Invocation("crunch_open", OpenDef, [Num(1), options])]
  {
    var methods := Registered([OpenDef]);
    assert [OpenDef][..0] == [];
    assert Registered([]) == map[];
    assert methods == map[][OpenDef.name := OpenDef];
    ReplayAccepted(Initial, [OpenDef]);
    var ready := Initialize(Initial, [OpenDef]).0;
    assert ready.handler == Some(methods) && ready.dispatched == [];
    SwitchedBridgeDropsEvents(ready, [OpenMessage(1, options)]);
    OpenMessageHandled(methods, 1, options);
    FixedBridgeDeliversEvents(ready, [OpenMessage(1, options)]);
    assert [OpenMessage(1, options)][..0] == [];
  }
}
