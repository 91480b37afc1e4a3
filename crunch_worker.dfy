/**
 * The deferred command bridge of src/crunch-worker.mjs.
 *
 * Until the WebAssembly runtime is initialised, the worker's `onmessage`
 * pushes each event's `data` onto a module-level queue. When the runtime
 * reports readiness, a `ModuleWrapper` registers one wrapped C function per
 * entry of `defs`, the queue is replayed in order through `handleMessage`,
 * and `onmessage` is replaced by `handleMessage`. `handleMessage` checks the
 * message's `name` and `args` and calls `crunch_<name>` with `args`.
 *
 * The bridge's state is a `BridgeState`: the queue, the installed handler
 * (none before the switch; the wrapper's method table after it) and the log
 * of dispatched calls. `Receive` and `Initialize` say what one event does to
 * it; the `Bridge` class runs the source's statements and is proved to
 * agree with them. As written, the handler installed by the switch is
 * given the event object rather than its `data` (`Receive`); `ReceiveFixed`
 * is the evidently intended version.
 */
module CrunchWorker {
  import opened Wrappers
  import opened Js

  /** One entry of `defs`: a C function's name, result type and argument types, as `cwrap` takes them. */
  datatype Def = Def(name: string, resultType: JsValue, argTypes: JsValue)

  /** One call of a wrapped C function: the wrapper property, the function it wraps, and the arguments. */
  datatype Invocation = Invocation(property: string, fn: Def, args: seq<JsValue>)

  // ---------------------------------------------------------------------
  // ModuleWrapper: name registration

  /**
   * The wrapper's own methods after `this[name] = ...` for each entry of
   * `defs` in order: a later entry of the same name replaces an earlier one,
   * and an entry named `__proto__` sets the wrapper's prototype instead.
   */
  function Registered(defs: seq<Def>): map<string, Def>
  {
    if |defs| == 0 then map[]
    else Assign(Registered(defs[..|defs| - 1]), defs[|defs| - 1].name, defs[|defs| - 1])
  }

  /** Registration creates exactly one method per distinct name in `defs`, `__proto__` aside. */
  lemma {:induction false} RegisteredKeys(defs: seq<Def>)
    ensures Registered(defs).Keys == (set d | d in defs :: d.name) - {ProtoKey}
  {
    if |defs| > 0 {
      var init := defs[..|defs| - 1];
      RegisteredKeys(init);
      assert defs == init + [defs[|defs| - 1]];
      assert (set d | d in defs :: d.name) == (set d | d in init :: d.name) + {defs[|defs| - 1].name};
    }
  }

  /** A name's method wraps the last entry of `defs` carrying that name; `__proto__` never becomes a method. */
  lemma {:induction false} RegisteredLastWins(defs: seq<Def>, i: nat)
    requires i < |defs|
    requires forall k :: i < k < |defs| ==> defs[k].name != defs[i].name
    ensures defs[i].name != ProtoKey ==>
      defs[i].name in Registered(defs) && Registered(defs)[defs[i].name] == defs[i]
    ensures defs[i].name == ProtoKey ==> defs[i].name !in Registered(defs)
  {
    var init := defs[..|defs| - 1];
    if i < |defs| - 1 {
      assert init[i] == defs[i];
      RegisteredLastWins(init, i);
    } else {
      RegisteredNoProto(init);
    }
  }

  /** No entry of `defs` makes a `__proto__` method. */
  lemma {:induction false} RegisteredNoProto(defs: seq<Def>)
    ensures ProtoKey !in Registered(defs)
  {
    if |defs| > 0 {
      RegisteredNoProto(defs[..|defs| - 1]);
    }
  }

  class ModuleWrapper {
    /** The wrapper's own properties: property name to the wrapped C function. */
    var methods: map<string, Def>

    /** `new ModuleWrapper(module, defs)`: one `cwrap` per entry, stored under the entry's name. */
    constructor (defs: seq<Def>)
      ensures methods == Registered(defs)
    {
      methods := map[];
      new;
      var i := 0;
      while i < |defs|
        invariant i <= |defs|
        invariant methods == Registered(defs[..i])
      {
        assert defs[..i + 1][..i] == defs[..i];
        methods := Assign(methods, defs[i].name, defs[i]);
        i := i + 1;
      }
      assert defs[..i] == defs;
    }
  }

  // ---------------------------------------------------------------------
  // handleMessage

  function NoNameText(message: JsValue): string
  {
    "Message should have name (message: \"" + ToString(message) + "\")"
  }

  function NoArgsText(message: JsValue): string
  {
    "Message should have args (message: \"" + ToString(message) + "\")"
  }

  function NoMethodText(property: string, message: JsValue): string
  {
    "No method named " + property + " (message: \"" + ToString(message) + "\")"
  }

  /**
   * What `handleMessage(message)` does with the method table `methods`:
   * the call it makes, or the message of what it throws. `name` is checked
   * before `args`, and both before the method is looked up.
   */
  function Handled(methods: map<string, Def>, message: JsValue): (r: Result<Invocation, string>)
    ensures r.Success? ==>
      && r.value.property in methods && r.value.fn == methods[r.value.property]
      && |r.value.property| >= 7 && r.value.property[..7] == "crunch_"
  {
    match Prop(message, "name")
    case Failure(e) => Failure(e)
    case Success(name) =>
      if name == Undefined then Failure(NoNameText(message))
      else match Prop(message, "args")
        case Failure(e) => Failure(e)
        case Success(args) =>
          if args == Undefined then Failure(NoArgsText(message))
          else
            var property := "crunch_" + ToString(name);
            if property !in methods then Failure(NoMethodText(property, message))
            else match ArgList(args)
              case Failure(e) => Failure(e)
              case Success(list) => Success(Invocation(property, methods[property], list))
  }

  /** A plain-object message without `name` throws, whatever its `args`. */
  lemma HandledNeedsName(methods: map<string, Def>, props: map<string, JsValue>)
    requires "name" !in props || props["name"] == Undefined
    ensures Handled(methods, Obj(props)) == Failure(NoNameText(Obj(props)))
    ensures ToString(Obj(props)) == "[object Object]"
  {
    assert Prop(Obj(props), "name") == Success(Undefined);
  }

  /** A plain-object message with a `name` but without `args` throws, and nothing is looked up. */
  lemma HandledNeedsArgs(methods: map<string, Def>, props: map<string, JsValue>)
    requires "name" in props && props["name"] != Undefined
    requires "args" !in props || props["args"] == Undefined
    ensures Handled(methods, Obj(props)) == Failure(NoArgsText(Obj(props)))
  {
    assert Prop(Obj(props), "name") == Success(props["name"]);
    assert Prop(Obj(props), "args") == Success(Undefined);
  }

  /** A well-shaped message whose `crunch_<name>` is not a wrapper method throws. */
  lemma HandledNeedsMethod(methods: map<string, Def>, props: map<string, JsValue>, name: string)
    requires "name" in props && props["name"] == Str(name)
    requires "args" in props && props["args"] != Undefined
    requires "crunch_" + name !in methods
    ensures Handled(methods, Obj(props)) == Failure(NoMethodText("crunch_" + name, Obj(props)))
  {
    assert Prop(Obj(props), "name") == Success(Str(name));
    assert Prop(Obj(props), "args") == Success(props["args"]);
    assert ToString(Str(name)) == name;
  }

  /** A well-shaped message calls exactly `crunch_<name>`, once, with `args` in their order. */
  lemma HandledDispatches(methods: map<string, Def>, props: map<string, JsValue>, name: string, args: seq<JsValue>)
    requires "name" in props && props["name"] == Str(name)
    requires "args" in props && props["args"] == Arr(args)
    requires "crunch_" + name in methods
    ensures Handled(methods, Obj(props)) == Success(Invocation("crunch_" + name, methods["crunch_" + name], args))
  {
    assert Prop(Obj(props), "name") == Success(Str(name));
    assert Prop(Obj(props), "args") == Success(Arr(args));
    assert ToString(Str(name)) == name;
  }

  /** A message event object has neither `name` nor `args`, so handling one always throws at the first check. */
  lemma HandledRejectsEveryEvent(methods: map<string, Def>, data: JsValue)
    ensures Handled(methods, MessageEventObj(data)) == Failure(NoNameText(MessageEventObj(data)))
    ensures ToString(MessageEventObj(data)) == "[object MessageEvent]"
  {
    assert "name"[0] != "data"[0];
    assert Prop(MessageEventObj(data), "name") == Success(Undefined);
  }

  // ---------------------------------------------------------------------
  // The bridge's state machine

  datatype BridgeState = BridgeState(queue: seq<JsValue>, handler: Option<map<string, Def>>, dispatched: seq<Invocation>)

  /** The module's state when the worker script has run: empty queue, `onmessage` queueing. */
  const Initial := BridgeState([], None, [])

  /** `handleMessage(message)` run with `methods`: a call is logged, or the state is unchanged and the error thrown. */
  function Deliver(s: BridgeState, methods: map<string, Def>, message: JsValue): (BridgeState, Completion)
  {
    match Handled(methods, message)
    case Success(inv) => (s.(dispatched := s.dispatched + [inv]), Normal)
    case Failure(e) => (s, Thrown(e))
  }

  /**
   * One `onmessage` event carrying `data`, as written: queued before the
   * switch; after it, the handler is given the event object itself.
   */
  function Receive(s: BridgeState, data: JsValue): (BridgeState, Completion)
  {
    match s.handler
    case None => (s.(queue := s.queue + [data]), Normal)
    case Some(methods) => Deliver(s, methods, MessageEventObj(data))
  }

  /** One `onmessage` event with the switched handler reading the event's `data`. */
  function ReceiveFixed(s: BridgeState, data: JsValue): (BridgeState, Completion)
  {
    match s.handler
    case None => (s.(queue := s.queue + [data]), Normal)
    case Some(methods) => Deliver(s, methods, data)
  }

  /** The calls `handleMessage` makes over `msgs` when each message is handled on its own (failures call nothing). */
  function Dispatches(methods: map<string, Def>, msgs: seq<JsValue>): seq<Invocation>
  {
    if |msgs| == 0 then []
    else
      Dispatches(methods, msgs[..|msgs| - 1])
      + match Handled(methods, msgs[|msgs| - 1])
        case Success(inv) => [inv]
        case Failure(_) => []
  }

  /** The first message at or after `p` that `handleMessage` rejects, or `|msgs|`. */
  function FirstRejected(methods: map<string, Def>, msgs: seq<JsValue>, p: nat): (j: nat)
    requires p <= |msgs|
    ensures p <= j <= |msgs|
    ensures forall k :: p <= k < j ==> Handled(methods, msgs[k]).Success?
    ensures j < |msgs| ==> Handled(methods, msgs[j]).Failure?
    decreases |msgs| - p
  {
    if p < |msgs| && Handled(methods, msgs[p]).Success? then FirstRejected(methods, msgs, p + 1) else p
  }

  /**
   * `onRuntimeInitialized` with `defs`: replay stops at the first message
   * that throws (the error propagates and `onmessage` keeps queueing);
   * if none throws, the handler is switched. The queue is left as it was.
   */
  function Initialize(s: BridgeState, defs: seq<Def>): (BridgeState, Completion)
  {
    var methods := Registered(defs);
    var j := FirstRejected(methods, s.queue, 0);
    var replayed := s.(dispatched := s.dispatched + Dispatches(methods, s.queue[..j]));
    if j == |s.queue| then (replayed.(handler := Some(methods)), Normal)
    else (replayed, Thrown(Handled(methods, s.queue[j]).error))
  }

  /** The state after events carrying `datas`, in order, as written (a thrown error does not stop later events). */
  function RunEvents(s: BridgeState, datas: seq<JsValue>): BridgeState
  {
    if |datas| == 0 then s else Receive(RunEvents(s, datas[..|datas| - 1]), datas[|datas| - 1]).0
  }

  function RunEventsFixed(s: BridgeState, datas: seq<JsValue>): BridgeState
  {
    if |datas| == 0 then s else ReceiveFixed(RunEventsFixed(s, datas[..|datas| - 1]), datas[|datas| - 1]).0
  }

  // ---------------------------------------------------------------------
  // Properties of the state machine

  /** Handling messages one after another logs the calls of the first batch, then those of the second. */
  lemma {:induction false} DispatchesAppend(methods: map<string, Def>, a: seq<JsValue>, b: seq<JsValue>)
    ensures Dispatches(methods, a + b) == Dispatches(methods, a) + Dispatches(methods, b)
    decreases |b|
  {
    if |b| > 0 {
      var b' := b[..|b| - 1];
      assert (a + b)[..|a + b| - 1] == a + b';
      assert (a + b)[|a + b| - 1] == b[|b| - 1];
      DispatchesAppend(methods, a, b');
    } else {
      assert a + b == a;
    }
  }

  /** Handling one more message of `msgs` adds that message's call, if it makes one. */
  lemma DispatchesStep(methods: map<string, Def>, msgs: seq<JsValue>, i: nat)
    requires i < |msgs| && Handled(methods, msgs[i]).Success?
    ensures Dispatches(methods, msgs[..i + 1]) == Dispatches(methods, msgs[..i]) + [Handled(methods, msgs[i]).value]
  {
    assert msgs[..i + 1][..i] == msgs[..i];
  }

  /** When every message is accepted, the log holds one call per message, in message order. */
  lemma {:induction false} DispatchesInOrder(methods: map<string, Def>, msgs: seq<JsValue>)
    requires forall k :: 0 <= k < |msgs| ==> Handled(methods, msgs[k]).Success?
    ensures |Dispatches(methods, msgs)| == |msgs|
    ensures forall k :: 0 <= k < |msgs| ==> Dispatches(methods, msgs)[k] == Handled(methods, msgs[k]).value
  {
    if |msgs| > 0 {
      var init := msgs[..|msgs| - 1];
      DispatchesInOrder(methods, init);
    }
  }

  /** Before the switch, events only queue their data, in arrival order, and nothing is handled. */
  lemma {:induction false} QueueBeforeReady(s: BridgeState, datas: seq<JsValue>)
    requires s.handler.None?
    ensures RunEvents(s, datas) == s.(queue := s.queue + datas)
    ensures RunEventsFixed(s, datas) == s.(queue := s.queue + datas)
  {
    if |datas| > 0 {
      QueueBeforeReady(s, datas[..|datas| - 1]);
      assert s.queue + datas[..|datas| - 1] + [datas[|datas| - 1]] == s.queue + datas;
    }
  }

  /**
   * When every queued message is accepted, replay calls one handler per
   * message in FIFO order, switches the handler and returns normally; the
   * queue keeps its contents.
   */
  lemma ReplayAccepted(s: BridgeState, defs: seq<Def>)
    requires forall k :: 0 <= k < |s.queue| ==> Handled(Registered(defs), s.queue[k]).Success?
    ensures Initialize(s, defs) ==
      (s.(handler := Some(Registered(defs)), dispatched := s.dispatched + Dispatches(Registered(defs), s.queue)), Normal)
    ensures |Initialize(s, defs).0.dispatched| == |s.dispatched| + |s.queue|
    ensures Initialize(s, defs).0.dispatched[..|s.dispatched|] == s.dispatched
    ensures forall k :: 0 <= k < |s.queue| ==>
      Initialize(s, defs).0.dispatched[|s.dispatched| + k] == Handled(Registered(defs), s.queue[k]).value
  {
    var methods := Registered(defs);
    var j := FirstRejected(methods, s.queue, 0);
    assert j == |s.queue|;
    assert s.queue[..j] == s.queue;
    DispatchesInOrder(methods, s.queue);
  }

  /**
   * When the message at `j` is the first one rejected, replay handles
   * exactly the messages before it, in order, then throws its error; the
   * handler is not switched and the queue keeps its contents.
   */
  lemma ReplayStopsAtFirstError(s: BridgeState, defs: seq<Def>, j: nat)
    requires j < |s.queue| && Handled(Registered(defs), s.queue[j]).Failure?
    requires forall k :: 0 <= k < j ==> Handled(Registered(defs), s.queue[k]).Success?
    ensures Initialize(s, defs) ==
      (s.(dispatched := s.dispatched + Dispatches(Registered(defs), s.queue[..j])), Thrown(Handled(Registered(defs), s.queue[j]).error))
    ensures |Dispatches(Registered(defs), s.queue[..j])| == j
    ensures forall k :: 0 <= k < j ==> Dispatches(Registered(defs), s.queue[..j])[k] == Handled(Registered(defs), s.queue[k]).value
  {
    var methods := Registered(defs);
    assert FirstRejected(methods, s.queue, 0) == j;
    DispatchesInOrder(methods, s.queue[..j]);
  }

  /** As written, once the handler is switched no event is ever dispatched: each one throws and the state stays put. */
  lemma {:induction false} SwitchedBridgeDropsEvents(s: BridgeState, datas: seq<JsValue>)
    requires s.handler.Some?
    ensures RunEvents(s, datas) == s
    ensures forall d :: Receive(s, d) == (s, Thrown(NoNameText(MessageEventObj(d))))
  {
    forall d
      ensures Receive(s, d) == (s, Thrown(NoNameText(MessageEventObj(d))))
    {
      HandledRejectsEveryEvent(s.handler.value, d);
    }
    if |datas| > 0 {
      SwitchedBridgeDropsEvents(s, datas[..|datas| - 1]);
    }
  }

  /** With the fixed handler switched in, each event is handled on its own: accepted ones are logged in arrival order. */
  lemma {:induction false} FixedBridgeDeliversEvents(s: BridgeState, datas: seq<JsValue>)
    requires s.handler.Some?
    ensures RunEventsFixed(s, datas) == s.(dispatched := s.dispatched + Dispatches(s.handler.value, datas))
  {
    if |datas| == 0 {
      assert s.dispatched + [] == s.dispatched;
    } else {
      var init := datas[..|datas| - 1];
      FixedBridgeDeliversEvents(s, init);
      var d0 := s.dispatched + Dispatches(s.handler.value, init);
      match Handled(s.handler.value, datas[|datas| - 1])
      case Success(inv) =>
        assert d0 + [inv] == s.dispatched + (Dispatches(s.handler.value, init) + [inv]);
      case Failure(_) =>
        assert Dispatches(s.handler.value, init) + [] == Dispatches(s.handler.value, init);
    }
  }

  /**
   * With the fixed handler, no message is lost or reordered across the
   * switch: if replay completes, the log over messages posted before and
   * after readiness is that of handling them all, in posting order.
   */
  lemma FixedBridgeLosesNothing(defs: seq<Def>, pre: seq<JsValue>, post: seq<JsValue>)
    requires forall k :: 0 <= k < |pre| ==> Handled(Registered(defs), pre[k]).Success?
    ensures Initialize(RunEventsFixed(Initial, pre), defs).1 == Normal
    ensures RunEventsFixed(Initialize(RunEventsFixed(Initial, pre), defs).0, post).dispatched
      == Dispatches(Registered(defs), pre + post)
  {
    var methods := Registered(defs);
    QueueBeforeReady(Initial, pre);
    var queued := RunEventsFixed(Initial, pre);
    assert [] + pre == pre;
    ReplayAccepted(queued, defs);
    var ready := Initialize(queued, defs).0;
    FixedBridgeDeliversEvents(ready, post);
    DispatchesAppend(methods, pre, post);
  }

  /** As written, the same run logs only the replayed messages: everything posted after readiness is lost. */
  lemma AsWrittenBridgeLosesPostReady(defs: seq<Def>, pre: seq<JsValue>, post: seq<JsValue>)
    requires forall k :: 0 <= k < |pre| ==> Handled(Registered(defs), pre[k]).Success?
    ensures Initialize(RunEvents(Initial, pre), defs).1 == Normal
    ensures RunEvents(Initialize(RunEvents(Initial, pre), defs).0, post).dispatched == Dispatches(Registered(defs), pre)
  {
    QueueBeforeReady(Initial, pre);
    var queued := RunEvents(Initial, pre);
    assert [] + pre == pre;
    ReplayAccepted(queued, defs);
    SwitchedBridgeDropsEvents(Initialize(queued, defs).0, post);
  }

  // ---------------------------------------------------------------------
  // The worker script's module state

  class Bridge {
    /** The module-level `queue`. */
    var queue: seq<JsValue>
    /** What `self.onmessage` is: the queueing arrow (None) or `handleMessage` over a wrapper's methods. */
    var handler: Option<map<string, Def>>
    /** The wrapped C functions called so far, in order. */
    var dispatched: seq<Invocation>

    function State(): BridgeState
      reads this`queue, this`handler, this`dispatched
    {
      BridgeState(queue, handler, dispatched)
    }

    /** Loading the worker script: an empty queue and the queueing `onmessage`. */
    constructor ()
      ensures State() == Initial
    {
      queue, handler, dispatched := [], None, [];
    }

    /** `handleMessage(message)` closed over a wrapper with `methods`. */
    method HandleMessage(methods: map<string, Def>, message: JsValue) returns (out: Completion)
      modifies this`dispatched
      ensures (State(), out) == Deliver(old(State()), methods, message)
    {
      var name := Prop(message, "name");
      if name.Failure? {
        return Thrown(name.error);
      }
      if name.value == Undefined {
        return Thrown(NoNameText(message));
      }
      var args := Prop(message, "args").value;
      if args == Undefined {
        return Thrown(NoArgsText(message));
      }
      var property := "crunch_" + ToString(name.value);
      if property !in methods {
        return Thrown(NoMethodText(property, message));
      }
      var list := ArgList(args);
      if list.Failure? {
        return Thrown(list.error);
      }
      dispatched := dispatched + [Invocation(property, methods[property], list.value)];
      out := Normal;
    }

    /**
     * `self.onmessage` called with a message event carrying `data`, as
     * written: queued before the switch; after it, `handleMessage` is
     * given the event object.
     */
    method OnMessage(data: JsValue) returns (out: Completion)
      modifies this`queue, this`dispatched
      ensures (State(), out) == Receive(old(State()), data)
    {
      match handler {
        case None =>
          queue := queue + [data];
          out := Normal;
        case Some(methods) =>
          out := HandleMessage(methods, MessageEventObj(data));
      }
    }

    /** `self.onmessage` with the switched handler reading the event's `data`. */
    method OnMessageFixed(data: JsValue) returns (out: Completion)
      modifies this`queue, this`dispatched
      ensures (State(), out) == ReceiveFixed(old(State()), data)
    {
      match handler {
        case None =>
          queue := queue + [data];
          out := Normal;
        case Some(methods) =>
          out := HandleMessage(methods, data);
      }
    }

    /**
     * `onRuntimeInitialized`: build the wrapper, replay the queue through
     * `handleMessage` (an error propagates and ends the callback),
     * `queue.splice()` (which removes nothing), then switch `onmessage`.
     */
    method OnRuntimeInitialized(defs: seq<Def>) returns (out: Completion)
      modifies this`handler, this`dispatched
      ensures (State(), out) == Initialize(old(State()), defs)
    {
      var wrapper := new ModuleWrapper(defs);
      var methods := wrapper.methods;
      ghost var stop := FirstRejected(methods, queue, 0);
      var i := 0;
      while i < |queue|
        invariant i <= stop
        invariant FirstRejected(methods, queue, i) == stop
        invariant handler == old(handler)
        invariant dispatched == old(dispatched) + Dispatches(methods, queue[..i])
      {
        var r := HandleMessage(methods, queue[i]);
        if r.Thrown? {
          return r;
        }
        DispatchesStep(methods, queue, i);
        i := i + 1;
      }
      handler := Some(methods);
      out := Normal;
    }
  }
}
