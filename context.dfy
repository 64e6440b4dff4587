/**
 * The per-request context of the JSON-RPC pipeline: an id from a module-wide
 * counter, the request arguments, and a write-once response (writeable ->
 * written) that fires the registered callbacks once, in registration order.
 *
 * `Ctx` is the value of a context; `RequestContext` is the object the source
 * mutates, and each of its methods is specified by a function on `Ctx`.
 */
module Context {
  import opened Values
  import opened Payload

  /**
   * `RequestArguments`: the method and the optional params given by the
   * caller, and the caller's own `id` and `jsonrpc` keys when it sets them
   * (the type is open, so any key may be present).
   */
  datatype Arguments = Arguments(rpcMethod: string, params: Option<seq<Value>>, id: Option<Id>, jsonrpc: Option<string>)

  /** The arguments most callers pass: `{method, params}` and no other key. */
  function MethodCall(name: string, params: Option<seq<Value>>): (a: Arguments)
    ensures a.rpcMethod == name && a.params == params && a.id.None? && a.jsonrpc.None?
  {
    Arguments(name, params, None, None)
  }

  /** `SendOverrides`: optional provider type and chain id for one request. */
  datatype Overrides = Overrides(providerType: Option<string>, chainId: Option<int>)

  /** A JSON-RPC 2.0 response object (section 5 of the JSON-RPC 2.0 Specification). */
  datatype Response = Response(id: nat, jsonrpc: string, result: Value)

  /** One invocation of a registered callback, with the error and response it was given. */
  datatype Call = Call(callback: nat, error: Option<Error>, response: Option<Response>)

  datatype Ctx = Ctx(
    id: nat,
    args: Arguments,
    writeable: bool,
    rawError: Option<Error>,
    rawResult: Value,
    callbacks: seq<nat>,
    calls: seq<Call>)

  function Fresh(id: nat, args: Arguments): (c: Ctx)
    ensures c.writeable && c.callbacks == [] && c.calls == []
  {
    Ctx(id, args, true, None, Undefined, [], [])
  }

  /**
   * The `payload` getter: `{id, jsonrpc: '2.0', params: []}` spread over by the
   * request arguments, so each key the caller sets wins over the default.
   */
  function PayloadOf(c: Ctx): (p: Payload)
    ensures p.rpcMethod == c.args.rpcMethod
    ensures c.args.id.None? ==> p.id == NumId(c.id)
    ensures c.args.id.Some? ==> p.id == c.args.id.value
    ensures c.args.jsonrpc.None? ==> p.jsonrpc == "2.0"
    ensures c.args.jsonrpc.Some? ==> p.jsonrpc == c.args.jsonrpc.value
    ensures c.args.params.Some? ==> p.params == c.args.params.value
    ensures c.args.params.None? ==> p.params == []
  {
    Payload(c.args.id.GetOr(NumId(c.id)), c.args.jsonrpc.GetOr("2.0"), c.args.rpcMethod, c.args.params.GetOr([]))
  }

  /** The `response` getter: undefined while writeable, `{id, jsonrpc: '2.0', result}` once written. */
  function ResponseOf(c: Ctx): (r: Option<Response>)
    ensures r.None? <==> c.writeable
    ensures r.Some? ==> r.value == Response(c.id, "2.0", c.rawResult)
  {
    if c.writeable then None else Some(Response(c.id, "2.0", c.rawResult))
  }

  /** The `error` getter: null while writeable, the stored error once written. */
  function ErrorOf(c: Ctx): (e: Option<Error>)
    ensures c.writeable ==> e == None
    ensures !c.writeable ==> e == c.rawError
  {
    if c.writeable then None else c.rawError
  }

  /** Each callback in order, called once with the same error and response. */
  function Notify(callbacks: seq<nat>, error: Option<Error>, response: Option<Response>): (calls: seq<Call>)
    ensures |calls| == |callbacks|
    ensures forall i :: 0 <= i < |callbacks| ==> calls[i] == Call(callbacks[i], error, response)
  {
    seq(|callbacks|, i requires 0 <= i < |callbacks| => Call(callbacks[i], error, response))
  }

  /**
   * `setResponse(error, response)` with `result` standing for `response?.result`:
   * the first call locks the context, stores the error and the result and calls
   * every registered callback; on a locked context it does nothing.
   */
  function WithResponse(c: Ctx, error: Option<Error>, result: Value): (d: Ctx)
    ensures !c.writeable ==> d == c
    ensures c.writeable ==> !d.writeable && d.rawError == error && d.rawResult == result
    ensures d.id == c.id && d.args == c.args && d.callbacks == c.callbacks
    ensures c.writeable ==> d.calls == c.calls + Notify(c.callbacks, ErrorOf(d), ResponseOf(d))
  {
    if !c.writeable then c
    else
      var locked := c.(writeable := false, rawError := error, rawResult := result);
      locked.(calls := c.calls + Notify(c.callbacks, ErrorOf(locked), ResponseOf(locked)))
  }

  /** `getResponse(callback)`: registers a callback; it only runs at a later first write. */
  function WithCallback(c: Ctx, callback: nat): (d: Ctx)
    ensures d == c.(callbacks := c.callbacks + [callback])
  {
    c.(callbacks := c.callbacks + [callback])
  }

  /** `abort(error, fallback)`: a write of the (normalised) error with no result. */
  function Aborted(c: Ctx, t: Thrown, fallback: string): (d: Ctx)
    ensures c.writeable ==> ErrorOf(d) == Some(Normalize(t, fallback)) && ResponseOf(d) == Some(Response(c.id, "2.0", Undefined))
    ensures !c.writeable ==> d == c
  {
    WithResponse(c, Some(Normalize(t, fallback)), Undefined)
  }

  /** `end(result)`: a write of a result with no error. */
  function Ended(c: Ctx, result: Value): (d: Ctx)
    ensures c.writeable ==> ErrorOf(d) == None && ResponseOf(d) == Some(Response(c.id, "2.0", result))
    ensures !c.writeable ==> d == c
  {
    WithResponse(c, None, result)
  }

  // ---------------------------------------------------------------------
  // The `error` and `result` setters

  /**
   * The `error` setter as written: it stores the raw error first and then calls
   * `setResponse(error)`, so on a locked context the stored error still changes.
   */
  function AssignErrorAsWritten(c: Ctx, error: Option<Error>): (d: Ctx)
    ensures !c.writeable ==> d == c.(rawError := error)
  {
    WithResponse(c.(rawError := error), error, Undefined)
  }

  /** The `result` setter as written: the raw result is stored even on a locked context. */
  function AssignResultAsWritten(c: Ctx, result: Value): (d: Ctx)
    ensures !c.writeable ==> d == c.(rawResult := result)
  {
    WithResponse(c.(rawResult := result), None, result)
  }

  /** The `error` setter as the write-once contract intends it: only a write through `setResponse`. */
  function AssignError(c: Ctx, error: Option<Error>): (d: Ctx)
    ensures !c.writeable ==> d == c
    ensures c.writeable ==> ErrorOf(d) == error && ResponseOf(d) == Some(Response(c.id, "2.0", Undefined))
  {
    WithResponse(c, error, Undefined)
  }

  /** The `result` setter as the write-once contract intends it. */
  function AssignResult(c: Ctx, result: Value): (d: Ctx)
    ensures !c.writeable ==> d == c
    ensures c.writeable ==> ErrorOf(d) == None && ResponseOf(d) == Some(Response(c.id, "2.0", result))
  {
    WithResponse(c, None, result)
  }

  // ---------------------------------------------------------------------
  // Histories of operations on one context

  datatype Op =
    | SetResp(error: Option<Error>, result: Value)
    | Register(callback: nat)
    | SetError(err: Option<Error>)
    | SetResult(value: Value)

  predicate IsWrite(op: Op) {
    !op.Register?
  }

  /** The error a writing operation stores. */
  function WrittenError(op: Op): Option<Error>
    requires IsWrite(op)
  {
    match op
    case SetResp(e, _) => e
    case SetError(e) => e
    case SetResult(_) => None
  }

  /** The result a writing operation stores. */
  function WrittenResult(op: Op): Value
    requires IsWrite(op)
  {
    match op
    case SetResp(_, r) => r
    case SetError(_) => Undefined
    case SetResult(r) => r
  }

  /** One operation with the setters guarded (the intended behaviour). */
  function Step(c: Ctx, op: Op): Ctx {
    match op
    case SetResp(e, r) => WithResponse(c, e, r)
    case Register(cb) => WithCallback(c, cb)
    case SetError(e) => AssignError(c, e)
    case SetResult(r) => AssignResult(c, r)
  }

  /** One operation with the setters as written. */
  function StepAsWritten(c: Ctx, op: Op): Ctx {
    match op
    case SetResp(e, r) => WithResponse(c, e, r)
    case Register(cb) => WithCallback(c, cb)
    case SetError(e) => AssignErrorAsWritten(c, e)
    case SetResult(r) => AssignResultAsWritten(c, r)
  }

  function Run(c: Ctx, ops: seq<Op>): Ctx
    decreases |ops|
  {
    if ops == [] then c else Run(Step(c, ops[0]), ops[1..])
  }

  function RunAsWritten(c: Ctx, ops: seq<Op>): Ctx
    decreases |ops|
  {
    if ops == [] then c else RunAsWritten(StepAsWritten(c, ops[0]), ops[1..])
  }

  /** The callbacks the operations register, in order. */
  function Registered(ops: seq<Op>): (cbs: seq<nat>)
    ensures |cbs| <= |ops|
  {
    if ops == [] then []
    else (if ops[0].Register? then [ops[0].callback] else []) + Registered(ops[1..])
  }

  /** Once locked, a context only accumulates callbacks; no write changes it again. */
  lemma {:induction false} LockedStaysLocked(c: Ctx, ops: seq<Op>)
    requires !c.writeable
    ensures Run(c, ops) == c.(callbacks := c.callbacks + Registered(ops))
    decreases |ops|
  {
    if ops != [] {
      LockedStaysLocked(Step(c, ops[0]), ops[1..]);
    }
  }

  /** Without a write, a context stays writeable and calls nothing. */
  lemma {:induction false} NoWriteNoCall(c: Ctx, ops: seq<Op>)
    requires c.writeable
    requires forall i :: 0 <= i < |ops| ==> !IsWrite(ops[i])
    ensures Run(c, ops) == c.(callbacks := c.callbacks + Registered(ops))
    decreases |ops|
  {
    if ops != [] {
      NoWriteNoCall(Step(c, ops[0]), ops[1..]);
    }
  }

  lemma {:induction false} RunAppend(c: Ctx, a: seq<Op>, b: seq<Op>)
    ensures Run(c, a + b) == Run(Run(c, a), b)
    decreases |a|
  {
    if a != [] {
      assert (a + b)[0] == a[0] && (a + b)[1..] == a[1..] + b;
      RunAppend(Step(c, a[0]), a[1..], b);
    } else {
      assert a + b == b;
    }
  }

  lemma {:induction false} RegisteredAppend(a: seq<Op>, b: seq<Op>)
    ensures Registered(a + b) == Registered(a) + Registered(b)
    decreases |a|
  {
    if a != [] {
      assert (a + b)[0] == a[0] && (a + b)[1..] == a[1..] + b;
      RegisteredAppend(a[1..], b);
    } else {
      assert a + b == b;
    }
  }

  /**
   * Write-once: in a history `pre + [w] + post` whose first write is `w`, the
   * context ends with the error and result of `w`, whatever `post` writes; every
   * callback registered before `w` is called exactly once, in registration
   * order, with that error and response; callbacks registered afterwards are
   * recorded but never called.
   */
  lemma FirstWriteWins(c: Ctx, pre: seq<Op>, w: Op, post: seq<Op>)
    requires c.writeable && IsWrite(w)
    requires forall i :: 0 <= i < |pre| ==> !IsWrite(pre[i])
    ensures var d := Run(c, pre + [w] + post);
      && !d.writeable
      && d.rawError == WrittenError(w)
      && d.rawResult == WrittenResult(w)
      && d.callbacks == c.callbacks + Registered(pre + [w] + post)
      && d.calls == c.calls + Notify(c.callbacks + Registered(pre), d.rawError, ResponseOf(d))
  {
    var p := Run(c, pre);
    NoWriteNoCall(c, pre);
    var q := StepWrite(p, w);
    assert q == Run(p, [w]) by {
      assert [w][1..] == [];
    }
    LockedStaysLocked(q, post);
    RunAppend(c, pre, [w]);
    RunAppend(c, pre + [w], post);
    assert Run(c, pre + [w] + post) == q.(callbacks := q.callbacks + Registered(post));
    RegisteredAppend(pre, [w]);
    RegisteredAppend(pre + [w], post);
    assert Registered([w]) == [];
  }

  /** A write to a writeable context stores what the operation writes. */
  lemma StepWrite(p: Ctx, w: Op) returns (q: Ctx)
    requires p.writeable && IsWrite(w)
    ensures q == Step(p, w) && q == WithResponse(p, WrittenError(w), WrittenResult(w))
  {
    q := Step(p, w);
  }

  /**
   * With the setters as written the write-once contract fails: a context written
   * with result 1 and then assigned result 2 reports result 2, while the guarded
   * setters keep 1.
   */
  lemma SetterOverwritesAfterLock(c: Ctx)
    requires c.writeable
    ensures var ops := [SetResult(Num(1)), SetResult(Num(2))];
      && RunAsWritten(c, ops).rawResult == Num(2)
      && ResponseOf(RunAsWritten(c, ops)) == Some(Response(c.id, "2.0", Num(2)))
      && Run(c, ops).rawResult == Num(1)
  {
    var ops := [SetResult(Num(1)), SetResult(Num(2))];
    assert ops[1..][1..] == [];
    FirstWriteWins(c, [], SetResult(Num(1)), [SetResult(Num(2))]);
    assert [] + [SetResult(Num(1))] + [SetResult(Num(2))] == ops;
  }

  // ---------------------------------------------------------------------
  // The mutable object

  class RequestContext {
    const id: nat
    var requestArguments: Arguments
    const overrides: Option<Overrides>
    var writeable: bool
    var rawError: Option<Error>
    var rawResult: Value
    var callbacks: seq<nat>
    /** The callback invocations made so far, in order. */
    var calls: seq<Call>

    function State(): (c: Ctx)
      reads this
    {
      Ctx(id, requestArguments, writeable, rawError, rawResult, callbacks, calls)
    }

    constructor (id: nat, args: Arguments, overrides: Option<Overrides>)
      ensures State() == Fresh(id, args) && this.overrides == overrides
    {
      this.id := id;
      this.requestArguments := args;
      this.overrides := overrides;
      writeable := true;
      rawError := None;
      rawResult := Undefined;
      callbacks := [];
      calls := [];
    }

    /** The `payload` getter. */
    function RequestPayload(): (p: Payload)
      reads this
    {
      PayloadOf(State())
    }

    /** The `response` getter. */
    function CurrentResponse(): (r: Option<Response>)
      reads this
    {
      ResponseOf(State())
    }

    /** The `error` getter. */
    function CurrentError(): (e: Option<Error>)
      reads this
    {
      ErrorOf(State())
    }

    /** `setResponse(error, response)`; `result` stands for `response?.result`. */
    method SetResponse(error: Option<Error>, result: Value)
      modifies this
      ensures State() == WithResponse(old(State()), error, result)
    {
      if !writeable {
        return;
      }
      writeable := false;
      // the nested setter calls reach a locked context and only store the raw fields
      rawError := error;
      rawResult := result;
      var e, r := rawError, Some(Response(id, "2.0", rawResult));
      var i := 0;
      ghost var before := calls;
      ghost var locked := State();
      while i < |callbacks|
        invariant 0 <= i <= |callbacks|
        invariant State() == locked.(calls := before + Notify(callbacks[..i], e, r))
      {
        calls := calls + [Call(callbacks[i], e, r)];
        i := i + 1;
        assert callbacks[..i] == callbacks[..i - 1] + [callbacks[i - 1]];
      }
      assert callbacks[..i] == callbacks;
      assert e == ErrorOf(State()) && r == ResponseOf(State());
    }

    /** `getResponse(callback)`. */
    method GetResponse(callback: nat)
      modifies this
      ensures State() == WithCallback(old(State()), callback)
    {
      callbacks := callbacks + [callback];
    }

    /** The `error` setter, as written. */
    method AssignError(error: Option<Error>)
      modifies this
      ensures State() == AssignErrorAsWritten(old(State()), error)
    {
      rawError := error;
      SetResponse(rawError, Undefined);
    }

    /** The `result` setter, as written. */
    method AssignResult(result: Value)
      modifies this
      ensures State() == AssignResultAsWritten(old(State()), result)
    {
      rawResult := result;
      SetResponse(None, rawResult);
    }

    /** Assigning `requestArguments`: only the arguments change, the response state does not. */
    method SetRequestArguments(args: Arguments)
      modifies this
      ensures State() == old(State()).(args := args)
    {
      requestArguments := args;
    }

    /** `abort(error, fallback)` of the context contract. */
    method Abort(t: Thrown, fallback: string)
      modifies this
      ensures State() == Aborted(old(State()), t, fallback)
    {
      SetResponse(Some(Normalize(t, fallback)), Undefined);
    }

    /** `end(result)` of the context contract. */
    method End(result: Value)
      modifies this
      ensures State() == Ended(old(State()), result)
    {
      SetResponse(None, result);
    }
  }

  /** The module-level `pid` counter that numbers contexts. */
  class ContextFactory {
    var pid: nat

    constructor ()
      ensures pid == 0
    {
      pid := 0;
    }

    /** `createContext`: each new context takes the next id. */
    method CreateContext(args: Arguments, overrides: Option<Overrides>) returns (c: RequestContext)
      modifies this
      ensures fresh(c)
      ensures c.State() == Fresh(old(pid), args) && c.overrides == overrides
      ensures pid == old(pid) + 1
    {
      c := new RequestContext(pid, args, overrides);
      pid := pid + 1;
    }
  }
}
