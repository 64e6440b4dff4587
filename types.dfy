/**
 * The interfaces every provider and middleware shares: provider options and
 * the documented contract of the
 * request context (`write` takes effect once, `abort` and `end` are its
 * aliases, `onResponse` callbacks run once the context is written).
 *
 * A middleware (`fn(context, next)`) is `Composer.Script`; the context's
 * operations are the functions of module `Context`.
 */
module Types {
  import opened Values
  import opened Context

  /** `ProviderOptions`: both fields optional. */
  datatype ProviderOptions = ProviderOptions(chainId: Option<int>, url: Option<string>)

  /** `Web3Options`: both fields optional. */
  datatype Web3Options = Web3Options(keys: Option<seq<string>>, options: Option<ProviderOptions>)

  /** `write(error, result)` stores a response, but only the first call takes effect. */
  lemma WriteOnce(c: Ctx, e1: Option<Error>, r1: Value, e2: Option<Error>, r2: Value)
    requires c.writeable
    ensures var d := WithResponse(c, e1, r1);
      && WithResponse(d, e2, r2) == d
      && ErrorOf(WithResponse(d, e2, r2)) == e1
      && ResponseOf(WithResponse(d, e2, r2)) == Some(Response(c.id, "2.0", r1))
  {
  }

  /**
   * `onResponse(callback)` registered before the write: the callback is called
   * exactly once, with the written error and response; registering after the
   * write calls nothing.
   */
  lemma OnResponseCalledOnce(c: Ctx, callback: nat, e: Option<Error>, r: Value)
    requires c.writeable && callback !in c.callbacks
    ensures var d := WithResponse(WithCallback(c, callback), e, r);
      && |d.calls| == |c.calls| + |c.callbacks| + 1
      && d.calls[|d.calls| - 1] == Call(callback, e, Some(Response(c.id, "2.0", r)))
      && (forall k :: |c.calls| <= k < |d.calls| - 1 ==> d.calls[k].callback != callback)
      && WithCallback(d, callback).calls == d.calls
  {
    var c1 := WithCallback(c, callback);
    var d := WithResponse(c1, e, r);
    assert d.calls == c.calls + Notify(c.callbacks + [callback], e, Some(Response(c.id, "2.0", r)));
    forall k | |c.calls| <= k < |d.calls| - 1
      ensures d.calls[k].callback != callback
    {
      assert d.calls[k].callback == c.callbacks[k - |c.calls|];
    }
  }
}
