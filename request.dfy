/**
 * `sendRequest`: the module registers Logger then Squash on the composer when
 * it loads; each request creates a context, dispatches it with a terminal that
 * asks the external provider, and settles from what the context holds after
 * the dispatch.
 *
 * The external provider is an oracle `provider(providerType, chainId)` giving
 * a `ProviderReply`. Squash's source is not part of this model, so its
 * middleware is a parameter.
 */
module Request {
  import opened Values
  import opened Context
  import opened Composer

  /** The two events Logger emits around `next()`. */
  const LOG_START := 0
  const LOG_END := 1

  /** Logger's `fn`: log, await `next()` once, log again. */
  const LOGGER: Script := [Emit(LOG_START), Next, Emit(LOG_END)]

  const PROVIDER_MISSING := "Failed to create provider."
  const SEND_FAILED := "Failed to send request."

  /** What awaiting `createExternalProvider(...)` and then `request(...)` gives. */
  datatype ProviderReply =
    | NoProvider          // no provider, or one without `request`
    | Replied(result: Value)
    | Failed(thrown: Thrown)

  /** The terminal `next` of `sendRequest`: it writes exactly once, whatever the reply. */
  function Terminal(reply: ProviderReply): (s: Script)
    ensures |s| == 1 && s[0].Write?
  {
    match reply
    case NoProvider => [Write(Some(Error(PROVIDER_MISSING)), Undefined)]
    case Replied(v) => [Write(None, v)]
    case Failed(t) => [Write(Some(Normalize(t, SEND_FAILED)), Undefined)]
  }

  /** `providerType` and `chainId` from the overrides, each defaulting to the current setting. */
  function Settings(overrides: Option<Overrides>, currentProvider: string, currentChain: int): (r: (string, int))
    ensures overrides.Some? && overrides.value.providerType.Some? ==> r.0 == overrides.value.providerType.value
    ensures overrides.None? || overrides.value.providerType.None? ==> r.0 == currentProvider
    ensures overrides.Some? && overrides.value.chainId.Some? ==> r.1 == overrides.value.chainId.value
    ensures overrides.None? || overrides.value.chainId.None? ==> r.1 == currentChain
  {
    var o := overrides.GetOr(Overrides(None, None));
    (o.providerType.GetOr(currentProvider), o.chainId.GetOr(currentChain))
  }

  /** The state of the promise `sendRequest` returns. */
  datatype Settled = Pending | Fulfilled(value: Value) | RejectedWith(error: Error)

  /**
   * After `await dispatch(...)`: reject with `context.error` when it is set,
   * otherwise resolve with `context.result`. A rejected dispatch throws out of
   * the executor before either runs, so the promise stays pending.
   */
  function Settle(outcome: Outcome, c: Ctx): (s: Settled)
    ensures outcome.Rejected? ==> s == Pending
    ensures outcome.Resolved? ==> (s.RejectedWith? <==> ErrorOf(c).Some?) && !s.Pending?
    ensures s.RejectedWith? ==> ErrorOf(c) == Some(s.error)
    ensures s.Fulfilled? ==> s.value == c.rawResult
  {
    if outcome.Rejected? then Pending
    else match ErrorOf(c)
      case Some(e) => RejectedWith(e)
      case None => Fulfilled(c.rawResult)
  }

  /**
   * The terminal as the source runs it: `RequestContext` has no `write`, so
   * `context.write(null, result)` throws a TypeError inside the `try`, and the
   * same call in the `catch` throws again, whatever the provider replied.
   */
  const WRITE_MISSING := Error("context.write is not a function")
  const TERMINAL_AS_WRITTEN: Script := [Throw(WRITE_MISSING)]

  /** One `sendRequest` over a given middleware list and terminal, from a fresh context. */
  function Send(lookup: Lookup, mws: seq<Script>, terminal: Script, c: Ctx): (s: Settled)
    ensures s.Pending? <==> Dispatched(lookup, mws, terminal, c).outcome.Rejected?
  {
    var r := Dispatched(lookup, mws, terminal, c);
    Settle(r.outcome, r.st.ctx)
  }

  /** What the caller of `sendRequest` observes for each provider reply. */
  function Expected(reply: ProviderReply): (s: Settled)
    ensures s != Pending
  {
    match reply
    case NoProvider => RejectedWith(Error(PROVIDER_MISSING))
    case Replied(v) => Fulfilled(v)
    case Failed(t) => RejectedWith(Normalize(t, SEND_FAILED))
  }

  /**
   * With passing middlewares: a missing provider rejects with 'Failed to create
   * provider.', a reply resolves with its result, a thrown `Error` rejects with
   * it, and any other thrown value rejects with 'Failed to send request.'.
   */
  lemma SendRequestSettles(mws: seq<Script>, reply: ProviderReply, c: Ctx)
    requires c.writeable && Passing(mws)
    ensures Send(Guarded, mws, Terminal(reply), c) == Expected(reply)
  {
    var terminal := Terminal(reply);
    assert AllQuiet(terminal);
    RegistrationOrder(mws, terminal, c);
    var w := terminal[0];
    assert ApplyWrites(c, terminal) == ApplyWrites(WithResponse(c, w.error, w.result), []) by {
      assert terminal[1..] == [];
    }
  }

  /**
   * As the composer is written, the terminal is never reached, the dispatch
   * rejects and the promise `sendRequest` returns never settles.
   */
  lemma SendRequestAsWrittenHangs(mws: seq<Script>, reply: ProviderReply, c: Ctx)
    requires Passing(mws)
    ensures Send(AsWritten, mws, Terminal(reply), c) == Pending
  {
    var terminal := Terminal(reply);
    assert AllQuiet(terminal);
    AsWrittenSkipsTerminal(mws, terminal, c);
  }

  /**
   * With the terminal as written, `sendRequest` never settles under either
   * lookup: the dispatch rejects (before the terminal as written, with the
   * terminal's TypeError when guarded) and the context is never written.
   */
  lemma SendRequestWriteMissingHangs(lookup: Lookup, mws: seq<Script>, c: Ctx)
    requires Passing(mws)
    ensures Send(lookup, mws, TERMINAL_AS_WRITTEN, c) == Pending
    ensures Dispatched(lookup, mws, TERMINAL_AS_WRITTEN, c).st.ctx == c
    ensures Dispatched(Guarded, mws, TERMINAL_AS_WRITTEN, c).outcome == Rejected(WRITE_MISSING)
  {
    GuardedStageThrows(mws, TERMINAL_AS_WRITTEN, 0, Initial(c));
    AsWrittenSkipsTerminal(mws, TERMINAL_AS_WRITTEN, c);
  }

  /** Logger awaits `next()` exactly once and never writes. */
  lemma LoggerPasses()
    ensures PassesOnce(LOGGER) && forall k :: 0 <= k < |LOGGER| ==> !LOGGER[k].Write?
  {
    assert LOGGER[..1] == [Emit(LOG_START)] && LOGGER[2..] == [Emit(LOG_END)];
    assert LOGGER[1] == Next && AllQuiet(LOGGER[..1]) && AllQuiet(LOGGER[2..]);
  }

  /** The module-level composer and context counter that `request.ts` uses. */
  class Service {
    const composer: Composer
    const factory: ContextFactory

    /** Module load: Logger is registered before Squash. */
    constructor (squash: Script)
      ensures composer.middlewares == [LOGGER, squash] && factory.pid == 0
      ensures fresh(composer) && fresh(factory)
    {
      composer := new Composer();
      factory := new ContextFactory();
      new;
      composer.Use(LOGGER);
      composer.Use(squash);
    }

    /**
     * `sendRequest(requestArguments, overrides)`, with the current settings and
     * the external provider given as parameters, and the composer's stage lookup
     * chosen by `lookup` (`AsWritten` for the source's, `Guarded` corrected).
     */
    method SendRequest(lookup: Lookup, args: Arguments, overrides: Option<Overrides>, currentProvider: string,
                       currentChain: int, provider: (string, int) -> ProviderReply) returns (s: Settled)
      modifies factory
      ensures factory.pid == old(factory.pid) + 1
      ensures var settings := Settings(overrides, currentProvider, currentChain);
        s == Send(lookup, composer.middlewares, Terminal(provider(settings.0, settings.1)), Fresh(old(factory.pid), args))
    {
      var settings := Settings(overrides, currentProvider, currentChain);
      var context := factory.CreateContext(args, overrides);
      var reply := provider(settings.0, settings.1);
      var outcome := composer.Dispatch(lookup, context, Terminal(reply));
      s := Settle(outcome, context.State());
    }
  }
}
