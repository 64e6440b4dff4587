/**
 * The MaskWallet interceptor: it signs eth_sendTransaction, personal_sign and
 * eth_signTypedData requests with a key exported from the wallet, writes the
 * outcome into the context, and passes every other request on to `next`.
 *
 * The wallet service, the signing libraries and the provider's `request` are
 * oracles (`Signer`); the Web3 instance comes from the `MaskWalletProvider`
 * the interceptor owns.
 */
module Interceptor {
  import opened Values
  import opened Payload
  import opened Types
  import opened Context
  import opened WalletProvider

  const INVALID_PAYLOAD := "Invalid JSON payload."
  const NOT_VALID_ACCOUNT := "Not a valid account."
  const SIGN_TX_FAILED := "Failed to sign transaction."
  const SEND_TX_FAILED := "Failed to send transaction."
  const SIGN_DATA_FAILED := "Failed to sign data."
  const SIGN_TYPED_FAILED := "Failed to sign typed data."

  /**
   * The external calls: `WalletRPC.exportPrivateKey(address)` (a missing key
   * is ''), `signTransaction(config, key)`, the provider's
   * `request(method, params)`, `web3.eth.sign(data, address)` on a Web3
   * instance, and `signTypedData` with the private key '0x' + key (covering
   * the `JSON.parse` of the data).
   */
  datatype Signer = Signer(
    exportKey: Value -> Reply<string>,
    signTransaction: (Value, string) -> Reply<Value>,
    request: (string, seq<Value>) -> Reply<Value>,
    sign: (nat, Value, Value) -> Reply<Value>,
    signTypedData: (string, Value) -> Reply<Value>)

  /** What `fn` does with the context: await `next`, `abort` with an error, or `end` with a result. */
  datatype Act = Pass | Abort(error: Error) | End(result: Value)

  /** The act and the `request(method, params)` calls made on the provider, in order. */
  datatype Decision = Decision(act: Act, sent: seq<(string, seq<Value>)>)

  /** `abort(error, fallback)` with no provider call. */
  function Aborting(t: Thrown, fallback: string): (d: Decision)
    ensures d.sent == [] && d.act.Abort?
    ensures t.Raised? ==> d.act.error == t.error
    ensures t.RaisedValue? ==> d.act.error == Error(fallback)
  {
    Decision(Abort(Normalize(t, fallback)), [])
  }

  /** `createWeb3(chainId, address, key)`: the options `{options: {chainId}, keys: [key]}`. */
  function KeyedOptions(chainId: int, key: string): Web3Options {
    Web3Options(Some([key]), Some(ProviderOptions(Some(chainId), None)))
  }

  /** The context after `fn` acted on it. */
  function Applied(c: Ctx, act: Act): (d: Ctx)
    ensures act.Pass? ==> d == c
    ensures act.Abort? ==> d == Aborted(c, Raised(act.error), "")
    ensures act.End? ==> d == Ended(c, act.result)
  {
    match act
    case Pass => c
    case Abort(e) => WithResponse(c, Some(e), Undefined)
    case End(v) => WithResponse(c, None, v)
  }

  predicate HasTarget(config: Value) {
    Truthy(Field(config, "from")) || Truthy(Field(config, "to"))
  }

  /**
   * eth_sendTransaction: a config with neither `from` nor `to` aborts before
   * any key lookup; otherwise export the key of `from`, build the Web3
   * instance, sign, and broadcast the raw transaction once. An error object
   * thrown on the way is the abort error; anything else thrown aborts with
   * 'Failed to send transaction.'.
   */
  function SendTransaction(config: Value, chainId: int, current: int, seed: nat, rpc: (int, nat) -> string,
                           o: Signer, s: Pools): (r: (Pools, Decision))
    requires Consistent(s)
    ensures Consistent(r.0) && !r.1.act.Pass? && |r.1.sent| <= 1
    ensures !HasTarget(config) ==> r == (s, Decision(Abort(Error(INVALID_PAYLOAD)), []))
    ensures HasTarget(config) && o.exportKey(Field(config, "from")) == Returned("") ==>
      r == (s, Decision(Abort(Error(NOT_VALID_ACCOUNT)), []))
    ensures r.1.sent != [] ==>
      && HasTarget(config) && o.exportKey(Field(config, "from")).Returned?
      && var key := o.exportKey(Field(config, "from")).value;
      && o.signTransaction(config, key).Returned?
      && var raw := Field(o.signTransaction(config, key).value, "rawTransaction");
      && Truthy(raw) && r.1.sent == [(ETH_SEND_RAW_TRANSACTION, [raw])]
      && r.1.act == (match o.request(ETH_SEND_RAW_TRANSACTION, [raw])
                     case Returned(v) => End(v)
                     case Threw(t) => Abort(Normalize(t, SEND_TX_FAILED)))
    ensures r.1.act.End? ==> r.1.sent != []
  {
    if !HasTarget(config) then (s, Decision(Abort(Error(INVALID_PAYLOAD)), []))
    else match o.exportKey(Field(config, "from"))
      case Threw(t) => (s, Aborting(t, SEND_TX_FAILED))
      case Returned(key) =>
        if key == "" then (s, Aborting(Raised(Error(NOT_VALID_ACCOUNT)), SEND_TX_FAILED))
        else
          var (s1, web3) := Web3For(s, KeyedOptions(chainId, key), current, seed, rpc);
          match web3
          case Failure(e) => (s1, Aborting(Raised(e), SEND_TX_FAILED))
          case Success(_) =>
            match o.signTransaction(config, key)
            case Threw(t) => (s1, Aborting(t, SEND_TX_FAILED))
            case Returned(signed) =>
              var raw := Field(signed, "rawTransaction");
              if !Truthy(raw) then (s1, Decision(Abort(Error(SIGN_TX_FAILED)), []))
              else
                var sent := [(ETH_SEND_RAW_TRANSACTION, [raw])];
                match o.request(ETH_SEND_RAW_TRANSACTION, [raw])
                case Returned(v) => (s1, Decision(End(v), sent))
                case Threw(t) => (s1, Decision(Abort(Normalize(t, SEND_TX_FAILED)), sent))
  }

  /**
   * A signed transaction with an empty `rawTransaction` aborts with
   * 'Failed to sign transaction.' and nothing is broadcast.
   */
  lemma EmptyRawTransactionAborts(config: Value, chainId: int, current: int, seed: nat, rpc: (int, nat) -> string,
                                  o: Signer, s: Pools, key: string)
    requires Consistent(s) && HasTarget(config)
    requires o.exportKey(Field(config, "from")) == Returned(key) && key != ""
    requires Web3For(s, KeyedOptions(chainId, key), current, seed, rpc).1.Success?
    requires o.signTransaction(config, key).Returned? && !Truthy(Field(o.signTransaction(config, key).value, "rawTransaction"))
    ensures SendTransaction(config, chainId, current, seed, rpc, o, s).1 == Decision(Abort(Error(SIGN_TX_FAILED)), [])
  {
  }

  /**
   * personal_sign reads its params as [data, address]: export the key of
   * `address`, build the Web3 instance, and end with `eth.sign(data, address)`;
   * any non-error thrown value aborts with 'Failed to sign data.'.
   */
  function PersonalSign(params: seq<Value>, chainId: int, current: int, seed: nat, rpc: (int, nat) -> string,
                        o: Signer, s: Pools): (r: (Pools, Decision))
    requires Consistent(s)
    ensures Consistent(r.0) && !r.1.act.Pass? && r.1.sent == []
    ensures o.exportKey(At(params, 1)) == Returned("") ==> r == (s, Decision(Abort(Error(NOT_VALID_ACCOUNT)), []))
    ensures o.exportKey(At(params, 1)).Threw? ==> r == (s, Aborting(o.exportKey(At(params, 1)).thrown, SIGN_DATA_FAILED))
    ensures r.1.act.End? ==>
      && o.exportKey(At(params, 1)).Returned?
      && var web3 := Web3For(s, KeyedOptions(chainId, o.exportKey(At(params, 1)).value), current, seed, rpc);
      && web3.1.Success? && r.0 == web3.0
      && o.sign(web3.1.value, At(params, 0), At(params, 1)) == Returned(r.1.act.result)
  {
    var data, address := At(params, 0), At(params, 1);
    match o.exportKey(address)
    case Threw(t) => (s, Aborting(t, SIGN_DATA_FAILED))
    case Returned(key) =>
      if key == "" then (s, Aborting(Raised(Error(NOT_VALID_ACCOUNT)), SIGN_DATA_FAILED))
      else
        var (s1, web3) := Web3For(s, KeyedOptions(chainId, key), current, seed, rpc);
        match web3
        case Failure(e) => (s1, Aborting(Raised(e), SIGN_DATA_FAILED))
        case Success(w) =>
          match o.sign(w, data, address)
          case Returned(v) => (s1, Decision(End(v), []))
          case Threw(t) => (s1, Aborting(t, SIGN_DATA_FAILED))
  }

  /**
   * eth_signTypedData reads its params as [address, data]: export the key of
   * `address` and end with the typed-data signature made with '0x' + key; any
   * non-error thrown value aborts with 'Failed to sign typed data.'. No Web3
   * instance is built.
   */
  function SignTypedData(params: seq<Value>, o: Signer): (d: Decision)
    ensures !d.act.Pass? && d.sent == []
    ensures o.exportKey(At(params, 0)) == Returned("") ==> d.act == Abort(Error(NOT_VALID_ACCOUNT))
    ensures o.exportKey(At(params, 0)).Threw? ==> d == Aborting(o.exportKey(At(params, 0)).thrown, SIGN_TYPED_FAILED)
    ensures d.act.End? <==>
      && o.exportKey(At(params, 0)).Returned? && o.exportKey(At(params, 0)).value != ""
      && o.signTypedData("0x" + o.exportKey(At(params, 0)).value, At(params, 1)).Returned?
    ensures d.act.End? ==> d.act.result == o.signTypedData("0x" + o.exportKey(At(params, 0)).value, At(params, 1)).value
  {
    var address, data := At(params, 0), At(params, 1);
    match o.exportKey(address)
    case Threw(t) => Aborting(t, SIGN_TYPED_FAILED)
    case Returned(key) =>
      if key == "" then Aborting(Raised(Error(NOT_VALID_ACCOUNT)), SIGN_TYPED_FAILED)
      else match o.signTypedData("0x" + key, data)
        case Returned(v) => Decision(End(v), [])
        case Threw(t) => Aborting(t, SIGN_TYPED_FAILED)
  }

  predicate Intercepted(name: string) {
    name == ETH_SEND_TRANSACTION || name == PERSONAL_SIGN || name == ETH_SIGN_TYPED_DATA
  }

  /**
   * `fn(context, next)`: the three signing methods are answered here and never
   * reach `next`; every other method goes to `next` untouched. Only
   * eth_sendTransaction calls the provider, at most once.
   */
  function Intercept(p: Payload, chainId: int, current: int, seed: nat, rpc: (int, nat) -> string,
                     o: Signer, s: Pools): (r: (Pools, Decision))
    requires Consistent(s)
    ensures Consistent(r.0)
    ensures r.1.act.Pass? <==> !Intercepted(p.rpcMethod)
    ensures r.1.act.Pass? ==> r == (s, Decision(Pass, []))
    ensures r.1.sent != [] ==> p.rpcMethod == ETH_SEND_TRANSACTION && |r.1.sent| == 1 && r.1.sent[0].0 == ETH_SEND_RAW_TRANSACTION
  {
    if p.rpcMethod == ETH_SEND_TRANSACTION then SendTransaction(GetPayloadConfig(p), chainId, current, seed, rpc, o, s)
    else if p.rpcMethod == PERSONAL_SIGN then PersonalSign(p.params, chainId, current, seed, rpc, o, s)
    else if p.rpcMethod == ETH_SIGN_TYPED_DATA then (s, SignTypedData(p.params, o))
    else (s, Decision(Pass, []))
  }

  /** The config of an eth_sendTransaction payload is its first param. */
  lemma SendTransactionReadsFirstParam(p: Payload, chainId: int, current: int, seed: nat, rpc: (int, nat) -> string,
                                       o: Signer, s: Pools)
    requires Consistent(s) && p.rpcMethod == ETH_SEND_TRANSACTION
    ensures Intercept(p, chainId, current, seed, rpc, o, s) == SendTransaction(At(p.params, 0), chainId, current, seed, rpc, o, s)
  {
    assert IsConfigMethod(p.rpcMethod);
  }

  /**
   * `composer.ts` calls `fn` without a receiver, so inside `fn` `this` is
   * undefined and the first `this.getPrivateKey(...)` throws this TypeError.
   */
  const UNBOUND_KEY_LOOKUP := Error("Cannot read properties of undefined (reading 'getPrivateKey')")

  /**
   * `fn` as the composer calls it, without a receiver: eth_sendTransaction
   * without `from` and `to` still aborts with 'Invalid JSON payload.'; every
   * other signing request reaches `this.getPrivateKey` inside its `try` and
   * aborts with the TypeError; other methods go to `next`.
   */
  function InterceptUnbound(p: Payload): (d: Decision)
    ensures d.sent == [] && !d.act.End?
    ensures d.act.Pass? <==> !Intercepted(p.rpcMethod)
    ensures d.act.Abort? ==>
      d.act.error == (if p.rpcMethod == ETH_SEND_TRANSACTION && !HasTarget(GetPayloadConfig(p))
                      then Error(INVALID_PAYLOAD) else UNBOUND_KEY_LOOKUP)
  {
    if p.rpcMethod == ETH_SEND_TRANSACTION then
      if !HasTarget(GetPayloadConfig(p)) then Decision(Abort(Error(INVALID_PAYLOAD)), [])
      else Aborting(Raised(UNBOUND_KEY_LOOKUP), SEND_TX_FAILED)
    else if p.rpcMethod == PERSONAL_SIGN then Aborting(Raised(UNBOUND_KEY_LOOKUP), SIGN_DATA_FAILED)
    else if p.rpcMethod == ETH_SIGN_TYPED_DATA then Aborting(Raised(UNBOUND_KEY_LOOKUP), SIGN_TYPED_FAILED)
    else Decision(Pass, [])
  }

  /**
   * Against `fn` run on the interceptor: without a receiver the same requests
   * pass to `next` and the same payloads are rejected as invalid, but every
   * request the interceptor would have signed aborts with the TypeError and
   * nothing reaches the provider.
   */
  lemma UnboundNeverSigns(p: Payload, chainId: int, current: int, seed: nat, rpc: (int, nat) -> string,
                          o: Signer, s: Pools)
    requires Consistent(s)
    ensures var bound := Intercept(p, chainId, current, seed, rpc, o, s).1;
      var unbound := InterceptUnbound(p);
      && (unbound.act.Pass? <==> bound.act.Pass?)
      && (p.rpcMethod == ETH_SEND_TRANSACTION && !HasTarget(GetPayloadConfig(p)) ==> unbound == bound)
      && (bound.act.End? ==> unbound == Decision(Abort(UNBOUND_KEY_LOOKUP), []))
      && (bound.sent != [] ==> unbound.act == Abort(UNBOUND_KEY_LOOKUP) && unbound.sent == [])
  {
  }

  class MaskWallet {
    const provider: MaskWalletProvider

    /** `new MaskWalletProvider()`, with `random` the value `Math.random()` draws. */
    constructor (random: real)
      requires 0.0 <= random < 1.0
      ensures provider.Valid() && fresh(provider)
    {
      provider := new MaskWalletProvider(random);
    }

    /**
     * `fn(context, next)` with `context.chainId` given as `chainId`;
     * `callsNext` tells whether `next` is awaited, `sent` lists the calls made
     * on the provider's `request`.
     */
    method Fn(context: RequestContext, chainId: int, current: int, rpc: (int, nat) -> string, o: Signer)
      returns (callsNext: bool, sent: seq<(string, seq<Value>)>)
      requires provider.Valid()
      modifies provider, context
      ensures provider.Valid()
      ensures var r := Intercept(old(context.RequestPayload()), chainId, current, provider.seed, rpc, o, old(provider.State()));
        && provider.State() == r.0
        && context.State() == Applied(old(context.State()), r.1.act)
        && callsNext == r.1.act.Pass?
        && sent == r.1.sent
    {
      var p := context.RequestPayload();
      callsNext, sent := false, [];
      if p.rpcMethod == ETH_SEND_TRANSACTION {
        sent := SendTransactionIn(context, GetPayloadConfig(p), chainId, current, rpc, o);
      } else if p.rpcMethod == PERSONAL_SIGN {
        PersonalSignIn(context, p.params, chainId, current, rpc, o);
      } else if p.rpcMethod == ETH_SIGN_TYPED_DATA {
        SignTypedDataIn(context, p.params, o);
      } else {
        callsNext := true;
      }
    }

    /**
     * `fn(context, next)` as the composer calls it, with `this` undefined:
     * neither the provider nor the wallet is touched.
     */
    method FnUnbound(context: RequestContext) returns (callsNext: bool)
      modifies context
      ensures var d := InterceptUnbound(old(context.RequestPayload()));
        && context.State() == Applied(old(context.State()), d.act)
        && callsNext == d.act.Pass?
    {
      var p := context.RequestPayload();
      callsNext := false;
      if p.rpcMethod == ETH_SEND_TRANSACTION {
        var config := GetPayloadConfig(p);
        if !Truthy(Field(config, "from")) && !Truthy(Field(config, "to")) {
          context.Abort(Raised(Error(INVALID_PAYLOAD)), "");
          return;
        }
        context.Abort(Raised(UNBOUND_KEY_LOOKUP), SEND_TX_FAILED);
      } else if p.rpcMethod == PERSONAL_SIGN {
        context.Abort(Raised(UNBOUND_KEY_LOOKUP), SIGN_DATA_FAILED);
      } else if p.rpcMethod == ETH_SIGN_TYPED_DATA {
        context.Abort(Raised(UNBOUND_KEY_LOOKUP), SIGN_TYPED_FAILED);
      } else {
        callsNext := true;
      }
    }

    method SendTransactionIn(context: RequestContext, config: Value, chainId: int, current: int,
                             rpc: (int, nat) -> string, o: Signer) returns (sent: seq<(string, seq<Value>)>)
      requires provider.Valid()
      modifies provider, context
      ensures provider.Valid()
      ensures var r := SendTransaction(config, chainId, current, provider.seed, rpc, o, old(provider.State()));
        && provider.State() == r.0
        && context.State() == Applied(old(context.State()), r.1.act)
        && sent == r.1.sent
    {
      sent := [];
      if !Truthy(Field(config, "from")) && !Truthy(Field(config, "to")) {
        context.Abort(Raised(Error(INVALID_PAYLOAD)), "");
        return;
      }
      var exported := o.exportKey(Field(config, "from"));
      if exported.Threw? {
        context.Abort(exported.thrown, SEND_TX_FAILED);
        return;
      }
      var key := exported.value;
      if key == "" {
        context.Abort(Raised(Error(NOT_VALID_ACCOUNT)), SEND_TX_FAILED);
        return;
      }
      var web3 := provider.CreateWeb3(KeyedOptions(chainId, key), current, rpc);
      if web3.Failure? {
        context.Abort(Raised(web3.error), SEND_TX_FAILED);
        return;
      }
      var signed := o.signTransaction(config, key);
      if signed.Threw? {
        context.Abort(signed.thrown, SEND_TX_FAILED);
        return;
      }
      var raw := Field(signed.value, "rawTransaction");
      if !Truthy(raw) {
        context.Abort(Raised(Error(SIGN_TX_FAILED)), "");
        return;
      }
      sent := [(ETH_SEND_RAW_TRANSACTION, [raw])];
      var reply := o.request(ETH_SEND_RAW_TRANSACTION, [raw]);
      match reply {
        case Returned(v) => context.End(v);
        case Threw(t) => context.Abort(t, SEND_TX_FAILED);
      }
    }

    method PersonalSignIn(context: RequestContext, params: seq<Value>, chainId: int, current: int,
                          rpc: (int, nat) -> string, o: Signer)
      requires provider.Valid()
      modifies provider, context
      ensures provider.Valid()
      ensures var r := PersonalSign(params, chainId, current, provider.seed, rpc, o, old(provider.State()));
        && provider.State() == r.0
        && context.State() == Applied(old(context.State()), r.1.act)
    {
      var data, address := At(params, 0), At(params, 1);
      var exported := o.exportKey(address);
      if exported.Threw? {
        context.Abort(exported.thrown, SIGN_DATA_FAILED);
        return;
      }
      var key := exported.value;
      if key == "" {
        context.Abort(Raised(Error(NOT_VALID_ACCOUNT)), SIGN_DATA_FAILED);
        return;
      }
      var web3 := provider.CreateWeb3(KeyedOptions(chainId, key), current, rpc);
      if web3.Failure? {
        context.Abort(Raised(web3.error), SIGN_DATA_FAILED);
        return;
      }
      var signature := o.sign(web3.value, data, address);
      match signature {
        case Returned(v) => context.End(v);
        case Threw(t) => context.Abort(t, SIGN_DATA_FAILED);
      }
    }

    method SignTypedDataIn(context: RequestContext, params: seq<Value>, o: Signer)
      modifies context
      ensures context.State() == Applied(old(context.State()), SignTypedData(params, o).act)
    {
      var address, data := At(params, 0), At(params, 1);
      var exported := o.exportKey(address);
      if exported.Threw? {
        context.Abort(exported.thrown, SIGN_TYPED_FAILED);
        return;
      }
      var key := exported.value;
      if key == "" {
        context.Abort(Raised(Error(NOT_VALID_ACCOUNT)), SIGN_TYPED_FAILED);
        return;
      }
      var signature := o.signTypedData("0x" + key, data);
      match signature {
        case Returned(v) => context.End(v);
        case Threw(t) => context.Abort(t, SIGN_TYPED_FAILED);
      }
    }
  }
}
