/**
 * `FortmaticProvider`: the bridge to the Fortmatic page, where the login
 * method gets the long timeout, plus logging in and out with a chain id that
 * defaults to Mainnet; logging out resets the account only once the logout
 * request resolved.
 */
module Fortmatic {
  import opened Values
  import opened Payload
  import opened Context
  import opened Bridge

  /** `ChainId.Mainnet`. */
  const MAINNET := 1

  /** The arguments of the login or logout request: `{method, params: [chainId]}`. */
  function ChainArguments(name: string, chainId: Option<int>): (a: Arguments)
    ensures a.rpcMethod == name
    ensures chainId.Some? ==> a.params == Some([Num(chainId.value)])
    ensures chainId.None? ==> a.params == Some([Num(MAINNET)])
    ensures a.id.None? && a.jsonrpc.None?
  {
    MethodCall(name, Some([Num(chainId.GetOr(MAINNET))]))
  }

  /** `requestAccounts(chainId)`: a new external provider, then the login request. */
  function LoggingIn(w: Wire, chainId: Option<int>): (r: Wire)
    requires Valid(w)
  {
    Requested(ProviderCreated(w).0, ChainArguments(MASK_LOGIN_FORTMATIC, chainId), MASK_LOGIN_FORTMATIC)
  }

  /**
   * The login request posts `{method: mask_loginFortmatic, params: [chainId]}`
   * under the next id, with the long timeout.
   */
  lemma LoginRequest(w: Wire, chainId: Option<int>)
    requires Valid(w)
    ensures var r := LoggingIn(w, chainId);
      && r.id == w.id + 1 && r.created == w.created + 1
      && r.outbox[|w.outbox|] == CreatePayload(w.id + 1, MASK_LOGIN_FORTMATIC, [Num(chainId.GetOr(MAINNET))])
      && r.timers[r.id] == 180000
  {
  }

  /** What `dismissAccounts` does once its logout request settled: reset on success only. */
  datatype Dismissed = Dismissed(resetCalled: bool, outcome: Option<Thrown>)

  function AfterLogout(logout: Settlement, reset: Reply<Value>): (d: Dismissed)
    ensures d.resetCalled <==> logout.Resolved?
    ensures logout.Rejected? ==> d.outcome == Some(Raised(logout.error))
    ensures logout.Resolved? ==> (d.outcome.None? <==> reset.Returned?)
  {
    match logout
    case Rejected(e) => Dismissed(false, Some(Raised(e)))
    case Resolved(_) =>
      match reset
      case Returned(_) => Dismissed(true, None)
      case Threw(t) => Dismissed(true, Some(t))
  }

  class FortmaticProvider {
    const bridge: BridgedProvider
    /** How many times `resetAccount()` was called. */
    var resets: nat

    constructor ()
      ensures fresh(bridge) && bridge.longMethod == MASK_LOGIN_FORTMATIC
      ensures Valid(bridge.State()) && bridge.State().id == 0 && bridge.State().web3 == None && resets == 0
    {
      bridge := new BridgedProvider(MASK_LOGIN_FORTMATIC);
      resets := 0;
    }

    /** `requestAccounts(chainId = Mainnet)`; the promise it returns is request `requestId`. */
    method RequestAccounts(chainId: Option<int>) returns (requestId: nat)
      requires Valid(bridge.State()) && bridge.longMethod == MASK_LOGIN_FORTMATIC
      modifies bridge
      ensures bridge.State() == LoggingIn(old(bridge.State()), chainId) && requestId == bridge.id
    {
      var provider := bridge.CreateProvider();
      requestId := bridge.Request(ChainArguments(MASK_LOGIN_FORTMATIC, chainId));
    }

    /** The first half of `dismissAccounts(chainId = Mainnet)`: the logout request. */
    method DismissAccounts(chainId: Option<int>) returns (requestId: nat)
      requires Valid(bridge.State())
      modifies bridge
      ensures bridge.State() == Requested(ProviderCreated(old(bridge.State())).0, ChainArguments(MASK_LOGOUT_FORTMATIC, chainId), bridge.longMethod)
      ensures requestId == bridge.id && unchanged(this)
    {
      var provider := bridge.CreateProvider();
      requestId := bridge.Request(ChainArguments(MASK_LOGOUT_FORTMATIC, chainId));
    }

    /**
     * The rest of `dismissAccounts`, run when logout request `requestId` has
     * settled: `resetAccount()` (whose outcome is `reset`) only after a resolved logout.
     */
    method ResumeDismiss(requestId: nat, reset: Reply<Value>) returns (outcome: Option<Thrown>)
      requires requestId in bridge.settled
      modifies this
      ensures var d := AfterLogout(bridge.settled[requestId], reset);
        resets == old(resets) + (if d.resetCalled then 1 else 0) && outcome == d.outcome
    {
      match bridge.settled[requestId] {
        case Rejected(e) =>
          outcome := Some(Raised(e));
        case Resolved(_) =>
          resets := resets + 1;
          outcome := if reset.Returned? then None else Some(reset.thrown);
      }
    }
  }
}
