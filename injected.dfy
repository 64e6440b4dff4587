/**
 * `InjectedProvider`: the bridge to a wallet injected into the visible pages,
 * where eth_requestAccounts gets the long timeout, and the check that such a
 * wallet is connected and unlocked.
 */
module Injected {
  import opened Values
  import opened Payload
  import opened Bridge

  const LOCKED := "Injected Web3 is locked or it has not connected any accounts."
  const NOT_CONNECTED := "Failed to connect to injected Web3."

  /**
   * What the `catch` of `ensureConnectedAndUnlocked` receives: the accounts
   * are thrown on purpose, so a returned value and a thrown one are caught
   * alike; an `Error` object is never an array.
   */
  function Caught(accounts: Reply<Value>): (v: Option<Value>)
    ensures accounts.Returned? ==> v == Some(accounts.value)
    ensures accounts.Threw? && accounts.thrown.RaisedValue? ==> v == Some(accounts.thrown.value)
    ensures accounts.Threw? && accounts.thrown.Raised? ==> v == None
  {
    match accounts
    case Returned(v) => Some(v)
    case Threw(RaisedValue(v)) => Some(v)
    case Threw(Raised(_)) => None
  }

  /**
   * `ensureConnectedAndUnlocked` given the outcome of `eth.requestAccounts()`:
   * an empty array means locked, a non-empty one returns normally, anything
   * else is a failure to connect.
   */
  function Unlocked(accounts: Reply<Value>): (r: Option<Error>)
  {
    match Caught(accounts)
    case Some(Arr(items)) => if |items| == 0 then Some(Error(LOCKED)) else None
    case _ => Some(Error(NOT_CONNECTED))
  }

  /** The three outcomes, each with the caught value that produces it. */
  lemma UnlockedClassifies(accounts: Reply<Value>)
    ensures Unlocked(accounts) == None <==> Caught(accounts).Some? && Caught(accounts).value.Arr? && |Caught(accounts).value.items| > 0
    ensures Unlocked(accounts) == Some(Error(LOCKED)) <==> Caught(accounts) == Some(Arr([]))
    ensures Unlocked(accounts) == Some(Error(NOT_CONNECTED)) <==> Caught(accounts).None? || !Caught(accounts).value.Arr?
  {
  }

  class InjectedProvider {
    const bridge: BridgedProvider

    constructor ()
      ensures fresh(bridge) && bridge.longMethod == ETH_REQUEST_ACCOUNTS
      ensures Valid(bridge.State()) && bridge.State().id == 0 && bridge.State().web3 == None
    {
      bridge := new BridgedProvider(ETH_REQUEST_ACCOUNTS);
    }

    /** `ensureConnectedAndUnlocked()`, with the outcome of `web3.eth.requestAccounts()` given. */
    method EnsureConnectedAndUnlocked(accounts: Reply<Value>) returns (r: Option<Error>)
      requires Valid(bridge.State())
      modifies bridge
      ensures bridge.State() == Web3Of(old(bridge.State())).0
      ensures r == Unlocked(accounts)
    {
      var web3 := bridge.CreateWeb3();
      var caught := match accounts case Returned(v) => Some(v) case Threw(t) => if t.RaisedValue? then Some(t.value) else None;
      if caught.Some? && caught.value.Arr? {
        if |caught.value.items| == 0 {
          return Some(Error(LOCKED));
        } else if |caught.value.items| > 0 {
          return None;
        }
      }
      r := Some(Error(NOT_CONNECTED));
    }
  }
}
