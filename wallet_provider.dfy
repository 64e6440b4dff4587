/**
 * `MaskWalletProvider`: HTTP providers pooled by URL, Web3 instances pooled by
 * the provider's host, a wallet per Web3 instance loaded from private keys, and
 * the account-selection popup of `requestAccounts`.
 *
 * Object identities are handles handed out from a counter; a Web3 instance is
 * its handle, and its wallet is the set of keys it holds. `getChainRPC` is the
 * oracle `rpc(chainId, seed)`; `Math.random()` is the constructor's parameter.
 */
module WalletProvider {
  import opened Values
  import opened Types

  const CREATE_FAILED := "Failed to create provider."
  const CONNECT_FAILED := "Failed to connect to Mask Network."

  /** A web3 `HttpProvider`: `host` is the URL it was built for, `handle` its identity. */
  datatype HttpProvider = HttpProvider(host: string, handle: nat)

  /** The provider pool, the instance pool, each instance's wallet, and the next free handle. */
  datatype Pools = Pools(
    providers: map<string, HttpProvider>,
    instances: map<string, nat>,
    wallets: map<nat, set<string>>,
    next: nat)

  /** Pooled providers sit under their own host; every handle in use is below `next`. */
  predicate Consistent(s: Pools) {
    && (forall url :: url in s.providers ==> s.providers[url].host == url && s.providers[url].handle < s.next)
    && (forall host :: host in s.instances ==> s.instances[host] in s.wallets)
    && (forall w :: w in s.wallets ==> w < s.next)
  }

  /** `createProviderInstance(url)`: the pooled provider, or a new one pooled under `url`. */
  function ProviderFor(s: Pools, url: string): (r: (Pools, HttpProvider))
    requires Consistent(s)
    ensures Consistent(r.0) && r.1.host == url
    ensures url in s.providers ==> r == (s, s.providers[url])
    ensures url in r.0.providers && r.0.providers[url] == r.1
    ensures s.providers.Keys <= r.0.providers.Keys && |r.0.providers| <= |s.providers| + 1
    ensures forall u :: u in s.providers ==> r.0.providers[u] == s.providers[u]
    ensures r.0.instances == s.instances && r.0.wallets == s.wallets
  {
    if url in s.providers then (s, s.providers[url])
    else
      var p := HttpProvider(url, s.next);
      (s.(providers := s.providers[url := p], next := s.next + 1), p)
  }

  /** `createWeb3Instance(provider)`: the instance pooled under `provider.host`, or a new one with an empty wallet. */
  function InstanceFor(s: Pools, p: HttpProvider): (r: (Pools, nat))
    requires Consistent(s)
    ensures Consistent(r.0) && r.1 in r.0.wallets
    ensures p.host in s.instances ==> r == (s, s.instances[p.host])
    ensures p.host !in s.instances ==> r.1 !in s.wallets && r.0.wallets[r.1] == {}
    ensures p.host in r.0.instances && r.0.instances[p.host] == r.1
    ensures s.instances.Keys <= r.0.instances.Keys && |r.0.instances| <= |s.instances| + 1
    ensures forall h :: h in s.wallets ==> h in r.0.wallets && r.0.wallets[h] == s.wallets[h]
    ensures r.0.providers == s.providers
  {
    if p.host in s.instances then (s, s.instances[p.host])
    else
      var w := s.next;
      (s.(instances := s.instances[p.host := w], wallets := s.wallets[w := {}], next := s.next + 1), w)
  }

  /** The URL `createProvider` uses: `url ?? getChainRPC(chainId ?? current, seed)`. */
  function ProviderUrl(o: ProviderOptions, current: int, seed: nat, rpc: (int, nat) -> string): string {
    match o.url
    case Some(u) => u
    case None => rpc(o.chainId.GetOr(current), seed)
  }

  /** `createProvider(options)`: an empty URL throws, any other is looked up in the pool. */
  function ProvidedBy(s: Pools, o: ProviderOptions, current: int, seed: nat, rpc: (int, nat) -> string): (r: (Pools, Result<HttpProvider>))
    requires Consistent(s)
    ensures Consistent(r.0)
    ensures r.1.Failure? <==> ProviderUrl(o, current, seed, rpc) == ""
    ensures r.1.Failure? ==> r.0 == s && r.1.error == Error(CREATE_FAILED)
    ensures r.1.Success? ==> r.1.value.host == ProviderUrl(o, current, seed, rpc)
  {
    var url := ProviderUrl(o, current, seed, rpc);
    if url == "" then (s, Failure(Error(CREATE_FAILED)))
    else
      var (s1, p) := ProviderFor(s, url);
      (s1, Success(p))
  }

  /** The keys a wallet holds after loading `keys`: the non-empty ones other than '0x'. */
  function LoadedKeys(keys: seq<string>): set<string> {
    set k | k in keys && k != "" && k != "0x"
  }

  /**
   * `createWeb3({keys = [], options = {}})`: the pooled instance for the
   * provider's host. With non-empty `keys` its wallet holds exactly the loaded
   * keys; with no keys every existing wallet is left as it was.
   */
  function Web3For(s: Pools, opts: Web3Options, current: int, seed: nat, rpc: (int, nat) -> string): (r: (Pools, Result<nat>))
    requires Consistent(s)
    ensures Consistent(r.0)
    ensures r.1.Failure? ==> r.0 == s && r.1.error == Error(CREATE_FAILED)
    ensures r.1.Failure? <==> ProviderUrl(opts.options.GetOr(ProviderOptions(None, None)), current, seed, rpc) == ""
    ensures r.1.Success? ==> r.1.value in r.0.wallets
    ensures r.1.Success? && |opts.keys.GetOr([])| > 0 ==> r.0.wallets[r.1.value] == LoadedKeys(opts.keys.value)
    ensures |opts.keys.GetOr([])| == 0 ==> forall h :: h in s.wallets ==> h in r.0.wallets && r.0.wallets[h] == s.wallets[h]
  {
    var (s1, p) := ProvidedBy(s, opts.options.GetOr(ProviderOptions(None, None)), current, seed, rpc);
    match p
    case Failure(e) => (s1, Failure(e))
    case Success(provider) =>
      var (s2, w) := InstanceFor(s1, provider);
      var keys := opts.keys.GetOr([]);
      if |keys| > 0 then (s2.(wallets := s2.wallets[w := LoadedKeys(keys)]), Success(w))
      else (s2, Success(w))
  }

  /**
   * Calling `createWeb3` again with the same options returns the same instance
   * and changes nothing: both pools hit, and reloading the same keys gives the
   * same wallet.
   */
  lemma Web3ForMemoised(s: Pools, opts: Web3Options, current: int, seed: nat, rpc: (int, nat) -> string)
    requires Consistent(s)
    ensures var r := Web3For(s, opts, current, seed, rpc);
      Web3For(r.0, opts, current, seed, rpc) == r
  {
    var o := opts.options.GetOr(ProviderOptions(None, None));
    var (s1, p) := ProvidedBy(s, o, current, seed, rpc);
    if p.Success? {
      var (s2, w) := InstanceFor(s1, p.value);
      var keys := opts.keys.GetOr([]);
      var s3 := if |keys| > 0 then s2.(wallets := s2.wallets[w := LoadedKeys(keys)]) else s2;
      assert Web3For(s, opts, current, seed, rpc) == (s3, Success(w));
      assert ProvidedBy(s3, o, current, seed, rpc) == (s3, p);
      assert InstanceFor(s3, p.value) == (s3, w);
      if |keys| > 0 {
        assert s3.wallets[w := LoadedKeys(keys)] == s3.wallets;
      }
    }
  }

  // ---------------------------------------------------------------------
  // requestAccounts

  datatype PopupRoute = SelectWallet

  /** `openPopupWindow(route, {chainId})`: the route is `None` when it is undefined. */
  datatype Popup = Popup(route: Option<PopupRoute>, chainId: Option<int>)

  /** The promise `requestAccounts` returns. */
  datatype Connection = Waiting | Connected(chainId: int, accounts: seq<string>) | Refused(error: Error)

  /**
   * The oracles of one `requestAccounts` call: the number of wallets
   * (`None` when `getWallets` throws), whether `selectAccountPrepare` and
   * `openPopupWindow` succeed, and what the user selects in the popup, if anything.
   */
  datatype Selection = Selection(
    wallets: Option<nat>,
    prepareOk: bool,
    popupOk: bool,
    selected: Option<(seq<string>, int)>)

  /** The popup opened once the wallets are known and the selection callback is registered. */
  function PopupOf(chainId: Option<int>, sel: Selection): (p: Option<Popup>)
    requires sel.wallets.Some?
  {
    if sel.prepareOk then Some(Popup(if sel.wallets.value > 0 then Some(SelectWallet) else None, chainId))
    else None
  }

  /**
   * `requestAccounts(chainId)` as written: `getWallets` is awaited outside the
   * `try`, so when it throws the promise never settles and no popup opens.
   */
  function RequestAccountsAsWritten(chainId: Option<int>, sel: Selection): (r: (Connection, Option<Popup>))
    ensures sel.wallets.None? ==> r == (Waiting, None)
  {
    if sel.wallets.None? then (Waiting, None)
    else if !sel.prepareOk || !sel.popupOk then (Refused(Error(CONNECT_FAILED)), PopupOf(chainId, sel))
    else match sel.selected
      case Some(chosen) => (Connected(chosen.1, chosen.0), PopupOf(chainId, sel))
      case None => (Waiting, PopupOf(chainId, sel))
  }

  /**
   * `requestAccounts(chainId)` with every failure inside the `try`: it resolves
   * with what the selection callback receives, any failure rejects with
   * 'Failed to connect to Mask Network.', and the popup, opened once the
   * callback is registered, routes to SelectWallet iff a wallet exists.
   */
  function RequestAccounts(chainId: Option<int>, sel: Selection): (r: (Connection, Option<Popup>))
    ensures r.0.Refused? <==> sel.wallets.None? || !sel.prepareOk || !sel.popupOk
    ensures r.0.Refused? ==> r.0.error == Error(CONNECT_FAILED)
    ensures r.0.Connected? <==> !r.0.Refused? && sel.selected.Some?
    ensures r.0.Connected? ==> r.0.accounts == sel.selected.value.0 && r.0.chainId == sel.selected.value.1
    ensures r.1.Some? <==> sel.wallets.Some? && sel.prepareOk
    ensures r.1.Some? ==> r.1.value.chainId == chainId && (r.1.value.route == Some(SelectWallet) <==> sel.wallets.value > 0)
  {
    if sel.wallets.None? then (Refused(Error(CONNECT_FAILED)), None)
    else RequestAccountsAsWritten(chainId, sel)
  }

  /** The two differ exactly when `getWallets` throws. */
  lemma RequestAccountsFetchFailure(chainId: Option<int>, sel: Selection)
    ensures RequestAccountsAsWritten(chainId, sel) != RequestAccounts(chainId, sel) <==> sel.wallets.None?
  {
  }

  lemma MapUpdateTwice(m: map<nat, set<string>>, k: nat, a: set<string>, b: set<string>)
    ensures m[k := a][k := b] == m[k := b]
  {
  }

  lemma LoadedKeysStep(keys: seq<string>, i: nat)
    requires i < |keys|
    ensures LoadedKeys(keys[..i + 1]) == LoadedKeys(keys[..i]) + (if keys[i] != "" && keys[i] != "0x" then {keys[i]} else {})
  {
    assert keys[..i + 1] == keys[..i] + [keys[i]];
  }

  // ---------------------------------------------------------------------
  // The provider object

  class MaskWalletProvider {
    const seed: nat
    var providerPool: map<string, HttpProvider>
    var instancePool: map<string, nat>
    var wallets: map<nat, set<string>>
    var next: nat

    function State(): Pools
      reads this
    {
      Pools(providerPool, instancePool, wallets, next)
    }

    predicate Valid()
      reads this
    {
      Consistent(State()) && seed < 4
    }

    /** `seed = Math.floor(Math.random() * 4)`, with `random` the value drawn; both pools start empty. */
    constructor (random: real)
      requires 0.0 <= random < 1.0
      ensures Valid() && seed == (random * 4.0).Floor
      ensures State() == Pools(map[], map[], map[], 0)
    {
      seed := (random * 4.0).Floor;
      providerPool := map[];
      instancePool := map[];
      wallets := map[];
      next := 0;
    }

    method CreateProviderInstance(url: string) returns (p: HttpProvider)
      requires Valid()
      modifies this
      ensures Valid() && (State(), p) == ProviderFor(old(State()), url)
    {
      if url in providerPool {
        return providerPool[url];
      }
      p := HttpProvider(url, next);
      providerPool := providerPool[url := p];
      next := next + 1;
    }

    method CreateWeb3Instance(provider: HttpProvider) returns (w: nat)
      requires Valid()
      modifies this
      ensures Valid() && (State(), w) == InstanceFor(old(State()), provider)
    {
      if provider.host in instancePool {
        return instancePool[provider.host];
      }
      w := next;
      instancePool := instancePool[provider.host := w];
      wallets := wallets[w := {}];
      next := next + 1;
    }

    method CreateProvider(options: ProviderOptions, current: int, rpc: (int, nat) -> string) returns (r: Result<HttpProvider>)
      requires Valid()
      modifies this
      ensures Valid() && (State(), r) == ProvidedBy(old(State()), options, current, seed, rpc)
    {
      var url := match options.url case Some(u) => u case None => rpc(options.chainId.GetOr(current), seed);
      if url == "" {
        return Failure(Error(CREATE_FAILED));
      }
      var p := CreateProviderInstance(url);
      r := Success(p);
    }

    /** `wallet.clear()` and then `wallet.add(k)` for each usable key, in order. */
    method LoadKeys(w: nat, keys: seq<string>)
      requires Valid() && w in wallets
      modifies this
      ensures Valid() && State() == old(State()).(wallets := old(wallets)[w := LoadedKeys(keys)])
    {
      wallets := wallets[w := {}];
      var i := 0;
      assert LoadedKeys(keys[..0]) == {};
      while i < |keys|
        invariant 0 <= i <= |keys|
        invariant State() == old(State()).(wallets := old(wallets)[w := LoadedKeys(keys[..i])])
        invariant Valid()
      {
        var k := keys[i];
        LoadedKeysStep(keys, i);
        assert wallets[w] == LoadedKeys(keys[..i]);
        if k != "" && k != "0x" {
          MapUpdateTwice(old(wallets), w, LoadedKeys(keys[..i]), LoadedKeys(keys[..i + 1]));
          wallets := wallets[w := wallets[w] + {k}];
        } else {
          assert LoadedKeys(keys[..i + 1]) == LoadedKeys(keys[..i]);
        }
        i := i + 1;
      }
      assert keys[..i] == keys;
    }

    method CreateWeb3(opts: Web3Options, current: int, rpc: (int, nat) -> string) returns (r: Result<nat>)
      requires Valid()
      modifies this
      ensures Valid() && (State(), r) == Web3For(old(State()), opts, current, seed, rpc)
    {
      var p := CreateProvider(opts.options.GetOr(ProviderOptions(None, None)), current, rpc);
      if p.Failure? {
        return Failure(p.error);
      }
      var w := CreateWeb3Instance(p.value);
      var keys := opts.keys.GetOr([]);
      if |keys| > 0 {
        LoadKeys(w, keys);
      }
      r := Success(w);
    }
  }
}
