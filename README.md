# Mask Network Ethereum request pipeline, in Dafny

This project models the core of the Mask Network browser extension's Ethereum
JSON-RPC pipeline and proves properties of that model:

- **The middleware composer and request context** (`composer.ts`, `types.ts`).
  The onion-style composer runs each registered middleware's `fn` with a
  `next` that enters the following stage, and then the terminal `next`. A
  `RequestContext` is written once: the first `setResponse` locks it, stores
  the error and result, and calls every registered callback.
- **`sendRequest`** (`request.ts`). It builds a context and dispatches it
  through Logger and Squash to a terminal. The terminal asks an external
  provider and writes the reply. The promise then settles from the context.
- **The `TransactionWatcher` middleware**. It keeps a per-chain table of
  watched transactions in insertion order. At most 40 of them, the newest,
  are watched. A single timer polls their receipts and reconciles them with
  the latest transactions an explorer reports for each sender.
- **The `TransactionProgress` middleware**. It reports transaction states
  after `next()` returns.
- **Payload helpers** (`payload.ts`). They read the id, config, sender,
  recipient, nonce, chain id and hash of a payload. `Number.parseInt` is
  modelled as written.
- **The Mask Wallet interceptor**. It signs `eth_sendTransaction`,
  `personal_sign` and `eth_signTypedData` with the exported private key.
- **The Mask Wallet provider**. It keeps memoised HTTP-provider and Web3
  pools, loads the keys into the wallet, and connects through a popup.
- **The Injected and Fortmatic providers**. They share a request/response
  bridge: each request takes the next id, posts the payload, listens for the
  response and races a timeout. That bridge is modelled once, as the module
  `Bridge`.
- **Twitter helpers**: the username validator and the avatar id.
- **The DAO tab's `shouldDisplay`**.

Each module of the model follows one source file:

| module | file |
|---|---|
| `Values` | the JavaScript values the pipeline handles |
| `Payload` | `payload.ts` |
| `Context` and `Composer` | `composer.ts` |
| `Types` | `types.ts` |
| `Request` | `request.ts` and `Logger.ts` |
| `TxStorage` and `TxWatcher` | `TransactionWatcher.ts` |
| `Progress` | `TransactionProgress.ts` |
| `Interceptor` | `interceptors/MaskWallet.ts` |
| `WalletProvider` | `providers/MaskWallet.ts` |
| `Bridge`, `Injected` and `Fortmatic` | `providers/Injected.ts` and `providers/Fortmatic.ts` |
| `Twitter` | `user.ts` |
| `Dao` | the DAO plugin's `index.tsx` |

The stateful classes are Dafny classes:

- `RequestContext` and `Composer`;
- the composer's `dispatch` closure, as `Dispatcher`;
- `Storage` and `TransactionWatcher`;
- `MaskWalletProvider` and `MaskWallet`;
- `InjectedProvider` and `FortmaticProvider`, over the shared `BridgedProvider`;
- `TransactionProgress`.

Each of their methods ties the new state to a specification function of the
old state. The properties are proved about those functions.

## How the model is built

- **JavaScript values.** A JavaScript value is the datatype `Value`.
  Truthiness, property access (`Field`), array indexing (`At`) and ASCII
  `toLowerCase` are written out. A thrown value is either an `Error` or
  some other value (`Thrown`).
- **Middlewares.** A middleware's `fn` is a script of steps: call
  `next()`, write the context, throw, or emit a log line. So the composer
  is specified by the mutually recursive functions `Stage` and `Steps`.
- **The outside world.** Everything the core calls but does not define is a
  parameter:
  - `getChainRPC`;
  - `WalletRPC`;
  - the Web3 signing calls;
  - the explorer;
  - `getTransactionState`;
  - `new URL(...).pathname`;
  - `Math.random`;
  - `Date.now`;
  - the messages from the visible page.

  The time order of asynchronous events is a sequence of events.

## Model

| member | source | states |
|---|---|---|
| Payload.CreatePayload | packages/web3-shared/evm/utils/payload.ts:5-12 | the payload carries the given numeric id, JSON-RPC version "2.0", method and params |
| Payload.CreatedPayloadId | packages/web3-shared/evm/utils/payload.ts:5-16 | `getPayloadId` of a created payload gives back the id it was created with |
| Payload.GetPayloadId | packages/web3-shared/evm/utils/payload.ts:14-16 | a numeric id is returned as is; a string id is parsed with decimal `parseInt` |
| Payload.ParseInt | packages/web3-shared/evm/utils/payload.ts:15 | `Number.parseInt`: a blank string gives NaN, a negative number needs a leading '-', and (outside radix 16, where "0x" may follow) a leading digit always gives a number |
| Payload.StringIdRoundTrip | packages/web3-shared/evm/utils/payload.ts:14-16 | a string id holding the decimal digits of n parses back to n |
| Payload.DigitRunLength | packages/web3-shared/evm/utils/payload.ts:15 | `parseInt` reads the longest prefix of digits of the radix: all digits, and the next character is not one |
| Payload.TrimStart | packages/web3-shared/evm/utils/payload.ts:15 | the leading white space `parseInt` skips is a prefix, and what is left does not start with white space |
| Payload.DigitsValueOfToDigits | packages/web3-shared/evm/utils/payload.ts:15 | reading the digits of n in any radix 2..36 gives back n |
| Payload.ParseIntDecimalRoundTrip | packages/web3-shared/evm/utils/payload.ts:15 | `parseInt` of the decimal digits of n, radix 10, is n |
| Payload.ParseIntHexRoundTrip | packages/web3-shared/evm/utils/payload.ts:30 | `parseInt` of "0x" followed by the hex digits of n, radix 16, is n |
| Payload.GetPayloadConfig | packages/web3-shared/evm/utils/payload.ts:33-49 | the config is the first param of eth_call, eth_estimateGas, eth_signTransaction and eth_sendTransaction, the second of mask_replaceTransaction, and undefined otherwise |
| Payload.GetPayloadFrom | packages/web3-shared/evm/utils/payload.ts:18-21 | the `from` of the config: the first param's for config methods, the second's for mask_replaceTransaction, and undefined for every other method |
| Payload.GetPayloadTo | packages/web3-shared/evm/utils/payload.ts:23-26 | the `to` of the config, read as `GetPayloadFrom` reads `from` |
| Payload.GetPayloadNonce | packages/web3-shared/evm/utils/payload.ts:65-68 | the `nonce` of the config, read as `GetPayloadFrom` reads `from` |
| Payload.GetPayloadChainId | packages/web3-shared/evm/utils/payload.ts:28-31 | a chain id is produced only from a string `chainId` in the config, and it is never 0 (`|| undefined`) |
| Payload.ChainIdRoundTrip | packages/web3-shared/evm/utils/payload.ts:28-31 | a config `chainId` of "0x" + hex digits of n gives n, or nothing when n is 0 |
| Payload.GetPayloadHash | packages/web3-shared/evm/utils/payload.ts:51-63 | the hash is the first param of mask_replaceTransaction and the empty string for every other method |
| Payload.SendTransactionConfig | packages/web3-shared/evm/utils/payload.ts:18-68 | for eth_sendTransaction the config is the first param, and from, to and nonce are its fields; the hash is empty |
| Payload.ReplaceTransactionConfig | packages/web3-shared/evm/utils/payload.ts:42-58 | for mask_replaceTransaction the hash is the first param and the config the second |
| Payload.NoConfigNoFields | packages/web3-shared/evm/utils/payload.ts:18-49 | a method without a config has no from, to, nonce or chain id |
| Context.PayloadOf | packages/mask/src/extension/background-script/EthereumServices/composer.ts:54-61 | the payload is `{id, jsonrpc: "2.0", params: []}` spread over by the request arguments: the caller's own `id`, `jsonrpc` and `params` win when set, the context's id, "2.0" and `[]` otherwise; the method is the request's |
| Context.ResponseOf | packages/mask/src/extension/background-script/EthereumServices/composer.ts:63-70 | there is a response exactly when the context is no longer writeable, and it carries the context id and the stored result |
| Context.ErrorOf | packages/mask/src/extension/background-script/EthereumServices/composer.ts:72-77 | the error is null while writeable, and the stored error afterwards |
| Context.WithResponse | packages/mask/src/extension/background-script/EthereumServices/composer.ts:109-115 | `setResponse`: once locked nothing changes; otherwise the context locks, stores error and result, and calls every registered callback once, in order, with the error and response |
| Context.Aborted | packages/mask/src/extension/background-script/EthereumServices/types.ts:64-67 | `abort(error, fallback)`: the first write stores the error (or the fallback message for a thrown non-Error) and an undefined result; later writes change nothing |
| Context.Ended | packages/mask/src/extension/background-script/EthereumServices/types.ts:69-72 | `end(result)`: the first write stores no error and the result; later writes change nothing |
| Context.AssignErrorAsWritten | packages/mask/src/extension/background-script/EthereumServices/composer.ts:79-82 | the `error` setter assigns the stored error even after the context is locked |
| Context.AssignResultAsWritten | packages/mask/src/extension/background-script/EthereumServices/composer.ts:88-95 | the `result` setter assigns the stored result even after the context is locked |
| Context.AssignError | packages/mask/src/extension/background-script/EthereumServices/composer.ts:79-82 | corrected setter: a locked context is unchanged; otherwise the error is written once with an undefined result |
| Context.AssignResult | packages/mask/src/extension/background-script/EthereumServices/composer.ts:88-95 | corrected setter: a locked context is unchanged; otherwise the result is written once with no error |
| Context.LockedStaysLocked | packages/mask/src/extension/background-script/EthereumServices/composer.ts:109-115 | after the first write, any later sequence of writes and registrations only appends callbacks |
| Context.NoWriteNoCall | packages/mask/src/extension/background-script/EthereumServices/composer.ts:105-115 | registering callbacks without writing calls none of them |
| Context.FirstWriteWins | packages/mask/src/extension/background-script/EthereumServices/composer.ts:79-115 | in any sequence of operations the first write decides the error and result, and exactly the callbacks registered before it are called, with that response |
| Context.SetterOverwritesAfterLock | packages/mask/src/extension/background-script/EthereumServices/composer.ts:88-95 | as written, two result assignments leave the second result in the response; with the corrected setters the first stays |
| Context.RequestContext.constructor | packages/mask/src/extension/background-script/EthereumServices/composer.ts:41-52 | a new context is writeable, with no callbacks and no calls |
| Context.RequestContext.SetResponse | packages/mask/src/extension/background-script/EthereumServices/composer.ts:109-115 | the new state is `WithResponse` of the old one |
| Context.RequestContext.GetResponse | packages/mask/src/extension/background-script/EthereumServices/composer.ts:105-107 | the callback is appended to the registered callbacks and nothing else changes |
| Context.RequestContext.AssignError | packages/mask/src/extension/background-script/EthereumServices/composer.ts:79-82 | the state is the as-written error assignment of the old one |
| Context.RequestContext.AssignResult | packages/mask/src/extension/background-script/EthereumServices/composer.ts:88-95 | the state is the as-written result assignment of the old one |
| Context.RequestContext.SetRequestArguments | packages/mask/src/extension/background-script/EthereumServices/types.ts:60 | only the request arguments change |
| Context.RequestContext.Abort | packages/mask/src/extension/background-script/EthereumServices/types.ts:64-67 | the state is `Aborted` of the old one |
| Context.RequestContext.End | packages/mask/src/extension/background-script/EthereumServices/types.ts:69-72 | the state is `Ended` of the old one |
| Context.ContextFactory.CreateContext | packages/mask/src/extension/background-script/EthereumServices/composer.ts:128-130 | a fresh context whose id is the current `pid`, and `pid` is incremented |
| Composer.StageOrdered | packages/mask/src/extension/background-script/EthereumServices/composer.ts:13-24 | a dispatch step only appends to the trace and keeps the stages entered in increasing order |
| Composer.Stage | packages/mask/src/extension/background-script/EthereumServices/composer.ts:13-24 | the specification of `dispatch(i)`, with no contract of its own: a stage at or below `index` rejects, otherwise it is entered and runs its middleware, the terminal or (as written, at the length) a throwing lookup; its properties are the lemmas `StageOrdered`, `RepeatedNextRejects`, `GuardedStageRuns` and `AsWrittenStageFails` |
| Composer.Steps | packages/mask/src/extension/background-script/EthereumServices/composer.ts:19-23 | the specification of one `fn` run, with no contract of its own: `Next` enters the following stage and a rejection there ends the run; `Throw` rejects; `Write` writes the context; its properties are those of `Stage` |
| Composer.Dispatched | packages/mask/src/extension/background-script/EthereumServices/composer.ts:26 | a whole dispatch is stage 0 from `index = -1`, with no contract of its own; its properties are `EachStageAtMostOnce`, `RegistrationOrder` and `AsWrittenSkipsTerminal` |
| Composer.EachStageAtMostOnce | packages/mask/src/extension/background-script/EthereumServices/composer.ts:13-24 | in any dispatch every stage is entered at most once, in increasing order |
| Composer.RepeatedNextRejects | packages/mask/src/extension/background-script/EthereumServices/composer.ts:14 | calling `next()` for a stage at or below the current index rejects with "next() called multiple times" and changes nothing |
| Composer.GuardedStageRuns | packages/mask/src/extension/background-script/EthereumServices/composer.ts:13-24 | with the length check first, well-behaved middlewares from stage i on all run, then the terminal, and the dispatch resolves |
| Composer.RegistrationOrder | packages/mask/src/extension/background-script/EthereumServices/composer.ts:10-28 | with the length check first, the middlewares run in registration order, then the terminal `next`, whose writes are applied, and the dispatch resolves |
| Composer.GuardedStageThrows | packages/mask/src/extension/background-script/EthereumServices/composer.ts:13-24 | with the length check first, passing middlewares from stage i on all run, then a terminal that throws rejects the dispatch with its error, and the context is left as it was |
| Composer.AsWrittenStageFails | packages/mask/src/extension/background-script/EthereumServices/composer.ts:16-18 | as written, reading `middlewares[i].fn` at i = length throws, so the dispatch rejects and the terminal never runs |
| Composer.AsWrittenSkipsTerminal | packages/mask/src/extension/background-script/EthereumServices/composer.ts:16-18 | as written, every dispatch of passing middlewares rejects with a TypeError before any terminal runs, and leaves the context unwritten |
| Composer.Composer.constructor | packages/mask/src/extension/background-script/EthereumServices/composer.ts:8 | no middleware is registered |
| Composer.Composer.Use | packages/mask/src/extension/background-script/EthereumServices/composer.ts:30-32 | the middleware is appended |
| Composer.Composer.Dispatch | packages/mask/src/extension/background-script/EthereumServices/composer.ts:34-36 | outcome and new context are those of the dispatch specification under the given lookup: `AsWritten` is the source's lookup, `Guarded` the corrected one |
| Composer.Dispatcher.constructor | packages/mask/src/extension/background-script/EthereumServices/composer.ts:11-12 | the dispatcher starts with `index = -1` and an empty trace |
| Composer.Dispatcher.Dispatch | packages/mask/src/extension/background-script/EthereumServices/composer.ts:13-24 | one call of `dispatch(i)` is the specification `Stage` |
| Composer.Dispatcher.RunFn | packages/mask/src/extension/background-script/EthereumServices/composer.ts:19-23 | running one middleware's `fn` is the specification `Steps` |
| Types.WriteOnce | packages/mask/src/extension/background-script/EthereumServices/types.ts:74-77 | `write` stores a response only once: a second write leaves the first error and result |
| Types.OnResponseCalledOnce | packages/mask/src/extension/background-script/EthereumServices/types.ts:79-82 | a callback registered before the write is called exactly once, with the written response |
| Request.Terminal | packages/mask/src/extension/background-script/EthereumServices/request.ts:22-34 | the terminal `next` writes the context exactly once, whatever the provider does |
| Request.Settings | packages/mask/src/extension/background-script/EthereumServices/request.ts:17 | provider type and chain id come from the overrides when given and from the current settings otherwise |
| Request.Settle | packages/mask/src/extension/background-script/EthereumServices/request.ts:36-37 | after the dispatch the promise rejects with the context error when there is one and resolves with the result otherwise; a rejected dispatch leaves it pending |
| Request.Send | packages/mask/src/extension/background-script/EthereumServices/request.ts:19-38 | the promise of one request stays pending exactly when its dispatch rejects |
| Request.LoggerPasses | packages/mask/src/extension/background-script/EthereumServices/middlewares/Logger.ts:4-10 | Logger calls `next()` exactly once and writes nothing |
| Request.SendRequestSettles | packages/mask/src/extension/background-script/EthereumServices/request.ts:19-38 | with the guarded dispatch, `sendRequest` settles: with the provider's result, its error, or "Failed to create provider." |
| Request.SendRequestAsWrittenHangs | packages/mask/src/extension/background-script/EthereumServices/request.ts:19-38 | as written, `sendRequest` never settles, whatever the provider replies |
| Request.SendRequestWriteMissingHangs | packages/mask/src/extension/background-script/EthereumServices/request.ts:22-34 | with the context's missing `write`, the terminal throws in its `try` and again in its `catch`; under either lookup the context is never written and `sendRequest` never settles |
| Request.Service.constructor | packages/mask/src/extension/background-script/EthereumServices/request.ts:9-10 | Logger, then Squash, are registered |
| Request.Service.SendRequest | packages/mask/src/extension/background-script/EthereumServices/request.ts:12-39 | a fresh context takes the next pid, and the result is `Send` under the given lookup, with the provider chosen by the settings: as written it never settles (`SendRequestAsWrittenHangs`), corrected it settles as `Expected` (`SendRequestSettles`) |
| TxStorage.Get | packages/mask/src/extension/background-script/EthereumServices/middlewares/TransactionWatcher.ts:37-39 | an item is found exactly for a stored hash |
| TxStorage.Put | packages/mask/src/extension/background-script/EthereumServices/middlewares/TransactionWatcher.ts:41-43 | `Map.set`: the hash maps to the item, other hashes are untouched, and a new hash is appended to the insertion order |
| TxStorage.Delete | packages/mask/src/extension/background-script/EthereumServices/middlewares/TransactionWatcher.ts:45-47 | `Map.delete`: other hashes are untouched and the table shrinks by one exactly when the hash was stored |
| TxStorage.PutUnique | packages/mask/src/extension/background-script/EthereumServices/middlewares/TransactionWatcher.ts:41-43 | setting an item keeps the hashes distinct |
| TxStorage.DeleteUnique | packages/mask/src/extension/background-script/EthereumServices/middlewares/TransactionWatcher.ts:45-47 | removing an item keeps the hashes distinct and the hash is gone |
| TxStorage.InsertSorted | packages/mask/src/extension/background-script/EthereumServices/middlewares/TransactionWatcher.ts:51 | inserting into a list sorted newest first keeps it sorted |
| TxStorage.SortByAt | packages/mask/src/extension/background-script/EthereumServices/middlewares/TransactionWatcher.ts:49-52 | `getItems` is a permutation of the table sorted by `at`, newest first |
| TxStorage.SortByAtStable | packages/mask/src/extension/background-script/EthereumServices/middlewares/TransactionWatcher.ts:51 | the sort is stable: the items with any one `at` keep their insertion order |
| TxStorage.Watched | packages/mask/src/extension/background-script/EthereumServices/middlewares/TransactionWatcher.ts:54-56 | `getWatched` holds min(40, size) items |
| TxStorage.Unwatched | packages/mask/src/extension/background-script/EthereumServices/middlewares/TransactionWatcher.ts:58-60 | `getUnwatched` holds the items beyond the first 40 |
| TxStorage.SortKeys | packages/mask/src/extension/background-script/EthereumServices/middlewares/TransactionWatcher.ts:49-52 | sorting keeps the set of hashes and their distinctness |
| TxStorage.WatchedSplit | packages/mask/src/extension/background-script/EthereumServices/middlewares/TransactionWatcher.ts:54-60 | watched and unwatched items partition the sorted items, and at most 40 are watched |
| TxStorage.UnwatchedOnlyBeyondMax | packages/mask/src/extension/background-script/EthereumServices/middlewares/TransactionWatcher.ts:58-60 | there is an unwatched item exactly when the table holds more than 40 |
| TxStorage.WatchedNewer | packages/mask/src/extension/background-script/EthereumServices/middlewares/TransactionWatcher.ts:49-60 | every watched item is at least as new as every unwatched one |
| TxStorage.FromsOf | packages/mask/src/extension/background-script/EthereumServices/middlewares/TransactionWatcher.ts:65 | the senders are read from each item's payload in order |
| TxStorage.TruthyStrings | packages/mask/src/extension/background-script/EthereumServices/middlewares/TransactionWatcher.ts:66 | `filter(Boolean)` keeps the truthy senders |
| TxStorage.UniqByLower | packages/mask/src/extension/background-script/EthereumServices/middlewares/TransactionWatcher.ts:63-68 | `uniqBy` with `toLowerCase` is never longer than its input |
| TxStorage.UniqByLowerInOrder | packages/mask/src/extension/background-script/EthereumServices/middlewares/TransactionWatcher.ts:63-68 | `uniqBy` keeps the input order: each kept address sits at an input position, and the positions increase |
| TxStorage.UniqByLowerDistinct | packages/mask/src/extension/background-script/EthereumServices/middlewares/TransactionWatcher.ts:62-68 | the accounts are distinct up to case |
| TxStorage.UniqByLowerCovers | packages/mask/src/extension/background-script/EthereumServices/middlewares/TransactionWatcher.ts:62-68 | every sender is represented up to case |
| TxStorage.UniqByLowerKeepsFirst | packages/mask/src/extension/background-script/EthereumServices/middlewares/TransactionWatcher.ts:62-68 | each kept account is the first of its case class, as `uniqBy` keeps |
| TxStorage.WatchedAccounts | packages/mask/src/extension/background-script/EthereumServices/middlewares/TransactionWatcher.ts:62-69 | when it does not throw, `getWatchedAccounts` gives at most one account per watched item, so at most 40 |
| TxStorage.UnwatchedAccounts | packages/mask/src/extension/background-script/EthereumServices/middlewares/TransactionWatcher.ts:71-78 | when it does not throw, `getUnwatchedAccounts` gives at most one account per unwatched item |
| TxStorage.Storage.constructor | packages/mask/src/extension/background-script/EthereumServices/middlewares/TransactionWatcher.ts:26 | no chain has a table |
| TxStorage.Storage.Entries | packages/mask/src/extension/background-script/EthereumServices/middlewares/TransactionWatcher.ts:28-31 | a chain without a table reads as empty |
| TxStorage.Storage.HasItem | packages/mask/src/extension/background-script/EthereumServices/middlewares/TransactionWatcher.ts:33-35 | true exactly for a stored hash |
| TxStorage.Storage.GetItem | packages/mask/src/extension/background-script/EthereumServices/middlewares/TransactionWatcher.ts:37-39 | the item stored under the hash in the chain's table (empty when the chain was never written); no contract of its own, `Get` states the lookup |
| TxStorage.Storage.GetItems | packages/mask/src/extension/background-script/EthereumServices/middlewares/TransactionWatcher.ts:49-52 | the chain's table sorted newest first; no contract of its own, `SortByAt` and `SortByAtStable` state the sort |
| TxStorage.Storage.GetWatched | packages/mask/src/extension/background-script/EthereumServices/middlewares/TransactionWatcher.ts:54-56 | `Watched` of the chain's table; no contract of its own |
| TxStorage.Storage.GetUnwatched | packages/mask/src/extension/background-script/EthereumServices/middlewares/TransactionWatcher.ts:58-60 | `Unwatched` of the chain's table; no contract of its own |
| TxStorage.Storage.GetWatchedAccounts | packages/mask/src/extension/background-script/EthereumServices/middlewares/TransactionWatcher.ts:62-69 | `WatchedAccounts` of the chain's table; no contract of its own |
| TxStorage.Storage.GetUnwatchedAccounts | packages/mask/src/extension/background-script/EthereumServices/middlewares/TransactionWatcher.ts:71-78 | `UnwatchedAccounts` of the chain's table; no contract of its own |
| TxStorage.Storage.EnsureChain | packages/mask/src/extension/background-script/EthereumServices/middlewares/TransactionWatcher.ts:28-31 | the chain gets its table, and no item changes |
| TxStorage.Storage.SetItem | packages/mask/src/extension/background-script/EthereumServices/middlewares/TransactionWatcher.ts:41-43 | the chain's table becomes `Put` of the old one |
| TxStorage.Storage.RemoveItem | packages/mask/src/extension/background-script/EthereumServices/middlewares/TransactionWatcher.ts:45-47 | the chain's table becomes `Delete` of the old one |
| TxWatcher.Watch | packages/mask/src/extension/background-script/EthereumServices/middlewares/TransactionWatcher.ts:220-228 | a known hash is left alone; a new one gets `at = now`, 30 checks and a null receipt |
| TxWatcher.WatchIdempotent | packages/mask/src/extension/background-script/EthereumServices/middlewares/TransactionWatcher.ts:220-230 | watching a hash twice is watching it once, and other hashes are untouched |
| TxWatcher.DecLimits | packages/mask/src/extension/background-script/EthereumServices/middlewares/TransactionWatcher.ts:183 | limits never go below zero and never grow |
| TxWatcher.RemoveAllSpec | packages/mask/src/extension/background-script/EthereumServices/middlewares/TransactionWatcher.ts:177 | unwatching removes exactly the unwatched hashes |
| TxWatcher.DecrementAllSpec | packages/mask/src/extension/background-script/EthereumServices/middlewares/TransactionWatcher.ts:180-185 | decrementing touches exactly the watched items' limits and keeps the hash order |
| TxWatcher.Tick | packages/mask/src/extension/background-script/EthereumServices/middlewares/TransactionWatcher.ts:176-185 | the unwatch and limits steps of `check`, with no contract of its own; `TickSpec` and `TickLimitsNeverIncrease` state them |
| TxWatcher.TickSpec | packages/mask/src/extension/background-script/EthereumServices/middlewares/TransactionWatcher.ts:176-185 | after pruning and decrementing, at most 40 items remain: the unwatched ones are gone and every other item has its limits decremented |
| TxWatcher.TickLimitsNeverIncrease | packages/mask/src/extension/background-script/EthereumServices/middlewares/TransactionWatcher.ts:180-185 | an item's limits stay non-negative and do not increase |
| TxWatcher.RefreshAllSpec | packages/mask/src/extension/background-script/EthereumServices/middlewares/TransactionWatcher.ts:107-118 | `checkReceipt` looks the receipt up again for exactly the watched items without one, and keeps the hashes |
| TxWatcher.FindMatch | packages/mask/src/extension/background-script/EthereumServices/middlewares/TransactionWatcher.ts:130-147 | the match found is a watched item matching by hash, signature id, or sender and nonce |
| TxWatcher.ReconcileOneSpec | packages/mask/src/extension/background-script/EthereumServices/middlewares/TransactionWatcher.ts:129-166 | a replaced transaction moves to its new hash with its `at` and `limits`; without a rewrite, or when the database update fails, nothing changes |
| TxWatcher.ReconcileOne | packages/mask/src/extension/background-script/EthereumServices/middlewares/TransactionWatcher.ts:130-166 | one latest transaction of `checkAccount`, with no contract of its own; `ReconcileOneSpec` states it |
| TxWatcher.ReconcileLatest | packages/mask/src/extension/background-script/EthereumServices/middlewares/TransactionWatcher.ts:129-167 | the loop over the latest transactions, stopping at the first failed database update, with no contract of its own; `ReconcileLatestUnique` and `ReconcileLatestStops` state it |
| TxWatcher.CheckAccounts | packages/mask/src/extension/background-script/EthereumServices/middlewares/TransactionWatcher.ts:189 | the loop over the watched accounts, stopping at the first throw, with no contract of its own; `CheckAccountsUnique` and `CheckAccountsStops` state it |
| TxWatcher.ReconcileLatestUnique | packages/mask/src/extension/background-script/EthereumServices/middlewares/TransactionWatcher.ts:129-167 | reconciling keeps the hashes distinct |
| TxWatcher.ReconcileLatestStops | packages/mask/src/extension/background-script/EthereumServices/middlewares/TransactionWatcher.ts:152-158 | a failed database update stops the loop over the latest transactions |
| TxWatcher.CheckAccountsUnique | packages/mask/src/extension/background-script/EthereumServices/middlewares/TransactionWatcher.ts:189 | checking every account keeps the hashes distinct |
| TxWatcher.CheckAccountsStops | packages/mask/src/extension/background-script/EthereumServices/middlewares/TransactionWatcher.ts:187-192 | a failure in one account skips every later account |
| TxWatcher.RoundSpec | packages/mask/src/extension/background-script/EthereumServices/middlewares/TransactionWatcher.ts:170-198 | one polling round keeps the hashes distinct, and before reconciliation holds exactly the watched items, decremented and refreshed |
| TxWatcher.Round | packages/mask/src/extension/background-script/EthereumServices/middlewares/TransactionWatcher.ts:170-198 | one polling round, with no contract of its own; `RoundSpec` states it |
| TxWatcher.Stopped | packages/mask/src/extension/background-script/EthereumServices/middlewares/TransactionWatcher.ts:211-214 | `stopCheck` clears the armed timer and the field |
| TxWatcher.Started | packages/mask/src/extension/background-script/EthereumServices/middlewares/TransactionWatcher.ts:204-209 | `startCheck` arms a new timer when forced or when none is armed, and otherwise changes nothing |
| TxWatcher.SchedulerKeepsSingleTimer | packages/mask/src/extension/background-script/EthereumServices/middlewares/TransactionWatcher.ts:204-214 | every scheduler step keeps at most one armed timer, the one in `timer` |
| TxWatcher.FiredKeepsPolling | packages/mask/src/extension/background-script/EthereumServices/middlewares/TransactionWatcher.ts:170-209 | with `check` bound, a round that found not every receipt leaves exactly one fresh timer armed |
| TxWatcher.AsWrittenPollingStops | packages/mask/src/extension/background-script/EthereumServices/middlewares/TransactionWatcher.ts:207 | as written, once the timer fires no later `watchTransaction` arms another and no round runs |
| TxWatcher.TransactionWatcher.constructor | packages/mask/src/extension/background-script/EthereumServices/middlewares/TransactionWatcher.ts:86-87 | no timer and empty storage |
| TxWatcher.TransactionWatcher.StopCheck | packages/mask/src/extension/background-script/EthereumServices/middlewares/TransactionWatcher.ts:211-214 | the timers become `Stopped` of the old ones |
| TxWatcher.TransactionWatcher.StartCheck | packages/mask/src/extension/background-script/EthereumServices/middlewares/TransactionWatcher.ts:204-209 | the timers become `Started` of the old ones |
| TxWatcher.TransactionWatcher.GetReceipt | packages/mask/src/extension/background-script/EthereumServices/middlewares/TransactionWatcher.ts:216-218 | the cached receipt, or null when the hash or the receipt is missing |
| TxWatcher.TransactionWatcher.WatchTransaction | packages/mask/src/extension/background-script/EthereumServices/middlewares/TransactionWatcher.ts:220-230 | the table becomes `Watch` of the old one and `startCheck(false)` is applied |
| TxWatcher.TransactionWatcher.UnwatchTransaction | packages/mask/src/extension/background-script/EthereumServices/middlewares/TransactionWatcher.ts:232-234 | the item is removed |
| TxWatcher.TransactionWatcher.Prune | packages/mask/src/extension/background-script/EthereumServices/middlewares/TransactionWatcher.ts:177 | the unwatched items are removed |
| TxWatcher.TransactionWatcher.RemoveEach | packages/mask/src/extension/background-script/EthereumServices/middlewares/TransactionWatcher.ts:177 | the `forEach` over the unwatched items removes each one's key from the chain's table, as `RemoveAll` does, and keeps the keys distinct |
| TxWatcher.TransactionWatcher.RefreshEach | packages/mask/src/extension/background-script/EthereumServices/middlewares/TransactionWatcher.ts:108-117 | the loop over the watched snapshot refreshes each receipt as `RefreshAll` does |
| TxWatcher.TransactionWatcher.RefreshItem | packages/mask/src/extension/background-script/EthereumServices/middlewares/TransactionWatcher.ts:110-115 | one watched item is refreshed as `RefreshOne` does |
| TxWatcher.TransactionWatcher.ReconcileEach | packages/mask/src/extension/background-script/EthereumServices/middlewares/TransactionWatcher.ts:129-167 | the loop over the latest transactions changes the table as `ReconcileLatest` does and reports whether it ran to the end |
| TxWatcher.TransactionWatcher.Poll | packages/mask/src/extension/background-script/EthereumServices/middlewares/TransactionWatcher.ts:176-192 | the body of `check` before the re-arm test leaves the chain's table as `Round` does |
| TxWatcher.TransactionWatcher.TickAndRefresh | packages/mask/src/extension/background-script/EthereumServices/middlewares/TransactionWatcher.ts:176-188 | the unwatch, limits and receipt steps leave the table as `Receipts(Tick(...))` |
| TxWatcher.TransactionWatcher.TickChain | packages/mask/src/extension/background-script/EthereumServices/middlewares/TransactionWatcher.ts:176-185 | the unwatch and limits steps leave the table as `Tick` does |
| TxWatcher.TransactionWatcher.CheckEachAccount | packages/mask/src/extension/background-script/EthereumServices/middlewares/TransactionWatcher.ts:189 | the accounts step leaves the table as `ReconcileWatched` does |
| TxWatcher.TransactionWatcher.CheckAccountsOf | packages/mask/src/extension/background-script/EthereumServices/middlewares/TransactionWatcher.ts:189 | the loop over the accounts changes the table as `CheckAccounts` does and reports whether no account threw |
| TxWatcher.TransactionWatcher.DecrementLimits | packages/mask/src/extension/background-script/EthereumServices/middlewares/TransactionWatcher.ts:180-185 | the watched items' limits are decremented |
| TxWatcher.TransactionWatcher.CheckReceipt | packages/mask/src/extension/background-script/EthereumServices/middlewares/TransactionWatcher.ts:107-118 | missing receipts of the watched items are looked up |
| TxWatcher.TransactionWatcher.CheckAccount | packages/mask/src/extension/background-script/EthereumServices/middlewares/TransactionWatcher.ts:120-168 | the table is reconciled with the account's latest transactions; false when a step threw |
| TxWatcher.TransactionWatcher.MoveItem | packages/mask/src/extension/background-script/EthereumServices/middlewares/TransactionWatcher.ts:161-165 | the old hash is removed and the item moves to the latest hash; every other chain is unchanged |
| TxWatcher.TransactionWatcher.Check | packages/mask/src/extension/background-script/EthereumServices/middlewares/TransactionWatcher.ts:170-202 | the table becomes one polling round of the old one; the timer is re-armed unless every watched receipt was found |
| TxWatcher.TransactionWatcher.Fire | packages/mask/src/extension/background-script/EthereumServices/middlewares/TransactionWatcher.ts:170-209 | the bound `check` running from an armed timer |
| TxWatcher.TransactionWatcher.FireAsWritten | packages/mask/src/extension/background-script/EthereumServices/middlewares/TransactionWatcher.ts:207 | the unbound `check` only spends the timer |
| TxWatcher.TransactionWatcher.Fn | packages/mask/src/extension/background-script/EthereumServices/middlewares/TransactionWatcher.ts:236-262 | `eth_getTransactionReceipt` is answered from the cache after watching the hash, or with an empty write when the lookup fails; `mask_getTransactionReceipt` is renamed and passed on; anything else passes on unchanged |
| TxWatcher.TransactionWatcher.FnUnbound | packages/mask/src/extension/background-script/EthereumServices/middlewares/TransactionWatcher.ts:236-262 | with `this` undefined, as the composer calls `fn`: eth_getTransactionReceipt is answered with an empty response whatever the wallet reports, and nothing is watched; the other methods behave as in `Fn` |
| WalletProvider.ProviderFor | packages/mask/src/extension/background-script/EthereumServices/providers/MaskWallet.ts:24-44 | one provider per URL, created once and reused; its host is the URL |
| WalletProvider.InstanceFor | packages/mask/src/extension/background-script/EthereumServices/providers/MaskWallet.ts:15-22 | one Web3 instance per provider host, created once with an empty wallet and reused |
| WalletProvider.ProvidedBy | packages/mask/src/extension/background-script/EthereumServices/providers/MaskWallet.ts:46-52 | fails with "Failed to create provider." and no change exactly when the chosen URL is empty; otherwise the provider's host is that URL |
| WalletProvider.Web3For | packages/mask/src/extension/background-script/EthereumServices/providers/MaskWallet.ts:54-62 | fails exactly when the URL is empty; with keys the wallet holds exactly the non-empty keys other than "0x"; without keys no wallet changes |
| WalletProvider.Web3ForMemoised | packages/mask/src/extension/background-script/EthereumServices/providers/MaskWallet.ts:54-62 | creating the same Web3 twice returns the same instance and state |
| WalletProvider.RequestAccountsAsWritten | packages/mask/src/extension/background-script/EthereumServices/providers/MaskWallet.ts:64-85 | as written, when fetching the wallets fails the promise never settles and no popup opens |
| WalletProvider.RequestAccounts | packages/mask/src/extension/background-script/EthereumServices/providers/MaskWallet.ts:64-85 | rejects with "Failed to connect to Mask Network." exactly when a step fails; resolves with the selected accounts and chain; the popup opens with the SelectWallet route exactly when there are wallets |
| WalletProvider.RequestAccountsFetchFailure | packages/mask/src/extension/background-script/EthereumServices/providers/MaskWallet.ts:69 | the two versions differ exactly when fetching the wallets fails |
| WalletProvider.MaskWalletProvider.constructor | packages/mask/src/extension/background-script/EthereumServices/providers/MaskWallet.ts:11-13 | the seed is `floor(random * 4)` and both pools are empty |
| WalletProvider.MaskWalletProvider.CreateProviderInstance | packages/mask/src/extension/background-script/EthereumServices/providers/MaskWallet.ts:24-44 | state and result are `ProviderFor` |
| WalletProvider.MaskWalletProvider.CreateWeb3Instance | packages/mask/src/extension/background-script/EthereumServices/providers/MaskWallet.ts:15-22 | state and result are `InstanceFor` |
| WalletProvider.MaskWalletProvider.CreateProvider | packages/mask/src/extension/background-script/EthereumServices/providers/MaskWallet.ts:46-52 | state and result are `ProvidedBy` |
| WalletProvider.MaskWalletProvider.LoadKeys | packages/mask/src/extension/background-script/EthereumServices/providers/MaskWallet.ts:57-60 | the wallet is cleared and holds exactly the loaded keys |
| WalletProvider.MaskWalletProvider.CreateWeb3 | packages/mask/src/extension/background-script/EthereumServices/providers/MaskWallet.ts:54-62 | state and result are `Web3For` |
| Interceptor.SendTransaction | packages/mask/src/extension/background-script/EthereumServices/interceptors/MaskWallet.ts:28-55 | a config without from and to aborts with "Invalid JSON payload."; an empty key aborts with "Not a valid account."; a signed raw transaction is the only thing sent, as eth_sendRawTransaction; the context ends only after it was sent |
| Interceptor.EmptyRawTransactionAborts | packages/mask/src/extension/background-script/EthereumServices/interceptors/MaskWallet.ts:41-44 | an empty raw transaction aborts with "Failed to sign transaction." and sends nothing |
| Interceptor.PersonalSign | packages/mask/src/extension/background-script/EthereumServices/interceptors/MaskWallet.ts:56-65 | params are [data, address]; a missing key or a thrown error aborts; the context ends with the signature of the key's Web3 instance |
| Interceptor.SignTypedData | packages/mask/src/extension/background-script/EthereumServices/interceptors/MaskWallet.ts:66-79 | params are [address, data]; the context ends exactly when the key is found and signing with "0x" + key succeeds |
| Interceptor.Intercept | packages/mask/src/extension/background-script/EthereumServices/interceptors/MaskWallet.ts:26-83 | exactly the three signing methods are handled and every other passes to `next`; only eth_sendTransaction sends anything |
| Interceptor.SendTransactionReadsFirstParam | packages/mask/src/extension/background-script/EthereumServices/interceptors/MaskWallet.ts:28-29 | the transaction config is the first param |
| Interceptor.InterceptUnbound | packages/mask/src/extension/background-script/EthereumServices/interceptors/MaskWallet.ts:26-83 | with `this` undefined, as the composer calls `fn`: nothing is signed or sent; the three signing methods abort, eth_sendTransaction without from and to with "Invalid JSON payload." and every other signing request with the TypeError of `this.getPrivateKey`; other methods pass to `next` |
| Interceptor.UnboundNeverSigns | packages/mask/src/extension/background-script/EthereumServices/interceptors/MaskWallet.ts:26-83 | against `Intercept`: the same methods pass, the same invalid payloads abort alike, and every request the bound `fn` would sign or broadcast aborts with the TypeError instead |
| Interceptor.MaskWallet.constructor | packages/mask/src/extension/background-script/EthereumServices/interceptors/MaskWallet.ts:9 | a fresh provider with empty pools |
| Interceptor.MaskWallet.Fn | packages/mask/src/extension/background-script/EthereumServices/interceptors/MaskWallet.ts:26-83 | the context and the provider state change as `Intercept` decides, and `next` is called exactly on a pass |
| Interceptor.MaskWallet.FnUnbound | packages/mask/src/extension/background-script/EthereumServices/interceptors/MaskWallet.ts:26-83 | with `this` undefined, the context changes as `InterceptUnbound` decides and `next` is called exactly for the methods it passes; the provider is not touched |
| Interceptor.MaskWallet.SendTransactionIn | packages/mask/src/extension/background-script/EthereumServices/interceptors/MaskWallet.ts:28-55 | the context and provider follow `SendTransaction` |
| Interceptor.MaskWallet.PersonalSignIn | packages/mask/src/extension/background-script/EthereumServices/interceptors/MaskWallet.ts:56-65 | the context and provider follow `PersonalSign` |
| Interceptor.MaskWallet.SignTypedDataIn | packages/mask/src/extension/background-script/EthereumServices/interceptors/MaskWallet.ts:66-79 | the context follows `SignTypedData` |
| Bridge.Requested | packages/mask/src/extension/background-script/EthereumServices/providers/Injected.ts:12-35 | a request takes the next id, listens for it, arms a 3-minute timer for the long method and 45 seconds otherwise, and posts the payload under that id and version "2.0" unless the caller's own `id` or `jsonrpc` key overrides them |
| Bridge.Posted | packages/mask/src/extension/background-script/EthereumServices/providers/Injected.ts:28-34 | the posted payload carries the caller's `id`, `jsonrpc` and `params` when set, and the request's id, "2.0" and `[]` otherwise |
| Bridge.CallerIdUnanswered | packages/mask/src/extension/background-script/EthereumServices/providers/Injected.ts:17-35 | a caller's `id` key other than the request's id is posted in its place, so the response echoing the posted payload leaves the request pending, with its listener and timer |
| Bridge.Answer | packages/mask/src/extension/background-script/EthereumServices/providers/Injected.ts:17-21 | a message with an error rejects with it and one without resolves with its result |
| Bridge.Delivered | packages/mask/src/extension/background-script/EthereumServices/providers/Injected.ts:17-21 | a message for no pending request changes nothing; a match settles that request; earlier settlements stay |
| Bridge.TimedOut | packages/mask/src/extension/background-script/EthereumServices/providers/Injected.ts:23-26 | a pending request's timer rejects it with "The request is timeout."; earlier settlements stay |
| Bridge.Replay | packages/mask/src/extension/background-script/EthereumServices/providers/Injected.ts:37-40 | any sequence of messages and timeouts keeps listeners, timers and settlements consistent |
| Bridge.SettlesOnce | packages/mask/src/extension/background-script/EthereumServices/providers/Injected.ts:17-40 | a settled request keeps its settlement whatever follows, with no listener or timer left |
| Bridge.MismatchIgnored | packages/mask/src/extension/background-script/EthereumServices/providers/Injected.ts:18 | a message whose id matches no pending request changes nothing |
| Bridge.ConsecutiveIds | packages/mask/src/extension/background-script/EthereumServices/providers/Injected.ts:13-14 | two requests take consecutive ids and listen for them, and their payloads are posted in order, each under its id unless the caller set an `id` key |
| Bridge.ProviderCreated | packages/mask/src/extension/background-script/EthereumServices/providers/Injected.ts:45-47 | each call creates a new external provider |
| Bridge.Web3Of | packages/mask/src/extension/background-script/EthereumServices/providers/Injected.ts:49-54 | the Web3 instance is created once and then reused |
| Bridge.Web3Memoised | packages/mask/src/extension/background-script/EthereumServices/providers/Injected.ts:49-54 | asking twice gives the same instance |
| Bridge.BridgedProvider.constructor | packages/mask/src/extension/background-script/EthereumServices/providers/Injected.ts:9-10 | no request, no Web3 instance |
| Bridge.BridgedProvider.Request | packages/mask/src/extension/background-script/EthereumServices/providers/Injected.ts:12-43 | the state is `Requested` and the returned id is the new one |
| Bridge.BridgedProvider.Settle | packages/mask/src/extension/background-script/EthereumServices/providers/Injected.ts:37-40 | the request's listener and timer are removed and its settlement recorded |
| Bridge.BridgedProvider.Deliver | packages/mask/src/extension/background-script/EthereumServices/providers/Injected.ts:17-21 | the state is `Delivered` |
| Bridge.BridgedProvider.Fire | packages/mask/src/extension/background-script/EthereumServices/providers/Injected.ts:23-26 | the state is `TimedOut` |
| Bridge.BridgedProvider.CreateProvider | packages/mask/src/extension/background-script/EthereumServices/providers/Injected.ts:45-47 | state and result are `ProviderCreated` |
| Bridge.BridgedProvider.CreateWeb3 | packages/mask/src/extension/background-script/EthereumServices/providers/Injected.ts:49-54 | state and result are `Web3Of` |
| Injected.Caught | packages/mask/src/extension/background-script/EthereumServices/providers/Injected.ts:58-62 | the value caught is the accounts returned or the value thrown; an Error thrown is not an accounts list |
| Injected.Unlocked | packages/mask/src/extension/background-script/EthereumServices/providers/Injected.ts:56-71 | the outcome of `ensureConnectedAndUnlocked` for the accounts reply, with no contract of its own; `UnlockedClassifies` states it |
| Injected.UnlockedClassifies | packages/mask/src/extension/background-script/EthereumServices/providers/Injected.ts:56-71 | unlocked exactly for a non-empty accounts array; locked exactly for an empty array; not connected otherwise |
| Injected.InjectedProvider.constructor | packages/mask/src/extension/background-script/EthereumServices/providers/Injected.ts:8-10 | the long method is eth_requestAccounts |
| Injected.InjectedProvider.EnsureConnectedAndUnlocked | packages/mask/src/extension/background-script/EthereumServices/providers/Injected.ts:56-71 | the Web3 instance is created or reused and the outcome is `Unlocked` |
| Fortmatic.ChainArguments | packages/mask/src/extension/background-script/EthereumServices/providers/Fortmatic.ts:56-65 | the request params are `[chainId]`, mainnet (1) by default |
| Fortmatic.LoggingIn | packages/mask/src/extension/background-script/EthereumServices/providers/Fortmatic.ts:56-65 | `requestAccounts`: a new provider, then the login request, with no contract of its own; `LoginRequest` states it |
| Fortmatic.LoginRequest | packages/mask/src/extension/background-script/EthereumServices/providers/Fortmatic.ts:56-65 | login creates a provider and posts mask_loginFortmatic under the next id with a 3-minute timer |
| Fortmatic.AfterLogout | packages/mask/src/extension/background-script/EthereumServices/providers/Fortmatic.ts:66-73 | `resetAccount` is called exactly after a successful logout; a failed logout rethrows its error |
| Fortmatic.FortmaticProvider.constructor | packages/mask/src/extension/background-script/EthereumServices/providers/Fortmatic.ts:8-11 | the long method is mask_loginFortmatic |
| Fortmatic.FortmaticProvider.RequestAccounts | packages/mask/src/extension/background-script/EthereumServices/providers/Fortmatic.ts:56-65 | the bridge state is `LoggingIn` |
| Fortmatic.FortmaticProvider.DismissAccounts | packages/mask/src/extension/background-script/EthereumServices/providers/Fortmatic.ts:66-73 | a provider is created and mask_logoutFortmatic is posted |
| Fortmatic.FortmaticProvider.ResumeDismiss | packages/mask/src/extension/background-script/EthereumServices/providers/Fortmatic.ts:66-73 | the reset count and outcome follow `AfterLogout` |
| Progress.Reported | packages/mask/src/extension/background-script/EthereumServices/middlewares/TransactionProgress.ts:10-37 | a transaction with a hash notifies the HASH state; a receipt with a transaction hash notifies and broadcasts its state; a missing receipt throws; other methods do nothing |
| Progress.NotifiedIffBroadcast | packages/mask/src/extension/background-script/EthereumServices/middlewares/TransactionProgress.ts:27-34 | a broadcast happens only for a receipt, after a notification of the same state |
| Progress.TransactionProgress.Fn | packages/mask/src/extension/background-script/EthereumServices/middlewares/TransactionProgress.ts:10-37 | `next()` is awaited first; a rejection propagates; then the log grows by `Reported` |
| Twitter.PatternsTried | packages/mask/src/social-network-adaptor/twitter.com/utils/user.ts:16-20 | the name is rejected by the loop exactly when one of the three patterns matches |
| Twitter.UsernameValidator | packages/mask/src/social-network-adaptor/twitter.com/utils/user.ts:15-23 | `usernameValidator`, with no contract of its own; `UsernameAccepted`, `LongNameRejected` and `ForbiddenWordRejected` state it |
| Twitter.UsernameAccepted | packages/mask/src/social-network-adaptor/twitter.com/utils/user.ts:15-23 | a name is valid exactly when it has 4 to 15 word characters and contains neither "twitter" nor "admin" in any case |
| Twitter.LongNameRejected | packages/mask/src/social-network-adaptor/twitter.com/utils/user.ts:16 | a name of 16 characters or more is rejected |
| Twitter.ForbiddenWordRejected | packages/mask/src/social-network-adaptor/twitter.com/utils/user.ts:16 | a name containing "twitter" or "admin", in any case, is rejected |
| Twitter.DigitRun | packages/mask/src/social-network-adaptor/twitter.com/utils/user.ts:78 | `(\d+)` captures the longest run of digits |
| Twitter.AvatarId | packages/mask/src/social-network-adaptor/twitter.com/utils/user.ts:79-86 | empty for an empty URL; non-empty exactly when the pathname starts with `/profile_images/` and a digit; then the maximal digit run after it |
| Twitter.AvatarIdOfPath | packages/mask/src/social-network-adaptor/twitter.com/utils/user.ts:78-86 | a pathname `/profile_images/` + digits + a non-digit tail gives those digits |
| Dao.SomeSameFoldedSpec | packages/plugins/DAO/src/SNSAdaptor/index.tsx:25-27 | `some` finds an id equal to the user id up to case exactly when one exists |
| Dao.ShouldDisplay | packages/plugins/DAO/src/SNSAdaptor/index.tsx:20-28 | `shouldDisplay`, with no contract of its own; `ShouldDisplayIff` states it |
| Dao.ShouldDisplayIff | packages/plugins/DAO/src/SNSAdaptor/index.tsx:20-28 | the tab is shown exactly for DAO-list data, a known identifier, and a listed id equal to the user id up to case |

## Left out

- Context.ErrorOf: the `error` getter consults `hasError`/`getError` (`error.ts`), which is not part of this model. The model returns the stored error once the context is locked, and null before.
- Request.SendRequestSettles: Squash's source is not part of this model. Squash is taken as a middleware that awaits `next()` once and writes nothing. `createExternalProvider` and the provider's `request` are one parameter reply (`ProviderReply`).
- Request.LoggerPasses: the `console.log` lines are trace events; the JSON text they print is not modelled.
- `MaskWalletProvider` defines no `request`, although `Provider` (`types.ts`) declares one and the interceptor calls `this.provider.request`. The interceptor's `request` is therefore a parameter (`Signer.request`).
- `RequestContext` defines none of `account`, `chainId`, `method`, `config`, `request`, `write`, `abort`, `end` or `onResponse`, although `Context` declares them (see Findings for what the missing `write` does as written). The rest of the model gives them the meaning `types.ts` documents:
  - `method` is the request's method;
  - `request` is the payload getter;
  - `config` is `getPayloadConfig` of the payload;
  - `chainId` and `account` are parameters;
  - `write` is `setResponse` with that result;
  - `abort` and `end` are `write`, with an error and with a result;
  - `onResponse` is `getResponse`.
- The optional members of `Provider` (`types.ts:24-39`: `createProvider`, `requestAccounts`, `dismissAccounts`, `onAccountsChanged`, `onChainIdChanged`) are not modelled as a capability set. No call site in the core probes them. Each provider in the model defines exactly the members its source defines.
- Context.PayloadOf: an explicit `params: undefined` or `id: undefined` key in the request arguments is modelled as an absent key. Ids that are neither numbers nor strings are not modelled.
- Bridge.Requested: the caller's keys override the posted payload as in `Context.PayloadOf`, with the same two limits.
- Interceptor.Intercept and TxWatcher.TransactionWatcher.Fn model `fn` called with `this` bound to its middleware; the composer's unbound call is modelled by the `FnUnbound` methods (see Findings).
- The `options` argument (`RequestOptions`) is not modelled: `sendRequest` only passes it through, and `requestOptions` is never read in the core.
- Asynchrony is modelled by order alone:
  - a promise is its settled value;
  - the concurrent receipt lookups of `checkReceipt` are modelled one after the other;
  - two polling rounds or two requests running at once are not modelled.
- TxWatcher.RefreshAllSpec: `getTransactionReceipt` is a parameter that never throws and gives a receipt or null, as its `catch` ensures. The receipt is stored as that value rather than as a promise.
- TxWatcher.TransactionWatcher.Fn: `WalletRPC.getRecentTransaction` is a parameter. A lookup that throws and one that finds nothing are both `None`, which makes the method write an empty response.
- Real time is not modelled. The timers are events, and `CHECK_DELAY` is a constant only. So is the 30-second HTTP-provider timeout, together with the other HTTP-provider options.
- The explorer, `getExplorerConstants`, `helpers.getTransactionId`, `helpers.getPayloadId`, `helpers.toPayload`, `isSameAddress` and `WalletRPC.replaceRecentTransaction` are the parameters of `TxWatcher.Oracles`. They are not part of this model.
- WalletProvider.LoadKeys: the model adds every key that is not empty and not "0x" to the wallet. It does not model `wallet.add` rejecting a malformed private key. The Web3 wallet is the set of keys it holds.
- `getWallets`, `selectAccountPrepare` and `openPopupWindow` are not part of this model. Their outcomes are inputs (`Selection`). So are `getChainRPC` and `Math.random`; the random number is the constructor's parameter.
- The Web3 signing calls are parameters (`Signer`):
  - `eth.accounts.signTransaction`;
  - `eth.sign`;
  - `signTypedData`, which includes `toBuffer` and `JSON.parse`.

  `WalletRPC.exportPrivateKey` is a parameter too.
- Injected.InjectedProvider.EnsureConnectedAndUnlocked: the outcome of `web3.eth.requestAccounts()` is a parameter. The JSON-RPC exchange beneath it goes through the bridge but is not tied to that outcome.
- Fortmatic.FortmaticProvider.DismissAccounts: `dismissAccounts` is split in two:
  - `DismissAccounts` posts the logout request;
  - `ResumeDismiss` runs once that request has settled.

  The outcome of `resetAccount` is a parameter.
- `createExternalProvider` (Injected, Fortmatic) is a counter of created providers forwarding to the bridge's `request`. `new Web3(provider)` is an instance number.
- `notifyProgress` and `transactionStateUpdated.sendToAll` are entries of the `TransactionProgress` log. `getTransactionState` is a parameter.
- Twitter.AvatarId: `new URL(avatarURL).pathname` is a parameter. A URL that does not parse makes `new URL` throw, which is not modelled.
- Twitter.UsernameAccepted counts characters where JavaScript counts UTF-16 code units. The two differ only for characters outside the Basic Multilingual Plane, and `/\W/` rejects every such character, so the verdict is the same.
- Dao.ShouldDisplayIff: `toLowerCase` is modelled for ASCII letters only. The same holds for the account de-duplication in `TxStorage`. Non-ASCII case mapping is not modelled.
- Payload.TrimStart skips ASCII white space only. `parseInt` also skips the other Unicode space separators.
- JavaScript numbers are unbounded integers in the model. Fractions, NaN and the loss of precision above 2^53 are not modelled.
- The DOM helpers of `user.ts` are not part of the core:
  - `getNickname`;
  - `getTwitterId`;
  - `getBioDescription`;
  - `getPersonalHomepage`;
  - `getAvatar`.

  Nor is the DAO tab's React component.
- The remaining files are context only and are not part of this model:
  - `gun.ts`;
  - `usePersonaSign.ts`;
  - `SearchResultBox.tsx`;
  - `useChainColor.ts`;
  - the EVM dashboard.

## Findings

| source | as written | input that shows it | evidently intended | confidence | as-written member | corrected member |
|---|---|---|---|---|---|---|
| packages/mask/src/extension/background-script/EthereumServices/composer.ts:16-17 | `dispatch(i)` reads `this.middlewares[i].fn` before testing `i === this.middlewares.length`. When `i` equals the length, the read throws a TypeError. | any dispatch whose middlewares all call `next()`, e.g. the Logger and a pass-through Squash of `sendRequest` | the terminal `next` runs after the last middleware, and `sendRequest` settles with the provider's reply | not executed | Composer.AsWrittenSkipsTerminal, Request.SendRequestAsWrittenHangs | Composer.RegistrationOrder, Request.SendRequestSettles |
| packages/mask/src/extension/background-script/EthereumServices/composer.ts:79-95 | the `error` and `result` setters assign `rawError`/`rawResult` before calling `setResponse`, even on a locked context | `context.result = 1; context.result = 2` leaves a response with result 2 | a context is written once: later writes change nothing | not executed | Context.SetterOverwritesAfterLock | Context.FirstWriteWins |
| packages/mask/src/extension/background-script/EthereumServices/middlewares/TransactionWatcher.ts:207 | `setTimeout(this.check, ...)` passes `check` unbound. `this.stopCheck()` throws when the timer fires, and `this.timer` keeps the spent handle. | one `watchTransaction` followed by the timer firing: no polling round runs, and no later `watchTransaction` arms a timer | the timer runs `check` on the watcher and re-arms until every receipt is found | not executed | TxWatcher.AsWrittenPollingStops | TxWatcher.FiredKeepsPolling |
| packages/mask/src/extension/background-script/EthereumServices/providers/MaskWallet.ts:69 | `await getWallets(...)` sits outside the `try` inside a promise executor. Its rejection is lost and the returned promise never settles. | `getWallets` rejects | `requestAccounts` rejects with "Failed to connect to Mask Network." | not executed | WalletProvider.RequestAccountsAsWritten | WalletProvider.RequestAccounts |
| packages/mask/src/extension/background-script/EthereumServices/composer.ts:16-20 | `fn` is read off the middleware object and called as a plain function, so `this` is undefined inside the interceptor's and the watcher's `fn` | an eth_sign request through the MaskWallet interceptor reaches `this.getPrivateKey` and throws a TypeError; an eth_getTransactionReceipt request through the watcher fails on `this.watchTransaction` inside the `try` and is answered with an empty response | `fn` runs as a method of its middleware, with `this` bound | not executed | Interceptor.UnboundNeverSigns, Interceptor.MaskWallet.FnUnbound, TxWatcher.TransactionWatcher.FnUnbound | Interceptor.Intercept, Interceptor.MaskWallet.Fn, TxWatcher.TransactionWatcher.Fn |
| packages/mask/src/extension/background-script/EthereumServices/request.ts:30-32 | the terminal calls `context.write`, which `RequestContext` (composer.ts:41-116) does not define. The call throws in the `try`, and again in the `catch`, so the terminal rejects without writing. The same holds for `context.end` (middlewares/TransactionWatcher.ts:244) and `context.abort`. | any request that reaches the terminal, under either reading of `dispatch` | `write` sets the response once and the request settles with it | not executed | Request.SendRequestWriteMissingHangs | Request.SendRequestSettles, Types.WriteOnce |
