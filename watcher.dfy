/**
 * The `TransactionWatcher` middleware: it tracks submitted transactions per
 * chain, polls their receipts on a single timer, reconciles them with the
 * latest transactions an explorer reports for each sender, and answers
 * `eth_getTransactionReceipt` from its cache.
 *
 * One polling round (`check`) is specified by pure functions over one chain's
 * table: prune the unwatched items, decrement the limits of the watched ones,
 * refresh missing receipts, reconcile each sender's latest transactions. The
 * collaborators (receipt lookups, the explorer, the wallet database, the
 * transaction helpers) are the oracles of `Oracles`.
 */
module TxWatcher {
  import opened Values
  import opened Payload
  import opened Context
  import opened TxStorage

  /** `TransactionWatcher.CHECK_TIMES`: the limits a new item starts with. */
  const CHECK_TIMES := 30
  /** `TransactionWatcher.CHECK_DELAY`, in milliseconds. */
  const CHECK_DELAY := 30000
  /** `TransactionWatcher.CHECK_LATEST_SIZE`: how many latest transactions are asked of the explorer. */
  const CHECK_LATEST_SIZE := 5

  /** A transaction reported by the explorer. */
  datatype Latest = Latest(hash: string, from: Value, nonce: Value)

  /** The collaborators one polling round of the current chain consults. */
  datatype Oracles = Oracles(
    receipt: string -> Value,               // getTransactionReceipt: the receipt, or Null (it never throws)
    latest: string -> Option<seq<Latest>>,  // Explorer.getLatestTransactions: None when it throws
    replaced: (string, string) -> bool,     // WalletRPC.replaceRecentTransaction succeeded
    transactionId: Latest -> Value,         // helpers.getTransactionId
    signatureId: Payload -> Value,          // helpers.getPayloadId
    toPayload: Latest -> Option<Payload>,   // helpers.toPayload
    sameAddress: (Value, Value) -> bool)    // isSameAddress

  // ---------------------------------------------------------------------
  // Watch and unwatch

  /** `watchTransaction`'s table update: a known hash is left alone, a new one starts a fresh item. */
  function Watch(es: seq<Entry>, hash: string, payload: Option<Payload>, now: int): (r: seq<Entry>)
    ensures hash in Keys(es) ==> r == es
    ensures hash !in Keys(es) ==> r == Put(es, hash, Item(now, CHECK_TIMES, payload, Some(Null)))
  {
    if Get(es, hash).Some? then es else Put(es, hash, Item(now, CHECK_TIMES, payload, Some(Null)))
  }

  /** Watching twice is watching once. */
  lemma WatchIdempotent(es: seq<Entry>, hash: string, payload: Option<Payload>, now: int, p2: Option<Payload>, later: int)
    ensures Watch(Watch(es, hash, payload, now), hash, p2, later) == Watch(es, hash, payload, now)
    ensures Get(Watch(es, hash, payload, now), hash).Some?
    ensures forall h :: h != hash ==> Get(Watch(es, hash, payload, now), h) == Get(es, h)
  {
  }

  // ---------------------------------------------------------------------
  // A tick: prune, then decrement the limits

  /** Removes the given entries' keys, one after another. */
  function RemoveAll(es: seq<Entry>, gone: seq<Entry>): seq<Entry>
    decreases |gone|
  {
    if gone == [] then es else Delete(RemoveAll(es, gone[..|gone| - 1]), gone[|gone| - 1].hash)
  }

  /** The `getUnwatched(...).forEach(unwatchTransaction)` step. */
  function Pruned(es: seq<Entry>): seq<Entry> {
    RemoveAll(es, Unwatched(es))
  }

  /** `Math.max(0, limits - 1)`. */
  function DecLimits(it: Item): (r: Item)
    ensures r.limits >= 0 && (it.limits >= 0 ==> r.limits <= it.limits)
    ensures r == it.(limits := r.limits)
  {
    it.(limits := if it.limits - 1 > 0 then it.limits - 1 else 0)
  }

  function DecOpt(it: Option<Item>): Option<Item> {
    match it
    case None => None
    case Some(i) => Some(DecLimits(i))
  }

  /** Sets each snapshot item back with its limits decremented. */
  function DecrementAll(es: seq<Entry>, snap: seq<Entry>): seq<Entry>
    decreases |snap|
  {
    if snap == [] then es
    else
      var e := snap[|snap| - 1];
      Put(DecrementAll(es, snap[..|snap| - 1]), e.hash, DecLimits(e.item))
  }

  /** The unwatch and limits steps of `check`. */
  function Tick(es: seq<Entry>): seq<Entry> {
    var p := Pruned(es);
    DecrementAll(p, Watched(p))
  }

  lemma {:induction false} EntryGet(es: seq<Entry>, e: Entry)
    requires UniqueKeys(es) && e in es
    ensures Get(es, e.hash) == Some(e.item)
    decreases |es|
  {
    if es[0] != e {
      UniqueTail(es);
      assert e in es[1..];
      EntryGet(es[1..], e);
    }
  }

  lemma RemoveAllStep(es: seq<Entry>, gone: seq<Entry>, i: nat)
    requires i < |gone|
    ensures RemoveAll(es, gone[..i + 1]) == Delete(RemoveAll(es, gone[..i]), gone[i].hash)
  {
    assert gone[..i + 1][..i] == gone[..i];
  }

  lemma DecrementAllStep(es: seq<Entry>, snap: seq<Entry>, i: nat)
    requires i < |snap|
    ensures DecrementAll(es, snap[..i + 1]) == Put(DecrementAll(es, snap[..i]), snap[i].hash, DecLimits(snap[i].item))
  {
    assert snap[..i + 1][..i] == snap[..i];
  }

  lemma RefreshAllStep(o: Oracles, es: seq<Entry>, snap: seq<Entry>, i: nat)
    requires i < |snap|
    ensures RefreshAll(o, es, snap[..i + 1]) == RefreshOne(o, RefreshAll(o, es, snap[..i]), snap[i])
  {
    assert snap[..i + 1][..i] == snap[..i];
  }

  lemma {:induction false} RemoveAllSpec(es: seq<Entry>, gone: seq<Entry>)
    requires UniqueKeys(es)
    ensures UniqueKeys(RemoveAll(es, gone))
    ensures forall h :: Get(RemoveAll(es, gone), h) == if h in Keys(gone) then None else Get(es, h)
    decreases |gone|
  {
    if gone != [] {
      var init := gone[..|gone| - 1];
      var last := gone[|gone| - 1].hash;
      RemoveAllSpec(es, init);
      KeysSnoc(gone);
      var r := RemoveAll(es, init);
      DeleteUnique(r, last);
      forall h ensures Get(RemoveAll(es, gone), h) == if h in Keys(gone) then None else Get(es, h) {
        if h != last {
          assert Get(RemoveAll(es, gone), h) == Get(r, h);
        }
      }
    }
  }

  lemma {:induction false} RemoveAllSize(es: seq<Entry>, gone: seq<Entry>)
    requires UniqueKeys(es) && UniqueKeys(gone)
    requires forall e :: e in gone ==> e.hash in Keys(es)
    ensures |RemoveAll(es, gone)| == |es| - |gone|
    decreases |gone|
  {
    if gone != [] {
      var init := gone[..|gone| - 1];
      var last := gone[|gone| - 1];
      assert UniqueKeys(init);
      RemoveAllSize(es, init);
      RemoveAllSpec(es, init);
      assert last.hash !in Keys(init) by {
        forall i | 0 <= i < |init| ensures Keys(init)[i] != last.hash {
          assert init[i] == gone[i];
        }
      }
      assert Get(RemoveAll(es, init), last.hash) == Get(es, last.hash);
    }
  }

  /** The keys of a non-empty snapshot: those of all but its last entry, and the last one's. */
  lemma KeysSnoc(snap: seq<Entry>)
    requires snap != []
    ensures forall h :: h in Keys(snap) <==> h in Keys(snap[..|snap| - 1]) || h == snap[|snap| - 1].hash
  {
    var init, last := snap[..|snap| - 1], snap[|snap| - 1];
    assert snap == init + [last];
    KeysAppend(init, [last]);
    assert Keys([last]) == [last.hash];
    assert Keys(snap) == Keys(init) + [last.hash];
  }

  /** Dropping the last entry of a snapshot with distinct keys. */
  lemma UniqueInit(snap: seq<Entry>)
    requires snap != [] && UniqueKeys(snap)
    ensures UniqueKeys(snap[..|snap| - 1]) && snap[|snap| - 1].hash !in Keys(snap[..|snap| - 1])
    ensures forall x :: x in snap[..|snap| - 1] ==> x in snap
  {
    var init := snap[..|snap| - 1];
    forall i | 0 <= i < |init| ensures Keys(init)[i] != snap[|snap| - 1].hash {
      assert init[i] == snap[i];
    }
  }

  lemma {:induction false} DecrementAllSpec(es: seq<Entry>, snap: seq<Entry>)
    requires UniqueKeys(es) && UniqueKeys(snap) && forall e :: e in snap ==> e in es
    ensures UniqueKeys(DecrementAll(es, snap)) && Keys(DecrementAll(es, snap)) == Keys(es)
    ensures forall h :: Get(DecrementAll(es, snap), h) == if h in Keys(snap) then DecOpt(Get(es, h)) else Get(es, h)
    decreases |snap|
  {
    if snap != [] {
      var init := snap[..|snap| - 1];
      var e := snap[|snap| - 1];
      UniqueInit(snap);
      KeysSnoc(snap);
      DecrementAllSpec(es, init);
      var d := DecrementAll(es, init);
      PutUnique(d, e.hash, DecLimits(e.item));
      EntryGet(es, e);
      InKeys(e, es);
      forall h ensures Get(DecrementAll(es, snap), h) == if h in Keys(snap) then DecOpt(Get(es, h)) else Get(es, h) {
        if h != e.hash {
          assert Get(DecrementAll(es, snap), h) == Get(d, h);
        }
      }
    }
  }

  /** The unwatched items of a table with distinct keys are distinct keys of the table. */
  lemma UnwatchedKeys(es: seq<Entry>)
    requires UniqueKeys(es)
    ensures UniqueKeys(Unwatched(es)) && forall e :: e in Unwatched(es) ==> e.hash in Keys(es) && e in es
  {
    var s := SortByAt(es);
    SortKeys(es);
    var m := Min(MAX_ITEM_SIZE, |es|);
    forall i, j | 0 <= i < j < |Unwatched(es)| ensures Unwatched(es)[i].hash != Unwatched(es)[j].hash {
      assert Unwatched(es)[i] == s[m + i] && Unwatched(es)[j] == s[m + j];
    }
    forall e | e in Unwatched(es) ensures e.hash in Keys(es) && e in es {
      assert e in s;
      assert e in multiset(s);
      InKeys(e, es);
    }
  }

  /** A table of at most 40 items is watched entirely. */
  lemma SmallWatchedAll(es: seq<Entry>)
    requires UniqueKeys(es) && |es| <= MAX_ITEM_SIZE
    ensures Watched(es) == SortByAt(es) && UniqueKeys(Watched(es))
    ensures forall e :: e in Watched(es) ==> e in es
    ensures forall h :: h in Keys(Watched(es)) <==> h in Keys(es)
  {
    SortKeys(es);
    assert SortByAt(es)[..|es|] == SortByAt(es);
    forall e | e in Watched(es) ensures e in es {
      assert e in multiset(SortByAt(es));
    }
  }

  /**
   * A tick removes exactly the unwatched items, leaves at most 40, and sets
   * every remaining item's limits to `max(0, limits - 1)`.
   */
  lemma TickSpec(es: seq<Entry>)
    requires UniqueKeys(es)
    ensures UniqueKeys(Tick(es)) && |Tick(es)| == Min(MAX_ITEM_SIZE, |es|)
    ensures forall h :: Get(Tick(es), h) == if h in Keys(Unwatched(es)) then None else DecOpt(Get(es, h))
  {
    var p := Pruned(es);
    UnwatchedKeys(es);
    RemoveAllSpec(es, Unwatched(es));
    RemoveAllSize(es, Unwatched(es));
    WatchedSplit(es);
    assert |p| <= MAX_ITEM_SIZE;
    SmallWatchedAll(p);
    DecrementAllSpec(p, Watched(p));
    forall h ensures Get(Tick(es), h) == if h in Keys(Unwatched(es)) then None else DecOpt(Get(es, h)) {
      if h in Keys(p) {
        assert h in Keys(Watched(p));
      } else {
        assert Get(p, h) == None;
      }
    }
  }

  /** Limits never increase, and never go below zero, across a tick. */
  lemma TickLimitsNeverIncrease(es: seq<Entry>, h: string)
    requires UniqueKeys(es) && Get(Tick(es), h).Some?
    ensures Get(es, h).Some? && Get(Tick(es), h).value.limits >= 0
    ensures Get(es, h).value.limits >= 0 ==> Get(Tick(es), h).value.limits <= Get(es, h).value.limits
  {
    TickSpec(es);
  }

  // ---------------------------------------------------------------------
  // `checkReceipt`

  /** The receipt slot holds a promise of a truthy receipt. */
  predicate HasReceipt(it: Option<Item>) {
    it.Some? && it.value.receipt.Some? && Truthy(it.value.receipt.value)
  }

  /** For each snapshot item whose current receipt is not truthy, store a fresh lookup. */
  function RefreshAll(o: Oracles, es: seq<Entry>, snap: seq<Entry>): seq<Entry>
    decreases |snap|
  {
    if snap == [] then es
    else
      RefreshOne(o, RefreshAll(o, es, snap[..|snap| - 1]), snap[|snap| - 1])
  }

  /** One item of `checkReceipt`: a missing receipt is looked up again. */
  function RefreshOne(o: Oracles, es: seq<Entry>, e: Entry): seq<Entry> {
    if HasReceipt(Get(es, e.hash)) then es else Put(es, e.hash, e.item.(receipt := Some(o.receipt(e.hash))))
  }

  function Refreshed(o: Oracles, h: string, it: Option<Item>): Option<Item> {
    if it.Some? && !HasReceipt(it) then Some(it.value.(receipt := Some(o.receipt(h)))) else it
  }

  /**
   * `checkReceipt` over a snapshot of the table's own items: an item with a
   * truthy receipt is kept, every other one gets a fresh lookup; no key is
   * added or removed.
   */
  lemma {:induction false} RefreshAllSpec(o: Oracles, es: seq<Entry>, snap: seq<Entry>)
    requires UniqueKeys(es) && UniqueKeys(snap) && forall e :: e in snap ==> e in es
    ensures UniqueKeys(RefreshAll(o, es, snap)) && Keys(RefreshAll(o, es, snap)) == Keys(es)
    ensures forall h :: Get(RefreshAll(o, es, snap), h) == if h in Keys(snap) then Refreshed(o, h, Get(es, h)) else Get(es, h)
    decreases |snap|
  {
    if snap != [] {
      var init := snap[..|snap| - 1];
      var e := snap[|snap| - 1];
      UniqueInit(snap);
      KeysSnoc(snap);
      RefreshAllSpec(o, es, init);
      var r := RefreshAll(o, es, init);
      PutUnique(r, e.hash, e.item.(receipt := Some(o.receipt(e.hash))));
      EntryGet(es, e);
      InKeys(e, es);
      assert Get(r, e.hash) == Get(es, e.hash);
      forall h ensures Get(RefreshAll(o, es, snap), h) == if h in Keys(snap) then Refreshed(o, h, Get(es, h)) else Get(es, h) {
        if h != e.hash {
          assert Get(RefreshAll(o, es, snap), h) == Get(r, h);
        }
      }
    }
  }

  // ---------------------------------------------------------------------
  // `checkAccount`: reconciliation with the explorer

  /** The `find` callback: same hash, else same signature id, else same sender and nonce. */
  predicate Matches(o: Oracles, l: Latest, e: Entry) {
    || l.hash == e.hash
    || (e.item.payload.Some? &&
        (|| o.transactionId(l) == o.signatureId(e.item.payload.value)
         || (var config := GetPayloadConfig(e.item.payload.value);
             Truthy(config) && o.sameAddress(l.from, Field(config, "from")) && l.nonce == Field(config, "nonce"))))
  }

  /** `watchedTransactions.find(...)`: the index of the first match. */
  function FindMatch(o: Oracles, l: Latest, snap: seq<Entry>): (r: Option<nat>)
    ensures r.Some? ==> r.value < |snap| && Matches(o, l, snap[r.value])
    ensures r.Some? ==> forall j :: 0 <= j < r.value ==> !Matches(o, l, snap[j])
    ensures r.None? ==> forall j :: 0 <= j < |snap| ==> !Matches(o, l, snap[j])
  {
    FindFrom(o, l, snap, 0)
  }

  function FindFrom(o: Oracles, l: Latest, snap: seq<Entry>, i: nat): (r: Option<nat>)
    requires i <= |snap|
    ensures r.Some? ==> i <= r.value < |snap| && Matches(o, l, snap[r.value])
    ensures r.Some? ==> forall j :: i <= j < r.value ==> !Matches(o, l, snap[j])
    ensures r.None? ==> forall j :: i <= j < |snap| ==> !Matches(o, l, snap[j])
    decreases |snap| - i
  {
    if i == |snap| then None
    else if Matches(o, l, snap[i]) then Some(i)
    else FindFrom(o, l, snap, i + 1)
  }

  /** The match is rewritten: it exists, has a payload and a non-empty hash other than the latest one. */
  predicate Rewrites(o: Oracles, snap: seq<Entry>, l: Latest) {
    var k := FindMatch(o, l, snap);
    k.Some? && snap[k.value].hash != "" && snap[k.value].item.payload.Some? && snap[k.value].hash != l.hash
  }

  /** The item stored under the latest hash: `at` and `limits` kept, payload and receipt replaced. */
  function Moved(o: Oracles, w: Entry, l: Latest): Item {
    w.item.(payload := o.toPayload(l), receipt := Some(o.receipt(l.hash)))
  }

  /** One iteration of the loop over the latest transactions; `false` when the database update throws. */
  function ReconcileOne(o: Oracles, es: seq<Entry>, snap: seq<Entry>, l: Latest): (seq<Entry>, bool) {
    if !Rewrites(o, snap, l) then (es, true)
    else
      var w := snap[FindMatch(o, l, snap).value];
      if !o.replaced(w.hash, l.hash) then (es, false)
      else (Put(Delete(es, w.hash), l.hash, Moved(o, w, l)), true)
  }

  /**
   * Reconciling one latest transaction: without a rewrite nothing changes;
   * otherwise, once the database accepts the replacement, the old key is gone
   * and the latest hash holds the old item's `at` and `limits`, and every
   * other key is untouched.
   */
  lemma ReconcileOneSpec(o: Oracles, es: seq<Entry>, snap: seq<Entry>, l: Latest)
    requires UniqueKeys(es)
    ensures UniqueKeys(ReconcileOne(o, es, snap, l).0)
    ensures !Rewrites(o, snap, l) ==> ReconcileOne(o, es, snap, l) == (es, true)
    ensures Rewrites(o, snap, l) ==>
      var w := snap[FindMatch(o, l, snap).value];
      var r := ReconcileOne(o, es, snap, l);
      && (!o.replaced(w.hash, l.hash) ==> r == (es, false))
      && (o.replaced(w.hash, l.hash) ==>
            && r.1
            && Get(r.0, w.hash) == None
            && Get(r.0, l.hash) == Some(Moved(o, w, l))
            && Get(r.0, l.hash).value.at == w.item.at
            && Get(r.0, l.hash).value.limits == w.item.limits
            && forall h :: h != w.hash && h != l.hash ==> Get(r.0, h) == Get(es, h))
  {
    if Rewrites(o, snap, l) {
      var w := snap[FindMatch(o, l, snap).value];
      DeleteUnique(es, w.hash);
      PutUnique(Delete(es, w.hash), l.hash, Moved(o, w, l));
    }
  }

  /** The loop over the latest transactions, stopping at the first failed database update. */
  function ReconcileLatest(o: Oracles, es: seq<Entry>, snap: seq<Entry>, ls: seq<Latest>): (seq<Entry>, bool)
    decreases |ls|
  {
    if ls == [] then (es, true)
    else
      var r := ReconcileLatest(o, es, snap, ls[..|ls| - 1]);
      if !r.1 then r else ReconcileOne(o, r.0, snap, ls[|ls| - 1])
  }

  /** `checkAccount`: the snapshot is the watched items when it starts. */
  function AccountChecked(o: Oracles, es: seq<Entry>, account: string): (seq<Entry>, bool) {
    match o.latest(account)
    case None => (es, false)
    case Some(ls) => ReconcileLatest(o, es, Watched(es), ls)
  }

  /** `for (const account of accounts) await checkAccount(...)`, stopped by the first throw. */
  function CheckAccounts(o: Oracles, es: seq<Entry>, accounts: seq<string>): (seq<Entry>, bool)
    decreases |accounts|
  {
    if accounts == [] then (es, true)
    else
      var r := CheckAccounts(o, es, accounts[..|accounts| - 1]);
      if !r.1 then r else AccountChecked(o, r.0, accounts[|accounts| - 1])
  }

  lemma {:induction false} ReconcileLatestUnique(o: Oracles, es: seq<Entry>, snap: seq<Entry>, ls: seq<Latest>)
    requires UniqueKeys(es)
    ensures UniqueKeys(ReconcileLatest(o, es, snap, ls).0)
    decreases |ls|
  {
    if ls != [] {
      ReconcileLatestUnique(o, es, snap, ls[..|ls| - 1]);
      ReconcileOneSpec(o, ReconcileLatest(o, es, snap, ls[..|ls| - 1]).0, snap, ls[|ls| - 1]);
    }
  }

  /** Once a database update has thrown, the rest of the latest transactions change nothing. */
  /** One more latest transaction after a loop that has not stopped. */
  lemma ReconcileLatestStep(o: Oracles, es: seq<Entry>, snap: seq<Entry>, ls: seq<Latest>, i: nat)
    requires i < |ls| && ReconcileLatest(o, es, snap, ls[..i]).1
    ensures ReconcileLatest(o, es, snap, ls[..i + 1]) == ReconcileOne(o, ReconcileLatest(o, es, snap, ls[..i]).0, snap, ls[i])
  {
    assert ls[..i + 1][..i] == ls[..i];
  }

  lemma {:induction false} ReconcileLatestStops(o: Oracles, es: seq<Entry>, snap: seq<Entry>, ls: seq<Latest>, i: nat)
    requires 0 < i <= |ls| && !ReconcileLatest(o, es, snap, ls[..i]).1
    ensures ReconcileLatest(o, es, snap, ls) == ReconcileLatest(o, es, snap, ls[..i])
    decreases |ls| - i
  {
    if i < |ls| {
      assert ls[..i + 1][..i] == ls[..i];
      ReconcileLatestStops(o, es, snap, ls, i + 1);
    } else {
      assert ls[..i] == ls;
    }
  }

  lemma {:induction false} CheckAccountsUnique(o: Oracles, es: seq<Entry>, accounts: seq<string>)
    requires UniqueKeys(es)
    ensures UniqueKeys(CheckAccounts(o, es, accounts).0)
    decreases |accounts|
  {
    if accounts != [] {
      var init := accounts[..|accounts| - 1];
      CheckAccountsUnique(o, es, init);
      var r := CheckAccounts(o, es, init);
      var last := accounts[|accounts| - 1];
      if r.1 && o.latest(last).Some? {
        ReconcileLatestUnique(o, r.0, Watched(r.0), o.latest(last).value);
      }
    }
  }

  // ---------------------------------------------------------------------
  // A whole polling round

  /** Every watched item holds a promise of a truthy receipt. */
  predicate AllFound(es: seq<Entry>) {
    forall i :: 0 <= i < |Watched(es)| ==> HasReceipt(Some(Watched(es)[i].item))
  }

  /** The table after one polling round; `AllFound` of it says whether no next round is armed. */
  function Round(o: Oracles, es: seq<Entry>): seq<Entry> {
    ReconcileWatched(o, Receipts(o, Tick(es)))
  }

  /** `checkReceipt` over the watched items. */
  function Receipts(o: Oracles, es: seq<Entry>): seq<Entry> {
    RefreshAll(o, es, Watched(es))
  }

  /** `getWatchedAccounts`, then `checkAccount` for each, skipped when an item has no sender. */
  function ReconcileWatched(o: Oracles, es: seq<Entry>): seq<Entry> {
    match WatchedAccounts(es)
    case None => es
    case Some(accounts) => CheckAccounts(o, es, accounts).0
  }

  /**
   * A polling round keeps the keys distinct; before reconciliation, the table
   * holds exactly the watched items, with decremented limits and every
   * missing receipt looked up again.
   */
  lemma RoundSpec(o: Oracles, es: seq<Entry>)
    requires UniqueKeys(es)
    ensures UniqueKeys(Round(o, es))
    ensures var r := Receipts(o, Tick(es));
      && |r| == Min(MAX_ITEM_SIZE, |es|)
      && forall h :: Get(r, h) == if h in Keys(Unwatched(es)) then None else Refreshed(o, h, DecOpt(Get(es, h)))
  {
    var t := Tick(es);
    TickSpec(es);
    SmallWatchedAll(t);
    RefreshAllSpec(o, t, Watched(t));
    var r := Receipts(o, t);
    forall h ensures Get(r, h) == if h in Keys(Unwatched(es)) then None else Refreshed(o, h, DecOpt(Get(es, h))) {
      if h !in Keys(t) {
        assert Get(t, h) == None;
      }
    }
    match WatchedAccounts(r)
    case None =>
    case Some(accounts) => CheckAccountsUnique(o, r, accounts);
  }

  // ---------------------------------------------------------------------
  // The single timer

  /** The `timer` field, the timers armed and not yet fired or cleared, and the next timer handle. */
  datatype Sched = Sched(timer: Option<nat>, pending: set<nat>, handles: nat)

  /** At most one timer is armed, and it is the one in the `timer` field. */
  predicate SingleTimer(s: Sched) {
    forall h :: h in s.pending ==> s.timer == Some(h) && h < s.handles
  }

  /** `stopCheck`. */
  function Stopped(s: Sched): (r: Sched)
    ensures r.timer == None && r.handles == s.handles
    ensures s.timer.Some? ==> r.pending == s.pending - {s.timer.value}
    ensures s.timer.None? ==> r.pending == s.pending
  {
    if s.timer.Some? then Sched(None, s.pending - {s.timer.value}, s.handles) else s.(timer := None)
  }

  /** `startCheck(force)`. */
  function Started(s: Sched, force: bool): (r: Sched)
    ensures (force || s.timer.None?) ==> r.timer == Some(s.handles) && r.handles == s.handles + 1
    ensures !force && s.timer.Some? ==> r == s
  {
    var t := if force then Stopped(s) else s;
    if t.timer.None? then Sched(Some(t.handles), t.pending + {t.handles}, t.handles + 1) else t
  }

  /** The bound `check` firing: the timer is spent, `check` stops it, and re-arms it unless `done`. */
  function Fired(s: Sched, h: nat, done: bool): Sched {
    var t := Stopped(s.(pending := s.pending - {h}));
    if done then t else Started(t, true)
  }

  /** The timer firing as written: `check` runs unbound and throws before its first statement. */
  function FiredAsWritten(s: Sched, h: nat): Sched {
    s.(pending := s.pending - {h})
  }

  /** Every scheduler step keeps a single armed timer. */
  lemma SchedulerKeepsSingleTimer(s: Sched, force: bool, h: nat, done: bool)
    requires SingleTimer(s)
    ensures SingleTimer(Stopped(s)) && SingleTimer(Started(s, force))
    ensures SingleTimer(Fired(s, h, done)) && SingleTimer(FiredAsWritten(s, h))
  {
  }

  /** Bound, a firing that did not find every receipt leaves exactly one timer armed. */
  lemma FiredKeepsPolling(s: Sched, h: nat)
    requires SingleTimer(s) && h in s.pending
    ensures Fired(s, h, false).pending == {s.handles} && Fired(s, h, false).timer == Some(s.handles)
  {
  }

  /** `k` further calls of `startCheck(false)`, as each `watchTransaction` makes. */
  function WatchedAgain(s: Sched, k: nat): Sched {
    if k == 0 then s else Started(WatchedAgain(s, k - 1), false)
  }

  /**
   * As written, once the timer fires, the `timer` field keeps its spent handle:
   * no later `watchTransaction` arms a timer again, so no polling round ever runs.
   */
  lemma {:induction false} AsWrittenPollingStops(s: Sched, h: nat, k: nat)
    requires SingleTimer(s) && h in s.pending
    ensures WatchedAgain(FiredAsWritten(s, h), k) == FiredAsWritten(s, h)
    ensures FiredAsWritten(s, h).pending == {} && FiredAsWritten(s, h).timer == Some(h)
    decreases k
  {
    if k > 0 {
      AsWrittenPollingStops(s, h, k - 1);
    }
  }

  // ---------------------------------------------------------------------
  // The mutable object

  class TransactionWatcher {
    const storage: Storage
    var timer: Option<nat>
    /** Timers armed and neither fired nor cleared. */
    var pending: set<nat>
    /** The handle the next `setTimeout` returns. */
    var handles: nat

    ghost predicate Valid()
      reads this, storage
    {
      storage.Valid() && SingleTimer(Timers())
    }

    function Timers(): Sched
      reads this
    {
      Sched(timer, pending, handles)
    }

    constructor ()
      ensures Valid() && fresh(storage) && storage.chains == map[] && timer == None && pending == {}
    {
      storage := new Storage();
      timer := None;
      pending := {};
      handles := 0;
    }

    /** `stopCheck`. */
    method StopCheck()
      modifies this
      ensures Timers() == Stopped(old(Timers()))
    {
      if timer.Some? {
        pending := pending - {timer.value};
      }
      timer := None;
    }

    /** `startCheck(force)`: arms a timer only when none is set. */
    method StartCheck(force: bool)
      modifies this
      ensures Timers() == Started(old(Timers()), force)
    {
      if force {
        StopCheck();
      }
      if timer.None? {
        timer := Some(handles);
        pending := pending + {handles};
        handles := handles + 1;
      }
    }

    /** `getReceipt`: the cached receipt, or null. */
    function GetReceipt(chainId: int, hash: string): (r: Value)
      reads this, storage
      ensures storage.GetItem(chainId, hash).None? ==> r == Null
      ensures storage.GetItem(chainId, hash).Some? && storage.GetItem(chainId, hash).value.receipt.Some? ==>
        r == storage.GetItem(chainId, hash).value.receipt.value
    {
      match storage.GetItem(chainId, hash)
      case None => Null
      case Some(it) => it.receipt.GetOr(Null)
    }

    /** `watchTransaction(chainId, hash, payload)` at time `now`. */
    method WatchTransaction(chainId: int, hash: string, payload: Option<Payload>, now: int)
      requires Valid()
      modifies this, storage
      ensures Valid()
      ensures storage.chains == old(storage.chains)[chainId := Watch(old(storage.Entries(chainId)), hash, payload, now)]
      ensures Timers() == Started(old(Timers()), false)
    {
      if !storage.HasItem(chainId, hash) {
        storage.SetItem(chainId, hash, Item(now, CHECK_TIMES, payload, Some(Null)));
      } else {
        storage.EnsureChain(chainId);
      }
      StartCheck(false);
    }

    /** `unwatchTransaction`: removes only that key of that chain. */
    method UnwatchTransaction(chainId: int, hash: string)
      requires Valid()
      modifies storage
      ensures Valid()
      ensures storage.chains == old(storage.chains)[chainId := Delete(old(storage.Entries(chainId)), hash)]
    {
      storage.RemoveItem(chainId, hash);
    }

    /** `getUnwatched(chainId).forEach(unwatchTransaction)`. */
    method Prune(chainId: int)
      requires storage.Valid()
      modifies storage
      ensures storage.Valid()
      ensures storage.chains == old(storage.chains)[chainId := Pruned(old(storage.Entries(chainId)))]
    {
      ghost var es := storage.Entries(chainId);
      storage.EnsureChain(chainId);
      RemoveEach(chainId, storage.GetUnwatched(chainId));
      UpdateTwice(old(storage.chains), chainId, es, Pruned(es));
    }

    /** `gone.forEach(unwatchTransaction)` on one chain. */
    method RemoveEach(chainId: int, gone: seq<Entry>)
      requires storage.Valid() && chainId in storage.chains
      modifies storage
      ensures storage.Valid()
      ensures storage.chains == old(storage.chains)[chainId := RemoveAll(old(storage.chains[chainId]), gone)]
    {
      ghost var es := storage.chains[chainId];
      var i := 0;
      while i < |gone|
        invariant 0 <= i <= |gone| && storage.Valid()
        invariant storage.chains == old(storage.chains)[chainId := RemoveAll(es, gone[..i])]
      {
        RemoveAllStep(es, gone, i);
        storage.RemoveItem(chainId, gone[i].hash);
        UpdateTwice(old(storage.chains), chainId, RemoveAll(es, gone[..i]), RemoveAll(es, gone[..i + 1]));
        i := i + 1;
      }
      assert gone[..i] == gone;
    }

    /** `getWatched(chainId)`, each set back with `limits` decremented. */
    method DecrementLimits(chainId: int)
      requires storage.Valid()
      modifies storage
      ensures storage.Valid()
      ensures var es := old(storage.Entries(chainId));
        storage.chains == old(storage.chains)[chainId := DecrementAll(es, Watched(es))]
    {
      storage.EnsureChain(chainId);
      var es := storage.Entries(chainId);
      var snap := storage.GetWatched(chainId);
      var i := 0;
      while i < |snap|
        invariant 0 <= i <= |snap| && storage.Valid()
        invariant storage.chains == old(storage.chains)[chainId := DecrementAll(es, snap[..i])]
      {
        DecrementAllStep(es, snap, i);
        storage.SetItem(chainId, snap[i].hash, DecLimits(snap[i].item));
        UpdateTwice(old(storage.chains), chainId, DecrementAll(es, snap[..i]), DecrementAll(es, snap[..i + 1]));
        i := i + 1;
      }
      assert snap[..i] == snap;
    }

    /** `checkReceipt`. */
    method CheckReceipt(chainId: int, o: Oracles)
      requires storage.Valid()
      modifies storage
      ensures storage.Valid()
      ensures var es := old(storage.Entries(chainId));
        storage.chains == old(storage.chains)[chainId := Receipts(o, es)]
    {
      ghost var es := storage.Entries(chainId);
      storage.EnsureChain(chainId);
      RefreshEach(chainId, storage.GetWatched(chainId), o);
      UpdateTwice(old(storage.chains), chainId, es, Receipts(o, es));
    }

    /** The loop of `checkReceipt` over a snapshot of one chain's items. */
    method RefreshEach(chainId: int, snap: seq<Entry>, o: Oracles)
      requires storage.Valid() && chainId in storage.chains
      modifies storage
      ensures storage.Valid()
      ensures storage.chains == old(storage.chains)[chainId := RefreshAll(o, old(storage.chains[chainId]), snap)]
    {
      ghost var es := storage.chains[chainId];
      var i := 0;
      while i < |snap|
        invariant 0 <= i <= |snap| && storage.Valid()
        invariant chainId in storage.chains && storage.chains[chainId] == RefreshAll(o, es, snap[..i])
        invariant storage.chains == old(storage.chains)[chainId := storage.chains[chainId]]
      {
        RefreshAllStep(o, es, snap, i);
        ghost var r := storage.chains[chainId];
        RefreshItem(chainId, snap[i], o);
        UpdateTwice(old(storage.chains), chainId, r, RefreshOne(o, r, snap[i]));
        i := i + 1;
      }
      assert snap[..i] == snap;
    }

    /** One iteration of `checkReceipt`. */
    method RefreshItem(chainId: int, e: Entry, o: Oracles)
      requires storage.Valid() && chainId in storage.chains
      modifies storage
      ensures storage.Valid() && chainId in storage.chains
      ensures storage.chains == old(storage.chains)[chainId := RefreshOne(o, old(storage.chains[chainId]), e)]
    {
      if !HasReceipt(storage.GetItem(chainId, e.hash)) {
        storage.SetItem(chainId, e.hash, e.item.(receipt := Some(o.receipt(e.hash))));
      }
    }

    /** `checkAccount(chainId, account)`; `ok` is false when it throws. */
    method CheckAccount(chainId: int, account: string, o: Oracles) returns (ok: bool)
      requires storage.Valid()
      modifies storage
      ensures storage.Valid()
      ensures var r := AccountChecked(o, old(storage.Entries(chainId)), account);
        storage.chains == old(storage.chains)[chainId := r.0] && ok == r.1
    {
      ghost var es := storage.Entries(chainId);
      storage.EnsureChain(chainId);
      var snap := storage.GetWatched(chainId);
      var latest := o.latest(account);
      if latest.None? {
        return false;
      }
      ok := ReconcileEach(chainId, snap, latest.value, o);
      UpdateTwice(old(storage.chains), chainId, es, ReconcileLatest(o, es, snap, latest.value).0);
    }

    /** The loop of `checkAccount` over the latest transactions, left at the first throw. */
    method ReconcileEach(chainId: int, snap: seq<Entry>, ls: seq<Latest>, o: Oracles) returns (ok: bool)
      requires storage.Valid() && chainId in storage.chains
      modifies storage
      ensures storage.Valid()
      ensures var r := ReconcileLatest(o, old(storage.chains[chainId]), snap, ls);
        storage.chains == old(storage.chains)[chainId := r.0] && ok == r.1
    {
      ghost var es := storage.chains[chainId];
      var i := 0;
      while i < |ls|
        invariant 0 <= i <= |ls| && storage.Valid() && chainId in storage.chains
        invariant (storage.chains[chainId], true) == ReconcileLatest(o, es, snap, ls[..i])
        invariant storage.chains == old(storage.chains)[chainId := storage.chains[chainId]]
      {
        var l := ls[i];
        ReconcileLatestStep(o, es, snap, ls, i);
        if Rewrites(o, snap, l) {
          var w := snap[FindMatch(o, l, snap).value];
          if !o.replaced(w.hash, l.hash) {
            ReconcileLatestStops(o, es, snap, ls, i + 1);
            return false;
          }
          ghost var before := storage.chains;
          MoveItem(chainId, w, l, o);
          UpdateTwice(old(storage.chains), chainId, before[chainId], storage.chains[chainId]);
        }
        i := i + 1;
      }
      assert ls[..i] == ls;
      ok := true;
    }

    /** The rewrite of `checkAccount`: drop the old key, then store the item under the latest hash. */
    method MoveItem(chainId: int, w: Entry, l: Latest, o: Oracles)
      requires storage.Valid() && chainId in storage.chains
      modifies storage
      ensures storage.Valid() && chainId in storage.chains
      ensures storage.chains ==
        old(storage.chains)[chainId := Put(Delete(old(storage.chains[chainId]), w.hash), l.hash, Moved(o, w, l))]
    {
      ghost var prev := storage.chains[chainId];
      storage.RemoveItem(chainId, w.hash);
      storage.SetItem(chainId, l.hash, Moved(o, w, l));
      UpdateTwice(old(storage.chains), chainId, Delete(prev, w.hash), storage.chains[chainId]);
    }

    /**
     * The bound `check` on the current chain: stop the timer, tick, refresh
     * receipts, reconcile each watched sender, then re-arm unless every
     * watched receipt was found.
     */
    method Check(chainId: int, o: Oracles)
      requires Valid()
      modifies this, storage
      ensures Valid()
      ensures storage.chains == old(storage.chains)[chainId := Round(o, old(storage.Entries(chainId)))]
      ensures Timers() ==
        if AllFound(Round(o, old(storage.Entries(chainId)))) then Stopped(old(Timers()))
        else Started(Stopped(old(Timers())), true)
    {
      ghost var s := Timers();
      StopCheck();
      Poll(chainId, o);
      SchedulerKeepsSingleTimer(Stopped(s), true, 0, false);
      if !AllFound(storage.Entries(chainId)) {
        StartCheck(true);
      }
    }

    /** The storage steps of `check`. */
    method Poll(chainId: int, o: Oracles)
      requires storage.Valid()
      modifies storage
      ensures storage.Valid() && chainId in storage.chains
      ensures storage.chains == old(storage.chains)[chainId := Round(o, old(storage.Entries(chainId)))]
    {
      ghost var es := storage.Entries(chainId);
      TickAndRefresh(chainId, o);
      CheckEachAccount(chainId, o);
      UpdateTwice(old(storage.chains), chainId, Receipts(o, Tick(es)), Round(o, es));
    }

    /** The unwatch, limits and receipt steps of `check`. */
    method TickAndRefresh(chainId: int, o: Oracles)
      requires storage.Valid()
      modifies storage
      ensures storage.Valid() && chainId in storage.chains
      ensures storage.chains == old(storage.chains)[chainId := Receipts(o, Tick(old(storage.Entries(chainId))))]
    {
      ghost var es := storage.Entries(chainId);
      TickChain(chainId);
      CheckReceipt(chainId, o);
      UpdateTwice(old(storage.chains), chainId, Tick(es), Receipts(o, Tick(es)));
    }

    /** The unwatch and limits steps of `check`. */
    method TickChain(chainId: int)
      requires storage.Valid()
      modifies storage
      ensures storage.Valid()
      ensures storage.chains == old(storage.chains)[chainId := Tick(old(storage.Entries(chainId)))]
    {
      ghost var es := storage.Entries(chainId);
      Prune(chainId);
      DecrementLimits(chainId);
      UpdateTwice(old(storage.chains), chainId, Pruned(es), Tick(es));
    }

    /** The accounts step of `check`: every watched sender in turn, until one throws. */
    method CheckEachAccount(chainId: int, o: Oracles)
      requires storage.Valid() && chainId in storage.chains
      modifies storage
      ensures storage.Valid() && chainId in storage.chains
      ensures storage.chains == old(storage.chains)[chainId := ReconcileWatched(o, old(storage.chains[chainId]))]
    {
      var accounts := storage.GetWatchedAccounts(chainId);
      if accounts.Some? {
        var _ := CheckAccountsOf(chainId, accounts.value, o);
      }
    }

    /** `for (const account of accounts) await checkAccount(chainId, account)`; `ok` is false after a throw. */
    method CheckAccountsOf(chainId: int, accounts: seq<string>, o: Oracles) returns (ok: bool)
      requires storage.Valid() && chainId in storage.chains
      modifies storage
      ensures storage.Valid() && chainId in storage.chains
      ensures var r := CheckAccounts(o, old(storage.chains[chainId]), accounts);
        storage.chains == old(storage.chains)[chainId := r.0] && ok == r.1
    {
      ghost var r := storage.chains[chainId];
      var i := 0;
      ok := true;
      while i < |accounts| && ok
        invariant 0 <= i <= |accounts| && storage.Valid() && chainId in storage.chains
        invariant (storage.chains[chainId], ok) == CheckAccounts(o, r, accounts[..i])
        invariant storage.chains == old(storage.chains)[chainId := storage.chains[chainId]]
      {
        CheckAccountsStep(o, r, accounts, i);
        ghost var prev := storage.chains[chainId];
        ok := CheckAccount(chainId, accounts[i], o);
        UpdateTwice(old(storage.chains), chainId, prev, storage.chains[chainId]);
        i := i + 1;
      }
      if ok {
        assert accounts[..i] == accounts;
      } else {
        CheckAccountsStops(o, r, accounts, i);
      }
    }

    /** The timer firing, with `check` bound to the watcher. */
    method Fire(h: nat, chainId: int, o: Oracles)
      requires Valid() && h in pending
      modifies this, storage
      ensures Valid()
      ensures storage.chains == old(storage.chains)[chainId := Round(o, old(storage.Entries(chainId)))]
      ensures Timers() == Fired(old(Timers()), h, AllFound(Round(o, old(storage.Entries(chainId)))))
    {
      pending := pending - {h};
      Check(chainId, o);
    }

    /** The timer firing as written: `check` runs with `this` undefined and throws at once. */
    method FireAsWritten(h: nat)
      requires Valid() && h in pending
      modifies this
      ensures Valid()
      ensures Timers() == FiredAsWritten(old(Timers()), h)
    {
      pending := pending - {h};
    }

    /**
     * `fn(context, next)`; `callsNext` says whether `next()` is awaited. The
     * context's chain id and account, the wallet's recent-transaction lookup
     * (`None` when it throws or finds nothing) and the clock are parameters.
     */
    method Fn(context: RequestContext, chainId: int, account: string, now: int,
              recent: (int, string, string) -> Option<Option<Payload>>) returns (callsNext: bool)
      requires Valid()
      modifies this, storage, context
      ensures Valid()
      ensures var name := old(context.State()).args.rpcMethod;
        var hash := At(old(context.RequestPayload()).params, 0);
        && (name != ETH_GET_TRANSACTION_RECEIPT <==> callsNext)
        && (name == ETH_GET_TRANSACTION_RECEIPT ==>
              if hash.Str? && recent(chainId, account, hash.s).Some? then
                var es := Watch(old(storage.Entries(chainId)), hash.s, recent(chainId, account, hash.s).value, now);
                && storage.chains == old(storage.chains)[chainId := es]
                && Timers() == Started(old(Timers()), false)
                && context.State() == Ended(old(context.State()), GetReceipt(chainId, hash.s))
              else
                && unchanged(this) && storage.chains == old(storage.chains)
                && context.State() == WithResponse(old(context.State()), None, Undefined))
        && (name == MASK_GET_TRANSACTION_RECEIPT ==>
              && context.State() == old(context.State()).(args := old(context.State()).args.(rpcMethod := ETH_GET_TRANSACTION_RECEIPT))
              && unchanged(this) && storage.chains == old(storage.chains))
        && (name != ETH_GET_TRANSACTION_RECEIPT && name != MASK_GET_TRANSACTION_RECEIPT ==>
              unchanged(this) && storage.chains == old(storage.chains) && context.State() == old(context.State()))
    {
      var name := context.requestArguments.rpcMethod;
      if name == ETH_GET_TRANSACTION_RECEIPT {
        var hash := At(context.RequestPayload().params, 0);
        if hash.Str? && recent(chainId, account, hash.s).Some? {
          WatchTransaction(chainId, hash.s, recent(chainId, account, hash.s).value, now);
          context.End(GetReceipt(chainId, hash.s));
        } else {
          context.SetResponse(None, Undefined);
        }
        callsNext := false;
      } else if name == MASK_GET_TRANSACTION_RECEIPT {
        context.SetRequestArguments(context.requestArguments.(rpcMethod := ETH_GET_TRANSACTION_RECEIPT));
        callsNext := true;
      } else {
        callsNext := true;
      }
    }

    /**
     * `fn(context, next)` as the composer calls it, with `this` undefined. For
     * eth_getTransactionReceipt, `this.watchTransaction` throws inside the
     * `try` whatever the wallet's lookup gives, so the request is answered with
     * an empty response and nothing is watched; the other methods behave as in
     * `Fn`. The watcher and its storage are not touched.
     */
    method FnUnbound(context: RequestContext) returns (callsNext: bool)
      modifies context
      ensures var name := old(context.State()).args.rpcMethod;
        && (name != ETH_GET_TRANSACTION_RECEIPT <==> callsNext)
        && (name == ETH_GET_TRANSACTION_RECEIPT ==> context.State() == WithResponse(old(context.State()), None, Undefined))
        && (name == MASK_GET_TRANSACTION_RECEIPT ==>
              context.State() == old(context.State()).(args := old(context.State()).args.(rpcMethod := ETH_GET_TRANSACTION_RECEIPT)))
        && (name != ETH_GET_TRANSACTION_RECEIPT && name != MASK_GET_TRANSACTION_RECEIPT ==>
              context.State() == old(context.State()))
    {
      var name := context.requestArguments.rpcMethod;
      if name == ETH_GET_TRANSACTION_RECEIPT {
        context.SetResponse(None, Undefined);
        callsNext := false;
      } else if name == MASK_GET_TRANSACTION_RECEIPT {
        context.SetRequestArguments(context.requestArguments.(rpcMethod := ETH_GET_TRANSACTION_RECEIPT));
        callsNext := true;
      } else {
        callsNext := true;
      }
    }
  }

  lemma CheckAccountsStep(o: Oracles, es: seq<Entry>, accounts: seq<string>, i: nat)
    requires i < |accounts| && CheckAccounts(o, es, accounts[..i]).1
    ensures CheckAccounts(o, es, accounts[..i + 1]) == AccountChecked(o, CheckAccounts(o, es, accounts[..i]).0, accounts[i])
  {
    assert accounts[..i + 1][..i] == accounts[..i];
  }

  /** Setting a key twice is setting it once, to the second value. */
  lemma UpdateTwice(m: map<int, seq<Entry>>, k: int, a: seq<Entry>, b: seq<Entry>)
    ensures m[k := a][k := b] == m[k := b]
  {
  }

  /** A stopped accounts loop has the state of the last account it checked. */
  lemma {:induction false} CheckAccountsStops(o: Oracles, es: seq<Entry>, accounts: seq<string>, i: nat)
    requires 0 < i <= |accounts| && !CheckAccounts(o, es, accounts[..i]).1
    ensures CheckAccounts(o, es, accounts) == CheckAccounts(o, es, accounts[..i])
    decreases |accounts| - i
  {
    if i < |accounts| {
      assert accounts[..i + 1][..i] == accounts[..i];
      CheckAccountsStops(o, es, accounts, i + 1);
    } else {
      assert accounts[..i] == accounts;
    }
  }
}
