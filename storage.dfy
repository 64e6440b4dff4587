/**
 * The transaction watcher's `Storage`: per chain, a table from transaction
 * hash to a tracked item, kept in insertion order as a JavaScript `Map` keeps
 * its keys. Queries sort the items by submission time, newest first, watch
 * the first 40 and dedupe the senders' addresses case-insensitively.
 */
module TxStorage {
  import opened Values
  import opened Payload

  /** `Storage.MAX_ITEM_SIZE`: how many of the newest items are watched. */
  const MAX_ITEM_SIZE := 40

  /**
   * `StorageItem`. The receipt slot is `None` when it is null, and `Some(v)`
   * when it holds a promise that resolves to `v` (`Null` when no receipt was
   * found). The payload is `None` when the recent-transaction record had none.
   */
  datatype Item = Item(at: int, limits: int, payload: Option<Payload>, receipt: Option<Value>)

  datatype Entry = Entry(hash: string, item: Item)

  // ---------------------------------------------------------------------
  // One chain's table, in insertion order

  function Keys(es: seq<Entry>): (ks: seq<string>)
    ensures |ks| == |es| && forall i :: 0 <= i < |es| ==> ks[i] == es[i].hash
  {
    if es == [] then [] else [es[0].hash] + Keys(es[1..])
  }

  predicate UniqueKeys(es: seq<Entry>) {
    forall i, j :: 0 <= i < j < |es| ==> es[i].hash != es[j].hash
  }

  lemma KeysCons(e: Entry, es: seq<Entry>)
    ensures Keys([e] + es) == [e.hash] + Keys(es)
  {
    assert ([e] + es)[1..] == es;
  }

  /** An entry of a table has its hash among the table's keys. */
  lemma InKeys(e: Entry, es: seq<Entry>)
    requires e in es
    ensures e.hash in Keys(es)
  {
    var j :| 0 <= j < |es| && es[j] == e;
    assert Keys(es)[j] == e.hash;
  }

  /** `map.get(hash)`. */
  function Get(es: seq<Entry>, h: string): (r: Option<Item>)
    ensures r.Some? <==> h in Keys(es)
    ensures r.Some? ==> Entry(h, r.value) in es
  {
    if es == [] then None
    else
      KeysCons(es[0], es[1..]);
      assert es == [es[0]] + es[1..];
      if es[0].hash == h then Some(es[0].item)
      else Get(es[1..], h)
  }

  lemma GetCons(e: Entry, es: seq<Entry>, k: string)
    ensures Get([e] + es, k) == if e.hash == k then Some(e.item) else Get(es, k)
  {
    assert ([e] + es)[1..] == es;
  }

  /** Replacing the first entry's item changes the lookup of that key only. */
  lemma GetReplaceHead(e: Entry, rest: seq<Entry>, item: Item)
    ensures Get([Entry(e.hash, item)] + rest, e.hash) == Some(item)
    ensures forall k :: k != e.hash ==> Get([Entry(e.hash, item)] + rest, k) == Get([e] + rest, k)
  {
    GetCons(Entry(e.hash, item), rest, e.hash);
    forall k | k != e.hash ensures Get([Entry(e.hash, item)] + rest, k) == Get([e] + rest, k) {
      GetCons(Entry(e.hash, item), rest, k);
      GetCons(e, rest, k);
    }
  }

  /** Tables that agree away from `h` still agree after the same entry is put in front. */
  lemma GetConsAgree(e: Entry, t: seq<Entry>, t0: seq<Entry>, h: string)
    requires forall k :: k != h ==> Get(t, k) == Get(t0, k)
    ensures forall k :: k != h ==> Get([e] + t, k) == Get([e] + t0, k)
  {
    forall k | k != h ensures Get([e] + t, k) == Get([e] + t0, k) {
      GetCons(e, t, k);
      GetCons(e, t0, k);
    }
  }

  /** `map.set(hash, item)`: an existing key keeps its position, a new key goes last. */
  function Put(es: seq<Entry>, h: string, item: Item): (r: seq<Entry>)
    ensures Get(r, h) == Some(item)
    ensures forall k :: k != h ==> Get(r, k) == Get(es, k)
    ensures h in Keys(es) ==> Keys(r) == Keys(es)
    ensures h !in Keys(es) ==> Keys(r) == Keys(es) + [h]
    decreases |es|
  {
    if es == [] then
      GetReplaceHead(Entry(h, item), [], item);
      KeysCons(Entry(h, item), []);
      [Entry(h, item)]
    else
      var e := es[0];
      assert es == [e] + es[1..];
      KeysCons(e, es[1..]);
      if e.hash == h then
        GetReplaceHead(e, es[1..], item);
        KeysCons(Entry(h, item), es[1..]);
        [Entry(h, item)] + es[1..]
      else
        var t := Put(es[1..], h, item);
        KeysCons(e, t);
        GetConsAgree(e, t, es[1..], h);
        GetCons(e, t, h);
        [e] + t
  }

  /** `map.delete(hash)`. */
  function Delete(es: seq<Entry>, h: string): (r: seq<Entry>)
    ensures forall k :: k != h ==> Get(r, k) == Get(es, k)
    ensures h !in Keys(es) ==> r == es
    ensures h in Keys(es) ==> |r| == |es| - 1
    ensures forall e :: e in r ==> e in es
    decreases |es|
  {
    if es == [] then []
    else
      var e := es[0];
      assert es == [e] + es[1..];
      KeysCons(e, es[1..]);
      if e.hash == h then
        assert forall k :: k != h ==> Get(es[1..], k) == Get(es, k) by {
          forall k | k != h ensures Get(es[1..], k) == Get(es, k) {
            GetCons(e, es[1..], k);
          }
        }
        es[1..]
      else
        var t := Delete(es[1..], h);
        var r := [e] + t;
        assert forall k :: k != h ==> Get(r, k) == Get(es, k) by {
          forall k | k != h ensures Get(r, k) == Get(es, k) {
            GetCons(e, t, k);
            GetCons(e, es[1..], k);
          }
        }
        r
  }

  lemma {:induction false} UniqueTail(es: seq<Entry>)
    requires es != [] && UniqueKeys(es)
    ensures UniqueKeys(es[1..]) && es[0].hash !in Keys(es[1..])
  {
    var ks := Keys(es[1..]);
    forall i | 0 <= i < |ks| ensures ks[i] != es[0].hash {
      assert ks[i] == es[i + 1].hash;
    }
  }

  lemma {:induction false} UniqueCons(e: Entry, es: seq<Entry>)
    requires UniqueKeys(es) && e.hash !in Keys(es)
    ensures UniqueKeys([e] + es)
  {
    var r := [e] + es;
    forall i, j | 0 <= i < j < |r| ensures r[i].hash != r[j].hash {
      if i == 0 {
        assert r[j] == es[j - 1] && Keys(es)[j - 1] == es[j - 1].hash;
      } else {
        assert r[i] == es[i - 1] && r[j] == es[j - 1];
      }
    }
  }

  /** Setting a key keeps the keys of a table distinct. */
  lemma {:induction false} PutUnique(es: seq<Entry>, h: string, item: Item)
    requires UniqueKeys(es)
    ensures UniqueKeys(Put(es, h, item))
    decreases |es|
  {
    if es != [] {
      UniqueTail(es);
      if es[0].hash == h {
        UniqueCons(Entry(h, item), es[1..]);
      } else {
        PutUnique(es[1..], h, item);
        UniqueCons(es[0], Put(es[1..], h, item));
      }
    }
  }

  /**
   * Deleting a key from a table with distinct keys removes exactly that key:
   * it is absent afterwards and the keys stay distinct.
   */
  lemma {:induction false} DeleteUnique(es: seq<Entry>, h: string)
    requires UniqueKeys(es)
    ensures UniqueKeys(Delete(es, h)) && Get(Delete(es, h), h) == None
    decreases |es|
  {
    if es != [] {
      UniqueTail(es);
      if es[0].hash != h {
        DeleteUnique(es[1..], h);
        var d := Delete(es[1..], h);
        forall i | 0 <= i < |d| ensures Keys(d)[i] != es[0].hash {
          InKeys(d[i], es[1..]);
        }
        UniqueCons(es[0], d);
      }
    }
  }

  // ---------------------------------------------------------------------
  // `getItems`: newest first

  predicate SortedByAt(s: seq<Entry>) {
    forall i, j :: 0 <= i < j < |s| ==> s[i].item.at >= s[j].item.at
  }

  /** Inserts `e` before the first entry that is not newer, as a stable sort does. */
  function InsertByAt(e: Entry, s: seq<Entry>): (r: seq<Entry>)
    ensures multiset(r) == multiset(s) + multiset{e} && |r| == |s| + 1
  {
    if s == [] then [e]
    else if s[0].item.at > e.item.at then
      assert s == [s[0]] + s[1..];
      [s[0]] + InsertByAt(e, s[1..])
    else [e] + s
  }

  /** A newest-first sequence stays so when an entry at least as new is put in front. */
  lemma ConsSorted(x: Entry, t: seq<Entry>)
    requires SortedByAt(t) && forall y :: y in t ==> x.item.at >= y.item.at
    ensures SortedByAt([x] + t)
  {
    var r := [x] + t;
    forall i, j | 0 <= i < j < |r| ensures r[i].item.at >= r[j].item.at {
      assert r[j] == t[j - 1];
      if i > 0 {
        assert r[i] == t[i - 1];
      }
    }
  }

  lemma {:induction false} InsertSorted(e: Entry, s: seq<Entry>)
    requires SortedByAt(s)
    ensures SortedByAt(InsertByAt(e, s))
    decreases |s|
  {
    if s == [] {
    } else if s[0].item.at > e.item.at {
      var t := InsertByAt(e, s[1..]);
      InsertSorted(e, s[1..]);
      forall x | x in t ensures s[0].item.at >= x.item.at {
        assert x in multiset(t);
        if x != e {
          assert x in multiset(s[1..]);
          var k :| 0 <= k < |s[1..]| && s[1..][k] == x;
          assert s[k + 1] == x;
        }
      }
      ConsSorted(s[0], t);
    } else {
      forall y | y in s ensures e.item.at >= y.item.at {
        var k :| 0 <= k < |s| && s[k] == y;
        assert s[0].item.at >= s[k].item.at;
      }
      ConsSorted(e, s);
    }
  }

  /** `[...map.entries()].sort((a, z) => z.at - a.at)`: a stable sort, newest first. */
  function SortByAt(es: seq<Entry>): (r: seq<Entry>)
    ensures multiset(r) == multiset(es) && |r| == |es|
    ensures SortedByAt(r)
  {
    if es == [] then []
    else
      assert es == [es[0]] + es[1..];
      var t := SortByAt(es[1..]);
      InsertSorted(es[0], t);
      InsertByAt(es[0], t)
  }

  /** The entries of `s` whose `at` is `t`, in order. */
  function AtTime(s: seq<Entry>, t: int): seq<Entry> {
    if s == [] then [] else (if s[0].item.at == t then [s[0]] else []) + AtTime(s[1..], t)
  }

  /** `e` goes in front of every entry as old as it, so among equal `at` it comes first. */
  lemma {:induction false} InsertAtTime(e: Entry, s: seq<Entry>, t: int)
    ensures AtTime(InsertByAt(e, s), t) == (if e.item.at == t then [e] else []) + AtTime(s, t)
    decreases |s|
  {
    var r := InsertByAt(e, s);
    var front := if e.item.at == t then [e] else [];
    if s != [] && s[0].item.at > e.item.at {
      var head := if s[0].item.at == t then [s[0]] else [];
      InsertAtTime(e, s[1..], t);
      assert r == [s[0]] + InsertByAt(e, s[1..]);
      assert r[1..] == InsertByAt(e, s[1..]);
      calc {
        AtTime(r, t);
        head + AtTime(InsertByAt(e, s[1..]), t);
        head + (front + AtTime(s[1..], t));
        { assert head == [] || front == []; }
        front + (head + AtTime(s[1..], t));
        front + AtTime(s, t);
      }
    } else {
      assert r == [e] + s;
      assert r[1..] == s;
      assert AtTime(r, t) == front + AtTime(s, t);
    }
  }

  /**
   * The sort is stable: the entries with any one `at` value appear in the
   * sorted table in the order they have in the input.
   */
  lemma {:induction false} SortByAtStable(es: seq<Entry>, t: int)
    ensures AtTime(SortByAt(es), t) == AtTime(es, t)
    decreases |es|
  {
    if es != [] {
      SortByAtStable(es[1..], t);
      InsertAtTime(es[0], SortByAt(es[1..]), t);
    }
  }

  function Min(a: int, b: int): int {
    if a <= b then a else b
  }

  /** `getWatched`: the first `MAX_ITEM_SIZE` items, newest first. */
  function Watched(es: seq<Entry>): (w: seq<Entry>)
    ensures |w| == Min(MAX_ITEM_SIZE, |es|)
  {
    SortByAt(es)[..Min(MAX_ITEM_SIZE, |es|)]
  }

  /** `getUnwatched`: the items after the first `MAX_ITEM_SIZE`. */
  function Unwatched(es: seq<Entry>): (u: seq<Entry>)
    ensures |u| == |es| - Min(MAX_ITEM_SIZE, |es|)
  {
    SortByAt(es)[Min(MAX_ITEM_SIZE, |es|)..]
  }

  /** The watched and unwatched items together are all the items, newest first; at most 40 are watched. */
  lemma WatchedSplit(es: seq<Entry>)
    ensures Watched(es) + Unwatched(es) == SortByAt(es)
    ensures multiset(Watched(es) + Unwatched(es)) == multiset(es)
    ensures |Watched(es)| == Min(MAX_ITEM_SIZE, |es|)
  {
    var s := SortByAt(es);
    var m := Min(MAX_ITEM_SIZE, |es|);
    assert s[..m] + s[m..] == s;
  }

  /** Items go unwatched only when there are more than 40. */
  lemma UnwatchedOnlyBeyondMax(es: seq<Entry>)
    ensures |es| <= MAX_ITEM_SIZE <==> Unwatched(es) == []
  {
    assert |Unwatched(es)| == |es| - Min(MAX_ITEM_SIZE, |es|);
  }

  /** None of the unwatched items is newer than a watched one. */
  lemma WatchedNewer(es: seq<Entry>)
    ensures forall i, j :: 0 <= i < |Watched(es)| && 0 <= j < |Unwatched(es)| ==>
      Watched(es)[i].item.at >= Unwatched(es)[j].item.at
  {
    var s := SortByAt(es);
    var m := Min(MAX_ITEM_SIZE, |es|);
    forall i, j | 0 <= i < |Watched(es)| && 0 <= j < |Unwatched(es)|
      ensures Watched(es)[i].item.at >= Unwatched(es)[j].item.at
    {
      assert Watched(es)[i] == s[i] && Unwatched(es)[j] == s[m + j];
    }
  }

  /** Inserting keeps the keys, plus the inserted one, and keeps them distinct. */
  lemma {:induction false} InsertKeys(e: Entry, s: seq<Entry>)
    ensures forall k :: k in Keys(InsertByAt(e, s)) <==> k == e.hash || k in Keys(s)
    ensures UniqueKeys(s) && e.hash !in Keys(s) ==> UniqueKeys(InsertByAt(e, s))
    decreases |s|
  {
    if s != [] {
      KeysCons(s[0], s[1..]);
      assert s == [s[0]] + s[1..];
      if s[0].item.at > e.item.at {
        var t := InsertByAt(e, s[1..]);
        InsertKeys(e, s[1..]);
        KeysCons(s[0], t);
        if UniqueKeys(s) && e.hash !in Keys(s) {
          UniqueTail(s);
          UniqueCons(s[0], t);
        }
      } else {
        KeysCons(e, s);
        if UniqueKeys(s) && e.hash !in Keys(s) {
          UniqueCons(e, s);
        }
      }
    } else {
      KeysCons(e, []);
    }
  }

  /** Sorting keeps the set of keys, and keeps distinct keys distinct. */
  lemma {:induction false} SortKeys(es: seq<Entry>)
    ensures forall k :: k in Keys(SortByAt(es)) <==> k in Keys(es)
    ensures UniqueKeys(es) ==> UniqueKeys(SortByAt(es))
    decreases |es|
  {
    if es != [] {
      var t := SortByAt(es[1..]);
      SortKeys(es[1..]);
      InsertKeys(es[0], t);
      KeysCons(es[0], es[1..]);
      assert es == [es[0]] + es[1..];
      if UniqueKeys(es) {
        UniqueTail(es);
      }
    }
  }

  lemma {:induction false} KeysAppend(a: seq<Entry>, b: seq<Entry>)
    ensures Keys(a + b) == Keys(a) + Keys(b)
  {
    var l, r := Keys(a + b), Keys(a) + Keys(b);
    assert |l| == |r|;
    forall i | 0 <= i < |l| ensures l[i] == r[i] {
      if i < |a| {
        assert (a + b)[i] == a[i];
      } else {
        assert (a + b)[i] == b[i - |a|];
      }
    }
  }

  // ---------------------------------------------------------------------
  // `getWatchedAccounts`

  /**
   * `items.map(([, t]) => getPayloadFrom(t.payload))`: an item without a payload
   * makes `getPayloadConfig` read a property of undefined and throw.
   */
  function FromsOf(items: seq<Entry>): (r: Option<seq<Value>>)
    ensures r.Some? <==> forall i :: 0 <= i < |items| ==> items[i].item.payload.Some?
    ensures r.Some? ==> |r.value| == |items|
    ensures r.Some? ==> forall i :: 0 <= i < |items| ==> r.value[i] == GetPayloadFrom(items[i].item.payload.value)
  {
    if items == [] then Some([])
    else match (items[0].item.payload, FromsOf(items[1..]))
      case (Some(p), Some(rest)) => Some([GetPayloadFrom(p)] + rest)
      case _ => None
  }

  /**
   * `.filter(Boolean)` followed by `toLowerCase` on every survivor: a truthy
   * value that is not a string has no `toLowerCase` and throws.
   */
  function TruthyStrings(vs: seq<Value>): (r: Option<seq<string>>)
    ensures r.Some? <==> forall i :: 0 <= i < |vs| && Truthy(vs[i]) ==> vs[i].Str?
    ensures r.Some? ==> |r.value| <= |vs|
  {
    if vs == [] then Some([])
    else match TruthyStrings(vs[1..])
      case None => None
      case Some(rest) =>
        if !Truthy(vs[0]) then Some(rest)
        else if vs[0].Str? then Some([vs[0].s] + rest)
        else None
  }

  /** Some address in `r` folds like `x`. */
  predicate HasFolded(r: seq<string>, x: string) {
    exists k :: 0 <= k < |r| && Lower(r[k]) == Lower(x)
  }

  /** `uniqBy(xs, x => x.toLowerCase())`: the first address of each case-folded class, in order. */
  function UniqByLower(xs: seq<string>): (r: seq<string>)
    ensures |r| <= |xs|
    decreases |xs|
  {
    if xs == [] then []
    else
      var r := UniqByLower(xs[..|xs| - 1]);
      var x := xs[|xs| - 1];
      if HasFolded(r, x) then r else r + [x]
  }

  /** The index of the first element of `xs` that folds like `x`. */
  predicate FirstOfItsClass(xs: seq<string>, i: int) {
    0 <= i < |xs| && forall j :: 0 <= j < i ==> Lower(xs[j]) != Lower(xs[i])
  }

  /** No two addresses `uniqBy` keeps fold to the same lower case. */
  lemma {:induction false} UniqByLowerDistinct(xs: seq<string>)
    ensures forall i, j :: 0 <= i < j < |UniqByLower(xs)| ==> Lower(UniqByLower(xs)[i]) != Lower(UniqByLower(xs)[j])
    decreases |xs|
  {
    if xs != [] {
      var init := xs[..|xs| - 1];
      var x := xs[|xs| - 1];
      UniqByLowerDistinct(init);
      var r0 := UniqByLower(init);
      var r := UniqByLower(xs);
      if !HasFolded(r0, x) {
        assert r == r0 + [x];
        forall i, j | 0 <= i < j < |r| ensures Lower(r[i]) != Lower(r[j]) {
          assert r[i] == r0[i];
          if j < |r0| {
            assert r[j] == r0[j];
          } else {
            assert r[j] == x;
            assert Lower(r0[i]) != Lower(x);
          }
        }
      } else {
        assert r == r0;
      }
    }
  }

  /** Every input address is represented in the result by one that folds the same. */
  lemma {:induction false} UniqByLowerCovers(xs: seq<string>)
    ensures forall i :: 0 <= i < |xs| ==> HasFolded(UniqByLower(xs), xs[i])
    decreases |xs|
  {
    if xs != [] {
      var init := xs[..|xs| - 1];
      var x := xs[|xs| - 1];
      UniqByLowerCovers(init);
      var r0 := UniqByLower(init);
      var r := UniqByLower(xs);
      forall i | 0 <= i < |xs| ensures HasFolded(r, xs[i]) {
        if i < |xs| - 1 {
          assert xs[i] == init[i];
          var k :| 0 <= k < |r0| && Lower(r0[k]) == Lower(init[i]);
          assert r[k] == r0[k];
        } else if HasFolded(r0, x) {
          var k :| 0 <= k < |r0| && Lower(r0[k]) == Lower(x);
          assert r[k] == r0[k];
        } else {
          assert r[|r0|] == x;
        }
      }
    }
  }

  /** An address no earlier kept address folds like is the first of its class. */
  lemma LastIsFirst(xs: seq<string>)
    requires xs != [] && !HasFolded(UniqByLower(xs[..|xs| - 1]), xs[|xs| - 1])
    ensures FirstOfItsClass(xs, |xs| - 1)
  {
    var init := xs[..|xs| - 1];
    UniqByLowerCovers(init);
    forall j | 0 <= j < |xs| - 1 ensures Lower(xs[j]) != Lower(xs[|xs| - 1]) {
      assert xs[j] == init[j];
      assert HasFolded(UniqByLower(init), init[j]);
    }
  }

  /** The first of its class in a prefix is still the first of its class. */
  lemma FirstOfItsClassExtends(xs: seq<string>, i: int)
    requires xs != [] && FirstOfItsClass(xs[..|xs| - 1], i)
    ensures FirstOfItsClass(xs, i) && xs[i] == xs[..|xs| - 1][i]
  {
    var init := xs[..|xs| - 1];
    forall j | 0 <= j < i ensures Lower(xs[j]) != Lower(xs[i]) {
      assert xs[j] == init[j] && xs[i] == init[i];
    }
  }

  /** Each address kept is the first of its case-folded class in the input. */
  lemma {:induction false} UniqByLowerKeepsFirst(xs: seq<string>)
    ensures forall k :: 0 <= k < |UniqByLower(xs)| ==> exists i :: FirstOfItsClass(xs, i) && xs[i] == UniqByLower(xs)[k]
    decreases |xs|
  {
    if xs == [] {
      assert UniqByLower(xs) == [];
    } else {
      var init := xs[..|xs| - 1];
      var x := xs[|xs| - 1];
      UniqByLowerKeepsFirst(init);
      var r0 := UniqByLower(init);
      var r := UniqByLower(xs);
      forall k | 0 <= k < |r0| ensures exists i :: FirstOfItsClass(xs, i) && xs[i] == r0[k] {
        var i :| FirstOfItsClass(init, i) && init[i] == r0[k];
        FirstOfItsClassExtends(xs, i);
      }
      if HasFolded(r0, x) {
        assert r == r0;
      } else {
        assert r == r0 + [x];
        LastIsFirst(xs);
        forall k | 0 <= k < |r| ensures exists i :: FirstOfItsClass(xs, i) && xs[i] == r[k] {
          if k < |r0| {
            assert r[k] == r0[k];
          } else {
            assert xs[|xs| - 1] == r[k];
          }
        }
      }
    }
  }

  /**
   * `uniqBy` keeps the input order: the result is the input with some
   * addresses dropped, `idx` giving the increasing input positions it keeps.
   */
  lemma {:induction false} UniqByLowerInOrder(xs: seq<string>) returns (idx: seq<nat>)
    ensures |idx| == |UniqByLower(xs)|
    ensures forall k :: 0 <= k < |idx| ==> idx[k] < |xs| && xs[idx[k]] == UniqByLower(xs)[k]
    ensures forall k, l :: 0 <= k < l < |idx| ==> idx[k] < idx[l]
    decreases |xs|
  {
    if xs == [] {
      idx := [];
    } else {
      var init := xs[..|xs| - 1];
      var x := xs[|xs| - 1];
      var idx0 := UniqByLowerInOrder(init);
      var r0 := UniqByLower(init);
      forall k | 0 <= k < |idx0| ensures xs[idx0[k]] == r0[k] {
        assert xs[idx0[k]] == init[idx0[k]];
      }
      if HasFolded(r0, x) {
        idx := idx0;
      } else {
        idx := idx0 + [|xs| - 1];
        assert UniqByLower(xs) == r0 + [x];
      }
    }
  }

  /**
   * `getWatchedAccounts`: the senders of the watched items, empty ones dropped,
   * deduplicated case-insensitively; `None` when the call throws.
   */
  function WatchedAccounts(es: seq<Entry>): (r: Option<seq<string>>)
    ensures r.Some? ==> |r.value| <= Min(MAX_ITEM_SIZE, |es|)
  {
    match FromsOf(Watched(es))
    case None => None
    case Some(froms) =>
      match TruthyStrings(froms)
      case None => None
      case Some(accounts) => Some(UniqByLower(accounts))
  }

  /** `getUnwatchedAccounts`: the same over the unwatched items. */
  function UnwatchedAccounts(es: seq<Entry>): (r: Option<seq<string>>)
    ensures r.Some? ==> |r.value| <= |es| - Min(MAX_ITEM_SIZE, |es|)
  {
    match FromsOf(Unwatched(es))
    case None => None
    case Some(froms) =>
      match TruthyStrings(froms)
      case None => None
      case Some(accounts) => Some(UniqByLower(accounts))
  }

  // ---------------------------------------------------------------------
  // The mutable object

  class Storage {
    /** The nested `Map<ChainId, Map<string, StorageItem>>`. */
    var chains: map<int, seq<Entry>>

    ghost predicate Valid()
      reads this
    {
      forall c :: c in chains ==> UniqueKeys(chains[c])
    }

    constructor ()
      ensures chains == map[] && Valid()
    {
      chains := map[];
    }

    /** `getStorage(chainId)`: a chain never written reads as empty. */
    function Entries(chainId: int): (es: seq<Entry>)
      reads this
      ensures chainId !in chains ==> es == []
    {
      if chainId in chains then chains[chainId] else []
    }

    function HasItem(chainId: int, hash: string): (b: bool)
      reads this
      ensures b <==> hash in Keys(Entries(chainId))
    {
      Get(Entries(chainId), hash).Some?
    }

    function GetItem(chainId: int, hash: string): Option<Item>
      reads this
    {
      Get(Entries(chainId), hash)
    }

    function GetItems(chainId: int): seq<Entry>
      reads this
    {
      SortByAt(Entries(chainId))
    }

    function GetWatched(chainId: int): seq<Entry>
      reads this
    {
      Watched(Entries(chainId))
    }

    function GetUnwatched(chainId: int): seq<Entry>
      reads this
    {
      Unwatched(Entries(chainId))
    }

    function GetWatchedAccounts(chainId: int): Option<seq<string>>
      reads this
    {
      WatchedAccounts(Entries(chainId))
    }

    function GetUnwatchedAccounts(chainId: int): Option<seq<string>>
      reads this
    {
      UnwatchedAccounts(Entries(chainId))
    }

    /** The side effect of `getStorage(chainId)`: a missing chain gets an empty table. */
    method EnsureChain(chainId: int)
      requires Valid()
      modifies this
      ensures Valid()
      ensures chains == old(chains)[chainId := old(Entries(chainId))]
    {
      chains := chains[chainId := Entries(chainId)];
    }

    /** `setItem`: only that chain's table changes. */
    method SetItem(chainId: int, hash: string, item: Item)
      requires Valid()
      modifies this
      ensures Valid()
      ensures chains == old(chains)[chainId := Put(old(Entries(chainId)), hash, item)]
    {
      PutUnique(Entries(chainId), hash, item);
      chains := chains[chainId := Put(Entries(chainId), hash, item)];
    }

    /** `removeItem`: only that chain's table changes. */
    method RemoveItem(chainId: int, hash: string)
      requires Valid()
      modifies this
      ensures Valid()
      ensures chains == old(chains)[chainId := Delete(old(Entries(chainId)), hash)]
    {
      DeleteUnique(Entries(chainId), hash);
      chains := chains[chainId := Delete(Entries(chainId), hash)];
    }
  }
}
