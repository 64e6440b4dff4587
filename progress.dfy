/**
 * `TransactionProgress`: a middleware that awaits `next()` first and then,
 * from the result now in the context, reports the progress of a transaction:
 * a HASH state for a transaction looked up by hash, and the state derived from
 * a receipt, which is also broadcast to every page.
 *
 * `notifyProgress` and `transactionStateUpdated.sendToAll` are appends to an
 * event log; `getTransactionState` is the oracle `derive`.
 */
module Progress {
  import opened Values
  import opened Payload
  import opened Context

  /** The progress a notification reports: `{type: HASH, hash}`, or the state derived from a receipt. */
  datatype TxState = HashState(hash: Value) | Derived(state: Value)

  datatype Note =
    | AwaitedNext
    | Notified(transaction: Value, state: TxState)   // notifyProgress(transaction, state)
    | Broadcast(state: TxState)                     // transactionStateUpdated.sendToAll(state)

  /** How `fn` ends: normally, with the rejection of `next()`, or by reading a property of an undefined or null receipt. */
  datatype Ending = Completed | NextRejected(thrown: Thrown) | ReadOfNothing

  /** The notes `fn` appends after `next()` resolved, and how it ends. */
  datatype Report = Report(notes: seq<Note>, ending: Ending)

  /**
   * The switch on the method, given the result `next()` left in the context.
   * `transaction?.hash` is guarded; `receipt.transactionHash` is not.
   */
  function Reported(name: string, result: Value, derive: Value -> Value): (r: Report)
    ensures name == ETH_GET_TRANSACTION_BY_HASH ==>
      r.ending == Completed &&
      (if Truthy(Field(result, "hash")) then r.notes == [Notified(result, HashState(Field(result, "hash")))] else r.notes == [])
    ensures name == ETH_GET_TRANSACTION_RECEIPT ==>
      && (r.ending == ReadOfNothing <==> result == Undefined || result == Null)
      && (r.notes != [] <==> r.ending == Completed && Truthy(Field(result, "transactionHash")))
      && (r.notes != [] ==> r.notes == [Notified(result, Derived(derive(result))), Broadcast(Derived(derive(result)))])
    ensures name != ETH_GET_TRANSACTION_BY_HASH && name != ETH_GET_TRANSACTION_RECEIPT ==> r == Report([], Completed)
  {
    if name == ETH_GET_TRANSACTION_BY_HASH then
      var hash := Field(result, "hash");
      if Truthy(hash) then Report([Notified(result, HashState(hash))], Completed) else Report([], Completed)
    else if name == ETH_GET_TRANSACTION_RECEIPT then
      if result == Undefined || result == Null then Report([], ReadOfNothing)
      else if Truthy(Field(result, "transactionHash")) then
        var state := Derived(derive(result));
        Report([Notified(result, state), Broadcast(state)], Completed)
      else Report([], Completed)
    else Report([], Completed)
  }

  /** A receipt state is notified iff it is broadcast, and always the same state to both. */
  lemma NotifiedIffBroadcast(name: string, result: Value, derive: Value -> Value)
    ensures var notes := Reported(name, result, derive).notes;
      (exists i :: 0 <= i < |notes| && notes[i].Broadcast?) ==>
        name == ETH_GET_TRANSACTION_RECEIPT && |notes| == 2 && notes[0].Notified? && notes[0].state == notes[1].state
  {
  }

  class TransactionProgress {
    /** Everything this middleware did, in order. */
    var log: seq<Note>

    constructor ()
      ensures log == []
    {
      log := [];
    }

    /**
     * `fn(context, next)`: `next()` is awaited once, before anything else;
     * `nextRejection` is its rejection if it rejects, and `context` is the
     * context as `next()` left it. The context is only read.
     */
    method Fn(context: RequestContext, nextRejection: Option<Thrown>, derive: Value -> Value) returns (ending: Ending)
      modifies this
      ensures nextRejection.Some? ==> log == old(log) + [AwaitedNext] && ending == NextRejected(nextRejection.value)
      ensures nextRejection.None? ==>
        var r := Reported(context.State().args.rpcMethod, context.State().rawResult, derive);
        log == old(log) + [AwaitedNext] + r.notes && ending == r.ending
    {
      log := log + [AwaitedNext];
      if nextRejection.Some? {
        return NextRejected(nextRejection.value);
      }
      var name := context.requestArguments.rpcMethod;
      var result := context.rawResult;
      ending := Completed;
      if name == ETH_GET_TRANSACTION_BY_HASH {
        var hash := Field(result, "hash");
        if Truthy(hash) {
          log := log + [Notified(result, HashState(hash))];
        }
      } else if name == ETH_GET_TRANSACTION_RECEIPT {
        if result == Undefined || result == Null {
          return ReadOfNothing;
        }
        if Truthy(Field(result, "transactionHash")) {
          var state := Derived(derive(result));
          log := log + [Notified(result, state)];
          log := log + [Broadcast(state)];
        }
      }
    }
  }
}
