/**
 * The request bridge shared by the Injected and Fortmatic providers: each
 * `request` takes the next id, posts a JSON-RPC payload to the visible pages,
 * listens for the response carrying that id and starts a timeout; the first
 * of the response and the timeout settles the request, and settling clears
 * the timer and removes the listener. `createWeb3` builds one Web3 instance
 * over an external provider and caches it.
 *
 * The two providers differ only in the method that gets the long timeout and
 * in the message channel they use; `BridgedProvider` models the `id` and
 * `web3` fields and the `request`, `createProvider` and `createWeb3` methods
 * both of them define. Object identities are handles from a counter.
 */
module Bridge {
  import opened Values
  import opened Payload
  import opened Context

  /** `3 * 60 * 1000` ms for the provider's long method, `45 * 1000` ms for the rest. */
  const LONG_TIMEOUT := 3 * 60 * 1000
  const SHORT_TIMEOUT := 45 * 1000
  const TIMEOUT_MESSAGE := "The request is timeout."

  /** The state of the promise a `request` returns. */
  datatype Settlement = Resolved(result: Value) | Rejected(error: Error)

  /** A response message `{payload, result, error}`; `error` is `None` when it is null or undefined. */
  datatype Message = Message(payloadId: Id, result: Value, error: Option<Error>)

  /**
   * The provider's fields and the channel's state: the last id, the cached
   * Web3 instance, the number of external providers created, the ids whose
   * listener is registered, the running timers (id to delay), the payloads
   * posted, and the settled requests.
   */
  datatype Wire = Wire(
    id: nat,
    web3: Option<nat>,
    created: nat,
    listeners: set<nat>,
    timers: map<nat, int>,
    outbox: seq<Payload>,
    settled: map<nat, Settlement>)

  /**
   * A request is pending (listener and timer both registered) or settled, never
   * both; every id in use was handed out; the cached instance was created.
   */
  predicate Valid(w: Wire) {
    && w.listeners == w.timers.Keys
    && w.listeners !! w.settled.Keys
    && (forall r :: r in w.timers ==> 1 <= r <= w.id)
    && (forall r :: r in w.settled ==> 1 <= r <= w.id)
    && (w.web3.Some? ==> w.web3.value < w.created)
  }

  function TimeoutFor(name: string, longMethod: string): int {
    if name == longMethod then LONG_TIMEOUT else SHORT_TIMEOUT
  }

  /**
   * The posted payload: `{jsonrpc: '2.0', id, params: [], ...requestArguments}`,
   * so a caller's own `id`, `jsonrpc` or `params` key wins over the default.
   */
  function Posted(id: nat, args: Arguments): (p: Payload)
    ensures p.id == (if args.id.Some? then args.id.value else NumId(id))
    ensures p.jsonrpc == (if args.jsonrpc.Some? then args.jsonrpc.value else "2.0")
    ensures p.rpcMethod == args.rpcMethod && p.params == (if args.params.Some? then args.params.value else [])
  {
    var p := CreatePayload(id, args.rpcMethod, args.params.GetOr([]));
    p.(id := args.id.GetOr(p.id), jsonrpc := args.jsonrpc.GetOr(p.jsonrpc))
  }

  /** `request(requestArguments)`: the next id is registered, timed and posted; nothing settles. */
  function Requested(w: Wire, args: Arguments, longMethod: string): (r: Wire)
    requires Valid(w)
    ensures Valid(r)
    ensures r.id == w.id + 1 && r.id !in w.listeners && r.id !in w.settled
    ensures r.listeners == w.listeners + {r.id} && r.settled == w.settled
    ensures r.timers[r.id] == (if args.rpcMethod == longMethod then 180000 else 45000)
    ensures |r.outbox| == |w.outbox| + 1 && r.outbox[..|w.outbox|] == w.outbox
    ensures var p := r.outbox[|w.outbox|];
      && (args.id.None? ==> p.id == NumId(r.id)) && (args.id.Some? ==> p.id == args.id.value)
      && (args.jsonrpc.None? ==> p.jsonrpc == "2.0") && (args.jsonrpc.Some? ==> p.jsonrpc == args.jsonrpc.value)
      && p.rpcMethod == args.rpcMethod && p.params == args.params.GetOr([])
    ensures r.web3 == w.web3 && r.created == w.created
  {
    var id := w.id + 1;
    w.(id := id,
       listeners := w.listeners + {id},
       timers := w.timers[id := TimeoutFor(args.rpcMethod, longMethod)],
       outbox := w.outbox + [Posted(id, args)])
  }

  /** Settling request `r`: the promise takes `s`, then the timer is cleared and the listener removed. */
  function Closed(w: Wire, r: nat, s: Settlement): Wire {
    w.(listeners := w.listeners - {r}, timers := w.timers - {r}, settled := w.settled[r := s])
  }

  /** What a matching response does to the promise: reject on a set error, else resolve with `result`. */
  function Answer(m: Message): (s: Settlement)
    ensures s.Rejected? <==> m.error.Some?
    ensures s.Rejected? ==> s.error == m.error.value
    ensures s.Resolved? ==> s.result == m.result
  {
    match m.error
    case Some(e) => Rejected(e)
    case None => Resolved(m.result)
  }

  /** The pending request a message answers: the one whose id equals `payload.id`, if any. */
  predicate Answers(w: Wire, m: Message) {
    m.payloadId.NumId? && m.payloadId.n >= 0 && m.payloadId.n as nat in w.listeners
  }

  /**
   * A response message reaches every registered listener; only the listener
   * of the request with the same id acts, and it settles that request.
   */
  function Delivered(w: Wire, m: Message): (r: Wire)
    requires Valid(w)
    ensures Valid(r)
    ensures !Answers(w, m) ==> r == w
    ensures Answers(w, m) ==> var id := m.payloadId.n as nat;
      && r.settled == w.settled[id := Answer(m)]
      && r.listeners == w.listeners - {id} && r.timers.Keys == w.timers.Keys - {id}
    ensures forall k :: k in w.settled ==> k in r.settled && r.settled[k] == w.settled[k]
  {
    if Answers(w, m) then Closed(w, m.payloadId.n as nat, Answer(m)) else w
  }

  /** The timer of request `id` fires: it rejects with 'The request is timeout.'. */
  function TimedOut(w: Wire, id: nat): (r: Wire)
    requires Valid(w)
    ensures Valid(r)
    ensures id !in w.timers ==> r == w
    ensures id in w.timers ==>
      && r.settled == w.settled[id := Rejected(Error(TIMEOUT_MESSAGE))]
      && r.listeners == w.listeners - {id} && r.timers.Keys == w.timers.Keys - {id}
    ensures forall k :: k in w.settled ==> k in r.settled && r.settled[k] == w.settled[k]
  {
    if id in w.timers then Closed(w, id, Rejected(Error(TIMEOUT_MESSAGE))) else w
  }

  /** What can happen to pending requests: a response message arrives, or a timer fires. */
  datatype Event = Arrives(message: Message) | Fires(id: nat)

  function Happen(w: Wire, e: Event): (r: Wire)
    requires Valid(w)
    ensures Valid(r)
  {
    match e
    case Arrives(m) => Delivered(w, m)
    case Fires(id) => TimedOut(w, id)
  }

  function Replay(w: Wire, events: seq<Event>): (r: Wire)
    requires Valid(w)
    ensures Valid(r)
    decreases |events|
  {
    if events == [] then w else Replay(Happen(w, events[0]), events[1..])
  }

  /**
   * A request settles at most once: whatever messages and timeouts follow, a
   * settled request keeps its settlement, and neither a listener nor a timer
   * remains for it.
   */
  lemma {:induction false} SettlesOnce(w: Wire, events: seq<Event>, id: nat)
    requires Valid(w) && id in w.settled
    ensures var r := Replay(w, events);
      id in r.settled && r.settled[id] == w.settled[id] && id !in r.listeners && id !in r.timers
    decreases |events|
  {
    if events != [] {
      var next := Happen(w, events[0]);
      assert id in next.settled && next.settled[id] == w.settled[id];
      SettlesOnce(next, events[1..], id);
    }
  }

  /**
   * A message whose id matches no pending request changes nothing; in
   * particular a message with a string id never matches, since the ids are numbers.
   */
  lemma MismatchIgnored(w: Wire, m: Message)
    requires Valid(w) && (m.payloadId.StrId? || m.payloadId.n < 0 || m.payloadId.n as nat !in w.timers)
    ensures Delivered(w, m) == w
  {
  }

  /**
   * Two requests in a row take consecutive, distinct ids and post them in
   * order, each under its own id unless the caller set an `id` key.
   */
  lemma {:induction false} ConsecutiveIds(w: Wire, a: Arguments, b: Arguments, longMethod: string)
    requires Valid(w)
    ensures var w1 := Requested(w, a, longMethod);
      var w2 := Requested(w1, b, longMethod);
      && w2.id == w.id + 2
      && w2.outbox[|w.outbox|].id == a.id.GetOr(NumId(w.id + 1))
      && w2.outbox[|w.outbox| + 1].id == b.id.GetOr(NumId(w.id + 2))
      && w2.listeners == w.listeners + {w.id + 1, w.id + 2}
  {
    var w1 := Requested(w, a, longMethod);
    var w2 := Requested(w1, b, longMethod);
    assert w2.outbox == w.outbox + [w1.outbox[|w.outbox|]] + [w2.outbox[|w1.outbox|]];
  }

  /**
   * A caller's own `id` key replaces the request's id in the posted payload,
   * so the response that echoes the posted payload never settles the request:
   * it stays pending (until its timer fires), whatever the response says.
   */
  lemma CallerIdUnanswered(w: Wire, args: Arguments, longMethod: string, result: Value, error: Option<Error>)
    requires Valid(w) && args.id.Some? && args.id.value != NumId(w.id + 1)
    ensures var r := Requested(w, args, longMethod);
      var echo := Message(r.outbox[|w.outbox|].id, result, error);
      var d := Delivered(r, echo);
      && r.id in d.listeners && r.id in d.timers && r.id !in d.settled
  {
    var r := Requested(w, args, longMethod);
    var echo := Message(r.outbox[|w.outbox|].id, result, error);
    assert echo.payloadId == args.id.value;
    if Answers(r, echo) {
      assert echo.payloadId.n as nat != r.id;
    }
  }

  /** `createProvider()`: a new external provider over `request`, every time. */
  function ProviderCreated(w: Wire): (r: (Wire, nat))
    requires Valid(w)
    ensures Valid(r.0) && r.0 == w.(created := w.created + 1) && r.1 == w.created
  {
    (w.(created := w.created + 1), w.created)
  }

  /** `createWeb3()`: the cached instance if there is one, else a Web3 over a new provider, cached. */
  function Web3Of(w: Wire): (r: (Wire, nat))
    requires Valid(w)
    ensures Valid(r.0) && r.0.web3 == Some(r.1)
    ensures w.web3.Some? ==> r == (w, w.web3.value)
    ensures w.web3.None? ==> r.1 == w.created && r.0 == w.(created := w.created + 1, web3 := Some(w.created))
  {
    if w.web3.Some? then (w, w.web3.value)
    else
      var (w1, p) := ProviderCreated(w);
      (w1.(web3 := Some(p)), p)
  }

  /** The instance is built once: a second `createWeb3` returns the first one and changes nothing. */
  lemma Web3Memoised(w: Wire)
    requires Valid(w)
    ensures Web3Of(Web3Of(w).0) == (Web3Of(w).0, Web3Of(w).1)
  {
  }

  class BridgedProvider {
    const longMethod: string
    var id: nat
    var web3: Option<nat>
    var created: nat
    var listeners: set<nat>
    var timers: map<nat, int>
    var outbox: seq<Payload>
    var settled: map<nat, Settlement>

    function State(): Wire
      reads this
    {
      Wire(id, web3, created, listeners, timers, outbox, settled)
    }

    constructor (longMethod: string)
      ensures Valid(State()) && this.longMethod == longMethod
      ensures State() == Wire(0, None, 0, {}, map[], [], map[])
    {
      this.longMethod := longMethod;
      id := 0;
      web3 := None;
      created := 0;
      listeners := {};
      timers := map[];
      outbox := [];
      settled := map[];
    }

    /** `request(requestArguments)`; the returned id names the promise in `settled`. */
    method Request(args: Arguments) returns (requestId: nat)
      requires Valid(State())
      modifies this
      ensures State() == Requested(old(State()), args, longMethod) && requestId == id
    {
      id := id + 1;
      requestId := id;
      var delay := if args.rpcMethod == longMethod then 3 * 60 * 1000 else 45 * 1000;
      timers := timers[requestId := delay];
      listeners := listeners + {requestId};
      var payload := CreatePayload(requestId, args.rpcMethod, args.params.GetOr([]));
      if args.id.Some? {
        payload := payload.(id := args.id.value);
      }
      if args.jsonrpc.Some? {
        payload := payload.(jsonrpc := args.jsonrpc.value);
      }
      outbox := outbox + [payload];
    }

    /** The settlement of request `r`, then the `finally` clean-up. */
    method Settle(r: nat, s: Settlement)
      modifies this
      ensures State() == Closed(old(State()), r, s)
    {
      settled := settled[r := s];
      timers := timers - {r};
      listeners := listeners - {r};
    }

    /** A response message reaches the registered listeners. */
    method Deliver(m: Message)
      requires Valid(State())
      modifies this
      ensures State() == Delivered(old(State()), m)
    {
      if m.payloadId.NumId? && m.payloadId.n >= 0 && m.payloadId.n as nat in listeners {
        var r := m.payloadId.n as nat;
        if m.error.Some? {
          Settle(r, Rejected(m.error.value));
        } else {
          Settle(r, Resolved(m.result));
        }
      }
    }

    /** The timer of request `r` fires, if it is still running. */
    method Fire(r: nat)
      requires Valid(State())
      modifies this
      ensures State() == TimedOut(old(State()), r)
    {
      if r in timers {
        Settle(r, Rejected(Error(TIMEOUT_MESSAGE)));
      }
    }

    method CreateProvider() returns (p: nat)
      requires Valid(State())
      modifies this
      ensures (State(), p) == ProviderCreated(old(State()))
    {
      p := created;
      created := created + 1;
    }

    method CreateWeb3() returns (instance: nat)
      requires Valid(State())
      modifies this
      ensures (State(), instance) == Web3Of(old(State()))
    {
      if web3.Some? {
        return web3.value;
      }
      var provider := CreateProvider();
      web3 := Some(provider);
      instance := provider;
    }
  }
}
