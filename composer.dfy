/**
 * The middleware composer: an append-only list of middlewares run in onion
 * order by an index-guarded dispatcher. Dispatching stage `i` when `i` is not
 * above the last dispatched stage rejects with 'next() called multiple times',
 * so each continuation runs at most once.
 *
 * A middleware's `fn` is modelled as a script of steps: await `next()`, emit an
 * observable event, throw, or write the context. `Stage` and `Steps` are the
 * specification of one dispatch; `Dispatcher` is the imperative closure state
 * (`index`) that the source keeps, verified against them.
 */
module Composer {
  import opened Values
  import opened Context

  datatype Step =
    | Next
    | Emit(tag: nat)
    | Throw(thrown: Error)
    | Write(error: Option<Error>, result: Value)

  /** The behaviour of one middleware's `fn` (or of the terminal `next`). */
  type Script = seq<Step>

  /**
   * How stage `i` finds its function. `AsWritten` reads `middlewares[i].fn` before
   * testing `i === middlewares.length`, which throws once `i` reaches the length;
   * `Guarded` tests the length first, as the onion design intends.
   */
  datatype Lookup = AsWritten | Guarded

  datatype Event = Enter(stage: nat) | Emitted(stage: nat, tag: nat)

  datatype Outcome = Resolved | Rejected(error: Error)

  /** The dispatcher's state: the closure variable `index`, the context, and what was observed. */
  datatype DState = DState(index: int, ctx: Ctx, trace: seq<Event>)

  datatype Ran = Ran(outcome: Outcome, st: DState)

  const CALLED_TWICE := Error("next() called multiple times")
  const NO_SUCH_MIDDLEWARE := Error("Cannot read properties of undefined (reading 'fn')")

  /** The state a dispatch starts from: `index = -1`, nothing observed yet. */
  function Initial(c: Ctx): DState {
    DState(-1, c, [])
  }

  /** `dispatch(i)`. */
  function Stage(lookup: Lookup, mws: seq<Script>, terminal: Script, i: nat, st: DState): (r: Ran)
    requires i <= |mws| + 1
    decreases |mws| + 1 - i, 1, 0
  {
    if i <= st.index then Ran(Rejected(CALLED_TWICE), st)
    else
      var entered := st.(index := i, trace := st.trace + [Enter(i)]);
      if i < |mws| then Steps(lookup, mws, terminal, i, mws[i], 0, entered)
      else if lookup == AsWritten then Ran(Rejected(NO_SUCH_MIDDLEWARE), entered)
      else if i == |mws| then Steps(lookup, mws, terminal, i, terminal, 0, entered)
      else Ran(Resolved, entered)
  }

  /** The rest of stage `i`'s function from step `k` on; `Next` is `dispatch(i + 1)`. */
  function Steps(lookup: Lookup, mws: seq<Script>, terminal: Script, i: nat, script: Script, k: nat, st: DState): (r: Ran)
    requires i <= |mws| && k <= |script|
    decreases |mws| + 1 - i, 0, |script| - k
  {
    if k == |script| then Ran(Resolved, st)
    else match script[k]
      case Next =>
        var r := Stage(lookup, mws, terminal, i + 1, st);
        if r.outcome.Rejected? then r else Steps(lookup, mws, terminal, i, script, k + 1, r.st)
      case Emit(l) => Steps(lookup, mws, terminal, i, script, k + 1, st.(trace := st.trace + [Emitted(i, l)]))
      case Throw(e) => Ran(Rejected(e), st)
      case Write(e, v) => Steps(lookup, mws, terminal, i, script, k + 1, st.(ctx := WithResponse(st.ctx, e, v)))
  }

  /** The whole dispatch: `compose()(context, next)` starts at stage 0. */
  function Dispatched(lookup: Lookup, mws: seq<Script>, terminal: Script, c: Ctx): Ran {
    Stage(lookup, mws, terminal, 0, Initial(c))
  }

  // ---------------------------------------------------------------------
  // Each stage is entered at most once

  /** The stages entered so far, strictly increasing, none above `index`. */
  predicate Ordered(st: DState) {
    && (forall a, b :: 0 <= a < b < |st.trace| && st.trace[a].Enter? && st.trace[b].Enter? ==>
          st.trace[a].stage < st.trace[b].stage)
    && (forall a :: 0 <= a < |st.trace| && st.trace[a].Enter? ==> st.trace[a].stage <= st.index)
  }

  /** `st` continues `st0`: the index never goes back and the trace only grows. */
  predicate Extends(st0: DState, st: DState) {
    st0.index <= st.index && st0.trace <= st.trace
  }

  lemma {:induction false} StageOrdered(lookup: Lookup, mws: seq<Script>, terminal: Script, i: nat, st: DState)
    requires i <= |mws| + 1 && Ordered(st)
    ensures var r := Stage(lookup, mws, terminal, i, st); Ordered(r.st) && Extends(st, r.st)
    decreases |mws| + 1 - i, 1, 0
  {
    if i > st.index {
      var entered := st.(index := i, trace := st.trace + [Enter(i)]);
      assert Ordered(entered);
      if i < |mws| {
        StepsOrdered(lookup, mws, terminal, i, mws[i], 0, entered);
      } else if lookup == Guarded && i == |mws| {
        StepsOrdered(lookup, mws, terminal, i, terminal, 0, entered);
      }
    }
  }

  lemma {:induction false} StepsOrdered(lookup: Lookup, mws: seq<Script>, terminal: Script, i: nat, script: Script, k: nat, st: DState)
    requires i <= |mws| && k <= |script| && Ordered(st)
    ensures var r := Steps(lookup, mws, terminal, i, script, k, st); Ordered(r.st) && Extends(st, r.st)
    decreases |mws| + 1 - i, 0, |script| - k
  {
    if k < |script| {
      match script[k]
      case Next =>
        var r := Stage(lookup, mws, terminal, i + 1, st);
        StageOrdered(lookup, mws, terminal, i + 1, st);
        if r.outcome.Resolved? {
          StepsOrdered(lookup, mws, terminal, i, script, k + 1, r.st);
        }
      case Emit(l) =>
        StepsOrdered(lookup, mws, terminal, i, script, k + 1, st.(trace := st.trace + [Emitted(i, l)]));
      case Throw(_) =>
      case Write(e, v) =>
        StepsOrdered(lookup, mws, terminal, i, script, k + 1, st.(ctx := WithResponse(st.ctx, e, v)));
    }
  }

  /**
   * Whatever the middlewares do (call `next` twice, throw, write), no stage is
   * entered twice within one dispatch, and stages are entered in increasing order.
   */
  lemma EachStageAtMostOnce(lookup: Lookup, mws: seq<Script>, terminal: Script, c: Ctx)
    ensures var tr := Dispatched(lookup, mws, terminal, c).st.trace;
      forall a, b :: 0 <= a < b < |tr| && tr[a].Enter? && tr[b].Enter? ==> tr[a].stage < tr[b].stage
  {
    StageOrdered(lookup, mws, terminal, 0, Initial(c));
  }

  /** Calling `next` again after it ran rejects at once and changes nothing. */
  lemma RepeatedNextRejects(lookup: Lookup, mws: seq<Script>, terminal: Script, i: nat, st: DState)
    requires i <= |mws| + 1 && i <= st.index
    ensures Stage(lookup, mws, terminal, i, st) == Ran(Rejected(CALLED_TWICE), st)
  {
  }

  // ---------------------------------------------------------------------
  // Well-behaved chains run in registration order and reach the terminal once

  /** A step that neither continues nor throws. */
  predicate Quiet(s: Step) {
    s.Emit? || s.Write?
  }

  predicate AllQuiet(script: Script) {
    forall k :: 0 <= k < |script| ==> Quiet(script[k])
  }

  /** A middleware that emits, awaits `next()` exactly once, and emits again. */
  predicate PassesOnce(script: Script) {
    exists p :: 0 <= p < |script| && script[p] == Next && AllQuiet(script[..p]) && AllQuiet(script[p + 1..])
  }

  /** The context after the writes of a quiet script. */
  function ApplyWrites(c: Ctx, script: Script): Ctx
    decreases |script|
  {
    if script == [] then c
    else ApplyWrites(if script[0].Write? then WithResponse(c, script[0].error, script[0].result) else c, script[1..])
  }

  /** The events a quiet script emits at stage `i`. */
  function EmitsOf(i: nat, script: Script): seq<Event>
    decreases |script|
  {
    if script == [] then []
    else (if script[0].Emit? then [Emitted(i, script[0].tag)] else []) + EmitsOf(i, script[1..])
  }

  /** The stages entered by a trace, in order. */
  function Entered(trace: seq<Event>): seq<nat>
  {
    if trace == [] then []
    else Entered(trace[..|trace| - 1]) + (if trace[|trace| - 1].Enter? then [trace[|trace| - 1].stage] else [])
  }

  lemma {:induction false} EnteredAppend(a: seq<Event>, b: seq<Event>)
    ensures Entered(a + b) == Entered(a) + Entered(b)
    decreases |b|
  {
    if b == [] {
      assert a + b == a;
    } else {
      var b' := b[..|b| - 1];
      assert (a + b)[..|a + b| - 1] == a + b';
      EnteredAppend(a, b');
    }
  }

  lemma {:induction false} EnteredOfEmits(i: nat, script: Script)
    ensures Entered(EmitsOf(i, script)) == []
    decreases |script|
  {
    if script != [] {
      EnteredOfEmits(i, script[1..]);
      var head := if script[0].Emit? then [Emitted(i, script[0].tag)] else [];
      EnteredAppend(head, EmitsOf(i, script[1..]));
      assert Entered(head) == [] by {
        if head != [] {
          assert head[..0] == [];
        }
      }
    }
  }

  /** The consecutive stages `lo`, ..., `hi - 1`. */
  function Range(lo: nat, hi: nat): (r: seq<nat>)
    requires lo <= hi
    ensures |r| == hi - lo && (forall j :: 0 <= j < |r| ==> r[j] == lo + j)
    decreases hi - lo
  {
    if lo == hi then [] else [lo] + Range(lo + 1, hi)
  }

  lemma {:induction false} QuietSteps(lookup: Lookup, mws: seq<Script>, terminal: Script, i: nat, script: Script, k: nat, st: DState)
    requires i <= |mws| && k <= |script| && AllQuiet(script[k..])
    ensures Steps(lookup, mws, terminal, i, script, k, st) ==
      Ran(Resolved, st.(ctx := ApplyWrites(st.ctx, script[k..]), trace := st.trace + EmitsOf(i, script[k..])))
    decreases |script| - k
  {
    if k == |script| {
      assert script[k..] == [];
    } else {
      assert script[k..][0] == script[k] && script[k..][1..] == script[k + 1..];
      var rest, tail := script[k..], script[k + 1..];
      assert AllQuiet(tail) by {
        forall j | 0 <= j < |tail| ensures Quiet(tail[j]) {
          assert tail[j] == rest[j + 1];
        }
      }
      match script[k]
      case Emit(l) =>
        var st' := st.(trace := st.trace + [Emitted(i, l)]);
        QuietSteps(lookup, mws, terminal, i, script, k + 1, st');
        assert st.trace + [Emitted(i, l)] + EmitsOf(i, script[k + 1..]) == st.trace + EmitsOf(i, script[k..]);
      case Write(e, v) =>
        QuietSteps(lookup, mws, terminal, i, script, k + 1, st.(ctx := WithResponse(st.ctx, e, v)));
        assert [] + EmitsOf(i, script[k + 1..]) == EmitsOf(i, script[k + 1..]);
    }
  }

  /** Running a quiet prefix up to the `Next` at position `p`, then continuing. */
  lemma {:induction false} StepsThroughNext(lookup: Lookup, mws: seq<Script>, terminal: Script, i: nat, script: Script, k: nat, p: nat, st: DState)
    requires i <= |mws| && k <= p < |script| && script[p] == Next
    requires forall j :: k <= j < p ==> Quiet(script[j])
    ensures var mid := st.(ctx := ApplyWrites(st.ctx, script[k..p]), trace := st.trace + EmitsOf(i, script[k..p]));
      var r := Stage(lookup, mws, terminal, i + 1, mid);
      Steps(lookup, mws, terminal, i, script, k, st) ==
        if r.outcome.Rejected? then r else Steps(lookup, mws, terminal, i, script, p + 1, r.st)
    decreases p - k
  {
    if k == p {
      assert script[k..p] == [];
      assert st.trace + [] == st.trace;
    } else {
      assert script[k..p][0] == script[k] && script[k..p][1..] == script[k + 1..p];
      match script[k]
      case Emit(l) =>
        var st' := st.(trace := st.trace + [Emitted(i, l)]);
        StepsThroughNext(lookup, mws, terminal, i, script, k + 1, p, st');
        assert st.trace + [Emitted(i, l)] + EmitsOf(i, script[k + 1..p]) == st.trace + EmitsOf(i, script[k..p]);
      case Write(e, v) =>
        StepsThroughNext(lookup, mws, terminal, i, script, k + 1, p, st.(ctx := WithResponse(st.ctx, e, v)));
        assert [] + EmitsOf(i, script[k + 1..p]) == EmitsOf(i, script[k + 1..p]);
    }
  }

  /** Middlewares that each await `next()` once and do not write the context. */
  predicate Passing(mws: seq<Script>) {
    forall j :: 0 <= j < |mws| ==> PassesOnce(mws[j]) && forall k :: 0 <= k < |mws[j]| ==> !mws[j][k].Write?
  }

  /** Passing middlewares, and a terminal that emits and writes but never calls or throws. */
  predicate WellBehaved(mws: seq<Script>, terminal: Script) {
    Passing(mws) && AllQuiet(terminal)
  }

  lemma {:induction false} ApplyWritesNoWrites(c: Ctx, script: Script)
    requires forall k :: 0 <= k < |script| ==> !script[k].Write?
    ensures ApplyWrites(c, script) == c
    decreases |script|
  {
    if script != [] {
      ApplyWritesNoWrites(c, script[1..]);
    }
  }

  /**
   * A middleware that passes once, seen from outside: its effect is that of
   * stage `i + 1` run after the emits before its `Next`, plus emits after it.
   */
  lemma {:induction false} PassingMiddleware(lookup: Lookup, mws: seq<Script>, terminal: Script, i: nat, p: nat, st: DState)
    requires i < |mws| && p < |mws[i]| && mws[i][p] == Next
    requires AllQuiet(mws[i][..p]) && AllQuiet(mws[i][p + 1..])
    requires forall k :: 0 <= k < |mws[i]| ==> !mws[i][k].Write?
    ensures var script := mws[i];
      var mid := st.(trace := st.trace + EmitsOf(i, script[..p]));
      var r := Stage(lookup, mws, terminal, i + 1, mid);
      var s := Steps(lookup, mws, terminal, i, script, 0, st);
      && Entered(mid.trace) == Entered(st.trace)
      && (r.outcome.Rejected? ==> s == r)
      && (r.outcome.Resolved? ==> s.outcome == Resolved && s.st.ctx == r.st.ctx && Entered(s.st.trace) == Entered(r.st.trace))
  {
    var script := mws[i];
    var pre := script[..p];
    assert forall j :: 0 <= j < p ==> Quiet(script[j]) by {
      forall j | 0 <= j < p ensures Quiet(script[j]) { assert pre[j] == script[j]; }
    }
    assert script[0..p] == pre;
    StepsThroughNext(lookup, mws, terminal, i, script, 0, p, st);
    ApplyWritesNoWrites(st.ctx, pre);
    var mid := st.(trace := st.trace + EmitsOf(i, pre));
    EnteredAppend(st.trace, EmitsOf(i, pre));
    EnteredOfEmits(i, pre);
    var r := Stage(lookup, mws, terminal, i + 1, mid);
    if r.outcome.Resolved? {
      QuietSteps(lookup, mws, terminal, i, script, p + 1, r.st);
      var post := script[p + 1..];
      ApplyWritesNoWrites(r.st.ctx, post) by {
        forall k | 0 <= k < |post| ensures !post[k].Write? {
          assert post[k] == script[p + 1 + k];
        }
      }
      EnteredAppend(r.st.trace, EmitsOf(i, post));
      EnteredOfEmits(i, post);
    }
  }

  /**
   * Stage `i < |mws|` of a well-behaved chain, seen from outside: it is stage
   * `i + 1` entered from `mid`, which has entered `i` and left the context alone.
   */
  lemma PassingStage(lookup: Lookup, mws: seq<Script>, terminal: Script, i: nat, st: DState) returns (mid: DState)
    requires i < |mws| && st.index == i - 1 && Passing(mws)
    ensures mid.index == i && mid.ctx == st.ctx
    ensures Entered(mid.trace) == Entered(st.trace) + [i]
    ensures var r := Stage(lookup, mws, terminal, i + 1, mid);
      var s := Stage(lookup, mws, terminal, i, st);
      && (r.outcome.Rejected? ==> s == r)
      && (r.outcome.Resolved? ==> s.outcome == Resolved && s.st.ctx == r.st.ctx && Entered(s.st.trace) == Entered(r.st.trace))
  {
    var entered := st.(index := i, trace := st.trace + [Enter(i)]);
    assert Entered(entered.trace) == Entered(st.trace) + [i];
    var script := mws[i];
    assert PassesOnce(script) && forall k :: 0 <= k < |script| ==> !script[k].Write?;
    var p :| 0 <= p < |script| && script[p] == Next && AllQuiet(script[..p]) && AllQuiet(script[p + 1..]);
    assert Stage(lookup, mws, terminal, i, st) == Steps(lookup, mws, terminal, i, script, 0, entered);
    PassingMiddleware(lookup, mws, terminal, i, p, entered);
    mid := entered.(trace := entered.trace + EmitsOf(i, script[..p]));
  }

  lemma {:induction false} GuardedStageRuns(mws: seq<Script>, terminal: Script, i: nat, st: DState)
    requires i <= |mws| && st.index == i - 1 && WellBehaved(mws, terminal)
    ensures var r := Stage(Guarded, mws, terminal, i, st);
      && r.outcome == Resolved
      && r.st.ctx == ApplyWrites(st.ctx, terminal)
      && Entered(r.st.trace) == Entered(st.trace) + Range(i, |mws| + 1)
    decreases |mws| - i
  {
    if i == |mws| {
      GuardedTerminalRuns(mws, terminal, st);
    } else {
      var mid := PassingStage(Guarded, mws, terminal, i, st);
      GuardedStageRuns(mws, terminal, i + 1, mid);
      assert Range(i, |mws| + 1) == [i] + Range(i + 1, |mws| + 1);
    }
  }

  lemma QuietTerminal(mws: seq<Script>, terminal: Script, st: DState)
    requires AllQuiet(terminal)
    ensures Steps(Guarded, mws, terminal, |mws|, terminal, 0, st) ==
      Ran(Resolved, st.(ctx := ApplyWrites(st.ctx, terminal), trace := st.trace + EmitsOf(|mws|, terminal)))
  {
    assert terminal[0..] == terminal;
    QuietSteps(Guarded, mws, terminal, |mws|, terminal, 0, st);
  }

  /** The last stage of a guarded dispatch runs the terminal and resolves. */
  lemma GuardedTerminalRuns(mws: seq<Script>, terminal: Script, st: DState)
    requires st.index == |mws| - 1 && AllQuiet(terminal)
    ensures var r := Stage(Guarded, mws, terminal, |mws|, st);
      && r.outcome == Resolved
      && r.st.ctx == ApplyWrites(st.ctx, terminal)
      && Entered(r.st.trace) == Entered(st.trace) + Range(|mws|, |mws| + 1)
  {
    var i := |mws|;
    var entered := st.(index := i, trace := st.trace + [Enter(i)]);
    assert Stage(Guarded, mws, terminal, i, st) == Steps(Guarded, mws, terminal, i, terminal, 0, entered);
    QuietTerminal(mws, terminal, entered);
    var trace := entered.trace + EmitsOf(i, terminal);
    assert Entered(trace) == Entered(st.trace) + [i] by {
      EnteredAppend(st.trace, [Enter(i)]);
      EnteredAppend(entered.trace, EmitsOf(i, terminal));
      EnteredOfEmits(i, terminal);
    }
    assert Range(i, |mws| + 1) == [i];
  }

  /**
   * With middlewares that each await `next()` once, a guarded dispatch enters
   * stage 0, 1, ..., |mws| in registration order, reaches the terminal exactly
   * once and leaves the context as the terminal wrote it.
   */
  lemma RegistrationOrder(mws: seq<Script>, terminal: Script, c: Ctx)
    requires WellBehaved(mws, terminal)
    ensures var r := Dispatched(Guarded, mws, terminal, c);
      && r.outcome == Resolved
      && Entered(r.st.trace) == Range(0, |mws| + 1)
      && r.st.ctx == ApplyWrites(c, terminal)
  {
    GuardedStageRuns(mws, terminal, 0, Initial(c));
  }

  lemma ThrowingStep(lookup: Lookup, mws: seq<Script>, terminal: Script, i: nat, script: Script, k: nat, st: DState)
    requires i <= |mws| && k < |script| && script[k].Throw?
    ensures Steps(lookup, mws, terminal, i, script, k, st) == Ran(Rejected(script[k].thrown), st)
  {
  }

  /** The last stage of a guarded dispatch runs a terminal that throws at once. */
  lemma GuardedTerminalThrows(mws: seq<Script>, terminal: Script, st: DState)
    requires st.index == |mws| - 1 && |terminal| > 0 && terminal[0].Throw?
    ensures var r := Stage(Guarded, mws, terminal, |mws|, st);
      && r.outcome == Rejected(terminal[0].thrown)
      && r.st.ctx == st.ctx
      && Entered(r.st.trace) == Entered(st.trace) + Range(|mws|, |mws| + 1)
  {
    var i := |mws|;
    var entered := st.(index := i, trace := st.trace + [Enter(i)]);
    assert Stage(Guarded, mws, terminal, i, st) == Steps(Guarded, mws, terminal, i, terminal, 0, entered);
    ThrowingStep(Guarded, mws, terminal, i, terminal, 0, entered);
    assert entered.trace[..|entered.trace| - 1] == st.trace;
    assert Entered(entered.trace) == Entered(st.trace) + [i];
    assert Range(i, |mws| + 1) == [i];
  }

  /**
   * A guarded dispatch through passing middlewares to a terminal that throws
   * rejects with the terminal's error and leaves the context as it was.
   */
  lemma {:induction false} GuardedStageThrows(mws: seq<Script>, terminal: Script, i: nat, st: DState)
    requires i <= |mws| && st.index == i - 1 && Passing(mws)
    requires |terminal| > 0 && terminal[0].Throw?
    ensures var r := Stage(Guarded, mws, terminal, i, st);
      && r.outcome == Rejected(terminal[0].thrown)
      && r.st.ctx == st.ctx
      && Entered(r.st.trace) == Entered(st.trace) + Range(i, |mws| + 1)
    decreases |mws| - i
  {
    if i == |mws| {
      GuardedTerminalThrows(mws, terminal, st);
    } else {
      var mid := PassingStage(Guarded, mws, terminal, i, st);
      GuardedStageThrows(mws, terminal, i + 1, mid);
      assert Range(i, |mws| + 1) == [i] + Range(i + 1, |mws| + 1);
    }
  }

  /** Stage `|mws|` as written: reading `middlewares[length].fn` throws. */
  lemma AsWrittenLastStageFails(mws: seq<Script>, terminal: Script, st: DState)
    requires st.index == |mws| - 1
    ensures var r := Stage(AsWritten, mws, terminal, |mws|, st);
      && r.outcome == Rejected(NO_SUCH_MIDDLEWARE)
      && r.st.ctx == st.ctx
      && Entered(r.st.trace) == Entered(st.trace) + Range(|mws|, |mws| + 1)
  {
    var i := |mws|;
    var entered := st.(index := i, trace := st.trace + [Enter(i)]);
    assert Stage(AsWritten, mws, terminal, i, st) == Ran(Rejected(NO_SUCH_MIDDLEWARE), entered);
    assert entered.trace[..|entered.trace| - 1] == st.trace;
    assert Entered(entered.trace) == Entered(st.trace) + [i];
    assert Range(i, |mws| + 1) == [i];
  }

  lemma {:induction false} AsWrittenStageFails(mws: seq<Script>, terminal: Script, i: nat, st: DState)
    requires i <= |mws| && st.index == i - 1 && Passing(mws)
    ensures var r := Stage(AsWritten, mws, terminal, i, st);
      && r.outcome == Rejected(NO_SUCH_MIDDLEWARE)
      && r.st.ctx == st.ctx
      && Entered(r.st.trace) == Entered(st.trace) + Range(i, |mws| + 1)
    decreases |mws| - i
  {
    if i == |mws| {
      AsWrittenLastStageFails(mws, terminal, st);
    } else {
      var mid := PassingStage(AsWritten, mws, terminal, i, st);
      AsWrittenStageFails(mws, terminal, i + 1, mid);
      assert Range(i, |mws| + 1) == [i] + Range(i + 1, |mws| + 1);
    }
  }

  /**
   * As written, a chain of passing middlewares never runs the terminal, whatever
   * it is: the lookup
   * of `middlewares[length].fn` throws, the dispatch rejects, and the context is
   * left exactly as it was.
   */
  lemma AsWrittenSkipsTerminal(mws: seq<Script>, terminal: Script, c: Ctx)
    requires Passing(mws)
    ensures var r := Dispatched(AsWritten, mws, terminal, c);
      && r.outcome == Rejected(NO_SUCH_MIDDLEWARE)
      && r.st.ctx == c
      && Entered(r.st.trace) == Range(0, |mws| + 1)
  {
    AsWrittenStageFails(mws, terminal, 0, Initial(c));
  }

  // ---------------------------------------------------------------------
  // The mutable objects

  class Composer {
    var middlewares: seq<Script>

    constructor ()
      ensures middlewares == []
    {
      middlewares := [];
    }

    /** `use(middleware)`: appends. */
    method Use(middleware: Script)
      modifies this
      ensures middlewares == old(middlewares) + [middleware]
    {
      middlewares := middlewares + [middleware];
    }

    /**
     * `dispatch(context, next)`. `lookup` chooses the stage lookup: `AsWritten`
     * is the source's, `Guarded` the corrected one.
     */
    method Dispatch(lookup: Lookup, context: RequestContext, terminal: Script) returns (outcome: Outcome)
      modifies context
      ensures var r := Dispatched(lookup, middlewares, terminal, old(context.State()));
        outcome == r.outcome && context.State() == r.st.ctx
    {
      var d := new Dispatcher(lookup, middlewares, terminal, context);
      outcome := d.Dispatch(0);
    }
  }

  /** The closure of one `compose()(context, next)` call: its `index` variable. */
  class Dispatcher {
    const lookup: Lookup
    const middlewares: seq<Script>
    const terminal: Script
    const context: RequestContext
    var index: int
    var trace: seq<Event>

    function State(): DState
      reads this, context
    {
      DState(index, context.State(), trace)
    }

    constructor (lookup: Lookup, middlewares: seq<Script>, terminal: Script, context: RequestContext)
      ensures this.lookup == lookup && this.middlewares == middlewares && this.terminal == terminal
      ensures this.context == context && State() == Initial(context.State())
    {
      this.lookup := lookup;
      this.middlewares := middlewares;
      this.terminal := terminal;
      this.context := context;
      index := -1;
      trace := [];
    }

    /** `dispatch(i)`. */
    method Dispatch(i: nat) returns (outcome: Outcome)
      requires i <= |middlewares| + 1
      modifies this, context
      ensures Ran(outcome, State()) == Stage(lookup, middlewares, terminal, i, old(State()))
      decreases |middlewares| + 1 - i, 1
    {
      if i <= index {
        return Rejected(CALLED_TWICE);
      }
      index := i;
      trace := trace + [Enter(i)];
      if i < |middlewares| {
        outcome := RunFn(i, middlewares[i]);
      } else if lookup == AsWritten {
        outcome := Rejected(NO_SUCH_MIDDLEWARE);
      } else if i == |middlewares| {
        outcome := RunFn(i, terminal);
      } else {
        outcome := Resolved;
      }
    }

    /** Runs stage `i`'s function, whose `next` is `dispatch(i + 1)`. */
    method RunFn(i: nat, script: Script) returns (outcome: Outcome)
      requires i <= |middlewares|
      modifies this, context
      ensures Ran(outcome, State()) == Steps(lookup, middlewares, terminal, i, script, 0, old(State()))
      decreases |middlewares| + 1 - i, 0
    {
      var k := 0;
      while k < |script|
        invariant 0 <= k <= |script|
        invariant Steps(lookup, middlewares, terminal, i, script, k, State())
               == Steps(lookup, middlewares, terminal, i, script, 0, old(State()))
      {
        match script[k] {
          case Next =>
            var o := Dispatch(i + 1);
            if o.Rejected? {
              return o;
            }
          case Emit(l) =>
            trace := trace + [Emitted(i, l)];
          case Throw(e) =>
            return Rejected(e);
          case Write(e, v) =>
            context.SetResponse(e, v);
        }
        k := k + 1;
      }
      outcome := Resolved;
    }
  }
}
