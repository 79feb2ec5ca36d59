/** The deterministic core of `SkadiStore<State, Action, Signal>` (skadi-lib): the actor
    that reduces changes one at a time, and the side-effect and signal dispatch after each
    reduction. Coroutines become explicit queues: `changes` is the actor's channel,
    `pending` the launched action-handler tasks, `sent` the launched signal sends. */
module Store {

  import opened Wrappers
  import opened Faults
  import opened Effects

  /** Whether the actor's `for (change in channel)` loop is still alive. A reducer that
      throws ends it; nothing queued afterwards is ever reduced. */
  datatype Loop = Running | Stopped(cause: Fault)

  datatype SkadiStore<S, C, A, G> = SkadiStore(
    /** `_stateFlow.value` */
    state: S,
    /** The values the state flow has emitted, oldest first. */
    history: seq<S>,
    /** Changes sent to the actor and not yet reduced, in channel order. */
    changes: seq<C>,
    /** Launched action-handler tasks that have not resolved yet. */
    pending: seq<A>,
    /** One entry per launched signal send, in launch order. */
    sent: seq<G>,
    /** Exceptions that surfaced on the owning scope: those of launched handler tasks,
        and the reducer's exception that ended the actor. */
    uncaught: seq<Fault>,
    loop: Loop)

  /** The two constructor functions. A throwing reducer or handler returns `Failure`. */
  datatype Handlers<!S, !C, !A, G> = Handlers(
    reducer: (S, C) -> Result<SkadiEffect<S, A, G>, Fault>,
    actions: A -> Result<C, Fault>)

  /** The default `actions` argument: every action it is handed throws. */
  function UnhandledAction<A, C>(a: A): Result<C, Fault>
  {
    Failure(UnhandledActionError)
  }

  /** A store built without the `actions` argument. */
  function WithoutActions<S, C, A, G>(reducer: (S, C) -> Result<SkadiEffect<S, A, G>, Fault>): Handlers<S, C, A, G>
  {
    Handlers(reducer, UnhandledAction)
  }

  function Last<T>(xs: seq<T>): T
    requires |xs| > 0
  {
    xs[|xs| - 1]
  }

  /** No value follows an equal one. */
  ghost predicate NoRepeats<S>(h: seq<S>)
  {
    forall i | 0 < i < |h| :: h[i - 1] != h[i]
  }

  /** The state flow's invariant: it has emitted at least the initial value, the last
      emission is the current state, and it never emitted the same value twice in a row. */
  ghost predicate Valid<S, C, A, G>(st: SkadiStore<S, C, A, G>)
  {
    && |st.history| > 0
    && Last(st.history) == st.state
    && NoRepeats(st.history)
  }

  /** A freshly constructed store. */
  function New<S, C, A, G>(initial: S): SkadiStore<S, C, A, G>
  {
    SkadiStore(initial, [initial], [], [], [], [], Running)
  }

  /** A fresh store's flow holds `initialState` and has emitted only it, nothing is
      queued or launched, the actor is alive, and the flow invariant holds from the start. */
  lemma NewIsValid<S, C, A, G>(initial: S)
    ensures var st := New<S, C, A, G>(initial);
      && st.state == initial && st.history == [initial]
      && st.changes == [] && st.pending == [] && st.sent == [] && st.uncaught == []
      && st.loop == Running
      && Valid(st)
  {
  }

  /** One observer-visible update of a conflating state flow: a value equal to the
      latest emission is dropped. */
  function Push<S(==)>(h: seq<S>, x: S): seq<S>
    requires |h| > 0
  {
    if x == Last(h) then h else h + [x]
  }

  /** The emissions after a series of assignments `xs`, starting from emissions `h`. */
  function Conflate<S(==)>(h: seq<S>, xs: seq<S>): seq<S>
    requires |h| > 0
    decreases |xs|
  {
    if |xs| == 0 then h else Conflate(Push(h, xs[0]), xs[1..])
  }

  /** The emissions keep every assigned value, in order, never two equal ones in a row,
      and end with the last assignment. */
  lemma {:induction false} ConflateEmitsChanges<S>(h: seq<S>, xs: seq<S>)
    requires |h| > 0 && NoRepeats(h)
    ensures h <= Conflate(h, xs)
    ensures NoRepeats(Conflate(h, xs))
    ensures Last(Conflate(h, xs)) == if |xs| == 0 then Last(h) else Last(xs)
    ensures forall x | x in xs :: x in Conflate(h, xs)
    decreases |xs|
  {
    if |xs| > 0 {
      var h' := Push(h, xs[0]);
      assert NoRepeats(h');
      ConflateEmitsChanges(h', xs[1..]);
      assert xs == [xs[0]] + xs[1..];
      assert xs[0] in h';
      forall x | x in xs
        ensures x in Conflate(h, xs)
      {
        if x != xs[0] {
          assert x in xs[1..];
        }
      }
    }
  }

  /** `a` is `b` with some elements left out, the rest kept in order. */
  ghost predicate Subsequence<T>(a: seq<T>, b: seq<T>)
    decreases |b|
  {
    || |a| == 0
    || (|b| > 0 && ((a[0] == b[0] && Subsequence(a[1..], b[1..])) || Subsequence(a, b[1..])))
  }

  /** The converse: the flow emits nothing that was not assigned. Its new emissions are
      some of the assigned values, in assignment order, at most one per assignment. */
  lemma {:induction false} ConflateEmitsOnlyAssignments<S>(h: seq<S>, xs: seq<S>)
    requires |h| > 0
    ensures h <= Conflate(h, xs) && |Conflate(h, xs)| <= |h| + |xs|
    ensures forall i | |h| <= i < |Conflate(h, xs)| :: Conflate(h, xs)[i] in xs
    ensures Subsequence(Conflate(h, xs)[|h|..], xs)
    decreases |xs|
  {
    var c := Conflate(h, xs);
    if |xs| == 0 {
      assert c[|h|..] == [];
    } else {
      var h' := Push(h, xs[0]);
      ConflateEmitsOnlyAssignments(h', xs[1..]);
      assert c == Conflate(h', xs[1..]);
      if xs[0] == Last(h) {
        assert Subsequence(c[|h|..], xs[1..]);
      } else {
        assert c[|h|] == h'[|h|] == xs[0];
        assert c[|h|..] == [xs[0]] + c[|h'|..];
        assert c[|h|..][1..] == c[|h'|..];
      }
      forall i | |h| <= i < |c|
        ensures c[i] in xs
      {
        if i >= |h'| {
          assert c[i] in xs[1..];
        } else {
          assert c[i] == xs[0];
        }
      }
    }
  }

  /** `_stateFlow.value = newState`. */
  function SetState<S(==), C, A, G>(st: SkadiStore<S, C, A, G>, s: S): (r: SkadiStore<S, C, A, G>)
    ensures r.state == s
    ensures r.history == st.history <==> s == st.state
    ensures s != st.state ==> r.history == st.history + [s]
    ensures r.(state := st.state, history := st.history) == st
    ensures Valid(st) ==> Valid(r) && r.history == Push(st.history, s)
  {
    st.(state := s, history := if s == st.state then st.history else st.history + [s])
  }

  /** `performSideEffect(actions)`: one handler task per action, in order. */
  function PerformSideEffect<S, C, A, G>(st: SkadiStore<S, C, A, G>, xs: seq<A>): (r: SkadiStore<S, C, A, G>)
    ensures r.pending == st.pending + xs
    ensures r.(pending := st.pending) == st
  {
    st.(pending := st.pending + xs)
  }

  /** `sendSignals(signals)`: one send per signal, in order. */
  function SendSignals<S, C, A, G>(st: SkadiStore<S, C, A, G>, gs: seq<G>): (r: SkadiStore<S, C, A, G>)
    ensures r.sent == st.sent + gs
    ensures r.(sent := st.sent) == st
  {
    st.(sent := st.sent + gs)
  }

  /** `perform(change)`: the change joins the back of the actor's channel. */
  function Perform<S, C, A, G>(st: SkadiStore<S, C, A, G>, c: C): (r: SkadiStore<S, C, A, G>)
    ensures r.changes == st.changes + [c]
    ensures r.(changes := st.changes) == st
  {
    st.(changes := st.changes + [c])
  }

  /** `performAction(action)`: one handler task, without the reducer. */
  function PerformAction<S, C, A, G>(st: SkadiStore<S, C, A, G>, a: A): (r: SkadiStore<S, C, A, G>)
    ensures r.pending == st.pending + [a]
    ensures r.state == st.state && r.history == st.history && r.changes == st.changes
    ensures r.sent == st.sent && r.uncaught == st.uncaught && r.loop == st.loop
  {
    PerformSideEffect(st, [a])
  }

  /** One turn of the actor: take the oldest change, reduce it against the current
      state, install the new state, then launch its actions and signals. A throwing
      reducer ends the actor, and its exception surfaces on the scope. `None` when the
      actor has nothing to do (empty channel) or is dead. */
  function Step<S(==), C, A, G>(h: Handlers<S, C, A, G>, st: SkadiStore<S, C, A, G>): (r: Option<SkadiStore<S, C, A, G>>)
    ensures r.Some? <==> st.loop.Running? && |st.changes| > 0
    ensures r.Some? ==> r.value.changes == st.changes[1..]
    ensures r.Some? ==> match h.reducer(st.state, st.changes[0])
      case Success(e) =>
        && r.value.state == e.state && r.value.loop == Running
        && r.value.pending == st.pending + e.actions && r.value.sent == st.sent + e.signals
        && r.value.uncaught == st.uncaught
        && (Valid(st) ==> r.value.history == Push(st.history, e.state))
      case Failure(f) =>
        && r.value.state == st.state && r.value.loop == Stopped(f)
        && r.value.pending == st.pending && r.value.sent == st.sent && r.value.history == st.history
        && r.value.uncaught == st.uncaught + [f]
    ensures r.Some? && Valid(st) ==> Valid(r.value)
  {
    if st.loop.Stopped? || |st.changes| == 0 then None
    else
      var rest := st.(changes := st.changes[1..]);
      match h.reducer(st.state, st.changes[0])
      case Failure(f) => Some(rest.(loop := Stopped(f), uncaught := st.uncaught + [f]))
      case Success(e) => Some(SendSignals(PerformSideEffect(SetState(rest, e.state), e.actions), e.signals))
  }

  /** What reducing a run of changes produces: the final state, the failure that ended
      it early if any, the state installed by each successful reduction, and the actions
      and signals launched, in order. */
  datatype Replay<S, A, G> = Replay(final: S, failure: Option<Fault>, states: seq<S>, actions: seq<A>, signals: seq<G>)

  /** Reference definition: the left fold of the reducer over the changes, each reduced
      against the state the previous one produced, stopping at the first failure. */
  function Reduce<S, C, A, G>(reducer: (S, C) -> Result<SkadiEffect<S, A, G>, Fault>, s: S, cs: seq<C>): (r: Replay<S, A, G>)
    ensures r.failure.None? ==> |r.states| == |cs|
    ensures r.failure.Some? ==> |r.states| < |cs|
    ensures r.final == if |r.states| == 0 then s else Last(r.states)
    decreases |cs|
  {
    if |cs| == 0 then Replay(s, None, [], [], [])
    else match reducer(s, cs[0])
      case Failure(f) => Replay(s, Some(f), [], [], [])
      case Success(e) =>
        var rest := Reduce(reducer, e.state, cs[1..]);
        rest.(states := [e.state] + rest.states, actions := e.actions + rest.actions, signals := e.signals + rest.signals)
  }

  /** The reducer, asked about `s` and `c`, answers with an effect whose state is `s'`. */
  ghost predicate Produces<S, C, A, G>(reducer: (S, C) -> Result<SkadiEffect<S, A, G>, Fault>, s: S, c: C, s': S)
  {
    reducer(s, c).Success? && reducer(s, c).value.state == s'
  }

  /** The state the `k`-th reduction started from: `s` for the first, else the one before. */
  function Before<S>(s: S, states: seq<S>, k: nat): S
    requires k <= |states|
  {
    if k == 0 then s else states[k - 1]
  }

  /** Each recorded state is the reducer's answer for the matching change, given the
      state recorded just before it (the starting state for the first). */
  lemma {:induction false} ReduceStepsInOrder<S, C, A, G>(reducer: (S, C) -> Result<SkadiEffect<S, A, G>, Fault>, s: S, cs: seq<C>)
    ensures var r := Reduce(reducer, s, cs);
      forall k | 0 <= k < |r.states| :: Produces(reducer, Before(s, r.states, k), cs[k], r.states[k])
    decreases |cs|
  {
    if |cs| > 0 && reducer(s, cs[0]).Success? {
      var e := reducer(s, cs[0]).value;
      var rest := Reduce(reducer, e.state, cs[1..]);
      var r := Reduce(reducer, s, cs);
      assert r.states == [e.state] + rest.states;
      ReduceStepsInOrder(reducer, e.state, cs[1..]);
      forall k | 0 <= k < |r.states|
        ensures Produces(reducer, Before(s, r.states, k), cs[k], r.states[k])
      {
        if k > 0 {
          var j := k - 1;
          assert Produces(reducer, Before(e.state, rest.states, j), cs[1..][j], rest.states[j]);
          assert Before(e.state, rest.states, j) == Before(s, r.states, k);
        }
      }
    }
  }

  /** `r1` followed by `r2`, for a first run that did not fail. */
  function Then<S, A, G>(r1: Replay<S, A, G>, r2: Replay<S, A, G>): Replay<S, A, G>
  {
    Replay(r2.final, r2.failure, r1.states + r2.states, r1.actions + r2.actions, r1.signals + r2.signals)
  }

  lemma ThenAssociative<S, A, G>(r1: Replay<S, A, G>, r2: Replay<S, A, G>, r3: Replay<S, A, G>)
    ensures Then(r1, Then(r2, r3)) == Then(Then(r1, r2), r3)
  {
  }

  /** Reducing `c1 + c2` is reducing `c1`, then reducing `c2` from where `c1` left off:
      no change of `c2` is ever reduced against a state from before `c1`, and a failure
      in `c1` means `c2` is never reduced. */
  lemma {:induction false} ReduceConcat<S, C, A, G>(reducer: (S, C) -> Result<SkadiEffect<S, A, G>, Fault>, s: S, c1: seq<C>, c2: seq<C>)
    ensures var r1 := Reduce(reducer, s, c1);
      Reduce(reducer, s, c1 + c2) == if r1.failure.Some? then r1 else Then(r1, Reduce(reducer, r1.final, c2))
    decreases |c1|
  {
    if |c1| == 0 {
      assert c1 + c2 == c2;
    } else {
      assert (c1 + c2)[0] == c1[0];
      assert (c1 + c2)[1..] == c1[1..] + c2;
      match reducer(s, c1[0])
      case Failure(f) =>
        assert Reduce(reducer, s, c1) == Replay(s, Some(f), [], [], []);
        assert Reduce(reducer, s, c1 + c2) == Replay(s, Some(f), [], [], []);
      case Success(e) =>
        var head := Replay(e.state, None, [e.state], e.actions, e.signals);
        var r1 := Reduce(reducer, e.state, c1[1..]);
        var r12 := Reduce(reducer, e.state, c1[1..] + c2);
        assert Reduce(reducer, s, c1) == Then(head, r1);
        assert Reduce(reducer, s, c1 + c2) == Then(head, r12);
        ReduceConcat(reducer, e.state, c1[1..], c2);
        if r1.failure.None? {
          var r2 := Reduce(reducer, r1.final, c2);
          assert r12 == Then(r1, r2);
          ThenAssociative(head, r1, r2);
        } else {
          assert r12 == r1;
        }
    }
  }

  /** The actor running until its channel is empty or it dies. */
  function Drain<S(==), C, A, G>(h: Handlers<S, C, A, G>, st: SkadiStore<S, C, A, G>): (r: SkadiStore<S, C, A, G>)
    ensures st.loop.Stopped? ==> r == st
    ensures st.loop.Running? ==>
      var rp := Reduce(h.reducer, st.state, st.changes);
      && r.state == rp.final
      && r.loop == (if rp.failure.None? then Running else Stopped(rp.failure.value))
      && (rp.failure.None? ==> r.changes == [])
      && r.pending == st.pending + rp.actions
      && r.sent == st.sent + rp.signals
      && r.uncaught == st.uncaught + (if rp.failure.Some? then [rp.failure.value] else [])
      && (Valid(st) ==> r.history == Conflate(st.history, rp.states))
    ensures Valid(st) ==> Valid(r)
    decreases |st.changes|
  {
    match Step(h, st)
    case None => st
    case Some(next) => Drain(h, next)
  }

  /** Draining a channel that holds a single change is exactly one turn of the actor. */
  lemma DrainSingle<S, C, A, G>(h: Handlers<S, C, A, G>, st: SkadiStore<S, C, A, G>)
    requires st.loop == Running && |st.changes| == 1 && Valid(st)
    ensures Drain(h, st) ==
      match h.reducer(st.state, st.changes[0])
      case Success(e) => SkadiStore(e.state, Push(st.history, e.state), [], st.pending + e.actions, st.sent + e.signals, st.uncaught, Running)
      case Failure(f) => st.(changes := [], uncaught := st.uncaught + [f], loop := Stopped(f))
  {
    var next := Step(h, st).value;
    assert next.changes == [];
    assert Drain(h, st) == Drain(h, next) == next;
  }

  /** Two changes performed back to back on an idle actor, reaching the channel in call
      order: the second is reduced against the state the first produced, and launches
      its actions after the first's. */
  lemma TwoChangesInOrder<S, C, A, G>(h: Handlers<S, C, A, G>, st: SkadiStore<S, C, A, G>, a: C, b: C)
    requires st.loop == Running && st.changes == []
    ensures var r := Drain(h, Perform(Perform(st, a), b));
      match h.reducer(st.state, a)
      case Failure(f) =>
        r.loop == Stopped(f) && r.state == st.state && r.changes == [b] && r.uncaught == st.uncaught + [f]
      case Success(ea) =>
        match h.reducer(ea.state, b)
        case Failure(f) =>
          && r.loop == Stopped(f) && r.state == ea.state && r.pending == st.pending + ea.actions
          && r.uncaught == st.uncaught + [f]
        case Success(eb) =>
          && r.loop == Running && r.state == eb.state
          && r.pending == st.pending + ea.actions + eb.actions
          && r.sent == st.sent + ea.signals + eb.signals
          && r.uncaught == st.uncaught
  {
    var s2 := Perform(Perform(st, a), b);
    assert s2.changes == [a, b];
    assert s2.changes[1..] == [b] && s2.changes[1..][1..] == [];
    match h.reducer(st.state, a)
    case Failure(f) =>
      assert Step(h, s2).value.changes == [b];
    case Success(ea) =>
  }

  /** A launched handler task for `pending[i]` completes. Its change joins the channel
      through `perform`; if it throws, the exception surfaces on the scope instead. The
      state, its emissions, the actor and every other task are unaffected either way. */
  function Resolve<S, C, A, G>(h: Handlers<S, C, A, G>, st: SkadiStore<S, C, A, G>, i: nat): (r: SkadiStore<S, C, A, G>)
    requires i < |st.pending|
    ensures multiset(r.pending) + multiset{st.pending[i]} == multiset(st.pending)
    ensures r.state == st.state && r.history == st.history && r.loop == st.loop && r.sent == st.sent
    ensures match h.actions(st.pending[i])
      case Success(c) => r.changes == st.changes + [c] && r.uncaught == st.uncaught
      case Failure(f) => r.changes == st.changes && r.uncaught == st.uncaught + [f]
    ensures Valid(st) ==> Valid(r)
  {
    assert st.pending == st.pending[..i] + [st.pending[i]] + st.pending[i + 1..];
    var rest := st.(pending := st.pending[..i] + st.pending[i + 1..]);
    match h.actions(st.pending[i])
    case Success(c) => Perform(rest, c)
    case Failure(f) => rest.(uncaught := st.uncaught + [f])
  }

  /** `performAction(a)` followed by that task's completion is the same as performing
      the change the handler returns (or surfacing its exception). */
  lemma PerformActionThenResolve<S, C, A, G>(h: Handlers<S, C, A, G>, st: SkadiStore<S, C, A, G>, a: A)
    ensures Resolve(h, PerformAction(st, a), |st.pending|) ==
      match h.actions(a)
      case Success(c) => Perform(st, c)
      case Failure(f) => st.(uncaught := st.uncaught + [f])
  {
    var s1 := PerformAction(st, a);
    assert s1.pending[..|st.pending|] == st.pending;
    assert s1.pending[|st.pending| + 1..] == [];
  }

  /** Without an `actions` argument every task completion throws exactly once onto the
      scope, and the actor, the state and the channel carry on untouched. */
  lemma UnhandledActionIsIsolated<S, C, A, G>(reducer: (S, C) -> Result<SkadiEffect<S, A, G>, Fault>, st: SkadiStore<S, C, A, G>, i: nat)
    requires i < |st.pending|
    ensures var r := Resolve(WithoutActions(reducer), st, i);
      && r.uncaught == st.uncaught + [UnhandledActionError]
      && r.changes == st.changes && r.state == st.state && r.history == st.history && r.loop == st.loop
      && |r.pending| == |st.pending| - 1
  {
    var r := Resolve(WithoutActions(reducer), st, i);
    assert |multiset(r.pending)| + 1 == |multiset(st.pending)|;
  }
}
