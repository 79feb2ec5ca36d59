/** `EffectBuilder<State, Action, Signal>` of skadi-lib and the two DSL entry points
    `state { }` and `effect { }`. */
module Builder {

  import opened Wrappers
  import opened Faults
  import opened Effects

  /** The builder's three private fields: an optional state and the two lists. */
  datatype EffectBuilder<S, A, G> = EffectBuilder(state: Option<S>, actions: seq<A>, signals: seq<G>)

  /** A fresh builder: no state yet, empty actions and signals. */
  function Empty<S, A, G>(): EffectBuilder<S, A, G>
  {
    EffectBuilder(None, [], [])
  }

  /** `state { s }`: sets the state, keeping the lists. */
  function WithState<S, A, G>(b: EffectBuilder<S, A, G>, s: S): (r: EffectBuilder<S, A, G>)
    ensures r.state == Some(s)
    ensures r.actions == b.actions && r.signals == b.signals
  {
    b.(state := Some(s))
  }

  /** `actions { xs }`: replaces the actions by `xs`, keeping state and signals. */
  function WithActions<S, A, G>(b: EffectBuilder<S, A, G>, xs: seq<A>): (r: EffectBuilder<S, A, G>)
    ensures r.actions == xs
    ensures r.state == b.state && r.signals == b.signals
  {
    b.(actions := xs)
  }

  /** `action { a }`: replaces the actions by the one-element list `[a]`. */
  function WithAction<S, A, G>(b: EffectBuilder<S, A, G>, a: A): (r: EffectBuilder<S, A, G>)
    ensures r.actions == [a]
    ensures r.state == b.state && r.signals == b.signals
  {
    WithActions(b, [a])
  }

  /** `signals { gs }`: replaces the signals by `gs`, keeping state and actions. */
  function WithSignals<S, A, G>(b: EffectBuilder<S, A, G>, gs: seq<G>): (r: EffectBuilder<S, A, G>)
    ensures r.signals == gs
    ensures r.state == b.state && r.actions == b.actions
  {
    b.(signals := gs)
  }

  /** `signal { g }`: replaces the signals by the one-element list `[g]`. */
  function WithSignal<S, A, G>(b: EffectBuilder<S, A, G>, g: G): (r: EffectBuilder<S, A, G>)
    ensures r.signals == [g]
    ensures r.state == b.state && r.actions == b.actions
  {
    WithSignals(b, [g])
  }

  /** `build()`: fails with the missing-state error exactly when no state was set;
      otherwise carries the state and both lists unchanged. */
  function Build<S, A, G>(b: EffectBuilder<S, A, G>): (r: Result<SkadiEffect<S, A, G>, Fault>)
    ensures r.Failure? <==> b.state.None?
    ensures r.Failure? ==> r.error == MissingStateError
    ensures r.Success? ==> Some(r.value.state) == b.state
    ensures r.Success? ==> r.value.actions == b.actions && r.value.signals == b.signals
  {
    match b.state
    case None => Failure(MissingStateError)
    case Some(s) => Success(SkadiEffect(s, b.actions, b.signals))
  }

  /** One builder call made by the block handed to `effect { }`. */
  datatype Call<S, A, G> =
    | StateCall(s: S)
    | ActionsCall(xs: seq<A>)
    | ActionCall(a: A)
    | SignalsCall(gs: seq<G>)
    | SignalCall(g: G)

  function Apply<S, A, G>(b: EffectBuilder<S, A, G>, c: Call<S, A, G>): EffectBuilder<S, A, G>
  {
    match c
    case StateCall(s) => WithState(b, s)
    case ActionsCall(xs) => WithActions(b, xs)
    case ActionCall(a) => WithAction(b, a)
    case SignalsCall(gs) => WithSignals(b, gs)
    case SignalCall(g) => WithSignal(b, g)
  }

  /** The builder after the calls of `block`, made in order (the last call is applied last). */
  function Run<S, A, G>(b: EffectBuilder<S, A, G>, block: seq<Call<S, A, G>>): EffectBuilder<S, A, G>
    decreases |block|
  {
    if |block| == 0 then b else Apply(Run(b, block[..|block| - 1]), block[|block| - 1])
  }

  /** Reference reading of the builder, one field at a time: the value of the last
      call that writes the state, or `otherwise` when there is none. */
  function LastState<S, A, G>(block: seq<Call<S, A, G>>, otherwise: Option<S>): Option<S>
    decreases |block|
  {
    if |block| == 0 then otherwise
    else match block[|block| - 1]
      case StateCall(s) => Some(s)
      case _ => LastState(block[..|block| - 1], otherwise)
  }

  /** The list set by the last `actions`/`action` call, or `otherwise` when there is none. */
  function LastActions<S, A, G>(block: seq<Call<S, A, G>>, otherwise: seq<A>): seq<A>
    decreases |block|
  {
    if |block| == 0 then otherwise
    else match block[|block| - 1]
      case ActionsCall(xs) => xs
      case ActionCall(a) => [a]
      case _ => LastActions(block[..|block| - 1], otherwise)
  }

  /** The list set by the last `signals`/`signal` call, or `otherwise` when there is none. */
  function LastSignals<S, A, G>(block: seq<Call<S, A, G>>, otherwise: seq<G>): seq<G>
    decreases |block|
  {
    if |block| == 0 then otherwise
    else match block[|block| - 1]
      case SignalsCall(gs) => gs
      case SignalCall(g) => [g]
      case _ => LastSignals(block[..|block| - 1], otherwise)
  }

  /** Running a block is last-write-wins per field, and the fields do not interfere:
      calls for one field never change another. */
  lemma {:induction false} RunIsLastWriteWins<S, A, G>(b: EffectBuilder<S, A, G>, block: seq<Call<S, A, G>>)
    ensures Run(b, block) == EffectBuilder(LastState(block, b.state), LastActions(block, b.actions), LastSignals(block, b.signals))
    decreases |block|
  {
    if |block| > 0 {
      RunIsLastWriteWins(b, block[..|block| - 1]);
    }
  }

  /** The state survives a block untouched exactly when the block has no `state { }` call. */
  lemma {:induction false} LastStateUnset<S, A, G>(block: seq<Call<S, A, G>>, otherwise: Option<S>)
    ensures (forall k | 0 <= k < |block| :: !block[k].StateCall?) ==> LastState(block, otherwise) == otherwise
    ensures (exists k | 0 <= k < |block| :: block[k].StateCall?) ==> LastState(block, otherwise).Some?
    decreases |block|
  {
    if |block| > 0 {
      var init := block[..|block| - 1];
      LastStateUnset(init, otherwise);
      if !block[|block| - 1].StateCall? {
        assert forall k | 0 <= k < |init| :: init[k] == block[k];
        if exists k | 0 <= k < |block| :: block[k].StateCall? {
          var k :| 0 <= k < |block| && block[k].StateCall?;
          assert init[k].StateCall?;
        }
      }
    }
  }

  /** `state { s }` at top level: the effect of `s` alone. */
  function StateEffect<S, A, G>(s: S): SkadiEffect<S, A, G>
  {
    SkadiEffect(s)
  }

  /** `state { s }` never fails, has no actions or signals, and agrees with a builder
      that only set `s`. */
  lemma StateOnly<S, A, G>(s: S)
    ensures StateEffect<S, A, G>(s) == SkadiEffect(s, [], [])
    ensures Build(WithState(Empty<S, A, G>(), s)) == Success(StateEffect<S, A, G>(s))
  {
  }

  /** `effect { block }`: a fresh builder, the block's calls, then `build()`. It fails
      exactly when the block never sets a state; otherwise every field holds the value
      of the last call that wrote it, defaulting to the empty list. */
  function EffectOf<S, A, G>(block: seq<Call<S, A, G>>): (r: Result<SkadiEffect<S, A, G>, Fault>)
    ensures r.Failure? <==> forall k | 0 <= k < |block| :: !block[k].StateCall?
    ensures r.Failure? ==> r.error == MissingStateError
    ensures r.Success? ==> LastState(block, None) == Some(r.value.state)
    ensures r.Success? ==> r.value.actions == LastActions(block, [])
    ensures r.Success? ==> r.value.signals == LastSignals(block, [])
  {
    RunIsLastWriteWins(Empty(), block);
    LastStateUnset(block, None);
    Build(Run(Empty(), block))
  }

  /** Calling `state { }` twice keeps the second value. */
  lemma StateTwiceKeepsLast<S, A, G>(b: EffectBuilder<S, A, G>, s1: S, s2: S)
    ensures WithState(WithState(b, s1), s2) == WithState(b, s2)
  {
  }

  /** `action { a }` discards whatever an earlier `actions`/`action` call set, and
      `signal { g }` does the same for signals. */
  lemma SingleReplacesEarlier<S, A, G>(b: EffectBuilder<S, A, G>, xs: seq<A>, a: A, gs: seq<G>, g: G)
    ensures WithAction(WithActions(b, xs), a) == WithAction(b, a)
    ensures WithSignal(WithSignals(b, gs), g) == WithSignal(b, g)
  {
  }

  /** Setters of different fields commute: no setter touches another field. */
  lemma SettersCommute<S, A, G>(b: EffectBuilder<S, A, G>, s: S, xs: seq<A>, gs: seq<G>)
    ensures WithActions(WithState(b, s), xs) == WithState(WithActions(b, xs), s)
    ensures WithSignals(WithState(b, s), gs) == WithState(WithSignals(b, gs), s)
    ensures WithSignals(WithActions(b, xs), gs) == WithActions(WithSignals(b, gs), xs)
  {
  }
}
