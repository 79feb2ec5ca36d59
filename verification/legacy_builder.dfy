/** The older two-parameter `EffectBuilder<State, Action>` with its `state { }` and
    `effect { }` entry points. */
module LegacyBuilder {

  import opened Wrappers
  import opened Faults
  import opened LegacyEffects

  datatype EffectBuilder<S, A> = EffectBuilder(state: Option<S>, actions: seq<A>)

  /** A fresh builder: no state, no actions. */
  function Empty<S, A>(): EffectBuilder<S, A>
  {
    EffectBuilder(None, [])
  }

  /** `state { s }`: sets the state, keeping the actions. */
  function WithState<S, A>(b: EffectBuilder<S, A>, s: S): (r: EffectBuilder<S, A>)
    ensures r.state == Some(s) && r.actions == b.actions
  {
    b.(state := Some(s))
  }

  /** `actions { xs }`: replaces the actions by `xs`, keeping the state. */
  function WithActions<S, A>(b: EffectBuilder<S, A>, xs: seq<A>): (r: EffectBuilder<S, A>)
    ensures r.actions == xs && r.state == b.state
  {
    b.(actions := xs)
  }

  /** `action { a }`: replaces the actions by `[a]`, keeping the state. */
  function WithAction<S, A>(b: EffectBuilder<S, A>, a: A): (r: EffectBuilder<S, A>)
    ensures r.actions == [a] && r.state == b.state
  {
    WithActions(b, [a])
  }

  /** `build()`: fails exactly when no state was set, otherwise carries state and actions. */
  function Build<S, A>(b: EffectBuilder<S, A>): (r: Result<SkadiEffect<S, A>, Fault>)
    ensures r.Failure? <==> b.state.None?
    ensures r.Failure? ==> r.error == MissingStateError
    ensures r.Success? ==> Some(r.value.state) == b.state && r.value.actions == b.actions
  {
    match b.state
    case None => Failure(MissingStateError)
    case Some(s) => Success(SkadiEffect(s, b.actions))
  }

  /** One builder call made by the block handed to `effect { }`. */
  datatype Call<S, A> =
    | StateCall(s: S)
    | ActionsCall(xs: seq<A>)
    | ActionCall(a: A)

  function Apply<S, A>(b: EffectBuilder<S, A>, c: Call<S, A>): EffectBuilder<S, A>
  {
    match c
    case StateCall(s) => WithState(b, s)
    case ActionsCall(xs) => WithActions(b, xs)
    case ActionCall(a) => WithAction(b, a)
  }

  /** The builder after the calls of `block`, in order. */
  function Run<S, A>(b: EffectBuilder<S, A>, block: seq<Call<S, A>>): EffectBuilder<S, A>
    decreases |block|
  {
    if |block| == 0 then b else Apply(Run(b, block[..|block| - 1]), block[|block| - 1])
  }

  /** The value of the last `state { }` call, or `otherwise`. */
  function LastState<S, A>(block: seq<Call<S, A>>, otherwise: Option<S>): Option<S>
    decreases |block|
  {
    if |block| == 0 then otherwise
    else match block[|block| - 1]
      case StateCall(s) => Some(s)
      case _ => LastState(block[..|block| - 1], otherwise)
  }

  /** The list set by the last `actions`/`action` call, or `otherwise`. */
  function LastActions<S, A>(block: seq<Call<S, A>>, otherwise: seq<A>): seq<A>
    decreases |block|
  {
    if |block| == 0 then otherwise
    else match block[|block| - 1]
      case ActionsCall(xs) => xs
      case ActionCall(a) => [a]
      case _ => LastActions(block[..|block| - 1], otherwise)
  }

  /** Running a block is last-write-wins for each of the two fields independently. */
  lemma {:induction false} RunIsLastWriteWins<S, A>(b: EffectBuilder<S, A>, block: seq<Call<S, A>>)
    ensures Run(b, block) == EffectBuilder(LastState(block, b.state), LastActions(block, b.actions))
    decreases |block|
  {
    if |block| > 0 {
      RunIsLastWriteWins(b, block[..|block| - 1]);
    }
  }

  /** The state survives a block untouched exactly when the block has no `state { }` call. */
  lemma {:induction false} LastStateUnset<S, A>(block: seq<Call<S, A>>, otherwise: Option<S>)
    ensures (forall k | 0 <= k < |block| :: !block[k].StateCall?) ==> LastState(block, otherwise) == otherwise
    ensures (exists k | 0 <= k < |block| :: block[k].StateCall?) ==> LastState(block, otherwise).Some?
    decreases |block|
  {
    if |block| > 0 {
      var init := block[..|block| - 1];
      LastStateUnset(init, otherwise);
      if !block[|block| - 1].StateCall? {
        assert forall k | 0 <= k < |init| :: init[k] == block[k];
        if exists k | 0 <= k < |block| :: block[k].StateCall? {
          var k :| 0 <= k < |block| && block[k].StateCall?;
          assert init[k].StateCall?;
        }
      }
    }
  }

  /** `state { s }` at top level: the effect of `s` alone. */
  function StateEffect<S, A>(s: S): SkadiEffect<S, A>
  {
    SkadiEffect(s)
  }

  /** `state { s }` never fails, has no actions, and agrees with a builder that only set `s`. */
  lemma StateOnly<S, A>(s: S)
    ensures StateEffect<S, A>(s) == SkadiEffect(s, [])
    ensures Build(WithState(Empty<S, A>(), s)) == Success(StateEffect<S, A>(s))
  {
  }

  /** `effect { block }`: fails exactly when the block sets no state; otherwise state and
      actions are those of the last call writing each. */
  function EffectOf<S, A>(block: seq<Call<S, A>>): (r: Result<SkadiEffect<S, A>, Fault>)
    ensures r.Failure? <==> forall k | 0 <= k < |block| :: !block[k].StateCall?
    ensures r.Failure? ==> r.error == MissingStateError
    ensures r.Success? ==> LastState(block, None) == Some(r.value.state)
    ensures r.Success? ==> r.value.actions == LastActions(block, [])
  {
    RunIsLastWriteWins(Empty(), block);
    LastStateUnset(block, None);
    Build(Run(Empty(), block))
  }

  /** Among `action`/`actions` calls the last one wins. */
  lemma LastActionCallWins<S, A>(b: EffectBuilder<S, A>, xs: seq<A>, ys: seq<A>, a: A)
    ensures WithAction(WithActions(b, xs), a) == WithAction(b, a)
    ensures WithActions(WithAction(b, a), ys) == WithActions(b, ys)
  {
  }
}
