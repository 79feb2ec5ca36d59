/** The `SkadiState` extension functions of skadi-lib: `same()` and `signal(signal)`. */
module States {

  import opened Wrappers
  import opened Effects
  import opened Builder

  /** `s.same()`: the top-level `state { s }`. */
  function Same<S, A, G>(s: S): SkadiEffect<S, A, G>
  {
    StateEffect(s)
  }

  /** `same()` keeps the state, has no actions and no signals, and is what a builder
      that only set the state builds. */
  lemma SameKeepsState<S, A, G>(s: S)
    ensures Same<S, A, G>(s) == SkadiEffect(s, [], [])
    ensures Build(WithState(Empty<S, A, G>(), s)) == Success(Same<S, A, G>(s))
  {
    StateOnly<S, A, G>(s);
  }

  /** The block `s.signal(g)` runs inside `effect { }`: the state, then the signal. */
  function SignalBlock<S, A, G>(s: S, g: G): seq<Call<S, A, G>>
  {
    [StateCall(s), SignalCall(g)]
  }

  /** The block sets the state before anything else, so its build never reaches the
      missing-state failure; it yields `s`, no actions and exactly the signal `g`. */
  lemma SignalBlockBuilds<S, A, G>(s: S, g: G)
    ensures EffectOf(SignalBlock<S, A, G>(s, g)) == Success(SkadiEffect(s, [], [g]))
  {
    var block := SignalBlock<S, A, G>(s, g);
    assert block[0].StateCall?;
    assert block[..1] == [StateCall(s)] && block[..1][..0] == [];
    assert LastState(block, None) == LastState(block[..1], None) == Some(s);
    assert LastActions(block, []) == LastActions(block[..1], []) == LastActions(block[..1][..0], []) == [];
  }

  /** `s.signal(g)`: `effect { state { s }; signal { g } }`. */
  function Signal<S, A, G>(s: S, g: G): SkadiEffect<S, A, G>
  {
    SignalBlockBuilds<S, A, G>(s, g);
    EffectOf(SignalBlock<S, A, G>(s, g)).value
  }
}
