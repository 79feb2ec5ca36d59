/** The older `SkadiState.same()` extension: no signals exist in this generation. */
module LegacyStates {

  import opened Wrappers
  import opened LegacyEffects
  import opened LegacyBuilder

  /** `s.same()`: the top-level `state { s }`. */
  function Same<S, A>(s: S): SkadiEffect<S, A>
  {
    StateEffect(s)
  }

  /** `same()` always succeeds, keeps `s`, has no actions, and is what a builder that
      only set the state builds. */
  lemma SameKeepsState<S, A>(s: S)
    ensures Same<S, A>(s) == SkadiEffect(s, [])
    ensures Build(WithState(Empty<S, A>(), s)) == Success(Same<S, A>(s))
  {
    StateOnly<S, A>(s);
  }
}
