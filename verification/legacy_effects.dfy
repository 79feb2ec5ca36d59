/** `SkadiEffect<State, Action>` of the older `skadi` module: no signals. */
module LegacyEffects {

  /** A next state plus the actions to run, in order; the state is never absent. */
  datatype SkadiEffect<S, A> = SkadiEffect(state: S, actions: seq<A> := [])

  /** The constructor call `SkadiEffect(state)` fills the omitted actions with an empty list. */
  lemma Defaults<S, A>(s: S)
    ensures SkadiEffect<S, A>.SkadiEffect(s) == SkadiEffect(s, [])
  {
  }

  /** A data class: two effects are equal exactly when state and actions are. */
  lemma EqualityIsStructural<S, A>(e1: SkadiEffect<S, A>, e2: SkadiEffect<S, A>)
    ensures e1 == e2 <==> (e1.state == e2.state && e1.actions == e2.actions)
  {
  }
}
