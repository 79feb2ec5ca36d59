/** `SkadiEffect<State, Action, Signal>` of skadi-lib: the outcome of a reducer. */
module Effects {

  /** A next state plus the actions to run and the signals to publish, both in order.
      There is no effect without a state: the field is not optional. */
  datatype SkadiEffect<S, A, G> = SkadiEffect(state: S, actions: seq<A> := [], signals: seq<G> := [])

  /** The constructor calls `SkadiEffect(state)` and `SkadiEffect(state, actions)` fill
      the omitted lists with empty ones. */
  lemma Defaults<S, A, G>(s: S, xs: seq<A>)
    ensures SkadiEffect<S, A, G>.SkadiEffect(s) == SkadiEffect(s, [], [])
    ensures SkadiEffect<S, A, G>.SkadiEffect(s, xs) == SkadiEffect(s, xs, [])
  {
  }

  /** A data class: two effects are equal exactly when all three components are. */
  lemma EqualityIsStructural<S, A, G>(e1: SkadiEffect<S, A, G>, e2: SkadiEffect<S, A, G>)
    ensures e1 == e2 <==> (e1.state == e2.state && e1.actions == e2.actions && e1.signals == e2.signals)
  {
  }
}
