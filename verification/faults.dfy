/** The exceptions the core raises. In the Kotlin code each one is an
    IllegalStateException; they differ only in their message. */
module Faults {

  datatype Fault =
    /** `EffectBuilder.build()` was called before any `state { }`. */
    | MissingStateError
    /** An action was dispatched on a store constructed without `actions`. */
    | UnhandledActionError
    /** A reducer was handed a (state, change) pair it does not handle. */
    | UnexpectedChangeError
}
