/** The second phase of startup: folding the stored settings into the first-pass configuration. */
module Startup {
  import opened Wrappers
  import opened Params

  datatype Booted<C, E> = Booted(
    config: C, confirmable: Option<int>, applied: bool, error: Option<E>)

  /**
   `first` is what resolved without the store and `resolve` what resolving with a stored layer
   yields. A layer that does not resolve is skipped, and then nothing may be confirmed: serving
   proves nothing about settings that were never applied.
   */
  function ApplyStored<C, E>(first: C, resolve: Layer -> Result<C, E>, stored: Layer,
                             generation: Option<int>): (b: Booted<C, E>)
    ensures b.applied <==> stored == map[] || resolve(stored).Success?
    ensures b.confirmable == if b.applied then generation else None
    ensures b.applied && stored != map[] ==> resolve(stored) == Success(b.config)
    ensures stored == map[] || !b.applied ==> b.config == first
    ensures if b.applied then b.error.None? else b.error.Some? && resolve(stored) == Failure(b.error.value)
  {
    if stored == map[] then Booted(first, generation, true, None)
    else
      match resolve(stored)
      case Success(config) => Booted(config, generation, true, None)
      case Failure(e) => Booted(first, None, false, Some(e))
  }
}
