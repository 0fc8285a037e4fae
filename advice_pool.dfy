/** `AdvicePool`: the inert shape of the two control operations an advice
    calls on the live executor. */
module AdvicePool {
  import opened Values

  /** `AdvicePool.next()` does nothing and returns `undefined`. */
  function Next(): (r: Value)
    ensures r == Undefined
  {
    Undefined
  }

  /** `AdvicePool.stop()` does nothing and returns `undefined`. */
  function Stop(): (r: Value)
    ensures r == Undefined
  {
    Undefined
  }
}
