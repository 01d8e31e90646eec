/** The strategy factory: a tag names a strategy, and only the maximally
    greedy one can be built; every other tag is refused. */
module AlgorithmFactory {
  import opened Greedy

  /** The tags of `AlgorithmTypes`, in their declared order 0, 1, 2. */
  datatype AlgorithmTypes = MaximallyGreedy | RandomChoice | Other

  /** What `algorithm_create` gives back: the new instance, or the message of
      the `KeyError` it raises. */
  datatype Result<T> = Success(value: T) | Failure(error: string)

  /** The message of the refusal. */
  const NotImplemented: string := "Not yet implemented"

  /** `algorithm_create` with the default starting balance and shares 0. The
      greedy tag builds a fresh greedy instance with one-entry histories; any
      other tag, the random one included, is refused with the same message. */
  method AlgorithmCreate(choice: AlgorithmTypes, startingBalance: real := 0.0, startingShares: real := 0.0)
    returns (r: Result<MaximallyGreedyAlgorithm>)
    ensures r.Success? <==> choice == MaximallyGreedy
    ensures r.Failure? ==> r.error == NotImplemented
    ensures r.Success? ==>
      && fresh(r.value) && fresh(r.value.base) && r.value.Valid()
      && r.value.base.currentIndex == 0 && r.value.base.seenDataPoints == []
      && r.value.base.worthHistory == []
      && r.value.base.balanceHistory == [startingBalance]
      && r.value.base.sharesHistory == [startingShares]
  {
    match choice {
      case MaximallyGreedy =>
        var algorithm := new MaximallyGreedyAlgorithm(startingBalance, startingShares);
        r := Success(algorithm);
      case _ =>
        r := Failure(NotImplemented);
    }
  }
}
