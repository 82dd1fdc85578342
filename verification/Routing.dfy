/** Where a failed message goes next: the decision shared by the worker and the broker model. */
module Routing {

  const MAX_INT32 := 0x7fff_ffff

  /** The next stop of a message that failed with the given retry count. */
  datatype Stop =
    | RetryQueue(i: nat)
    | MissingQueue  // the worker names a retry queue the topology never declared
    | DeadLetter

  /** declareRetryQueues skips delays that are not positive and refuses the whole topology above int32. */
  predicate Declared(delayMs: int) {
    0 < delayMs <= MAX_INT32
  }

  predicate AllDeclared(delays: seq<int>) {
    forall i | 0 <= i < |delays| :: Declared(delays[i])
  }

  function NextStop(delays: seq<int>, count: nat): Stop {
    if count >= |delays| then DeadLetter
    else if Declared(delays[count]) then RetryQueue(count)
    else MissingQueue
  }
}
