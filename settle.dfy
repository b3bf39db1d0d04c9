/**
  A JavaScript promise as seen by the code that holds its `resolve` and
  `reject` functions: the first call settles it and every later call is a
  no-op. The adapter relies on this when a validation failure rejects and
  the operation nonetheless carries on.
*/
module Settle {

  /** The values the adapter's promises are rejected with. */
  datatype Reason =
    | Message(text: string)         // a plain string handed to `reject`
    | ErrorEvent(errorName: string) // the open request's error event, handed over as is
    | DomException(name: string)    // an exception thrown by the storage engine
    | TypeError                     // a property read on `undefined` or `null`

  datatype Settlement<+T> = Pending | Fulfilled(value: T) | Rejected(reason: Reason)

  /** How a synchronous call ends: it returns a value or throws. */
  datatype Completion<+T> = Normal(value: T) | Throw(reason: Reason)

  /**
    The state after one more settling call. `attempt` is what the call
    asks for; a handler that calls neither `resolve` nor `reject` is the
    attempt `Pending`.
  */
  function Step<T>(s: Settlement<T>, attempt: Settlement<T>): Settlement<T>
  {
    if s.Pending? then attempt else s
  }

  /** The state after a series of settling calls, in call order. */
  function SettleAll<T>(s: Settlement<T>, attempts: seq<Settlement<T>>): Settlement<T>
    decreases |attempts|
  {
    if attempts == [] then s else SettleAll(Step(s, attempts[0]), attempts[1..])
  }

  /** A settled promise ignores every later call. */
  lemma {:induction false} SettledIsFinal<T>(s: Settlement<T>, attempts: seq<Settlement<T>>)
    requires !s.Pending?
    ensures SettleAll(s, attempts) == s
    decreases |attempts|
  {
    if attempts != [] {
      SettledIsFinal(Step(s, attempts[0]), attempts[1..]);
    }
  }

  /** The first call that asks to settle decides the outcome. */
  lemma {:induction false} FirstSettlementWins<T>(attempts: seq<Settlement<T>>, k: nat)
    requires k < |attempts| && !attempts[k].Pending?
    requires forall j :: 0 <= j < k ==> attempts[j].Pending?
    ensures SettleAll(Pending, attempts) == attempts[k]
    decreases k
  {
    if k == 0 {
      SettledIsFinal(attempts[0], attempts[1..]);
    } else {
      FirstSettlementWins(attempts[1..], k - 1);
    }
  }

  /** A promise whose handlers never settle it stays pending. */
  lemma {:induction false} NoSettlementStaysPending<T>(attempts: seq<Settlement<T>>)
    requires forall j :: 0 <= j < |attempts| ==> attempts[j].Pending?
    ensures SettleAll(Pending, attempts) == Pending
    decreases |attempts|
  {
    if attempts != [] {
      NoSettlementStaysPending(attempts[1..]);
    }
  }

  /** The promise behind one `new Promise((resolve, reject) => …)`. */
  class Cell<T> {
    var state: Settlement<T>

    constructor ()
      ensures state == Pending
    {
      state := Pending;
    }

    method Resolve(v: T)
      modifies this
      ensures state == Step(old(state), Fulfilled(v))
      ensures old(state).Pending? ==> state == Fulfilled(v)
      ensures !old(state).Pending? ==> state == old(state)
    {
      if state.Pending? {
        state := Fulfilled(v);
      }
    }

    method Reject(r: Reason)
      modifies this
      ensures state == Step(old(state), Rejected(r))
      ensures old(state).Pending? ==> state == Rejected(r)
      ensures !old(state).Pending? ==> state == old(state)
    {
      if state.Pending? {
        state := Rejected(r);
      }
    }
  }
}
