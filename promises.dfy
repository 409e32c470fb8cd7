/**
 * The promise a wrapped method returns, reduced to its settlement state:
 * it starts pending, and the first call of its resolve or reject function
 * settles it for good. `SettlementOf` is the state a list of effects leads to.
 */
module Promises {
  import opened JsValues
  import opened CallbackBridge

  datatype State = Pending | Fulfilled(value: Payload) | Rejected(reason: Payload)

  function Settled(resolver: Resolver, payload: Payload): State
  {
    if resolver == Resolve then Fulfilled(payload) else Rejected(payload)
  }

  /** The state after one effect: only a resolver call on a pending promise changes it. */
  function Step(state: State, e: Effect): State
  {
    if state.Pending? && e.ResolverCalled? then Settled(e.resolver, e.payload) else state
  }

  /** The state reached from `state` through `effects`, in order. */
  function Replay(state: State, effects: seq<Effect>): State
    decreases |effects|
  {
    if effects == [] then state else Replay(Step(state, effects[0]), effects[1..])
  }

  /** The state of a fresh promise after `effects`. */
  function SettlementOf(effects: seq<Effect>): State
  {
    Replay(Pending, effects)
  }

  /** Replaying one effect is taking one step. */
  lemma ReplayOne(state: State, e: Effect)
    ensures Replay(state, [e]) == Step(state, e)
  {
    assert [e][1..] == [];
  }

  /** Replaying two lists one after the other is replaying their concatenation. */
  lemma {:induction false} ReplayConcat(state: State, t: seq<Effect>, u: seq<Effect>)
    ensures Replay(state, t + u) == Replay(Replay(state, t), u)
    decreases |t|
  {
    if t == [] {
      assert t + u == u;
    } else {
      assert (t + u)[0] == t[0] && (t + u)[1..] == t[1..] + u;
      ReplayConcat(Step(state, t[0]), t[1..], u);
    }
  }

  /** A settled promise stays as it is, whatever is called afterwards. */
  lemma {:induction false} SettledIsFinal(state: State, effects: seq<Effect>)
    requires !state.Pending?
    ensures Replay(state, effects) == state
    decreases |effects|
  {
    if effects != [] {
      SettledIsFinal(state, effects[1..]);
    }
  }

  /** A promise is still pending exactly when no resolver has been called. */
  lemma {:induction false} PendingIffNoResolverCall(effects: seq<Effect>)
    ensures SettlementOf(effects).Pending? <==> forall i :: 0 <= i < |effects| ==> !effects[i].ResolverCalled?
    decreases |effects|
  {
    if effects != [] {
      if effects[0].ResolverCalled? {
        SettledIsFinal(Step(Pending, effects[0]), effects[1..]);
      } else {
        PendingIffNoResolverCall(effects[1..]);
        assert forall i :: 1 <= i < |effects| ==> effects[i] == effects[1..][i - 1];
      }
    }
  }

  /** The first resolver call decides the promise: later calls are ignored. */
  lemma {:induction false} FirstResolverCallWins(effects: seq<Effect>, k: nat)
    requires k < |effects| && effects[k].ResolverCalled?
    requires forall i :: 0 <= i < k ==> !effects[i].ResolverCalled?
    ensures SettlementOf(effects) == Settled(effects[k].resolver, effects[k].payload)
  {
    assert effects == effects[..k] + [effects[k]] + effects[k + 1..];
    PendingIffNoResolverCall(effects[..k]);
    ReplayConcat(Pending, effects[..k] + [effects[k]], effects[k + 1..]);
    ReplayConcat(Pending, effects[..k], [effects[k]]);
    SettledIsFinal(Settled(effects[k].resolver, effects[k].payload), effects[k + 1..]);
  }

  class Promise {
    var state: State

    constructor ()
      ensures state == Pending
    {
      state := Pending;
    }

    /** Calls the promise's resolve or reject function. */
    method Settle(resolver: Resolver, payload: Payload)
      modifies this
      ensures state == Step(old(state), ResolverCalled(resolver, payload))
      ensures old(state).Pending? ==> state == Settled(resolver, payload)
      ensures !old(state).Pending? ==> state == old(state)
    {
      if state.Pending? {
        state := Settled(resolver, payload);
      }
    }
  }
}
