/**
 * The `counter` store: one integer `value` with four actions. The store's
 * JavaScript number is modelled as an unbounded integer.
 */
module CounterStore {

  /** `INITIAL_STATE.value`. */
  const InitialValue: int := 0

  /** The store's actions, as dispatched by a caller. */
  datatype Action = Increment | Decrement | Reset | IncrementByAmount(payload: int)

  /** The value after one action. */
  function Apply(value: int, a: Action): (r: int)
    ensures a.Reset? ==> r == InitialValue
    ensures !a.Reset? ==> r - value == Delta(a)
  {
    match a
    case Increment => value + 1
    case Decrement => value - 1
    case Reset => InitialValue
    case IncrementByAmount(payload) => value + payload
  }

  /** How much a non-reset action adds. */
  function Delta(a: Action): int {
    match a
    case Increment => 1
    case Decrement => -1
    case Reset => 0
    case IncrementByAmount(payload) => payload
  }

  /** The value after each action of `actions` in turn. */
  function ApplyAll(value: int, actions: seq<Action>): int
    decreases |actions|
  {
    if actions == [] then value else Apply(ApplyAll(value, actions[..|actions| - 1]), actions[|actions| - 1])
  }

  function SumDeltas(actions: seq<Action>): int
    decreases |actions|
  {
    if actions == [] then 0 else SumDeltas(actions[..|actions| - 1]) + Delta(actions[|actions| - 1])
  }

  class Counter {
    var value: int

    /** The store's `state()`: a fresh copy of the initial state. */
    constructor ()
      ensures value == InitialValue
    {
      value := InitialValue;
    }

    /** The `getValue` getter. */
    function GetValue(): (r: int)
      reads this
      ensures r == value
    {
      value
    }

    method Increment()
      modifies this
      ensures value == old(value) + 1 && value == Apply(old(value), Action.Increment)
    {
      value := value + 1;
    }

    method Decrement()
      modifies this
      ensures value == old(value) - 1 && value == Apply(old(value), Action.Decrement)
    {
      value := value - 1;
    }

    method Reset()
      modifies this
      ensures value == InitialValue && value == Apply(old(value), Action.Reset)
    {
      value := InitialValue;
    }

    method IncrementByAmount(payload: int)
      modifies this
      ensures value == old(value) + payload && value == Apply(old(value), Action.IncrementByAmount(payload))
    {
      value := value + payload;
    }
  }

  /** `increment` followed by `decrement` restores the value. */
  lemma IncrementThenDecrement(v: int)
    ensures Apply(Apply(v, Increment), Decrement) == v
  {
  }

  /** `reset` is idempotent. */
  lemma ResetIdempotent(v: int)
    ensures Apply(Apply(v, Reset), Reset) == Apply(v, Reset) == 0
  {
  }

  /** Without a reset, a run of actions adds exactly the sum of their amounts. */
  lemma {:induction false} ApplyAllWithoutReset(v: int, actions: seq<Action>)
    requires forall i :: 0 <= i < |actions| ==> !actions[i].Reset?
    ensures ApplyAll(v, actions) == v + SumDeltas(actions)
    decreases |actions|
  {
    if actions != [] {
      ApplyAllWithoutReset(v, actions[..|actions| - 1]);
    }
  }

  /** After a reset, the value depends only on the actions that follow it. */
  lemma {:induction false} ResetForgetsHistory(v: int, before: seq<Action>, after: seq<Action>)
    ensures ApplyAll(v, before + [Reset] + after) == ApplyAll(InitialValue, after)
    decreases |after|
  {
    if after == [] {
      assert before + [Reset] + after == before + [Reset];
      assert (before + [Reset])[..|before + [Reset]| - 1] == before;
    } else {
      var all := before + [Reset] + after;
      assert all[..|all| - 1] == before + [Reset] + after[..|after| - 1];
      ResetForgetsHistory(v, before, after[..|after| - 1]);
    }
  }
}
