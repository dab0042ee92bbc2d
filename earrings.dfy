/** The earring counter of a player: one of three values with saturating steps
    (bprincess/gamestate.py, class EarringCount). */
module Earrings {

  /** The three members of the integer enumeration EarringCount. */
  datatype EarringCount = Zero | One | Two {

    /** The integer value of the enumeration member. */
    function Value(): (v: nat)
      ensures v <= 2
    {
      match this
      case Zero => 0
      case One => 1
      case Two => 2
    }

    /** One more earring, saturating at Two. */
    function Increment(): (r: EarringCount)
      ensures r.Value() == if Value() == 2 then 2 else Value() + 1
    {
      if this == Zero then One else Two
    }

    /** One earring fewer, saturating at Zero. */
    function Decrement(): (r: EarringCount)
      ensures r.Value() == if Value() == 0 then 0 else Value() - 1
    {
      if this == Two then One else Zero
    }
  }

  /** The value determines the member, so the counter never leaves {0, 1, 2}
      and the three members are distinct. */
  lemma ValueInjective(a: EarringCount, b: EarringCount)
    ensures a.Value() == b.Value() <==> a == b
  {
  }

  /** Incrementing then decrementing undoes the step, except at the top,
      where the increment saturated. */
  lemma IncrementThenDecrement(v: EarringCount)
    ensures v.Increment().Decrement() == if v == Two then One else v
  {
  }

  /** Decrementing then incrementing undoes the step, except at the bottom,
      where the decrement saturated. */
  lemma DecrementThenIncrement(v: EarringCount)
    ensures v.Decrement().Increment() == if v == Zero then One else v
  {
  }
}
