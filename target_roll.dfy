/** MegaMek's `TargetRoll` as far as the pod space uses it: an ordered list of
    modifiers, each a value with a reason, whose sum is the number a skill
    check must meet. */
module TargetRolls {

  datatype Modifier = Modifier(value: int, desc: string)

  datatype TargetRoll = TargetRoll(mods: seq<Modifier>) {

    /** `getValue()`: the sum of all modifiers. */
    function Value(): int {
      Total(mods)
    }

    /** `append(other)`: adds the other roll's modifiers after this roll's. */
    function Append(other: TargetRoll): (r: TargetRoll)
      ensures |r.mods| == |mods| + |other.mods|
      ensures r.mods[..|mods|] == mods && r.mods[|mods|..] == other.mods
      ensures r.Value() == Value() + other.Value()
    {
      TotalConcat(mods, other.mods);
      TargetRoll(mods + other.mods)
    }

    /** `addModifier(value, desc)`: adds one modifier at the end. */
    function AddModifier(value: int, desc: string): (r: TargetRoll)
      ensures |r.mods| == |mods| + 1
      ensures r.mods[..|mods|] == mods && r.mods[|mods|] == Modifier(value, desc)
      ensures r.Value() == Value() + value
    {
      TargetRoll(mods + [Modifier(value, desc)])
    }
  }

  /** `new TargetRoll(value, desc)`: a roll with one modifier. */
  function NewRoll(value: int, desc: string): (r: TargetRoll)
    ensures r.Value() == value
  {
    TargetRoll([]).AddModifier(value, desc)
  }

  function Total(mods: seq<Modifier>): int {
    if mods == [] then 0 else Total(mods[..|mods| - 1]) + mods[|mods| - 1].value
  }

  lemma {:induction false} TotalConcat(a: seq<Modifier>, b: seq<Modifier>)
    ensures Total(a + b) == Total(a) + Total(b)
  {
    if b == [] {
      assert a + b == a;
    } else {
      var b' := b[..|b| - 1];
      assert (a + b)[..|a + b| - 1] == a + b';
      TotalConcat(a, b');
    }
  }
}
