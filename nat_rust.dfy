/** The earlier, reduced copy of the set-tree type in nat_rust/src/lib.rs:
    the same enum, with only the extractor. The tree type is shared with
    module Anat. */
module NatRust {
  import Anat

  /** `simple_nat_to_num`: the number of elements, as `u32`. */
  function SimpleNatToNum(num: seq<Anat.NatNum>): (r: Anat.U32)
    ensures |num| < 0x1_0000_0000 ==> r == |num|
  {
    (|num| % 0x1_0000_0000) as Anat.U32
  }

  /** `NatNum::to_number`: 0 for `Zero`, the child count for `Mult`. */
  function ToNumber(t: Anat.NatNum): (r: Anat.U32)
    ensures t.Zero? ==> r == 0
    ensures t.Mult? ==> r == SimpleNatToNum(t.children)
  {
    match t
    case Zero => 0
    case Mult(num) => SimpleNatToNum(num)
  }

  /** Only the child count matters: the children are never inspected, so
      trees with the same count, well formed or not, give the same number. */
  lemma ToNumberIgnoresChildren(v: seq<Anat.NatNum>, w: seq<Anat.NatNum>)
    requires |v| == |w|
    ensures ToNumber(Anat.Mult(v)) == ToNumber(Anat.Mult(w))
    ensures ToNumber(Anat.Mult(v)) == ToNumber(Anat.Mult(seq(|v|, i => Anat.Zero)))
  {
  }

  /** This copy reads every tree exactly as the main copy does, so it reads
      canonical trees back as the numbers they were built from. */
  lemma {:induction false} AgreesWithAnat(t: Anat.NatNum)
    ensures ToNumber(t) == Anat.ToNumber(t)
    ensures Anat.Canonical(t) && Anat.Count(t) < 0x1_0000_0000 ==> ToNumber(t) == Anat.Count(t)
  {
  }

  /** The trees written out by hand in the tests read as 0, 1, 2 and 3. */
  lemma HandBuiltTrees()
    ensures ToNumber(Anat.Zero) == 0
    ensures ToNumber(Anat.Mult([Anat.Zero])) == 1
    ensures ToNumber(Anat.Mult([Anat.Zero, Anat.Mult([Anat.Zero])])) == 2
    ensures ToNumber(Anat.Mult([Anat.Zero, Anat.Mult([Anat.Zero]),
                                Anat.Mult([Anat.Zero, Anat.Mult([Anat.Zero])])])) == 3
  {
  }
}
