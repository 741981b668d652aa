/** The Python version, after python-version/anat.py: a number object holds
    a frozenset of frozensets and changes it in place, n + 1 = n ∪ {n}.
    Its value is the size of that set. */
module AnatPy {
  import Anat

  /** A Python `frozenset` whose elements are themselves such frozensets.
      Dafny's datatypes are well founded: no such set contains itself. */
  datatype FrozenSet = FrozenSet(elems: set<FrozenSet>)

  /** The empty frozenset, the initial value of `NatNum.tree`. */
  const Empty := FrozenSet({})

  /** n ∪ {n}. */
  function Succ(s: FrozenSet): FrozenSet
  {
    FrozenSet(s.elems + {s})
  }

  /** n ∪ {n} has one element more than n, because n is not an element of
      itself. */
  lemma SuccSize(s: FrozenSet)
    ensures s in Succ(s).elems && s.elems <= Succ(s).elems
    ensures |Succ(s).elems| == |s.elems| + 1
  {
    assert s !in s.elems;
  }

  /** `Succ` applied n times. */
  function SuccIter(s: FrozenSet, n: nat): FrozenSet
  {
    if n == 0 then s else Succ(SuccIter(s, n - 1))
  }

  /** n increments add n elements. */
  lemma {:induction false} SuccIterSize(s: FrozenSet, n: nat)
    ensures |SuccIter(s, n).elems| == |s.elems| + n
  {
    if n > 0 {
      SuccIterSize(s, n - 1);
      SuccSize(SuccIter(s, n - 1));
    }
  }

  /** The von Neumann ordinal n: the empty set, n times n ∪ {n}. */
  function Ordinal(n: nat): FrozenSet
  {
    if n == 0 then Empty else Succ(Ordinal(n - 1))
  }

  /** The ordinal n has n elements. */
  lemma {:induction false} OrdinalSize(n: nat)
    ensures |Ordinal(n).elems| == n
  {
    if n > 0 {
      OrdinalSize(n - 1);
      SuccSize(Ordinal(n - 1));
    }
  }

  /** Distinct numbers have distinct ordinals. */
  lemma OrdinalInjective(m: nat, n: nat)
    ensures Ordinal(m) == Ordinal(n) <==> m == n
  {
    OrdinalSize(m);
    OrdinalSize(n);
  }

  /** x is one of the ordinals below n. */
  ghost predicate OrdinalBelow(x: FrozenSet, n: nat)
  {
    exists i :: 0 <= i < n && x == Ordinal(i)
  }

  /** n = {0, 1, ..., n - 1}: the elements of the ordinal n are exactly the
      ordinals below n. */
  lemma {:induction false} OrdinalElems(n: nat)
    ensures forall i :: 0 <= i < n ==> Ordinal(i) in Ordinal(n).elems
    ensures forall x :: x in Ordinal(n).elems ==> OrdinalBelow(x, n)
  {
    if n > 0 {
      OrdinalElems(n - 1);
      forall x | x in Ordinal(n).elems ensures OrdinalBelow(x, n) {
        if x == Ordinal(n - 1) {
          assert 0 <= n - 1 < n && x == Ordinal(n - 1);
        } else {
          assert OrdinalBelow(x, n - 1);
          var i :| 0 <= i < n - 1 && x == Ordinal(i);
          assert 0 <= i < n && x == Ordinal(i);
        }
      }
    }
  }

  /** Incrementing the ordinal a, n times, gives the ordinal a + n. */
  lemma {:induction false} SuccIterOrdinal(a: nat, n: nat)
    ensures SuccIter(Ordinal(a), n) == Ordinal(a + n)
  {
    if n > 0 {
      SuccIterOrdinal(a, n - 1);
    }
  }

  /** The set a Rust tree stands for: its children, as a set. */
  function AsSet(t: Anat.NatNum): FrozenSet
  {
    match t
    case Zero => Empty
    case Mult(c) => FrozenSet(set i | 0 <= i < |c| :: AsSet(c[i]))
  }

  /** The canonical Rust tree of n and the Python set of n are the same
      von Neumann ordinal. */
  lemma {:induction false} CanonIsOrdinal(n: nat)
    ensures AsSet(Anat.Canon(n)) == Ordinal(n)
  {
    if n > 0 {
      var c := Anat.CanonChildren(n);
      forall i | 0 <= i < n ensures AsSet(c[i]) == Ordinal(i) {
        CanonIsOrdinal(i);
      }
      OrdinalElems(n);
      var l, r := AsSet(Anat.Canon(n)).elems, Ordinal(n).elems;
      forall x | x in l ensures x in r {
        var i :| 0 <= i < n && x == AsSet(c[i]);
        assert x == Ordinal(i);
      }
      forall x | x in r ensures x in l {
        assert OrdinalBelow(x, n);
        var i :| 0 <= i < n && x == Ordinal(i);
        assert x == AsSet(c[i]);
      }
    }
  }

  /** Python's `//` on natural numbers: the floor of the quotient. */
  lemma FloorQuotient(a: nat, b: nat)
    requires b > 0
    ensures (a / b) * b <= a < (a / b + 1) * b
  {
    assert a == (a / b) * b + a % b;
    assert (a / b + 1) * b == (a / b) * b + b;
  }

  /** b to the power e. */
  function Pow(b: nat, e: nat): nat
  {
    if e == 0 then 1 else Pow(b, e - 1) * b
  }

  /** The powers the tests compute. */
  lemma PowExamples()
    ensures Pow(2, 0) == 1 && Pow(2, 2) == 4 && Pow(2, 5) == 32
    ensures Pow(2, Pow(2, 3)) == 256
    ensures Pow(Pow(2, 2), 3) == 64 == Pow(2, 2 * 3)
  {
    assert Pow(2, 3) == 8;
    assert Pow(2, 6) == 64;
    assert Pow(2, 8) == 256;
    assert Pow(4, 3) == 64;
  }

  /** `NatNum`: a number object whose field `tree` is the set it stands for. */
  class NatNum {
    var tree: FrozenSet

    /** `to_int`: the number of elements of the set; the shape of the set is
        not checked. */
    function ToInt(): (r: nat)
      reads this
      ensures r == 0 <==> tree.elems == {}
    {
      |tree.elems|
    }

    /** `__eq__`: compares values only. On ordinals this is the same as
        comparing the sets. */
    function Eq(other: NatNum): (r: bool)
      reads this, other
      ensures tree == Ordinal(ToInt()) && other.tree == Ordinal(other.ToInt())
              ==> (r <==> tree == other.tree)
    {
      OrdinalInjective(ToInt(), other.ToInt());
      ToInt() == other.ToInt()
    }

    /** `__init__(number=0)`: asserts `number >= 0`, then increments the empty
        set `number` times. */
    constructor (number: int := 0)
      requires number >= 0
      ensures tree == Ordinal(number)
      ensures ToInt() == number
    {
      tree := Empty;
      new;
      for i := 0 to number
        invariant tree == Ordinal(i)
      {
        Increment();
      }
      OrdinalSize(number);
    }

    /** `copy(self)`: a new object holding the same set. */
    constructor CopyOf(original: NatNum)
      ensures tree == original.tree
    {
      tree := original.tree;
    }

    /** `increment`: tree := tree ∪ {tree}. */
    method Increment()
      modifies this
      ensures tree == Succ(old(tree))
      ensures ToInt() == old(ToInt()) + 1
    {
      var subtree := tree;
      tree := FrozenSet(subtree.elems + {subtree});
      SuccSize(subtree);
    }

    /** `decrement`: asserts the value is positive, then drops one element.
        Which one depends on Python's frozenset iteration order, so it is
        chosen arbitrarily here. */
    method Decrement()
      requires ToInt() > 0
      modifies this
      ensures exists x :: x in old(tree.elems) && tree.elems == old(tree.elems) - {x}
      ensures ToInt() == old(ToInt()) - 1
    {
      var t := tree;
      var x :| x in t.elems;
      tree := FrozenSet(t.elems - {x});
    }

    /** `__add__`: a copy of this number, incremented `other.to_int()` times.
        This number is left unchanged. */
    method Add(other: NatNum) returns (r: NatNum)
      ensures fresh(r)
      ensures r.tree == SuccIter(tree, other.ToInt())
      ensures r.ToInt() == ToInt() + other.ToInt()
      ensures tree == Ordinal(ToInt()) ==> r.tree == Ordinal(ToInt() + other.ToInt())
    {
      r := new NatNum.CopyOf(this);
      for i := 0 to other.ToInt()
        invariant r.tree == SuccIter(tree, i)
      {
        r.Increment();
      }
      SuccIterSize(tree, other.ToInt());
      if tree == Ordinal(ToInt()) {
        SuccIterOrdinal(ToInt(), other.ToInt());
      }
    }

    /** `__sub__`: asserts `self >= other`, then decrements a copy
        `other.to_int()` times. This number is left unchanged. */
    method Sub(other: NatNum) returns (r: NatNum)
      requires ToInt() >= other.ToInt()
      ensures fresh(r)
      ensures r.tree.elems <= tree.elems
      ensures r.ToInt() == ToInt() - other.ToInt()
    {
      r := new NatNum.CopyOf(this);
      for i := 0 to other.ToInt()
        invariant r.tree.elems <= tree.elems
        invariant r.ToInt() == ToInt() - i
      {
        r.Decrement();
      }
    }

    /** `__mul__` with a `NatNum` operand: a new number built from the
        product of the values. */
    method Mul(other: NatNum) returns (r: NatNum)
      ensures fresh(r)
      ensures r.tree == Ordinal(ToInt() * other.ToInt())
      ensures r.ToInt() == ToInt() * other.ToInt()
    {
      r := new NatNum(ToInt() * other.ToInt());
    }

    /** `__mul__` with an `int` operand, as written: the product is built
        (and must not be negative), but `return` stands only in the other
        branch, so the call yields `None`. */
    method MulIntAsWritten(other: int) returns (r: NatNum?)
      requires ToInt() * other >= 0
      ensures r == null
    {
      var newNum := new NatNum(ToInt() * other);
      r := null;
    }

    /** `__mul__` with an `int` operand, as evidently intended: the product. */
    method MulInt(other: int) returns (r: NatNum)
      requires ToInt() * other >= 0
      ensures fresh(r)
      ensures r.ToInt() == ToInt() * other
    {
      r := new NatNum(ToInt() * other);
    }

    /** `__truediv__`: the floor of the quotient of the values. A zero
        divisor raises `ZeroDivisionError`. */
    method TrueDiv(other: NatNum) returns (r: NatNum)
      requires other.ToInt() != 0
      ensures fresh(r)
      ensures r.ToInt() * other.ToInt() <= ToInt() < (r.ToInt() + 1) * other.ToInt()
    {
      var steps := ToInt() / other.ToInt();
      r := new NatNum(steps);
      FloorQuotient(ToInt(), other.ToInt());
    }

    /** `__floordiv__`: the same computation as `__truediv__`. */
    method FloorDiv(other: NatNum) returns (r: NatNum)
      requires other.ToInt() != 0
      ensures fresh(r)
      ensures r.ToInt() * other.ToInt() <= ToInt() < (r.ToInt() + 1) * other.ToInt()
    {
      var steps := ToInt() / other.ToInt();
      r := new NatNum(steps);
      FloorQuotient(ToInt(), other.ToInt());
    }

    /** `__pow__` with a `NatNum` exponent: 1 for exponent 0, otherwise a
        copy of this number multiplied by it `m - 1` times. */
    method PowNat(other: NatNum) returns (r: NatNum)
      ensures fresh(r)
      ensures r.ToInt() == Pow(ToInt(), other.ToInt())
    {
      if other.ToInt() == 0 {
        r := new NatNum(1);
        return;
      }
      r := new NatNum.CopyOf(this);
      for i := 1 to other.ToInt()
        invariant fresh(r)
        invariant r.ToInt() == Pow(ToInt(), i)
      {
        r := r.Mul(this);
      }
    }

    /** `__pow__` with an `int` exponent: 1 for exponent 0; otherwise a copy
        multiplied by this number once per value in `range(1, m)`, which is
        empty for m < 1, so a negative exponent yields a copy. */
    method PowInt(other: int) returns (r: NatNum)
      ensures fresh(r)
      ensures other == 0 ==> r.ToInt() == 1
      ensures other > 0 ==> r.ToInt() == Pow(ToInt(), other)
      ensures other < 0 ==> r.tree == tree
    {
      if other == 0 {
        r := new NatNum(1);
        return;
      }
      r := new NatNum.CopyOf(this);
      var i := 1;
      while i < other
        invariant other > 0 ==> 1 <= i <= other
        invariant fresh(r)
        invariant other > 0 ==> r.ToInt() == Pow(ToInt(), i)
        invariant other < 0 ==> i == 1 && r.tree == tree
      {
        r := r.Mul(this);
        i := i + 1;
      }
    }
  }
}
