# Anat: natural numbers as von Neumann set trees

Anat represents a natural number as a von Neumann ordinal: 0 is the empty
set {} and n + 1 is n ∪ {n}. The tree of n therefore holds the trees of
0, 1, ..., n - 1. The repository holds three copies of the idea, and this
project models each one as its own module.

- `Anat` (anat.dfy) models the main Rust crate, anat-rs/src/lib.rs.
  - The enum `NatNum { Zero, Mult(Vec<NatNum>) }` is a datatype.
  - The builder (`From<u32>`, `populate_nat_tree`), the extractor
    (`to_number`, `simple_nat_to_num`), the adder (`add_rec`,
    `recursive_nat_tree_increment`) and the renderer (`to_string`,
    `recursive_nat_tree_to_string_simple`, `simple_graph_intonation`) are
    modelled.
  - The helpers that update a `&mut Vec` or a `&mut String` become methods.
    Each takes the current value and returns the updated one.
  - Every method is proved against a specification function: `Canon`
    (the canonical tree of n), `Grown` (the list after k self-snapshots are
    pushed), `Sum` (what `add_rec` returns) and `Lines` / `Render` (the
    text diagram).
- `NatRust` (nat_rust.dfy) models the earlier, reduced crate
  nat_rust/src/lib.rs. It has the same enum, shared with `Anat`, and only
  the extractor.
- `AnatPy` (anat_py.dfy) models the Python class in python-version/anat.py.
  - A `NatNum` object holds a `frozenset` of frozensets in its field
    `tree`.
  - `increment` and `decrement` change that field in place.
  - The arithmetic operators copy the object and then repeat increments or
    decrements, or build a fresh number from an integer result.

The Rust `u32` is the subtype `U32`, and the cast `len() as u32` keeps the
low 32 bits (`AsU32`).

## Model

| member | source | states |
|---|---|---|
| Anat.CanonShape | anat-rs/src/lib.rs:1-17 | the canonical tree of n has n children, is canonical, and for n > 0 its first child is `Zero`, never an empty `Mult` |
| Anat.CanonChildrenSnoc | anat-rs/src/lib.rs:2-4 | the children of n + 1 are those of n followed by the tree of n (n + 1 = n ∪ {n}) |
| Anat.SimpleNatToNum | anat-rs/src/lib.rs:93-97 | the element count, which is exact below 2^32 |
| Anat.ToNumber | anat-rs/src/lib.rs:28-33 | `Zero` reads as 0, and `Mult(v)` reads as the u32-cast length of v |
| Anat.ToNumberRoundTrip | anat-rs/src/lib.rs:28-33 | reading back the canonical tree of any u32 n gives n |
| Anat.ToNumberCountsOnly | anat-rs/src/lib.rs:93-97 | lists with equal lengths read as the same number, whatever the children are, and the number is the length below 2^32 |
| Anat.PopulateNatTree | anat-rs/src/lib.rs:107-122 | prepends exactly the canonical trees of 0..curr-1, in order, and keeps the old list unchanged behind them |
| Anat.From | anat-rs/src/lib.rs:79-90 | returns the canonical tree of num: `Zero` for 0, otherwise num children starting with `Zero`; `to_number` of the result is num |
| Anat.CanonExamples | anat-rs/src/lib.rs:210-283 | the trees of 0 to 4 are exactly the ones the tests spell out |
| Anat.Grown | anat-rs/src/lib.rs:124-133 | after k pushes the list is k longer, its old prefix is unchanged, and the element at each new index i is `Mult` of everything before it |
| Anat.RecursiveNatTreeIncrement | anat-rs/src/lib.rs:124-133 | the returned list is `Grown(tree, rem)` |
| Anat.GrownCanon | anat-rs/src/lib.rs:124-133 | growing the non-empty children of n by k gives the children of n + k |
| Anat.GrownFromEmptyNotCanonical | anat-rs/src/lib.rs:37-43 | growing an empty list pushes `Mult([])`, not `Zero`, which is why a zero operand is handled first |
| Anat.SumCanon | anat-rs/src/lib.rs:44-55 | the sum of the canonical trees of m and n is the canonical tree of m + n |
| Anat.SumCanonCommutes | anat-rs/src/lib.rs:44-55 | on canonical trees addition commutes structurally, and the sum reads back as the u32-cast m + n |
| Anat.SumTieTakesFirst | anat-rs/src/lib.rs:47-50 | with equal child counts the first operand is the base, so on malformed trees addition does not commute |
| Anat.AddRec | anat-rs/src/lib.rs:36-60 | a `Zero` operand returns the other unchanged; canonical operands give the canonical tree of the sum and its value |
| Anat.IndentChars | anat-rs/src/lib.rs:158-166 | the indentation is blanks with a bar at every third place |
| Anat.IntonationSingleLine | anat-rs/src/lib.rs:158-166 | a line prefix contains no line break |
| Anat.SimpleGraphIntonation | anat-rs/src/lib.rs:158-166 | returns a bar, then a blank pair and a bar once per level, then "->", so its length is 3 + 3·level |
| Anat.LinesAppend | anat-rs/src/lib.rs:139-151 | the lines of a concatenated list are the concatenated lines |
| Anat.RecursiveNatTreeToStringSimple | anat-rs/src/lib.rs:139-151 | appends to `graph`, keeping its old text, one line per descendant in pre-order with siblings in stored order |
| Anat.ToString | anat-rs/src/lib.rs:67-76 | `Zero` gives "{}" with no newline; a `Mult` gives "{}\n" then one line per node, so it has 1 + (node count) line breaks |
| Anat.LinesNewlines | anat-rs/src/lib.rs:139-151 | the diagram of a list has exactly one line per node |
| Anat.CanonNodes | anat-rs/src/lib.rs:285-289 | the canonical tree of n has 2^n - 1 nodes below its root |
| Anat.RenderCanonLines | anat-rs/src/lib.rs:67-76 | the diagram of the canonical tree of n > 0 has 2^n lines |
| Anat.LinesCanonSnoc | anat-rs/src/lib.rs:139-151 | the diagram of the children of n + 1 is that of n, then the line of n, then n's children one level deeper |
| Anat.LinesCanonOne | anat-rs/src/lib.rs:139-151 | the children of 1 give one line at any level |
| Anat.LinesCanonTwo | anat-rs/src/lib.rs:139-151 | the children of 2 give two lines at the level and one a level deeper |
| Anat.LinesCanonThree | anat-rs/src/lib.rs:139-151 | the children of 3 give seven lines, nested as the trees of 0, 1 and 2 are |
| Anat.RenderCanonSnoc | anat-rs/src/lib.rs:67-76 | the diagram of n + 1 is the root line, the lines of the children of n, the line of n, then n's children one level deeper |
| Anat.RenderFourLines | anat-rs/src/lib.rs:67-76 | the diagram of 4 is the root line followed by fifteen lines at levels 0,0,1,0,1,1,2,0,1,1,2,1,2,2,3 |
| Anat.IndentExamples | anat-rs/src/lib.rs:158-166 | the indentation of levels 1 to 3, spelled out |
| Anat.LineZero | anat-rs/src/lib.rs:153-157 | the line at level 0 is "->{}" after a bar |
| Anat.LineOne | anat-rs/src/lib.rs:153-157 | the line at level 1, spelled out |
| Anat.LineTwo | anat-rs/src/lib.rs:153-157 | the line at level 2, spelled out |
| Anat.LineThree | anat-rs/src/lib.rs:158-166 | the line at level 3, spelled out |
| Anat.RenderSmallExamples | anat-rs/src/lib.rs:313-319 | the diagrams of 0 and 1 are exactly the strings the test expects |
| Anat.RenderFourExample | anat-rs/src/lib.rs:313-320 | the diagram of 4 is the sixteen-line string of the test |
| NatRust.SimpleNatToNum | nat_rust/src/lib.rs:25-29 | the element count, which is exact below 2^32 |
| NatRust.ToNumber | nat_rust/src/lib.rs:17-22 | `Zero` reads as 0, and `Mult(v)` reads as `simple_nat_to_num(v)` |
| NatRust.ToNumberIgnoresChildren | nat_rust/src/lib.rs:25-28 | lists with equal lengths read as the same number, even one made of `Zero`s only |
| NatRust.AgreesWithAnat | nat_rust/src/lib.rs:16-29 | this copy reads every tree as the main crate does, and reads canonical trees as their numbers |
| NatRust.HandBuiltTrees | nat_rust/src/lib.rs:35-70 | the hand-built trees of 0 to 3 read as 0 to 3 |
| AnatPy.SuccSize | python-version/anat.py:17-20 | n ∪ {n} contains n and all of n, and has one element more than n |
| AnatPy.SuccIterSize | python-version/anat.py:41-47 | k increments add exactly k elements |
| AnatPy.OrdinalSize | python-version/anat.py:12-15 | the ordinal n has n elements |
| AnatPy.OrdinalInjective | python-version/anat.py:38-39 | two ordinals are equal exactly when their numbers are |
| AnatPy.OrdinalElems | python-version/anat.py:17-20 | the elements of the ordinal n are exactly the ordinals below n |
| AnatPy.SuccIterOrdinal | python-version/anat.py:41-47 | incrementing the ordinal a k times gives the ordinal a + k |
| AnatPy.CanonIsOrdinal | anat-rs/src/lib.rs:2-4 | read as a set, the canonical Rust tree of n is the Python ordinal n |
| AnatPy.FloorQuotient | python-version/anat.py:78 | `//` on naturals gives the floor of the quotient |
| AnatPy.PowExamples | python-version/anat.py:182-206 | the powers the tests compute: 1, 4, 32, 256 and 64 = 64 |
| AnatPy.NatNum.ToInt | python-version/anat.py:35-36 | the size of the set, which is 0 exactly when the set is empty |
| AnatPy.NatNum.Eq | python-version/anat.py:38-39 | compares values, which on ordinals is the same as comparing the sets |
| AnatPy.NatNum.constructor | python-version/anat.py:12-15 | requires number ≥ 0, defaults to 0, and yields the ordinal of number, whose `to_int` is number |
| AnatPy.NatNum.CopyOf | python-version/anat.py:1-5 | a new object holding the same set |
| AnatPy.NatNum.Increment | python-version/anat.py:17-20 | tree becomes tree ∪ {tree}, and `to_int` grows by exactly 1 |
| AnatPy.NatNum.Decrement | python-version/anat.py:22-29 | requires a positive value, removes one element of the set, and lowers `to_int` by exactly 1 |
| AnatPy.NatNum.Add | python-version/anat.py:41-47 | a fresh number with value self + other (the ordinal of the sum when self is an ordinal); self is unchanged |
| AnatPy.NatNum.Sub | python-version/anat.py:49-58 | requires self ≥ other and gives a fresh subset of self's set with value self - other; self is unchanged |
| AnatPy.NatNum.Mul | python-version/anat.py:63-68 | with a `NatNum` operand, a fresh ordinal of the product |
| AnatPy.NatNum.MulIntAsWritten | python-version/anat.py:63-65 | with an `int` operand, the call returns `None` |
| AnatPy.NatNum.MulInt | python-version/anat.py:63-65 | with an `int` operand, the intended result: a fresh number with the product's value |
| AnatPy.NatNum.TrueDiv | python-version/anat.py:77-82 | a fresh number q with q·d ≤ self < (q + 1)·d, the floor of the quotient |
| AnatPy.NatNum.FloorDiv | python-version/anat.py:88-93 | the same floor quotient |
| AnatPy.NatNum.PowNat | python-version/anat.py:96-108 | with a `NatNum` exponent m, the value is self^m (1 for m = 0) |
| AnatPy.NatNum.PowInt | python-version/anat.py:110-121 | with an `int` exponent m: 1 for m = 0, self^m for m > 0, and a copy of self for m < 0 |

## Left out

- `to_number_checked` (anat-rs/src/lib.rs:62-65) is an `unimplemented!()` stub with no behaviour.
- anat-rs/examples/addition.rs only prints results, and the Python `tests()` function and its `__main__` block only print and assert. Their assertions appear as the example lemmas.
- The `exit("unsuported type")` branch of `__pow__` ends the process, which is outside the model.
- AnatPy.NatNum.Decrement: it removes an arbitrary element, not the last one in Python's frozenset iteration order, because that order depends on hashing. So the result need not be an ordinal, and only its size is stated.
- AnatPy.NatNum.constructor: the Python `assert number >= 0` is a precondition rather than an `AssertionError`. The same holds for the asserts in `decrement` and `__sub__`.
- AnatPy.NatNum.TrueDiv: a zero divisor raises `ZeroDivisionError` in Python. Here it is a precondition. The same holds for AnatPy.NatNum.FloorDiv.
- AnatPy.NatNum.TrueDiv: the `isinstance(steps, int)` assertion always holds for `//` on integers, so it is not modelled. The same holds for AnatPy.NatNum.FloorDiv.
- AnatPy.NatNum.MulIntAsWritten: a negative `int` operand makes the inner constructor's assert fail. Here that is a precondition.
- `copy(self)` is a shallow copy. Since a `frozenset` is immutable, it is modelled as a new object holding the same set value (AnatPy.NatNum.CopyOf).
- Python's `__eq__` is modelled as AnatPy.NatNum.Eq. The derived `!=` used by the tests is not modelled separately.
- Anat.RecursiveNatTreeToStringSimple: the nesting level is an unbounded `nat`, so the `u32` overflow of `level + 1` is not modelled. It needs a tree more than 2^32 levels deep.
- Anat.From: the model places no memory bound on the input. The tree of n has 2^n - 1 nodes (Anat.CanonNodes), so large inputs exhaust memory in the program.
- `add_rec` casts child counts `as u32`, which is modelled. The sum itself is not truncated, because the Rust tree simply grows.

## Findings

| source | as written | input that shows it | evidently intended | confidence | as-written member | corrected member |
|---|---|---|---|---|---|---|
| python-version/anat.py:63-68 | `__mul__` with an `int` operand builds the product, but `return` stands only in the `else` branch, so the call returns `None` | `NatNum(2) * 3` | return a number of value 6, like the `NatNum` branch | high (not executed) | AnatPy.NatNum.MulIntAsWritten | AnatPy.NatNum.MulInt |
