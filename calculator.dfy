/**
 * The integer tools of the two MCP calculator servers (`mcp_server.py` and
 * `mcp_calculator_server.py`).  Python integers are unbounded, as Dafny's
 * are.  `divide` returns a float and is not modelled.
 */
module Calculator {
  /** `add(a, b)`: `int(a + b)`. */
  function Add(a: int, b: int): int {
    a + b
  }

  /** `subtract(a, b)`: `int(a - b)`. */
  function Subtract(a: int, b: int): int {
    a - b
  }

  /** `multiply(a, b)`: `int(a * b)`. */
  function Multiply(a: int, b: int): int {
    a * b
  }

  /** `add_list(l)`: `sum(l)`, which starts from 0. */
  function AddList(l: seq<int>): int
    decreases |l|
  {
    if |l| == 0 then 0 else AddList(l[..|l| - 1]) + l[|l| - 1]
  }

  /** The tools `mcp_server.py` registers, in registration order. */
  const ServerTools: seq<string> := ["add", "add_list", "subtract", "multiply", "divide"]

  /** The tools `mcp_calculator_server.py` registers, in registration order. */
  const CalculatorTools: seq<string> := ["add", "subtract", "multiply", "divide"]

  /** Subtracting what was added gives back the first operand. */
  lemma SubtractUndoesAdd(a: int, b: int)
    ensures Subtract(Add(a, b), b) == a
  {
  }

  /** The sum of a list is the `add` of the sums of its two parts; the empty list sums to 0. */
  lemma {:induction false} AddListAppend(l: seq<int>, m: seq<int>)
    ensures AddList(l + m) == Add(AddList(l), AddList(m))
    decreases |m|
  {
    if |m| == 0 {
      assert l + m == l;
    } else {
      var init := m[..|m| - 1];
      assert (l + m)[..|l + m| - 1] == l + init;
      AddListAppend(l, init);
    }
  }

  /** `sum` of no items is 0, of one item that item, and of two items their `add`. */
  lemma AddListOfFew(a: int, b: int)
    ensures AddList([]) == 0 && AddList([a]) == a
    ensures AddList([a, b]) == Add(a, b)
  {
    assert [a, b][..1] == [a];
    assert [a][..0] == [];
    assert AddList([a]) == a;
  }

  /** The calculator server offers `add`, `subtract`, `multiply` and `divide`, and no `add_list`. */
  lemma CalculatorCatalog()
    ensures "add_list" !in CalculatorTools && "add_list" in ServerTools
    ensures forall k :: 0 <= k < |CalculatorTools| ==> CalculatorTools[k] in ServerTools
    ensures |CalculatorTools| == 4
  {
  }
}
