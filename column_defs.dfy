/**
 * Grid column definitions as the front end's pages declare them: a column is either a leaf
 * (`ColDef`, usually with a `field`) or a group (`ColGroupDef`) holding an array of children.
 */
module ColumnDefs {
  import opened Wrappers

  /**
   * One column definition.  `field` is None when the object has no `field` key; `hide` is
   * false when the flag is absent; `isGroup` says that `children` is an array (for a leaf,
   * `children` is empty and ignored).
   */
  datatype Col = Col(headerName: Option<string>, field: Option<string>, hide: bool,
                     isGroup: bool, children: seq<Col>)

  /** `"field" in col && col.field`: a field key holding a non-empty string (JavaScript truthiness). */
  predicate HasField(c: Col)
  {
    c.field.Some? && c.field.value != ""
  }

  /** Every node of the forest in depth-first order, each node before its children. */
  function Flatten(cols: seq<Col>): seq<Col>
    decreases cols
  {
    if |cols| == 0 then [] else Flatten(cols[..|cols| - 1]) + FlattenCol(cols[|cols| - 1])
  }

  /** A node followed by the depth-first order of its children, when it is a group. */
  function FlattenCol(c: Col): seq<Col>
    decreases c
  {
    [c] + (if c.isGroup then Flatten(c.children) else [])
  }

  lemma {:induction false} FlattenAppend(a: seq<Col>, b: seq<Col>)
    ensures Flatten(a + b) == Flatten(a) + Flatten(b)
    decreases |b|
  {
    if |b| == 0 {
      assert a + b == a;
    } else {
      assert (a + b)[..|a + b| - 1] == a + b[..|b| - 1];
      assert (a + b)[|a + b| - 1] == b[|b| - 1];
      FlattenAppend(a, b[..|b| - 1]);
    }
  }

  lemma FlattenSingle(c: Col)
    ensures Flatten([c]) == FlattenCol(c)
  {
    assert [c][..0] == [];
  }
}
