/**
 * The column-visibility dialog (components/tools/HideColmuns.tsx): the field -> visible map
 * built from the column tree, the toggle that flips one field and rewrites `hide` on every
 * column with that field, and the flattened checkbox list with breadcrumb labels.
 */
module HideColumns {
  import opened Wrappers
  import opened ColumnDefs

  /** Reading the visibility map as a boolean: a missing key reads as false (`!m[f]`, `m[f] ?? false`). */
  function Lookup(m: map<string, bool>, key: string): bool
  {
    if key in m then m[key] else false
  }

  // ---------------------------------------------------------------------------------------
  // initializeVisibility

  /**
   * initializeVisibility: for each column, record `!hide` under its field, then
   * `Object.assign` the map built from its children (later keys overwrite earlier ones).
   */
  function InitializeVisibility(columns: seq<Col>): map<string, bool>
    decreases columns
  {
    if |columns| == 0 then map[]
    else Visit(InitializeVisibility(columns[..|columns| - 1]), columns[|columns| - 1])
  }

  /** The body of the forEach callback for one column, applied to the map built so far. */
  function Visit(visibility: map<string, bool>, col: Col): map<string, bool>
    decreases col
  {
    var own := if HasField(col) then visibility[col.field.value := !col.hide] else visibility;
    if col.isGroup then own + InitializeVisibility(col.children) else own
  }

  /** Reference definition: one left-to-right pass over the depth-first node list. */
  function Record(m: map<string, bool>, c: Col): map<string, bool>
  {
    if HasField(c) then m[c.field.value := !c.hide] else m
  }

  function RecordAll(m: map<string, bool>, nodes: seq<Col>): map<string, bool>
    decreases |nodes|
  {
    if |nodes| == 0 then m else Record(RecordAll(m, nodes[..|nodes| - 1]), nodes[|nodes| - 1])
  }

  /** The set of non-empty fields among some nodes. */
  function FieldsOf(nodes: seq<Col>): set<string>
  {
    set i | 0 <= i < |nodes| && HasField(nodes[i]) :: nodes[i].field.value
  }

  lemma {:induction false} RecordAllAppend(m: map<string, bool>, a: seq<Col>, b: seq<Col>)
    ensures RecordAll(m, a + b) == RecordAll(RecordAll(m, a), b)
    decreases |b|
  {
    if |b| == 0 {
      assert a + b == a;
    } else {
      assert (a + b)[..|a + b| - 1] == a + b[..|b| - 1];
      assert (a + b)[|a + b| - 1] == b[|b| - 1];
      RecordAllAppend(m, a, b[..|b| - 1]);
    }
  }

  /** Starting the pass from a non-empty map is the same as merging it under the pass from {}. */
  lemma {:induction false} RecordAllFrom(m: map<string, bool>, nodes: seq<Col>)
    ensures RecordAll(m, nodes) == m + RecordAll(map[], nodes)
    decreases |nodes|
  {
    if |nodes| > 0 {
      var c := nodes[|nodes| - 1];
      RecordAllFrom(m, nodes[..|nodes| - 1]);
      var x := RecordAll(map[], nodes[..|nodes| - 1]);
      if HasField(c) {
        assert (m + x)[c.field.value := !c.hide] == m + x[c.field.value := !c.hide];
      }
    }
  }

  /** The recursive initialisation equals the flat pass over the depth-first node list. */
  lemma {:induction false} InitializeVisibilityIsFlatPass(columns: seq<Col>)
    ensures InitializeVisibility(columns) == RecordAll(map[], Flatten(columns))
    decreases columns
  {
    if |columns| > 0 {
      var pre := columns[..|columns| - 1];
      var last := columns[|columns| - 1];
      InitializeVisibilityIsFlatPass(pre);
      VisitIsFlatPass(InitializeVisibility(pre), last);
      RecordAllAppend(map[], Flatten(pre), FlattenCol(last));
    }
  }

  lemma {:induction false} VisitIsFlatPass(visibility: map<string, bool>, col: Col)
    ensures Visit(visibility, col) == RecordAll(visibility, FlattenCol(col))
    decreases col
  {
    var own := Record(visibility, col);
    assert RecordAll(visibility, [col]) == own by {
      assert [col][..0] == [];
    }
    if col.isGroup {
      InitializeVisibilityIsFlatPass(col.children);
      RecordAllFrom(own, Flatten(col.children));
      RecordAllAppend(visibility, [col], Flatten(col.children));
    } else {
      assert FlattenCol(col) == [col];
    }
  }

  lemma {:induction false} RecordAllKeys(m: map<string, bool>, nodes: seq<Col>)
    ensures RecordAll(m, nodes).Keys == m.Keys + FieldsOf(nodes)
    decreases |nodes|
  {
    if |nodes| > 0 {
      var pre := nodes[..|nodes| - 1];
      RecordAllKeys(m, pre);
      var c := nodes[|nodes| - 1];
      var extra := if HasField(c) then {c.field.value} else {};
      assert FieldsOf(nodes) == FieldsOf(pre) + extra by {
        forall f | f in FieldsOf(nodes) ensures f in FieldsOf(pre) + extra {
          var i :| 0 <= i < |nodes| && HasField(nodes[i]) && nodes[i].field.value == f;
          if i < |nodes| - 1 {
            assert pre[i] == nodes[i];
          }
        }
        forall f | f in FieldsOf(pre) ensures f in FieldsOf(nodes) {
          var i :| 0 <= i < |pre| && HasField(pre[i]) && pre[i].field.value == f;
          assert nodes[i] == pre[i];
        }
      }
    }
  }

  /** The entry for a field is `!hide` of the last node (in depth-first order) carrying it. */
  lemma {:induction false} RecordAllLast(m: map<string, bool>, nodes: seq<Col>, j: int)
    requires 0 <= j < |nodes| && HasField(nodes[j])
    requires forall k :: j < k < |nodes| ==> nodes[k].field != nodes[j].field
    ensures nodes[j].field.value in RecordAll(m, nodes)
    ensures RecordAll(m, nodes)[nodes[j].field.value] == !nodes[j].hide
    decreases |nodes|
  {
    if j < |nodes| - 1 {
      RecordAllLast(m, nodes[..|nodes| - 1], j);
    }
  }

  /** initializeVisibility has one key per non-empty field at any depth, and no other key. */
  lemma InitializeVisibilityKeys(columns: seq<Col>)
    ensures InitializeVisibility(columns).Keys == FieldsOf(Flatten(columns))
  {
    InitializeVisibilityIsFlatPass(columns);
    RecordAllKeys(map[], Flatten(columns));
  }

  /**
   * A field's initial entry is `!hide` of the last column carrying it, so a column without a
   * hide flag starts visible; when a field occurs once, that is its own column.
   */
  lemma InitializeVisibilityValue(columns: seq<Col>, j: int)
    requires 0 <= j < |Flatten(columns)| && HasField(Flatten(columns)[j])
    requires forall k :: j < k < |Flatten(columns)| ==> Flatten(columns)[k].field != Flatten(columns)[j].field
    ensures Lookup(InitializeVisibility(columns), Flatten(columns)[j].field.value) == !Flatten(columns)[j].hide
  {
    InitializeVisibilityIsFlatPass(columns);
    RecordAllLast(map[], Flatten(columns), j);
  }

  // ---------------------------------------------------------------------------------------
  // handleColumnToggle and updateChildColumnsVisibility

  /** One column after the toggle: `hide = !visible` if its field is the toggled one; children likewise. */
  function UpdateCol(col: Col, field: string, visible: bool): Col
    decreases col
  {
    col.(hide := if col.field == Some(field) then !visible else col.hide,
         children := if col.isGroup then UpdateChildColumnsVisibility(col.children, field, visible) else col.children)
  }

  /** updateChildColumnsVisibility, as the tree it leaves behind. */
  function UpdateChildColumnsVisibility(columns: seq<Col>, field: string, visible: bool): seq<Col>
    decreases columns
  {
    if |columns| == 0 then []
    else UpdateChildColumnsVisibility(columns[..|columns| - 1], field, visible)
         + [UpdateCol(columns[|columns| - 1], field, visible)]
  }

  lemma {:induction false} UpdateChildColumnsVisibilityAt(columns: seq<Col>, field: string, visible: bool)
    ensures |UpdateChildColumnsVisibility(columns, field, visible)| == |columns|
    ensures forall i :: 0 <= i < |columns| ==>
      UpdateChildColumnsVisibility(columns, field, visible)[i] == UpdateCol(columns[i], field, visible)
    decreases |columns|
  {
    if |columns| > 0 {
      UpdateChildColumnsVisibilityAt(columns[..|columns| - 1], field, visible);
    }
  }

  /**
   * `after` is `before`, node for node, with only `hide` rewritten: to `!visible` where the
   * field is the toggled one, unchanged elsewhere.
   */
  predicate Toggled(before: seq<Col>, after: seq<Col>, field: string, visible: bool)
  {
    |before| == |after| &&
    forall i :: 0 <= i < |before| ==>
      after[i].headerName == before[i].headerName && after[i].field == before[i].field &&
      after[i].isGroup == before[i].isGroup &&
      after[i].hide == (if before[i].field == Some(field) then !visible else before[i].hide)
  }

  lemma ToggledAppend(a: seq<Col>, a': seq<Col>, b: seq<Col>, b': seq<Col>, field: string, visible: bool)
    requires Toggled(a, a', field, visible) && Toggled(b, b', field, visible)
    ensures Toggled(a + b, a' + b', field, visible)
  {
    forall i | 0 <= i < |a + b|
      ensures (a' + b')[i].headerName == (a + b)[i].headerName && (a' + b')[i].field == (a + b)[i].field
      ensures (a' + b')[i].isGroup == (a + b)[i].isGroup
      ensures (a' + b')[i].hide == (if (a + b)[i].field == Some(field) then !visible else (a + b)[i].hide)
    {
      if i < |a| {
        assert (a + b)[i] == a[i] && (a' + b')[i] == a'[i];
      } else {
        assert (a + b)[i] == b[i - |a|] && (a' + b')[i] == b'[i - |a|];
      }
    }
  }

  /**
   * After the update, every column with the toggled field, at any depth, has
   * `hide == !visible`; every other column keeps its flag, header, field and shape.
   */
  lemma {:induction false} UpdateChildColumnsVisibilityToggles(columns: seq<Col>, field: string, visible: bool)
    ensures Toggled(Flatten(columns), Flatten(UpdateChildColumnsVisibility(columns, field, visible)), field, visible)
    decreases columns
  {
    if |columns| > 0 {
      var pre := columns[..|columns| - 1];
      var last := columns[|columns| - 1];
      UpdateChildColumnsVisibilityToggles(pre, field, visible);
      UpdateColToggles(last, field, visible);
      var upd := UpdateChildColumnsVisibility(columns, field, visible);
      assert upd[..|upd| - 1] == UpdateChildColumnsVisibility(pre, field, visible);
      ToggledAppend(Flatten(pre), Flatten(UpdateChildColumnsVisibility(pre, field, visible)),
                    FlattenCol(last), FlattenCol(UpdateCol(last, field, visible)), field, visible);
    }
  }

  lemma {:induction false} UpdateColToggles(col: Col, field: string, visible: bool)
    ensures Toggled(FlattenCol(col), FlattenCol(UpdateCol(col, field, visible)), field, visible)
    decreases col
  {
    var u := UpdateCol(col, field, visible);
    assert Toggled([col], [u], field, visible);
    if col.isGroup {
      UpdateChildColumnsVisibilityToggles(col.children, field, visible);
      ToggledAppend([col], [u], Flatten(col.children), Flatten(u.children), field, visible);
    }
  }

  /** The state map after a toggle of `field`. */
  function ToggleMap(m: map<string, bool>, field: string): (r: map<string, bool>)
    ensures r.Keys == m.Keys + {field}
    ensures r[field] == !Lookup(m, field)
    ensures forall k :: k in m && k != field ==> r[k] == m[k]
  {
    m[field := !Lookup(m, field)]
  }

  /** Toggling the same field twice restores what the map reads for it and leaves the rest alone. */
  lemma {:induction false} ToggleTwice(m: map<string, bool>, field: string)
    ensures Lookup(ToggleMap(ToggleMap(m, field), field), field) == Lookup(m, field)
    ensures field in m ==> ToggleMap(ToggleMap(m, field), field) == m
  {
    var once := ToggleMap(m, field);
    assert Lookup(once, field) == !Lookup(m, field);
    if field in m {
      assert ToggleMap(once, field) == m[field := m[field]];
    }
  }

  /** The component's state: the visibility map and the (mutable) column tree it was given. */
  class ColumnVisibility {
    var columnVisibility: map<string, bool>
    var tableDef: seq<Col>

    constructor (tableDef: seq<Col>)
      ensures this.tableDef == tableDef
      ensures columnVisibility == InitializeVisibility(tableDef)
    {
      this.tableDef := tableDef;
      columnVisibility := InitializeVisibility(tableDef);
    }

    /**
     * handleColumnToggle: flip the field's map entry (a missing entry reads as false), rewrite
     * `hide` on every column carrying the field, and return the visibility handed to the grid.
     */
    method HandleColumnToggle(field: string) returns (newVisibility: bool)
      modifies this
      ensures newVisibility == !Lookup(old(columnVisibility), field)
      ensures columnVisibility == ToggleMap(old(columnVisibility), field)
      ensures tableDef == UpdateChildColumnsVisibility(old(tableDef), field, newVisibility)
      ensures Toggled(Flatten(old(tableDef)), Flatten(tableDef), field, newVisibility)
    {
      newVisibility := !Lookup(columnVisibility, field);
      ghost var before := tableDef;
      UpdateChildColumnsVisibilityAt(before, field, newVisibility);
      var k := 0;
      while k < |tableDef|
        invariant 0 <= k <= |tableDef| == |before|
        invariant forall i :: 0 <= i < k ==> tableDef[i] == UpdateCol(before[i], field, newVisibility)
        invariant forall i :: k <= i < |tableDef| ==> tableDef[i] == before[i]
        invariant columnVisibility == old(columnVisibility)
      {
        tableDef := tableDef[k := UpdateCol(tableDef[k], field, newVisibility)];
        k := k + 1;
      }
      assert tableDef == UpdateChildColumnsVisibility(before, field, newVisibility);
      UpdateChildColumnsVisibilityToggles(before, field, newVisibility);
      columnVisibility := columnVisibility[field := newVisibility];
    }
  }

  // ---------------------------------------------------------------------------------------
  // renderColumnFilters

  /** One rendered checkbox: the field it toggles, its caption and whether it is checked. */
  datatype Checkbox = Checkbox(field: string, caption: string, checked: bool)

  /** `${x}` of a header name that may be undefined. */
  function Template(h: Option<string>): string
  {
    if h.Some? then h.value else "undefined"
  }

  /** The breadcrumb passed down to a group's children (an undefined header at the top reads as ""). */
  function GroupLabel(parent: string, headerName: Option<string>): (r: string)
  {
    if parent != "" then parent + " > " + Template(headerName) else headerName.GetOr("")
  }

  /** `col.headerName || col.field`. */
  function LeafName(col: Col): string
    requires HasField(col)
  {
    if col.headerName.Some? && col.headerName.value != "" then col.headerName.value else col.field.value
  }

  /** A leaf's label under a breadcrumb: `${parent} > ${headerName || field}`, or the name alone at the top. */
  function Caption(parent: string, leaf: Col): string
    requires HasField(leaf)
  {
    if parent != "" then parent + " > " + LeafName(leaf) else LeafName(leaf)
  }

  /** renderColumnFilters: groups contribute their children's checkboxes; a field-less leaf nothing. */
  function RenderColumnFilters(columns: seq<Col>, parent: string, visibility: map<string, bool>): seq<Checkbox>
    decreases columns
  {
    if |columns| == 0 then []
    else RenderColumnFilters(columns[..|columns| - 1], parent, visibility)
         + RenderCol(columns[|columns| - 1], parent, visibility)
  }

  function RenderCol(col: Col, parent: string, visibility: map<string, bool>): seq<Checkbox>
    decreases col
  {
    if col.isGroup then RenderColumnFilters(col.children, GroupLabel(parent, col.headerName), visibility)
    else if HasField(col) then
      [Checkbox(col.field.value, Caption(parent, col), Lookup(visibility, col.field.value))]
    else []
  }

  /** Reference list: the fields of the non-group nodes with a field, in depth-first order. */
  function LeafFields(nodes: seq<Col>): seq<string>
    decreases |nodes|
  {
    if |nodes| == 0 then []
    else LeafFields(nodes[..|nodes| - 1])
         + (var c := nodes[|nodes| - 1]; if !c.isGroup && HasField(c) then [c.field.value] else [])
  }

  function CheckboxFields(boxes: seq<Checkbox>): (r: seq<string>)
    ensures |r| == |boxes|
    ensures forall i :: 0 <= i < |boxes| ==> r[i] == boxes[i].field
  {
    seq(|boxes|, i requires 0 <= i < |boxes| => boxes[i].field)
  }

  lemma CheckboxFieldsAppend(a: seq<Checkbox>, b: seq<Checkbox>)
    ensures CheckboxFields(a + b) == CheckboxFields(a) + CheckboxFields(b)
  {
  }

  lemma {:induction false} LeafFieldsAppend(a: seq<Col>, b: seq<Col>)
    ensures LeafFields(a + b) == LeafFields(a) + LeafFields(b)
    decreases |b|
  {
    if |b| == 0 {
      assert a + b == a;
    } else {
      assert (a + b)[..|a + b| - 1] == a + b[..|b| - 1];
      assert (a + b)[|a + b| - 1] == b[|b| - 1];
      LeafFieldsAppend(a, b[..|b| - 1]);
    }
  }

  /** One checkbox per non-group column with a field, at any depth, in depth-first order. */
  lemma {:induction false} RenderFieldsInOrder(columns: seq<Col>, parent: string, visibility: map<string, bool>)
    ensures CheckboxFields(RenderColumnFilters(columns, parent, visibility)) == LeafFields(Flatten(columns))
    decreases columns
  {
    if |columns| > 0 {
      var pre := columns[..|columns| - 1];
      var last := columns[|columns| - 1];
      RenderFieldsInOrder(pre, parent, visibility);
      RenderColFieldsInOrder(last, parent, visibility);
      LeafFieldsAppend(Flatten(pre), FlattenCol(last));
      CheckboxFieldsAppend(RenderColumnFilters(pre, parent, visibility), RenderCol(last, parent, visibility));
    }
  }

  lemma {:induction false} RenderColFieldsInOrder(col: Col, parent: string, visibility: map<string, bool>)
    ensures CheckboxFields(RenderCol(col, parent, visibility)) == LeafFields(FlattenCol(col))
    decreases col
  {
    if col.isGroup {
      var kids := RenderColumnFilters(col.children, GroupLabel(parent, col.headerName), visibility);
      assert RenderCol(col, parent, visibility) == kids;
      RenderFieldsInOrder(col.children, GroupLabel(parent, col.headerName), visibility);
      LeafFieldsSingle(col);
      LeafFieldsAppend([col], Flatten(col.children));
      assert FlattenCol(col) == [col] + Flatten(col.children);
    } else {
      LeafFieldsSingle(col);
      assert FlattenCol(col) == [col];
    }
  }

  lemma LeafFieldsSingle(c: Col)
    ensures LeafFields([c]) == (if !c.isGroup && HasField(c) then [c.field.value] else [])
  {
    assert [c][..0] == [];
  }

  /**
   * Every checkbox shows the map's entry for its field (unchecked when the field is missing),
   * and under a non-empty breadcrumb its caption starts with that breadcrumb and " > ".
   */
  lemma {:induction false} RenderCheckedAndLabels(columns: seq<Col>, parent: string, visibility: map<string, bool>)
    ensures forall b :: b in RenderColumnFilters(columns, parent, visibility) ==>
      b.checked == Lookup(visibility, b.field) &&
      (parent != "" ==> parent + " > " <= b.caption)
    decreases columns
  {
    if |columns| > 0 {
      RenderCheckedAndLabels(columns[..|columns| - 1], parent, visibility);
      RenderColCheckedAndLabels(columns[|columns| - 1], parent, visibility);
    }
  }

  lemma {:induction false} RenderColCheckedAndLabels(col: Col, parent: string, visibility: map<string, bool>)
    ensures forall b :: b in RenderCol(col, parent, visibility) ==>
      b.checked == Lookup(visibility, b.field) &&
      (parent != "" ==> parent + " > " <= b.caption)
    decreases col
  {
    if col.isGroup {
      var p := GroupLabel(parent, col.headerName);
      RenderCheckedAndLabels(col.children, p, visibility);
      if parent != "" {
        assert p == (parent + " > ") + Template(col.headerName);
        forall b | b in RenderCol(col, parent, visibility) ensures parent + " > " <= b.caption {
          assert p + " > " <= b.caption;
          assert parent + " > " <= p + " > ";
        }
      }
    }
  }

  // ---------------------------------------------------------------------------------------
  // The labels against the ancestor headers

  /** A leaf with a field, with the header names of its enclosing groups, outermost first. */
  datatype LeafPath = LeafPath(headers: seq<Option<string>>, leaf: Col)

  /** Reference: every leaf with a field, with its ancestors' headers, in depth-first order. */
  function LeafPaths(columns: seq<Col>): (r: seq<LeafPath>)
    ensures forall i :: 0 <= i < |r| ==> HasField(r[i].leaf)
    decreases columns
  {
    if |columns| == 0 then []
    else LeafPaths(columns[..|columns| - 1]) + ColPaths(columns[|columns| - 1])
  }

  function ColPaths(col: Col): (r: seq<LeafPath>)
    ensures forall i :: 0 <= i < |r| ==> HasField(r[i].leaf)
    decreases col
  {
    if col.isGroup then Under(col.headerName, LeafPaths(col.children))
    else if HasField(col) then [LeafPath([], col)]
    else []
  }

  /** The paths of a group's children, seen from outside the group. */
  function Under(header: Option<string>, paths: seq<LeafPath>): (r: seq<LeafPath>)
    ensures |r| == |paths|
    ensures forall i :: 0 <= i < |r| ==> r[i].leaf == paths[i].leaf && r[i].headers == [header] + paths[i].headers
  {
    seq(|paths|, i requires 0 <= i < |paths| => LeafPath([header] + paths[i].headers, paths[i].leaf))
  }

  /** The breadcrumb the render pass has built after descending through `headers` from `parent`. */
  function Breadcrumb(parent: string, headers: seq<Option<string>>): string
    decreases |headers|
  {
    if |headers| == 0 then parent else Breadcrumb(GroupLabel(parent, headers[0]), headers[1..])
  }

  /** " > h1 > h2 …", an undefined header spelled "undefined". */
  function Separated(headers: seq<Option<string>>): string
    decreases |headers|
  {
    if |headers| == 0 then "" else " > " + Template(headers[0]) + Separated(headers[1..])
  }

  /** The checkbox a path yields under the breadcrumb `parent`. */
  function BoxOf(parent: string, p: LeafPath, visibility: map<string, bool>): Checkbox
    requires HasField(p.leaf)
  {
    Checkbox(p.leaf.field.value, Caption(Breadcrumb(parent, p.headers), p.leaf), Lookup(visibility, p.leaf.field.value))
  }

  /**
   * One checkbox per leaf with a field, in depth-first order: it toggles that field, it is checked
   * as the visibility map says, and its caption is the breadcrumb of the leaf's ancestor headers
   * followed by " > " and `headerName || field`.
   */
  lemma {:induction false} RenderIsLabelledPaths(columns: seq<Col>, parent: string, visibility: map<string, bool>)
    ensures var boxes := RenderColumnFilters(columns, parent, visibility);
            var paths := LeafPaths(columns);
            |boxes| == |paths| && forall i :: 0 <= i < |paths| ==> boxes[i] == BoxOf(parent, paths[i], visibility)
    decreases columns
  {
    if |columns| > 0 {
      var pre := columns[..|columns| - 1];
      var last := columns[|columns| - 1];
      RenderIsLabelledPaths(pre, parent, visibility);
      RenderColIsLabelledPaths(last, parent, visibility);
      var b1 := RenderColumnFilters(pre, parent, visibility);
      var p1 := LeafPaths(pre);
      var b2 := RenderCol(last, parent, visibility);
      var p2 := ColPaths(last);
      assert RenderColumnFilters(columns, parent, visibility) == b1 + b2;
      assert LeafPaths(columns) == p1 + p2;
      forall i | 0 <= i < |p1| + |p2| ensures (b1 + b2)[i] == BoxOf(parent, (p1 + p2)[i], visibility) {
        if i < |p1| {
          assert (b1 + b2)[i] == b1[i] && (p1 + p2)[i] == p1[i];
        } else {
          assert (b1 + b2)[i] == b2[i - |p1|] && (p1 + p2)[i] == p2[i - |p1|];
        }
      }
    }
  }

  lemma {:induction false} RenderColIsLabelledPaths(col: Col, parent: string, visibility: map<string, bool>)
    ensures var boxes := RenderCol(col, parent, visibility);
            var paths := ColPaths(col);
            |boxes| == |paths| && forall i :: 0 <= i < |paths| ==> boxes[i] == BoxOf(parent, paths[i], visibility)
    decreases col
  {
    if col.isGroup {
      var inner := GroupLabel(parent, col.headerName);
      RenderIsLabelledPaths(col.children, inner, visibility);
      var qs := LeafPaths(col.children);
      var ps := Under(col.headerName, qs);
      forall i | 0 <= i < |ps| ensures BoxOf(parent, ps[i], visibility) == BoxOf(inner, qs[i], visibility) {
        assert ps[i].headers[1..] == qs[i].headers;
      }
    }
  }

  /** Below a non-empty breadcrumb each further header is appended after " > ". */
  lemma {:induction false} BreadcrumbBelow(parent: string, headers: seq<Option<string>>)
    requires parent != ""
    ensures Breadcrumb(parent, headers) == parent + Separated(headers)
    decreases |headers|
  {
    if |headers| > 0 {
      var t := Template(headers[0]);
      var rest := Separated(headers[1..]);
      var next := parent + " > " + t;
      assert GroupLabel(parent, headers[0]) == next;
      assert Breadcrumb(parent, headers) == Breadcrumb(next, headers[1..]);
      BreadcrumbBelow(next, headers[1..]);
      assert Separated(headers) == " > " + t + rest;
      assert next + rest == parent + (" > " + t + rest);
    }
  }

  /**
   * At the top the breadcrumb starts with the outermost header itself; an undefined or empty
   * outermost header leaves the breadcrumb empty, so the next header starts it afresh.
   */
  lemma BreadcrumbFromTop(headers: seq<Option<string>>)
    requires |headers| > 0
    ensures headers[0].GetOr("") != "" ==> Breadcrumb("", headers) == headers[0].value + Separated(headers[1..])
    ensures headers[0].GetOr("") == "" ==> Breadcrumb("", headers) == Breadcrumb("", headers[1..])
  {
    if headers[0].GetOr("") != "" {
      BreadcrumbBelow(headers[0].value, headers[1..]);
    }
  }
}
