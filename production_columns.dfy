/**
 * Role-based column filtering and input validation of the process production daily report
 * page (pages/ProcessProductionDailyReport.tsx).
 */
module ProductionReportPage {
  import opened Wrappers
  import opened ColumnDefs

  /** The cost columns that roles B and C may not see. */
  const CostFields: seq<string> := [
    "materialCost", "manHours", "processingCost", "subtotal", "pricePerSet",
    "totalProduction", "performanceMaterialCost", "performanceProcessingCost",
    "totalPerformanceAmount"]

  /** hiddenFieldsByProduction, as a lookup that is None for a key the record lacks. */
  function HiddenFieldsByProduction(auth: string): (r: Option<seq<string>>)
    ensures r.Some? <==> auth in {"C", "B", "A", "관리자"}
    ensures auth == "A" || auth == "관리자" ==> r == Some([])
    ensures auth == "B" || auth == "C" ==> r == Some(CostFields)
  {
    if auth == "C" || auth == "B" then Some(CostFields)
    else if auth == "A" || auth == "관리자" then Some([])
    else None
  }

  /** The mapped value of one column: a group with filtered children, or the column itself, or nothing. */
  function FilterCol(col: Col, hiddenFields: seq<string>): seq<Col>
    decreases col
  {
    if col.isGroup then [col.(children := GetFilteredColumnDefs(col.children, hiddenFields))]
    else if col.field.Some? then (if col.field.value in hiddenFields then [] else [col])
    else [col]
  }

  /** getFilteredColumnDefs: map each column as above and drop the nulls, keeping order. */
  function GetFilteredColumnDefs(columns: seq<Col>, hiddenFields: seq<string>): seq<Col>
    decreases columns
  {
    if |columns| == 0 then []
    else GetFilteredColumnDefs(columns[..|columns| - 1], hiddenFields)
         + FilterCol(columns[|columns| - 1], hiddenFields)
  }

  /** What a column looks like, apart from its children. */
  datatype Shape = Shape(headerName: Option<string>, field: Option<string>, hide: bool, isGroup: bool)

  /** A leaf whose field is in the hidden list: the only kind of node filtering removes. */
  predicate HiddenLeaf(c: Col, hiddenFields: seq<string>)
  {
    !c.isGroup && c.field.Some? && c.field.value in hiddenFields
  }

  /** Reference definition: the shapes of the nodes that are not hidden leaves, in order. */
  function Survivors(nodes: seq<Col>, hiddenFields: seq<string>): seq<Shape>
    decreases |nodes|
  {
    if |nodes| == 0 then []
    else
      var c := nodes[|nodes| - 1];
      Survivors(nodes[..|nodes| - 1], hiddenFields)
      + (if HiddenLeaf(c, hiddenFields) then [] else [Shape(c.headerName, c.field, c.hide, c.isGroup)])
  }

  lemma {:induction false} SurvivorsAppend(a: seq<Col>, b: seq<Col>, hiddenFields: seq<string>)
    ensures Survivors(a + b, hiddenFields) == Survivors(a, hiddenFields) + Survivors(b, hiddenFields)
    decreases |b|
  {
    if |b| == 0 {
      assert a + b == a;
    } else {
      assert (a + b)[..|a + b| - 1] == a + b[..|b| - 1];
      assert (a + b)[|a + b| - 1] == b[|b| - 1];
      SurvivorsAppend(a, b[..|b| - 1], hiddenFields);
    }
  }

  /**
   * Filtering, seen depth-first, removes exactly the hidden leaves at every depth and keeps
   * every other node (groups, even emptied ones, and field-less columns such as "No") with
   * its header, field and hide flag, in the original relative order.
   */
  lemma {:induction false} FilterKeepsAllButHiddenLeaves(columns: seq<Col>, hiddenFields: seq<string>)
    ensures Survivors(Flatten(GetFilteredColumnDefs(columns, hiddenFields)), []) == Survivors(Flatten(columns), hiddenFields)
    decreases columns
  {
    if |columns| > 0 {
      var pre := columns[..|columns| - 1];
      var last := columns[|columns| - 1];
      FilterKeepsAllButHiddenLeaves(pre, hiddenFields);
      FilterColKeeps(last, hiddenFields);
      FlattenAppend(GetFilteredColumnDefs(pre, hiddenFields), FilterCol(last, hiddenFields));
      SurvivorsAppend(Flatten(GetFilteredColumnDefs(pre, hiddenFields)), Flatten(FilterCol(last, hiddenFields)), []);
      SurvivorsAppend(Flatten(pre), FlattenCol(last), hiddenFields);
    }
  }

  lemma {:induction false} FilterColKeeps(col: Col, hiddenFields: seq<string>)
    ensures Survivors(Flatten(FilterCol(col, hiddenFields)), []) == Survivors(FlattenCol(col), hiddenFields)
    decreases col
  {
    assert [col][..0] == [];
    var r := FilterCol(col, hiddenFields);
    if col.isGroup {
      var g := r[0];
      FlattenSingle(g);
      FilterKeepsAllButHiddenLeaves(col.children, hiddenFields);
      assert [g][..0] == [];
      SurvivorsAppend([g], Flatten(g.children), []);
      SurvivorsAppend([col], Flatten(col.children), hiddenFields);
    } else if HiddenLeaf(col, hiddenFields) {
      assert FlattenCol(col) == [col];
    } else {
      FlattenSingle(col);
      assert FlattenCol(col) == [col];
    }
  }

  /** No hidden leaf survives, at any depth. */
  lemma SurvivorsHaveNoHiddenLeaf(nodes: seq<Col>, hiddenFields: seq<string>)
    ensures forall s :: s in Survivors(nodes, hiddenFields) ==>
      !(!s.isGroup && s.field.Some? && s.field.value in hiddenFields)
    decreases |nodes|
  {
    if |nodes| > 0 {
      SurvivorsHaveNoHiddenLeaf(nodes[..|nodes| - 1], hiddenFields);
    }
  }

  /** With nothing to hide, filtering returns the definitions unchanged (roles A and 관리자). */
  lemma {:induction false} FilterNothingIsIdentity(columns: seq<Col>)
    ensures GetFilteredColumnDefs(columns, []) == columns
    decreases columns
  {
    if |columns| > 0 {
      var last := columns[|columns| - 1];
      FilterNothingIsIdentity(columns[..|columns| - 1]);
      if last.isGroup {
        FilterNothingIsIdentity(last.children);
      }
      assert columns == columns[..|columns| - 1] + [last];
    }
  }

  /**
   * The names an object literal inherits from `Object.prototype`: `auth in hiddenFieldsByProduction`
   * holds for them, and the value found is a function (or the prototype itself), not a list.
   */
  const InheritedNames: set<string> := {
    "constructor", "__proto__", "toString", "toLocaleString", "valueOf", "hasOwnProperty",
    "isPrototypeOf", "propertyIsEnumerable", "__defineGetter__", "__defineSetter__",
    "__lookupGetter__", "__lookupSetter__"}

  /** Some non-group column with a field, at any depth. */
  predicate HasFieldLeaf(columns: seq<Col>)
  {
    exists i :: 0 <= i < |Flatten(columns)| && !Flatten(columns)[i].isGroup && Flatten(columns)[i].field.Some?
  }

  /**
   * productionPerformanceStatusDef: a missing, empty or unknown role sees every column, a known
   * role the columns without its hidden fields.  For an inherited name the filter calls `includes`
   * on a value that has none, which throws (`None`) at the first column with a field; without such
   * a column nothing is removed.
   */
  function ProductionPerformanceStatusDef(auth: Option<string>, definitions: seq<Col>): (r: Option<seq<Col>>)
    ensures r.None? <==> auth.Some? && auth.value in InheritedNames && HasFieldLeaf(definitions)
    ensures auth.None? || (auth.value !in InheritedNames && HiddenFieldsByProduction(auth.value).None?) ==>
      r == Some(definitions)
    ensures auth.Some? && auth.value in InheritedNames && !HasFieldLeaf(definitions) ==> r == Some(definitions)
    ensures auth.Some? && HiddenFieldsByProduction(auth.value).Some? ==>
      r == Some(GetFilteredColumnDefs(definitions, HiddenFieldsByProduction(auth.value).value))
  {
    if auth.None? || auth.value == "" then Some(definitions)
    else if auth.value in InheritedNames then (if HasFieldLeaf(definitions) then None else Some(definitions))
    else match HiddenFieldsByProduction(auth.value)
      case None => Some(definitions)
      case Some(hidden) => Some(GetFilteredColumnDefs(definitions, hidden))
  }

  /** Roles A and 관리자 see the same columns as an unknown role: all of them. */
  lemma UnrestrictedRoles(definitions: seq<Col>)
    ensures ProductionPerformanceStatusDef(Some("A"), definitions) == Some(definitions)
    ensures ProductionPerformanceStatusDef(Some("관리자"), definitions) == Some(definitions)
  {
    FilterNothingIsIdentity(definitions);
  }

  /** The man-hour input form of the page: category plus three nullable numbers. */
  datatype ManInputForm = ManInputForm(category: string, availableManHours: Option<real>,
                                       availablePersonnel: Option<real>, outSouringCost: Option<real>)

  /** The form state the page starts from: the process category and three zeros. */
  function InitialForm(processName: string): (r: ManInputForm)
    ensures r.category == processName && ValidateData(r)
  {
    ManInputForm(processName, Some(0.0), Some(0.0), Some(0.0))
  }

  /** validateData: the form may be sent only when none of the three inputs is null. */
  predicate ValidateData(data: ManInputForm)
  {
    data.availableManHours.Some? && data.availablePersonnel.Some? && data.outSouringCost.Some?
  }

  /** validateData fails as soon as any one of the three inputs is null, and holds otherwise. */
  lemma ValidateDataIff(data: ManInputForm)
    ensures !ValidateData(data) <==>
      (data.availableManHours.None? || data.availablePersonnel.None? || data.outSouringCost.None?)
  {
  }
}
