/** Grouping of the process-stock rows by category on the process stock page (pages/ProcessStock.tsx). */
module ProcessStockPage {

  /** One group: a category and its rows, in input order. */
  datatype Group<T> = Group(category: string, items: seq<T>)

  /** Reference definition: the distinct categories in order of first occurrence. */
  function Categories<T(==)>(data: seq<T>, category: T -> string): seq<string>
    decreases |data|
  {
    if |data| == 0 then []
    else
      var pre := Categories(data[..|data| - 1], category);
      var c := category(data[|data| - 1]);
      if c in pre then pre else pre + [c]
  }

  /** Reference definition: the rows of one category, in input order. */
  function ItemsOf<T(==)>(data: seq<T>, category: T -> string, c: string): seq<T>
    decreases |data|
  {
    if |data| == 0 then []
    else ItemsOf(data[..|data| - 1], category, c)
         + (if category(data[|data| - 1]) == c then [data[|data| - 1]] else [])
  }

  /** The result groups `data` exactly: one group per category, in first-occurrence order. */
  predicate GroupsOf<T(==)>(groups: seq<Group<T>>, data: seq<T>, category: T -> string)
  {
    |groups| == |Categories(data, category)| &&
    forall j :: 0 <= j < |groups| ==>
      groups[j].category == Categories(data, category)[j] &&
      groups[j].items == ItemsOf(data, category, groups[j].category)
  }

  /**
   * groupByCategory: reduce over the rows; push a row into the first group with its
   * category, or open a new group at the end.
   */
  method GroupByCategory<T(==)>(data: seq<T>, category: T -> string) returns (groups: seq<Group<T>>)
    ensures GroupsOf(groups, data, category)
  {
    groups := [];
    var i := 0;
    while i < |data|
      invariant 0 <= i <= |data|
      invariant GroupsOf(groups, data[..i], category)
    {
      var item := data[i];
      ghost var seen := data[..i];
      ghost var next := data[..i + 1];
      assert next[..i] == seen && next[i] == item;
      assert forall c :: ItemsOf(next, category, c) == ItemsOf(seen, category, c) + (if category(item) == c then [item] else []);
      var j := 0;
      while j < |groups| && groups[j].category != category(item)
        invariant 0 <= j <= |groups|
        invariant forall k :: 0 <= k < j ==> groups[k].category != category(item)
      {
        j := j + 1;
      }
      if j < |groups| {
        assert category(item) == Categories(seen, category)[j];
        assert Categories(next, category) == Categories(seen, category);
        groups := groups[j := groups[j].(items := groups[j].items + [item])];
        CategoriesDistinct(seen, category);
      } else {
        assert category(item) !in Categories(data[..i], category) by {
          forall k | 0 <= k < |Categories(data[..i], category)|
            ensures Categories(data[..i], category)[k] != category(item)
          {
            assert groups[k].category == Categories(data[..i], category)[k];
          }
        }
        assert Categories(next, category) == Categories(seen, category) + [category(item)];
        ItemsOfAbsent(seen, category, category(item));
        groups := groups + [Group(category(item), [item])];
      }
      i := i + 1;
    }
    assert data[..|data|] == data;
  }

  /** A category that never occurs has no rows. */
  lemma {:induction false} ItemsOfAbsent<T>(data: seq<T>, category: T -> string, c: string)
    requires c !in Categories(data, category)
    ensures ItemsOf(data, category, c) == []
    decreases |data|
  {
    if |data| > 0 {
      ItemsOfAbsent(data[..|data| - 1], category, c);
    }
  }

  /** No category appears twice among the groups. */
  lemma {:induction false} CategoriesDistinct<T>(data: seq<T>, category: T -> string)
    ensures forall j, k :: 0 <= j < k < |Categories(data, category)| ==>
      Categories(data, category)[j] != Categories(data, category)[k]
    decreases |data|
  {
    if |data| > 0 {
      CategoriesDistinct(data[..|data| - 1], category);
    }
  }

  /** Every row's category has a group, and the row is in that group's items. */
  lemma {:induction false} EveryItemGrouped<T>(data: seq<T>, category: T -> string, i: int)
    requires 0 <= i < |data|
    ensures category(data[i]) in Categories(data, category)
    ensures data[i] in ItemsOf(data, category, category(data[i]))
    decreases |data|
  {
    if i < |data| - 1 {
      EveryItemGrouped(data[..|data| - 1], category, i);
      CategoriesGrow(data[..|data| - 1], data[|data| - 1], category);
      assert data[..|data| - 1] + [data[|data| - 1]] == data;
    }
  }

  lemma CategoriesGrow<T>(data: seq<T>, x: T, category: T -> string)
    ensures forall c :: c in Categories(data, category) ==> c in Categories(data + [x], category)
  {
    assert (data + [x])[..|data|] == data;
  }

  /** Total of the group sizes over a list of categories. */
  function GroupSizes<T(==)>(cats: seq<string>, data: seq<T>, category: T -> string): nat
    decreases |cats|
  {
    if |cats| == 0 then 0 else GroupSizes(cats[..|cats| - 1], data, category) + |ItemsOf(data, category, cats[|cats| - 1])|
  }

  lemma {:induction false} GroupSizesAddItem<T>(cats: seq<string>, data: seq<T>, x: T, category: T -> string)
    requires forall j, k :: 0 <= j < k < |cats| ==> cats[j] != cats[k]
    ensures GroupSizes(cats, data + [x], category)
         == GroupSizes(cats, data, category) + (if category(x) in cats then 1 else 0)
    decreases |cats|
  {
    assert (data + [x])[..|data|] == data;
    if |cats| > 0 {
      var pre := cats[..|cats| - 1];
      GroupSizesAddItem(pre, data, x, category);
      assert category(x) in cats <==> category(x) in pre || category(x) == cats[|cats| - 1];
    }
  }

  lemma {:induction false} GroupSizesAppendCategory<T>(cats: seq<string>, c: string, data: seq<T>, category: T -> string)
    ensures GroupSizes(cats + [c], data, category) == GroupSizes(cats, data, category) + |ItemsOf(data, category, c)|
  {
    assert (cats + [c])[..|cats|] == cats;
  }

  /** The group sizes add up to the number of rows: no row is lost or duplicated. */
  lemma {:induction false} GroupSizesTotal<T>(data: seq<T>, category: T -> string)
    ensures GroupSizes(Categories(data, category), data, category) == |data|
    decreases |data|
  {
    if |data| > 0 {
      var pre := data[..|data| - 1];
      var x := data[|data| - 1];
      assert pre + [x] == data;
      GroupSizesTotal(pre, category);
      CategoriesDistinct(pre, category);
      GroupSizesAddItem(Categories(pre, category), pre, x, category);
      if category(x) !in Categories(pre, category) {
        GroupSizesAppendCategory(Categories(pre, category), category(x), data, category);
        ItemsOfAbsent(pre, category, category(x));
      }
    }
  }
}
