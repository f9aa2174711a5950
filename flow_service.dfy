/**
 * The production-flow view: per process of a production request, its quantities, the input cost
 * and the completion rate; the request's progress as the mean completion rate; and the
 * deduplication of search results by production request number.
 */
module FlowService {
  import opened Wrappers
  import opened Sums
  import E = Entities

  /** The fields of a lot result this view reads. */
  datatype FlowLot = FlowLot(
    itemName: Option<string>,
    lotQty: Option<real>,
    inQty: Option<real>,
    outQty: Option<real>,
    productionRequestNo: Option<string>)

  datatype ProcessData = ProcessData(planQty: real, inputQty: real, completedQty: real, inputCost: real, completedRate: real)

  /** Completion rate: output over input as a percentage, 0 when either is null or the input is 0. */
  function CompletedRate(outQty: Option<real>, inQty: Option<real>): (r: real)
    ensures outQty.None? || inQty.None? || inQty == Some(0.0) ==> r == 0.0
    ensures outQty.Some? && inQty.Some? && inQty.value != 0.0 ==> r * inQty.value == outQty.value * 100.0
  {
    if outQty.None? || inQty.None? || inQty.value == 0.0 then 0.0 else outQty.value / inQty.value * 100.0
  }

  /** The input cost: the first status row's total performance amount, 0 without one or when it is null. */
  function InputCost(status: seq<E.PerformanceStatus>): (r: real)
    ensures |status| == 0 ==> r == 0.0
    ensures |status| > 0 ==> r == Val(status[0].totalPerformanceAmount)
  {
    if |status| > 0 && status[0].totalPerformanceAmount.Some? then status[0].totalPerformanceAmount.value else 0.0
  }

  /** `createProcessData`: null quantities read as 0. */
  function CreateProcessData(request: FlowLot, status: seq<E.PerformanceStatus>): ProcessData
  {
    ProcessData(Val(request.lotQty), Val(request.inQty), Val(request.outQty), InputCost(status),
                CompletedRate(request.outQty, request.inQty))
  }

  /**
   * `getProcessDataDTOMap`: the process data keyed by item name, a later lot of the same name
   * replacing an earlier one.  `statusOf` stands for the status rows the repository finds for a lot.
   */
  function ProcessDataMap(list: seq<FlowLot>, statusOf: FlowLot -> seq<E.PerformanceStatus>): map<Option<string>, ProcessData>
    decreases |list|
  {
    if |list| == 0 then map[]
    else
      var last := list[|list| - 1];
      ProcessDataMap(list[..|list| - 1], statusOf)[last.itemName := CreateProcessData(last, statusOf(last))]
  }

  /** The completion rates of the entries with keys in `keys`, added up. */
  ghost function SumRates<K>(m: map<K, ProcessData>, keys: set<K>): real
    requires keys <= m.Keys
    decreases keys
  {
    if keys == {} then 0.0
    else
      var k :| k in keys;
      m[k].completedRate + SumRates(m, keys - {k})
  }

  /** `calcLotProgress`: the mean completion rate over the map's entries, 0 for an empty map. */
  ghost function LotProgress<K>(m: map<K, ProcessData>): real
  {
    if |m| == 0 then 0.0 else SumRates(m, m.Keys) / |m| as real
  }

  /**
   * The `distinctByKey` filter: an element passes when its key has not been seen, and its key is
   * then recorded.  The seen-set is a concurrent set, which refuses a null key with an exception;
   * `None` stands for that.
   */
  function DistinctByKey<T>(xs: seq<T>, key: T -> Option<string>): Option<seq<T>>
    decreases |xs|
  {
    if |xs| == 0 then Some([])
    else
      var prev := DistinctByKey(xs[..|xs| - 1], key);
      var last := xs[|xs| - 1];
      if prev.None? || key(last).None? then None
      else if key(last) in KeysOf(xs[..|xs| - 1], key) then prev
      else Some(prev.value + [last])
  }

  function KeysOf<T>(xs: seq<T>, key: T -> Option<string>): set<Option<string>>
  {
    set i | 0 <= i < |xs| :: key(xs[i])
  }

  /** The stream filter with its seen-set, as a loop. */
  method FilterDistinct<T>(xs: seq<T>, key: T -> Option<string>) returns (r: Option<seq<T>>)
    ensures r == DistinctByKey(xs, key)
  {
    var seen: set<Option<string>> := {};
    var kept: seq<T> := [];
    for i := 0 to |xs|
      invariant seen == KeysOf(xs[..i], key)
      invariant DistinctByKey(xs[..i], key) == Some(kept)
    {
      assert xs[..i + 1][..i] == xs[..i];
      KeysOfSnoc(xs[..i], xs[i], key);
      assert xs[..i + 1] == xs[..i] + [xs[i]];
      if key(xs[i]).None? {
        DistinctFailureSticks(xs, key, i + 1);
        return None;
      }
      if key(xs[i]) !in seen {
        kept := kept + [xs[i]];
      }
      seen := seen + {key(xs[i])};
    }
    assert xs[..|xs|] == xs;
    r := Some(kept);
  }

  // ---------------------------------------------------------------------------------------------
  // Properties

  /** The rate is 0 in all the guarded cases, and otherwise out / in × 100. */
  lemma CompletedRateCases(outQty: Option<real>, inQty: Option<real>)
    ensures outQty.None? ==> CompletedRate(outQty, inQty) == 0.0
    ensures inQty.None? || inQty == Some(0.0) ==> CompletedRate(outQty, inQty) == 0.0
    ensures outQty.Some? && inQty.Some? && inQty.value > 0.0 && 0.0 <= outQty.value <= inQty.value ==>
              0.0 <= CompletedRate(outQty, inQty) <= 100.0
  {
    if outQty.Some? && inQty.Some? && inQty.value > 0.0 && 0.0 <= outQty.value <= inQty.value {
      var r := CompletedRate(outQty, inQty);
      assert r * inQty.value == outQty.value * 100.0;
      assert outQty.value * 100.0 <= inQty.value * 100.0;
      assert (r - 100.0) * inQty.value <= 0.0;
      assert r * inQty.value >= 0.0;
    }
  }

  /** Null plan, input and completed quantities become 0; present ones are copied. */
  lemma ProcessDataDefaults(request: FlowLot, status: seq<E.PerformanceStatus>)
    ensures CreateProcessData(request, status).planQty == (if request.lotQty.Some? then request.lotQty.value else 0.0)
    ensures CreateProcessData(request, status).inputQty == (if request.inQty.Some? then request.inQty.value else 0.0)
    ensures CreateProcessData(request, status).completedQty == (if request.outQty.Some? then request.outQty.value else 0.0)
    ensures CreateProcessData(request, status).inputCost == InputCost(status)
  {
  }

  /** The map has one entry per item name occurring in the list. */
  lemma {:induction false} ProcessDataMapKeys(list: seq<FlowLot>, statusOf: FlowLot -> seq<E.PerformanceStatus>)
    ensures ProcessDataMap(list, statusOf).Keys == set i | 0 <= i < |list| :: list[i].itemName
    decreases |list|
  {
    if |list| > 0 {
      var init := list[..|list| - 1];
      var last := list[|list| - 1];
      ProcessDataMapKeys(init, statusOf);
      var m := ProcessDataMap(list, statusOf);
      forall x | x in set i | 0 <= i < |list| :: list[i].itemName
        ensures x in m.Keys
      {
        var i :| 0 <= i < |list| && list[i].itemName == x;
        if i < |list| - 1 { assert init[i].itemName == x; }
      }
      forall x | x in m.Keys
        ensures x in set i | 0 <= i < |list| :: list[i].itemName
      {
        if x != last.itemName {
          var i :| 0 <= i < |init| && init[i].itemName == x;
          assert list[i].itemName == x;
        }
      }
    }
  }

  /** The entry of a name is the data of the last lot carrying it. */
  lemma {:induction false} ProcessDataMapLastWins(list: seq<FlowLot>, statusOf: FlowLot -> seq<E.PerformanceStatus>)
    ensures forall k :: k in ProcessDataMap(list, statusOf) ==>
              exists j :: 0 <= j < |list| && list[j].itemName == k
                          && ProcessDataMap(list, statusOf)[k] == CreateProcessData(list[j], statusOf(list[j]))
                          && forall j' :: j < j' < |list| ==> list[j'].itemName != k
    decreases |list|
  {
    if |list| > 0 {
      var init := list[..|list| - 1];
      var last := list[|list| - 1];
      ProcessDataMapLastWins(init, statusOf);
      var m := ProcessDataMap(list, statusOf);
      forall k | k in m
        ensures exists j :: 0 <= j < |list| && list[j].itemName == k
                            && m[k] == CreateProcessData(list[j], statusOf(list[j]))
                            && forall j' :: j < j' < |list| ==> list[j'].itemName != k
      {
        if k == last.itemName {
          assert list[|list| - 1].itemName == k;
        } else {
          var j :| 0 <= j < |init| && init[j].itemName == k
                   && ProcessDataMap(init, statusOf)[k] == CreateProcessData(init[j], statusOf(init[j]))
                   && forall j' :: j < j' < |init| ==> init[j'].itemName != k;
          assert list[j] == init[j];
          forall j' | j < j' < |list| ensures list[j'].itemName != k {
            if j' < |list| - 1 { assert list[j'] == init[j']; }
          }
        }
      }
    }
  }

  /** `n` copies of `x` added up. */
  function Times(n: nat, x: real): real
  {
    if n == 0 then 0.0 else Times(n - 1, x) + x
  }

  lemma {:induction false} TimesIsProduct(n: nat, x: real)
    ensures Times(n, x) == n as real * x
  {
    if n > 0 {
      TimesIsProduct(n - 1, x);
      assert n as real * x == (n - 1) as real * x + x;
    }
  }

  /** The sum of the rates lies between the smallest and largest possible totals. */
  lemma {:induction false} SumRatesBounds<K>(m: map<K, ProcessData>, keys: set<K>, lo: real, hi: real)
    requires keys <= m.Keys
    requires forall k :: k in keys ==> lo <= m[k].completedRate <= hi
    ensures Times(|keys|, lo) <= SumRates(m, keys) <= Times(|keys|, hi)
    decreases keys
  {
    if keys != {} {
      var k :| k in keys && SumRates(m, keys) == m[k].completedRate + SumRates(m, keys - {k});
      var rest := keys - {k};
      assert |rest| == |keys| - 1;
      SumRatesBounds(m, rest, lo, hi);
    }
  }

  /**
   * The progress of a request is 0 without processes, and otherwise a mean: it lies within the
   * range of the completion rates, and equals their common value when they all agree.
   */
  lemma LotProgressIsMean<K>(m: map<K, ProcessData>, lo: real, hi: real)
    requires forall k :: k in m ==> lo <= m[k].completedRate <= hi
    ensures |m| == 0 ==> LotProgress(m) == 0.0
    ensures |m| > 0 ==> lo <= LotProgress(m) <= hi
  {
    if |m| > 0 {
      SumRatesBounds(m, m.Keys, lo, hi);
      assert |m.Keys| == |m|;
      MeanBounds(|m|, SumRates(m, m.Keys), lo, hi);
    }
  }

  /** A total between `n` times the bounds, divided by `n`, lies between the bounds. */
  lemma MeanBounds(n: nat, s: real, lo: real, hi: real)
    requires n > 0 && Times(n, lo) <= s <= Times(n, hi)
    ensures lo <= s / n as real <= hi
  {
    TimesIsProduct(n, lo);
    TimesIsProduct(n, hi);
    var d := n as real;
    assert (s / d) * d == s;
  }

  lemma KeysOfSnoc<T>(xs: seq<T>, x: T, key: T -> Option<string>)
    ensures KeysOf(xs + [x], key) == KeysOf(xs, key) + {key(x)}
  {
    var ys := xs + [x];
    forall k | k in KeysOf(ys, key) ensures k in KeysOf(xs, key) + {key(x)} {
      var i :| 0 <= i < |ys| && key(ys[i]) == k;
      if i < |xs| { assert xs[i] == ys[i]; }
    }
    forall k | k in KeysOf(xs, key) ensures k in KeysOf(ys, key) {
      var i :| 0 <= i < |xs| && key(xs[i]) == k;
      assert ys[i] == xs[i];
    }
    assert ys[|xs|] == x;
  }

  lemma {:induction false} DistinctFailureSticks<T>(xs: seq<T>, key: T -> Option<string>, n: nat)
    requires n <= |xs| && DistinctByKey(xs[..n], key).None?
    ensures DistinctByKey(xs, key).None?
    decreases |xs| - n
  {
    if n < |xs| {
      assert xs[..n + 1][..n] == xs[..n];
      DistinctFailureSticks(xs, key, n + 1);
    } else {
      assert xs[..n] == xs;
    }
  }

  /**
   * Deduplication keeps one element per key: the kept keys are pairwise distinct, they are all the
   * keys of the input, and every kept element is the input's first element of its key.
   */
  lemma {:induction false} DistinctByKeyUnique<T>(xs: seq<T>, key: T -> Option<string>)
    requires DistinctByKey(xs, key).Some?
    ensures var r := DistinctByKey(xs, key).value;
            (forall i, j :: 0 <= i < j < |r| ==> key(r[i]) != key(r[j]))
            && KeysOf(r, key) == KeysOf(xs, key)
            && (forall x :: x in r ==> x in xs)
            && forall i :: 0 <= i < |r| ==> exists j :: 0 <= j < |xs| && xs[j] == r[i] && FirstOfKey(xs, key, j)
    decreases |xs|
  {
    var r := DistinctByKey(xs, key).value;
    var idx := FirstIndices(xs, key);
    DistinctByKeyFirsts(xs, key);
    FirstIndicesSpec(xs, key);
    forall i | 0 <= i < |r| ensures exists j :: 0 <= j < |xs| && xs[j] == r[i] && FirstOfKey(xs, key, j) {
      assert idx[i] in idx;
    }
    if |xs| > 0 {
      var init := xs[..|xs| - 1];
      var last := xs[|xs| - 1];
      DistinctByKeyUnique(init, key);
      var p := DistinctByKey(init, key).value;
      KeysOfSnoc(init, last, key);
      assert xs == init + [last];
      if key(last) !in KeysOf(init, key) {
        KeysOfSnoc(p, last, key);
        var r := p + [last];
        forall i, j | 0 <= i < j < |r| ensures key(r[i]) != key(r[j]) {
          if j == |r| - 1 {
            assert key(p[i]) in KeysOf(p, key);
          }
        }
      }
    }
  }

  /** No earlier element of `xs` has the key of `xs[j]`. */
  ghost predicate FirstOfKey<T>(xs: seq<T>, key: T -> Option<string>, j: nat)
    requires j < |xs|
  {
    forall j' :: 0 <= j' < j ==> key(xs[j']) != key(xs[j])
  }

  /** Reference: the positions of the first element of each key, in increasing order. */
  ghost function FirstIndices<T>(xs: seq<T>, key: T -> Option<string>): seq<nat>
    decreases |xs|
  {
    if |xs| == 0 then []
    else FirstIndices(xs[..|xs| - 1], key) + (if FirstOfKey(xs, key, |xs| - 1) then [|xs| - 1] else [])
  }

  /** The reference lists every first-of-its-key position exactly once, in increasing order. */
  lemma {:induction false} FirstIndicesSpec<T>(xs: seq<T>, key: T -> Option<string>)
    ensures var idx := FirstIndices(xs, key);
            (forall i :: 0 <= i < |idx| ==> idx[i] < |xs|)
            && (forall i, i' :: 0 <= i < i' < |idx| ==> idx[i] < idx[i'])
            && forall j :: 0 <= j < |xs| ==> (j in idx <==> FirstOfKey(xs, key, j))
    decreases |xs|
  {
    if |xs| > 0 {
      var init := xs[..|xs| - 1];
      FirstIndicesSpec(init, key);
      forall j | 0 <= j < |init| ensures FirstOfKey(xs, key, j) == FirstOfKey(init, key, j) {
        assert forall j' :: 0 <= j' <= j ==> xs[j'] == init[j'];
      }
    }
  }

  /** The filter keeps exactly the first element of each key, in input order. */
  lemma {:induction false} DistinctByKeyFirsts<T>(xs: seq<T>, key: T -> Option<string>)
    requires DistinctByKey(xs, key).Some?
    ensures var r := DistinctByKey(xs, key).value;
            var idx := FirstIndices(xs, key);
            |r| == |idx| && forall i :: 0 <= i < |r| ==> idx[i] < |xs| && r[i] == xs[idx[i]]
    decreases |xs|
  {
    if |xs| > 0 {
      var init := xs[..|xs| - 1];
      var last := xs[|xs| - 1];
      assert DistinctByKey(init, key).Some?;
      DistinctByKeyFirsts(init, key);
      FirstIndicesSpec(init, key);
      var p := DistinctByKey(init, key).value;
      var pidx := FirstIndices(init, key);
      var seen := key(last) in KeysOf(init, key);
      assert seen <==> !FirstOfKey(xs, key, |xs| - 1) by { LastFirstOfKey(xs, key); }
      var r := DistinctByKey(xs, key).value;
      var idx := FirstIndices(xs, key);
      assert r == if seen then p else p + [last];
      assert idx == if seen then pidx else pidx + [|xs| - 1];
      forall i | 0 <= i < |r| ensures idx[i] < |xs| && r[i] == xs[idx[i]] {
        if i < |p| {
          assert r[i] == p[i] && idx[i] == pidx[i];
          assert xs[pidx[i]] == init[pidx[i]];
        }
      }
    }
  }

  /** The last element is the first of its key exactly when no earlier element has its key. */
  lemma LastFirstOfKey<T>(xs: seq<T>, key: T -> Option<string>)
    requires |xs| > 0
    ensures key(xs[|xs| - 1]) in KeysOf(xs[..|xs| - 1], key) <==> !FirstOfKey(xs, key, |xs| - 1)
  {
    var init := xs[..|xs| - 1];
    if key(xs[|xs| - 1]) in KeysOf(init, key) {
      var j' :| 0 <= j' < |init| && key(init[j']) == key(xs[|xs| - 1]);
      assert key(xs[j']) == key(xs[|xs| - 1]);
    } else {
      forall j' | 0 <= j' < |xs| - 1 ensures key(xs[j']) != key(xs[|xs| - 1]) {
        assert key(init[j']) in KeysOf(init, key);
      }
    }
  }

  /** A null key anywhere makes the filter throw. */
  lemma DistinctByKeyNull<T>(xs: seq<T>, key: T -> Option<string>, i: nat)
    requires i < |xs| && key(xs[i]).None?
    ensures DistinctByKey(xs, key).None?
  {
    assert xs[..i + 1][..i] == xs[..i];
    DistinctFailureSticks(xs, key, i + 1);
  }
}
