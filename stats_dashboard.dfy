/**
 * The sales dashboard: units sold per category, and revenue per product name
 * cut to the five best sellers. Both charts group the order list into an
 * object keyed by name; the object's keys keep their first-insertion order.
 */
module StatsDashboard {
  import opened Common
  import opened Types
  import LegacyUtils

  /** One bar or pie slice: a key and its accumulated amount. */
  datatype Entry = Entry(name: string, value: real)

  /** What the dashboard draws: the pie data and the top-five bar data. */
  datatype Charts = Charts(categoryData: seq<Entry>, revenueData: seq<Entry>)

  predicate Distinct(xs: seq<string>)
  {
    forall i, j :: 0 <= i < j < |xs| ==> xs[i] != xs[j]
  }

  /** The distinct keys of `ks` in order of first appearance. */
  function Keys(ks: seq<string>): seq<string>
  {
    if ks == [] then []
    else
      var before := Keys(ks[..|ks| - 1]);
      if ks[|ks| - 1] in before then before else before + [ks[|ks| - 1]]
  }

  /** The sum of the amounts whose key is `key`. */
  function SumFor(ks: seq<string>, amounts: seq<real>, key: string): real
    requires |ks| == |amounts|
  {
    if ks == [] then 0.0
    else
      var n := |ks| - 1;
      SumFor(ks[..n], amounts[..n], key) + (if ks[n] == key then amounts[n] else 0.0)
  }

  /** The sum of all amounts. */
  function Total(amounts: seq<real>): real
  {
    if amounts == [] then 0.0 else Total(amounts[..|amounts| - 1]) + amounts[|amounts| - 1]
  }

  /** The sum of the entries' amounts. */
  function SumValues(entries: seq<Entry>): real
  {
    if entries == [] then 0.0 else SumValues(entries[..|entries| - 1]) + entries[|entries| - 1].value
  }

  /** One entry per listed key, holding that key's sum. */
  function GroupedFor(keys: seq<string>, ks: seq<string>, amounts: seq<real>): (r: seq<Entry>)
    requires |ks| == |amounts|
    ensures |r| == |keys|
    ensures forall j :: 0 <= j < |keys| ==> r[j] == Entry(keys[j], SumFor(ks, amounts, keys[j]))
  {
    if keys == [] then []
    else
      var n := |keys| - 1;
      GroupedFor(keys[..n], ks, amounts) + [Entry(keys[n], SumFor(ks, amounts, keys[n]))]
  }

  /** The grouping of the list: one entry per distinct key, in first-appearance order. */
  function Grouped(ks: seq<string>, amounts: seq<real>): seq<Entry>
    requires |ks| == |amounts|
  {
    GroupedFor(Keys(ks), ks, amounts)
  }

  /** The names of some entries. */
  function Names(entries: seq<Entry>): (r: seq<string>)
    ensures |r| == |entries|
    ensures forall j :: 0 <= j < |entries| ==> r[j] == entries[j].name
  {
    seq(|entries|, j requires 0 <= j < |entries| => entries[j].name)
  }

  /** The keys are the values of the list, each exactly once. */
  lemma {:induction false} KeysSpec(ks: seq<string>)
    ensures Distinct(Keys(ks))
    ensures forall x :: x in Keys(ks) <==> x in ks
  {
    if ks != [] {
      var n := |ks| - 1;
      KeysSpec(ks[..n]);
      assert ks == ks[..n] + [ks[n]];
      var before := Keys(ks[..n]);
      if ks[n] !in before {
        var r := before + [ks[n]];
        forall i, j | 0 <= i < j < |r|
          ensures r[i] != r[j]
        {
          assert r[i] == before[i];
        }
      }
    }
  }

  /** A key that never occurs sums to zero. */
  lemma {:induction false} SumForAbsent(ks: seq<string>, amounts: seq<real>, key: string)
    requires |ks| == |amounts| && key !in ks
    ensures SumFor(ks, amounts, key) == 0.0
  {
    if ks != [] {
      var n := |ks| - 1;
      assert key !in ks[..n] by {
        forall i | 0 <= i < n
          ensures ks[..n][i] != key
        {
          assert ks[..n][i] == ks[i];
        }
      }
      SumForAbsent(ks[..n], amounts[..n], key);
    }
  }

  /** Dropping the last key of a distinct list leaves a distinct list without that key. */
  lemma DistinctInit(keys: seq<string>)
    requires keys != [] && Distinct(keys)
    ensures var m := |keys| - 1; Distinct(keys[..m]) && keys[m] !in keys[..m]
  {
    var m := |keys| - 1;
    forall i | 0 <= i < m
      ensures keys[..m][i] == keys[i]
    {
    }
  }

  /** The grouped sum over a list of keys is the sum over all but its last key, plus that key's sum. */
  lemma GroupedForLast(keys: seq<string>, ks: seq<string>, amounts: seq<real>)
    requires |ks| == |amounts| && keys != []
    ensures var m := |keys| - 1;
      SumValues(GroupedFor(keys, ks, amounts))
        == SumValues(GroupedFor(keys[..m], ks, amounts)) + SumFor(ks, amounts, keys[m])
  {
    var m := |keys| - 1;
    var a := GroupedFor(keys[..m], ks, amounts);
    var e := Entry(keys[m], SumFor(ks, amounts, keys[m]));
    var g := a + [e];
    assert GroupedFor(keys, ks, amounts) == g;
    assert g[..|g| - 1] == a;
    assert SumValues(g) == SumValues(a) + e.value;
  }

  /** One more order adds its amount to the entry of its key, if that key is listed once. */
  lemma {:induction false} GroupedForStep(keys: seq<string>, ks: seq<string>, amounts: seq<real>)
    requires |ks| == |amounts| && |ks| >= 1 && Distinct(keys)
    ensures var n := |ks| - 1;
      SumValues(GroupedFor(keys, ks, amounts))
        == SumValues(GroupedFor(keys, ks[..n], amounts[..n])) + (if ks[n] in keys then amounts[n] else 0.0)
  {
    var n := |ks| - 1;
    if keys != [] {
      var m := |keys| - 1;
      var init, last := keys[..m], keys[m];
      var ks', amounts' := ks[..n], amounts[..n];
      DistinctInit(keys);
      GroupedForStep(init, ks, amounts);
      GroupedForLast(keys, ks, amounts);
      GroupedForLast(keys, ks', amounts');
      assert SumFor(ks, amounts, last)
        == SumFor(ks', amounts', last) + (if ks[n] == last then amounts[n] else 0.0);
      assert ks[n] in keys <==> ks[n] in init || ks[n] == last by {
        assert keys == init + [last];
      }
    }
  }

  /** The entries of a grouping add up to the total of the list. */
  lemma {:induction false} GroupedTotal(ks: seq<string>, amounts: seq<real>)
    requires |ks| == |amounts|
    ensures SumValues(Grouped(ks, amounts)) == Total(amounts)
  {
    if ks != [] {
      var n := |ks| - 1;
      var before := Keys(ks[..n]);
      GroupedTotal(ks[..n], amounts[..n]);
      KeysSpec(ks[..n]);
      GroupedForStep(before, ks, amounts);
      if ks[n] !in before {
        var keys := before + [ks[n]];
        assert keys[..|keys| - 1] == before;
        SumForAbsent(ks[..n], amounts[..n], ks[n]);
      }
    }
  }

  /**
   * The `reduce`: walk the orders, add each order's amount under its key,
   * creating the key with amount 0 on its first appearance. `keys` is the
   * object's key order.
   */
  method Tally(ks: seq<string>, amounts: seq<real>) returns (keys: seq<string>, acc: map<string, real>)
    requires |ks| == |amounts|
    ensures keys == Keys(ks)
    ensures forall k :: k in acc <==> k in keys
    ensures forall k :: k in acc ==> acc[k] == SumFor(ks, amounts, k)
  {
    keys, acc := [], map[];
    var i := 0;
    while i < |ks|
      invariant 0 <= i <= |ks|
      invariant keys == Keys(ks[..i])
      invariant forall k :: k in acc <==> k in keys
      invariant forall k :: k in acc ==> acc[k] == SumFor(ks[..i], amounts[..i], k)
    {
      var k := ks[i];
      PrefixStep(ks, amounts, i);
      if k !in acc {
        KeysSpec(ks[..i]);
        SumForAbsent(ks[..i], amounts[..i], k);
        acc := acc[k := 0.0];
        keys := keys + [k];
      }
      acc := acc[k := acc[k] + amounts[i]];
      i := i + 1;
    }
    assert ks[..i] == ks && amounts[..i] == amounts;
  }

  /** The tally followed by `Object.values`: the entries read off in key order. */
  method GroupSum(ks: seq<string>, amounts: seq<real>) returns (entries: seq<Entry>)
    requires |ks| == |amounts|
    ensures entries == Grouped(ks, amounts)
  {
    var keys, acc := Tally(ks, amounts);
    entries := [];
    var j := 0;
    while j < |keys|
      invariant 0 <= j <= |keys|
      invariant entries == GroupedFor(keys[..j], ks, amounts)
    {
      assert keys[..j + 1][..j] == keys[..j];
      entries := entries + [Entry(keys[j], acc[keys[j]])];
      j := j + 1;
    }
    assert keys[..j] == keys;
  }

  /** One more position of the list: its key joins the keys if new, its amount joins its key's sum. */
  lemma PrefixStep(ks: seq<string>, amounts: seq<real>, i: nat)
    requires |ks| == |amounts| && i < |ks|
    ensures Keys(ks[..i + 1]) == if ks[i] in Keys(ks[..i]) then Keys(ks[..i]) else Keys(ks[..i]) + [ks[i]]
    ensures forall k ::
      SumFor(ks[..i + 1], amounts[..i + 1], k) == SumFor(ks[..i], amounts[..i], k) + (if ks[i] == k then amounts[i] else 0.0)
  {
    assert ks[..i + 1][..i] == ks[..i] && amounts[..i + 1][..i] == amounts[..i];
  }

  /** The category of each order, as the client writes it. */
  function CategoryKeys(orders: seq<OrderItem>): (r: seq<string>)
    ensures |r| == |orders|
  {
    seq(|orders|, i requires 0 <= i < |orders| => CategoryName(orders[i].draft.categoria))
  }

  /** The quantity of each order. */
  function Quantities(orders: seq<OrderItem>): (r: seq<real>)
    ensures |r| == |orders|
  {
    seq(|orders|, i requires 0 <= i < |orders| => orders[i].draft.quantidade as real)
  }

  /** The product name of each order. */
  function ProductNames(orders: seq<OrderItem>): (r: seq<string>)
    ensures |r| == |orders|
  {
    seq(|orders|, i requires 0 <= i < |orders| => orders[i].draft.nome)
  }

  /** The client estimate of each order (the store's total is not consulted). */
  function Revenues(orders: seq<OrderItem>): (r: seq<real>)
    ensures |r| == |orders|
  {
    seq(|orders|, i requires 0 <= i < |orders| =>
      var d := orders[i].draft;
      LegacyUtils.CalculateItemPrice(d.preco, d.quantidade, CategoryName(d.categoria), d.tamanho, d.tipoMassa))
  }

  /**
   * `categoryData`: one entry per category present, in first-appearance
   * order, each holding the units ordered in it; the entries add up to all
   * units ordered.
   */
  method CategoryData(orders: seq<OrderItem>) returns (data: seq<Entry>)
    ensures data == Grouped(CategoryKeys(orders), Quantities(orders))
    ensures forall j :: 0 <= j < |data| ==>
      data[j].value == SumFor(CategoryKeys(orders), Quantities(orders), data[j].name)
    ensures Distinct(Names(data))
    ensures forall c :: c in Names(data) <==> c in CategoryKeys(orders)
    ensures SumValues(data) == Total(Quantities(orders))
  {
    data := GroupSum(CategoryKeys(orders), Quantities(orders));
    KeysSpec(CategoryKeys(orders));
    assert Names(data) == Keys(CategoryKeys(orders));
    GroupedTotal(CategoryKeys(orders), Quantities(orders));
  }

  /** Non-increasing by amount. */
  predicate SortedDesc(xs: seq<Entry>)
  {
    forall i, j :: 0 <= i < j < |xs| ==> xs[i].value >= xs[j].value
  }

  /** Place `e` before the first entry whose amount is not above its own. */
  function Insert(e: Entry, xs: seq<Entry>): (r: seq<Entry>)
    ensures multiset(r) == multiset(xs) + multiset{e}
  {
    if xs == [] then [e]
    else if e.value >= xs[0].value then [e] + xs
    else
      assert xs == [xs[0]] + xs[1..];
      [xs[0]] + Insert(e, xs[1..])
  }

  /** Every amount in the list is at most `v`. */
  predicate AtMost(xs: seq<Entry>, v: real)
  {
    forall y :: y in xs ==> y.value <= v
  }

  /** Inserting an entry no larger than `v` into a list no larger than `v` keeps it so. */
  lemma {:induction false} InsertAtMost(e: Entry, xs: seq<Entry>, v: real)
    requires AtMost(xs, v) && e.value <= v
    ensures AtMost(Insert(e, xs), v)
  {
    if xs != [] && e.value < xs[0].value {
      assert forall y :: y in xs[1..] ==> y in xs;
      InsertAtMost(e, xs[1..], v);
      assert xs[0] in xs;
    }
  }

  /** A sorted list under a larger first entry is sorted. */
  lemma SortedCons(x: Entry, rest: seq<Entry>)
    requires SortedDesc(rest) && AtMost(rest, x.value)
    ensures SortedDesc([x] + rest)
  {
    var r := [x] + rest;
    forall i, j | 0 <= i < j < |r|
      ensures r[i].value >= r[j].value
    {
      assert r[j] == rest[j - 1];
      if i > 0 {
        assert r[i] == rest[i - 1];
      } else {
        assert rest[j - 1] in rest;
      }
    }
  }

  /** Inserting into a sorted list keeps it sorted. */
  lemma {:induction false} InsertSorted(e: Entry, xs: seq<Entry>)
    requires SortedDesc(xs)
    ensures SortedDesc(Insert(e, xs))
  {
    if xs != [] && e.value < xs[0].value {
      var tail := xs[1..];
      assert SortedDesc(tail) by {
        forall i, j | 0 <= i < j < |tail|
          ensures tail[i].value >= tail[j].value
        {
          assert tail[i] == xs[i + 1] && tail[j] == xs[j + 1];
        }
      }
      assert AtMost(tail, xs[0].value) by {
        forall y | y in tail
          ensures y.value <= xs[0].value
        {
          var k :| 0 <= k < |tail| && tail[k] == y;
          assert xs[k + 1] == y;
        }
      }
      InsertSorted(e, tail);
      InsertAtMost(e, tail, xs[0].value);
      SortedCons(xs[0], Insert(e, tail));
    }
  }


  /** `sort((a, b) => b.revenue - a.revenue)`: a stable sort, largest amount first. */
  function SortDesc(xs: seq<Entry>): (r: seq<Entry>)
    ensures SortedDesc(r)
    ensures multiset(r) == multiset(xs)
  {
    if xs == [] then []
    else
      var rest := SortDesc(xs[1..]);
      InsertSorted(xs[0], rest);
      assert xs == [xs[0]] + xs[1..];
      Insert(xs[0], rest)
  }

  /** `slice(0, 5)`. */
  function TopFive(xs: seq<Entry>): seq<Entry>
  {
    if |xs| <= 5 then xs else xs[..5]
  }

  /**
   * The best five of a sorted list: at most five, still sorted, a prefix of
   * the list, and nothing dropped earns more than anything kept.
   */
  lemma TopFiveSpec(xs: seq<Entry>)
    requires SortedDesc(xs)
    ensures |TopFive(xs)| <= 5
    ensures |TopFive(xs)| == if |xs| < 5 then |xs| else 5
    ensures TopFive(xs) == xs[..|TopFive(xs)|]
    ensures SortedDesc(TopFive(xs))
    ensures forall i, j :: 0 <= i < |TopFive(xs)| <= j < |xs| ==> xs[j].value <= TopFive(xs)[i].value
  {
  }

  /**
   * `revenueData`: the per-name revenue entries, largest first, cut to five;
   * each holds the sum of the client estimates of the orders with that name.
   */
  method RevenueData(orders: seq<OrderItem>) returns (top: seq<Entry>)
    ensures top == TopFive(SortDesc(Grouped(ProductNames(orders), Revenues(orders))))
    ensures |top| <= 5 && SortedDesc(top)
    ensures forall e :: e in top ==> e in Grouped(ProductNames(orders), Revenues(orders))
  {
    var grouped := GroupSum(ProductNames(orders), Revenues(orders));
    var sorted := SortDesc(grouped);
    TopFiveSpec(sorted);
    top := TopFive(sorted);
    forall e | e in top
      ensures e in grouped
    {
      assert e in multiset(sorted);
    }
  }

  /** The dashboard: nothing for an empty order list, else both charts. */
  method Dashboard(orders: seq<OrderItem>) returns (r: Option<Charts>)
    ensures r.None? <==> orders == []
    ensures r.Some? ==>
      r.value.categoryData == Grouped(CategoryKeys(orders), Quantities(orders))
      && r.value.revenueData == TopFive(SortDesc(Grouped(ProductNames(orders), Revenues(orders))))
  {
    if |orders| == 0 {
      return None;
    }
    var categoryData := CategoryData(orders);
    var revenueData := RevenueData(orders);
    r := Some(Charts(categoryData, revenueData));
  }

  /** The per-name entries: one per distinct name, each the revenue of that name's orders. */
  lemma RevenueEntries(orders: seq<OrderItem>)
    ensures Distinct(Names(Grouped(ProductNames(orders), Revenues(orders))))
    ensures forall n :: n in Names(Grouped(ProductNames(orders), Revenues(orders))) <==> n in ProductNames(orders)
    ensures SumValues(Grouped(ProductNames(orders), Revenues(orders))) == Total(Revenues(orders))
  {
    KeysSpec(ProductNames(orders));
    assert Names(Grouped(ProductNames(orders), Revenues(orders))) == Keys(ProductNames(orders));
    GroupedTotal(ProductNames(orders), Revenues(orders));
  }
}
