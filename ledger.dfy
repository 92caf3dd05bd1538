/** Grouping of monthly series by a name, in first-seen order.

    Both `computeAllRevenue` (grouping services by stream) and
    `computeAllOpex` (grouping expenses by category) keep a dictionary from
    name to `{ name, members, monthlyTotal }`, create an entry with a
    zero-filled total the first time a name is seen, push the member and add
    its monthly amounts into the total. The dictionary is a list of groups
    here, in the order the names were first seen. That is the order
    JavaScript enumerates the keys in, as long as no name is an array index
    such as "0" or "2025"; an object lists those keys first, in numeric
    order, and this model does not. */
module Ledger {
  import opened Common
  import opened Money

  datatype Group<T> = Group(name: string, members: seq<T>, monthlyTotal: seq<real>)

  /** `new Array(n).fill(0)`. */
  function Zeros(n: nat): (z: seq<real>)
    ensures |z| == n
    ensures forall m :: 0 <= m < n ==> z[m] == 0.0
  {
    seq(n, _ => 0.0)
  }

  /** Month-by-month sum of two series of the same length. */
  function AddPointwise(a: seq<real>, b: seq<real>): (c: seq<real>)
    requires |a| == |b|
    ensures |c| == |a|
    ensures forall m :: 0 <= m < |a| ==> c[m] == a[m] + b[m]
  {
    seq(|a|, m requires 0 <= m < |a| => a[m] + b[m])
  }

  /** Dictionary lookup: the position of the group called `key`, if any. */
  function Find<T>(groups: seq<Group<T>>, key: string): (r: Option<nat>)
    ensures r.Some? ==> r.value < |groups| && groups[r.value].name == key
    ensures r.None? ==> forall j :: 0 <= j < |groups| ==> groups[j].name != key
  {
    if |groups| == 0 then None
    else if groups[0].name == key then Some(0)
    else match Find(groups[1..], key)
      case None => None
      case Some(j) => Some(j + 1)
  }

  /** Every group's total spans `n` months. */
  predicate Shaped<T>(groups: seq<Group<T>>, n: nat) {
    forall j :: 0 <= j < |groups| ==> |groups[j].monthlyTotal| == n
  }

  /** No two groups share a name. */
  predicate DistinctNames<T>(groups: seq<Group<T>>) {
    forall i, j :: 0 <= i < j < |groups| ==> groups[i].name != groups[j].name
  }

  /** One step of the grouping loop: add a member with its monthly amounts to
      the group of `key`, creating that group at the end if it is new. */
  function Insert<T>(groups: seq<Group<T>>, key: string, member: T, amounts: seq<real>): seq<Group<T>>
    requires Shaped(groups, |amounts|)
  {
    match Find(groups, key)
    case Some(j) =>
      groups[j := Group(key, groups[j].members + [member], AddPointwise(groups[j].monthlyTotal, amounts))]
    case None =>
      groups + [Group(key, [member], AddPointwise(Zeros(|amounts|), amounts))]
  }

  /** The amounts of every item have `n` months. */
  predicate Rectangular(amounts: seq<seq<real>>, n: nat) {
    forall i :: 0 <= i < |amounts| ==> |amounts[i]| == n
  }

  /** The groups after items 0 .. |keys|-1 have been added in order. */
  function Grouped<T>(keys: seq<string>, members: seq<T>, amounts: seq<seq<real>>, n: nat): (g: seq<Group<T>>)
    requires |members| == |keys| && |amounts| == |keys|
    requires Rectangular(amounts, n)
    ensures Shaped(g, n)
    decreases |keys|
  {
    if |keys| == 0 then []
    else
      var k := |keys| - 1;
      Insert(Grouped(keys[..k], members[..k], amounts[..k], n), keys[k], members[k], amounts[k])
  }

  /** `AddMember`: the body of the grouping loop, with its month loop
      `monthlyTotal[m] += amounts[m]`. */
  method AddMember<T>(groups: seq<Group<T>>, key: string, member: T, amounts: seq<real>)
    returns (result: seq<Group<T>>)
    requires Shaped(groups, |amounts|)
    ensures result == Insert(groups, key, member, amounts)
  {
    var n := |amounts|;
    var found := Find(groups, key);
    var j: nat;
    var grown := groups;
    if found.None? {
      grown := groups + [Group(key, [], Zeros(n))];
      j := |groups|;
    } else {
      j := found.value;
    }
    var g := grown[j];
    var total := g.monthlyTotal;
    var m := 0;
    while m < n
      invariant m <= n && |total| == n
      invariant forall k :: 0 <= k < m ==> total[k] == g.monthlyTotal[k] + amounts[k]
      invariant forall k :: m <= k < n ==> total[k] == g.monthlyTotal[k]
    {
      total := total[m := total[m] + amounts[m]];
      m := m + 1;
    }
    assert total == AddPointwise(g.monthlyTotal, amounts);
    result := grown[j := Group(key, g.members + [member], total)];
    if found.None? {
      assert g.members + [member] == [member];
      assert result == groups + [Group(key, [member], AddPointwise(Zeros(n), amounts))];
    }
  }

  /** The month loop `grand[m] += row[m]` of the variant engines. */
  method AccumulateMonths(grand: seq<real>, row: seq<real>) returns (sum: seq<real>)
    requires |grand| == |row|
    ensures sum == AddPointwise(grand, row)
  {
    sum := grand;
    var m := 0;
    while m < |row|
      invariant m <= |row| && |sum| == |row|
      invariant forall k :: 0 <= k < m ==> sum[k] == grand[k] + row[k]
      invariant forall k :: m <= k < |row| ==> sum[k] == grand[k]
    {
      sum := sum[m := sum[m] + row[m]];
      m := m + 1;
    }
  }

  /** Column m summed over a list of series. */
  function ColumnSum(rows: seq<seq<real>>, m: nat): real
    requires forall i :: 0 <= i < |rows| ==> m < |rows[i]|
  {
    if |rows| == 0 then 0.0 else ColumnSum(rows[..|rows| - 1], m) + rows[|rows| - 1][m]
  }

  /** The totals of the groups, in group order. */
  function Totals<T>(groups: seq<Group<T>>): (t: seq<seq<real>>)
    ensures |t| == |groups|
    ensures forall j :: 0 <= j < |groups| ==> t[j] == groups[j].monthlyTotal
  {
    seq(|groups|, j requires 0 <= j < |groups| => groups[j].monthlyTotal)
  }

  /** Sum of amounts[i][m] over the items i filed under `key`. */
  function KeySum(keys: seq<string>, amounts: seq<seq<real>>, key: string, m: nat): real
    requires |amounts| == |keys|
    requires forall i :: 0 <= i < |amounts| ==> m < |amounts[i]|
  {
    if |keys| == 0 then 0.0
    else
      var k := |keys| - 1;
      KeySum(keys[..k], amounts[..k], key, m) + (if keys[k] == key then amounts[k][m] else 0.0)
  }

  /** The members of the items filed under `key`, in input order. */
  function KeyMembers<T>(keys: seq<string>, members: seq<T>, key: string): seq<T>
    requires |members| == |keys|
  {
    if |keys| == 0 then []
    else
      var k := |keys| - 1;
      KeyMembers(keys[..k], members[..k], key) + (if keys[k] == key then [members[k]] else [])
  }

  /** Replacing one row changes the column sum by the difference of its entries. */
  lemma {:induction false} ColumnSumUpdate(rows: seq<seq<real>>, j: nat, row: seq<real>, m: nat)
    requires j < |rows|
    requires forall i :: 0 <= i < |rows| ==> m < |rows[i]|
    requires m < |row|
    ensures ColumnSum(rows[j := row], m) == ColumnSum(rows, m) - rows[j][m] + row[m]
  {
    var k := |rows| - 1;
    if j < k {
      assert rows[j := row][..k] == rows[..k][j := row];
      ColumnSumUpdate(rows[..k], j, row, m);
    } else {
      assert rows[j := row][..k] == rows[..k];
    }
  }

  /** Lookup depends only on the names of the groups. */
  lemma {:induction false} FindByNames<T>(a: seq<Group<T>>, b: seq<Group<T>>, key: string)
    requires |a| == |b|
    requires forall i :: 0 <= i < |a| ==> a[i].name == b[i].name
    ensures Find(a, key) == Find(b, key)
  {
    if |a| > 0 && a[0].name != key {
      FindByNames(a[1..], b[1..], key);
    }
  }

  /** Grouping never files two groups under one name. */
  lemma {:induction false} GroupedDistinct<T>(keys: seq<string>, members: seq<T>, amounts: seq<seq<real>>, n: nat)
    requires |members| == |keys| && |amounts| == |keys|
    requires Rectangular(amounts, n)
    ensures DistinctNames(Grouped(keys, members, amounts, n))
    decreases |keys|
  {
    if |keys| > 0 {
      var k := |keys| - 1;
      var prev := Grouped(keys[..k], members[..k], amounts[..k], n);
      GroupedDistinct(keys[..k], members[..k], amounts[..k], n);
      var g := Grouped(keys, members, amounts, n);
      match Find(prev, keys[k])
      case Some(j) =>
        assert forall i :: 0 <= i < |g| ==> g[i].name == prev[i].name;
      case None =>
        assert forall i :: 0 <= i < |prev| ==> g[i].name == prev[i].name;
    }
  }

  /** A name has a group exactly when some item carries it. */
  lemma {:induction false} GroupedFind<T>(keys: seq<string>, members: seq<T>, amounts: seq<seq<real>>, n: nat, key: string)
    requires |members| == |keys| && |amounts| == |keys|
    requires Rectangular(amounts, n)
    ensures Find(Grouped(keys, members, amounts, n), key).Some? <==> key in keys
    decreases |keys|
  {
    if |keys| > 0 {
      var k := |keys| - 1;
      var prev := Grouped(keys[..k], members[..k], amounts[..k], n);
      GroupedFind(keys[..k], members[..k], amounts[..k], n, key);
      assert keys == keys[..k] + [keys[k]];
      var g := Grouped(keys, members, amounts, n);
      match Find(prev, keys[k])
      case Some(j) =>
        GroupedFind(keys[..k], members[..k], amounts[..k], n, keys[k]);
        FindByNames(g, prev, key);
      case None =>
        assert g == prev + [g[|prev|]];
        assert g[|prev|].name == keys[k];
        if key != keys[k] {
          assert forall i :: 0 <= i < |prev| ==> g[i] == prev[i];
          if Find(prev, key).Some? {
            assert g[Find(prev, key).value].name == key;
          }
          if Find(g, key).Some? {
            assert prev[Find(g, key).value].name == key;
          }
        }
    }
  }

  /** Each group's monthly total is the sum of the amounts of exactly the
      items filed under its name, and its members are those items in input
      order. */
  lemma {:induction false} GroupedTotals<T>(keys: seq<string>, members: seq<T>, amounts: seq<seq<real>>, n: nat, j: nat, m: nat)
    requires |members| == |keys| && |amounts| == |keys|
    requires Rectangular(amounts, n)
    requires j < |Grouped(keys, members, amounts, n)| && m < n
    ensures var g := Grouped(keys, members, amounts, n)[j];
      g.monthlyTotal[m] == KeySum(keys, amounts, g.name, m) &&
      g.members == KeyMembers(keys, members, g.name)
    decreases |keys|
  {
    var k := |keys| - 1;
    var prev := Grouped(keys[..k], members[..k], amounts[..k], n);
    var g := Grouped(keys, members, amounts, n);
    GroupedFind(keys[..k], members[..k], amounts[..k], n, keys[k]);
    match Find(prev, keys[k])
    case Some(i) =>
      GroupedTotals(keys[..k], members[..k], amounts[..k], n, j, m);
      if i != j {
        GroupedDistinct(keys[..k], members[..k], amounts[..k], n);
        assert g[j] == prev[j];
        assert prev[j].name != keys[k];
      }
    case None =>
      if j < |prev| {
        GroupedTotals(keys[..k], members[..k], amounts[..k], n, j, m);
        assert g[j] == prev[j];
      } else {
        assert g[j].name == keys[k];
        assert keys[k] !in keys[..k];
        KeySumAbsent(keys[..k], amounts[..k], keys[k], m);
        KeyMembersAbsent(keys[..k], members[..k], keys[k]);
      }
  }

  /** A name that no item carries collects nothing. */
  lemma {:induction false} KeySumAbsent(keys: seq<string>, amounts: seq<seq<real>>, key: string, m: nat)
    requires |amounts| == |keys|
    requires forall i :: 0 <= i < |amounts| ==> m < |amounts[i]|
    requires key !in keys
    ensures KeySum(keys, amounts, key, m) == 0.0
  {
    if |keys| > 0 {
      var k := |keys| - 1;
      assert keys[k] in keys;
      assert forall x :: x in keys[..k] ==> x in keys;
      KeySumAbsent(keys[..k], amounts[..k], key, m);
    }
  }

  /** A name that no item carries has no members. */
  lemma {:induction false} KeyMembersAbsent<T>(keys: seq<string>, members: seq<T>, key: string)
    requires |members| == |keys|
    requires key !in keys
    ensures KeyMembers(keys, members, key) == []
  {
    if |keys| > 0 {
      var k := |keys| - 1;
      assert keys[k] in keys;
      assert forall x :: x in keys[..k] ==> x in keys;
      KeyMembersAbsent(keys[..k], members[..k], key);
    }
  }

  /** One insertion adds the item's amount of month m to the column sum of
      the group totals, whether it joins a group or opens one. */
  lemma ColumnSumInsert<T>(groups: seq<Group<T>>, key: string, member: T, amounts: seq<real>, m: nat)
    requires Shaped(groups, |amounts|)
    requires m < |amounts|
    ensures Shaped(Insert(groups, key, member, amounts), |amounts|)
    ensures ColumnSum(Totals(Insert(groups, key, member, amounts)), m) == ColumnSum(Totals(groups), m) + amounts[m]
  {
    var g := Insert(groups, key, member, amounts);
    match Find(groups, key)
    case Some(j) =>
      assert Totals(g) == Totals(groups)[j := g[j].monthlyTotal];
      ColumnSumUpdate(Totals(groups), j, g[j].monthlyTotal, m);
    case None =>
      assert Totals(g)[..|groups|] == Totals(groups);
  }

  /** Regrouping: summing the group totals of month m gives the sum of all
      items' amounts of month m. */
  lemma {:induction false} GroupedColumn<T>(keys: seq<string>, members: seq<T>, amounts: seq<seq<real>>, n: nat, m: nat)
    requires |members| == |keys| && |amounts| == |keys|
    requires Rectangular(amounts, n)
    requires m < n
    ensures ColumnSum(Totals(Grouped(keys, members, amounts, n)), m) == ColumnSum(amounts, m)
    decreases |keys|
  {
    if |keys| > 0 {
      var k := |keys| - 1;
      assert Rectangular(amounts[..k], n) && |amounts[k]| == n;
      var prev := Grouped(keys[..k], members[..k], amounts[..k], n);
      assert Grouped(keys, members, amounts, n) == Insert(prev, keys[k], members[k], amounts[k]);
      GroupedColumn(keys[..k], members[..k], amounts[..k], n, m);
      ColumnSumInsert(prev, keys[k], members[k], amounts[k], m);
      assert ColumnSum(amounts, m) == ColumnSum(amounts[..k], m) + amounts[k][m];
    }
  }

  /** A name with a monthly series, as in `yearlyByStream[name]`. */
  datatype NamedSeries = NamedSeries(name: string, values: seq<real>)

  /** The grand-total loop: `grand[m] += group.monthlyTotal[m]` for every group
      and month; month m ends up holding the column sum of the group totals. */
  method GrandTotal<T>(groups: seq<Group<T>>, n: nat) returns (grand: seq<real>)
    requires Shaped(groups, n)
    ensures |grand| == n
    ensures forall m :: 0 <= m < n ==> grand[m] == ColumnSum(Totals(groups), m)
  {
    grand := Zeros(n);
    var j := 0;
    while j < |groups|
      invariant j <= |groups| && |grand| == n
      invariant forall m :: 0 <= m < n ==> grand[m] == ColumnSum(Totals(groups[..j]), m)
    {
      var total := groups[j].monthlyTotal;
      assert Totals(groups[..j + 1])[..j] == Totals(groups[..j]);
      var m := 0;
      while m < n
        invariant m <= n && |grand| == n
        invariant forall k :: 0 <= k < m ==> grand[k] == ColumnSum(Totals(groups[..j + 1]), k)
        invariant forall k :: m <= k < n ==> grand[k] == ColumnSum(Totals(groups[..j]), k)
      {
        grand := grand[m := grand[m] + total[m]];
        m := m + 1;
      }
      j := j + 1;
    }
    assert groups[..|groups|] == groups;
  }
}
