/** The `/piechart` query: how many of one month's records fall in each
    category. The categories are an open vocabulary, so the keys of the
    result are whatever categories that month's records carry. */
module PieChart {
  import opened Transactions

  /** A category → count mapping, as the query returns it. */
  type Pie = map<string, nat>

  /** The categories carried by `txs`. */
  function Categories(txs: seq<Transaction>): set<string> {
    set t | t in txs :: t.category
  }

  /** How many of `txs` carry category `c`. */
  function CountCategory(txs: seq<Transaction>, c: string): (n: nat)
    ensures n > 0 <==> c in Categories(txs)
  {
    if txs == [] then 0
    else
      var front := txs[..|txs| - 1];
      assert txs == front + [txs[|txs| - 1]];
      assert Categories(txs) == Categories(front) + {txs[|txs| - 1].category};
      CountCategory(front, c) + (if txs[|txs| - 1].category == c then 1 else 0)
  }

  /** The loop of the source: a category seen before has its count raised,
      a new one enters with count 1. The keys are exactly the categories
      present, and each holds its number of records, which is never zero. */
  function CategoryCounts(txs: seq<Transaction>): (r: Pie)
    ensures r.Keys == Categories(txs)
    ensures forall c :: c in r ==> r[c] == CountCategory(txs, c) && r[c] >= 1
  {
    if txs == [] then map[]
    else
      var front := txs[..|txs| - 1];
      var t := txs[|txs| - 1];
      assert txs == front + [t];
      var r := CategoryCounts(front);
      if t.category in r then r[t.category := r[t.category] + 1]
      else r[t.category := 1]
  }

  /** The pie chart of one month. */
  function GetPieChart(store: Store, month: int): (r: Pie)
    ensures forall c :: c in r <==> exists t :: t in store && InMonth(t, month) && t.category == c
    ensures forall c :: c in r ==> r[c] == CountCategory(MonthFilter(store, month), c) && r[c] >= 1
    ensures MonthFilter(store, month) == [] ==> r == map[]
  {
    CategoryCounts(MonthFilter(store, month))
  }

  /** The sum of all values of a map, taken key by key in no fixed order. */
  ghost function MapTotal(m: Pie): nat
    decreases |m|
  {
    if |m| == 0 then 0
    else
      var k := AnyKey(m);
      RemoveSize(m, k);
      m[k] + MapTotal(m - {k})
  }

  /** Some key of a non-empty map. */
  ghost function AnyKey(m: Pie): (k: string)
    requires |m| > 0
    ensures k in m
  {
    assert |m.Keys| > 0;
    var k :| k in m; k
  }

  lemma RemoveSize(m: Pie, k: string)
    requires k in m
    ensures |m - {k}| == |m| - 1
  {
  }

  /** The sum does not depend on which key is taken first. */
  lemma {:induction false} MapTotalRemove(m: Pie, k: string)
    requires k in m
    ensures MapTotal(m) == m[k] + MapTotal(m - {k})
    decreases |m|
  {
    var j := AnyKey(m);
    if j != k {
      RemoveSize(m, j);
      RemoveSize(m, k);
      assert m - {j} - {k} == m - {k} - {j};
      MapTotalRemove(m - {j}, k);
      MapTotalRemove(m - {k}, j);
    }
  }

  /** Setting one key to `v` changes the sum by the difference. */
  lemma MapTotalUpdate(m: Pie, k: string, v: nat)
    ensures MapTotal(m[k := v]) + (if k in m then m[k] else 0) == MapTotal(m) + v
  {
    MapTotalRemove(m[k := v], k);
    assert m[k := v] - {k} == m - {k};
    if k in m {
      MapTotalRemove(m, k);
    } else {
      assert m - {k} == m;
    }
  }

  /** Counting one more record of category `c` raises the total by one. */
  lemma CountOneMore(r: Pie, c: string)
    ensures MapTotal(if c in r then r[c := r[c] + 1] else r[c := 1]) == MapTotal(r) + 1
  {
    if c in r {
      MapTotalUpdate(r, c, r[c] + 1);
    } else {
      MapTotalUpdate(r, c, 1);
    }
  }

  lemma {:induction false} CategoryCountsTotal(txs: seq<Transaction>)
    ensures MapTotal(CategoryCounts(txs)) == |txs|
  {
    if txs != [] {
      var front := txs[..|txs| - 1];
      var c := txs[|txs| - 1].category;
      var r := CategoryCounts(front);
      assert CategoryCounts(txs) == if c in r then r[c := r[c] + 1] else r[c := 1];
      CategoryCountsTotal(front);
      CountOneMore(r, c);
    }
  }

  /** Every record of the month is counted under exactly one category: the
      counts sum to the number of the month's records. */
  lemma PieChartTotal(store: Store, month: int)
    ensures MapTotal(GetPieChart(store, month)) == |MonthFilter(store, month)|
  {
    CategoryCountsTotal(MonthFilter(store, month));
  }
}
