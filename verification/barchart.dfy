/** The `/barchart` query: a histogram of one month's prices over ten fixed
    ranges, each closed at its upper edge. */
module BarChart {
  import opened Transactions

  /** The ten range labels, lowest range first. */
  const Labels: seq<string> := [
    "0-100", "101-200", "201-300", "301-400", "401-500",
    "501-600", "601-700", "701-800", "801-900", "901-above"]

  /** A label → count mapping, as the query returns it. */
  type Chart = map<string, nat>

  predicate NoDuplicates(ls: seq<string>) {
    forall i, j :: 0 <= i < j < |ls| ==> ls[i] != ls[j]
  }

  /** The classifier of the source: an if/elif chain on `price <= bound`. */
  function Bucket(price: real): (key: string)
    ensures key in Labels
  {
    if price <= 100.0 then "0-100"
    else if price <= 200.0 then "101-200"
    else if price <= 300.0 then "201-300"
    else if price <= 400.0 then "301-400"
    else if price <= 500.0 then "401-500"
    else if price <= 600.0 then "501-600"
    else if price <= 700.0 then "601-700"
    else if price <= 800.0 then "701-800"
    else if price <= 900.0 then "801-900"
    else "901-above"
  }

  /** Range `i` as an interval, stated independently of the chain: the
      half-open interval (100·i, 100·(i+1)], with the lowest range unbounded
      below and the highest unbounded above. */
  predicate InRange(price: real, i: int) {
    && 0 <= i < 10
    && (i == 0 || (100 * i) as real < price)
    && (i == 9 || price <= (100 * (i + 1)) as real)
  }

  /** The chain puts a price under label `i` exactly when the price lies in
      range `i`; since the labels are distinct, every price falls in exactly
      one range. */
  lemma BucketIsRange(price: real)
    ensures NoDuplicates(Labels)
    ensures forall i :: 0 <= i < |Labels| ==> (Bucket(price) == Labels[i] <==> InRange(price, i))
  {
  }

  /** Exactly one range holds each price. */
  lemma RangesPartition(price: real, i: int, j: int)
    requires InRange(price, i) && InRange(price, j)
    ensures i == j
  {
  }

  /** Every label present, every count zero: the dict the source starts from. */
  function ZeroChart(): (c: Chart)
    ensures forall l :: l in c <==> l in Labels
    ensures forall l :: l in c ==> c[l] == 0
  {
    map l | l in Labels :: 0
  }

  /** How many of `txs` lie in range `i`. */
  function CountInRange(txs: seq<Transaction>, i: int): nat {
    if txs == [] then 0
    else CountInRange(txs[..|txs| - 1], i) + (if InRange(txs[|txs| - 1].price, i) then 1 else 0)
  }

  /** The loop of the source: every record bumps the label the chain picks.
      Afterwards the ten labels are still the only keys and each holds the
      number of records whose price lies in its range. */
  function Tally(txs: seq<Transaction>): (c: Chart)
    ensures forall l :: l in c <==> l in Labels
    ensures forall i :: 0 <= i < |Labels| ==> c[Labels[i]] == CountInRange(txs, i)
  {
    if txs == [] then ZeroChart()
    else
      var c := Tally(txs[..|txs| - 1]);
      var key := Bucket(txs[|txs| - 1].price);
      BucketIsRange(txs[|txs| - 1].price);
      c[key := c[key] + 1]
  }

  /** The bar chart of one month: all ten labels, each counting the month's
      records in its range; an empty month gives ten zeros. */
  function GetBarChart(store: Store, month: int): (r: Chart)
    ensures forall l :: l in r <==> l in Labels
    ensures forall i :: 0 <= i < |Labels| ==>
      r[Labels[i]] == CountInRange(MonthFilter(store, month), i)
    ensures MonthFilter(store, month) == [] ==> r == ZeroChart()
  {
    Tally(MonthFilter(store, month))
  }

  /** The sum of the counts under the labels `ls`. */
  function LabelSum(c: Chart, ls: seq<string>): nat
    requires forall k :: 0 <= k < |ls| ==> ls[k] in c
  {
    if ls == [] then 0 else c[ls[0]] + LabelSum(c, ls[1..])
  }

  function ChartTotal(c: Chart): nat
    requires forall l :: l in Labels ==> l in c
  {
    LabelSum(c, Labels)
  }

  lemma {:induction false} LabelSumZero(c: Chart, ls: seq<string>)
    requires forall k :: 0 <= k < |ls| ==> ls[k] in c && c[ls[k]] == 0
    ensures LabelSum(c, ls) == 0
  {
    if ls != [] {
      LabelSumZero(c, ls[1..]);
    }
  }

  /** Bumping one label raises the sum over distinct labels by one when the
      label is among them and leaves it unchanged otherwise. */
  lemma {:induction false} LabelSumBump(c: Chart, ls: seq<string>, key: string)
    requires NoDuplicates(ls)
    requires key in c
    requires forall k :: 0 <= k < |ls| ==> ls[k] in c
    ensures LabelSum(c[key := c[key] + 1], ls) == LabelSum(c, ls) + (if key in ls then 1 else 0)
  {
    if ls != [] {
      LabelSumBump(c, ls[1..], key);
      if ls[0] == key {
        assert key !in ls[1..] by {
          forall k | 0 <= k < |ls[1..]| ensures ls[1..][k] != key {
            assert ls[1..][k] == ls[k + 1];
          }
        }
      } else {
        assert key in ls <==> key in ls[1..];
      }
    }
  }

  lemma {:induction false} TallyTotal(txs: seq<Transaction>)
    ensures ChartTotal(Tally(txs)) == |txs|
  {
    if txs == [] {
      LabelSumZero(ZeroChart(), Labels);
    } else {
      var c := Tally(txs[..|txs| - 1]);
      TallyTotal(txs[..|txs| - 1]);
      BucketIsRange(txs[|txs| - 1].price);
      LabelSumBump(c, Labels, Bucket(txs[|txs| - 1].price));
    }
  }

  /** Every record of the month is counted exactly once: the ten counts sum
      to the number of the month's records. */
  lemma BarChartTotal(store: Store, month: int)
    ensures ChartTotal(GetBarChart(store, month)) == |MonthFilter(store, month)|
  {
    TallyTotal(MonthFilter(store, month));
  }
}
