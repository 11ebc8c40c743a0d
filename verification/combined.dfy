/** The `/combined` query: the statistics, bar chart and pie chart of one
    month in a single record. */
module Combined {
  import opened Transactions
  import opened Statistics
  import opened BarChart
  import opened PieChart

  /** The three results side by side: `statistics`, `bar_chart` and
      `pie_chart` in the source's JSON object. */
  datatype CombinedData = CombinedData(statistics: Stats, barChart: Chart, pieChart: Pie)

  /** The composition the endpoint means: each field is the standalone
      result for the same table and month, and the three agree on how many
      records the month holds. */
  function GetCombined(store: Store, month: int): (r: CombinedData)
    ensures r.statistics == GetStatistics(store, month)
    ensures r.barChart == GetBarChart(store, month)
    ensures r.pieChart == GetPieChart(store, month)
    ensures r.statistics.totalSoldItems + r.statistics.totalNotSoldItems
         == ChartTotal(r.barChart)
  {
    BarChartTotal(store, month);
    CombinedData(GetStatistics(store, month), GetBarChart(store, month), GetPieChart(store, month))
  }

  /** The three parts of the combined result count the same records: the
      sold and unsold counts, the ten bar counts and the category counts all
      add up to the number of the month's records. */
  lemma CombinedConsistent(store: Store, month: int)
    ensures var r := GetCombined(store, month);
      && r.statistics.totalSoldItems + r.statistics.totalNotSoldItems == |MonthFilter(store, month)|
      && ChartTotal(r.barChart) == |MonthFilter(store, month)|
      && MapTotal(r.pieChart) == |MonthFilter(store, month)|
  {
    BarChartTotal(store, month);
    PieChartTotal(store, month);
  }

  /** The bar chart's total, taken over the fixed label list, is the plain
      sum of the chart's values: `ChartTotal` and `MapTotal` are one notion
      of total, specialised to a known key order. */
  lemma ChartTotalIsMapTotal(c: Chart)
    requires forall l :: l in c <==> l in Labels
    ensures ChartTotal(c) == MapTotal(c)
  {
    BucketIsRange(0.0);
    LabelSumIsMapTotal(c, Labels);
  }

  lemma {:induction false} LabelSumIsMapTotal(c: Chart, ls: seq<string>)
    requires NoDuplicates(ls)
    requires forall l :: l in c <==> l in ls
    ensures LabelSum(c, ls) == MapTotal(c)
    decreases |ls|
  {
    if ls == [] {
      assert c == map[];
    } else {
      var l, rest := ls[0], ls[1..];
      var d := c - {l};
      assert l !in rest by {
        forall k | 0 <= k < |rest| ensures rest[k] != l {
          assert rest[k] == ls[k + 1];
        }
      }
      assert NoDuplicates(rest) by {
        forall i, j | 0 <= i < j < |rest| ensures rest[i] != rest[j] {
          assert rest[i] == ls[i + 1] && rest[j] == ls[j + 1];
        }
      }
      assert forall k :: k in d <==> k in rest;
      LabelSumAgree(c, d, rest);
      LabelSumIsMapTotal(d, rest);
      MapTotalRemove(c, l);
    }
  }

  /** Two charts that agree on the labels `ls` have the same sum over them. */
  lemma {:induction false} LabelSumAgree(c: Chart, d: Chart, ls: seq<string>)
    requires forall k :: 0 <= k < |ls| ==> ls[k] in c && ls[k] in d && c[ls[k]] == d[ls[k]]
    ensures LabelSum(c, ls) == LabelSum(d, ls)
  {
    if ls != [] {
      LabelSumAgree(c, d, ls[1..]);
    }
  }

  /** A month without records: zero statistics, ten zero bars, no slices. */
  lemma CombinedEmptyMonth(store: Store, month: int)
    requires forall t :: t in store ==> !InMonth(t, month)
    ensures GetCombined(store, month) == CombinedData(NoStats, ZeroChart(), map[])
  {
  }

  /** One sold record of 250 in category "c1", dated 2024-03-05. */
  const MarchSale := Transaction(1, "A", "A", 250.0, true, "c1", Date(2024, 3, 5))

  /** For a table holding only that record, March reports a sale of 250, a
      single count in "201-300" and zero in every other range, and one slice
      "c1". */
  lemma SingleMarchSale()
    ensures GetCombined([MarchSale], 3).statistics == Stats(250.0, 1, 0)
    ensures forall i :: 0 <= i < |Labels| ==>
      GetCombined([MarchSale], 3).barChart[Labels[i]] == if i == 2 then 1 else 0
    ensures GetCombined([MarchSale], 3).pieChart == map["c1" := 1]
  {
    StatisticsSingle(MarchSale, 3);
    var txs := MonthFilter([MarchSale], 3);
    assert txs == [MarchSale];
    assert txs[..0] == [];
    forall i | 0 <= i < |Labels| ensures CountInRange(txs, i) == if i == 2 then 1 else 0 {
      assert InRange(250.0, i) <==> i == 2;
    }
    assert Categories(txs) == {"c1"};
  }

  // ---------------------------------------------------------------------
  // The endpoint as written. Each sub-view is called as a plain function
  // and returns the pair `(jsonify(...), 200)`; `.get_json()` is then
  // applied to that pair, which has no such attribute.
  // ---------------------------------------------------------------------

  /** What a view function hands back: a bare response, or a response paired
      with a status code. */
  datatype ViewReturn<T> = Response(body: T) | ResponseWithStatus(body: T, status: int)

  datatype Error = AttributeError(typeName: string, attribute: string)

  datatype Result<T> = Ok(value: T) | Err(error: Error)

  /** Attribute access `v.get_json()`: defined on a response, not on a pair. */
  function GetJson<T>(v: ViewReturn<T>): (r: Result<T>)
    ensures r.Ok? <==> v.Response?
    ensures r.Ok? ==> r.value == v.body
  {
    match v
    case Response(b) => Ok(b)
    case ResponseWithStatus(_, _) => Err(AttributeError("tuple", "get_json"))
  }

  /** `get_statistics()` called directly: the statistics paired with 200,
      a value `.get_json()` rejects. */
  function StatisticsView(store: Store, month: int): (r: ViewReturn<Stats>)
    ensures r.ResponseWithStatus? && r.status == 200
    ensures r.body == GetStatistics(store, month)
    ensures GetJson(r).Err?
  {
    ResponseWithStatus(GetStatistics(store, month), 200)
  }

  /** `bar_chart()` called directly: the chart paired with 200. */
  function BarChartView(store: Store, month: int): (r: ViewReturn<Chart>)
    ensures r.ResponseWithStatus? && r.status == 200
    ensures r.body == GetBarChart(store, month)
    ensures GetJson(r).Err?
  {
    ResponseWithStatus(GetBarChart(store, month), 200)
  }

  /** `pie_chart()` called directly: the category counts paired with 200. */
  function PieChartView(store: Store, month: int): (r: ViewReturn<Pie>)
    ensures r.ResponseWithStatus? && r.status == 200
    ensures r.body == GetPieChart(store, month)
    ensures GetJson(r).Err?
  {
    ResponseWithStatus(GetPieChart(store, month), 200)
  }

  /** The combined endpoint as written: the first `.get_json()` that fails
      ends the request with its error, so no result is ever produced. */
  function CombinedAsWritten(store: Store, month: int): (r: Result<CombinedData>)
    ensures r.Err?
  {
    match GetJson(StatisticsView(store, month))
    case Err(e) => Err(e)
    case Ok(s) =>
      match GetJson(BarChartView(store, month))
      case Err(e) => Err(e)
      case Ok(b) =>
        match GetJson(PieChartView(store, month))
        case Err(e) => Err(e)
        case Ok(p) => Ok(CombinedData(s, b, p))
  }

  /** As written, the endpoint stops at the very first `.get_json()`, the
      one applied to the statistics pair, for every table and month. */
  lemma CombinedAsWrittenFails(store: Store, month: int)
    ensures CombinedAsWritten(store, month) == Err(AttributeError("tuple", "get_json"))
  {
  }
}
