/** The `/statistics` query: total sale amount, sold count and unsold count
    over one calendar month. */
module Statistics {
  import opened Seqs
  import opened Transactions

  /** The three numbers the query reports. */
  datatype Stats = Stats(totalSaleAmount: real, totalSoldItems: nat, totalNotSoldItems: nat)

  const NoStats := Stats(0.0, 0, 0)

  predicate IsSold(t: Transaction) { t.sold }

  predicate IsUnsold(t: Transaction) { !t.sold }

  /** The sum of all prices, in sequence order. */
  function PriceSum(txs: seq<Transaction>): real {
    if txs == [] then 0.0 else txs[0].price + PriceSum(txs[1..])
  }

  /** One pass that adds the price of every sold record and skips the rest:
      nothing when none is sold, every price when all are. */
  function SoldAmount(txs: seq<Transaction>): (r: real)
    ensures (forall i :: 0 <= i < |txs| ==> !txs[i].sold) ==> r == 0.0
    ensures (forall i :: 0 <= i < |txs| ==> txs[i].sold) ==> r == PriceSum(txs)
  {
    if txs == [] then 0.0
    else (if txs[0].sold then txs[0].price else 0.0) + SoldAmount(txs[1..])
  }

  /** The statistics of one month: the sold and unsold counts together
      account for every record of the month, and a month without records
      reports zeros. */
  function GetStatistics(store: Store, month: int): (r: Stats)
    ensures r.totalSoldItems + r.totalNotSoldItems == |MonthFilter(store, month)|
    ensures MonthFilter(store, month) == [] ==> r == NoStats
  {
    var txs := MonthFilter(store, month);
    FilterPartition(txs, IsSold, IsUnsold);
    Stats(SoldAmount(txs), |Filter(txs, IsSold)|, |Filter(txs, IsUnsold)|)
  }

  /** Field-wise sum of two results. */
  function Add(a: Stats, b: Stats): Stats {
    Stats(a.totalSaleAmount + b.totalSaleAmount,
          a.totalSoldItems + b.totalSoldItems,
          a.totalNotSoldItems + b.totalNotSoldItems)
  }

  lemma {:induction false} SoldAmountAppend(a: seq<Transaction>, b: seq<Transaction>)
    ensures SoldAmount(a + b) == SoldAmount(a) + SoldAmount(b)
  {
    if a == [] {
      assert a + b == b;
    } else {
      assert (a + b)[0] == a[0];
      assert (a + b)[1..] == a[1..] + b;
      SoldAmountAppend(a[1..], b);
    }
  }

  /** The sale amount is the sum of prices over exactly the sold records. */
  lemma {:induction false} SoldAmountIsSoldPriceSum(txs: seq<Transaction>)
    ensures SoldAmount(txs) == PriceSum(Filter(txs, IsSold))
  {
    if txs != [] {
      SoldAmountIsSoldPriceSum(txs[1..]);
      if txs[0].sold {
        assert Filter(txs, IsSold) == [txs[0]] + Filter(txs[1..], IsSold);
        assert ([txs[0]] + Filter(txs[1..], IsSold))[1..] == Filter(txs[1..], IsSold);
      } else {
        assert Filter(txs, IsSold) == Filter(txs[1..], IsSold);
      }
    }
  }

  /** `total_sale_amount` is the sum of `price` over the month's records
      whose `sold` flag is set, and nothing else. */
  lemma SaleAmountIsSoldSum(store: Store, month: int)
    ensures GetStatistics(store, month).totalSaleAmount
         == PriceSum(Filter(MonthFilter(store, month), IsSold))
    ensures GetStatistics(store, month).totalSoldItems
         == |Filter(MonthFilter(store, month), IsSold)|
  {
    SoldAmountIsSoldPriceSum(MonthFilter(store, month));
  }

  /** The query is a homomorphism from table concatenation to field-wise
      addition: it is the single pass the source performs. */
  lemma StatisticsAppend(a: Store, b: Store, month: int)
    ensures GetStatistics(a + b, month) == Add(GetStatistics(a, month), GetStatistics(b, month))
  {
    MonthFilterAppend(a, b, month);
    var fa, fb := MonthFilter(a, month), MonthFilter(b, month);
    SoldAmountAppend(fa, fb);
    FilterAppend(fa, fb, IsSold);
    FilterAppend(fa, fb, IsUnsold);
  }

  /** What a single record contributes: nothing outside the month, its price
      and one sold item when sold, one unsold item otherwise. */
  lemma StatisticsSingle(t: Transaction, month: int)
    ensures GetStatistics([t], month)
         == if !InMonth(t, month) then NoStats
            else if t.sold then Stats(t.price, 1, 0)
            else Stats(0.0, 0, 1)
  {
    assert [t][1..] == [];
    var txs := MonthFilter([t], month);
    assert txs == if InMonth(t, month) then [t] else [];
    if InMonth(t, month) {
      assert txs[1..] == [];
      assert Filter(txs, IsSold) == if t.sold then [t] else [];
      assert Filter(txs, IsUnsold) == if t.sold then [] else [t];
      assert SoldAmount(txs) == if t.sold then t.price else 0.0;
    }
  }

  /** An unsold record never changes the sale amount nor the sold count. */
  lemma UnsoldDoesNotContribute(store: Store, t: Transaction, month: int)
    requires !t.sold
    ensures GetStatistics(store + [t], month).totalSaleAmount
         == GetStatistics(store, month).totalSaleAmount
    ensures GetStatistics(store + [t], month).totalSoldItems
         == GetStatistics(store, month).totalSoldItems
  {
    StatisticsAppend(store, [t], month);
    StatisticsSingle(t, month);
  }

  lemma {:induction false} SoldAmountBounds(txs: seq<Transaction>)
    requires forall i :: 0 <= i < |txs| ==> txs[i].price >= 0.0
    ensures 0.0 <= SoldAmount(txs) <= PriceSum(txs)
  {
    if txs != [] {
      SoldAmountBounds(txs[1..]);
    }
  }

  /** With non-negative prices the sale amount lies between zero and the
      total price of the month's records. */
  lemma SaleAmountBounds(store: Store, month: int)
    requires forall i :: 0 <= i < |store| ==> store[i].price >= 0.0
    ensures 0.0 <= GetStatistics(store, month).totalSaleAmount
    ensures GetStatistics(store, month).totalSaleAmount <= PriceSum(MonthFilter(store, month))
  {
    var txs := MonthFilter(store, month);
    forall i | 0 <= i < |txs| ensures txs[i].price >= 0.0 {
      assert txs[i] in store;
    }
    SoldAmountBounds(txs);
  }
}
