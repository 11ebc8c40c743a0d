/** The one entity of the service, a sale transaction, and the month
    selection that every monthly query starts from. */
module Transactions {
  import opened Seqs

  /** A calendar month number. */
  type Month = m: int | 1 <= m <= 12 witness 1

  /** The sale date as an already parsed `YYYY-MM-DD` triple; the time of
      day is never looked at by any query. */
  datatype Date = Date(year: int, month: Month, day: int)

  /** One row of the transaction table. */
  datatype Transaction = Transaction(
    id: int,
    title: string,
    description: string,
    price: real,
    sold: bool,
    category: string,
    dateOfSale: Date)

  /** The table, in insertion order. */
  type Store = seq<Transaction>

  /** `extract('month', dateOfSale) == month`: the year and the day play
      no part. */
  predicate InMonth(t: Transaction, month: int) {
    t.dateOfSale.month == month
  }

  /** The records sold in calendar month `month` of any year. A month
      number outside 1..12 is accepted and selects nothing. */
  function MonthFilter(store: Store, month: int): (r: Store)
    ensures forall t :: t in r <==> t in store && t.dateOfSale.month == month
    ensures !(1 <= month <= 12) ==> r == []
  {
    var r := Filter(store, t => InMonth(t, month));
    assert r != [] ==> r[0] in r;
    r
  }

  /** The month selection over a concatenated table is the concatenation of
      the selections: a record's membership depends on that record alone. */
  lemma MonthFilterAppend(a: Store, b: Store, month: int)
    ensures MonthFilter(a + b, month) == MonthFilter(a, month) + MonthFilter(b, month)
  {
    FilterAppend(a, b, t => InMonth(t, month));
  }

  /** Every record moved into year `year`, nothing else changed. */
  function WithYear(store: Store, year: int): (r: Store)
    ensures |r| == |store|
    ensures forall i :: 0 <= i < |store| ==>
      r[i] == store[i].(dateOfSale := store[i].dateOfSale.(year := year))
  {
    if store == [] then []
    else [store[0].(dateOfSale := store[0].dateOfSale.(year := year))] + WithYear(store[1..], year)
  }

  /** The year is ignored: re-dating every record into any single year
      selects the same records, in the same order, as before. */
  lemma {:induction false} MonthFilterIgnoresYear(store: Store, month: int, year: int)
    ensures MonthFilter(WithYear(store, year), month) == WithYear(MonthFilter(store, month), year)
  {
    if store != [] {
      var head := store[0].(dateOfSale := store[0].dateOfSale.(year := year));
      assert WithYear(store, year) == [head] + WithYear(store[1..], year);
      assert store == [store[0]] + store[1..];
      MonthFilterAppend([head], WithYear(store[1..], year), month);
      MonthFilterAppend([store[0]], store[1..], month);
      MonthFilterIgnoresYear(store[1..], month, year);
      WithYearAppend(MonthFilter([store[0]], month), MonthFilter(store[1..], month), year);
    }
  }

  lemma WithYearAppend(a: Store, b: Store, year: int)
    ensures WithYear(a + b, year) == WithYear(a, year) + WithYear(b, year)
  {
  }
}
