/** The `/transactions` query: an optional search over title, description
    and price, followed by 1-based pagination. */
module Listing {
  import opened Seqs
  import opened Transactions

  const DefaultPage := 1
  const DefaultPerPage := 10

  /** ASCII upper case to lower case; every other character unchanged. */
  function LowerChar(ch: char): char {
    if 'A' <= ch <= 'Z' then (ch as int - 'A' as int + 'a' as int) as char else ch
  }

  function Lower(s: string): (r: string)
    ensures |r| == |s|
    ensures forall i :: 0 <= i < |s| ==> r[i] == LowerChar(s[i])
  {
    if s == [] then [] else [LowerChar(s[0])] + Lower(s[1..])
  }

  /** `needle` occurs in `hay` starting at position `i`. */
  predicate OccursAt(hay: string, needle: string, i: int) {
    0 <= i <= |hay| - |needle| && hay[i..i + |needle|] == needle
  }

  /** `needle` occurs as a contiguous part of `hay`. */
  predicate Contains(hay: string, needle: string) {
    exists i | 0 <= i <= |hay| - |needle| :: OccursAt(hay, needle, i)
  }

  /** `text LIKE '%term%'`: a substring test that ignores ASCII case. The
      empty term is found in every text, and a term is never found in a
      shorter text. */
  predicate Like(text: string, term: string)
    ensures term == [] ==> Like(text, term)
    ensures Like(text, term) ==> |term| <= |text|
  {
    assert term == [] ==> OccursAt(Lower(text), Lower(term), 0);
    Contains(Lower(text), Lower(term))
  }

  /** Only the ASCII-lowered forms matter: texts and terms that agree once
      lowered are matched alike. */
  lemma LikeIgnoresCase(text: string, text': string, term: string, term': string)
    requires Lower(text) == Lower(text') && Lower(term) == Lower(term')
    ensures Like(text, term) <==> Like(text', term')
  {
  }

  predicate IsDigit(ch: char) {
    '0' <= ch <= '9'
  }

  /** `str.isdigit()`: non-empty and made of decimal digits only. */
  predicate IsDigits(s: string) {
    |s| > 0 && forall i :: 0 <= i < |s| ==> IsDigit(s[i])
  }

  /** `float(term)` on a string of decimal digits: its value, where a
      leading zero adds nothing ("007" reads as 7). */
  function DigitsValue(s: string): (v: nat)
    requires forall i :: 0 <= i < |s| ==> IsDigit(s[i])
    ensures |s| > 0 && s[0] == '0' ==> v == DigitsValue(s[1..])
  {
    if s == [] then 0
    else
      var front, last := s[..|s| - 1], s[|s| - 1];
      assert IsDigit(last);
      assert |s| > 1 ==> s[1..][..|s| - 2] == front[1..] && front[0] == s[0];
      10 * DigitsValue(front) + (last as int - '0' as int)
  }

  /** The decimal spelling of `n`, without leading zeros; it reads back as
      `n`. */
  function Decimal(n: nat): (s: string)
    ensures IsDigits(s)
    ensures DigitsValue(s) == n
    decreases n
  {
    var last := ('0' as int + n % 10) as char;
    if n < 10 then [last]
    else
      var s := Decimal(n / 10) + [last];
      assert s[..|s| - 1] == Decimal(n / 10);
      s
  }

  /** The search predicate of one record: the term occurs in the title, or
      in the description, or the term is all digits and equals the price. */
  predicate Matches(t: Transaction, search: string)
    ensures search == [] ==> Matches(t, search)
    ensures Matches(t, search) && !IsDigits(search) ==>
      |search| <= |t.title| || |search| <= |t.description|
  {
    || Like(t.title, search)
    || Like(t.description, search)
    || (IsDigits(search) && t.price == DigitsValue(search) as real)
  }

  /** The records the listing pages through: all of them for an empty
      search, otherwise exactly those matching it, in table order. */
  function SearchFilter(store: Store, search: string): (r: Store)
    ensures search == [] ==> r == store
    ensures search != [] ==> forall t :: t in r <==> t in store && Matches(t, search)
    ensures multiset(r) <= multiset(store)
  {
    if search == [] then store else Filter(store, t => Matches(t, search))
  }

  /** SQL `OFFSET k`: drop the first `k` rows; nothing is left when there
      are no more than `k`. */
  function Offset<T>(s: seq<T>, k: nat): (r: seq<T>)
    ensures |r| == if k >= |s| then 0 else |s| - k
    ensures k < |s| ==> s == s[..k] + r
  {
    if k >= |s| then [] else s[k..]
  }

  /** SQL `LIMIT n`: keep the first `n` rows, or all rows when there are
      fewer. */
  function Limit<T>(s: seq<T>, n: nat): (r: seq<T>)
    ensures |r| == Min(n, |s|)
    ensures r <= s
  {
    if n >= |s| then s else s[..n]
  }

  function Min(a: int, b: int): int {
    if a <= b then a else b
  }

  /** OFFSET then LIMIT cuts out one contiguous slice. */
  lemma OffsetLimitSlice<T>(s: seq<T>, k: nat, n: nat)
    ensures k >= |s| ==> Limit(Offset(s, k), n) == []
    ensures k < |s| ==> Limit(Offset(s, k), n) == s[k..Min(k + n, |s|)]
  {
    if k < |s| {
      assert Offset(s, k) == s[k..];
    }
  }

  /** Page `page` of size `perPage`: rows `(page-1)*perPage` up to, but not
      including, `page*perPage`, cut at the end of `s`; empty exactly when
      the page starts past the end. */
  function Paginate<T>(s: seq<T>, page: int, perPage: int): (r: seq<T>)
    requires page >= 1 && perPage >= 1
    ensures |r| <= perPage
    ensures r == [] <==> (page - 1) * perPage >= |s|
    ensures (page - 1) * perPage < |s| ==> r == s[(page - 1) * perPage .. Min(page * perPage, |s|)]
    ensures forall x :: x in r ==> x in s
  {
    var lo: nat := (page - 1) * perPage;
    assert page * perPage == lo + perPage;
    OffsetLimitSlice(s, lo, perPage);
    var r := Limit(Offset(s, lo), perPage);
    assert lo < |s| ==> forall x :: x in r ==> x in s[lo..];
    r
  }

  /** The listing: one page of the records matching the search, in table
      order. Every returned record is in the table and passes the search. */
  function ListTransactions(store: Store, search: string, page: int, perPage: int): (r: Store)
    requires page >= 1 && perPage >= 1
    ensures |r| <= perPage
    ensures forall t :: t in r ==> t in store && (search == [] || Matches(t, search))
    ensures r == [] <==> (page - 1) * perPage >= |SearchFilter(store, search)|
  {
    Paginate(SearchFilter(store, search), page, perPage)
  }

  /** The listing is the exact slice of the matches that the page covers,
      in table order. */
  lemma ListingIsSlice(store: Store, search: string, page: int, perPage: int)
    requires page >= 1 && perPage >= 1
    requires (page - 1) * perPage < |SearchFilter(store, search)|
    ensures ListTransactions(store, search, page, perPage)
         == SearchFilter(store, search)[(page - 1) * perPage .. Min(page * perPage, |SearchFilter(store, search)|)]
  {
  }

  /** The request without `page` and `per_page`: the first ten matches. */
  function ListDefault(store: Store, search: string): (r: Store)
    ensures r == SearchFilter(store, search)[..Min(DefaultPerPage, |SearchFilter(store, search)|)]
  {
    ListTransactions(store, search, DefaultPage, DefaultPerPage)
  }

  /** Record `i` of the matches appears on page `i / perPage + 1`, at
      position `i % perPage`: no match is skipped by pagination. */
  lemma PageOfIndex<T>(s: seq<T>, perPage: int, i: int)
    requires perPage >= 1 && 0 <= i < |s|
    ensures i % perPage < |Paginate(s, i / perPage + 1, perPage)|
    ensures Paginate(s, i / perPage + 1, perPage)[i % perPage] == s[i]
  {
    var page := i / perPage + 1;
    assert (page - 1) * perPage == i - i % perPage;
    assert page * perPage == i - i % perPage + perPage;
  }

  /** Page `page`, as a slice cut at the end of `s`. */
  lemma PageIsSlice<T>(s: seq<T>, page: int, perPage: int, start: nat)
    requires page >= 1 && perPage >= 1 && start == (page - 1) * perPage
    ensures Paginate(s, page, perPage) == s[Min(start, |s|)..Min(start + perPage, |s|)]
  {
    assert page * perPage == start + perPage;
  }

  /** The pages in order. */
  function Pages<T>(s: seq<T>, perPage: int, k: nat): seq<T>
    requires perPage >= 1
  {
    if k == 0 then [] else Pages(s, perPage, k - 1) + Paginate(s, k, perPage)
  }

  /** Reading pages 1..k in order gives back the first `k*perPage` rows:
      pages never overlap and never leave a gap. */
  lemma {:induction false} PagesArePrefix<T>(s: seq<T>, perPage: int, k: nat)
    requires perPage >= 1
    ensures Pages(s, perPage, k) == s[..Min(k * perPage, |s|)]
  {
    if k > 0 {
      PagesArePrefix(s, perPage, k - 1);
      var start: nat := (k - 1) * perPage;
      assert k * perPage == start + perPage;
      var lo, hi := Min(start, |s|), Min(start + perPage, |s|);
      assert Pages(s, perPage, k) == s[..lo] + Paginate(s, k, perPage);
      PageIsSlice(s, k, perPage, start);
      assert s[..hi] == s[..lo] + s[lo..hi];
    }
  }

  /** A term found inside a text, whatever surrounds it and whatever the
      ASCII case of either, is reported by `Like`. */
  lemma LikeFindsInfix(pre: string, term: string, post: string)
    ensures Like(pre + term + post, term)
    ensures Like(Lower(pre + term + post), term)
    ensures Like(pre + term + post, Lower(term))
  {
    var text := pre + term + post;
    var low := Lower(text);
    assert low[|pre|..|pre| + |term|] == Lower(term) by {
      forall k | 0 <= k < |term| ensures low[|pre| + k] == Lower(term)[k] {
        assert text[|pre| + k] == term[k];
      }
    }
    assert OccursAt(low, Lower(term), |pre|);
    LowerIdempotent(text);
    LowerIdempotent(term);
  }

  lemma LowerIdempotent(s: string)
    ensures Lower(Lower(s)) == Lower(s)
  {
  }

  /** An all-digit term that spells a record's price finds that record. */
  lemma NumericSearchFindsPrice(t: Transaction, n: nat)
    requires t.price == n as real
    ensures Matches(t, Decimal(n))
  {
  }

  /** A term that is not all digits never looks at the price. */
  lemma TextSearchIgnoresPrice(t: Transaction, search: string)
    requires !IsDigits(search)
    ensures Matches(t, search) <==> Like(t.title, search) || Like(t.description, search)
  {
  }
}
