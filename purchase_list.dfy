/** The purchase list of the newer client (src/App.tsx, `PurchasesTab`):
    the stored purchases narrowed by a search term and the category filter,
    then sorted by the chosen key. */
module PurchaseList {
  import opened Common
  import opened Text
  import opened Calendar
  import opened Records

  /** The sort menu: by day, by time added or by amount, newest or largest
      first (`Desc`) or the other way round. */
  datatype SortChoice = DateDesc | DateAsc | AddedDesc | AddedAsc | AmountDesc | AmountAsc

  /** Is the purchase kept? A non-empty search term must occur in the
      lower-cased name, ignoring case; a non-empty category filter must be
      the purchase's category. */
  predicate Matches(p: Purchase, searchTerm: string, categoryFilter: Option<string>)
  {
    (searchTerm == "" || Contains(ToLower(p.name), ToLower(searchTerm)))
    && (categoryFilter.None? || categoryFilter.value == "" || p.categoryId == categoryFilter.value)
  }

  function MatchTest(searchTerm: string, categoryFilter: Option<string>): Purchase -> bool
  {
    (p: Purchase) => Matches(p, searchTerm, categoryFilter)
  }

  /** The day of a purchase on the time line; a date that is not a real day
      stands at day 0. */
  function DayKey(p: Purchase): real
  {
    if Valid(p.date) then DayNumber(p.date) as real else 0.0
  }

  function AddedKey(p: Purchase): real
  {
    p.createdAt as real
  }

  function AmountKey(p: Purchase): real
  {
    p.amount
  }

  /** The key a choice compares. */
  function KeyOf(choice: SortChoice): Purchase -> real
  {
    match choice
    case DateDesc => DayKey
    case DateAsc => DayKey
    case AddedDesc => AddedKey
    case AddedAsc => AddedKey
    case AmountDesc => AmountKey
    case AmountAsc => AmountKey
  }

  predicate Descending(choice: SortChoice)
  {
    choice == DateDesc || choice == AddedDesc || choice == AmountDesc
  }

  /** `filteredPurchases`: the matching purchases, each as often as it is
      stored, ordered by the chosen key. */
  function Listed(purchases: seq<Purchase>, searchTerm: string, categoryFilter: Option<string>,
                  choice: SortChoice): (r: seq<Purchase>)
    ensures multiset(r) == multiset(Filter(purchases, MatchTest(searchTerm, categoryFilter)))
    ensures Ordered(r, KeyOf(choice), Descending(choice))
  {
    SortByKey(Filter(purchases, MatchTest(searchTerm, categoryFilter)), KeyOf(choice), Descending(choice))
  }

  /** A purchase is listed exactly when it is stored and matches. */
  lemma ListedExactly(purchases: seq<Purchase>, searchTerm: string, categoryFilter: Option<string>,
                      choice: SortChoice, p: Purchase)
    ensures p in Listed(purchases, searchTerm, categoryFilter, choice)
      <==> p in purchases && Matches(p, searchTerm, categoryFilter)
  {
    var kept := Filter(purchases, MatchTest(searchTerm, categoryFilter));
    var r := Listed(purchases, searchTerm, categoryFilter, choice);
    assert p in r <==> p in multiset(r);
    assert p in kept <==> p in multiset(kept);
  }

  /** Without a search term or a category filter every stored purchase is
      listed, as often as it is stored. */
  lemma ListedAll(purchases: seq<Purchase>, categoryFilter: Option<string>, choice: SortChoice)
    requires categoryFilter.None? || categoryFilter == Some("")
    ensures multiset(Listed(purchases, "", categoryFilter, choice)) == multiset(purchases)
  {
    FilterAll(purchases, MatchTest("", categoryFilter));
  }

  /** Lower-casing twice is lower-casing once. */
  lemma ToLowerIdempotent(s: string)
    ensures ToLower(ToLower(s)) == ToLower(s)
  {
    var l := ToLower(s);
    forall i | 0 <= i < |s|
      ensures ToLower(l)[i] == l[i]
    {
      assert LowerChar(LowerChar(s[i])) == LowerChar(s[i]);
    }
  }

  /** The case of the search term does not matter. */
  lemma SearchIgnoresCase(p: Purchase, searchTerm: string, categoryFilter: Option<string>)
    ensures Matches(p, ToLower(searchTerm), categoryFilter) == Matches(p, searchTerm, categoryFilter)
  {
    ToLowerIdempotent(searchTerm);
    assert (ToLower(searchTerm) == "") == (searchTerm == "");
  }

  /** Newest first lists the later day of two listed purchases first. */
  lemma NewestFirst(purchases: seq<Purchase>, searchTerm: string, categoryFilter: Option<string>, i: int, j: int)
    requires var r := Listed(purchases, searchTerm, categoryFilter, DateDesc);
      0 <= i < j < |r| && Valid(r[i].date) && Valid(r[j].date)
    ensures var r := Listed(purchases, searchTerm, categoryFilter, DateDesc);
      DayNumber(r[i].date) >= DayNumber(r[j].date)
  {
    var r := Listed(purchases, searchTerm, categoryFilter, DateDesc);
    assert Before(r[i], r[j], DayKey, true);
  }
}
