/** The pure part of the analytics hooks: how `useAnalytics` feeds the engine
    and sums its results (src/hooks/index.ts and the older
    frog-budget/src/hooks/index.ts), and the percentage check of
    `useCategories`. The store's `profile` is an Option, the clock is the
    explicit `today`/`now`, and the rollover engine of the newer hook is an
    opaque input `rollover`. The newer hook calls a newer analytics engine that
    is not part of this model; the older engine of `Analytics` stands in for
    it, so its budgets, alerts and projections are the older engine's. */
module Hooks {
  import opened Common
  import opened Calendar
  import opened Records
  import opened Analytics

  /** `cb.rollover`, as the rollover engine reports it for a category. */
  datatype RolloverInfo = RolloverInfo(amount: real, effectiveBudget: real)

  /** What the newer `useAnalytics` returns. */
  datatype AnalyticsView = AnalyticsView(
    categoryBudgets: seq<CategoryBudget>,
    monthlySnapshots: seq<MonthlySnapshot>,
    dailySpending: seq<DailySpending>,
    alerts: seq<Alert>,
    projections: Projections,
    totalSpentThisMonth: real,
    totalBudgetedThisMonth: real,
    totalEffectiveBudgetThisMonth: real,
    totalRollover: real,
    totalWishlistCost: real)

  /** What the older `useAnalytics` returns. */
  datatype LegacyAnalyticsView = LegacyAnalyticsView(
    categoryBudgets: seq<CategoryBudget>,
    monthlySnapshots: seq<MonthlySnapshot>,
    dailySpending: seq<DailySpending>,
    alerts: seq<Alert>,
    projections: Projections,
    totalSpentThisMonth: real,
    totalBudgetedThisMonth: real)

  const ZeroProjections := Projections(0.0, 0.0, 0, 0.0)

  /** The number of months and days the hooks ask the engine for. */
  const SnapshotMonths := 12
  const DailyDays := 30

  function ItemAmount(item: WishlistItem): real
  {
    item.amount
  }

  function SpentThisMonthOf(cb: CategoryBudget): real
  {
    cb.spent.thisMonth
  }

  /** `wishlist.reduce((sum, item) => sum + item.amount, 0)`. */
  function TotalWishlistCost(wishlist: seq<WishlistItem>): real
  {
    Sum(wishlist, ItemAmount)
  }

  /** A wishlist item spread into a purchase dated today and stamped now. */
  function SimulatedPurchase(item: WishlistItem, today: Date, now: int): Purchase
  {
    Purchase(item.id, item.userId, item.categoryId, item.name, item.amount, today, item.notes, now, now)
  }

  /** `wishlist.map(...)`: one simulated purchase per item, in order. */
  function SimulatedPurchases(wishlist: seq<WishlistItem>, today: Date, now: int): (r: seq<Purchase>)
    ensures |r| == |wishlist|
    ensures forall i :: 0 <= i < |r| ==>
      && r[i].date == today && r[i].categoryId == wishlist[i].categoryId
      && r[i].amount == wishlist[i].amount && r[i].name == wishlist[i].name && r[i].id == wishlist[i].id
  {
    if wishlist == [] then [] else [SimulatedPurchase(wishlist[0], today, now)] + SimulatedPurchases(wishlist[1..], today, now)
  }

  /** `includeWishlist ? [...purchases, ...simulatedPurchases] : purchases`. */
  function CombinedPurchases(purchases: seq<Purchase>, wishlist: seq<WishlistItem>, includeWishlist: bool, today: Date, now: int): seq<Purchase>
  {
    if includeWishlist then purchases + SimulatedPurchases(wishlist, today, now) else purchases
  }

  /** The purchases the budgets, alerts and projection see: with the wishlist,
      the real purchases in order followed by one purchase per item dated
      today; without it, exactly the real purchases. */
  lemma CombinedPurchasesShape(purchases: seq<Purchase>, wishlist: seq<WishlistItem>, includeWishlist: bool, today: Date, now: int)
    ensures var r := CombinedPurchases(purchases, wishlist, includeWishlist, today, now);
      && (!includeWishlist ==> r == purchases)
      && (includeWishlist ==>
            && |r| == |purchases| + |wishlist|
            && r[..|purchases|] == purchases
            && (forall i :: |purchases| <= i < |r| ==>
                  r[i].date == today && r[i].categoryId == wishlist[i - |purchases|].categoryId
                  && r[i].amount == wishlist[i - |purchases|].amount))
  {
    if includeWishlist {
      var r := CombinedPurchases(purchases, wishlist, includeWishlist, today, now);
      var sim := SimulatedPurchases(wishlist, today, now);
      assert r == purchases + sim;
      assert forall i :: |purchases| <= i < |r| ==> r[i] == sim[i - |purchases|];
    }
  }

  function ItemInCategory(id: string): WishlistItem -> bool
  {
    (item: WishlistItem) => item.categoryId == id
  }

  /** The simulated purchases of a category cost what its wishlist items do. */
  lemma {:induction false} SimulatedSpend(wishlist: seq<WishlistItem>, id: string, today: Date, now: int)
    ensures Sum(Filter(SimulatedPurchases(wishlist, today, now), InCategory(id)), AmountOf)
         == Sum(Filter(wishlist, ItemInCategory(id)), ItemAmount)
  {
    if wishlist != [] {
      var rest := SimulatedPurchases(wishlist[1..], today, now);
      SimulatedSpend(wishlist[1..], id, today, now);
      var sim := SimulatedPurchases(wishlist, today, now);
      assert sim == [SimulatedPurchase(wishlist[0], today, now)] + rest;
      assert sim[1..] == rest;
      if wishlist[0].categoryId == id {
        assert Filter(sim, InCategory(id)) == [sim[0]] + Filter(rest, InCategory(id));
        assert Filter(wishlist, ItemInCategory(id)) == [wishlist[0]] + Filter(wishlist[1..], ItemInCategory(id));
      } else {
        assert Filter(sim, InCategory(id)) == Filter(rest, InCategory(id));
        assert Filter(wishlist, ItemInCategory(id)) == Filter(wishlist[1..], ItemInCategory(id));
      }
    }
  }

  /** Every simulated purchase falls in today's month. */
  lemma {:induction false} SimulatedInMonth(wishlist: seq<WishlistItem>, today: Date, now: int)
    requires Valid(today)
    ensures forall p :: p in SimulatedPurchases(wishlist, today, now) ==> InMonthOf(today.year, today.month)(p)
  {
  }

  /** Including the wishlist raises a category's spend this month by exactly
      the cost of its wishlist items. */
  lemma WishlistAddsToMonth(c: Category, purchases: seq<Purchase>, wishlist: seq<WishlistItem>, profile: Profile, today: Date, now: int)
    requires Valid(today)
    ensures CategoryBudgetOf(c, CombinedPurchases(purchases, wishlist, true, today, now), profile, today).spent.thisMonth
         == CategoryBudgetOf(c, purchases, profile, today).spent.thisMonth + Sum(Filter(wishlist, ItemInCategory(c.id)), ItemAmount)
  {
    var sim := SimulatedPurchases(wishlist, today, now);
    var month := InMonthOf(today.year, today.month);
    FilterAppend(purchases, sim, InCategory(c.id));
    var ownSim := Filter(sim, InCategory(c.id));
    FilterAppend(Filter(purchases, InCategory(c.id)), ownSim, month);
    SimulatedInMonth(wishlist, today, now);
    FilterAll(ownSim, month);
    SumAppend(Filter(Filter(purchases, InCategory(c.id)), month), ownSim, AmountOf);
    SimulatedSpend(wishlist, c.id, today, now);
  }

  /** The newer `useAnalytics`, with the older engine standing in for the
      newer one it calls. */
  function UseAnalytics(profile: Option<Profile>, categories: seq<Category>, purchases: seq<Purchase>, wishlist: seq<WishlistItem>,
                        includeWishlist: bool, rollover: Category -> RolloverInfo, today: Date, now: int): AnalyticsView
    requires Valid(today)
  {
    var wishlistCost := TotalWishlistCost(wishlist);
    if profile.None? || |categories| == 0 then
      AnalyticsView([], [], [], [], ZeroProjections, 0.0, 0.0, 0.0, 0.0, wishlistCost)
    else
      var combined := CombinedPurchases(purchases, wishlist, includeWishlist, today, now);
      var cbs := CalculateCategoryBudgets(categories, combined, profile.value, today);
      AnalyticsView(
        cbs,
        MonthlySnapshots(purchases, categories, profile.value, today, SnapshotMonths),
        DailySeries(purchases, today, DailyDays),
        Alerts(cbs, combined, today, now),
        ProjectionsOf(cbs, combined, today),
        Sum(cbs, SpentThisMonthOf),
        Sum(cbs, MonthlyBudgetOf),
        Sum(cbs, (cb: CategoryBudget) => rollover(cb.category).effectiveBudget),
        Sum(cbs, (cb: CategoryBudget) => rollover(cb.category).amount),
        wishlistCost)
  }

  /** The older `useAnalytics`: no wishlist, no rollover. */
  function UseAnalyticsLegacy(profile: Option<Profile>, categories: seq<Category>, purchases: seq<Purchase>, today: Date, now: int): LegacyAnalyticsView
    requires Valid(today)
  {
    if profile.None? || |categories| == 0 then
      LegacyAnalyticsView([], [], [], [], ZeroProjections, 0.0, 0.0)
    else
      var cbs := CalculateCategoryBudgets(categories, purchases, profile.value, today);
      LegacyAnalyticsView(
        cbs,
        MonthlySnapshots(purchases, categories, profile.value, today, SnapshotMonths),
        DailySeries(purchases, today, DailyDays),
        Alerts(cbs, purchases, today, now),
        ProjectionsOf(cbs, purchases, today),
        Sum(cbs, SpentThisMonthOf),
        Sum(cbs, MonthlyBudgetOf))
  }

  /** Without a profile or without categories everything is empty or zero,
      except the wishlist cost, which is always the real one. */
  lemma ShortCircuit(profile: Option<Profile>, categories: seq<Category>, purchases: seq<Purchase>, wishlist: seq<WishlistItem>,
                     includeWishlist: bool, rollover: Category -> RolloverInfo, today: Date, now: int)
    requires Valid(today)
    requires profile.None? || categories == []
    ensures var v := UseAnalytics(profile, categories, purchases, wishlist, includeWishlist, rollover, today, now);
      && v.categoryBudgets == [] && v.monthlySnapshots == [] && v.dailySpending == [] && v.alerts == []
      && v.projections == Projections(0.0, 0.0, 0, 0.0)
      && v.totalSpentThisMonth == 0.0 && v.totalBudgetedThisMonth == 0.0
      && v.totalEffectiveBudgetThisMonth == 0.0 && v.totalRollover == 0.0
      && v.totalWishlistCost == Sum(wishlist, ItemAmount)
  {
  }

  /** The older hook short-circuits to all zeros in the same situation. */
  lemma LegacyShortCircuit(profile: Option<Profile>, categories: seq<Category>, purchases: seq<Purchase>, today: Date, now: int)
    requires Valid(today)
    requires profile.None? || categories == []
    ensures UseAnalyticsLegacy(profile, categories, purchases, today, now)
         == LegacyAnalyticsView([], [], [], [], Projections(0.0, 0.0, 0, 0.0), 0.0, 0.0)
  {
  }

  /** The history charts always come from the real purchases alone: neither
      the wishlist nor the flag nor the rollover engine changes them. */
  lemma SeriesIgnoreWishlist(profile: Option<Profile>, categories: seq<Category>, purchases: seq<Purchase>,
                             w1: seq<WishlistItem>, i1: bool, r1: Category -> RolloverInfo,
                             w2: seq<WishlistItem>, i2: bool, r2: Category -> RolloverInfo, today: Date, now: int)
    requires Valid(today)
    ensures var a := UseAnalytics(profile, categories, purchases, w1, i1, r1, today, now);
      var b := UseAnalytics(profile, categories, purchases, w2, i2, r2, today, now);
      a.monthlySnapshots == b.monthlySnapshots && a.dailySpending == b.dailySpending
  {
  }

  /** `categories.reduce((sum, c) => sum + c.percentage, 0)`. */
  function TotalPercentage(categories: seq<Category>): real
  {
    Sum(categories, PercentageOf)
  }

  /** `Math.abs(totalPercentage - 100) < 0.01`, the same in both hooks. */
  predicate IsValidPercentage(categories: seq<Category>)
  {
    var t := TotalPercentage(categories);
    -0.01 < t - 100.0 < 0.01
  }

  /** With valid percentages, budgets that are each their category's share
      of the income (as `BudgetFigures` shows of `CalculateCategoryBudgets`)
      add up to the monthly income, up to a hundredth of a percent of it. */
  lemma {:induction false} ValidPercentageBudgetsIncome(cbs: seq<CategoryBudget>, categories: seq<Category>, income: real)
    requires IsValidPercentage(categories) && income >= 0.0
    requires |cbs| == |categories|
    requires forall i :: 0 <= i < |cbs| ==> cbs[i].budgeted.monthly == income * categories[i].percentage / 100.0
    ensures income - income * 0.0001 <= Sum(cbs, MonthlyBudgetOf) <= income + income * 0.0001
  {
    SumOfShares(cbs, categories, income);
    var t := TotalPercentage(categories);
    assert income * t / 100.0 - income == income * (t - 100.0) / 100.0;
    assert -0.01 * income <= income * (t - 100.0) <= 0.01 * income;
  }

  /** The percentages of the default categories that new accounts receive. */
  const DefaultPercentages: seq<real> := [51.0, 13.0, 10.0, 8.0, 6.0, 5.0, 3.0, 1.0]

  /** The default categories add up to 97%, which `isValidPercentage` rejects. */
  lemma DefaultPercentagesInvalid(categories: seq<Category>)
    requires |categories| == |DefaultPercentages|
    requires forall i :: 0 <= i < |categories| ==> categories[i].percentage == DefaultPercentages[i]
    ensures TotalPercentage(categories) == 97.0
    ensures !IsValidPercentage(categories)
  {
    var c := categories;
    assert Sum(c[8..], PercentageOf) == 0.0;
    assert Sum(c[7..], PercentageOf) == 1.0;
    assert Sum(c[6..], PercentageOf) == 4.0;
    assert Sum(c[5..], PercentageOf) == 9.0;
    assert Sum(c[4..], PercentageOf) == 15.0;
    assert Sum(c[3..], PercentageOf) == 23.0;
    assert Sum(c[2..], PercentageOf) == 33.0;
    assert Sum(c[1..], PercentageOf) == 46.0;
    assert c[0..] == c;
  }
}
