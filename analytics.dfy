/** The budget analytics engine (frog-budget/src/services/analytics.ts): from
    categories, purchases, a profile and the current day it derives per-category
    budgets, month and day series for charts, threshold alerts and a linear
    month-end projection. "Now" is the explicit `today` (a calendar day) and
    `now` (a timestamp). */
module Analytics {
  import opened Common
  import opened Calendar
  import opened Records

  // ---------------------------------------------------------------------
  // Income and the purchase windows

  /** `getMonthlyIncome`: the per-paycheck income scaled to a month by the
      fixed multipliers. */
  function MonthlyIncome(profile: Profile): (r: real)
    ensures profile.incomeFrequency == Weekly ==> r == profile.incomeAmount * 4.33
    ensures profile.incomeFrequency == Monthly ==> r == profile.incomeAmount
    ensures profile.incomeFrequency != Weekly && profile.incomeFrequency != Monthly ==>
      r == profile.incomeAmount * 2.17
  {
    match profile.incomeFrequency
    case Weekly => profile.incomeAmount * 4.33
    case Biweekly => profile.incomeAmount * 2.17
    case Monthly => profile.incomeAmount
    case Other(_) => profile.incomeAmount * 2.17
  }

  /** A non-negative income is never scaled down, and at most by 4.33. */
  lemma MonthlyIncomeBounds(profile: Profile)
    requires profile.incomeAmount >= 0.0
    ensures profile.incomeAmount <= MonthlyIncome(profile) <= profile.incomeAmount * 4.33
  {
  }

  function InCategory(id: string): Purchase -> bool
  {
    (p: Purchase) => p.categoryId == id
  }

  /** `isSameDay(new Date(p.date), today)`. */
  function OnDay(d: Date): Purchase -> bool
  {
    (p: Purchase) => p.date == d
  }

  /** `new Date(p.date) >= getWeekStart(today)`: on or after the Sunday that
      starts this week (an invalid date compares false). */
  function InWeekOf(today: Date): Purchase -> bool
  {
    (p: Purchase) => Valid(today) && Valid(p.date) && DayNumber(p.date) >= DayNumber(today) - Weekday(today)
  }

  /** Inside the calendar month `month` of `year`, both ends included. */
  function InMonthOf(year: int, month: int): Purchase -> bool
  {
    (p: Purchase) => Valid(p.date) && p.date.year == year && p.date.month == month
  }

  /** `new Date(p.date) >= getYearStart(today)`: on or after January 1. */
  function InYearFrom(year: int): Purchase -> bool
  {
    (p: Purchase) => Valid(p.date) && p.date.year >= year
  }

  // ---------------------------------------------------------------------
  // calculateCategoryBudgets

  /** The four tiers with strict lower bounds 100, 80 and 60. */
  function StatusOf(percentUsed: real): (s: Status)
    ensures s == Overspent <==> percentUsed > 100.0
    ensures s == Danger <==> 80.0 < percentUsed <= 100.0
    ensures s == Warning <==> 60.0 < percentUsed <= 80.0
    ensures s == Ok <==> percentUsed <= 60.0
  {
    if percentUsed > 100.0 then Overspent
    else if percentUsed > 80.0 then Danger
    else if percentUsed > 60.0 then Warning
    else Ok
  }

  /** `budget > 0 ? (spent / budget) * 100 : 0`. */
  function PercentUsed(spent: real, budget: real): real
  {
    if budget > 0.0 then spent / budget * 100.0 else 0.0
  }

  /** The budgets derived from a monthly income and a category's share. */
  function BudgetedFor(monthlyIncome: real, percentage: real): Budgeted
  {
    var monthly := monthlyIncome * percentage / 100.0;
    Budgeted(monthly / 30.0, monthly / 4.33, monthly / 2.17, monthly, monthlyIncome * 12.0 * percentage / 100.0)
  }

  /** The spend of a category's purchases `own` over the five windows. */
  function SpentOf(own: seq<Purchase>, today: Date): Spent
  {
    Spent(
      Sum(Filter(own, OnDay(today)), AmountOf),
      Sum(Filter(own, InWeekOf(today)), AmountOf),
      Sum(Filter(own, InMonthOf(today.year, today.month)), AmountOf),
      Sum(Filter(own, InYearFrom(today.year)), AmountOf),
      Sum(own, AmountOf))
  }

  /** Remainders, percentages and status from the budgets and the spend. */
  function BudgetOf(c: Category, budgeted: Budgeted, spent: Spent): CategoryBudget
  {
    var monthlyPercent := PercentUsed(spent.thisMonth, budgeted.monthly);
    CategoryBudget(
      c,
      budgeted,
      spent,
      PerPeriod(budgeted.monthly - spent.thisMonth, budgeted.yearly - spent.thisYear),
      PerPeriod(monthlyPercent, PercentUsed(spent.thisYear, budgeted.yearly)),
      StatusOf(monthlyPercent))
  }

  /** The CategoryBudget that `calculateCategoryBudgets` builds for one category. */
  function CategoryBudgetOf(c: Category, purchases: seq<Purchase>, profile: Profile, today: Date): CategoryBudget
  {
    BudgetOf(c, BudgetedFor(MonthlyIncome(profile), c.percentage), SpentOf(Filter(purchases, InCategory(c.id)), today))
  }

  /** `calculateCategoryBudgets`: one CategoryBudget per category, in order. */
  function CalculateCategoryBudgets(categories: seq<Category>, purchases: seq<Purchase>, profile: Profile, today: Date): (r: seq<CategoryBudget>)
    ensures |r| == |categories|
    ensures forall i :: 0 <= i < |r| ==>
      r[i].category == categories[i] && r[i] == CategoryBudgetOf(categories[i], purchases, profile, today)
  {
    seq(|categories|, i requires 0 <= i < |categories| => CategoryBudgetOf(categories[i], purchases, profile, today))
  }

  /** Every budget figure follows from the monthly income and the category's
      share, with the fixed divisors, and the remainders are budget minus spend. */
  lemma BudgetFigures(c: Category, purchases: seq<Purchase>, profile: Profile, today: Date)
    ensures var b := CategoryBudgetOf(c, purchases, profile, today);
      && b.budgeted.monthly == MonthlyIncome(profile) * c.percentage / 100.0
      && b.budgeted.yearly == 12.0 * b.budgeted.monthly
      && b.budgeted.daily == b.budgeted.monthly / 30.0
      && b.budgeted.weekly == b.budgeted.monthly / 4.33
      && b.budgeted.biweekly == b.budgeted.monthly / 2.17
      && b.remaining.monthly == b.budgeted.monthly - b.spent.thisMonth
      && b.remaining.yearly == b.budgeted.yearly - b.spent.thisYear
  {
    var m := MonthlyIncome(profile);
    assert m * 12.0 * c.percentage / 100.0 == 12.0 * (m * c.percentage / 100.0);
  }

  /** A category without a positive budget reads 0% used and is always `ok`. */
  lemma ZeroBudgetIsOk(c: Category, purchases: seq<Purchase>, profile: Profile, today: Date)
    requires CategoryBudgetOf(c, purchases, profile, today).budgeted.monthly <= 0.0
    ensures CategoryBudgetOf(c, purchases, profile, today).percentUsed.monthly == 0.0
    ensures CategoryBudgetOf(c, purchases, profile, today).status == Ok
  {
  }

  /** Against a positive budget, the percentage used exceeds `t` exactly when
      the spend exceeds `t` percent of the budget. */
  lemma PercentAbove(spent: real, budget: real, t: real)
    requires budget > 0.0
    ensures PercentUsed(spent, budget) > t <==> spent > t / 100.0 * budget
  {
    var q := spent / budget;
    assert spent == q * budget;
    assert q * 100.0 > t <==> q > t / 100.0;
    if q > t / 100.0 {
      assert (q - t / 100.0) * budget > 0.0;
    } else {
      assert (t / 100.0 - q) * budget >= 0.0;
    }
  }

  /** With a positive budget, a category is overspent exactly when its month's
      spend exceeds the budget, and in danger exactly when the spend is above
      80% of the budget but not above the budget. */
  lemma StatusIffSpend(c: Category, purchases: seq<Purchase>, profile: Profile, today: Date)
    requires CategoryBudgetOf(c, purchases, profile, today).budgeted.monthly > 0.0
    ensures var b := CategoryBudgetOf(c, purchases, profile, today);
      && (b.status == Overspent <==> b.spent.thisMonth > b.budgeted.monthly)
      && (b.status == Danger <==> 0.8 * b.budgeted.monthly < b.spent.thisMonth <= b.budgeted.monthly)
      && (b.status == Ok <==> b.spent.thisMonth <= 0.6 * b.budgeted.monthly)
  {
    var b := CategoryBudgetOf(c, purchases, profile, today);
    var s, m := b.spent.thisMonth, b.budgeted.monthly;
    PercentAbove(s, m, 100.0);
    PercentAbove(s, m, 80.0);
    PercentAbove(s, m, 60.0);
  }

  /** With non-negative amounts the overlapping windows nest: today and this
      month lie inside this year, which lies inside all time. */
  lemma SpentWindowsNest(c: Category, purchases: seq<Purchase>, profile: Profile, today: Date)
    requires Valid(today)
    requires forall p :: p in purchases ==> p.amount >= 0.0
    ensures var s := CategoryBudgetOf(c, purchases, profile, today).spent;
      && 0.0 <= s.today <= s.thisMonth <= s.thisYear <= s.allTime
      && 0.0 <= s.thisWeek <= s.allTime
  {
    var own := Filter(purchases, InCategory(c.id));
    assert forall p :: p in own ==> p.amount >= 0.0;
    SumNonNegative(Filter(own, OnDay(today)), AmountOf);
    SumNonNegative(Filter(own, InWeekOf(today)), AmountOf);
    SumFilterMonotone(own, OnDay(today), InMonthOf(today.year, today.month), AmountOf);
    SumFilterMonotone(own, InMonthOf(today.year, today.month), InYearFrom(today.year), AmountOf);
    SumFilterBounded(own, InYearFrom(today.year), AmountOf);
    SumFilterBounded(own, InWeekOf(today), AmountOf);
  }

  /** A category's figures are computed from its own purchases only: adding
      purchases of other categories changes nothing. */
  lemma OwnPurchasesOnly(c: Category, purchases: seq<Purchase>, others: seq<Purchase>, profile: Profile, today: Date)
    requires forall p :: p in others ==> p.categoryId != c.id
    ensures CategoryBudgetOf(c, purchases + others, profile, today) == CategoryBudgetOf(c, purchases, profile, today)
  {
    FilterAppend(purchases, others, InCategory(c.id));
    FilterNone(others, InCategory(c.id));
    assert Filter(purchases, InCategory(c.id)) + [] == Filter(purchases, InCategory(c.id));
  }

  function MonthlyBudgetOf(cb: CategoryBudget): real
  {
    cb.budgeted.monthly
  }

  function PercentageOf(c: Category): real
  {
    c.percentage
  }

  /** When every budget is its category's share of the income (as
      `BudgetFigures` shows), the monthly budgets add up to the income times
      the summed shares. */
  lemma {:induction false} SumOfShares(cbs: seq<CategoryBudget>, categories: seq<Category>, income: real)
    requires |cbs| == |categories|
    requires forall i :: 0 <= i < |cbs| ==> cbs[i].budgeted.monthly == income * categories[i].percentage / 100.0
    ensures Sum(cbs, MonthlyBudgetOf) == income * Sum(categories, PercentageOf) / 100.0
  {
    if cbs != [] {
      SumOfShares(cbs[1..], categories[1..], income);
      var a, rest := categories[0].percentage, Sum(categories[1..], PercentageOf);
      assert income * (a + rest) / 100.0 == income * a / 100.0 + income * rest / 100.0;
    }
  }

  // ---------------------------------------------------------------------
  // getMonthlySnapshots

  function CategoryIds(categories: seq<Category>): set<string>
  {
    set c | c in categories :: c.id
  }

  /** The spend among `inMonth` of each category id in `categories`, one
      entry assigned per category in turn. */
  function ByCategory(inMonth: seq<Purchase>, categories: seq<Category>): (m: map<string, real>)
    ensures m.Keys == CategoryIds(categories)
    ensures forall id :: id in m ==> m[id] == Sum(Filter(inMonth, InCategory(id)), AmountOf)
  {
    if categories == [] then map[]
    else
      var init, c := categories[..|categories| - 1], categories[|categories| - 1];
      assert categories == init + [c];
      ByCategory(inMonth, init)[c.id := Sum(Filter(inMonth, InCategory(c.id)), AmountOf)]
  }

  /** The snapshot of calendar month `month` of `year`. */
  function SnapshotOf(purchases: seq<Purchase>, categories: seq<Category>, income: real, year: int, month: int): MonthlySnapshot
    requires 1 <= month <= 12
  {
    var inMonth := Filter(purchases, InMonthOf(year, month));
    MonthlySnapshot(MonthKey(year, month), Sum(inMonth, AmountOf), income, ByCategory(inMonth, categories))
  }

  /** The snapshot of the month `i` months before today's. */
  function SnapshotMonthsAgo(purchases: seq<Purchase>, categories: seq<Category>, profile: Profile, today: Date, i: int): MonthlySnapshot
  {
    var ym := MonthsAgo(today.year, today.month, i);
    SnapshotOf(purchases, categories, MonthlyIncome(profile), ym.0, ym.1)
  }

  function MonthsAgoSnapshot(purchases: seq<Purchase>, categories: seq<Category>, profile: Profile, today: Date): nat -> MonthlySnapshot
  {
    (i: nat) => SnapshotMonthsAgo(purchases, categories, profile, today, i)
  }

  function Max0(n: int): nat
  {
    if n > 0 then n else 0
  }

  /** The snapshots the loop of `getMonthlySnapshots` pushes: the current month
      first, then each month before it, `n` in all. */
  function PushedSnapshots(purchases: seq<Purchase>, categories: seq<Category>, profile: Profile, today: Date, n: nat): (r: seq<MonthlySnapshot>)
    ensures |r| == n
  {
    Tabulate(n, MonthsAgoSnapshot(purchases, categories, profile, today))
  }

  /** What `getMonthlySnapshots` returns: the last `monthsBack` months,
      oldest first. */
  function MonthlySnapshots(purchases: seq<Purchase>, categories: seq<Category>, profile: Profile, today: Date, monthsBack: int): (r: seq<MonthlySnapshot>)
    ensures |r| == Max0(monthsBack)
  {
    Backwards(Max0(monthsBack), MonthsAgoSnapshot(purchases, categories, profile, today))
  }

  method GetMonthlySnapshots(purchases: seq<Purchase>, categories: seq<Category>, profile: Profile, today: Date, monthsBack: int)
    returns (r: seq<MonthlySnapshot>)
    ensures r == MonthlySnapshots(purchases, categories, profile, today, monthsBack)
  {
    var snapshots: seq<MonthlySnapshot> := [];
    var monthlyIncome := MonthlyIncome(profile);
    var i := 0;
    while i < monthsBack
      invariant 0 <= i <= Max0(monthsBack)
      invariant snapshots == PushedSnapshots(purchases, categories, profile, today, i)
    {
      var ym := MonthsAgo(today.year, today.month, i);
      var snapshot := SnapshotOf(purchases, categories, monthlyIncome, ym.0, ym.1);
      assert snapshot == MonthsAgoSnapshot(purchases, categories, profile, today)(i);
      snapshots := snapshots + [snapshot];
      i := i + 1;
    }
    r := Reverse(snapshots);
    ReverseTabulate(i, MonthsAgoSnapshot(purchases, categories, profile, today));
  }

  /** Entry `j` of the `monthsBack` snapshots is the month
      `monthsBack - 1 - j` months back. */
  lemma SnapshotAt(purchases: seq<Purchase>, categories: seq<Category>, profile: Profile, today: Date, monthsBack: int, j: int)
    requires 0 <= j < monthsBack
    ensures MonthlySnapshots(purchases, categories, profile, today, monthsBack)[j]
         == SnapshotMonthsAgo(purchases, categories, profile, today, monthsBack - 1 - j)
  {
    var k: nat := monthsBack - 1 - j;
    SnapshotsBackwards(purchases, categories, profile, today, monthsBack);
    BackwardsAtIs(monthsBack, MonthsAgoSnapshot(purchases, categories, profile, today), j,
      SnapshotMonthsAgo(purchases, categories, profile, today, k));
  }

  lemma SnapshotsBackwards(purchases: seq<Purchase>, categories: seq<Category>, profile: Profile, today: Date, monthsBack: nat)
    ensures MonthlySnapshots(purchases, categories, profile, today, monthsBack)
         == Backwards(monthsBack, MonthsAgoSnapshot(purchases, categories, profile, today))
  {
  }

  /** Entry `j` of the `monthsBack` snapshots is the calendar month
      `monthsBack - 1 - j` months before today's: its key, its spend from the
      purchases of that month, the whole monthly income as its budget, and an
      entry for every category holding that category's spend in the month. */
  lemma SnapshotEntry(purchases: seq<Purchase>, categories: seq<Category>, profile: Profile, today: Date, monthsBack: int, j: int)
    requires 0 <= j < monthsBack
    ensures var r := MonthlySnapshots(purchases, categories, profile, today, monthsBack);
      var ym := MonthsAgo(today.year, today.month, monthsBack - 1 - j);
      var inMonth := Filter(purchases, InMonthOf(ym.0, ym.1));
      && MonthIndex(ym.0, ym.1) == MonthIndex(today.year, today.month) - (monthsBack - 1 - j)
      && r[j].month == MonthKey(ym.0, ym.1)
      && r[j].totalSpent == Sum(inMonth, AmountOf)
      && r[j].totalBudgeted == MonthlyIncome(profile)
      && r[j].byCategory.Keys == CategoryIds(categories)
      && (forall id :: id in r[j].byCategory ==> r[j].byCategory[id] == Sum(Filter(inMonth, InCategory(id)), AmountOf))
  {
    SnapshotAt(purchases, categories, profile, today, monthsBack, j);
    SnapshotFields(purchases, categories, profile, today, monthsBack - 1 - j);
  }

  /** The fields of the snapshot of the month `i` months back. */
  lemma SnapshotFields(purchases: seq<Purchase>, categories: seq<Category>, profile: Profile, today: Date, i: int)
    ensures var s := SnapshotMonthsAgo(purchases, categories, profile, today, i);
      var ym := MonthsAgo(today.year, today.month, i);
      var inMonth := Filter(purchases, InMonthOf(ym.0, ym.1));
      && MonthIndex(ym.0, ym.1) == MonthIndex(today.year, today.month) - i
      && s.month == MonthKey(ym.0, ym.1)
      && s.totalSpent == Sum(inMonth, AmountOf)
      && s.totalBudgeted == MonthlyIncome(profile)
      && s.byCategory.Keys == CategoryIds(categories)
      && (forall id :: id in s.byCategory ==> s.byCategory[id] == Sum(Filter(inMonth, InCategory(id)), AmountOf))
  {
  }

  /** For a valid current day, the newest snapshot is today's month. */
  lemma LastSnapshotIsCurrentMonth(purchases: seq<Purchase>, categories: seq<Category>, profile: Profile, today: Date, monthsBack: int)
    requires monthsBack > 0 && Valid(today)
    ensures MonthlySnapshots(purchases, categories, profile, today, monthsBack)[monthsBack - 1].month
         == MonthKey(today.year, today.month)
  {
    SnapshotAt(purchases, categories, profile, today, monthsBack, monthsBack - 1);
    CurrentMonthSnapshot(purchases, categories, profile, today);
  }

  lemma CurrentMonthSnapshot(purchases: seq<Purchase>, categories: seq<Category>, profile: Profile, today: Date)
    requires Valid(today)
    ensures SnapshotMonthsAgo(purchases, categories, profile, today, 0).month == MonthKey(today.year, today.month)
  {
    var ym := MonthsAgo(today.year, today.month, 0);
    MonthIndexInjective(ym.0, ym.1, today.year, today.month);
  }

  // ---------------------------------------------------------------------
  // getDailySpending

  /** The entry for day `d`: the spend and the number of purchases dated `d`. */
  function DayEntry(purchases: seq<Purchase>, d: Date): DailySpending
  {
    DailySpending(d, Sum(Filter(purchases, OnDay(d)), AmountOf), Count(purchases, OnDay(d)))
  }

  /** The entries of the `n` days ending with `last`, oldest first. */
  function DailySeries(purchases: seq<Purchase>, last: Date, n: nat): (r: seq<DailySpending>)
    requires Valid(last)
    ensures |r| == n
    decreases n
  {
    if n == 0 then [] else DailySeries(purchases, PrevDay(last), n - 1) + [DayEntry(purchases, last)]
  }

  /** `getDailySpending`: the last `daysBack` days ending today. */
  method GetDailySpending(purchases: seq<Purchase>, today: Date, daysBack: int) returns (spending: seq<DailySpending>)
    requires Valid(today)
    ensures spending == DailySeries(purchases, today, Max0(daysBack))
  {
    spending := [];
    var i := daysBack - 1;
    while i >= 0
      invariant i <= daysBack - 1
      invariant i >= -1 || i == daysBack - 1
      invariant spending == DailySeries(purchases, DaysAgo(today, if i >= -1 then i + 1 else 0), daysBack - 1 - i)
    {
      var date := DaysAgo(today, i);
      var dayPurchases := Filter(purchases, OnDay(date));
      spending := spending + [DailySpending(date, Sum(dayPurchases, AmountOf), |dayPurchases|)];
      i := i - 1;
    }
  }

  /** Entry `j` of the series is the day `n - 1 - j` days before its last day. */
  lemma {:induction false} DailyEntry(purchases: seq<Purchase>, last: Date, n: nat, j: nat)
    requires Valid(last) && j < n
    ensures DailySeries(purchases, last, n)[j] == DayEntry(purchases, DaysAgo(last, n - 1 - j))
    decreases n
  {
    if j < n - 1 {
      DailyEntry(purchases, PrevDay(last), n - 1, j);
      DaysAgoShift(last, n - 2 - j);
    }
  }

  /** The series ends with its last day, and each entry sums and counts
      exactly the purchases of its day. */
  lemma {:induction false} DailySeriesDay(purchases: seq<Purchase>, today: Date, n: nat, j: nat)
    requires Valid(today) && j < n
    ensures var r := DailySeries(purchases, today, n);
      && r[n - 1].date == today
      && r[j].amount == Sum(Filter(purchases, OnDay(r[j].date)), AmountOf)
      && r[j].count == Count(purchases, OnDay(r[j].date))
  {
    DailyEntry(purchases, today, n, j);
    DailyEntry(purchases, today, n, n - 1);
  }

  /** The days of the series are consecutive: each is the day before the next. */
  lemma {:induction false} DailySeriesConsecutive(purchases: seq<Purchase>, today: Date, n: nat, j: nat)
    requires Valid(today) && 0 < j < n
    ensures var r := DailySeries(purchases, today, n);
      Valid(r[j].date) && r[j - 1].date == PrevDay(r[j].date)
  {
    DailyEntry(purchases, today, n, j);
    DailyEntry(purchases, today, n, j - 1);
    assert DaysAgo(today, n - j) == PrevDay(DaysAgo(today, n - 1 - j));
  }

  /** Days without purchases are zero entries, not gaps. */
  lemma {:induction false} NoPurchasesZeroDays(purchases: seq<Purchase>, last: Date, n: nat)
    requires Valid(last) && purchases == []
    ensures forall j :: 0 <= j < n ==>
      DailySeries(purchases, last, n)[j].amount == 0.0 && DailySeries(purchases, last, n)[j].count == 0
    decreases n
  {
    if n > 0 {
      NoPurchasesZeroDays(purchases, PrevDay(last), n - 1);
      var init := DailySeries(purchases, PrevDay(last), n - 1);
      var e := DayEntry(purchases, last);
      assert Filter(purchases, OnDay(last)) == [];
      var r := DailySeries(purchases, last, n);
      assert r == init + [e];
      forall j | 0 <= j < n
        ensures r[j].amount == 0.0 && r[j].count == 0
      {
        if j < n - 1 {
          assert r[j] == init[j];
        }
      }
    }
  }

  // ---------------------------------------------------------------------
  // generateAlerts

  function Abs(x: real): real
  {
    if x < 0.0 then -x else x
  }

  function OverspentAlertFor(cb: CategoryBudget, now: int): Alert
  {
    Alert("overspent-" + cb.category.id, OverspentAlert, Some(cb.category.id), Some(cb.category.name),
      OverBudgetBy(cb.category.name, Abs(cb.remaining.monthly)), Some(cb.percentUsed.monthly), Some(100.0), now)
  }

  function DangerAlertFor(cb: CategoryBudget, now: int): Alert
  {
    Alert("warning-" + cb.category.id, WarningAlert, Some(cb.category.id), Some(cb.category.name),
      AtPercent(cb.category.name, cb.percentUsed.monthly), Some(cb.percentUsed.monthly), Some(80.0), now)
  }

  /** The alerts one category contributes: one for `overspent`, a `warning`
      one for `danger`, none otherwise. */
  function CategoryAlerts(cb: CategoryBudget, now: int): seq<Alert>
  {
    (if cb.status == Overspent then [OverspentAlertFor(cb, now)] else [])
    + (if cb.status == Danger then [DangerAlertFor(cb, now)] else [])
  }

  function AllCategoryAlerts(cbs: seq<CategoryBudget>, now: int): seq<Alert>
  {
    if cbs == [] then [] else AllCategoryAlerts(cbs[..|cbs| - 1], now) + CategoryAlerts(cbs[|cbs| - 1], now)
  }

  function TotalMonthlyBudget(cbs: seq<CategoryBudget>): real
  {
    Sum(cbs, MonthlyBudgetOf)
  }

  function LargeThreshold(cbs: seq<CategoryBudget>): real
  {
    TotalMonthlyBudget(cbs) * 0.1
  }

  function IsLarge(threshold: real): Purchase -> bool
  {
    (p: Purchase) => p.amount > threshold
  }

  /** `categoryBudgets.find(cb => cb.category.id === id)?.category.name`. */
  function FindCategoryName(cbs: seq<CategoryBudget>, id: string): (r: Option<string>)
    ensures r.None? <==> forall cb :: cb in cbs ==> cb.category.id != id
  {
    if cbs == [] then None
    else if cbs[0].category.id == id then Some(cbs[0].category.name)
    else FindCategoryName(cbs[1..], id)
  }

  /** This month's purchases above the large-purchase threshold. */
  function LargePurchases(cbs: seq<CategoryBudget>, purchases: seq<Purchase>, today: Date): seq<Purchase>
  {
    Filter(Filter(purchases, InMonthOf(today.year, today.month)), IsLarge(LargeThreshold(cbs)))
  }

  function LargePurchaseAlertFor(p: Purchase, cbs: seq<CategoryBudget>, threshold: real): Alert
  {
    Alert("large-" + p.id, LargePurchaseAlert, Some(p.categoryId), FindCategoryName(cbs, p.categoryId),
      LargePurchaseOf(p.name, p.amount), Some(p.amount), Some(threshold), p.createdAt)
  }

  function LargePurchaseAlerts(ps: seq<Purchase>, cbs: seq<CategoryBudget>, threshold: real): (r: seq<Alert>)
    ensures |r| == |ps|
  {
    if ps == [] then []
    else LargePurchaseAlerts(ps[..|ps| - 1], cbs, threshold) + [LargePurchaseAlertFor(ps[|ps| - 1], cbs, threshold)]
  }

  /** The alerts in the order they are pushed, before the sort. */
  function PushedAlerts(cbs: seq<CategoryBudget>, purchases: seq<Purchase>, today: Date, now: int): seq<Alert>
  {
    AllCategoryAlerts(cbs, now) + LargePurchaseAlerts(LargePurchases(cbs, purchases, today), cbs, LargeThreshold(cbs))
  }

  function CreatedAtKey(a: Alert): real
  {
    a.createdAt as real
  }

  /** What `generateAlerts` returns: the pushed alerts, newest first. */
  function Alerts(cbs: seq<CategoryBudget>, purchases: seq<Purchase>, today: Date, now: int): (r: seq<Alert>)
    ensures forall i, j :: 0 <= i < j < |r| ==> r[i].createdAt >= r[j].createdAt
    ensures multiset(r) == multiset(PushedAlerts(cbs, purchases, today, now))
  {
    var r := SortByKey(PushedAlerts(cbs, purchases, today, now), CreatedAtKey, true);
    assert forall i, j :: 0 <= i < j < |r| ==> Before(r[i], r[j], CreatedAtKey, true);
    r
  }

  /** The first loop of `generateAlerts`: one pass over the budgets. */
  method PushCategoryAlerts(cbs: seq<CategoryBudget>, now: int) returns (alerts: seq<Alert>)
    ensures alerts == AllCategoryAlerts(cbs, now)
  {
    alerts := [];
    var i := 0;
    while i < |cbs|
      invariant 0 <= i <= |cbs|
      invariant alerts == AllCategoryAlerts(cbs[..i], now)
    {
      var cb := cbs[i];
      assert cbs[..i + 1][..i] == cbs[..i];
      ghost var before := alerts;
      if cb.status == Overspent {
        alerts := alerts + [OverspentAlertFor(cb, now)];
      }
      if cb.status == Danger {
        alerts := alerts + [DangerAlertFor(cb, now)];
      }
      assert alerts == before + CategoryAlerts(cb, now);
      i := i + 1;
    }
    assert cbs[..|cbs|] == cbs;
  }

  /** The second loop of `generateAlerts`: one alert per large purchase,
      appended to `alerts`. */
  method PushLargePurchaseAlerts(alerts: seq<Alert>, large: seq<Purchase>, cbs: seq<CategoryBudget>, threshold: real)
    returns (r: seq<Alert>)
    ensures r == alerts + LargePurchaseAlerts(large, cbs, threshold)
  {
    r := alerts;
    var k := 0;
    while k < |large|
      invariant 0 <= k <= |large|
      invariant r == alerts + LargePurchaseAlerts(large[..k], cbs, threshold)
    {
      assert large[..k + 1][..k] == large[..k];
      r := r + [LargePurchaseAlertFor(large[k], cbs, threshold)];
      k := k + 1;
    }
    assert large[..|large|] == large;
  }

  method GenerateAlerts(cbs: seq<CategoryBudget>, purchases: seq<Purchase>, today: Date, now: int) returns (alerts: seq<Alert>)
    ensures alerts == Alerts(cbs, purchases, today, now)
  {
    var categoryAlerts := PushCategoryAlerts(cbs, now);
    var thisMonth := Filter(purchases, InMonthOf(today.year, today.month));
    var largeThreshold := TotalMonthlyBudget(cbs) * 0.1;
    var large := Filter(thisMonth, IsLarge(largeThreshold));
    alerts := PushLargePurchaseAlerts(categoryAlerts, large, cbs, largeThreshold);
    assert alerts == PushedAlerts(cbs, purchases, today, now);
    alerts := SortByKey(alerts, CreatedAtKey, true);
  }

  lemma {:induction false} InAllCategoryAlerts(cbs: seq<CategoryBudget>, now: int, a: Alert)
    ensures a in AllCategoryAlerts(cbs, now) <==> exists cb :: cb in cbs && a in CategoryAlerts(cb, now)
  {
    if cbs != [] {
      var init, last := cbs[..|cbs| - 1], cbs[|cbs| - 1];
      InAllCategoryAlerts(init, now, a);
      assert cbs == init + [last];
      if a in CategoryAlerts(last, now) {
        assert last in cbs;
      }
      if exists cb :: cb in cbs && a in CategoryAlerts(cb, now) {
        var cb :| cb in cbs && a in CategoryAlerts(cb, now);
        if cb != last {
          assert cb in init;
        }
      }
    }
  }

  lemma {:induction false} InLargePurchaseAlerts(ps: seq<Purchase>, cbs: seq<CategoryBudget>, threshold: real, a: Alert)
    ensures a in LargePurchaseAlerts(ps, cbs, threshold) <==> exists p :: p in ps && a == LargePurchaseAlertFor(p, cbs, threshold)
  {
    if ps != [] {
      var init, last := ps[..|ps| - 1], ps[|ps| - 1];
      InLargePurchaseAlerts(init, cbs, threshold, a);
      assert ps == init + [last];
      if exists p :: p in ps && a == LargePurchaseAlertFor(p, cbs, threshold) {
        var p :| p in ps && a == LargePurchaseAlertFor(p, cbs, threshold);
        if p != last {
          assert p in init;
        }
      }
    }
  }

  /** An alert is in the result exactly when it is the `overspent` alert of an
      overspent category, the `warning` alert of a category in `danger`, or the
      `large_purchase` alert of a purchase of this month above 10% of the
      summed monthly budgets. Categories in `warning` or `ok` raise none. */
  lemma AlertsCharacterised(cbs: seq<CategoryBudget>, purchases: seq<Purchase>, today: Date, now: int, a: Alert)
    ensures a in Alerts(cbs, purchases, today, now) <==>
      || (exists cb :: cb in cbs && cb.status == Overspent && a == OverspentAlertFor(cb, now))
      || (exists cb :: cb in cbs && cb.status == Danger && a == DangerAlertFor(cb, now))
      || (exists p :: p in purchases && InMonthOf(today.year, today.month)(p)
            && p.amount > TotalMonthlyBudget(cbs) * 0.1
            && a == LargePurchaseAlertFor(p, cbs, LargeThreshold(cbs)))
  {
    var r := Alerts(cbs, purchases, today, now);
    var large := LargePurchases(cbs, purchases, today);
    assert a in r <==> a in multiset(r);
    assert a in r <==> a in PushedAlerts(cbs, purchases, today, now);
    InAllCategoryAlerts(cbs, now, a);
    InLargePurchaseAlerts(large, cbs, LargeThreshold(cbs), a);
    var monthOnly := Filter(purchases, InMonthOf(today.year, today.month));
    assert forall p :: p in large <==> p in purchases && InMonthOf(today.year, today.month)(p) && p.amount > TotalMonthlyBudget(cbs) * 0.1 by {
      forall p ensures p in large <==> p in purchases && InMonthOf(today.year, today.month)(p) && p.amount > TotalMonthlyBudget(cbs) * 0.1 {
        assert p in large <==> p in monthOnly && IsLarge(LargeThreshold(cbs))(p);
      }
    }
  }

  function IsStatus(s: Status): CategoryBudget -> bool
  {
    (cb: CategoryBudget) => cb.status == s
  }

  lemma {:induction false} AllCategoryAlertsCount(cbs: seq<CategoryBudget>, now: int)
    ensures |AllCategoryAlerts(cbs, now)| == Count(cbs, IsStatus(Overspent)) + Count(cbs, IsStatus(Danger))
  {
    if cbs != [] {
      var init, last := cbs[..|cbs| - 1], cbs[|cbs| - 1];
      AllCategoryAlertsCount(init, now);
      assert cbs == init + [last];
      FilterAppend(init, [last], IsStatus(Overspent));
      FilterAppend(init, [last], IsStatus(Danger));
    }
  }

  /** One alert per overspent category, one per category in danger and one per
      large purchase of this month, and nothing else. */
  lemma AlertsCount(cbs: seq<CategoryBudget>, purchases: seq<Purchase>, today: Date, now: int)
    ensures |Alerts(cbs, purchases, today, now)|
         == Count(cbs, IsStatus(Overspent)) + Count(cbs, IsStatus(Danger)) + |LargePurchases(cbs, purchases, today)|
  {
    var r := Alerts(cbs, purchases, today, now);
    assert |r| == |multiset(r)| == |PushedAlerts(cbs, purchases, today, now)|;
    AllCategoryAlertsCount(cbs, now);
  }

  // ---------------------------------------------------------------------
  // getProjections

  function MonthSpend(purchases: seq<Purchase>, today: Date): real
  {
    Sum(Filter(purchases, InMonthOf(today.year, today.month)), AmountOf)
  }

  /** What `getProjections` returns: this month's spend extrapolated linearly
      from the average per day so far. */
  function ProjectionsOf(cbs: seq<CategoryBudget>, purchases: seq<Purchase>, today: Date): (r: Projections)
    requires Valid(today)
    ensures r.daysRemaining == DaysInMonth(today.year, today.month) - today.day >= 0
    ensures r.budgeted == TotalMonthlyBudget(cbs)
  {
    var daysInMonth := DaysInMonth(today.year, today.month);
    var daysPassed := today.day;
    var daysRemaining := daysInMonth - daysPassed;
    var totalSpent := MonthSpend(purchases, today);
    var dailyAverage := if daysPassed > 0 then totalSpent / daysPassed as real else 0.0;
    Projections(totalSpent + dailyAverage * daysRemaining as real, TotalMonthlyBudget(cbs), daysRemaining, dailyAverage)
  }

  /** Linear extrapolation from `passed` of `days` days. */
  lemma Extrapolation(spent: real, passed: real, days: real)
    requires 0.0 < passed <= days
    ensures spent + spent / passed * (days - passed) == spent * days / passed
    ensures passed == days ==> spent + spent / passed * (days - passed) == spent
    ensures spent >= 0.0 ==> spent + spent / passed * (days - passed) >= spent
  {
    var a := spent / passed;
    assert spent == a * passed;
    assert spent + a * (days - passed) == a * days;
    assert spent * days / passed == a * days;
    if spent >= 0.0 {
      assert a >= 0.0;
      assert a * (days - passed) >= 0.0;
    }
  }

  /** The projection is the month's spend scaled from the days passed to the
      whole month, and equals the spend on the last day of the month. */
  lemma ProjectionFormula(cbs: seq<CategoryBudget>, purchases: seq<Purchase>, today: Date)
    requires Valid(today)
    ensures var r := ProjectionsOf(cbs, purchases, today);
      var spent := MonthSpend(purchases, today);
      && r.dailyAverage == spent / today.day as real
      && r.projected == spent * DaysInMonth(today.year, today.month) as real / today.day as real
      && (today.day == DaysInMonth(today.year, today.month) ==> r.projected == spent)
  {
    var spent := MonthSpend(purchases, today);
    var dim := DaysInMonth(today.year, today.month);
    Extrapolation(spent, today.day as real, dim as real);
    assert (dim - today.day) as real == dim as real - today.day as real;
  }

  /** With non-negative amounts the projection never falls below the spend. */
  lemma ProjectionAtLeastSpent(cbs: seq<CategoryBudget>, purchases: seq<Purchase>, today: Date)
    requires Valid(today)
    requires forall p :: p in purchases ==> p.amount >= 0.0
    ensures ProjectionsOf(cbs, purchases, today).projected >= MonthSpend(purchases, today)
  {
    var spent := MonthSpend(purchases, today);
    var dim := DaysInMonth(today.year, today.month);
    SumNonNegative(Filter(purchases, InMonthOf(today.year, today.month)), AmountOf);
    Extrapolation(spent, today.day as real, dim as real);
    assert (dim - today.day) as real == dim as real - today.day as real;
  }
}
