/** The rows of the remote store and the derived view models of the analytics
    engine (src/types/supabase.ts). Timestamps (`created_at`, `updated_at`,
    `createdAt`) are integers; a purchase's `date` column is a calendar day,
    stored as the string `FormatDate(date)`. */
module Records {
  import opened Common
  import opened Calendar

  /** `income_frequency`; `Other` stands for any value outside the declared
      union, which the income normalisation treats like `biweekly`. */
  datatype Frequency = Weekly | Biweekly | Monthly | Other(name: string)

  datatype Profile = Profile(
    id: string,
    email: Option<string>,
    displayName: Option<string>,
    avatarUrl: Option<string>,
    incomeAmount: real,
    incomeFrequency: Frequency,
    currency: string,
    createdAt: int,
    updatedAt: int)

  datatype Category = Category(
    id: string,
    userId: string,
    name: string,
    percentage: real,
    color: string,
    icon: Option<string>,
    order: int,
    isActive: bool,
    createdAt: int,
    updatedAt: int)

  datatype Purchase = Purchase(
    id: string,
    userId: string,
    categoryId: string,
    name: string,
    amount: real,
    date: Date,
    notes: Option<string>,
    createdAt: int,
    updatedAt: int)

  datatype Priority = Low | Medium | High

  datatype WishlistItem = WishlistItem(
    id: string,
    userId: string,
    categoryId: string,
    name: string,
    amount: real,
    notes: Option<string>,
    priority: Priority,
    createdAt: int,
    updatedAt: int)

  /** The consumption tier of a category's monthly budget. */
  datatype Status = Ok | Warning | Danger | Overspent

  datatype Budgeted = Budgeted(daily: real, weekly: real, biweekly: real, monthly: real, yearly: real)

  datatype Spent = Spent(today: real, thisWeek: real, thisMonth: real, thisYear: real, allTime: real)

  datatype PerPeriod = PerPeriod(monthly: real, yearly: real)

  datatype CategoryBudget = CategoryBudget(
    category: Category,
    budgeted: Budgeted,
    spent: Spent,
    remaining: PerPeriod,
    percentUsed: PerPeriod,
    status: Status)

  /** One month of history; `byCategory` maps a category id to its spend. */
  datatype MonthlySnapshot = MonthlySnapshot(
    month: string,
    totalSpent: real,
    totalBudgeted: real,
    byCategory: map<string, real>)

  datatype DailySpending = DailySpending(date: Date, amount: real, count: nat)

  datatype AlertType = OverspentAlert | WarningAlert | LargePurchaseAlert | PaceWarning

  /** An alert's message, carrying the values its text prints. */
  datatype AlertMessage =
    | OverBudgetBy(categoryName: string, amount: real)
    | AtPercent(categoryName: string, percent: real)
    | LargePurchaseOf(purchaseName: string, amount: real)

  datatype Alert = Alert(
    id: string,
    kind: AlertType,
    categoryId: Option<string>,
    categoryName: Option<string>,
    message: AlertMessage,
    value: Option<real>,
    threshold: Option<real>,
    createdAt: int)

  datatype Projections = Projections(projected: real, budgeted: real, daysRemaining: int, dailyAverage: real)

  datatype SortField = ByDate | ByAmount | ByName

  datatype SortOrder = Ascending | Descending

  /** The purchase filters held by the store; every field is optional. */
  datatype FilterOptions = FilterOptions(
    categoryId: Option<string>,
    startDate: Option<string>,
    endDate: Option<string>,
    minAmount: Option<real>,
    maxAmount: Option<real>,
    search: Option<string>,
    sortBy: Option<SortField>,
    sortOrder: Option<SortOrder>)

  const NoFilters := FilterOptions(None, None, None, None, None, None, None, None)

  function AmountOf(p: Purchase): real
  {
    p.amount
  }
}
