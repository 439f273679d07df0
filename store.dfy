/** The client store of frog-budget/src/stores/index.ts: one state object
    whose actions replace some of its fields. `Step` says what each action
    does to a state value, as the function handed to `set` does; the class
    `BudgetStore` holds the state in mutable fields and has one method per
    action, each proved to perform that step and nothing else. */
module Store {
  import opened Common
  import opened Calendar
  import opened Records
  import Utils

  datatype Tab = Dashboard | Purchases | Budgets | Analysis | Settings

  datatype User = User(id: string, email: string)

  /** A `Partial<Category>`: the fields an update names, each None when the
      update leaves it out. */
  datatype CategoryPatch = CategoryPatch(
    id: Option<string>,
    userId: Option<string>,
    name: Option<string>,
    percentage: Option<real>,
    color: Option<string>,
    icon: Option<Option<string>>,
    order: Option<int>,
    isActive: Option<bool>,
    createdAt: Option<int>,
    updatedAt: Option<int>)

  /** A `Partial<Purchase>`. */
  datatype PurchasePatch = PurchasePatch(
    id: Option<string>,
    userId: Option<string>,
    categoryId: Option<string>,
    name: Option<string>,
    amount: Option<real>,
    date: Option<Date>,
    notes: Option<Option<string>>,
    createdAt: Option<int>,
    updatedAt: Option<int>)

  /** The patch's value where it names the field, the old value elsewhere. */
  function Pick<T>(patch: Option<T>, current: T): T
  {
    if patch.Some? then patch.value else current
  }

  /** `{ ...c, ...updates }`. */
  function MergeCategory(c: Category, u: CategoryPatch): Category
  {
    Category(Pick(u.id, c.id), Pick(u.userId, c.userId), Pick(u.name, c.name),
      Pick(u.percentage, c.percentage), Pick(u.color, c.color), Pick(u.icon, c.icon),
      Pick(u.order, c.order), Pick(u.isActive, c.isActive), Pick(u.createdAt, c.createdAt),
      Pick(u.updatedAt, c.updatedAt))
  }

  /** `{ ...p, ...updates }`. */
  function MergePurchase(p: Purchase, u: PurchasePatch): Purchase
  {
    Purchase(Pick(u.id, p.id), Pick(u.userId, p.userId), Pick(u.categoryId, p.categoryId),
      Pick(u.name, p.name), Pick(u.amount, p.amount), Pick(u.date, p.date), Pick(u.notes, p.notes),
      Pick(u.createdAt, p.createdAt), Pick(u.updatedAt, p.updatedAt))
  }

  function CategoryId(c: Category): string { c.id }

  function PurchaseId(p: Purchase): string { p.id }

  function AlertId(a: Alert): string { a.id }

  /** `s.map(x => x.id === id ? merge(x) : x)`. */
  function UpdateWhere<T>(s: seq<T>, idOf: T -> string, id: string, merge: T -> T): (r: seq<T>)
    ensures |r| == |s|
    ensures forall i :: 0 <= i < |s| ==> r[i] == if idOf(s[i]) == id then merge(s[i]) else s[i]
  {
    if s == [] then [] else [if idOf(s[0]) == id then merge(s[0]) else s[0]] + UpdateWhere(s[1..], idOf, id, merge)
  }

  /** Keeps the elements whose id is not `id`. */
  function IdIsNot<T>(idOf: T -> string, id: string): T -> bool
  {
    (x: T) => idOf(x) != id
  }

  /** Has the element the id `id`? */
  function IdIs<T>(idOf: T -> string, id: string): T -> bool
  {
    (x: T) => idOf(x) == id
  }

  /** `s.filter(x => x.id !== id)`. */
  function RemoveWhere<T>(s: seq<T>, idOf: T -> string, id: string): seq<T>
  {
    Filter(s, IdIsNot(idOf, id))
  }

  function CategoryMerge(u: CategoryPatch): Category -> Category
  {
    (c: Category) => MergeCategory(c, u)
  }

  function PurchaseMerge(u: PurchasePatch): Purchase -> Purchase
  {
    (p: Purchase) => MergePurchase(p, u)
  }

  /** The whole state of the store. */
  datatype StoreState = StoreState(
    user: Option<User>,
    profile: Option<Profile>,
    categories: seq<Category>,
    purchases: seq<Purchase>,
    activeTab: Tab,
    selectedMonth: string,
    filters: FilterOptions,
    alerts: seq<Alert>,
    isDarkMode: bool,
    isLoading: bool,
    showAddPurchase: bool,
    editingPurchase: Option<Purchase>,
    showAddCategory: bool,
    editingCategory: Option<Category>,
    sidebarCollapsed: bool,
    showImportModal: bool)

  /** The store's actions, grouped as the store's interface groups them;
      `null` arguments are None. */
  datatype SessionAction = SetUser(user: Option<User>) | SetProfile(profile: Option<Profile>)

  datatype CategoryAction =
    | SetCategories(categories: seq<Category>)
    | AddCategory(category: Category)
    | UpdateCategory(categoryId: string, patch: CategoryPatch)
    | DeleteCategory(deleted: string)

  datatype PurchaseAction =
    | SetPurchases(purchases: seq<Purchase>)
    | AddPurchase(purchase: Purchase)
    | UpdatePurchase(purchaseId: string, patch: PurchasePatch)
    | DeletePurchase(deleted: string)

  datatype AlertAction = SetAlerts(alerts: seq<Alert>) | DismissAlert(dismissed: string)

  datatype ViewAction =
    | SetActiveTab(tab: Tab)
    | SetSelectedMonth(month: string)
    | SetFilters(filters: FilterOptions)
    | ClearFilters
    | ToggleDarkMode
    | SetIsLoading(loading: bool)
    | SetSidebarCollapsed(collapsed: bool)
    | ToggleSidebar
    | SetShowImportModal(showImport: bool)

  datatype ModalAction =
    | SetShowAddPurchase(showPurchase: bool)
    | SetEditingPurchase(editingPurchase: Option<Purchase>)
    | SetShowAddCategory(showCategory: bool)
    | SetEditingCategory(editingCategory: Option<Category>)

  datatype Action =
    | SessionOp(session: SessionAction)
    | CategoryOp(categoryAction: CategoryAction)
    | PurchaseOp(purchaseAction: PurchaseAction)
    | AlertOp(alertAction: AlertAction)
    | ViewOp(view: ViewAction)
    | ModalOp(modal: ModalAction)

  /** The new state after an action: the old state with the fields the
      action's `set` call names replaced. */
  function Step(s: StoreState, a: Action): StoreState
  {
    match a
    case SessionOp(x) => SessionStep(s, x)
    case CategoryOp(x) => s.(categories := CategoryStep(s.categories, x))
    case PurchaseOp(x) => s.(purchases := PurchaseStep(s.purchases, x))
    case AlertOp(x) => s.(alerts := AlertStep(s.alerts, x))
    case ViewOp(x) => ViewStep(s, x)
    case ModalOp(x) => ModalStep(s, x)
  }

  function SessionStep(s: StoreState, a: SessionAction): StoreState
  {
    match a
    case SetUser(u) => s.(user := u)
    case SetProfile(p) => s.(profile := p)
  }

  /** `addCategory` appends; update and delete go by id. */
  function CategoryStep(categories: seq<Category>, a: CategoryAction): seq<Category>
  {
    match a
    case SetCategories(cs) => cs
    case AddCategory(c) => categories + [c]
    case UpdateCategory(id, u) => UpdateWhere(categories, CategoryId, id, CategoryMerge(u))
    case DeleteCategory(id) => RemoveWhere(categories, CategoryId, id)
  }

  /** `addPurchase` prepends; update and delete go by id. */
  function PurchaseStep(purchases: seq<Purchase>, a: PurchaseAction): seq<Purchase>
  {
    match a
    case SetPurchases(ps) => ps
    case AddPurchase(p) => [p] + purchases
    case UpdatePurchase(id, u) => UpdateWhere(purchases, PurchaseId, id, PurchaseMerge(u))
    case DeletePurchase(id) => RemoveWhere(purchases, PurchaseId, id)
  }

  function AlertStep(alerts: seq<Alert>, a: AlertAction): seq<Alert>
  {
    match a
    case SetAlerts(al) => al
    case DismissAlert(id) => RemoveWhere(alerts, AlertId, id)
  }

  function ViewStep(s: StoreState, a: ViewAction): StoreState
  {
    match a
    case SetActiveTab(t) => s.(activeTab := t)
    case SetSelectedMonth(m) => s.(selectedMonth := m)
    case SetFilters(f) => s.(filters := f)
    case ClearFilters => s.(filters := NoFilters)
    case ToggleDarkMode => s.(isDarkMode := !s.isDarkMode)
    case SetIsLoading(b) => s.(isLoading := b)
    case SetSidebarCollapsed(b) => s.(sidebarCollapsed := b)
    case ToggleSidebar => s.(sidebarCollapsed := !s.sidebarCollapsed)
    case SetShowImportModal(b) => s.(showImportModal := b)
  }

  /** Each modal's visibility and the record it edits are set together. */
  function ModalStep(s: StoreState, a: ModalAction): StoreState
  {
    match a
    case SetShowAddPurchase(b) => s.(showAddPurchase := b, editingPurchase := None)
    case SetEditingPurchase(p) => s.(editingPurchase := p, showAddPurchase := p.Some?)
    case SetShowAddCategory(b) => s.(showAddCategory := b, editingCategory := None)
    case SetEditingCategory(c) => s.(editingCategory := c, showAddCategory := c.Some?)
  }

  /** The state the store starts in on the day `today`. */
  function InitialState(today: Date): StoreState
    requires 1 <= today.month <= 12
  {
    StoreState(None, None, [], [], Dashboard, MonthKey(today.year, today.month), NoFilters, [],
      false, true, false, None, false, None, true, false)
  }

  // ---------------------------------------------------------------------
  // What each action may change

  datatype Field =
    | UserField | ProfileField | CategoriesField | PurchasesField | ActiveTabField
    | SelectedMonthField | FiltersField | AlertsField | DarkModeField | LoadingField
    | ShowAddPurchaseField | EditingPurchaseField | ShowAddCategoryField
    | EditingCategoryField | SidebarField | ImportModalField

  /** The fields an action's `set` call names. */
  function Names(a: Action): set<Field>
  {
    match a
    case SessionOp(SetUser(_)) => {UserField}
    case SessionOp(SetProfile(_)) => {ProfileField}
    case CategoryOp(_) => {CategoriesField}
    case PurchaseOp(_) => {PurchasesField}
    case AlertOp(_) => {AlertsField}
    case ViewOp(v) => ViewNames(v)
    case ModalOp(m) =>
      if m.SetShowAddPurchase? || m.SetEditingPurchase? then {ShowAddPurchaseField, EditingPurchaseField}
      else {ShowAddCategoryField, EditingCategoryField}
  }

  function ViewNames(v: ViewAction): set<Field>
  {
    match v
    case SetActiveTab(_) => {ActiveTabField}
    case SetSelectedMonth(_) => {SelectedMonthField}
    case SetFilters(_) => {FiltersField}
    case ClearFilters => {FiltersField}
    case ToggleDarkMode => {DarkModeField}
    case SetIsLoading(_) => {LoadingField}
    case SetSidebarCollapsed(_) => {SidebarField}
    case ToggleSidebar => {SidebarField}
    case SetShowImportModal(_) => {ImportModalField}
  }

  /** `s` and `t` agree on every field outside `fs`. */
  predicate SameOutside(s: StoreState, t: StoreState, fs: set<Field>)
  {
    (UserField !in fs ==> s.user == t.user)
    && (ProfileField !in fs ==> s.profile == t.profile)
    && (CategoriesField !in fs ==> s.categories == t.categories)
    && (PurchasesField !in fs ==> s.purchases == t.purchases)
    && (ActiveTabField !in fs ==> s.activeTab == t.activeTab)
    && (SelectedMonthField !in fs ==> s.selectedMonth == t.selectedMonth)
    && (FiltersField !in fs ==> s.filters == t.filters)
    && (AlertsField !in fs ==> s.alerts == t.alerts)
    && (DarkModeField !in fs ==> s.isDarkMode == t.isDarkMode)
    && (LoadingField !in fs ==> s.isLoading == t.isLoading)
    && (ShowAddPurchaseField !in fs ==> s.showAddPurchase == t.showAddPurchase)
    && (EditingPurchaseField !in fs ==> s.editingPurchase == t.editingPurchase)
    && (ShowAddCategoryField !in fs ==> s.showAddCategory == t.showAddCategory)
    && (EditingCategoryField !in fs ==> s.editingCategory == t.editingCategory)
    && (SidebarField !in fs ==> s.sidebarCollapsed == t.sidebarCollapsed)
    && (ImportModalField !in fs ==> s.showImportModal == t.showImportModal)
  }

  // Each slice's actions touch only the fields their `set` call names; the
  // list actions replace only their own list, as `Step` shows directly.

  /** The session actions touch only the user or the profile. */
  lemma SessionFrame(s: StoreState, x: SessionAction)
    ensures SameOutside(s, SessionStep(s, x), Names(SessionOp(x)))
  {
  }

  /** A modal action touches only its modal's two fields. */
  lemma ModalFrame(s: StoreState, x: ModalAction)
    ensures SameOutside(s, ModalStep(s, x), Names(ModalOp(x)))
  {
  }

  /** A view action touches only the flag or setting it names. */
  lemma ViewFrame(s: StoreState, v: ViewAction)
    ensures SameOutside(s, ViewStep(s, v), ViewNames(v))
  {
    match v
    case SetActiveTab(_) =>
    case SetSelectedMonth(_) =>
    case SetFilters(_) =>
    case ClearFilters =>
    case ToggleDarkMode =>
    case SetIsLoading(_) =>
    case SetSidebarCollapsed(_) =>
    case ToggleSidebar =>
    case SetShowImportModal(_) =>
  }

  // ---------------------------------------------------------------------
  // List actions

  /** `addCategory` appends at the end and keeps the rest in order. */
  lemma AddCategoryAppends(s: StoreState, c: Category)
    ensures var r := Step(s, CategoryOp(AddCategory(c))).categories;
      |r| == |s.categories| + 1 && r[|r| - 1] == c
      && forall i :: 0 <= i < |s.categories| ==> r[i] == s.categories[i]
  {
  }

  /** `addPurchase` puts the purchase first and keeps the rest in order. */
  lemma AddPurchasePrepends(s: StoreState, p: Purchase)
    ensures var r := Step(s, PurchaseOp(AddPurchase(p))).purchases;
      |r| == |s.purchases| + 1 && r[0] == p
      && forall i :: 0 <= i < |s.purchases| ==> r[i + 1] == s.purchases[i]
  {
    assert Step(s, PurchaseOp(AddPurchase(p))).purchases == [p] + s.purchases;
  }

  /** `updateCategory` merges the patch into exactly the categories with the
      id, in place; every other category is unchanged. */
  lemma UpdateCategoryMerges(s: StoreState, id: string, u: CategoryPatch)
    ensures var r := Step(s, CategoryOp(UpdateCategory(id, u))).categories;
      |r| == |s.categories|
      && forall i :: 0 <= i < |r| ==>
        (s.categories[i].id == id ==> r[i] == MergeCategory(s.categories[i], u))
        && (s.categories[i].id != id ==> r[i] == s.categories[i])
  {
  }

  /** `updatePurchase` does the same for purchases. */
  lemma UpdatePurchaseMerges(s: StoreState, id: string, u: PurchasePatch)
    ensures var r := Step(s, PurchaseOp(UpdatePurchase(id, u))).purchases;
      |r| == |s.purchases|
      && forall i :: 0 <= i < |r| ==>
        (s.purchases[i].id == id ==> r[i] == MergePurchase(s.purchases[i], u))
        && (s.purchases[i].id != id ==> r[i] == s.purchases[i])
  {
  }

  /** A merged field takes the patch's value when the patch names it and
      keeps its own otherwise; an empty patch changes nothing, and merging
      the same patch twice is merging it once. */
  lemma MergeCategoryFields(c: Category, u: CategoryPatch)
    ensures MergeCategory(c, u).name == (if u.name.Some? then u.name.value else c.name)
    ensures MergeCategory(c, u).percentage == (if u.percentage.Some? then u.percentage.value else c.percentage)
    ensures MergeCategory(c, u).id == (if u.id.Some? then u.id.value else c.id)
    ensures MergeCategory(MergeCategory(c, u), u) == MergeCategory(c, u)
    ensures MergeCategory(c, CategoryPatch(None, None, None, None, None, None, None, None, None, None)) == c
  {
  }

  /** The same for purchases. */
  lemma MergePurchaseFields(p: Purchase, u: PurchasePatch)
    ensures MergePurchase(p, u).amount == (if u.amount.Some? then u.amount.value else p.amount)
    ensures MergePurchase(p, u).categoryId == (if u.categoryId.Some? then u.categoryId.value else p.categoryId)
    ensures MergePurchase(p, u).id == (if u.id.Some? then u.id.value else p.id)
    ensures MergePurchase(MergePurchase(p, u), u) == MergePurchase(p, u)
    ensures MergePurchase(p, PurchasePatch(None, None, None, None, None, None, None, None, None)) == p
  {
  }

  /** The elements dropped and the elements kept by a removal together make
      up the original sequence. */
  lemma {:induction false} FilterSplit<T>(s: seq<T>, p: T -> bool, q: T -> bool)
    requires forall x :: q(x) == !p(x)
    ensures multiset(Filter(s, p)) + multiset(Filter(s, q)) == multiset(s)
  {
    if s != [] {
      var t := s[1..];
      FilterSplit(t, p, q);
      assert s == [s[0]] + t;
      if p(s[0]) {
        assert Filter(s, p) == [s[0]] + Filter(t, p) && Filter(s, q) == Filter(t, q);
      } else {
        assert Filter(s, q) == [s[0]] + Filter(t, q) && Filter(s, p) == Filter(t, p);
      }
    }
  }

  /** Removing by id drops exactly the elements with that id: none is left,
      the others are kept with their multiplicity and their order, and
      removing again changes nothing. */
  lemma RemoveWhereSpec<T>(s: seq<T>, idOf: T -> string, id: string)
    ensures forall x :: x in RemoveWhere(s, idOf, id) ==> idOf(x) != id
    ensures multiset(RemoveWhere(s, idOf, id)) == multiset(s) - multiset(Filter(s, IdIs(idOf, id)))
    ensures RemoveWhere(RemoveWhere(s, idOf, id), idOf, id) == RemoveWhere(s, idOf, id)
    ensures forall a, b :: s == a + b ==> RemoveWhere(s, idOf, id) == RemoveWhere(a, idOf, id) + RemoveWhere(b, idOf, id)
    ensures (forall x :: x in s ==> idOf(x) != id) ==> RemoveWhere(s, idOf, id) == s
  {
    FilterSplit(s, IdIs(idOf, id), IdIsNot(idOf, id));
    FilterIdempotent(s, IdIsNot(idOf, id));
    forall a, b | s == a + b
      ensures RemoveWhere(s, idOf, id) == RemoveWhere(a, idOf, id) + RemoveWhere(b, idOf, id)
    {
      FilterAppend(a, b, IdIsNot(idOf, id));
    }
    if forall x :: x in s ==> idOf(x) != id {
      FilterAll(s, IdIsNot(idOf, id));
    }
  }

  /** `deleteCategory` removes exactly the categories with the id, keeps the
      rest, and deleting again changes nothing. */
  lemma DeleteCategoryRemoves(cs: seq<Category>, id: string)
    ensures var r := CategoryStep(cs, DeleteCategory(id));
      (forall c :: c in r ==> c.id != id)
      && (forall c :: c in cs && c.id != id ==> c in r)
      && CategoryStep(r, DeleteCategory(id)) == r
  {
    RemoveWhereSpec(cs, CategoryId, id);
  }

  /** `deletePurchase` does the same for purchases. */
  lemma DeletePurchaseRemoves(ps: seq<Purchase>, id: string)
    ensures var r := PurchaseStep(ps, DeletePurchase(id));
      (forall p :: p in r ==> p.id != id)
      && (forall p :: p in ps && p.id != id ==> p in r)
      && PurchaseStep(r, DeletePurchase(id)) == r
  {
    RemoveWhereSpec(ps, PurchaseId, id);
  }

  /** `dismissAlert` does the same for alerts. */
  lemma DismissAlertRemoves(al: seq<Alert>, id: string)
    ensures var r := AlertStep(al, DismissAlert(id));
      (forall a :: a in r ==> a.id != id)
      && (forall a :: a in al && a.id != id ==> a in r)
      && AlertStep(r, DismissAlert(id)) == r
  {
    RemoveWhereSpec(al, AlertId, id);
  }

  // ---------------------------------------------------------------------
  // Flags

  /** Choosing a purchase to edit opens its modal exactly when one is
      chosen; setting the modal's visibility always clears the one being
      edited. */
  lemma PurchaseModalCoupled(s: StoreState, p: Option<Purchase>, show: bool)
    ensures var t := ModalStep(s, SetEditingPurchase(p));
      (t.showAddPurchase <==> p.Some?) && t.editingPurchase == p
    ensures var t := ModalStep(s, SetShowAddPurchase(show));
      t.editingPurchase == None && t.showAddPurchase == show
  {
  }

  /** The same for the category modal. */
  lemma CategoryModalCoupled(s: StoreState, c: Option<Category>, show: bool)
    ensures var t := ModalStep(s, SetEditingCategory(c));
      (t.showAddCategory <==> c.Some?) && t.editingCategory == c
    ensures var t := ModalStep(s, SetShowAddCategory(show));
      t.editingCategory == None && t.showAddCategory == show
  {
  }

  /** The toggles flip their flag, so toggling twice restores the state. */
  lemma TogglesInvolutive(s: StoreState)
    ensures Step(s, ViewOp(ToggleSidebar)).sidebarCollapsed != s.sidebarCollapsed
    ensures Step(s, ViewOp(ToggleDarkMode)).isDarkMode != s.isDarkMode
    ensures Step(Step(s, ViewOp(ToggleSidebar)), ViewOp(ToggleSidebar)) == s
    ensures Step(Step(s, ViewOp(ToggleDarkMode)), ViewOp(ToggleDarkMode)) == s
  {
  }

  /** `clearFilters` leaves no filter set, whatever was set before. */
  lemma ClearFiltersEmpties(s: StoreState, f: FilterOptions)
    ensures Step(s, ViewOp(ClearFilters)).filters == NoFilters
    ensures Step(Step(s, ViewOp(SetFilters(f))), ViewOp(ClearFilters)) == Step(s, ViewOp(ClearFilters))
  {
  }

  // ---------------------------------------------------------------------
  // Persistence

  /** What `partialize` writes to storage. */
  datatype Persisted = Persisted(isDarkMode: bool, selectedMonth: string, sidebarCollapsed: bool)

  function Partialize(s: StoreState): Persisted
  {
    Persisted(s.isDarkMode, s.selectedMonth, s.sidebarCollapsed)
  }

  /** Rehydration: the stored fields laid over an initial state, as the
      middleware's default shallow merge does. */
  function Rehydrate(initial: StoreState, p: Persisted): StoreState
  {
    initial.(isDarkMode := p.isDarkMode, selectedMonth := p.selectedMonth, sidebarCollapsed := p.sidebarCollapsed)
  }

  /** A reload restores exactly the three persisted fields and takes every
      other field from the initial state. */
  lemma RehydrateRestores(s: StoreState, initial: StoreState)
    ensures Partialize(Rehydrate(initial, Partialize(s))) == Partialize(s)
    ensures SameOutside(initial, Rehydrate(initial, Partialize(s)), {DarkModeField, SelectedMonthField, SidebarField})
  {
  }

  /** The actions that write a persisted field. */
  predicate ChangesStored(a: Action)
  {
    a.ViewOp? && (a.view.ToggleDarkMode? || a.view.SetSelectedMonth?
                  || a.view.SetSidebarCollapsed? || a.view.ToggleSidebar?)
  }

  /** Only the dark-mode, month and sidebar actions change what is stored. */
  lemma PersistedOnlyBy(s: StoreState, a: Action)
    requires !ChangesStored(a)
    ensures Partialize(Step(s, a)) == Partialize(s)
  {
    match a
    case SessionOp(x) => SessionKeepsStored(s, x);
    case CategoryOp(x) => ListsKeepStored(s, a);
    case PurchaseOp(x) => ListsKeepStored(s, a);
    case AlertOp(x) => ListsKeepStored(s, a);
    case ViewOp(x) => ViewKeepsStored(s, x);
    case ModalOp(x) => ModalKeepsStored(s, x);
  }

  lemma SessionKeepsStored(s: StoreState, x: SessionAction)
    ensures Partialize(Step(s, SessionOp(x))) == Partialize(s)
  {
  }

  lemma ListsKeepStored(s: StoreState, a: Action)
    requires a.CategoryOp? || a.PurchaseOp? || a.AlertOp?
    ensures Partialize(Step(s, a)) == Partialize(s)
  {
  }

  lemma ModalKeepsStored(s: StoreState, x: ModalAction)
    ensures Partialize(Step(s, ModalOp(x))) == Partialize(s)
  {
  }

  lemma ViewKeepsStored(s: StoreState, x: ViewAction)
    requires !ChangesStored(ViewOp(x))
    ensures Partialize(Step(s, ViewOp(x))) == Partialize(s)
  {
    match x {
      case SetActiveTab(_) =>
      case SetFilters(_) =>
      case ClearFilters =>
      case SetIsLoading(_) =>
      case SetShowImportModal(_) =>
    }
  }

  /** The store starts on the current month's `YYYY-MM` key, which reads back
      as today's year and 1-based month, with empty lists, no filter, and the
      loading flag and collapsed sidebar on. */
  lemma InitialMonth(today: Date)
    requires today.year >= 0 && 1 <= today.month <= 12
    ensures Utils.ParseMonthKey(InitialState(today).selectedMonth) == Utils.YearMonth(Some(today.year), Some(today.month))
    ensures var s := InitialState(today);
      s.categories == [] && s.purchases == [] && s.alerts == [] && s.filters == NoFilters
      && s.isLoading && s.sidebarCollapsed && !s.isDarkMode
  {
    Utils.MonthKeyRoundTrip(today);
  }

  // ---------------------------------------------------------------------
  // The store object

  class BudgetStore {
    var user: Option<User>
    var profile: Option<Profile>
    var categories: seq<Category>
    var purchases: seq<Purchase>
    var activeTab: Tab
    var selectedMonth: string
    var filters: FilterOptions
    var alerts: seq<Alert>
    var isDarkMode: bool
    var isLoading: bool
    var showAddPurchase: bool
    var editingPurchase: Option<Purchase>
    var showAddCategory: bool
    var editingCategory: Option<Category>
    var sidebarCollapsed: bool
    var showImportModal: bool

    function State(): StoreState
      reads this
    {
      StoreState(user, profile, categories, purchases, activeTab, selectedMonth, filters, alerts,
        isDarkMode, isLoading, showAddPurchase, editingPurchase, showAddCategory, editingCategory,
        sidebarCollapsed, showImportModal)
    }

    /** `create(...)`: the initial state, with `getCurrentMonth()` taken
        from `today`. */
    constructor(today: Date)
      requires 1 <= today.month <= 12
      ensures State() == InitialState(today)
    {
      user := None;
      profile := None;
      categories := [];
      purchases := [];
      activeTab := Dashboard;
      selectedMonth := MonthKey(today.year, today.month);
      filters := NoFilters;
      alerts := [];
      isDarkMode := false;
      isLoading := true;
      showAddPurchase := false;
      editingPurchase := None;
      showAddCategory := false;
      editingCategory := None;
      sidebarCollapsed := true;
      showImportModal := false;
    }

    method SetUser(u: Option<User>)
      modifies this
      ensures State() == Step(old(State()), SessionOp(SessionAction.SetUser(u)))
    {
      user := u;
    }

    method SetProfile(p: Option<Profile>)
      modifies this
      ensures State() == Step(old(State()), SessionOp(SessionAction.SetProfile(p)))
    {
      profile := p;
    }

    method SetCategories(cs: seq<Category>)
      modifies this
      ensures State() == Step(old(State()), CategoryOp(CategoryAction.SetCategories(cs)))
    {
      categories := cs;
    }

    method AddCategory(c: Category)
      modifies this
      ensures State() == Step(old(State()), CategoryOp(CategoryAction.AddCategory(c)))
    {
      categories := categories + [c];
    }

    method UpdateCategory(id: string, u: CategoryPatch)
      modifies this
      ensures State() == Step(old(State()), CategoryOp(CategoryAction.UpdateCategory(id, u)))
    {
      categories := UpdateWhere(categories, CategoryId, id, CategoryMerge(u));
    }

    method DeleteCategory(id: string)
      modifies this
      ensures State() == Step(old(State()), CategoryOp(CategoryAction.DeleteCategory(id)))
    {
      categories := RemoveWhere(categories, CategoryId, id);
    }

    method SetPurchases(ps: seq<Purchase>)
      modifies this
      ensures State() == Step(old(State()), PurchaseOp(PurchaseAction.SetPurchases(ps)))
    {
      purchases := ps;
    }

    method AddPurchase(p: Purchase)
      modifies this
      ensures State() == Step(old(State()), PurchaseOp(PurchaseAction.AddPurchase(p)))
    {
      purchases := [p] + purchases;
    }

    method UpdatePurchase(id: string, u: PurchasePatch)
      modifies this
      ensures State() == Step(old(State()), PurchaseOp(PurchaseAction.UpdatePurchase(id, u)))
    {
      purchases := UpdateWhere(purchases, PurchaseId, id, PurchaseMerge(u));
    }

    method DeletePurchase(id: string)
      modifies this
      ensures State() == Step(old(State()), PurchaseOp(PurchaseAction.DeletePurchase(id)))
    {
      purchases := RemoveWhere(purchases, PurchaseId, id);
    }

    method SetActiveTab(t: Tab)
      modifies this
      ensures State() == Step(old(State()), ViewOp(ViewAction.SetActiveTab(t)))
    {
      activeTab := t;
    }

    method SetSelectedMonth(month: string)
      modifies this
      ensures State() == Step(old(State()), ViewOp(ViewAction.SetSelectedMonth(month)))
    {
      selectedMonth := month;
    }

    method SetFilters(f: FilterOptions)
      modifies this
      ensures State() == Step(old(State()), ViewOp(ViewAction.SetFilters(f)))
    {
      filters := f;
    }

    method ClearFilters()
      modifies this
      ensures State() == Step(old(State()), ViewOp(ViewAction.ClearFilters))
    {
      filters := NoFilters;
    }

    method SetAlerts(al: seq<Alert>)
      modifies this
      ensures State() == Step(old(State()), AlertOp(AlertAction.SetAlerts(al)))
    {
      alerts := al;
    }

    method DismissAlert(id: string)
      modifies this
      ensures State() == Step(old(State()), AlertOp(AlertAction.DismissAlert(id)))
    {
      alerts := RemoveWhere(alerts, AlertId, id);
    }

    method ToggleDarkMode()
      modifies this
      ensures State() == Step(old(State()), ViewOp(ViewAction.ToggleDarkMode))
    {
      var newMode := !isDarkMode;
      isDarkMode := newMode;
    }

    method SetIsLoading(loading: bool)
      modifies this
      ensures State() == Step(old(State()), ViewOp(ViewAction.SetIsLoading(loading)))
    {
      isLoading := loading;
    }

    method SetShowAddPurchase(show: bool)
      modifies this
      ensures State() == Step(old(State()), ModalOp(ModalAction.SetShowAddPurchase(show)))
    {
      showAddPurchase := show;
      editingPurchase := None;
    }

    method SetEditingPurchase(p: Option<Purchase>)
      modifies this
      ensures State() == Step(old(State()), ModalOp(ModalAction.SetEditingPurchase(p)))
    {
      editingPurchase := p;
      showAddPurchase := p.Some?;
    }

    method SetShowAddCategory(show: bool)
      modifies this
      ensures State() == Step(old(State()), ModalOp(ModalAction.SetShowAddCategory(show)))
    {
      showAddCategory := show;
      editingCategory := None;
    }

    method SetEditingCategory(c: Option<Category>)
      modifies this
      ensures State() == Step(old(State()), ModalOp(ModalAction.SetEditingCategory(c)))
    {
      editingCategory := c;
      showAddCategory := c.Some?;
    }

    method SetSidebarCollapsed(collapsed: bool)
      modifies this
      ensures State() == Step(old(State()), ViewOp(ViewAction.SetSidebarCollapsed(collapsed)))
    {
      sidebarCollapsed := collapsed;
    }

    method ToggleSidebar()
      modifies this
      ensures State() == Step(old(State()), ViewOp(ViewAction.ToggleSidebar))
    {
      sidebarCollapsed := !sidebarCollapsed;
    }

    method SetShowImportModal(show: bool)
      modifies this
      ensures State() == Step(old(State()), ViewOp(ViewAction.SetShowImportModal(show)))
    {
      showImportModal := show;
    }
  }
}
