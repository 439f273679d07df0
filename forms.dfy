/** The submit handlers of the purchase, category and wishlist forms
    (src/App.tsx `AddPurchaseModal`, `AddCategoryModal`, `AddWishlistModal`;
    the first client's purchase and category forms are the same code). Each
    validates the number it parses and then asks the service either to edit
    the item being edited or to create a new one. `parseFloat` is a
    parameter, None standing for NaN. */
module Forms {
  import opened Common
  import opened Text
  import opened Calendar
  import opened Records
  import opened CsvImport

  /** What a submit does: show an error and call nothing, or call the
      service's edit with the id being edited, or its create. */
  datatype Submission<T> = Rejected(message: string) | Edit(id: string, fields: T) | Create(fields: T)

  const InvalidAmount := "Please enter a valid amount"
  const InvalidPercentage := "Percentage must be between 0 and 100"

  /** `formData.notes || null`. */
  function NotesOrNull(notes: string): (r: Option<string>)
    ensures r.None? <==> notes == ""
  {
    if notes == "" then None else Some(notes)
  }

  /** A parsed amount the forms accept: a number that is not negative. */
  predicate ValidAmount(a: Option<real>)
  {
    a.Some? && a.value >= 0.0
  }

  /** A parsed percentage the category form accepts: a number in [0, 100]. */
  predicate ValidPercentage(a: Option<real>)
  {
    a.Some? && 0.0 <= a.value <= 100.0
  }

  // ---------------------------------------------------------------------
  // Purchases

  datatype PurchaseForm = PurchaseForm(name: string, amount: string, date: string, categoryId: string, notes: string)

  datatype PurchaseFields = PurchaseFields(name: string, amount: real, date: string, categoryId: string,
                                           notes: Option<string>)

  function SubmitPurchase(form: PurchaseForm, editing: Option<string>, parseFloat: string -> Option<real>)
    : (r: Submission<PurchaseFields>)
    ensures r.Rejected? <==> !ValidAmount(parseFloat(form.amount))
    ensures r.Rejected? ==> r.message == InvalidAmount
    ensures !r.Rejected? ==>
      (r.Edit? <==> editing.Some?) && (r.Edit? ==> r.id == editing.value)
      && r.fields == PurchaseFields(form.name, parseFloat(form.amount).value, form.date, form.categoryId,
                                    NotesOrNull(form.notes))
  {
    var amount := parseFloat(form.amount);
    if !ValidAmount(amount) then Rejected(InvalidAmount)
    else
      var fields := PurchaseFields(form.name, amount.value, form.date, form.categoryId, NotesOrNull(form.notes));
      match editing
      case Some(id) => Edit(id, fields)
      case None => Create(fields)
  }

  /** The warning under a new purchase's form: every field filled in and a
      stored purchase with the same name, an amount within 0.01 and the same
      date. */
  predicate FormIsDuplicate(purchases: seq<Purchase>, form: PurchaseForm, editing: Option<string>,
                            parseFloat: string -> Option<real>)
  {
    var amount := parseFloat(form.amount);
    editing.None? && form.name != "" && form.amount != "" && form.date != "" && amount.Some?
    && exists i :: 0 <= i < |purchases| && SamePurchase(purchases[i], form.name, amount.value, form.date)
  }

  /** For a date in the stored `YYYY-MM-DD` form the form's warning is the
      import's duplicate test, restricted to new, filled-in forms. */
  lemma FormDuplicateIsImportDuplicate(purchases: seq<Purchase>, form: PurchaseForm, editing: Option<string>,
                                       parseFloat: string -> Option<real>, d: Date)
    requires d.year >= 0 && d.month >= 0 && d.day >= 0 && form.date == FormatDate(d)
    ensures FormIsDuplicate(purchases, form, editing, parseFloat)
      <==> (editing.None? && form.name != "" && form.amount != ""
            && IsDuplicatePurchase(purchases, form.name, parseFloat(form.amount), form.date))
  {
    NormalizeStoredDate(d);
    assert form.date != "" by {
      FormatDateParts(d);
    }
  }

  // ---------------------------------------------------------------------
  // Categories

  datatype CategoryForm = CategoryForm(name: string, percentage: string, color: string, icon: string)

  /** The fields sent for a category; a new one is also given `order` 999
      and marked active, an edit leaves both alone. */
  datatype CategoryFields = CategoryFields(name: string, percentage: real, color: string, icon: string,
                                           order: Option<int>, isActive: Option<bool>)

  function SubmitCategory(form: CategoryForm, editing: Option<string>, parseFloat: string -> Option<real>)
    : (r: Submission<CategoryFields>)
    ensures r.Rejected? <==> !ValidPercentage(parseFloat(form.percentage))
    ensures r.Rejected? ==> r.message == InvalidPercentage
    ensures !r.Rejected? ==>
      (r.Edit? <==> editing.Some?) && (r.Edit? ==> r.id == editing.value)
      && (r.fields.name, r.fields.percentage, r.fields.color, r.fields.icon)
         == (form.name, parseFloat(form.percentage).value, form.color, form.icon)
      && (r.Edit? ==> r.fields.order.None? && r.fields.isActive.None?)
      && (r.Create? ==> r.fields.order == Some(999) && r.fields.isActive == Some(true))
  {
    var percentage := parseFloat(form.percentage);
    if !ValidPercentage(percentage) then Rejected(InvalidPercentage)
    else
      match editing
      case Some(id) => Edit(id, CategoryFields(form.name, percentage.value, form.color, form.icon, None, None))
      case None => Create(CategoryFields(form.name, percentage.value, form.color, form.icon, Some(999), Some(true)))
  }

  // ---------------------------------------------------------------------
  // Wishlist

  datatype WishlistForm = WishlistForm(name: string, amount: string, categoryId: string, notes: string,
                                       priority: Priority)

  datatype WishlistFields = WishlistFields(name: string, amount: real, categoryId: string, notes: Option<string>,
                                           priority: Priority)

  function SubmitWishlist(form: WishlistForm, editing: Option<string>, parseFloat: string -> Option<real>)
    : (r: Submission<WishlistFields>)
    ensures r.Rejected? <==> !ValidAmount(parseFloat(form.amount))
    ensures r.Rejected? ==> r.message == InvalidAmount
    ensures !r.Rejected? ==>
      (r.Edit? <==> editing.Some?) && (r.Edit? ==> r.id == editing.value)
      && r.fields == WishlistFields(form.name, parseFloat(form.amount).value, form.categoryId,
                                    NotesOrNull(form.notes), form.priority)
  {
    var amount := parseFloat(form.amount);
    if !ValidAmount(amount) then Rejected(InvalidAmount)
    else
      var fields := WishlistFields(form.name, amount.value, form.categoryId, NotesOrNull(form.notes), form.priority);
      match editing
      case Some(id) => Edit(id, fields)
      case None => Create(fields)
  }
}
