/**
 * The add-transaction form: the five remembered state variables (type, menu open, category,
 * amount text, note text) and the handlers that reassign them, plus the save button. The
 * recomposition step that fills in an empty category is the explicit `Recompose`; the text-to-number
 * conversion of the amount is the parser `toDouble` given at construction (it yields the amount in
 * minor units, or `None` where the conversion throws).
 */
module AddTransactionScreen {
  import opened Wrappers
  import opened KotlinText
  import opened TransactionModel
  import opened TransactionDAO
  import opened TransactionRepository
  import opened TransactionViewModel

  /** Every character is a digit or '.'. */
  predicate AllDigitsOrDots(s: string) {
    forall i :: 0 <= i < |s| ==> IsDigit(s[i]) || s[i] == '.'
  }

  /** The amount field's input filter: `value.isEmpty() || value.all { it.isDigit() || it == '.' }`. */
  predicate AmountAccepted(value: string)
    ensures AmountAccepted(value) ==> AllDigitsOrDots(value)
  {
    value == [] || AllDigitsOrDots(value)
  }

  /** For text that passed the amount filter, blank means empty. */
  lemma FilteredAmountBlankIffEmpty(amount: string)
    requires AllDigitsOrDots(amount)
    ensures IsBlank(amount) <==> amount == []
  {
    if amount != [] {
      assert IsDigit(amount[0]) || amount[0] == '.';
    }
  }

  /**
   * With a filtered amount and a category taken from the type's list, the save button is enabled
   * exactly when some amount has been typed.
   */
  lemma SaveEnabledIffAmountTyped(amount: string, category: string, k: TransactionType)
    requires AllDigitsOrDots(amount)
    requires category in GetCategoryList(k)
    ensures (!IsBlank(amount) && !IsBlank(category)) <==> amount != []
  {
    FilteredAmountBlankIffEmpty(amount);
    CategoriesAreNotBlank(k, category);
  }

  /** What pressing save did: nothing, one insert followed by navigating back, or a failed conversion. */
  datatype SaveOutcome = Ignored | SavedAndNavigatedBack | ConversionFailed

  class AddTransactionForm {
    const viewModel: TransactionViewModel
    const toDouble: string -> Option<int>

    var selectedType: TransactionType
    var expanded: bool
    var selectedCategory: string
    var amount: string
    var note: string

    /** The amount only ever holds filtered text; a chosen category belongs to the chosen type's list. */
    ghost predicate Valid()
      reads this, viewModel, viewModel.repository, viewModel.repository.transactionDao
    {
      viewModel.Valid() &&
      AllDigitsOrDots(amount) &&
      (selectedCategory == [] || selectedCategory in GetCategoryList(selectedType))
    }

    /** The initial state: EXPENSE, menu closed, empty category, amount and note. */
    constructor (viewModel: TransactionViewModel, toDouble: string -> Option<int>)
      requires viewModel.Valid()
      ensures this.viewModel == viewModel && this.toDouble == toDouble
      ensures Valid()
      ensures selectedType == EXPENSE && !expanded
      ensures selectedCategory == [] && amount == [] && note == []
    {
      this.viewModel := viewModel;
      this.toDouble := toDouble;
      selectedType := EXPENSE;
      expanded := false;
      selectedCategory := [];
      amount := [];
      note := [];
    }

    /** Run on every composition: an empty category becomes the first category of the selected type. */
    method Recompose()
      requires Valid()
      modifies this
      ensures Valid()
      ensures old(selectedCategory) == [] ==> selectedCategory == GetCategoryList(selectedType)[0]
      ensures old(selectedCategory) != [] ==> selectedCategory == old(selectedCategory)
      ensures selectedType == old(selectedType) && expanded == old(expanded)
      ensures amount == old(amount) && note == old(note)
    {
      var categories := GetCategoryList(selectedType);
      if |categories| > 0 && selectedCategory == [] {
        selectedCategory := categories[0];
      }
    }

    /** A segmented button: sets the type and resets the category to that type's first entry. */
    method OnTypeSelected(k: TransactionType)
      requires Valid()
      modifies this
      ensures Valid()
      ensures selectedType == k && selectedCategory == GetCategoryList(k)[0]
      ensures expanded == old(expanded) && amount == old(amount) && note == old(note)
    {
      selectedType := k;
      selectedCategory := GetCategoryList(selectedType)[0];
    }

    /** The dropdown box's `onExpandedChange`. */
    method OnExpandedChange(open: bool)
      requires Valid()
      modifies this
      ensures Valid()
      ensures expanded == open
      ensures selectedType == old(selectedType) && selectedCategory == old(selectedCategory)
      ensures amount == old(amount) && note == old(note)
    {
      expanded := open;
    }

    /** The dropdown menu's `onDismissRequest`. */
    method OnDismissRequest()
      requires Valid()
      modifies this
      ensures Valid()
      ensures !expanded
      ensures selectedType == old(selectedType) && selectedCategory == old(selectedCategory)
      ensures amount == old(amount) && note == old(note)
    {
      expanded := false;
    }

    /** A dropdown entry (one of the selected type's categories): picks it and closes the menu. */
    method OnCategoryPicked(category: string)
      requires Valid()
      requires category in GetCategoryList(selectedType)
      modifies this
      ensures Valid()
      ensures selectedCategory == category && !expanded
      ensures selectedType == old(selectedType) && amount == old(amount) && note == old(note)
    {
      selectedCategory := category;
      expanded := false;
    }

    /** The amount field: an edit is taken only when it passes the filter. */
    method OnAmountChange(value: string)
      requires Valid()
      modifies this
      ensures Valid()
      ensures AmountAccepted(value) ==> amount == value
      ensures !AmountAccepted(value) ==> amount == old(amount)
      ensures selectedType == old(selectedType) && selectedCategory == old(selectedCategory)
      ensures expanded == old(expanded) && note == old(note)
    {
      if AmountAccepted(value) {
        amount := value;
      }
    }

    /** The note field takes every edit. */
    method OnNoteChange(value: string)
      requires Valid()
      modifies this
      ensures Valid()
      ensures note == value
      ensures selectedType == old(selectedType) && selectedCategory == old(selectedCategory)
      ensures expanded == old(expanded) && amount == old(amount)
    {
      note := value;
    }

    /** The save button's `enabled` flag. */
    predicate SaveEnabled()
      reads this
      ensures AllDigitsOrDots(amount) && selectedCategory in GetCategoryList(selectedType) ==>
        (SaveEnabled() <==> amount != [])
    {
      if AllDigitsOrDots(amount) && selectedCategory in GetCategoryList(selectedType) then
        SaveEnabledIffAmountTyped(amount, selectedCategory, selectedType);
        !IsBlank(amount) && !IsBlank(selectedCategory)
      else
        !IsBlank(amount) && !IsBlank(selectedCategory)
    }

    /**
     * The save button's `onClick`: with a non-blank amount, one `addTransaction` with the current
     * type, category and note and the clock's `now`, then navigating back; with a blank amount,
     * nothing. When the conversion of the amount throws, neither the insert nor the navigation happens.
     */
    method OnSaveClick(now: int) returns (outcome: SaveOutcome)
      requires Valid()
      modifies viewModel.repository.transactionDao
      ensures Valid()
      ensures var dao := viewModel.repository.transactionDao;
        if IsBlank(amount) then
          outcome == Ignored && dao.rows == old(dao.rows) && dao.lastId == old(dao.lastId)
        else if toDouble(amount).None? then
          outcome == ConversionFailed && dao.rows == old(dao.rows) && dao.lastId == old(dao.lastId)
        else
          var t := NewTransaction(selectedType, selectedCategory, toDouble(amount).value, now, note);
          outcome == SavedAndNavigatedBack &&
          dao.rows == Upsert(old(dao.rows), StoredRow(old(dao.lastId), t)) &&
          dao.lastId == Max(old(dao.lastId), AssignedId(old(dao.lastId), t))
    {
      if !IsBlank(amount) {
        var parsed := toDouble(amount);
        if parsed.None? {
          outcome := ConversionFailed;
        } else {
          viewModel.AddTransaction(selectedType, selectedCategory, parsed.value, now, note);
          outcome := SavedAndNavigatedBack;
        }
      } else {
        outcome := Ignored;
      }
    }
  }
}
