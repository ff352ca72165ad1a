/**
 * The MyMoneyNotes view-state holder. It caches the latest transaction list and the two per-type
 * totals delivered by the repository's live queries, and keeps the balance as income minus expense.
 * Each live-query emission is an explicit call: `OnTransactions`, `OnIncomeTotal`, `OnExpenseTotal`.
 */
module TransactionViewModel {
  import opened Wrappers
  import opened KotlinText
  import opened TransactionModel
  import opened TransactionDAO
  import opened TransactionRepository

  /** The category names offered for each type, in display order. */
  function GetCategoryList(k: TransactionType): (r: seq<string>)
    ensures |r| == (if k == INCOME then 6 else 8)
    ensures r[|r| - 1] == "Lainnya"
    ensures forall i, j :: 0 <= i < j < |r| ==> r[i] != r[j]
    ensures forall i :: 0 <= i < |r| ==> r[i] != [] && !IsWhitespace(r[i][0])
  {
    match k
    case INCOME => ["Gaji", "Bonus", "Hadiah", "Investasi", "Penjualan", "Lainnya"]
    case EXPENSE => ["Makanan", "Transport", "Belanja", "Hiburan", "Tagihan", "Pendidikan", "Kesehatan", "Lainnya"]
  }

  /** No offered category is blank. */
  lemma CategoriesAreNotBlank(k: TransactionType, c: string)
    requires c in GetCategoryList(k)
    ensures !IsBlank(c)
  {
    var r := GetCategoryList(k);
    var i :| 0 <= i < |r| && r[i] == c;
    NotBlankWhenFirstIsVisible(c);
  }

  class TransactionViewModel {
    const repository: TransactionRepository
    /** The latest list emitted by `getAllTransactions`. */
    var transactions: seq<Transaction>
    var totalIncome: int
    var totalExpense: int
    var balance: int

    ghost predicate Valid()
      reads this, repository, repository.transactionDao
    {
      repository.Valid() && balance == totalIncome - totalExpense
    }

    /** Before any emission: an empty list and all three amounts 0. */
    constructor (repository: TransactionRepository)
      requires repository.Valid()
      ensures this.repository == repository
      ensures Valid()
      ensures transactions == [] && totalIncome == 0 && totalExpense == 0 && balance == 0
    {
      this.repository := repository;
      transactions := [];
      totalIncome := 0;
      totalExpense := 0;
      balance := 0;
    }

    /** The collector of `getAllTransactions`: caches the emitted list as is. */
    method OnTransactions(list: seq<Transaction>)
      requires Valid()
      modifies this
      ensures Valid()
      ensures transactions == list
      ensures totalIncome == old(totalIncome) && totalExpense == old(totalExpense) && balance == old(balance)
    {
      transactions := list;
    }

    /** The collector of the income total: a null total is stored as 0, then the balance is recomputed. */
    method OnIncomeTotal(income: Option<int>)
      requires Valid()
      modifies this
      ensures Valid()
      ensures totalIncome == income.GetOr(0)
      ensures totalExpense == old(totalExpense) && transactions == old(transactions)
      ensures balance == totalIncome - totalExpense
    {
      totalIncome := income.GetOr(0);
      CalculateBalance();
    }

    /** The collector of the expense total: a null total is stored as 0, then the balance is recomputed. */
    method OnExpenseTotal(expense: Option<int>)
      requires Valid()
      modifies this
      ensures Valid()
      ensures totalExpense == expense.GetOr(0)
      ensures totalIncome == old(totalIncome) && transactions == old(transactions)
      ensures balance == totalIncome - totalExpense
    {
      totalExpense := expense.GetOr(0);
      CalculateBalance();
    }

    method CalculateBalance()
      requires repository.Valid()
      modifies this
      ensures Valid()
      ensures balance == totalIncome - totalExpense
      ensures totalIncome == old(totalIncome) && totalExpense == old(totalExpense)
      ensures transactions == old(transactions)
    {
      balance := totalIncome - totalExpense;
    }

    /**
     * Each of the three collectors receives the value its query has for the current table, as
     * happens once the live queries have caught up with the last commit.
     */
    method Sync()
      requires Valid()
      modifies this
      ensures Valid()
      ensures transactions == repository.GetAllTransactions()
      ensures totalIncome == Sum(OfType(repository.transactionDao.rows, INCOME))
      ensures totalExpense == Sum(OfType(repository.transactionDao.rows, EXPENSE))
      ensures balance == totalIncome - totalExpense
    {
      OnTransactions(repository.GetAllTransactions());
      OnIncomeTotal(repository.GetTotalByType(INCOME));
      OnExpenseTotal(repository.GetTotalByType(EXPENSE));
    }

    /** Builds a record with an unset key and the given fields and inserts it once. */
    method AddTransaction(kind: TransactionType, category: string, amount: int, date: int, note: string := "")
      requires Valid()
      modifies repository.transactionDao
      ensures Valid()
      ensures var dao := repository.transactionDao;
        dao.rows == Upsert(old(dao.rows), StoredRow(old(dao.lastId), NewTransaction(kind, category, amount, date, note))) &&
        dao.lastId == Max(old(dao.lastId), AssignedId(old(dao.lastId), NewTransaction(kind, category, amount, date, note)))
    {
      var transaction := NewTransaction(kind, category, amount, date, note);
      repository.InsertTransaction(transaction);
    }

    method DeleteTransaction(transaction: Transaction)
      requires Valid()
      modifies repository.transactionDao
      ensures Valid()
      ensures repository.transactionDao.rows == RemoveKey(old(repository.transactionDao.rows), transaction.id)
      ensures repository.transactionDao.lastId == old(repository.transactionDao.lastId)
    {
      repository.DeleteTransaction(transaction);
    }
  }

  /** One income emission and one expense emission give the same balance in either order. */
  method EmissionsInEitherOrder(income: Option<int>, expense: Option<int>) returns (incomeFirst: int, expenseFirst: int)
    ensures incomeFirst == income.GetOr(0) - expense.GetOr(0)
    ensures expenseFirst == income.GetOr(0) - expense.GetOr(0)
  {
    var dao := new TransactionDao();
    var repository := new TransactionRepository(dao);
    var a := new TransactionViewModel(repository);
    a.OnIncomeTotal(income);
    a.OnExpenseTotal(expense);
    incomeFirst := a.balance;
    var b := new TransactionViewModel(repository);
    b.OnExpenseTotal(expense);
    b.OnIncomeTotal(income);
    expenseFirst := b.balance;
  }

  const Salary: Transaction := Transaction(1, INCOME, "Gaji", 5000000, 1000, "")
  const Food: Transaction := Transaction(2, EXPENSE, "Makanan", 50000, 2000, "")

  lemma SalaryAndFoodRows()
    ensures Upsert([], Salary) == [Salary]
    ensures Upsert([Salary], Food) == [Salary, Food]
    ensures RemoveKey([Salary, Food], Food.id) == [Salary]
  {
    assert !HasId([Salary], 2);
    assert [Salary, Food][1..] == [Food];
  }

  lemma SalaryAndFoodOrder()
    ensures SortByDateDesc([Salary, Food]) == [Food, Salary]
  {
    assert [Salary, Food][1..] == [Food];
    assert SortByDateDesc([Food]) == [Food];
    assert InsertByDate(Salary, [Food]) == [Food, Salary];
  }

  lemma SalaryAndFoodTotals()
    ensures Sum(OfType([Salary, Food], INCOME)) == 5000000
    ensures Sum(OfType([Salary, Food], EXPENSE)) == 50000
    ensures Sum(OfType([Salary], INCOME)) == 5000000
    ensures Sum(OfType([Salary], EXPENSE)) == 0
  {
    assert [Salary, Food][1..] == [Food];
    assert OfType([Salary, Food], INCOME) == [Salary];
    assert OfType([Salary, Food], EXPENSE) == [Food];
  }

  /** The view model's two inserts of the scenario below, on an empty table. */
  method AddSalaryAndFood(vm: TransactionViewModel)
    requires vm.Valid()
    requires vm.repository.transactionDao.rows == [] && vm.repository.transactionDao.lastId == 0
    modifies vm.repository.transactionDao
    ensures vm.Valid()
    ensures vm.repository.transactionDao.rows == [Salary, Food]
  {
    SalaryAndFoodRows();
    var dao := vm.repository.transactionDao;
    vm.AddTransaction(INCOME, "Gaji", 5000000, 1000);
    assert dao.rows == [Salary];
    vm.AddTransaction(EXPENSE, "Makanan", 50000, 2000);
  }

  /** The collectors' view of the table holding the salary and the food expense. */
  method SyncSalaryAndFood(vm: TransactionViewModel)
    requires vm.Valid() && vm.repository.transactionDao.rows == [Salary, Food]
    modifies vm
    ensures vm.Valid() && vm.repository.transactionDao.rows == [Salary, Food]
    ensures vm.transactions == [Food, Salary] && vm.balance == 4950000
  {
    SalaryAndFoodOrder();
    SalaryAndFoodTotals();
    vm.Sync();
  }

  /** Deleting the food expense, and the collectors' view of the table afterwards. */
  method DeleteFoodAndSync(vm: TransactionViewModel)
    requires vm.Valid() && vm.repository.transactionDao.rows == [Salary, Food]
    modifies vm, vm.repository.transactionDao
    ensures vm.Valid() && vm.repository.transactionDao.rows == [Salary]
    ensures vm.totalExpense == 0 && vm.balance == 5000000
  {
    SalaryAndFoodRows();
    vm.DeleteTransaction(Food);
    SalaryAndFoodTotals();
    vm.Sync();
  }

  /**
   * A salary, then a later food expense, then deleting the expense again: the totals, the balance and
   * the date-descending list the view model caches after each step.
   */
  method SalaryThenExpenseThenDelete() returns (listed: seq<Transaction>, balance: int, expenseAfterDelete: int, balanceAfterDelete: int)
    ensures |listed| == 2
    ensures listed[0].kind == EXPENSE && listed[0].category == "Makanan"
    ensures listed[1].kind == INCOME && listed[1].category == "Gaji"
    ensures balance == 4950000
    ensures expenseAfterDelete == 0 && balanceAfterDelete == 5000000
  {
    var dao := new TransactionDao();
    var repository := new TransactionRepository(dao);
    var vm := new TransactionViewModel(repository);
    AddSalaryAndFood(vm);
    SyncSalaryAndFood(vm);
    listed := vm.transactions;
    balance := vm.balance;
    DeleteFoodAndSync(vm);
    expenseAfterDelete := vm.totalExpense;
    balanceAfterDelete := vm.balance;
  }
}
