# Verified model of four small app cores

A Dafny model of the sequential logic in four Android apps. Each part has its properties proved.

- **MyMoneyNotes ledger.** The `transactions` table behind the Room DAO, the repository that forwards to it, the view-state holder that caches the list, the two totals and the balance, and the add-transaction form.
- **Starbucks cart.** Add to cart, update quantity, the menu's category filter, the cart total and the sample menu.
- **Dice roller.** The current value and the bounded history of the last ten rolls, plus the value-to-picture mapping.
- **Login form.** The two fields, their two error flags and the validation on the login button.

Files and modules: one per modelled source file, plus two shared helper modules (`Wrappers`, `KotlinText`) for the Kotlin library behaviour the apps rely on:

| file | module | models |
|---|---|---|
| `wrappers.dfy` | `Wrappers` | Kotlin nullable values (`Option`, `?:` as `GetOr`) |
| `kotlin_text.dfy` | `KotlinText` | `isWhitespace`, `isBlank`, `isDigit` |
| `transaction_model.dfy` | `TransactionModel` | the `Transaction` entity and `TransactionType` |
| `transaction_dao.dfy` | `TransactionDAO` | the table: insert-or-replace, delete by key, the three queries |
| `transaction_repository.dfy` | `TransactionRepository` | the forwarding repository |
| `transaction_view_model.dfy` | `TransactionViewModel` | the four cached values, the collectors, add/delete, the category lists |
| `add_transaction_screen.dfy` | `AddTransactionScreen` | the form state and its handlers |
| `starbucks_cart.dfy` | `StarbucksCart` | cart and menu list operations, app and menu-screen state |
| `dice_roller.dfy` | `DiceRoller` | dice value, roll history, picture mapping |
| `login_form.dfy` | `LoginForm` | login screen state and validation |

How the model is built:

- **Amounts, prices and dates.** All are integers. Amounts and prices are minor currency units; dates are milliseconds since the epoch.
- **Live queries (Flows).** Each emission a collector receives is an explicit method call on the view model: `OnTransactions`, `OnIncomeTotal`, `OnExpenseTotal`. `Sync` delivers all three values for the current table.
- **Table.** The DAO table is a class. Its rows are a `seq` with unique keys, and an auto-increment counter supplies fresh keys. The three `@Query` reads are functions of the rows.
- **Form and screen state.** The form, the cart app, the dice app and the login screen are classes. Their fields are the `remember`ed state variables, and their methods are the handlers that reassign them.
- **Foreign code.** The platform e-mail pattern and the amount's text-to-number conversion are function-valued constructor parameters. The model says nothing about them beyond their types.
- **Clock and randomness.** The clock's `Date()` is the `now` parameter of the save handler. The random die value is the `value` parameter of `RollDice`, restricted to 1..6.

What the code does, and the model with it:

- The table checks nothing on insert: no positive amount, no non-empty category. The only guards are the form's.
- Deleting a key that is not stored is a silent no-op, not an error.
- `ORDER BY date DESC` has no tie-break.
- `SUM` over no rows is null in the table and repository. It becomes 0 only in the view model.
- The balance is recomputed from the two cached totals after each total emission. It is not re-derived from the table.

The entity's fields are the ones built at MyMoneyNotes/app/src/main/java/ppb/iftala/ets/mymoneynotes/data/viewmodel/TransactionViewModel.kt:70-76 and read at MyMoneyNotes/app/src/main/java/ppb/iftala/ets/mymoneynotes/ui/screens/TransactionListScreen.kt:71,110,117,119,133. The key is assumed to be an auto-generated `Int` primary key that defaults to 0. Room's insert treats 0 as "not set", and SQLite's AUTOINCREMENT then assigns a key larger than any it has handed out before.

## Model

| member | source | states |
|---|---|---|
| `Wrappers.Option.GetOr` | MyMoneyNotes/app/src/main/java/ppb/iftala/ets/mymoneynotes/data/viewmodel/TransactionViewModel.kt:46 | `x ?: d` is the value when present and `d` when null |
| `TransactionModel.NewTransaction` | MyMoneyNotes/app/src/main/java/ppb/iftala/ets/mymoneynotes/data/viewmodel/TransactionViewModel.kt:70-76 | the record carries exactly the given type, category, amount, date and note, with the key left unset |
| `TransactionDAO.AssignedId` | MyMoneyNotes/app/src/main/java/ppb/iftala/ets/mymoneynotes/data/db/TransactionDAO.kt:14-15 | a record whose key is unset is stored under a key above the counter; any other key is kept |
| `TransactionDAO.AssignedIdIsFresh` | MyMoneyNotes/app/src/main/java/ppb/iftala/ets/mymoneynotes/data/db/TransactionDAO.kt:14-15 | the key assigned to an unset-key record is not already in the table |
| `TransactionDAO.StoredRow` | MyMoneyNotes/app/src/main/java/ppb/iftala/ets/mymoneynotes/data/db/TransactionDAO.kt:14-15 | the stored row is the record with only its key possibly changed |
| `TransactionDAO.Upsert` | MyMoneyNotes/app/src/main/java/ppb/iftala/ets/mymoneynotes/data/db/TransactionDAO.kt:14-15 | an existing key is replaced: same length, and every row with that key is the new row. A new key is appended. The rows after are exactly the new row plus the old rows with other keys. Key uniqueness is kept |
| `TransactionDAO.TransactionDao.constructor` | MyMoneyNotes/app/src/main/java/ppb/iftala/ets/mymoneynotes/data/db/TransactionDAO.kt:14-27 | a new table has no rows and has handed out no keys |
| `TransactionDAO.TransactionDao.InsertTransaction` | MyMoneyNotes/app/src/main/java/ppb/iftala/ets/mymoneynotes/data/db/TransactionDAO.kt:14-15 | the rows become `Upsert` of the stored row, the counter becomes the max of itself and the key, and the table invariant holds |
| `TransactionDAO.RemoveKey` | MyMoneyNotes/app/src/main/java/ppb/iftala/ets/mymoneynotes/data/db/TransactionDAO.kt:17-18 | the rows after are exactly the rows whose key differs from the entity's |
| `TransactionDAO.RemoveAbsentKey` | MyMoneyNotes/app/src/main/java/ppb/iftala/ets/mymoneynotes/data/db/TransactionDAO.kt:17-18 | deleting a key that is not stored leaves the rows identical |
| `TransactionDAO.RemoveKeyUnique` | MyMoneyNotes/app/src/main/java/ppb/iftala/ets/mymoneynotes/data/db/TransactionDAO.kt:17-18 | deletion keeps keys unique, and removes exactly one row when the key is stored |
| `TransactionDAO.RemoveKeyAppend` | MyMoneyNotes/app/src/main/java/ppb/iftala/ets/mymoneynotes/data/db/TransactionDAO.kt:17-18 | deletion keeps the order of the remaining rows: deleting from a concatenation concatenates the results |
| `TransactionDAO.TransactionDao.DeleteTransaction` | MyMoneyNotes/app/src/main/java/ppb/iftala/ets/mymoneynotes/data/db/TransactionDAO.kt:17-18 | the rows become `RemoveKey` of the entity's key, the counter is unchanged, and the table invariant holds |
| `TransactionDAO.InsertByDate` | MyMoneyNotes/app/src/main/java/ppb/iftala/ets/mymoneynotes/data/db/TransactionDAO.kt:20-21 | inserting into a date-descending list gives a date-descending list one longer, holding only that row and the old ones |
| `TransactionDAO.InsertByDatePermutes` | MyMoneyNotes/app/src/main/java/ppb/iftala/ets/mymoneynotes/data/db/TransactionDAO.kt:20-21 | insertion adds exactly that row: the multiset grows by it and nothing else |
| `TransactionDAO.SortByDateDesc` | MyMoneyNotes/app/src/main/java/ppb/iftala/ets/mymoneynotes/data/db/TransactionDAO.kt:20-21 | the result is date-descending and a permutation of the input; the order of equal dates is not promised |
| `TransactionDAO.TransactionDao.GetAllTransactions` | MyMoneyNotes/app/src/main/java/ppb/iftala/ets/mymoneynotes/data/db/TransactionDAO.kt:20-21 | every row exactly once (a multiset equal to the table), with dates non-increasing |
| `TransactionDAO.OfType` | MyMoneyNotes/app/src/main/java/ppb/iftala/ets/mymoneynotes/data/db/TransactionDAO.kt:23-24 | the kept rows are exactly the table's rows of that type |
| `TransactionDAO.OfTypeAppend` | MyMoneyNotes/app/src/main/java/ppb/iftala/ets/mymoneynotes/data/db/TransactionDAO.kt:23-24 | the type filter keeps the stored order: filtering a concatenation concatenates the filtered parts |
| `TransactionDAO.Sum` | MyMoneyNotes/app/src/main/java/ppb/iftala/ets/mymoneynotes/data/db/TransactionDAO.kt:26 | the sum of the amounts: 0 for no rows, and the sum of the parts for a concatenation (`SumAppend`) |
| `TransactionDAO.SumAppend` | MyMoneyNotes/app/src/main/java/ppb/iftala/ets/mymoneynotes/data/db/TransactionDAO.kt:26 | summing a concatenation adds the sums of the parts |
| `TransactionDAO.TransactionDao.GetTransactionsByType` | MyMoneyNotes/app/src/main/java/ppb/iftala/ets/mymoneynotes/data/db/TransactionDAO.kt:23-24 | exactly the rows of that type (a permutation of the filtered rows) and nothing else, with dates non-increasing |
| `TransactionDAO.TotalOf` | MyMoneyNotes/app/src/main/java/ppb/iftala/ets/mymoneynotes/data/db/TransactionDAO.kt:26-27 | null exactly when no row has the type, otherwise the sum of their amounts; null read as 0 is that sum |
| `TransactionDAO.TransactionDao.GetTotalByType` | MyMoneyNotes/app/src/main/java/ppb/iftala/ets/mymoneynotes/data/db/TransactionDAO.kt:26-27 | null exactly when no stored row has the type, otherwise the sum of their amounts |
| `TransactionDAO.InsertLeavesOtherTypeUnchanged` | MyMoneyNotes/app/src/main/java/ppb/iftala/ets/mymoneynotes/data/db/TransactionDAO.kt:14-27 | inserting a row of one type, when any row stored under its key has that same type, leaves type `k`'s filtered list, its date-sorted form and its total unchanged, for every other type `k` |
| `TransactionDAO.DeleteLeavesOtherTypeUnchanged` | MyMoneyNotes/app/src/main/java/ppb/iftala/ets/mymoneynotes/data/db/TransactionDAO.kt:17-27 | deleting a key whose stored row is not of type `k` leaves type `k`'s filtered list, its date-sorted form and its total unchanged |
| `TransactionDAO.InsertThenDeleteRestores` | MyMoneyNotes/app/src/main/java/ppb/iftala/ets/mymoneynotes/data/db/TransactionDAO.kt:14-27 | inserting a record under a key that is unset or absent, then deleting the stored row, gives back the original rows and so the same list and totals |
| `TransactionRepository.TransactionRepository.constructor` | MyMoneyNotes/app/src/main/java/ppb/iftala/ets/mymoneynotes/data/repository/TransactionRepository.kt:9-11 | the repository wraps exactly the given DAO |
| `TransactionRepository.TransactionRepository.GetAllTransactions` | MyMoneyNotes/app/src/main/java/ppb/iftala/ets/mymoneynotes/data/repository/TransactionRepository.kt:12-14 | exactly the DAO's list, which is date-descending and holds every row |
| `TransactionRepository.TransactionRepository.GetTransactionsByType` | MyMoneyNotes/app/src/main/java/ppb/iftala/ets/mymoneynotes/data/repository/TransactionRepository.kt:16-18 | exactly the DAO's filtered list: date-descending, the rows of that type only |
| `TransactionRepository.TransactionRepository.GetTotalByType` | MyMoneyNotes/app/src/main/java/ppb/iftala/ets/mymoneynotes/data/repository/TransactionRepository.kt:20-22 | exactly the DAO's nullable total; still null when no row has the type |
| `TransactionRepository.TransactionRepository.InsertTransaction` | MyMoneyNotes/app/src/main/java/ppb/iftala/ets/mymoneynotes/data/repository/TransactionRepository.kt:24-26 | the table changes exactly as one DAO insert of the same record changes it |
| `TransactionRepository.TransactionRepository.DeleteTransaction` | MyMoneyNotes/app/src/main/java/ppb/iftala/ets/mymoneynotes/data/repository/TransactionRepository.kt:28-30 | the table changes exactly as one DAO delete of the same record changes it |
| `TransactionViewModel.TransactionViewModel.constructor` | MyMoneyNotes/app/src/main/java/ppb/iftala/ets/mymoneynotes/data/viewmodel/TransactionViewModel.kt:21-31 | initially an empty list and income, expense and balance all 0 |
| `TransactionViewModel.TransactionViewModel.OnTransactions` | MyMoneyNotes/app/src/main/java/ppb/iftala/ets/mymoneynotes/data/viewmodel/TransactionViewModel.kt:39-41 | the cached list is the one just emitted; the totals and balance are untouched |
| `TransactionViewModel.TransactionViewModel.OnIncomeTotal` | MyMoneyNotes/app/src/main/java/ppb/iftala/ets/mymoneynotes/data/viewmodel/TransactionViewModel.kt:45-48 | income becomes the emitted total, or 0 when it is null; expense is untouched; balance is income minus expense |
| `TransactionViewModel.TransactionViewModel.OnExpenseTotal` | MyMoneyNotes/app/src/main/java/ppb/iftala/ets/mymoneynotes/data/viewmodel/TransactionViewModel.kt:52-55 | expense becomes the emitted total, or 0 when it is null; income is untouched; balance is income minus expense |
| `TransactionViewModel.TransactionViewModel.CalculateBalance` | MyMoneyNotes/app/src/main/java/ppb/iftala/ets/mymoneynotes/data/viewmodel/TransactionViewModel.kt:59-61 | balance is income minus expense; nothing else changes |
| `TransactionViewModel.TransactionViewModel.Sync` | MyMoneyNotes/app/src/main/java/ppb/iftala/ets/mymoneynotes/data/viewmodel/TransactionViewModel.kt:37-57 | after all three collectors receive the current query values: the list is the table sorted by date descending, each total is the sum of that type's amounts, and the balance is their difference |
| `TransactionViewModel.TransactionViewModel.AddTransaction` | MyMoneyNotes/app/src/main/java/ppb/iftala/ets/mymoneynotes/data/viewmodel/TransactionViewModel.kt:63-81 | one insert of a record with an unset key and exactly the given type, category, amount, date and note; the note defaults to empty |
| `TransactionViewModel.TransactionViewModel.DeleteTransaction` | MyMoneyNotes/app/src/main/java/ppb/iftala/ets/mymoneynotes/data/viewmodel/TransactionViewModel.kt:83-87 | one delete of the given record through the repository |
| `TransactionViewModel.GetCategoryList` | MyMoneyNotes/app/src/main/java/ppb/iftala/ets/mymoneynotes/data/viewmodel/TransactionViewModel.kt:89-99 | 6 income and 8 expense categories, each list ending in "Lainnya", no duplicates, none starting with whitespace |
| `TransactionViewModel.CategoriesAreNotBlank` | MyMoneyNotes/app/src/main/java/ppb/iftala/ets/mymoneynotes/data/viewmodel/TransactionViewModel.kt:89-99 | no offered category is blank |
| `TransactionViewModel.EmissionsInEitherOrder` | MyMoneyNotes/app/src/main/java/ppb/iftala/ets/mymoneynotes/data/viewmodel/TransactionViewModel.kt:44-61 | one income emission `i` and one expense emission `e`, in either order, leave the balance `(i ?: 0) - (e ?: 0)` |
| `TransactionViewModel.SalaryThenExpenseThenDelete` | MyMoneyNotes/app/src/main/java/ppb/iftala/ets/mymoneynotes/data/viewmodel/TransactionViewModel.kt:37-87 | a salary of 5000000 followed by a later expense of 50000 lists the expense first with balance 4950000; deleting the expense brings the expense total to 0 and the balance to 5000000 |
| `AddTransactionScreen.AddTransactionForm.constructor` | MyMoneyNotes/app/src/main/java/ppb/iftala/ets/mymoneynotes/ui/screens/AddTransactionScreen.kt:49-53 | the form starts as type EXPENSE, menu closed, with empty category, amount and note |
| `AddTransactionScreen.AddTransactionForm.Recompose` | MyMoneyNotes/app/src/main/java/ppb/iftala/ets/mymoneynotes/ui/screens/AddTransactionScreen.kt:55-59 | an empty category becomes the first category of the selected type; otherwise nothing changes |
| `AddTransactionScreen.AddTransactionForm.OnTypeSelected` | MyMoneyNotes/app/src/main/java/ppb/iftala/ets/mymoneynotes/ui/screens/AddTransactionScreen.kt:96-110 | the type is set and the category reset to that type's first category; the other fields are untouched |
| `AddTransactionScreen.AddTransactionForm.OnExpandedChange` | MyMoneyNotes/app/src/main/java/ppb/iftala/ets/mymoneynotes/ui/screens/AddTransactionScreen.kt:131 | the menu's open flag is set to the requested value |
| `AddTransactionScreen.AddTransactionForm.OnDismissRequest` | MyMoneyNotes/app/src/main/java/ppb/iftala/ets/mymoneynotes/ui/screens/AddTransactionScreen.kt:146 | the menu closes |
| `AddTransactionScreen.AddTransactionForm.OnCategoryPicked` | MyMoneyNotes/app/src/main/java/ppb/iftala/ets/mymoneynotes/ui/screens/AddTransactionScreen.kt:151-154 | the category becomes the picked entry and the menu closes |
| `AddTransactionScreen.AmountAccepted` | MyMoneyNotes/app/src/main/java/ppb/iftala/ets/mymoneynotes/ui/screens/AddTransactionScreen.kt:175 | an edit is taken exactly when it is empty or consists only of ASCII digits and '.' |
| `AddTransactionScreen.AddTransactionForm.OnAmountChange` | MyMoneyNotes/app/src/main/java/ppb/iftala/ets/mymoneynotes/ui/screens/AddTransactionScreen.kt:173-177 | an edit that is empty or only ASCII digits and '.' is taken; any other leaves the amount unchanged; the amount always holds only ASCII digits and '.' |
| `AddTransactionScreen.AddTransactionForm.OnNoteChange` | MyMoneyNotes/app/src/main/java/ppb/iftala/ets/mymoneynotes/ui/screens/AddTransactionScreen.kt:197 | the note takes every edit |
| `AddTransactionScreen.FilteredAmountBlankIffEmpty` | MyMoneyNotes/app/src/main/java/ppb/iftala/ets/mymoneynotes/ui/screens/AddTransactionScreen.kt:173-177 | for filtered amount text, blank means empty |
| `AddTransactionScreen.AddTransactionForm.SaveEnabled` | MyMoneyNotes/app/src/main/java/ppb/iftala/ets/mymoneynotes/ui/screens/AddTransactionScreen.kt:219 | the button is enabled exactly when neither the amount nor the category is blank; for a listed category this is "the amount is non-empty" |
| `AddTransactionScreen.SaveEnabledIffAmountTyped` | MyMoneyNotes/app/src/main/java/ppb/iftala/ets/mymoneynotes/ui/screens/AddTransactionScreen.kt:219 | with a category from the list, the save button is enabled exactly when the amount is non-empty |
| `AddTransactionScreen.AddTransactionForm.OnSaveClick` | MyMoneyNotes/app/src/main/java/ppb/iftala/ets/mymoneynotes/ui/screens/AddTransactionScreen.kt:206-216 | with a blank amount nothing happens. Otherwise exactly one insert of a record with the current type, category, converted amount, date `now` and note, then navigation back. When the conversion throws, no insert and no navigation |
| `StarbucksCart.InCart` | starbucks/app/src/main/java/ppb/iftala/starbucks/MainActivity.kt:130 | `find` on the id succeeds exactly when some entry, at some index, carries that id |
| `StarbucksCart.Increment` | starbucks/app/src/main/java/ppb/iftala/starbucks/MainActivity.kt:132-136 | same length and items; only the entries with that id gain one |
| `StarbucksCart.SetQuantity` | starbucks/app/src/main/java/ppb/iftala/starbucks/MainActivity.kt:162-166 | same length and items; only the entries with that id take the new quantity |
| `StarbucksCart.RemoveItem` | starbucks/app/src/main/java/ppb/iftala/starbucks/MainActivity.kt:168 | the entries left are exactly those with another id |
| `StarbucksCart.RemoveItemKeepsOrder` | starbucks/app/src/main/java/ppb/iftala/starbucks/MainActivity.kt:168 | removal keeps the order of the other entries |
| `StarbucksCart.RemoveItemKeepsOneEntryPerId` | starbucks/app/src/main/java/ppb/iftala/starbucks/MainActivity.kt:168 | removal keeps one entry per id |
| `StarbucksCart.AddToCart` | starbucks/app/src/main/java/ppb/iftala/starbucks/MainActivity.kt:129-139 | an id already in the cart gains exactly one, with the length and all other entries unchanged; a new id is appended with quantity 1 |
| `StarbucksCart.UpdateQuantity` | starbucks/app/src/main/java/ppb/iftala/starbucks/MainActivity.kt:160-169 | a positive quantity sets only the matching entry, keeping order and length; zero or less removes every entry with that id and keeps the rest |
| `StarbucksCart.AddToCartKeepsWellFormed` | starbucks/app/src/main/java/ppb/iftala/starbucks/MainActivity.kt:129-139 | adding keeps one entry per id and every quantity at least 1 |
| `StarbucksCart.UpdateQuantityKeepsWellFormed` | starbucks/app/src/main/java/ppb/iftala/starbucks/MainActivity.kt:160-169 | updating keeps one entry per id and every quantity at least 1 |
| `StarbucksCart.DecreaseFromOneRemoves` | starbucks/app/src/main/java/ppb/iftala/starbucks/MainActivity.kt:766 | decreasing an entry of quantity 1 removes it and keeps every other entry |
| `StarbucksCart.CartTotal` | starbucks/app/src/main/java/ppb/iftala/starbucks/MainActivity.kt:329 | 0 for an empty cart, and one entry's price times its quantity for a single entry; `CartTotalAppend` extends this to any cart |
| `StarbucksCart.CartTotalAppend` | starbucks/app/src/main/java/ppb/iftala/starbucks/MainActivity.kt:329 | the total of a concatenation is the sum of the totals (the total of no entries is 0) |
| `StarbucksCart.IncrementTotal` | starbucks/app/src/main/java/ppb/iftala/starbucks/MainActivity.kt:132-136 | adding one to the entries of an id raises the total by the summed price of those entries |
| `StarbucksCart.SetQuantityTotal` | starbucks/app/src/main/java/ppb/iftala/starbucks/MainActivity.kt:162-166 | setting the quantity of an id replaces those entries' line total with the new quantity times their summed price |
| `StarbucksCart.RemoveItemTotal` | starbucks/app/src/main/java/ppb/iftala/starbucks/MainActivity.kt:168 | removing an id lowers the total by exactly that id's line total |
| `StarbucksCart.CartTotalNonNegative` | starbucks/app/src/main/java/ppb/iftala/starbucks/MainActivity.kt:329 | with no negative prices or quantities the total is not negative |
| `StarbucksCart.AddToCartRaisesTotalByPrice` | starbucks/app/src/main/java/ppb/iftala/starbucks/MainActivity.kt:129-139 | in a cart with one entry per id, where any entry with the item's id holds that same item, adding the item raises the total by exactly its price |
| `StarbucksCart.UpdateQuantityChangesTotal` | starbucks/app/src/main/java/ppb/iftala/starbucks/MainActivity.kt:160-169 | updating replaces the entry's line total with price times the new quantity, or removes it when the quantity is not positive |
| `StarbucksCart.FilterByCategory` | starbucks/app/src/main/java/ppb/iftala/starbucks/MainActivity.kt:283 | exactly the items of that category |
| `StarbucksCart.FilterByCategoryKeepsOrder` | starbucks/app/src/main/java/ppb/iftala/starbucks/MainActivity.kt:283 | the category filter keeps menu order |
| `StarbucksCart.FilterMenu` | starbucks/app/src/main/java/ppb/iftala/starbucks/MainActivity.kt:280-284 | "All" gives the whole menu; any other category gives exactly the items of that category |
| `StarbucksCart.MenuCategories` | starbucks/app/src/main/java/ppb/iftala/starbucks/MainActivity.kt:277 | five distinct chips, "All" first, then the four product categories |
| `StarbucksCart.SampleMenuItems` | starbucks/app/src/main/java/ppb/iftala/starbucks/MainActivity.kt:841-854 | ten items with ids 1 to 10 in order, positive prices, each in one of the four menu categories |
| `StarbucksCart.StarbucksApp.constructor` | starbucks/app/src/main/java/ppb/iftala/starbucks/MainActivity.kt:64-65 | the first tab is selected and the cart is empty |
| `StarbucksCart.StarbucksApp.OnTabSelected` | starbucks/app/src/main/java/ppb/iftala/starbucks/MainActivity.kt:120 | the tab index is set; the cart is untouched |
| `StarbucksCart.StarbucksApp.OnAddToCart` | starbucks/app/src/main/java/ppb/iftala/starbucks/MainActivity.kt:129-155 | the cart becomes `AddToCart` of the old cart and stays well formed |
| `StarbucksCart.StarbucksApp.OnUpdateQuantity` | starbucks/app/src/main/java/ppb/iftala/starbucks/MainActivity.kt:160-169 | the cart becomes `UpdateQuantity` of the old cart and stays well formed |
| `StarbucksCart.StarbucksApp.TotalPrice` | starbucks/app/src/main/java/ppb/iftala/starbucks/MainActivity.kt:329 | the sum of price times quantity over the cart (`CartTotal`): 0 for an empty cart, and never negative in a well-formed cart of non-negative prices |
| `StarbucksCart.MenuScreen.constructor` | starbucks/app/src/main/java/ppb/iftala/starbucks/MainActivity.kt:276 | the menu screen starts on "All" |
| `StarbucksCart.MenuScreen.OnCategoryChipClick` | starbucks/app/src/main/java/ppb/iftala/starbucks/MainActivity.kt:301 | the chip's category becomes the selection |
| `StarbucksCart.MenuScreen.FilteredItems` | starbucks/app/src/main/java/ppb/iftala/starbucks/MainActivity.kt:278-284 | the whole sample menu on "All"; otherwise exactly the sample menu items of the selected category |
| `DiceRoller.NextHistory` | DiceRoller/app/src/main/java/ppb/iftala/diceroller/MainActivity.kt:100-103 | below 10 entries a roll is appended; at 10 the oldest is dropped (`old[1..] + [v]`); the length stays at most 10 and the last entry is the roll |
| `DiceRoller.LastRolls` | DiceRoller/app/src/main/java/ppb/iftala/diceroller/MainActivity.kt:98-103 | the last `min(n, 10)` of `n` rolls, in roll order |
| `DiceRoller.NextHistoryKeepsLastRolls` | DiceRoller/app/src/main/java/ppb/iftala/diceroller/MainActivity.kt:98-103 | recording a roll in the history of the earlier rolls gives the history of all the rolls |
| `DiceRoller.GetDiceImageResource` | DiceRoller/app/src/main/java/ppb/iftala/diceroller/MainActivity.kt:176-185 | 1 to 6 each show the face with that many pips; every value outside 1..5 shows the six |
| `DiceRoller.FaceValue` | DiceRoller/app/src/main/java/ppb/iftala/diceroller/MainActivity.kt:176-185 | every face shows between 1 and 6 pips |
| `DiceRoller.EveryFaceShownForItsValue` | DiceRoller/app/src/main/java/ppb/iftala/diceroller/MainActivity.kt:176-185 | each face is the picture of its own pip count |
| `DiceRoller.DiceRollerApp.constructor` | DiceRoller/app/src/main/java/ppb/iftala/diceroller/MainActivity.kt:62-64 | showing 1, not rolling, empty history |
| `DiceRoller.DiceRollerApp.OnRollStart` | DiceRoller/app/src/main/java/ppb/iftala/diceroller/MainActivity.kt:97 | the rolling flag is raised; value and history are untouched |
| `DiceRoller.DiceRollerApp.OnNewValue` | DiceRoller/app/src/main/java/ppb/iftala/diceroller/MainActivity.kt:98-103 | the value is shown and recorded: the history is `NextHistory` of the old one and the last ten of all rolls |
| `DiceRoller.DiceRollerApp.RollDice` | DiceRoller/app/src/main/java/ppb/iftala/diceroller/MainActivity.kt:170-174 | the roll-start callback runs, then the new-value callback with the drawn value in 1..6; the picture shown has that many pips |
| `LoginForm.IsValidEmail` | loginform/app/src/main/java/ppb/iftala/loginform/ui/theme/Login.kt:126-128 | valid implies non-empty and matched by the platform pattern; an empty text is never valid |
| `LoginForm.EmptyEmailIsNeverValid` | loginform/app/src/main/java/ppb/iftala/loginform/ui/theme/Login.kt:126-128 | an empty e-mail is never valid, whatever the pattern |
| `LoginForm.LoginScreen.constructor` | loginform/app/src/main/java/ppb/iftala/loginform/ui/theme/Login.kt:19-22 | both fields empty and both error flags clear |
| `LoginForm.LoginScreen.OnEmailChange` | loginform/app/src/main/java/ppb/iftala/loginform/ui/theme/Login.kt:41-44 | the e-mail is set and its flag cleared; the password and its flag are untouched |
| `LoginForm.LoginScreen.OnPasswordChange` | loginform/app/src/main/java/ppb/iftala/loginform/ui/theme/Login.kt:69-72 | the password is set and its flag cleared; the e-mail and its flag are untouched |
| `LoginForm.LoginScreen.OnLoginClick` | loginform/app/src/main/java/ppb/iftala/loginform/ui/theme/Login.kt:107-115 | the e-mail flag is "not a valid e-mail", the password flag is "password empty", and the callback runs with both fields exactly when both flags are clear |
| `LoginForm.TypeAndLogin` | loginform/app/src/main/java/ppb/iftala/loginform/ui/theme/Login.kt:41-115 | typing an e-mail and a password and pressing login calls back exactly when the e-mail is valid and the password non-empty |

## Left out

- Coroutines, `StateFlow`, `collect` and any interleaving of the three collectors. Each emission is a sequential call, so the torn reads that two concurrent total collectors could produce are not modelled.
- Room, SQLite, durability, the date type converter, the database name and the dependency-injection wiring: foreign libraries and I/O. The database class and the DI module are not part of this model.
- Floating point. Amounts and prices are integers in minor units of currency, so the sample menu's 3.45 is 345. There is no Double arithmetic, no `"%.2f"` formatting, and no Calculator or MoneyExchanger app.
- The amount's text-to-number conversion is the constructor parameter `toDouble`. Its `None` result stands for the exception it throws, for example on `"."` or `"1.2.3"`, which the filter lets through. The exception is not caught inside the save button's `onClick`, so the app crashes there; `ConversionFailed` only records that neither the insert nor the navigation happened, not that anything handles the error.
- `TransactionViewModel.TransactionViewModel.AddTransaction`: the `date` parameter has no default. Kotlin's default is `Date()`, the clock; its only caller passes a date, so the model takes the date as an argument.
- `TransactionDAO.SortByDateDesc`: ties in date are ordered one particular way. The contract states only what SQL promises: sorted by date descending, and a permutation.
- `TransactionDAO.Upsert`: a new key is appended to the row list. SQLite's rowid order differs when explicit keys arrive out of order, which affects only the unspecified order of equal dates.
- `AddTransactionScreen.AmountAccepted`: only the ASCII digits '0'..'9' count as digits, so an edit such as "\U{0661}" (Arabic-Indic one) is rejected here while Kotlin's `isDigit` accepts it. The model leaves out Unicode's other decimal-digit ranges.
- `AddTransactionScreen.AddTransactionForm.OnAmountChange`: only the ASCII digits count as digits, through `AmountAccepted`. Kotlin's `isDigit` also accepts the other Unicode decimal digits.
- `StarbucksCart.Increment`: the increment never wraps. Kotlin's `quantity + 1` on an `Int` takes 2147483647 to -2147483648; the model gives 2147483648.
- `StarbucksCart.AddToCart`: quantities are unbounded, through `Increment`. Kotlin's `Int` would wrap after 2147483647 increments of one entry.
- Randomness and animation. `(1..6).random()` is the `value` parameter of `RollDice`. The rotation animation and its finish listener, which clears the rolling flag, are not modelled.
- The platform e-mail pattern is the uninterpreted `emailPattern` predicate. The toasts shown around the login screen are left out.
- Navigation is the `SavedAndNavigatedBack` outcome of the save handler; the navigation back stack is not modelled.
- Layout, theming, chart rendering, and currency and date formatting. Also the home screen's `take(3)` and `take(5)` slices of the sample menu, the profile screen, the image list app and the greeting app.
- Build configuration.
