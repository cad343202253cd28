# Finance Flow — a verified model of the ledger, the stores and the pages

Finance Flow is a personal-finance web application. A signed-in user keeps
wallets, which are either personal or custodial (money held for someone
else). They also keep income and expense categories and a list of
transactions: income, expense, transfer between wallets, and opening balance.

The application computes a number of things from that data:
- a wallet's balance, by replaying the transactions;
- income and expense totals for a period, over the personal wallets only;
- a per-category breakdown sorted by total;
- the home page's bank/cash/custodial split;
- the analytics page's burn rate, projection and category shares;
- the transaction list filtered by period and type and grouped by day.

Four stores hold the state: wallets, categories, transactions, and the
signed-in user with their preferences. The pages call the stores, and the
stores call a document-store gateway and an identity provider.

This project models that core in Dafny. Each module follows one source file.

**Pure logic: datatypes, functions and lemmas.**
- `Ledger`: balances, period totals and the detail join.
- `Breakdown`: the category breakdown.
- `DateUtils`, `Currency`, `Text` (`trim`), `Theme` and `RouteGuard`.
- The form logic of `TransactionForm`, `WalletForm` and `CategoryForm`.
- The derived values of `Home`, `Analytics`, `TransactionsPage`, `WalletsPage`, `CategoriesPage`, `Signup` and `Settings`.

**State that changes in place: classes.**
- The four stores: `WalletStore.Store`, `CategoryStore.Store`, `TransactionStore.Store` and `AuthStore.Store`.
- The per-user document collections: `DataService.UserDocuments`.
- The onboarding flow: `Onboarding.Flow`.
- The settings page: `Settings.Page`.

Their methods carry `modifies` clauses and state the whole new state.

**Loops become methods.** The source's loops are methods with loop invariants, each proved equal to a specification function:
- the balance replay (`Ledger.WalletBalance`);
- the breakdown's two `forEach` passes (`Breakdown.ByCategory`);
- the home page's bank/cash loop (`Home.PersonalSums`);
- the day grouping (`TransactionsPage.GroupedTransactions`);
- the default-category batch (`DataService.UserDocuments.AddDefaultCategories`).

**Calls the model cannot see become parameters.** The document store, the identity provider, `Date.now()` and `confirm()` are all parameters. A call's result is:
- `Result<T>` (a value or a failure message);
- `Outcome` (passed or failed with a message);
- `AuthStore.Call<T>` (returned, or threw an error with a code and a message).

**Representations**
- Amounts are `real`.
- Times are integer milliseconds since the epoch.
- `parseFloat` results are `Option<real>`, with `None` standing for NaN.
- A JavaScript `Map`, which iterates in insertion order, is the sequence of entries in `OrderedMap`.

**Behaviours the code shows, and the model proves**
- The settings page reads an absent `darkMode` key as dark (`?? true`). The application theme reads the same absent key as light (`preferences?.darkMode ? 'dark' : 'light'`). So a user without the key sees the switch on while the page is light, and the first toggle writes `false`. `Settings.DarkModeDefaultsDisagree` states all of this.
- The settings page falls back to INR only for an absent currency (`??`). The other pages use `||`, so an empty code falls back there too.
- A wallet's balance is computed by replaying the transactions, and the code adds the amount to a transfer's destination wallet. An expense or an income is charged to its own wallet even when it carries a destination. A transfer from a wallet to itself leaves that wallet unchanged.
- The category breakdown silently drops two kinds of transaction: those without a category id, and those whose category no longer exists. `Breakdown.BreakdownAccounting` states exactly what the breakdown leaves out of the period total.
- Grouping the transaction list by day gives back the list when each day's transactions are adjacent, as they are in a date-ordered list. `TransactionsPage.GroupsReproduceList` proves this under that condition. When a day's transactions are not adjacent, its later ones are pulled forward into that day's group.

## Model

| member | source | states |
|---|---|---|
| Types.MergeWallet | src/stores/walletStore.ts:53-57 | the `{ ...w, ...data }` merge keeps the id; each key present in the update (name, type, icon, default flag, creation time) takes the update's value, and each absent key keeps the wallet's |
| Types.MergeIdempotent | src/stores/walletStore.ts:53-57 | applying the same update a second time to a wallet, category or transaction changes nothing more |
| Types.MergeCategory | src/stores/categoryStore.ts:54-58 | the merge keeps the id; each key present in the update (name, type, icon, colour, budget even when `undefined`, default flag, creation time) takes the update's value, and each absent key keeps the category's |
| Types.MergeTransaction | src/stores/transactionStore.ts:65-69 | the merge keeps the id; each of the nine other keys takes the update's value when present (an optional key even when `undefined`) and keeps the transaction's when absent |
| Types.OverlayPreferences | src/stores/authStore.ts:156 | `{ ...preferences, ...prefs }`: a key present in the update wins; every other key keeps its old value |
| Types.OverlayLaws | src/stores/authStore.ts:156 | spreading over nothing yields the update; an empty update changes nothing; applying the same update twice equals applying it once |
| Types.DraftAsPatch | src/pages/AddEditTransaction.tsx:146-163 | an update carrying every field of a record turns any transaction into that record under its own id |
| Types.OrElse | src/pages/AddEditTransaction.tsx:170 | `message \|\| fallback`: the message when it is non-empty, else the fallback |
| Seqs.Filter | src/stores/walletStore.ts:76-82 | `Array.filter`: the result is a subsequence holding exactly the elements that pass |
| Seqs.FilterPartition | src/stores/walletStore.ts:76-82 | two complementary filters split a list: their multisets add up to the list's |
| Seqs.FindFirst | src/stores/walletStore.ts:84-86 | `Array.find`: the first element with the key, or none exactly when no element has it |
| Seqs.WithoutKey | src/stores/walletStore.ts:67 | `filter(x => x.id !== id)`: no element with the key is left, and every other element stays, in order |
| Seqs.UpdateWhere | src/stores/walletStore.ts:54-56 | `map(x => x.id === id ? merge : x)`: same length; matching elements are merged, the others untouched |
| Seqs.FilterWithoutKey | src/pages/Wallets.tsx:138 | removing a key that no element passing the filter carries leaves the filtered list as it was |
| OrderedMap.UpsertGet | src/stores/transactionStore.ts:184-187 | `map.set(k, f(map.get(k) \|\| init))` changes the value of `k` only, from `init` when absent |
| OrderedMap.UpsertKeys | src/stores/transactionStore.ts:184-187 | after an upsert the keys are the old keys, plus `k` at the end when it was new |
| OrderedMap.UpsertDistinct | src/stores/transactionStore.ts:184-187 | an upsert keeps the keys distinct |
| WalletStore.Store.constructor | src/stores/walletStore.ts:21-26 | the store starts with no wallets, not loading and without an error |
| WalletStore.Store.LoadWallets | src/stores/walletStore.ts:28-36 | a fetched list replaces the wallets and clears the error; a failure keeps them and records the message; loading ends either way |
| WalletStore.Store.AddWallet | src/stores/walletStore.ts:38-48 | on success the new wallet, under the returned id, is appended at the end; on failure the list is kept and the error recorded and rethrown |
| WalletStore.Store.UpdateWallet | src/stores/walletStore.ts:50-62 | on success every wallet with that id is merged with the update, the rest unchanged; on failure nothing changes but the error |
| WalletStore.Store.DeleteWallet | src/stores/walletStore.ts:64-72 | on success every wallet with that id is removed, the rest kept in order; on failure nothing changes but the error |
| WalletStore.Store.ClearWallets | src/stores/walletStore.ts:74 | the list becomes empty and nothing else changes |
| WalletStore.Store.PersonalWallets | src/stores/walletStore.ts:76-78 | exactly the personal wallets of the list |
| WalletStore.Store.CustodialWallets | src/stores/walletStore.ts:80-82 | exactly the custodial wallets of the list |
| WalletStore.Store.WalletById | src/stores/walletStore.ts:84-86 | the first wallet with that id in the list, or none exactly when no wallet has it |
| WalletStore.WalletKindsPartition | src/stores/walletStore.ts:76-82 | the personal and custodial lists together hold every wallet exactly once |
| WalletStore.AddThenDeleteRestores | src/stores/walletStore.ts:38-72 | deleting a wallet just added under a fresh id gives back the previous list |
| CategoryStore.Store.constructor | src/stores/categoryStore.ts:22-27 | the store starts empty, not loading and without an error |
| CategoryStore.Store.LoadCategories | src/stores/categoryStore.ts:29-37 | a fetched list replaces the categories and clears the error; a failure keeps them and records the message |
| CategoryStore.Store.AddCategory | src/stores/categoryStore.ts:39-49 | on success the new category is appended under the returned id; on failure the error is recorded and rethrown |
| CategoryStore.Store.UpdateCategory | src/stores/categoryStore.ts:51-63 | on success every category with that id is merged with the update; on failure only the error changes |
| CategoryStore.Store.DeleteCategory | src/stores/categoryStore.ts:65-73 | on success every category with that id is removed, the rest kept in order; on failure only the error changes |
| CategoryStore.Store.InitializeDefaultCategories | src/stores/categoryStore.ts:75-83 | a failed seed records the error and leaves the list; a successful seed reloads the list, and a failed reload is recorded but does not fail the action |
| CategoryStore.Store.ClearCategories | src/stores/categoryStore.ts:85 | the list becomes empty and nothing else changes |
| CategoryStore.Store.ExpenseCategories | src/stores/categoryStore.ts:87-89 | exactly the expense categories of the list |
| CategoryStore.Store.IncomeCategories | src/stores/categoryStore.ts:91-93 | exactly the income categories of the list |
| CategoryStore.Store.CategoryById | src/stores/categoryStore.ts:95-97 | the first category with that id in the list, or none exactly when no category has it |
| CategoryStore.CategoryKindsPartition | src/stores/categoryStore.ts:87-93 | the expense and income lists together hold every category exactly once |
| CategoryStore.AddThenDeleteRestores | src/stores/categoryStore.ts:39-73 | deleting a category just added under a fresh id gives back the previous list |
| TransactionStore.Store.constructor | src/stores/transactionStore.ts:32-37 | the store starts empty, not loading and without an error |
| TransactionStore.Store.LoadTransactions | src/stores/transactionStore.ts:40-48 | a fetched list replaces the transactions and clears the error; a failure keeps them and records the message |
| TransactionStore.Store.AddTransaction | src/stores/transactionStore.ts:50-60 | on success the new transaction is put at the FRONT of the list; on failure the error is recorded and rethrown |
| TransactionStore.Store.UpdateTransaction | src/stores/transactionStore.ts:62-74 | on success every transaction with that id is merged with the update, in place; on failure only the error changes |
| TransactionStore.Store.DeleteTransaction | src/stores/transactionStore.ts:76-84 | on success every transaction with that id is removed, the rest kept in order; on failure only the error changes |
| TransactionStore.Store.ClearTransactions | src/stores/transactionStore.ts:86 | the list becomes empty and nothing else changes |
| TransactionStore.AddedTransactionBalance | src/stores/transactionStore.ts:54 | adding a transaction moves every wallet's balance by exactly that transaction's contribution to it |
| TransactionStore.AddThenDeleteRestores | src/stores/transactionStore.ts:50-84 | deleting a transaction just added under a fresh id gives back the previous list |
| Ledger.WalletBalance | src/stores/transactionStore.ts:112-134 | the source's loop computes the balance: income and opening balances add to the source wallet, expenses and outgoing transfers subtract, and a transfer adds to its destination |
| Ledger.BalanceConcat | src/stores/transactionStore.ts:112-134 | the balance over a concatenated list is the sum of the balances over the two parts |
| Ledger.BalanceOfUntouchedWallet | src/stores/transactionStore.ts:112-134 | a wallet no transaction touches, unknown ids included, has balance 0 |
| Ledger.TransferConservation | src/stores/transactionStore.ts:117-130 | a transfer between two different wallets moves its amount from one to the other, leaves every other wallet alone and conserves their sum |
| Ledger.SelfTransferAndStrayDestination | src/stores/transactionStore.ts:117-130 | a self-transfer leaves its wallet unchanged; a non-transfer's stray destination gains nothing |
| Ledger.ReversingPair | src/stores/transactionStore.ts:117-126 | an income followed by an expense of the same amount on the same wallet returns every balance to its previous value |
| Ledger.PersonalWalletIds | src/stores/transactionStore.ts:137-140 | the ids collected are exactly those of the personal wallets |
| Ledger.PeriodSumConcat | src/stores/transactionStore.ts:136-166 | a period total over a concatenated list is the sum of the two parts' totals |
| Ledger.PeriodSumOfInserted | src/stores/transactionStore.ts:141-149 | inserting a transaction changes a period total by its amount exactly when it has the right type, a personal wallet and a date inside the closed range |
| Ledger.PeriodSumWithoutMatches | src/stores/transactionStore.ts:141-149 | with no matching transaction the total is 0 |
| Ledger.CustodialWalletExcluded | src/stores/transactionStore.ts:137-140 | an id carried only by custodial wallets never reaches a period total |
| Ledger.PeriodSumNonNegative | src/stores/transactionStore.ts:136-166 | with non-negative amounts a period total is non-negative |
| Ledger.WalletName | src/stores/transactionStore.ts:98 | `wallet?.name \|\| 'Unknown'`: never empty; 'Unknown' when the wallet is missing, its name otherwise (when non-empty) |
| Ledger.ResolveWallet | src/stores/transactionStore.ts:93 | for a truthy id, the first wallet carrying it; none exactly when the id is falsy or no wallet carries it |
| Ledger.ResolveCategory | src/stores/transactionStore.ts:94 | for a truthy id, the first category carrying it; none exactly when the id is falsy or no category carries it |
| Ledger.Detail | src/stores/transactionStore.ts:90-104 | the join keeps the transaction, shows `wallet?.name \|\| 'Unknown'` for its wallet, the resolved destination wallet's name, and the resolved category's name, icon and colour, each absent exactly when the lookup finds nothing |
| Ledger.DetailShowsReferencedRecords | src/stores/transactionStore.ts:88-105 | with unique ids, each joined entry shows the name of the wallet its transaction names (when non-empty), its destination wallet's name, and its category's name, icon and colour |
| Ledger.TransactionsWithDetails | src/stores/transactionStore.ts:88-105 | one joined entry per transaction, in the same order |
| Ledger.RecentTransactions | src/stores/transactionStore.ts:107-110 | the first `limit` joined entries, or all of them when there are fewer |
| Ledger.OpeningBalanceThenTransfer | src/stores/transactionStore.ts:112-134 | a worked example: an opening balance then a transfer give the expected balances |
| Breakdown.InsertByTotal | src/stores/transactionStore.ts:203 | one insertion step of the stable sort keeps the rows (as a multiset) and their sum |
| Breakdown.InsertKeepsSorted | src/stores/transactionStore.ts:203 | inserting into a list sorted by descending total keeps it sorted |
| Breakdown.SortByTotalDesc | src/stores/transactionStore.ts:203 | `sort((a, b) => b.total - a.total)`: a permutation of its input, sorted by descending total, with the same sum |
| Breakdown.ByCategory | src/stores/transactionStore.ts:168-204 | the two loops compute the specified breakdown, which is sorted by descending total |
| Breakdown.ExpenseByCategory | src/stores/transactionStore.ts:168-204 | `getExpenseByCategory` is the breakdown over expenses |
| Breakdown.IncomeByCategory | src/stores/transactionStore.ts:206-242 | `getIncomeByCategory` is the breakdown over income |
| Breakdown.AddToGroupsTotal | src/stores/transactionStore.ts:184-187 | adding an amount to one category's running total changes that total only |
| Breakdown.ResolvedRowsLabelled | src/stores/transactionStore.ts:189-201 | every row of the join carries the name, colour, icon and budget of the category that its entry's id finds, and that entry's total |
| Breakdown.BreakdownRowsLabelled | src/stores/transactionStore.ts:168-204 | every row of the sorted breakdown is labelled by the category of one of the map's entries, with that entry's total |
| Breakdown.CategoryGroupsSpec | src/stores/transactionStore.ts:176-187 | the map has one entry per category id: an id is a key iff some counted transaction is filed under it, and its value is that category's sum |
| Breakdown.ResolveGroupsConcat | src/stores/transactionStore.ts:189-201 | resolving the entries distributes over concatenation |
| Breakdown.BreakdownAccounting | src/stores/transactionStore.ts:168-204 | the breakdown's rows plus the transactions it drops (no category, or one that no longer exists) make up the period total exactly |
| Breakdown.UnattributedZero | src/stores/transactionStore.ts:176-201 | when every matching transaction has a category that exists, nothing is dropped |
| Breakdown.BreakdownAtMostPeriodTotal | src/stores/transactionStore.ts:168-204 | with non-negative amounts the breakdown never exceeds the period total |
| Breakdown.BreakdownMatchesPeriodTotal | src/stores/transactionStore.ts:168-204 | when every matching transaction's category exists, the breakdown adds up to the period total |
| DataService.InsertByDateSorted | src/services/dataService.ts:123 | an insertion step keeps a list ordered by descending date |
| DataService.SortByDateDesc | src/services/dataService.ts:121-126 | `orderBy('date', 'desc')`: a permutation of the transactions, newest first |
| DataService.SortByCreatedAsc | src/services/dataService.ts:31-36 | `orderBy('createdAt', 'asc')`: a permutation of the wallets, oldest first |
| DataService.SortByName | src/services/dataService.ts:57-62 | `orderBy('name', 'asc')`: a permutation of the categories in code-point name order |
| DataService.NameLeTotal | src/services/dataService.ts:59 | the name order is total, so any two names can be placed |
| DataService.SeedDocument | src/services/dataService.ts:112 | a seeded document keeps the seed's name and type, is a default category, has no budget and gets its id |
| DataService.DefaultSeedKinds | src/services/dataService.ts:85-108 | the seed list is the ten expense categories followed by the six income categories |
| DataService.DefaultSeedNames | src/services/dataService.ts:85-106 | within each type no name repeats, and each type ends with "Other" |
| DataService.SeedBatch | src/services/dataService.ts:110-113 | the batch holds one document per seed entry, in order |
| DataService.UserDocuments.constructor | src/services/dataService.ts:19-25 | a new user's collections are empty and there is no preferences document |
| DataService.UserDocuments.GetTransactions | src/services/dataService.ts:121-126 | every stored transaction, newest date first |
| DataService.UserDocuments.GetWallets | src/services/dataService.ts:31-36 | every stored wallet, oldest first |
| DataService.UserDocuments.GetCategories | src/services/dataService.ts:57-62 | every stored category, by name |
| DataService.UserDocuments.AddTransaction | src/services/dataService.ts:128-132 | the transaction is stored under the id the store picks, and nothing else changes |
| DataService.UserDocuments.AddWallet | src/services/dataService.ts:38-42 | the wallet is stored under the id the store picks, and nothing else changes |
| DataService.UserDocuments.AddDefaultCategories | src/services/dataService.ts:80-116 | the loop builds the batch; a committed batch adds exactly the seed documents, and a failed commit adds nothing |
| DataService.UserDocuments.ClearCollection | src/services/dataService.ts:174-178 | one batch empties one collection and leaves the others |
| DataService.UserDocuments.ClearAllUserData | src/services/dataService.ts:169-184 | the three collections, then the preferences, are deleted in order; a failing step stops it, leaving the earlier steps done and the later ones undone |
| DataService.PrefixHoldsLatest | src/services/dataService.ts:123 | the first `n` transactions that `getTransactions` returns are dated no earlier than any stored transaction they leave out |
| DataService.PrependKeepsDateOrder | src/stores/transactionStore.ts:54 | prepending keeps the newest-first order exactly when the new transaction is dated no earlier than the current first |
| AuthStore.AuthErrorMessage | src/stores/authStore.ts:8-28 | never empty; the generic message exactly for unknown codes; the no-account message exactly for the two codes that share it |
| AuthStore.AuthMessagesDistinguishKnownCodes | src/stores/authStore.ts:8-28 | apart from the pair sharing the no-account message, different known codes get different messages |
| AuthStore.ErrorKey | src/stores/authStore.ts:101 | `error.code \|\| error.message`: the code when present, else the message |
| AuthStore.OnboardingPatch | src/stores/authStore.ts:162-164 | the update carries only the onboarding flag |
| AuthStore.Store.constructor | src/stores/authStore.ts:48-53 | the store starts loading and uninitialised, with no user, preferences or error |
| AuthStore.Store.OnAuthStateChanged | src/stores/authStore.ts:55-79 | the store becomes initialised and not loading, with the provider's user; without a user the preferences are cleared, otherwise they are loaded |
| AuthStore.Store.SignUp | src/stores/authStore.ts:81-105 | the user and the default preferences are set only when both the account creation and the preferences write succeed; either failure is shown through the message table and rethrown |
| AuthStore.Store.SignIn | src/stores/authStore.ts:107-125 | on success the user is set and the preferences loaded (a failed load keeps the old ones); a failure is shown through the message table and rethrown |
| AuthStore.Store.SignOut | src/stores/authStore.ts:127-136 | on success the user and preferences are cleared; on failure they are kept and `message \|\| 'Failed to sign out'` is recorded |
| AuthStore.Store.LoadPreferences | src/stores/authStore.ts:138-148 | without a user nothing changes; a successful read replaces the preferences, and a failed one is only logged |
| AuthStore.Store.UpdatePreferences | src/stores/authStore.ts:150-160 | without a user nothing changes; a successful write spreads the update over the preferences; a failure keeps them and records the message or the fallback |
| AuthStore.Store.SetOnboardingCompleted | src/stores/authStore.ts:162-164 | on success the onboarding flag takes the new value and the other keys are kept; a failure keeps the preferences and records the message or the fallback |
| AuthStore.Store.ClearError | src/stores/authStore.ts:166 | the error is cleared and nothing else changes |
| DateUtils.FormatDate | src/utils/dateUtils.ts:15-26 | "Today" exactly on the same day, "Yesterday" exactly on the day before, the date otherwise |
| DateUtils.TimeAgo | src/utils/dateUtils.ts:74-83 | "just now" under a minute; whole minutes, hours, then days within their bounds; from one week on, exactly what `formatDate` shows for the moment |
| DateUtils.DatedIsNeverRecent | src/utils/dateUtils.ts:74-83 | once `timeAgo` falls back to `formatDate`, the label is never "Today" or "Yesterday" |
| DateUtils.MonthName | src/utils/dateUtils.ts:86-92 | the month's name for 0..11 and `undefined` otherwise |
| DateUtils.DaysInMonth | src/utils/dateUtils.ts:68-71 | 28 to 31 days: 29 in a leap February, 28 in another February, 30 in April, June, September and November |
| DateUtils.YearLength | src/utils/dateUtils.ts:68-71 | the month lengths add up to 365 days, or 366 in a leap year |
| DateUtils.YearAndOffset | src/utils/dateUtils.ts:63-71 | a day count from the start of a year lands in one year at a 0-based offset smaller than that year's length, preserving the absolute day |
| DateUtils.MonthAndDay | src/utils/dateUtils.ts:63-71 | an offset into a year becomes a valid month and 1-based day whose days-before-month plus day give back the offset |
| DateUtils.CivilOf | src/utils/dateUtils.ts:63-71 | the calendar date of a moment is a valid date, and converting it back to a day count gives the moment's day |
| DateUtils.EpochIsFirstOfJanuary | src/utils/dateUtils.ts:63-65 | the moment 0 falls on 1 January 1970 |
| DateUtils.DayOfMonth | src/utils/dateUtils.ts:63-65 | `getDate()` of the current moment lies between 1 and the length of its month |
| DateUtils.DaysInCurrentMonth | src/utils/dateUtils.ts:68-71 | the current month has 28 to 31 days, at least as many as the current day of the month |
| DateUtils.MonthRange | src/utils/dateUtils.ts:41-46 | the month range contains the moment, starts at midnight on the first of its month and spans exactly the month's days |
| DateUtils.WeekRange | src/utils/dateUtils.ts:48-53 | the range contains the moment, starts at midnight on a Monday and lasts exactly seven days |
| Currency.ConfigFor | src/utils/currencyFormatter.ts:12 | the configuration of a known code, and INR's for any other |
| Currency.CurrencySymbol | src/utils/currencyFormatter.ts:36-38 | the configured symbol of a known code, and the rupee sign otherwise |
| Currency.SymbolAgreesWithConfig | src/utils/currencyFormatter.ts:12-38 | the compact formatter and the symbol lookup pick the same symbol for every code |
| Currency.CompactCurrency | src/utils/currencyFormatter.ts:22-34 | from ten million: crores; from a hundred thousand: lakhs; from a thousand: thousands; below that, the full format |
| Currency.CompactScaleBounds | src/utils/currencyFormatter.ts:25-31 | a scaled amount is at least 1 and, below the crore scale, under 100 |
| Currency.SupportedMatchesConfig | src/utils/currencyFormatter.ts:3-46 | the picker list and the configuration have the same codes, each once, with the same symbols |
| RouteGuard.ProtectedRoute | src/components/layout/ProtectedRoute.tsx:9-27 | a spinner until the store is initialised and idle, then the login redirect without a user and the page with one |
| RouteGuard.PublicRoute | src/components/layout/ProtectedRoute.tsx:29-52 | a spinner until initialised and idle, then the page without a user; with a user, home if onboarding is completed, onboarding otherwise |
| RouteGuard.GuardsAreComplementary | src/components/layout/ProtectedRoute.tsx:9-52 | once initialised, exactly one of the two guards renders its page |
| Theme.ThemeMode | src/App.tsx:32 | a stored theme mode wins; otherwise dark exactly when the preferences say `darkMode: true` |
| Theme.ResolveTheme | src/App.tsx:30-43 | nothing before initialisation; 'system' follows the operating system; any other mode is dark exactly when it is 'dark' |
| Theme.DarkModeDecides | src/App.tsx:30-43 | without a stored mode the theme is dark exactly when `darkMode` is `true` |
| Text.TrimEmptyIffBlank | src/pages/AddEditCategory.tsx:81 | `trim()` leaves nothing exactly when every character is white space; otherwise what is left starts and ends with a visible character |
| Home.PersonalSums | src/pages/Home.tsx:53-70 | the loop adds each personal wallet's balance to the total and to the bank or the cash sum, so bank plus cash is the total |
| Home.ComputeBalances | src/pages/Home.tsx:49-87 | the total, bank and cash sums over the personal wallets, and the custodial wallets listed with their balances and summed |
| Home.BankNames | src/pages/Home.tsx:64-65 | the case-insensitive name rule sorts "My Bank/UPI" and "Credit CARD" as bank money |
| Home.BankPlusCash | src/pages/Home.tsx:63-69 | the bank sum and the cash sum together make up the balance sum of the listed wallets: each wallet is counted in exactly one of them |
| Home.SumWhereIsFilteredSum | src/pages/Home.tsx:63-69 | the sum the loop accumulates is the balance sum of the filtered wallets |
| Home.SumRowsOfWithBalances | src/pages/Home.tsx:73-78 | the custodial rows' balances add up to the custodial wallets' balance sum |
| Home.SumBalancesOfAdded | src/pages/Home.tsx:49-87 | a newly added transaction moves the balance sum by its contribution to each listed wallet |
| Home.NewTransactionMovesTotal | src/pages/Home.tsx:53-61 | a transfer between two personal wallets leaves the total unchanged; an expense lowers it and an income raises it by the amount |
| Home.QuickAddCategories | src/pages/Home.tsx:99-103 | the first eight expense categories (or all of them), in order |
| Home.HomeRecent | src/pages/Home.tsx:106-108 | the first five transactions (or all when fewer), each with its joined details |
| Home.SignMatchesSourceEffect | src/pages/Home.tsx:276-277 | for a positive amount, '+' is shown exactly when the transaction raises its own wallet's balance |
| Analytics.BurnRate | src/pages/Analytics.tsx:56 | the month's expense divided by the days gone, and 0 before the first day |
| Analytics.ProjectionCoversSpent | src/pages/Analytics.tsx:56-57 | during the month the projection is at least the amount spent, and equal to it on the last day |
| Analytics.ComputeSummary | src/pages/Analytics.tsx:44-76 | the four totals are the income and expense totals over the current week and month; both breakdowns are the month's; savings are income minus expense; the burn rate and projection use the current day and month length, and with non-negative amounts the projection covers the spend; the top three are the largest rows of the sorted expense breakdown |
| Analytics.SpendCovered | src/pages/Analytics.tsx:53-57 | with non-negative amounts and the month under way, the projection is at least the month's expense total |
| Analytics.TopOfSorted | src/pages/Analytics.tsx:62 | the top rows are a prefix of the sorted breakdown, and no later row is larger |
| Analytics.CategoryData | src/pages/Analytics.tsx:89-91 | the selected tab's breakdown |
| Analytics.Percentage | src/pages/Analytics.tsx:233-235 | the category's share of the tab total in percent, or 0 when the total is not positive |
| Analytics.BarWidth | src/pages/Analytics.tsx:268 | `Math.min(percentage, 100)` |
| Analytics.PercentagesSumTo100 | src/pages/Analytics.tsx:93 | with a positive tab total, the shown percentages add up to 100 |
| Analytics.ShareBounds | src/pages/Analytics.tsx:233-235 | with non-negative totals, each share lies between 0 and 100 |
| TransactionsPage.PeriodRange | src/pages/Transactions.tsx:62-72 | no range for 'all'; the week or the month range of now; for 'custom', everything up to now |
| TransactionsPage.FilteredTransactions | src/pages/Transactions.tsx:58-90 | a subsequence of the joined list holding exactly the rows that pass the period and type filters (income includes opening balances) |
| TransactionsPage.FilteredIsSubsequence | src/pages/Transactions.tsx:74-86 | both filters only drop rows, keeping the order |
| TransactionsPage.GroupedTransactions | src/pages/Transactions.tsx:93-105 | the loop builds the specified grouping: distinct days, each holding exactly that day's transactions in list order |
| TransactionsPage.GroupsDistinct | src/pages/Transactions.tsx:94-102 | each day label appears in one group only |
| TransactionsPage.GroupKeys | src/pages/Transactions.tsx:94-102 | a day has a group iff some transaction falls on it |
| TransactionsPage.GroupContents | src/pages/Transactions.tsx:94-102 | a day's group is exactly that day's transactions, in list order |
| TransactionsPage.GroupsReproduceList | src/pages/Transactions.tsx:93-105 | when each day's transactions are adjacent, reading the groups in order gives back the list |
| TransactionForm.ValidationError | src/pages/AddEditTransaction.tsx:126-140 | the first failing check decides: an invalid or non-positive amount, then a missing category outside transfers, then a transfer to the same wallet |
| TransactionForm.TypeForMode | src/pages/AddEditTransaction.tsx:148-152 | each mode saves as its own type, never as an opening balance |
| TransactionForm.ModeForType | src/pages/AddEditTransaction.tsx:88-94 | transfers and income keep their mode; everything else, opening balances included, opens as an expense |
| TransactionForm.ModeRoundTrip | src/pages/AddEditTransaction.tsx:88-94 | saving in the mode a transaction opens in keeps its type, except that an opening balance comes back as an expense |
| TransactionForm.BuildDraft | src/pages/AddEditTransaction.tsx:146-160 | the destination and reason go in only for transfers, the category only otherwise; the creation time is the save time |
| TransactionForm.Save | src/pages/AddEditTransaction.tsx:123-166 | fails exactly when validation fails, with its message; otherwise yields the built record |
| TransactionForm.SavedRecordIsWellFormed | src/pages/AddEditTransaction.tsx:126-160 | a saved record has a positive amount, is never an opening balance, has a category or a distinct destination and never both |
| TransactionForm.SaveFailureMessage | src/pages/AddEditTransaction.tsx:170 | the failure's message, or 'Failed to save transaction' when it is empty |
| TransactionForm.EditReplacesRecord | src/pages/AddEditTransaction.tsx:162-163 | an edit turns the edited transaction into exactly the saved record under its id and leaves the others |
| TransactionForm.HandleDelete | src/pages/AddEditTransaction.tsx:176-190 | nothing without a user, an id or a confirmation; otherwise the store deletes, the page goes back on success and shows the message or the fallback on failure, while the store records the call's message |
| TransactionForm.DefaultSelection | src/pages/AddEditTransaction.tsx:52-61 | once wallets exist and none is chosen, the source is the first default wallet (the first wallet when none is default), and the destination is the first wallet with another id when there is one |
| TransactionForm.AvailableCategories | src/pages/AddEditTransaction.tsx:100-103 | none for transfers; exactly the income or the expense categories for the other modes |
| WalletForm.InitialKind | src/pages/AddEditWallet.tsx:24-41 | custodial exactly when the `type` parameter is 'custodial' |
| WalletForm.InitialForm | src/pages/AddEditWallet.tsx:23-25 | an empty name, the initial type and the wallet icon |
| WalletForm.Prefill | src/pages/AddEditWallet.tsx:44-53 | the edited wallet's name, type and icon |
| WalletForm.EditPatch | src/pages/AddEditWallet.tsx:79 | the update carries name, type and icon, never the default flag or the creation time |
| WalletForm.NewDraft | src/pages/AddEditWallet.tsx:81-87 | a created wallet is never a default one and is created now |
| WalletForm.Save | src/pages/AddEditWallet.tsx:66-88 | fails exactly when the trimmed name is empty; otherwise creates or updates according to the route |
| WalletForm.SaveFailureMessage | src/pages/AddEditWallet.tsx:91 | the failure's message, or 'Failed to save wallet' |
| WalletForm.EditKeepsIdentity | src/pages/AddEditWallet.tsx:79 | an edit rewrites name, type and icon and keeps id, default flag and creation time |
| WalletForm.UneditedSaveIsIdentity | src/pages/AddEditWallet.tsx:44-79 | opening a wallet and saving it untouched gives back the same wallet |
| WalletForm.CreatedWalletIsDeletable | src/pages/AddEditWallet.tsx:81-87 | a created wallet is not a default one, so the wallets page offers to delete it |
| WalletForm.EditTouchesOnlyTarget | src/pages/AddEditWallet.tsx:79 | an edit through the store changes only the edited wallet, and only the form's fields |
| CategoryForm.InitialKind | src/pages/AddEditCategory.tsx:32-51 | income exactly when the `type` parameter is 'income' |
| CategoryForm.InitialForm | src/pages/AddEditCategory.tsx:31-35 | an empty name and budget, the initial type, the default icon and colour |
| CategoryForm.Prefill | src/pages/AddEditCategory.tsx:54-65 | the edited category's fields; the budget field is empty exactly when it has no budget |
| CategoryForm.BudgetValue | src/pages/AddEditCategory.tsx:90 | an empty field gives no budget; typed text gives its parsed number |
| CategoryForm.EditPatch | src/pages/AddEditCategory.tsx:93 | the update carries the five form fields, the budget key always present, never the default flag or the creation time |
| CategoryForm.NewDraft | src/pages/AddEditCategory.tsx:95-103 | a created category is never a default one and is created now |
| CategoryForm.Save | src/pages/AddEditCategory.tsx:78-104 | fails exactly when the trimmed name is empty; otherwise creates or updates according to the route |
| CategoryForm.SaveFailureMessage | src/pages/AddEditCategory.tsx:107 | the failure's message, or 'Failed to save category' |
| CategoryForm.EditKeepsIdentity | src/pages/AddEditCategory.tsx:93 | an edit rewrites the five form fields and keeps id, default flag and creation time |
| CategoryForm.UneditedSaveIsIdentity | src/pages/AddEditCategory.tsx:54-93 | saving an untouched category gives it back; emptying the budget field removes the budget |
| CategoryForm.CreatedCategoryIsDeletable | src/pages/AddEditCategory.tsx:95-103 | a created category is not a default one, so the categories page offers to delete it |
| CategoryForm.EditTouchesOnlyTarget | src/pages/AddEditCategory.tsx:93 | an edit through the store changes only the edited category, and only the form's fields |
| WalletsPage.TabKind | src/pages/Wallets.tsx:35-37 | the personal tab shows personal wallets, the custodial tab custodial ones |
| WalletsPage.FilteredWallets | src/pages/Wallets.tsx:35-37 | a subsequence holding exactly the wallets of the tab's type |
| WalletsPage.TabsPartition | src/pages/Wallets.tsx:35-37 | the two tabs together show every wallet exactly once |
| WalletsPage.HandleDelete | src/pages/Wallets.tsx:50-60 | a delete is attempted exactly when signed in and confirmed; the store's effect follows, and a failure is only logged |
| WalletsPage.DeleteKeepsDefaults | src/pages/Wallets.tsx:138 | a delete button exists only for non-default wallets, so with unique ids a delete keeps every default wallet |
| CategoriesPage.TabKind | src/pages/Categories.tsx:22-24 | the expense tab shows expense categories, the income tab income ones |
| CategoriesPage.FilteredCategories | src/pages/Categories.tsx:22-24 | a subsequence holding exactly the categories of the tab's type |
| CategoriesPage.TabsPartition | src/pages/Categories.tsx:22-24 | the two tabs together show every category exactly once |
| CategoriesPage.HandleDelete | src/pages/Categories.tsx:37-47 | a delete is attempted exactly when signed in and confirmed; the store's effect follows, and a failure is only logged |
| CategoriesPage.DeleteKeepsDefaults | src/pages/Categories.tsx:114 | a delete button exists only for non-default categories, so with unique ids a delete keeps every default category |
| Signup.ValidationError | src/pages/Signup.tsx:21-29 | a mismatch first, then a password shorter than six characters; no error exactly when they match and are long enough |
| Signup.DisplayError | src/pages/Signup.tsx:39 | the page's own message wins over the store's |
| Signup.HandleSubmit | src/pages/Signup.tsx:16-37 | errors are cleared; a failed check is shown and nothing else happens; otherwise the page goes to onboarding exactly when the account and the preferences write both succeed, showing the store's message otherwise |
| Onboarding.BankWalletDraft | src/pages/onboarding/Onboarding.tsx:53-59 | the bank wallet is a personal default wallet |
| Onboarding.CashWalletDraft | src/pages/onboarding/Onboarding.tsx:61-67 | the cash wallet is a personal default wallet |
| Onboarding.OpeningDraft | src/pages/onboarding/Onboarding.tsx:74-92 | an opening balance on the wallet, with no category and no destination |
| Onboarding.ParsedOrZero | src/pages/onboarding/Onboarding.tsx:70-71 | `parseFloat(x) \|\| 0`: NaN becomes 0, any number stays |
| Onboarding.SetupSeedsBalances | src/pages/onboarding/Onboarding.tsx:50-96 | after a full setup the new bank and cash wallets hold exactly their positive opening amounts |
| Onboarding.Flow.constructor | src/pages/onboarding/Onboarding.tsx:26-30 | the flow starts on the welcome step, idle and without an error |
| Onboarding.RunSetup | src/pages/onboarding/Onboarding.tsx:49-93 | the seeding, wallet and opening-balance calls run in order and stop at the first failure, whose message is returned; the wallet and transaction lists become the setup's result, and the categories become the reloaded list only when seeding and reload both succeed |
| Onboarding.Flow.HandleComplete | src/pages/onboarding/Onboarding.tsx:42-104 | nothing without a user; otherwise the calls run in order up to the first failure, whose message (or the fallback) is shown; the flow completes only when all succeed; a failed category reload keeps the old categories; the completion write keeps dark mode and currency, or on failure keeps the preferences and records its message in the auth store |
| Onboarding.Flow.Next | src/pages/onboarding/Onboarding.tsx:32-40 | welcome, then wallets, then balance, where the setup runs; the flow never moves backwards |
| Settings.IsDarkMode | src/pages/Settings.tsx:31 | the switch is off only for an explicit `false` |
| Settings.Currency | src/pages/Settings.tsx:32 | the stored code when present (even empty), INR only when absent |
| Settings.TogglePatch | src/pages/Settings.tsx:35 | the update negates the shown value and carries no other key |
| Settings.AppliedTheme | src/pages/Settings.tsx:37 | the theme applied at once is dark exactly when the switch was off |
| Settings.ToggleFlips | src/pages/Settings.tsx:34-38 | a successful toggle flips the shown value and keeps the other keys; two toggles give back the shown value |
| Settings.DarkModeDefaultsDisagree | src/pages/Settings.tsx:31 | with no `darkMode` key the switch shows dark while the application theme is light, and the first toggle keeps it light |
| Settings.CurrencyChangeShows | src/pages/Settings.tsx:40-42 | a successful change shows the new code and keeps the dark-mode setting |
| Settings.Page.constructor | src/pages/Settings.tsx:28-29 | no reset in progress and the dialog closed |
| Settings.Page.ToggleDarkMode | src/pages/Settings.tsx:34-38 | the written preference and the applied theme follow the negated value; a failed write keeps the preferences |
| Settings.Page.ChangeCurrency | src/pages/Settings.tsx:40-42 | a successful write shows the new currency; a failed one keeps the preferences |
| Settings.Page.ResetApp | src/pages/Settings.tsx:44-61 | without a user nothing happens; when the stored data is cleared, the local lists empty, the onboarding flag is written false with dark mode and currency kept (a failed write keeps the preferences and records its message in the auth store) and the page goes to onboarding; a failed clear keeps the local state; the spinner and dialog end closed |
| Settings.Page.SignOut | src/pages/Settings.tsx:63-70 | the page goes to login exactly when sign-out succeeds, with user and preferences cleared |

## Left out

- Rendering, icons, CSS, console logging and navigation are left out. The route a page moves to is recorded as a string, and "go back" as a flag.
- The gateway and the identity provider are not modelled. Each call is a parameter holding what it returned or threw. So the model does not capture the document store's own behaviour; for example, `updateDoc` on the preferences document that the reset just deleted.
- A single `now` stands for every `Date.now()` and `new Date()` within one operation.
- Days are counted in UTC. Local time zones and daylight saving are not modelled. This affects `formatDate`, the week and month ranges, the day of the month, the day grouping and the month length.
- `getYearRange`, `formatFullDate`, `formatDateForInput` and `parseDateFromInput` are not modelled, because they are the date library's calendar formatting. The grouping's day label is a key function, and the form's date is an already-parsed timestamp.
- Number formatting is left out: `formatCurrency`'s `Intl.NumberFormat` output and `toFixed`. `Currency.CompactCurrency` returns the symbol, the scaled amount and the suffix instead of text.
- `Currency.ConfigFor`: treats only the five configured codes as known. An inherited object key such as `constructor` is not modelled.
- Floating point is not modelled: amounts are exact reals. JavaScript `NaN` from `parseFloat` is `None`.
- `CategoryForm.BudgetValue`: gives no budget for typed text that does not parse. The source would store `NaN`.
- `Home`: `toLowerCase` is modelled on ASCII letters only.
- `Signup.ValidationError`: counts characters (code points). `password.length` counts UTF-16 code units, so a password with characters outside the Basic Multilingual Plane can differ.
- `TransactionsPage.GroupsReproduceList`: requires each day's transactions to be adjacent. The store's list is newest first only after a load, because `addTransaction` prepends whatever date the new transaction has (see `DataService.PrependKeepsDateOrder`).
- The transaction form's URL-parameter category effect and its auto-select of the first category are not modelled. Neither is the edit page's prefill of text fields (only the mode, via `TransactionForm.ModeForType`).
- The forms' `if (!user) return` at the start of `handleSave` is not modelled. `Save` models the save of a signed-in user.
- The per-wallet balance display on the wallets page is not modelled, because it is `Ledger.Balance`. The `\|\| 'INR'` currency of the other pages is not modelled either; the Settings `??` variant is.
- `Onboarding.Flow.HandleComplete`: the preferences write is an `updatePreferences`, which swallows its own failure, so setup completes even when that write fails. The model follows that.
- `Settings.Page.ResetApp`: the preferences write after the reset goes to the auth store only. Its effect on `DataService.UserDocuments` is not modelled.
- The login page, the splash screen, the navigation bar and the authentication service wrapper are not part of this model.
- Concurrency is not modelled: every awaited call is assumed to complete before the next user action.
