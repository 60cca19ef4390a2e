# Household app core in Dafny

This project models the client-side state logic of a household web app.
The app has a shared finance ledger with expenses, payments and
per-member balances, a customisable dashboard, a home inventory with
locations and categories, a todo list, a shopping list and a recipe list.
It also models the dashboard's expiry counters and the router's sign-in
guard.

Each store's list or map is a Dafny `seq` or `map` field of a class. Its
operations are methods that reassign that field. Pure lookups and
computations are functions. The logic of the balance engine, the
dashboard counters and the re-sort is stated by pure specification
functions. The loops that implement them are proved against those
functions, and the algebra is proved about the functions as lemmas.

Modelling conventions:

- Money is in integer cents.
- Clock times are integer milliseconds.
- A date string reaches the model through a `parse` parameter: the
  millisecond time it denotes, or nothing for an invalid date.
- Each backend request is folded into its outcome, passed as an argument:
  `ok: bool` for "no error", or an `InsertOutcome` for inserts that
  return a row. The same goes for an inserted member or category.
- An `Option` result of `None` stands for the source's `undefined` (an
  update while signed out, a delete not confirmed) or `null` (an insert
  without a row).
- Every fresh id (`crypto.randomUUID()`, `'w-' + Date.now()`) is a
  parameter.

On the todo and shopping-list stores:

- `useTodos.ts` and `useShoppingList.ts` are the same code over two
  tables. Both are modelled by the one class `Checklist.EntryList`.
  Each of its rows below cites `useTodos.ts` and names the matching
  lines of `useShoppingList.ts`.
- Their entries are objects whose `is_completed` flag is flipped in place
  while the list holds them. Each entry is therefore a class
  (`Checklist.Entry`) with a mutable `completed` field. This is what
  makes a failed toggle restore the flag but not the order.

Files:

- `prelude.dfy`: `Option` and the list combinators `filter`,
  `findIndex` and `map`.
- `finance.dfy`: members, categories and transactions, the balance
  engine, and the ledger's local updates.
- `dashboard.dfy`: the widget layout.
- `inventory.dfy`: locations, categories, items, grouping, search and
  quantity changes.
- `checklist.dfy`: the todo and shopping-list entries, their re-sort and
  their optimistic updates.
- `recipes.dfy`: recipes and the partial-update merge.
- `dashboard_stats.dfy`: the expiry classification and the counters.
- `router.dfy`: the route table and the navigation guard.

## Model

| member | source | states |
|---|---|---|
| Prelude.Filter | src/composables/useFinance.ts:151 | `filter` keeps exactly the elements that satisfy the predicate, and only those. |
| Prelude.FilterMultiset | src/composables/useFinance.ts:151 | `filter` keeps every satisfying element as often as it occurs, and no other element. |
| Prelude.FilterConcat | src/composables/useDashboard.ts:78 | Filtering distributes over concatenation, so the survivors keep their order. |
| Prelude.FilterKeepsAll | src/composables/useTodos.ts:58 | A filter that every element passes returns the list unchanged. |
| Prelude.FindIndex | src/composables/useTodos.ts:61 | `findIndex` is the first index whose element satisfies the predicate, or -1 exactly when none does. |
| Prelude.MapSeq | src/composables/useInventory.ts:69-71 | `map` keeps the length and applies the function at every index. |
| Finance.ApplyTransaction | src/composables/useFinance.ts:361-388 | One pass of the `forEach` body keeps the set of member keys. It moves each key's balance by that transaction's delta: the payer is credited `amount`. An expense debits each split's member its split amount. A payment debits a non-empty receiver the amount. |
| Finance.ComputeBalances | src/composables/useFinance.ts:357-394 | There is exactly one result per member, in member order. Each result carries that member and its balance, which is the sum of every transaction's delta to that id. |
| Finance.SplitShareAppend | src/composables/useFinance.ts:369-372 | The split debit of two split lists together is the sum of their split debits. |
| Finance.BalanceAppend | src/composables/useFinance.ts:361-388 | Each transaction is applied once as an additive delta: the balance over `a + b` is the balance over `a` plus the balance over `b`. |
| Finance.ExpenseEffect | src/composables/useFinance.ts:364-373 | An added expense credits the payer `amount` and debits each split's member their split amount. No one else's balance moves. |
| Finance.PaymentEffect | src/composables/useFinance.ts:374-387 | An added payment credits the payer `amount` and debits the receiver the same, only when the receiver is present and non-empty. The splits play no part. |
| Finance.SplitShareUnmentioned | src/composables/useFinance.ts:369-372 | A member named in no split is debited nothing by the splits. |
| Finance.BalanceUntouched | src/composables/useFinance.ts:357-394 | A member that no transaction names as payer, receiver or split member has balance 0. |
| Finance.BalancePermutation | src/composables/useFinance.ts:361-388 | Balances do not depend on the order of the transactions: any permutation gives the same balance. |
| Finance.BalanceReplace | src/composables/useFinance.ts:361-388 | Replacing one transaction by another with the same delta for a member leaves that member's balance unchanged. |
| Finance.PaymentSplitsIgnored | src/composables/useFinance.ts:374-387 | A payment's splits are never read: replacing them changes no balance. |
| Finance.DanglingSplitIgnored | src/composables/useFinance.ts:370-372 | A split for an id that is not a member changes no member's balance when added to a transaction. |
| Finance.SplitsWithinAdd | src/composables/useFinance.ts:369-372 | Adding a fresh id to an id set adds that id's split debit to the set's split total. |
| Finance.LedgerNetAdd | src/composables/useFinance.ts:361-388 | Adding a fresh id to an id set adds that id's balance to the set's net. |
| Finance.TotalIsLedgerNet | src/composables/useFinance.ts:357-394 | With distinct member ids, the sum of all balances equals the per-transaction net effect on the member set, summed over the transactions. |
| Finance.LedgerNetEmpty | src/composables/useFinance.ts:361-388 | No transaction moves money into or out of the empty id set. |
| Finance.SplitsWithinNone | src/composables/useFinance.ts:369-372 | No split debits the empty id set. |
| Finance.SplitsWithinAll | src/composables/useFinance.ts:369-372 | When every split's member is in the set, the set is debited the full split total. |
| Finance.ClosedLedgerNetZero | src/composables/useFinance.ts:361-388 | Transactions that are closed over an id set move nothing into or out of it. Closed means the payer, receiver and split members are all in the set, and an expense's splits sum to its amount. |
| Finance.ClosedLedgerSumsToZero | src/composables/useFinance.ts:357-394 | With distinct member ids and only closed transactions, the balances sum to 0. |
| Finance.LedgerNetAppend | src/composables/useFinance.ts:361-388 | The net effect on an id set is additive over concatenation of the transaction lists. |
| Finance.PaymentNeutral | src/composables/useFinance.ts:385-386 | A payment between two members leaves the sum of all balances unchanged. |
| Finance.RemovedTransactionsSubtract | src/composables/useFinance.ts:344-350 | A balance is the balance after deleting the transactions with an id plus the balance of the deleted ones. |
| Finance.EvenSplitExample | src/composables/useFinance.ts:364-373 | Worked case: a 20.00 expense paid by `a` and split evenly with `b` leaves `a` at +10.00 and `b` at -10.00. |
| Finance.SettledExample | src/composables/useFinance.ts:374-387 | Worked case: a 10.00 payment from `b` to `a` then settles both to 0. |
| Finance.UnbalancedSplitsExample | src/composables/useFinance.ts:364-373 | Worked case: splits that add up to less than the amount leave the balances summing to the difference. |
| Finance.DeletedMemberExample | src/composables/useFinance.ts:366-371 | Worked case: once the split member is deleted, that member's debit drops out and the remaining balances no longer sum to 0. |
| Finance.Ledger.constructor | src/composables/useFinance.ts:40-42 | The ledger starts with no members, categories or transactions. |
| Finance.Ledger.AddMember | src/composables/useFinance.ts:103-117 | An inserted member row is appended and returned. Without a row (signed out or error, both `null` in the source) nothing changes and `None` is returned. The other lists stay unchanged. |
| Finance.Ledger.UpdateMember | src/composables/useFinance.ts:119-135 | Signed out, nothing changes and the result is `undefined` (`None`). Signed in, the result reports the write's success, and only after success does the first member with the id get the new name. The other lists stay unchanged. |
| Finance.Ledger.DeleteMember | src/composables/useFinance.ts:137-153 | Not confirmed, nothing changes and the result is `undefined` (`None`). Confirmed, the result reports the write's success, and after success every member with the id is removed. Transactions and categories are never touched. |
| Finance.Ledger.AddCategory | src/composables/useFinance.ts:155-169 | An inserted category row is appended and returned. Without a row (signed out or error, both `null`) nothing changes and `None` is returned. |
| Finance.Ledger.UpdateCategory | src/composables/useFinance.ts:171-189 | Signed out, nothing changes and the result is `undefined` (`None`). Signed in, the result reports success, and only after success does the first category with the id get the new name and icon. |
| Finance.Ledger.DeleteCategory | src/composables/useFinance.ts:191-206 | Not confirmed, nothing changes and the result is `undefined` (`None`). Confirmed, the result reports success, and after success every category with the id is removed. |
| Finance.Ledger.DeleteTransaction | src/composables/useFinance.ts:344-350 | On success every transaction with the id is removed. On error nothing changes. |
| Dashboard.IsProductPinned | src/composables/useDashboard.ts:48-50 | True exactly when some widget is a product widget whose `productId` prop is the product. |
| Dashboard.DefaultSpan | src/composables/useDashboard.ts:73 | A new widget is full width exactly when its type is `opened` or `location-chart`. |
| Dashboard.Swap | src/composables/useDashboard.ts:84-86 | The two positions are exchanged and every other position is kept, so length and multiset are preserved. |
| Dashboard.DefaultLayoutConsistent | src/composables/useDashboard.ts:12-19 | Every default widget has the width `addWidget` would give its type, and none is a product pin. |
| Dashboard.UnpinClears | src/composables/useDashboard.ts:54-56 | After unpinning, the product is no longer pinned. |
| Dashboard.PinSets | src/composables/useDashboard.ts:57-64 | After pinning, the product is pinned. |
| Dashboard.PinThenUnpin | src/composables/useDashboard.ts:52-66 | Toggling twice, starting unpinned, restores the original layout exactly. |
| Dashboard.MoveBack | src/composables/useDashboard.ts:81-87 | Moving a widget and moving it back restores the layout. |
| Dashboard.Board.constructor | src/composables/useDashboard.ts:21 | The layout starts empty. |
| Dashboard.Board.LoadLayout | src/composables/useDashboard.ts:25-37 | A saved layout that parses is installed. A missing, empty or malformed one yields the default layout. |
| Dashboard.Board.Open | src/composables/useDashboard.ts:89-92 | The layout is loaded only when it is still empty. |
| Dashboard.Board.ToggleProductPin | src/composables/useDashboard.ts:52-66 | A pinned product loses every pin widget, with the rest kept in order. An unpinned product gains one half-width pin widget at the end. Either way the pinned status flips. |
| Dashboard.Board.AddWidget | src/composables/useDashboard.ts:68-75 | Exactly one widget is appended, with the given type and props and the width for its type. |
| Dashboard.Board.RemoveWidget | src/composables/useDashboard.ts:77-79 | Every widget with the id is removed and the rest keep their order. |
| Dashboard.Board.MoveWidget | src/composables/useDashboard.ts:81-87 | Nothing changes when the neighbour is out of range. Otherwise exactly the two positions are swapped. |
| Inventory.Adjusted | src/composables/useInventory.ts:54-55 | The new quantity is `old + amount`, clamped at 0, and never negative. |
| Inventory.ItemsByLocation | src/composables/useInventory.ts:60-75 | `uncategorized` holds exactly the location's items without a category. Each group is one of the location's categories with exactly the location's items in that category, and is non-empty. |
| Inventory.GroupItems | src/composables/useInventory.ts:71 | Every item of a category's group is an item of the location that carries that category id. |
| Inventory.GroupNonEmpty | src/composables/useInventory.ts:72 | A category's group is non-empty exactly when some item at the location has that category. |
| Inventory.GroupsInOrder | src/composables/useInventory.ts:68-72 | The grouped categories are the location's stocked categories, in category order. |
| Inventory.GroupedInCategoryOrder | src/composables/useInventory.ts:68-72 | `grouped` lists exactly the location's categories that have items, in category order. |
| Inventory.UncategorizedInOrder | src/composables/useInventory.ts:62-65 | The view's `uncategorized` list is the items at the location without a category, in their original order. |
| Inventory.OrphanHidden | src/composables/useInventory.ts:62-72 | An item whose category id is not one of the location's categories is in neither `uncategorized` nor any group. |
| Inventory.LowerChar | src/composables/useInventory.ts:81-82 | Upper-case ASCII letters and the Latin-1 capitals `À`-`Þ` except `×` map to their lower-case letter, 32 code points up. Every other character is unchanged. |
| Inventory.Lower | src/composables/useInventory.ts:81-82 | Lowercasing keeps the length and lowercases each character. |
| Inventory.LowerIdempotent | src/composables/useInventory.ts:81-82 | Lowercasing twice is lowercasing once. |
| Inventory.OccursInTail | src/composables/useInventory.ts:82 | When the string does not start with the needle, the needle occurs in it exactly when it occurs in its tail. |
| Inventory.Contains | src/composables/useInventory.ts:82 | `includes` holds exactly when the needle occurs at some position. |
| Inventory.SearchItems | src/composables/useInventory.ts:79-83 | An empty query finds nothing. Otherwise the result is exactly the items whose lowercased name contains the lowercased query, each as many times as it occurs in the items. |
| Inventory.SearchConcat | src/composables/useInventory.ts:82 | The search keeps the items' order: searching two lists one after the other is searching each and concatenating the results. |
| Inventory.SearchIgnoresQueryCase | src/composables/useInventory.ts:81 | Searching for the lowercased query is searching for the query. |
| Inventory.LocationName | src/composables/useInventory.ts:86-88 | The result is the first matching location's name, and `Unbekannt` when that name is empty or no location matches. |
| Inventory.Store.constructor | src/composables/useInventory.ts:26-45 | The seed data, including the two items that share id `i1`. |
| Inventory.Store.UpdateQuantity | src/composables/useInventory.ts:51-57 | Only the first item with the id gets the clamped new quantity, and an unknown id changes nothing. Non-negative quantities stay non-negative. |
| Checklist.WhiteSpaceSet | src/composables/useTodos.ts:37 | The characters `trim` removes are, in ASCII, exactly tab, line feed, vertical tab, form feed, carriage return and space. Beyond ASCII they include the no-break, ideographic and zero-width no-break spaces and the line separator, but not the zero-width space or the next-line control. |
| Checklist.TrimStart | src/composables/useTodos.ts:37 | Dropping the leading white space leaves nothing exactly when every character is white space, and otherwise leaves a string that starts with a non-space. |
| Checklist.TrimEnd | src/composables/useTodos.ts:37 | Dropping the trailing white space leaves nothing exactly when every character is white space. |
| Checklist.IsBlank | src/composables/useTodos.ts:37 | A title is blank exactly when trimming it leaves the empty string. `addItem` in `src/composables/useShoppingList.ts` (line 37) makes the same test. |
| Checklist.Compare | src/composables/useTodos.ts:72-77 | Between two entries of the same flag the comparator is negative exactly when the first is newer, and zero exactly when both have the same time. Between entries of different flags it is never zero, and negative exactly when the first is open. |
| Checklist.BeforeMeansOrder | src/composables/useTodos.ts:72-77 | The comparator puts open entries before completed ones and newer before older within each group. This is the order the list is fetched in. |
| Checklist.InsertSorted | src/composables/useTodos.ts:72-77 | Inserting an entry after every entry that may precede it keeps a sorted list sorted. |
| Checklist.SortEntries | src/composables/useTodos.ts:72-77 | The re-sort yields a permutation of the list, ordered by the comparator. |
| Checklist.SortedAsOwnFlag | src/composables/useTodos.ts:84-87 | Being sorted for an entry's current flag is plain sortedness. |
| Checklist.Entry.constructor | src/composables/useTodos.ts:41-46 | The temporary entry carries the given id, title, flag and creation time. |
| Checklist.EntryList.constructor | src/composables/useTodos.ts:11 | The list starts empty. `items` in `src/composables/useShoppingList.ts` (line 11) does the same. |
| Checklist.EntryList.Add | src/composables/useTodos.ts:35-64 | A blank title changes nothing. Otherwise a fresh open entry goes to the front. It is removed again on error, which restores the list exactly, and is replaced in place by the returned row on success. `addItem` in `src/composables/useShoppingList.ts` (lines 36-62) is the same code. |
| Checklist.EntryList.Toggle | src/composables/useTodos.ts:67-88 | The flag flips and the list is permuted into sorted order for the flipped flag. On error only the flag is restored, so the order stays the one sorted for the flip. `toggleItem` in `src/composables/useShoppingList.ts` (lines 65-86) is the same code. |
| Checklist.EntryList.Delete | src/composables/useTodos.ts:91-101 | On success every entry with the id is removed. On error the snapshot is restored exactly. `deleteItem` in `src/composables/useShoppingList.ts` (lines 89-99) is the same code. |
| Recipes.Merge | src/composables/useRecipes.ts:88 | The merge leaves a recipe as it is exactly when the update agrees with it on every key the update carries. |
| Recipes.MergeWritesCarriedKeys | src/composables/useRecipes.ts:88 | For each of the seven keys, a key carried by the update takes the update's value, and an absent key keeps the recipe's. |
| Recipes.MergeNoChange | src/composables/useRecipes.ts:88 | An update without keys leaves the recipe unchanged. |
| Recipes.MergeIdempotent | src/composables/useRecipes.ts:88 | Applying the same update twice is applying it once. |
| Recipes.MergeThen | src/composables/useRecipes.ts:88 | Two updates in a row amount to the later one overriding the earlier, key by key. |
| Recipes.RecipeBook.constructor | src/composables/useRecipes.ts:20 | The list starts empty. |
| Recipes.RecipeBook.AddRecipe | src/composables/useRecipes.ts:59-78 | On error the call throws and the list is unchanged. A returned row is put at the front and returned. |
| Recipes.RecipeBook.UpdateRecipe | src/composables/useRecipes.ts:81-104 | On success the first recipe with the id is merged with the update and nothing else changes. On error the slot gets its copy back and the call throws. An unknown id changes nothing. |
| Recipes.RecipeBook.DeleteRecipe | src/composables/useRecipes.ts:107-120 | On success every recipe with the id is removed. On error the snapshot is restored exactly and the call throws. |
| Recipes.UpdateTouchesOneSlot | src/composables/useRecipes.ts:83-89 | The merge changes no slot other than the first match's, and keeps the length. |
| Recipes.DeleteRemovesAll | src/composables/useRecipes.ts:109 | After a delete no recipe with the id remains, and every other recipe is still present. |
| DashboardStats.CeilDaysAtMost | src/composables/useDashboardStats.ts:12 | The rounded-up day count is at most `k` exactly when the time difference is at most `k` whole days. |
| DashboardStats.ExpiryStatus | src/composables/useDashboardStats.ts:7-17 | A missing, empty or unparsable date is `ok`. Otherwise `expired`, `soon` and `ok` partition the time to expiry: at least a day before midnight today, up to 14 days after it, and later. |
| DashboardStats.InstanceCounts | src/composables/useDashboardStats.ts:27-35 | Each instance adds exactly one to the counter of its status and nothing to the other two. It adds one to `opened` exactly when it has an opening date, and nothing otherwise. |
| DashboardStats.InstancesClassified | src/composables/useDashboardStats.ts:27-33 | Every instance is classified exactly once. |
| DashboardStats.InstancesOpened | src/composables/useDashboardStats.ts:35 | At most every instance is counted as opened. |
| DashboardStats.TallyClassified | src/composables/useDashboardStats.ts:19-42 | `expired + soon + ok` is the sum over the items of their instance count, with at least one per item. |
| DashboardStats.TallyOpened | src/composables/useDashboardStats.ts:35 | `opened` is between 0 and the total number of instances. |
| DashboardStats.Bump | src/composables/useDashboardStats.ts:30-35 | One instance's step adds one to the counter of its status and one to `opened` when the instance is opened. |
| DashboardStats.InstancesTallyStep | src/composables/useDashboardStats.ts:27-36 | Counting one more instance of the run adds the counts of its status and opening. |
| DashboardStats.TallyAppend | src/composables/useDashboardStats.ts:25-40 | One more item adds its counts. An item with no, or absent, instances adds exactly one `ok`. |
| DashboardStats.CountInstances | src/composables/useDashboardStats.ts:27-36 | The inner loop adds the instances' counts to the counters. |
| DashboardStats.CountItem | src/composables/useDashboardStats.ts:26-39 | One item's pass adds that item's counts. |
| DashboardStats.ComputeStats | src/composables/useDashboardStats.ts:19-42 | The loops compute the counters as the tally over all items. |
| Router.Guard | src/router/index.ts:48-64 | Navigation proceeds exactly when the page is allowed: protected pages need a user, and the login page needs none. Any redirect goes to `dashboard` for a signed-in user and to `login` otherwise. |
| Router.GuardCases | src/router/index.ts:57-63 | A protected route without a user redirects to `login`. The login route with a user redirects to `dashboard`. Everything else proceeds. |
| Router.AuthReadyIgnored | src/router/index.ts:49 | The decision does not depend on `isAuthReady`. |
| Router.OnlyLoginIsPublic | src/router/index.ts:13-44 | Every route except `login` requires a signed-in user. |
| Router.RouteNamed | src/router/index.ts:13-44 | The table index of the route with a name, or -1 exactly when there is none. |
| Router.NoRedirectLoop | src/router/index.ts:57-62 | Redirects do not loop: a redirect names a route of the table, and the guard lets the same user through to it. |

## Left out

- Backend requests: every fetch, insert, update and delete request, `fetchRecipeById`, `seedDefaultCategories` and the refetch after writes are remote I/O. Each write is reduced to its outcome argument. The ordering a fetch asks of the backend is not modelled; `Checklist.BeforeMeansOrder` relates the local re-sort to it.
- `addTransaction` and `updateTransaction` write a transaction and its splits in two phases to the backend and then refetch. They change no local state of their own.
- Interleaving between `await` points, such as two toggles in flight at once, is not modelled. Each operation is atomic.
- Number coercion and floating point are not modelled. The model uses integer cents and counts, so `Number(...)`, NaN and the `|| 0` fallback on a missing balance do not arise.
- `Date` parsing, time zones, `Date.now()` and `toISOString()` become parameters (`parse`, `todayMs`, `now`), and so does `crypto.randomUUID()`. `Checklist.EntryList.Add` requires the fresh id to be unused, as a random UUID is.
- `localStorage`, `JSON.parse`, `JSON.stringify` and the deep `watch` that saves the layout are not modelled. Only the choice between the saved layout and the default is.
- The `confirm` and `alert` dialogs are not modelled; confirmation is an argument.
- The signed-in user is reduced to a flag (`signedIn`) for the updates, and to the absent insert row for the adds. Which user owns a row is not modelled.
- Inventory.LowerChar: covers ASCII and the Latin-1 capitals only, not the full Unicode `toLowerCase` (including its length-changing cases).
- Vue reactivity (`ref`, `computed`, `watch`) is not modelled; stores are plain state and functions.
- `src/composables/useAuth.ts` and `vite.config.js` are not part of this model.
- The display joins on transactions (`payer`, `receiver`, `category`) are not modelled.
- Dashboard widget `props` are a record of string values; other JSON values are not modelled.
- Dashboard.Board.MoveWidget: requires an in-range `index` and a direction of -1 or 1. The source's behaviour for an out-of-range `index` is not claimed.
- Recipes.RecipeBook.UpdateRecipe: models `Object.assign` as replacing the list slot. Other holders of the same recipe object, which the source mutates too, are not modelled. Nor is an update whose key is present but `undefined`.
- Checklist.SortEntries: does not state which of two entries with equal keys comes first. The source's sort is stable; the model's insertion sort keeps equal keys in order, but no contract says so.
- The balance engine's `raw` object is a plain dictionary in the model. Prototype keys of a JavaScript object (an id such as `constructor`) are not modelled.
- Member ids equal to the empty string, and item category ids equal to the empty string, follow the source's truthiness rules. An item whose category id is `""` counts as uncategorized, yet can also match a category whose id is `""`.
