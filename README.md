# River bank bot: a verified model of its ledger engine

`bank_bot.py` is a Telegram bot that keeps a small bank in a Google
sheet. Under its Telegram and Sheets calls sits a sequential engine, and
this project models that engine in Dafny. The engine has four parts:

- **Role authority** (`roles.dfy`, module `Roles`).
  - There is a constant owner id, plus two lists of usernames: `ADMINS` (managers) and `CO_OWNERS`.
  - The permission predicates are `can_modify`, `is_owner`, `is_co_owner`, `is_manager` and `can_manage_users`.
  - The list edits of `co`, `prom` and `dem` keep the two lists duplicate-free and disjoint.
- **The account sheet** (`ledger.dfy`, module `Ledger`).
  - The sheet is a sequence of rows `(id, name, username, link, balance, created, lastTx)`.
  - `find_user_row` is a first-match scan that answers a 1-based sheet row; row 1 is the header.
  - `delete_user_account` removes a row.
  - Invariants: balances are never negative, and every id has at most one row.
- **Transaction history** (`history.dfy`, module `History`).
  - `TRANSACTION_HISTORY` maps an account id to its newest ten entries.
  - The per-admin view is a fold of those entries by executor name.
  - The history view lists the entries newest first.
- **Interactive sessions** (`sessions.dfy`, module `Sessions`).
  - The keys of `BAL_MESSAGES` and `INFOBANK_MESSAGES`.
  - The callback data the bot writes on its buttons.
  - How `button_callback` reads that data: an owner check on the last `_` field, then a dispatch chain in the source's order.

Two small modules serve all four: `Text` (`text.dfy`) gives Python's `reversed`, `str.strip`, `str.split`, `int` and `str` on ASCII text, and `Wrappers` (`wrappers.dfy`) the `Option` that stands for Python's None.

Module `Bank` (`bank.dfy`) puts the four parts into one class, `Bot`:

- **Commands.** `new`, `add`, `use`, `reset`, `handle_left_member`, `co`, `prom`, `dem`, `bal` and `infobank` are methods.
  - The guard chains of `co`/`prom`, `dem`, `new`, `add`, `use` and `reset` are functions, in the source's order.
  - Those methods return an explicit `Outcome`, `Applied` or `Rejected(reason)`. The source instead just deletes the command message.
  - `bal` and `infobank` have no guard function. They return the `Screen` they show (`NoScreen` when they show nothing), and their `ensures` states each branch.
- **Clicks.** `button_callback` is `Callback`.
  - It drops the registry keys of the view being left.
  - It then registers the key of the view being shown, with a new pending timer.
- **Expiry.** `schedule_auto_delete` is the event `Fire(key)`.
  - It consumes one pending timer.
  - It deletes the message and drops the key only if the key is still registered.

Every method of `Bot` that changes its state keeps the class invariant `Valid()`, except `AddTransaction`, the helper of `add` and `use`, which keeps the history part of it when the entry's amount is positive. The invariant says:

- roles are disjoint and have no repeats;
- no balance is negative and no id has two rows;
- no history is over ten entries;
- every key in `BAL_MESSAGES` or `INFOBANK_MESSAGES` has a pending timer that will expire it.

A view shown for an account that does not exist registers no key (as in `show_transaction_history` and "go back"). No timer ever deletes such a message, in the source or in the model.

The button data is modelled on actual strings, so these properties are proved:

- the data of every button the bot makes parses back to its own action, for its owner only;
- a click by anyone else, data that fails to parse, and data without a known prefix all change nothing.

`StaleTimerExpiresReopenedView` follows one concrete case step by step:

1. The owner opens a balance view.
2. The owner moves to the history and back.
3. The timer from the first opening fires. It deletes the re-opened view early, because expiry checks only that the key is present.

A few design points, in the source's own terms:

- **Amounts are integers.** `float(...)` appears only as `FloatValue` (finite, ±inf, NaN), to state the amount-guard finding below. The commands use the corrected guard: a finite amount above zero.
- **Timestamps** are opaque strings passed in as `now`.
- **Callback data that the bot never writes.** Example: `history_1_2_3`, clicked by user 3. It is handled exactly as the source handles it. The owner check reads the last field, but the dispatch reads fixed positions. So user 3 runs `OpenHistory(1, 2)`. The bot itself never produces such data.
- **`handle_left_member` keeps the account's `TRANSACTION_HISTORY` entry.** The model keeps it too (`HandleLeftMember` does not modify `history`).

## Model

| member | source | states |
|---|---|---|
| Roles.RoleHierarchy | bank_bot.py:100-118 | whoever may manage users may modify accounts; a manager who is neither owner nor co-owner may modify but not manage; without a username only the owner may modify |
| Roles.IsOwner | bank_bot.py:104-106 | `is_owner`: the user id is `OWNER_ID` |
| Roles.IsCoOwner | bank_bot.py:108-110 | `is_co_owner`: a truthy username that is in `CO_OWNERS` |
| Roles.IsManager | bank_bot.py:112-114 | `is_manager`: a truthy username that is in `ADMINS` |
| Roles.CanModify | bank_bot.py:100-102 | `can_modify`: the owner, or a truthy username in `ADMINS` or in `CO_OWNERS`; its relation to `can_manage_users` is RoleHierarchy |
| Roles.CanManageUsers | bank_bot.py:116-118 | `can_manage_users`: the owner, or a truthy username in `CO_OWNERS` |
| Roles.RemoveFirst | bank_bot.py:650 | `list.remove(x)`; what it keeps and drops is stated by RemoveFirstDropsFirst |
| Roles.RemoveFirstDropsFirst | bank_bot.py:650 | `list.remove(x)` removes the first `x` only: one element shorter, every other element in its old order. When `x` is absent the model returns the list unchanged; Python raises ValueError there, but every call (lines 650, 720, 790, 794) is guarded by `in`, so the source never reaches that case |
| Roles.RemoveFirstMembers | bank_bot.py:650 | in a list without repeats, `remove(x)` leaves no `x` and keeps every other member |
| Roles.RemoveFirstNoDuplicates | bank_bot.py:790-794 | removing from a list without repeats leaves a list without repeats, no `x`, the other members kept |
| Roles.PromotionKeepsRoles | bank_bot.py:648-655 | removing the target from the other list and appending it to the destination keeps both lists repeat-free and disjoint, with the target in the destination only |
| Roles.DemotionKeepsRoles | bank_bot.py:788-795 | removing the target from both lists keeps the role invariant, the target is in neither list, and every other user keeps exactly the roles it had |
| Bank.PromoteGuard | bank_bot.py:607-646 | the guard chain of `co` (and of `prom` at lines 677-716), first failure first: the manage right, a reply target, not a bot, not already in the destination list |
| Bank.DemoteGuard | bank_bot.py:747-787 | the guard chain of `dem`: the manage right, a reply target, not a bot, in `ADMINS` or in `CO_OWNERS` |
| Bank.Bot.Co | bank_bot.py:607-655 | `co`: outcome follows the guard chain (manage right, reply, not a bot, not already co-owner); rejection changes nothing; success appends the target to `CO_OWNERS` and removes it from `ADMINS`; the role invariant holds |
| Bank.Bot.Prom | bank_bot.py:677-725 | `prom`: the same with the lists swapped |
| Bank.Bot.Dem | bank_bot.py:747-795 | `dem`: rejected with no change when the target is in neither list; on success each list is `list.remove` of the target where it held it, so the target is in neither list and every other entry keeps its place |
| Ledger.FindUserRow | bank_bot.py:75-84 | `find_user_row`: None exactly when no row holds the id; otherwise the 1-based sheet row of the first row holding it |
| Ledger.FirstIndex | bank_bot.py:78-81 | the data index of the first row holding the id, the row count when there is none |
| Ledger.HasAccount | bank_bot.py:75-84 | `find_user_row` returns a row, that is, some row holds the id |
| Ledger.FirstIndexIsFirstMatch | bank_bot.py:78-81 | the first match found by the scan is the index every other member uses |
| Ledger.UniqueRow | bank_bot.py:75-84 | with unique ids any row holding the id is the one the scan finds |
| Ledger.DeleteRow | bank_bot.py:91 | `sheet.delete_rows`: one row fewer, the rows before it in place and every row after it one place up |
| Ledger.LedgerEdits | bank_bot.py:91 | deleting a row, or rewriting a row in place with the same id and a balance at or above zero, keeps the ledger invariant |
| Ledger.DeleteRemovesId | bank_bot.py:86-95 | after deleting the row of an id no row holds it, and every other id keeps or lacks its account as before |
| Ledger.OpenKeepsLedger | bank_bot.py:862-870 | appending a zero-balance row for an id without an account keeps the ledger invariant |
| Ledger.TotalBalance | bank_bot.py:570-572 | the sum of the balances; TotalBalanceNonNegative, TotalAfterWrite and TotalAfterDelete state its properties |
| Ledger.TotalBalanceNonNegative | bank_bot.py:570-572 | the total value shown by `infobank` is at least zero |
| Ledger.TotalAfterWrite | bank_bot.py:960-965 | rewriting one row moves the total by exactly that row's change |
| Ledger.TotalAfterDelete | bank_bot.py:86-95 | deleting a row takes exactly its balance off the total |
| Ledger.NewestAccounts | bank_bot.py:1341-1343 | the data list is the rows newest first, cut to the first thousand |
| Ledger.Link | bank_bot.py:868 | the stored link `<a href="tg://user?id=ID">NAME</a>` of a new account |
| Ledger.DisplayLastTx | bank_bot.py:384-388 | an empty last-transaction cell reads "Never"; one without a bullet is shown as is; one with a bullet is cut at the first bullet and stripped |
| Ledger.BulletCellShowsHead | bank_bot.py:387-388 | a cell holding a bullet shows the stripped text before its first bullet |
| Ledger.SeparatorCellShowsDate | bank_bot.py:387-388 | a cell of a file separator, a date, a space, a bullet and anything after shows exactly the date |
| Ledger.NaNAmountPassesGuard | bank_bot.py:930-938 | the text "nan" passes `amount <= 0` being false, and the balance it credits is not at least zero |
| Ledger.AmountAcceptedAsWritten | bank_bot.py:930-946 | the amount guard of `add` (and of `use` at lines 1027-1043) as written: `float()` must succeed and `amount <= 0` must be false, so NaN and positive infinity pass |
| Ledger.PositiveAmount | bank_bot.py:930-946 | the corrected amount guard accepts exactly what the written guard accepts and gives a finite balance; the amount is above zero, and crediting it to any balance at or above zero leaves a finite balance at or above zero |
| Ledger.CorrectedAmountGuard | bank_bot.py:930-946 | the corrected guard accepts a subset of what the written one accepts, differing exactly on NaN and positive infinity |
| Bank.AmountOf | bank_bot.py:926-946 | the amount read from the first argument, None when there is none or the corrected guard refuses it |
| Bank.CreditGuard | bank_bot.py:900-957 | the guard chain of `add`, first failure first: the modify right, a reply target, an argument, an amount above zero, an account |
| Bank.DebitGuard | bank_bot.py:997-1063 | the guard chain of `use`: the chain of `add`, then a balance that covers the amount |
| Bank.NewGuard | bank_bot.py:817-865 | the guard chain of `new`: the modify right, a reply target, not a bot, no account yet |
| Bank.ResetGuard | bank_bot.py:1104-1132 | the guard chain of `reset`: the modify right, a reply target, an account |
| Bank.MoneyGuards | bank_bot.py:904-957 | `add` applies exactly when the caller may modify, a reply target exists, a positive amount is given and the target has an account; `use` in addition needs the balance to cover the amount |
| Bank.Bot.New | bank_bot.py:817-870 | `new`: outcome follows the guard chain (modify right, reply, not a bot, no account yet); success appends the row `(id, full name, "@username" or "", link, 0, now, "")` |
| Bank.Bot.RowOf | bank_bot.py:75-84 | the data index of the id's row through `find_user_row`, None exactly when it has none |
| Bank.Bot.AddTransaction | bank_bot.py:139-154 | `add_transaction`: the history of the id becomes the newest ten of its old history plus the new entry; no other history changes; an entry of a positive amount keeps every history within ten entries of positive amounts |
| History.HistoryOf | bank_bot.py:435 | `TRANSACTION_HISTORY.get(id, [])` |
| History.Newest | bank_bot.py:152-154 | `entries[-10:]`: ten entries, or all when fewer, and they are the last ones of `entries` in their order |
| History.AppendEvictsOldest | bank_bot.py:139-154 | after one append the history is the last min(n+1, 10) entries of old + [new]; it ends with the new entry; at ten the oldest is evicted |
| History.AppendKeepsHistory | bank_bot.py:139-154 | one append of a positive amount, or a deletion, keeps every history at most ten entries long and of positive amounts |
| History.NewestOfAppend | bank_bot.py:152-154 | trimming to ten before an append changes nothing after the next trim |
| History.ReplayKeepsNewest | bank_bot.py:139-154 | after any number of appends the stored history is the newest ten of everything appended, in order |
| Bank.Bot.Add | bank_bot.py:900-968 | `add`: outcome follows the guard chain in the source's order; rejection changes neither sheet nor history; success sets balance + amount and the last-transaction time, appends exactly one "added" entry, raises the total by the amount, keeps the invariant |
| Bank.Bot.Use | bank_bot.py:997-1076 | `use`: as `add` plus the insufficient-funds rejection; success sets balance - amount (never negative), appends exactly one "used" entry, lowers the total by the amount |
| Bank.Bot.Reset | bank_bot.py:1104-1143 | `reset`: outcome follows the guard chain; success sets the balance to 0, stamps the time and deletes the account's history entry |
| Bank.Bot.DeleteUserAccount | bank_bot.py:86-95 | `delete_user_account`: true exactly when the id had a row, which is then removed; afterwards no row holds the id |
| Bank.Bot.HandleLeftMember | bank_bot.py:1166-1187 | a leaving member's account is deleted if present, no other account is touched, the history is kept |
| History.PerAdminNet | bank_bot.py:483-494 | the per-admin loop: one key per executor name in the history, each mapped to its net over the whole history |
| History.Signed | bank_bot.py:487-491 | an "added" entry counts its amount, a "used" entry minus its amount, any other type nothing |
| History.NetOf | bank_bot.py:483-494 | the net of one name over the history; NetOfConcat, NetOfOthersOnly and NetOfAbsent state its properties |
| History.NetsOf | bank_bot.py:483-494 | the table `show_per_admin` builds: one key per executor name; PerAdminNet is proved to compute it |
| History.NetOfConcat | bank_bot.py:483-494 | the net of a name is additive over consecutive parts of the history |
| History.NetOfOthersOnly | bank_bot.py:483-494 | a name that executed only entries of other types maps to 0 |
| History.NetOfAbsent | bank_bot.py:483-494 | a name that executed nothing has net 0 |
| History.RecentNewestFirst | bank_bot.py:445 | the history view shows at most ten entries, the newest first |
| Text.Reverse | bank_bot.py:445 | `reversed`: same length, element k is element n-1-k |
| Text.Strip | bank_bot.py:388 | `str.strip()`: an infix with whitespace only cut from either end, itself starting and ending with non-whitespace; whitespace here is the six ASCII spaces and the four separators `\x1c`-`\x1f` |
| Text.StripSeparatorPadded | bank_bot.py:388 | `strip()` removes a leading file separator and a trailing space around a word |
| Text.Split | bank_bot.py:1200 | `str.split("_")`: at least one piece, no piece holds the separator, the first piece is the text up to the first separator |
| Text.ParseIntToString | bank_bot.py:1202 | `int(str(n)) == n`: ids written into callback data read back as the same ids |
| Text.ParseInt | bank_bot.py:1202 | `int(text)`: a number is read only from text holding a digit and none of the separators `\x1c`-`\x1f`, which `int()` does not skip |
| Text.SeparatorStrippedNotParsed | bank_bot.py:388 | a leading `\x1c` is removed by `strip()`, while `int()` refuses the same text |
| Text.IntToString | bank_bot.py:395 | `str(n)` inside the f-strings: non-empty, made only of digits and `-`, so it holds no `_` |
| Text.SplitJoin | bank_bot.py:1222-1225 | splitting joined pieces that hold no separator gives the pieces back |
| Sessions.SplitEncode | bank_bot.py:1222-1225 | the data of every button splits into its tag words followed by its ids |
| Sessions.Encode | bank_bot.py:395-396 | the callback data of each button, as the f-strings of lines 395-396, 457-459, 510-511, 539-540 and 581-583 write it; SplitEncode and RouteEncode state its properties |
| Sessions.LastId | bank_bot.py:1202 | `int(data.split("_")[-1])`, None where `int` raises |
| Sessions.IdsAt | bank_bot.py:1222-1225 | `int(parts[i])` and `int(parts[i + 1])`, None where an index is out of range or `int` raises |
| Sessions.Authorize | bank_bot.py:1198-1218 | the owner check: the click is refused exactly when the last field reads as an id other than the clicker's, and an action runs only for the clicker the last field names |
| Sessions.BalancePrefixed | bank_bot.py:1198 | the data starts with one of "history_", "close_bal_", "per_admin_", "history_back_", "bal_back_" |
| Sessions.SummaryPrefixed | bank_bot.py:1210 | the data starts with one of "data_list_", "go_back_", "close_", "admin_list_" |
| Sessions.Dispatch | bank_bot.py:1221-1442 | the dispatch chain: it never refuses a click for its owner, and matches nothing exactly when the data has none of the nine prefixes |
| Sessions.Route | bank_bot.py:1196-1218 | the owner check on balance-side data of three or more fields and on all summary-side data, then the dispatch chain; RouteEncode, RunNeedsOwner and UnknownPrefixIgnored state its properties |
| Sessions.PrefixTable | bank_bot.py:1198-1221 | which tested prefixes each button's data starts with: "history_" is shared by the history button and its "back" button, "close_" by both close buttons, every other prefix is its own |
| Sessions.RouteEncode | bank_bot.py:1196-1427 | the data of every button the bot makes runs its own action when its owner clicks it, and is refused for anyone else |
| Sessions.RunNeedsOwner | bank_bot.py:1198-1218 | no data of any form runs an action unless its last field reads as the clicker's id |
| Sessions.UnknownPrefixIgnored | bank_bot.py:1196-1450 | data without any of the nine prefixes does nothing |
| Sessions.ActionScope | bank_bot.py:1221-1442 | a click only touches keys of its own message and owner; it never drops the key it registers; the close buttons register nothing and drop all three views of their side |
| Sessions.Dropped | bank_bot.py:1226-1442 | the keys each click deletes from `BAL_MESSAGES` or `INFOBANK_MESSAGES` before re-rendering; ActionScope states their scope |
| Sessions.Registers | bank_bot.py:469-470 | the key the re-rendered view stores, as at lines 469-470, 521-522, 550-551, 1306-1307, 1365-1366 and 1423-1424; the close buttons store none |
| Bank.Bot.ShowAccount | bank_bot.py:1260-1308 | the account view after "go back": shown and registered with a new timer only when the account exists |
| Bank.AccountScreenOf | bank_bot.py:1271-1290 | the account view: the row of the id and its shown last transaction, nothing when the id has no row |
| Bank.HistoryScreenOf | bank_bot.py:424-452 | the history view: the newest ten entries newest first, the stored count, the balance and creation date |
| Bank.PerAdminScreenOf | bank_bot.py:473-505 | the per-admin view: the nets by executor name and the balance |
| Bank.ScreenAfter | bank_bot.py:1221-1442 | what each button's action shows on its message |
| Bank.Registered | bank_bot.py:1260-1308 | the key a click registers: none for a balance-side view whose account is gone |
| Bank.Bot.ShowTransactionHistory | bank_bot.py:424-471 | `show_transaction_history`: the newest ten entries newest first, the stored count, the balance and creation date; registered only when the account exists |
| Bank.Bot.ShowPerAdmin | bank_bot.py:473-523 | `show_per_admin`: the per-admin nets and the balance; registered only when the account exists |
| Bank.Bot.ShowSummary | bank_bot.py:1380-1425 | the summary view: the number of accounts and their total; registered with a new timer |
| Bank.Bot.ShowList | bank_bot.py:525-552 | the data list or the admin list; registered with a new timer |
| Bank.Bot.Bal | bank_bot.py:352-416 | `bal`: a role holder replying sees the replied-to account, anyone else replying sees nothing, a plain `bal` shows one's own; shown and registered only when that account exists |
| Bank.BalTarget | bank_bot.py:352-375 | whose account `bal` shows: the replied-to user for a caller who may modify, nobody for anyone else replying, the caller without a reply |
| Bank.Bot.Infobank | bank_bot.py:554-597 | `infobank`: only the owner and co-owners get the summary and a registered key; anyone else changes nothing |
| Bank.Bot.Render | bank_bot.py:1221-1442 | the re-rendering half of a click: the view the action shows, and its key registered on the action's side with one new timer |
| Bank.Bot.RenderBalance | bank_bot.py:1221-1327 | the balance-side views and the close of a balance message |
| Bank.Bot.RenderSummary | bank_bot.py:1332-1442 | the summary-side views and the close of a summary message |
| Bank.Bot.Callback | bank_bot.py:1189-1450 | `button_callback`: a malformed, unauthorised or unmatched click changes nothing and shows nothing; otherwise the left views' keys are dropped, the new view's key registered with one new timer, on that side only |
| Bank.Click | bank_bot.py:1189-1450 | the owner clicking a button the bot made runs exactly that button's action |
| Bank.Bot.Fire | bank_bot.py:156-180 | `schedule_auto_delete` firing: one pending timer consumed; the message is deleted exactly when its key was still registered; the key is gone afterwards, so firing again for it changes nothing |
| Bank.Bot.constructor | bank_bot.py:133-137 | empty lists, sheet, history and registries satisfy the invariant |
| Bank.BalanceViewShown | bank_bot.py:352-416 | the owner opens a member's account and its balance view: one live key, one timer |
| Bank.HistoryAndBack | bank_bot.py:1221-1308 | history then "go back" on the same message: the balance key is live again with two timers behind it |
| Bank.StaleTimerExpiresReopenedView | bank_bot.py:156-180 | the first timer of a balance view deletes the re-opened view early, and leaves a timer pending for a key that is already gone |

## Left out

- The Telegram transport: sending, editing and deleting messages, `query.answer`, the HTML text and the `asyncio.sleep` delays. A `Screen` value stands for the data a view is rendered from.
- Google Sheets and the credential setup. The sheet is an in-memory sequence of rows. The `except: return None` of `find_user_row` and the `except: return False` of `delete_user_account` cover store faults, which the model does not have.
- JSON persistence (`save_admins`, `save_co_owners`, `save_config` and the startup loads): file I/O.
- `send_log`, `setlog` and `connect`: network I/O and chat-membership checks.
- Floating point.
  - Amounts and balances are whole numbers. `FloatValue` models only what the amount guard needs.
  - The format specifiers (`:02.0f`, `:,.0f`, `:04d`) and the float sum of `infobank` are text rendering of those numbers.
- Wall-clock time: `format_datetime()` is the parameter `now`. `add` and `use` read the clock twice (sheet cell and history entry), and the model uses the same `now` for both.
- Concurrency: the lost update between interleaved `add`/`use` calls needs asyncio interleaving. The model runs one command at a time.
- Text.Strip: Unicode whitespace outside ASCII (`\x85`, `\xa0` and the like) is not removed; the model works on ASCII whitespace only.
- Ledger.DisplayLastTx: it strips the last-transaction cell with `Text.Strip`, so the same non-ASCII whitespace stays in place.
- Text.ParseInt: Unicode digits and whitespace, and `_` between digits (`int("1_000")`), are not accepted. The ids it reads are fields cut by `split("_")`, so they never hold a `_`.
- Bank.Bot.ShowList: `sorted(ADMINS)` is shown as the multiset of admins. Neither the order nor the TypeError that a None username raises while sorting is modelled.
- Bank.Bot.ShowPerAdmin: the nets are a map, so the order in which the view lists the names is not modelled.
- Telegram decides which message a click comes from; the model takes the clicked message's id as a parameter.

## Findings

| source | as written | input that shows it | evidently intended | confidence | as-written member | corrected member |
|---|---|---|---|---|---|---|
| bank_bot.py:930-946 | `amount = float(args[0])` (the same code in `use` at lines 1027-1043) is rejected only when `amount <= 0`; `float` accepts "nan" and "inf", for which that test is false | `/add nan` replying to an account holder: the balance becomes nan, which is not at least zero; `/use` then cannot reject it, since `nan < amount` is false | only finite amounts above zero are accepted | not executed | Ledger.NaNAmountPassesGuard | Ledger.CorrectedAmountGuard |
