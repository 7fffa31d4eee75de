# Tour ledger model

A Dafny model of the ledger inside a group-travel cost-sharing server. A
tour document owns an ordered list of friends and an ordered list of
expenses. Each friend has an email and a running balance. The handlers read
a tour, change it in memory and write it back:

- **add expense** pushes the expense onto the expense list, creating the
  list first when it is missing. It then splits the amount equally over the
  `n` friends. Each friend whose email equals the expense's email is credited
  `amount - amount/n`. Every other friend is debited `amount/n`.
- **add friend** builds a new document whose friend list is the old one
  (missing read as empty) with the request body appended. It does not
  de-duplicate.
- **remove friend** finds the first friend with the email (`findIndex`) and
  splices that entry out. It reports "friend not found" when there is none.
- **tour lookup** lists, in store order, the tours whose organizer is the
  email or whose friend list contains the email.
- **registration** rejects an email that is already in the user table.
  Otherwise it inserts exactly one record.

Modules:

- `Ledger` (ledger.dfy): the entities `Friend`, `Expense` and `Tour`. Fields
  the store may lack are `Option`s. The module also holds the error
  outcomes, the balance total `Total` and the email count `CountEmail`.
- `Settlement` (settlement.dfy): the equal split `Split` over a friend list,
  with its entry-by-entry effect and its conservation law.
- `Tours` (tours.dfy): the three tour handlers.
  - The spec functions `AddFriend`, `FriendRemoved` and `ExpenseAdded` take
    the store's read as `found` and return the document to write back (`Ok`)
    or the error (`Err`, nothing written).
  - `TourDocument` is the loaded document. Its methods `AddExpense` and
    `RemoveFriend` update it in place with the source's loop and splice, and
    are proved against those spec functions.
  - `HandleAddExpense` and `HandleRemoveFriend` load the document, mutate it
    and return what would be written.
- `Lookup` (lookup.dfy): the tour membership filter.
- `Users` (users.dfy): the user table, the class `UserCollection` with its
  in-place `Register`, and the email-uniqueness invariant.

The store's calls are not modelled as code. A read is an argument and a
write is the result. Amounts and balances are exact `real`s.

Where the code and the design description disagree, the model follows the
code:

- **Zero friends.** The design says an expense on a tour with no friends
  must be rejected. The code pushes the expense, and its balance loop then
  has nothing to visit, so only the expense list changes and the tour is
  written back (`AddExpenseNoFriends`).
- **Payer not a friend.** The design says the payer must match a friend. The
  code silently drops the payer's credit, so the total of the balances drops
  by the amount (`AddExpenseTotal`, `SplitLosesCredit`).
- **Zero-sum ledger.** The design states that balances always sum to zero.
  The model proves this only when exactly one friend carries the payer's
  email. In general the total moves by `(k - 1) * amount`, where `k` is the
  number of friends with that email.
- **Missing friend list.** With no friend list on the document, add-expense
  and remove-friend throw inside their `try`. They answer 500 and write
  nothing, which is the model's `InternalError`.

## Model

| member | source | states |
|---|---|---|
| Tours.AddFriend | index.js:189-195 | absent tour gives TourNotFound; otherwise the friend list (missing read as empty) grows by exactly one, keeps the old entries as its prefix, ends with the new friend, and no other field changes |
| Tours.AddFriendKeepsDuplicates | index.js:192-195 | no de-duplication: the added email occurs exactly once more than before, even when already present |
| Tours.FirstMatch | index.js:218 | the result is None exactly when no friend has the email; otherwise it is an index whose entry has the email and before which no entry has it |
| Tours.FindFriendIndex | index.js:218-222 | findIndex: -1 exactly when no friend has the email, otherwise the first matching index |
| Tours.RemoveFriendMissing | index.js:213-222 | absent tour gives TourNotFound; no friend with the email gives FriendNotFound, and nothing is written |
| Tours.RemoveFriendFirst | index.js:218-225 | with i the first index carrying the email, the written tour is the old one with exactly entry i spliced out |
| Tours.RemoveFriendCounts | index.js:218-225 | a successful removal shortens the list by one, removes one occurrence of the email (later duplicates stay), keeps every other email's count, and the rest plus the removed entry is the old multiset |
| Tours.AddThenRemoveFriend | index.js:192-225 | adding a friend with a new email and then removing that email restores the friend list |
| Tours.FriendRemoved | index.js:211-225 | the definition of what remove-friend writes back: TourNotFound, InternalError for a missing list, FriendNotFound, or the tour with the first match spliced out; its contract says it succeeds exactly when the tour and list exist and some friend has the email; RemoveFriendMissing, RemoveFriendFirst, RemoveFriendCounts and AddThenRemoveFriend state its properties |
| Tours.TourDocument.RemoveFriend | index.js:217-225 | in place: on success the document equals the spec's written tour; on failure it is unchanged and the error is reported |
| Tours.HandleRemoveFriend | index.js:211-228 | the handler's written tour or error equals FriendRemoved of the read |
| Tours.ExpenseAdded | index.js:245-273 | the definition of what add-expense writes back: the expense appended and the friends settled by Settlement.Split; its contract says it succeeds exactly when the tour and its friend list exist and keeps the friend count; AddExpenseAppends, AddExpenseBalances, AddExpenseTotal and AddExpenseNoFriends state its properties |
| Tours.AddExpenseAppends | index.js:247-257 | fails exactly when the tour or its friend list is missing; otherwise exactly one expense is appended at the end of the (created if missing) list, earlier expenses and the tour's other fields unchanged |
| Tours.AddExpenseBalances | index.js:259-270 | every friend matching the expense email ends at balance + (amount - amount/n), every other at balance - amount/n; length, order, emails and profiles are kept |
| Tours.AddExpenseTotal | index.js:259-270 | the total of the balances changes by (k - 1) * amount: kept when exactly one friend matches, down by the amount when none does |
| Tours.AddExpenseNoFriends | index.js:252-270 | with an empty friend list only the expense list changes |
| Tours.AddExpensesKeepTotal | index.js:252-273 | serialized expenses whose emails each match exactly one friend keep the friend count and the balance total (zero stays zero) and append all expenses in order |
| Tours.AddExpenses | index.js:245-273 | the definition of serialized add-expense requests, one ExpenseAdded after another; its contract says the series succeeds exactly when it is empty or the friend list exists, and keeps the friend count; AddExpensesKeepTotal states its zero-sum property |
| Tours.TourDocument.AddExpense | index.js:251-270 | in place: on success the document equals the spec's written tour; when the friend list is missing only the pushed expense is in memory and InternalError is reported |
| Tours.HandleAddExpense | index.js:245-273 | the handler's written tour or error equals ExpenseAdded of the read |
| Settlement.Split | index.js:260-270 | the definition of the equal split (share amount/n, each entry settled by Settled, all of them by SettleAll; nothing visited when n = 0); its contract keeps the length; SplitAt, SplitTotal, SplitKeepsTotal, SplitLosesCredit and SplitCount state its properties |
| Settlement.SettleAll | index.js:264-270 | the definition of the forEach over the friends with a fixed share; its contract keeps the length; SettleAllAt and SettleAllTotal state its properties |
| Settlement.SplitAt | index.js:264-270 | entry by entry, the split credits the payer amount - amount/n and debits every other friend amount/n, keeping email and profile |
| Settlement.SettleAllTotal | index.js:264-270 | visiting n friends, k of them matching, with share s moves the total by k * amount - n * s |
| Settlement.SplitTotal | index.js:260-270 | with n > 0 friends, the split moves the balance total by exactly k * amount - amount |
| Settlement.SplitKeepsTotal | index.js:260-270 | exactly one matching friend: the total is preserved (zero-sum ledger) |
| Settlement.SplitLosesCredit | index.js:260-270 | no matching friend: the total drops by the whole amount |
| Settlement.SplitCount | index.js:264-270 | the split keeps the length and the number of entries carrying each email |
| Settlement.SplitNinetyThreeWays | index.js:260-270 | three friends at zero, the first pays 90: balances become 60, -30, -30 and sum to 0 |
| Lookup.BelongsTo | index.js:101-106 | the definition of the query: organizerBy equals the email, or some friend carries it (a tour without a friend list matches only by organizer); ToursFor, ToursForConcat and ToursForExtremes state the listing it filters |
| Lookup.ToursFor | index.js:101-106 | every listed tour is in the store and belongs to the email, every store tour that belongs is listed, and the listing is no longer than the store |
| Lookup.ToursForConcat | index.js:101-106 | the filter distributes over concatenation of the store, so store order is kept |
| Lookup.ToursForExtremes | index.js:101-106 | when all tours belong the listing is the store; when none does it is empty |
| Users.Insert | index.js:31-43 | the definition of check-then-insert; its contract says it fails with UserExists exactly when the email is taken and otherwise appends exactly the new record; InsertKeepsDistinct and RegisterTwice state its properties |
| Users.InsertKeepsDistinct | index.js:31-43 | a taken email is rejected; a free one appends exactly the new record and keeps emails pairwise distinct |
| Users.RegisterTwice | index.js:31-43 | on a table without the email, the first registration succeeds, the second with the same email fails, and exactly one record carries the email |
| Users.RegisterAllDistinct | index.js:31-43 | under any sequence of registrations emails stay pairwise distinct and the table grows by at most one record per attempt |
| Users.RegisterAll | index.js:31-43 | the definition of serialized registrations, a rejected attempt keeping the table; RegisterAllDistinct states that emails stay distinct and the growth bound |
| Users.UserCollection.Register | index.js:31-43 | in place: a taken email leaves the table unchanged with UserExists, otherwise the table is the old one plus the record; distinct emails are preserved |

## Left out

- HTTP routing, CORS and JSON middleware, status codes and response bodies (index.js:9-11, 45-48, 69-78, 283-300): transport plumbing.
- The store client (connection, `ObjectId` parsing and its exceptions, `findOne`/`updateOne`/`insertOne`/`deleteOne`/`find`): foreign calls. A read is the `found` argument and a write is the `Ok` result.
- Password hashing (index.js:40) and comparison (index.js:62): a foreign, salted library. The hash is passed to `Users.UserCollection.Register` as an argument.
- Login (index.js:52-79): a lookup plus a hash comparison by the foreign library, with nothing local to verify.
- The user search (index.js:166-178): its matching is the regular-expression engine's.
- Tour creation, update and deletion (index.js:82-94, 114-151): verbatim insert, field projection with `parseInt`, and a pass-through delete, with no ledger logic.
- Floating-point division (NaN, Infinity, rounding drift), a friend without a balance, and an amount sent as a string: amounts and balances are exact reals and every friend has a balance.
- Tours.TourDocument.AddExpense: with zero friends the division `amount / 0` is not evaluated, because its JavaScript result is never used.
- Concurrent requests and the lost update between a handler's read and its write-back: every operation is atomic in the model.
- The extra fields of a request body, such as a friend's name or a tour's dates: these are opaque maps (`profile`, `fields`) that the operations never touch.
