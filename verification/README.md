# Cohabit household ledger and chore lifecycle, in Dafny

Cohabit is a roommate app: users form a *house* (one admin, a member list,
an invite code), record shared *expenses* that are split between members,
and track *chores* through a small completion state machine. This project
models the core of its backend and of its two main client components, and
proves what they promise:

- **Users and houses** (`user.dfy`, `house.dfy`): user creation with its
  trimming, defaults, avatar and public profile; the house's ordered member
  list with `addMember` / `removeMember` and the invite-code pre-save hook.
- **Expenses** (`expense.dfy`): equal-share recomputation, the `isSettled`
  virtual, and the balance fold. The fold is proved equal to per-user
  reference sums. It has one row per participant, and its balances sum to
  zero when the splits are exact.
- **Chores** (`chore.dfy`): the `completed` / `status` / `completedAt`
  state machine, its repairing pre-save hook, `isOverdue`, and the
  house/user statistics with the rounded completion rate.
- **Route handlers** (`house_routes.dfy`, `expense_routes.dfy`,
  `chore_routes.dfy`): each handler is a method over a store. It runs its
  ordered guards, and errors leave the store unchanged. Store invariants:
  unique members, the admin listed as admin, distinct invite codes, unique
  ids, consistent chores.
- **Middleware** (`auth.dfy`): bearer-token extraction, `protect`, and the
  member / admin checks.
- **Demo server** (`server.dfy`): register and login guard chains, and the
  in-memory expense and chore lists the front end actually calls. Those
  records are JSON objects built by spreading the request body.
- **Client** (`dashboard.dfy`, `auth_pages.dfy`): the dashboard's balance
  table, summary figures, split toggle and list updates, and the sign-in /
  sign-up form validators and strength meter.

`common.dfy` holds `Option`/`Result`, identifiers and list helpers
(`filter` and `findIndex` by key). `text.dfy` holds the JavaScript string
operations used: `trim`, `split` on one character, ASCII case mapping and
the `\s` class.

Amounts are exact `real`s; clocks, random numbers, password hashing and
token verification are parameters. "" stands for an absent string field and
`None` for an absent value (both are falsy in JavaScript).

## Model

| member | source | states |
|---|---|---|
| UserModel.NewUser | backend/models/User.js:5-53 | a user is created iff both trimmed names have at least 2 characters, the trimmed email is non-empty and the password has at least 8; a refusal names at least one field; the new user has no house, role member, is active, has trimmed names, the lower-cased trimmed email, the hashed password and the two upper-cased initials as avatar |
| UserModel.AvatarIsInitials | backend/models/User.js:34-39 | for non-empty names the default avatar is the upper-cased first character of each name |
| UserModel.ProfileHidesPassword | backend/models/User.js:80-90 | the public profile does not depend on the stored password |
| HouseModel.House.AddMember | backend/models/House.js:70-82 | an unlisted user gets exactly one entry with the given role (member by default) appended; a listed user leaves the list unchanged; uniqueness and existing admin entries are preserved; the user ends up listed |
| HouseModel.House.RemoveMember | backend/models/House.js:84-87 | the member list becomes the filter without the user; uniqueness is preserved |
| HouseModel.Without | backend/models/House.js:85 | the filter keeps exactly the entries of other users, and the removed user is no longer listed |
| HouseModel.WithoutDistributes | backend/models/House.js:85 | the filter distributes over concatenation, so surviving entries keep their order |
| HouseModel.WithoutNonMember | backend/models/House.js:85 | removing a user who is not listed leaves the list unchanged |
| HouseModel.WithoutKeepsOthers | backend/models/House.js:85 | every other user's listing and admin listing survive removal |
| HouseModel.WithoutKeepsUnique | backend/models/House.js:85 | removal preserves "each user at most once" |
| HouseModel.AppendKeepsUnique | backend/models/House.js:71-79 | appending an unlisted user keeps uniqueness and lists that user |
| HouseModel.AppendKeepsAdmins | backend/models/House.js:74-78 | appending an entry keeps every admin entry |
| HouseModel.House.PreSave | backend/models/House.js:63-68 | a code is drawn only when none is present; an existing code is never overwritten |
| HouseModel.InviteCodeFrom | backend/models/House.js:65 | a drawn invite code has at most 8 characters, all digits or upper-case letters |
| HouseModel.House.constructor | backend/models/House.js:3-61 | a new house has the given fields, no invite code yet, currency USD, equal split and is active |
| ExpenseModel.ParseCategory | backend/models/Expense.js:20-24 | a category string is accepted exactly when it spells one of the six categories |
| ExpenseModel.CategoryRoundTrip | backend/models/Expense.js:20-24 | every category's name parses back to it |
| ExpenseModel.AllSettled | backend/models/Expense.js:77-79 | `isSettled` holds iff every split is settled, vacuously for none |
| ExpenseModel.EqualShares | backend/models/Expense.js:81-90 | same number of splits, same users and settled flags, each amount times the split count equals the expense amount |
| ExpenseModel.SharesSumToAmount | backend/models/Expense.js:82-87 | with at least one split, the recomputed shares sum to the amount |
| ExpenseModel.SharesIdempotent | backend/models/Expense.js:81-90 | recomputing shares twice equals recomputing once |
| ExpenseModel.Expense.CalculateShares | backend/models/Expense.js:81-90 | the splits become the equal shares of the amount, in place, split by split |
| ExpenseModel.Expense.constructor | backend/models/Expense.js:3-72 | a new expense document holds the given fields |
| ExpenseModel.OutsiderHasNothing | backend/models/Expense.js:99-129 | a user who neither paid nor appears in a split has paid and owes nothing |
| ExpenseModel.Fold | backend/models/Expense.js:97-130 | the accumulated table is well formed: insertion order without repeats, keyed exactly by its entries, each entry under its own user |
| ExpenseModel.FoldTotals | backend/models/Expense.js:99-129 | a user has an entry iff they paid or appear in a split, and the entry holds the sum of amounts they paid and the sum of split amounts naming them (the payer's own split included) |
| ExpenseModel.Balances | backend/models/Expense.js:131-135 | one row per entry of the table, in insertion order |
| ExpenseModel.BalancesCoverParticipants | backend/models/Expense.js:97-135 | every payer and split user has a row, and no one else |
| ExpenseModel.BalanceRow | backend/models/Expense.js:131-133 | each row holds paid, owes, and balance = paid - owes for its user |
| ExpenseModel.ChargeSplits | backend/models/Expense.js:114-128 | the inner loop produces the fold's charge of every split |
| ExpenseModel.CreditPayer | backend/models/Expense.js:100-112 | the payer's step (a zeroed entry for a newcomer, then `paid` grows by the amount) produces the fold's enter-then-credit |
| ExpenseModel.FoldAll | backend/models/Expense.js:99-129 | the expense loop produces the fold of the whole list |
| ExpenseModel.CalculateBalances | backend/models/Expense.js:92-136 | the method's rows equal the balances of the list |
| ExpenseModel.NetSumsToUnsplit | backend/models/Expense.js:97-135 | over distinct ids, net positions sum to total amounts minus total split amounts |
| ExpenseModel.BalancesSumToZero | backend/models/Expense.js:97-135 | when every expense's splits sum to its amount, the balances sum to zero |
| ExpenseModel.NetAdds | backend/models/Expense.js:99-133 | net positions and participants add up over two batches of expenses |
| ChoreModel.ParsePriority | backend/models/Chore.js:34-38 | a priority string is accepted exactly when it spells low, medium or high |
| ChoreModel.ParseChoreCategory | backend/models/Chore.js:61-65 | a category string is accepted exactly when it spells one of the five categories |
| ChoreModel.Chore.constructor | backend/models/Chore.js:39-51 | a new chore is pending, not completed, with no completion time, and consistent |
| ChoreModel.Chore.PreSave | backend/models/Chore.js:132-138 | only a completed chore without completion time gets `now` and the completed status; any other chore is unchanged; consistency is preserved |
| ChoreModel.Chore.MarkComplete | backend/models/Chore.js:86-91 | completed, status completed, completion time `now`; consistent and not overdue |
| ChoreModel.Chore.MarkIncomplete | backend/models/Chore.js:93-98 | not completed, status pending, no completion time; consistent |
| ChoreModel.DoneAndOpenMakeTotal | backend/models/Chore.js:101-103 | completed plus pending equals total in any scope |
| ChoreModel.LateWithinOpen | backend/models/Chore.js:103-108 | overdue chores are at most the pending ones |
| ChoreModel.OutOfScopeIgnored | backend/models/Chore.js:100-130 | a chore outside the scope moves no count |
| ChoreModel.CompletionRate | backend/models/Chore.js:115 | 0 for no chores; otherwise the nearest integer to 100 * completed / total with halves rounding up (exact arithmetic), and at most 100 |
| ChoreModel.GetHouseStats | backend/models/Chore.js:100-117 | total, completed, pending and overdue are the house's counts at `now`, the rate is `CompletionRate` of completed over total; completed + pending = total, overdue <= pending, rate in 0..100 and 0 for no chores |
| ChoreModel.GetUserStats | backend/models/Chore.js:119-130 | total, completed and pending are the counts over the user's assigned chores, the rate is `CompletionRate` of completed over total; completed + pending = total, rate in 0..100 and 0 for no chores |
| ChoreModel.UserStatsIgnoreOthers | backend/models/Chore.js:119-122 | a chore assigned to someone else leaves a user's statistics unchanged |
| AuthMiddleware.BearerToken | backend/middleware/auth.js:7-9 | no token unless the header starts with "Bearer"; a token is the non-empty second space-separated word |
| AuthMiddleware.BearerRoundTrip | backend/middleware/auth.js:7-9 | "Bearer " followed by a token gives back the token |
| AuthMiddleware.Protect | backend/middleware/auth.js:4-43 | each refusal holds exactly when its check is the first to fail: no token, a refused token, an id with no user, an inactive user; otherwise the request proceeds as the stored active user |
| AuthMiddleware.ProtectAcceptsActiveUser | backend/middleware/auth.js:7-36 | a well-formed header whose token names an active user is accepted |
| AuthMiddleware.FindHouse | backend/middleware/auth.js:48 | finds a house with the id, or reports that none has it |
| AuthMiddleware.IsHouseMember | backend/middleware/auth.js:81-120 | the id comes from parameter, body, then the user's house; not found iff no such house; accepted iff the user is the admin or listed |
| AuthMiddleware.IsHouseAdmin | backend/middleware/auth.js:45-79 | the id comes from parameter then body; not found iff no such house; accepted iff the user is the admin or listed with role admin |
| AuthMiddleware.AdminPassesMemberCheck | backend/middleware/auth.js:57-68 | whoever passes the admin check passes the member check with the same house |
| AuthMiddleware.AdminCheckHasNoFallback | backend/middleware/auth.js:48 | without parameter or body id the admin check finds no house |
| HouseRoutes.SetHouse | backend/routes/house.js:36-39 | only the user's house and role change |
| HouseRoutes.FindByCode | backend/routes/house.js:105 | finds a house holding the code, or reports that none does |
| HouseRoutes.NewHouse | backend/routes/house.js:25-34 | the new house has the trimmed name and description, the creator as admin and as its only member with role admin, and the invite code the pre-save hook draws |
| HouseRoutes.CreateRefusal | backend/routes/house.js:11-34 | with the code drawn before validation: no name first, then an existing house, then a schema refusal (including a missing code), then a taken code; accepted iff every check passes and no house holds the code |
| HouseRoutes.CreateRefusalAsWritten | backend/routes/house.js:11-34 | the source's order, with validation before the hook: no name first, then an existing house |
| HouseRoutes.AsWrittenNeverCreates | backend/models/House.js:35-39 | as written, every request is refused, and one that passes the two guards is refused by the validators |
| HouseRoutes.AsWrittenRefusesValidRequest | backend/routes/house.js:25-34 | a fresh user creating "Home" in an empty store is accepted in the intended order and refused as written |
| HouseRoutes.HouseService.CreateHouse | backend/routes/house.js:7-59 | a refusal is the error `CreateRefusal` names and changes nothing; otherwise it appends exactly the house the request describes and sets the creator's house and role admin; the invariant (unique members, admin listed as admin, non-empty and distinct invite codes) holds |
| HouseRoutes.HouseService.Join | backend/routes/house.js:96-150 | existing house, then unknown upper-cased code, then already a member; it succeeds iff all three checks pass, appending one member entry and setting house and role member; only member lists and the user store can change; the invariant holds |
| HouseRoutes.HouseService.Leave | backend/routes/house.js:152-183 | the member check, then the admin is refused with nothing changed; it succeeds iff the member check passes for a non-admin, removing the user from members and setting house none, role member; only member lists and the user store can change; the invariant holds |
| ExpenseRoutes.StoredSplits | backend/routes/expense.js:39 | the given splits are stored with their users, amounts and settled flags |
| ExpenseRoutes.OfHouse | backend/routes/expense.js:141 | exactly the expenses of the house |
| ExpenseRoutes.NewExpense | backend/routes/expense.js:31-45 | the new expense is paid by the user in the user's house, category defaulting to other and date to now; with no split list the payer owes the whole amount, a given list gets equal shares, an empty list stays empty, and otherwise the shares add up to the amount |
| ExpenseRoutes.ExpenseService.Create | backend/routes/expense.js:6-65 | no house, then missing description or amount (zero counts as missing), then a negative amount, then schema refusal; success appends an expense of the user's house paid by the user, category defaulting to other, with one full split for the payer when none is given, equal shares for a given list, and an explicit empty list kept empty |
| ExpenseRoutes.ExpenseService.Delete | backend/routes/expense.js:97-130 | unknown id is not found, a non-payer is forbidden, it succeeds iff the id exists and the user paid; success removes that expense only and keeps the rest in order, a refusal changes nothing |
| ExpenseRoutes.ExpenseService.HouseBalances | backend/routes/expense.js:132-141 | refused without a house, otherwise the balances of the house's expenses |
| ChoreRoutes.CreateRefusal | backend/routes/chore.js:10-34 | no house is refused first, then a missing title, assignee or due date; a body passes iff the user has a house, all three are present and the schema accepts it |
| ChoreRoutes.NewChore | backend/routes/chore.js:24-34 | the new document belongs to the user's house, is created by the user, has trimmed text, priority defaulting to medium and category to other, starts pending and not completed, and its completion fields agree |
| ChoreRoutes.ChoreService.Create | backend/routes/chore.js:6-54 | a refused body gets the error `CreateRefusal` names and changes nothing; an accepted one appends exactly the chore the body describes; ids stay unique and every chore consistent |
| ChoreRoutes.ChoreService.Guard | backend/routes/chore.js:88-102 | not found iff no chore has the id; accepted iff it exists and belongs to the user's house (a user without a house is refused) |
| ChoreRoutes.ChoreService.Toggle | backend/routes/chore.js:86-128 | it succeeds iff the guard passes; then a completed chore becomes incomplete and any other complete, the status and completion time follow the new flag, and no other chore changes |
| ChoreRoutes.ChoreService.Delete | backend/routes/chore.js:130-163 | same guard, and it succeeds iff the guard passes; success removes only that chore and keeps the rest in order, a refusal changes nothing |
| DemoServer.Login | backend/server.js:123-174 | missing email or password first; an unknown email and a wrong password give the same refusal; it succeeds iff both are given, a user has the email and the hash matches, returning that user's summary |
| DemoServer.FindByEmail | backend/server.js:82 | finds a user with the trimmed, lower-cased email, or reports that none has it |
| DemoServer.FirstWithEmail | backend/server.js:82 | a user whose stored email equals the key, or none exactly when no user has it |
| DemoServer.Server.Register | backend/server.js:62-118 | missing field, then mismatched confirmation, then a taken email, then schema refusal, each leaving users unchanged; success appends the created user |
| DemoServer.NewExpense | backend/server.js:197-201 | the record holds the body's fields; the id is `length + 1` unless the body has one; a falsy date becomes today |
| DemoServer.Server.AddExpense | backend/server.js:196-204 | exactly one record is appended |
| DemoServer.NewChore | backend/server.js:220-224 | the record holds the body's fields and is not completed whatever the body says |
| DemoServer.Server.AddChore | backend/server.js:219-227 | exactly one record is appended, not completed |
| DemoServer.Remove | backend/server.js:209 | the filter never lengthens the list |
| DemoServer.RemoveFilters | backend/server.js:209 | every record with the id is dropped and every other one kept |
| DemoServer.RemoveDistributes | backend/server.js:209 | the filter keeps order |
| DemoServer.RemoveAbsent | backend/server.js:207-211 | deleting an id nobody has changes nothing |
| DemoServer.Server.DeleteExpense | backend/server.js:207-211 | the list becomes the filtered list, whatever matched |
| DemoServer.Server.DeleteChore | backend/server.js:242-246 | the list becomes the filtered list, whatever matched |
| DemoServer.FirstWithId | backend/server.js:232 | the first position with the id, or none |
| DemoServer.Flip | backend/server.js:234 | only `completed` changes, to the negation of its truthiness |
| DemoServer.FlipTwice | backend/server.js:234 | two flips of a boolean flag give the record back |
| DemoServer.Server.ToggleChore | backend/server.js:230-239 | an unknown id changes nothing; otherwise only the first chore with the id is flipped |
| DemoServer.IdReuseAfterDelete | backend/server.js:198-244 | after a deletion, an added record can take an id a remaining record holds |
| DemoServer.Server.constructor | backend/server.js:180-188 | the seeded lists carry ids 1, 2, ... by position |
| Dashboard.ZeroRows | src/components/Dashboard.jsx:83-86 | a zero row for every roommate, and none other |
| Dashboard.ChargeShares | src/components/Dashboard.jsx:94-96 | every id in the split list owes one more share per occurrence |
| Dashboard.ApplyBills | src/components/Dashboard.jsx:88-97 | each row holds what the roommate paid and owes over all bills |
| Dashboard.SettleRows | src/components/Dashboard.jsx:99-101 | every balance becomes paid minus owes |
| Dashboard.CalculateBalances | src/components/Dashboard.jsx:82-104 | a row for every roommate, zero rows included, with paid, owes and balance = paid - owes |
| Dashboard.NetSumIsUnshared | src/components/Dashboard.jsx:88-101 | over distinct ids covering the bills, with non-empty split lists, net positions sum to zero |
| Dashboard.BalancesSumToZero | src/components/Dashboard.jsx:82-104 | with non-empty split lists, the balance column sums to zero over the roommates |
| Dashboard.ShareSumTotal | src/components/Dashboard.jsx:89-96 | summed over the roommates, one share is owed per split entry |
| Dashboard.PaidColumnIsTotal | src/components/Dashboard.jsx:92 | the paid column sums to the total of amounts |
| Dashboard.TotalAdds | src/components/Dashboard.jsx:254 | the expense total adds up over any division of the list |
| Dashboard.CompletedCount | src/components/Dashboard.jsx:255 | at most the number of chores; equal to it iff all are completed; 0 iff none is |
| Dashboard.ToggleSplit | src/components/Dashboard.jsx:244-251 | a present id loses every occurrence, an absent one is appended |
| Dashboard.ToggleSplitTwice | src/components/Dashboard.jsx:244-251 | toggling twice is the identity as a set, and exactly so from a list without the id |
| Dashboard.ReplaceOnlyOne | src/components/Dashboard.jsx:198-200 | with distinct ids, replacing by id changes only that chore |
| Dashboard.TwoWordAvatar | src/components/Dashboard.jsx:185 | for "First Last" the avatar is the two upper-cased initials |
| Dashboard.AddRoommate | src/components/Dashboard.jsx:176-192 | refused iff the name or email is empty; otherwise one member roommate is appended |
| AuthPages.Strength | src/components/AuthPages.jsx:32-40 | a score in 0..5, 5 iff all five criteria hold and 0 iff none does |
| AuthPages.StrengthGrows | src/components/AuthPages.jsx:32-40 | appending a character never lowers the score |
| AuthPages.StrengthLabel | src/components/AuthPages.jsx:191-196 | Weak iff the score is at most 2, Fair iff 3, Good iff 4, Strong iff at least 5 |
| AuthPages.StrongMeansAllCriteria | src/components/AuthPages.jsx:32-40 | a password is labelled Strong iff it meets all five criteria |
| AuthPages.ValidEmailMeans | src/components/AuthPages.jsx:42-45 | the email pattern holds iff there is no white space, exactly one `@` with something before it, and a dot with text on both sides after it |
| AuthPages.LoginErrors | src/components/AuthPages.jsx:47-62 | an email error iff the email does not match; a password error iff it is empty; valid iff there are no errors |
| AuthPages.SignupErrors | src/components/AuthPages.jsx:64-101 | each field's error appears exactly when its check fails |
| AuthPages.SignupAccepts | src/components/AuthPages.jsx:64-101 | the form is accepted iff names, email, password length and strength, and confirmation all pass |
| AuthPages.WithField | src/components/AuthPages.jsx:105-108 | only the named field changes |
| AuthPages.AuthForm.HandleInputChange | src/components/AuthPages.jsx:103-120 | the named field takes the value, only that field's error is cleared, the score is recomputed only for the password, and it stays the password's score |
| AuthPages.AuthForm.ValidateLogin | src/components/AuthPages.jsx:47-62 | records the login errors and accepts iff there are none |
| AuthPages.AuthForm.ValidateSignup | src/components/AuthPages.jsx:64-101 | records the sign-up errors and accepts iff there are none, which by `SignupAccepts` is iff every check passes |
| AuthPages.AuthForm.Reset | src/components/AuthPages.jsx:20-30 | switching pages clears the fields, the errors and the score |
| Text.TrimIsSlice | backend/models/User.js:5-9 | what the schema's `trim` keeps is the slice of the text after its leading white space |
| Text.TrimEdges | backend/models/User.js:5-9 | what `trim` keeps neither starts nor ends with white space |
| Text.TrimDropsWhitespace | backend/models/User.js:5-9 | everything `trim` drops, before or after the kept slice, is white space |
| Text.Split | backend/middleware/auth.js:8 | `split` on one character: at least one part, no part holds the separator, and joining the parts with it gives the text back |
| Text.SplitTwoWords | src/components/Dashboard.jsx:185 | two separator-free words joined by the separator split back into exactly those two words |
| Dashboard.ReplaceCard | src/components/Dashboard.jsx:198-200 | mapping a chore update over the list keeps its length |
| HouseRoutes.HouseService.constructor | backend/routes/house.js:7-59 | an empty house store over the given users satisfies the store invariant |
| ExpenseRoutes.ExpenseService.constructor | backend/routes/expense.js:6-65 | an empty expense store satisfies the store invariant |
| ChoreRoutes.ChoreService.constructor | backend/routes/chore.js:6-54 | an empty chore store satisfies the store invariant |
| AuthPages.AuthForm.constructor | src/components/AuthPages.jsx:6-18 | the form starts blank, without errors and with score 0 |
| Common.Drop | src/components/Dashboard.jsx:214 | the filter by id keeps exactly the elements with another id |
| Common.DropAt | src/components/Dashboard.jsx:228 | when no other element shares its id, dropping that id removes exactly the element at its position and keeps the order |
| Common.DropUnique | src/components/Dashboard.jsx:228 | with distinct ids, dropping one element's id removes exactly that element and keeps the order |
| Common.FindIndex | backend/routes/chore.js:88 | the first position with the id, or none |

## Left out

- Persistence: MongoDB connections, `populate`, sorting, `countDocuments`, `save` and timestamps. Stores are lists or maps, and a count is a recursive count over the list.
- The list endpoints (`GET` expenses, chores and `/my-house`), `/api/health` and both `/api/users` routes: they only read and serialise the store. The second `/api/users` route refers to an undefined variable and is shadowed anyway.
- HTTP status codes, response shapes, CORS, environment loading and server start-up.
- Password hashing and comparison and JWT signing and verification: these are function parameters (`hash`, `compare`, `verify`).
- `Math.random`: the base-36 text it produces is a parameter constrained to the shapes `toString(36)` can give.
- Clocks: `new Date()` and `Date.now()` are a `now` parameter.
- Floating point: amounts are exact reals, so the residue of JavaScript doubles and `toFixed` is not reproduced.
- The `\w`-based email pattern of the user schema: the user model checks only that the email is present.
- `parseFloat` and `parseInt` on request text: the parsed value is the input, and NaN is `None`.
- Unicode case mapping: `toUpperCase` and `toLowerCase` map ASCII letters only.
- Concurrency: each handler is one sequential step. The non-atomic house creation followed by the user update is not modelled.
- Unused fields: `isRecurring`, `recurringFrequency`, `receipt`.
- The UI: rendering, modals, toasts, confirmation dialogs, the simulated login delays and the strength colours. The client's calls through src/services/api.js and the routing in src/App.js are also left out.
- Unicode lengths and indexing: JavaScript's `length`, `[0]` and `charAt` count UTF-16 code units, while the model counts Unicode scalar values. A character outside the Basic Multilingual Plane counts 2 in the source and 1 here. So the password `minlength` of 8 (`NewUser`), the strength meter's length point (`Strength`), the name and description length limits (`AcceptableHouse`, the chore and expense schemas, the sign-up checks) and the initials (`DefaultAvatar`, `TwoWordAvatar`) can differ for such text.
- `protect`'s `select('-password')`: the model returns the stored user record; `getPublicProfile` models the projection.
- Object identity on the demo server: the in-place flip of a chore object is modelled as replacing that list element, and the reference the response holds is not tracked.
- HouseRoutes.HouseService.CreateHouse: requires a house id no house has, standing in for the fresh ObjectId of the store.
- ExpenseRoutes.ExpenseService.Create: requires an expense id not in use, for the same reason.
- ChoreRoutes.ChoreService.Create: requires a chore id not in use, for the same reason.
- DemoServer.FindByEmail: assumes the schema's trim and lower-case setters apply to the `findOne({ email })` query value.
- Dashboard.CalculateBalances: requires every payer and split id to be a roommate; otherwise the source dereferences an undefined row and throws.
- ChoreModel.CompletionRate: computes `Math.round(completed / total * 100)` exactly; the source rounds the double `(completed / total) * 100`, whose residue can fall just below a half (23 of 40 gives 57.49999999999999, so 57 in the source and 58 here).
- Dashboard.BalancesSumToZero: states the zero sum over a list of the roommate ids without repeats, not as a sum over the object itself.

## Findings

| source | as written | input that shows it | evidently intended | confidence | as-written member | corrected member |
|---|---|---|---|---|---|---|
| backend/routes/house.js:25-34 | the invite code is `required` (backend/models/House.js:35-39) but drawn in a `pre('save')` hook (lines 63-68), and Mongoose runs the validators before that hook, so `House.create` always fails validation and the handler answers 500 | a user with no house posting the name "Home" (`AsWrittenRefusesValidRequest`; `AsWrittenNeverCreates` covers every request) | the hook draws the code before validation, so the house is created | high, not executed | HouseRoutes.CreateRefusalAsWritten | HouseRoutes.CreateRefusal |
