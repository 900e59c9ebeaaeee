# A verified model of the expense tracker's server

The server keeps personal income and expenses, recurring rules that generate them, and groups
whose shared transactions are split among members and settled between them. Clients queue writes
offline and send them later. This project models the parts whose correctness spans more than one
function and proves what they promise, for all inputs, runs and interleavings.

`dafny verify dfyconfig.toml` checks everything.

## Modules

| modules | what they model |
|---|---|
| `Calendar`, `Recurrence`, `NextOccurrence`, `RecurrenceLaws` | The meaning of a schedule, coded three times in `generate.go`: a point test, five enumerating loops and a bounded search. The point test is the specification; the loops are methods proved against it, and the test itself is said by year, month, day and weekday of the calendar |
| `Scheduler` | Scheduler ticks in the users' zones and user deletes and moves with skip records in the server's zone, over whole runs |
| `Sums`, `Ledger`, `Balances`, `ComputeBalances` | Sums over tables; the four-sum balance, the pairwise debt and the one-pass accumulation, and why they agree |
| `Splits` | Reconciling the splits of a shared transaction and its members' personal rows with a request |
| `Handlers`, `GroupLedger`, `LedgerExamples` | What every handler answers and does, the ledger as a state machine, its invariant over every run, and exactly which accepted requests break it |
| `SplitLinks`, `References` | What every run keeps of the references between tables, requests that break the invariant included |
| `RowSteps`, `RowKinds`, `PersonalRows` | What a command may do to personal rows: which it touches, what it leaves of them, what the rows are that it inserts |
| `Permissions` | Who may change what, for every command in every state |
| `BalanceEffects`, `Patches` | How each command moves balances, and what a patch changes and leaves, said with the request |
| `Database` | The handlers as they run, statement by statement on mutable tables; each is proved to be a step of the state machine |
| `SettlementLaws` | What settlements do to debts and which personal rows they book |
| `LastWriteWins` | The guarded upserts, and convergence over delivery orders |
| `JwtCache`, `RateLimiter`, `LoginThrottle` | The revocation cache under all interleavings, the sliding-window limiter against the full history, the login lockout |
| `Csv` | The hand-written CSV export, read back by the quoting rules 5 to 7 of section 2 of RFC 4180 |

Requests carry amounts of any precision; columns are DECIMAL(12,2), so what is stored is rounded to whole cents, half a
cent away from zero. A day is a count of midnights in a zone of
fixed offset, and a handler is one atomic database transaction; the purge job is four. `GroupLedger.Result` says what a
handler answers and `GroupLedger.Step` what it does to the tables; every handler method of
`Database.Store` ensures both, so the lemmas about runs of `Step` are about the methods.

## Where the code falls short of its intent

The model follows the code. Where a promise fails there is a concrete input, and the exact condition
under which it holds.

- Creating a settlement inserts its row (`internal/settlement/settlement.go:195-197`) before it reads the
  debt (line 213), although the comment above the call and the tests
  (`internal/settlement/settlement_test.go:131-162`) want the debt before the settlement. The debt that is read is
  too low by the amount: `PaidDebtIsBookedAgain`. The booked excess is the intended one exactly when there is no
  debt, or at least twice the amount: `CreateBooksExcessIff`. Updating excludes the settlement and books
  exactly the intended excess: `UpdateBooksExcess`.
- For the same reason instalments matter. A debt paid in two halves has one half booked: `TwoHalvesBookOne`.
  Settlements from one user to another book in all what they should if and only if before each of them no debt
  is left, or at least twice its amount: `InstalmentsBookIff`.
- The scheduler inserts an occurrence at the user's midnight and looks skips up by the user's day, but deleting one
  records its skip by the day the server's zone gives that midnight (`internal/transaction/transaction.go:563-567`). For
  a user at +09:00 and a server at UTC that is the day before, and the next tick inserts the deleted occurrence
  again: `NineHoursEastItComesBack`. Deleted occurrences stay deleted, and runs account for every due day, if and
  only if 0 <= server offset - user offset < one day: `DeletedStaysDeletedIff`, `RunAccountsIff`. With a server at
  UTC these are the users at or west of UTC. A skip also goes astray when the user first gives the occurrence
  another date: `MovedItComesBack`. So both results are about runs that move no row of the rule.
- A request may name one split user twice. The unique key rejects it only if the user has no split yet;
  otherwise the last amount wins and the splits no longer sum to the total: `RepeatedUserBreaksTheSum`. What such a
  request does to the tables is in `Handlers.SplitsApplied`, and its links stay in order: `ReachableLinks`.
- The handlers check that the amounts of a request add up as they are sent, and the columns round them one by one
  afterwards. Three members sharing 10.00 as 3.3333, 3.3333 and 3.3334 store 9.99, and the balances of the group sum to
  a cent: `ThirdsLoseACent`. The other way round a repeated user may keep the sum: `HalfCentsKeepTheSum`.
- So an accepted request keeps the ledger whole if and only if the last rounded amounts by user add up to the rounded
  total and no user without a row is named twice: `AcceptedCreateKeepsIff`, `AcceptedUpdateKeepsIff`. With distinct
  users that is: the rounded amounts add up to the rounded total (`DistinctCreateKeepsIff`, `DistinctUpdateKeepsIff`). In
  whole cents it is: the users are distinct (`WholeCentsCreateKeepsIff`, `WholeCentsUpdateKeepsIff`). Balances always sum
  to what the live splits leave of the live totals: `BalancesAddUp`.
- An amount that rounds to 0.00, and a settlement whose amount exceeds the debt by less than half a cent, pass the
  handlers' checks and fail on a column check, with a server error: `ExcessRounds`, `CreateRefusedIff`,
  `UpdateRefusedIff`.
- The personal upsert does not look at `group_transaction_id`, so it can change the amount of the row of a
  split: `UpsertRewritesASplitRow`. It keeps the ledger whole if and only if it does not do that to a live
  row: `AcceptedUpsertKeepsIff`. The run theorems therefore take careful requests: those that meet the condition
  above, and no such upsert.
- It can change the kind of such a row as well. A share is an expense as long as no upsert changes the kind of a row of
  a shared transaction, live or deleted: `ReachableKinds`, `AcceptedUpsertKeepsKindsIff`. Live rows alone are not
  enough, since a deleted one comes back with its kind when the transaction is sent again:
  `DeletedShareComesBackAsIncome`.
- Writes with equal timestamps are not ordered: `TiesDiverge`. Convergence needs distinct ones.
- Deleting a personal row leaves nothing behind, so redelivering an old version brings it back:
  `RedeliveryRevivesDeleted`. A deleted shared transaction keeps its row until the purge: `TombstoneRejectsOlder`.
- A reader that reads the column before an update and fills the cache after its invalidation leaves a stale
  entry until the ttl: `StraddlingReaderLeavesAStaleEntry`. Nothing else does: `StaleEntriesAreExplained`.
- Login stamps the column one second back (`internal/auth/auth.go:303-314`), so it can move backwards. A token issued
  less than a second before a logout passes again after a login at once: `LoginRevivesToken`. One at least a second
  old stays revoked: `LogoutTakesEffect`.
- An address not seen before is admitted without a look at the limit, so the bound that holds for every limit is
  max(limit, 1): `NeverMoreThanLimit`, `FirstRequestPasses`.
- The CSV escape does not quote a carriage return. A field reads back if and only if a carriage return in it
  comes with a comma, a quote or a line feed: `FieldBack`.
- Deleting a group soft-deletes its settlements but not the income and expense rows they booked; these outlive
  the purge, without a settlement: `DeletedGroupLeavesBookedRows`.
- `README.md` of the repository says that a settlement creates an income transaction; the code books
  only the excess, as an income and an expense row of category `other`.

## Model

| member | source | states |
|---|---|---|
| Recurrence.AllMissedOccurrences | internal/recurring/generate.go:196-237 | The loops terminate, and their output is strictly increasing and holds exactly the days on which the point test fires, after the day of `lastAdded` and up to today |
| NextOccurrence.NextOccurrenceAfter | internal/recurring/generate.go:371-438 | The least firing day strictly after `after`; nil if and only if the rule starts beyond the five-year horizon, has an unknown frequency, or lists weekdays of which none is in 0..6 |
| NextOccurrence.NextOccurrence | internal/recurring/generate.go:343-350 | The greatest firing day on or before today in UTC; nil only when there is none |
| Calendar.CivilOfDayNumber | internal/recurring/generate.go:314-326 | Dates and day numbers are in bijection: a valid date is read back from its day number (the ensures of `CivilOf` is the other direction) |
| Calendar.LastDayOfMonth | internal/recurring/generate.go:314-326 | Day 0 of the following month normalises to the last day of this one, leap Februaries and December included |
| Calendar.ResolveMonthDayClamps | internal/recurring/generate.go:314-326 | The resolved day is the target clamped into the month, in that month and no other |
| Calendar.NextMonthStarts | internal/recurring/generate.go:328-335 | The month `advanceMonth` goes to starts the day after this one ends |
| Recurrence.OneFirePerMonth | internal/recurring/generate.go:278-293 | Whatever the target day, each calendar month holds exactly one day that passes the monthly point test |
| Recurrence.OneFirePerYear | internal/recurring/generate.go:295-310 | Each calendar year holds exactly one anniversary, 29 February included |
| Recurrence.CollectDaily | internal/recurring/generate.go:239-246 | Every day from the cursor to today, in order |
| Recurrence.CollectWeeklyAligned | internal/recurring/generate.go:250-261 | Every day of the seven-day grid of the start day, from an arbitrary cursor to today |
| Recurrence.CollectWeeklyByDay | internal/recurring/generate.go:263-272 | Every day whose weekday is listed |
| Recurrence.CollectMonthly | internal/recurring/generate.go:278-293 | The open-ended month loop terminates with exactly the clamped month days from cursor to today |
| Recurrence.CollectYearly | internal/recurring/generate.go:295-310 | The open-ended year loop terminates with exactly the clamped anniversaries from cursor to today |
| Recurrence.SnapsToGrid | internal/recurring/generate.go:250-261 | Snapping the cursor forward lands on the first grid day on or after it |
| Recurrence.EnumeratedFires | internal/recurring/generate.go:114-145 | From the start day on, what each loop enumerates is what the point test says |
| NextOccurrence.SearchWeekdays | internal/recurring/generate.go:371-438 | Fourteen steps find the first listed weekday, and find none if and only if none in 0..6 is listed |
| NextOccurrence.SearchMonths | internal/recurring/generate.go:371-438 | The fourteen-step month search never gives up and finds the first fire from the cursor |
| NextOccurrence.SearchYears | internal/recurring/generate.go:371-438 | The six-step year search never gives up and finds the first anniversary from the cursor |
| NextOccurrence.HorizonIsFar | internal/recurring/generate.go:371-438 | The five-year horizon is at least 1824 days ahead, so the weekly jump cannot cross it |
| RecurrenceLaws.HorizonByDate | internal/recurring/generate.go:379-383 | By date the horizon is the same month and day five years on, and 1 March after a 29 February |
| Calendar.FirstOfYearFormula | internal/recurring/generate.go:196-237 | Every 1 January, in any year, is 365 days a year and the leap days y/4 - y/100 + y/400 away from 1 January 1970 |
| Calendar.DaysBeforeMonthFormula | internal/recurring/generate.go:314-326 | The days before a month are (367 m - 362) / 12, less one or two from March on |
| Calendar.DayNumberFormula | internal/recurring/generate.go:196-237 | So a day number is a closed formula in year, month and day |
| Calendar.WeekdayIsZeller | internal/recurring/generate.go:131 | The weekday of every date is what Zeller's congruence gives for its year, month and day |
| RecurrenceLaws.DatesInOrder | internal/recurring/generate.go:114-119 | Days follow each other as their dates do, by year, then month, then day |
| RecurrenceLaws.DateByTheClock | internal/recurring/generate.go:440-447 | An instant is on a date in a zone if and only if its seconds lie in the day the formula gives |
| RecurrenceLaws.FiresByDate | internal/recurring/generate.go:114-145 | By date: the point test fires if and only if the date is not before the start date and is what the rule asks for in years, months, days and weekdays |
| RecurrenceLaws.MissedByDate | internal/recurring/generate.go:196-237 | By date: the enumeration holds exactly the dates asked for from the start date, after the date last added, up to today's date |
| RecurrenceLaws.CatchUpInTwoSteps | internal/recurring/generate.go:196-237 | Incremental catch-up is one-shot catch-up: up to t2 equals up to t1 followed by from t1 to t2 |
| RecurrenceLaws.CatchUpFromLastEmitted | internal/recurring/generate.go:196-237 | The same when only some instant of the last emitted day is remembered |
| RecurrenceLaws.NothingBeforeStart | internal/recurring/generate.go:114-145 | Nothing fires before the start day |
| RecurrenceLaws.MonthlyGaps | internal/recurring/generate.go:278-293 | Consecutive monthly fires are 28 to 31 days apart for every target day |
| RecurrenceLaws.OneFirePerWholeMonth | internal/recurring/generate.go:278-293 | Every whole calendar month in the range has exactly one fire in the output |
| RecurrenceLaws.YearlyGaps | internal/recurring/generate.go:295-310 | Consecutive anniversaries are 365 or 366 days apart, 29 February included |
| Scheduler.Store.GenerateDueTransactions | internal/recurring/generate.go:30-110 | One tick, in the zone of its user: exactly the active, due, unended, unskipped rules get a row at the midnight of the user's day unless the unique key is taken; nothing else changes |
| Scheduler.Store.DeleteTransaction | internal/transaction/transaction.go:508-580 | Only the owner deletes; the row goes and the day its date has in the server's zone is skipped for its rule |
| Scheduler.RunKeeps | internal/db/migrations/000001_initial.up.sql:104-106 | Over every run of ticks, deletes and moves, in all zones: one row at most per rule and date, its rule owner's and of the rule's amount |
| Scheduler.LiveDaysAreDue | internal/recurring/generate.go:30-110 | If no row of the rule is moved, its rows stay on midnights of its owner and its live days are due and ticked days |
| Scheduler.DueByDate | internal/recurring/generate.go:38-88 | By date: a rule is due if and only if it is active, asks for the date, and has started and not ended on it |
| Scheduler.PausedRuleIsSilent | internal/recurring/generate.go:38-41 | A paused rule has no row in any run of ticks, deletes and moves |
| Scheduler.EventsAreOnesOwn | internal/recurring/generate.go:38-41 | A tick, a delete or a move of one user touches no row of another |
| Scheduler.RunAccounts | internal/recurring/generate.go:30-110 | Where the server dates the owner's midnight with the owner's day: over every run that moves no row of the rule, live or skipped days are exactly the due days that were ticked, and no day is both |
| Scheduler.RunAccountsIff | internal/transaction/transaction.go:553-572 | For a rule that is due at all, every run that moves none of its rows accounts for it like that if and only if 0 <= server offset - owner offset < one day |
| Scheduler.DeletedStaysDeleted | internal/transaction/transaction.go:553-572 | Under these two conditions a deleted occurrence is never created again, whatever follows |
| Scheduler.DeletedStaysDeletedIff | internal/transaction/transaction.go:553-572 | For a rule that is due at all, its deleted occurrences stay deleted in every run that moves none of its rows if and only if the zone condition holds |
| Scheduler.MovedItComesBack | internal/transaction/transaction.go:374-506 | Moves do break it: with user and server in one zone, a tick, a move to the next day, a delete and a tick of the same day leave the occurrence live again |
| Scheduler.Store.UpdateTransaction | internal/transaction/transaction.go:374-506 | Only the owner moves a row, to a date no other row of the rule has; nothing else changes |
| Scheduler.MoveKeeps | internal/transaction/transaction.go:374-506 | A move of a row changes nothing of other rules |
| Scheduler.DeletedComesBack | internal/recurring/generate.go:91-94 | Without it, a tick, the delete and a tick of the same day leave the occurrence live again, for every due day |
| Scheduler.NineHoursEastItComesBack | internal/transaction/transaction.go:563-567 | Concretely: with the user at +09:00 and the server at UTC the delete of day 10 skips day 9 and the row comes back |
| Scheduler.MidnightElsewhere | internal/transaction/transaction.go:563-567 | The day the server gives the user's midnight is the user's day plus the rounded-down difference of the offsets |
| Scheduler.TickedRunIsComplete | internal/recurring/generate.go:30-110 | Under the same two conditions, if every day up to today was ticked, live and skipped occurrences together are the enumeration up to today cut at the end day |
| Scheduler.TickKeeps | internal/db/migrations/000001_initial.up.sql:104-106 | A tick keeps one row per key, and adds exactly today for the rules of that user that are due |
| Scheduler.DeleteKeeps | internal/db/migrations/000001_initial.up.sql:65-70 | A delete of an unmoved row takes that day of its rule away, skips the day the server sees, and touches no other rule or day |
| Balances.BalancesCancel | internal/helpers/db_helpers.go:28-85 | When every live transaction is split in full, the balances of everybody named in live rows, members or not, sum to zero |
| Balances.NetIsPairwise | internal/settlement/settlement.go:50-89 | The four-sum net balance of a user is the sum over all other users of what they owe that user pairwise (the sums over transactions and over users are exchanged) |
| Balances.DebtsAreAntisymmetric | internal/settlement/settlement.go:50-89 | What a owes b is minus what b owes a, with or without an excluded settlement |
| Balances.SharesAddUpToPaid | internal/settlement/settlement.go:50-89 | Everybody's shares in what a user paid add up to what the user paid |
| Balances.OwedToEachAddsUp | internal/settlement/settlement.go:50-89 | What a user owes each payer adds up to what the user owes |
| Balances.EverythingPaidIsATotal | internal/helpers/db_helpers.go:28-85 | All that is paid is the total of the live transactions |
| Balances.EverythingOwedIsSplit | internal/helpers/db_helpers.go:28-85 | All that is owed is all that the live transactions split |
| Balances.BalancesAddUp | internal/helpers/db_helpers.go:28-85 | The balances of everybody named in live rows sum to what the splits of the live transactions leave of their totals |
| Balances.EverythingSettledIsSent | internal/helpers/db_helpers.go:28-85 | All that is settled is sent by somebody named |
| Balances.EverythingSettledIsReceived | internal/helpers/db_helpers.go:28-85 | All that is settled is received by somebody named |
| ComputeBalances.ComputeBalances | internal/group/balances.go:25-62 | The map accumulation gives each member, once, the net of payers, splits and transfers, and nobody else anything; rows of non-members are ignored |
| ComputeBalances.ListBalances | internal/group/balances.go:25-62 | The closing loop lists every entry of the map once |
| ComputeBalances.NetIgnoresOrder | internal/group/balances.go:25-62 | Permuting payers, splits or settlements changes no balance |
| ComputeBalances.AccumulationIsSqlBalance | internal/group/group.go:659-719 | Fed with the rows of the balance queries in any order, the accumulation equals the four SQL sums |
| Database.Store.ApplySplitsInPlace | internal/group/group_transactions.go:235-355 | The two loops together: false exactly when the unique key is hit; otherwise, for any request whose old links are in order, exactly the desired splits and personal rows, repeated users included, and nothing else changes |
| Database.Store.RemoveOthers | internal/group/group_transactions.go:276-293 | The first loop keeps exactly the wanted users and soft-deletes the rows of the others |
| Database.Store.ServeAll | internal/group/group_transactions.go:295-352 | The second loop serves every desired split, row first; of the amounts for one user the last stands; it stops exactly on a repeated new user |
| Database.ServedOneMore | internal/group/group_transactions.go:295-352 | One more turn, for a new or a repeated user: the rows are those of the requests so far, with one new row for each request of a user without one |
| Database.Store.ServeOne | internal/group/group_transactions.go:295-352 | One turn updates the linked personal row or inserts one, then the split, keeping its id; refused when the amount rounds to nothing or the unique key is hit |
| Splits.ReconciledKeeps | internal/group/group_transactions.go:235-355 | When no user without a row is named twice, afterwards: exactly the desired users and last amounts; ids of splits and of linked rows survive; rows of removed users are soft-deleted; rows of other shared transactions are untouched |
| Splits.ServedIsReconciled | internal/group/group_transactions.go:235-355 | When no user without a row is named twice, every new row is the row of a split |
| Splits.OrphanRow | internal/group/group_transactions.go:295-352 | Otherwise a live row without a split is left |
| SplitLinks.ReachableLinks | internal/group/group_transactions.go:295-352 | In every state of every run, repeated users included, a split's link leads to its user's own row of its own shared transaction |
| SplitLinks.StepLinks | internal/db/tx.go:14-35 | Every command keeps those links in order |
| Splits.SplitIsMirrored | internal/group/group_transactions.go:295-352 | Each split has its user's own live personal row with its amount and the request's details: an expense if it is new, and of the kind it was otherwise |
| Splits.LiveRowsAreLinked | internal/group/group_transactions.go:276-293 | No other live personal row of the transaction appears |
| Splits.ReconcilingTwice | internal/group/group_transactions.go:235-355 | The same request again changes timestamps only |
| Splits.DistinctAddsUp | internal/group/group_transactions.go:295-352 | The rounded amounts by user add up to the rounded amounts of the request when its users are distinct and fall strictly short otherwise |
| Splits.AppliedSum | internal/group/group_transactions.go:295-352 | Stored splits sum to the last rounded amounts by user |
| Splits.DistinctLandsIff | internal/db/migrations/000001_initial.up.sql:190-197 | With distinct users the stored splits sum to the stored total if and only if the rounded amounts add up to it |
| Splits.WholeCentsLandIff | internal/group/group_transactions.go:55-71 | For a request in whole cents that adds up: if and only if its users are distinct |
| Splits.DriftIsBounded | internal/db/migrations/000001_initial.up.sql:190-197 | Rounding loses or gains at most half a cent a split |
| Database.Store.CreateGroupTransaction | internal/group/group_transactions.go:20-219 | Every answer and the exact new tables (new ids are some unused ones) |
| Database.Store.UpsertGroupTransaction | internal/group/group_transactions.go:142-202 | The database transaction: owner and version guard, upsert, splits, rollback on an error |
| Database.Store.UpdateGroupTransaction | internal/group/group_transactions.go:544-880 | Every answer and the exact new tables, with and without new splits |
| Database.Store.RewriteGroupTransaction | internal/group/group_transactions.go:793-840 | The database transaction: version guard, new splits or synced rows, rollback on an error |
| Database.Store.DeleteGroupTransaction | internal/group/group_transactions.go:882-946 | Every answer; the transaction and all its personal rows are soft-deleted together |
| Database.Store.AddUp | internal/group/group_transactions.go:55-71 | Stops at a negative amount, else computes the sum of the request |
| Database.Store.MissingGroupMembers | internal/helpers/db_helpers.go:103-139 | The users that are not members of the live group, in the order given |
| Database.NonMembersAreMissing | internal/helpers/db_helpers.go:103-139 | The list is empty if and only if all are members |
| Database.Store.ReadPairwiseDebt | internal/settlement/settlement.go:50-89 | The sum expression computes the pairwise debt over the tables |
| Database.Store.GetUserGroupBalance | internal/helpers/db_helpers.go:28-85 | The four sums compute the net balance over the tables |
| Database.Store.CreateSettlement | internal/settlement/settlement.go:118-239 | Every answer; the row goes in before the debt is read, and the excess pair is booked on that debt |
| Database.Store.UpdateSettlement | internal/settlement/settlement.go:324-477 | Every answer; an amount change drops the linked rows and books the excess anew against the debt without this settlement |
| Database.Store.RewriteSettlement | internal/settlement/settlement.go:396-465 | The database transaction: rounded amount, currency check, linked rows anew, rollback on an error |
| Database.Store.DeleteSettlement | internal/settlement/settlement.go:278-322 | Every answer; the settlement and its linked rows are soft-deleted |
| Database.Store.BookPair | internal/settlement/settlement.go:213-231 | No rows without an excess, a refusal for one that rounds to nothing, else one income and one expense row of the rounded excess with fresh ids |
| Database.Store.CreateGroup | internal/group/group.go:125-173 | A new group has its creator as only member |
| Database.Store.AddMember | internal/group/group.go:499-565 | Every answer; one member more |
| Database.Store.RemoveMember | internal/group/group.go:873-974 | Every answer; refused unless the member's balance is zero |
| Database.Store.LeaveGroup | internal/group/group.go:980-1053 | Every answer; refused unless the caller's balance is zero |
| Database.Store.DeleteGroup | internal/group/group.go:1059-1135 | Every answer; transactions, their personal rows, settlements and the group are soft-deleted |
| Database.Store.CreateTransaction | internal/transaction/transaction.go:69-192 | Every answer of the guarded upsert and the exact row |
| Database.Store.UpdateTransaction | internal/transaction/transaction.go:374-506 | Every answer; group-linked rows are refused |
| Database.Store.DeleteTransaction | internal/transaction/transaction.go:508-580 | Every answer; hard delete, with links to the row cleared |
| Database.Store.PurgeSoftDeleted | internal/transaction/cleanup.go:67-123 | Four steps, one after the other, each at its own time |
| Database.Store.PurgeTransactions | internal/transaction/cleanup.go:74-78 | Personal rows soft-deleted for a day go, and links from splits to them are cleared |
| Database.Store.PurgeGroupTransactions | internal/transaction/cleanup.go:83-87 | Such shared transactions go with their splits, and links from personal rows are cleared |
| Database.Store.PurgeSettlementRows | internal/transaction/cleanup.go:92-96 | Such settlements go, and links from personal rows are cleared |
| Database.Store.PurgeGroupRows | internal/transaction/cleanup.go:101-105 | Such groups go with their shared transactions and settlements, and links are cleared |
| Database.Store.Restore | internal/db/tx.go:14-35 | Rollback restores every table |
| References.ReachableReferences | internal/db/migrations/000001_initial.up.sql:206-233 | In every state of every run, careful or not: shared transactions and settlements are of known groups and deleted when the group is, personal rows are of known transactions and settlements, and split links are in order |
| References.DeletedGroupIsClosed | internal/group/group.go:1059-1135 | Nothing in or of a deleted group is accepted: no transaction, settlement, update, delete or change of members |
| Permissions.SettlementsAreTheirParties | internal/settlement/settlement.go:118-477 | For every command and state: a new settlement is between two different members of a live group and sent by one of them; one that changes does so at the word of a party while it is live, or with its group at its creator's; one that goes was deleted for a day, or its group was |
| Permissions.SettlementAcceptedIff | internal/settlement/settlement.go:118-239 | For any caller and any state, which settlements are accepted, in terms of members, parties, currencies, amount and debt |
| Permissions.SettlementUpdateAcceptedIff | internal/settlement/settlement.go:324-477 | The same for updates, against the debt without the settlement |
| Permissions.StrangersSettleNothing | internal/settlement/settlement.go:134-165 | Who is turned away as forbidden: exactly those outside the group, and members who are no party |
| Permissions.GroupTxsAreTheirGroups | internal/group/group_transactions.go:20-946 | For every command and state: a new or repeated shared transaction is of a live group with its sender, payer and split users as members of one currency; an updated one is live and the caller is its payer or a split user; a deleted one likewise by a member or by the creator of its group; else only split links are cleared; one that goes was deleted for a day, or its group was |
| Permissions.SharedCreateAcceptedIff | internal/group/group_transactions.go:20-219 | Which shared transactions are accepted, for any caller and state |
| Permissions.SharedUpdateAcceptedIff | internal/group/group_transactions.go:544-880 | Which updates of them are |
| Permissions.DeletionAcceptedIff | internal/group/group_transactions.go:882-929 | Which deletes of shared transactions and of settlements are |
| Permissions.GroupsAreTheirMembers | internal/group/group.go:125-1135 | For every command and state: who may create, join, leave, remove and delete; whoever leaves or is removed has balance zero and is not the creator; a group that goes was deleted for a day |
| Permissions.MembershipAcceptedIff | internal/group/group.go:499-1135 | And each of these is accepted whenever that holds |
| Permissions.ReachableCreators | internal/group/group.go:906-909 | In every state of every run the creator of a group is a member of it |
| BalanceEffects.BalancesMove | internal/helpers/db_helpers.go:28-85 | Every command moves every user's balance in every group by what its request and the row it is about say, a purge by nothing |
| BalanceEffects.BalanceIsAllGains | internal/helpers/db_helpers.go:28-85 | In every state of every run, careful or not, a balance is the sum of what the accepted commands gave |
| BalanceEffects.PayerMovesTheTotal | internal/group/group_transactions.go:617-640 | Naming another payer moves the total from the old payer's balance to the new one's, and nobody else's moves |
| BalanceEffects.UpdateIsDeleteAndCreate | internal/group/group_transactions.go:544-880 | With splits every balance is as if the transaction had been deleted and created anew with the new payer, total and splits |
| BalanceEffects.DeletedTxDoesNotCount | internal/group/group_transactions.go:927-946 | After a delete every balance is as without the transaction |
| BalanceEffects.DeletedSettlementIsOutOfBalances | internal/settlement/settlement.go:308-316 | After a delete every balance is as without the settlement |
| Patches.UpdatedTxFollows | internal/group/group_transactions.go:599-700 | Payer, total, category, date, description and notes of an updated shared transaction are what the request names and otherwise what they were; nothing else of it and no other transaction changes |
| Patches.SyncedRowsFollow | internal/group/group_transactions.go:599-700 | Without splits its live personal rows follow the patch field by field and keep user, kind and amount; every other row stays |
| Patches.SharedRowsFollow | internal/group/group_transactions.go:295-352 | With splits each split user's row is live with the share asked and the details the transaction has now |
| Patches.UpdatedRowFollows | internal/transaction/transaction.go:374-506 | The same for a personal row and its patch |
| Patches.UpdatedSettlementFollows | internal/settlement/settlement.go:324-477 | The same for amount and notes of a settlement |
| Patches.RebookedRowsFollow | internal/settlement/settlement.go:410-452 | After an amount update the rows of the settlement carry its notes, named or not, and its category and description |
| Patches.CreatedRowsFollow | internal/settlement/settlement.go:195-231 | So do the rows a new settlement books |
| Patches.NotedRowsFollow | internal/settlement/settlement.go:454-462 | After an update of the notes alone its live rows have the new notes and are otherwise as they were, and every other row is |
| PersonalRows.FreshUpsert | internal/transaction/transaction.go:116-132 | An accepted upsert of a fresh id makes a live row of the caller with what was sent, in no shared transaction and no settlement, and changes nothing else |
| PersonalRows.ExistingUpsert | internal/transaction/transaction.go:116-132 | One of an existing id overwrites kind, amount, details and version, and leaves owner, deletion and links as they were |
| PersonalRows.UpsertAcceptedIff | internal/transaction/transaction.go:86-164 | Which upserts are accepted |
| PersonalRows.OwnRowIsOnesOwn | internal/transaction/transaction.go:374-580 | The owner of a live row outside shared transactions, settlement-linked or not, may delete it and make every orderly update; anybody else is forbidden |
| PersonalRows.DeletedRowIsGone | internal/transaction/transaction.go:544-551 | A delete takes the row and changes nothing else |
| PersonalRows.OwnRowStays | internal/transaction/transaction.go:69-580 | No command but its owner's upsert, update or delete of it changes such a row: no other user's, no group's, no settlement's and no purge at any time |
| PersonalRows.OwnRowStands | internal/transaction/transaction.go:69-580 | Over any part of any run in which its owner does none of these it is unchanged |
| PersonalRows.RowsStayTheirUsers | internal/transaction/transaction.go:69-580 | No command gives a row outside settlements to another user, into a shared transaction or into a settlement |
| PersonalRows.PurgeTakesIff | internal/transaction/cleanup.go:74-78 | The purge takes exactly the rows deleted for more than a day |
| PersonalRows.PurgesTakeIff | internal/transaction/cleanup.go:83-105 | So do the purges of shared transactions, of settlements and of groups, the last with all that is the groups' |
| PersonalRows.DeletedShareIsKeptADay | internal/group/group_transactions.go:932-934 | A share deleted with its transaction is there for a day and gone with the first purge after it |
| GroupLedger.StepKeeps | internal/group/group_transactions.go:235-355 | Every careful call (what is stored of the splits adds up to what is stored of the total; no user without a row is named twice; no upsert changes the amount of a live group-linked row) keeps the invariant: splits sum to totals, each split is linked to its user's own row, live rows mirror live splits, deleted groups have no live rows |
| GroupLedger.ReachableInv | internal/db/tx.go:14-35 | The invariant holds in every state of every careful run from empty tables |
| GroupLedger.ReachableBalances | internal/helpers/db_helpers.go:28-85 | In every state of every careful run every group is split in full, the balances of all named users, departed ones included, sum to zero, and each is the sum of pairwise debts |
| GroupLedger.RowsMirrorSplits | internal/group/group_transactions.go:297-352 | Splits and live personal rows of a live transaction correspond one to one with equal user and amount, so the rows sum to its total |
| Ledger.RoundedToNearest | internal/db/migrations/000001_initial.up.sql:81 | A stored amount is the nearest cent of what was sent, half a cent away from zero |
| RowSteps.RowsStepIsAll | internal/transaction/transaction.go:69-580 | For every command and reachable state: which rows it may touch at all, that a row stays its user's with its kind and links, that a change carries its time, and what each new row is: the sender's own live row, a member's live expense of the share asked, or a live row of a party of the settlement |
| RowKinds.KindsStep | internal/group/group_transactions.go:317-327 | Every command but an upsert that changes the kind of such a row keeps every row of a shared transaction an expense |
| RowKinds.AcceptedUpsertKeepsKindsIff | internal/transaction/transaction.go:116-132 | An accepted upsert keeps it if and only if it leaves the kind of group-linked rows alone, deleted ones included |
| RowKinds.ReachableKinds | internal/group/group_transactions.go:317-327 | In every state of every run without such an upsert every row of a shared transaction is an expense |
| RowKinds.RevivedRowKeepsKind | internal/group/group_transactions.go:302-316 | Sending a shared transaction again revives its deleted rows with the kind they have by then |
| LedgerExamples.DeletedShareComesBackAsIncome | internal/group/group_transactions.go:302-316 | So leaving the kind of live rows alone is not enough: a delete, an upsert of the deleted row as an income and the transaction sent again, all accepted and careful, leave a live income as a share |
| RowKinds.ExpensesAreShares | internal/helpers/db_helpers.go:42-51 | A user's live expense rows for a group's live transactions add up to what the balance counts as owed by the user |
| RowKinds.ReachableExpenses | internal/helpers/db_helpers.go:42-51 | In every state of every careful run that keeps the kinds they do |
| GroupLedger.AcceptedCreateKeepsIff | internal/group/group_transactions.go:20-219 | An accepted create or re-upsert, of any amounts, keeps the invariant if and only if the last rounded amounts by user add up to the rounded total and no user without a row is named twice |
| GroupLedger.DistinctCreateKeepsIff | internal/group/group_transactions.go:20-219 | With distinct users: if and only if the rounded amounts add up to the rounded total |
| GroupLedger.WholeCentsCreateKeepsIff | internal/group/group_transactions.go:20-219 | In whole cents: if and only if the users are distinct |
| GroupLedger.AcceptedUpdateKeepsIff | internal/group/group_transactions.go:544-880 | The same for an accepted update, with the stored total where it brings none |
| GroupLedger.DistinctUpdateKeepsIff | internal/group/group_transactions.go:544-880 | With distinct users: if and only if the rounded amounts add up to the total after the update |
| GroupLedger.WholeCentsUpdateKeepsIff | internal/group/group_transactions.go:544-880 | In whole cents: if and only if the users are distinct |
| GroupLedger.AcceptedUpsertKeepsIff | internal/transaction/transaction.go:116-168 | An accepted personal upsert keeps it if and only if it does not change the amount of a live group-linked row |
| GroupLedger.ReplacedSplitsKeep | internal/group/group_transactions.go:235-355 | Reconciling one transaction with a request that lands on its total keeps the whole ledger, resurrection of a deleted one included |
| GroupLedger.SettlementCommandKeeps | internal/settlement/settlement.go:118-477 | Creating, changing and deleting settlements keep the invariant |
| GroupLedger.GroupCommandKeeps | internal/group/group.go:499-1135 | Membership, group deletion and transaction deletion keep it |
| GroupLedger.PersonalCommandKeeps | internal/transaction/transaction.go:69-580 | Careful personal upserts, updates and deletes keep it |
| GroupLedger.DeleteGroupKeeps | internal/group/group.go:1085-1127 | Deleting a group keeps it |
| GroupLedger.HardDeleteKeeps | internal/transaction/cleanup.go:67-123 | Deleting soft-deleted rows, or rows outside shared transactions, keeps it, cleared split links included |
| GroupLedger.PurgeKeeps | internal/transaction/cleanup.go:67-123 | Each statement of the purge job keeps it, whatever the ages of the rows and whatever happens between the statements |
| LedgerExamples.RepeatedUserBreaksTheSum | internal/group/group_transactions.go:295-352 | An accepted request naming an existing user twice ends, whatever the new state, in splits of 0.40 for a total of 1.00 |
| LedgerExamples.ThirdsLoseACent | internal/group/group_transactions.go:55-71 | Splits 3.3333, 3.3333 and 3.3334 of 10.00 for three distinct members are accepted; whatever the new state, 9.99 is split and the balances sum to a cent |
| LedgerExamples.HalfCentsKeepTheSum | internal/group/group_transactions.go:295-352 | An accepted request that names a user twice, with 0.005 and 5.00, and another with 4.995, keeps the invariant in every new state |
| LedgerExamples.UpsertRewritesASplitRow | internal/transaction/transaction.go:116-168 | A concrete accepted personal upsert makes a split and its row disagree |
| SettlementLaws.EffectSplitsTheAmount | internal/settlement/compute.go:23-37 | For all amounts and debts: cleared plus excess is the amount, neither is negative, and cleared is the lesser of amount and positive debt |
| Handlers.ExcessRounds | internal/settlement/settlement.go:213-231 | The rounded excess is the excess of the rounded amount; it rounds to nothing though positive if and only if the amount exceeds the debt by less than half a cent |
| SettlementLaws.CreateRefusedIff | internal/settlement/settlement.go:213-231 | A settlement that is otherwise in order is refused with a server error if and only if its amount exceeds the debt read by less than half a cent |
| SettlementLaws.UpdateRefusedIff | internal/settlement/settlement.go:434-452 | The same for an amount update and the debt without the settlement |
| LedgerExamples.TinyExcessIsRefused | internal/settlement/settlement.go:434-452 | An update to 10.004 on a debt of 10.00 is refused |
| SettlementLaws.SettlementLowersDebt | internal/settlement/settlement.go:50-89 | A settlement lowers the payer's debt to the recipient by its amount |
| SettlementLaws.SettlementChangesNoOtherDebt | internal/settlement/settlement.go:50-89 | It changes no debt between other pairs or in other groups |
| SettlementLaws.DeletedSettlementDoesNotCount | internal/settlement/settlement.go:278-322 | Deleting a settlement leaves every debt as if it had never been made, and its linked rows deleted |
| SettlementLaws.DeletedGroupLeavesBookedRows | internal/group/group.go:1085-1127 | When a group is deleted, the rows its settlements booked stay live, and after the purge they are live without a settlement |
| SettlementLaws.CreateBooksExcessIff | internal/settlement/settlement.go:195-231 | Creation books the excess over debt minus amount, which is the excess over the prior debt if and only if there was no debt or at least twice the amount |
| LedgerExamples.PaidDebtIsBookedAgain | internal/settlement/settlement.go:195-231 | In a ledger that satisfies the invariant, an accepted settlement of the whole debt books the whole amount again, for every amount and every new state |
| LedgerExamples.TwoHalvesBookOne | internal/settlement/settlement.go:195-231 | A debt paid in two accepted halves, for which nothing should be booked, has one half booked |
| SettlementLaws.UpdateBooksExcess | internal/settlement/settlement.go:410-452 | An amount update books exactly the excess over the debt without the settlement, and leaves that debt unchanged |
| SettlementLaws.ChainBooksLastAmount | internal/settlement/settlement.go:410-452 | After any chain of amount updates the linked rows are those of the last amount: none when the debt covers it, else one income and one expense of equal excess |
| SettlementLaws.InstalmentsDoNotMatter | internal/settlement/compute.go:23-37 | About `ComputeSettlementEffect` on the debt that is meant, which creation does not pass: any instalments, each against the debt left by the ones before, clear min(sum, max(0, debt)) and exceed by max(0, sum - max(0, debt)) in all |
| SettlementLaws.PaymentRunBooks | internal/settlement/settlement.go:195-231 | What accepted settlements of a run book: each the excess over the debt it has already lowered, as income of one and expense of the other; debts fall by what is paid |
| SettlementLaws.InstalmentsBookIff | internal/settlement/settlement.go:195-231 | Such a run, in stored amounts, books at least max(0, sum - max(0, debt)), and exactly that if and only if before each settlement no debt is left or at least twice its amount |
| SettlementLaws.BookedIff | internal/settlement/compute.go:23-37 | The same for the sums of excesses themselves |
| LastWriteWins.RejectionsAreNoOps | internal/transaction/transaction.go:136-164 | A rejected write changes nothing; the owner's own rejections are always stale writes, and the generic conflict is unreachable |
| LastWriteWins.NewestStands | internal/transaction/transaction.go:116-132 | After any deliveries in any order with redeliveries the newest write stands |
| LastWriteWins.DeliveriesConverge | internal/group/group_transactions.go:142-157 | Two deliveries of the same writes in different orders and with different redeliveries end alike |
| LastWriteWins.TiesDiverge | internal/transaction/lww.go:11-13 | Two different writes with one timestamp end differently in the two orders, so distinct timestamps are needed |
| LastWriteWins.PersonalUpsertIsLww | internal/transaction/transaction.go:116-168 | The personal upsert handler is the guarded write of the rounded columns, with its answers; an accepted one leaves deletion and links as they were, and makes a live row without links of a fresh id |
| LastWriteWins.PersonalRunDelivers | internal/transaction/transaction.go:116-168 | Over any run whose other commands leave a personal row alone, the row is the delivery of the versions its owner sends |
| LastWriteWins.PersonalRunKeepsNewest | internal/transaction/transaction.go:116-168 | After such a run the row holds the columns of the newest version sent |
| LastWriteWins.SharedUpsertIsLww | internal/group/group_transactions.go:142-190 | The shared-transaction upsert is the guarded write on its columns and split amounts, with its answers; a rejection leaves all tables alone |
| LastWriteWins.SharedRunDelivers | internal/group/group_transactions.go:142-190 | Over any run whose other commands leave a shared transaction alone, it is the delivery of the versions its group sends |
| LastWriteWins.SharedRunsConverge | internal/group/group_transactions.go:142-190 | Two servers that receive the same versions in any orders, with anything else in between, hold the same transaction with the same split amounts |
| LastWriteWins.RedeliveryRevivesDeleted | internal/transaction/transaction.go:544-551 | After a personal row is deleted a redelivery of any version, however old, is accepted and brings it back |
| LastWriteWins.TombstoneRejectsOlder | internal/group/group_transactions.go:929-940 | After a shared transaction is deleted, versions older than the delete are stale |
| JwtCache.JWTRevocationCache.Get | internal/middleware/jwt_cache.go:43-59 | A hit is fresh and changes nothing; a miss drops what is there |
| JwtCache.JWTRevocationCache.Set | internal/middleware/jwt_cache.go:62-69 | One entry, valid for ttl from now |
| JwtCache.JWTRevocationCache.Invalidate | internal/middleware/jwt_cache.go:74-78 | The entry is gone, the others stay |
| JwtCache.JWTRevocationCache.Authorise | internal/middleware/jwt.go:58-87 | Accepts by the cached value on a hit, by the database otherwise, which then fills the cache |
| JwtCache.HitsAreRecent | internal/middleware/jwt_cache.go:43-69 | Over all interleavings any hit returns a value that was current within the last ttl + delta |
| JwtCache.RevocationTakesEffect | internal/auth/auth.go:582-591 | A revocation that is not taken back is in force for every hit once ttl + delta have passed |
| JwtCache.UnrevokedTokenPasses | internal/middleware/jwt.go:79-85 | A token younger than everything the column ever held passes on every hit, and any token while the column is NULL |
| JwtCache.SetThenHit | internal/middleware/jwt_cache.go:43-69 | What is set is hit up to and including ttl later and not after; other users' entries stay |
| JwtCache.StaleEntriesAreExplained | internal/middleware/jwt_cache.go:71-78 | A cached value that differs from the column has its invalidation pending, or was read before the last update and put in after its invalidation |
| JwtCache.StraddlingReaderLeavesAStaleEntry | internal/middleware/jwt.go:58-87 | For any two values there is a run whose straddling reader leaves a stale entry with nothing pending |
| JwtCache.TracedStep | internal/middleware/jwt_cache.go:43-78 | Each step keeps the account of updates and invalidations: every update has one invalidation, done or pending |
| JwtCache.StampsStand | internal/auth/auth.go:303-314 | After a logout the column never falls more than the login offset below the time of the logout |
| JwtCache.LogoutTakesEffect | internal/auth/auth.go:582-591 | A token at least the offset old at a logout is accepted by no hit once ttl + delta have passed, whatever logins follow |
| JwtCache.LoginRevivesToken | internal/auth/auth.go:303-314 | Any younger token is revoked by the logout and accepted again after a login at once |
| RateLimiter.Limiter.FilterRecent | internal/middleware/rate_limiter.go:38-56 | Keeps exactly the timestamps inside the window, in order |
| RateLimiter.Limiter.Handle | internal/middleware/rate_limiter.go:85-119 | Passes if and only if the address is new or has fewer than the limit of recent requests, and records only what passes |
| RateLimiter.Limiter.Sweep | internal/middleware/rate_limiter.go:38-56 | Drops old timestamps and empty addresses, and nothing else |
| RateLimiter.DecisionFromHistory | internal/middleware/rate_limiter.go:85-119 | The compact state decides as the full history of admitted requests would, from a limit of one on; below that it admits exactly the addresses it does not store |
| RateLimiter.NeverMoreThanLimit | internal/middleware/rate_limiter.go:85-119 | Over any run, for any limit and with sweeps anywhere, no half-open interval as long as the window has more than max(limit, 1) admitted requests of one address |
| RateLimiter.RejectedOnlyAtLimit | internal/middleware/rate_limiter.go:85-119 | From a limit of one on, the next request is rejected exactly when `limit` admitted ones lie inside its window |
| RateLimiter.FirstRequestPasses | internal/middleware/rate_limiter.go:91-96 | A first request passes whatever the limit, so for limits below one the bound of one is met |
| RateLimiter.SweepForgets | internal/middleware/rate_limiter.go:38-56 | Over any run, a sweep keeps exactly the addresses with an admitted request inside the window |
| Csv.TransactionsExport | internal/portal/portal.go:504-536 | The whole export reads back as its header and rows if every field is readable, and not at all otherwise |
| Csv.FieldBack | internal/portal/portal.go:538-543 | An escaped field reads back as itself if and only if it has no carriage return outside quotes |
| Csv.RecordBack | internal/portal/portal.go:523-533 | A printed record reads back as its fields, whatever follows it |
| Csv.PrintParse | internal/portal/portal.go:523-533 | Concatenated records read back as the same records if and only if every field is readable |
| Csv.ExportParses | internal/portal/portal.go:504-536 | The same for the header and seven-column rows of the export |
| Csv.PlainRow | internal/portal/portal.go:523-533 | The three unescaped columns need no escape |
| LoginThrottle.Account.Login | internal/auth/auth.go:240-291 | The answer and the new counters of one login |
| LoginThrottle.MismatchesAreSpaced | internal/auth/auth.go:240-291 | In a run without success the counters follow the mismatches, and every fifth one is followed by a full lockout |
| LoginThrottle.AtMostFivePerLockout | internal/auth/auth.go:199-202 | In such a run no half-open quarter of an hour has more than five mismatches |
| LoginThrottle.FifthLocks | internal/auth/auth.go:240-291 | In such a run every fifth wrong password, and no other, locks the account for 15 minutes against any password; otherwise the right one succeeds |
| LoginThrottle.SuccessWipesTheSlate | internal/auth/auth.go:284-290 | After a success the account goes on as a fresh one, whatever came before |

## Left out

- Zones with daylight saving and their tables: the code divides `Hours()` by 24, which counts days only at a fixed offset. In the model every user has a fixed offset and so has the server; a user does not change zone in a run.
- JSON, HTTP, request validators, email, push and connection pools: requests arrive parsed, and tables are maps with their unique keys and foreign-key actions.
- Floating point: the number in a request is the decimal it is written as, and balances, being whole cents, need no final rounding.
- Amounts that do not fit their columns, of ten billion and more, which the database refuses.
- Interleaving of group handlers: each is one atomic step; only the revocation cache has interleaved steps.
- Database errors: a handler answers what its own branches say, plus the errors of a violated unique key and of an amount that rounds to 0.00; a skip record is always written.
- Hard deletion of accounts and the missing user ids it leaves, with the branches of settlement handlers for them.
- Id generation: a fresh id is some id not in use, where the database draws it at random.
- `transactions.group_id`, which no modelled handler reads.
- `recurring_transaction_id` in the ledger's rows, and the `last_added_date` a personal upsert moves: the scheduler has its own state.
- Occurrences that clients post themselves: scheduler runs are made of ticks, deletes and new dates.
- Admin backfill: it ignores end days and skip records.
- Upserts of recurring rules: the same guard as `LastWriteWins.Upsert`, on other columns.
- Personal edits of settlement-linked rows: allowed by the code; the laws about the booked pair are about settlement handlers.
- Split rows live inside their shared transaction, keyed by user, so cascades from it are not separate steps, and the reconciling loops write the split map back once, at their end.
- Category resolution and names, and the notifications after a change.
- The test-mode switch of the rate limiter, and its timer: sweeps come at any time.
- Password hashing and token signatures: a login attempt matches or not, and a token has an issue time or none.
- Readers of the revocation cache that stop for longer than delta between the database read and `Set`: the code has no such bound, and without one no staleness bound holds.
- Clocks that run backwards, in the limiter, the cache and the login throttle.
- Simultaneous logins of one account, which could read the same counter: logins come one after the other.
- Categories, budgets, dashboards, sessions, exports other than the portal's CSV, the admin table editor and templates: little state or arithmetic of their own.
