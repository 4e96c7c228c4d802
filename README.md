# RecoinTiers: monthly tier update, modelled in Dafny

This is a model of `UpdateUserTiersService`. The service is a scheduled batch job. For every user document in the `users` collection, it:

1. reads the user's `transaction_history` records created since the first day of the current month;
2. adds up their `amount` fields, counting a nil or missing amount as 0;
3. classifies the total as Bronze (0 to 49), Silver (50 to 99) or Gold (everything else);
4. merge-writes only the `tier` field of the user's document.

If one user's update raises, the error is rescued and the job goes on to the next user. If enumerating the users raises, the error is rescued once, in `run`.

The model has four modules, one file each:

- `Tiers` (`tiers.dfy`) is the classification. The Ruby `case` over two half-open ranges is a table of `(range, tier)` rows, tried in order, with Gold as the default.
- `Store` (`store.dfy`) holds document values and the merge semantics of a partial write. It also has `UserStore`, a class that holds the user documents and updates them in place.
- `Activity` (`activity.dfy`) covers dates and instants, the window start, the transaction query as a filter, and the nil-as-zero sum.
- `Batch` (`batch.dfy`) has the per-user attempt and the batch as specification functions, with lemmas about the end state of the store. It also has `TierService`, a class with `UpdateUserTier`, the `ProcessUsers` loop and `Run`. Each method is proved against those functions.

Faults that come from outside the job are inputs:

- a per-user fault oracle, for a transaction query that raises or a write that raises;
- a `UserStream`, for a user enumeration that raises after yielding some users.

"Today" is a parameter. The log lines are represented by the sequence of per-user outcomes the loop returns.

On these points the model follows the code:

- A negative total is classified Gold, because the `else` branch catches it. It is not Bronze.
- The job produces no run summary with success and failure counts. It only logs.
- An enumeration failure is rescued and not re-raised by `run`.
- Users that the stream yielded before an enumeration failure keep their new tiers.

## Model

| member | source | states |
|---|---|---|
| `Tiers.CaseOf` | tasks/update_user_tiers_service.rb:52-59 | A `case` returns the tier of some `when` clause whose range covers the value, or the `else` tier; when no range covers the value it returns the `else` tier |
| `Tiers.CaseOfFirstMatch` | tasks/update_user_tiers_service.rb:52-59 | When some `when` range covers the value, the `case` returns the tier of the first covering clause, never a later clause's tier or the `else` tier |
| `Tiers.CalculateTier` | tasks/update_user_tiers_service.rb:51-60 | Bronze exactly for totals in [0, 50), Silver exactly for [50, 100), Gold exactly for negative totals and totals of 100 or more |
| `Tiers.Boundaries` | tasks/update_user_tiers_service.rb:52-58 | 0 and 49 are Bronze, 50 and 99 are Silver, 100 and -1 are Gold |
| `Tiers.MonotoneOnNonNegative` | tasks/update_user_tiers_service.rb:52-59 | For non-negative totals, a larger total never gets a lower tier |
| `Tiers.NotMonotoneBelowZero` | tasks/update_user_tiers_service.rb:52-59 | A total of -1 gets a higher tier than a total of 0 |
| `Tiers.LabelInjective` | tasks/update_user_tiers_service.rb:54-58 | The three labels written are pairwise distinct, so a stored label identifies its tier |
| `Store.Merge` | tasks/update_user_tiers_service.rb:68 | A merge write yields the union of the old fields and the patch; patched fields take the patch's values and every other field keeps its old value |
| `Store.MergeIdempotent` | tasks/update_user_tiers_service.rb:68 | Repeating the same merge write changes nothing |
| `Store.TierPatch` | tasks/update_user_tiers_service.rb:68 | The written patch has the single field `tier`, holding the tier's label |
| `Store.TierWriteTouchesOnlyTier` | tasks/update_user_tiers_service.rb:68 | After the tier write, `tier` holds the new label; every other field is present exactly when it was before, with its old value |
| `Store.UserStore.SetMerge` | tasks/update_user_tiers_service.rb:68 | The written user's document becomes the merge of its old fields and the patch (created if missing); every other document is unchanged |
| `Activity.WindowStart` | tasks/update_user_tiers_service.rb:27 | The window opens at the first instant of day 1 of today's month; today itself lies inside the window |
| `Activity.WindowIsCurrentMonthOnward` | tasks/update_user_tiers_service.rb:46 | An instant on a real calendar date, within its day, passes the `created_at >= start` test exactly when its month is today's month or a later one |
| `Activity.WindowBoundary` | tasks/update_user_tiers_service.rb:46 | A record created exactly at the window start is selected; a record created at any earlier instant is not |
| `Activity.WindowStartAsWritten` | tasks/update_user_tiers_service.rb:27 | The window start built from two clock readings (year from the first, month from the second) equals the single-reading window start when the readings agree |
| `Activity.YearEndWindow` | tasks/update_user_tiers_service.rb:27 | With readings 2025-12-31 and 2026-01-01 the window opens on 2025-01-01, and a June 2025 record is summed although neither reading's window contains it |
| `Activity.Select` | tasks/update_user_tiers_service.rb:43-48 | The query result holds a record exactly when the collection holds it, it belongs to the user and it was created at or after the window start |
| `Activity.SelectCounts` | tasks/update_user_tiers_service.rb:44-47 | Each matching record occurs in the query result exactly as often as in the collection; a non-matching record does not occur at all |
| `Activity.SelectAppend` | tasks/update_user_tiers_service.rb:44-47 | Querying a concatenation of two collections gives the concatenation of the two query results |
| `Activity.SumAmounts` | tasks/update_user_tiers_service.rb:65 | The sum starts from 0, so no records sum to 0; when no amount is negative, a sum that can be formed is not negative |
| `Activity.UserTotal` | tasks/update_user_tiers_service.rb:64-65 | A user with no record in the window totals 0; when none of the collection's amounts is negative, the total is not negative |
| `Activity.Contribution` | tasks/update_user_tiers_service.rb:65 | A nil, missing or false amount counts as 0, an integer counts as itself, and a string or `true` makes the sum raise |
| `Activity.SumFailsIff` | tasks/update_user_tiers_service.rb:65 | The sum raises exactly when some record's amount cannot be added |
| `Activity.SumAppend` | tasks/update_user_tiers_service.rb:65 | The sum of a concatenation is the sum of the two parts, so no record is skipped or counted twice |
| `Activity.SumOfNils` | tasks/update_user_tiers_service.rb:65 | Records with only nil or missing amounts, and no records at all, sum to 0 |
| `Activity.UserTotalIsMasked` | tasks/update_user_tiers_service.rb:64-65 | The user's total equals a sum over the whole collection in which records outside the query contribute 0 |
| `Activity.AddRecord` | tasks/update_user_tiers_service.rb:64-65 | Adding another user's record, or one created before the window, leaves the total unchanged; adding a matching record adds its amount |
| `Batch.Attempt` | tasks/update_user_tiers_service.rb:62-70 | An attempt succeeds exactly when no fault is injected and the sum can be formed; the result is then the window total and its tier. A query fault, a non-numeric amount and a write fault after a successful sum each produce their own error |
| `Batch.Apply` | tasks/update_user_tiers_service.rb:30-35 | Applying one user's outcome leaves every other user's document as it was, and a rescued failure leaves the whole store as it was |
| `Batch.Outcomes` | tasks/update_user_tiers_service.rb:29-36 | The batch attempts each enumerated user exactly once, in enumeration order |
| `Batch.OutcomesWriteTierFor` | tasks/update_user_tiers_service.rb:27-31 | All attempts share one window start, so every successful update of a user writes the same tier |
| `Batch.ReplayDocument` | tasks/update_user_tiers_service.rb:29-36 | After a sequence of outcomes, a user's document exists exactly when it existed before or the user was updated; an updated user has the tier merged into its old document; any other user's document is untouched |
| `Batch.BatchResult` | tasks/update_user_tiers_service.rb:25-36 | After a batch, a user with at least one successful attempt has its window total's tier merged into its old document; a user whose attempts all failed keeps its document, old tier included |
| `Batch.RerunIdempotent` | tasks/update_user_tiers_service.rb:25-36 | Running the batch again over unchanged records, with the same faults, leaves the store as the first run left it |
| `Batch.FailureIsolated` | tasks/update_user_tiers_service.rb:29-36 | Changing the fault of the user at one position changes no other user's final document |
| `Batch.EnumerationFailsFirst` | tasks/update_user_tiers_service.rb:14-21 | When the user enumeration raises before yielding a user, `run` rescues it and ends Aborted, and the store is exactly as before |
| `Batch.ScenarioTotals` | tasks/update_user_tiers_service.rb:43-65 | For the scenario records, the first user's total is 50 (a nil amount counts 0) and the third user's is 100 (a record from the last instant of the previous month is excluded) |
| `Batch.ThreeUsersSecondFails` | tasks/update_user_tiers_service.rb:25-36 | Three users where the second user's query raises: the first user is updated to Silver (total 50), the second fails with a query error, and the third is still attempted and updated to Gold (total 100) |
| `Batch.TierService.constructor` | tasks/update_user_tiers_service.rb:6-12 | The service uses the injected store and transaction collection |
| `Batch.TierService.UpdateUserTier` | tasks/update_user_tiers_service.rb:62-70 | The outcome is `Attempt` of the user; the store changes only by the tier write of a successful attempt |
| `Batch.TierService.ProcessUsers` | tasks/update_user_tiers_service.rb:25-37 | The window start is computed once from today; every yielded user is attempted once, in order, after earlier failures too; the store is the replay of those outcomes; an enumeration failure is reported after the yielded users |
| `Batch.TierService.Run` | tasks/update_user_tiers_service.rb:14-21 | `run` never raises: it ends Completed, or Aborted when the enumeration raises; the store holds the updates of every user yielded before that |

## Findings

| source | as written | input that shows it | evidently intended | confidence | as-written member | corrected member |
|---|---|---|---|---|---|---|
| tasks/update_user_tiers_service.rb:27 | The year and the month of the window start come from two separate readings of the clock | The first reading is 2025-12-31 and the second is 2026-01-01 (the job crosses midnight at New Year between the two reads). The window then opens on 2025-01-01, and the whole of 2025 is summed | The first day of the month of a single reading of the clock | low: needs the two readings to straddle New Year's midnight; not executed | `Activity.YearEndWindow` | `Activity.WindowStart` |

## Left out

- The Firestore client, project ID and credentials (lines 6-10) are not modelled. The store is an injected `UserStore`, and the transaction collection is a given sequence.
- The transaction query (lines 43-48) is a filter over that sequence. The order of the result and any indexing behaviour of the store are not modelled.
- The user enumeration (lines 39-41) is a given `UserStream`: the users it yields, in order, and whether it raises after them.
- The logger, message formatting, `Time.now` and backtraces (lines 11, 15, 17, 19-20, 33-34, 69, 72-74) are I/O. Each user's log line is represented only by the returned `UserOutcome`.
- A logging call that raises after the write on line 69 is not modelled. Such a user would be rescued with the tier already written.
- `Date.today` is a `Date` parameter.
- Batch.TierService.ProcessUsers: takes one reading of today, so it computes the window start of a single clock reading (`Activity.WindowStart`), not line 27 as written, which reads the clock twice; the two-reading form is `Activity.WindowStartAsWritten`, and the difference is recorded under Findings.
- Dates follow the proleptic Gregorian calendar; Ruby's default switch to the Julian calendar before October 1582 is not modelled.
- The conversion of the window-start date to a store timestamp, and time zones, are not modelled. Record timestamps and the window start are taken to be in one reference zone, and the window starts at midnight.
- A write that raises is taken to have changed nothing.
- Exceptions outside Ruby's `StandardError`, which the two `rescue` clauses would not catch, are not modelled.
- Amounts that are floats, decimals, timestamps, arrays or maps are not modelled. Amounts are integers, nil, booleans or strings.
- The unused read of the user's fields on line 63 and the entry point on line 77 are not modelled.
- A user's document path and its reference are both modelled by one `UserId`.
- Other writers of the store that run at the same time as the job are not modelled.
