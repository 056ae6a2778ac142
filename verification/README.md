# Load-funds velocity rules, modelled in Dafny

This project models the core of a fund-load handler. The handler reads one decoded
load event at a time. It records the event, then checks it against three limits in
a fixed order:

1. The customer's daily total may not exceed 5000.
2. The customer may not make more than 3 loads per day.
3. The customer's ISO-week total may not exceed 20000.

Each check short-circuits. The new daily and weekly aggregates are written only when
all three checks pass. Every event then produces exactly one outcome: an accepted
decision, a rejected decision, or a diagnostic message of the form
`msg: <context> error: <cause>`.

The handler keeps its state in an in-memory store of three nested maps:
- transaction id → customer → transaction;
- customer → day key → daily aggregate;
- customer → (ISO year, ISO week) → weekly total.

Writing a daily or weekly aggregate replaces the customer's whole inner map, so the
store keeps only the last day and the last week written for each customer.

Modules:

- `Wrappers`: `Option` and `Result`.
- `Domain` (domain/transactions.go, domain/error.go): the records, the store's typed
  errors with their texts, and the day-key layout `2006-02-01`. That layout writes
  year, then day, then month. It is implemented concretely and proved to give exactly
  one key per calendar date, with an inverse reader.
- `Memory` (storage/memory/memory.go): two parts.
  - `Tables` is the value of the three maps; its operations are functions that state
    what each store operation does.
  - `Database` is the class whose map fields the add operations reassign in place.
    Each of its methods is proved equal to the matching `Tables` operation.
- `Handler` (handler/handler.go): the limit constants and the pure checks
  (`IsMaximumValueLoadPerDay`, `IsMaximumLoadPerDay`, `IsLoadPerDayValid`,
  `HandleWeekNotFoundError`, `IsLoadPerWeekValid`, `ConvertRawValue`). Each except
  `IsMaximumLoadPerDay` is characterised by a lemma (`DailyTotalVerdict`, `DailyVerdict`,
  `WeeklyVerdict`, `RemoveFirstDropsFirst`, ...) rather than by its own contract;
  `IsMaximumLoadPerDay` states the count rule in its own ensures.
  - `Evaluate` (split into `CheckDay` and `CheckWeekAndCommit`) is the outcome of one
    event as a function of the store's contents.
  - `HandlerTransactionService.Transaction` performs the same steps imperatively on a
    `Database`. It is proved to produce exactly `Evaluate`'s outcome and new contents.
- `HandlerProperties`: the rules as lemmas over `Evaluate`.
  - Recording comes first and a resubmission is an error.
  - The daily-total, daily-count and weekly rules, with what each rejection leaves
    behind.
  - The weekly bootstrap: the first load of a week sets the weekly total to its amount
    without a limit check.
  - The converse: an accepted event passed every check.
  - The invariant `WithinLimits`, preserved by every event and by any stream of events,
    in any order: every stored daily total is at most 5000, every stored count is
    between 0 and 3, every stored weekly total is at most 20000, and a customer with a
    stored day also has that day's week stored. This bounds only the aggregates left in
    the store, which holds one day and one week per customer.
  - Because of that last clause, the unchecked weekly bootstrap only happens from a
    zero daily baseline (`BootstrapStartsFromZero`), so it can never store a weekly
    total above 20000.
  - All of this holds for finite amounts, the only ones the model's `parseFloat` can
    return (see "Left out" for NaN and infinities).
- `StreamProperties`: the limits on what a customer loads, over a whole stream from a
  new store.
  - The accepted amounts of one customer on one calendar day sum to at most 5000 in at
    most 3 loads, and those in one ISO week sum to at most 20000.
  - This holds when each customer's events arrive with non-decreasing dates and each ISO
    week is a contiguous run of dates.
  - The proof shows that the stored aggregates of each customer are then exactly the
    sums of its last accepted day and of that day's week (`Mirrors`).
  - Without the date order the per-day limit fails, and `OutOfOrderDayOverLimit` gives
    a three-event stream that loads 10000 on one day.

External collaborators become parameters of the handler:
- `parseFloat` is Go's `strconv.ParseFloat`: a partial function giving a value or its
  error text.
- `isoWeek` is Go's `time.ISOWeek`: a function of the local calendar date, so two
  events on the same day always have the same week key.

Amounts are exact `real` numbers.

The model follows the code where it is easy to misread:
- The day key is year-day-month, not day-month-year.
- After a daily lookup that reports NotFound, the check starts from the aggregate the
  store returned with that error. The in-memory store returns the zero aggregate, so
  this is the zero baseline.
- Writing an aggregate to the in-memory store cannot fail.

## Model

| member | source | states |
|---|---|---|
| `Domain.FormatDateShape` | domain/transactions.go:5 | `FormatDate`: the day key of a date is ten characters: four digits, '-', two digits, '-', two digits |
| `Domain.ParseFormatDate` | domain/transactions.go:5 | reading a date's key back gives the same date |
| `Domain.FormatParseDate` | domain/transactions.go:5 | a key that reads as a date is exactly that date's key |
| `Domain.FormatDateInjective` | domain/transactions.go:5 | two dates share a day key if and only if they are the same date (one key per calendar day) |
| `Memory.Tables.AddTransaction` | storage/memory/memory.go:23-40 | an empty id gives TransactionEmptyID, and a recorded (id, customer) pair gives TransactionAlreadyExist, both leaving the store unchanged; otherwise the pair is recorded and the daily and weekly aggregates are untouched |
| `Memory.AddTransactionOthersUnchanged` | storage/memory/memory.go:27-38 | recording a transaction leaves every other (id, customer) pair, present or absent, exactly as it was |
| `Memory.Tables.AddDailyTransaction` | storage/memory/memory.go:47-51 | never fails, leaves the transactions and the weekly totals untouched, and the customer is present afterwards |
| `Memory.Tables.AddWeeklyTransaction` | storage/memory/memory.go:53-56 | never fails, leaves the transactions and the daily aggregates untouched, and the customer is present afterwards |
| `Memory.Tables.GetDailyTransaction` | storage/memory/memory.go:58-68 | succeeds if and only if the customer and the day are both stored, returning the stored aggregate; otherwise gives NotFound with the zero aggregate |
| `Memory.Tables.GetWeeklyTransaction` | storage/memory/memory.go:70-80 | succeeds if and only if the customer and the week are both stored, returning the stored total; otherwise gives NotFound with the zero total |
| `Memory.Database.New` | storage/memory/memory.go:15-21 | a new store has three empty maps |
| `Memory.Database.AddTransaction` | storage/memory/memory.go:23-40 | changes the object's maps exactly as `Tables.AddTransaction` does and returns its error |
| `Memory.Database.AddDailyTransaction` | storage/memory/memory.go:47-51 | replaces the customer's whole map of days, exactly as `Tables.AddDailyTransaction` does |
| `Memory.Database.AddWeeklyTransaction` | storage/memory/memory.go:53-56 | replaces the customer's whole map of weeks, exactly as `Tables.AddWeeklyTransaction` does |
| `Memory.Database.GetDailyTransaction` | storage/memory/memory.go:58-68 | returns what `Tables.GetDailyTransaction` gives for the object's maps |
| `Memory.Database.GetWeeklyTransaction` | storage/memory/memory.go:70-80 | returns what `Tables.GetWeeklyTransaction` gives for the object's maps |
| `Memory.AddTransactionKeepsKeyed` | storage/memory/memory.go:27-38 | recording keeps every transaction under its own id and its own customer |
| `Memory.AddTransactionTwice` | storage/memory/memory.go:32-39 | adding the same non-empty (id, customer) pair a second time gives TransactionAlreadyExist and changes nothing |
| `Memory.SameIdDifferentCustomers` | storage/memory/memory.go:27-38 | the same id recorded under two different customers succeeds both times, and both records remain |
| `Memory.AddDailyThenGet` | storage/memory/memory.go:49 | after AddDailyTransaction(c, d, x), GetDailyTransaction(c, d) returns exactly x |
| `Memory.AddDailyReplacesCustomer` | storage/memory/memory.go:49 | after AddDailyTransaction(c, d, x), every other day of c is NotFound and every other customer's lookups are unchanged |
| `Memory.AddWeeklyThenGet` | storage/memory/memory.go:54 | after AddWeeklyTransaction(c, w, t), GetWeeklyTransaction(c, w) returns exactly t |
| `Memory.AddWeeklyReplacesCustomer` | storage/memory/memory.go:54 | after AddWeeklyTransaction(c, w, t), every other week of c is NotFound and every other customer's lookups are unchanged |
| `Memory.FreshStore` | storage/memory/memory.go:15-26 | on a new store an empty id is refused and a non-empty one is recorded, and every daily or weekly lookup is NotFound with a zero result |
| `Handler.PublishErrorReadsBack` | handler/handler.go:213-216 | `PublishError`: the diagnostic is "msg: " + context + " error: " + cause, and the context and the cause can be read back from it at fixed positions |
| `Handler.DayKeyReadsBack` | handler/handler.go:172-174 | `ConvertTimeToDay`: the day key of a timestamp reads back as the timestamp's local date |
| `Handler.RemoveFirstDropsFirst` | handler/handler.go:177 | `RemoveFirst`, Go's strings.Replace with n = 1: a string without the character is unchanged; otherwise exactly its first occurrence is removed and everything else is kept in order |
| `Handler.DollarPrefix` | handler/handler.go:176-183 | `ConvertRawValue`: a raw amount "$" + s converts exactly as s parses |
| `Handler.NoDollar` | handler/handler.go:176-183 | `ConvertRawValue`: a raw amount without any '$' is parsed as it stands |
| `Handler.DailyTotalVerdict` | handler/handler.go:122-133 | `IsMaximumValueLoadPerDay`: an unparsable amount passes on the parse error; otherwise the result is "over" if and only if total + amount > 5000; over leaves the aggregate unchanged, and not over adds the amount, keeping the total within 5000 |
| `Handler.IsMaximumLoadPerDay` | handler/handler.go:135-141 | "over" if and only if count + 1 > 3; over leaves the aggregate unchanged, and not over increments the count, keeping it within 3 |
| `Handler.DailyVerdict` | handler/handler.go:92-111 | `IsLoadPerDayValid`: a lookup error other than NotFound is passed on, and NotFound proceeds like success; then a parse error is passed on; otherwise valid if and only if both the total and the count stay within limits, and the aggregate to write has the amount added and the count incremented |
| `Handler.WeeklyVerdict` | handler/handler.go:143-170 | `IsLoadPerWeekValid`, with `HandleWeekNotFoundError` (handler/handler.go:113-120) for NotFound: NotFound is always valid, with the amount as the total; any other lookup error, or a parse error, is passed on; a found total is valid if and only if total + amount <= 20000, and the new total is total + amount |
| `Handler.Evaluate` | handler/handler.go:42-90 | every decision answers a decoded event and carries its id and customer id, as the response `Respond` builds (handler/handler.go:185-211); an outcome other than acceptance leaves the daily and weekly tables unchanged |
| `Handler.CheckDay` | handler/handler.go:55-65 | a decision from the daily step onwards answers the event; short of acceptance, only the recorded tables remain |
| `Handler.CheckWeekAndCommit` | handler/handler.go:67-89 | a decision from the weekly step answers the event; short of acceptance, nothing is written |
| `Handler.HandlerTransactionService.New` | handler/handler.go:30-40 | the service keeps the store and the collaborators it is given |
| `Handler.HandlerTransactionService.Transaction` | handler/handler.go:42-90 | handling an event step by step on the store gives exactly `Evaluate`'s outcome and leaves the store holding exactly `Evaluate`'s tables |
| `HandlerProperties.RecordFailureIsError` | handler/handler.go:49-53 | an empty id or an already recorded (id, customer) pair gives the diagnostic "msg: error to add transaction with id: <id> error: <text>", with no decision and no change at all |
| `HandlerProperties.RecordedBeforeChecks` | handler/handler.go:49-65 | a recordable event is recorded before any check and stays recorded, whatever its outcome |
| `HandlerProperties.ResubmitIsError` | handler/handler.go:49-53 | submitting the same (id, customer) again, after any outcome, gives the duplicate diagnostic and no decision |
| `HandlerProperties.ParseFailureIsError` | handler/handler.go:55-58 | an unparsable amount gives the diagnostic "msg: error to validate transaction per day error: <cause>" rather than a rejection, and the event stays recorded |
| `HandlerProperties.DailyTotalRule` | handler/handler.go:101-106 | if daily total + amount > 5000, the event is rejected and only its record is written, whatever the weekly tables hold |
| `HandlerProperties.DailyCountRule` | handler/handler.go:108-109 | within the daily total, if count + 1 > 3, the event is rejected before any weekly lookup, whatever the weekly tables hold, and only its record is written |
| `HandlerProperties.DailyNotFoundIsZero` | handler/handler.go:94-99 | a day with nothing stored gets the same outcome as a stored aggregate with total 0 and count 0 |
| `HandlerProperties.WeeklyBootstrap` | handler/handler.go:153-157 | with the daily checks passed and no stored total for the week, the event is accepted, and the store is the recorded one with the day's aggregate grown by the amount and one load, and the week's total set to the amount, whatever its size |
| `HandlerProperties.WeeklyOverLimit` | handler/handler.go:161-166 | with a stored weekly total where total + amount > 20000, the event is rejected and only its record is written |
| `HandlerProperties.WeeklyWithinLimit` | handler/handler.go:165-169 | with a stored weekly total where total + amount <= 20000, the event is accepted, and the store is the recorded one with the day's aggregate grown by the amount and one load, and the week's total set to total + amount |
| `HandlerProperties.AcceptedOnlyWithinLimits` | handler/handler.go:55-89 | the converse: an accepted event was recordable, parsed, passed both daily checks and, if its week was stored, the weekly check; the store is then exactly the recorded one with the grown daily aggregate and the new weekly total (stored total + amount, or the amount alone) written for its customer |
| `HandlerProperties.BootstrapStartsFromZero` | handler/handler.go:153-157 | on a store within limits, an event whose week is not stored starts its daily check from the zero aggregate, so a bootstrapped week never starts above 5000 |
| `HandlerProperties.CommitPreservesLimits` | handler/handler.go:78-86 | `Commit`, the two writes: writing a daily aggregate within 5000 and 3 loads, together with a weekly total within 20000, keeps the store within limits |
| `HandlerProperties.DaysStayWithinLimits` | handler/handler.go:78-82 | replacing a customer's days by one aggregate within 5000 and 3 loads keeps every stored day within its limits |
| `HandlerProperties.DaysKeepWeeks` | handler/handler.go:78-86 | writing an event's day together with its ISO week keeps every stored day's week stored, since a day key names one date only |
| `HandlerProperties.WeeksStayWithinLimits` | handler/handler.go:83-86 | replacing a customer's weeks by one total within 20000 keeps every stored week within 20000 |
| `HandlerProperties.PassedCommitWithinLimits` | handler/handler.go:55-89 | on a store within limits, committing the aggregates of an event that passed both daily checks and, when its week is stored, the weekly check keeps the store within limits |
| `HandlerProperties.AcceptedPreservesLimits` | handler/handler.go:78-89 | an accepted event keeps every stored aggregate within its limits |
| `HandlerProperties.EvaluatePreservesLimits` | handler/handler.go:42-90 | if every stored daily total is at most 5000, every count is between 0 and 3, every weekly total is at most 20000 and every stored day has its week stored before an event, the same holds after it |
| `HandlerProperties.EvaluateAll` | cmd/load_funds_handler.go:33-45 | a stream handled one event at a time gives exactly one outcome per event, and every decision carries its own event's id and customer id |
| `HandlerProperties.EvaluateAllPreservesLimits` | handler/handler.go:42-90 | the limits hold after any stream of events handled one at a time |
| `HandlerProperties.EmptyStoreWithinLimits` | storage/memory/memory.go:15-21 | a new store is within limits |
| `StreamProperties.BaselineIsSum` | handler/handler.go:92-99 | when the store mirrors the accepted loads and the event is dated no earlier than its customer's loads, the daily baseline is the true sum and count of the event's day; a stored week holds the true sum of its week; and a week with nothing stored has no accepted load yet and a zero daily baseline |
| `StreamProperties.CommitKeepsSumsWithinLimits` | handler/handler.go:101-109 | adding the load of an event whose true day sum + amount is within 5000, whose day count + 1 is within 3 and whose true week sum + amount is within 20000 keeps every per-day and per-week limit on the accepted loads |
| `StreamProperties.CommitKeepsMirror` | handler/handler.go:78-86 | writing the grown day and the week's new total for the event's customer keeps the store equal to the sums of the accepted loads, the new load included |
| `StreamProperties.OneEventKeepsLimits` | handler/handler.go:42-90 | one event keeps the store mirroring the accepted loads (its own added exactly when it is accepted) and keeps the per-day and per-week limits on them |
| `StreamProperties.StreamKeepsLimits` | handler/handler.go:42-90 | from a mirroring store, a stream whose dates are in order per customer keeps the per-day and per-week limits on all accepted loads |
| `StreamProperties.OutOfOrderDayOverLimit` | storage/memory/memory.go:47-51 | for the stream $5000 on January 2, $1 on January 3, $5000 on January 2 (one ISO week), dates out of order: all three are accepted and January 2 holds 10000 > 5000, because writing January 3 dropped January 2 from the store |
| `StreamProperties.StreamWithinDailyAndWeeklyLimits` | handler/handler.go:42-90 | from a new store, with each customer's dates non-decreasing and each ISO week a contiguous run of dates, the accepted amounts of a customer sum to at most 5000 per calendar day in at most 3 loads, and to at most 20000 per ISO week |
| `HandlerProperties.InvalidDailyAmountScenario` | handler/handler_test.go:67-80 | with a stored daily total of 2500.00, a load of "$2500.01" is rejected and only recorded |
| `HandlerProperties.ValidDailyAmountScenario` | handler/handler_test.go:82-103 | with stored daily and weekly totals of 2500.00, a load of "$2500.00" is accepted; the week then holds 5000, and the day holds 5000 after 1 load |
| `HandlerProperties.InvalidDailyCountScenario` | handler/handler_test.go:128-141 | with 3 loads stored for the day, a load of "$2" is rejected and only recorded |
| `HandlerProperties.InvalidWeeklyAmountScenario` | handler/handler_test.go:166-184 | with 2 loads stored for the day and a weekly total of 17501, a load of "$2500.00" is rejected and only recorded |

## Left out

- The store interface (storage/storage.go): the engine is verified against the in-memory store only. Errors other than NotFound from a daily or weekly lookup are modelled by `StoreError.Fault`. They are handled in `IsLoadPerDayValid` and `IsLoadPerWeekValid`, but the in-memory store never returns them, so `Evaluate` never meets them.
- Failure of writing an aggregate (handler/handler.go:79-86): `AddDailyTransaction` and `AddWeeklyTransaction` always return nil in memory.go, so these two error branches are unreachable and not modelled.
- Publishing (handler/handler.go:185-216): the channel sends become the returned `Outcome`. `json.Marshal` of a response of strings and a bool cannot fail, so the "error to publish" branches are not modelled.
- JSON decoding (handler/handler.go:43-48): the event arrives as `Fund`, either decoded or undecodable with the raw text and the decoder's error text.
- `strconv.ParseFloat` is the `parseFloat` parameter. float64 arithmetic is exact `real` arithmetic: no rounding, and no NaN or infinities. Go's ParseFloat accepts "NaN", "Inf" and "-Inf" without error. With NaN, both `>` comparisons (handler/handler.go:128 and :165) are false, so a load of "NaN" is accepted and stores NaN as the daily and the weekly total. After that every later load of that customer on that day, or in that week, passes both value checks whatever its size; "-Inf" has the same effect. `WithinLimits`, `BootstrapStartsFromZero` and `StreamWithinDailyAndWeeklyLimits` hold only for finite amounts, which are the only amounts the model's `parseFloat` can return.
- `time.ISOWeek` is the `isoWeek` parameter, applied to the local calendar date. Time zones and the instant itself are not modelled; a timestamp is its local date plus a time of day. `StreamWithinDailyAndWeeklyLimits` assumes that each ISO week is a contiguous run of dates (`WeeksContiguous`), as ISO weeks are.
- `time.Format` is modelled only for the four-digit years 0 to 9999 that an RFC 3339 timestamp can carry.
- Event order: the model handles events in the order given. The limits on the accepted amounts per calendar day and per ISO week (`StreamWithinDailyAndWeeklyLimits`) are claimed only for streams whose dates are non-decreasing per customer; for any order, only the bound on the stored aggregates (`EvaluateAllPreservesLimits`) is claimed. For out-of-order dates the per-day limit actually fails: writing a later day replaces the customer's earlier day (storage/memory/memory.go:49), so an event dated back to that earlier day is checked from the zero baseline (handler/handler.go:94-99). `OutOfOrderDayOverLimit` shows three accepted loads of 5000, 1 and 5000 dated January 2, January 3 and January 2 again, 10000 in total on January 2.
- cmd/load_funds_handler.go and listener/transaction.go: file reading, goroutines and WaitGroup ordering. The strict one-at-a-time processing is `EvaluateAll`.
- The debug print at storage/memory/memory.go:34-36 and the unused `transactionExist` at storage/memory/memory.go:42-45.
- `DailyTransaction.transaction` is carried through unchanged and never set by the engine.
- Mocks and `_test.go` files are not modelled; four handler tests are restated as scenario lemmas.
