# Metery: credit ledger, snapshots, subscriptions and recurrence, verified

Metery sells usage credits. A customer holds entitlements to features; an entitlement carries grants
of credit; usage events burn the grants in order of priority and effective time. A balance read walks
the usage periods from an anchor to the instant asked for, letting grants in, expiring them, burning
the period's usage and carrying the rest over each boundary, and captures a snapshot there so that a
later read can start from it. Plans bundle grants; subscribing materialises them, a worker emits the
next cycle's grants, cancelling and changing void them.

This project models that behaviour in Dafny and proves what it keeps.

## Layout

- `Options`, `Sequences`: the usual option and result types; facts about sequences.
- `Calendar`, `Periods`: Go's calendar shifts as exact day arithmetic, and the periods built from them.
  `CivilDates` holds them against the closed day count of the Gregorian calendar, for every date and
  every duration, field by field.
- `Ledger`: the balance computation as a fold over values, parametric in the sort (`sort.Slice` is not
  stable). `Burning`, `Sorting`, `Stateless`, `Soundness`, `Conservation`, `Dominance`, `RowOrder`,
  `TieBreaking`, `Seeding`, `Drained`, `DocumentedBalance` prove what the fold does. `PerGrant` tells the
  balance grant by grant, without lists, marks or sorting, and proves the full replay equal to that;
  `Answers` says what `CalculateBalance` answers for every entitlement, with a usage period or without.
- `LedgerEngine`: the computation as it runs, with active grants as objects updated through references,
  proved equal to the fold.
- `SnapshotCache`: whole runs of reads seeded from stored snapshots. `EntitlementService`: the snapshot
  table and the cached read as methods, and the theorems restated for `CalculateBalance` and for whole
  histories of `GetEntitlementValue` and `SaveSnapshots`.
- `UsageEvents`: the event log, idempotent ingestion, half-open usage windows.
- `Tables`: subscriptions, entitlements and grants with the unique indexes, and every operation on them.
  `Effects` says row by row and field by field what each operation leaves, and exactly when it refuses
  with which error. `TableInvariants`, `Materializing`, `Lifecycle` prove what operations and whole runs
  keep.
  `GrantListing` ties them to the ledger: what a balance is computed from, as the tables list it.
- `Recurrence`: one worker pass. `WorkerPasses`: whom it serves, which grants it adds and what it does
  not look at, in the rows' own fields. `CatchUp`: repeated passes and voids. `Interleaving`: any number of
  passes and changes of plan under way at once, between all other operations: a pass lists its
  subscriptions, then their entitlements, and works off the entries one by one; a change reads the row,
  resolves the plan and later runs its transaction. `SoloPass` shows that a pass or a change alone is the
  sum of its steps. `ConcurrentWorkers`, `Reemission`, `PlanChanges` and `Cancellation` prove what
  interleavings keep, and exactly when they do not.
- `Store`: the tables as a class whose methods, loops and transactions are proved equal to `Tables` and
  `Recurrence`.

Every lemma carries `{:induction false}`, so each proof is the one written out.

Time is an unbounded count of nanoseconds, durations are parsed and truncated to natural numbers, ids
are row numbers, usage is a function of a half-open window.

## Where the code differs from its documentation or from expectation

- docs/design.md (lines 616-617) loads the grants effective by the instant asked for and unexpired at
  it. The code lets in every grant effective before the current period ends and burns those unexpired
  when the period began. `AdmitsAsDocumented` says exactly when the grants let in are those effective
  by the instant. The answer is the documented one exactly when no grant due later in the period is
  unexpired and the usage is covered by the credit that burns ahead of any grant expired by the instant
  (`DocumentedIff`). `EffectiveLaterCounts` and `ExpiredTakesUsage` are the two failing inputs.
- A grant spent or capped to nothing is left out of a snapshot and is not marked as admitted, so a
  read seeded from that snapshot lets it in again whole (`DrainedGrantReturns`). The cache is coherent
  exactly when this never happens (`CoherentIffNeverDrained`, `ServedIffNeverDrained`); when it does, reads only
  ever err towards more credit (`CacheNeverUnderstates`, `ServedGenerously`): at a boundary by exactly the
  amounts left out (`DrainShows`), and again at every boundary that drains the grant (`DrainedEachTime`).
- A zero or negative duration makes the period loops run forever (`ForwardLoopEnds`,
  `BackwardLoopEnds`), so a computation over periods is modelled for positive durations.
- The worker's and the handlers' shift ignores the sign of a duration (`WorkerShiftDirection`).
- Shifts by months are not monotone; `ShiftsCross` says exactly when an earlier instant overtakes a
  later one.
- The query that lists grants leaves ties in any order, and the sort keeps or moves them as it likes;
  with two tied rows the order alone can decide a balance (`TieDecides`). Exactly when no two grants
  with credit left tie does the order not show at any usage (`OrderHiddenIffNoTies`); without ties it
  never matters over whole runs (`OrderIrrelevant`).
- CreatePlan stores a recurrence interval unparsed, so an empty one (P0D) reaches the worker and dates
  every cycle at the same time. With one worker no cycle is ever emitted twice, under any mix of passes
  and voids, if and only if the interval is not empty (`OnceIffNonZero`); `NeverReemits` and
  `PassesCatchUp` are about intervals that are not.
- The emission index does not see voided rows. With several workers and an interval that is not empty, a
  cycle is emitted twice exactly when its grant is voided while a worker holds a decided row of that
  cycle and later inserts it (`OnceIffNoVoidUnderWorker`); `VoidedCycleReemitted` is such a run. With an
  empty interval no held row is needed: every accepted insert but an entry's first is a repeat
  (`OnceIffNothingMore`).
- A pass goes by the subscriptions it listed at its start, a change of plan by the row and plan it read
  before its transaction. A cancelled subscription stays without a live grant exactly as long as, after
  the cancel, no insert of a row of it is accepted and no change of it to a granting plan commits
  (`CleanIffNoLateGrant`). It can be endangered exactly when, at that moment, a worker holds a row of
  it, a pass has still to come to an entry of it whose cycle is due, or has only just listed it with a
  plan that emits, or a change of it is past its guards and can be delivered, or has read its row
  (`EndangeredIffExposed`). Cancelling while nothing under way concerns it is final
  (`CancelUndisturbedIsFinal`). `CancelledMidPass` and `CancelledMidChange` are the failing runs. With
  passes and handlers atomic, cancellation is always final (`CancelledForGood`).
- By the same token a pass that listed the old plan may add to the grants of the new one. A
  subscription's live grants are those of its plan at every point of a run exactly when no insert of a
  row its plan does not grant is accepted (`OfPlanIffNoneStrays`), as they are after a change that no
  pass overlaps (`ChangeUndisturbedSettles`). `OldPlanRowGoesIn` and `HeldAcrossChange` are the failing
  runs.

## Model

| member | source | states |
|---|---|---|
| `Calendar.ShiftDirection` | internal/ledger/ledger.go:301-324 | One forward shift is strictly later, and one backward shift strictly earlier, exactly for positive durations; both stand still exactly for empty ones. |
| `Calendar.WorkerShiftDirection` | internal/worker/recurrence.go:127-140 | The worker's shift moves forward for every non-empty duration and agrees with the ledger's exactly when there is no sign to ignore. |
| `Calendar.MonthShiftLanding` | internal/ledger/ledger.go:308-312 | Which month and day a shift by months lands on: the same day of the target month if it has one, else the overflow into the month after. |
| `Calendar.MonthShiftsCompose` | internal/ledger/ledger.go:308-312 | Two month shifts in a row equal one shift by the sum if and only if the day fits the middle month or the two months involved are equally long. |
| `Calendar.CalendarRoundTrip` | internal/ledger/ledger.go:301-324 | Forward then backward by years and months is the identity if and only if the month landed in has the day; always so on days 1 to 28. |
| `Calendar.FixedRoundTrip` | internal/ledger/ledger.go:301-324 | Forward then backward is the identity for durations without a year or month part, from any instant. |
| `Calendar.NoDrift` | internal/ledger/ledger.go:301-324 | On days 1 to 28, k shifts by a year-month duration equal one shift by any of k times the months. |
| `Calendar.MonthEndDrifts` | internal/ledger/ledger.go:312 | January 31 of any common year plus a month is March 3, back is February 3, and a second month gives April 3 instead of March 31. |
| `Calendar.ShiftsCross` | internal/ledger/ledger.go:301-324 | Of two instants, for any duration and direction, the earlier one overtakes the later if and only if they lie in adjacent months and it overflows the target month past the other's day, or past its time on the same day. |
| `Calendar.DaysCross` | internal/ledger/ledger.go:308-312 | The same for days: when the earlier lands strictly later, and when both land on one day. |
| `Calendar.ShiftsCanCross` | internal/ledger/ledger.go:312 | The failing input: January 31 plus a month is later than February 1 plus a month. |
| `Calendar.MonthIsUnique` | internal/ledger/ledger.go:312 | The month found for a day is the only one whose days include it. |
| `Calendar.PositiveSteps` | internal/ledger/ledger.go:288-297 | Stepping by a duration advances everywhere exactly when the duration is positive. |
| `Calendar.PositiveStepsBack` | internal/ledger/ledger.go:283-286 | So does stepping back retreat. |
| `Calendar.WorkerSteps` | internal/worker/recurrence.go:127-140 | The worker's step advances everywhere exactly when the duration is not empty. |
| `CivilDates.CivilDay` | internal/ledger/ledger.go:308-312 | For every year, month and day the day count behind every shift is the closed form of the Gregorian calendar: eras of 400 years and 146097 days, years taken from March on. |
| `CivilDates.MonthLengths` | internal/ledger/ledger.go:308-312 | The length of each of the twelve months, in common and in leap years. |
| `CivilDates.YearLength` | internal/ledger/ledger.go:308-312 | A year has 365 days, a leap year 366, and 400 years have 146097. |
| `CivilDates.DateOfDay` | internal/ledger/ledger.go:312 | Every date is found back from its day: its month, and the day of the month. |
| `CivilDates.AddDateIsCivil` | internal/ledger/ledger.go:312 | Go's AddDate: added to the fields of any date, a month past December runs over into the years, and a day past the month's end into the months after. |
| `CivilDates.ShiftIsCivil` | internal/ledger/ledger.go:301-324 | The ledger's shift of any date by any duration, both ways, as the date and clock it lands on: years and months move the month, weeks and days the day, the clock fields are added as they are, and the sign turns all of them round. |
| `CivilDates.WorkerShiftIsCivil` | internal/worker/recurrence.go:127-140 | The worker's shift of any date likewise, always forward. |
| `CivilDates.HoursAreFixed` | internal/ledger/ledger.go:313-323 | An hour is 3600 seconds from any instant, and a day is 24 hours. |
| `CivilDates.MovesByFields` | internal/ledger/ledger.go:301-324 | A duration moves time if and only if one of its seven fields is positive, and forward if it also carries no sign. |
| `CivilDates.InstantHasDate` | internal/ledger/ledger.go:312 | Every instant is some date and time of day, so the shifts by date cover all instants. |
| `Periods.PeriodsCoverInstant` | internal/ledger/ledger.go:279-299 | The periods are non-empty, contiguous and increasing; the instant lies in the last and in no other; they start at the anchor unless it lies after the instant. |
| `Periods.PeriodsExtend` | internal/ledger/ledger.go:279-299 | For anchor <= t1 <= t2 the periods at t1 are a prefix of those at t2. |
| `Periods.StartsIncrease` | internal/ledger/ledger.go:279-299 | A later period starts strictly later and no earlier than the end of any period before it. |
| `Periods.RewindStops` | internal/ledger/ledger.go:283-286 | The backward loop stops at the first step that is not after the instant. |
| `Periods.PeriodsAreSteps` | internal/ledger/ledger.go:279-299 | The first period starts at that step back from the anchor; each period runs from where that many steps lead to where one more leads. |
| `Periods.ForwardLoopEnds` | internal/ledger/ledger.go:288-297 | The forward loop gets past the instant if and only if the duration is positive. |
| `Periods.BackwardLoopEnds` | internal/ledger/ledger.go:283-286 | The backward loop reaches the instant if and only if the duration is positive. |
| `Periods.WalkPeriods` | internal/ledger/ledger.go:282-298 | The two loops, with explicit measures, build exactly the specified periods. |
| `Periods.BuildPeriods` | internal/ledger/ledger.go:279-299 | For a positive duration, buildPeriods terminates with those periods. |
| `Sorting.StableSortMeets` | internal/ledger/ledger.go:157-162 | Insertion by (priority, effective time) orders the grants and permutes them. |
| `Sorting.StableSortSorts` | internal/ledger/ledger.go:157-162 | So insertion is one sort that keeps sort.Slice's promise, for which every theorem over sorts holds. |
| `Sorting.OrderIsUnique` | internal/ledger/ledger.go:157-162 | Without equal keys, two ordered permutations of the same grants are the same list. |
| `Burning.BurnAt` | internal/ledger/ledger.go:170-182 | What is left of grant i: it pays for what the grants before it did not cover, down to zero. |
| `Burning.BurnPrefix` | internal/ledger/ledger.go:170-182 | After burning u, the first i grants together hold max(0, prefix sum - u), for every i. |
| `Burning.BurnInOrder` | internal/ledger/ledger.go:170-182 | A grant is touched only once every grant before it is empty. |
| `Burning.BurnOverage` | internal/ledger/ledger.go:170-184 | Overage is max(0, u - total), the rest max(0, total - u); credit left means no overage. |
| `Burning.BurnConserves` | internal/ledger/ledger.go:170-184 | Credit taken equals usage less overage, whatever the signs. |
| `Stateless.StatelessClosedForm` | internal/ledger/ledger.go:235-277 | Without periods: balance, overage and access in closed form over the credit live at the instant. |
| `Stateless.StatelessOrderFree` | internal/ledger/ledger.go:235-277 | The result depends neither on the order of the grants nor on how ties are broken. |
| `Soundness.AdmitFacts` | internal/ledger/ledger.go:134-145 | Admission marks exactly the due ids; what enters is due, whole, unmarked before and unique. |
| `Soundness.OpenKeepsSound` | internal/ledger/ledger.go:134-155 | Opening a period keeps active ids unique, known, marked, and 0 <= remaining <= amount. |
| `Soundness.CheapestFirst` | internal/ledger/ledger.go:157-182 | While a grant of lower priority number, or of equal priority and earlier effective time, has anything left, no grant after it is touched. |
| `Soundness.CloseKeepsSound` | internal/ledger/ledger.go:134-203 | So does a whole period; after its boundary remainders are positive, unexpired and within the cap. |
| `Soundness.StateAtSound` | internal/ledger/ledger.go:130-203 | The same in every state of every run. |
| `Soundness.SeenIsBefore` | internal/ledger/ledger.go:134-145 | After each boundary exactly the grants effective before it are marked. |
| `Conservation.AdmittedExactlyOnce` | internal/ledger/ledger.go:134-145 | Over a full replay each grant effective before the end of the last period is admitted exactly once, whole, and no other. |
| `Conservation.BooksBalance` | internal/ledger/ledger.go:130-203 | At every boundary, credit in play equals credit admitted less spent, expired and cut. |
| `Conservation.CreditIsConserved` | internal/ledger/ledger.go:130-222 | All admitted amounts equal the balance, plus credit expired inside the current period, plus usage that found credit, plus boundary expiry, plus cap cuts. |
| `Conservation.BooksOnlyGrow` | internal/ledger/ledger.go:170-203 | No way out of play is ever negative. |
| `Conservation.BalancesBounded` | internal/ledger/ledger.go:205-222 | Every captured balance and the answer lie between zero and the sum of the admitted amounts, so none overflows where that sum does not. |
| `Conservation.AnswerBounded` | internal/ledger/ledger.go:217-222 | The same for the answer of any full replay, one period included. |
| `Dominance.CoversInOrder` | internal/ledger/ledger.go:157-162 | Sorted, the grants of the poorer list appear in the richer one in the same order, each covered. |
| `Dominance.BurnDominates` | internal/ledger/ledger.go:170-182 | Burning less usage from more credit leaves at least as much of every grant and at most the overage. |
| `Dominance.StaysCovered` | internal/ledger/ledger.go:130-203 | A run that once opened with at least as much of every grant keeps it at every later boundary. |
| `Dominance.AnswersAtLeast` | internal/ledger/ledger.go:130-222 | And answers with at least the balance, at most the overage, and access wherever the other has it. |
| `Dominance.MoreCreditNeverHurts` | internal/ledger/ledger.go:130-222 | Adding grants, raising amounts or caps, extending expiries or lowering usage never lowers any grant's remainder at any boundary nor the balance, nor raises the overage. |
| `RowOrder.OpenHolds` | internal/ledger/ledger.go:134-155 | What is in play once a period has opened, without reference to the order of grants or of admission. |
| `RowOrder.SpendsAgree` | internal/ledger/ledger.go:157-184 | Untied grants listed in another order and sorted by another sort leave the same remainders in the same order, and the same overage. |
| `RowOrder.PeriodicAgrees` | internal/ledger/ledger.go:130-222 | From any sound beginning, seeded or not, neither the order of the grants list nor the sort changes answer or snapshots. |
| `RowOrder.OrderIrrelevant` | internal/ledger/ledger.go:69-233 | Without ties CalculateBalance is the same for every order of the grants list and every sort that keeps sort.Slice's promise. |
| `PerGrant.ReplayTells` | internal/ledger/ledger.go:130-222 | The full replay is a plain account of each grant: it starts a period with all it has when it takes effect, else with what it brought over, and with nothing once expired; it pays the usage that the grants before it by priority and time do not cover, and brings over what is left, up to its cap. Balance, usage, overage and every snapshot are sums of that, in whatever order untied grants are listed and by whatever sort. |
| `PerGrant.StateTells` | internal/ledger/ledger.go:130-203 | Entering every period, the active list holds exactly the grants that bring something over, each with that. |
| `Answers.AnswerWithoutPeriod` | internal/ledger/ledger.go:76-90 | Without a usage period, or with one that does not parse, all usage since the entitlement was created is set off against the credit in effect and unexpired at the instant: balance, overage and access in closed form, no period, no reset, no snapshot, whatever the seed. |
| `Answers.AnswerWithPeriod` | internal/ledger/ledger.go:130-233 | With one, from any seed: the period reported holds the instant and is one shift long, the reset is its start, the usage is that since its start, and access is a positive balance. |
| `Answers.PeriodsStartAt` | internal/ledger/ledger.go:80-97 | The periods walked start at the explicit anchor, or at the entitlement's creation when it has none, stepped back while after the instant; each is one shift long. |
| `Answers.AnswerTold` | internal/ledger/ledger.go:69-233 | CalculateBalance from the anchor over those periods is the plain account grant by grant, snapshots included. |
| `Answers.LoggedWithoutPeriod` | internal/service/entitlement.go:153-167 | The closed form with the meter the handler passes: the log's usage since the entitlement was created, or none if the meter cannot be read. |
| `TieBreaking.BurnedIs` | internal/ledger/ledger.go:170-182 | Without credit ties each remainder has a closed form that mentions no order: what the credit on grants burning before it did not cover. |
| `TieBreaking.SwapShows` | internal/ledger/ledger.go:157-182 | Two grants with credit left in either order: at some usage the remainders differ. |
| `TieBreaking.OrderHiddenIffNoTies` | internal/ledger/ledger.go:157-182 | Burning leaves the same for every row order, and for every sort, at every usage, if and only if no two grants with credit left tie. |
| `TieBreaking.PeriodOrderHidden` | internal/ledger/ledger.go:134-182 | The same for the grants in play in any period of any run. |
| `TieBreaking.TieDecides` | internal/store/store.go:170 | Two tied rows, one expiring at the boundary, sorted by insertion: listed in one order they leave nothing, in the other a whole grant. |
| `Seeding.SeedRestores` | internal/ledger/ledger.go:113-126 | Seeding from a captured per-grant state restores the active grants it was captured from, and marks their ids. |
| `Seeding.OfferedAt` | internal/ledger/ledger.go:205-214 | Every snapshot returned is the state after closing some period of the run. |
| `Seeding.StateAtPrefix` | internal/ledger/ledger.go:130-215 | States and snapshots depend only on the periods walked so far. |
| `Seeding.SeededOpensAlike` | internal/ledger/ledger.go:134-155 | A seeded run opens its first period in the replay's state if and only if the snapshot lists every grant effective before and unexpired at its boundary. |
| `Seeding.SeededAnswers` | internal/ledger/ledger.go:98-215 | Then the seeded run gives the replay's answer and exactly the remaining snapshots. |
| `Seeding.SeededAtLeast` | internal/ledger/ledger.go:130-222 | A seed that covers the replay's state covers it at every later boundary and answers with at least as much. |
| `Seeding.SeedingNeverUnderstates` | internal/ledger/ledger.go:113-203 | Seeding with any snapshot of the replay leaves every grant at every later boundary with at least as much, and the answer with no less balance and no more overage. |
| `Drained.SeededOpensRicher` | internal/ledger/ledger.go:134-145 | A seeded run opens with the replay's credit and, on top, exactly the full amounts of the live grants the snapshot leaves out. |
| `Drained.DrainedGrantReturns` | internal/ledger/ledger.go:188-190 | Failing input: a grant spent in its first period is gone for the replay and back at its full amount for the seeded run. |
| `DocumentedBalance.AdmitsAsDocumented` | internal/ledger/ledger.go:134-145 | A read brings into play exactly the grants effective by its instant if and only if none falls due later in the current period. |
| `DocumentedBalance.AgreesInPeriod` | docs/design.md:616-622 | In a period entered in any state, the answer is that of the documented grants, with what the boundary carried over, if and only if no grant due later in it is unexpired at the instant and the usage is covered by the credit that burns ahead of any grant expired by it. |
| `DocumentedBalance.DocumentedIff` | internal/ledger/ledger.go:130-222 | The same for the full replay, whatever it went through before its last period. |
| `DocumentedBalance.EffectiveLaterCounts` | docs/design.md:616-617 | Failing input: a grant due later in the current period makes up the balance; the documented balance is zero. |
| `DocumentedBalance.ExpiredTakesUsage` | docs/design.md:616-617 | Failing input: a grant that expires inside the period takes the usage, and a whole grant is left where the documented balance is zero. |
| `LedgerEngine.SortActive` | internal/ledger/ledger.go:157-162 | Sorting the references by insertion leaves the values the specified sort gives, and permutes the references. |
| `LedgerEngine.BurnUsage` | internal/ledger/ledger.go:170-182 | The loop through references, stopping once usage is covered, leaves the specified remainders and uncovered usage. |
| `LedgerEngine.AdmitGrants` | internal/ledger/ledger.go:134-145 | The loop appends fresh objects for exactly the specified admissions and marks the specified ids. |
| `LedgerEngine.PruneExpired` | internal/ledger/ledger.go:147-155 | The loop keeps exactly the unexpired references, in order. |
| `LedgerEngine.RollOver` | internal/ledger/ledger.go:186-203 | Dropping spent and expired grants and capping the rest in place leaves the specified carried state. |
| `LedgerEngine.TakeSnapshot` | internal/ledger/ledger.go:205-214 | The snapshot lists the active grants in burn order with their sum. |
| `LedgerEngine.SeedActive` | internal/ledger/ledger.go:113-126 | Seeding builds distinct fresh objects holding the specified state; ids no longer known are dropped. |
| `LedgerEngine.RunPeriod` | internal/ledger/ledger.go:131-184 | One period's admission, pruning, sorting, fetching and burning equal the specified opening and spending. |
| `LedgerEngine.FoldPeriods` | internal/ledger/ledger.go:98-232 | The loop over periods, from the anchor or from the seed, returns the fold's answer and snapshots. |
| `LedgerEngine.CalculateStatelessBalance` | internal/ledger/ledger.go:235-277 | The loops without periods return the specified result. |
| `LedgerEngine.CalculateBalance` | internal/ledger/ledger.go:69-233 | The whole computation equals the fold; without a parsed period it fetches usage once, from the entitlement's creation, and hands back no snapshot; with one it reports the period holding the instant and the usage since its start. |
| `SnapshotCache.ReadReference` | internal/ledger/ledger.go:92-132 | Every read from the anchor on walks through the same boundaries and the same states. |
| `SnapshotCache.StaleSeedIgnored` | internal/ledger/ledger.go:103-112 | A seed from before the anchor changes nothing. |
| `SnapshotCache.PlayKeepsGenuine` | internal/store/store.go:487-505 | While no boundary drains a grant, every row stored and every snapshot on offer is the reference's own, after any run of reads and saves. |
| `SnapshotCache.CacheIsCoherent` | internal/service/entitlement.go:165-176 | While no boundary drains an unexpired grant, any sequence of reads and first-write-wins saves leaves every row equal to the reference state and every later read equal to the full replay. |
| `SnapshotCache.DrainShows` | internal/service/entitlement.go:165-167 | A read at a boundary, seeded with that boundary's snapshot, overstates the balance by exactly the amounts of the live grants the snapshot leaves out. |
| `SnapshotCache.DrainedEachTime` | internal/service/entitlement.go:165-176 | A grant drained at each of m boundaries is counted whole again at each: the reads there overstate by at least m times its amount between them. |
| `SnapshotCache.CoherentIffNeverDrained` | internal/service/entitlement.go:165-176 | Every read of every run equals the replay if and only if no boundary of the reference run drains an unexpired grant. |
| `SnapshotCache.PlayKeepsGenerous` | internal/store/store.go:487-505 | Whatever drains, every row stored covers the reference state of its boundary, after any run. |
| `SnapshotCache.CacheNeverUnderstates` | internal/service/entitlement.go:165-176 | So no cached read ever understates the balance, overstates the overage or denies access the replay gives. |
| `EntitlementService.SnapshotSoundness` | internal/ledger/ledger.go:98-215 | For CalculateBalance: seeded with any snapshot an earlier or later replay captured that lists every live grant, it returns the replay's result and exactly the rest of its snapshots. |
| `EntitlementService.SnapshotsExtend` | internal/ledger/ledger.go:92-215 | For anchor <= t1 <= t2 the snapshots captured at t1 are a prefix of those captured at t2. |
| `EntitlementService.SnapshotContents` | internal/ledger/ledger.go:188-213 | A snapshot lists each grant once, positive, within amount and cap, unexpired, and its balance is their sum. |
| `EntitlementService.FirstWriteWins` | internal/store/store.go:487-505 | Saving keeps every row there is; a boundary without a row gets the first snapshot of it in the batch, or stays without. |
| `EntitlementService.HistoryIsRun` | internal/service/entitlement.go:165-176 | Any history of values asked for and batches saved, late, repeated or never, is a run of the snapshot cache with the same rows. |
| `EntitlementService.ServedCoherently` | internal/service/entitlement.go:165-176 | While no boundary drains an unexpired grant, after any such history every value is the full replay's. |
| `Answers.ServedAsTold` | internal/service/entitlement.go:165-176 | So, without ties, every such value is the plain account grant by grant over the periods from the anchor. |
| `EntitlementService.ServedGenerously` | internal/service/entitlement.go:165-176 | Whatever boundaries drain, no value understates the balance, overstates the overage or denies access the replay gives. |
| `EntitlementService.ServedIffNeverDrained` | internal/service/entitlement.go:165-176 | Every value of every history is the replay's if and only if no boundary drains an unexpired grant. |
| `EntitlementService.SnapshotTable.GetLatestSnapshot` | internal/store/store.go:465-484 | The scan finds the row with the latest boundary at or before the instant, or none. |
| `EntitlementService.SnapshotTable.SaveSnapshots` | internal/store/store.go:487-505 | Rows are inserted one by one, the first write of a boundary wins, other entitlements are untouched. |
| `EntitlementService.SnapshotTable.GetEntitlementValue` | internal/service/entitlement.go:112-193 | An unknown customer or feature is an error; no entitlement means no access; a boolean feature means access; a meter that cannot be read is an error; otherwise the seeded computation, with access also denied when the cost exceeds the balance. |
| `UsageEvents.WindowsAdd` | internal/store/store.go:209-215 | Adjacent half-open windows add up. |
| `UsageEvents.WindowsTile` | internal/ledger/ledger.go:164-168 | The usages a replay fetches add up to the usage over the whole span, each event counted once. |
| `UsageEvents.UsageCounts` | internal/store/store.go:209-215 | A count is the number of events of the customer and the meter's kind with from <= time < to. |
| `UsageEvents.OneEventMore` | internal/store/store.go:209-240 | One event more adds one to a count, or its value, if present, to a sum, exactly if it is of the customer and the kind and inside the window; any other event adds nothing. |
| `UsageEvents.LogIsFirstDeliveries` | internal/store/store.go:200-207 | Whatever is delivered, the log is the first delivery of every id, in order. |
| `UsageEvents.RecordsEachIdOnce` | internal/store/store.go:200-207 | The log holds delivered events only, exactly one for every delivered id. |
| `UsageEvents.RedeliveryHarmless` | internal/store/store.go:200-215 | Any two delivery histories of the same events, repeated and reordered at will, give the same usage in every window. |
| `UsageEvents.MeterIsUsable` | internal/service/entitlement.go:153-156 | The meter a balance is computed with reads nothing in an empty window and is never negative unless a summed property is. |
| `UsageEvents.EventLog.IngestEvent` | internal/store/store.go:200-207 | Ingestion appends an event exactly when its id is unknown. |
| `UsageEvents.EventLog.FetchUsage` | internal/store/store.go:209-215 | The sum over the log is the specified usage; a sum meter without a property is an error. |
| `TableInvariants.SubscribeSafe` | internal/store/store.go:649-667 | A successful subscribe keeps the cross-table invariant and rewrites no row. |
| `TableInvariants.ChangeSafe` | internal/store/store.go:696-723 | So does a successful change; only marks not yet set and the subscription's plan change. |
| `Effects.CancelOutcome` | internal/store/store.go:670-691 | Cancelling sets canceled_at once, and ends_at only where unset, on that row; it voids the live grants the subscription owns, and leaves every manual grant, every grant of another subscription, and every other row as it was. |
| `Effects.VoidOutcome` | internal/store/store.go:437-441 | Voiding marks that one grant, once, and leaves every other row as it was. |
| `Effects.BuildOutcome` | internal/service/subscription.go:214-269 | A plan resolves if and only if every entry's feature exists, is metered where granted, and its expiration parses; the error is that of the first entry that does not; each resolved entry carries the plan's terms, the amount, the priority or 100, and the expiry shifted from the start. |
| `Effects.MaterializeAdds` | internal/store/store.go:734-752 | Materialising adds a live entitlement exactly for each feature of the entries the customer held none for, with the terms of the first entry for it, and leaves the others as they were. |
| `Effects.SubscribeEffects` | internal/service/subscription.go:17-81 | A successful subscribe, field by field: the active row, the entitlements the customer lacked with usage period and rollover cap of the first plan entry for the feature, and one grant for each granting entry, in order; all else as it was. |
| `Effects.ChangeEffects` | internal/store/store.go:696-770 | A successful change, field by field: the row's plan, the subscription's own live grants voided, the entitlements the customer lacked, and one grant for each granting entry, effective at the time of the change and expiring so long after it; all else as it was. |
| `Effects.SubscribeRefusals` | internal/service/subscription.go:17-81 | Exactly when a subscribe is refused and with which error: unknown customer or plan, archived plan, an active subscription to it, an entry that does not resolve, a plan that grants a feature twice or no positive amount; otherwise it succeeds. |
| `Effects.ChangeRefusals` | internal/service/subscription.go:167-212 | The same for a change: unknown or cancelled subscription, unknown or archived plan, an entry that does not resolve, another active subscription of the customer to the plan, a plan that cannot be delivered; otherwise it succeeds. |
| `Effects.TopUpOutcome` | internal/service/grant.go:16-88 | A manual grant goes on the customer's live entitlement for the feature as asked for; without one, for an unknown customer or feature, or for an amount that is not positive, it is refused. |
| `Effects.EntitleOutcome` | internal/service/entitlement.go:17-48 | A manual entitlement is added, with the duration but no anchor and no cap, unless a live one stands or customer or feature is unknown. |
| `Effects.UnentitleOutcome` | internal/store/store.go:413-417 | Deleting marks exactly the live entitlement of that customer and feature. |
| `Effects.PlanOutcome` | internal/service/plan.go:18-64 | A plan is added, unarchived, if and only if every entry's feature exists; archiving changes that plan's mark only. |
| `Materializing.MaterializeLeaves` | internal/store/store.go:725-770 | Materialising appends exactly one grant per grant-bearing entry and leaves existing entitlements and grants as they were. |
| `Materializing.RowsFollowPlan` | internal/service/subscription.go:214-269 | Those grants are, in order, what the plan's templates ask for, on the customer's live entitlement for the feature. |
| `Materializing.DeliversPlan` | internal/store/store.go:725-770 | A plan materialised by the handler delivers one live grant per grant-bearing entry, and its entries must grant distinct features with positive amounts. |
| `Materializing.MaterializesIffDeliverable` | internal/store/store.go:725-770 | For a subscription without live grants, materialising succeeds if and only if every grant is positive and no feature is granted twice, whatever else the tables hold. |
| `Materializing.SubscribeOutcome` | internal/service/subscription.go:17-81 | A successful subscribe adds one active row and the plan's grants, and touches nothing else. |
| `Materializing.ChangeOutcome` | internal/store/store.go:696-723 | After a successful change the subscription's live grants are exactly one per grant-bearing entry of the new plan, effective at the given time; other owners' grants and all existing entitlements are unmodified. |
| `Lifecycle.StepSafe` | internal/store/store.go:649-770 | Every operation keeps the cross-table invariant; rows are never removed or rewritten, cancellation, deletion and void marks are set once. |
| `Lifecycle.ReachableConsistent` | internal/store/store.go:649-770 | In every reachable state the three unique indexes hold (001_init.sql:42, 003_plans_subscriptions.sql:54-56, 004_subscription_unique_active_plan.sql:8-10): one live entitlement per customer and feature, one active subscription per customer and plan, one live emission per subscription, entitlement and time; and subscription grants are on their customer's entitlements only. |
| `Lifecycle.CancelledForGood` | internal/store/store.go:670-691 | Once cancelled, a subscription keeps its row and never again owns a live grant, over every later run. |
| `Lifecycle.VoidedForGood` | internal/store/store.go:437-441 | A grant never changes except for one void, and a voided one never changes at all. |
| `Lifecycle.ReachableSold` | internal/store/store.go:649-723 | In every reachable state each active subscription is on a plan whose entries grant distinct features with positive amounts. |
| `GrantListing.ListedWell` | internal/store/store.go:160-188 | The grants listed for an entitlement of consistent tables have distinct ids and positive amounts, in whatever order they come. |
| `GrantListing.ListedAre` | internal/store/store.go:160-188 | Listed is exactly every unvoided grant of the entitlement, once, with its own amount, priority and times and the entitlement's rollover cap. |
| `GrantListing.ReachableWellFormed` | internal/store/store.go:160-188 | So in every reachable state the listing meets what every balance theorem asks of its grants. |
| `CatchUp.EmitsNext` | internal/worker/recurrence.go:65-116 | For a served entry, one new time exactly when the next cycle is due and no live grant stands at it. |
| `CatchUp.DueIsFree` | internal/worker/recurrence.go:80-89 | Unless the interval is empty none does, so the insert is never refused. |
| `CatchUp.PassEmitsNext` | internal/worker/recurrence.go:49-121 | A whole pass adds to each served entry its next cycle when due and free, and nothing else. |
| `CatchUp.DueCyclesCount` | internal/worker/recurrence.go:86-89 | The m-th cycle after the base is due exactly when m is at most the count of due cycles. |
| `CatchUp.PassesCatchUp` | internal/worker/recurrence.go:65-121 | With an interval that is not empty and N cycles due, the first N passes at a fixed now emit one each, in order, and every later pass emits nothing. |
| `CatchUp.NeverReemits` | internal/store/store.go:358-368 | With an interval that is not empty, under any mix of passes and voids an entry's history is continued by consecutive cycles, each once, voided or not. |
| `CatchUp.OnceIffNonZero` | internal/service/plan.go:47-49 | Over all mixes of passes and voids: no cycle of an entry is ever emitted twice if and only if its interval is not empty. |
| `CatchUp.CyclesIncrease` | internal/worker/recurrence.go:127-140 | Consecutive cycles are strictly increasing, so none repeats. |
| `WorkerPasses.PassLists` | internal/store/store.go:317-324 | A pass lists exactly the subscriptions not cancelled whose plan has an interval and is not archived, each once. |
| `WorkerPasses.PassIgnoresEnds` | internal/store/store.go:317-324 | A pass adds the same grants whatever end dates the subscriptions carry. |
| `WorkerPasses.DatedOffIsBase` | internal/worker/recurrence.go:80-85 | The next cycle is dated off the greatest effective time among the subscription's grants on the entitlement, voided ones included, or off the subscription's start when there is none. |
| `WorkerPasses.PrepareOutcome` | internal/worker/recurrence.go:65-111 | What the worker decides for an entry, field by field: nothing without a grant, feature or live entitlement, or while the next cycle is not due; otherwise its grant, with the template's amount, priority or 100, and an expiry so long after the cycle. |
| `WorkerPasses.CommitOutcome` | internal/worker/recurrence.go:112-116 | A decided grant goes in unless its amount is refused or a live grant of the same subscription, entitlement and time stands. |
| `WorkerPasses.FeedsIsServed` | internal/worker/recurrence.go:36-75 | The hypothesis of the catch-up theorems, read off the rows: an uncancelled subscription on an unarchived plan with an interval that parses and entries that can be delivered, and a live entitlement of its customer for the entry's feature. |
| `WorkerPasses.PassAddsCycles` | internal/worker/recurrence.go:35-121 | Every grant a pass adds is the next due cycle's of an entry it serves, dated off the grants there were before the pass; every row there was stays. |
| `WorkerPasses.PassServesEntry` | internal/worker/recurrence.go:35-121 | For each entry it serves a pass adds exactly one grant if the next cycle is due and no live grant stands there, with every field as the template says, and none otherwise. |
| `WorkerPasses.PassesEmitDueCycles` | internal/worker/recurrence.go:35-121 | After n passes at one time an entry has been given its first due cycles in order, n of them or all there are. |
| `SoloPass.StepsMakePass` | internal/worker/recurrence.go:35-121 | A pass spelled out as listing, then deciding and inserting entry by entry, with nothing in between, is the pass as one operation. |
| `SoloPass.StepsMakeChange` | internal/service/subscription.go:167-195 | A change spelled out as reading the row, resolving the plan and its transaction, with nothing in between, is the change as one operation. |
| `Interleaving.OperationLeaves` | internal/store/store.go:649-770 | Every other operation leaves a subscription's row, plan and grants as they were, but for voids and its cancellation. |
| `ConcurrentWorkers.DecidesNext` | internal/worker/recurrence.go:80-89 | Whatever a pass has listed, a row it decides on is dated one interval after the latest emitted, and, unless the interval is empty, at a time not emitted yet. |
| `ConcurrentWorkers.WorkersStayGapless` | internal/worker/recurrence.go:36-118 | However many passes interleave with each other and with all operations that leave the subscription on its plan, emitted times continue the history by a gapless chain, no time has two live grants, and held rows lie on the chain or at its next cycle. |
| `ConcurrentWorkers.GaplessFromAnyHistory` | internal/store/migrations/sqlite/003_plans_subscriptions.sql:54-56 | From the tables alone, whatever the entry has been given before, by whatever plans: every interleaving continues its history by a gapless chain of repeated shifts with at most one live grant per time. |
| `Reemission.OnceIffNoReinsert` | internal/store/migrations/sqlite/003_plans_subscriptions.sql:54-56 | Each cycle is emitted once if and only if no insert is accepted for a time the entry has been given before, for any interval. |
| `Reemission.ReinsertsIffVoided` | internal/store/migrations/sqlite/003_plans_subscriptions.sql:54-56 | With an interval that is not empty, such an insert is exactly an accepted insert of a row whose cycle was voided while the worker held it. |
| `Reemission.OnceIffNoVoidUnderWorker` | internal/store/migrations/sqlite/003_plans_subscriptions.sql:54-56 | So, with such an interval, each cycle is emitted once if and only if no grant of the entry is voided while a worker holds a decided row of its cycle and later inserts it. |
| `Reemission.EachCycleOnce` | internal/store/migrations/sqlite/003_plans_subscriptions.sql:54-56 | And while no live grant of the entry is voided, every interleaving continues the history by each cycle of the chain exactly once. |
| `Reemission.OnceIffNothingMore` | internal/service/plan.go:47-49 | With an empty interval, each time is emitted once if and only if no insert is accepted for the entry once it has been given a grant. |
| `Reemission.VoidedCycleReemitted` | internal/store/migrations/sqlite/003_plans_subscriptions.sql:51-56 | Failing interleaving: two passes decide on a cycle, the first inserts, its grant is voided, the second inserts the cycle again. |
| `PlanChanges.CommitSettles` | internal/store/store.go:696-723 | The transaction of a change leaves exactly grants of its own plan live, whatever has become of the subscription since its guards. |
| `PlanChanges.OfPlanIffNoneStrays` | internal/worker/recurrence.go:36-118 | Over every interleaving: at every point the subscription's live grants are ones its plan at that point grants, if and only if no insert of a row its plan does not grant is accepted. |
| `PlanChanges.InTuneForGood` | internal/worker/recurrence.go:36-118 | While passes, held rows and the subscription agree on the plan, they keep doing so, however passes and operations interleave, until the next change of it begins. |
| `PlanChanges.ChangeUndisturbedSettles` | internal/service/subscription.go:167-195 | A change that commits while nothing else under way concerns the subscription leaves it with its new plan's grants only, until the next change begins. |
| `PlanChanges.OldPlanRowGoesIn` | internal/worker/recurrence.go:36-118 | Failing run: a pass that listed the old plan comes to an entry after the change, and its row goes in. |
| `PlanChanges.HeldAcrossChange` | internal/worker/recurrence.go:112-116 | The other: a row decided on before the change goes in after it, unless it starts at the very time the change takes effect. |
| `Cancellation.StepCleanIff` | internal/worker/recurrence.go:112-116 | One step leaves a subscription clean (active, or without a live grant) if and only if it is not, after its cancel, an accepted insert of a row of it or the commit of a change of it to a granting plan. |
| `Cancellation.CleanIffNoLateGrant` | internal/worker/recurrence.go:36-118 | Over every interleaving of passes, changes and operations: at every point the subscription, if cancelled, owns no live grant, if and only if after the cancel no insert of a row of it is accepted and no change of it to a granting plan commits. |
| `Cancellation.EndangeredIffExposed` | internal/worker/recurrence.go:36-118 | Some continuation gives a cancelled subscription a live grant if and only if, now, a worker holds a row of it, a pass has still to come to an entry of it whose cycle is due, or has only just listed it with a plan that emits, or a change of it is past its guards and can be delivered, or has read its row while there is any metered feature. |
| `Cancellation.EndangeredInRun` | internal/service/subscription.go:156-195 | The same at every point of every run from consistent tables with nothing under way. |
| `Cancellation.CancelUndisturbedIsFinal` | internal/store/store.go:670-691 | Cancelled while nothing under way concerns it, a subscription stays cancelled and never owns a live grant again, whatever happens. |
| `Cancellation.CancelledMidPass` | internal/worker/recurrence.go:36-118 | Both failing interleavings of a pass: a row decided before the cancel and inserted after it, and a row decided after the cancel from the listing made before it. |
| `Cancellation.CancelledMidChange` | internal/service/subscription.go:168-193 | The failing interleavings of a change, with no pass under way: its row read before the cancel, its plan resolved before or after it, its transaction after it leaves the subscription clean if and only if the plan cannot be delivered or grants nothing. |
| `Store.Store.BuildSubscriptionEntries` | internal/service/subscription.go:214-269 | The loop with its early returns gives the specified entries or the specified error. |
| `Store.Store.MaterializeEntries` | internal/store/store.go:725-770 | The loop over entries on the transaction's view gives the specified tables, or stops with the specified error. |
| `Store.Store.CreateSubscription` | internal/service/subscription.go:17-81 | Guards, then one transaction: the specified tables on success, all tables unchanged and the specified error otherwise. |
| `Store.Store.CancelSubscription` | internal/store/store.go:670-691 | The new tables are exactly the specified cancellation of the old ones. |
| `Store.Store.CheckSubscriptionChange` | internal/service/subscription.go:167-191 | The guards and the resolved plan, or the specified error, from the tables as they are; nothing is written. |
| `Store.Store.CommitSubscriptionChange` | internal/store/store.go:696-723 | The transaction on whatever the tables have become since: the specified tables on success, all tables unchanged and the specified error otherwise. |
| `Store.Store.ChangeSubscription` | internal/service/subscription.go:167-212 | The two with nothing in between: the specified tables on success, all tables unchanged and the specified error otherwise. |
| `Store.Store.VoidGrant` | internal/store/store.go:437-441 | One grant is marked void unless it already is. |
| `Store.Store.LatestEffective` | internal/store/store.go:358-368 | The scan finds the greatest effective time emitted for the pair, voided grants included. |
| `Store.Store.EmitDue` | internal/worker/recurrence.go:65-118 | One entry of one subscription: the specified tables, one more grant exactly when it reports an emission. |
| `Store.Store.ProcessRecurrence` | internal/worker/recurrence.go:35-124 | The nested loops over the subscriptions listed at the start leave the specified pass, and the emission count is the number of new grants. |

## Left out

- HTTP and RPC wiring, authentication, sessions, dashboards: input and output only.
- ISO 8601 duration parsing, JSON and protobuf encodings, SQL text and driver differences: the model starts from decoded values, and a duration that does not parse is one constructor.
- Aggregations avg, min, max and unique_count: count and integer sum only, which are the ones whose windows add up.
- 64-bit integers and the range of time.Duration and time.Time: values are unbounded; `BalancesBounded` gives the bound below which no balance overflows.
- Id generation: a new row's number is its id, so ids are fresh by construction; listing limits (1000 entitlements per customer) are never reached.
- Customers, features and meters are fixed; deactivated customers, archived features and metadata are not modelled.
- Resetting an entitlement's anchor, grants added or voided behind a stored snapshot, events arriving late in a closed period: the cache theorems hold grants, anchor and usage fixed, since nothing in the code repairs a snapshot.
- The plan's recurrence anchor: stored, but never read. (That a pass does not read a subscription's ends_at is `PassIgnoresEnds`.)
- Logging and the worker's count of skipped entries; database errors other than a violated constraint.
- LedgerEngine.SortActive: sorts by insertion, which sort.Slice does for short slices; for longer ones ties may fall otherwise, which `OrderIrrelevant` and `OrderHiddenIffNoTies` cover.
- EntitlementService.SnapshotTable.GetEntitlementValue: what the lookups found and the listed grants arrive as arguments, and saving the captured snapshots is the caller's separate step, as it is a separate goroutine in the service.
- UsageEvents.EventLog.FetchUsage: payload properties are integers or absent; casts of other JSON values are not modelled.
- Store.Store.CancelSubscription: an UPDATE over many rows is one assignment of the whole grants table, not a row-by-row loop.
- Tables.TopUp: the expiration duration of a manual grant arrives already shifted to an instant.
- ConcurrentWorkers.WorkersStayGapless: a change of the subscription to another plan during the interleaving is excluded, since it emits at a time of its own; every other operation may happen, and the history before may hold any changes.
- A pass reads the plans and entitlements of its listed subscriptions one subscription after another; in `Interleaving` that is one step, and no theorem relates two subscriptions of one pass.
- The guards and the transaction of a subscribe are one step in `Interleaving`; the transaction repeats every guard that a concurrent operation could undo, except that the plan is not archived.
