# A verified model of the ral shell engine and its exarch harness

`ral` is a shell whose programs are elaborated into a call-by-push-value IR and run by
an engine; `exarch` is a harness that drives such an engine for model agents. This
project models the parts of both whose correctness is hardest to see from the code, and
proves what each is for.

**Programs.** `Ir` is the IR and `Evaluator` its meaning: a fuel-indexed evaluator that
records every operation of the world it performs, where thunks, list literals and
recursive groups keep either all of their environment or only the names an index beside
them lists. `Occurrence`, `Build` and `Wire` make, look up, serialise and rebuild that
index; `Trimming` proves that keeping only what it lists changes nothing that can be
seen, and `Laws` says what each form does by its outcome and by other forms, cleanups and
handlers among them. `Surface` is the source language with a direct left-to-right meaning, `ReadOrder` and
`OrderCheck` what hoisting the keys of a chain of reads changes of it, `Elaborator`
the elaboration into the IR as functions and `Lowering` the same pass as it is written,
with a counter, lexical frames, accumulators and the graphs of the stretches it is inside
updated in place. `Parts` cuts a statement list into stretches of block definitions,
`Stretches` is what the pass notes of them, and `Components` Tarjan's algorithm, which
splits each into lone blocks and recursive groups. `Denotation`, `Elaborated`, `Pending`,
`Knots`, `Hoisting` and `EffectOrder` prove that the hoisted program does what the source
says, effect by effect, and `Temporaries` that each temporary is bound once.

**Scheduled wakeups.** `Calendar` is the proleptic Gregorian calendar of ISO 8601, `Cron`
the search for a next occurrence, `CronText` the five-field grammar (the day-field rule is
that of the `crontab` utility in POSIX.1-2017; names and steps are Vixie's), `Durations`
the relative delays. `Booking` is the timer registry as steps over any interleaving of
bookings, rings, fires and journal failures, `Registry` the registry and mailbox cell
updated in place.

**The engine's edges.** `Scopes` is the strike slot of an engine, `Carrier` the dispatch
loop, the event stream and the interrupt that lags, `Scratch` the lock protocol that
several processes share.

**Text and data.** `Utf8` (section 3 of RFC 3629), `SourceText` and `Clip` (base64 of
section 4 of RFC 4648) are positions, carets and the clipboard tail; `Datums` and
`Enquiry` the strict codec of a harness's requests, and `Spelling` the requests as they are
spelt, which the codec reads and nothing else. `Text`, `Decimal` and `Wrappers` are
shared helpers.

## Where the code and its words differ

- `next_after` is documented as strictly after `from`. It rejects a match less than one
  whole second away, so a sub-second `from` inside the last second before a match skips
  it: `Cron.StrictlyAfterUnlessTooNear` says exactly when, `Cron.HalfASecondTooNear` shows
  one.
- A `guard`'s cleanup is documented as running unconditionally. A body that ends as a bare
  lambda fails the guard ahead of it; on every other ending it runs:
  `Laws.GuardAlwaysCleansUp`.
- The sweep says no live session can take a lock it has released. A session that has made
  its lock and not yet taken it can: `Scratch.ASweepCanDeleteALiveScratch` is the trace,
  `Scratch.TakingIsSafeIffUntouched` the exact condition.
- One slot holds the strike that overtakes its dispatch. A second such strike, for another
  id, loses the first: `Scopes.ASecondForetellingLosesTheFirst`, and
  `Scopes.AllStrikesLandUnlessOverwritten` for when none is lost.
- A record is documented as refusing a key given twice. A spawn record's grant is read off
  ahead of the strict reading, so a second one is passed over:
  `Spelling.ARepeatedGrantIsTaken`, and `Spelling.LaunchIffSpelt` for every other case.
- An id past the signed 64-bit range saturates on the wire and does not come back:
  `Enquiry.LargeIdsDoNotCross`, inside the exact `Enquiry.RequestRoundTrip`.
- The elaborator says hoisting keeps effects in order. The keys of a chain of reads are
  all hoisted ahead of the first read, so a read that fails is not the last thing to run:
  `EffectOrder.AFailedReadRunsTheNextKeyFirst` shows one, `EffectOrder.ReadsKeepTheirOrderIff`
  says exactly when, and `OrderCheck.Orderly` is a check on the source that rules it out.
- What a probe reads past is documented as handed back in arrival order. It goes behind
  whatever is then in the stash, so that holds because a probe's id is fresh and its
  reading never stashed: `Carrier.Receiver.ReadPast` says what is left in every case.
- A clock before 1970 and an instant before it both read 0 milliseconds, so there a cron
  is re-armed for no later instant: `Booking.RecurrencesAdvance`.
- A duration with a fraction of a second, or of zero, does not print and parse back:
  `Durations.DurationRoundTrip` is an equivalence.

## Model

| member | source | states |
|---|---|---|
| Trimming.TrimmingPreservesMeaning | core/src/ir.rs:219-221 | for every program whose indexes cover it, every environment, world, arguments and fuel, closing over the listed names only gives the same operations in the same order, the same failure or exit, and values equal up to captures no code reads |
| Trimming.EvalAgrees | core/src/ir.rs:629-762 | the coincidence behind it: under environments that agree on the names a computation mentions, two evaluators that capture differently end alike, through recursive groups, stored closures, handlers and commands |
| Trimming.UnmentionedBindingsAreInvisible | core/src/shell/evaluator/machine.rs:1649-1676 | bindings a program does not mention cannot be told apart from their absence |
| Trimming.ADroppedHeadIsSeen | core/src/ir.rs:600-617 | an index that left out a bare command head would be seen: the trimmed block runs the world's command where the whole one runs the block bound to the name |
| Laws.GuardAlwaysCleansUp | core/src/ir.rs:688-693 | whatever the body of a `guard` comes to, a value, a failure or an exit, the cleanup is forced from where it left off and nothing runs after; the outcome is the body's if the cleanup ends, and otherwise the cleanup's |
| Laws.GuardedReturn | core/src/shell/evaluator/machine.rs:1074-1084 | on a body that returns, a guard is binding its value, running the cleanup and returning it |
| Laws.TryCatchesOnlyFailures | core/src/shell/evaluator/machine.rs:1065-1072 | a failure's record goes to the handler from where the body failed; a value or an exit goes by it |
| Laws.CaseTakesItsArm | core/src/shell/evaluator/machine.rs:794-829 | the first arm of the payload's tag is forced with the payload, and no other |
| Laws.SlotsJoin | core/src/shell/evaluator/machine.rs:315-328 | an argument list is its slots' values end to end, a spread's elements in their order |
| Laws.ArgumentsBindInOrder | core/src/shell/evaluator/machine.rs:648-665 | arguments meet parameters in order, the first the outermost |
| Laws.OneOperation | core/src/shell/evaluator/machine.rs:845-871 | a command nothing binds is one operation, recorded after all before it and answered by the world that saw them |
| Laws.HeadsResolve | core/src/shell/evaluator/machine.rs:845-871 | a bare head is the nearest block bound to it, the environment's ahead of the signature's; an external one is an operation whatever is bound |
| Laws.BoundsAreSeen | core/src/shell/evaluator/machine.rs:602-630 | what a step returned is bound, or dropped, and the rest goes on with the arguments |
| Laws.IfForcesOneSide | core/src/shell/evaluator/machine.rs:632-642 | `if` forces the side its condition picks |
| Laws.IntegersCompute | core/src/shell/evaluator/expr.rs:203-246 | sums and differences are exact within 64 bits and fail outside them, `<` and `==` are the integers' own |
| Laws.ReadsFind | core/src/shell/evaluator/expr.rs:14-64 | a position reads the element there, counted from none, and a label or a computed key the field so named |
| Laws.JunctionsDecide | core/src/elaborator/branches.rs:135-173 | as written, a junction whose left decides is that value, and otherwise its right |
| Laws.BranchesYield | core/src/elaborator/branches.rs:10-56 | as written, an `if` with an `else` is the side its condition picks; without one it is unit, once the arm has run or been passed over |
| Laws.HandlersSeeWhy | core/src/shell/evaluator/machine.rs:1065-1072 | a handler is given a record of why an operation failed |
| Build.BuiltProgramsTrimSafely | core/src/ir.rs:79-105 | every program made through the node constructors is covered by its indexes, so it trims safely |
| Build.Mentioned.Computation | core/src/ir.rs:492-585 | pushing into the shared list collects exactly the recursive reference list of a computation, operands before nested nodes' cached names |
| Build.ThunkOf | core/src/ir.rs:79-97 | a built thunk's stored index is the sorted, duplicate-free index of its shape |
| Occurrence.CachedIndexIsTheNaiveWalk | core/src/ir.rs:42-132 | the cached index at a built node, of a thunk, a list or a record, is ascending and lists exactly the names a walk of its shape from scratch finds, bound or free |
| Occurrence.GroupIndexIsTheNaiveWalk | core/src/ir.rs:42-132 | and so is a recursive group's |
| Occurrence.WalkC | core/src/ir.rs:492-625 | the cached reference lists of a computation name exactly what the naive walk names |
| Occurrence.Contains | core/src/ir.rs:47-59 | binary search over an index decides membership |
| Occurrence.IndexOf | core/src/ir.rs:86-97 | sorting and dropping adjacent repeats in place gives the one ascending list with those members |
| Occurrence.AscendingUnique | core/src/ir.rs:42-45 | two ascending lists with the same members are the same list, so an index is determined by its names |
| Occurrence.BeforeIsLexicographic | core/src/ir.rs:42-45 | the order of an index: a proper beginning first, else by the first char that differs |
| Wire.WireRoundTrip | core/src/ir.rs:108-135 | shapes travel without their indexes and decoding restores shape and indexes together, and equality of nodes is equality of shapes |
| EffectOrder.HoistingPreservesMeaning | core/src/elaborator.rs:3-10 | an operand's pending bindings run around its value give exactly the trace, failure point and value of evaluating it where it stands, in every run where no read fails ahead of a key that would be felt |
| EffectOrder.HoistingRunsKeysFirst | core/src/elaborator.rs:202-230 | and in every run, those of evaluating it with the keys of each chain of reads ahead of its reads |
| EffectOrder.ReadsKeepTheirOrderIff | core/src/elaborator/expr.rs:411-435 | a chain of reads, its parts undisturbed, ends as it is written to if and only if no key after a failing read leaves an operation or ends otherwise |
| EffectOrder.AFailedReadRunsTheNextKeyFirst | core/src/elaborator/expr.rs:411-435 | `$xs[9][!{^c}]` on an empty list: written, `c` never runs; elaborated, it runs before the read fails |
| ReadOrder.EvalAgrees | core/src/elaborator/expr.rs:411-435 | a run no failing read disturbs is the same read by read and with keys first, through calls, closures, branches and handlers |
| ReadOrder.IndexAgreesIff | core/src/elaborator/expr.rs:411-435 | the two readings of one chain agree exactly where it is undisturbed |
| OrderCheck.EvalFine | core/src/elaborator/expr.rs:411-435 | no run of a checked program is disturbed if every key after the first is a label, a position or a value form |
| EffectOrder.ElaboratedProgramsMeanWhatTheySay | core/src/elaborator/statements.rs:130-211 | a whole checked program, its block definitions recursive or not, elaborated, in every world, at every fuel, in either capture mode, ends as its reading with keys first does; as its direct left-to-right reading does unless the run is disturbed; and no run of a program whose later keys are still is |
| EffectOrder.UntakenArmsAreSilent | core/src/elaborator.rs:8-10 | nothing of a branch the condition does not pick runs: the first arm, with or without an else part, or what follows it, may be anything and the effects, failure and exit code stay |
| EffectOrder.UndecidedSidesAreSilent | core/src/elaborator.rs:8-10 | nor does a junction's right side where the left decides |
| EffectOrder.TemporariesCaptureNothing | core/src/ir.rs:33-40 | every temporary an expression makes is bound exactly once, in a binding left pending or folded inside an arm, a block or a group, and no other is; those left pending are distinct, made in order, and never a name source text can spell |
| Temporaries.StmtsBind | core/src/elaborator.rs:121-125 | the code of a whole statement list binds exactly the temporaries made while it was elaborated, each once |
| EffectOrder.AnUnboundNameMovesPastAnEffect | core/src/typecheck/explain.rs:106 | why a program is refused before it runs when a name is unbound: hoisting would run a later operand's command before the failing read |
| Hoisting.ExprAlike | core/src/elaborator/expr.rs:89-463 | every expression form, its bindings run first, ends as it does read left to right with the keys of its reads first: same trace, same failure, related value |
| Hoisting.OperandsAlike | core/src/elaborator.rs:202-218 | a row of operands is hoisted in written order, the bindings stopping exactly where the row stops |
| Hoisting.IfAlike | core/src/elaborator/branches.rs:10-56 | an `if` with its `elsif` chain runs the condition's bindings, then one arm only |
| Hoisting.JunctionAlike | core/src/elaborator/branches.rs:135-173 | the right side of a junction runs only when the left did not decide it |
| Hoisting.NamedCallAlike | core/src/elaborator/calls.rs:22-102 | a bound bare head is forced and applied, an unbound one dispatched, both after its operands |
| Hoisting.ReadsAlike | core/src/elaborator/expr.rs:411-435 | once its keys have run, a chain of reads is hoisted read by read and stops at the first that fails |
| Hoisting.StretchAlike | core/src/elaborator/statements.rs:28-101 | a stretch of block definitions, each of which may refer to all of them, runs elaborated as it is written: its bindings do nothing the world sees, and what follows finds related blocks under every name |
| Hoisting.KnotAlike | core/src/elaborator/statements.rs:72-98 | entering a block of a stretch, alone or as a member of its recursive group, ends as running it with every block of the stretch in scope |
| Knots.KnotRuns | core/src/elaborator/statements.rs:65-100 | bound component by component, dependencies first, every block of a stretch closes over blocks already tied or over its own group |
| Elaborator.DependenciesFirst | core/src/elaborator/statements.rs:28-30 | a block refers only to its own component and to earlier ones |
| Components.ComponentsAreExact | core/src/syntax/group.rs:70-84 | every node is in exactly one component, each ascending; two nodes share one exactly when they reach each other; a component refers only to itself and earlier ones |
| Components.StepKeeps | core/src/syntax/group.rs:110-146 | one turn of the iterative search, an edge followed or a frame left, keeps what the stack, the lowlinks, the frames and the components already out mean |
| Components.Tarjan.Connect | core/src/syntax/group.rs:108-147 | the loop over its explicit stack of frames, its six fields updated in place, is the specified search |
| Components.Find | core/src/syntax/group.rs:73-87 | the components returned are the graph's strongly connected components, dependencies first |
| Parts.PartsOf | core/src/syntax/group.rs:49-68 | one pass cuts a statement list into statements and stretches: written out again it is the list, no stretch defines a name twice, and a stretch is broken only by another statement or a name already bound |
| Parts.OneCut | core/src/syntax/group.rs:33-68 | no other cut has those properties |
| Pending.WrapRuns | core/src/elaborator.rs:221-230 | folding bindings around a computation runs them in the order they were pushed |
| Elaborated.ElabKeeps | core/src/elaborator.rs:1-16 | every node elaboration makes is built, and it drops no name the source uses |
| Lowering.Pass.Expr | core/src/elaborator/expr.rs:89-463 | the pass with its counter, frames and accumulator updated in place yields the specified computation, pushes exactly the specified bindings, and leaves the frames as they were |
| Lowering.Pass.Hoisted | core/src/elaborator.rs:202-212 | `Return` passes its value through; anything else is pushed under the next temporary |
| Lowering.Pass.Stmts | core/src/elaborator/statements.rs:7-25 | each statement's bindings are folded around that statement alone, and a `let` is in scope only after its right side, a stretch's names before it |
| Lowering.Pass.Stretch | core/src/elaborator/statements.rs:28-101 | with all its names bound first, a stretch's members are elaborated and its components, found from the edges noted on the way, become the specified bindings; the stretches around it are noted only what escapes it |
| Lowering.Pass.Refer | core/src/elaborator.rs:172-200 | a reference is an edge of the stretch being elaborated exactly when the innermost frame holding the name is that stretch's and the name one of its members |
| Lowering.Pass.IsBound | core/src/elaborator.rs:164-170 | the innermost-first search of the frames decides scope |
| Lowering.Wrap | core/src/elaborator.rs:221-230 | the reverse fold leaves the first binding outermost |
| Cron.NextAfter | exarch/src/schedule.rs:112-151 | the day-skipping search returns the least matching minute boundary at least a whole second away, and `None` only when there is none |
| Cron.CapIsNotReached | exarch/src/schedule.rs:57-60 | the step cap is never why the search stops |
| Cron.WithinHorizon | exarch/src/schedule.rs:57-60 | a first occurrence is never more than nine years' days away, through the eight-year gap between leap days |
| Cron.FiresUnlessImpossible | exarch/src/schedule.rs:157-171 | away from the calendar's end a parsed schedule fires if and only if some date can meet its month and day fields |
| Cron.StrictlyAfterUnlessTooNear | exarch/src/schedule.rs:110-151 | the answer is the first match strictly after `from` if and only if `from` is not inside the last second before a match |
| Cron.HalfASecondTooNear | exarch/src/schedule.rs:142-146 | half a second before a match the search answers the next day's |
| Cron.QuietDay | exarch/src/schedule.rs:124-141 | no date strictly between the first day and the occurrence's day matches, so skipping days loses nothing |
| Cron.WeekdayAnswers | exarch/src/schedule.rs:157-171 | a schedule of one time on one weekday answers the first such day, counted from 1 January 1970, on which that time is still to come |
| Cron.EitherDayField | exarch/src/schedule.rs:157-171 | with both day fields restricted a date matches where either does, and with one a star where the other does |
| Cron.TheNextMonday | exarch/src/schedule.rs:157-171 | nine on Mondays in June, asked on Saturday 20 June 2026, is Monday 22 June |
| Calendar.NextDayCounts | exarch/src/schedule.rs:129-139 | the next civil day is the next ordinal, across months, years and leap years |
| Calendar.OrdinalsOrder | exarch/src/schedule.rs:157-163 | ordinals order the dates and no two dates share one |
| Calendar.LeapWithinEight | exarch/src/schedule.rs:57-60 | any eight consecutive years hold a leap year |
| Calendar.WeekdayInFirstWeek | exarch/src/schedule.rs:157-171 | the first week of any month meets every weekday |
| Calendar.WeekdaysFromTheEpoch | exarch/src/schedule.rs:162 | a date's weekday is its days from 1 January 1970, a Thursday, counted around seven |
| Calendar.WeekdaySteps | exarch/src/schedule.rs:162 | the next day's weekday is the next around seven |
| Calendar.TheCalendar | exarch/src/schedule.rs:129-139 | the twelve months' lengths, the years', and which are leap |
| CronText.ParseField | exarch/src/schedule.rs:179-221 | a value is allowed exactly when some comma part admits it; any malformed part refuses the field with the first such part's fault; what is accepted is non-empty and in range |
| CronText.AddRange | exarch/src/schedule.rs:211-218 | the eight-bit stepping loop sets exactly the values reached in whole steps and stops rather than wrap |
| CronText.Forms | exarch/src/schedule.rs:76-79 | each documented form over numbers in range denotes its range and step, and a descending range is refused |
| CronText.NamesInAnyCase | exarch/src/schedule.rs:223-240 | every month and weekday name is read in any mixture of cases |
| CronText.TheNamesMean | exarch/src/schedule.rs:30-54 | the twelve months from 1 and the seven weekdays from Sunday's 0, each by its own three letters |
| CronText.StarsAllowEverything | exarch/src/schedule.rs:179-221 | a star admits each value of its field's own range and no other |
| CronText.SundayIsNoneAndSeven | exarch/src/schedule.rs:83-108 | a weekday by number is that day, 7 being Sunday as 0 is, and restricts its field |
| CronText.RefusedParts | exarch/src/schedule.rs:179-221 | a step of none, a step that is no number and a number out of range are each refused for what they are, and a plus sign is taken |
| CronText.Parse | exarch/src/schedule.rs:83-108 | five fields each read over its own range, 7 folded onto Sunday, the stars noted; otherwise the count or the first refused field |
| CronText.SteppedDivides | exarch/src/schedule.rs:211-218 | being reached in whole steps is divisibility of the distance |
| Text.SplitJoins | exarch/src/schedule.rs:186 | splitting loses nothing and leaves no separator |
| Text.SplitOnly | exarch/src/schedule.rs:186 | no other list of parts joins to the same text |
| Text.WordsAreApart | exarch/src/schedule.rs:83-108 | the words of a text are its runs without white space, one at a time from the left |
| Text.AsciiSpaces | exarch/src/schedule.rs:317-340 | of the ASCII chars, tab to carriage return and space are white |
| Durations.DurationRoundTrip | exarch/src/schedule.rs:317-354 | printing then parsing gives a duration back exactly when it is a positive whole number of seconds |
| Durations.AcceptedDurations | exarch/src/schedule.rs:317-340 | every accepted text names a positive whole number of seconds within 64 bits, which prints and parses back |
| Durations.WrittenIsRead | exarch/src/schedule.rs:317-340 | a count and one of `s`, `m`, `h`, `d`, with white space before, between and after, reads as their product in seconds, refused only where the count or the product passes 64 bits or is nothing |
| Durations.OnlyWrittenIsRead | exarch/src/schedule.rs:317-340 | and no other text is read |
| Durations.CoarsestUnit | exarch/src/schedule.rs:342-354 | the unit printed divides the duration and no coarser one does |
| Decimal.DigitsWeigh | exarch/src/schedule.rs:317-340 | the last digit counts units and each before it ten times the next |
| Booking.RunsAreSafe | exarch/src/schedule.rs:422-508 | over every run from a resumed session: each wakeup is for the booking made under the id rung and not before its instant, at most one is queued per id, a one-shot posts once and then has neither timer nor booking |
| Booking.RecurrencesAreSpaced | exarch/src/bus/mailbox.rs:529-565 | over every run, whatever rings are stale or repeated: no id posts twice at clocks below the instant its earlier post re-armed its booking for, the live booking is at that instant or past it, and it has counted every post under its id |
| Booking.RearmedForLater | exarch/src/schedule.rs:476-508 | after a fire in any run, each recurring label that was due and rang is booked, in the live state, for its trigger's next instant, at least a second past the clock, and armed for it |
| Booking.FireSettles | exarch/src/schedule.rs:476-508 | a fire settles each label whose own ring waits as though it alone had rung: a timer with no booking goes, an early one is armed again, a due one moves to its next instant or goes; every other label is left as it was |
| Booking.ARefusalStops | exarch/src/schedule.rs:476-508 | a due label the journal refuses keeps its timer and booking, and so does every label after it |
| Booking.FireLogsWhatItQueues | exarch/src/bus/mailbox.rs:529-565 | the posts a fire logs are the wakeups it queues, at its clock |
| Booking.NoTimerIsForgotten | exarch/src/schedule.rs:476-531 | over every run, while the agent lives and the journal takes every fire, each timer has its deadline pending or its ring waiting |
| Booking.DueIsPosted | exarch/src/schedule.rs:476-508 | a due booking whose own id has rung is posted with its own text, whatever else rang |
| Booking.RecurrencesAdvance | exarch/src/schedule.rs:142-146 | the millisecond a cron trigger re-arms for, that of the least boundary its schedule allows, is at least a second after the clock's; before 1970 both read 0 |
| Booking.ClocksCountFrom1970 | exarch/src/schedule.rs:377-379 | milliseconds are counted from the start of 1970, and before it read 0 |
| Booking.DelaysEndAtTheirInstant | exarch/src/schedule.rs:283-293 | a delay ends as the instant that many nanoseconds on would, and never where that is past the last instant |
| Booking.InsertHolds | exarch/src/bus/mailbox.rs:1003-1019 | of two rings of a label the later id waits, and no other label's ring is touched |
| Booking.InsertOrders | exarch/src/bus/mailbox.rs:1003-1019 | rings wait in label order |
| Booking.ElapsedRings | exarch/src/schedule.rs:515-527 | an elapsed deadline leaves its timer unarmed and its ring, or a later one of its label, waiting, only while the agent lives |
| Booking.TheEndedHearNothing | exarch/src/bus/mailbox.rs:1003-1019 | once the agent has ended, in every continuation, no deadline rings again |
| Booking.RetireIsSafe | exarch/src/bus/mailbox.rs:587-609 | clearing the conversation leaves no booking and no queued wakeup, and every human's item |
| Booking.TakeIsSafe | exarch/src/schedule.rs:422-508 | the agent taking an item takes that one alone |
| Booking.BookingsAreApart | exarch/src/schedule.rs:418-475 | booking or dropping one label touches no other |
| Registry.Next | exarch/src/schedule.rs:283-293 | a trigger's next instant, a cron's found by the day-skipping search itself |
| Registry.Timers.Fire | exarch/src/schedule.rs:476-508 | answering the taken rings in label order until the journal refuses one is the specified fire, bookings, queue, timers and history, of which `Booking.FireSettles` and `Booking.ARefusalStops` say what it leaves |
| Registry.Timers.Schedule | exarch/src/schedule.rs:418-463 | the booking is committed before its timer is armed; a trigger that never fires, a borne label and a refused journal each leave everything as it was |
| Registry.Cell.Ring | exarch/src/bus/mailbox.rs:1003-1019 | a ring waits in label order, the later id of a label standing, and only while the agent lives |
| Scopes.StrikesHitTheirDispatch | core/src/engine.rs:233-246 | in every state any run reaches, a strike on one id changes no other dispatch's node |
| Scopes.CurrentCause | core/src/engine.rs:196-246 | in every run the current dispatch is the last opened and hangs under the scope its own opening named, or the engine's dispatches where it named none; every strike a host ever made at or above that scope has reached it; its own cause is exactly the join of the strikes on its id since the last of them that was overwritten and the session's endings |
| Scopes.HangsWhereNamed | core/src/engine.rs:207-222 | the node a step makes is the next one and hangs for good under the scope that step named |
| Scopes.CauseIsStrongest | core/src/process/cancel.rs:426-466 | a node's cause is the strongest of its own and of every node above it |
| Scopes.HostsReach | core/src/process/cancel.rs:468-472 | a strike on a scope reaches every node at or below it, whichever came first |
| Scopes.HostsReachNoOther | core/src/process/cancel.rs:468-472 | and changes the cause of no node that does not hang under it |
| Scopes.HostsCarryTheirStrikes | core/src/engine.rs:207-222 | a host's scope carries exactly what hosts struck on it |
| Scopes.AHostStopsItsRun | core/src/engine.rs:207-222 | a dispatch opened within a host's scope is struck when the scope is |
| Scopes.AllStrikesLandUnlessOverwritten | core/src/engine.rs:196-246 | if no strike for another non-current id is taken while it is foretold, it carries the join of all the strikes on its id in the run, before or after it opened; otherwise it does if and only if what came after the last overwriting is as strong |
| Scopes.OnlyOverwritingLoses | core/src/engine.rs:233-246 | what is held or foretold of a dispatch is lost only where a strike for an id neither current nor foretold takes the slot, or another dispatch opens after it |
| Scopes.ASecondForetellingLosesTheFirst | core/src/engine.rs:202-246 | two strikes ahead of their dispatches leave the first dispatch unstruck |
| Scopes.EndingIsFinal | core/src/engine.rs:206-265 | after the session ends with a cause, in every continuation, the dispatch then current and every one opened later carry at least it, wherever their nodes hang |
| Scopes.Strikes.Open | core/src/engine.rs:207-222 | minting under the lock: under the scope given or the engine's dispatches, struck by the end and by the strike that foretold it |
| Scopes.Strikes.Aim | core/src/engine.rs:233-246 | striking under the lock: the current dispatch, or the one foretold slot |
| Scopes.Strikes.End | core/src/engine.rs:258-265 | ending under the lock strikes the root and the current dispatch |
| Scopes.Strikes.Apply | core/src/engine.rs:224-231 | a strike, a termination or an abort, each with its own cause |
| Carrier.Front.DispatchToReport | core/src/carrier.rs:447-506 | for any event stream the host sees exactly the values surfaced under this id up to its first terminal event, in order; each enquiry among them is answered once under its own id; the result is its own report or the severance that stands; the strikes are the rises of its scope's cause |
| Carrier.AnswersInOrder | core/src/carrier.rs:447-506 | the answers are one to each enquiry under the id, in order, each under the enquiry's own id and with what the host said to it |
| Carrier.SurfacesInOrder | core/src/carrier.rs:447-506 | what is surfaced is the value of each surface under the id, in order |
| Carrier.VerdictIsOfTheFirstEnd | core/src/carrier.rs:447-506 | the first report or reading under the id, or close, ends it: with the report, or cut by the first severance recorded, a reading being one where none was |
| Carrier.LateFramesAreIgnored | core/src/carrier.rs:430-434 | a frame of another dispatch, wherever it falls, changes neither what the host sees, nor the answers, nor the result, nor, unless the poll after it shows a stronger cause, the strikes |
| Carrier.RisesIncrease | core/src/carrier.rs:460-470 | the causes struck strictly increase and the last is the strongest the scope ever showed |
| Carrier.Receiver.Recv | core/src/carrier.rs:689-695 | the stash first, in arrival order, then the channel |
| Carrier.Receiver.ReadPast | core/src/carrier/wire/front.rs:385-416 | from any stash and channel, a probe ends at its own reading or the closed stream and loses nothing else it read past, which comes back in arrival order unless the reading was itself in the stash |
| Carrier.IdleInterruptsStrikeNothing | core/src/carrier.rs:600-634 | in every interleaving an interrupt heard strikes the dispatch in flight, aimed and not settled since, and only if one was raised after it was aimed |
| Carrier.RaisedInFlightIsHeard | core/src/carrier.rs:600-612 | one raised in flight is not missed by a hearing before it settles |
| Carrier.Sender.Hear | core/src/carrier.rs:605-616 | a late hearing is one move of that interleaving, and the strike it sends is the hit recorded |
| Scratch.SweepsSpareTheLiving | exarch/src/app.rs:376-414 | from any leftovers, in every interleaving of any number of sessions starting, sweeping, ending and dying, no sweep removes the directory of a session that holds its lock, provided no lock is taken while a sweep is reaping it |
| Scratch.TakingIsSafeIffUntouched | exarch/src/app.rs:347-363 | taking a lock leaves every later interleaving safe if and only if no sweep stands between finding it unheld and deleting the scratch beside it |
| Scratch.MadeAndTakenAtOnce | exarch/src/app.rs:347-371 | were making and taking one step, the condition would always hold |
| Scratch.ASweepCanDeleteALiveScratch | exarch/src/app.rs:402-411 | a reachable state where a session that holds its lock has lost its directory |
| Scratch.TheDeadAreReaped | exarch/src/app.rs:390-414 | a session that dies holds no lock, and an undisturbed sweep that comes to its name deletes its directory and lock |
| Scratch.Root.FreshLock | exarch/src/app.rs:355-371 | whatever others do between a making and its taking, three attempts at most are a run of the protocol that ends holding the name, or refused after three |
| Scratch.Root.Attempt | exarch/src/app.rs:356-361 | one attempt is the protocol's making, the others' steps and its taking, and fails only where the lock made is held by another |
| Scratch.Root.ReapUnheld | exarch/src/app.rs:390-414 | undisturbed, a sweep is a run of the protocol and deletes exactly the scratches whose locks nobody holds, its own aside, and their locks |
| Scratch.Root.End | exarch/src/app.rs:117-125 | a session that ends leaves no directory, lock or lock file of its own, and every other as it was |
| Utf8.BoundaryByte | core/src/source.rs:299-300 | a byte is a char boundary exactly when it does not continue a char |
| Utf8.EncodedJoins | core/src/source.rs:299-300 | the bytes of a char less their marks are its bits, in the shortest form, as section 3 of RFC 3629 has them |
| Utf8.FloorBoundary | core/src/source.rs:300 | stepping back over continuation bytes finds the boundary below |
| Utf8.CeilIsLeast | core/src/diagnostic.rs:127-128 | the boundary above is the least one at or past the byte |
| SourceText.Source.LineCol | core/src/source.rs:297-311 | for every text and offset, inside a char or past the end: the line is one more than the newlines before, the column one more than the chars since, and the slice between them is valid |
| SourceText.Source.constructor | core/src/source.rs:249-268 | one pass over the bytes indexes exactly the line starts |
| SourceText.StartsCount | core/src/source.rs:242-246 | the lines begun by a prefix are one more than its newlines, the last where the chars since begin |
| SourceText.LinesEndAtFeeds | core/src/source.rs:242-246 | a feed is the last char of its line and the next line starts past it |
| SourceText.CharsAndBytes | core/src/text.rs:8-21 | char to byte and back is the char or the end; byte to char and back is the boundary below |
| SourceText.CaretsAreDrawable | core/src/diagnostic.rs:119-134 | every caret is in range, on boundaries, empty only for empty text, and covers what of its span lies in the text |
| SourceText.CaretsAreTight | core/src/diagnostic.rs:119-134 | a span of some of the text underlines no more than any boundaries that take it in |
| SourceText.EmptySpansUnderlineOneChar | core/src/diagnostic.rs:129-133 | a span that is empty or ends before it starts underlines the one char it starts in, and past the text the last char |
| Clip.TailIsLongest | clipboard/src/lib.rs:91-99 | the tail is the longest boundary-aligned suffix within the cap |
| Clip.TheTailFits | clipboard/src/lib.rs:82-89 | its sequence fits 100 000 bytes for every text |
| Clip.CapIsExact | clipboard/src/lib.rs:8-11 | a sequence fits exactly when its text is within the cap |
| Clip.WholeIffItFits | clipboard/src/lib.rs:69-76 | a copy is whole exactly when the text fits |
| Clip.Base64ReadsBack | clipboard/src/lib.rs:82-89 | what is sent decodes to what was copied |
| Clip.TheAlphabet | clipboard/src/lib.rs:82-89 | the alphabet of table 1 of RFC 4648 |
| Clip.TheVectors | clipboard/src/lib.rs:82-89 | the test vectors of section 10 of RFC 4648, and the framing of a copy |
| Enquiry.RequestRoundTrip | exarch/src/enquiry.rs:103-138 | a request crosses unchanged exactly when it meets its guards |
| Enquiry.EveryRequestReadIsOk | exarch/src/enquiry.rs:301-433 | whatever data arrives, a request the desk acts on meets its guards: agent name, role, base, span order, one-line note, positive delay |
| Enquiry.NoteBounds | exarch/src/enquiry.rs:841-875 | a note is of one to 240 bytes on one line |
| Enquiry.NameBounds | exarch/src/enquiry.rs:304-325 | a name is of one to 24 letters, digits, `-` and `_` |
| Spelling.ReadIffSpelt | core/src/data/datum.rs:62-76 | the desk reads a request off data exactly when the data spells it: its own tags, and each record holding each of its fields once, in any order, and nothing more |
| Spelling.SentAsSpelt | exarch/src/enquiry.rs:103-138 | a request within its guards is sent as it is spelt, and no data spells two |
| Spelling.MessageIffSpelt | exarch/src/enquiry.rs:103-138 | a message is read exactly off a record of one `to` and one `text` |
| Spelling.SpecIffSpelt | exarch/src/enquiry.rs:287-300 | a spec is read exactly off a record of one `prompt`, `name`, `type` and `model`, the name one token, the role named |
| Spelling.EvictIffSpelt | exarch/src/enquiry.rs:829-837 | an eviction is read exactly off a record of one `from`, `to` and `note`, in order and within the note's cap |
| Spelling.GrepIffSpelt | exarch/src/enquiry.rs:1010-1025 | a grep is read exactly off a record of one `pattern` that compiles and one `turns` |
| Spelling.StrayFieldsAreRefused | core/src/data/datum.rs:62-76 | a message with an unknown field, or with one given twice, is refused |
| Spelling.LaunchIffSpelt | exarch/src/enquiry.rs:263-285 | a spawn record that gives its grant once is read exactly as it is spelt |
| Spelling.ARepeatedGrantIsTaken | exarch/src/enquiry.rs:273-284 | a second grant is passed over |
| Enquiry.DecodedRequestsCrossAgain | exarch/src/enquiry.rs:1-6 | what was read once is read again as the same request |
| Enquiry.LaunchRoundTrip | exarch/src/enquiry.rs:263-285 | the grant flattened into the spec's record comes back out of it, and the rest is the spec |
| Enquiry.EmptyRepliesCross | exarch/src/enquiry.rs:192-226 | a reply of nothing crosses as no payload and is read as nothing |
| Enquiry.LargeIdsDoNotCross | core/src/data/datum.rs:343-357 | an id past the signed range arrives saturated |
| Datums.SortKeeps | core/src/data/datum.rs:107-120 | sorting a record's entries changes no field and drops none |
| Datums.SortAscends | core/src/data/datum.rs:86-117 | an encoded record is canonical, its keys ascending |
| Datums.FieldsRead | core/src/data/datum.rs:47-81 | a record made of fields holds each of them once and nothing else, and reads each back |
| Datums.StrictlyHeld | core/src/data/datum.rs:57-76 | a record that passes the strict check with every field found holds exactly those fields, each once |
| Datums.HeldStrictly | core/src/data/datum.rs:57-76 | and one that holds exactly those fields, in any order, passes and has each found |

## Left out

- The evaluator's stack cap, polling and cancellation; redirects, pipelines, effect handlers, grants, audit, spawn, gather, capture and protection; natives, floats, maps, string interpolation and destructuring patterns. A command the environment does not bind is one opaque operation answered by the world, which may remember every operation before it.
- Operators are `+`, `-`, `==` and `<` on integers, `<` on text refused; arithmetic overflow is an error as in the source.
- The refusal of a reference to a block defined past the stretch it stands in (core/src/elaborator.rs:176-190): the model lets the program through, and both readings take the name from outside.
- The top level of a session, where each `let` and each stretch binding is a phrase of its own (core/src/elaborator.rs:261-304): a program is one statement list, as a block or a script body is.
- A lambda that is all of another lambda's body is written as one lambda with both parameters, as the elaborator chains them (core/src/elaborator/expr.rs:29-83); `Admitted` refuses the nested spelling.
- Surface records, tags, `case`, comprehension of options, spread arguments, the zero-argument `exit` sugar and `$SCRIPT`.
- The type checker: what it refuses is the predicate `Admitted`.
- Error wording: a failure is one of a few kinds, and a codec's refusal has no sentence.
- Time zones and daylight saving in `next_after`: the model is UTC; the range of a timestamp is a constant.
- `Scopes`: nodes live in one arena and are named by index rather than held by reference, and shields and time limits on a scope are not modelled.
- `Booking`: a label's rings are stored as a sorted list, and the journal's success is a parameter of every write; resumption's own re-arming is not modelled.
- `Carrier`: threads, sockets, the reader and the probe's own answers; what a receive comes to is given by the stream, and re-entrance is not modelled.
- `Scratch`: the steps after the directory is made other than the sweep, and the failures of file-system calls.
- `SourceText`: `SourceDb`, call sites and text normalisation, which would add only easy members.
- `Enquiry`: answers, pinned cards, and the model-facing refusals; whether a pattern compiles and what a cron expression parses to are parameters of decoding.
