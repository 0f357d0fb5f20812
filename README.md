# pycopancore runner, exodus social system and majority decision in Dafny

This project models three parts of pycopancore, a framework for
coupled socio-ecological simulation models.

## The runner (`runner.py`)

The runner advances a configured model in time:

- it lays the ODE targets out in one flat value array;
- it integrates the ODE processes between discontinuities, through a right-hand side that first applies the Explicit processes;
- it keeps a table of pending Event and Step firings, keyed by time;
- at each discontinuity it fires what is due and reschedules it;
- it re-applies the Explicit processes;
- it records every process target in a trajectory, padded for idle instances.

How the runner is modelled:

- The runner is a class, `Runners.Runner`, whose methods update its fields in place. The fields are:
  - the world;
  - the iteration counter;
  - the target slices;
  - the discontinuity table;
  - the number of random draws taken;
  - the time axis;
  - the per-variable series.
- Every method is proved against a specification function in its own module:
  - `Derivatives` covers `apply_explicits` and `get_rhs_array`;
  - `Scheduling` and `Discontinuities` cover scheduling and firing;
  - `TrajectoryRecorder` covers `save_to_traj` and the saving of the solver output;
  - `ArrayLayout` covers the array layout.
- The model's entities (instances, variable values and derivative accumulators) are one `World` value (`Entities`).
- User callables become functions on the `World`:
  - process methods;
  - expressions;
  - time functions;
  - termination calls.

## The exodus social system (`social_system.py`)

The exodus social system, `Exodus.SocialSystem`, is also a class. Its behaviour:

- It counts its population.
- A Step pulls the individuals' incomes (municipality) or farm sizes (county) halfway towards the system's target mean. The step repeats every time unit.
- It recomputes its mean farm size and its average liquidity and utility.

## The majority decision (`society.py`)

The majority-decision society, `Majority.Society`, adopts the most frequent of the culture's possible opinions. On a tie it takes the first one.

## Where the code differs from its comments and assertion messages

The model follows the code.

- Rate-based Events:
  - A rate must be positive only when it is first scheduled (an assertion in `run`). Rescheduling after a firing divides by the rate without a check; zero or negative rates raise there.
  - Both cases are `NonPositiveRate`.
  - The sampled delay is only known to be non-negative (`>= t`), not strictly positive.
- A Step whose next-time function returns `t0` fires immediately. It is then asked again with the same `t0`, not for a later time.
- Configuration errors are plain assertion failures raised out of `run`; no trajectory is returned. The model returns the failure (`Failure`, `RunOutcome.Failed`) and promises the runner's invariant only on success.
- The time axis can repeat a time: the solver's last reported time and the discontinuity time appended after it are normally equal. The model promises only that the axis starts at `t0` and is extended, never rewritten.

## Model

| member | source | states |
|---|---|---|
| Runners.Runner.constructor | pycopancore/runners/runner.py:39-71 | the runner keeps the model's processes and termination calls, starts the iteration counter at 0 and holds no schedule or trajectory yet |
| Runners.Runner.ApplyExplicits | pycopancore/runners/runner.py:74-106 | the new world is what applying the Explicit processes in order gives; a process with fewer expressions than targets fails, and the failure is reported |
| Runners.Runner.ApplyExplicit | pycopancore/runners/runner.py:85-106 | one Explicit process: its targets are set from its expressions, or its method is called for every owning instance; the world is `ApplyExplicit`'s, or the failure is reported |
| Runners.Runner.SetTargetValues | pycopancore/runners/runner.py:87-100 | each target in turn is set from its own expression's values; the first missing expression fails |
| Runners.Runner.CallForEach | pycopancore/runners/runner.py:101-106 | a method process is called once for every instance of its owning class, in order, threading the world |
| Derivatives.ApplyExplicitsFails | pycopancore/runners/runner.py:85-100 | applying the Explicit processes fails exactly when some expression-list process has fewer expressions than targets |
| Derivatives.SetTargetsFails | pycopancore/runners/runner.py:90-100 | setting the targets fails exactly when an index runs past the expression list, and the error is `MissingExpression` |
| Derivatives.SetTargetsFrame | pycopancore/runners/runner.py:90-100 | setting targets never changes instance lists or derivative accumulators, nor the value of a variable that none of the targets names |
| Derivatives.ApplyExplicitsFrame | pycopancore/runners/runner.py:85-100 | expression-list Explicit processes that do not target a variable leave its values, the instance lists and the accumulators unchanged |
| Entities.SetValuesAt | pycopancore/runners/runner.py:100 | a bulk write stores the k-th value at the k-th (distinct) instance |
| Entities.SetValuesFrame | pycopancore/runners/runner.py:100 | a bulk write leaves every other variable, and every instance outside the list, unchanged |
| Entities.ClearDerivsAt | pycopancore/runners/runner.py:143 | clearing a variable's derivatives makes its accumulator 0 at every instance and leaves other variables' accumulators alone |
| Entities.AddDeriv | pycopancore/runners/runner.py:168 | adding a derivative term increases one accumulator by the term and changes nothing else |
| Runners.Runner.GetRhsArray | pycopancore/runners/runner.py:109-189 | the counter is incremented, and the derivative vector and new world are those of the right-hand-side specification `Rhs` at the new counter, or its failure; what `Rhs` puts in each slice is stated by `Derivatives.RhsAt` |
| Runners.Runner.UnpackArray | pycopancore/runners/runner.py:138-143 | each ODE target's values are set from its slice of the array; with `clear` (inside `get_rhs_array`) its derivatives are also cleared, without it (the replay of the solver's rows, lines 480-484) the accumulators are kept |
| Derivatives.UnpackValue | pycopancore/runners/runner.py:138-143 | after unpacking, the k-th instance of target j holds element `lo_j + k` of the array |
| Derivatives.UnpackCleared | pycopancore/runners/runner.py:138-143 | after unpacking, every ODE target variable's accumulator is 0 at every instance |
| Runners.Runner.AddOdeTerms | pycopancore/runners/runner.py:146-180 | the derivative vector and world are what the ODE processes' terms, added in process order, give (`OdeTerms`, whose content `Derivatives.OdeTermsLog` states); a failure is reported |
| Runners.Runner.AddProcessTerms | pycopancore/runners/runner.py:147-180 | one ODE process adds its terms: into the vector slice for a plain Variable target, into the accumulators for a composite target, or through its method per owning instance (`OdeTerm`, stated by `Derivatives.OdeTermsLog`) |
| Derivatives.AddSlice | pycopancore/runners/runner.py:158 | `derivative_array[lo:hi] += summands` succeeds exactly when the summands fit the slice or broadcast from length 1; it adds elementwise inside the slice, adds the single summand to every position when it broadcasts, and leaves the rest as it was |
| Derivatives.TermTargetsLog | pycopancore/runners/runner.py:151-174 | an expression-specified process's targets succeed exactly when every summand list for a plain Variable target fits its slice or has length 1 (and no expression is missing); the log holds terms for plain targets only; on success the world is the log's world (composite targets' accumulators added) and each vector position gains exactly the summands the log places there |
| Derivatives.PlainStep | pycopancore/runners/runner.py:158 | adding one plain target's summands keeps every position equal to its start plus everything the log so far places there |
| Derivatives.OdeTermsLog | pycopancore/runners/runner.py:146-180 | the same for all ODE processes in order: the vector step succeeds exactly when the log does and every term broadcasts; the world is the log's; each position gains exactly the log's summands for it |
| Derivatives.AddedInSlice | pycopancore/runners/runner.py:158 | with contiguous slices, what the log adds at offset k of target j's slice is the sum of the k-th summands of j's terms, nothing from any other target |
| Derivatives.TargetSumDotted | pycopancore/runners/runner.py:160-174 | a composite target gets no summands in the vector: its terms go to the accumulators |
| Derivatives.RhsAt | pycopancore/runners/runner.py:109-189 | offset k of target j's slice of the right-hand side is the sum of the k-th summands the ODE processes computed for j (zero for a composite target) plus the accumulator of j's k-th instance |
| Runners.Runner.GatherDerivatives | pycopancore/runners/runner.py:184-187 | the result is the accumulators gathered into each target's slice (`Gather`) |
| Derivatives.GatherAt | pycopancore/runners/runner.py:184-187 | with contiguous slices as wide as the instance lists, gathering succeeds and position `lo_j + k` holds its old entry plus the accumulator of target j's k-th instance |
| ArrayLayout.BuildLayout | pycopancore/runners/runner.py:391-398 | `tos` are the running sums of the lengths and `froms` the running sums before each target; `froms[0] == 0`, consecutive slices meet, and `arraylen` is the total; with no targets `froms` is `[0]` |
| ArrayLayout.CumulativeSlices | pycopancore/runners/runner.py:391-408 | slices cut at the running sums are contiguous, end at the packed array's length, are as wide as each target's class, and hold exactly that target's values |
| ArrayLayout.CumulativeSlice | pycopancore/runners/runner.py:401-408 | one target's slice cut at the running sums starts where the previous one ends, is as wide as its class, lies inside the packed array and holds exactly that target's values |
| ArrayLayout.PackSlice | pycopancore/runners/runner.py:400-408 | target j's slice of the initial array holds exactly its current values, in instance order |
| ArrayLayout.ContiguousDisjoint | pycopancore/runners/runner.py:394-396 | slices laid end to end never overlap: an earlier slice ends before a later one starts |
| Runners.Runner.CutSlices | pycopancore/runners/runner.py:401-404 | target i's slice runs from the sum of the lengths before it to the sum including its own |
| Runners.Runner.ComposeInitialArray | pycopancore/runners/runner.py:391-408 | the runner's slices become contiguous; the returned array is the targets' current values packed in order, and each slice holds its own target's values |
| Discontinuities.Insert | pycopancore/runners/runner.py:280-283 | registering appends the firing to the list at its time, creating the key when missing |
| Discontinuities.InsertElsewhere | pycopancore/runners/runner.py:280-283 | registering at one time leaves every other time's list unchanged |
| Discontinuities.InsertAllEntries | pycopancore/runners/runner.py:529-534 | after a batch of registrations, each time's list is its old list followed by the batch's firings for that time, in batch order |
| Discontinuities.InsertAllKeys | pycopancore/runners/runner.py:312-317 | after a batch, the table's times are the old times plus the batch's times |
| Discontinuities.AtCount | pycopancore/runners/runner.py:529-534 | a firing is listed at a time exactly as often as the batch registers it there |
| Discontinuities.NextTime | pycopancore/runners/runner.py:370-373 | the next time is the minimum pending time, or `t_1` when nothing is pending |
| Scheduling.EventTime | pycopancore/runners/runner.py:264-279 | an Event's next time fails exactly for a non-positive rate, a time function answering no later than `t`, or another type; a rate uses one draw and is not earlier than `t`; a time function's answer is later than `t` |
| Scheduling.ScheduleEventInstsRegisters | pycopancore/runners/runner.py:262-283 | scheduling an Event's instances registers each instance once, in order, at an allowed time, and leaves the world alone |
| Scheduling.ScheduleEventsRegisters | pycopancore/runners/runner.py:257-284 | initial Event scheduling registers exactly every (Event, instance of its owning class) pair, in order, at allowed times, without changing the world |
| Scheduling.ScheduleStepInstsRegisters | pycopancore/runners/runner.py:293-317 | scheduling a Step's instances registers each instance once, in order, strictly after `t0` |
| Scheduling.ScheduleStepsRegisters | pycopancore/runners/runner.py:289-318 | initial Step scheduling registers exactly every (Step, instance of its owning class) pair, in order, strictly after `t0`; the world is what the immediate firings give (`StepWorld`) and no draw is taken |
| Scheduling.ScheduleStepRegisters | pycopancore/runners/runner.py:293-318 | one Step scheduled after the Steps before it keeps `StepWorld`, the draws, the pairs registered so far extended by this Step's pairs, and registration strictly after `t0` |
| Scheduling.InitialTable | pycopancore/runners/runner.py:242-318 | the initial table refers only to existing processes and holds no time before `t0` |
| Scheduling.InitialEntries | pycopancore/runners/runner.py:255-318 | in the initial table each time lists the Events registered there, then the Steps, each in registration order |
| Scheduling.InsertRefers | pycopancore/runners/runner.py:280-283 | registering a firing of an existing process keeps the table referring only to existing processes |
| Scheduling.InsertAllRefers | pycopancore/runners/runner.py:529-551 | registering a batch of firings of existing processes keeps that property |
| Scheduling.FireListRegisters | pycopancore/runners/runner.py:506-552 | firing the due list re-registers every due firing exactly once, in list order, at an allowed time |
| Scheduling.FiringRescheduledEntries | pycopancore/runners/runner.py:506-552 | after popping time t and re-registering, other times keep their lists plus new registrations, and t holds only the new ones |
| Scheduling.RegisteredNotEarlier | pycopancore/runners/runner.py:493-552 | registrations at allowed times keep every pending time at or after the current time |
| Scheduling.FiringRescheduledKeys | pycopancore/runners/runner.py:493-552 | after a firing round no pending time lies before t, and anything re-registered exactly at t is a rate-based Event |
| Runners.Runner.Register | pycopancore/runners/runner.py:529-534 | the table becomes the old table with the firing appended at its time |
| Runners.Runner.ScheduleEvents | pycopancore/runners/runner.py:256-284 | the draws and the table are what the Event scheduling specification gives, or its failure is reported |
| Runners.Runner.ScheduleEvent | pycopancore/runners/runner.py:262-284 | one more Event: once the Events before it are scheduled (`EventsScheduled`), the draws and table are those of one Event more, or the whole Event scheduling fails with its failure |
| Runners.Runner.ScheduleEventInstances | pycopancore/runners/runner.py:262-284 | the same for one Event process over the instances of its class |
| Runners.Runner.ScheduleEventInstance | pycopancore/runners/runner.py:263-283 | the same for one instance: the time is computed and registered, or the failure is reported |
| Runners.Runner.ScheduleSteps | pycopancore/runners/runner.py:288-318 | the world and the table are what the Step scheduling specification gives, including immediate firings, or its failure is reported; what it registers is stated by `Scheduling.ScheduleStepsRegisters` |
| Runners.Runner.ScheduleStep | pycopancore/runners/runner.py:293-318 | one more Step: once the Steps before it are scheduled (`StepsScheduled`), the world and table are those of one Step more, or the whole Step scheduling fails with its failure |
| Runners.Runner.ScheduleStepInstances | pycopancore/runners/runner.py:293-318 | the same for one Step process over the instances of its class |
| Runners.Runner.ScheduleStepInstance | pycopancore/runners/runner.py:300-317 | the same for one instance: a Step due at `t0` fires first, then its next time must lie after `t0` |
| Runners.Runner.FireAt | pycopancore/runners/runner.py:493-552 | the list at t is popped and fired in order; on success every popped firing is registered again, once each and at an allowed time, the rest of the table is kept, and the table still refers to existing processes |
| Runners.Runner.FireDue | pycopancore/runners/runner.py:506-552 | the world, draws and table are what firing the list in order (`FireList`) gives, or its failure is reported |
| Runners.Runner.Fire | pycopancore/runners/runner.py:508-552 | one firing: the handler runs on the instance, then the next time is computed (rate draw, time function, or Step next-time function, the latter two strictly later) and registered |
| Runners.Runner.Terminate | pycopancore/runners/runner.py:642-662 | the runner stops exactly when some termination call holds for its instance; with none it never stops |
| Runners.Runner.SaveToTraj | pycopancore/runners/runner.py:580-640 | the series become those of the recorder specification `SaveAll` at the current length of the time axis |
| Runners.Runner.SaveTargetSeries | pycopancore/runners/runner.py:592-640 | one target's series become those of `SaveTarget` |
| TrajectoryRecorder.RecordAllAt | pycopancore/runners/runner.py:605-619 | an active instance gets its value appended when its series is short, a first-seen one gets `tlen - 1` padding markers then the value, and a full one is left alone |
| TrajectoryRecorder.RecordAllFrame | pycopancore/runners/runner.py:605-619 | recording the active instances leaves every other instance's series unchanged |
| TrajectoryRecorder.RecordAllAligned | pycopancore/runners/runner.py:605-619 | recording keeps every series at most one entry short, and brings every active instance's series to exactly the time axis's length |
| TrajectoryRecorder.PadAllAligned | pycopancore/runners/runner.py:623-640 | padding the idle instances brings each of their series to the time axis's length, keeps the others, and adds no other instance |
| TrajectoryRecorder.SaveTargetAligned | pycopancore/runners/runner.py:591-640 | after saving a target, every active or idle instance of its class has a series exactly as long as the time axis, and no unrelated instance gains a series |
| TrajectoryRecorder.SaveTargetPadsOwnClass | pycopancore/runners/runner.py:598-623 | saving a target leaves the series of instances outside its class's active and idle lists untouched |
| TrajectoryRecorder.NewIdleSeriesAligned | pycopancore/runners/runner.py:636-640 | a first-seen idle instance gets exactly `tlen` padding markers |
| TrajectoryRecorder.NewIdleSeriesAsWrittenMisaligned | pycopancore/runners/runner.py:638-640 | as written, for every time-axis length other than 1 the first series of an idle instance has the wrong length (it always has one element) |
| TrajectoryRecorder.IdleBindingAsWrittenLeaks | pycopancore/runners/runner.py:598-623 | as written, for any world and any taxon target: listed first it reads an unbound local; listed after an entity-class target it pads with that class's idle instances, although its own class has none |
| TrajectoryRecorder.Column | pycopancore/runners/runner.py:447-448 | a column of the solution exists exactly when there is a row and every row is wide enough; it is the c-th entry of each row |
| TrajectoryRecorder.SaveColumnsAt | pycopancore/runners/runner.py:439-458 | an instance whose series is short by the number of solver rows gets its column appended and reaches the time axis's length |
| TrajectoryRecorder.SaveColumnsFrame | pycopancore/runners/runner.py:444-458 | saving columns leaves instances outside the list untouched |
| Runners.Runner.SaveOdeResult | pycopancore/runners/runner.py:435-458 | the solver's times are appended to the time axis and the series are those of `SaveOde`, or the failure is reported |
| Runners.Runner.SaveTargetColumns | pycopancore/runners/runner.py:444-458 | one target's columns are saved as `SaveColumns` says |
| Runners.Runner.Integrate | pycopancore/runners/runner.py:320-487 | the ODE targets are laid out contiguously, the solver's output is what the integrator gives for the packed values, and the time axis is extended by the solver's times without rewriting earlier points; on success the world is what `IntervalWorld` gives: the state the solver's last right-hand-side call leaves (line 324, which unpacks its row, lines 138-143), then the replay of every row when Explicit processes exist; the series is what `IntervalSeries` gives: the solver's columns saved for every ODE target (lines 435-458), then one save of every process target per replayed row (line 487); every failure of that world is reported |
| Runners.Runner.FinishInterval | pycopancore/runners/runner.py:320-487 | the same once the solver has answered: the counter advances once per reported interval, the time axis is extended, and the world and series are `IntervalWorld`'s and `IntervalSeries`', or a failure is reported |
| Runners.Runner.SettleSolver | pycopancore/runners/runner.py:320-324 | the solver's last right-hand-side call, at the last point it reports, leaves the world as `Settle` says, or its failure is reported; with no point reported nothing changes |
| Runners.Runner.ReplayRows | pycopancore/runners/runner.py:473-487 | the world is what replaying every solver row gives (`ReplayWorld`), and the series gain one save per row from the world that row left (`ReplaySeries`); the first failing Explicit process is reported |
| Runners.Runner.ReplayNext | pycopancore/runners/runner.py:476-487 | one more row of the replay: once the rows before it are replayed (`Replayed`), the world and series are those of one row more, or the whole replay fails with this row's failure |
| Runners.Runner.ReplayRow | pycopancore/runners/runner.py:480-487 | one row is copied into the targets keeping the accumulators, the Explicit processes are applied at its time, and every process target is saved |
| Runners.IntervalEndsAtLastRow | pycopancore/runners/runner.py:320-324 | with no Explicit process and only expression-specified ODE processes, a successful interval keeps the instance lists and leaves each ODE target's k-th instance at its entry of the solver's last row, so the firings (lines 506-552), `save_to_traj` (line 562) and the next initial array (line 406) see the state at the end of the interval |
| Derivatives.RhsHoldsRow | pycopancore/runners/runner.py:109-189 | with no Explicit process and only expression-specified ODE processes, a successful right-hand-side evaluation leaves the instance lists as they were and each ODE target's k-th instance at element `lo_j + k` of the evaluated array |
| Derivatives.OdeLogKeeps | pycopancore/runners/runner.py:146-180 | adding the terms of expression-specified ODE processes never changes instance lists or variable values, only the vector and the accumulators |
| Derivatives.TargetsLogKeeps | pycopancore/runners/runner.py:151-174 | the same for the targets of one expression-specified process |
| Runners.Runner.Smooth | pycopancore/runners/runner.py:375-487 | the interval ends as `SmoothEnds` states: the time axis gains the solver's times; with no ODE process nothing is integrated, nothing fails, and the world and series are kept; otherwise the solver's output is the integrator's for the packed values, the targets are laid out end to end and the world and series are `IntervalWorld`'s and `IntervalSeries`' |
| Runners.Runner.Discontinuity | pycopancore/runners/runner.py:491-563 | the time is appended once; on success the world, draws and re-registrations are what `DiscontinuityEffect` gives (the due firings in order, then the Explicit processes), the table is the old one without that time plus the re-registrations, each popped firing is re-registered once at a later allowed time, every process target is saved, and the table stays valid and not before that time; a failure is exactly a failure of `DiscontinuityEffect` |
| Runners.Runner.RunRound | pycopancore/runners/runner.py:366-570 | one loop round after the termination check, with the corrected advance: on success time moves to the minimum pending time (or to `t_1` when none), keeping the table valid and not before the new time; the smooth interval ends in the world `mid` and series `saved` as `SmoothEnds` states; with nothing pending the time axis gains the solver's times and the world and series are those; otherwise the axis gains the solver's times and the new time, the world and draws are `DiscontinuityEffect`'s from `mid`, every process target is saved once more from that world (line 562), and the table is the old one without the new time plus the re-registrations of exactly the popped firings, at later allowed times |
| Runners.Runner.Start | pycopancore/runners/runner.py:223-319 | the time axis is `[t0]` and the series are the initial values saved once; on success the Explicit processes succeed on the initial world, the table is the empty table with the Event registrations, then the Step registrations, inserted; these register exactly every (Event, instance) and every (Step, instance) pair of the completed world, at allowed times after `t0`; the world is what the Steps' immediate firings give, and the table refers to existing processes and holds no time before `t0` |
| Runners.Runner.ScheduleInitial | pycopancore/runners/runner.py:255-318 | on success the table is the empty table with the Event registrations, then the Step registrations, inserted; the Events register exactly every (Event, instance) pair and the Steps every (Step, instance) pair, at allowed times after `t0`; the world is what the Steps' immediate firings give; the table refers to existing processes and holds no time before `t0` |
| Runners.Runner.Run | pycopancore/runners/runner.py:192-578 | the time axis starts at `t0`, time never goes back, and at most `fuel` rounds run; a finished run reaches `t_1`; a run ends early with `Terminated` only before `t_1` and when some termination call holds in the final world (lines 362-365), and with `OutOfFuel` only before `t_1`, after `fuel` rounds and when no termination call holds; a run that did not fail leaves a valid table with nothing pending before the final time |
| Runners.AdvanceAsWrittenStalls | pycopancore/runners/runner.py:476-497 | as written, for every `t < t_1`, a round with no pending discontinuity and no replayed time points leaves t where it was, below `t_1` |
| Exodus.SocialSystem.CalcPopulation | pycopancore/model_components/exodus/implementation/social_system.py:78-91 | an empty system is deactivated and gets population 1; otherwise the population is the number of individuals; either way it is at least 1 |
| Exodus.SocialSystem.SumOf | pycopancore/model_components/exodus/implementation/social_system.py:100-102 | the summing loop yields the total of the attribute over the individuals |
| Exodus.SocialSystem.Adjust | pycopancore/model_components/exodus/implementation/social_system.py:98-108 | with a zero population or zero sum a division raises and nothing changes; otherwise every individual's attribute is multiplied by `r + (1-r)*0.5` with `r = target / (sum/population)` |
| Exodus.SocialSystem.UpdateIncomes | pycopancore/model_components/exodus/implementation/social_system.py:93-108 | a system that is not a municipality (`is True`) raises `SocialSystemTypeError` and changes nothing; a municipality adjusts its incomes |
| Exodus.SocialSystem.UpdateFarmsizes | pycopancore/model_components/exodus/implementation/social_system.py:110-125 | a system that is not a county (`is False`) raises `SocialSystemTypeError` and changes nothing; a county adjusts its farm sizes |
| Exodus.TotalScaled | pycopancore/model_components/exodus/implementation/social_system.py:99-108 | scaling every individual's attribute by c scales the total by c |
| Exodus.TotalOfScaled | pycopancore/model_components/exodus/implementation/social_system.py:99-108 | any individuals whose attribute values are c times those of others, position by position, have c times their total |
| Exodus.ScaleKeepsRatios | pycopancore/model_components/exodus/implementation/social_system.py:107-108 | the ratio between any two individuals' incomes (or farm sizes) is kept |
| Exodus.ScaleKeepsOthers | pycopancore/model_components/exodus/implementation/social_system.py:124-125 | scaling one attribute leaves every other attribute of every individual unchanged |
| Exodus.AdaptionHalfway | pycopancore/model_components/exodus/implementation/social_system.py:122-123 | the factor times the current mean is the midpoint between the current mean and the target |
| Exodus.AdaptionAtTarget | pycopancore/model_components/exodus/implementation/social_system.py:105-106 | at the target mean the factor is 1, so nothing moves |
| Exodus.AdjustedMean | pycopancore/model_components/exodus/implementation/social_system.py:116-125 | with `population == len(individuals)` the new mean is `(old mean + target)/2` |
| Exodus.UpdateTiming | pycopancore/model_components/exodus/implementation/social_system.py:127-129 | the next update is one time unit later, hence strictly after t, as the runner's Step assertion demands |
| Exodus.SocialSystem.DoUpdate | pycopancore/model_components/exodus/implementation/social_system.py:131-141 | an inactive system changes nothing; an active municipality adjusts incomes, an active county adjusts farm sizes, and any other value raises |
| Exodus.SocialSystem.CalculateMeanIncomeOrFarmsize | pycopancore/model_components/exodus/implementation/social_system.py:145-155 | for an active county the mean becomes the last direct cell's land area per head; with no cells, or inactive, it is unchanged; with population 0 the division raises |
| Exodus.SocialSystem.CalculateAverageLiquidity | pycopancore/model_components/exodus/implementation/social_system.py:157-166 | when active the average is the total liquidity per head (population 0 raises); when inactive it is 1 |
| Exodus.SocialSystem.CalculateAverageUtility | pycopancore/model_components/exodus/implementation/social_system.py:168-174 | when active the average is the total utility per head (population 0 raises); when inactive nothing is written |
| Exodus.AverageWithin | pycopancore/model_components/exodus/implementation/social_system.py:157-174 | with `population == len(individuals)` an average lies between the smallest and largest individual value |
| Exodus.TotalBounds | pycopancore/model_components/exodus/implementation/social_system.py:160-163 | bounds on each value bound the total by n times the bounds |
| Majority.CountIsMultiplicity | pycopancore/model_components/majority_decision/implementation/society.py:50-53 | an opinion's count is the number of individuals holding it |
| Majority.CountOpinions | pycopancore/model_components/majority_decision/implementation/society.py:50-53 | one count per possible opinion, in order, each the number of individuals holding that opinion |
| Majority.FirstMax | pycopancore/model_components/majority_decision/implementation/society.py:55-56 | the chosen index holds the largest count, and every earlier index has a strictly smaller one |
| Majority.MajorityUnique | pycopancore/model_components/majority_decision/implementation/society.py:50-56 | the first-maximum rule determines the majority opinion uniquely |
| Majority.Society.GetMajorityOpinion | pycopancore/model_components/majority_decision/implementation/society.py:49-56 | with no possible opinions `max` raises and nothing is written; otherwise the opinion becomes a possible opinion with the largest count, the earliest on a tie; only `opinion` is written |

## Left out

Runner:

- Printing and the timing report (`time()`) are output only.
- Unit conversion (`convert_to_standard_units`) happens in the model layer, which is not part of this model.
- Hooks (`Hooks.execute_hooks`, pre, mid and post) run user code at fixed points and are not modelled.
- The ODE solver `scipy.integrate.ode` with `dopri5` is an oracle (`Integrator`).
  - Of its callbacks into `get_rhs_array` only the last is modelled, at the last point it reports (dopri5's last stage evaluation). The earlier calls are taken to be overwritten by it, since it re-sets the ODE targets, re-clears their accumulators and re-applies the Explicit processes. A process method whose effects accumulate from call to call is therefore not captured, and the iteration counter advances once per interval instead of once per call.
  - Solver failures are not modelled.
- `np.random.exponential` is an oracle (`Sampler`) indexed by the number of draws taken; it returns a non-negative delay.
- The evaluation cache of composite targets (`_target_instances = unknown`) is not modelled. Composite targets are resolved afresh on every use.
- Runners.Runner.Run: a `fuel` bound on the number of loop rounds replaces unbounded looping. A run that uses it up ends with `OutOfFuel`.
- Runners.Runner.Integrate: a failure while saving the solver's columns is reported but not characterised at this level; `SaveOdeResult` states it.
- Runners.Runner.RunRound: states nothing about the state after a failure beyond the start of the time axis; the failing call's own contract names the failure.
- Runners.Runner.Run: a `Failed` outcome is not traced to the call that failed. `Discontinuity` states its failure as `DiscontinuityEffect`'s, and `Integrate` reports every failure of `IntervalWorld`; a failure of `Start` is not characterised.
- Runners.Runner.Run: that every series stays as long as the time axis over a whole run is not proved. It does not hold as written: with ODE processes and no Explicit process (lines 473-487), the replay loop does not run, so a target set only by Steps or Events gets no entry for the solver's time points (line 434) while the time axis gains them. `SaveTargetAligned` proves the alignment for each `save_to_traj` call on its own.
- Runners.Runner.RunRound models the corrected advance (see Findings); the time reassigned by the replay loop is not modelled.
- Event types other than "rate" and "time" fail with `UnsupportedEventType` even at firing time. The source cannot reach that point, because initial scheduling already asserts the type.

Exodus:

- Exodus.SocialSystem.CalculateMeanIncomeOrFarmsize: the municipality branch (`base_mean_income * population**scaling_parameter`, real powers) is not modelled. For a truthy `municipality_like` its contract says nothing about the new mean.
- `calc_gross_income_or_farmsize` (lognormal sampling), `liquidity_pdf` (scipy fit) and `calculate_gini` (numpy) are float numerics and library calls, and are not modelled.
- `deactivate` is modelled as clearing `isActive`. The entity lists of the base classes are not part of this model.
- Individuals are values held in the social system's list. Updating an individual's attribute in place is modelled as replacing the list element, because an individual belongs to one social system and the update is not seen through other references.
- The direct cells are passed in as the sequence of their land areas.

Majority:

- The culture's possible opinions are a parameter.
- The individuals are represented only by their opinions.

Everywhere:

- Floats are exact reals, and rounding is not modelled. This covers runner times, the solver's rows, sampled delays and the exodus incomes, farm sizes and averages.

## Findings

| source | as written | input that shows it | evidently intended | confidence | as-written member | corrected member |
|---|---|---|---|---|---|---|
| pycopancore/runners/runner.py:638-640 | a first-seen idle instance's series is `[none_list]`, a list holding one list | a trajectory with two time points and an idle instance never recorded before: the series has length 1, and the assertion on line 640 fails | the series is `none_list` itself, `tlen` padding markers | not executed | TrajectoryRecorder.NewIdleSeriesAsWrittenMisaligned | TrajectoryRecorder.NewIdleSeriesAligned |
| pycopancore/runners/runner.py:598-623 | `idle_instances` is bound only for entity classes and is not reset per target | process targets `[x of entity class 0, y of taxon class 1]`, where class 0 has idle instance 7: y's series gets padded for instance 7; a taxon target listed first raises UnboundLocalError | each target pads the idle instances of its own class, none for a taxon | not executed | TrajectoryRecorder.IdleBindingAsWrittenLeaks | TrajectoryRecorder.SaveTargetPadsOwnClass |
| pycopancore/runners/runner.py:476-497 | `t` moves only at a discontinuity or through the replay loop's reuse of the name `t`, which runs only when Explicit processes exist | a model with no Events or Steps and no Explicit processes, or no ODE processes: `t` stays at `t_0 < t_1` and the loop never ends | with nothing pending, the round ends at `t_1` | not executed | Runners.AdvanceAsWrittenStalls | Runners.Runner.RunRound |
