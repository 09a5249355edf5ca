# OmniTensor: verified models of its scheduling, storage and admission core

OmniTensor is a local service that shares the accelerators of one machine among installed AI workloads. This
project models, in Dafny, the parts of it where state, interleaving or arithmetic make the code hard to trust by
reading, and proves what those parts are for. `dafny verify dfyconfig.toml` checks everything.

How the modules follow the program:

- `Stride`, `StrideSteps`, `StrideRuns`, `StrideDepth`: the weighted queue both schedulers use (`stride.py`), what each
  operation comes to, and what it guarantees over whole runs. Passes are counted in sixtieths, so 1/weight is exact.
- `PluginPool`, `PluginTurns`, `PluginAdmission`, `RunningCounts`: the plugin worker pool (`plugin_admission.py`) as a
  step machine, who is granted a slot and under which policy, and as a class changed in place.
- `LaneScheduler`, `LaneSafety`, `LaneRuns`, `LaneOutcomes`, `LaneServing`, `LaneChanges`, `DeadLanes`, `Lanes`: the
  accelerator scheduler (`scheduler.py`): its steps, what every step keeps, what every reachable state guarantees, which
  outcome a job gets and why, whom a lane serves, how lanes come and go, when one is left without a worker, and the
  in-place tables.
- `Linear`, `GaussJordan`, `Ridge`, `Forecasting`, `SolverRefusal`, `SolverMargin`: ridge least squares
  (`forecasting.py`) over exact reals, when its refusals are right, and how much ridge rules them out.
- `Gguf`, `GgufFormat`: the GGUF header reader (`gguf.py`), and an encoder with its own table of kinds,
  written from the public GGUF file format, to prove it against.
- `ModelStore`, `StoreMeaning`, `ModelTeardown`, `StoreHistory`, `ModelLoss`, `ModelCache`: the runtime-object cache with
  deferred release (`executors/base.py`), what each step comes to, what a job holds, and which objects are lost.
- `AcceleratorReload`: the reload protocol that gates admission (`plugin_lifecycle.py`).
- `Policy`, `PolicyMeaning`, `Commands`, `CommandEffects`, `Control`, `ControlEffects`, `ControlRestart`: the stored
  policy (`state.py`) and what a document means, and the compare-and-swap control service (`control.py`) and what a
  command leaves.
- `Tensors`, `TensorReferences`, `TensorFormat`, `TensorAdmission`: the tensor input path (`tensorref.py`, `dispatch.py`,
  `tensorcontract.py`).
- `Guard`, `GuardAdmission`, `GuardQuota`, `QuotaBound`: the sliding-window quota at the control boundary (`guard.py`),
  exactly whom it admits, and when its table forgets a caller.
- `Prelude`, `Octets`, `Placement`: shared vocabulary, bytes, and lemmas about things that are always in exactly one
  place.

Concurrency is modelled as step machines: a step is the code that runs between two awaits of a coroutine, or under
one lock of a thread, and a run is any sequence of enabled steps. Beside each machine stands a class with the
source's own fields whose methods change them in place and are proved equal to the machine's steps, or, where a
method spans several steps, to a run of it. Lemmas whose names start with Run, Reachable, or that take a list of
events, quantify over all of these runs.

What the proofs turned up about the code:

- Unconditional freedom from starvation is false for the weighted queue: pruning forgets a drained key's pass, so two
  keys that drain and rejoin in turn can overtake a third for ever (`StarvationByRejoining`, reachable by
  `OvertakenIsReachable`). The bound that holds counts joins (`BoundedWaiting`).
- `_gauss_jordan` reports "no unique solution" whenever the rest of a pivot column is below 1e-12 (`Solve` states it as
  an equivalence). For a fit that message is right if and only if the ridge is zero and the training columns and the
  constant are linearly dependent (`RefusalExactly`): with a positive ridge there is always one best fit, so every
  refusal is wrong. Eight rows of one small feature are refused that way (`TinyFeatureRefused`). A ridge in proportion
  to the size and number of the features rules refusals out (`MarginSuffices`); the default ridge does for values up
  to 3800 (`DefaultRidgeSuffices`).
- Sanitising stored policy is a projection exactly when every default weight is in 1..5
  (`SanitizingIsAProjection`); a default outside that range is handed out unclamped the first time.
- A batch of settings is not equivalent to the settings sent singly: it accepts strictly more (`BatchAcceptsMore`).
  They agree exactly when no change is empty, weights are in range and no change names a profile that an earlier
  clearing of choices has made unknown (`BatchExactly`); they always agree on profiles that have a policy or are
  governed (`KnownAnywayAgrees`).
- A lookup of a file that cannot be read drops the cached object of that path without releasing it; the class comment
  speaks only of evicted entries, which are handed to the releaser. `LosesTwo` shows five events that do it, and
  `LostExactly` and `QuietExactly` say which objects are never released.
- An executor call that ends in a cancellation nobody asked for ends the worker task with it. The scheduler goes on
  naming that worker, and its lane serves nobody (`DeadLaneIsReachable`, `DeadExactly`, `StrandedWaits`).
- The quota of the control boundary holds for a record and not for a caller. With no more callers than the table has
  room for it holds for callers too (`FewCallersWithinQuota`); with more, whatever the limits, a caller can be
  admitted once more the quota for each time forgotten (`ForgottenReadmitted`), and never more than that
  (`AdmittedWithinQuota`).
- The contract check cannot measure a bare number or lists without numbers, and what it cannot measure it lets pass: a
  payload of one bare number is admitted, and dispatched, against any declared shape (`BareNumberRuns`). For everything
  else inline the declared shapes are enforced (`InlineAgrees`).
- A plugin reload that returns without a snapshot reopens the admission gate like a successful one
  (`EmptyReturnReopens`).
- The module comments of `scheduler.py` and `stride.py` speak of deficit round robin; the code, followed here, is stride
  scheduling.

## Model

| member | source | states |
|---|---|---|
| `Stride.StrideWeight` | src/omnitensor/stride.py:117-121 | Any weight at all becomes a divisor in 1..5: an integer in range is itself, one above counts as 5 and one below as 1, and so does everything that is no integer (a bool included) |
| `Stride.Increment` | src/omnitensor/stride.py:68 | One serve costs exactly 1/weight, counted in sixtieths, so nothing is rounded |
| `Stride.Next` | src/omnitensor/stride.py:62-67 | The admitted key with the smallest pass is next; there is none exactly when no waiting key is admitted |
| `Stride.Best` | src/omnitensor/stride.py:65-67 | Ties on the smallest pass go to the key that came first |
| `Stride.JoinPass` | src/omnitensor/stride.py:44-49 | The smallest stored pass, zero when nothing is stored; that a newcomer joins there is PushJoins |
| `Stride.PushedKeeps` | src/omnitensor/stride.py:44-49 | A push keeps the three tables on the same distinct keys with no empty queue, and all passes within one unit |
| `Stride.PoppedKeeps` | src/omnitensor/stride.py:71-83 | So does a pop, under any weights and any policy |
| `Stride.DiscardedKeeps` | src/omnitensor/stride.py:85-96 | So does a discard |
| `Stride.ClampedLevels` | src/omnitensor/stride.py:104-114 | Levelling touches held-out keys only: none is lowered, and a raised one lands exactly on the lowest admitted pass |
| `Stride.ChargedAdvances` | src/omnitensor/stride.py:62-69 | Charging the served key moves virtual time forward by at most one unit |
| `Stride.LevelledKeeps` | src/omnitensor/stride.py:57-69 | After a serve and before pruning no key, held out or not, is below the lowest admitted pass |
| `Stride.LevelledSpread` | src/omnitensor/stride.py:57-69 | Charging and levelling keep all passes within one unit of each other |
| `Stride.StrideQueue.Push` | src/omnitensor/stride.py:44-49 | The three tables change in place exactly as the push specifies, whose whole effect is PushJoins |
| `Stride.StrideQueue.Depth` | src/omnitensor/stride.py:51-55 | The loop counts every queued item once |
| `Stride.StrideQueue.ClampHeldOut` | src/omnitensor/stride.py:104-114 | Held-out passes are levelled in place, only under a policy and only when something admitted waits |
| `Stride.StrideQueue.Choose` | src/omnitensor/stride.py:57-69 | Returns the next key with its pass advanced and the held-out keys levelled, or nothing and no change |
| `Stride.StrideQueue.Prune` | src/omnitensor/stride.py:98-102 | A drained key leaves all three tables |
| `Stride.StrideQueue.Pop` | src/omnitensor/stride.py:71-83 | Hands out the front item of the next key and prunes it when drained |
| `Stride.StrideQueue.Discard` | src/omnitensor/stride.py:85-96 | Removes one queued item, the first occurrence, and says whether there was one |
| `StrideSteps.PushJoins` | src/omnitensor/stride.py:44-49 | A push adds the item to the back of its key's list; a key not there before comes last, at a pass that no stored one is below and that is one of them, or zero; no other list or pass changes |
| `StrideSteps.JoinsOnce` | src/omnitensor/stride.py:44-49 | That description leaves one queue only |
| `StrideSteps.PopServes` | src/omnitensor/stride.py:57-83 | A pop serves the front item of the first key in order among the admitted ones with the smallest pass; the key pays 1/weight, other admitted keys keep their passes, held-out ones below the lowest admitted pass rise to it, and a drained key goes; with nobody admitted nothing changes |
| `StrideSteps.ServesOnce` | src/omnitensor/stride.py:57-83 | That description leaves one key, one item and one queue only |
| `StrideSteps.DiscardDrops` | src/omnitensor/stride.py:85-96 | A discard strikes out the first occurrence, a key left with nothing goes, and no pass that stays is moved |
| `Prelude.WithoutFirst` | src/omnitensor/stride.py:85-96 | Striking an item out strikes out its first occurrence |
| `StrideRuns.ReachableSpread` | src/omnitensor/stride.py:44-114 | After any sequence of pushes, pops and discards under changing weights and policies the tables agree and all passes lie within one unit |
| `StrideRuns.ActivePass` | src/omnitensor/stride.py:57-83 | A key that stays pending and admitted moves only when it is served, and then by its own increment |
| `StrideRuns.ShareGap` | src/omnitensor/stride.py:57-83 | The gap between two such keys with fixed steps stays within one step of each, whatever else happens |
| `StrideRuns.ProportionalShare` | src/omnitensor/stride.py:57-83 | Two keys that start level and stay pending and admitted at fixed weights u and v are served S_i and S_j times with -u <= S_i*v - S_j*u <= v |
| `StrideRuns.PopPaysDebt` | src/omnitensor/stride.py:57-83 | Each pop that serves somebody else pays off at least one unit of what the others may still take before this key |
| `StrideRuns.StepDebt` | src/omnitensor/stride.py:44-114 | No operation adds to that debt except a join, by at most six |
| `StrideRuns.BoundedWaiting` | src/omnitensor/stride.py:44-121 | While a key stays pending and admitted, the pops serving others before it are at most 6*(K-1+J), for K keys at the start and J joins, under any weights and any policy on the others |
| `StrideRuns.StepWaiting` | src/omnitensor/stride.py:44-96 | What each operation does to one key's list: added at the back, taken from the front, one struck out, or nothing |
| `StrideRuns.FirstInFirstOut` | src/omnitensor/stride.py:44-96 | Over any run what was queued and pushed is what was served, is left and was discarded, in order, none lost or duplicated |
| `StrideRuns.ExactOrder` | src/omnitensor/stride.py:44-96 | With no discards of a key, its items come out in exactly the order they went in |
| `StrideRuns.OvertakenIsReachable` | src/omnitensor/stride.py:44-49 | A queue in which a waiting key can be overtaken for ever is reached from the empty queue by pushes and pops |
| `StrideRuns.StarvationByRejoining` | src/omnitensor/stride.py:48-102 | From there two one-item keys that drain and rejoin in turn are served any number of times while an admitted key waits: waiting is not bounded without counting joins |
| `StrideDepth.PushDepth` | src/omnitensor/stride.py:44-55 | A push adds one to the depth |
| `StrideDepth.PopDepth` | src/omnitensor/stride.py:51-83 | A pop that serves takes one from the depth |
| `StrideDepth.PopEffect` | src/omnitensor/stride.py:71-83 | A pop takes the front of one key's list and leaves every other list alone |
| `StrideDepth.DiscardEffect` | src/omnitensor/stride.py:85-96 | A discard strikes one item from one key's list and leaves every other list alone |
| `PluginPool.Width` | src/omnitensor/plugin_admission.py:173-186 | The width is the configured one, or one under a saturated host; never zero, and a failed probe does not narrow it |
| `PluginPool.TurnSound` | src/omnitensor/plugin_admission.py:188-199 | One turn of the pump keeps counts, queue and bound, whether it grants a slot or passes a cancelled waiter over |
| `PluginPool.PumpSound` | src/omnitensor/plugin_admission.py:188-199 | A whole pump keeps them, and ends with the width it last read used up or no admitted waiter left under the policy it read |
| `PluginPool.EnqueuedSound` | src/omnitensor/plugin_admission.py:151-160 | A job joining the queue keeps them |
| `PluginPool.CancellingSound` | src/omnitensor/plugin_admission.py:143-149 | A cancellation before or after the grant keeps them: no slot is freed by it |
| `PluginPool.StartedSound` | src/omnitensor/plugin_admission.py:119-130 | A granted job that resumes keeps its slot, counted once |
| `PluginPool.LeftSound` | src/omnitensor/plugin_admission.py:119-130 | A job that ends, or was cancelled after its grant, gives back exactly the slot it holds |
| `PluginPool.WithdrawnSound` | src/omnitensor/plugin_admission.py:143-149 | A job cancelled while it waited leaves the queue and gives back nothing |
| `PluginPool.StepSettles` | src/omnitensor/plugin_admission.py:119-199 | An event that pumps ends with the width it last read used up, or no live waiter admitted by the policy it read |
| `PluginPool.SlotSafety` | src/omnitensor/plugin_admission.py:119-199 | In every interleaving of arrivals, cancellations, resumptions, endings and kicks, each profile's count is its number of jobs holding a slot, and the total stays within the limit |
| `PluginPool.IdlePoolIsEmpty` | src/omnitensor/plugin_admission.py:119-199 | Once every job is over no slot is still counted and nothing is queued: none leaked, none freed twice |
| `PluginTurns.PumpTurns` | src/omnitensor/plugin_admission.py:188-199 | A pump is a chain of turns while there is room at that turn's reading, until there is none or nobody admitted waits: each turn takes the front waiter of the admitted profile with the smallest pass, which moves by 1/weight of the weight read, and gives it a slot unless it was cancelled |
| `PluginTurns.StepIsTurns` | src/omnitensor/plugin_admission.py:119-199 | Every event is its own change and then, where it pumps, such turns under the policy, weights and readings of that event |
| `PluginTurns.StepGrants` | src/omnitensor/plugin_admission.py:188-199 | A job whose waiter goes from pending to granted in an event has a profile admitted by that event's policy |
| `PluginTurns.HeldOutStays` | src/omnitensor/plugin_admission.py:119-199 | A profile the event's policy holds out keeps its waiters, but for the one that joins or the cancelled one that leaves in that event |
| `PluginTurns.SlotNeedsAdmission` | src/omnitensor/plugin_admission.py:119-199 | Over every run, a job newly given a slot in it got it with an event in the run whose policy, as read then, admits its profile |
| `PluginTurns.CancelledNeverStarts` | src/omnitensor/plugin_admission.py:119-149 | Over every run, a job cancelled while it waited never starts |
| `PluginAdmission.Create` | src/omnitensor/plugin_admission.py:56-86 | A pool is built exactly when both sizes are within their bounds |
| `PluginAdmission.PluginAdmissionQueue.Running` | src/omnitensor/plugin_admission.py:94-95 | The loop sums the running table |
| `PluginAdmission.PluginAdmissionQueue.Pump` | src/omnitensor/plugin_admission.py:188-199 | The while-loop changes queue, table and waiters exactly as the recursive pump, whose turns are PumpTurns |
| `PluginAdmission.PluginAdmissionQueue.Acquire` | src/omnitensor/plugin_admission.py:132-160 | An arrival is refused exactly when the queue is full, and otherwise queued and pumped as one step |
| `PluginAdmission.PluginAdmissionQueue.CancelJob` | src/omnitensor/plugin_admission.py:143-149 | A cancellation is one step of the machine |
| `PluginAdmission.PluginAdmissionQueue.ResumeJob` | src/omnitensor/plugin_admission.py:119-149 | So is the job running on from its await: withdrawn, giving its slot back, or started |
| `PluginAdmission.PluginAdmissionQueue.FinishJob` | src/omnitensor/plugin_admission.py:119-130 | So is the end of its work |
| `PluginAdmission.PluginAdmissionQueue.Release` | src/omnitensor/plugin_admission.py:165-171 | One slot of the profile goes, a count that reaches zero leaves the table, and the pump runs |
| `PluginAdmission.PluginAdmissionQueue.Kick` | src/omnitensor/plugin_admission.py:110-117 | A kick is one pump |
| `PluginAdmission.PluginAdmissionQueue.HasRoom` | src/omnitensor/plugin_admission.py:97-99 | Room is exactly a queue below its bound |
| `GaussJordan.SwapKeeps` | src/omnitensor/forecasting.py:195 | Swapping two rows keeps the set of solutions |
| `GaussJordan.ClearKeeps` | src/omnitensor/forecasting.py:196-206 | Dividing the pivot row and clearing its column out of every other row keeps the set of solutions, on a system of any size |
| `GaussJordan.ReachKeeps` | src/omnitensor/forecasting.py:186-206 | However far the run over the columns gets, the columns done are unit columns and the solutions are those of the given system |
| `GaussJordan.Pivot` | src/omnitensor/forecasting.py:187 | The chosen row has the largest entry of the column at or below it, the first such row |
| `GaussJordan.ReduceColumn` | src/omnitensor/forecasting.py:196-206 | In place, the next column becomes a unit column, the earlier ones stay so, and the solutions are the same |
| `GaussJordan.AdvanceColumn` | src/omnitensor/forecasting.py:187-206 | One turn of the loop stops exactly when every remaining entry of the column is below 1e-12, and otherwise swaps, divides and clears |
| `GaussJordan.Eliminated` | src/omnitensor/forecasting.py:186-206 | The loop over all columns is the specified run, or stops at a column that run finds negligible |
| `GaussJordan.UnitSystem` | src/omnitensor/forecasting.py:207 | Once all columns are unit columns the last column is the one and only solution |
| `GaussJordan.Solve` | src/omnitensor/forecasting.py:183-207 | It refuses exactly when its own run comes to a column whose remaining entries are all below 1e-12; otherwise what it returns solves the given square system of any size and is its only solution |
| `SolverRefusal.RefusalIsRight` | src/omnitensor/forecasting.py:188-194 | Where the column the run stops at is exactly zero from there on, the given system has no unique solution, as the message says |
| `SolverRefusal.AcceptedIsUnique` | src/omnitensor/forecasting.py:183-207 | A system that is not refused has exactly one solution |
| `SolverRefusal.UniqueExactly` | src/omnitensor/forecasting.py:183-207 | A square system has exactly one solution if and only if its matrix sends only zero to zero, proved by exact elimination |
| `SolverRefusal.NormalKernel` | src/omnitensor/forecasting.py:151-180 | The normal matrix sends only zero to zero if and only if the ridge is positive or the columns of the rows and the constant column are linearly independent |
| `SolverRefusal.UniqueFitExactly` | src/omnitensor/forecasting.py:146-180 | There is exactly one best fit if and only if the ridge is positive or the training columns and the constant are linearly independent |
| `SolverRefusal.RefusalExactly` | src/omnitensor/forecasting.py:146-194 | A refused fit really has no unique solution if and only if the ridge is zero and the training columns and the constant are dependent, and a fit with none is always refused; so every refusal with a positive ridge is wrong |
| `SolverRefusal.TinyFeatureRefused` | src/omnitensor/forecasting.py:40-194 | Wrong refusals happen: eight rows of one feature that is 0 and e by turns are admissible and have a unique fit for every ridge, and are refused exactly when e*e + ridge < 1e-12 |
| `SolverMargin.ReachTracks` | src/omnitensor/forecasting.py:186-206 | Whatever vector the rows already done vanish on, each given row shows nothing of it or just what some remaining row shows |
| `SolverMargin.StuckIsNearlyBlind` | src/omnitensor/forecasting.py:186-194 | Where the run stops, some vector with a unit step in that column is sent by the given matrix to entries all below 1e-12 |
| `SolverMargin.ImageDot` | src/omnitensor/forecasting.py:151-178 | The normal matrix as a quadratic form is the squared predictions plus the ridge times the squared weights |
| `SolverMargin.MarginSuffices` | src/omnitensor/forecasting.py:146-194 | No fit of w features whose values are at most M in magnitude is refused when the ridge exceeds 1e-12*(1e-12 + (1+M)*(1+w)/2), for any rows and targets, dependent features included |
| `SolverMargin.DefaultRidgeSuffices` | src/omnitensor/forecasting.py:35-136 | With the default ridge no admissible arguments with values up to 3800 in magnitude are ever refused |
| `Forecasting.AccumulateRow` | src/omnitensor/forecasting.py:157-171 | One row adds its products to the upper triangle and the right side, zero entries skipped without changing the sums |
| `Forecasting.AccumulateRows` | src/omnitensor/forecasting.py:157-171 | All rows together give the upper triangle of X'X and the whole of X'y |
| `Forecasting.Mirror` | src/omnitensor/forecasting.py:172-174 | The lower half becomes the mirror of the upper |
| `Forecasting.AddRidge` | src/omnitensor/forecasting.py:175-178 | The penalty goes on every diagonal entry but the intercept's |
| `Forecasting.NormalEquations` | src/omnitensor/forecasting.py:151-178 | The accumulated, mirrored and penalised sums are the normal equations |
| `Ridge.ObjectiveExpands` | src/omnitensor/forecasting.py:146-180 | Moving from one fit to another changes the objective by a term linear in the pull plus a square |
| `Ridge.BalancedMinimises` | src/omnitensor/forecasting.py:146-180 | A fit on which nothing pulls is no worse than any other, for ridge >= 0 |
| `Ridge.NormalSystem` | src/omnitensor/forecasting.py:151-180 | Solving the normal equations is being balanced |
| `Ridge.SoleSolutionMinimises` | src/omnitensor/forecasting.py:146-180 | The only solution of the normal equations is the only minimiser of squared residuals plus ridge times squared weights, the intercept unpenalised, over all real weights and intercepts |
| `Forecasting.SolveRidge` | src/omnitensor/forecasting.py:146-180 | It refuses exactly when the run on the penalised normal equations comes to a negligible column; otherwise, for ridge >= 0, the pair returned is the unique minimiser |
| `Forecasting.Split` | src/omnitensor/forecasting.py:65-68 | The split is the whole part of the count times one less the holdout, but at least 1, and leaves at least one row on each side |
| `Forecasting.Score` | src/omnitensor/forecasting.py:210-228 | Mean absolute error of the fit, beside that of repeating the last value, over exactly the rows given |
| `Forecasting.FitForecaster` | src/omnitensor/forecasting.py:40-136 | The first failing shape or bound is reported; admissible arguments are refused as degenerate exactly when the run on the earlier rows comes to a negligible column, and otherwise give the unique minimiser over those rows, scored on the later rows it never saw |
| `Forecasting.ShapeExactly` | src/omnitensor/forecasting.py:107-136 | Which of the shape rules is broken first, and that none is exactly for matching, wide enough and long enough data |
| `Forecasting.Baselines` | src/omnitensor/forecasting.py:210-228 | The baseline guess for a row is the latest value of its first feature |
| `Forecasting.ErrorsAddUp` | src/omnitensor/forecasting.py:210-228 | The errors are the sum of one magnitude for each guess |
| `Gguf.ArrayAt` | src/omnitensor/gguf.py:211-231 | An array that is read advances the cursor, at least past its own kind and count, and never past the buffer: a hostile 64-bit count ends |
| `Gguf.ElementsAt` | src/omnitensor/gguf.py:211-231 | Reading gives exactly the declared number of items within the buffer |
| `Gguf.SkipAt` | src/omnitensor/gguf.py:186-198 | Skipping never passes the end of the buffer |
| `Gguf.LastEntryWins` | src/omnitensor/gguf.py:155-158 | The entries are read in order, each where the one before it ends, and a later value replaces an earlier one under the same key |
| `Gguf.SkipAgrees` | src/omnitensor/gguf.py:186-231 | If reading every element of an array succeeds and ends at b, the fast skip from the same place succeeds and ends at b |
| `Gguf.Reader.Take` | src/omnitensor/gguf.py:170-175 | The cursor moves by the bytes taken, or the read is refused and the cursor stays within what was given |
| `Gguf.Reader.String` | src/omnitensor/gguf.py:180-184 | A length-prefixed string within its limit |
| `Gguf.Reader.Skip` | src/omnitensor/gguf.py:186-198 | The looping, mutually recursive skip moves the cursor as specified, or refuses as specified |
| `Gguf.Reader.Array` | src/omnitensor/gguf.py:211-231 | Short arrays are read, long ones skipped and reported by kind and count |
| `Gguf.Reader.Value` | src/omnitensor/gguf.py:200-209 | One typed value read from the cursor |
| `Gguf.Parse` | src/omnitensor/gguf.py:143-158 | The header parser returns the specified dictionary, or refuses exactly when the specification does; the specification is proved against the format by RoundTrip, FaultyRefused and FrameRefused |
| `GgufFormat.ReadArray` | src/omnitensor/gguf.py:186-231 | An array written by the format reads back as its items, or as kind and count when longer than 65,536, at any nesting depth; the writer has its own table of kinds |
| `GgufFormat.RoundTrip` | src/omnitensor/gguf.py:143-158 | For every metadata list within the limits, parsing its encoding followed by any bytes gives the same dictionary, the last duplicate winning, and ends where the encoding ends; kind numbers, widths, signs, magic and limits are the format's own literals |
| `GgufFormat.KindsAgree` | src/omnitensor/gguf.py:38-57 | The reader's table of kinds has the thirteen kinds of the format, each under its number, with its width and signedness |
| `GgufFormat.FaultyRefused` | src/omnitensor/gguf.py:177-231 | After any good entries a key over 1024 bytes, a string over 64 KiB or a kind the format does not have is refused for what it is |
| `GgufFormat.FrameRefused` | src/omnitensor/gguf.py:143-154 | Another magic, a version that is neither 2 nor 3 and more than 4096 entries are each refused for what they are |
| `GgufFormat.ParseExtends` | src/omnitensor/gguf.py:143-231 | A header that parses gives the same answer however the file goes on |
| `GgufFormat.PrefixRefused` | src/omnitensor/gguf.py:143-231 | Every strict prefix of a metadata encoding is refused |
| `GgufFormat.FileReadable` | src/omnitensor/gguf.py:136-140 | A well-formed file is read exactly when its metadata ends within the first 48 MiB |
| `ModelStore.TouchedOk` | src/omnitensor/executors/base.py:171-173 | A hit makes an entry the most recently used and keeps what is cached |
| `ModelStore.WithoutPathOk` | src/omnitensor/executors/base.py:175-180 | Popping a path drops its object and nothing else |
| `ModelStore.KeptOk` | src/omnitensor/executors/base.py:181-188 | Storing a new object keeps the bound and distinct paths, never displaces what was just stored, and splits everything held into kept and displaced |
| `StoreMeaning.HitExactly` | src/omnitensor/executors/base.py:165-174 | A lookup hits exactly when an object is stored under the path for the file's present revision, so a changed file is built anew |
| `StoreMeaning.HandsOutExactly` | src/omnitensor/executors/base.py:162-189 | The object handed out is that one, or else what the build made |
| `StoreMeaning.CacheExactly` | src/omnitensor/executors/base.py:162-189 | A call leaves what it hands out as the most recently used, the others in their order, and of too many the newest; a failed build leaves everything, an unreadable file only loses its own path |
| `StoreMeaning.GivesUpExactly` | src/omnitensor/executors/base.py:175-189 | Given up are the object stored under the path, then the least recently used over the bound, in that order |
| `ModelTeardown.StepSound` | src/omnitensor/executors/base.py:162-198 | Every step of every thread keeps each object in exactly one place and every held object out of teardown |
| `ModelTeardown.NeverUnderAJob` | src/omnitensor/executors/base.py:267-303 | In all interleavings no object a job obtained while running is released, being torn down or queued for release before it leaves; none is released twice; nothing is parked with no job in flight |
| `StoreHistory.StepDoes` | src/omnitensor/executors/base.py:162-303 | What each step of each thread does to the cache, its lock, the count, the parked, the taken out and the released, told without the functions that do it |
| `StoreHistory.HoldsExactly` | src/omnitensor/executors/base.py:162-189 | Over every run, a job holds exactly what the events since it came in handed it: a fresh cached object, or what was built for it |
| `StoreHistory.HandedIsSafe` | src/omnitensor/executors/base.py:267-303 | So, told by events: what a job was handed inside running() is neither released nor torn down nor taken out for release until that job leaves |
| `ModelTeardown.LookupNeverReleased` | src/omnitensor/executors/base.py:162-189 | A hit never hands out an object that is released, parked or waiting to be released |
| `ModelTeardown.QuietReleased` | src/omnitensor/executors/base.py:162-198 | Closed and idle, every object ever built has been released unless an unreadable file dropped it or kept it out of the cache; with no such lookup, all of them |
| `ModelTeardown.DroppedForGood` | src/omnitensor/executors/base.py:175-180 | What was dropped for an unreadable file, or never cached because of one, is never released, whatever follows |
| `ModelLoss.LostExactly` | src/omnitensor/executors/base.py:162-198 | Over all runs: an object is dropped unreleased if and only if it was cached under a path when an unreadable lookup of it came whose build was then finished, and never cached if and only if such a build made it |
| `ModelLoss.QuietExactly` | src/omnitensor/executors/base.py:162-205 | Closed and idle, an object ever built has been released if and only if no unreadable lookup dropped it and none made it |
| `ModelLoss.LosesTwo` | src/omnitensor/executors/base.py:162-180 | Five events from the start, a file cached and then unreadable, leave the store quiet with two objects that no continuation ever releases |
| `ModelCache.RuntimeStore.GetOrBuild` | src/omnitensor/executors/base.py:162-189 | The in-place lookup, build and eviction loop leave exactly the specified entries and give up exactly the displaced objects, in order |
| `ModelCache.RuntimeStore.Clear` | src/omnitensor/executors/base.py:190-194 | Every cached object is given up and the cache is empty |
| `ModelCache.RuntimeStore.Releasing` | src/omnitensor/executors/base.py:298-303 | Parked while any job is in flight, released at once otherwise |
| `ModelCache.RuntimeStore.Leave` | src/omnitensor/executors/base.py:278-291 | The last job out releases everything parked; any other leaves it parked |
| `ModelCache.GetOrBuildIsARun` | src/omnitensor/executors/base.py:162-198 | The method with nobody interleaving is a run of the machine, so the guarantees over interleavings cover it |
| `ModelCache.ClearIsARun` | src/omnitensor/executors/base.py:190-198 | So is closing |
| `ModelCache.LeaveIsARun` | src/omnitensor/executors/base.py:278-291 | So is a job leaving |
| `AcceleratorReload.RefusedUntilReloaded` | src/omnitensor/plugin_lifecycle.py:81-136 | From a reload request for a profile until a reload that began after it has returned, admission refuses the profile, over every interleaving of requests, attempts, failures, sleeps and announcements |
| `AcceleratorReload.OwedUntilReloaded` | src/omnitensor/plugin_lifecycle.py:81-136 | The invariant behind it, tied to the event history alone |
| `AcceleratorReload.OnlyAskedRefused` | src/omnitensor/plugin_lifecycle.py:81-136 | No profile is refused here that nobody asked to reload |
| `AcceleratorReload.WorkBounded` | src/omnitensor/plugin_lifecycle.py:103-136 | The task's whole life is at most 3*retries+3 events per request, and with no task and no request outstanding nothing stays pending |
| `AcceleratorReload.SuccessReopens` | src/omnitensor/plugin_lifecycle.py:103-117 | A success nobody interrupted opens the gate for all it took and leaves only the other unavailable profiles refused |
| `AcceleratorReload.EmptyReturnReopens` | src/omnitensor/plugin_lifecycle.py:103-117 | A reload that returns no snapshot, nobody asking meanwhile, also opens the gate for everything but what was unavailable before |
| `AcceleratorReload.RequestAdds` | src/omnitensor/plugin_lifecycle.py:81-101 | A request adds to what is pending, is remembered, and starts a task where there is none and a loop to run it |
| `AcceleratorReload.LoopTurns` | src/omnitensor/plugin_lifecycle.py:103-117 | If anybody asked, the loop makes a first attempt at all that is pending; else the gate is cleared and the task ends |
| `AcceleratorReload.SuccessFrees` | src/omnitensor/plugin_lifecycle.py:103-113 | A reload that brings a snapshot frees what it took, and nothing else |
| `AcceleratorReload.FailureRetries` | src/omnitensor/plugin_lifecycle.py:119-136 | A failed attempt is followed by another while fewer than the retries were made, its profiles still taken and nothing published; the last one publishes them as unavailable |
| `AcceleratorReload.PluginLifecycle.ScheduleReload` | src/omnitensor/plugin_lifecycle.py:81-101 | A request marks the profiles pending at once; without an event loop it leaves no task |
| `AcceleratorReload.PluginLifecycle.TopOfLoop` | src/omnitensor/plugin_lifecycle.py:103-117 | The while-loop either snapshots everything pending for a new attempt or clears the gate and ends |
| `AcceleratorReload.PluginLifecycle.ReloadReturned` | src/omnitensor/plugin_lifecycle.py:103-117 | A returned reload frees what it took when it brought a snapshot |
| `AcceleratorReload.PluginLifecycle.ReloadRaised` | src/omnitensor/plugin_lifecycle.py:119-136 | A failure sleeps while attempts are left, and otherwise publishes what it took as unavailable |
| `LaneRuns.JobsConserved` | src/omnitensor/scheduler.py:190-390 | Every accepted job with an unresolved future is in exactly one lane, once, under one key, or in exactly one worker's hands, across swaps, degradation and cancellation |
| `LaneRuns.RunningIsHeld` | src/omnitensor/scheduler.py:352-390 | The running table counts exactly the jobs in workers' hands and holds no zeros |
| `LaneRuns.StopResolvesAll` | src/omnitensor/scheduler.py:217-242 | When stop finishes every future ever handed out is resolved and nothing is counted as running |
| `LaneRuns.OutcomesStick` | src/omnitensor/scheduler.py:237-385 | A future once resolved is never resolved again |
| `LaneOutcomes.OutcomeExactly` | src/omnitensor/scheduler.py:190-390 | Over every run, a job is delivered if and only if the call of the worker holding it returned while its future was open; failed if and only if then the call raised, or the job was queued on a lane that was failed; cancelled if and only if then its worker or call was cancelled, its caller gave it up, its backend was removed or shutdown finished while it was queued |
| `LaneOutcomes.StepSettles` | src/omnitensor/scheduler.py:352-390 | One step resolves an open future as delivered, failed or cancelled exactly as its event says, and otherwise leaves it open |
| `LaneServing.LooksAndTakes` | src/omnitensor/scheduler.py:311-327 | A worker that looks for work takes the lane's next job under the policy and weights it found, or parks because nobody waiting is admitted; other lanes are not touched |
| `LaneServing.ExecutesAdmitted` | src/omnitensor/scheduler.py:311-354 | A worker newly in a call got there by taking its lane's next job, and the policy it found admits the job's profile |
| `LaneServing.ResumeRests` | src/omnitensor/scheduler.py:311-342 | A worker that was cancelled, or whose call was, is done; one that goes on without looking for work is done when the scheduler stopped, and otherwise waits for its lane, now empty, to be woken |
| `LaneServing.SubmitJoins` | src/omnitensor/scheduler.py:244-263 | An accepted job joins its profile's list in its backend's lane, as a push does, and the lane is woken |
| `LaneServing.DegradedExactly` | src/omnitensor/scheduler.py:329-374 | A backend is degraded after a step exactly if the step failed its lane, or it was and neither returned a result, was removed, nor the scheduler finished |
| `LaneChanges.StartHires` | src/omnitensor/scheduler.py:182-188 | Starting gives every executor a worker at the top of its loop, and moves nothing else |
| `LaneChanges.KickWakes` | src/omnitensor/scheduler.py:305-309 | A kick wakes every lane and does nothing else |
| `LaneChanges.StopTells` | src/omnitensor/scheduler.py:217-225 | Stopping wakes every lane and cancels every worker on a lane or retired; no future is resolved yet |
| `LaneChanges.UpdateSwaps` | src/omnitensor/scheduler.py:190-215 | A swap leaves kept lanes as they were, new ones empty and removed ones gone |
| `LaneChanges.UpdateRetires` | src/omnitensor/scheduler.py:196-208 | Workers of removed backends, and no others, are cancelled; they and the retired ones not done are kept to be waited for |
| `LaneChanges.UpdateHires` | src/omnitensor/scheduler.py:209-215 | New lanes get a worker at once while the scheduler runs, and none before it starts or after it stops; other entries of the worker table stay |
| `LaneRuns.NeverStuck` | src/omnitensor/scheduler.py:311-353 | A worker that goes on always finds its executor and its lane; a live scheduler names a worker for every lane it has |
| `DeadLanes.DeadExactly` | src/omnitensor/scheduler.py:311-385 | In a scheduler not stopped the worker a lane names is done, and so the lane dead, if and only if one of its calls ended interrupted though nobody had cancelled the worker |
| `DeadLanes.DeadLaneIsReachable` | src/omnitensor/scheduler.py:311-385 | Five events lead from the start to a dead lane with a job queued on it |
| `DeadLanes.StrandedWaits` | src/omnitensor/scheduler.py:237-385 | A job queued on a dead lane stays queued and its future unresolved, whatever happens, until the scheduler stops, the backend is removed or the caller gives the job up |
| `LaneRuns.NoLostWakeUp` | src/omnitensor/scheduler.py:244-327 | A parked worker nobody woke has nothing to serve under the policy it last read |
| `LaneSafety.StepKept` | src/omnitensor/scheduler.py:182-390 | Every step of every task keeps the invariant behind these |
| `LaneSafety.DispatchedKeeps` | src/omnitensor/scheduler.py:311-354 | Taking the next job moves it from its lane to the worker and counts it |
| `LaneSafety.EndedKeeps` | src/omnitensor/scheduler.py:352-390 | The end of a call resolves the future, gives the count back and leaves nothing held |
| `LaneSafety.DegradedKeeps` | src/omnitensor/scheduler.py:329-342 | Failing a lane empties its three tables and resolves what was in it |
| `LaneSafety.IdleKeeps` | src/omnitensor/scheduler.py:314-319 | Clearing a wake-up takes it from nobody else |
| `LaneSafety.UpdateKeeps` | src/omnitensor/scheduler.py:190-215 | Swapping executors keeps it: removed lanes are emptied and their workers retired, new lanes are staffed |
| `LaneSafety.FinishedResolves` | src/omnitensor/scheduler.py:217-242 | Once the joined tasks are done, cancelling what is queued leaves no future unresolved |
| `LaneSafety.SoleWorker` | src/omnitensor/scheduler.py:187-215 | A lane has at most one worker going that is not cancelled |
| `Lanes.Scheduling.Submit` | src/omnitensor/scheduler.py:244-263 | A submission is refused exactly when stopped, for an unknown backend or at the bound, changing nothing; otherwise it is queued and the lane woken |
| `Lanes.Scheduling.ResolveLane` | src/omnitensor/scheduler.py:237-242 | Every future queued in the lane is resolved, those already done left alone |
| `Lanes.Scheduling.Degrade` | src/omnitensor/scheduler.py:329-342 | The loops over the lane come to the specified degradation |
| `Lanes.Scheduling.EndCall` | src/omnitensor/scheduler.py:352-390 | The branches and the finally of one executor call come to the specified end, whose outcomes are StepSettles |
| `Lanes.Scheduling.JobFinished` | src/omnitensor/scheduler.py:387-390 | One held job less, a zero count removed |
| `Lanes.Scheduling.TopOfLoop` | src/omnitensor/scheduler.py:311-327 | The worker's loop to its next await: done, parked, or one job dispatched |
| `Lanes.Scheduling.UpdateExecutors` | src/omnitensor/scheduler.py:190-215 | The in-place swap, one removed backend at a time, comes to the specified update |
| `Lanes.OneMoreGone` | src/omnitensor/scheduler.py:200-208 | Retiring one backend after others is retiring them together |
| `Policy.FirstAreLeast` | src/omnitensor/state.py:168-172 | When choices are cut to 128, nothing left out comes before anything kept |
| `Policy.RestartExact` | src/omnitensor/state.py:129-187 | Loading what was saved gives the same state exactly for the states whose ids, weights, choices and revision a load accepts |
| `Policy.SanitizingIsAProjection` | src/omnitensor/state.py:129-187 | Load, save and load again gives the first load for every JSON document exactly when every default weight is in 1..5 |
| `Policy.BadDefaultShows` | src/omnitensor/state.py:144-149 | With a default weight out of range the empty document already shows it |
| `Policy.ClampWeight` | src/omnitensor/state.py:35-38 | A stored integer becomes the weight in 1..5 nearest to it; anything that is no integer, a bool included, falls back |
| `Policy.SanitizedRevision` | src/omnitensor/state.py:41-45 | A stored non-negative integer is kept, and anything else becomes zero |
| `PolicyMeaning.LoadedExactly` | src/omnitensor/state.py:98-174 | What any document loads as, in its own words: paused only by a true; every default and every well-formed stored profile, with what its entry says; the first 128 well-formed choices in order; a non-negative revision or zero |
| `PolicyMeaning.IdentifiersAgree` | src/omnitensor/state.py:28-33 | The three identifier patterns, character by character |
| `Policy.PolicyStore.Load` | src/omnitensor/state.py:129-174 | The loops over defaults, stored profiles and choices come to the specified state |
| `Policy.PolicyStore.AdoptStored` | src/omnitensor/state.py:98-119 | Well-formed stored profiles without a default are kept beside the defaults, and no others |
| `Policy.PolicyStore.Save` | src/omnitensor/state.py:176-187 | Either the whole document is replaced or nothing is; a saved storable state loads back unchanged |
| `Commands.BatchExactly` | src/omnitensor/control.py:359-424 | For any state, changes and world: the settings are accepted one by one and no change is empty if and only if the batch is accepted, its weights are in range and no change names a profile an earlier clearing made unknown; the results are then the same |
| `Commands.KnownAnywayAgrees` | src/omnitensor/control.py:359-424 | Where every profile named has a policy or is governed, every change sets something and weights are in range, the batch is accepted exactly when its settings are, with one result |
| `Commands.EmptyChangeRefused` | src/omnitensor/control.py:359-416 | A change that sets nothing makes the batch refused, by name when the profile is known, and is no command at all one by one |
| `Commands.BatchRefinesSingles` | src/omnitensor/control.py:359-416 | If every change of a batch sets something and every setting would be accepted as its own command in order, the batch is accepted with the same profiles and choices |
| `Commands.BatchAcceptsMore` | src/omnitensor/control.py:359-424 | Not the other way: a batch that clears the choice a profile is known by and then chooses its model is accepted, the two commands are not |
| `Commands.ChangeIsItsSettings` | src/omnitensor/control.py:381-416 | One change passes the check and does what its settings do one by one |
| `Commands.BatchError` | src/omnitensor/control.py:359-379 | The check passes exactly when it passes for every change, before any is made |
| `CommandEffects.SettingExactly` | src/omnitensor/control.py:321-357 | A setting is accepted exactly when it breaks no rule, and refused for the first it breaks; accepted, it leaves the policy it names, the paused flag included, and nothing else changed |
| `CommandEffects.SettingOnce` | src/omnitensor/control.py:321-357 | The policy so described is the only one |
| `CommandEffects.BatchDoes` | src/omnitensor/control.py:359-416 | A batch is accepted when no change breaks a rule against the policy it found and, made one after the other, none meets an obstacle; it is refused for the first rule broken, or the obstacle met |
| `Control.PersistedBeforeVisible` | src/omnitensor/control.py:234-282 | What is published changes only to the next revision, and only to what is already on disk |
| `Control.RejectedChangesNothing` | src/omnitensor/control.py:234-282 | A command answered with a rejection leaves policy, file and settings exactly as they were when it took the lock |
| `Control.AppliedOncePerRevision` | src/omnitensor/control.py:195-282 | Of two acknowledgements saying applied for one expected revision, the first is a configuration command whose policy save failed |
| `Control.StepPublishes` | src/omnitensor/control.py:132-282 | Each step publishes nothing or the next revision |
| `Control.CommandIsARun` | src/omnitensor/control.py:195-282 | A command nobody interrupts is a run of the machine to exactly its decision, with one acknowledgement |
| `ControlEffects.TakeExactly` | src/omnitensor/control.py:234-257 | A command that takes the lock is refused for the rule it breaks, or holds the lock with what it asks for at the next revision |
| `ControlEffects.FailureAnswers` | src/omnitensor/control.py:259-300 | A failed save gives the lock up with nothing changed, and the command is told so, unless its configuration is stored already |
| `ControlEffects.PublishedIsAsked` | src/omnitensor/control.py:195-282 | Over every interleaving, whatever is published is what the command or adoption holding the lock asked for, made of the policy published when it took the lock, one revision on, and a command is acknowledged as applied |
| `Control.ControlService.Apply` | src/omnitensor/control.py:234-282 | The whole command under the lock comes to the specified decision; a rejection changes nothing; applied without a save is a configuration |
| `Control.ControlService.Commit` | src/omnitensor/control.py:259-282 | Persisted, then published, or neither |
| `Control.ControlService.AdoptProfiles` | src/omnitensor/control.py:132-183 | Profiles without a policy get the default at the next revision, other policies, choices and the paused flag are untouched, and nothing changes when the save fails |
| `ControlRestart.RestartPreservesPolicy` | src/omnitensor/control.py:132-477 | Over every run of well-formed commands and adoptions, failures and restarts included, a load gives back exactly what was saved, and neither choice map passes 128 |
| `ControlRestart.ChosenStorable` | src/omnitensor/control.py:443-477 | Setting or clearing a choice keeps the map within its bound |
| `Tensors.ReshapeInverts` | src/omnitensor/tensorref.py:326-332 | Reshaping gives a tensor of exactly the declared shape whose elements in row-major order are the flat list |
| `Tensors.ReshapeFlat` | src/omnitensor/tensorref.py:326-332 | Flattening and reshaping are inverse on tensors of the declared shape |
| `Tensors.JudgeAccepts` | src/omnitensor/dispatch.py:459-482 | The recursive validator accepts exactly the rectangular tensors of finite numbers within the budget, and spends one per number |
| `Tensors.NestedRectangular` | src/omnitensor/dispatch.py:474-482 | Comparing shapes read off first elements, level by level, is full rectangularity |
| `Tensors.MeasuresAccepted` | src/omnitensor/tensorcontract.py:150-171 | An accepted tensor is measured by its true shape, and not at all when it is a bare number or holds no number |
| `Tensors.ValidateInputTensor` | src/omnitensor/dispatch.py:440-476 | The recursion over the shared budget gives the specified verdict, the first fault met |
| `Tensors.ElementBudget.Spend` | src/omnitensor/dispatch.py:563-571 | Spending lowers what is left and says whether it went below zero |
| `TensorReferences.ParseShape` | src/omnitensor/tensorref.py:160-174 | A shape is accepted exactly when its rank is 1..6 and every dimension an integer in 1..65536 |
| `TensorReferences.ScanChunk` | src/omnitensor/tensorref.py:219-226 | One chunk: whole elements checked, the partial one carried over |
| `TensorReferences.ReadReference` | src/omnitensor/tensorref.py:199-228 | The chunked scan accepts exactly the files within the limit whose whole elements are finite, however the file is cut, and hashes and retains all of it |
| `TensorReferences.ScanAgrees` | src/omnitensor/tensorref.py:231-237 | The scan of the bytes and the validator's look at the decoded numbers agree |
| `TensorReferences.VerifyReference` | src/omnitensor/tensorref.py:177-196 | Admission's check without keeping a byte accepts exactly what the load accepts |
| `TensorReferences.LoadReferencedTensor` | src/omnitensor/tensorref.py:240-260 | The load gives the tensor of the declared shape with the file's numbers in row-major order |
| `TensorFormat.NumbersRead` | src/omnitensor/tensorref.py:310-323 | Numbers written one after the other, two's complement and least significant byte first, are read back as they were, for every dtype |
| `TensorFormat.FlatIsRowMajor` | src/omnitensor/tensorref.py:326-332 | The flat list of a tensor holds its entries in row-major order, the last index running fastest |
| `TensorFormat.FiniteExactly` | src/omnitensor/tensorref.py:231-237 | A float is finite exactly when its exponent bits are not all ones |
| `TensorFormat.VerifiesExactly` | src/omnitensor/tensorref.py:177-237 | A file verifies exactly when it may be read, is there, is as long as its shape and dtype say and no longer than 64 MiB, has the declared digest, and its floats are finite |
| `TensorFormat.WrittenVerifies` | src/omnitensor/tensorref.py:177-260 | So a file of finite numbers, with its own digest, verifies and loads as those numbers |
| `TensorAdmission.ParseReferences` | src/omnitensor/tensorref.py:335-356 | The references of a payload, each parsed in turn, are accepted, absent or refused exactly as specified |
| `TensorAdmission.ParsesExactly` | src/omnitensor/tensorref.py:136-174 | A reference is usable exactly when it states a path, a digest, one to six dimensions of 1 to 65536, and no dtype or one there is; it is then what it states, float32 where it states none |
| `TensorAdmission.ReferencesExactly` | src/omnitensor/tensorref.py:335-356 | A payload carries references exactly when it lists some, not too many, all usable, with no inline inputs beside them |
| `TensorAdmission.ReferencesAgreeExactly` | src/omnitensor/tensorcontract.py:174-199 | References agree with a contract exactly when there are as many, each of the declared shape and dtype |
| `TensorAdmission.AdmitReferences` | src/omnitensor/dispatch.py:135-146 | References pass exactly when the contract agrees with what they declare, the declared elements fit the budget and every file verifies |
| `TensorAdmission.Admit` | src/omnitensor/dispatch.py:113-146 | Any payload, with references or inline, is admitted exactly when it would run and what is known of its inputs agrees with the contract |
| `TensorAdmission.ReferencedInputs` | src/omnitensor/dispatch.py:336-373 | References load exactly when every file verifies and the elements fit, and each tensor has its declared shape and its file's numbers |
| `TensorAdmission.Inputs` | src/omnitensor/dispatch.py:336-373 | Any payload dispatches exactly when it would run: on the tensors its files hold, or on its own once they are found rectangular, finite and within the budget |
| `TensorAdmission.LoadedAccepted` | src/omnitensor/dispatch.py:364-373 | Counting leaf by leaf comes to the product of the declared shapes |
| `TensorAdmission.AdmissionPreviewsDispatch` | src/omnitensor/dispatch.py:113-146 | For every payload, files unchanged and reads cut differently, admission accepts exactly what agrees with the contract and dispatch accepts; then as many tensors run as declared, each in its declared shape, or inline a bare number or empty lists instead |
| `TensorAdmission.InlineAgrees` | src/omnitensor/tensorcontract.py:150-199 | Valid inline tensors agree with a contract if and only if there are as many as declared and each that is no bare number and holds a number has the declared shape |
| `TensorAdmission.BareNumberRuns` | src/omnitensor/tensorcontract.py:150-199 | A bare number is admitted and dispatched against any declared shape, though the only shape it has is the empty one |
| `Guard.ChargeKeeps` | src/omnitensor/guard.py:188-215 | One more call while fewer than the quota are kept leaves every window length within the quota |
| `Guard.ExpiryCuts` | src/omnitensor/guard.py:271-274 | What expiry drops is out of the window, and what it keeps is the end of the history |
| `Guard.SeenTable` | src/omnitensor/guard.py:253-269 | The table stays within its bound, and the calling key is never the victim |
| `Guard.ReleasedSound` | src/omnitensor/guard.py:224-231 | Giving a slot back to the record it was charged on keeps every count, also after its caller was forgotten |
| `Guard.AdmittedSound` | src/omnitensor/guard.py:188-215 | Admitting or refusing a call keeps every record within its quota and every count equal to its open blocks |
| `Guard.WithinQuota` | src/omnitensor/guard.py:188-300 | With a clock that never runs backwards no interval of the window's length holds more than the quota of admissions on one record, and its slots in use are its open blocks, within the limit |
| `GuardAdmission.AdmitsExactly` | src/omnitensor/guard.py:188-215 | In every reachable state a call of a known method with an acceptable payload is rate-limited if and only if the quota's worth of admissions on the caller's record lie within the last window's length, concurrency-limited if and only if not that but as many of its blocks are open as allowed, and admitted in every other case |
| `GuardAdmission.AnsweredStep` | src/omnitensor/guard.py:188-222 | Admitted, its block is open on the caller's record and charged at that time; refused, neither |
| `GuardAdmission.ExitGivesBack` | src/omnitensor/guard.py:224-231 | A call that ends takes its own block off the record it was charged on, and nothing else: no other block, no time of admission, no place in the table |
| `QuotaBound.StepOrder` | src/omnitensor/guard.py:253-269 | A caller seen moves to the end of the table and only the callers seen longest ago fall off, down to the bound |
| `GuardAdmission.RunAdmitsExactly` | src/omnitensor/guard.py:188-300 | So at every call of every run |
| `GuardQuota.HistoryIsAdmissions` | src/omnitensor/guard.py:253-274 | From any state on, listed or not, while a caller is not forgotten their history grows by exactly their admissions, the one that lists them included, on one record |
| `GuardQuota.AdmittedWithinQuota` | src/omnitensor/guard.py:188-300 | Over any part of any run a caller is admitted in an interval of the window's length at most quota times one more than the number of times the table forgot them; never without a quota |
| `GuardQuota.CallerWithinQuota` | src/omnitensor/guard.py:188-300 | So a caller not forgotten meanwhile, whether known at first or not, is admitted in any such interval at most as often as the quota allows |
| `QuotaBound.NobodyForgotten` | src/omnitensor/guard.py:253-269 | If no more callers come in the whole run than the table has room for, none is ever forgotten |
| `QuotaBound.FewCallersWithinQuota` | src/omnitensor/guard.py:188-300 | So with no more callers than that every caller is within quota in every interval of the window's length over the whole run |
| `QuotaBound.ForgottenReadmitted` | src/omnitensor/guard.py:188-274 | The bound is met for all limits: given as many other callers as the table has room for, for every n some run forgets a caller n times and admits them n+1 times the quota at one instant |
| `Guard.ControlGuard.WindowOf` | src/omnitensor/guard.py:253-269 | Found or made, moved to the end, and the oldest forgotten by the loop |
| `Guard.ControlGuard.Expire` | src/omnitensor/guard.py:271-274 | The loop drops exactly the calls at or before the horizon |
| `Guard.ControlGuard.Admit` | src/omnitensor/guard.py:188-215 | The in-place admission is the specified step, refusals and their side effects included; what it answers is AdmitsExactly |
| `Guard.ControlGuard.Release` | src/omnitensor/guard.py:224-231 | One slot less on that very record, never below zero |

## Left out

- Floating point: forecasting is over exact reals and passes over sixtieths of a unit; rounding is not modelled. In
  tensors and GGUF a float is its bit pattern with the IEEE 754 finiteness test.
- Files, sockets, clocks, threads' memory model, fsync and JSON text: an atomic save either replaces the document or
  fails with nothing changed; reads, probes, policies, discovery and build results are parameters of each step.
- JSON Schema validation: commands are taken as the schema leaves them (known operations, well-formed ids, batch
  weights in 1..5); the class of non-numeric, boolean and non-finite training values refused by
  `_require_numbers` is outside the real-valued model.
- UTF-8 "replace" decoding: GGUF strings and keys are byte strings. `read_shape` and its fallbacks are not modelled.
- Python's recursion limit: a payload nested too deeply is refused by the interpreter in `validate_input_tensor`;
  the model recurses without limit.
- SHA-256 is any function of the bytes; the chunked digest is taken to be that of the concatenation.
- Error texts and the order in which two faults of one input are reported where the source's own order depends on how
  a file is read in chunks (too large against not finite).
- Lanes: the scheduler's `_queues` are kept in the class as values per backend rather than as queue objects, so
  aliasing of a removed lane by a retired worker is not captured; such a worker is cancelled and never reads it.
- Lanes: `stop`, its gathering of the tasks and a worker's unwinding are steps of the machine only, not methods of
  the class. Starting a stopped scheduler again, load averages, busy time and the statistics are not modelled.
- Guard: records are named by number in a list that only grows, so garbage collection of forgotten ones is not
  modelled. `release` by key is not modelled; identity fields and payload size are one refusal given from outside.
- ModelCache: methods are one caller's section taken alone; the interleavings are the machine's. Whether a file's
  revision really changes with its contents is not modelled.
- TensorAdmission: the dispatcher's element limit is a number, as admission and dispatch always have one; a budget with
  no limit, which only results use, is not modelled. Everything the two do besides inputs (routing, pinning, artifacts,
  queueing) is left out, and so is a file that changes between them.
- AcceleratorReload: a reload that returns no snapshot counts as returned in `RefusedUntilReloaded`, since the code then
  reopens the gate as well. A runtime that cannot reload makes a request a no-op, like an empty request, and is not a
  separate case; the reload task is not cancelled and announcing a reload does not raise; the lock shared with
  start and stop only delays an attempt and is not modelled.
- Control: cancellation of a command's own task, the listeners told after a commit, and acknowledgement documents; a
  restart is taken to read back what was on disk, which `RestartPreservesPolicy` proves for well-formed runs.
- Policy: `snapshot_document` and `portfolio` are renderings of the same fields.
- PluginAdmission: `profile_stats` is not modelled.
- Duplicate keys inside one JSON object, msgpack, subprocesses, device discovery, the native executors, installers,
  command-line tools and service wiring.
- Tensor contracts: layout and preprocessing declarations do not enter admission and are not modelled.
