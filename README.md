# BRER ensemble-member control logic in Dafny

This project models the control loop that one ensemble member of a BRER
(bias-resampling ensemble refinement) run goes through. Each call of
`RunConfig.run` executes one phase and then moves to the next one:

- **training** re-samples the restraint targets, seeds each restraint's
  bias strength A from a memory of earlier attempts, runs the MD engine,
  and records in that memory whether the attempt converged. While the
  attempt did not converge, it reloads the state file and retrains.
- **convergence** runs the engine once and stores the time it ended at.
- **production** runs up to `production_time + start_time` and moves on
  to the next iteration.

The model covers three files:

- `run_data.py`: the validated parameter store, with `set`, `get`, the
  dictionary form, and loading and saving.
- `run_config.py`: the workflow class.
- `debug.py`: a second, diverging copy of the memory and retrain logic.

The modules:

- `Values`: JSON values, the exceptions the source raises, and `Result`.
- `RunParams`: the `RunData` store. Pure functions over `Params` give its
  meaning. The class `RunData` holds the two parameter maps and changes them
  in place.
- `BiasMemory`: the A-memory (`dict.json`). It holds the median, the seed
  rule, the record rule, and the escalation of A.
- `Files`: the files of the ensemble directory as a map from path to
  content. It covers checkpoint relocation, checkpoint backup, and the
  bootstrapping of the memory file.
- `Steps`: each loop of the workflow as a function, with lemmas about what
  the loop does.
- `Workflow`: every `RunConfig` operation as a function of a `Snapshot`,
  which holds the parameters, files, remaining engine runs, memory, sample
  count and retrain counter. Lemmas here give the phase transitions and
  the train/retrain properties.
- `Config`: the class `RunConfig`. Each of its methods is proved to leave
  the object in exactly the state the matching `Workflow` function
  computes.
- `Debug`: the class `Run` of debug.py, its own state functions, and its
  lemmas.

The MD engine is a field: the sequence of results its future runs give
back. Each run consumes one result, and running with none left fails.
Because of this, the retrain loop `while self.sample_count > 400`
terminates in the model. Each pass either consumes an engine run or fails.

Behaviour of the code worth noting:

- A seed is set only when both an accept list and a reject list exist for
  the target. With accepted values 50, 55 and 60 and no reject list, A is
  left alone (`BiasMemory.SeedCases`).
- At retrain count 5 the code computes `2*A` into a local and stores
  nothing, so A keeps its value (`BiasMemory.Escalated`, stored by
  `Steps.RecordStepA`).
- The retrain counter is never reset on convergence. At 6, run_config.py
  sets it to 1 and debug.py sets it to 0.
- `__retrain` reloads state.json. The ×1.1 escalation that `__datDict`
  applied in memory was never saved, so it is discarded
  (`Workflow.RetrainReadsSavedState`).
- In debug.py the sample count is forced to 0, so nothing is ever
  rejected. `__retrain` only mentions `self.datDict` and never calls it.

## Model

| member | source | states |
|---|---|---|
| RunParams.SetOne | run_brer/run_data.py:82-97 | one key is accepted exactly when it is a general requirement (no name) or a pair requirement of an existing restraint; otherwise KeyError for an unknown restraint, else ValueError; the set of restraints never changes |
| RunParams.SetAllSucceeds | run_brer/run_data.py:82-97 | `set` raises nothing exactly when every key is accepted; then the general map (no name) or the named restraint's map receives every assignment in order and the other map is untouched |
| RunParams.SetAllStopsAtFirstRefusal | run_brer/run_data.py:82-97 | at the first refused key `set` stops with the refusal for that key, keeping the assignments made before it |
| RunParams.AssignLast | run_brer/run_data.py:82-97 | the last assignment to a key is the value it ends with |
| RunParams.GetGeneralIgnoresName | run_brer/run_data.py:115-122 | a general key is read from the general parameters whatever name is given; a pair key without a name raises ValueError |
| RunParams.SetThenGet | run_brer/run_data.py:82-122 | after a successful named `set`, `get` of each key returns the value last assigned to it |
| RunParams.AsDictionary | run_brer/run_data.py:147-154 | the dictionary has exactly the keys "general parameters" and "pair parameters"; its pair keys are exactly the restraints, each mapped to its parameters |
| RunParams.SaveLoadRoundTrip | run_brer/run_data.py:201-227 | loading a saved dictionary restores the general parameters and every saved pair and keeps pairs the document lacks; when the loading store has no extra pairs, load after save gives the saved store and the same dictionary |
| RunParams.WithPair | run_brer/run_data.py:189-195 | `from_pair_data` creates or overwrites only that restraint, whose entry becomes exactly the fresh pair (sites, log file name, alpha 0), with every pair requirement set, A = 50 and target = 3.0; general parameters unchanged |
| RunParams.WithPairsEffect | run_brer/run_config.py:86-89 | loading all pair data yields exactly the old restraints plus the named ones, each named one with its fresh entry (the last one when names repeat), the others unchanged |
| RunParams.RunData.constructor | run_brer/run_data.py:41-60 | a fresh store has the default general parameters (iteration 0, phase training, start_time 0, production_time 10000, ...) and no pairs |
| RunParams.RunData.Set | run_brer/run_data.py:82-97 | the loop over keyword arguments reaches the state and exception that `SetAll` specifies |
| RunParams.RunData.FromDictionary | run_brer/run_data.py:168-172 | the store ends as `Loaded` says: general parameters replaced, each pair in the document rebuilt, other pairs kept; missing keys raise KeyError |
| RunParams.RunData.FromPairData | run_brer/run_data.py:189-195 | the store becomes `WithPair` of the old store |
| RunParams.RunData.ClearPairData | run_brer/run_data.py:197-199 | no pairs remain and the general parameters are unchanged |
| BiasMemory.InitMemory | run_brer/run_config.py:383-389 | the fresh memory has exactly the restraint names as keys, each with empty acceptA and rejectA |
| BiasMemory.Sort | run_brer/run_config.py:318 | the sorted values are ordered and a permutation of the input |
| BiasMemory.SortedUnique | run_brer/run_config.py:318 | two sorted sequences with the same multiset of values are equal |
| BiasMemory.MedianOfPermutation | run_brer/run_config.py:315-319 | the median depends only on the multiset of accepted values, not on their order |
| BiasMemory.MedianWithinValues | run_brer/run_config.py:315-319 | the median lies between two accepted values and is one of them when their number is odd |
| BiasMemory.MedianOfSorted | run_brer/run_config.py:318-319 | for values already in order the median is the middle value, or the mean of the two middle values for an even count |
| BiasMemory.MedianOfThree | run_brer/run_config.py:318-319 | three ordered values have the middle one as median |
| BiasMemory.SeedCases | run_brer/run_config.py:315-331 | A is seeded exactly when both an accept and a reject list exist for the target; the seed is 1.1 × median when the median was rejected, else the median, so a nonzero rejected median is never reused as it is |
| BiasMemory.Append | run_brer/run_config.py:415-435 | appending adds one value at the end of the target's list, creating it if absent; other lists unchanged |
| BiasMemory.RecordAppendOnly | run_brer/run_config.py:406-435 | recording appends A to exactly one list (reject above 400 samples, accept otherwise), leaves the other list map unchanged, never shortens a list and keeps the entry well formed |
| BiasMemory.SeedAfterRecord | run_brer/run_config.py:315-331 | once a converged A is the only accepted value for a target whose reject list lacks it, the next seed is exactly that A |
| BiasMemory.Escalated | run_brer/run_config.py:409-414 | the A value a failed attempt leaves: 1.1 × A, except at retrain count 5 where A is unchanged; never smaller for positive A (recording stores it, see `Steps.RecordStepA`) |
| Files.MoveCpt | run_brer/run_config.py:153-178 | an existing checkpoint is kept; training and convergence copy the previous iteration's production checkpoint (nothing at iteration 0), other phases this iteration's convergence checkpoint; a missing source raises; nothing else changes |
| Files.MoveCptIdempotent | run_brer/run_config.py:158-160 | relocating twice is relocating once |
| Files.BackupCpt | run_brer/run_config.py:216-224 | an existing state.cpt is moved to state.cpt.bak; afterwards no state.cpt is in the phase directory; nothing else changes |
| Files.MoveDict | run_brer/run_config.py:180-201 | afterwards the member has a memory file: with flag 0 an existing one is kept, else the previous member's is copied, else an empty one is made; any other flag empties it; nothing else changes |
| Steps.SetPairIsSet | run_brer/run_data.py:82-97 | `set` of one alpha, target or A on a named restraint changes only that key of that restraint; an unknown restraint raises KeyError and an empty name ValueError |
| Steps.PairGetIsGet | run_brer/run_data.py:115-122 | `get` of alpha, target or A with a name reads that restraint's value; an unknown restraint raises KeyError and an empty name ValueError |
| Steps.SetTargetsEffect | run_brer/run_config.py:209-210 | after re-sampling, each restraint's target is its sampled value and nothing else changed; a restraint the sampler omitted raises |
| Steps.ResetTargetsIdentity | run_brer/run_config.py:294-302 | writing each reloaded target back leaves the parameters unchanged |
| Steps.SeedStepEffect | run_brer/run_config.py:228-252 | one seeding step changes at most its own restraint's A, as `Seed` prescribes |
| Steps.SeedNamesEffect | run_brer/run_config.py:226-252 | seeding sets each restraint's A from the memory entry of its own target and changes nothing else |
| Steps.SeedNamesKeepsGeneral | run_brer/run_config.py:226-252 | seeding changes no general parameter and no restraint name, for any list of names |
| Steps.RecordStepEffect | run_brer/run_config.py:393-436 | one recording step changes only its own restraint: its A joins the list its sample count selects, A is escalated on failure, and the sample count is set to the (last) failing count |
| Steps.RecordStepA | run_brer/run_config.py:403-414 | after a recording step the restraint's A reads back as `Escalated` of the recorded A when the attempt failed (unchanged at retrain count 5) and as the recorded A otherwise; a positive A never shrinks |
| Steps.RecordNamesEffect | run_brer/run_config.py:393-436 | recording does this for every logged restraint, changes nothing for restraints without a log, and keeps the memory's restraints |
| Steps.RecordNamesSampleCount | run_brer/run_config.py:392-407 | after recording, the sample count exceeds 400 exactly when some restraint's log reports more than 400 samples |
| Steps.RecordNamesWellFormed | run_brer/run_config.py:415-435 | recording keeps every memory list non-empty |
| Steps.ApplyPotentialsKeeps | run_brer/run_config.py:276-284 | the engine's results change only alphas and targets; fewer potentials than restraints raise |
| Steps.ApplyPotentialsEntries | run_brer/run_config.py:276-284 | copying back the engine's results needs one potential per restraint, each naming an existing restraint, and leaves each restraint with its entry after its potentials' alphas and targets are written in order (`EngineEntry`) |
| Steps.EngineEntryUntouched | run_brer/run_config.py:276-284 | a restraint that no potential names keeps its parameters |
| Steps.EngineEntryOnce | run_brer/run_config.py:276-284 | a restraint named by exactly one potential ends with that potential's alpha and target, the rest unchanged |
| Steps.ApplyPotentialsSets | run_brer/run_config.py:276-284 | with distinct names, restraint `pots[i].name` ends with exactly potential i's alpha and target, and every other restraint is unchanged |
| Workflow.SaveConfig | run_brer/run_data.py:201-213 | saving writes the state file and nothing else |
| Workflow.SaveLoadConfig | run_brer/run_data.py:201-227 | loading the state file just saved gives back the saved store |
| Workflow.StoredGeneralLoadSave | run_brer/run_data.py:168-172 | a state file that loads without error supplies the general parameters, and saving stores the store's general parameters |
| Workflow.Next | run_brer/run_config.py:266-268 | an engine run yields the next result, and fails when none is left |
| Workflow.SetGeneralEffect | run_brer/run_data.py:82-91 | setting general keys succeeds and assigns them in order |
| Workflow.SetGeneralOne | run_brer/run_data.py:82-91 | setting one general key makes it read back as that value |
| Workflow.InitialFresh | run_brer/run_config.py:75-89 | a first start has the default general parameters with the member's number and a fresh entry per pair, and saves them to the state file |
| Workflow.InitialRestart | run_brer/run_config.py:82-83 | a restart takes the general parameters and pairs of the state file and writes nothing |
| Workflow.TrainingRun | run_brer/run_config.py:258-284 | an engine run always consumes one engine result |
| Workflow.TrainingRunEffect | run_brer/run_config.py:258-284 | an engine run consumes the next engine result, writes its logs to the phase directory, leaves each restraint with the entry its potentials give and changes nothing else |
| Workflow.Reload | run_brer/run_config.py:286-331 | reloading keeps the engine and maps the retrain counter 6 to 1 |
| Workflow.Retrain | run_brer/run_config.py:286-372 | a retrain consumes an engine run and maps the counter 6 to 1 |
| Workflow.RetrainOnce | run_brer/run_config.py:500-503 | one pass of the retrain loop consumes an engine run and leaves the incremented counter, with 6 mapped to 1 |
| Workflow.Attempt | run_brer/run_config.py:502-503 | retraining and recording consumes an engine run and maps the counter 6 to 1 |
| Workflow.MemoryFrom | run_brer/run_config.py:376-389 | the memory read from dict.json is well formed |
| Workflow.DatDict | run_brer/run_config.py:374-439 | `__datDict` leaves the engine and the retrain counter alone |
| Workflow.TrainSavesTargets | run_brer/run_config.py:209-213 | the state file holds the re-sampled targets after training; only parameters, files and the engine change |
| Workflow.TrainSeedsA | run_brer/run_config.py:226-284 | each restraint trains with the A that `Seed` gives for its sampled target from the memory file, or its old A; each restraint's whole entry is its sampled target and that A, with the engine's alpha and target written over them (`EngineEntry`) |
| Workflow.RetrainReadsSavedState | run_brer/run_config.py:286-287 | retraining ignores the in-memory parameters when the state file holds a saved store: the escalated A of `__datDict` is discarded |
| Workflow.RetrainKeepsStateFile | run_brer/run_config.py:286-302 | retraining leaves the state file as it found it |
| Workflow.DatDictEffect | run_brer/run_config.py:374-439 | `__datDict` reads the memory (fresh for an empty file), records every restraint as `Recorded` says, writes the memory back and changes no other file; the sample count exceeds 400 exactly when some restraint failed |
| Workflow.RetrainLoopEnds | run_brer/run_config.py:499-506 | the retrain loop stops only on a converged attempt; a counter starting in 0..5 stays in 0..5, and in 1..5 once the loop has run |
| Workflow.TrainKeepsGeneral | run_brer/run_config.py:205-284 | training keeps the general parameters, and the state file `mem_<m>/state.json` holds them afterwards |
| Workflow.RetrainKeepsGeneral | run_brer/run_config.py:286-372 | retraining takes its general parameters from the state file `mem_<m>/state.json` and leaves that file's general parameters as they were |
| Workflow.DatDictKeepsGeneral | run_brer/run_config.py:374-439 | `__datDict` keeps the general parameters and the state file's |
| Workflow.RetrainLoopKeepsGeneral | run_brer/run_config.py:498-504 | the retrain loop keeps the general parameters when the state file holds them, since every retrain reloads them from there |
| Workflow.TrainingPhaseEffect | run_brer/run_config.py:495-506 | the training branch ends in phase convergence, and only with a sample count of at most 400; with the state file `mem_<m>/state.json` the general parameters are otherwise unchanged (iteration, ensemble number, start time) |
| Workflow.ConvergencePhaseEffect | run_brer/run_config.py:508-510 | the convergence branch ends in phase production, with start_time the time the engine's first potential ended at; no other general parameter changes |
| Workflow.ProductionPhaseEffect | run_brer/run_config.py:512-514 | the production branch ends in phase training with start_time 0 and the next iteration |
| Workflow.RunPhases | run_brer/run_config.py:489-514 | training goes to convergence only after a converged attempt; convergence goes to production with start_time the engine's end time; any other phase goes to training with start_time 0 and iteration + 1; training (with the state file `mem_<m>/state.json`) and convergence keep iteration and ensemble number |
| Workflow.PhaseCycle | run_brer/run_config.py:489-515 | three runs from training at iteration i pass through convergence and production and return to training at iteration i + 1 with start_time 0 |
| Workflow.RunPhaseValues | run_brer/run_config.py:489-514 | no phase other than training, convergence and production comes out of `run` |
| Workflow.RunSavesState | run_brer/run_config.py:515 | `run` ends with the state file holding the final parameters |
| Workflow.ProductionEndTime | run_brer/run_config.py:442-472 | the production run after a convergence run ends at production_time plus the time that convergence run ended at |
| Config.RunConfig.Init | run_brer/run_config.py:54-62 | a new object holds the setup, store, files and engine, with empty memory and counters at 0 |
| Config.RunConfig.Start | run_brer/run_config.py:75-89 | the body of `__init__` yields exactly the store and files that `Initial` gives, with a new store |
| Config.RunConfig.Create | run_brer/run_config.py:26-89 | construction yields exactly the state of `Initial`, with the pair names as restraint names |
| Config.RunConfig.Save | run_brer/run_config.py:515 | the state file holds the current store |
| Config.RunConfig.RunEngine | run_brer/run_config.py:266-268 | returns the next engine result and consumes it |
| Config.RunConfig.ResampleTargets | run_brer/run_config.py:209-210 | the loop reaches the state of `SetTargets` |
| Config.RunConfig.RestoreTargets | run_brer/run_config.py:294-302 | the loop fails exactly as `ResetTargets` does and otherwise leaves the store unchanged |
| Config.RunConfig.SeedFromMemory | run_brer/run_config.py:226-252 | the loop reaches the state of `SeedNames` |
| Config.RunConfig.ApplyOne | run_brer/run_config.py:278-283 | one iteration sets the potential's alpha and then its target on its restraint, as `ApplyPotential` says, and fails for an unknown restraint |
| Config.RunConfig.ApplyResults | run_brer/run_config.py:276-284 | the loop reaches the state of `ApplyPotentials` |
| Config.RunConfig.TrainingRun | run_brer/run_config.py:258-284 | the object ends in the state `Workflow.TrainingRun` computes, and fails exactly when it does |
| Config.RunConfig.Train | run_brer/run_config.py:205-284 | the object ends in the state `Workflow.Train` computes, and fails exactly when it does |
| Config.RunConfig.Reload | run_brer/run_config.py:286-331 | the object ends in the state `Workflow.Reload` computes, and fails exactly when it does |
| Config.RunConfig.Retrain | run_brer/run_config.py:286-372 | the object ends in the state `Workflow.Retrain` computes, and fails exactly when it does |
| Config.RunConfig.FreshMemory | run_brer/run_config.py:383-389 | the loop builds `InitMemory` of the restraint names |
| Config.RunConfig.RecordOne | run_brer/run_config.py:393-436 | one iteration reaches the memory, store and sample count of `RecordStep` |
| Config.RunConfig.RecordAll | run_brer/run_config.py:393-436 | the loop reaches the memory, store and sample count of `RecordNames` |
| Config.RunConfig.DatDict | run_brer/run_config.py:374-439 | the object ends in the state `Workflow.DatDict` computes, and fails exactly when it does |
| Config.RunConfig.Converge | run_brer/run_config.py:442-456 | the object ends in the state `Workflow.Converge` computes, and fails exactly when it does |
| Config.RunConfig.Production | run_brer/run_config.py:464-481 | the object ends in the state `Workflow.Production` computes, and the end time it returns is that function's |
| Config.RunConfig.CountAttempt | run_brer/run_config.py:501 | the attempt counter goes up by one and nothing else changes |
| Config.RunConfig.Attempt | run_brer/run_config.py:502-503 | retraining and then recording ends in the state `Workflow.Attempt` computes, and fails exactly when it does |
| Config.RunConfig.RetrainOnce | run_brer/run_config.py:500-503 | the object ends in the state `Workflow.RetrainOnce` computes |
| Config.RunConfig.RetrainUntilConverged | run_brer/run_config.py:499-506 | the while loop ends in the state `RetrainLoop` computes |
| Config.RunConfig.RunTraining | run_brer/run_config.py:495-506 | the training branch ends in the state `TrainingPhase` computes |
| Config.RunConfig.RunConvergence | run_brer/run_config.py:508-510 | the convergence branch ends in the state `ConvergencePhase` computes |
| Config.RunConfig.RunProduction | run_brer/run_config.py:512-514 | the production branch ends in the state `ProductionPhase` computes |
| Config.RunConfig.Run | run_brer/run_config.py:489-515 | `run` ends in the state `Workflow.Run` computes (whose phase transitions `RunPhases` states), and fails exactly when it does |
| Debug.Reloaded | run_brer/debug.py:121-137 | the reload part of `__retrain` maps the counter 6 to 0 and leaves the flag and memory alone |
| Debug.AfterRetrain | run_brer/debug.py:121-172 | `__retrain` maps the counter 6 to 0, moves `dict1` from 0 or 1 to 3 and keeps the memory and sample count |
| Debug.AcceptEffect | run_brer/debug.py:194-240 | one step changes at most its own restraint's entry, recording its A as accepted |
| Debug.AcceptAllGrows | run_brer/debug.py:194-240 | the loop of `datDict` keeps the memory's restraints and their reject lists and only appends to accept lists |
| Debug.AcceptAllEntries | run_brer/debug.py:194-240 | each listed restraint gets the entry its own log prescribes, and every other restraint is left alone |
| Debug.AcceptAllEffect | run_brer/debug.py:194-240 | the loop of `datDict` keeps the memory's restraints, never changes a reject list, only appends to accept lists, and gives each logged restraint its recorded entry |
| Debug.SeedValueFrame | run_brer/debug.py:146-166 | a restraint's seed depends only on its own target |
| Debug.SeedOneEffect | run_brer/debug.py:140-166 | one seeding step sets at most its own restraint's A and saves the state file when it does |
| Debug.SeedAllKeeps | run_brer/debug.py:140-166 | seeding changes no general parameter and adds or drops no restraint |
| Debug.SeedAllEffect | run_brer/debug.py:140-166 | seeding sets each restraint's A from `self.j` for its own target (nothing for an empty memory) and changes nothing else |
| Debug.SeedAllSaves | run_brer/debug.py:160-164 | the state file holds the seeded parameters at the end, since every set is saved at once |
| Debug.RetrainEffect | run_brer/debug.py:121-166 | `__retrain` starts from the state file: each A is the seed of its reloaded target, an empty memory seeds nothing, and the state file holds the final parameters |
| Debug.RetrainKeepsMemoryFile | run_brer/debug.py:121-172 | `__retrain` does not touch dict.json |
| Debug.DatDictEffect | run_brer/debug.py:174-248 | `datDict` leaves the sample count 0, writes the memory to dict.json, only appends to accept lists, retrains exactly when `dict1` is 0 or 1 (counter 6 to 0, `dict1` to 3), and otherwise keeps parameters, counter and flag |
| Debug.DatDictRetrainsOnce | run_brer/debug.py:245-248 | a second `datDict` keeps the parameters, counter and flag: the `datDict` -> `__retrain` recursion runs at most once |
| Debug.Run.Init | run_brer/debug.py:54-61 | a new object has an empty memory, counter 0 and `dict1` 1 |
| Debug.Run.Create | run_brer/debug.py:23-88 | construction yields exactly the state of `Initial`, with counter 0 and `dict1` 1 whatever the caller passes |
| Debug.Run.Save | run_brer/debug.py:137 | the state file holds the current store |
| Debug.Run.FreshMemory | run_brer/debug.py:184-190 | the loop builds `InitMemory` of the restraint names |
| Debug.Run.AcceptLoop | run_brer/debug.py:192-240 | the loop reaches the memory `AcceptAll` computes |
| Debug.Run.RestoreTargets | run_brer/debug.py:129-137 | the loop fails exactly as `ResetTargets` does and otherwise leaves the store unchanged |
| Debug.Run.SeedLoop | run_brer/debug.py:140-166 | the loop reaches the store and files `SeedAll` computes |
| Debug.Run.Reload | run_brer/debug.py:121-137 | the object ends in the state `Reloaded` computes |
| Debug.Run.Retrain | run_brer/debug.py:121-172 | the object ends in the state `AfterRetrain` computes |
| Debug.Run.DatDict | run_brer/debug.py:174-248 | the object ends in the state `AfterDatDict` computes |

## Left out

- Workflow.TrainingPhaseEffect: the general parameters are shown to be kept only when the setup's state file is `mem_<m>/state.json`, as in the source; for another path the checkpoint backup or a training log could overwrite the file that each retrain reloads (the same holds for the training branch of `Workflow.RunPhases`).
- The MD engine is modelled only as the sequence of results it gives back. This leaves out `gmx.workflow`, the plugins and `build_plugins`, and the `sites_to_name` mapping. A potential carries its restraint's name directly. A training run's logs appear as the last line of each log file.
- `__change_directory` and `DirectoryHelper` are not part of this model. Paths are values of `Files.Path`, built from the ensemble number and iteration that `run` reads at its start.
- Logging and the `print` in debug.py have no effect on state.
- JSON text, `NumpyEncoder` and the `np.matrix` parsing of log lines are left out. The memory and the state file are values, and a log's last line is a pair (sample count, target).
- The '{:2f}' formatting of targets becomes the target in millionths, rounded. Floating point is modelled as exact reals, so 1.1 × A is not rounded.
- `MultiPair` (its `re_sample` is a parameter map of new targets) and `MetaData` (its maps are plain maps, `set_from_dictionary` is a replacement) are not part of this model.
- run_brer/mem_search.py and the entry scripts are not part of this model.
- Config.RunConfig.Run: after an exception the state of the object is not specified. The same holds for every method of `Config.RunConfig` and `Debug.Run`: the contract says only which calls fail.
- Workflow.RetrainLoop: an engine that never converges makes the source loop forever. In the model the loop stops with an engine failure once the given results run out.
- Workflow.Phase: a phase that is not a string raises TypeError in the model. In the source it would run the production branch.
- Steps.Int: a non-integer ensemble number or iteration raises TypeError in the model. The source would format it into a path.
- RunParams.RunData.FromDictionary: the model rejects a pair value that is not an object with TypeError up front, before any pair is rebuilt. What the source does with such a value depends on `MetaData.set_from_dictionary`, which is not part of this model (it is treated as replacing the entry).
- BiasMemory.WellFormedMemory: memory files with an empty list (possible only when edited by hand) are excluded. `np.median` of an empty list gives nan.
- Config.RunConfig.Init: `self.sample_count` starts as 0 rather than the source's empty list, which `__datDict` overwrites before it is read.
- Debug.Run.Create: the unused fields `A_parameter` and `targetSet` are left out.
