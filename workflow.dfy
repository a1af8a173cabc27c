/** One invocation of `RunConfig.run` (run_brer/run_config.py) as a function
    of the state it starts from.  A `Snapshot` holds everything the workflow
    reads or changes: the in-memory parameters, the files of the ensemble
    directory, the engine runs still to come, the A-memory `self.j`,
    `self.sample_count` and `self.retrain_count`.  The methods of
    `Config.RunConfig` are proved to compute exactly these functions. */
module Workflow {
  import opened Values
  import opened RunParams
  import opened BiasMemory
  import opened Files
  import opened Steps

  /** What a RunConfig object fixes at construction: the restraint names, the
      state file and the `dict_json` flag. */
  datatype Setup = Setup(names: seq<string>, stateFile: Path, dictJson: int)

  datatype Snapshot = Snapshot(p: Params, fs: FileSystem, engine: seq<EngineRun>,
                               mem: Memory, sampleCount: real, retrainCount: int)

  // ------------------------------------------------------------ state file

  /** `save_config(path)`: the whole parameter store, as a dictionary. */
  function SaveConfig(fs: FileSystem, path: Path, p: Params): (r: FileSystem)
    ensures OnlyChanged(fs, r, path)
    ensures path in r && r[path].StateDoc?
  {
    fs[path := StateDoc(AsDictionary(p))]
  }

  /** `from_dictionary(json.load(open(path)))`. */
  function LoadConfig(p: Params, fs: FileSystem, path: Path): (Params, Option<Error>)
  {
    if path !in fs then (p, Some(FileNotFound))
    else if !fs[path].StateDoc? then (p, Some(DecodeError))
    else Loaded(p, fs[path].doc)
  }

  /** The general parameters the file at `path` holds, when it holds a
      dictionary with a general-parameter object. */
  function StoredGeneral(fs: FileSystem, path: Path): Option<map<string, Json>>
  {
    if path in fs && fs[path].StateDoc? && fs[path].doc.JObj? && GeneralKey in fs[path].doc.fields &&
       fs[path].doc.fields[GeneralKey].JObj?
    then Some(fs[path].doc.fields[GeneralKey].fields)
    else None
  }

  /** Loading a state file that loads without error takes its general
      parameters from it; saving stores the store's general parameters. */
  lemma StoredGeneralLoadSave(p: Params, q: Params, fs: FileSystem, path: Path)
    ensures LoadConfig(q, fs, path).1.None? ==>
              StoredGeneral(fs, path).Some? && LoadConfig(q, fs, path).0.general == StoredGeneral(fs, path).value
    ensures StoredGeneral(SaveConfig(fs, path, p), path) == Some(p.general)
  {
  }

  /** Loading what was saved gives back the saved store, whenever the loading
      store has no restraint the saved one lacks. */
  lemma SaveLoadConfig(p: Params, q: Params, fs: FileSystem, path: Path)
    requires q.pairs.Keys <= p.pairs.Keys
    ensures LoadConfig(q, SaveConfig(fs, path, p), path) == (p, None)
  {
    SaveLoadRoundTrip(p, q);
  }

  // ------------------------------------------------------------ the engine

  /** Running the engine: the next run's results, or a failure when the
      engine has nothing more to give. */
  function Next(engine: seq<EngineRun>): (r: Result<EngineRun>)
    ensures r.Ok? <==> engine != []
    ensures r.Ok? ==> r.value == engine[0]
  {
    if engine == [] then Err(EngineFailure) else Ok(engine[0])
  }

  /** The training logs a training run leaves in its phase directory. */
  function WithLogs(fs: FileSystem, member: int, iteration: int, logs: map<string, LogLine>): (r: FileSystem)
    ensures forall n :: n in logs ==> TrainingLog(member, iteration, n) in r && r[TrainingLog(member, iteration, n)] == Log(logs[n])
    ensures forall q: Path :: !(q.TrainingLog? && q.member == member && q.iteration == iteration && q.name in logs) ==>
              (q in r <==> q in fs) && (q in fs ==> r[q] == fs[q])
  {
    fs + map n | n in logs :: TrainingLog(member, iteration, n) := Log(logs[n])
  }

  /** `run_data.set(**kwargs)` without a name. */
  function SetGeneral(p: Params, kwargs: seq<(string, Json)>): Result<Params>
  {
    var (q, err) := SetAll(p, None, kwargs);
    if err.None? then Ok(q) else Err(err.value)
  }

  /** Setting general keys succeeds and assigns them in order. */
  lemma SetGeneralEffect(p: Params, kwargs: seq<(string, Json)>)
    requires forall i :: 0 <= i < |kwargs| ==> kwargs[i].0 in GeneralRequirements
    ensures SetGeneral(p, kwargs) == Ok(p.(general := Assign(p.general, kwargs)))
  {
    SetAllSucceeds(p, None, kwargs);
  }

  // ---------------------------------------------------------- construction

  /** `RunConfig.__init__`: a fresh store with the ensemble number set; then
      the state file is loaded when it exists, else every pair is loaded from
      the pair data and the state is saved. */
  function Initial(pairs: seq<PairData>, ensembleNum: int, fs: FileSystem): Result<(Params, FileSystem)>
  {
    var p0 := Params(DefaultGeneral["ensemble_num" := JInt(ensembleNum)], map[]);
    var path := StateFile(ensembleNum);
    if path in fs then
      var (p, err) := LoadConfig(p0, fs, path);
      if err.Some? then Err(err.value) else Ok((p, fs))
    else
      var p := WithPairs(p0, pairs);
      Ok((p, SaveConfig(fs, path, p)))
  }

  /** A first start has the default general parameters with the given
      ensemble number and a fresh entry for every pair, and saves them. */
  lemma InitialFresh(pairs: seq<PairData>, ensembleNum: int, fs: FileSystem)
    requires StateFile(ensembleNum) !in fs
    ensures Initial(pairs, ensembleNum, fs).Ok?
    ensures var (p, fs') := Initial(pairs, ensembleNum, fs).value;
            p.general == DefaultGeneral["ensemble_num" := JInt(ensembleNum)] &&
            (forall n :: n in p.pairs <==> n in PairNames(pairs)) &&
            (forall i :: 0 <= i < |pairs| && pairs[i].name !in PairNames(pairs[i + 1..]) ==>
                           pairs[i].name in p.pairs && p.pairs[pairs[i].name] == FreshPair(pairs[i])) &&
            fs' == fs[StateFile(ensembleNum) := StateDoc(AsDictionary(p))]
  {
    var p0 := Params(DefaultGeneral["ensemble_num" := JInt(ensembleNum)], map[]);
    WithPairsEffect(p0, pairs);
  }

  /** A restart takes the general parameters and the pairs of the state
      file, and writes nothing. */
  lemma InitialRestart(pairs: seq<PairData>, ensembleNum: int, fs: FileSystem)
    requires StateFile(ensembleNum) in fs
    requires Initial(pairs, ensembleNum, fs).Ok?
    ensures var (p, fs') := Initial(pairs, ensembleNum, fs).value;
            var content := fs[StateFile(ensembleNum)];
            fs' == fs && content.StateDoc? && content.doc.JObj? &&
            GeneralKey in content.doc.fields && PairKey in content.doc.fields &&
            content.doc.fields[GeneralKey] == JObj(p.general) && content.doc.fields[PairKey].JObj? &&
            content.doc.fields[PairKey].fields.Keys == p.pairs.Keys &&
            forall n :: n in p.pairs ==> content.doc.fields[PairKey].fields[n] == JObj(p.pairs[n])
  {
  }

  // ---------------------------------------------------------------- phases

  /** The engine run of `__train` and `__retrain`: the training logs appear
      in the phase directory and each potential's alpha and target are
      taken back. */
  function TrainingRun(c: Setup, s: Snapshot, member: int, iteration: int): (r: Result<Snapshot>)
    ensures r.Ok? ==> |r.value.engine| < |s.engine|
  {
    var run :- Next(s.engine);
    var p :- ApplyPotentials(s.p, run.potentials, |c.names|);
    Ok(s.(p := p, fs := WithLogs(s.fs, member, iteration, run.logs), engine := s.engine[1..]))
  }

  /** An engine run takes the next engine result: its logs appear in the
      phase directory, each restraint ends with the entry its potentials give,
      and nothing else changes. */
  lemma TrainingRunEffect(c: Setup, s: Snapshot, member: int, iteration: int)
    requires TrainingRun(c, s, member, iteration).Ok?
    ensures s.engine != [] &&
            var r := TrainingRun(c, s, member, iteration).value;
            r.engine == s.engine[1..] && r.fs == WithLogs(s.fs, member, iteration, s.engine[0].logs) &&
            r.mem == s.mem && r.sampleCount == s.sampleCount && r.retrainCount == s.retrainCount &&
            r.p.general == s.p.general && r.p.pairs.Keys == s.p.pairs.Keys &&
            forall n :: n in s.p.pairs ==>
              r.p.pairs[n] == EngineEntry(s.p.pairs[n], s.engine[0].potentials, |c.names|, n)
  {
    ApplyPotentialsEntries(s.p, s.engine[0].potentials, |c.names|);
  }

  /** `__train` in the phase directory of (member, iteration): re-sample the
      targets, save, back up a stale checkpoint, seed A from the memory file,
      run the engine and take back its alphas and targets. */
  function Train(c: Setup, s: Snapshot, member: int, iteration: int, targets: map<string, real>): Result<Snapshot>
  {
    var p1 :- SetTargets(s.p, c.names, targets);
    var fs1 := BackupCpt(SaveConfig(s.fs, c.stateFile, p1), member, iteration, "training");
    var p2 :- SeedNames(p1, fs1, member, c.names);
    TrainingRun(c, s.(p := p2, fs := fs1), member, iteration)
  }

  /** The first part of `__retrain`: reload the state file, map the counter
      6 to 1, write each target back, save, and seed A from the memory file. */
  function Reload(c: Setup, s: Snapshot, member: int): (r: Result<Snapshot>)
    ensures r.Ok? ==> r.value.engine == s.engine
    ensures r.Ok? ==> r.value.retrainCount == if s.retrainCount == 6 then 1 else s.retrainCount
  {
    var (p1, err) := LoadConfig(s.p, s.fs, c.stateFile);
    if err.Some? then Err(err.value)
    else
      var p2 :- ResetTargets(p1, c.names);
      var fs1 := SaveConfig(s.fs, c.stateFile, p2);
      var p3 :- SeedNames(p2, fs1, member, c.names);
      Ok(s.(p := p3, fs := fs1, retrainCount := if s.retrainCount == 6 then 1 else s.retrainCount))
  }

  /** `__retrain`: reload and seed, back up a stale checkpoint, and train
      again. */
  function Retrain(c: Setup, s: Snapshot, member: int, iteration: int): (r: Result<Snapshot>)
    ensures r.Ok? ==> |r.value.engine| < |s.engine|
    ensures r.Ok? ==> r.value.retrainCount == if s.retrainCount == 6 then 1 else s.retrainCount
  {
    var s1 :- Reload(c, s, member);
    TrainingRun(c, s1.(fs := BackupCpt(s1.fs, member, iteration, "training")), member, iteration)
  }

  /** The memory `__datDict` starts from: the memory file's content, or a
      fresh memory when the file is empty. */
  function MemoryFrom(c: Setup, fs: FileSystem, member: int): (r: Result<Memory>)
    ensures r.Ok? ==> WellFormed(r.value)
  {
    if MemoryFile(member) !in fs then Err(FileNotFound)
    else
      var content := fs[MemoryFile(member)];
      if content.EmptyFile? then Ok(InitMemory(c.names))
      else if content.MemoryDoc? then Ok(content.mem)
      else Err(DecodeError)
  }

  /** `__datDict`: record every restraint's outcome in the memory, reset
      `self.sample_count` to 0 and raise it for failed attempts, and write
      the memory back to its file. */
  function DatDict(c: Setup, s: Snapshot, member: int): (r: Result<Snapshot>)
    ensures r.Ok? ==> r.value.engine == s.engine && r.value.retrainCount == s.retrainCount
  {
    var mem :- MemoryFrom(c, s.fs, member);
    var rec :- RecordNames(Recorder(mem, s.p, 0.0), s.fs, member, c.names, s.retrainCount);
    RecordNamesWellFormed(Recorder(mem, s.p, 0.0), s.fs, member, c.names, s.retrainCount);
    Ok(s.(p := rec.p, fs := s.fs[MemoryFile(member) := MemoryDoc(rec.mem)], mem := rec.mem,
          sampleCount := rec.sampleCount))
  }

  /** The loop of `run` in the training phase: while the last attempt did not
      converge, count it, retrain and record again. */
  function RetrainLoop(c: Setup, s: Snapshot, member: int, iteration: int): Result<Snapshot>
    decreases |s.engine|
  {
    if s.sampleCount <= SampleThreshold then Ok(s)
    else
      var s1 :- RetrainOnce(c, s, member, iteration);
      RetrainLoop(c, s1, member, iteration)
  }

  /** One pass of that loop: count the attempt, retrain, record. */
  function RetrainOnce(c: Setup, s: Snapshot, member: int, iteration: int): (r: Result<Snapshot>)
    ensures r.Ok? ==> |r.value.engine| < |s.engine| && r.value.retrainCount == (if s.retrainCount + 1 == 6 then 1 else s.retrainCount + 1)
  {
    Attempt(c, Counted(s), member, iteration)
  }

  /** The snapshot with the attempt counter one higher. */
  function Counted(s: Snapshot): (r: Snapshot)
  {
    s.(retrainCount := s.retrainCount + 1)
  }

  /** Retrain, then record the outcome. */
  function Attempt(c: Setup, s: Snapshot, member: int, iteration: int): (r: Result<Snapshot>)
    ensures r.Ok? ==> |r.value.engine| < |s.engine| && r.value.retrainCount == (if s.retrainCount == 6 then 1 else s.retrainCount)
  {
    match Retrain(c, s, member, iteration)
    case Err(e) => Err(e)
    case Ok(s1) => DatDict(c, s1, member)
  }

  /** `__converge`: bring the checkpoint over, run the engine and record the
      time the run ended at as the start time of production. */
  function Converge(c: Setup, s: Snapshot, member: int, iteration: int): Result<Snapshot>
  {
    var fs1 :- MoveCpt(s.fs, member, iteration, "convergence");
    var run :- Next(s.engine);
    if run.potentials == [] then Err(IndexError)
    else
      var p1 :- SetGeneral(s.p, [("start_time", JReal(run.potentials[0].time))]);
      Ok(s.(p := p1, fs := fs1, engine := s.engine[1..]))
  }

  /** `__production`: bring the checkpoint over and run the engine up to the
      end time `production_time + start_time`, which is returned with the
      new state. */
  function Production(c: Setup, s: Snapshot, member: int, iteration: int, phase: string): Result<(Snapshot, real)>
  {
    var fs1 :- MoveCpt(s.fs, member, iteration, phase);
    var productionTime :- Num(s.p, "production_time", None);
    var startTime :- Num(s.p, "start_time", None);
    var _ :- Next(s.engine);
    Ok((s.(fs := fs1, engine := s.engine[1..]), productionTime + startTime))
  }

  /** The phase stored in the parameters, as a string. */
  function Phase(p: Params): Result<string>
  {
    var ph :- Get(p, "phase", None);
    if ph.JStr? then Ok(ph.s) else Err(TypeError)
  }

  /** The training branch of `run`. */
  function TrainingPhase(c: Setup, s: Snapshot, member: int, iteration: int, targets: map<string, real>): Result<Snapshot>
  {
    var s1 :- Train(c, s.(fs := MoveDict(s.fs, member, c.dictJson)), member, iteration, targets);
    var s2 :- DatDict(c, s1, member);
    var s3 :- RetrainLoop(c, s2, member, iteration);
    var p :- SetGeneral(s3.p, [("phase", JStr("convergence"))]);
    Ok(s3.(p := p))
  }

  /** The convergence branch of `run`. */
  function ConvergencePhase(c: Setup, s: Snapshot, member: int, iteration: int): Result<Snapshot>
  {
    var s1 :- Converge(c, s, member, iteration);
    var p :- SetGeneral(s1.p, [("phase", JStr("production"))]);
    Ok(s1.(p := p))
  }

  /** The production branch of `run` (taken for any phase other than
      training and convergence). */
  function ProductionPhase(c: Setup, s: Snapshot, member: int, iteration: int, phase: string): Result<Snapshot>
  {
    var r :- Production(c, s, member, iteration, phase);
    var p :- SetGeneral(r.0.p, [("phase", JStr("training")), ("start_time", JInt(0)),
                                ("iteration", JInt(iteration + 1))]);
    Ok(r.0.(p := p))
  }

  /** The phase a run executes. */
  function PhaseStep(c: Setup, s: Snapshot, member: int, iteration: int, phase: string,
                     targets: map<string, real>): Result<Snapshot>
  {
    if phase == "training" then TrainingPhase(c, s, member, iteration, targets)
    else if phase == "convergence" then ConvergencePhase(c, s, member, iteration)
    else ProductionPhase(c, s, member, iteration, phase)
  }

  /** `run`: execute the current phase in the directory of (member,
      iteration, phase), move to the next phase and save the state. */
  function Run(c: Setup, s: Snapshot, targets: map<string, real>): Result<Snapshot>
  {
    var phase :- Phase(s.p);
    var member :- Int(s.p, "ensemble_num");
    var iteration :- Int(s.p, "iteration");
    var s1 :- PhaseStep(c, s, member, iteration, phase, targets);
    Ok(s1.(fs := SaveConfig(s1.fs, c.stateFile, s1.p)))
  }

  // ---------------------------------------------------------------- properties

  /** Proof helper: the steps `Train` takes, one by one, unfolded for the
      lemmas below; it states nothing beyond the definition. */
  lemma TrainSteps(c: Setup, s: Snapshot, member: int, iteration: int, targets: map<string, real>)
    requires Train(c, s, member, iteration, targets).Ok?
    ensures SetTargets(s.p, c.names, targets).Ok?
    ensures var p1 := SetTargets(s.p, c.names, targets).value;
            var fs1 := BackupCpt(SaveConfig(s.fs, c.stateFile, p1), member, iteration, "training");
            SeedNames(p1, fs1, member, c.names).Ok? && s.engine != [] &&
            var p2 := SeedNames(p1, fs1, member, c.names).value;
            ApplyPotentials(p2, s.engine[0].potentials, |c.names|).Ok? &&
            Train(c, s, member, iteration, targets).value ==
              s.(p := ApplyPotentials(p2, s.engine[0].potentials, |c.names|).value,
                 fs := WithLogs(fs1, member, iteration, s.engine[0].logs), engine := s.engine[1..])
  {
  }

  /** Training saves the sampled targets to the state file before the engine
      runs; the engine's run is consumed and nothing else of the snapshot but
      the parameters and files changes. */
  lemma TrainSavesTargets(c: Setup, s: Snapshot, member: int, iteration: int, targets: map<string, real>)
    requires Distinct(c.names) && c.stateFile.StateFile?
    requires Train(c, s, member, iteration, targets).Ok?
    ensures var r := Train(c, s, member, iteration, targets).value;
            var saved := SetTargets(s.p, c.names, targets).value;
            c.stateFile in r.fs && r.fs[c.stateFile] == StateDoc(AsDictionary(saved)) &&
            r.engine == s.engine[1..] && r.mem == s.mem && r.sampleCount == s.sampleCount &&
            r.retrainCount == s.retrainCount &&
            saved.general == s.p.general && saved.pairs.Keys == s.p.pairs.Keys &&
            forall n :: n in c.names ==>
              n in targets && n in s.p.pairs && saved.pairs[n] == s.p.pairs[n]["target" := JReal(targets[n])]
  {
    TrainSteps(c, s, member, iteration, targets);
    SetTargetsEffect(s.p, c.names, targets);
  }

  /** During training each restraint runs with the A that `Seed` gives for
      its sampled target from the memory file, or its old A when there is
      none; the engine changes only alphas and targets. */
  lemma {:induction false} TrainSeedsA(c: Setup, s: Snapshot, member: int, iteration: int, targets: map<string, real>)
    requires Distinct(c.names) && c.stateFile.StateFile?
    requires Train(c, s, member, iteration, targets).Ok?
    ensures var r := Train(c, s, member, iteration, targets).value;
            var saved := SetTargets(s.p, c.names, targets).value;
            r.p.general == s.p.general && r.p.pairs.Keys == s.p.pairs.Keys &&
            forall n :: n in c.names ==>
              n in s.p.pairs && n in r.p.pairs && SeedFor(saved, s.fs, member, n).Ok? &&
              r.p.pairs[n] - {"alpha", "target"} ==
                Seeded(s.p.pairs[n], SeedFor(saved, s.fs, member, n).value) - {"alpha", "target"}
    ensures s.engine != [] &&
            var r := Train(c, s, member, iteration, targets).value;
            var saved := SetTargets(s.p, c.names, targets).value;
            forall n :: n in c.names ==>
              n in saved.pairs && n in r.p.pairs && SeedFor(saved, s.fs, member, n).Ok? &&
              r.p.pairs[n] == EngineEntry(Seeded(saved.pairs[n], SeedFor(saved, s.fs, member, n).value),
                                          s.engine[0].potentials, |c.names|, n)
  {
    TrainSteps(c, s, member, iteration, targets);
    var p1 := SetTargets(s.p, c.names, targets).value;
    SetTargetsEffect(s.p, c.names, targets);
    var fs1 := BackupCpt(SaveConfig(s.fs, c.stateFile, p1), member, iteration, "training");
    SeedNamesEffect(p1, fs1, member, c.names);
    var p2 := SeedNames(p1, fs1, member, c.names).value;
    ApplyPotentialsKeeps(p2, s.engine[0].potentials, |c.names|);
    ApplyPotentialsEntries(p2, s.engine[0].potentials, |c.names|);
    var r := Train(c, s, member, iteration, targets).value;
    assert MemoryFile(member) in fs1 <==> MemoryFile(member) in s.fs;
    assert MemoryFile(member) in s.fs ==> fs1[MemoryFile(member)] == s.fs[MemoryFile(member)];
    forall n | n in c.names
      ensures SeedFor(p1, s.fs, member, n).Ok?
      ensures r.p.pairs[n] - {"alpha", "target"} == Seeded(s.p.pairs[n], SeedFor(p1, s.fs, member, n).value) - {"alpha", "target"}
      ensures r.p.pairs[n] == EngineEntry(Seeded(p1.pairs[n], SeedFor(p1, s.fs, member, n).value),
                                          s.engine[0].potentials, |c.names|, n)
    {
      SeedForFiles(p1, fs1, s.fs, member, n);
      var sd := SeedFor(p1, s.fs, member, n).value;
      assert p2.pairs[n] == Seeded(p1.pairs[n], sd);
      SeededOtherKeys(s.p.pairs[n], JReal(targets[n]), sd);
    }
  }

  /** Proof helper: the steps `Retrain` takes, one by one, unfolded for the
      lemmas below; it states nothing beyond the definition. */
  lemma RetrainSteps(c: Setup, s: Snapshot, member: int, iteration: int)
    requires Retrain(c, s, member, iteration).Ok?
    ensures LoadConfig(s.p, s.fs, c.stateFile).1.None?
    ensures var p1 := LoadConfig(s.p, s.fs, c.stateFile).0;
            ResetTargets(p1, c.names).Ok? &&
            var p2 := ResetTargets(p1, c.names).value;
            var fs1 := SaveConfig(s.fs, c.stateFile, p2);
            SeedNames(p2, fs1, member, c.names).Ok? && s.engine != [] &&
            var p3 := SeedNames(p2, fs1, member, c.names).value;
            ApplyPotentials(p3, s.engine[0].potentials, |c.names|).Ok? &&
            Retrain(c, s, member, iteration).value ==
              s.(p := ApplyPotentials(p3, s.engine[0].potentials, |c.names|).value,
                 fs := WithLogs(BackupCpt(fs1, member, iteration, "training"), member, iteration, s.engine[0].logs),
                 engine := s.engine[1..], retrainCount := if s.retrainCount == 6 then 1 else s.retrainCount)
  {
  }

  /** Retraining starts from the state file, not from the parameters in
      memory: two snapshots that differ only in their parameters retrain
      identically when the state file holds a saved store covering both.  In
      particular the 1.1 x A that `__datDict` stored in memory is discarded. */
  lemma RetrainReadsSavedState(c: Setup, s: Snapshot, p': Params, member: int, iteration: int, saved: Params)
    requires c.stateFile in s.fs && s.fs[c.stateFile] == StateDoc(AsDictionary(saved))
    requires s.p.pairs.Keys <= saved.pairs.Keys && p'.pairs.Keys <= saved.pairs.Keys
    ensures Retrain(c, s, member, iteration) == Retrain(c, s.(p := p'), member, iteration)
  {
    SaveLoadRoundTrip(saved, s.p);
    SaveLoadRoundTrip(saved, p');
    assert LoadConfig(s.p, s.fs, c.stateFile) == LoadConfig(p', s.fs, c.stateFile);
    assert Reload(c, s, member) == Reload(c, s.(p := p'), member);
  }

  /** Retraining trains with the targets of the state file and leaves the
      state file as it found it. */
  lemma RetrainKeepsStateFile(c: Setup, s: Snapshot, member: int, iteration: int, saved: Params)
    requires c.stateFile.StateFile?
    requires c.stateFile in s.fs && s.fs[c.stateFile] == StateDoc(AsDictionary(saved))
    requires s.p.pairs.Keys <= saved.pairs.Keys
    requires Retrain(c, s, member, iteration).Ok?
    ensures var r := Retrain(c, s, member, iteration).value;
            c.stateFile in r.fs && r.fs[c.stateFile] == s.fs[c.stateFile]
  {
    RetrainSteps(c, s, member, iteration);
    SaveLoadRoundTrip(saved, s.p);
    ResetTargetsIdentity(saved, c.names);
  }

  /** `__datDict` writes the memory it built back to the memory file, starts
      from a fresh memory when the file was empty, records every restraint as
      `Recorded` says, and leaves the sample count above 400 exactly when some
      restraint's training log reports more than 400 samples. */
  lemma DatDictEffect(c: Setup, s: Snapshot, member: int)
    requires Distinct(c.names)
    requires DatDict(c, s, member).Ok?
    ensures MemoryFrom(c, s.fs, member).Ok?
    ensures var r := DatDict(c, s, member).value;
            var mem := MemoryFrom(c, s.fs, member).value;
            MemoryFile(member) in s.fs &&
            (s.fs[MemoryFile(member)].EmptyFile? ==> mem == InitMemory(c.names)) &&
            (s.fs[MemoryFile(member)].MemoryDoc? ==> mem == s.fs[MemoryFile(member)].mem) &&
            MemoryFile(member) in r.fs && r.fs[MemoryFile(member)].MemoryDoc? && r.fs[MemoryFile(member)].mem == r.mem &&
            OnlyChanged(s.fs, r.fs, MemoryFile(member)) &&
            (r.sampleCount > SampleThreshold <==> SomeFailed(s.p, s.fs, member, c.names)) &&
            r.mem.Keys == mem.Keys &&
            (forall n :: n in c.names ==>
               Recorded(Recorder(mem, s.p, 0.0), Recorder(r.mem, r.p, r.sampleCount), s.fs, member, n, s.retrainCount)) &&
            (forall n :: n in mem && n !in c.names ==> r.mem[n] == mem[n])
  {
    var mem := MemoryFrom(c, s.fs, member).value;
    RecordNamesEffect(Recorder(mem, s.p, 0.0), s.fs, member, c.names, s.retrainCount);
    RecordNamesSampleCount(Recorder(mem, s.p, 0.0), s.fs, member, c.names, s.retrainCount);
  }

  /** The retrain loop stops only on a converged attempt; starting with a
      counter in 0..5 it keeps the counter in 0..5, and in 1..5 once it has
      retrained at all. */
  lemma {:induction false} RetrainLoopEnds(c: Setup, s: Snapshot, member: int, iteration: int)
    requires RetrainLoop(c, s, member, iteration).Ok?
    ensures var r := RetrainLoop(c, s, member, iteration).value;
            r.sampleCount <= SampleThreshold &&
            (s.sampleCount <= SampleThreshold ==> r == s) &&
            (0 <= s.retrainCount <= 5 ==> 0 <= r.retrainCount <= 5) &&
            (0 <= s.retrainCount <= 5 && s.sampleCount > SampleThreshold ==> 1 <= r.retrainCount <= 5)
    decreases |s.engine|
  {
    if s.sampleCount > SampleThreshold {
      var s1 := RetrainOnce(c, s, member, iteration).value;
      RetrainLoopEnds(c, s1, member, iteration);
    }
  }

  /** Training keeps the general parameters, and leaves them in the state
      file `mem_<m>/state.json`. */
  lemma TrainKeepsGeneral(c: Setup, s: Snapshot, member: int, iteration: int, targets: map<string, real>)
    requires c.stateFile.StateFile?
    requires Train(c, s, member, iteration, targets).Ok?
    ensures var r := Train(c, s, member, iteration, targets).value;
            r.p.general == s.p.general && StoredGeneral(r.fs, c.stateFile) == Some(s.p.general)
  {
    TrainSteps(c, s, member, iteration, targets);
    var p1 := SetTargets(s.p, c.names, targets).value;
    SetTargetsEffect(s.p, c.names, targets);
    var fs1 := BackupCpt(SaveConfig(s.fs, c.stateFile, p1), member, iteration, "training");
    SeedNamesKeepsGeneral(p1, fs1, member, c.names);
    var p2 := SeedNames(p1, fs1, member, c.names).value;
    ApplyPotentialsKeeps(p2, s.engine[0].potentials, |c.names|);
    StoredGeneralLoadSave(p1, p1, s.fs, c.stateFile);
  }

  /** Retraining takes its general parameters from the state file
      `mem_<m>/state.json` and leaves that file's general parameters as they
      were. */
  lemma RetrainKeepsGeneral(c: Setup, s: Snapshot, member: int, iteration: int)
    requires c.stateFile.StateFile?
    requires Retrain(c, s, member, iteration).Ok?
    ensures StoredGeneral(s.fs, c.stateFile).Some?
    ensures var r := Retrain(c, s, member, iteration).value;
            r.p.general == StoredGeneral(s.fs, c.stateFile).value &&
            StoredGeneral(r.fs, c.stateFile) == StoredGeneral(s.fs, c.stateFile)
  {
    RetrainSteps(c, s, member, iteration);
    var p1 := LoadConfig(s.p, s.fs, c.stateFile).0;
    StoredGeneralLoadSave(p1, s.p, s.fs, c.stateFile);
    ResetTargetsIdentity(p1, c.names);
    var fs1 := SaveConfig(s.fs, c.stateFile, p1);
    StoredGeneralLoadSave(p1, s.p, s.fs, c.stateFile);
    SeedNamesKeepsGeneral(p1, fs1, member, c.names);
    var p3 := SeedNames(p1, fs1, member, c.names).value;
    ApplyPotentialsKeeps(p3, s.engine[0].potentials, |c.names|);
  }

  /** `__datDict` keeps the general parameters, and the state file's. */
  lemma DatDictKeepsGeneral(c: Setup, s: Snapshot, member: int)
    requires c.stateFile.StateFile?
    requires DatDict(c, s, member).Ok?
    ensures var r := DatDict(c, s, member).value;
            r.p.general == s.p.general && StoredGeneral(r.fs, c.stateFile) == StoredGeneral(s.fs, c.stateFile)
  {
    var mem := MemoryFrom(c, s.fs, member).value;
    RecordNamesKeepsGeneral(Recorder(mem, s.p, 0.0), s.fs, member, c.names, s.retrainCount);
  }

  /** The retrain loop keeps the general parameters when the state file
      `mem_<m>/state.json` holds them: every retrain reloads them from there. */
  lemma {:induction false} RetrainLoopKeepsGeneral(c: Setup, s: Snapshot, member: int, iteration: int)
    requires c.stateFile.StateFile? && StoredGeneral(s.fs, c.stateFile) == Some(s.p.general)
    requires RetrainLoop(c, s, member, iteration).Ok?
    ensures var r := RetrainLoop(c, s, member, iteration).value;
            r.p.general == s.p.general && StoredGeneral(r.fs, c.stateFile) == Some(s.p.general)
    decreases |s.engine|
  {
    if s.sampleCount > SampleThreshold {
      var s0 := Counted(s);
      var s1 := Retrain(c, s0, member, iteration).value;
      RetrainKeepsGeneral(c, s0, member, iteration);
      DatDictKeepsGeneral(c, s1, member);
      var s2 := RetrainOnce(c, s, member, iteration).value;
      assert s2 == DatDict(c, s1, member).value;
      RetrainLoopKeepsGeneral(c, s2, member, iteration);
    }
  }

  /** Setting one general key makes `get` return it. */
  lemma SetGeneralOne(p: Params, key: string, v: Json)
    requires key in GeneralRequirements
    ensures SetGeneral(p, [(key, v)]).Ok?
    ensures SetGeneral(p, [(key, v)]).value == p.(general := p.general[key := v])
  {
    SetGeneralEffect(p, [(key, v)]);
    assert Assign(p.general, [(key, v)]) == Assign(p.general[key := v], []);
  }

  /** The training branch ends in the convergence phase, and only once an
      attempt has converged. */
  lemma TrainingPhaseEffect(c: Setup, s: Snapshot, member: int, iteration: int, targets: map<string, real>)
    requires TrainingPhase(c, s, member, iteration, targets).Ok?
    ensures var r := TrainingPhase(c, s, member, iteration, targets).value;
            Phase(r.p) == Ok("convergence") && r.sampleCount <= SampleThreshold
    ensures c.stateFile.StateFile? ==>
              TrainingPhase(c, s, member, iteration, targets).value.p.general ==
                s.p.general["phase" := JStr("convergence")]
  {
    var s0 := s.(fs := MoveDict(s.fs, member, c.dictJson));
    var s1 := Train(c, s0, member, iteration, targets).value;
    var s2 := DatDict(c, s1, member).value;
    var s3 := RetrainLoop(c, s2, member, iteration).value;
    RetrainLoopEnds(c, s2, member, iteration);
    SetGeneralOne(s3.p, "phase", JStr("convergence"));
    if c.stateFile.StateFile? {
      TrainKeepsGeneral(c, s0, member, iteration, targets);
      DatDictKeepsGeneral(c, s1, member);
      RetrainLoopKeepsGeneral(c, s2, member, iteration);
    }
  }

  /** The convergence branch ends in the production phase, with the time the
      engine's first potential ended at as start time. */
  lemma ConvergencePhaseEffect(c: Setup, s: Snapshot, member: int, iteration: int)
    requires ConvergencePhase(c, s, member, iteration).Ok?
    ensures var r := ConvergencePhase(c, s, member, iteration).value;
            Phase(r.p) == Ok("production") && s.engine != [] && s.engine[0].potentials != [] &&
            Get(r.p, "start_time", None) == Ok(JReal(s.engine[0].potentials[0].time))
    ensures s.engine != [] && s.engine[0].potentials != [] &&
            ConvergencePhase(c, s, member, iteration).value.p.general ==
              s.p.general["start_time" := JReal(s.engine[0].potentials[0].time)]["phase" := JStr("production")]
  {
    var s1 := Converge(c, s, member, iteration).value;
    SetGeneralOne(s.p, "start_time", JReal(s.engine[0].potentials[0].time));
    SetGeneralOne(s1.p, "phase", JStr("production"));
  }

  /** The production branch ends in the training phase of the next iteration,
      with start time 0. */
  lemma ProductionPhaseEffect(c: Setup, s: Snapshot, member: int, iteration: int, phase: string)
    requires ProductionPhase(c, s, member, iteration, phase).Ok?
    ensures var r := ProductionPhase(c, s, member, iteration, phase).value;
            Phase(r.p) == Ok("training") && Get(r.p, "start_time", None) == Ok(JInt(0)) &&
            Get(r.p, "iteration", None) == Ok(JInt(iteration + 1))
  {
    var r := Production(c, s, member, iteration, phase).value;
    var kw := [("phase", JStr("training")), ("start_time", JInt(0)), ("iteration", JInt(iteration + 1))];
    SetGeneralEffect(r.0.p, kw);
    var g0 := r.0.p.general["phase" := JStr("training")];
    var g1 := g0["start_time" := JInt(0)];
    var g2 := g1["iteration" := JInt(iteration + 1)];
    assert Assign(r.0.p.general, kw) == Assign(g0, kw[1..]);
    assert Assign(g0, kw[1..]) == Assign(g1, kw[2..]);
    assert Assign(g1, kw[2..]) == Assign(g2, []);
  }

  /** `run` moves training to convergence (and only once an attempt has
      converged), convergence to production with the engine's end time as
      start time, and any other phase to training with start time 0 and the
      next iteration. */
  lemma RunPhases(c: Setup, s: Snapshot, targets: map<string, real>)
    requires Run(c, s, targets).Ok?
    ensures Phase(s.p).Ok? && Int(s.p, "iteration").Ok?
    ensures var r := Run(c, s, targets).value;
            (Phase(s.p).value == "training" ==>
               Phase(r.p) == Ok("convergence") && r.sampleCount <= SampleThreshold) &&
            (Phase(s.p).value == "training" && c.stateFile.StateFile? ==>
               Get(r.p, "iteration", None) == Get(s.p, "iteration", None) &&
               Get(r.p, "ensemble_num", None) == Get(s.p, "ensemble_num", None)) &&
            (Phase(s.p).value == "convergence" ==>
               Phase(r.p) == Ok("production") && s.engine != [] && s.engine[0].potentials != [] &&
               Get(r.p, "start_time", None) == Ok(JReal(s.engine[0].potentials[0].time)) &&
               Get(r.p, "iteration", None) == Get(s.p, "iteration", None) &&
               Get(r.p, "ensemble_num", None) == Get(s.p, "ensemble_num", None)) &&
            (Phase(s.p).value != "training" && Phase(s.p).value != "convergence" ==>
               Phase(r.p) == Ok("training") && Get(r.p, "start_time", None) == Ok(JInt(0)) &&
               Get(r.p, "iteration", None) == Ok(JInt(Int(s.p, "iteration").value + 1)))
  {
    var phase := Phase(s.p).value;
    var member := Int(s.p, "ensemble_num").value;
    var iteration := Int(s.p, "iteration").value;
    var s1 := PhaseStep(c, s, member, iteration, phase, targets).value;
    assert Run(c, s, targets).value.p == s1.p && Run(c, s, targets).value.sampleCount == s1.sampleCount;
    if phase == "training" {
      TrainingPhaseEffect(c, s, member, iteration, targets);
    } else if phase == "convergence" {
      ConvergencePhaseEffect(c, s, member, iteration);
    } else {
      ProductionPhaseEffect(c, s, member, iteration, phase);
    }
  }

  /** Proof helper: a run from training reaches convergence at the same
      iteration. */
  lemma RunFromTraining(c: Setup, s: Snapshot, t: map<string, real>, r: Snapshot)
    requires c.stateFile.StateFile? && Phase(s.p) == Ok("training") && Run(c, s, t) == Ok(r)
    ensures Phase(r.p) == Ok("convergence") && Get(r.p, "iteration", None) == Get(s.p, "iteration", None)
  {
    RunPhases(c, s, t);
  }

  /** Proof helper: a run from convergence reaches production at the same
      iteration. */
  lemma RunFromConvergence(c: Setup, s: Snapshot, t: map<string, real>, r: Snapshot)
    requires Phase(s.p) == Ok("convergence") && Run(c, s, t) == Ok(r)
    ensures Phase(r.p) == Ok("production") && Get(r.p, "iteration", None) == Get(s.p, "iteration", None)
  {
    RunPhases(c, s, t);
  }

  /** Proof helper: a run from production at iteration i reaches training at
      iteration i + 1 with start time 0. */
  lemma RunFromProduction(c: Setup, s: Snapshot, t: map<string, real>, r: Snapshot, i: int)
    requires Phase(s.p) == Ok("production") && Get(s.p, "iteration", None) == Ok(JInt(i)) && Run(c, s, t) == Ok(r)
    ensures Phase(r.p) == Ok("training") && Get(r.p, "start_time", None) == Ok(JInt(0)) &&
            Get(r.p, "iteration", None) == Ok(JInt(i + 1))
  {
    RunPhases(c, s, t);
  }

  /** The phase cycle: three runs from training at iteration i, with the
      state file `mem_<m>/state.json`, go through convergence and production
      and come back to training at iteration i + 1 with start time 0. */
  lemma PhaseCycle(c: Setup, s: Snapshot, r1: Snapshot, r2: Snapshot, r3: Snapshot,
                   t1: map<string, real>, t2: map<string, real>, t3: map<string, real>, i: int)
    requires c.stateFile.StateFile? && Phase(s.p) == Ok("training") && Get(s.p, "iteration", None) == Ok(JInt(i))
    requires Run(c, s, t1) == Ok(r1) && Run(c, r1, t2) == Ok(r2) && Run(c, r2, t3) == Ok(r3)
    ensures Phase(r1.p) == Ok("convergence") && Phase(r2.p) == Ok("production") && Phase(r3.p) == Ok("training")
    ensures Get(r3.p, "start_time", None) == Ok(JInt(0)) && Get(r3.p, "iteration", None) == Ok(JInt(i + 1))
  {
    RunFromTraining(c, s, t1, r1);
    RunFromConvergence(c, r1, t2, r2);
    RunFromProduction(c, r2, t3, r3, i);
  }

  /** No phase but training, convergence and production comes out of `run`. */
  lemma RunPhaseValues(c: Setup, s: Snapshot, targets: map<string, real>)
    requires Run(c, s, targets).Ok?
    ensures Phase(Run(c, s, targets).value.p).Ok?
    ensures Phase(Run(c, s, targets).value.p).value in {"training", "convergence", "production"}
  {
    RunPhases(c, s, targets);
  }

  /** `run` ends by saving the final parameters to the state file. */
  lemma RunSavesState(c: Setup, s: Snapshot, targets: map<string, real>)
    requires Run(c, s, targets).Ok?
    ensures var r := Run(c, s, targets).value;
            c.stateFile in r.fs && r.fs[c.stateFile] == StateDoc(AsDictionary(r.p))
  {
  }

  /** The production run that follows a convergence run ends at
      `production_time` plus the time the convergence run ended at. */
  lemma ProductionEndTime(c: Setup, s: Snapshot, targets: map<string, real>, member: int, iteration: int, phase: string)
    requires Phase(s.p) == Ok("convergence")
    requires Run(c, s, targets).Ok?
    requires Production(c, Run(c, s, targets).value, member, iteration, phase).Ok?
    ensures s.engine != [] && s.engine[0].potentials != []
    ensures Num(s.p, "production_time", None).Ok?
    ensures Production(c, Run(c, s, targets).value, member, iteration, phase).value.1 ==
            Num(s.p, "production_time", None).value + s.engine[0].potentials[0].time
  {
    RunPhases(c, s, targets);
    var m := Int(s.p, "ensemble_num").value;
    var it := Int(s.p, "iteration").value;
    var s1 := Converge(c, s, m, it).value;
    SetGeneralOne(s.p, "start_time", JReal(s.engine[0].potentials[0].time));
    SetGeneralOne(s1.p, "phase", JStr("production"));
  }
}
