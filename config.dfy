/** The RunConfig object of run_brer/run_config.py: one ensemble member's
    workflow state, changed in place by its methods.  Every method is proved
    to leave the object in the state the corresponding function of
    `Workflow` computes from the state it started in; what those functions
    guarantee is proved in `Workflow` and `Steps`.  The MD engine is the
    field `engine`, the sequence of results its future runs give back. */
module Config {
  import opened Values
  import opened RunParams
  import opened BiasMemory
  import opened Files
  import opened Steps
  import opened Workflow

  class RunConfig {
    const setup: Setup
    const runData: RunData
    var fs: FileSystem
    var engine: seq<EngineRun>
    var j: Memory
    var sampleCount: real
    var retrainCount: int

    /** The whole state the workflow reads and changes. */
    function Current(): Snapshot
      reads this, runData
    {
      Snapshot(runData.Value(), fs, engine, j, sampleCount, retrainCount)
    }

    constructor Init(setup: Setup, runData: RunData, fs: FileSystem, engine: seq<EngineRun>)
      ensures this.setup == setup && this.runData == runData
      ensures this.fs == fs && this.engine == engine
      ensures j == map[] && sampleCount == 0.0 && retrainCount == 0
    {
      this.setup := setup;
      this.runData := runData;
      this.fs := fs;
      this.engine := engine;
      j := map[];
      sampleCount := 0.0;
      retrainCount := 0;
    }

    /** The body of `__init__` (the same in both run classes): set the
        ensemble number, then resume from the state file or start from the
        pair data and save. */
    static method Start(pairs: seq<PairData>, ensembleNum: int, fs: FileSystem)
      returns (r: Result<(RunData, FileSystem)>)
      ensures r.Ok? <==> Initial(pairs, ensembleNum, fs).Ok?
      ensures r.Ok? ==> fresh(r.value.0) && (r.value.0.Value(), r.value.1) == Initial(pairs, ensembleNum, fs).value
    {
      var rd := new RunData();
      SetGeneralOne(rd.Value(), "ensemble_num", JInt(ensembleNum));
      var err := rd.Set(None, [("ensemble_num", JInt(ensembleNum))]);
      assert err.None?;
      var path := StateFile(ensembleNum);
      var files := fs;
      if path in fs {
        if !fs[path].StateDoc? {
          return Err(DecodeError);
        }
        err := rd.FromDictionary(fs[path].doc);
        if err.Some? {
          return Err(err.value);
        }
      } else {
        ghost var p0 := rd.Value();
        var i := 0;
        while i < |pairs|
          invariant 0 <= i <= |pairs|
          invariant WithPairs(p0, pairs) == WithPairs(rd.Value(), pairs[i..])
        {
          assert pairs[i..][1..] == pairs[i + 1..];
          rd.FromPairData(pairs[i]);
          i := i + 1;
        }
        files := SaveConfig(fs, path, rd.Value());
      }
      return Ok((rd, files));
    }

    /** `__init__` of run_config.py. */
    static method Create(pairs: seq<PairData>, ensembleNum: int, dictJson: int, fs: FileSystem,
                         engine: seq<EngineRun>) returns (r: Result<RunConfig>)
      ensures r.Ok? <==> Initial(pairs, ensembleNum, fs).Ok?
      ensures r.Ok? ==>
                fresh(r.value) && fresh(r.value.runData) &&
                r.value.setup == Setup(PairNames(pairs), StateFile(ensembleNum), dictJson) &&
                r.value.Current() == Snapshot(Initial(pairs, ensembleNum, fs).value.0,
                                              Initial(pairs, ensembleNum, fs).value.1, engine, map[], 0.0, 0)
    {
      var started :- Start(pairs, ensembleNum, fs);
      var c := new RunConfig.Init(Setup(PairNames(pairs), StateFile(ensembleNum), dictJson), started.0, started.1, engine);
      return Ok(c);
    }

    /** `run_data.save_config(self.state_json)`. */
    method Save()
      modifies this`fs
      ensures fs == SaveConfig(old(fs), setup.stateFile, runData.Value())
    {
      fs := fs[setup.stateFile := StateDoc(AsDictionary(runData.Value()))];
    }

    /** One engine run: its results, or a failure once the engine has nothing
        more to give. */
    method RunEngine() returns (r: Result<EngineRun>)
      modifies this`engine
      ensures r == Next(old(engine))
      ensures engine == if old(engine) == [] then old(engine) else old(engine)[1..]
    {
      if engine == [] {
        return Err(EngineFailure);
      }
      r := Ok(engine[0]);
      engine := engine[1..];
    }

    /** The re-sampling loop of `__train`. */
    method ResampleTargets(targets: map<string, real>) returns (r: Result<()>)
      modifies runData
      ensures r.Ok? <==> SetTargets(old(runData.Value()), setup.names, targets).Ok?
      ensures r.Ok? ==> runData.Value() == SetTargets(old(runData.Value()), setup.names, targets).value
    {
      var i := 0;
      while i < |setup.names|
        invariant 0 <= i <= |setup.names|
        invariant SetTargets(old(runData.Value()), setup.names, targets) ==
                  SetTargets(runData.Value(), setup.names[i..], targets)
      {
        var name := setup.names[i];
        assert setup.names[i..][1..] == setup.names[i + 1..];
        if name !in targets {
          return Err(KeyError(name));
        }
        SetPairIsSet(runData.Value(), name, "target", JReal(targets[name]));
        var err := runData.Set(Some(name), [("target", JReal(targets[name]))]);
        if err.Some? {
          return Err(err.value);
        }
        i := i + 1;
      }
      return Ok(());
    }

    /** The "original targets" loop of `__retrain`; it changes nothing. */
    method RestoreTargets() returns (r: Result<()>)
      modifies runData
      ensures r.Ok? <==> ResetTargets(old(runData.Value()), setup.names).Ok?
      ensures r.Ok? ==> runData.Value() == old(runData.Value())
    {
      ghost var p0 := runData.Value();
      var i := 0;
      while i < |setup.names|
        invariant 0 <= i <= |setup.names|
        invariant ResetTargets(p0, setup.names) == ResetTargets(runData.Value(), setup.names[i..])
      {
        var name := setup.names[i];
        assert setup.names[i..][1..] == setup.names[i + 1..];
        var t :- PairGet(runData.Value(), name, "target");
        SetPairIsSet(runData.Value(), name, "target", t);
        var err := runData.Set(Some(name), [("target", t)]);
        assert err.None?;
        i := i + 1;
      }
      ResetTargetsIdentity(p0, setup.names);
      return Ok(());
    }

    /** The seeding loop of `__train` and `__retrain`: dict.json is opened
        for each restraint, and A is set from the memory of its target. */
    method SeedFromMemory(member: int) returns (r: Result<()>)
      modifies runData
      ensures r.Ok? <==> SeedNames(old(runData.Value()), fs, member, setup.names).Ok?
      ensures r.Ok? ==> runData.Value() == SeedNames(old(runData.Value()), fs, member, setup.names).value
    {
      var i := 0;
      while i < |setup.names|
        invariant 0 <= i <= |setup.names|
        invariant SeedNames(old(runData.Value()), fs, member, setup.names) ==
                  SeedNames(runData.Value(), fs, member, setup.names[i..])
      {
        var name := setup.names[i];
        assert setup.names[i..][1..] == setup.names[i + 1..];
        if MemoryFile(member) !in fs {
          return Err(FileNotFound);
        }
        var content := fs[MemoryFile(member)];
        if content.MemoryDoc? {
          var t :- PairNum(runData.Value(), name, "target");
          var e :- Lookup(content.mem, name);
          var seed := Seed(e, TargetKey(t));
          if seed.Some? {
            SetPairIsSet(runData.Value(), name, "A", JReal(seed.value));
            var err := runData.Set(Some(name), [("A", JReal(seed.value))]);
            // the restraint was found above, so setting its A cannot fail
            assert err.None?;
          }
        } else if !content.EmptyFile? {
          return Err(DecodeError);
        }
        i := i + 1;
      }
      return Ok(());
    }

    /** The loop after each training run: potential i gives its restraint's
        alpha and target. */
    method ApplyResults(pots: seq<Potential>) returns (r: Result<()>)
      modifies runData
      ensures r.Ok? <==> ApplyPotentials(old(runData.Value()), pots, |setup.names|).Ok?
      ensures r.Ok? ==> runData.Value() == ApplyPotentials(old(runData.Value()), pots, |setup.names|).value
    {
      var n := |setup.names|;
      ghost var goal := ApplyPotentials(runData.Value(), pots, n);
      var i := 0;
      while i < n
        invariant 0 <= i <= n && i <= |pots|
        invariant goal == ApplyPotentials(runData.Value(), pots[i..], n - i)
      {
        if i == |pots| {
          return Err(IndexError);
        }
        assert pots[i..][1..] == pots[i + 1..];
        var ok :- ApplyOne(pots[i]);
        i := i + 1;
      }
      return Ok(());
    }

    /** One iteration of that loop. */
    method ApplyOne(pt: Potential) returns (r: Result<()>)
      modifies runData
      ensures r.Ok? <==> ApplyPotential(old(runData.Value()), pt).Ok?
      ensures r.Ok? ==> runData.Value() == ApplyPotential(old(runData.Value()), pt).value
    {
      SetPairIsSet(runData.Value(), pt.name, "alpha", JReal(pt.alpha));
      var err := runData.Set(Some(pt.name), [("alpha", JReal(pt.alpha))]);
      if err.Some? {
        return Err(err.value);
      }
      SetPairIsSet(runData.Value(), pt.name, "target", JReal(pt.target));
      err := runData.Set(Some(pt.name), [("target", JReal(pt.target))]);
      assert err.None?;
      return Ok(());
    }

    /** The engine run of `__train` and `__retrain`. */
    method TrainingRun(member: int, iteration: int) returns (r: Result<()>)
      modifies this, runData
      ensures r.Ok? <==> Workflow.TrainingRun(setup, old(Current()), member, iteration).Ok?
      ensures r.Ok? ==> Current() == Workflow.TrainingRun(setup, old(Current()), member, iteration).value
    {
      var run :- RunEngine();
      fs := WithLogs(fs, member, iteration, run.logs);
      var ok :- ApplyResults(run.potentials);
      return Ok(());
    }

    /** `__train`, in the phase directory of (member, iteration). */
    method Train(member: int, iteration: int, targets: map<string, real>) returns (r: Result<()>)
      modifies this, runData
      ensures r.Ok? <==> Workflow.Train(setup, old(Current()), member, iteration, targets).Ok?
      ensures r.Ok? ==> Current() == Workflow.Train(setup, old(Current()), member, iteration, targets).value
    {
      var ok :- ResampleTargets(targets);
      Save();
      fs := BackupCpt(fs, member, iteration, "training");
      ok :- SeedFromMemory(member);
      ok :- TrainingRun(member, iteration);
      return Ok(());
    }

    /** The first part of `__retrain`: reload, restore the targets, save and
        seed. */
    method Reload(member: int) returns (r: Result<()>)
      modifies this, runData
      ensures r.Ok? <==> Workflow.Reload(setup, old(Current()), member).Ok?
      ensures r.Ok? ==> Current() == Workflow.Reload(setup, old(Current()), member).value
    {
      if setup.stateFile !in fs {
        return Err(FileNotFound);
      }
      if !fs[setup.stateFile].StateDoc? {
        return Err(DecodeError);
      }
      var err := runData.FromDictionary(fs[setup.stateFile].doc);
      if err.Some? {
        return Err(err.value);
      }
      if retrainCount == 6 {
        retrainCount := 1;
      }
      ghost var p1 := runData.Value();
      assert LoadConfig(old(runData.Value()), fs, setup.stateFile) == (p1, None);
      var ok :- RestoreTargets();
      ResetTargetsIdentity(p1, setup.names);
      Save();
      ok :- SeedFromMemory(member);
      return Ok(());
    }

    /** `__retrain`, in the phase directory of (member, iteration). */
    method Retrain(member: int, iteration: int) returns (r: Result<()>)
      modifies this, runData
      ensures r.Ok? <==> Workflow.Retrain(setup, old(Current()), member, iteration).Ok?
      ensures r.Ok? ==> Current() == Workflow.Retrain(setup, old(Current()), member, iteration).value
    {
      var ok :- Reload(member);
      fs := BackupCpt(fs, member, iteration, "training");
      ok :- TrainingRun(member, iteration);
      return Ok(());
    }

    /** The fresh memory `__datDict` builds for an empty dict.json. */
    method FreshMemory() returns (mem: Memory)
      ensures mem == InitMemory(setup.names)
    {
      mem := map[];
      var i := 0;
      while i < |setup.names|
        invariant 0 <= i <= |setup.names|
        invariant mem == map n | n in setup.names[..i] :: Entry(map[], map[])
      {
        assert setup.names[..i + 1] == setup.names[..i] + [setup.names[i]];
        mem := mem[setup.names[i] := Entry(map[], map[])];
        i := i + 1;
      }
      assert setup.names[..i] == setup.names;
    }

    /** One pass of the loop of `__datDict`: the restraint's last log line is
        recorded in `j`, and a failed attempt raises A and the sample count. */
    method RecordOne(member: int, name: string) returns (r: Result<()>)
      modifies this`j, this`sampleCount, runData
      ensures r.Ok? <==> RecordStep(Recorder(old(j), old(runData.Value()), old(sampleCount)), fs, member, name, retrainCount).Ok?
      ensures r.Ok? ==> Recorder(j, runData.Value(), sampleCount) ==
                        RecordStep(Recorder(old(j), old(runData.Value()), old(sampleCount)), fs, member, name, retrainCount).value
    {
      var o :- Observe(runData.Value(), fs, member, name);
      if o.Some? {
        var line := o.value.line;
        var a := o.value.a;
        if line.sampleCount > SampleThreshold {
          sampleCount := line.sampleCount;
          if retrainCount != DoublingCount {
            SetPairIsSet(runData.Value(), name, "A", JReal(Escalated(a, retrainCount)));
            var err := runData.Set(Some(name), [("A", JReal(Escalated(a, retrainCount)))]);
            assert err.None?;
          }
        }
        var e :- Lookup(j, name);
        j := j[name := Record(e, TargetKey(line.target), a, line.sampleCount)];
      }
      return Ok(());
    }

    /** The loop of `__datDict` over every restraint name. */
    method RecordAll(member: int) returns (r: Result<()>)
      modifies this`j, this`sampleCount, runData
      ensures r.Ok? <==> RecordNames(Recorder(old(j), old(runData.Value()), old(sampleCount)), fs, member, setup.names, retrainCount).Ok?
      ensures r.Ok? ==> Recorder(j, runData.Value(), sampleCount) ==
                        RecordNames(Recorder(old(j), old(runData.Value()), old(sampleCount)), fs, member, setup.names, retrainCount).value
    {
      var i := 0;
      while i < |setup.names|
        invariant 0 <= i <= |setup.names|
        invariant RecordNames(Recorder(old(j), old(runData.Value()), old(sampleCount)), fs, member, setup.names, retrainCount) ==
                  RecordNames(Recorder(j, runData.Value(), sampleCount), fs, member, setup.names[i..], retrainCount)
      {
        assert setup.names[i..][1..] == setup.names[i + 1..];
        var ok :- RecordOne(member, setup.names[i]);
        i := i + 1;
      }
      return Ok(());
    }

    /** `__datDict`: record each restraint's outcome in the memory and write
        it to dict.json. */
    method DatDict(member: int) returns (r: Result<()>)
      modifies this, runData
      ensures r.Ok? <==> Workflow.DatDict(setup, old(Current()), member).Ok?
      ensures r.Ok? ==> Current() == Workflow.DatDict(setup, old(Current()), member).value
    {
      if MemoryFile(member) !in fs {
        return Err(FileNotFound);
      }
      var content := fs[MemoryFile(member)];
      if content.EmptyFile? {
        j := FreshMemory();
      } else if content.MemoryDoc? {
        j := content.mem;
      } else {
        return Err(DecodeError);
      }
      ghost var start := Recorder(j, runData.Value(), 0.0);
      assert MemoryFrom(setup, fs, member) == Ok(j);
      sampleCount := 0.0;
      var ok :- RecordAll(member);
      RecordNamesWellFormed(start, fs, member, setup.names, retrainCount);
      fs := fs[MemoryFile(member) := MemoryDoc(j)];
      return Ok(());
    }

    /** `__converge`. */
    method Converge(member: int, iteration: int) returns (r: Result<()>)
      modifies this, runData
      ensures r.Ok? <==> Workflow.Converge(setup, old(Current()), member, iteration).Ok?
      ensures r.Ok? ==> Current() == Workflow.Converge(setup, old(Current()), member, iteration).value
    {
      fs :- MoveCpt(fs, member, iteration, "convergence");
      var run :- RunEngine();
      if run.potentials == [] {
        return Err(IndexError);
      }
      SetGeneralOne(runData.Value(), "start_time", JReal(run.potentials[0].time));
      var err := runData.Set(None, [("start_time", JReal(run.potentials[0].time))]);
      return Ok(());
    }

    /** `__production`: returns the end time the engine runs to. */
    method Production(member: int, iteration: int, phase: string) returns (r: Result<real>)
      modifies this
      ensures r.Ok? <==> Workflow.Production(setup, old(Current()), member, iteration, phase).Ok?
      ensures r.Ok? ==> Current() == Workflow.Production(setup, old(Current()), member, iteration, phase).value.0
      ensures r.Ok? ==> r.value == Workflow.Production(setup, old(Current()), member, iteration, phase).value.1
    {
      fs :- MoveCpt(fs, member, iteration, phase);
      var productionTime :- Num(runData.Value(), "production_time", None);
      var startTime :- Num(runData.Value(), "start_time", None);
      var endTime := productionTime + startTime;
      var run :- RunEngine();
      return Ok(endTime);
    }

    /** The attempt counter of the loop of `run` goes up by one. */
    method CountAttempt()
      modifies this`retrainCount
      ensures Current() == Workflow.Counted(old(Current()))
    {
      retrainCount := retrainCount + 1;
    }

    /** Retrain and record, the body of the loop of `run` after the count. */
    method Attempt(member: int, iteration: int) returns (r: Result<()>)
      modifies this, runData
      ensures r.Ok? <==> Workflow.Attempt(setup, old(Current()), member, iteration).Ok?
      ensures r.Ok? ==> Current() == Workflow.Attempt(setup, old(Current()), member, iteration).value
    {
      var retrained := Retrain(member, iteration);
      if retrained.Err? {
        return Err(retrained.error);
      }
      r := DatDict(member);
    }

    /** One pass of the loop of `run` in the training phase. */
    method RetrainOnce(member: int, iteration: int) returns (r: Result<()>)
      modifies this, runData
      ensures r.Ok? <==> Workflow.RetrainOnce(setup, old(Current()), member, iteration).Ok?
      ensures r.Ok? ==> Current() == Workflow.RetrainOnce(setup, old(Current()), member, iteration).value
    {
      CountAttempt();
      r := Attempt(member, iteration);
    }

    /** The loop of `run` in the training phase. */
    method RetrainUntilConverged(member: int, iteration: int) returns (r: Result<()>)
      modifies this, runData
      ensures r.Ok? <==> RetrainLoop(setup, old(Current()), member, iteration).Ok?
      ensures r.Ok? ==> Current() == RetrainLoop(setup, old(Current()), member, iteration).value
    {
      while sampleCount > SampleThreshold
        invariant RetrainLoop(setup, old(Current()), member, iteration) == RetrainLoop(setup, Current(), member, iteration)
        decreases |engine|
      {
        var ok :- RetrainOnce(member, iteration);
      }
      return Ok(());
    }

    /** The training branch of `run`: train, record, and retrain while the
        last attempt did not converge. */
    method RunTraining(member: int, iteration: int, targets: map<string, real>) returns (r: Result<()>)
      modifies this, runData
      ensures r.Ok? <==> TrainingPhase(setup, old(Current()), member, iteration, targets).Ok?
      ensures r.Ok? ==> Current() == TrainingPhase(setup, old(Current()), member, iteration, targets).value
    {
      fs := MoveDict(fs, member, setup.dictJson);
      var ok :- Train(member, iteration, targets);
      ok :- DatDict(member);
      ok :- RetrainUntilConverged(member, iteration);
      SetGeneralOne(runData.Value(), "phase", JStr("convergence"));
      var err := runData.Set(None, [("phase", JStr("convergence"))]);
      return Ok(());
    }

    /** The convergence branch of `run`. */
    method RunConvergence(member: int, iteration: int) returns (r: Result<()>)
      modifies this, runData
      ensures r.Ok? <==> ConvergencePhase(setup, old(Current()), member, iteration).Ok?
      ensures r.Ok? ==> Current() == ConvergencePhase(setup, old(Current()), member, iteration).value
    {
      var ok :- Converge(member, iteration);
      SetGeneralOne(runData.Value(), "phase", JStr("production"));
      var err := runData.Set(None, [("phase", JStr("production"))]);
      return Ok(());
    }

    /** The production branch of `run`. */
    method RunProduction(member: int, iteration: int, phase: string) returns (r: Result<()>)
      modifies this, runData
      ensures r.Ok? <==> ProductionPhase(setup, old(Current()), member, iteration, phase).Ok?
      ensures r.Ok? ==> Current() == ProductionPhase(setup, old(Current()), member, iteration, phase).value
    {
      var endTime :- Production(member, iteration, phase);
      var kwargs := [("phase", JStr("training")), ("start_time", JInt(0)), ("iteration", JInt(iteration + 1))];
      SetGeneralEffect(runData.Value(), kwargs);
      var err := runData.Set(None, kwargs);
      return Ok(());
    }

    /** `run`: one phase, the move to the next phase, and the save. */
    method Run(targets: map<string, real>) returns (r: Result<()>)
      modifies this, runData
      ensures r.Ok? <==> Workflow.Run(setup, old(Current()), targets).Ok?
      ensures r.Ok? ==> Current() == Workflow.Run(setup, old(Current()), targets).value
    {
      var phase :- Phase(runData.Value());
      var member :- Int(runData.Value(), "ensemble_num");
      var iteration :- Int(runData.Value(), "iteration");
      var ok;
      if phase == "training" {
        ok :- RunTraining(member, iteration, targets);
      } else if phase == "convergence" {
        ok :- RunConvergence(member, iteration);
      } else {
        ok :- RunProduction(member, iteration, phase);
      }
      Save();
      return Ok(());
    }
  }
}
