/** The loops of run_brer/run_config.py as functions of the state they start
    from: re-sampling the targets, seeding A from the memory file, recording
    the training outcome into the memory (`__datDict`), and copying the
    engine's per-restraint results back into the parameters.  The methods of
    `Config.RunConfig` are proved to compute exactly these; the lemmas here
    say what they mean. */
module Steps {
  import opened Values
  import opened RunParams
  import opened BiasMemory
  import opened Files

  /** One restraint's result from an engine run: its final alpha and target,
      and the simulation time the run ended at. */
  datatype Potential = Potential(name: string, alpha: real, target: real, time: real)

  /** What one engine run gives back: the potentials, in plugin order, and the
      training logs as they stand after the run (name to last line). */
  datatype EngineRun = EngineRun(potentials: seq<Potential>, logs: map<string, LogLine>)

  ghost predicate Distinct(names: seq<string>)
  {
    forall i, j :: 0 <= i < j < |names| ==> names[i] != names[j]
  }

  /** `run_data.get(key, name)` used in arithmetic. */
  function Num(p: Params, key: string, name: Option<string>): Result<real>
  {
    var j :- Get(p, key, name);
    AsReal(j)
  }

  /** A general parameter used in a path. */
  function Int(p: Params, key: string): Result<int>
  {
    var j :- Get(p, key, None);
    AsInt(j)
  }

  /** The keys the workflow reads and writes per restraint.  None of them is
      a general key, so `get` and `set` with a name go to the restraint's own
      parameters (`PairGetIsGet`, `SetPairIsSet`). */
  predicate PairField(key: string)
  {
    key == "alpha" || key == "target" || key == "A"
  }

  lemma PairFieldIsPairKey(key: string)
    requires PairField(key)
    ensures key in PairRequirements && key !in GeneralRequirements
  {
  }

  /** `run_data.get(key, name=name)` for a `PairField` key. */
  function PairGet(p: Params, name: string, key: string): Result<Json>
  {
    if name == "" then Err(ValueError(key))
    else if name in p.pairs then Lookup(p.pairs[name], key)
    else Err(KeyError(name))
  }

  /** `get` reads a `PairField` key of a named restraint as `PairGet` does. */
  lemma PairGetIsGet(p: Params, name: string, key: string)
    requires PairField(key)
    ensures Get(p, key, Some(name)) == PairGet(p, name, key)
  {
    PairFieldIsPairKey(key);
  }

  /** `run_data.get(key, name=name)` of a `PairField` key used in arithmetic. */
  function PairNum(p: Params, name: string, key: string): Result<real>
  {
    var j :- PairGet(p, name, key);
    AsReal(j)
  }

  /** `run_data.set(name=name, key=v)` for a `PairField` key: only that key of
      that restraint changes; no name raises ValueError and an unknown
      restraint KeyError. */
  function SetPair(p: Params, name: string, key: string, v: Json): Result<Params>
  {
    if name == "" then Err(ValueError(key))
    else if name !in p.pairs then Err(KeyError(name))
    else Ok(p.(pairs := p.pairs[name := p.pairs[name][key := v]]))
  }

  /** `set` with one `PairField` keyword argument reaches the state and the
      exception that `SetPair` gives. */
  lemma SetPairIsSet(p: Params, name: string, key: string, v: Json)
    requires PairField(key)
    ensures SetAll(p, Some(name), [(key, v)]) ==
            if SetPair(p, name, key, v).Ok? then (SetPair(p, name, key, v).value, None)
            else (p, Some(SetPair(p, name, key, v).error))
  {
    PairFieldIsPairKey(key);
    var kw := [(key, v)];
    assert kw[1..] == [];
  }

  // ------------------------------------------------------------ re-sampling

  /** The first loop of `__train`: each restraint's target becomes its
      re-sampled value; a name the sampler did not return raises KeyError. */
  function SetTargets(p: Params, names: seq<string>, targets: map<string, real>): Result<Params>
    decreases |names|
  {
    if names == [] then Ok(p)
    else
      var t :- Lookup(targets, names[0]);
      var q :- SetPair(p, names[0], "target", JReal(t));
      SetTargets(q, names[1..], targets)
  }

  /** After re-sampling every restraint's target is its sampled value, and
      nothing else in the parameters changed. */
  lemma {:induction false} SetTargetsEffect(p: Params, names: seq<string>, targets: map<string, real>)
    requires SetTargets(p, names, targets).Ok?
    ensures var r := SetTargets(p, names, targets).value;
            r.general == p.general && r.pairs.Keys == p.pairs.Keys &&
            (forall n :: n in names ==> n in targets && n in p.pairs &&
                                        r.pairs[n] == p.pairs[n]["target" := JReal(targets[n])]) &&
            (forall n :: n in p.pairs && n !in names ==> r.pairs[n] == p.pairs[n])
    decreases |names|
  {
    if names != [] {
      var n0 := names[0];
      var q := SetPair(p, n0, "target", JReal(targets[n0])).value;
      SetTargetsEffect(q, names[1..], targets);
      assert forall n :: n in names ==> n == n0 || n in names[1..];
    }
  }

  /** The "original targets" loop of `__retrain`: each target is read and
      written back. */
  function ResetTargets(p: Params, names: seq<string>): Result<Params>
    decreases |names|
  {
    if names == [] then Ok(p)
    else
      var t :- PairGet(p, names[0], "target");
      var q :- SetPair(p, names[0], "target", t);
      ResetTargets(q, names[1..])
  }

  /** Writing each target back is the identity on the reloaded parameters. */
  lemma {:induction false} ResetTargetsIdentity(p: Params, names: seq<string>)
    requires ResetTargets(p, names).Ok?
    ensures ResetTargets(p, names).value == p
    decreases |names|
  {
    if names != [] {
      var n0 := names[0];
      var t := PairGet(p, n0, "target").value;
      assert p.pairs[n0]["target" := t] == p.pairs[n0];
      assert p.pairs[n0 := p.pairs[n0]] == p.pairs;
      ResetTargetsIdentity(p, names[1..]);
    }
  }

  // ------------------------------------------------------------------ seeding

  /** What the seeding loop computes for one restraint: None when A is left
      alone.  dict.json is opened for each name; an empty file means "no
      memory yet". */
  function SeedFor(p: Params, fs: FileSystem, member: int, name: string): Result<Option<real>>
  {
    if MemoryFile(member) !in fs then Err(FileNotFound)
    else
      var c := fs[MemoryFile(member)];
      if c.EmptyFile? then Ok(None)
      else if !c.MemoryDoc? then Err(DecodeError)
      else
        var t :- PairNum(p, name, "target");
        var e :- Lookup(c.mem, name);
        Ok(Seed(e, TargetKey(t)))
  }

  /** One iteration of the seeding loop. */
  function SeedStep(p: Params, fs: FileSystem, member: int, name: string): Result<Params>
  {
    var s :- SeedFor(p, fs, member, name);
    if s.None? then Ok(p) else SetPair(p, name, "A", JReal(s.value))
  }

  /** The seeding loop of `__train` and `__retrain` over all restraint names. */
  function SeedNames(p: Params, fs: FileSystem, member: int, names: seq<string>): Result<Params>
    decreases |names|
  {
    if names == [] then Ok(p)
    else
      var q :- SeedStep(p, fs, member, names[0]);
      SeedNames(q, fs, member, names[1..])
  }

  /** The pair map of a restraint after seeding. */
  function Seeded(pair: map<string, Json>, s: Option<real>): map<string, Json>
  {
    if s.Some? then pair["A" := JReal(s.value)] else pair
  }

  /** The seed of a restraint depends only on its own target. */
  lemma SeedForFrame(p: Params, q: Params, fs: FileSystem, member: int, name: string)
    requires PairGet(p, name, "target") == PairGet(q, name, "target")
    ensures SeedFor(p, fs, member, name) == SeedFor(q, fs, member, name)
  {
  }

  /** One step of seeding touches only its own restraint's A. */
  lemma SeedStepEffect(p: Params, fs: FileSystem, member: int, name: string)
    requires SeedStep(p, fs, member, name).Ok?
    ensures var q := SeedStep(p, fs, member, name).value;
            var s := SeedFor(p, fs, member, name);
            s.Ok? && (s.value.Some? ==> name in p.pairs) &&
            q.general == p.general && q.pairs.Keys == p.pairs.Keys &&
            (name in p.pairs ==> q.pairs[name] == Seeded(p.pairs[name], s.value)) &&
            (forall n :: n in p.pairs && n != name ==> q.pairs[n] == p.pairs[n])
  {
    var s := SeedFor(p, fs, member, name).value;
    if s.Some? {
    }
  }

  /** The seed of a restraint reads only the memory file. */
  lemma SeedForFiles(p: Params, fs: FileSystem, fs': FileSystem, member: int, name: string)
    requires MemoryFile(member) in fs <==> MemoryFile(member) in fs'
    requires MemoryFile(member) in fs ==> fs[MemoryFile(member)] == fs'[MemoryFile(member)]
    ensures SeedFor(p, fs, member, name) == SeedFor(p, fs', member, name)
  {
  }

  /** Seeding does not look at alpha or target once the seed is known. */
  lemma SeededOtherKeys(pair: map<string, Json>, v: Json, s: Option<real>)
    ensures Seeded(pair["target" := v], s) - {"alpha", "target"} == Seeded(pair, s) - {"alpha", "target"}
  {
  }

  /** Seeding sets the A of each restraint from the memory of its own target,
      as `Seed` prescribes, and changes nothing else. */
  lemma {:induction false} SeedNamesEffect(p: Params, fs: FileSystem, member: int, names: seq<string>)
    requires Distinct(names)
    requires SeedNames(p, fs, member, names).Ok?
    ensures var r := SeedNames(p, fs, member, names).value;
            r.general == p.general && r.pairs.Keys == p.pairs.Keys &&
            (forall n :: n in names ==>
               SeedFor(p, fs, member, n).Ok? &&
               (SeedFor(p, fs, member, n).value.Some? ==> n in p.pairs) &&
               (n in p.pairs ==> r.pairs[n] == Seeded(p.pairs[n], SeedFor(p, fs, member, n).value))) &&
            (forall n :: n in p.pairs && n !in names ==> r.pairs[n] == p.pairs[n])
    decreases |names|
  {
    if names != [] {
      var n0 := names[0];
      var rest := names[1..];
      SeedStepEffect(p, fs, member, n0);
      var q := SeedStep(p, fs, member, n0).value;
      assert Distinct(rest) by {
        forall i, j | 0 <= i < j < |rest| ensures rest[i] != rest[j] { assert rest[i] == names[i + 1] && rest[j] == names[j + 1]; }
      }
      assert n0 !in rest by {
        forall i | 0 <= i < |rest| ensures rest[i] != n0 { assert rest[i] == names[i + 1]; }
      }
      SeedNamesEffect(q, fs, member, rest);
      forall n | n in rest ensures SeedFor(q, fs, member, n) == SeedFor(p, fs, member, n) {
        SeedForFrame(p, q, fs, member, n);
      }
      assert forall n :: n in names ==> n == n0 || n in rest;
    }
  }

  /** Seeding changes no general parameter and no restraint name, whatever
      the names are. */
  lemma {:induction false} SeedNamesKeepsGeneral(p: Params, fs: FileSystem, member: int, names: seq<string>)
    requires SeedNames(p, fs, member, names).Ok?
    ensures SeedNames(p, fs, member, names).value.general == p.general
    ensures SeedNames(p, fs, member, names).value.pairs.Keys == p.pairs.Keys
    decreases |names|
  {
    if names != [] {
      SeedStepEffect(p, fs, member, names[0]);
      SeedNamesKeepsGeneral(SeedStep(p, fs, member, names[0]).value, fs, member, names[1..]);
    }
  }

  // ---------------------------------------------------------------- recording

  /** What a restraint contributes to `__datDict`: the last line of its
      training log and its current A, or None when it has no log. */
  datatype Observation = Observation(line: LogLine, a: real)

  function Observe(p: Params, fs: FileSystem, member: int, name: string): Result<Option<Observation>>
  {
    var it :- Int(p, "iteration");
    var path := TrainingLog(member, it, name);
    if path !in fs then Ok(None)
    else if !fs[path].Log? then Err(DecodeError)
    else
      var a :- PairNum(p, name, "A");
      Ok(Some(Observation(fs[path].last, a)))
  }

  /** The state `__datDict` threads through its loop: the memory (self.j),
      the parameters and self.sample_count. */
  datatype Recorder = Recorder(mem: Memory, p: Params, sampleCount: real)

  /** One iteration of the loop of `__datDict`. */
  function RecordStep(s: Recorder, fs: FileSystem, member: int, name: string, retrainCount: int): Result<Recorder>
  {
    var o :- Observe(s.p, fs, member, name);
    if o.None? then Ok(s)
    else
      var line := o.value.line;
      var a := o.value.a;
      if line.sampleCount > SampleThreshold then
        var q :- if retrainCount != DoublingCount then SetPair(s.p, name, "A", JReal(Escalated(a, retrainCount))) else Ok(s.p);
        var e :- Lookup(s.mem, name);
        Ok(Recorder(s.mem[name := Record(e, TargetKey(line.target), a, line.sampleCount)], q, line.sampleCount))
      else
        var e :- Lookup(s.mem, name);
        Ok(Recorder(s.mem[name := Record(e, TargetKey(line.target), a, line.sampleCount)], s.p, s.sampleCount))
  }

  /** The loop of `__datDict` over all restraint names. */
  function RecordNames(s: Recorder, fs: FileSystem, member: int, names: seq<string>, retrainCount: int): Result<Recorder>
    decreases |names|
  {
    if names == [] then Ok(s)
    else
      var t :- RecordStep(s, fs, member, names[0], retrainCount);
      RecordNames(t, fs, member, names[1..], retrainCount)
  }

  /** The pair map of a restraint after recording: A escalated by 1.1 when the
      attempt did not converge, except at retrain count 5. */
  function AfterRecord(pair: map<string, Json>, o: Observation, retrainCount: int): map<string, Json>
  {
    if o.line.sampleCount > SampleThreshold && retrainCount != DoublingCount
    then pair["A" := JReal(Escalated(o.a, retrainCount))] else pair
  }

  /** What a restraint reads in `__datDict` depends only on the general
      parameters and its own A. */
  lemma ObserveFrame(p: Params, q: Params, fs: FileSystem, member: int, name: string)
    requires p.general == q.general
    requires PairGet(p, name, "A") == PairGet(q, name, "A")
    ensures Observe(p, fs, member, name) == Observe(q, fs, member, name)
  {
  }

  /** One step of recording: the step's restraint gets its record and its
      escalation; every other restraint is left alone. */
  lemma RecordStepEffect(s: Recorder, fs: FileSystem, member: int, name: string, retrainCount: int)
    requires RecordStep(s, fs, member, name, retrainCount).Ok?
    ensures var t := RecordStep(s, fs, member, name, retrainCount).value;
            var o := Observe(s.p, fs, member, name);
            o.Ok? &&
            t.p.general == s.p.general && t.p.pairs.Keys == s.p.pairs.Keys && t.mem.Keys == s.mem.Keys &&
            (forall n :: n in s.p.pairs && n != name ==> t.p.pairs[n] == s.p.pairs[n]) &&
            (forall n :: n in s.mem && n != name ==> t.mem[n] == s.mem[n]) &&
            (o.value.None? ==> t == s) &&
            (o.value.Some? ==>
               name in s.mem && name in s.p.pairs &&
               t.mem[name] == Record(s.mem[name], TargetKey(o.value.value.line.target), o.value.value.a,
                                     o.value.value.line.sampleCount) &&
               t.p.pairs[name] == AfterRecord(s.p.pairs[name], o.value.value, retrainCount) &&
               t.sampleCount == (if o.value.value.line.sampleCount > SampleThreshold
                                 then o.value.value.line.sampleCount else s.sampleCount))
  {
    var o := Observe(s.p, fs, member, name);
    if o.value.Some? {
      var ob := o.value.value;
    }
  }

  /** The A a restraint reads back after its recording step is `Escalated`
      of the A it was recorded with when its attempt failed (unchanged at
      retrain count 5), and that A otherwise; a positive A never shrinks. */
  lemma RecordStepA(s: Recorder, fs: FileSystem, member: int, name: string, retrainCount: int)
    requires RecordStep(s, fs, member, name, retrainCount).Ok?
    requires Observe(s.p, fs, member, name).Ok? && Observe(s.p, fs, member, name).value.Some?
    ensures var t := RecordStep(s, fs, member, name, retrainCount).value;
            var o := Observe(s.p, fs, member, name).value.value;
            PairNum(t.p, name, "A") ==
              Ok(if o.line.sampleCount > SampleThreshold then Escalated(o.a, retrainCount) else o.a) &&
            (o.a > 0.0 ==> PairNum(t.p, name, "A").value >= o.a)
  {
    var o := Observe(s.p, fs, member, name).value.value;
    assert PairNum(s.p, name, "A") == Ok(o.a);
    RecordStepEffect(s, fs, member, name, retrainCount);
  }

  /** What recording did to restraint `n`, going from `s` to `r`: with a
      training log, its A joins the list its sample count selects and is
      escalated when the attempt failed; without one, nothing changes. */
  ghost predicate Recorded(s: Recorder, r: Recorder, fs: FileSystem, member: int, n: string, retrainCount: int)
  {
    var o := Observe(s.p, fs, member, n);
    o.Ok? &&
    (o.value.None? ==> (n in s.mem ==> n in r.mem && r.mem[n] == s.mem[n]) &&
                       (n in s.p.pairs ==> n in r.p.pairs && r.p.pairs[n] == s.p.pairs[n])) &&
    (o.value.Some? ==>
       n in s.mem && n in s.p.pairs && n in r.mem && n in r.p.pairs &&
       r.mem[n] == Record(s.mem[n], TargetKey(o.value.value.line.target), o.value.value.a,
                          o.value.value.line.sampleCount) &&
       r.p.pairs[n] == AfterRecord(s.p.pairs[n], o.value.value, retrainCount))
  }

  /** Recording adds, for every restraint that has a training log, its A to
      exactly the list its sample count selects, escalates its A when the
      attempt failed, and changes nothing for the restraints without a log. */
  lemma {:induction false} RecordNamesEffect(s: Recorder, fs: FileSystem, member: int, names: seq<string>, retrainCount: int)
    requires Distinct(names)
    requires RecordNames(s, fs, member, names, retrainCount).Ok?
    ensures var r := RecordNames(s, fs, member, names, retrainCount).value;
            r.p.general == s.p.general && r.p.pairs.Keys == s.p.pairs.Keys && r.mem.Keys == s.mem.Keys &&
            (forall n :: n in names ==> Recorded(s, r, fs, member, n, retrainCount)) &&
            (forall n :: n in s.mem && n !in names ==> r.mem[n] == s.mem[n]) &&
            (forall n :: n in s.p.pairs && n !in names ==> r.p.pairs[n] == s.p.pairs[n])
    decreases |names|
  {
    if names != [] {
      var n0 := names[0];
      var rest := names[1..];
      RecordStepEffect(s, fs, member, n0, retrainCount);
      var t := RecordStep(s, fs, member, n0, retrainCount).value;
      assert Distinct(rest) by {
        forall i, j | 0 <= i < j < |rest| ensures rest[i] != rest[j] { assert rest[i] == names[i + 1] && rest[j] == names[j + 1]; }
      }
      assert n0 !in rest by {
        forall i | 0 <= i < |rest| ensures rest[i] != n0 { assert rest[i] == names[i + 1]; }
      }
      RecordNamesEffect(t, fs, member, rest, retrainCount);
      var r := RecordNames(t, fs, member, rest, retrainCount).value;
      assert r == RecordNames(s, fs, member, names, retrainCount).value;
      assert Recorded(s, r, fs, member, n0, retrainCount);
      forall n | n in rest ensures Recorded(s, r, fs, member, n, retrainCount) {
        ObserveFrame(s.p, t.p, fs, member, n);
        assert Recorded(t, r, fs, member, n, retrainCount);
      }
      assert forall n :: n in names ==> n == n0 || n in rest;
    }
  }

  /** Recording changes no general parameter and no restraint name, whatever
      the names are. */
  lemma {:induction false} RecordNamesKeepsGeneral(s: Recorder, fs: FileSystem, member: int, names: seq<string>, retrainCount: int)
    requires RecordNames(s, fs, member, names, retrainCount).Ok?
    ensures RecordNames(s, fs, member, names, retrainCount).value.p.general == s.p.general
    ensures RecordNames(s, fs, member, names, retrainCount).value.p.pairs.Keys == s.p.pairs.Keys
    decreases |names|
  {
    if names != [] {
      RecordStepEffect(s, fs, member, names[0], retrainCount);
      RecordNamesKeepsGeneral(RecordStep(s, fs, member, names[0], retrainCount).value, fs, member, names[1..], retrainCount);
    }
  }

  /** The training log of `name` reports more than 400 samples. */
  ghost predicate FailedAt(p: Params, fs: FileSystem, member: int, name: string)
  {
    Observe(p, fs, member, name).Ok? && Observe(p, fs, member, name).value.Some? &&
    Observe(p, fs, member, name).value.value.line.sampleCount > SampleThreshold
  }

  /** Some restraint of `names` has a training log reporting more than 400 samples. */
  ghost predicate SomeFailed(p: Params, fs: FileSystem, member: int, names: seq<string>)
  {
    exists n :: n in names && FailedAt(p, fs, member, n)
  }

  /** After recording, self.sample_count exceeds 400 exactly when it did before
      or some restraint's log reports more than 400 samples: the retrain loop
      runs again exactly when some restraint failed to converge. */
  lemma {:induction false} RecordNamesSampleCount(s: Recorder, fs: FileSystem, member: int, names: seq<string>, retrainCount: int)
    requires Distinct(names)
    requires RecordNames(s, fs, member, names, retrainCount).Ok?
    ensures RecordNames(s, fs, member, names, retrainCount).value.sampleCount > SampleThreshold <==>
            s.sampleCount > SampleThreshold || SomeFailed(s.p, fs, member, names)
    decreases |names|
  {
    if names != [] {
      var n0 := names[0];
      var rest := names[1..];
      RecordStepEffect(s, fs, member, n0, retrainCount);
      var t := RecordStep(s, fs, member, n0, retrainCount).value;
      assert Distinct(rest) by {
        forall i, j | 0 <= i < j < |rest| ensures rest[i] != rest[j] { assert rest[i] == names[i + 1] && rest[j] == names[j + 1]; }
      }
      assert n0 !in rest by {
        forall i | 0 <= i < |rest| ensures rest[i] != n0 { assert rest[i] == names[i + 1]; }
      }
      RecordNamesSampleCount(t, fs, member, rest, retrainCount);
      assert t.sampleCount > SampleThreshold <==> s.sampleCount > SampleThreshold || FailedAt(s.p, fs, member, n0);
      forall n | n in rest ensures FailedAt(t.p, fs, member, n) == FailedAt(s.p, fs, member, n) {
        ObserveFrame(s.p, t.p, fs, member, n);
      }
      assert SomeFailed(t.p, fs, member, rest) == SomeFailed(s.p, fs, member, rest);
      assert SomeFailed(s.p, fs, member, names) <==> FailedAt(s.p, fs, member, n0) || SomeFailed(s.p, fs, member, rest) by {
        assert forall n :: n in names <==> n == n0 || n in rest;
      }
    }
  }

  /** Recording keeps the memory well formed. */
  lemma {:induction false} RecordNamesWellFormed(s: Recorder, fs: FileSystem, member: int, names: seq<string>, retrainCount: int)
    requires WellFormed(s.mem)
    requires RecordNames(s, fs, member, names, retrainCount).Ok?
    ensures WellFormed(RecordNames(s, fs, member, names, retrainCount).value.mem)
    decreases |names|
  {
    if names != [] {
      var t := RecordStep(s, fs, member, names[0], retrainCount).value;
      RecordStepEffect(s, fs, member, names[0], retrainCount);
      var o := Observe(s.p, fs, member, names[0]);
      if o.value.Some? {
        var ob := o.value.value;
        RecordAppendOnly(s.mem[names[0]], TargetKey(ob.line.target), ob.a, ob.line.sampleCount);
      }
      RecordNamesWellFormed(t, fs, member, names[1..], retrainCount);
    }
  }

  // ------------------------------------------------------- engine bookkeeping

  /** The loop after each training run: potential i gives its restraint's
      alpha and target; fewer potentials than restraints raise IndexError. */
  function ApplyPotentials(p: Params, pots: seq<Potential>, count: nat): Result<Params>
    decreases count
  {
    if count == 0 then Ok(p)
    else if pots == [] then Err(IndexError)
    else
      var q :- ApplyPotential(p, pots[0]);
      ApplyPotentials(q, pots[1..], count - 1)
  }

  /** One iteration of that loop: the restraint's alpha, then its target. */
  function ApplyPotential(p: Params, pt: Potential): Result<Params>
  {
    var q :- SetPair(p, pt.name, "alpha", JReal(pt.alpha));
    SetPair(q, pt.name, "target", JReal(pt.target))
  }

  /** The engine's results change only alphas and targets: A and every other
      parameter stay as they were. */
  lemma {:induction false} ApplyPotentialsKeeps(p: Params, pots: seq<Potential>, count: nat)
    requires ApplyPotentials(p, pots, count).Ok?
    ensures var r := ApplyPotentials(p, pots, count).value;
            |pots| >= count && r.general == p.general && r.pairs.Keys == p.pairs.Keys &&
            forall n :: n in p.pairs ==> r.pairs[n] - {"alpha", "target"} == p.pairs[n] - {"alpha", "target"}
    decreases count
  {
    if count > 0 {
      var pt := pots[0];
      var q := SetPair(p, pt.name, "alpha", JReal(pt.alpha)).value;
      var q' := ApplyPotential(p, pt).value;
      assert q.pairs[pt.name] - {"alpha", "target"} == p.pairs[pt.name] - {"alpha", "target"};
      assert q'.pairs[pt.name] - {"alpha", "target"} == q.pairs[pt.name] - {"alpha", "target"};
      ApplyPotentialsKeeps(q', pots[1..], count - 1);
    }
  }

  /** What the engine's results leave in one restraint's parameters: each of
      the first `count` potentials that names it sets its alpha and then its
      target, in order, so the last such potential wins. */
  function EngineEntry(pair: map<string, Json>, pots: seq<Potential>, count: nat, n: string): map<string, Json>
    decreases count
  {
    if count == 0 || pots == [] then pair
    else
      var next := if pots[0].name == n then pair["alpha" := JReal(pots[0].alpha)]["target" := JReal(pots[0].target)]
                  else pair;
      EngineEntry(next, pots[1..], count - 1, n)
  }

  /** The loop over the engine's results needs `count` potentials, each naming
      an existing restraint; it changes no general parameter and leaves each
      restraint with the entry `EngineEntry` gives. */
  lemma {:induction false} ApplyPotentialsEntries(p: Params, pots: seq<Potential>, count: nat)
    requires ApplyPotentials(p, pots, count).Ok?
    ensures |pots| >= count
    ensures forall i :: 0 <= i < count ==> pots[i].name in p.pairs
    ensures var r := ApplyPotentials(p, pots, count).value;
            r.general == p.general && r.pairs.Keys == p.pairs.Keys &&
            forall n :: n in p.pairs ==> r.pairs[n] == EngineEntry(p.pairs[n], pots, count, n)
    decreases count
  {
    if count > 0 {
      var pt := pots[0];
      var q := ApplyPotential(p, pt).value;
      assert q.pairs == p.pairs[pt.name := p.pairs[pt.name]["alpha" := JReal(pt.alpha)]["target" := JReal(pt.target)]];
      ApplyPotentialsEntries(q, pots[1..], count - 1);
      forall i | 0 <= i < count ensures pots[i].name in p.pairs {
        if i > 0 {
          assert pots[i] == pots[1..][i - 1];
        }
      }
    }
  }

  /** A restraint that none of the first `count` potentials names keeps its
      parameters. */
  lemma {:induction false} EngineEntryUntouched(pair: map<string, Json>, pots: seq<Potential>, count: nat, n: string)
    requires forall i :: 0 <= i < count && i < |pots| ==> pots[i].name != n
    ensures EngineEntry(pair, pots, count, n) == pair
    decreases count
  {
    if count > 0 && pots != [] {
      forall i | 0 <= i < count - 1 && i < |pots[1..]| ensures pots[1..][i].name != n {
        assert pots[1..][i] == pots[i + 1];
      }
      EngineEntryUntouched(pair, pots[1..], count - 1, n);
    }
  }

  /** A restraint that exactly one of the first `count` potentials names ends
      with that potential's alpha and target, the rest of its parameters
      unchanged. */
  lemma {:induction false} EngineEntryOnce(pair: map<string, Json>, pots: seq<Potential>, count: nat, n: string, i: nat)
    requires i < count && i < |pots| && pots[i].name == n
    requires forall j :: 0 <= j < count && j < |pots| && j != i ==> pots[j].name != n
    ensures EngineEntry(pair, pots, count, n) == pair["alpha" := JReal(pots[i].alpha)]["target" := JReal(pots[i].target)]
    decreases i
  {
    forall j | 0 <= j < count - 1 && j < |pots[1..]| && j + 1 != i ensures pots[1..][j].name != n {
      assert pots[1..][j] == pots[j + 1];
    }
    if i == 0 {
      EngineEntryUntouched(pair["alpha" := JReal(pots[0].alpha)]["target" := JReal(pots[0].target)], pots[1..], count - 1, n);
    } else {
      assert pots[1..][i - 1] == pots[i];
      EngineEntryOnce(pair, pots[1..], count - 1, n, i - 1);
    }
  }

  /** The engine's results are copied back: when the first `count` potentials
      name distinct restraints, restraint `pots[i].name` ends with exactly
      potential i's alpha and target, and every restraint no potential names
      is unchanged. */
  lemma ApplyPotentialsSets(p: Params, pots: seq<Potential>, count: nat)
    requires ApplyPotentials(p, pots, count).Ok?
    requires forall i, j :: 0 <= i < j < count && j < |pots| ==> pots[i].name != pots[j].name
    ensures |pots| >= count
    ensures var r := ApplyPotentials(p, pots, count).value;
            r.general == p.general && r.pairs.Keys == p.pairs.Keys &&
            (forall i :: 0 <= i < count ==>
               pots[i].name in p.pairs &&
               r.pairs[pots[i].name] ==
                 p.pairs[pots[i].name]["alpha" := JReal(pots[i].alpha)]["target" := JReal(pots[i].target)]) &&
            (forall n :: n in p.pairs && (forall i :: 0 <= i < count ==> pots[i].name != n) ==> r.pairs[n] == p.pairs[n])
  {
    ApplyPotentialsEntries(p, pots, count);
    forall i | 0 <= i < count
      ensures EngineEntry(p.pairs[pots[i].name], pots, count, pots[i].name) ==
              p.pairs[pots[i].name]["alpha" := JReal(pots[i].alpha)]["target" := JReal(pots[i].target)]
    {
      forall j | 0 <= j < count && j < |pots| && j != i ensures pots[j].name != pots[i].name {
        if j < i {
          assert pots[j].name != pots[i].name;
        }
      }
      EngineEntryOnce(p.pairs[pots[i].name], pots, count, pots[i].name, i);
    }
    forall n | n in p.pairs && (forall i :: 0 <= i < count ==> pots[i].name != n)
      ensures EngineEntry(p.pairs[n], pots, count, n) == p.pairs[n]
    {
      EngineEntryUntouched(p.pairs[n], pots, count, n);
    }
  }
}
