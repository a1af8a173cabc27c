/** The Run class of run_brer/debug.py: a second copy of the memory and
    retrain logic of run_config.py that diverges from it.  `datDict` forces
    every sample count to 0, so each logged restraint's A is recorded as
    accepted and no reject list ever changes; `__retrain` maps the counter 6
    to 0, seeds A from the memory held in `self.j` (an empty memory seeds
    nothing) and saves the state after every change, and the `dict1` flag
    lets `datDict` retrain at most once per object: `__retrain` moves it
    1 -> 0 -> 3 and only mentions `self.datDict` without calling it.  Nothing
    here runs the engine. */
module Debug {
  import opened Values
  import opened RunParams
  import opened BiasMemory
  import opened Files
  import opened Steps
  import Workflow
  import Config

  /** The state of a debug Run object that `datDict` and `__retrain` read and
      change: the parameters, the files, `self.j`, `self.sample_count`,
      `self.retrain_count` and `self.dict1`. */
  datatype State = State(p: Params, fs: FileSystem, mem: WellFormedMemory, sampleCount: real,
                         retrainCount: int, dict1: int)

  /** The memory entry of a restraint after the loop of `datDict` has seen
      it: with the sample count forced to 0, the A of a logged attempt always
      goes to acceptA under the key of the target the log ends on. */
  function AfterAccept(e: Entry, o: Option<Observation>): Entry
  {
    if o.None? then e else Record(e, TargetKey(o.value.line.target), o.value.a, 0.0)
  }

  /** One iteration of the loop of `datDict`. */
  function Accept(mem: WellFormedMemory, p: Params, fs: FileSystem, member: int, name: string): (r: Result<WellFormedMemory>)
  {
    var o :- Observe(p, fs, member, name);
    if o.None? then Ok(mem)
    else
      var e :- Lookup(mem, name);
      RecordAppendOnly(e, TargetKey(o.value.line.target), o.value.a, 0.0);
      Ok(mem[name := AfterAccept(e, o)])
  }

  /** The loop of `datDict` over all restraint names. */
  function AcceptAll(mem: WellFormedMemory, p: Params, fs: FileSystem, member: int, names: seq<string>): Result<WellFormedMemory>
    decreases |names|
  {
    if names == [] then Ok(mem)
    else
      var m :- Accept(mem, p, fs, member, names[0]);
      AcceptAll(m, p, fs, member, names[1..])
  }

  /** The seed `__retrain` computes for a restraint from `self.j`: none for
      an empty memory, else the rule of `Seed` for the key of its target. */
  function SeedValue(p: Params, mem: WellFormedMemory, name: string): Result<Option<real>>
  {
    if mem == map[] then Ok(None)
    else
      var t :- PairNum(p, name, "target");
      var e :- Lookup(mem, name);
      Ok(Seed(e, TargetKey(t)))
  }

  /** One iteration of the seeding loop of `__retrain`: dict.json must exist
      (it is opened, though only `self.j` is read), and every A that is set
      is saved to the state file at once. */
  function SeedOne(p: Params, fs: FileSystem, mem: WellFormedMemory, member: int, stateFile: Path, name: string)
    : Result<(Params, FileSystem)>
  {
    if MemoryFile(member) !in fs then Err(FileNotFound)
    else
      var sd :- SeedValue(p, mem, name);
      if sd.None? then Ok((p, fs))
      else
        var q :- SetPair(p, name, "A", JReal(sd.value));
        Ok((q, Workflow.SaveConfig(fs, stateFile, q)))
  }

  /** The seeding loop of `__retrain` over all restraint names. */
  function SeedAll(p: Params, fs: FileSystem, mem: WellFormedMemory, member: int, stateFile: Path, names: seq<string>)
    : Result<(Params, FileSystem)>
    decreases |names|
  {
    if names == [] then Ok((p, fs))
    else
      var step :- SeedOne(p, fs, mem, member, stateFile, names[0]);
      SeedAll(step.0, step.1, mem, member, stateFile, names[1..])
  }

  /** The first part of `__retrain`: reload the state file, map the counter
      6 to 0, write each target back and save. */
  function Reloaded(c: Workflow.Setup, s: State): (r: Result<State>)
    ensures r.Ok? ==> r.value.dict1 == s.dict1 && r.value.mem == s.mem && r.value.sampleCount == s.sampleCount
    ensures r.Ok? ==> r.value.retrainCount == if s.retrainCount == 6 then 0 else s.retrainCount
  {
    var (p1, err) := Workflow.LoadConfig(s.p, s.fs, c.stateFile);
    if err.Some? then Err(err.value)
    else
      var p2 :- ResetTargets(p1, c.names);
      Ok(s.(p := p2, fs := Workflow.SaveConfig(s.fs, c.stateFile, p2),
            retrainCount := if s.retrainCount == 6 then 0 else s.retrainCount))
  }

  /** `__retrain`: reload, seed A from `self.j`, and move `dict1` from 1 or 0
      on to 3. */
  function AfterRetrain(c: Workflow.Setup, s: State): (r: Result<State>)
    ensures r.Ok? ==> r.value.dict1 == (if s.dict1 == 1 || s.dict1 == 0 then 3 else s.dict1)
    ensures r.Ok? ==> r.value.mem == s.mem && r.value.sampleCount == s.sampleCount
    ensures r.Ok? ==> r.value.retrainCount == if s.retrainCount == 6 then 0 else s.retrainCount
  {
    var s1 :- Reloaded(c, s);
    var member :- Int(s1.p, "ensemble_num");
    var seeded :- SeedAll(s1.p, s1.fs, s.mem, member, c.stateFile, c.names);
    Ok(s1.(p := seeded.0, fs := seeded.1, dict1 := if s.dict1 == 1 || s.dict1 == 0 then 3 else s.dict1))
  }

  /** `datDict`: read the memory (a fresh one for an empty file), record every
      logged restraint as accepted, write the memory back, and retrain while
      `dict1` is still 0 or 1. */
  function AfterDatDict(c: Workflow.Setup, s: State): (r: Result<State>)
  {
    var member :- Int(s.p, "ensemble_num");
    var mem :- Workflow.MemoryFrom(c, s.fs, member);
    var rec :- AcceptAll(mem, s.p, s.fs, member, c.names);
    var s1 := s.(fs := s.fs[MemoryFile(member) := MemoryDoc(rec)], mem := rec, sampleCount := 0.0);
    if s.dict1 == 1 || s.dict1 == 0 then AfterRetrain(c, s1) else Ok(s1)
  }

  /** The tail of a list of distinct names is distinct and lacks its head. */
  lemma DistinctTail(names: seq<string>)
    requires Distinct(names) && names != []
    ensures Distinct(names[1..]) && names[0] !in names[1..]
  {
    var rest := names[1..];
    forall i, j | 0 <= i < j < |rest| ensures rest[i] != rest[j] {
      assert rest[i] == names[i + 1] && rest[j] == names[j + 1];
    }
    forall i | 0 <= i < |rest| ensures rest[i] != names[0] {
      assert rest[i] == names[i + 1];
    }
  }

  /** One step of the loop of `datDict` changes at most its own restraint's
      entry, as `AfterAccept` prescribes. */
  lemma AcceptEffect(mem: WellFormedMemory, p: Params, fs: FileSystem, member: int, name: string)
    requires Accept(mem, p, fs, member, name).Ok?
    ensures Observe(p, fs, member, name).Ok?
    ensures var o := Observe(p, fs, member, name).value;
            (o.Some? ==> name in mem) &&
            Accept(mem, p, fs, member, name).value ==
              if o.Some? then mem[name := AfterAccept(mem[name], o)] else mem
  {
  }

  /** `r` keeps the restraints of `mem` and their reject lists, and only
      appends to their acceptA lists. */
  predicate AcceptsOnly(mem: WellFormedMemory, r: WellFormedMemory)
  {
    r.Keys == mem.Keys &&
    forall n :: n in mem ==> r[n].reject == mem[n].reject && Extends(mem[n].accept, r[n].accept)
  }

  /** Appending to acceptA twice is appending to it once. */
  lemma AcceptsOnlyTrans(a: WellFormedMemory, b: WellFormedMemory, c: WellFormedMemory)
    requires AcceptsOnly(a, b) && AcceptsOnly(b, c)
    ensures AcceptsOnly(a, c)
  {
    forall n | n in a ensures c[n].reject == a[n].reject && Extends(a[n].accept, c[n].accept) {
      ExtendsTrans(a[n].accept, b[n].accept, c[n].accept);
    }
  }

  /** The loop of `datDict` only ever appends to acceptA. */
  lemma {:induction false} AcceptAllGrows(mem: WellFormedMemory, p: Params, fs: FileSystem, member: int, names: seq<string>)
    requires AcceptAll(mem, p, fs, member, names).Ok?
    ensures AcceptsOnly(mem, AcceptAll(mem, p, fs, member, names).value)
    decreases |names|
  {
    if names == [] {
      forall n | n in mem ensures Extends(mem[n].accept, mem[n].accept) {
        forall k | k in mem[n].accept ensures mem[n].accept[k] <= mem[n].accept[k] {
        }
      }
    } else {
      var n0 := names[0];
      var m := Accept(mem, p, fs, member, n0).value;
      AcceptEffect(mem, p, fs, member, n0);
      var o := Observe(p, fs, member, n0).value;
      if o.Some? {
        RecordAppendOnly(mem[n0], TargetKey(o.value.line.target), o.value.a, 0.0);
        forall k | k in mem[n0].reject ensures mem[n0].reject[k] <= m[n0].reject[k] {
        }
        assert m[n0].reject == mem[n0].reject;
      } else {
        forall n | n in mem ensures Extends(mem[n].accept, mem[n].accept) {
          forall k | k in mem[n].accept ensures mem[n].accept[k] <= mem[n].accept[k] {
          }
        }
      }
      assert AcceptsOnly(mem, m);
      AcceptAllGrows(m, p, fs, member, names[1..]);
      AcceptsOnlyTrans(mem, m, AcceptAll(mem, p, fs, member, names).value);
    }
  }

  /** The loop of `datDict` gives each listed restraint the entry
      `AfterAccept` prescribes from its own log, and leaves every other
      restraint alone. */
  lemma {:induction false} AcceptAllEntries(mem: WellFormedMemory, p: Params, fs: FileSystem, member: int, names: seq<string>)
    requires Distinct(names)
    requires AcceptAll(mem, p, fs, member, names).Ok?
    ensures var r := AcceptAll(mem, p, fs, member, names).value;
            r.Keys == mem.Keys &&
            (forall n :: n in names ==>
               Observe(p, fs, member, n).Ok? &&
               (Observe(p, fs, member, n).value.Some? ==> n in mem) &&
               (n in mem ==> r[n] == AfterAccept(mem[n], Observe(p, fs, member, n).value))) &&
            (forall n :: n in mem && n !in names ==> r[n] == mem[n])
    decreases |names|
  {
    AcceptAllGrows(mem, p, fs, member, names);
    if names != [] {
      var n0 := names[0];
      var rest := names[1..];
      var m := Accept(mem, p, fs, member, n0).value;
      AcceptEffect(mem, p, fs, member, n0);
      DistinctTail(names);
      AcceptAllEntries(m, p, fs, member, rest);
      var r := AcceptAll(mem, p, fs, member, names).value;
      forall n | n in names
        ensures Observe(p, fs, member, n).Ok? &&
                (Observe(p, fs, member, n).value.Some? ==> n in mem) &&
                (n in mem ==> r[n] == AfterAccept(mem[n], Observe(p, fs, member, n).value))
      {
        if n != n0 {
          assert n in rest;
        }
      }
      assert forall n :: n in names ==> n == n0 || n in rest;
    }
  }

  /** The loop of `datDict` only ever appends to acceptA: it keeps the
      restraints of the memory, never changes a reject list, gives each listed
      restraint the entry `AfterAccept` prescribes from its own log, and
      leaves every other restraint alone. */
  lemma AcceptAllEffect(mem: WellFormedMemory, p: Params, fs: FileSystem, member: int, names: seq<string>)
    requires Distinct(names)
    requires AcceptAll(mem, p, fs, member, names).Ok?
    ensures var r := AcceptAll(mem, p, fs, member, names).value;
            AcceptsOnly(mem, r) &&
            (forall n :: n in names ==>
               Observe(p, fs, member, n).Ok? &&
               (Observe(p, fs, member, n).value.Some? ==> n in mem) &&
               (n in mem ==> r[n] == AfterAccept(mem[n], Observe(p, fs, member, n).value))) &&
            (forall n :: n in mem && n !in names ==> r[n] == mem[n])
  {
    AcceptAllGrows(mem, p, fs, member, names);
    AcceptAllEntries(mem, p, fs, member, names);
  }

  /** One step of seeding sets at most its own restraint's A, and saves
      when it does. */
  lemma SeedOneEffect(p: Params, fs: FileSystem, mem: WellFormedMemory, member: int, stateFile: Path, name: string)
    requires SeedOne(p, fs, mem, member, stateFile, name).Ok?
    ensures SeedValue(p, mem, name).Ok?
    ensures var r := SeedOne(p, fs, mem, member, stateFile, name).value;
            var sd := SeedValue(p, mem, name).value;
            (sd.Some? ==> name in p.pairs &&
                          r.0 == p.(pairs := p.pairs[name := Seeded(p.pairs[name], sd)]) &&
                          r.1 == Workflow.SaveConfig(fs, stateFile, r.0)) &&
            (sd.None? ==> r == (p, fs))
  {
    var sd := SeedValue(p, mem, name).value;
    if sd.Some? {
    }
  }

  /** The seed of a restraint depends only on its own target. */
  lemma SeedValueFrame(p: Params, q: Params, mem: WellFormedMemory, name: string)
    requires PairGet(p, name, "target") == PairGet(q, name, "target")
    ensures SeedValue(p, mem, name) == SeedValue(q, mem, name)
  {
  }

  /** The seeding loop, one step unfolded. */
  lemma SeedAllStep(p: Params, fs: FileSystem, mem: WellFormedMemory, member: int, stateFile: Path, names: seq<string>)
    requires names != [] && SeedAll(p, fs, mem, member, stateFile, names).Ok?
    ensures SeedOne(p, fs, mem, member, stateFile, names[0]).Ok?
    ensures var step := SeedOne(p, fs, mem, member, stateFile, names[0]).value;
            SeedAll(p, fs, mem, member, stateFile, names) == SeedAll(step.0, step.1, mem, member, stateFile, names[1..])
  {
  }

  /** Seeding changes no general parameter and adds or drops no restraint. */
  lemma {:induction false} SeedAllKeeps(p: Params, fs: FileSystem, mem: WellFormedMemory, member: int, stateFile: Path,
                                        names: seq<string>)
    requires SeedAll(p, fs, mem, member, stateFile, names).Ok?
    ensures var r := SeedAll(p, fs, mem, member, stateFile, names).value.0;
            r.general == p.general && r.pairs.Keys == p.pairs.Keys
    decreases |names|
  {
    if names != [] {
      SeedAllStep(p, fs, mem, member, stateFile, names);
      SeedOneEffect(p, fs, mem, member, stateFile, names[0]);
      var step := SeedOne(p, fs, mem, member, stateFile, names[0]).value;
      SeedAllKeeps(step.0, step.1, mem, member, stateFile, names[1..]);
    }
  }

  /** Seeding sets the A of each restraint as `SeedValue` prescribes from its
      own target and changes nothing else in the parameters. */
  lemma {:induction false} SeedAllEffect(p: Params, fs: FileSystem, mem: WellFormedMemory, member: int, stateFile: Path,
                                         names: seq<string>)
    requires Distinct(names)
    requires SeedAll(p, fs, mem, member, stateFile, names).Ok?
    ensures var r := SeedAll(p, fs, mem, member, stateFile, names).value.0;
            r.general == p.general && r.pairs.Keys == p.pairs.Keys &&
            (forall n :: n in names ==>
               SeedValue(p, mem, n).Ok? &&
               (SeedValue(p, mem, n).value.Some? ==> n in p.pairs) &&
               (n in p.pairs ==> r.pairs[n] == Seeded(p.pairs[n], SeedValue(p, mem, n).value))) &&
            (forall n :: n in p.pairs && n !in names ==> r.pairs[n] == p.pairs[n])
    decreases |names|
  {
    SeedAllKeeps(p, fs, mem, member, stateFile, names);
    if names != [] {
      var n0 := names[0];
      var rest := names[1..];
      SeedAllStep(p, fs, mem, member, stateFile, names);
      SeedOneEffect(p, fs, mem, member, stateFile, n0);
      var step := SeedOne(p, fs, mem, member, stateFile, n0).value;
      DistinctTail(names);
      SeedAllEffect(step.0, step.1, mem, member, stateFile, rest);
      var r := SeedAll(p, fs, mem, member, stateFile, names).value.0;
      forall n | n in names
        ensures SeedValue(p, mem, n).Ok? &&
                (SeedValue(p, mem, n).value.Some? ==> n in p.pairs) &&
                (n in p.pairs ==> r.pairs[n] == Seeded(p.pairs[n], SeedValue(p, mem, n).value))
      {
        if n != n0 {
          assert n in rest;
          SeedValueFrame(p, step.0, mem, n);
        }
      }
      assert forall n :: n in names ==> n == n0 || n in rest;
    }
  }

  /** A second save replaces the first. */
  lemma SaveTwice(fs: FileSystem, path: Path, p: Params, q: Params)
    ensures Workflow.SaveConfig(Workflow.SaveConfig(fs, path, p), path, q) == Workflow.SaveConfig(fs, path, q)
  {
  }

  /** Seeding from a state file that holds the parameters leaves the state
      file holding the seeded parameters: every change is saved at once. */
  lemma {:induction false} SeedAllSaves(p: Params, fs: FileSystem, mem: WellFormedMemory, member: int, stateFile: Path,
                                        names: seq<string>)
    requires SeedAll(p, Workflow.SaveConfig(fs, stateFile, p), mem, member, stateFile, names).Ok?
    ensures var r := SeedAll(p, Workflow.SaveConfig(fs, stateFile, p), mem, member, stateFile, names).value;
            r.1 == Workflow.SaveConfig(fs, stateFile, r.0)
    decreases |names|
  {
    if names != [] {
      var fs0 := Workflow.SaveConfig(fs, stateFile, p);
      SeedAllStep(p, fs0, mem, member, stateFile, names);
      SeedOneEffect(p, fs0, mem, member, stateFile, names[0]);
      var step := SeedOne(p, fs0, mem, member, stateFile, names[0]).value;
      if SeedValue(p, mem, names[0]).value.Some? {
        SaveTwice(fs, stateFile, p, step.0);
      }
      SeedAllSaves(step.0, fs, mem, member, stateFile, names[1..]);
    }
}

  /** `__retrain` starts from the state file: each restraint's A is the seed
      of its reloaded target, everything else is as reloaded, an empty
      memory seeds nothing, and the state file ends up holding the final
      parameters. */
  lemma RetrainEffect(c: Workflow.Setup, s: State)
    requires Distinct(c.names)
    requires AfterRetrain(c, s).Ok?
    ensures Workflow.LoadConfig(s.p, s.fs, c.stateFile).1.None?
    ensures var loaded := Workflow.LoadConfig(s.p, s.fs, c.stateFile).0;
            var r := AfterRetrain(c, s).value;
            r.p.general == loaded.general && r.p.pairs.Keys == loaded.pairs.Keys &&
            (forall n :: n in c.names && n in loaded.pairs ==>
               SeedValue(loaded, s.mem, n).Ok? &&
               r.p.pairs[n] == Seeded(loaded.pairs[n], SeedValue(loaded, s.mem, n).value)) &&
            (forall n :: n in loaded.pairs && n !in c.names ==> r.p.pairs[n] == loaded.pairs[n]) &&
            (s.mem == map[] ==> r.p == loaded) &&
            c.stateFile in r.fs && r.fs[c.stateFile] == StateDoc(AsDictionary(r.p))
  {
    var loaded := Workflow.LoadConfig(s.p, s.fs, c.stateFile).0;
    ResetTargetsIdentity(loaded, c.names);
    var member := Int(loaded, "ensemble_num").value;
    var fs1 := Workflow.SaveConfig(s.fs, c.stateFile, loaded);
    SeedAllEffect(loaded, fs1, s.mem, member, c.stateFile, c.names);
    SeedAllSaves(loaded, s.fs, s.mem, member, c.stateFile, c.names);
    var r := AfterRetrain(c, s).value;
    if s.mem == map[] {
      forall n | n in loaded.pairs ensures r.p.pairs[n] == loaded.pairs[n] {
        if n in c.names {
          assert SeedValue(loaded, s.mem, n) == Ok(None);
        }
      }
      assert r.p.pairs == loaded.pairs;
    }
  }

  /** `datDict` leaves the sample count at 0, writes the memory it built to
      dict.json, only appends to acceptA, and is never ready to retrain
      afterwards: a first call with `dict1` 0 or 1 retrains (counter 6 -> 0)
      and sets it to 3, any other value of `dict1` retrains nothing and keeps
      the parameters and the counter. */
  lemma DatDictEffect(c: Workflow.Setup, s: State)
    requires c.stateFile.StateFile? && Distinct(c.names)
    requires AfterDatDict(c, s).Ok?
    ensures Int(s.p, "ensemble_num").Ok? && Workflow.MemoryFrom(c, s.fs, Int(s.p, "ensemble_num").value).Ok?
    ensures var r := AfterDatDict(c, s).value;
            var member := Int(s.p, "ensemble_num").value;
            var mem := Workflow.MemoryFrom(c, s.fs, member).value;
            r.sampleCount == 0.0 && r.dict1 != 0 && r.dict1 != 1 &&
            MemoryFile(member) in r.fs && r.fs[MemoryFile(member)] == MemoryDoc(r.mem) &&
            r.mem.Keys == mem.Keys &&
            (forall n :: n in mem ==> r.mem[n].reject == mem[n].reject && Extends(mem[n].accept, r.mem[n].accept)) &&
            ((s.dict1 == 0 || s.dict1 == 1) ==>
               r.dict1 == 3 && r.retrainCount == (if s.retrainCount == 6 then 0 else s.retrainCount)) &&
            (s.dict1 != 0 && s.dict1 != 1 ==>
               r.p == s.p && r.dict1 == s.dict1 && r.retrainCount == s.retrainCount &&
               OnlyChanged(s.fs, r.fs, MemoryFile(member)))
  {
    var member := Int(s.p, "ensemble_num").value;
    var mem := Workflow.MemoryFrom(c, s.fs, member).value;
    AcceptAllEffect(mem, s.p, s.fs, member, c.names);
    if s.dict1 == 0 || s.dict1 == 1 {
      var rec := AcceptAll(mem, s.p, s.fs, member, c.names).value;
      var s1 := s.(fs := s.fs[MemoryFile(member) := MemoryDoc(rec)], mem := rec, sampleCount := 0.0);
      RetrainKeepsMemoryFile(c, s1, member);
    }
  }

  /** `__retrain` writes only the state file, so the memory file stays. */
  lemma RetrainKeepsMemoryFile(c: Workflow.Setup, s: State, member: int)
    requires c.stateFile.StateFile? && AfterRetrain(c, s).Ok?
    ensures MemoryFile(member) in s.fs ==>
              MemoryFile(member) in AfterRetrain(c, s).value.fs &&
              AfterRetrain(c, s).value.fs[MemoryFile(member)] == s.fs[MemoryFile(member)]
  {
    var loaded := Workflow.LoadConfig(s.p, s.fs, c.stateFile).0;
    ResetTargetsIdentity(loaded, c.names);
    var m := Int(loaded, "ensemble_num").value;
    SeedAllSaves(loaded, s.fs, s.mem, m, c.stateFile, c.names);
  }

  /** The `datDict` -> `__retrain` recursion runs at most once: after any
      `datDict`, a second `datDict` keeps the parameters, the counter and the
      flag. */
  lemma DatDictRetrainsOnce(c: Workflow.Setup, s: State)
    requires c.stateFile.StateFile? && Distinct(c.names)
    requires AfterDatDict(c, s).Ok? && AfterDatDict(c, AfterDatDict(c, s).value).Ok?
    ensures var r := AfterDatDict(c, s).value;
            var r2 := AfterDatDict(c, r).value;
            r2.p == r.p && r2.retrainCount == r.retrainCount && r2.dict1 == r.dict1
  {
    DatDictEffect(c, s);
    DatDictEffect(c, AfterDatDict(c, s).value);
  }

  class Run {
    const setup: Workflow.Setup
    const runData: RunData
    var fs: FileSystem
    var j: WellFormedMemory
    var sampleCount: real
    var retrainCount: int
    var dict1: int

    /** The whole state `datDict` and `__retrain` read and change. */
    function Current(): State
      reads this, runData
    {
      State(runData.Value(), fs, j, sampleCount, retrainCount, dict1)
    }

    constructor Init(setup: Workflow.Setup, runData: RunData, fs: FileSystem)
      ensures this.setup == setup && this.runData == runData && this.fs == fs
      ensures j == map[] && sampleCount == 0.0 && retrainCount == 0 && dict1 == 1
    {
      this.setup := setup;
      this.runData := runData;
      this.fs := fs;
      j := map[];
      sampleCount := 0.0;
      retrainCount := 0;
      dict1 := 1;
    }

    /** `__init__`: the same start as run_config.py, with the counter at 0
        and `dict1` at 1 whatever the caller passes. */
    static method Create(pairs: seq<PairData>, ensembleNum: int, dictJson: int, fs: FileSystem) returns (r: Result<Run>)
      ensures r.Ok? <==> Workflow.Initial(pairs, ensembleNum, fs).Ok?
      ensures r.Ok? ==>
                fresh(r.value) && fresh(r.value.runData) &&
                r.value.setup == Workflow.Setup(PairNames(pairs), StateFile(ensembleNum), dictJson) &&
                r.value.Current() == State(Workflow.Initial(pairs, ensembleNum, fs).value.0,
                                           Workflow.Initial(pairs, ensembleNum, fs).value.1, map[], 0.0, 0, 1)
    {
      var started :- Config.RunConfig.Start(pairs, ensembleNum, fs);
      var run := new Run.Init(Workflow.Setup(PairNames(pairs), StateFile(ensembleNum), dictJson), started.0, started.1);
      return Ok(run);
    }

    /** `run_data.save_config(self.state_json)`. */
    method Save()
      modifies this`fs
      ensures fs == Workflow.SaveConfig(old(fs), setup.stateFile, runData.Value())
    {
      fs := fs[setup.stateFile := StateDoc(AsDictionary(runData.Value()))];
    }

    /** The fresh memory `datDict` builds for an empty dict.json. */
    method FreshMemory() returns (mem: WellFormedMemory)
      ensures mem == InitMemory(setup.names)
    {
      var m: Memory := map[];
      var i := 0;
      while i < |setup.names|
        invariant 0 <= i <= |setup.names|
        invariant m == map n | n in setup.names[..i] :: Entry(map[], map[])
      {
        assert setup.names[..i + 1] == setup.names[..i] + [setup.names[i]];
        m := m[setup.names[i] := Entry(map[], map[])];
        i := i + 1;
      }
      assert setup.names[..i] == setup.names;
      mem := m;
    }

    /** The loop of `datDict`: each logged restraint's A is appended to
        acceptA in `j`. */
    method AcceptLoop(member: int) returns (r: Result<()>)
      modifies this`j
      ensures r.Ok? <==> AcceptAll(old(j), runData.Value(), fs, member, setup.names).Ok?
      ensures r.Ok? ==> j == AcceptAll(old(j), runData.Value(), fs, member, setup.names).value
    {
      var i := 0;
      while i < |setup.names|
        invariant 0 <= i <= |setup.names|
        invariant AcceptAll(old(j), runData.Value(), fs, member, setup.names) ==
                  AcceptAll(j, runData.Value(), fs, member, setup.names[i..])
      {
        var name := setup.names[i];
        assert setup.names[i..][1..] == setup.names[i + 1..];
        var o :- Observe(runData.Value(), fs, member, name);
        if o.Some? {
          var e :- Lookup(j, name);
          RecordAppendOnly(e, TargetKey(o.value.line.target), o.value.a, 0.0);
          j := j[name := Record(e, TargetKey(o.value.line.target), o.value.a, 0.0)];
        }
        i := i + 1;
      }
      return Ok(());
    }

    /** The "original targets" loop of `__retrain`; it changes nothing. */
    method RestoreTargets() returns (r: Result<()>)
      modifies runData
      ensures r.Ok? <==> ResetTargets(old(runData.Value()), setup.names).Ok?
      ensures r.Ok? ==> runData.Value() == old(runData.Value())
    {
      ghost var p0 := runData.Value();
      var i := 0;
      while i < |setup.names|
        invariant 0 <= i <= |setup.names|
        invariant ResetTargets(p0, setup.names) == ResetTargets(runData.Value(), setup.names[i..])
      {
        var name := setup.names[i];
        assert setup.names[i..][1..] == setup.names[i + 1..];
        var t :- PairGet(runData.Value(), name, "target");
        SetPairIsSet(runData.Value(), name, "target", t);
        var err := runData.Set(Some(name), [("target", t)]);
        assert err.None?;
        i := i + 1;
      }
      ResetTargetsIdentity(p0, setup.names);
      return Ok(());
    }

    /** The seeding loop of `__retrain`, saving after every A it sets. */
    method SeedLoop(member: int) returns (r: Result<()>)
      modifies this`fs, runData
      ensures r.Ok? <==> SeedAll(old(runData.Value()), old(fs), j, member, setup.stateFile, setup.names).Ok?
      ensures r.Ok? ==> (runData.Value(), fs) == SeedAll(old(runData.Value()), old(fs), j, member, setup.stateFile, setup.names).value
    {
      var i := 0;
      while i < |setup.names|
        invariant 0 <= i <= |setup.names|
        invariant SeedAll(old(runData.Value()), old(fs), j, member, setup.stateFile, setup.names) ==
                  SeedAll(runData.Value(), fs, j, member, setup.stateFile, setup.names[i..])
      {
        var name := setup.names[i];
        assert setup.names[i..][1..] == setup.names[i + 1..];
        if MemoryFile(member) !in fs {
          return Err(FileNotFound);
        }
        if j != map[] {
          var t :- PairNum(runData.Value(), name, "target");
          var e :- Lookup(j, name);
          var seed := Seed(e, TargetKey(t));
          if seed.Some? {
            SetPairIsSet(runData.Value(), name, "A", JReal(seed.value));
            var err := runData.Set(Some(name), [("A", JReal(seed.value))]);
            assert err.None?;
            Save();
          }
        }
        i := i + 1;
      }
      return Ok(());
    }

    /** The first part of `__retrain`: reload, restore the targets, save. */
    method Reload() returns (r: Result<()>)
      modifies this, runData
      ensures r.Ok? <==> Reloaded(setup, old(Current())).Ok?
      ensures r.Ok? ==> Current() == Reloaded(setup, old(Current())).value
    {
      if setup.stateFile !in fs {
        return Err(FileNotFound);
      }
      if !fs[setup.stateFile].StateDoc? {
        return Err(DecodeError);
      }
      var err := runData.FromDictionary(fs[setup.stateFile].doc);
      if err.Some? {
        return Err(err.value);
      }
      ghost var p1 := runData.Value();
      assert Workflow.LoadConfig(old(runData.Value()), fs, setup.stateFile) == (p1, None);
      if retrainCount == 6 {
        retrainCount := 0;
      }
      var ok :- RestoreTargets();
      ResetTargetsIdentity(p1, setup.names);
      Save();
      return Ok(());
    }

    /** `__retrain`. */
    method Retrain() returns (r: Result<()>)
      modifies this, runData
      ensures r.Ok? <==> AfterRetrain(setup, old(Current())).Ok?
      ensures r.Ok? ==> Current() == AfterRetrain(setup, old(Current())).value
    {
      var ok :- Reload();
      var member :- Int(runData.Value(), "ensemble_num");
      ok :- SeedLoop(member);
      if dict1 == 1 {
        dict1 := 0;
      }
      if dict1 == 0 {
        dict1 := 3;
      }
      return Ok(());
    }

    /** `datDict`. */
    method DatDict() returns (r: Result<()>)
      modifies this, runData
      ensures r.Ok? <==> AfterDatDict(setup, old(Current())).Ok?
      ensures r.Ok? ==> Current() == AfterDatDict(setup, old(Current())).value
    {
      var member :- Int(runData.Value(), "ensemble_num");
      if MemoryFile(member) !in fs {
        return Err(FileNotFound);
      }
      var content := fs[MemoryFile(member)];
      if content.EmptyFile? {
        j := FreshMemory();
      } else if content.MemoryDoc? {
        j := content.mem;
      } else {
        return Err(DecodeError);
      }
      assert Workflow.MemoryFrom(setup, fs, member) == Ok(j);
      sampleCount := 0.0;
      var ok :- AcceptLoop(member);
      fs := fs[MemoryFile(member) := MemoryDoc(j)];
      if dict1 == 1 || dict1 == 0 {
        ok :- Retrain();
      }
      return Ok(());
    }
  }
}
