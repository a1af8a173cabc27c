/** The files of an ensemble directory, as the workflow sees them, and the
    three placement rules of run_brer/run_config.py: relocating the engine's
    checkpoint between phase directories (`__move_cpt`), backing up a stale
    checkpoint before training (`__train`, `__retrain`), and bootstrapping the
    A-memory file (`__moveDict`).  The file system is a map from path to
    content; the engine checkpoint is an opaque blob. */
module Files {
  import opened Values
  import opened BiasMemory

  /** The paths the workflow reads and writes, under the ensemble directory. */
  datatype Path =
    | Checkpoint(member: int, iteration: int, phase: string)        // mem_<m>/<i>/<phase>/state.cpt
    | CheckpointBackup(member: int, iteration: int, phase: string)  // mem_<m>/<i>/<phase>/state.cpt.bak
    | MemoryFile(member: int)                                       // mem_<m>/dict.json
    | StateFile(member: int)                                        // mem_<m>/state.json
    | TrainingLog(member: int, iteration: int, name: string)        // mem_<m>/<i>/training/<name>.log

  /** The last line of a training log, as far as the workflow reads it:
      column 2 is the sample count and column 3 the target. */
  datatype LogLine = LogLine(sampleCount: real, target: real)

  datatype Content =
    | Blob(id: int)            // an engine checkpoint, copied and renamed, never read
    | EmptyFile                // a file of size 0
    | MemoryDoc(mem: WellFormedMemory)   // dict.json with content
    | StateDoc(doc: Json)      // state.json
    | Log(last: LogLine)       // a training log

  type FileSystem = map<Path, Content>

  /** Only the file at `p` differs between the two file systems. */
  ghost predicate OnlyChanged(fs: FileSystem, fs': FileSystem, p: Path)
  {
    forall q :: q != p ==> (q in fs <==> q in fs') && (q in fs ==> fs'[q] == fs[q])
  }

  /** Where `__move_cpt` takes the checkpoint of a phase from: training and
      convergence from the previous iteration's production (nothing at
      iteration 0), any other phase from this iteration's convergence. */
  function CptSource(member: int, iteration: int, phase: string): Option<Path>
  {
    if phase == "training" || phase == "convergence" then
      if iteration - 1 > -1 then Some(Checkpoint(member, iteration - 1, "production")) else None
    else Some(Checkpoint(member, iteration, "convergence"))
  }

  /** `__move_cpt`: copy the checkpoint into the current phase directory unless
      one is already there.  `shutil.copy` raises when the source is missing. */
  function MoveCpt(fs: FileSystem, member: int, iteration: int, phase: string): (r: Result<FileSystem>)
    // an existing checkpoint is never overwritten
    ensures Checkpoint(member, iteration, phase) in fs ==> r == Ok(fs)
    // training and convergence at iteration 0 copy nothing
    ensures (phase == "training" || phase == "convergence") && iteration <= 0 ==> r == Ok(fs)
    // training and convergence later copy the previous production checkpoint
    ensures (phase == "training" || phase == "convergence") && iteration > 0 &&
            Checkpoint(member, iteration, phase) !in fs ==>
              var src := Checkpoint(member, iteration - 1, "production");
              (src in fs ==> r == Ok(fs[Checkpoint(member, iteration, phase) := fs[src]])) &&
              (src !in fs ==> r == Err(FileNotFound))
    // production (and any other phase name) copies this iteration's convergence checkpoint
    ensures phase != "training" && phase != "convergence" &&
            Checkpoint(member, iteration, phase) !in fs ==>
              var src := Checkpoint(member, iteration, "convergence");
              (src in fs ==> r == Ok(fs[Checkpoint(member, iteration, phase) := fs[src]])) &&
              (src !in fs ==> r == Err(FileNotFound))
    // nothing but the destination checkpoint is touched
    ensures r.Ok? ==> OnlyChanged(fs, r.value, Checkpoint(member, iteration, phase))
  {
    var dst := Checkpoint(member, iteration, phase);
    if dst in fs then Ok(fs)
    else
      match CptSource(member, iteration, phase)
      case None => Ok(fs)
      case Some(src) => if src in fs then Ok(fs[dst := fs[src]]) else Err(FileNotFound)
  }

  /** Relocating twice is relocating once. */
  lemma MoveCptIdempotent(fs: FileSystem, member: int, iteration: int, phase: string)
    requires MoveCpt(fs, member, iteration, phase).Ok?
    ensures var fs' := MoveCpt(fs, member, iteration, phase).value;
            MoveCpt(fs', member, iteration, phase) == Ok(fs')
  {
  }

  /** The checkpoint backup of `__train` and `__retrain`: an existing
      state.cpt in the phase directory is renamed to state.cpt.bak (replacing
      an older backup), so training restarts from the beginning of the phase. */
  function BackupCpt(fs: FileSystem, member: int, iteration: int, phase: string): (r: FileSystem)
    ensures Checkpoint(member, iteration, phase) !in r
    ensures Checkpoint(member, iteration, phase) in fs ==>
              CheckpointBackup(member, iteration, phase) in r &&
              r[CheckpointBackup(member, iteration, phase)] == fs[Checkpoint(member, iteration, phase)]
    ensures Checkpoint(member, iteration, phase) !in fs ==> r == fs
    ensures forall q :: q != Checkpoint(member, iteration, phase) && q != CheckpointBackup(member, iteration, phase) ==>
              (q in fs <==> q in r) && (q in fs ==> r[q] == fs[q])
  {
    var cpt := Checkpoint(member, iteration, phase);
    if cpt in fs then (fs - {cpt})[CheckpointBackup(member, iteration, phase) := fs[cpt]] else fs
  }

  /** `__moveDict`: make sure the member has a memory file.  With the flag 0 an
      existing file is kept, else the previous member's file is copied, else an
      empty file is created; any other flag truncates the file to empty. */
  function MoveDict(fs: FileSystem, member: int, dictJson: int): (r: FileSystem)
    ensures MemoryFile(member) in r
    ensures OnlyChanged(fs, r, MemoryFile(member))
    ensures dictJson == 0 && MemoryFile(member) in fs ==> r == fs
    ensures dictJson == 0 && MemoryFile(member) !in fs ==>
              r[MemoryFile(member)] == (if MemoryFile(member - 1) in fs then fs[MemoryFile(member - 1)] else EmptyFile)
    ensures dictJson != 0 ==> r[MemoryFile(member)] == EmptyFile
  {
    var mine := MemoryFile(member);
    var prev := MemoryFile(member - 1);
    if dictJson == 0 then
      if mine in fs then fs
      else if prev in fs then fs[mine := fs[prev]]
      else fs[mine := EmptyFile]
    else fs[mine := EmptyFile]
  }
}
