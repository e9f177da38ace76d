/** The life of one cache entry, step by step: reservation, the node's writes, the commit, failure
    cleanup, eviction, and a crash between any two of them. One writer at a time. */
module CommitProtocol {
  import opened Wrappers
  import opened CacheStore

  /** What a commit puts on record. */
  datatype Record = Record(outputs: Outputs, warnings: seq<string>)

  /** What the writer is about to do next. */
  datatype Phase =
    | Idle
    | Cleared
    | Writing
    | Checked(rec: Record)
    | Opened(rec: Record)
    | Filled(rec: Record)
    | Noting(rec: Record)
    | Ready(rec: Record)

  /** `recorded` is a history variable: what the last commit that went through had to record. */
  datatype State = State(dir: Option<Dir>, phase: Phase, recorded: Option<Record>)

  datatype Step =
    | Clear(force: bool)
    | Create
    | WriteFile(path: string, size: nat)
    | RemoveFile(path: string)
    | CheckOutputs(produced: map<string, Output>, warnings: seq<string>)
    | OpenManifest
    | FillManifest
    | OpenWarnings
    | FillWarnings
    | TouchDone
    | GiveUp
    | Evicted
    | Crash

  predicate Committed(d: Option<Dir>) {
    d.Some? && d.value.done
  }

  /** One step; a step that is not possible in the state leaves it as it is. A writer whose directory
      is gone runs into an error. Without warnings there is no file to write for them. */
  function Take(s: State, a: Step): State {
    match a
    case Clear(force) =>
      if s.phase.Idle? then s.(dir := Wiped(s.dir, force), phase := Cleared) else s
    case Create =>
      if s.phase.Cleared? then s.(dir := Some(Made(s.dir)), phase := Writing) else s
    case WriteFile(path, size) =>
      if s.phase.Writing? && s.dir.Some? then s.(dir := Some(s.dir.value.(files := s.dir.value.files[path := size]))) else s
    case RemoveFile(path) =>
      if s.phase.Writing? && s.dir.Some? then s.(dir := Some(s.dir.value.(files := s.dir.value.files - {path}))) else s
    case CheckOutputs(produced, warnings) =>
      if !s.phase.Writing? then s
      else if s.dir.Some? && Usable(produced, s.dir.value.files) then s.(phase := Checked(Record(Slots(produced), warnings)))
      else s.(phase := Idle)
    case OpenManifest =>
      if !s.phase.Checked? then s
      else if s.dir.Some? then s.(dir := Some(TornManifest(s.dir.value)), phase := Opened(s.phase.rec))
      else s.(phase := Idle)
    case FillManifest =>
      if !s.phase.Opened? then s
      else if s.dir.Some? then
        s.(dir := Some(WrittenManifest(s.dir.value, s.phase.rec.outputs)),
           phase := if s.phase.rec.warnings == [] then Ready(s.phase.rec) else Filled(s.phase.rec))
      else s.(phase := Idle)
    case OpenWarnings =>
      if !s.phase.Filled? then s
      else if s.dir.Some? then s.(dir := Some(TornWarnings(s.dir.value)), phase := Noting(s.phase.rec))
      else s.(phase := Idle)
    case FillWarnings =>
      if !s.phase.Noting? then s
      else if s.dir.Some? then
        s.(dir := Some(WrittenWarnings(s.dir.value, s.phase.rec.warnings)), phase := Ready(s.phase.rec))
      else s.(phase := Idle)
    case TouchDone =>
      if !s.phase.Ready? then s
      else if s.dir.Some? then State(Some(MarkedDone(s.dir.value)), Idle, Some(s.phase.rec)) else s.(phase := Idle)
    case GiveUp =>
      if s.phase.Writing? then s.(dir := None, phase := Idle) else s
    case Evicted => s.(dir := None)
    case Crash => s.(phase := Idle)
  }

  function TakeAll(s: State, steps: seq<Step>): State {
    if |steps| == 0 then s else Take(TakeAll(s, steps[..|steps| - 1]), steps[|steps| - 1])
  }

  /** The step reserves a committed entry without force, which leaves it as it is and lets the writer in. */
  predicate ReopensCommitted(s: State, a: Step) {
    s.phase.Idle? && a == Clear(false) && Committed(s.dir)
  }

  ghost predicate NeverReopens(s: State, steps: seq<Step>) {
    forall i :: 0 <= i < |steps| ==> !ReopensCommitted(TakeAll(s, steps[..i]), steps[i])
  }

  /** A committed entry has a complete manifest of the recorded outputs, their files, and the recorded warnings. */
  predicate EntrySound(s: State) {
    Committed(s.dir) ==>
      s.dir.value.manifest.Complete? && !s.dir.value.sidecar.TornSidecar?
      && s.recorded == Some(Record(s.dir.value.manifest.outputs, LoadedWarnings(s.dir)))
      && PathsExist(s.dir.value.manifest.outputs, s.dir.value.files)
  }

  /** A writer at work has an uncommitted entry, after the check the checked outputs are there, and no warnings of
      an earlier run are. */
  predicate WriterSound(s: State) {
    match s.phase
    case Idle => true
    case Cleared => s.dir.None?
    case Writing => s.dir.Some? ==> !s.dir.value.done && s.dir.value.sidecar.NoSidecar?
    case _ => s.dir.Some? ==> !s.dir.value.done && InCommit(s.dir.value, s.phase)
  }

  predicate InCommit(d: Dir, p: Phase)
    requires !p.Idle? && !p.Cleared? && !p.Writing?
  {
    && PathsExist(p.rec.outputs, d.files)
    && (p.Filled? || p.Noting? ==> p.rec.warnings != [])
    && (p.Filled? || p.Noting? || p.Ready? ==> d.manifest == Complete(p.rec.outputs))
    && (p.Checked? || p.Opened? || p.Filled? ==> d.sidecar.NoSidecar?)
    && (p.Ready? ==> d.sidecar == if p.rec.warnings == [] then NoSidecar else Stored(p.rec.warnings))
  }

  predicate Inv(s: State) {
    EntrySound(s) && WriterSound(s)
  }

  lemma StepKeepsInv(s: State, a: Step)
    requires Inv(s) && !ReopensCommitted(s, a)
    ensures Inv(Take(s, a))
  {
    hide Slots, Usable;
    if a.CheckOutputs? && s.dir.Some? && Usable(a.produced, s.dir.value.files) {
      SlotsExist(a.produced, s.dir.value.files);
    }
  }

  lemma SlotsExist(produced: map<string, Output>, files: map<string, nat>)
    requires Usable(produced, files)
    ensures PathsExist(Slots(produced), files)
  {
  }

  /** Over every run, whatever crashes: if no step reopens a committed entry, a committed entry is complete
      and loading it gives exactly the outputs and the warnings of the commit that made it. */
  lemma {:induction false} CommitIsCrashSafe(s: State, steps: seq<Step>)
    requires Inv(s) && NeverReopens(s, steps)
    ensures Inv(TakeAll(s, steps))
    ensures Committed(TakeAll(s, steps).dir) ==>
      Loaded(TakeAll(s, steps).dir).Some?
      && TakeAll(s, steps).recorded ==
         Some(Record(Loaded(TakeAll(s, steps).dir).value, LoadedWarnings(TakeAll(s, steps).dir)))
      && PathsExist(Loaded(TakeAll(s, steps).dir).value, TakeAll(s, steps).dir.value.files)
  {
    if |steps| > 0 {
      var n := |steps| - 1;
      assert forall i :: 0 <= i < n ==> steps[..n][i] == steps[i] && steps[..n][..i] == steps[..i];
      CommitIsCrashSafe(s, steps[..n]);
      assert !ReopensCommitted(TakeAll(s, steps[..n]), steps[n]);
      StepKeepsInv(TakeAll(s, steps[..n]), steps[n]);
    }
  }

  /** The condition is needed, from every sound committed entry: once it is reopened, the second commit can
      be cut off after it has opened the manifest, and the marker vouches for a manifest that cannot be read. */
  lemma ReopeningCanTear(s: State, produced: map<string, Output>, warnings: seq<string>)
    requires Inv(s) && s.phase.Idle? && Committed(s.dir) && Usable(produced, s.dir.value.files)
    ensures var torn := TakeAll(s, [Clear(false), Create, CheckOutputs(produced, warnings), OpenManifest, Crash]);
      torn.phase.Idle? && Committed(torn.dir) && Loaded(torn.dir) == None && !Inv(torn)
  {
    hide Slots, Usable, PathsExist;
    var steps := [Clear(false), Create, CheckOutputs(produced, warnings), OpenManifest, Crash];
    TakeOne(s, steps, 0);
    TakeOne(s, steps, 1);
    TakeOne(s, steps, 2);
    TakeOne(s, steps, 3);
    TakeOne(s, steps, 4);
    assert steps[..5] == steps;
  }

  lemma TakeOne(s: State, steps: seq<Step>, i: nat)
    requires i < |steps|
    ensures TakeAll(s, steps[..i + 1]) == Take(TakeAll(s, steps[..i]), steps[i])
    ensures i == 0 ==> TakeAll(s, steps[..i]) == s
  {
    assert steps[..i + 1][..i] == steps[..i];
  }

  /** However it goes on without reopening a committed entry, a committed entry is complete and as recorded. */
  ghost predicate StaysComplete(s: State) {
    forall steps :: NeverReopens(s, steps) ==> EntrySound(TakeAll(s, steps))
  }

  lemma OtherStepsReopenNothing(s: State, steps: seq<Step>)
    requires forall i :: 0 <= i < |steps| ==> !steps[i].Clear?
    ensures NeverReopens(s, steps)
  {
  }

  lemma ReopenedTears(s: State)
    requires s.phase.Cleared? && Committed(s.dir)
    ensures !StaysComplete(s)
  {
    var steps := [Create, CheckOutputs(map[], []), OpenManifest];
    TakeOne(s, steps, 0);
    TakeOne(s, steps, 1);
    TakeOne(s, steps, 2);
    assert steps[..3] == steps;
    OtherStepsReopenNothing(s, steps);
    assert !EntrySound(TakeAll(s, steps));
  }

  /** Reopening a committed entry is exactly what must not happen: after a step from a sound state, every continuation
      that reopens nothing keeps committed entries complete if and only if the step itself reopens nothing. */
  lemma CompleteExactly(s: State, a: Step)
    requires Inv(s)
    ensures StaysComplete(Take(s, a)) <==> !ReopensCommitted(s, a)
  {
    hide Take, TakeAll, NeverReopens, EntrySound, WriterSound, StaysComplete;
    if ReopensCommitted(s, a) {
      ReopenedIsCleared(s);
      ReopenedTears(Take(s, a));
    } else {
      StepKeepsInv(s, a);
      SoundStays(Take(s, a));
    }
  }

  lemma ReopenedIsCleared(s: State)
    requires ReopensCommitted(s, Clear(false))
    ensures Take(s, Clear(false)) == s.(phase := Cleared)
  {
  }

  lemma SoundStays(s: State)
    requires Inv(s)
    ensures StaysComplete(s)
  {
    hide Take, TakeAll, NeverReopens, EntrySound, WriterSound;
    forall steps | NeverReopens(s, steps) ensures EntrySound(TakeAll(s, steps)) {
      CommitIsCrashSafe(s, steps);
    }
  }

  /** And so can a node that fails: its cleanup, or a file it replaces, takes a committed entry with it. */
  lemma ReopeningCanLoseFiles(s: State, port: string)
    requires Inv(s) && s.phase.Idle? && Committed(s.dir) && port in s.dir.value.manifest.outputs
    ensures var steps := [Clear(false), Create, RemoveFile(s.dir.value.manifest.outputs[port].path), Crash];
      var late := TakeAll(s, steps);
      Committed(late.dir) && Loaded(late.dir).Some? && !PathsExist(Loaded(late.dir).value, late.dir.value.files)
  {
    var steps := [Clear(false), Create, RemoveFile(s.dir.value.manifest.outputs[port].path), Crash];
    TakeOne(s, steps, 0);
    TakeOne(s, steps, 1);
    TakeOne(s, steps, 2);
    TakeOne(s, steps, 3);
    assert steps[..4] == steps;
  }

  // ---------------------------------------------------------------- the cache's methods are these steps

  /** Reserving is clearing and creating. */
  lemma ReserveIsSteps(s: State, force: bool)
    requires s.phase.Idle?
    ensures TakeAll(s, [Clear(force), Create]) == State(Some(Made(Wiped(s.dir, force))), Writing, s.recorded)
  {
    TakeOne(s, [Clear(force), Create], 0);
    TakeOne(s, [Clear(force), Create], 1);
    assert [Clear(force), Create][..2] == [Clear(force), Create];
  }

  /** An undisturbed commit is these steps after the node's writes, the two in the middle only with warnings. */
  lemma CommitIsSteps(s: State, produced: map<string, Output>, warnings: seq<string>)
    requires s.phase.Writing? && s.dir.Some? && Usable(produced, s.dir.value.files)
    ensures TakeAll(s, [CheckOutputs(produced, warnings), OpenManifest, FillManifest, OpenWarnings, FillWarnings, TouchDone]) ==
      State(Some(Dir(s.dir.value.files, Complete(Slots(produced)),
                     if warnings == [] then s.dir.value.sidecar else Stored(warnings), true, s.dir.value.marks)),
            Idle, Some(Record(Slots(produced), warnings)))
  {
    hide Slots, Usable, Take;
    var steps := [CheckOutputs(produced, warnings), OpenManifest, FillManifest, OpenWarnings, FillWarnings, TouchDone];
    TakeOne(s, steps, 0);
    TakeOne(s, steps, 1);
    TakeOne(s, steps, 2);
    TakeOne(s, steps, 3);
    TakeOne(s, steps, 4);
    TakeOne(s, steps, 5);
    assert steps[..6] == steps;
    ManifestSteps(s, produced, warnings);
    WarningSteps(Take(Take(Take(s, CheckOutputs(produced, warnings)), OpenManifest), FillManifest));
  }

  lemma ManifestSteps(s: State, produced: map<string, Output>, warnings: seq<string>)
    requires s.phase.Writing? && s.dir.Some? && Usable(produced, s.dir.value.files)
    ensures var rec := Record(Slots(produced), warnings);
      Take(Take(Take(s, CheckOutputs(produced, warnings)), OpenManifest), FillManifest) ==
      State(Some(s.dir.value.(manifest := Complete(rec.outputs))), if warnings == [] then Ready(rec) else Filled(rec), s.recorded)
  {
    hide Slots, Usable;
  }

  lemma WarningSteps(s: State)
    requires s.dir.Some? && (s.phase.Filled? || s.phase.Ready?) && (s.phase.Ready? <==> s.phase.rec.warnings == [])
    ensures var w := s.phase.rec.warnings;
      Take(Take(Take(s, OpenWarnings), FillWarnings), TouchDone) ==
      State(Some(s.dir.value.(sidecar := if w == [] then s.dir.value.sidecar else Stored(w), done := true)), Idle, Some(s.phase.rec))
  {
  }
}
