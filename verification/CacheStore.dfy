/** The content-addressed cache (server/cache.py): entry directories with a manifest, a commit marker
    and in-use marks. */
module CacheStore {
  import opened Wrappers

  /** One line of a manifest; the path is relative to the entry. */
  datatype Slot = Slot(path: string, portType: string, displayReady: bool)

  type Outputs = map<string, Slot>

  /** A manifest that was cut off while being written cannot be parsed. */
  datatype Manifest = NoManifest | Torn | Complete(outputs: Outputs)

  /** The file beside the manifest with the warnings of the run, if it had any. */
  datatype Sidecar = NoSidecar | TornSidecar | Stored(warnings: seq<string>)

  /** An entry directory: the node's files with their sizes, and what the cache keeps beside them. */
  datatype Dir = Dir(files: map<string, nat>, manifest: Manifest, sidecar: Sidecar, done: bool, marks: set<string>)

  const EMPTY_DIR := Dir(map[], NoManifest, NoSidecar, false, {})

  /** What a node returns on a port: a path inside the entry, or one that leads out of it. */
  datatype Output = Inside(slot: Slot) | Outside

  predicate PathsExist(outputs: Outputs, files: map<string, nat>) {
    forall port :: port in outputs ==> outputs[port].path in files
  }

  /** Every output lies in the entry and was written. */
  predicate Usable(produced: map<string, Output>, files: map<string, nat>) {
    forall port :: port in produced ==> produced[port].Inside? && produced[port].slot.path in files
  }

  function Slots(produced: map<string, Output>): Outputs {
    map port | port in produced && produced[port].Inside? :: produced[port].slot
  }

  // ---------------------------------------------------------------- the single effects on a directory

  function Wiped(d: Option<Dir>, force: bool): Option<Dir> {
    if d.Some? && (force || !d.value.done) then None else d
  }

  function Made(d: Option<Dir>): Dir {
    if d.Some? then d.value else EMPTY_DIR
  }

  function TornManifest(d: Dir): Dir {
    d.(manifest := Torn)
  }

  function WrittenManifest(d: Dir, outputs: Outputs): Dir {
    d.(manifest := Complete(outputs))
  }

  function TornWarnings(d: Dir): Dir {
    d.(sidecar := TornSidecar)
  }

  function WrittenWarnings(d: Dir, warnings: seq<string>): Dir {
    d.(sidecar := Stored(warnings))
  }

  function MarkedDone(d: Dir): Dir {
    d.(done := true)
  }

  function Loaded(d: Option<Dir>): Option<Outputs> {
    if d.Some? && d.value.done && d.value.manifest.Complete? then Some(d.value.manifest.outputs) else None
  }

  function LoadedWarnings(d: Option<Dir>): seq<string> {
    if d.Some? && d.value.done && d.value.sidecar.Stored? then d.value.sidecar.warnings else []
  }

  /** The marks that survive a check against the live jobs. */
  function KeepLive(d: Dir, alive: set<string>): Dir {
    d.(marks := d.marks * alive)
  }

  function At(root: map<string, Dir>, h: string): Option<Dir> {
    if h in root then Some(root[h]) else None
  }

  /** The cache after some jobs have given all their marks back. */
  function WithoutMarks(root: map<string, Dir>, jobs: set<string>): map<string, Dir> {
    map h | h in root :: root[h].(marks := root[h].marks - jobs)
  }

  lemma WithoutMoreMarks(root: map<string, Dir>, jobs: set<string>, job: string)
    ensures WithoutMarks(WithoutMarks(root, jobs), {job}) == WithoutMarks(root, jobs + {job})
    ensures WithoutMarks(root, {}) == root
  {
    forall h | h in root
      ensures WithoutMarks(root, {})[h] == root[h]
      ensures WithoutMarks(WithoutMarks(root, jobs), {job})[h] == WithoutMarks(root, jobs + {job})[h]
    {
      assert root[h].marks - {} == root[h].marks;
      assert root[h].marks - jobs - {job} == root[h].marks - (jobs + {job});
    }
  }

  /** The entries outside `todo` that bear the job's mark. */
  function MarkedBy(root: map<string, Dir>, job: string, todo: set<string>): set<string> {
    set h | h in root && h !in todo && job in root[h].marks
  }

  lemma NoneMarkedYet(root: map<string, Dir>, job: string)
    ensures MarkedBy(root, job, root.Keys) == {}
  {
  }

  lemma MarkedByNext(root: map<string, Dir>, job: string, todo: set<string>, h: string)
    requires h in todo && h in root
    ensures MarkedBy(root, job, todo - {h}) ==
      if job in root[h].marks then MarkedBy(root, job, todo) + {h} else MarkedBy(root, job, todo)
    ensures h !in MarkedBy(root, job, todo)
  {
  }

  // ---------------------------------------------------------------- sizes

  ghost function Sum(files: map<string, nat>): nat {
    if files == map[] then 0 else
    var k :| k in files;
    files[k] + Sum(files - {k})
  }

  /** The sum does not depend on the order in which the files are visited. */
  lemma {:induction false} SumWithout(files: map<string, nat>, k: string)
    requires k in files
    ensures Sum(files) == files[k] + Sum(files - {k})
    decreases |files|
  {
    var j :| j in files && Sum(files) == files[j] + Sum(files - {j});
    if j != k {
      SumWithout(files - {j}, k);
      SumWithout(files - {k}, j);
      assert files - {j} - {k} == files - {k} - {j};
    }
  }

  ghost function Bytes(d: Dir): nat {
    Sum(d.files)
  }

  // ---------------------------------------------------------------- the cache

  class ContentCache {
    var root: map<string, Dir>

    predicate IsCommitted(h: string)
      reads this
    {
      h in root && root[h].done
    }

    /** Creates the entry, or resets it; a committed entry is left alone unless forced. */
    method Reserve(h: string, force: bool)
      modifies this
      ensures root == old(root)[h := Made(Wiped(At(old(root), h), force))]
      ensures force || !old(IsCommitted(h)) ==> root[h] == EMPTY_DIR
      ensures !force && old(IsCommitted(h)) ==> root == old(root)
    {
      if h in root && (force || !IsCommitted(h)) {
        root := root - {h};
      }
      if h !in root {
        root := root[h := EMPTY_DIR];
      }
    }

    /** The manifest first, then the warnings if there are any, and the marker last. */
    method WriteRecord(h: string, manifest: Outputs, warnings: seq<string>)
      requires h in root
      modifies this
      ensures root == old(root)[h :=
        Dir(old(root)[h].files, Complete(manifest), if warnings == [] then old(root)[h].sidecar else Stored(warnings),
            true, old(root)[h].marks)]
    {
      root := root[h := TornManifest(root[h])];
      root := root[h := WrittenManifest(root[h], manifest)];
      if warnings != [] {
        root := root[h := TornWarnings(root[h])];
        root := root[h := WrittenWarnings(root[h], warnings)];
      }
      root := root[h := MarkedDone(root[h])];
    }

    /** The manifest of the outputs; none if one of them lies elsewhere or was not written. */
    static method BuildManifest(produced: map<string, Output>, files: map<string, nat>) returns (r: Option<Outputs>)
      ensures r == if Usable(produced, files) then Some(Slots(produced)) else None
    {
      var manifest: Outputs, ports := map[], produced.Keys;
      while ports != {}
        invariant ports <= produced.Keys && manifest.Keys == produced.Keys - ports
        invariant forall p :: p in manifest ==>
          produced[p].Inside? && manifest[p] == produced[p].slot && manifest[p].path in files
        decreases ports
      {
        var p :| p in ports;
        if produced[p].Outside? || produced[p].slot.path !in files {
          return None;
        }
        manifest := manifest[p := produced[p].slot];
        ports := ports - {p};
      }
      assert manifest == Slots(produced);
      return Some(manifest);
    }

    /** Refuses an entry that is not there and outputs that lie elsewhere or were not written. */
    method Commit(h: string, produced: map<string, Output>, warnings: seq<string>) returns (ok: bool)
      modifies this
      ensures ok == (h in old(root) && Usable(produced, old(root)[h].files))
      ensures ok ==> root == old(root)[h :=
        Dir(old(root)[h].files, Complete(Slots(produced)),
            if warnings == [] then old(root)[h].sidecar else Stored(warnings), true, old(root)[h].marks)]
      ensures !ok ==> root == old(root)
    {
      hide Usable, Slots;
      if h !in root {
        return false;
      }
      var manifest := BuildManifest(produced, root[h].files);
      if manifest.None? {
        return false;
      }
      WriteRecord(h, manifest.value, warnings);
      return true;
    }

    /** The committed outputs; nothing for an entry that is missing, uncommitted or has no readable manifest. */
    method LoadOutputs(h: string) returns (r: Option<Outputs>)
      ensures r == Loaded(At(root, h))
    {
      if !IsCommitted(h) {
        return None;
      }
      match root[h].manifest
      case Complete(outputs) => return Some(outputs);
      case _ => return None;
    }

    /** The warnings of the committed run; none for an entry that is missing, uncommitted or has no readable file. */
    method LoadWarnings(h: string) returns (r: seq<string>)
      ensures r == LoadedWarnings(At(root, h))
    {
      if !IsCommitted(h) {
        return [];
      }
      match root[h].sidecar
      case Stored(warnings) => return warnings;
      case _ => return [];
    }

    /** The bytes of an entry's files, whatever order the directory lists them in. */
    method EntrySize(h: string) returns (total: nat)
      ensures total == if h in root then Bytes(root[h]) else 0
    {
      total := 0;
      if h in root {
        var rest := root[h].files;
        while rest != map[]
          invariant total + Sum(rest) == Bytes(root[h])
          decreases |rest|
        {
          var path :| path in rest;
          SumWithout(rest, path);
          total := total + rest[path];
          rest := rest - {path};
        }
      }
    }

    /** Removes an entry and returns the bytes freed. */
    method Evict(h: string) returns (freed: nat)
      modifies this
      ensures root == old(root) - {h}
      ensures freed == if h in old(root) then Bytes(old(root)[h]) else 0
    {
      freed := EntrySize(h);
      root := root - {h};
    }

    method MarkInUse(h: string, job: string)
      modifies this
      ensures h in old(root) ==> root == old(root)[h := old(root)[h].(marks := old(root)[h].marks + {job})]
      ensures h !in old(root) ==> root == old(root)
    {
      if h in root {
        root := root[h := root[h].(marks := root[h].marks + {job})];
      }
    }

    /** Removes the job's mark wherever it is, and nothing else. */
    method ReleaseJobMarks(job: string) returns (removed: nat)
      modifies this
      ensures root == WithoutMarks(old(root), {job})
      ensures removed == |MarkedBy(old(root), job, {})|
    {
      hide MarkedBy;
      var todo := root.Keys;
      NoneMarkedYet(root, job);
      removed := 0;
      while todo != {}
        invariant todo <= old(root).Keys == root.Keys
        invariant forall h :: h in root ==>
          root[h] == if h in todo then old(root)[h] else old(root)[h].(marks := old(root)[h].marks - {job})
        invariant removed == |MarkedBy(old(root), job, todo)|
        decreases todo
      {
        var h :| h in todo;
        MarkedByNext(old(root), job, todo, h);
        if job in root[h].marks {
          root := root[h := root[h].(marks := root[h].marks - {job})];
          removed := removed + 1;
        }
        todo := todo - {h};
      }
    }

    predicate HeldBy(h: string, jobs: set<string>)
      reads this
    {
      h in root && root[h].marks * jobs != {}
    }

    /** Is a live job's mark on the entry? Marks of jobs that are not alive are deleted on the way. */
    method IsInUse(h: string, alive: set<string>) returns (live: bool)
      modifies this
      ensures live == old(HeldBy(h, alive))
      ensures h in old(root) ==> root == old(root)[h := KeepLive(old(root)[h], alive)]
      ensures h !in old(root) ==> root == old(root)
    {
      live := false;
      if h !in root {
        return;
      }
      var marks := root[h].marks;
      assert (marks * alive) + marks == marks;
      assert root[h].(marks := marks) == root[h];
      while marks != {}
        invariant h in old(root) && marks <= old(root)[h].marks
        invariant live == ((old(root)[h].marks - marks) * alive != {})
        invariant root == old(root)[h := old(root)[h].(marks := (old(root)[h].marks * alive) + marks)]
        decreases marks
      {
        var job :| job in marks;
        if job in alive {
          live := true;
          assert job in (old(root)[h].marks - (marks - {job})) * alive;
        } else {
          assert (old(root)[h].marks - (marks - {job})) * alive == (old(root)[h].marks - marks) * alive;
          root := root[h := root[h].(marks := root[h].marks - {job})];
        }
        marks := marks - {job};
        assert root[h].marks == (old(root)[h].marks * alive) + marks;
      }
      assert old(root)[h].marks - {} == old(root)[h].marks;
      assert (old(root)[h].marks * alive) + {} == old(root)[h].marks * alive;
    }
  }
}
