/** A project and its history, in memory and in the database (server/projects.py). */
module Projects {
  import opened Wrappers
  import opened Overrides
  import opened Jobs
  import opened Migrations
  import opened Strings

  datatype Kind = Edit | SwapSessions | TemplateUpgrade

  datatype Entry = Entry(
    seqno: nat, job: string, overrides: NodeOverrides, title: string, created: string, published: bool,
    kind: Kind, snapshot: Option<string>)

  datatype TemplateId = TemplateId(id: string, version: nat)

  /** The job a render starts from. `wiring` stands for its external inputs. */
  datatype BaseJob = BaseJob(wiring: string, templateVersion: nat, overrides: NodeOverrides)

  datatype Columns = Columns(
    template: TemplateId, base: BaseJob, current: nat, draft: bool, sessions: seq<string>, updated: string,
    cover: Option<nat>, description: Option<string>)

  /** A project as the manager holds it, or as its rows read back: the history rows come in order of seq. */
  datatype State = State(cols: Columns, history: seq<Entry>)

  /** Sequence numbers are 0, 1, 2, ... in order, and the current one is among them. */
  predicate Valid(p: State) {
    && (forall i :: 0 <= i < |p.history| ==> p.history[i].seqno == i)
    && p.cols.current < |p.history|
  }

  function Current(p: State): Entry
    requires Valid(p)
  {
    p.history[p.cols.current]
  }

  // ---------------------------------------------------------------- the rows

  /** UPDATE projects: the columns the ordinary update writes. */
  function UpdateRow(rows: State, p: State): State {
    rows.(cols := rows.cols.(current := p.cols.current, draft := p.cols.draft, cover := p.cols.cover,
                             updated := p.cols.updated, description := p.cols.description))
  }

  /** The update after a session swap also writes the wiring. */
  function UpdateRowFull(rows: State, p: State): State {
    rows.(cols := UpdateRow(rows, p).cols.(base := p.cols.base, sessions := p.cols.sessions))
  }

  /** The update after an upgrade writes the template and little else. */
  function UpdateRowTemplate(rows: State, p: State): State {
    rows.(cols := rows.cols.(template := p.cols.template, base := p.cols.base, current := p.cols.current,
                             updated := p.cols.updated))
  }

  function InsertRow(rows: State, e: Entry): State {
    rows.(history := rows.history + [e])
  }

  /** UPDATE project_history: kind and snapshot are not among the columns. */
  function ReplacedRow(row: Entry, e: Entry): Entry {
    row.(job := e.job, overrides := e.overrides, title := e.title, created := e.created, published := e.published)
  }

  function ReplaceRow(rows: State, e: Entry): State {
    rows.(history := seq(|rows.history|, i requires 0 <= i < |rows.history| =>
      if rows.history[i].seqno == e.seqno then ReplacedRow(rows.history[i], e) else rows.history[i]))
  }

  function PublishRow(rows: State, seqno: nat, published: bool): State {
    rows.(history := seq(|rows.history|, i requires 0 <= i < |rows.history| =>
      if rows.history[i].seqno == seqno then rows.history[i].(published := published) else rows.history[i]))
  }

  // ---------------------------------------------------------------- the operations

  /** What a caller asks for, and what the job queue answered: the previous job's status as read, whether
      cancelling it took effect, and the id of the submitted job. `remapped` are the current overrides after the
      migration that is registered for the template, if one is. */
  datatype Op =
    | Patch(edit: Option<Patch>, draft: Option<bool>, title: string, status: Option<Status>, cancelled: bool, job: string, time: string)
    | Swap(base: BaseJob, sessions: seq<string>, snapshot: string, render: bool, title: string, job: string, time: string)
    | Upgrade(template: TemplateId, remapped: Option<NodeOverrides>, schema: Schema, snapshot: string, title: string, job: string, time: string)
    | Revert(seqno: nat, time: string)
    | SetCover(cover: Option<nat>, time: string)
    | SetPublished(seqno: nat, published: bool, time: string)
    | Describe(text: Option<string>, time: string)

  /** The patch overwrites the current entry instead of appending. */
  predicate Collapses(op: Op) {
    op.Patch? && (op.status == Some(Interrupted) || op.cancelled)
  }

  /** The operation is refused and changes nothing. */
  predicate Refused(p: State, op: Op) {
    match op
    case Upgrade(t, _, _, _, _, _, _) => t.id != p.cols.template.id || t.version <= p.cols.template.version
    case Revert(n, _) => n >= |p.history|
    case SetCover(c, _) => c.Some? && c.value >= |p.history|
    case SetPublished(n, _, _) => n >= |p.history|
    case _ => false
  }

  function PatchedOverrides(p: State, edit: Option<Patch>): NodeOverrides
    requires Valid(p)
  {
    if edit.Some? then Merged(Current(p).overrides, edit.value) else Current(p).overrides
  }

  function SwappedOverrides(p: State, base: BaseJob): NodeOverrides
    requires Valid(p)
  {
    if base.overrides == map[] then Current(p).overrides else Merged(base.overrides, AsPatch(Current(p).overrides))
  }

  function UpgradedOverrides(p: State, remapped: Option<NodeOverrides>, schema: Schema): NodeOverrides
    requires Valid(p)
  {
    Migrated(if remapped.Some? then remapped.value else Current(p).overrides, schema)
  }

  /** A blank note is no note. */
  function Note(text: Option<string>): Option<string> {
    if text.Some? && Strip(text.value) != "" then Some(Strip(text.value)) else None
  }

  /** The entry an operation writes, under sequence number `n`. */
  function NewEntry(p: State, op: Op, n: nat): Entry
    requires Valid(p) && (op.Patch? || op.Swap? || op.Upgrade?)
  {
    match op
    case Patch(edit, _, title, _, _, job, time) =>
      Entry(n, job, PatchedOverrides(p, edit), title, time, Collapses(op) && Current(p).published, Edit, None)
    case Swap(base, _, snapshot, render, title, job, time) =>
      Entry(n, if render then job else Current(p).job, SwappedOverrides(p, base), title, time, false, SwapSessions, Some(snapshot))
    case Upgrade(_, remapped, schema, snapshot, title, job, time) =>
      Entry(n, job, UpgradedOverrides(p, remapped, schema), title, time, false, TemplateUpgrade, Some(snapshot))
  }

  function Apply(p: State, op: Op): State
    requires Valid(p)
  {
    if Refused(p, op) then p else
    match op
    case Patch(_, draft, _, _, _, _, time) =>
      var cols := p.cols.(draft := if draft.Some? then draft.value else p.cols.draft, updated := time);
      if Collapses(op) then State(cols, p.history[p.cols.current := NewEntry(p, op, p.cols.current)])
      else State(cols.(current := |p.history|), p.history + [NewEntry(p, op, |p.history|)])
    case Swap(base, sessions, _, _, _, _, time) =>
      State(p.cols.(base := base.(overrides := map[]), sessions := sessions, current := |p.history|, updated := time),
            p.history + [NewEntry(p, op, |p.history|)])
    case Upgrade(template, _, _, _, _, _, time) =>
      State(p.cols.(template := template, base := p.cols.base.(templateVersion := template.version),
                    current := |p.history|, updated := time),
            p.history + [NewEntry(p, op, |p.history|)])
    case Revert(n, time) => p.(cols := p.cols.(current := n, updated := time))
    case SetCover(c, time) => p.(cols := p.cols.(cover := c, updated := time))
    case SetPublished(n, published, time) =>
      State(p.cols.(updated := time), p.history[n := p.history[n].(published := published)])
    case Describe(text, time) => p.(cols := p.cols.(description := Note(text), updated := time))
  }

  /** The rows after the same operation, written from the new state in memory. */
  function ApplyRows(rows: State, p: State, op: Op): State
    requires Valid(p)
  {
    if Refused(p, op) then rows else
    var p' := Apply(p, op);
    match op
    case Patch(_, _, _, _, _, _, _) =>
      if Collapses(op) then ReplaceRow(UpdateRow(rows, p'), NewEntry(p, op, p.cols.current))
      else InsertRow(UpdateRow(rows, p'), NewEntry(p, op, |p.history|))
    case Swap(_, _, _, _, _, _, _) => InsertRow(UpdateRowFull(rows, p'), NewEntry(p, op, |p.history|))
    case Upgrade(_, _, _, _, _, _, _) => InsertRow(UpdateRowTemplate(rows, p'), NewEntry(p, op, |p.history|))
    case SetPublished(n, published, _) => UpdateRow(PublishRow(rows, n, published), p')
    case _ => UpdateRow(rows, p')
  }

  function Created(template: TemplateId, base: BaseJob, sessions: seq<string>, job: string, time: string): State {
    State(Columns(template, base.(overrides := map[]), 0, false, sessions, time, None, None),
          [Entry(0, job, base.overrides, "initial render", time, false, Edit, None)])
  }

  /** max(seq) + 1 over the history. */
  function NextSeq(history: seq<Entry>): nat {
    if |history| == 0 then 0 else
    var rest, e := NextSeq(history[..|history| - 1]), history[|history| - 1];
    if e.seqno + 1 > rest then e.seqno + 1 else rest
  }

  lemma {:induction false} NextIsLength(history: seq<Entry>)
    requires forall i :: 0 <= i < |history| ==> history[i].seqno == i
    ensures NextSeq(history) == |history|
  {
    if |history| > 0 {
      NextIsLength(history[..|history| - 1]);
    }
  }

  // ---------------------------------------------------------------- the manager

  /** One project of the manager with its rows in the database; writes succeed. */
  class Project {
    var template: TemplateId
    var base: BaseJob
    var current: nat
    var draft: bool
    var sessions: seq<string>
    var updated: string
    var cover: Option<nat>
    var description: Option<string>
    var history: seq<Entry>
    var rows: State

    /** The fields as a value. */
    function Mem(): State
      reads this
    {
      State(Columns(template, base, current, draft, sessions, updated, cover, description), history)
    }

    /** The initial entry carries the overrides that came with the job. */
    constructor (template: TemplateId, base: BaseJob, sessions: seq<string>, job: string, time: string)
      ensures Mem() == Created(template, base, sessions, job, time) && rows == Mem() && Valid(Mem())
    {
      var e := Entry(0, job, base.overrides, "initial render", time, false, Edit, None);
      this.template, this.base, this.sessions := template, base.(overrides := map[]), sessions;
      current, draft, updated, cover, description := 0, false, time, None, None;
      history := [e];
      rows := State(Columns(template, base.(overrides := map[]), 0, false, sessions, time, None, None), [e]);
    }

    /** Appends an entry and moves the current position to it. */
    method Append(job: string, overrides: NodeOverrides, title: string, time: string, kind: Kind, snapshot: Option<string>)
      returns (e: Entry)
      requires Valid(Mem())
      modifies this`history, this`current, this`updated
      ensures e == Entry(|old(history)|, job, overrides, title, time, false, kind, snapshot)
      ensures history == old(history) + [e] && current == |old(history)| && updated == time
    {
      var max: int := -1;
      for i := 0 to |history|
        invariant max == NextSeq(history[..i]) - 1
      {
        assert history[..i + 1][..i] == history[..i];
        if history[i].seqno > max {
          max := history[i].seqno;
        }
      }
      assert history[..|history|] == history;
      NextIsLength(history);
      e := Entry(max + 1, job, overrides, title, time, false, kind, snapshot);
      history := history + [e];
      current := e.seqno;
      updated := time;
    }

    /** Edits overrides; a current entry whose job was interrupted, or was still live, is overwritten. */
    method PatchOverrides(edit: Option<Patch>, newDraft: Option<bool>, title: string, status: Option<Status>,
                          cancelled: bool, job: string, time: string)
      requires Valid(Mem())
      modifies this
      ensures var op := Patch(edit, newDraft, title, status, cancelled, job, time);
        Mem() == Apply(old(Mem()), op) && rows == ApplyRows(old(rows), old(Mem()), op)
    {
      hide Merged, UpdateRow, ReplaceRow, InsertRow, NextSeq;
      var prev := history[current];
      var overrides := prev.overrides;
      if edit.Some? {
        overrides := DeepMerge(prev.overrides, edit.value);
      }
      if newDraft.Some? {
        draft := newDraft.value;
      }
      if status == Some(Interrupted) || cancelled {
        var e := Entry(prev.seqno, job, overrides, title, time, prev.published, Edit, None);
        history := history[current := e];
        updated := time;
        rows := UpdateRow(rows, Mem());
        rows := ReplaceRow(rows, e);
      } else {
        var e := Append(job, overrides, title, time, Edit, None);
        rows := UpdateRow(rows, Mem());
        rows := InsertRow(rows, e);
      }
    }

    method SwapSources(newBase: BaseJob, newSessions: seq<string>, snapshot: string, render: bool, title: string,
                       job: string, time: string)
      requires Valid(Mem())
      modifies this
      ensures var op := Swap(newBase, newSessions, snapshot, render, title, job, time);
        Mem() == Apply(old(Mem()), op) && rows == ApplyRows(old(rows), old(Mem()), op)
    {
      var overrides := history[current].overrides;
      var prevJob := history[current].job;
      if newBase.overrides != map[] {
        overrides := DeepMerge(newBase.overrides, AsPatch(overrides));
      }
      base := newBase.(overrides := map[]);
      sessions := newSessions;
      var e := Append(if render then job else prevJob, overrides, title, time, SwapSessions, Some(snapshot));
      rows := UpdateRowFull(rows, Mem());
      rows := InsertRow(rows, e);
    }

    /** The overrides move to the new template, and what does not survive is returned. */
    method UpgradeTo(newTemplate: TemplateId, remapped: Option<NodeOverrides>, schema: Schema, snapshot: string,
                     title: string, job: string, time: string)
      returns (ok: bool, dropped: set<Drop>)
      requires Valid(Mem())
      modifies this
      ensures var op := Upgrade(newTemplate, remapped, schema, snapshot, title, job, time);
        Mem() == Apply(old(Mem()), op) && rows == ApplyRows(old(rows), old(Mem()), op) && ok == !Refused(old(Mem()), op)
      ensures ok ==> forall d :: d in dropped <==>
        Dropped(if remapped.Some? then remapped.value else old(history[current].overrides), schema, d)
    {
      hide Migrated, Dropped;
      dropped := {};
      if newTemplate.id != template.id || newTemplate.version <= template.version {
        return false, dropped;
      }
      var overrides := if remapped.Some? then remapped.value else history[current].overrides;
      overrides, dropped := MigrateParamOverrides(overrides, schema);
      template := newTemplate;
      base := base.(templateVersion := newTemplate.version);
      var e := Append(job, overrides, title, time, TemplateUpgrade, Some(snapshot));
      rows := UpdateRowTemplate(rows, Mem());
      rows := InsertRow(rows, e);
      return true, dropped;
    }

    /** Moves the current position; submits nothing. */
    method RevertTo(seqno: nat, time: string) returns (ok: bool)
      requires Valid(Mem())
      modifies this
      ensures var op := Revert(seqno, time);
        Mem() == Apply(old(Mem()), op) && rows == ApplyRows(old(rows), old(Mem()), op) && ok == !Refused(old(Mem()), op)
      ensures history == old(history)
    {
      assert seqno < |history| ==> history[seqno].seqno == seqno;
      if forall i :: 0 <= i < |history| ==> history[i].seqno != seqno {
        return false;
      }
      current, updated := seqno, time;
      rows := UpdateRow(rows, Mem());
      return true;
    }

    method Publish(seqno: nat, published: bool, time: string) returns (ok: bool)
      requires Valid(Mem())
      modifies this
      ensures var op := SetPublished(seqno, published, time);
        Mem() == Apply(old(Mem()), op) && rows == ApplyRows(old(rows), old(Mem()), op) && ok == !Refused(old(Mem()), op)
    {
      if seqno >= |history| {
        return false;
      }
      history := history[seqno := history[seqno].(published := published)];
      updated := time;
      rows := PublishRow(rows, seqno, published);
      rows := UpdateRow(rows, Mem());
      return true;
    }

    method PinCover(newCover: Option<nat>, time: string) returns (ok: bool)
      requires Valid(Mem())
      modifies this
      ensures var op := SetCover(newCover, time);
        Mem() == Apply(old(Mem()), op) && rows == ApplyRows(old(rows), old(Mem()), op) && ok == !Refused(old(Mem()), op)
    {
      if newCover.Some? && newCover.value >= |history| {
        return false;
      }
      cover, updated := newCover, time;
      rows := UpdateRow(rows, Mem());
      return true;
    }

    /** Keeps the text without the white space around it, and nothing of a blank one. */
    method SetDescription(text: Option<string>, time: string)
      requires Valid(Mem())
      modifies this
      ensures Mem() == Apply(old(Mem()), Describe(text, time)) && rows == ApplyRows(old(rows), old(Mem()), Describe(text, time))
      ensures description.None? <==> text.None? || Blank(text.value)
      ensures description.Some? ==> description.value != "" && Trims(text.value, description.value)
    {
      description, updated := None, time;
      if text.Some? {
        StripTrims(text.value);
        StripEmpty(text.value);
        var stripped := Strip(text.value);
        if stripped != "" {
          description := Some(stripped);
        }
      }
      rows := UpdateRow(rows, Mem());
    }
  }

  // ---------------------------------------------------------------- what every operation keeps

  lemma ApplyValid(p: State, op: Op)
    requires Valid(p)
    ensures Valid(Apply(p, op)) && |p.history| <= |Apply(p, op).history|
  {
  }

  /** Which entries an operation may change: a collapsing patch the current one, publishing the published
      flag of one, and nothing else; a revert changes none. */
  lemma EntriesKept(p: State, op: Op, i: nat)
    requires Valid(p) && i < |p.history|
    ensures var q := Apply(p, op);
      && i < |q.history|
      && (q.history[i] != p.history[i] ==>
            (Collapses(op) && i == p.cols.current)
            || (op.SetPublished? && i == op.seqno && q.history[i] == p.history[i].(published := op.published)))
      && (op.Revert? ==> q.history == p.history)
  {
  }

  /** A patch overwrites the current entry exactly when its job was interrupted or was cancelled while live;
      otherwise it appends, and either way the new entry is current. */
  lemma PatchCollapsesExactly(p: State, op: Op)
    requires Valid(p) && op.Patch?
    ensures var q := Apply(p, op);
      && |q.history| == |p.history| + (if op.status == Some(Interrupted) || op.cancelled then 0 else 1)
      && Valid(q) && Current(q).job == op.job
      && (forall i :: 0 <= i < |p.history| && (i != p.cols.current || !(op.status == Some(Interrupted) || op.cancelled)) ==>
            q.history[i] == p.history[i])
  {
  }

  /** After a session swap every parameter the user had set keeps its value. */
  lemma SwapKeepsUserValues(p: State, op: Op, nid: string, k: string)
    requires Valid(p) && op.Swap? && Value(Current(p).overrides, nid, k).Some?
    ensures Value(Current(Apply(p, op)).overrides, nid, k) == Value(Current(p).overrides, nid, k)
  {
    if op.base.overrides != map[] {
      MergedValue(op.base.overrides, AsPatch(Current(p).overrides), nid, k);
    }
  }

  /** After an upgrade without a registered migration, every override whose parameter still exists keeps its value,
      and no other override is there. */
  lemma UpgradeKeepsUserValues(p: State, op: Op, nid: string, k: string)
    requires Valid(p) && op.Upgrade? && !Refused(p, op) && op.remapped.None?
    ensures Value(Current(Apply(p, op)).overrides, nid, k) ==
      if nid in op.schema && k in op.schema[nid] then Value(Current(p).overrides, nid, k) else None
  {
    NothingLostSilently(Current(p).overrides, op.schema, nid, k);
  }

  // ---------------------------------------------------------------- memory and rows over whole runs

  function Run(p: State, ops: seq<Op>): (q: State)
    requires Valid(p)
    ensures Valid(q)
  {
    if |ops| == 0 then p else
    var q := Run(p, ops[..|ops| - 1]);
    ApplyValid(q, ops[|ops| - 1]);
    Apply(q, ops[|ops| - 1])
  }

  function RunRows(rows: State, p: State, ops: seq<Op>): State
    requires Valid(p)
  {
    if |ops| == 0 then rows else
    ApplyRows(RunRows(rows, p, ops[..|ops| - 1]), Run(p, ops[..|ops| - 1]), ops[|ops| - 1])
  }

  /** The operation rewrites entry `i` or its published flag. */
  predicate Rewrites(p: State, op: Op, i: nat)
    requires Valid(p)
  {
    (Collapses(op) && p.cols.current == i) || (op.SetPublished? && op.seqno == i)
  }

  predicate NeverRewrites(p: State, ops: seq<Op>, i: nat)
    requires Valid(p)
  {
    if |ops| == 0 then true else
    NeverRewrites(p, ops[..|ops| - 1], i) && !Rewrites(Run(p, ops[..|ops| - 1]), ops[|ops| - 1], i)
  }

  /** Over every run the history only grows, keeps its numbers, and an entry that no patch overwrote while it
      was current is still there as it was: a revert can always go back to it. */
  lemma {:induction false} EntryOutlivesRuns(p: State, ops: seq<Op>, i: nat)
    requires Valid(p) && i < |p.history| && NeverRewrites(p, ops, i)
    ensures i < |Run(p, ops).history| && Run(p, ops).history[i] == p.history[i] && Run(p, ops).history[i].seqno == i
    ensures forall time :: !Refused(Run(p, ops), Revert(i, time))
    ensures forall time :: Current(Apply(Run(p, ops), Revert(i, time))) == p.history[i]
  {
    if |ops| > 0 {
      EntryOutlivesRuns(p, ops[..|ops| - 1], i);
      EntriesKept(Run(p, ops[..|ops| - 1]), ops[|ops| - 1], i);
    }
  }

  /** A collapse that overwrites an entry of another kind in memory; its row keeps the kind and the snapshot. */
  predicate CollapsesNonEdit(p: State, op: Op)
    requires Valid(p)
  {
    Collapses(op) && Current(p).kind != Edit
  }

  /** Edit entries carry no snapshot. */
  predicate Plain(e: Entry) {
    e.kind == Edit ==> e.snapshot.None?
  }

  /** The row is the entry, or it is an edit in memory whose row still has another kind. */
  predicate RowOf(row: Entry, e: Entry) {
    && Plain(row) && Plain(e)
    && row.(kind := e.kind, snapshot := e.snapshot) == e
    && (row == e || (e.kind == Edit && row.kind != Edit))
  }

  predicate Mirrors(rows: State, p: State) {
    && rows.cols == p.cols && |rows.history| == |p.history|
    && forall i :: 0 <= i < |p.history| ==> RowOf(rows.history[i], p.history[i])
  }

  lemma CreatedMirrors(template: TemplateId, base: BaseJob, sessions: seq<string>, job: string, time: string)
    ensures var p := Created(template, base, sessions, job, time); Valid(p) && Mirrors(p, p)
  {
  }

  lemma StepColumns(rows: State, p: State, op: Op)
    requires Valid(p) && rows.cols == p.cols
    ensures ApplyRows(rows, p, op).cols == Apply(p, op).cols
  {
  }

  lemma StepMirrors(rows: State, p: State, op: Op)
    requires Valid(p) && Mirrors(rows, p)
    ensures Mirrors(ApplyRows(rows, p, op), Apply(p, op))
  {
    StepColumns(rows, p, op);
    StepHistory(rows, p, op);
  }

  lemma StepHistory(rows: State, p: State, op: Op)
    requires Valid(p) && Mirrors(rows, p)
    ensures var r, q := ApplyRows(rows, p, op).history, Apply(p, op).history;
      |r| == |q| && forall i :: 0 <= i < |q| ==> RowOf(r[i], q[i])
  {
    hide Merged, PatchedOverrides, SwappedOverrides;
    var r, q := ApplyRows(rows, p, op).history, Apply(p, op).history;
    forall i | 0 <= i < |q| ensures RowOf(r[i], q[i]) {
      if i < |p.history| {
        assert RowOf(rows.history[i], p.history[i]);
      }
    }
  }

  /** A step leaves memory and rows equal exactly when they were equal and no entry of another kind was overwritten. */
  lemma StepEqual(rows: State, p: State, op: Op)
    requires Valid(p) && Mirrors(rows, p)
    ensures ApplyRows(rows, p, op) == Apply(p, op) <==> rows == p && !CollapsesNonEdit(p, op)
  {
    StepColumns(rows, p, op);
    StepMirrors(rows, p, op);
    var r, q := ApplyRows(rows, p, op), Apply(p, op);
    if rows == p && !CollapsesNonEdit(p, op) {
      EqualStays(p, op);
    }
    if rows == p && CollapsesNonEdit(p, op) {
      CollapseDrifts(p, op);
    }
    if rows != p {
      var i := FirstDrift(rows, p);
      DriftStays(rows, p, op, i);
    }
  }

  lemma EqualStays(p: State, op: Op)
    requires Valid(p) && !CollapsesNonEdit(p, op) && Mirrors(p, p)
    ensures ApplyRows(p, p, op) == Apply(p, op)
  {
    hide Merged, PatchedOverrides, SwappedOverrides;
    StepColumns(p, p, op);
    var r, q := ApplyRows(p, p, op).history, Apply(p, op).history;
    assert |r| == |q|;
    forall i | 0 <= i < |q| ensures r[i] == q[i] {
      if i < |p.history| {
        assert RowOf(p.history[i], p.history[i]);
      }
    }
  }

  lemma CollapseDrifts(p: State, op: Op)
    requires Valid(p) && CollapsesNonEdit(p, op)
    ensures ApplyRows(p, p, op) != Apply(p, op)
  {
    var i := p.cols.current;
    assert ApplyRows(p, p, op).history[i].kind != Edit && Apply(p, op).history[i].kind == Edit;
  }

  lemma FirstDrift(rows: State, p: State) returns (i: nat)
    requires Mirrors(rows, p) && rows != p
    ensures i < |p.history| && i < |rows.history| && rows.history[i].kind != Edit && p.history[i].kind == Edit
  {
    assert rows.history != p.history;
    i :| 0 <= i < |p.history| && rows.history[i] != p.history[i];
    assert RowOf(rows.history[i], p.history[i]);
  }

  /** A drifted row never catches up. */
  lemma DriftStays(rows: State, p: State, op: Op, i: nat)
    requires Valid(p) && Mirrors(rows, p)
    requires i < |p.history| && rows.history[i].kind != Edit && p.history[i].kind == Edit
    ensures ApplyRows(rows, p, op) != Apply(p, op)
  {
    hide Merged, PatchedOverrides, SwappedOverrides;
    var r, q := ApplyRows(rows, p, op).history, Apply(p, op).history;
    assert i < |r| && i < |q| && r[i].kind != Edit && q[i].kind == Edit;
  }

  /** No step of the run overwrites an entry of another kind. */
  predicate NeverCollapsesNonEdit(p: State, ops: seq<Op>)
    requires Valid(p)
  {
    if |ops| == 0 then true else
    var n := |ops| - 1;
    NeverCollapsesNonEdit(p, ops[..n]) && !CollapsesNonEdit(Run(p, ops[..n]), ops[n])
  }

  lemma {:induction false} RunMirrors(p: State, ops: seq<Op>)
    requires Valid(p) && Mirrors(p, p)
    ensures Mirrors(RunRows(p, p, ops), Run(p, ops))
  {
    if |ops| > 0 {
      RunMirrors(p, ops[..|ops| - 1]);
      StepMirrors(RunRows(p, p, ops[..|ops| - 1]), Run(p, ops[..|ops| - 1]), ops[|ops| - 1]);
    }
  }

  /** Reading the rows back after any run gives the project in memory if and only if no patch of the run
      overwrote a session-swap or upgrade entry. */
  lemma {:induction false} RehydratesExactly(p: State, ops: seq<Op>)
    requires Valid(p) && Mirrors(p, p)
    ensures RunRows(p, p, ops) == Run(p, ops) <==> NeverCollapsesNonEdit(p, ops)
  {
    if |ops| > 0 {
      var n := |ops| - 1;
      RehydratesExactly(p, ops[..n]);
      RunMirrors(p, ops[..n]);
      StepEqual(RunRows(p, p, ops[..n]), Run(p, ops[..n]), ops[n]);
    }
  }

  /** In particular for a project just created, whatever is done to it. */
  lemma CreatedRehydrates(template: TemplateId, base: BaseJob, sessions: seq<string>, job: string, time: string, ops: seq<Op>)
    ensures var p := Created(template, base, sessions, job, time);
      Valid(p) && (RunRows(p, p, ops) == Run(p, ops) <==> NeverCollapsesNonEdit(p, ops))
  {
    CreatedMirrors(template, base, sessions, job, time);
    RehydratesExactly(Created(template, base, sessions, job, time), ops);
  }

  /** A run whose rows read back differently: a session swap, then a patch while the job of its entry is live. */
  lemma SwapThenPatchDrifts(template: TemplateId, base: BaseJob, sessions: seq<string>, job: string, time: string,
                            swap: Op, patch: Op)
    requires swap.Swap? && patch.Patch? && patch.cancelled
    ensures var p := Created(template, base, sessions, job, time);
      Valid(p) && RunRows(p, p, [swap, patch]) != Run(p, [swap, patch])
  {
    hide RunRows, Created;
    var p := Created(template, base, sessions, job, time);
    CreatedRehydrates(template, base, sessions, job, time, [swap, patch]);
    assert [swap, patch][..1] == [swap] && [swap][..0] == [];
    assert Run(p, []) == p && Run(p, [swap]) == Apply(p, swap);
    assert CollapsesNonEdit(Run(p, [swap]), patch);
  }
}
