/** Storage from end to end (server/storage.py): the listing is built from the cache and the project histories, and
    the figures and purges that go by it are said in terms of the cache and the histories alone. */
module Storage {
  import opened CacheStore
  import opened Reachability
  import opened Accounting

  // ---------------------------------------------------------------- who owns what

  ghost function Owners(projects: seq<Project>, jobs: JobHashes, h: string): set<string> {
    set p | p in projects && Reaches(p, jobs, h) :: p.id
  }

  function Committed(root: map<string, Dir>): set<string> {
    set h | h in root && root[h].done
  }

  /** The committed entries whose owners are exactly the given ones. */
  ghost function OwnedOnlyBy(root: map<string, Dir>, projects: seq<Project>, jobs: JobHashes, owners: set<string>): set<string> {
    set h | h in Committed(root) && Owners(projects, jobs, h) == owners
  }

  /** The committed entries a project reaches with others. */
  ghost function SharedBy(root: map<string, Dir>, projects: seq<Project>, jobs: JobHashes, pid: string): set<string> {
    set h | h in Committed(root) && pid in Owners(projects, jobs, h) && Owners(projects, jobs, h) != {pid}
  }

  /** The committed entries several projects reach. */
  ghost function JointlyHeld(root: map<string, Dir>, projects: seq<Project>, jobs: JobHashes): set<string> {
    set h | h in Committed(root) && |Owners(projects, jobs, h)| > 1
  }

  /** The bytes of some entries of the cache. */
  ghost function BytesIn(root: map<string, Dir>, hs: set<string>): nat
    requires hs <= root.Keys
  {
    if hs == {} then 0 else
    var h :| h in hs;
    Bytes(root[h]) + BytesIn(root, hs - {h})
  }

  lemma {:induction false} BytesInWithout(root: map<string, Dir>, hs: set<string>, h: string)
    requires hs <= root.Keys && h in hs
    ensures BytesIn(root, hs) == Bytes(root[h]) + BytesIn(root, hs - {h})
    decreases |hs|
  {
    hide Bytes;
    var j :| j in hs && BytesIn(root, hs) == Bytes(root[j]) + BytesIn(root, hs - {j});
    if j != h {
      BytesInWithout(root, hs - {j}, h);
      BytesInWithout(root, hs - {h}, j);
      assert hs - {j} - {h} == hs - {h} - {j};
    }
  }

  lemma BytesInWith(root: map<string, Dir>, hs: set<string>, h: string)
    requires hs <= root.Keys && h in root && h !in hs
    ensures BytesIn(root, hs + {h}) == BytesIn(root, hs) + Bytes(root[h])
  {
    hide Bytes, BytesIn;
    BytesInWithout(root, hs + {h}, h);
    assert hs + {h} - {h} == hs;
  }

  lemma {:induction false} SameBytes(a: map<string, Dir>, b: map<string, Dir>, hs: set<string>)
    requires hs <= a.Keys && hs <= b.Keys && forall h :: h in hs ==> a[h].files == b[h].files
    ensures BytesIn(a, hs) == BytesIn(b, hs)
    decreases |hs|
  {
    if hs != {} {
      var h :| h in hs;
      SameBytes(a, b, hs - {h});
      BytesInWithout(a, hs, h);
      BytesInWithout(b, hs, h);
    }
  }

  // ---------------------------------------------------------------- the listing

  ghost predicate AllCharacterised(infos: seq<Info>, projects: seq<Project>, jobs: JobHashes) {
    forall i :: 0 <= i < |infos| ==> Characterised(infos[i], projects, jobs)
  }

  lemma OwnersAre(e: Info, projects: seq<Project>, jobs: JobHashes)
    requires Characterised(e, projects, jobs)
    ensures e.owners == Owners(projects, jobs, e.hash)
  {
    hide Reaches, KeptBy;
  }

  method CommittedSizes(cache: ContentCache) returns (sizes: map<string, nat>)
    ensures sizes.Keys == Committed(cache.root)
    ensures forall h :: h in sizes ==> sizes[h] == Bytes(cache.root[h])
  {
    hide Bytes;
    sizes := map[];
    var todo := Committed(cache.root);
    while todo != {}
      invariant todo <= Committed(cache.root) && sizes.Keys == Committed(cache.root) - todo
      invariant forall h :: h in sizes ==> sizes[h] == Bytes(cache.root[h])
      decreases todo
    {
      var h :| h in todo;
      var size := cache.EntrySize(h);
      sizes := sizes[h := size];
      todo := todo - {h};
    }
  }

  lemma ListedMore(infos: seq<Info>, e: Info, entries: map<string, Info>, todo: set<string>, h: string)
    requires Hashes(infos) == entries.Keys - todo && h in todo && h in entries && e.hash == h
    requires forall i, j :: 0 <= i < j < |infos| ==> infos[i].hash != infos[j].hash
    ensures Hashes(infos + [e]) == entries.Keys - (todo - {h})
    ensures forall i, j :: 0 <= i < j < |infos + [e]| ==> (infos + [e])[i].hash != (infos + [e])[j].hash
  {
    MoreHashes(infos, e);
    forall i | 0 <= i < |infos| ensures infos[i].hash != h {
      assert infos[i].hash in Hashes(infos);
    }
  }

  /** The committed entries with their owners, tiers and ages. */
  method ListEntries(cache: ContentCache, projects: seq<Project>, jobs: JobHashes) returns (infos: seq<Info>)
    ensures Lists(infos, cache.root) && AllCharacterised(infos, projects, jobs)
  {
    hide Bytes, Characterised, Hashes;
    var sizes := CommittedSizes(cache);
    var entries := BuildReachability(sizes, projects, jobs);
    infos := [];
    var todo := entries.Keys;
    NoHashes();
    while todo != {}
      invariant todo <= entries.Keys && Hashes(infos) == entries.Keys - todo
      invariant forall i, j :: 0 <= i < j < |infos| ==> infos[i].hash != infos[j].hash
      invariant forall i :: 0 <= i < |infos| ==> infos[i].hash in entries && infos[i] == entries[infos[i].hash]
      decreases todo
    {
      var h :| h in todo;
      ListedMore(infos, entries[h], entries, todo, h);
      infos := infos + [entries[h]];
      todo := todo - {h};
    }
  }

  lemma NoHashes()
    ensures Hashes([]) == {}
  {
  }

  // ---------------------------------------------------------------- figures

  /** The bytes of the listed entries among the given ones. */
  function Picked(infos: seq<Info>, hs: set<string>): nat {
    if |infos| == 0 then 0 else
    var e := infos[|infos| - 1];
    Picked(infos[..|infos| - 1], hs) + if e.hash in hs then e.bytes else 0
  }

  lemma {:induction false} PickedIs(infos: seq<Info>, root: map<string, Dir>, hs: set<string>)
    requires forall i, j :: 0 <= i < j < |infos| ==> infos[i].hash != infos[j].hash
    requires forall i :: 0 <= i < |infos| ==> infos[i].hash in root && infos[i].bytes == Bytes(root[infos[i].hash])
    ensures hs * Hashes(infos) <= root.Keys && Picked(infos, hs) == BytesIn(root, hs * Hashes(infos))
    decreases |infos|
  {
    hide Bytes, Hashes, BytesIn;
    if |infos| == 0 {
      NoneHashed(infos, hs);
      NoBytes(root);
    } else {
      var n := |infos| - 1;
      var e := infos[n];
      PickedIs(infos[..n], root, hs);
      MoreHashes(infos[..n], e);
      NotYetSeen(infos, n);
      assert infos == infos[..n] + [e];
      PickOne(hs, Hashes(infos[..n]), e.hash);
      if e.hash in hs {
        BytesInWith(root, hs * Hashes(infos[..n]), e.hash);
      }
    }
  }

  lemma PickOne(hs: set<string>, seen: set<string>, h: string)
    ensures hs * (seen + {h}) == if h in hs then hs * seen + {h} else hs * seen
  {
  }

  lemma NoneHashed(infos: seq<Info>, hs: set<string>)
    requires |infos| == 0
    ensures hs * Hashes(infos) == {}
  {
  }

  lemma NoBytes(root: map<string, Dir>)
    ensures BytesIn(root, {}) == 0
  {
  }

  /** The bytes of committed entries, found in the listing. */
  lemma PickedAll(infos: seq<Info>, root: map<string, Dir>, hs: set<string>)
    requires Lists(infos, root) && hs <= Committed(root)
    ensures hs <= root.Keys && Picked(infos, hs) == BytesIn(root, hs)
  {
    hide Bytes, BytesIn, Hashes;
    PickedIs(infos, root, hs);
    assert hs * Hashes(infos) == hs;
  }

  /** What the listing's figures count. */
  ghost predicate Counts(infos: seq<Info>, projects: seq<Project>, jobs: JobHashes, root: map<string, Dir>) {
    && TotalBytes(infos) == BytesIn(root, Committed(root))
    && UnreachableBytes(infos) == BytesIn(root, OwnedOnlyBy(root, projects, jobs, {}))
    && JointBytes(infos) == BytesIn(root, JointlyHeld(root, projects, jobs))
    && forall pid ::
         && OwnedBytes(infos, pid) == BytesIn(root, OwnedOnlyBy(root, projects, jobs, {pid}))
         && SharedBytes(infos, pid) == BytesIn(root, SharedBy(root, projects, jobs, pid))
  }

  lemma {:induction false} TotalPicked(infos: seq<Info>, hs: set<string>)
    requires forall i :: 0 <= i < |infos| ==> infos[i].hash in hs
    ensures TotalBytes(infos) == Picked(infos, hs)
  {
    if |infos| > 0 {
      TotalPicked(infos[..|infos| - 1], hs);
    }
  }

  lemma {:induction false} UnreachablePicked(infos: seq<Info>, hs: set<string>)
    requires forall i :: 0 <= i < |infos| ==> (infos[i].hash in hs <==> infos[i].owners == {})
    ensures UnreachableBytes(infos) == Picked(infos, hs)
  {
    if |infos| > 0 {
      UnreachablePicked(infos[..|infos| - 1], hs);
    }
  }

  lemma {:induction false} JointPicked(infos: seq<Info>, hs: set<string>)
    requires forall i :: 0 <= i < |infos| ==> (infos[i].hash in hs <==> |infos[i].owners| > 1)
    ensures JointBytes(infos) == Picked(infos, hs)
  {
    if |infos| > 0 {
      JointPicked(infos[..|infos| - 1], hs);
    }
  }

  lemma {:induction false} OwnedPicked(infos: seq<Info>, hs: set<string>, pid: string)
    requires forall i :: 0 <= i < |infos| ==> (infos[i].hash in hs <==> infos[i].owners == {pid})
    ensures OwnedBytes(infos, pid) == Picked(infos, hs)
  {
    if |infos| > 0 {
      OwnedPicked(infos[..|infos| - 1], hs, pid);
    }
  }

  lemma {:induction false} SharedPicked(infos: seq<Info>, hs: set<string>, pid: string)
    requires forall i :: 0 <= i < |infos| ==> (infos[i].hash in hs <==> pid in infos[i].owners && infos[i].owners != {pid})
    ensures SharedBytes(infos, pid) == Picked(infos, hs)
  {
    if |infos| > 0 {
      SharedPicked(infos[..|infos| - 1], hs, pid);
    }
  }

  lemma ListingKnows(infos: seq<Info>, projects: seq<Project>, jobs: JobHashes, root: map<string, Dir>, i: nat)
    requires Lists(infos, root) && AllCharacterised(infos, projects, jobs) && i < |infos|
    ensures infos[i].hash in Committed(root) && infos[i].owners == Owners(projects, jobs, infos[i].hash)
  {
    OwnersAre(infos[i], projects, jobs);
  }

  /** The figures of a listing are the bytes that the histories assign. */
  lemma FiguresAreBytes(infos: seq<Info>, projects: seq<Project>, jobs: JobHashes, root: map<string, Dir>)
    requires Lists(infos, root) && AllCharacterised(infos, projects, jobs)
    ensures Counts(infos, projects, jobs, root)
  {
    hide Lists, AllCharacterised, Owners, BytesIn;
    forall i | 0 <= i < |infos|
      ensures infos[i].hash in Committed(root) && infos[i].owners == Owners(projects, jobs, infos[i].hash)
    {
      ListingKnows(infos, projects, jobs, root, i);
    }
    TotalPicked(infos, Committed(root));
    PickedAll(infos, root, Committed(root));
    UnreachablePicked(infos, OwnedOnlyBy(root, projects, jobs, {}));
    PickedAll(infos, root, OwnedOnlyBy(root, projects, jobs, {}));
    JointPicked(infos, JointlyHeld(root, projects, jobs));
    PickedAll(infos, root, JointlyHeld(root, projects, jobs));
    forall pid
      ensures OwnedBytes(infos, pid) == BytesIn(root, OwnedOnlyBy(root, projects, jobs, {pid}))
      ensures SharedBytes(infos, pid) == BytesIn(root, SharedBy(root, projects, jobs, pid))
    {
      OwnedPicked(infos, OwnedOnlyBy(root, projects, jobs, {pid}), pid);
      PickedAll(infos, root, OwnedOnlyBy(root, projects, jobs, {pid}));
      SharedPicked(infos, SharedBy(root, projects, jobs, pid), pid);
      PickedAll(infos, root, SharedBy(root, projects, jobs, pid));
    }
  }

  function Ids(projects: seq<Project>): (r: seq<string>)
    ensures |r| == |projects| && forall i :: 0 <= i < |r| ==> r[i] == projects[i].id
  {
    seq(|projects|, i requires 0 <= i < |projects| => projects[i].id)
  }

  /** Owners of listed entries are projects. */
  lemma OwnersAreProjects(infos: seq<Info>, projects: seq<Project>, jobs: JobHashes)
    requires AllCharacterised(infos, projects, jobs)
    ensures OwnersKnown(infos, Ids(projects))
  {
    hide Reaches;
    forall i, p | 0 <= i < |infos| && p in infos[i].owners ensures p in Ids(projects) {
      OwnersAre(infos[i], projects, jobs);
      var k :| 0 <= k < |projects| && projects[k].id == p;
      assert Ids(projects)[k] == p;
    }
  }

  /** Each project's share, added up. */
  ghost function SumOver(root: map<string, Dir>, projects: seq<Project>, jobs: JobHashes, pids: seq<string>): nat {
    if |pids| == 0 then 0 else
    SumOver(root, projects, jobs, pids[..|pids| - 1]) +
      BytesIn(root, OwnedOnlyBy(root, projects, jobs, {pids[|pids| - 1]}))
  }

  lemma {:induction false} SumsAgree(infos: seq<Info>, projects: seq<Project>, jobs: JobHashes, root: map<string, Dir>, pids: seq<string>)
    requires Counts(infos, projects, jobs, root)
    ensures SumOwned(infos, pids) == SumOver(root, projects, jobs, pids)
  {
    hide OwnedBytes, BytesIn;
    if |pids| > 0 {
      SumsAgree(infos, projects, jobs, root, pids[..|pids| - 1]);
    }
  }

  /** The storage page from the cache and the histories: each figure counts what it says, and every committed byte
      is unreachable, owned by one project, or held jointly. */
  method ReportStorage(cache: ContentCache, projects: seq<Project>, jobs: JobHashes)
    returns (total: nat, unreachable: nat, perProject: seq<ProjectStorage>)
    requires Distinct(Ids(projects))
    ensures total == BytesIn(cache.root, Committed(cache.root))
    ensures unreachable == BytesIn(cache.root, OwnedOnlyBy(cache.root, projects, jobs, {}))
    ensures |perProject| == |projects|
    ensures forall i :: 0 <= i < |projects| ==>
      && perProject[i].id == projects[i].id
      && perProject[i].owned == BytesIn(cache.root, OwnedOnlyBy(cache.root, projects, jobs, {projects[i].id}))
      && perProject[i].shared == BytesIn(cache.root, SharedBy(cache.root, projects, jobs, projects[i].id))
    ensures total == unreachable + SumOver(cache.root, projects, jobs, Ids(projects)) +
      BytesIn(cache.root, JointlyHeld(cache.root, projects, jobs))
  {
    hide Lists, AllCharacterised, BytesIn, Committed, OwnedOnlyBy, SharedBy, JointlyHeld;
    var infos := ListEntries(cache, projects, jobs);
    OwnersAreProjects(infos, projects, jobs);
    FiguresAreBytes(infos, projects, jobs, cache.root);
    SumsAgree(infos, projects, jobs, cache.root, Ids(projects));
    ghost var joint;
    total, unreachable, perProject, joint := SystemStorage(infos, Ids(projects));
  }

  // ---------------------------------------------------------------- purging

  /** What a purge of a project takes: committed entries that only its history reaches, not kept and not held. */
  ghost function PurgeTakes(root: map<string, Dir>, projects: seq<Project>, jobs: JobHashes, p: Project, keep: set<string>,
                            alive: set<string>): set<string> {
    OwnedOnlyBy(root, projects, jobs, {p.id}) - keep - Held(root, alive)
  }

  lemma VictimsAreTaken(infos: seq<Info>, projects: seq<Project>, jobs: JobHashes, root: map<string, Dir>, p: Project,
                        keep: set<string>, alive: set<string>)
    requires Lists(infos, root) && AllCharacterised(infos, projects, jobs)
    ensures Hashes(PurgeVictims(infos, p.id, keep, Held(root, alive))) == PurgeTakes(root, projects, jobs, p, keep, alive)
  {
    hide AllCharacterised, Owners, Bytes, Held;
    var victims := PurgeVictims(infos, p.id, keep, Held(root, alive));
    forall h | h in Hashes(victims) ensures h in PurgeTakes(root, projects, jobs, p, keep, alive) {
      var e :| e in victims && e.hash == h;
      VictimsAre(infos, p.id, keep, Held(root, alive), e);
      var i :| 0 <= i < |infos| && infos[i] == e;
      ListingKnows(infos, projects, jobs, root, i);
    }
    forall h | h in PurgeTakes(root, projects, jobs, p, keep, alive) ensures h in Hashes(victims) {
      assert h in Hashes(infos);
      var i :| 0 <= i < |infos| && infos[i].hash == h;
      ListingKnows(infos, projects, jobs, root, i);
      VictimsAre(infos, p.id, keep, Held(root, alive), infos[i]);
    }
  }

  lemma {:induction false} VictimsPicked(infos: seq<Info>, pid: string, keep: set<string>, held: set<string>, hs: set<string>)
    requires forall i :: 0 <= i < |infos| ==> (infos[i].hash in hs <==> PurgeVictim(infos[i], pid, keep, held))
    ensures TotalBytes(PurgeVictims(infos, pid, keep, held)) == Picked(infos, hs)
  {
    if |infos| > 0 {
      var n := |infos| - 1;
      VictimsPicked(infos[..n], pid, keep, held, hs);
      var before := PurgeVictims(infos[..n], pid, keep, held);
      MoreHashes(before, infos[n]);
      assert before + [] == before;
    }
  }

  lemma FreedIs(infos: seq<Info>, projects: seq<Project>, jobs: JobHashes, root: map<string, Dir>, p: Project,
                keep: set<string>, alive: set<string>)
    requires Lists(infos, root) && AllCharacterised(infos, projects, jobs)
    ensures TotalBytes(PurgeVictims(infos, p.id, keep, Held(root, alive))) ==
      BytesIn(root, PurgeTakes(root, projects, jobs, p, keep, alive))
  {
    hide AllCharacterised, Owners, Lists, Held, BytesIn;
    var taken := PurgeTakes(root, projects, jobs, p, keep, alive);
    forall i | 0 <= i < |infos| ensures infos[i].hash in taken <==> PurgeVictim(infos[i], p.id, keep, Held(root, alive)) {
      ListingKnows(infos, projects, jobs, root, i);
    }
    VictimsPicked(infos, p.id, keep, Held(root, alive), taken);
    PickedAll(infos, root, taken);
  }

  /** Deleting a project's cache, from the histories: exactly the committed entries that only this project reaches,
      that are not kept and that no live job holds, go, and their bytes are reported. */
  method PurgeProjectCache(cache: ContentCache, projects: seq<Project>, jobs: JobHashes, p: Project,
                           outputs: map<string, set<string>>, keepOutputs: bool, alive: set<string>)
    returns (evicted: nat, freed: nat)
    modifies cache
    ensures var taken := PurgeTakes(old(cache.root), projects, jobs, p, KeptHashes(p, outputs, keepOutputs), alive);
      && freed == BytesIn(old(cache.root), taken)
      && Swept(old(cache.root), cache.root, alive, taken)
  {
    hide Lists, AllCharacterised, BytesIn, PurgeTakes, Swept;
    var infos := ListEntries(cache, projects, jobs);
    VictimsAreTaken(infos, projects, jobs, cache.root, p, KeptHashes(p, outputs, keepOutputs), alive);
    FreedIs(infos, projects, jobs, cache.root, p, KeptHashes(p, outputs, keepOutputs), alive);
    evicted, freed := PurgeProject(cache, infos, p, outputs, keepOutputs, alive);
  }

  lemma SweptKeepsRest(before: map<string, Dir>, after: map<string, Dir>, alive: set<string>, gone: set<string>, hs: set<string>)
    requires Swept(before, after, alive, gone) && hs <= Committed(before) && hs !! gone
    ensures hs <= Committed(after) && BytesIn(after, hs) == BytesIn(before, hs)
  {
    hide BytesIn;
    SameBytes(before, after, hs);
  }

  /** Such a purge leaves every other project the entries and the bytes it had, alone or with others, leaves what no
      project reaches, and what it frees is what the cache is smaller by. */
  lemma PurgeFromHistories(before: map<string, Dir>, after: map<string, Dir>, projects: seq<Project>, jobs: JobHashes,
                           p: Project, keep: set<string>, alive: set<string>, other: string)
    requires Swept(before, after, alive, PurgeTakes(before, projects, jobs, p, keep, alive)) && other != p.id
    ensures OwnedOnlyBy(after, projects, jobs, {other}) == OwnedOnlyBy(before, projects, jobs, {other})
    ensures SharedBy(after, projects, jobs, other) == SharedBy(before, projects, jobs, other)
    ensures BytesIn(after, SharedBy(after, projects, jobs, other)) == BytesIn(before, SharedBy(before, projects, jobs, other))
    ensures BytesIn(after, OwnedOnlyBy(after, projects, jobs, {other})) ==
      BytesIn(before, OwnedOnlyBy(before, projects, jobs, {other}))
    ensures BytesIn(after, OwnedOnlyBy(after, projects, jobs, {})) == BytesIn(before, OwnedOnlyBy(before, projects, jobs, {}))
    ensures BytesIn(after, Committed(after)) + BytesIn(before, PurgeTakes(before, projects, jobs, p, keep, alive)) ==
      BytesIn(before, Committed(before))
  {
    hide BytesIn, Owners, Held;
    var gone := PurgeTakes(before, projects, jobs, p, keep, alive);
    CommittedAfter(before, after, alive, gone);
    OthersStay(before, after, projects, jobs, p, keep, alive, other);
    SweptKeepsRest(before, after, alive, gone, OwnedOnlyBy(before, projects, jobs, {other}));
    SweptKeepsRest(before, after, alive, gone, SharedBy(before, projects, jobs, other));
    SweptKeepsRest(before, after, alive, gone, OwnedOnlyBy(before, projects, jobs, {}));
    SweptKeepsRest(before, after, alive, gone, Committed(before) - gone);
    BytesSplit(before, Committed(before), gone);
  }

  lemma CommittedAfter(before: map<string, Dir>, after: map<string, Dir>, alive: set<string>, gone: set<string>)
    requires Swept(before, after, alive, gone)
    ensures Committed(after) == Committed(before) - gone
  {
  }

  lemma OthersStay(before: map<string, Dir>, after: map<string, Dir>, projects: seq<Project>, jobs: JobHashes, p: Project,
                   keep: set<string>, alive: set<string>, other: string)
    requires Committed(after) == Committed(before) - PurgeTakes(before, projects, jobs, p, keep, alive) && other != p.id
    ensures OwnedOnlyBy(after, projects, jobs, {other}) == OwnedOnlyBy(before, projects, jobs, {other})
    ensures SharedBy(after, projects, jobs, other) == SharedBy(before, projects, jobs, other)
    ensures OwnedOnlyBy(after, projects, jobs, {}) == OwnedOnlyBy(before, projects, jobs, {})
    ensures PurgeTakes(before, projects, jobs, p, keep, alive) !!
      OwnedOnlyBy(before, projects, jobs, {other}) + SharedBy(before, projects, jobs, other) +
      OwnedOnlyBy(before, projects, jobs, {})
  {
    hide Owners, Held, Committed;
    assert other !in {p.id} && p.id in {p.id};
  }

  lemma {:induction false} BytesSplit(root: map<string, Dir>, hs: set<string>, part: set<string>)
    requires hs <= root.Keys && part <= hs
    ensures BytesIn(root, hs) == BytesIn(root, hs - part) + BytesIn(root, part)
    decreases |part|
  {
    hide Bytes, BytesIn;
    if part == {} {
      NoBytes(root);
      assert hs - part == hs;
    } else {
      var h :| h in part;
      BytesSplit(root, hs - {h}, part - {h});
      BytesInWithout(root, hs, h);
      BytesInWithout(root, part, h);
      assert hs - {h} - (part - {h}) == hs - part;
    }
  }
}
