/** Which projects a cache entry belongs to, its tier and its age (server/storage.py). */
module Reachability {
  import opened Wrappers
  import opened Sorting

  datatype Tier = Bulk | Keep

  /** `oldest` is the update time of the least recently updated owner. */
  datatype Info = Info(hash: string, bytes: nat, owners: set<string>, tier: Tier, oldest: Option<string>)

  /** `tiers` gives the tier of each template node; `history` names the job of each history entry. */
  datatype Project = Project(id: string, updated: string, tiers: map<string, Tier>, history: seq<string>)

  /** The hash each node of a job was run under. */
  type JobHashes = map<string, map<string, string>>

  /** A project's history mentions a hash. */
  datatype Touch = Touch(project: string, updated: string, tier: Option<Tier>, hash: string)

  function TouchOf(p: Project, nid: string, hash: string): Touch {
    Touch(p.id, p.updated, if nid in p.tiers then Some(p.tiers[nid]) else None, hash)
  }

  function Recorded(e: Info, t: Touch): Info {
    e.(owners := e.owners + {t.project},
       tier := if t.tier == Some(Keep) then Keep else e.tier,
       oldest := if e.oldest.None? || !StrLeq(e.oldest.value, t.updated) then Some(t.updated) else e.oldest)
  }

  // ---------------------------------------------------------------- what the fold means

  /** The project's history has a job that ran node `nid` under `hash`. */
  ghost predicate ReachesAs(p: Project, jobs: JobHashes, nid: string, hash: string) {
    exists job :: job in p.history && job in jobs && nid in jobs[job] && jobs[job][nid] == hash
  }

  ghost predicate Reaches(p: Project, jobs: JobHashes, hash: string) {
    exists nid :: ReachesAs(p, jobs, nid, hash)
  }

  ghost predicate KeptBy(p: Project, jobs: JobHashes, hash: string) {
    exists nid :: ReachesAs(p, jobs, nid, hash) && nid in p.tiers && p.tiers[nid] == Keep
  }

  /** Owners are exactly the projects that reach the entry; it is a keep entry if one of them reaches it
      through a keep node; its age is the least of their update times. */
  ghost predicate Characterised(e: Info, projects: seq<Project>, jobs: JobHashes) {
    && (forall pid :: pid in e.owners <==> exists p :: p in projects && p.id == pid && Reaches(p, jobs, e.hash))
    && (e.tier == Keep <==> exists p :: p in projects && KeptBy(p, jobs, e.hash))
    && (e.oldest.None? <==> e.owners == {})
    && (e.oldest.Some? ==> exists p :: p in projects && Reaches(p, jobs, e.hash) && p.updated == e.oldest.value)
    && (forall p :: p in projects && Reaches(p, jobs, e.hash) ==> e.oldest.Some? && StrLeq(e.oldest.value, p.updated))
  }

  /** The same, relative to the touches folded in so far. */
  ghost predicate Describes(e: Info, done: set<Touch>) {
    && (forall pid :: pid in e.owners <==> exists t :: t in done && t.hash == e.hash && t.project == pid)
    && (e.tier == Keep <==> exists t :: t in done && t.hash == e.hash && t.tier == Some(Keep))
    && (e.oldest.None? <==> e.owners == {})
    && (e.oldest.Some? ==> exists t :: t in done && t.hash == e.hash && t.updated == e.oldest.value)
    && (forall t :: t in done && t.hash == e.hash ==> e.oldest.Some? && StrLeq(e.oldest.value, t.updated))
  }

  lemma DescribesMore(e: Info, done: set<Touch>, t: Touch)
    requires Describes(e, done)
    ensures e.hash == t.hash ==> Describes(Recorded(e, t), done + {t})
    ensures e.hash != t.hash ==> Describes(e, done + {t})
  {
    if e.hash == t.hash {
      var e' := Recorded(e, t);
      assert t in done + {t};
      RecordedOwners(e, done, t);
      RecordedTier(e, done, t);
      RecordedAge(e, done, t);
    }
  }

  lemma RecordedOwners(e: Info, done: set<Touch>, t: Touch)
    requires Describes(e, done) && e.hash == t.hash
    ensures forall pid :: pid in Recorded(e, t).owners <==> exists u :: u in done + {t} && u.hash == e.hash && u.project == pid
  {
    assert t in done + {t};
  }

  lemma RecordedTier(e: Info, done: set<Touch>, t: Touch)
    requires Describes(e, done) && e.hash == t.hash
    ensures Recorded(e, t).tier == Keep <==> exists u :: u in done + {t} && u.hash == e.hash && u.tier == Some(Keep)
  {
    assert t in done + {t};
  }

  lemma RecordedAge(e: Info, done: set<Touch>, t: Touch)
    requires Describes(e, done) && e.hash == t.hash
    ensures var e' := Recorded(e, t);
      && e'.oldest.Some?
      && (exists u :: u in done + {t} && u.hash == e.hash && u.updated == e'.oldest.value)
      && (forall u :: u in done + {t} && u.hash == e.hash ==> StrLeq(e'.oldest.value, u.updated))
  {
    var e' := Recorded(e, t);
    assert t in done + {t};
    StrTotal(t.updated, t.updated);
    forall u | u in done + {t} && u.hash == e.hash ensures StrLeq(e'.oldest.value, u.updated) {
      if u in done && e'.oldest == Some(t.updated) && e.oldest.Some? {
        StrTotal(e.oldest.value, t.updated);
        if e.oldest.value != t.updated {
          StrTransitive(t.updated, e.oldest.value, u.updated);
        }
      }
    }
  }

  // ---------------------------------------------------------------- the nested loops

  ghost predicate AllDescribed(entries: map<string, Info>, sizes: map<string, nat>, done: set<Touch>) {
    && entries.Keys == sizes.Keys
    && forall h :: h in entries ==> entries[h].hash == h && entries[h].bytes == sizes[h] && Describes(entries[h], done)
  }

  function JobTouches(p: Project, pairs: map<string, string>): set<Touch> {
    set nid | nid in pairs :: TouchOf(p, nid, pairs[nid])
  }

  function ProjectTouches(p: Project, jobs: JobHashes, history: seq<string>): set<Touch> {
    set job, nid | job in history && job in jobs && nid in jobs[job] :: TouchOf(p, nid, jobs[job][nid])
  }

  function AllTouches(projects: seq<Project>, jobs: JobHashes): set<Touch> {
    set p, job, nid | p in projects && job in p.history && job in jobs && nid in jobs[job] :: TouchOf(p, nid, jobs[job][nid])
  }

  method FoldTouch(entries: map<string, Info>, t: Touch, ghost sizes: map<string, nat>, ghost done: set<Touch>)
    returns (entries': map<string, Info>)
    requires AllDescribed(entries, sizes, done)
    ensures AllDescribed(entries', sizes, done + {t})
  {
    entries' := entries;
    if t.hash in entries {
      entries' := entries[t.hash := Recorded(entries[t.hash], t)];
    }
    forall h | h in entries ensures Describes(entries'[h], done + {t}) {
      DescribesMore(entries[h], done, t);
    }
  }

  method FoldJob(entries: map<string, Info>, p: Project, pairs: map<string, string>, ghost sizes: map<string, nat>,
                 ghost done: set<Touch>) returns (entries': map<string, Info>)
    requires AllDescribed(entries, sizes, done)
    ensures AllDescribed(entries', sizes, done + JobTouches(p, pairs))
  {
    entries' := entries;
    var todo := pairs.Keys;
    ghost var seen := done;
    while todo != {}
      invariant todo <= pairs.Keys
      invariant seen == done + set nid | nid in pairs && nid !in todo :: TouchOf(p, nid, pairs[nid])
      invariant AllDescribed(entries', sizes, seen)
      decreases todo
    {
      var nid :| nid in todo;
      entries' := FoldTouch(entries', TouchOf(p, nid, pairs[nid]), sizes, seen);
      seen := seen + {TouchOf(p, nid, pairs[nid])};
      todo := todo - {nid};
    }
    assert seen == done + JobTouches(p, pairs);
  }

  lemma ProjectTouchesNext(p: Project, jobs: JobHashes, history: seq<string>, i: nat)
    requires i < |history|
    ensures ProjectTouches(p, jobs, history[..i + 1]) ==
      ProjectTouches(p, jobs, history[..i]) + if history[i] in jobs then JobTouches(p, jobs[history[i]]) else {}
  {
    var a := ProjectTouches(p, jobs, history[..i + 1]);
    var b := ProjectTouches(p, jobs, history[..i]) + if history[i] in jobs then JobTouches(p, jobs[history[i]]) else {};
    assert forall job :: job in history[..i + 1] <==> job in history[..i] || job == history[i];
    assert a <= b && b <= a;
  }

  method FoldProject(entries: map<string, Info>, p: Project, jobs: JobHashes, ghost sizes: map<string, nat>,
                     ghost done: set<Touch>) returns (entries': map<string, Info>)
    requires AllDescribed(entries, sizes, done)
    ensures AllDescribed(entries', sizes, done + ProjectTouches(p, jobs, p.history))
  {
    hide AllDescribed, JobTouches;
    entries' := entries;
    ghost var seen := done;
    NoHistory(p, jobs, done);
    for i := 0 to |p.history|
      invariant seen == done + ProjectTouches(p, jobs, p.history[..i])
      invariant AllDescribed(entries', sizes, seen)
    {
      ProjectTouchesNext(p, jobs, p.history, i);
      var job := p.history[i];
      if job in jobs {
        entries' := FoldJob(entries', p, jobs[job], sizes, seen);
        seen := seen + JobTouches(p, jobs[job]);
      }
    }
    assert p.history[..|p.history|] == p.history;
  }

  lemma NoHistory(p: Project, jobs: JobHashes, done: set<Touch>)
    ensures done + ProjectTouches(p, jobs, p.history[..0]) == done
  {
  }

  lemma AllTouchesNext(projects: seq<Project>, jobs: JobHashes, i: nat)
    requires i < |projects|
    ensures AllTouches(projects[..i + 1], jobs) ==
      AllTouches(projects[..i], jobs) + ProjectTouches(projects[i], jobs, projects[i].history)
  {
    var a := AllTouches(projects[..i + 1], jobs);
    var b := AllTouches(projects[..i], jobs) + ProjectTouches(projects[i], jobs, projects[i].history);
    assert forall p :: p in projects[..i + 1] <==> p in projects[..i] || p == projects[i];
    assert a <= b && b <= a;
  }

  lemma TouchFromReach(projects: seq<Project>, jobs: JobHashes, p: Project, nid: string, hash: string)
    requires p in projects && ReachesAs(p, jobs, nid, hash)
    ensures TouchOf(p, nid, hash) in AllTouches(projects, jobs)
  {
    var job :| job in p.history && job in jobs && nid in jobs[job] && jobs[job][nid] == hash;
  }

  lemma ReachFromTouch(projects: seq<Project>, jobs: JobHashes, t: Touch) returns (p: Project, nid: string)
    requires t in AllTouches(projects, jobs)
    ensures p in projects && ReachesAs(p, jobs, nid, t.hash) && t == TouchOf(p, nid, t.hash)
  {
    var job;
    p, job, nid :| p in projects && job in p.history && job in jobs && nid in jobs[job] && t == TouchOf(p, nid, jobs[job][nid]);
  }

  lemma OwnersReach(projects: seq<Project>, jobs: JobHashes, e: Info, pid: string)
    requires Describes(e, AllTouches(projects, jobs))
    ensures pid in e.owners <==> exists p :: p in projects && p.id == pid && Reaches(p, jobs, e.hash)
  {
    hide AllTouches, ReachesAs;
    if pid in e.owners {
      var t :| t in AllTouches(projects, jobs) && t.hash == e.hash && t.project == pid;
      var p, nid := ReachFromTouch(projects, jobs, t);
      assert Reaches(p, jobs, e.hash);
    }
    if exists p :: p in projects && p.id == pid && Reaches(p, jobs, e.hash) {
      var p :| p in projects && p.id == pid && Reaches(p, jobs, e.hash);
      var nid :| ReachesAs(p, jobs, nid, e.hash);
      TouchFromReach(projects, jobs, p, nid, e.hash);
    }
  }

  lemma TierReaches(projects: seq<Project>, jobs: JobHashes, e: Info)
    requires Describes(e, AllTouches(projects, jobs))
    ensures e.tier == Keep <==> exists p :: p in projects && KeptBy(p, jobs, e.hash)
  {
    hide AllTouches, ReachesAs;
    if e.tier == Keep {
      var t :| t in AllTouches(projects, jobs) && t.hash == e.hash && t.tier == Some(Keep);
      var p, nid := ReachFromTouch(projects, jobs, t);
      assert KeptBy(p, jobs, e.hash);
    }
    if exists p :: p in projects && KeptBy(p, jobs, e.hash) {
      var p :| p in projects && KeptBy(p, jobs, e.hash);
      var nid :| ReachesAs(p, jobs, nid, e.hash) && nid in p.tiers && p.tiers[nid] == Keep;
      TouchFromReach(projects, jobs, p, nid, e.hash);
    }
  }

  lemma AgeReaches(projects: seq<Project>, jobs: JobHashes, e: Info)
    requires Describes(e, AllTouches(projects, jobs))
    ensures e.oldest.Some? ==> exists p :: p in projects && Reaches(p, jobs, e.hash) && p.updated == e.oldest.value
    ensures forall p :: p in projects && Reaches(p, jobs, e.hash) ==> e.oldest.Some? && StrLeq(e.oldest.value, p.updated)
  {
    hide AllTouches, ReachesAs, StrLeq;
    if e.oldest.Some? {
      var t :| t in AllTouches(projects, jobs) && t.hash == e.hash && t.updated == e.oldest.value;
      var p, nid := ReachFromTouch(projects, jobs, t);
      assert Reaches(p, jobs, e.hash);
    }
    forall p | p in projects && Reaches(p, jobs, e.hash) ensures e.oldest.Some? && StrLeq(e.oldest.value, p.updated) {
      var nid :| ReachesAs(p, jobs, nid, e.hash);
      TouchFromReach(projects, jobs, p, nid, e.hash);
    }
  }

  lemma TouchesReach(projects: seq<Project>, jobs: JobHashes, e: Info)
    requires Describes(e, AllTouches(projects, jobs))
    ensures Characterised(e, projects, jobs)
  {
    hide AllTouches, Reaches, KeptBy, StrLeq;
    forall pid ensures pid in e.owners <==> exists p :: p in projects && p.id == pid && Reaches(p, jobs, e.hash) {
      OwnersReach(projects, jobs, e, pid);
    }
    TierReaches(projects, jobs, e);
    AgeReaches(projects, jobs, e);
  }

  /** Every committed entry, with its owners, tier and age. */
  method BuildReachability(sizes: map<string, nat>, projects: seq<Project>, jobs: JobHashes)
    returns (entries: map<string, Info>)
    ensures entries.Keys == sizes.Keys
    ensures forall h :: h in entries ==>
      entries[h].hash == h && entries[h].bytes == sizes[h] && Characterised(entries[h], projects, jobs)
  {
    entries := map h | h in sizes :: Info(h, sizes[h], {}, Bulk, None);
    ghost var done: set<Touch> := {};
    assert AllTouches(projects[..0], jobs) == {};
    for i := 0 to |projects|
      invariant done == AllTouches(projects[..i], jobs)
      invariant AllDescribed(entries, sizes, done)
    {
      AllTouchesNext(projects, jobs, i);
      entries := FoldProject(entries, projects[i], jobs, sizes, done);
      done := done + ProjectTouches(projects[i], jobs, projects[i].history);
    }
    assert projects[..|projects|] == projects;
    forall h | h in entries ensures Characterised(entries[h], projects, jobs) {
      TouchesReach(projects, jobs, entries[h]);
    }
  }
}
