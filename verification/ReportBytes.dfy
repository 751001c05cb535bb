/**
 * Whose bytes may be deleted. The recovery sweep deletes artifacts by a list it made
 * earlier, Storage deletes files by its own rules, and both work on the same keys.
 */
module ReportBytes {
  import opened Basics
  import opened FileRows
  import opened ReportTypes
  import opened ReportRules
  import opened ReportWorld
  import opened ReportInvariant
  import opened ReportFrames
  import opened ReportSteps
  import opened ReportRuns
  import opened ReportSafety

  ghost predicate IsReadyPdf(jobs: map<Guid, Job>, a: Guid) {
    exists j :: j in jobs && a in jobs[j].artifacts && jobs[j].artifacts[a].ready && jobs[j].artifacts[a].item.Some?
  }

  lemma DescribedIsReady(jobs: map<Guid, Job>, m: Publish)
    requires Describes(jobs, m)
    ensures IsReadyPdf(jobs, m.id)
  {
  }

  /** Storage has or will get the artifact. */
  ghost predicate Public(w: World, a: Guid) {
    a in w.files || (exists m :: m in w.outbox && m.id == a) || IsReadyPdf(w.jobs, a)
  }

  predicate Lists(sweep: Sweep, a: Guid) {
    sweep.phase.Erasing? && !sweep.purging && a in sweep.phase.ids
  }

  /** What a pass over an expired run lists for deletion was never handed to Storage. */
  ghost predicate SweptApart(w: World) {
    forall s, a | s in w.sweeps && Lists(w.sweeps[s], a) :: !Public(w, a)
  }

  // ---------- the listings over whole runs ----------

  /** An artifact's only home is the job that created it. */
  lemma OneHome(c: Config, w: World, j: Guid, a: Guid)
    requires Inv(c, w) && j in w.jobs && a in w.jobs[j].artifacts
    ensures a in w.past.artifacts && w.past.artifacts[a].job == j && w.past.artifacts[a].item == w.jobs[j].artifacts[a].item
  {
    AtJob(c, w, j);
    hide Inv;
  }

  lemma ListedHome(c: Config, w: World, s: Guid, a: Guid)
    requires Inv(c, w) && s in w.sweeps && Lists(w.sweeps[s], a)
    ensures a in w.past.artifacts && w.past.artifacts[a].job == w.sweeps[s].job
    ensures w.sweeps[s].job in w.jobs ==> Gone(w.jobs[w.sweeps[s].job], w.clock)
  {
    assert SweepFits(w.clock, w.jobs, w.sweeps[s], w.past);
  }

  lemma ListedUnread(w: World, s: Guid, a: Guid)
    requires RetriesFit(w) && s in w.sweeps && Lists(w.sweeps[s], a)
    ensures !Pending(w, w.sweeps[s].job)
  {
  }

  /** What was not ready in an expired run does not become ready. */
  lemma StaysPrivate(c: Config, w: World, w': World, s: Guid, a: Guid)
    requires Inv(c, w) && Inv(c, w') && RetriesFit(w) && JobsEvolve(w, w')
    requires s in w.sweeps && s in w'.sweeps && w.sweeps[s].job == w'.sweeps[s].job
    requires Lists(w.sweeps[s], a) && Lists(w'.sweeps[s], a) && !IsReadyPdf(w.jobs, a)
    ensures !IsReadyPdf(w'.jobs, a)
  {
    ListedUnread(w, s, a);
    hide Inv, RetriesFit, Pending;
    if IsReadyPdf(w'.jobs, a) {
      var j :| j in w'.jobs && a in w'.jobs[j].artifacts && w'.jobs[j].artifacts[a].ready && w'.jobs[j].artifacts[a].item.Some?;
      OneHome(c, w', j, a);
      ListedHome(c, w', s, a);
      ListedHome(c, w, s, a);
      KnownHome(c, w, s);
      assert false;
    }
  }

  lemma KnownHome(c: Config, w: World, s: Guid)
    requires Inv(c, w) && s in w.sweeps
    ensures w.sweeps[s].job in w.past.jobs && Known(w)
  {
    assert SweepFits(w.clock, w.jobs, w.sweeps[s], w.past);
    assert HomesFit(w.jobs, w.past);
  }

  lemma ApartStep(c: Config, w: World, w': World)
    requires Inv(c, w) && Inv(c, w') && RetriesFit(w) && JobsEvolve(w, w') && Honest(w, w') && SweptApart(w)
    ensures SweptApart(w')
  {
    hide Inv, RetriesFit, JobsEvolve, IsReadyPdf, Describes;
    forall m | Describes(w'.jobs, m) ensures IsReadyPdf(w'.jobs, m.id) {
      DescribedIsReady(w'.jobs, m);
    }
    forall s, a | s in w'.sweeps && Lists(w'.sweeps[s], a) ensures !Public(w', a) {
      assert s in w.sweeps && Lists(w.sweeps[s], a) && !Public(w, a);
      StaysPrivate(c, w, w', s, a);
    }
  }

  /** A pass that lists an expired run's leftovers lists nothing Storage knows. */
  lemma ListApart(c: Config, w: World, s: Guid)
    requires Inv(c, w) && SweptApart(w)
    ensures SweptApart(ApplySweepList(w, s))
  {
    var w' := ApplySweepList(w, s);
    hide Inv;
    forall t, a | t in w'.sweeps && Lists(w'.sweeps[t], a) ensures !Public(w', a) {
      if t == s && w.sweeps[s].phase.PastFence? {
        assert a in Discarded(w.jobs[w.sweeps[s].job], false);
        OneHome(c, w, w.sweeps[s].job, a);
        if Public(w, a) {
          PublicIsReady(c, w, a, w.sweeps[s].job);
        }
      } else {
        assert Lists(w.sweeps[t], a) && !Public(w, a);
      }
    }
  }

  lemma PublicIsReady(c: Config, w: World, a: Guid, j: Guid)
    requires Inv(c, w) && Public(w, a) && j in w.jobs && a in w.jobs[j].artifacts
    ensures w.jobs[j].artifacts[a].ready && w.jobs[j].artifacts[a].item.Some?
  {
    OneHome(c, w, j, a);
    Tables(c, w);
    hide Inv;
    if a in w.files {
      assert RowFits(c, w.jobs, w.past.artifacts, a, w.files[a]);
    } else if exists m :: m in w.outbox && m.id == a {
      var m :| m in w.outbox && m.id == a;
      assert MessageFits(c, w.jobs, w.past.artifacts, m);
    } else {
      var k :| k in w.jobs && a in w.jobs[k].artifacts && w.jobs[k].artifacts[a].ready && w.jobs[k].artifacts[a].item.Some?;
      OneHomeOnly(w, j, k, a);
    }
  }

  lemma OneHomeOnly(w: World, j: Guid, k: Guid, a: Guid)
    requires HomesFit(w.jobs, w.past) && j in w.jobs && k in w.jobs && a in w.jobs[j].artifacts && a in w.jobs[k].artifacts
    ensures j == k
  {
    assert HomeOf(j, w.jobs[j], w.past) && HomeOf(k, w.jobs[k], w.past);
  }

  lemma {:induction false} RunsSweepApart(c: Config, run: seq<Action>)
    requires LimitsOk(c.limits)
    ensures Inv(c, Exec(c, Genesis, run)) && SweptApart(Exec(c, Genesis, run))
    decreases |run|
  {
    hide Inv, RetriesFit, Next, SweptApart, ApplySweepList;
    ReachableFits(c, Exec(c, Genesis, run));
    if run == [] {
      NothingListed();
    } else {
      var w1, a := Exec(c, Genesis, run[..|run| - 1]), run[|run| - 1];
      RunsSweepApart(c, run[..|run| - 1]);
      ReachableFits(c, w1);
      if a.SweepList? {
        ListApart(c, w1, a.sweep);
        ListingStep(c, w1, a.sweep);
      } else {
        Tables(c, w1);
        NextEvolves(c, w1, a);
        NextIsHonest(c, w1, a);
        ApartStep(c, w1, Next(c, w1, a));
      }
    }
  }

  lemma NothingListed()
    ensures SweptApart(Genesis)
  {
  }

  lemma ListingStep(c: Config, w: World, s: Guid)
    ensures Next(c, w, SweepList(s)) == ApplySweepList(w, s)
  {
  }

  // ---------- legal hold ----------

  /** The steps that can delete the bytes of a published PDF under legal hold: both purges, nothing else. */
  lemma HeldBytesSurvive(c: Config, w: World, a: Action, id: Guid)
    requires Reachable(c, w) && LimitsOk(c.limits)
    requires id in w.files && w.files[id].hold && w.files[id].key in w.store
    ensures w.files[id].key in Next(c, w, a).store
         || a.PurgeFiles? || (a.SweepErase? && a.sweep in w.sweeps && w.sweeps[a.sweep].purging)
  {
    var run :| w == Exec(c, Genesis, run);
    RunsSweepApart(c, run);
    hide Exec, Next, Reachable, SweptApart;
    Tables(c, w);
    hide Inv;
    assert RowFits(c, w.jobs, w.past.artifacts, id, w.files[id]);
    if a.SweepErase? {
      if a.sweep !in w.sweeps { IdleErase(c, w, a.sweep, a.artifact); }
      else if !w.sweeps[a.sweep].purging { HeldInSweep(c, w, a.sweep, a.artifact, id); }
    } else if a.FileAction? {
      HeldInStorage(c, w, a.at, a.file, a.op, id);
    } else if !a.PurgeFiles? {
      NextIsModest(c, w, a);
    }
  }

  lemma HeldInSweep(c: Config, w: World, s: Guid, a: Guid, id: Guid)
    requires Inv(c, w) && SweptApart(w) && id in w.files && w.files[id].key in w.store
    requires s in w.sweeps && !w.sweeps[s].purging
    ensures w.files[id].key in Next(c, w, SweepErase(s, a)).store
  {
    Tables(c, w);
    hide Inv;
    assert RowFits(c, w.jobs, w.past.artifacts, id, w.files[id]);
    assert SweepFits(w.clock, w.jobs, w.sweeps[s], w.past);
    if w.sweeps[s].phase.Erasing? && a in w.sweeps[s].phase.left {
      assert Lists(w.sweeps[s], a) && !Public(w, a);
    }
  }

  lemma KeysOfFile(c: Config, w: World, f: Guid, key: BlobKey)
    requires Inv(c, w) && f in w.files && key in Keys(w.files[f])
    ensures key.path.ReportPath? && key.path.artifact == f
  {
    Tables(c, w);
    hide Inv, Announced;
    assert RowFits(c, w.jobs, w.past.artifacts, f, w.files[f]);
  }

  lemma HeldInStorage(c: Config, w: World, at: Instant, f: Guid, op: Op, id: Guid)
    requires Inv(c, w) && id in w.files && w.files[id].hold && w.files[id].key in w.store
    ensures w.files[id].key in ApplyFileAction(c, w, at, f, op).store
  {
    hide Inv, Apply;
    if f in w.files {
      KeysOfFile(c, w, id, w.files[id].key);
      if f == id { HoldProtects(w.files[id], op, at, c.store); }
      if w.files[id].key in Keys(w.files[f]) { KeysOfFile(c, w, f, w.files[id].key); }
      hide Keys;
    }
  }

  lemma IdleErase(c: Config, w: World, s: Guid, a: Guid)
    requires s !in w.sweeps
    ensures Next(c, w, SweepErase(s, a)) == w
  {
  }
}
