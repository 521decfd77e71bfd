/** JobProcessor: the drain pass that runs after every script reload and
    retries itself on the next editor update while jobs remain. The editor's
    delayed-call queue is a counter of queued passes: the editor removes a
    call from the queue when it runs it, so running a pass uses up one. */
module JobProcessor {
  import opened Wrappers
  import opened Jobs
  import opened AssetBuilder

  /** The passes queued on `EditorApplication.delayCall` and not yet run. */
  class Scheduler {
    var pending: nat

    /** Loading the processor class queues exactly one pass. */
    constructor ()
      ensures pending == 1
    {
      pending := 1;
    }
  }

  /** The jobs of one pass that the builder finishes with, in store order. */
  function Completed(jobs: seq<GenerationJob>, assemblies: seq<Assembly>): (done: seq<GenerationJob>)
    ensures |done| <= |jobs|
  {
    if jobs == [] then []
    else
      var rest := Completed(jobs[..|jobs| - 1], assemblies);
      if Resolves(assemblies, jobs[|jobs| - 1]) then rest + [jobs[|jobs| - 1]] else rest
  }

  lemma CompletedStep(jobs: seq<GenerationJob>, assemblies: seq<Assembly>, i: nat)
    requires i < |jobs|
    ensures Completed(jobs[..i + 1], assemblies)
         == Completed(jobs[..i], assemblies) + (if Resolves(assemblies, jobs[i]) then [jobs[i]] else [])
  {
    assert jobs[..i + 1][..i] == jobs[..i];
  }

  /** A job is completed exactly when it was attempted and its types
      resolve. */
  lemma {:induction false} CompletedMembers(jobs: seq<GenerationJob>, assemblies: seq<Assembly>, job: GenerationJob)
    ensures job in Completed(jobs, assemblies) <==> job in jobs && Resolves(assemblies, job)
    decreases |jobs|
  {
    if jobs != [] {
      var init := jobs[..|jobs| - 1];
      CompletedMembers(init, assemblies, job);
      assert jobs == init + [jobs[|jobs| - 1]];
    }
  }

  /** The asset paths a pass may write: those of the jobs whose types
      resolve. */
  function ResolvedPaths(jobs: seq<GenerationJob>, assemblies: seq<Assembly>): set<string> {
    set k | 0 <= k < |jobs| && Resolves(assemblies, jobs[k]) :: jobs[k].AssetRelativePath
  }

  /** No asset disappears, and only the given paths are added or changed. */
  predicate TouchedOnlyAt(before: map<string, Asset>, after: map<string, Asset>, paths: set<string>) {
    (forall p :: p in before ==> p in after)
    && (forall p :: p in after && (p !in before || after[p] != before[p]) ==> p in paths)
  }

  /** ProcessPendingJobs, run as a queued delayed call, which the run uses
      up: with no jobs it does nothing else. Otherwise it tries every job
      once, in store order, removes the jobs the builder finished with, and
      queues one more pass if any job is left. */
  method ProcessPendingJobs(store: JobStore, db: AssetDatabase, assemblies: seq<Assembly>,
                            isNullJson: string -> bool, scheduler: Scheduler)
    requires store != db as object && scheduler != db as object && scheduler != store as object
    requires scheduler.pending >= 1
    modifies store, db, scheduler
    ensures old(store.LoadAll()) == [] ==>
      store.slot == old(store.slot) && db.assets == old(db.assets) && db.log == old(db.log)
      && scheduler.pending == old(scheduler.pending) - 1
    ensures old(store.LoadAll()) != [] ==>
      store.LoadAll() == Survivors(old(store.LoadAll()), Completed(old(store.LoadAll()), assemblies))
      && scheduler.pending == old(scheduler.pending) - 1 + (if store.HasJobs() then 1 else 0)
    ensures TouchedOnlyAt(old(db.assets), db.assets, ResolvedPaths(old(store.LoadAll()), assemblies))
  {
    scheduler.pending := scheduler.pending - 1;
    var jobs := store.LoadAll();
    if |jobs| == 0 {
      return;
    }
    var completed: seq<GenerationJob> := [];
    for i := 0 to |jobs|
      invariant store.slot == old(store.slot) && scheduler.pending == old(scheduler.pending) - 1
      invariant completed == Completed(jobs[..i], assemblies)
      invariant TouchedOnlyAt(old(db.assets), db.assets, ResolvedPaths(jobs[..i], assemblies))
    {
      var created := TryCreate(Some(jobs[i]), assemblies, db, isNullJson);
      CompletedStep(jobs, assemblies, i);
      assert ResolvedPaths(jobs[..i], assemblies) <= ResolvedPaths(jobs[..i + 1], assemblies) by {
        forall k | 0 <= k < i
          ensures jobs[..i][k] == jobs[..i + 1][k]
        {
        }
      }
      if created {
        assert jobs[..i + 1][i] == jobs[i];
        assert jobs[i].AssetRelativePath in ResolvedPaths(jobs[..i + 1], assemblies);
        completed := completed + [jobs[i]];
      }
    }
    assert jobs[..|jobs|] == jobs;
    if |completed| > 0 {
      store.Remove(completed);
    } else {
      SurvivorsOfNone(jobs);
    }
    if store.HasJobs() {
      scheduler.pending := scheduler.pending + 1;
    }
  }

  /** After a pass, a job whose types resolve is gone, and a job whose types
      do not resolve is still there unless it shares its identity with one
      that was finished. */
  lemma PassOutcome(jobs: seq<GenerationJob>, assemblies: seq<Assembly>, job: GenerationJob)
    requires job in jobs
    ensures var left := Survivors(jobs, Completed(jobs, assemblies));
      (Resolves(assemblies, job) ==> job !in left)
      && ((!Resolves(assemblies, job) && forall c :: c in Completed(jobs, assemblies) ==> !SameIdentity(job, c))
          ==> job in left)
  {
    var done := Completed(jobs, assemblies);
    SurvivorsMembers(jobs, done, job);
    CompletedMembers(jobs, assemblies, job);
    if Resolves(assemblies, job) {
      assert job in done;
      var k :| 0 <= k < |done| && done[k] == job;
      assert SameIdentity(job, done[k]);
    }
  }

  /** When every job's types resolve, the pass empties the store, so no
      further pass is queued. */
  lemma AllResolvedDrains(jobs: seq<GenerationJob>, assemblies: seq<Assembly>)
    requires forall k :: 0 <= k < |jobs| ==> Resolves(assemblies, jobs[k])
    ensures Survivors(jobs, Completed(jobs, assemblies)) == []
  {
    var done := Completed(jobs, assemblies);
    var left := Survivors(jobs, done);
    if left != [] {
      var job := left[0];
      SurvivorsMembers(jobs, done, job);
      PassOutcome(jobs, assemblies, job);
    }
  }

  /** When no job's types resolve, nothing is finished and the store is
      kept whole, so the pass is queued again: an unresolvable job is
      retried on every update. */
  lemma NoneResolvedKeeps(jobs: seq<GenerationJob>, assemblies: seq<Assembly>)
    requires forall k :: 0 <= k < |jobs| ==> !Resolves(assemblies, jobs[k])
    ensures Completed(jobs, assemblies) == []
    ensures Survivors(jobs, Completed(jobs, assemblies)) == jobs
  {
    var done := Completed(jobs, assemblies);
    if done != [] {
      CompletedMembers(jobs, assemblies, done[0]);
    }
    SurvivorsOfNone(jobs);
  }
}
