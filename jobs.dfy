/** The pending generation jobs: the job record, and the store that keeps the
    whole list in one session-state slot across a script recompilation. */
module Jobs {
  import opened Wrappers
  import opened SheetData

  /** A request to build one ScriptableObject asset once the generated
      classes have compiled. */
  datatype GenerationJob = GenerationJob(
    SheetId: string,
    SheetName: string,
    DataClassFullName: string,
    ScriptableObjectFullName: string,
    AssetRelativePath: string,
    JsonPayload: string,
    SheetType: SheetDataType,
    EnqueuedAtUtc: string)

  /** A new job: every string empty, a table sheet, stamped with the time
      of construction (`now`, the round-trip formatted UTC clock). */
  function NewJob(now: string): (job: GenerationJob)
    ensures job.SheetId == "" && job.SheetName == "" && job.DataClassFullName == ""
    ensures job.ScriptableObjectFullName == "" && job.AssetRelativePath == "" && job.JsonPayload == ""
    ensures job.SheetType == Table && job.EnqueuedAtUtc == now
  {
    GenerationJob("", "", "", "", "", "", Table, now)
  }

  /** Two jobs are the same job for removal when they were enqueued at the
      same instant for the same container type. */
  predicate SameIdentity(a: GenerationJob, b: GenerationJob) {
    a.EnqueuedAtUtc == b.EnqueuedAtUtc && a.ScriptableObjectFullName == b.ScriptableObjectFullName
  }

  /** `RemoveAll` of the jobs sharing `done`'s identity. */
  function RemoveMatching(jobs: seq<GenerationJob>, done: GenerationJob): (r: seq<GenerationJob>)
    ensures |r| <= |jobs|
  {
    if jobs == [] then []
    else
      var rest := RemoveMatching(jobs[..|jobs| - 1], done);
      if SameIdentity(jobs[|jobs| - 1], done) then rest else rest + [jobs[|jobs| - 1]]
  }

  /** A job survives the removal of `completed` when it shares the identity
      of none of them. */
  predicate Survives(job: GenerationJob, completed: seq<GenerationJob>) {
    forall k :: 0 <= k < |completed| ==> !SameIdentity(job, completed[k])
  }

  /** The reference reading of `Remove`: one pass over the store keeping the
      survivors, in order. */
  function Survivors(jobs: seq<GenerationJob>, completed: seq<GenerationJob>): (r: seq<GenerationJob>)
    ensures |r| <= |jobs|
  {
    if jobs == [] then []
    else
      var rest := Survivors(jobs[..|jobs| - 1], completed);
      if Survives(jobs[|jobs| - 1], completed) then rest + [jobs[|jobs| - 1]] else rest
  }

  /** Removing the matches of one more completed job from the survivors of
      the earlier ones gives the survivors of all of them. */
  lemma {:induction false} RemoveMatchingSurvivors(jobs: seq<GenerationJob>, completed: seq<GenerationJob>, done: GenerationJob)
    ensures RemoveMatching(Survivors(jobs, completed), done) == Survivors(jobs, completed + [done])
    decreases |jobs|
  {
    if jobs != [] {
      var init, last := jobs[..|jobs| - 1], jobs[|jobs| - 1];
      RemoveMatchingSurvivors(init, completed, done);
      var more := completed + [done];
      assert Survives(last, more) <==> Survives(last, completed) && !SameIdentity(last, done) by {
        assert more[|completed|] == done;
        assert forall k :: 0 <= k < |completed| ==> more[k] == completed[k];
      }
      if Survives(last, completed) {
        RemoveMatchingStep(Survivors(init, completed), last, done);
      }
    }
  }

  lemma RemoveMatchingStep(jobs: seq<GenerationJob>, job: GenerationJob, done: GenerationJob)
    ensures RemoveMatching(jobs + [job], done)
         == RemoveMatching(jobs, done) + (if SameIdentity(job, done) then [] else [job])
  {
    assert (jobs + [job])[..|jobs|] == jobs;
  }

  lemma {:induction false} SurvivorsOfNone(jobs: seq<GenerationJob>)
    ensures Survivors(jobs, []) == jobs
  {
    if jobs != [] {
      SurvivorsOfNone(jobs[..|jobs| - 1]);
    }
  }

  /** A job is kept exactly when it was stored and survives; nothing else
      appears. */
  lemma {:induction false} SurvivorsMembers(jobs: seq<GenerationJob>, completed: seq<GenerationJob>, job: GenerationJob)
    ensures job in Survivors(jobs, completed) <==> job in jobs && Survives(job, completed)
    decreases |jobs|
  {
    if jobs != [] {
      var init := jobs[..|jobs| - 1];
      SurvivorsMembers(init, completed, job);
      assert jobs == init + [jobs[|jobs| - 1]];
    }
  }

  /** When no stored job shares an identity with a completed one, the store
      is left as it was. */
  lemma {:induction false} SurvivorsOfStrangers(jobs: seq<GenerationJob>, completed: seq<GenerationJob>)
    requires forall i :: 0 <= i < |jobs| ==> Survives(jobs[i], completed)
    ensures Survivors(jobs, completed) == jobs
    decreases |jobs|
  {
    if jobs != [] {
      var init := jobs[..|jobs| - 1];
      assert forall i :: 0 <= i < |init| ==> init[i] == jobs[i];
      SurvivorsOfStrangers(init, completed);
    }
  }

  /** The pending-job slot of the editor session. `slot` is `None` when the
      key is absent or holds `null`; both read as no jobs. Every mutation
      reads the whole list, changes it and writes it back. */
  class JobStore {
    var slot: Option<seq<GenerationJob>>

    constructor ()
      ensures slot == None
    {
      slot := None;
    }

    /** LoadAll: the stored list, or an empty one. */
    function LoadAll(): (jobs: seq<GenerationJob>)
      reads this
      ensures slot.None? ==> jobs == []
      ensures slot.Some? ==> jobs == slot.value
    {
      slot.GetOr([])
    }

    predicate HasJobs()
      reads this
    {
      |LoadAll()| > 0
    }

    /** Enqueue: appends at the end; earlier jobs keep their place. */
    method Enqueue(job: GenerationJob)
      modifies this
      ensures slot == Some(old(LoadAll()) + [job])
      ensures HasJobs()
    {
      var jobs := LoadAll();
      jobs := jobs + [job];
      slot := Some(jobs);
    }

    /** Remove: for each completed job in turn, removes every stored job
      with its identity, then writes the rest back. */
    method Remove(completed: seq<GenerationJob>)
      modifies this
      ensures slot == Some(Survivors(old(LoadAll()), completed))
    {
      var remaining := LoadAll();
      ghost var stored := remaining;
      SurvivorsOfNone(stored);
      for i := 0 to |completed|
        invariant remaining == Survivors(stored, completed[..i])
      {
        RemoveMatchingSurvivors(stored, completed[..i], completed[i]);
        assert completed[..i] + [completed[i]] == completed[..i + 1];
        remaining := RemoveMatching(remaining, completed[i]);
      }
      assert completed[..|completed|] == completed;
      slot := Some(remaining);
    }
  }

  /** Enqueueing a job whose identity is new and then removing it restores
      the store. */
  lemma RemoveEnqueued(jobs: seq<GenerationJob>, job: GenerationJob)
    requires forall i :: 0 <= i < |jobs| ==> !SameIdentity(jobs[i], job)
    ensures Survivors(jobs + [job], [job]) == jobs
  {
    assert (jobs + [job])[..|jobs|] == jobs;
    SurvivorsOfStrangers(jobs, [job]);
  }
}
