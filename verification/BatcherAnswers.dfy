/** Where the answers of the batcher's jobs come from: each applied one was given for its job, each loss has a cause. */
module BatcherAnswers {
  import opened Common
  import opened Batcher

  /** The step brings `raw` for job `j`: the answer of a direct call, of a drained one, or one among a batch's. */
  ghost predicate Gives(w: World, a: Action, j: Job, raw: nat)
    requires Enabled(w, a)
  {
    match a
    case DirectOne(t, answer) => w.tasks[t].jobs[0] == j && answer == Some(raw)
    case DrainDone(t, i, answer) => w.tasks[t].running[i] == j && answer == Some(raw)
    case BatchEnds(t, results) =>
      j.id in w.tasks[t].byID && w.tasks[t].byID[j.id] == j && j.id in results && results[j.id] == raw
    case _ => false
  }

  /** The step loses job `j`: its call failed, its batch was given up or has no answer for it, or time was up. */
  ghost predicate Loses(w: World, a: Action, j: Job)
    requires Enabled(w, a)
  {
    match a
    case DirectOne(t, answer) => w.tasks[t].jobs[0] == j && answer == None
    case DrainDone(t, i, answer) => w.tasks[t].running[i] == j && answer == None
    case FollowStops(t, _) => j in JobsIn(w.tasks[t].byID)
    case BatchEnds(t, results) => j.id in w.tasks[t].byID && w.tasks[t].byID[j.id] == j && j.id !in results
    case DrainOutOfTime(t) => j in w.tasks[t].jobs
    case _ => false
  }

  ghost predicate Given(run: seq<Action>, j: Job, raw: nat)
    requires Runs(run)
  {
    exists k: nat :: k < |run| && GivenAt(run, k, j, raw)
  }

  ghost predicate GivenAt(run: seq<Action>, k: nat, j: Job, raw: nat)
    requires Runs(run) && k < |run|
  {
    Prefix(run, k);
    Gives(After(run[..k]), run[k], j, raw)
  }

  ghost predicate Lost(run: seq<Action>, j: Job)
    requires Runs(run)
  {
    exists k: nat :: k < |run| && LostAt(run, k, j)
  }

  ghost predicate LostAt(run: seq<Action>, k: nat, j: Job)
    requires Runs(run) && k < |run|
  {
    Prefix(run, k);
    Loses(After(run[..k]), run[k], j)
  }

  lemma {:induction false} Prefix(run: seq<Action>, k: nat)
    requires Runs(run) && k < |run|
    ensures Runs(run[..k]) && Enabled(After(run[..k]), run[k])
  {
    if k < |run| - 1 {
      Prefix(run[..|run| - 1], k);
      assert run[..|run| - 1][..k] == run[..k];
    }
  }

  lemma StillGiven(run: seq<Action>, j: Job, raw: nat)
    requires Runs(run) && run != [] && Given(run[..|run| - 1], j, raw)
    ensures Given(run, j, raw)
  {
    var before := run[..|run| - 1];
    var k: nat :| k < |before| && GivenAt(before, k, j, raw);
    assert before[..k] == run[..k] && before[k] == run[k];
    assert GivenAt(run, k, j, raw);
  }

  lemma StillLost(run: seq<Action>, j: Job)
    requires Runs(run) && run != [] && Lost(run[..|run| - 1], j)
    ensures Lost(run, j)
  {
    var before := run[..|run| - 1];
    var k: nat :| k < |before| && LostAt(before, k, j);
    assert before[..k] == run[..k] && before[k] == run[k];
    assert LostAt(run, k, j);
  }

  /** The maps of a batch are keyed, and what a batch that ended holds was given or lost when it did. */
  ghost predicate TaskTraced(run: seq<Action>, t: Task)
    requires Runs(run)
  {
    match t
    case Following(byID) => Keyed(byID)
    case Applying(byID, results) =>
      Keyed(byID) && forall id :: id in byID ==>
        if id in results then Given(run, byID[id], results[id]) else Lost(run, byID[id])
    case _ => true
  }

  ghost predicate Traced(run: seq<Action>, w: World)
    requires Runs(run)
  {
    && (forall t :: 0 <= t < |w.tasks| ==> TaskTraced(run, w.tasks[t]))
    && (forall i :: 0 <= i < |w.applied| ==> Given(run, w.applied[i].job, w.applied[i].raw))
    && (forall i :: 0 <= i < |w.abandoned| ==> Lost(run, w.abandoned[i]))
  }

  lemma StillTraced(run: seq<Action>, w: World)
    requires Runs(run) && run != [] && Traced(run[..|run| - 1], w)
    ensures Traced(run, w)
  {
    forall j, raw | Given(run[..|run| - 1], j, raw)
      ensures Given(run, j, raw)
    {
      StillGiven(run, j, raw);
    }
    forall j | Lost(run[..|run| - 1], j)
      ensures Lost(run, j)
    {
      StillLost(run, j);
    }
  }

  /** What the last step gives or loses is given or lost in the run. */
  lemma LastCounts(run: seq<Action>)
    requires Runs(run) && run != []
    ensures var n := |run| - 1;
            && (forall j, raw :: Gives(After(run[..n]), run[n], j, raw) ==> Given(run, j, raw))
            && (forall j :: Loses(After(run[..n]), run[n], j) ==> Lost(run, j))
  {
    var n := |run| - 1;
    forall j, raw | Gives(After(run[..n]), run[n], j, raw)
      ensures Given(run, j, raw)
    {
      assert GivenAt(run, n, j, raw);
    }
    forall j | Loses(After(run[..n]), run[n], j)
      ensures Lost(run, j)
    {
      assert LostAt(run, n, j);
    }
  }

  lemma InOrder(order: seq<Job>, m: map<nat, Job>)
    requires multiset(order) == JobsIn(m)
    ensures forall i :: 0 <= i < |order| ==> order[i] in JobsIn(m)
  {
    assert forall i :: 0 <= i < |order| ==> order[i] in multiset(order);
  }

  lemma TaskChanges(run: seq<Action>, w: World, t: nat, task: Task)
    requires Runs(run) && Traced(run, w) && t < |w.tasks| && TaskTraced(run, task)
    ensures Traced(run, w.(tasks := w.tasks[t := task]))
  {
  }

  lemma Settled(run: seq<Action>, w: World, j: Job, raw: Option<nat>)
    requires Runs(run) && Traced(run, w) && (if raw.Some? then Given(run, j, raw.value) else Lost(run, j))
    ensures Traced(run, Settle(w, j, raw))
  {
  }

  lemma AllAbandoned(run: seq<Action>, w: World, jobs: seq<Job>)
    requires Runs(run) && Traced(run, w) && forall i :: 0 <= i < |jobs| ==> Lost(run, jobs[i])
    ensures Traced(run, w.(abandoned := w.abandoned + jobs))
  {
  }

  lemma BatchEndTraces(run: seq<Action>, w: World, t: nat, results: map<nat, nat>)
    requires Runs(run) && run != [] && w == After(run[..|run| - 1]) && Traced(run, w)
    requires run[|run| - 1] == BatchEnds(t, results)
    ensures Traced(run, After(run))
  {
    var byID := w.tasks[t].byID;
    LastCounts(run);
    assert TaskTraced(run, w.tasks[t]);
    forall id | id in byID
      ensures if id in results then Given(run, byID[id], results[id]) else Lost(run, byID[id])
    {
      assert byID[id].id == id;
    }
    TaskChanges(run, w, t, Applying(byID, results));
  }

  lemma ApplyTraces(run: seq<Action>, w: World, t: nat, id: nat)
    requires Runs(run) && run != [] && w == After(run[..|run| - 1]) && Traced(run, w)
    requires run[|run| - 1] == ApplyOne(t, id)
    ensures Traced(run, After(run))
  {
    var task := w.tasks[t];
    assert TaskTraced(run, task);
    TaskChanges(run, w, t, task.(byID := task.byID - {id}));
    Settled(run, w.(tasks := w.tasks[t := task.(byID := task.byID - {id})]), task.byID[id],
            if id in task.results then Some(task.results[id]) else None);
  }

  /** A call about `j` comes back and its task goes on as `task'`. */
  lemma CallSettles(run: seq<Action>, w: World, t: nat, task': Task, j: Job, raw: Option<nat>)
    requires Runs(run) && Traced(run, w) && t < |w.tasks| && TaskTraced(run, task')
    requires if raw.Some? then Given(run, j, raw.value) else Lost(run, j)
    ensures Traced(run, Settle(w.(tasks := w.tasks[t := task']), j, raw))
  {
    TaskChanges(run, w, t, task');
    Settled(run, w.(tasks := w.tasks[t := task']), j, raw);
  }

  lemma DirectTraces(run: seq<Action>, w: World, t: nat, raw: Option<nat>)
    requires Runs(run) && run != [] && w == After(run[..|run| - 1]) && Traced(run, w)
    requires run[|run| - 1] == DirectOne(t, raw)
    ensures Traced(run, After(run))
  {
    var jobs := w.tasks[t].jobs;
    LastCounts(run);
    assert raw.Some? ==> Gives(w, DirectOne(t, raw), jobs[0], raw.value);
    assert raw == None ==> Loses(w, DirectOne(t, raw), jobs[0]);
    CallSettles(run, w, t, Direct(jobs[1..]), jobs[0], raw);
  }

  lemma DrainTraces(run: seq<Action>, w: World, t: nat, i: nat, raw: Option<nat>)
    requires Runs(run) && run != [] && w == After(run[..|run| - 1]) && Traced(run, w)
    requires run[|run| - 1] == DrainDone(t, i, raw)
    ensures Traced(run, After(run))
  {
    var task := w.tasks[t];
    LastCounts(run);
    assert raw.Some? ==> Gives(w, DrainDone(t, i, raw), task.running[i], raw.value);
    assert raw == None ==> Loses(w, DrainDone(t, i, raw), task.running[i]);
    CallSettles(run, w, t, task.(running := task.running[..i] + task.running[i + 1..]), task.running[i], raw);
  }

  lemma DropTraces(run: seq<Action>, w: World)
    requires Runs(run) && run != [] && w == After(run[..|run| - 1]) && Traced(run, w)
    requires run[|run| - 1].FollowStops? || run[|run| - 1].DrainOutOfTime?
    ensures Traced(run, After(run))
  {
    var a := run[|run| - 1];
    var task := w.tasks[a.task];
    LastCounts(run);
    if a.FollowStops? {
      InOrder(a.order, task.byID);
      TaskChanges(run, w, a.task, Following(map[]));
      AllAbandoned(run, w.(tasks := w.tasks[a.task := Following(map[])]), a.order);
    } else {
      TaskChanges(run, w, a.task, task.(jobs := []));
      assert forall i :: 0 <= i < |task.jobs| ==> Loses(w, a, task.jobs[i]);
      AllAbandoned(run, w.(tasks := w.tasks[a.task := task.(jobs := [])]), task.jobs);
    }
  }

  lemma SubmitTraces(run: seq<Action>, w: World, t: nat, ok: bool)
    requires Runs(run) && run != [] && w == After(run[..|run| - 1]) && Traced(run, w)
    requires run[|run| - 1] == Submit(t, ok)
    ensures Traced(run, After(run))
  {
    ByIdIsKeyed(w.tasks[t].jobs);
    TaskChanges(run, w, t, if ok then Following(ById(w.tasks[t].jobs)) else Direct(w.tasks[t].jobs));
  }

  lemma TaskAdded(run: seq<Action>, w: World, task: Task)
    requires Runs(run) && Traced(run, w) && TaskTraced(run, task)
    ensures Traced(run, w.(tasks := w.tasks + [task]))
  {
  }

  lemma SameTraced(run: seq<Action>, w: World, w': World)
    requires Runs(run) && Traced(run, w)
    requires w'.tasks == w.tasks && w'.applied == w.applied && w'.abandoned == w.abandoned
    ensures Traced(run, w')
  {
  }

  lemma QueueTraces(run: seq<Action>, w: World)
    requires Runs(run) && run != [] && w == After(run[..|run| - 1]) && Traced(run, w)
    requires run[|run| - 1].Enqueue? || run[|run| - 1].Flush? || run[|run| - 1].Drain?
    ensures Traced(run, After(run))
  {
    var a := run[|run| - 1];
    if a.Enqueue? || w.pending == [] {
      SameTraced(run, w, After(run));
    } else {
      var task := if a.Flush? then Submitting(w.pending) else Draining(w.pending, []);
      TaskAdded(run, w, task);
      SameTraced(run, w.(tasks := w.tasks + [task]), After(run));
    }
  }

  lemma LaunchTraces(run: seq<Action>, w: World, t: nat)
    requires Runs(run) && run != [] && w == After(run[..|run| - 1]) && Traced(run, w)
    requires run[|run| - 1] == DrainLaunch(t)
    ensures Traced(run, After(run))
  {
    var task := w.tasks[t];
    TaskChanges(run, w, t, Draining(task.jobs[1..], task.running + [task.jobs[0]]));
  }

  lemma StepTraces(run: seq<Action>, w: World)
    requires Runs(run) && run != [] && w == After(run[..|run| - 1]) && Traced(run, w)
    ensures Traced(run, After(run))
  {
    match run[|run| - 1]
    case Submit(t, ok) => SubmitTraces(run, w, t, ok);
    case DirectOne(t, raw) => DirectTraces(run, w, t, raw);
    case DrainDone(t, i, raw) => DrainTraces(run, w, t, i, raw);
    case FollowStops(_, _) => DropTraces(run, w);
    case DrainOutOfTime(_) => DropTraces(run, w);
    case BatchEnds(t, results) => BatchEndTraces(run, w, t, results);
    case ApplyOne(t, id) => ApplyTraces(run, w, t, id);
    case DrainLaunch(t) => LaunchTraces(run, w, t);
    case _ => QueueTraces(run, w);
  }

  lemma {:induction false} RunIsTraced(run: seq<Action>)
    requires Runs(run)
    ensures Traced(run, After(run))
  {
    if run != [] {
      RunIsTraced(run[..|run| - 1]);
      StillTraced(run, After(run[..|run| - 1]));
      StepTraces(run, After(run[..|run| - 1]));
    }
  }

  /** In every interleaving a job is applied with an answer that was given for it. */
  lemma AppliedWithItsOwnAnswer(run: seq<Action>, i: nat)
    requires Runs(run) && i < |After(run).applied|
    ensures Given(run, After(run).applied[i].job, After(run).applied[i].raw)
  {
    RunIsTraced(run);
  }

  /** And it is abandoned only if its call failed, its batch gave no answer for it, or time was up. */
  lemma AbandonedForACause(run: seq<Action>, j: Job)
    requires Runs(run) && j in After(run).abandoned
    ensures Lost(run, j)
  {
    RunIsTraced(run);
  }
}
