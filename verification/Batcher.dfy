/**
 The analysis batcher: jobs wait in memory, are taken as a batch, and are applied once or abandoned.

 `World` interleaves `Enqueue`, any number of flushes, of followers of submitted batches and of direct runs,
 and `Drain`, each taking its steps one at a time.  The API's answers are inputs.  `Batcher` is the code
 under the mutex and the loops over a batch.
 */
module Batcher {
  import opened Common

  const DRAIN_WORKERS := 4

  datatype Job = Job(id: nat, convo: nat)

  /** The answer a job was applied with. */
  datatype Applied = Applied(job: Job, raw: nat)

  // ---------------------------------------------------------------- one batch

  ghost predicate DistinctIds(jobs: seq<Job>) {
    forall i, j :: 0 <= i < j < |jobs| ==> jobs[i].id != jobs[j].id
  }

  function ById(jobs: seq<Job>): map<nat, Job> {
    if jobs == [] then map[] else ById(jobs[..|jobs| - 1])[jobs[|jobs| - 1].id := jobs[|jobs| - 1]]
  }

  ghost predicate Keyed(m: map<nat, Job>) { forall k :: k in m ==> m[k].id == k }

  ghost function JobsIn(m: map<nat, Job>): multiset<Job> { multiset(m.Values) }

  lemma {:induction false} ByIdIsKeyed(jobs: seq<Job>)
    ensures Keyed(ById(jobs))
    ensures forall k :: k in ById(jobs) <==> exists i :: 0 <= i < |jobs| && jobs[i].id == k
  {
    if jobs != [] {
      var n := |jobs| - 1;
      ByIdIsKeyed(jobs[..n]);
      assert jobs == jobs[..n] + [jobs[n]];
      forall k
        ensures k in ById(jobs) <==> exists i :: 0 <= i < |jobs| && jobs[i].id == k
      {
        if k in ById(jobs[..n]) {
          var i :| 0 <= i < n && jobs[..n][i].id == k;
          assert jobs[i].id == k;
        }
        if i :| 0 <= i < |jobs| && jobs[i].id == k {
          if i < n {
            assert jobs[..n][i].id == k;
          }
        }
      }
    }
  }

  lemma KeyAdded(m: map<nat, Job>, j: Job)
    requires Keyed(m) && j.id !in m
    ensures JobsIn(m[j.id := j]) == JobsIn(m) + multiset{j}
  {
    var m' := m[j.id := j];
    assert m'.Values == m.Values + {j} by {
      assert j.id in m';
      forall v | v in m.Values
        ensures v in m'.Values
      {
        var k :| k in m && m[k] == v;
        assert k in m' && m'[k] == v;
      }
    }
    assert j !in m.Values;
  }

  lemma KeyRemoved(m: map<nat, Job>, k: nat)
    requires Keyed(m) && k in m
    ensures JobsIn(m) == JobsIn(m - {k}) + multiset{m[k]} && Keyed(m - {k})
  {
    KeyAdded(m - {k}, m[k]);
    assert (m - {k})[k := m[k]] == m;
  }

  /** With distinct ids, looking jobs up by id drops none. */
  lemma {:induction false} ByIdDropsNone(jobs: seq<Job>)
    requires DistinctIds(jobs)
    ensures JobsIn(ById(jobs)) == multiset(jobs)
  {
    if jobs != [] {
      var n := |jobs| - 1;
      ByIdDropsNone(jobs[..n]);
      ByIdIsKeyed(jobs[..n]);
      KeyAdded(ById(jobs[..n]), jobs[n]);
      assert jobs == jobs[..n] + [jobs[n]];
    }
  }

  // ---------------------------------------------------------------- the code

  class AnalysisBatcher {
    var pending: seq<Job>
    var seqNo: nat
    var started: bool
    var kicked: bool
    const maxPending: nat

    constructor (maxPending: nat)
      ensures pending == [] && seqNo == 0 && !started && !kicked
      ensures this.maxPending == if maxPending == 0 then 50 else maxPending
    {
      this.maxPending := if maxPending == 0 then 50 else maxPending;
      pending, seqNo, started, kicked := [], 0, false, false;
    }

    /** Numbers the job after all earlier ones and, once the loop runs, asks for a flush when enough are waiting. */
    method Enqueue(convo: nat)
      modifies this
      ensures seqNo == old(seqNo) + 1 && pending == old(pending) + [Job(seqNo, convo)] && started == old(started)
      ensures kicked <==> old(kicked) || (started && |pending| >= maxPending)
    {
      seqNo := seqNo + 1;
      pending := pending + [Job(seqNo, convo)];
      var full := |pending| >= maxPending;
      if full && started {
        kicked := true;
      }
    }

    /** How a flush and the drain take the queue. */
    method TakePending() returns (jobs: seq<Job>)
      modifies this
      ensures jobs == old(pending) && pending == [] && seqNo == old(seqNo) && started == old(started)
              && kicked == old(kicked)
    {
      jobs := pending;
      pending := [];
    }
  }

  method Index(jobs: seq<Job>) returns (byID: map<nat, Job>)
    ensures byID == ById(jobs)
  {
    byID := map[];
    for i := 0 to |jobs|
      invariant byID == ById(jobs[..i])
    {
      assert jobs[..i + 1][..i] == jobs[..i];
      byID := byID[jobs[i].id := jobs[i]];
    }
    assert jobs[..|jobs|] == jobs;
  }

  /** Applies what the batch answered, in whatever order: each job that has an answer once, with its own answer. */
  method ApplyResults(byID: map<nat, Job>, results: map<nat, nat>) returns (applied: seq<Applied>)
    requires Keyed(byID)
    ensures forall a :: a in applied <==>
              a.job.id in byID && byID[a.job.id] == a.job && a.job.id in results && a.raw == results[a.job.id]
    ensures forall i, j :: 0 <= i < j < |applied| ==> applied[i].job != applied[j].job
  {
    applied := [];
    var todo := byID.Keys;
    while todo != {}
      invariant todo <= byID.Keys
      invariant forall a :: a in applied <==>
                  a.job.id in byID && a.job.id !in todo && byID[a.job.id] == a.job && a.job.id in results
                      && a.raw == results[a.job.id]
      invariant forall i, j :: 0 <= i < j < |applied| ==> applied[i].job != applied[j].job
      decreases todo
    {
      var id :| id in todo;
      todo := todo - {id};
      if id in results {
        var a := Applied(byID[id], results[id]);
        assert forall i :: 0 <= i < |applied| ==> applied[i] in applied;
        applied := applied + [a];
      }
    }
  }

  // ---------------------------------------------------------------- every interleaving

  datatype Task =
    | Submitting(jobs: seq<Job>)
    | Direct(jobs: seq<Job>)
    | Following(byID: map<nat, Job>)
    | Applying(byID: map<nat, Job>, results: map<nat, nat>)
    | Draining(jobs: seq<Job>, running: seq<Job>)

  /** `born`: every job ever enqueued. */
  datatype World = World(pending: seq<Job>, seqNo: nat, tasks: seq<Task>, applied: seq<Applied>, abandoned: seq<Job>,
      born: seq<Job>)

  const START: World := World([], 0, [], [], [], [])

  datatype Action =
    | Enqueue(convo: nat)
    | Flush
    | Submit(task: nat, ok: bool)
    | DirectOne(task: nat, raw: Option<nat>)
    | FollowStops(task: nat, order: seq<Job>)
    | BatchEnds(task: nat, results: map<nat, nat>)
    | ApplyOne(task: nat, id: nat)
    | Drain
    | DrainLaunch(task: nat)
    | DrainDone(task: nat, worker: nat, raw: Option<nat>)
    | DrainOutOfTime(task: nat)

  ghost predicate Enabled(w: World, a: Action) {
    match a
    case Enqueue(_) => true
    case Flush => true
    case Submit(t, _) => t < |w.tasks| && w.tasks[t].Submitting?
    case DirectOne(t, _) => t < |w.tasks| && w.tasks[t].Direct? && w.tasks[t].jobs != []
    case FollowStops(t, order) => t < |w.tasks| && w.tasks[t].Following? && multiset(order) == JobsIn(w.tasks[t].byID)
    case BatchEnds(t, _) => t < |w.tasks| && w.tasks[t].Following?
    case ApplyOne(t, id) => t < |w.tasks| && w.tasks[t].Applying? && id in w.tasks[t].byID
    case Drain => true
    case DrainLaunch(t) =>
      && t < |w.tasks| && w.tasks[t].Draining? && w.tasks[t].jobs != []
      && |w.tasks[t].running| < DRAIN_WORKERS
    case DrainDone(t, i, _) => t < |w.tasks| && w.tasks[t].Draining? && i < |w.tasks[t].running|
    case DrainOutOfTime(t) => t < |w.tasks| && w.tasks[t].Draining?
  }

  /** A job's call came back, or failed. */
  function Settle(w: World, j: Job, raw: Option<nat>): World {
    if raw.Some? then w.(applied := w.applied + [Applied(j, raw.value)]) else w.(abandoned := w.abandoned + [j])
  }

  ghost function Step(w: World, a: Action): World
    requires Enabled(w, a)
  {
    match a
    case Enqueue(convo) =>
      var j := Job(w.seqNo + 1, convo);
      w.(seqNo := w.seqNo + 1, pending := w.pending + [j], born := w.born + [j])
    case Flush => if w.pending == [] then w else w.(pending := [], tasks := w.tasks + [Submitting(w.pending)])
    case Submit(t, ok) =>
      var jobs := w.tasks[t].jobs;
      w.(tasks := w.tasks[t := if ok then Following(ById(jobs)) else Direct(jobs)])
    case DirectOne(t, raw) =>
      var jobs := w.tasks[t].jobs;
      Settle(w.(tasks := w.tasks[t := Direct(jobs[1..])]), jobs[0], raw)
    case FollowStops(t, order) => w.(tasks := w.tasks[t := Following(map[])], abandoned := w.abandoned + order)
    case BatchEnds(t, results) => w.(tasks := w.tasks[t := Applying(w.tasks[t].byID, results)])
    case ApplyOne(t, id) =>
      var task := w.tasks[t];
      Settle(w.(tasks := w.tasks[t := task.(byID := task.byID - {id})]), task.byID[id],
             if id in task.results then Some(task.results[id]) else None)
    case Drain => if w.pending == [] then w else w.(pending := [], tasks := w.tasks + [Draining(w.pending, [])])
    case DrainLaunch(t) =>
      var task := w.tasks[t];
      w.(tasks := w.tasks[t := Draining(task.jobs[1..], task.running + [task.jobs[0]])])
    case DrainDone(t, i, raw) =>
      var task := w.tasks[t];
      Settle(w.(tasks := w.tasks[t := task.(running := task.running[..i] + task.running[i + 1..])]), task.running[i],
          raw)
    case DrainOutOfTime(t) =>
      w.(tasks := w.tasks[t := w.tasks[t].(jobs := [])], abandoned := w.abandoned + w.tasks[t].jobs)
  }

  ghost predicate Runs(run: seq<Action>)
    decreases |run|, 0
  {
    run == [] || (Runs(run[..|run| - 1]) && Enabled(After(run[..|run| - 1]), run[|run| - 1]))
  }

  ghost function After(run: seq<Action>): World
    requires Runs(run)
    decreases |run|, 1
  {
    if run == [] then START else Step(After(run[..|run| - 1]), run[|run| - 1])
  }

  // ---------------------------------------------------------------- conservation

  ghost function Held(t: Task): multiset<Job> {
    match t
    case Submitting(jobs) => multiset(jobs)
    case Direct(jobs) => multiset(jobs)
    case Following(byID) => JobsIn(byID)
    case Applying(byID, _) => JobsIn(byID)
    case Draining(jobs, running) => multiset(jobs) + multiset(running)
  }

  ghost function Pool(ms: seq<multiset<Job>>): multiset<Job> {
    if ms == [] then multiset{} else Pool(ms[..|ms| - 1]) + ms[|ms| - 1]
  }

  lemma {:induction false} PoolChanges(ms: seq<multiset<Job>>, i: nat, m: multiset<Job>)
    requires i < |ms|
    ensures Pool(ms[i := m]) + ms[i] == Pool(ms) + m
  {
    var n, ms' := |ms| - 1, ms[i := m];
    if i < n {
      PoolChanges(ms[..n], i, m);
      assert ms'[..n] == ms[..n][i := m];
      assert Pool(ms') == Pool(ms'[..n]) + ms[n] && Pool(ms) == Pool(ms[..n]) + ms[n];
      forall j
        ensures (Pool(ms') + ms[i])[j] == (Pool(ms) + m)[j]
      {
        assert (Pool(ms'[..n]) + ms[i])[j] == (Pool(ms[..n]) + m)[j];
      }
    } else {
      assert ms'[..n] == ms[..n] && ms'[n] == m;
      assert Pool(ms') == Pool(ms[..n]) + m;
    }
  }

  ghost function Holdings(tasks: seq<Task>): seq<multiset<Job>> {
    seq(|tasks|, i requires 0 <= i < |tasks| => Held(tasks[i]))
  }

  ghost function InFlight(tasks: seq<Task>): multiset<Job> { Pool(Holdings(tasks)) }

  lemma InFlightChanges(tasks: seq<Task>, i: nat, t: Task, held: multiset<Job>)
    requires i < |tasks| && held == Held(t)
    ensures InFlight(tasks[i := t]) + Held(tasks[i]) == InFlight(tasks) + held
  {
    PoolChanges(Holdings(tasks), i, held);
    assert Holdings(tasks[i := t]) == Holdings(tasks)[i := held];
  }

  lemma InFlightGrows(tasks: seq<Task>, t: Task, held: multiset<Job>)
    requires held == Held(t)
    ensures InFlight(tasks + [t]) == InFlight(tasks) + held
  {
    assert Holdings(tasks + [t]) == Holdings(tasks) + [held];
    assert Holdings(tasks + [t])[..|tasks|] == Holdings(tasks);
  }

  function JobsApplied(applied: seq<Applied>): seq<Job> {
    seq(|applied|, i requires 0 <= i < |applied| => applied[i].job)
  }

  ghost function Everywhere(w: World): multiset<Job> {
    multiset(w.pending) + InFlight(w.tasks) + multiset(JobsApplied(w.applied)) + multiset(w.abandoned)
  }

  ghost predicate TaskKeyed(t: Task) {
    match t
    case Submitting(jobs) => DistinctIds(jobs)
    case Following(byID) => Keyed(byID)
    case Applying(byID, _) => Keyed(byID)
    case _ => true
  }

  ghost predicate Conserved(w: World) {
    && Everywhere(w) == multiset(w.born)
    && |w.born| == w.seqNo && (forall i :: 0 <= i < |w.born| ==> w.born[i].id == i + 1)
    && DistinctIds(w.pending) && (forall i :: 0 <= i < |w.pending| ==> w.pending[i].id <= w.seqNo)
    && (forall t :: 0 <= t < |w.tasks| ==> TaskKeyed(w.tasks[t]))
  }

  lemma Settled(w: World, j: Job, raw: Option<nat>)
    ensures Everywhere(Settle(w, j, raw)) == Everywhere(w) + multiset{j}
  {
    if raw.Some? {
      assert JobsApplied(w.applied + [Applied(j, raw.value)]) == JobsApplied(w.applied) + [j];
    }
  }

  /** One task lets go of `gone` and holds `kept`. */
  lemma TaskLets(w: World, t: nat, t': Task, kept: multiset<Job>, gone: multiset<Job>)
    requires t < |w.tasks| && kept == Held(t') && Held(w.tasks[t]) == kept + gone
    ensures Everywhere(w.(tasks := w.tasks[t := t'])) + gone == Everywhere(w)
  {
    InFlightChanges(w.tasks, t, t', kept);
    Cancel(InFlight(w.tasks[t := t']), InFlight(w.tasks), kept, gone);
    Regroup(multiset(w.pending), InFlight(w.tasks[t := t']), gone, multiset(JobsApplied(w.applied)),
        multiset(w.abandoned));
  }

  lemma Cancel(after: multiset<Job>, before: multiset<Job>, kept: multiset<Job>, gone: multiset<Job>)
    requires after + (kept + gone) == before + kept
    ensures after + gone == before
  {
    forall j
      ensures (after + gone)[j] == before[j]
    {
      assert (after + (kept + gone))[j] == (before + kept)[j];
    }
  }

  lemma Regroup(a: multiset<Job>, b: multiset<Job>, x: multiset<Job>, c: multiset<Job>, d: multiset<Job>)
    ensures a + b + c + d + x == a + (b + x) + c + d
  {
  }

  lemma TaskSettles(w: World, t: nat, t': Task, kept: multiset<Job>, j: Job, raw: Option<nat>)
    requires Conserved(w) && t < |w.tasks| && TaskKeyed(t')
    requires kept == Held(t') && Held(w.tasks[t]) == kept + multiset{j}
    ensures Conserved(Settle(w.(tasks := w.tasks[t := t']), j, raw))
  {
    var w' := w.(tasks := w.tasks[t := t']);
    TaskLets(w, t, t', kept, multiset{j});
    Settled(w', j, raw);
    assert Everywhere(Settle(w', j, raw)) == multiset(w.born);
  }

  lemma TaskDrops(w: World, t: nat, t': Task, kept: multiset<Job>, lost: seq<Job>)
    requires Conserved(w) && t < |w.tasks| && TaskKeyed(t')
    requires kept == Held(t') && Held(w.tasks[t]) == kept + multiset(lost)
    ensures Conserved(w.(tasks := w.tasks[t := t'], abandoned := w.abandoned + lost))
  {
    TaskLets(w, t, t', kept, multiset(lost));
    assert Everywhere(w.(tasks := w.tasks[t := t'], abandoned := w.abandoned + lost)) == multiset(w.born);
  }

  lemma QueueIsTaken(w: World, t: Task)
    requires Conserved(w) && TaskKeyed(t) && Held(t) == multiset(w.pending)
    ensures Conserved(w.(pending := [], tasks := w.tasks + [t]))
  {
    InFlightGrows(w.tasks, t, multiset(w.pending));
  }

  lemma EnqueueConserves(w: World, convo: nat)
    requires Conserved(w)
    ensures Conserved(Step(w, Enqueue(convo)))
  {
    NewJobIsWaiting(w, Job(w.seqNo + 1, convo));
    assert DistinctIds(Step(w, Enqueue(convo)).pending);
  }

  lemma NewJobIsWaiting(w: World, j: Job)
    ensures Everywhere(w.(pending := w.pending + [j], seqNo := w.seqNo + 1, born := w.born + [j]))
            == Everywhere(w) + multiset{j}
  {
    var rest := InFlight(w.tasks) + multiset(JobsApplied(w.applied)) + multiset(w.abandoned);
    assert multiset(w.pending + [j]) == multiset(w.pending) + multiset{j};
    assert Everywhere(w) == multiset(w.pending) + rest;
  }

  lemma SubmitConserves(w: World, t: nat, ok: bool)
    requires Conserved(w) && Enabled(w, Submit(t, ok))
    ensures Conserved(Step(w, Submit(t, ok)))
  {
    var jobs := w.tasks[t].jobs;
    ByIdDropsNone(jobs);
    ByIdIsKeyed(jobs);
    TaskDrops(w, t, if ok then Following(ById(jobs)) else Direct(jobs), multiset(jobs), []);
    assert w.abandoned + [] == w.abandoned;
  }

  lemma DrainLaunchConserves(w: World, t: nat)
    requires Conserved(w) && Enabled(w, DrainLaunch(t))
    ensures Conserved(Step(w, DrainLaunch(t)))
  {
    var task := w.tasks[t];
    assert task.jobs == [task.jobs[0]] + task.jobs[1..];
    TaskDrops(w, t, Draining(task.jobs[1..], task.running + [task.jobs[0]]), Held(task), []);
    assert w.abandoned + [] == w.abandoned;
  }

  lemma DrainDoneConserves(w: World, t: nat, i: nat, raw: Option<nat>)
    requires Conserved(w) && Enabled(w, DrainDone(t, i, raw))
    ensures Conserved(Step(w, DrainDone(t, i, raw)))
  {
    var task := w.tasks[t];
    var task' := task.(running := task.running[..i] + task.running[i + 1..]);
    assert task.running == task.running[..i] + [task.running[i]] + task.running[i + 1..];
    TaskSettles(w, t, task', Held(task'), task.running[i], raw);
  }

  lemma ApplyOneConserves(w: World, t: nat, id: nat)
    requires Conserved(w) && Enabled(w, ApplyOne(t, id))
    ensures Conserved(Step(w, ApplyOne(t, id)))
  {
    var task := w.tasks[t];
    KeyRemoved(task.byID, id);
    TaskSettles(w, t, task.(byID := task.byID - {id}), JobsIn(task.byID - {id}), task.byID[id],
                if id in task.results then Some(task.results[id]) else None);
  }

  lemma DirectOneConserves(w: World, t: nat, raw: Option<nat>)
    requires Conserved(w) && Enabled(w, DirectOne(t, raw))
    ensures Conserved(Step(w, DirectOne(t, raw)))
  {
    var jobs := w.tasks[t].jobs;
    assert jobs == [jobs[0]] + jobs[1..];
    TaskSettles(w, t, Direct(jobs[1..]), multiset(jobs[1..]), jobs[0], raw);
  }

  lemma BatchEndsConserves(w: World, t: nat, results: map<nat, nat>)
    requires Conserved(w) && Enabled(w, BatchEnds(t, results))
    ensures Conserved(Step(w, BatchEnds(t, results)))
  {
    TaskDrops(w, t, Applying(w.tasks[t].byID, results), JobsIn(w.tasks[t].byID), []);
    assert w.abandoned + [] == w.abandoned;
  }

  lemma StepConserves(w: World, a: Action)
    requires Conserved(w) && Enabled(w, a)
    ensures Conserved(Step(w, a))
  {
    match a
    case Enqueue(convo) => EnqueueConserves(w, convo);
    case Flush => QueueIsTaken(w, Submitting(w.pending));
    case Drain => QueueIsTaken(w, Draining(w.pending, []));
    case Submit(t, ok) => SubmitConserves(w, t, ok);
    case DirectOne(t, raw) => DirectOneConserves(w, t, raw);
    case FollowStops(t, order) => TaskDrops(w, t, Following(map[]), multiset{}, order);
    case BatchEnds(t, results) => BatchEndsConserves(w, t, results);
    case ApplyOne(t, id) => ApplyOneConserves(w, t, id);
    case DrainLaunch(t) => DrainLaunchConserves(w, t);
    case DrainDone(t, i, raw) => DrainDoneConserves(w, t, i, raw);
    case DrainOutOfTime(t) => TaskDrops(w, t, w.tasks[t].(jobs := []), multiset(w.tasks[t].running), w.tasks[t].jobs);
  }

  lemma {:induction false} RunConserves(run: seq<Action>)
    requires Runs(run)
    ensures Conserved(After(run))
  {
    if run != [] {
      RunConserves(run[..|run| - 1]);
      StepConserves(After(run[..|run| - 1]), run[|run| - 1]);
    }
  }

  // ---------------------------------------------------------------- results about every run

  lemma {:induction false} BornOnce(born: seq<Job>, j: Job)
    requires forall i :: 0 <= i < |born| ==> born[i].id == i + 1
    ensures multiset(born)[j] == if j in born then 1 else 0
  {
    if born != [] {
      var n := |born| - 1;
      assert born == born[..n] + [born[n]];
      BornOnce(born[..n], j);
    }
  }

  /** Every job enqueued is at each moment in exactly one place, once: waiting, in flight, applied or abandoned. */
  lemma EachJobIsInOnePlace(run: seq<Action>, j: Job)
    requires Runs(run) && j in After(run).born
    ensures var w := After(run);
            multiset(w.pending)[j] + InFlight(w.tasks)[j] + multiset(JobsApplied(w.applied))[j]
            + multiset(w.abandoned)[j] == 1
  {
    RunConserves(run);
    BornOnce(After(run).born, j);
    assert Everywhere(After(run))[j] == 1;
  }

  lemma TwicePlaced(jobs: seq<Job>, lo: nat, hi: nat)
    requires lo < hi < |jobs| && jobs[lo] == jobs[hi]
    ensures multiset(jobs)[jobs[lo]] >= 2
  {
    assert jobs == jobs[..hi] + jobs[hi..];
    assert jobs[..hi][lo] in multiset(jobs[..hi]) && jobs[hi..][0] in multiset(jobs[hi..]);
  }

  /** Nothing is applied twice, and nothing that was not enqueued. */
  lemma AppliedAtMostOnce(run: seq<Action>, i: nat, k: nat)
    requires Runs(run) && i < k < |After(run).applied|
    ensures After(run).applied[i].job != After(run).applied[k].job
    ensures After(run).applied[i].job in After(run).born
  {
    RunConserves(run);
    var w := After(run);
    var jobs := JobsApplied(w.applied);
    var j := jobs[i];
    assert j in multiset(jobs) && Everywhere(w)[j] >= multiset(jobs)[j];
    BornOnce(w.born, j);
    if jobs[k] == j {
      TwicePlaced(jobs, i, k);
    }
  }

  /** Once nothing waits or is in flight, and no call failed, exactly the jobs enqueued were applied. */
  lemma QuietRunsApplyAll(run: seq<Action>)
    requires Runs(run) && After(run).pending == [] && After(run).abandoned == []
    requires InFlight(After(run).tasks) == multiset{}
    ensures multiset(JobsApplied(After(run).applied)) == multiset(After(run).born)
  {
    RunConserves(run);
  }
}
