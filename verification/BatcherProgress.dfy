/** That the batcher's jobs get through: what leads from the queue to an answer applied, on each of the three ways. */
module BatcherProgress {
  import opened Common
  import opened Batcher

  /** `acts` are possible one after the other from `w`, and lead to `v`. */
  ghost predicate Leads(w: World, acts: seq<Action>, v: World)
    decreases |acts|
  {
    if acts == [] then v == w else Enabled(w, acts[0]) && Leads(Step(w, acts[0]), acts[1..], v)
  }

  lemma LeadsCons(w: World, a: Action, acts: seq<Action>, v: World)
    requires Enabled(w, a) && Leads(Step(w, a), acts, v)
    ensures Leads(w, [a] + acts, v)
  {
    assert ([a] + acts)[0] == a && ([a] + acts)[1..] == acts;
  }

  /** A job waits last, under the next number, and nothing else changes. */
  lemma EnqueuedWaits(w: World, convo: nat)
    ensures var w', j := Step(w, Enqueue(convo)), Job(w.seqNo + 1, convo);
            w' == w.(seqNo := w.seqNo + 1, pending := w.pending + [j], born := w.born + [j])
  {
  }

  /** With nothing waiting neither a flush nor a drain does anything. */
  lemma EmptyQueueIsLeft(w: World)
    requires w.pending == []
    ensures Step(w, Flush) == w && Step(w, Drain) == w
  {
  }

  // ---------------------------------------------------------------- a batch that is answered

  /** `v` is `w` but for what task `t` holds and for the jobs applied. */
  ghost predicate OnlyApplies(w: World, v: World, t: nat) {
    t < |w.tasks| && |v.tasks| == |w.tasks|
    && v == w.(tasks := w.tasks[t := v.tasks[t]], applied := v.applied)
  }

  ghost predicate HasAll(v: World, jobs: set<Job>, results: map<nat, nat>) {
    forall j :: j in jobs ==> j.id in results && Applied(j, results[j.id]) in v.applied
  }

  lemma {:induction false} AppliesAll(w: World, t: nat) returns (acts: seq<Action>, v: World)
    requires t < |w.tasks| && w.tasks[t].Applying? && Keyed(w.tasks[t].byID)
    requires forall id :: id in w.tasks[t].byID ==> id in w.tasks[t].results
    ensures Leads(w, acts, v) && OnlyApplies(w, v, t) && HasAll(v, w.tasks[t].byID.Values, w.tasks[t].results)
    ensures v.tasks[t] == Applying(map[], w.tasks[t].results)
    ensures forall a :: a in w.applied ==> a in v.applied
    decreases |w.tasks[t].byID|
  {
    var task := w.tasks[t];
    if task.byID == map[] {
      return [], w;
    }
    var id :| id in task.byID;
    var next := ApplyNext(w, t, id);
    var more;
    more, v := AppliesAll(next, t);
    acts := [ApplyOne(t, id)] + more;
    LeadsCons(w, ApplyOne(t, id), more, v);
    forall j | j in task.byID.Values
      ensures j.id in task.results && Applied(j, task.results[j.id]) in v.applied
    {
      var k :| k in task.byID && task.byID[k] == j;
      if k != id {
        assert k in next.tasks[t].byID && j in next.tasks[t].byID.Values;
      }
    }
  }

  /** `w` once one answer more was applied. */
  ghost function ApplyNext(w: World, t: nat, id: nat): (next: World)
    requires t < |w.tasks| && w.tasks[t].Applying? && id in w.tasks[t].byID && id in w.tasks[t].results
    ensures next == Step(w, ApplyOne(t, id)) && OnlyApplies(w, next, t)
    ensures next.tasks[t] == Applying(w.tasks[t].byID - {id}, w.tasks[t].results)
    ensures next.applied == w.applied + [Applied(w.tasks[t].byID[id], w.tasks[t].results[id])]
    ensures |next.tasks[t].byID| < |w.tasks[t].byID|
  {
    assert w.tasks[t].byID.Keys == (w.tasks[t].byID - {id}).Keys + {id};
    Step(w, ApplyOne(t, id))
  }

  lemma ValuesOfById(jobs: seq<Job>)
    requires DistinctIds(jobs)
    ensures Keyed(ById(jobs))
    ensures forall j :: j in jobs ==> j in ById(jobs).Values
    ensures forall id :: id in ById(jobs) ==> exists j :: j in jobs && j.id == id
  {
    ByIdIsKeyed(jobs);
    ByIdDropsNone(jobs);
    forall j | j in jobs
      ensures j in ById(jobs).Values
    {
      assert j in multiset(jobs) && j in JobsIn(ById(jobs));
    }
  }

  /** The queue is flushed, its batch accepted and answered: each job is applied with its own answer, none is lost. */
  lemma BatchIsApplied(w: World, results: map<nat, nat>) returns (acts: seq<Action>, v: World)
    requires w.pending != [] && DistinctIds(w.pending) && forall j :: j in w.pending ==> j.id in results
    ensures Leads(w, acts, v) && v.pending == [] && v.abandoned == w.abandoned
    ensures forall j :: j in w.pending ==> Applied(j, results[j.id]) in v.applied
    ensures |v.tasks| == |w.tasks| + 1 && v.tasks[|w.tasks|] == Applying(map[], results)
  {
    var t, jobs := |w.tasks|, w.pending;
    ValuesOfById(jobs);
    var w1 := w.(pending := [], tasks := w.tasks + [Submitting(jobs)]);
    var w2 := w1.(tasks := w1.tasks[t := Following(ById(jobs))]);
    var w3 := w2.(tasks := w2.tasks[t := Applying(ById(jobs), results)]);
    var more;
    more, v := AppliesAll(w3, t);
    assert Step(w, Flush) == w1 && Step(w1, Submit(t, true)) == w2 && Step(w2, BatchEnds(t, results)) == w3;
    LeadsCons(w2, BatchEnds(t, results), more, v);
    LeadsCons(w1, Submit(t, true), [BatchEnds(t, results)] + more, v);
    LeadsCons(w, Flush, [Submit(t, true)] + ([BatchEnds(t, results)] + more), v);
    acts := [Flush] + ([Submit(t, true)] + ([BatchEnds(t, results)] + more));
  }

  // ---------------------------------------------------------------- a batch that is refused

  /** The jobs with their answers, in order; those without one left out. */
  function Answered(jobs: seq<Job>, raws: seq<Option<nat>>): seq<Applied>
    requires |jobs| == |raws|
  {
    if jobs == [] then []
    else (if raws[0].Some? then [Applied(jobs[0], raws[0].value)] else []) + Answered(jobs[1..], raws[1..])
  }

  function Unanswered(jobs: seq<Job>, raws: seq<Option<nat>>): seq<Job>
    requires |jobs| == |raws|
  {
    if jobs == [] then [] else (if raws[0] == None then [jobs[0]] else []) + Unanswered(jobs[1..], raws[1..])
  }

  lemma AnsweredCons(j: Job, jobs: seq<Job>, raw: Option<nat>, raws: seq<Option<nat>>)
    requires |jobs| == |raws|
    ensures Answered([j] + jobs, [raw] + raws)
            == (if raw.Some? then [Applied(j, raw.value)] else []) + Answered(jobs, raws)
    ensures Unanswered([j] + jobs, [raw] + raws) == (if raw == None then [j] else []) + Unanswered(jobs, raws)
  {
    assert ([j] + jobs)[1..] == jobs && ([raw] + raws)[1..] == raws;
  }

  /** `w` with `jobs` answered by `raws`, task `t` having come to `task`. */
  function Through(w: World, t: nat, task: Task, jobs: seq<Job>, raws: seq<Option<nat>>): World
    requires t < |w.tasks| && |jobs| == |raws|
  {
    w.(tasks := w.tasks[t := task], applied := w.applied + Answered(jobs, raws),
       abandoned := w.abandoned + Unanswered(jobs, raws))
  }

  /** One call, and then the others. */
  lemma OneThenRest(w: World, t: nat, x: Task, task: Task, jobs: seq<Job>, raws: seq<Option<nat>>)
    requires t < |w.tasks| && |jobs| == |raws| && jobs != []
    ensures Through(Settle(w.(tasks := w.tasks[t := x]), jobs[0], raws[0]), t, task, jobs[1..], raws[1..])
            == Through(w, t, task, jobs, raws)
  {
    AnsweredCons(jobs[0], jobs[1..], raws[0], raws[1..]);
    assert [jobs[0]] + jobs[1..] == jobs && [raws[0]] + raws[1..] == raws;
    assert w.tasks[t := x][t := task] == w.tasks[t := task];
  }

  lemma {:induction false} DirectRuns(w: World, t: nat, raws: seq<Option<nat>>) returns (acts: seq<Action>, v: World)
    requires t < |w.tasks| && w.tasks[t].Direct? && |w.tasks[t].jobs| == |raws|
    ensures Leads(w, acts, v)
    ensures v == Through(w, t, Direct([]), w.tasks[t].jobs, raws)
    decreases |raws|
  {
    var jobs := w.tasks[t].jobs;
    if jobs == [] {
      v := w;
      assert w.tasks[t := Direct([])] == w.tasks;
      return [], w;
    }
    var next := Step(w, DirectOne(t, raws[0]));
    var more;
    more, v := DirectRuns(next, t, raws[1..]);
    acts := [DirectOne(t, raws[0])] + more;
    LeadsCons(w, DirectOne(t, raws[0]), more, v);
    OneThenRest(w, t, Direct(jobs[1..]), Direct([]), jobs, raws);
  }

  /** A batch that is refused is called job by job: the answers are applied in order, the failures abandoned. */
  lemma RefusedBatchIsCalled(w: World, raws: seq<Option<nat>>) returns (acts: seq<Action>, v: World)
    requires w.pending != [] && |raws| == |w.pending|
    ensures Leads(w, acts, v)
    ensures v == w.(pending := [], tasks := w.tasks + [Direct([])],
                    applied := w.applied + Answered(w.pending, raws),
                    abandoned := w.abandoned + Unanswered(w.pending, raws))
  {
    var t, jobs := |w.tasks|, w.pending;
    var w1 := w.(pending := [], tasks := w.tasks + [Submitting(jobs)]);
    var w2 := w1.(tasks := w1.tasks[t := Direct(jobs)]);
    var more;
    more, v := DirectRuns(w2, t, raws);
    assert Step(w, Flush) == w1 && Step(w1, Submit(t, false)) == w2;
    assert w2.tasks[t := Direct([])] == w.tasks + [Direct([])];
    LeadsCons(w1, Submit(t, false), more, v);
    LeadsCons(w, Flush, [Submit(t, false)] + more, v);
    acts := [Flush] + ([Submit(t, false)] + more);
  }

  // ---------------------------------------------------------------- draining

  lemma {:induction false} DrainRuns(w: World, t: nat, raws: seq<Option<nat>>) returns (acts: seq<Action>, v: World)
    requires t < |w.tasks| && w.tasks[t].Draining? && w.tasks[t].running == [] && |w.tasks[t].jobs| == |raws|
    ensures Leads(w, acts, v)
    ensures v == Through(w, t, Draining([], []), w.tasks[t].jobs, raws)
    decreases |raws|
  {
    var jobs := w.tasks[t].jobs;
    if jobs == [] {
      v := w;
      assert w.tasks[t := Draining([], [])] == w.tasks;
      return [], w;
    }
    var next := DrainNext(w, t, raws[0]);
    var more;
    more, v := DrainRuns(next, t, raws[1..]);
    LeadsCons(Step(w, DrainLaunch(t)), DrainDone(t, 0, raws[0]), more, v);
    LeadsCons(w, DrainLaunch(t), [DrainDone(t, 0, raws[0])] + more, v);
    acts := [DrainLaunch(t)] + ([DrainDone(t, 0, raws[0])] + more);
    OneThenRest(w, t, Draining(jobs[1..], []), Draining([], []), jobs, raws);
  }

  /** `w` once the next job was launched and has come back. */
  ghost function DrainNext(w: World, t: nat, raw: Option<nat>): (next: World)
    requires t < |w.tasks| && w.tasks[t].Draining? && w.tasks[t].running == [] && w.tasks[t].jobs != []
    ensures Enabled(w, DrainLaunch(t)) && Enabled(Step(w, DrainLaunch(t)), DrainDone(t, 0, raw))
    ensures next == Step(Step(w, DrainLaunch(t)), DrainDone(t, 0, raw))
    ensures next == Settle(w.(tasks := w.tasks[t := Draining(w.tasks[t].jobs[1..], [])]), w.tasks[t].jobs[0], raw)
  {
    var launched, task := Step(w, DrainLaunch(t)), w.tasks[t];
    assert launched.tasks[t] == Draining(task.jobs[1..], [task.jobs[0]]);
    assert [task.jobs[0]][..0] + [task.jobs[0]][1..] == [];
    assert launched.tasks[t := Draining(task.jobs[1..], [])] == w.tasks[t := Draining(task.jobs[1..], [])];
    Step(launched, DrainDone(t, 0, raw))
  }

  /** Draining takes the whole queue: the answers are applied in order, the failures abandoned. */
  lemma QueueIsDrained(w: World, raws: seq<Option<nat>>) returns (acts: seq<Action>, v: World)
    requires w.pending != [] && |raws| == |w.pending|
    ensures Leads(w, acts, v)
    ensures v == w.(pending := [], tasks := w.tasks + [Draining([], [])],
                    applied := w.applied + Answered(w.pending, raws),
                    abandoned := w.abandoned + Unanswered(w.pending, raws))
  {
    var t, jobs := |w.tasks|, w.pending;
    var w1 := w.(pending := [], tasks := w.tasks + [Draining(jobs, [])]);
    var more;
    more, v := DrainRuns(w1, t, raws);
    assert Step(w, Drain) == w1 && w1.tasks[t := Draining([], [])] == w.tasks + [Draining([], [])];
    LeadsCons(w, Drain, more, v);
    acts := [Drain] + more;
  }

  // ---------------------------------------------------------------- giving up

  /** Giving up on a batch abandons all that it holds; running out of time, all that was not launched yet. */
  lemma GivingUpAbandons(w: World, a: Action)
    requires Enabled(w, a) && (a.FollowStops? || a.DrainOutOfTime?)
    ensures var v, task := Step(w, a), w.tasks[a.task];
            && (a.FollowStops? ==>
                  v == w.(tasks := w.tasks[a.task := Following(map[])], abandoned := w.abandoned + a.order)
                  && multiset(a.order) == JobsIn(task.byID))
            && (a.DrainOutOfTime? ==>
                  v == w.(tasks := w.tasks[a.task := Draining([], task.running)],
                          abandoned := w.abandoned + task.jobs))
  {
  }

  // ---------------------------------------------------------------- how many calls at once

  ghost predicate FewRunning(w: World) {
    forall t :: 0 <= t < |w.tasks| && w.tasks[t].Draining? ==> |w.tasks[t].running| <= 4
  }

  lemma StepKeepsFew(w: World, a: Action)
    requires Enabled(w, a) && FewRunning(w)
    ensures FewRunning(Step(w, a))
  {
  }

  /** In every interleaving a drain has at most four calls running at once. */
  lemma {:induction false} FourCallsAtOnce(run: seq<Action>)
    requires Runs(run)
    ensures FewRunning(After(run))
  {
    if run != [] {
      FourCallsAtOnce(run[..|run| - 1]);
      StepKeepsFew(After(run[..|run| - 1]), run[|run| - 1]);
    }
  }
}
