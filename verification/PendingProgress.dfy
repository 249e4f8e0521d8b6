/** That acceptances and logins get through: what a call achieves when no other call runs meanwhile. */
module PendingProgress {
  import opened Common
  import opened PendingFriends

  /** `acts` are possible one after the other from `w`, and lead to `v`. */
  ghost predicate Leads(w: World, acts: seq<Action>, v: World, owner: Fp -> Uid)
    decreases |acts|
  {
    if acts == [] then v == w
    else Enabled(w, acts[0], owner) && Leads(Step(w, acts[0], owner), acts[1..], v, owner)
  }

  lemma LeadsCons(w: World, a: Action, acts: seq<Action>, v: World, owner: Fp -> Uid)
    requires Enabled(w, a, owner) && Leads(Step(w, a, owner), acts, v, owner)
    ensures Leads(w, [a] + acts, v, owner)
  {
    assert ([a] + acts)[0] == a && ([a] + acts)[1..] == acts;
  }

  /** The call has ended, and left the store like this. */
  predicate EndsWith(w: World, v: World, pid: Pid, st: Store) { v.procs == w.procs - {pid} && v.st == st }

  lemma {:induction false} LoopRuns(w: World, pid: Pid, owner: Fp -> Uid) returns (acts: seq<Action>, v: World)
    requires pid in w.procs && w.procs[pid].Loop?
    ensures var p := w.procs[pid];
            Leads(w, acts, v, owner) && EndsWith(w, v, pid, ResolveAll(w.st, p.uid, p.fp, p.todo))
    decreases |w.procs[pid].todo|
  {
    var p, c := w.procs[pid], Command(pid, []);
    var w1 := Step(w, c, owner);
    if p.todo == [] {
      assert Leads(w1, [], w1, owner);
      LeadsCons(w, c, [], w1, owner);
      return [c] + [], w1;
    }
    var more;
    var w2 := Step(w1, c, owner);
    if w1.procs[pid].Swap? {
      var w3 := Step(w2, c, owner);
      more, v := LoopRuns(w3, pid, owner);
      LeadsCons(w2, c, more, v, owner);
      more := [c] + more;
    } else {
      more, v := LoopRuns(w2, pid, owner);
    }
    LeadsCons(w1, c, more, v, owner);
    LeadsCons(w, c, [c] + more, v, owner);
    acts := [c] + ([c] + more);
  }

  /** A login that runs alone resolves every entry of its device, and one without a user or a device nothing. */
  lemma LoginAlone(w: World, pid: Pid, fp: Fp, members: seq<Entry>, owner: Fp -> Uid)
      returns (acts: seq<Action>, v: World)
    requires pid !in w.procs && (set e | e in members) == w.st.Members(fp)
    ensures Leads(w, [Login(pid, fp)] + acts, v, owner) && v.procs == w.procs
    ensures v.st == if owner(fp) == 0 || fp == "" then w.st else ResolveAll(w.st, owner(fp), fp, members)
  {
    var w1 := Step(w, Login(pid, fp), owner);
    var w2 := Step(w1, Command(pid, members), owner);
    var more;
    if owner(fp) == 0 || fp == "" {
      more, v := [], w2;
      assert Leads(w2, [], w2, owner);
    } else {
      more, v := LoopRuns(w2, pid, owner);
    }
    LeadsCons(w1, Command(pid, members), more, v, owner);
    acts := [Command(pid, members)] + more;
    LeadsCons(w, Login(pid, fp), acts, v, owner);
    assert v.procs == w.procs;
  }

  /** What an acceptance has entered: its peer under each anonymous side's device. */
  ghost predicate Entered(w: World, v: World, u1: Uid, u2: Uid, f1: Fp, f2: Fp) {
    && v.st.friends == w.st.friends
    && (u1 == 0 ==> v.st.Members(f1) == w.st.Members(f1) + {if u2 > 0 then User(u2) else Device(f2)})
    && (u2 == 0 ==> v.st.Members(f2) == w.st.Members(f2) + {if u1 > 0 then User(u1) else Device(f1)})
    && (u1 > 0 ==> v.st.Members(f1) == w.st.Members(f1))
    && (u2 > 0 ==> v.st.Members(f2) == w.st.Members(f2))
    && forall k :: k != f1 && k != f2 ==> v.st.Members(k) == w.st.Members(k)
  }

  /** An acceptance that runs alone enters exactly that. */
  lemma AcceptAlone(w: World, a: Action, owner: Fp -> Uid) returns (acts: seq<Action>, v: World)
    requires a.Accept? && Enabled(w, a, owner)
    ensures Leads(w, [a] + acts, v, owner) && v.procs == w.procs && Entered(w, v, a.u1, a.u2, a.f1, a.f2)
  {
    var c := Command(a.pid, []);
    var w1 := Step(w, a, owner);
    var w2 := Step(w1, c, owner);
    if a.u1 == 0 && a.u2 == 0 {
      v := Step(w2, c, owner);
      assert Leads(v, [], v, owner);
      LeadsCons(w2, c, [], v, owner);
      acts := [c] + ([c] + []);
    } else {
      v := w2;
      assert Leads(v, [], v, owner);
      acts := [c] + [];
    }
    LeadsCons(w1, c, acts[1..], v, owner);
    LeadsCons(w, a, acts, v, owner);
    assert v.procs == w.procs;
  }
}
