/**
 The tandem over whole chats, sessions ending and starting again any number of times, however late messages are
 read: a timer may expire while its follower has read nothing of the session yet.

 What keeps it to one owner then is what the clients do: each accepts only a prompt it has not answered yet, and
 proposes only while it shows no session and has no accept of its own under way.  A prompt and an accept are
 settled by any tandem_switch or tandem_end that reaches the client.
 */
module TandemAlways {
  import opened Tandem

  datatype Rule =
    | Prompted   // an accept answers a prompt that is pending
    | Unshown    // a proposal is made while no session is shown
    | Unowed     // a proposal is made while no accept awaits its answer

  const ALL_RULES: set<Rule> := {Prompted, Unshown, Unowed}

  ghost predicate Follows(rule: Rule, w: Room, a: Action) {
    var s := w.At(a.x);
    match rule
    case Prompted => a.ClientAccept? && Sends(s) ==> s.pending
    case Unshown => a.ClientPropose? && Sends(s) ==> !s.shown
    case Unowed => a.ClientPropose? && Sends(s) ==> !s.waiting
  }

  /** Both clients keep the rules throughout a run. */
  ghost predicate Kept(r: Room, run: seq<Action>, rules: set<Rule>) {
    forall i: nat, rule :: i < |run| && rule in rules ==> Follows(rule, Run(r, run[..i]), run[i])
  }

  ghost predicate PrudentStep(w: Room, a: Action) { forall rule :: rule in ALL_RULES ==> Follows(rule, w, a) }

  // ---------------------------------------------------------------- the shapes a chat goes through

  /** A channel without the Left at its end. */
  function Clean(q: seq<Msg>): seq<Msg> {
    if q != [] && q[|q| - 1] == Left then q[..|q| - 1] else q
  }

  /** Between sessions, what side `s` knows of its peer `p`; `cs` and `cp` are what they have to read. */
  ghost predicate Knows(s: Side, p: Side, cs: seq<Msg>, cp: seq<Msg>) {
    && !s.active && !s.timer && !s.shown
    && (cs == [] || cs == [Propose] || cs == [Accept])
    && (cs == [Propose] ==> p.proposed)
    && (cs == [Accept] <==> p.waiting)
    && (p.waiting ==> s.proposed && !p.proposed && cp == [])
    && (s.pending ==> p.proposed && !p.pending && cs == [] && !s.waiting)
    && (p.proposed && cs != [Propose] ==> s.pending || s.waiting || (s.proposed && p.id < s.id))
  }

  ghost predicate Between(s: Side, p: Side, toS: seq<Msg>, toP: seq<Msg>) {
    Knows(s, p, Clean(toS), Clean(toP)) && Knows(p, s, Clean(toP), Clean(toS))
  }

  /** Phases of a session; if it is not `open` any more, its end, and a new proposal if the owner made one. */
  predicate Phases(q: seq<Msg>, open: bool, again: bool) {
    if q == [] then open
    else if q[0].Switch? then Phases(q[1..], open, again)
    else !open && q[0] == End && q[1..] == if again then [Propose] else []
  }

  /** What the follower `f` has still to read of a session of `o`, after a proposal that lost the tie. */
  ghost predicate Rest(o: Side, f: Side, q: seq<Msg>) {
    if q != [] && q[0] == Propose
    then f.proposed && o.id < f.id && !f.shown && |q| > 1 && q[1].Switch? && Phases(q[1..], o.active, o.proposed)
    else Phases(q, o.active, o.proposed) && (!f.shown ==> q != [] && q[0].Switch?)
  }

  /** A session of `o` that `f` has not seen to its end. */
  ghost predicate Session(o: Side, f: Side, toO: seq<Msg>, toF: seq<Msg>) {
    && Clean(toO) == [] && Rest(o, f, Clean(toF))
    && !f.active && !f.timer && !o.pending && !o.waiting && o.shown == o.active && (o.timer ==> o.active)
    && (f.waiting ==> !f.proposed && !f.pending)
    && (if f.shown then !f.waiting && !f.pending else f.waiting || f.proposed)
  }

  ghost predicate Safe(s: Side, p: Side, toS: seq<Msg>, toP: seq<Msg>) {
    && s.id != p.id && Leaving(s, p, toS) && Leaving(p, s, toP)
    && (Between(s, p, toS, toP) || Session(s, p, toS, toP) || Session(p, s, toP, toS))
  }

  // ---------------------------------------------------------------- channels

  lemma CleanAppend(q: seq<Msg>, m: Msg)
    requires Left !in q
    ensures Clean(q) == q && Clean(q + [m]) == if m == Left then q else q + [m]
  {
    assert (q + [m])[..|q|] == q;
  }

  lemma CleanPop(q: seq<Msg>)
    requires q != [] && (EndsWithLeft(q) || Left !in q)
    ensures q[0] == Left ==> q == [Left] && Clean(q) == [] && Clean(q[1..]) == []
    ensures q[0] != Left ==> Clean(q) == [q[0]] + Clean(q[1..]) && (EndsWithLeft(q[1..]) || Left !in q[1..])
  {
    assert |q| > 1 ==> q[..|q| - 1][0] == q[0];
    if EndsWithLeft(q) && q[0] != Left {
      assert q[1..][..|q| - 2] == q[..|q| - 1][1..];
    }
  }

  lemma {:induction false} PhasesAppend(q: seq<Msg>, m: Msg, again: bool)
    ensures m.Switch? && Phases(q, true, again) ==> Phases(q + [m], true, again)
    ensures m == End && Phases(q, true, again) ==> Phases(q + [m], false, false)
    ensures m == Propose && Phases(q, false, false) ==> Phases(q + [m], false, true)
  {
    if q == [] {
      assert [] + [m] == [m] && [m][1..] == [];
    } else {
      assert (q + [m])[1..] == q[1..] + [m];
      PhasesAppend(q[1..], m, again);
    }
  }

  lemma RestAppend(o: Side, o': Side, f: Side, q: seq<Msg>, m: Msg)
    requires Rest(o, f, q) && o'.id == o.id
    requires || (m.Switch? && o.active && o'.active && o'.proposed == o.proposed)
             || (m == End && o.active && !o'.active && !o'.proposed)
             || (m == Propose && !o.active && !o.proposed && !o'.active && o'.proposed)
    ensures Rest(o', f, q + [m])
  {
    if q != [] && q[0] == Propose {
      assert (q + [m])[1..] == q[1..] + [m];
      PhasesAppend(q[1..], m, o.proposed);
    } else {
      PhasesAppend(q, m, o.proposed);
    }
    assert Phases([Propose], o.active, o.proposed) == false;
  }

  // ---------------------------------------------------------------- side `s` sends

  lemma LeavingAppend(s: Side, s': Side, p: Side, toS: seq<Msg>, toP: seq<Msg>, m: Msg)
    requires Leaving(s, p, toS) && Leaving(p, s, toP) && !s.left && s'.gone == s.gone && s'.left == (m == Left)
    ensures Leaving(s', p, toS) && Leaving(p, s', toP + [m])
    ensures Left !in toP
  {
    assert (toP + [m])[..|toP|] == toP;
  }

  lemma ProposeBetween(s: Side, p: Side, cs: seq<Msg>, cp: seq<Msg>)
    requires Knows(s, p, cs, cp) && Knows(p, s, cp, cs) && !s.proposed && !s.waiting
    ensures cp == [] && Knows(s.(proposed := true), p, cs, [Propose]) && Knows(p, s.(proposed := true), [Propose], cs)
  {
  }

  lemma ProposeSafe(s: Side, p: Side, toS: seq<Msg>, toP: seq<Msg>)
    requires Safe(s, p, toS, toP) && Sends(s) && !s.shown && !s.waiting
    ensures Safe(s.(proposed := true), p, toS, toP + [Propose])
  {
    var s' := s.(proposed := true);
    LeavingAppend(s, s', p, toS, toP, Propose);
    CleanAppend(toP, Propose);
    if Between(s, p, toS, toP) {
      ProposeBetween(s, p, Clean(toS), toP);
      assert [] + [Propose] == [Propose];
      assert Between(s', p, toS, toP + [Propose]);
    } else {
      assert Session(s, p, toS, toP);
      RestAppend(s, s', p, toP, Propose);
      assert Session(s', p, toS, toP + [Propose]);
    }
  }

  lemma AcceptSafe(s: Side, p: Side, toS: seq<Msg>, toP: seq<Msg>)
    requires Safe(s, p, toS, toP) && Sends(s) && s.pending
    ensures Safe(s.(accepted := true, pending := false, waiting := true), p, toS, toP + [Accept])
  {
    LeavingAppend(s, s.(accepted := true, pending := false, waiting := true), p, toS, toP, Accept);
    CleanAppend(toP, Accept);
  }

  lemma LeaveSafe(s: Side, p: Side, toS: seq<Msg>, toP: seq<Msg>)
    requires Safe(s, p, toS, toP) && !s.left
    ensures Safe(s.(left := true), p, toS, toP + [Left])
  {
    var s' := s.(left := true);
    LeavingAppend(s, s', p, toS, toP, Left);
    CleanAppend(toP, Left);
    if Between(s, p, toS, toP) {
      assert Between(s', p, toS, toP + [Left]);
    } else if Session(s, p, toS, toP) {
      assert Session(s', p, toS, toP + [Left]);
    } else {
      assert Session(p, s', toP + [Left], toS);
    }
  }

  lemma PhaseSafe(s: Side, p: Side, toS: seq<Msg>, toP: seq<Msg>)
    requires Safe(s, p, toS, toP) && s.active && !s.left
    ensures Safe(InPhase(s, 2), p, toS, toP + [Switch(s.PhaseLang(2))])
  {
    LeavingAppend(s, InPhase(s, 2), p, toS, toP, Switch(s.PhaseLang(2)));
    CleanAppend(toP, Switch(s.PhaseLang(2)));
    RestAppend(s, InPhase(s, 2), p, toP, Switch(s.PhaseLang(2)));
  }

  lemma EndSafe(s: Side, p: Side, toS: seq<Msg>, toP: seq<Msg>)
    requires Safe(s, p, toS, toP) && s.active && !s.left
    ensures Safe(Ended(s), p, toS, toP + [End])
  {
    LeavingAppend(s, Ended(s), p, toS, toP, End);
    CleanAppend(toP, End);
    RestAppend(s, Ended(s), p, toP, End);
  }

  lemma TimerSafe(s: Side, p: Side, toS: seq<Msg>, toP: seq<Msg>)
    requires Safe(s, p, toS, toP)
    ensures Safe(s.(timer := false), p, toS, toP)
  {
  }

  // ---------------------------------------------------------------- side `s` reads

  /** A session only starts between sessions. */
  lemma StartSafe(s: Side, p: Side, toS: seq<Msg>, toP: seq<Msg>)
    requires Safe(s, p, toS, toP) && !s.left && !s.gone && toS != [] && Starts(s, p, toS[0])
    ensures Safe(Started(s.(got := s.got || toS[0] == Propose)), p, toS[1..], toP + [Switch(s.PhaseLang(1))])
  {
    var m, s' := Switch(s.PhaseLang(1)), Started(s.(got := s.got || toS[0] == Propose));
    LeavingAppend(s, s', p, toS, toP, m);
    CleanAppend(toP, m);
    CleanPop(toS);
    assert Between(s, p, toS, toP);
    assert Clean(toS[1..]) == [];
    FirstPhase(s', p, toP, m);
    assert Session(s', p, toS[1..], toP + [m]);
  }

  lemma FirstPhase(o: Side, f: Side, q: seq<Msg>, m: Msg)
    requires m.Switch? && o.active && (q == [] || (q == [Propose] && f.proposed && o.id < f.id)) && !f.shown
    ensures Rest(o, f, q + [m])
  {
    assert (q + [m])[|q|..] == [m] && Phases([m], true, o.proposed);
    assert q == [] ==> q + [m] == [m];
  }

  lemma ReadLeftSafe(s: Side, p: Side, toS: seq<Msg>, toP: seq<Msg>)
    requires Safe(s, p, toS, toP) && !s.left && !s.gone && toS != [] && toS[0] == Left
    ensures Safe(s.(gone := true), p, toS[1..], toP)
  {
    CleanPop(toS);
  }

  lemma SwitchSeen(o: Side, f: Side, q: seq<Msg>)
    requires Rest(o, f, q) && q != [] && q[0].Switch?
    ensures Rest(o, Seen(f, q[0]), q[1..])
  {
    PhasesRead(q, o.active, o.proposed);
  }

  lemma PhasesRead(q: seq<Msg>, open: bool, again: bool)
    requires Phases(q, open, again) && q != [] && q[0].Switch?
    ensures Phases(q[1..], open, again) && (q[1..] != [] ==> q[1..][0] != Propose)
  {
  }

  lemma ReadSwitchSafe(s: Side, p: Side, toS: seq<Msg>, toP: seq<Msg>)
    requires Safe(s, p, toS, toP) && !s.left && !s.gone && toS != [] && toS[0].Switch?
    ensures Safe(Seen(s, toS[0]), p, toS[1..], toP)
  {
    CleanPop(toS);
    assert Clean(toS)[0] == toS[0] && Clean(toS)[1..] == Clean(toS[1..]);
    SwitchSeen(p, s, Clean(toS));
    assert Session(p, Seen(s, toS[0]), toP, toS[1..]);
  }

  lemma ReadProposeSafe(s: Side, p: Side, toS: seq<Msg>, toP: seq<Msg>)
    requires Safe(s, p, toS, toP) && !s.left && !s.gone && toS != [] && toS[0] == Propose && !Starts(s, p, Propose)
    ensures Safe(Seen(s, Propose), p, toS[1..], toP)
  {
    CleanPop(toS);
    assert Clean(toS)[0] == toS[0] && Clean(toS)[1..] == Clean(toS[1..]);
    if Session(p, s, toP, toS) {
      assert Rest(p, Seen(s, Propose), Clean(toS[1..]));
    }
  }

  /** An accept is only ever under way between sessions, to a side that has proposed. */
  lemma ReadAcceptStarts(s: Side, p: Side, toS: seq<Msg>, toP: seq<Msg>)
    requires Safe(s, p, toS, toP) && toS != [] && toS[0] == Accept && !s.gone
    ensures Starts(s, p, Accept)
  {
    CleanPop(toS);
    assert Clean(toS)[0] == toS[0];
  }

  lemma SeenSafe(s: Side, p: Side, toS: seq<Msg>, toP: seq<Msg>)
    requires Safe(s, p, toS, toP) && !s.left && !s.gone && toS != [] && !toS[0].End? && !Starts(s, p, toS[0])
    ensures Safe(Seen(s, toS[0]), p, toS[1..], toP)
  {
    match toS[0]
    case Left => ReadLeftSafe(s, p, toS, toP);
    case Switch(_) => ReadSwitchSafe(s, p, toS, toP);
    case Propose => ReadProposeSafe(s, p, toS, toP);
    case Accept => ReadAcceptStarts(s, p, toS, toP);
  }

  /** When the follower has read the end, the chat is between sessions again. */
  lemma ReadEndSafe(s: Side, p: Side, toS: seq<Msg>, toP: seq<Msg>)
    requires Safe(s, p, toS, toP) && !s.left && !s.gone && toS != [] && toS[0] == End
    ensures Safe(Ended(s), p, toS[1..], toP)
  {
    CleanPop(toS);
    assert Clean(toS)[0] == toS[0] && Clean(toS)[1..] == Clean(toS[1..]);
    assert Session(p, s, toP, toS);
    assert Between(Ended(s), p, toS[1..], toP);
  }

  // ---------------------------------------------------------------- every run

  ghost predicate Inv(r: Room) { Safe(r.t, r.f, r.toT, r.toF) }

  lemma SafeAt(r: Room, x: bool)
    requires Inv(r)
    ensures Safe(r.At(x), r.At(!x), r.In(x), r.In(!x))
  {
  }

  lemma SafeFrom(r: Room, x: bool, s: Side, p: Side, toS: seq<Msg>, toP: seq<Msg>)
    requires Is(r, x, s, p, toS, toP) && Safe(s, p, toS, toP)
    ensures Inv(r)
  {
  }

  lemma ReceiveSafe(r: Room, x: bool)
    requires Inv(r) && !r.At(x).left && !r.At(x).gone && r.In(x) != []
    ensures Inv(Step(r, Receive(x)))
  {
    var s, p, toS, toP := r.At(x), r.At(!x), r.In(x), r.In(!x);
    SafeAt(r, x);
    if toS[0] == End {
      EndsSafely(r, x);
      ReceiveEnds(r, x);
    } else {
      ReceiveReads(r, x);
      if Starts(s, p, toS[0]) {
        StartsSafely(r, x);
      } else {
        SeenSafely(r, x);
      }
    }
  }

  lemma EndsSafely(r: Room, x: bool)
    requires Inv(r) && !r.At(x).left && !r.At(x).gone && r.In(x) != [] && r.In(x)[0] == End
    ensures Inv(EndTandem(r.Pop(x), x))
  {
    var s, p, toS, toP := r.At(x), r.At(!x), r.In(x), r.In(!x);
    SafeAt(r, x);
    ReadEndSafe(s, p, toS, toP);
    SafeFrom(EndTandem(r.Pop(x), x), x, Ended(s), p, toS[1..], toP);
  }

  lemma SeenSafely(r: Room, x: bool)
    requires Inv(r) && !r.At(x).left && !r.At(x).gone && r.In(x) != [] && !r.In(x)[0].End?
    requires !Starts(r.At(x), r.At(!x), r.In(x)[0])
    ensures Inv(r.Pop(x).Put(x, Seen(r.At(x), r.In(x)[0])))
  {
    var s, p, toS, toP := r.At(x), r.At(!x), r.In(x), r.In(!x);
    SafeAt(r, x);
    SeenSafe(s, p, toS, toP);
    SafeFrom(r.Pop(x).Put(x, Seen(s, toS[0])), x, Seen(s, toS[0]), p, toS[1..], toP);
  }

  lemma ReceiveEnds(r: Room, x: bool)
    requires !r.At(x).left && !r.At(x).gone && r.In(x) != [] && r.In(x)[0] == End
    ensures Step(r, Receive(x)) == EndTandem(r.Pop(x), x)
  {
  }

  lemma StartsSafely(r: Room, x: bool)
    requires Inv(r) && !r.At(x).left && !r.At(x).gone && r.In(x) != [] && Starts(r.At(x), r.At(!x), r.In(x)[0])
    ensures Inv(AfterStart(r, x))
  {
    var s, p, toS, toP := r.At(x), r.At(!x), r.In(x), r.In(!x);
    SafeAt(r, x);
    StartSafe(s, p, toS, toP);
    var s' := Started(s.(got := s.got || toS[0] == Propose));
    SafeFrom(AfterStart(r, x), x, s', p, toS[1..], toP + [Switch(s.PhaseLang(1))]);
  }

  /** The owner's timer moves the session on. */
  lemma TimerMovesOn(r: Room, x: bool)
    requires Inv(r) && !r.At(x).left && r.At(x).active
    ensures Inv(r.Put(x, InPhase(r.At(x), 2)).Send(x, Switch(r.At(x).PhaseLang(2))))
    ensures Inv(EndTandem(r.Send(x, End), x))
  {
    var s, p, toS, toP := r.At(x), r.At(!x), r.In(x), r.In(!x);
    SafeAt(r, x);
    PhaseSafe(s, p, toS, toP);
    SafeFrom(r.Put(x, InPhase(s, 2)).Send(x, Switch(s.PhaseLang(2))), x, InPhase(s, 2), p, toS,
        toP + [Switch(s.PhaseLang(2))]);
    EndSafe(s, p, toS, toP);
    SafeFrom(EndTandem(r.Send(x, End), x), x, Ended(s), p, toS, toP + [End]);
  }

  lemma TimerStepSafe(r: Room, x: bool)
    requires Inv(r) && !r.At(x).left && r.At(x).timer
    ensures Inv(Step(r, TimerFires(x)))
  {
    var s, p, toS, toP := r.At(x), r.At(!x), r.In(x), r.In(!x);
    SafeAt(r, x);
    if !s.active || s.gone {
      TimerSafe(s, p, toS, toP);
      SafeFrom(r.Put(x, s.(timer := false)), x, s.(timer := false), p, toS, toP);
    } else {
      TimerMovesOn(r, x);
      TimerMoves(r, x);
    }
  }

  lemma TimerMoves(r: Room, x: bool)
    requires !r.At(x).left && r.At(x).timer && r.At(x).active && !r.At(x).gone
    ensures Step(r, TimerFires(x)) ==
            if r.At(x).phase == 1 then r.Put(x, InPhase(r.At(x), 2)).Send(x, Switch(r.At(x).PhaseLang(2)))
            else EndTandem(r.Send(x, End), x)
  {
  }

  lemma SendSafe(r: Room, a: Action)
    requires Inv(r) && PrudentStep(r, a)
    requires (a.Leave? && !r.At(a.x).left) || ((a.ClientPropose? || a.ClientAccept?) && Sends(r.At(a.x)))
    ensures Inv(Step(r, a))
  {
    var s, p, toS, toP := r.At(a.x), r.At(!a.x), r.In(a.x), r.In(!a.x);
    var r' := Step(r, a);
    SafeAt(r, a.x);
    assert Follows(Prompted, r, a) && Follows(Unshown, r, a) && Follows(Unowed, r, a);
    match a
    case Leave(x) =>
      LeaveSafe(s, p, toS, toP);
      SafeFrom(r', x, s.(left := true), p, toS, toP + [Left]);
    case ClientPropose(x) =>
      ProposeSafe(s, p, toS, toP);
      SafeFrom(r', x, s.(proposed := true), p, toS, toP + [Propose]);
    case ClientAccept(x) =>
      AcceptSafe(s, p, toS, toP);
      SafeFrom(r', x, s.(accepted := true, pending := false, waiting := true), p, toS, toP + [Accept]);
  }

  lemma StepSafe(r: Room, a: Action)
    requires Inv(r) && PrudentStep(r, a)
    ensures Inv(Step(r, a))
  {
    var s := r.At(a.x);
    if (a.Leave? && !s.left) || ((a.ClientPropose? || a.ClientAccept?) && Sends(s)) {
      SendSafe(r, a);
    } else if a.TimerFires? && !s.left && s.timer {
      TimerStepSafe(r, a.x);
    } else if a.Receive? && !s.left && r.In(a.x) != [] {
      SafeAt(r, a.x);
      ReceiveSafe(r, a.x);
    } else {
      assert Step(r, a) == r;
    }
  }

  lemma PrudentPrefix(r: Room, run: seq<Action>, n: nat)
    requires Kept(r, run, ALL_RULES) && n < |run|
    ensures Kept(r, run[..n], ALL_RULES) && PrudentStep(Run(r, run[..n]), run[n])
  {
    assert forall i: nat :: i < n ==> run[..n][i] == run[i] && run[..n][..i] == run[..i];
    assert run[..n][..n] == run[..n];
  }

  lemma {:induction false} RunSafe(r: Room, run: seq<Action>)
    requires Start(r) && Kept(r, run, ALL_RULES)
    ensures Inv(Run(r, run))
  {
    if run != [] {
      var n := |run| - 1;
      PrudentPrefix(r, run, n);
      RunSafe(r, run[..n]);
      StepSafe(Run(r, run[..n]), run[n]);
    }
  }

  /** Whatever the delays, in every run of prudent clients at most one side owns a session at a time. */
  lemma OneOwnerAtATime(r: Room, run: seq<Action>)
    requires Start(r) && Kept(r, run, ALL_RULES)
    ensures !(Run(r, run).t.active && Run(r, run).f.active)
  {
    RunSafe(r, run);
  }
}
