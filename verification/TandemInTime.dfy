/**
 The tandem when nobody falls a whole phase behind: a phase's timer fires only once what was published up to
 the beginning of that phase, its own tandem_switch included, has been read by every side still there.

 Phases last ten minutes, counted from when the tandem_switch is out, and each loop reads its channel whenever a
 message is there.
 */
module TandemInTime {
  import opened Tandem
  import opened TandemAlways

  /** How many of the messages in each channel were there when a side's phase began. */
  datatype Due = Due(t: nat, f: nat) {
    function In(x: bool): nat { if x then t else f }

    /** One message fewer in the channel that `a` reads from. */
    function Read(r: Room, a: Action): Due {
      if !a.Receive? || r.At(a.x).left || r.In(a.x) == [] || In(a.x) == 0 then this
      else if a.x then this.(t := t - 1) else this.(f := f - 1)
    }
  }

  datatype Watched = Watched(room: Room, t: Due, f: Due) {
    function At(x: bool): Due { if x then t else f }
  }

  /** Whether the action begins a phase of the side that acts. */
  predicate Begins(r: Room, a: Action) {
    var s := r.At(a.x);
    && !s.left && !s.gone
    && match a
       case Receive(x) => r.In(x) != [] && Starts(s, r.At(!x), r.In(x)[0])
       case TimerFires(x) => s.timer && s.active && s.phase == 1
       case _ => false
  }

  function DueAfter(w: Watched, a: Action, x: bool): Due {
    var r := Step(w.room, a);
    if a.x == x && Begins(w.room, a) then Due(|r.toT|, |r.toF|) else w.At(x).Read(w.room, a)
  }

  function Tick(w: Watched, a: Action): Watched {
    Watched(Step(w.room, a), DueAfter(w, a, true), DueAfter(w, a, false))
  }

  predicate Expires(r: Room, a: Action) { a.TimerFires? && r.At(a.x).timer && !r.At(a.x).left }

  /** A timer expires only after every side still there has read what its phase found published. */
  ghost predicate OnTime(w: Watched, a: Action) {
    Expires(w.room, a) ==> forall x :: w.At(a.x).In(x) == 0 || w.room.At(x).left
  }

  function Watch(r: Room, run: seq<Action>): Watched {
    if run == [] then Watched(r, Due(0, 0), Due(0, 0)) else Tick(Watch(r, run[..|run| - 1]), run[|run| - 1])
  }

  ghost predicate Timely(r: Room, run: seq<Action>) {
    forall i: nat :: i < |run| ==> OnTime(Watch(r, run[..i]), run[i])
  }

  lemma {:induction false} WatchesTheRun(r: Room, run: seq<Action>)
    ensures Watch(r, run).room == Run(r, run)
  {
    if run != [] {
      WatchesTheRun(r, run[..|run| - 1]);
    }
  }

  // ---------------------------------------------------------------- the shapes a timely chat goes through

  /** `s` proposes, and will still when it has read its channel. */
  predicate Proposing(s: Side, toS: seq<Msg>) { s.proposed && End !in toS }

  /** A proposal of `s` is before `p`, or will be. */
  predicate Asked(p: Side, toP: seq<Msg>) { p.pending || Propose in toP }

  ghost predicate Plain(q: seq<Msg>) { forall m :: m in q ==> !m.Switch? && m != Left }

  /** An end still unread is what comes next, and its session is still on the screen. */
  ghost predicate EndAhead(s: Side, p: Side, toS: seq<Msg>, toP: seq<Msg>) {
    && (End in toS ==> toS[0] == End && End !in toS[1..] && End !in toP && !s.pending && !s.waiting)
    && (End in toS && Propose in toS ==> p.proposed)
    && (End in toS <==> s.shown)
  }

  /** An accept on its way to `s` is one that `p` waits on; if `s` cannot start on it, nor can it accept itself. */
  ghost predicate AcceptAhead(s: Side, p: Side, toS: seq<Msg>, toP: seq<Msg>) {
    && (Accept in toS ==> p.waiting && Accept !in toP && End !in toP)
    && (Accept in toS && !Proposing(s, toS) ==> !Asked(s, toS))
    && (Asked(p, toP) && !p.proposed && !Proposing(s, toS) ==> !Asked(s, toS))
  }

  /** What the second rule that is kept adds. */
  ghost predicate Restrained(s: Side, p: Side, toS: seq<Msg>, toP: seq<Msg>, rule: Rule) {
    if rule == Unshown then
      && (Accept in toS ==> Proposing(s, toS) && Propose !in toP)
      && (Asked(p, toP) ==> Proposing(s, toS))
      && Count(toP, Propose) + (if p.pending then 1 else 0) <= 1
    else
      s.waiting ==> !s.proposed
  }

  ghost predicate IdleHalf(s: Side, p: Side, toS: seq<Msg>, toP: seq<Msg>, rule: Rule) {
    && s.id != p.id && !s.active && !s.left && !s.gone && Plain(toS)
    && EndAhead(s, p, toS, toP) && AcceptAhead(s, p, toS, toP) && Restrained(s, p, toS, toP, rule)
  }

  /** Between sessions. */
  ghost predicate Idle(s: Side, p: Side, toS: seq<Msg>, toP: seq<Msg>, rule: Rule) {
    IdleHalf(s, p, toS, toP, rule) && IdleHalf(p, s, toP, toS, rule)
  }

  predicate Watching(f: Side) { f.shown && !f.pending && !f.waiting }

  /** Nothing in `q` can make the follower start. */
  ghost predicate CannotStart(o: Side, f: Side, q: seq<Msg>, rule: Rule) {
    && Accept !in q
    && (Propose in q ==> o.id < f.id || (rule != Unshown && f.waiting && !f.proposed && End !in q))
  }

  predicate OnlyLast(q: seq<Msg>) {
    q != [] && q[|q| - 1].Switch? && forall i :: 0 <= i < |q| - 1 ==> !q[i].Switch?
  }

  /** The follower has the current phase on its screen, or still to read. */
  ghost predicate Follower(o: Side, f: Side, q: seq<Msg>) {
    if o.phase == 1 then (q == [] && Watching(f)) || OnlyLast(q)
    else o.phase == 2 && Watching(f) && (q == [] || (|q| == 1 && q[0].Switch?))
  }

  /** In the second phase what was not there at its beginning comes from a side that showed the session. */
  ghost predicate Late(o: Side, toO: seq<Msg>, due: nat, rule: Rule) {
    && due <= |toO|
    && (o.phase == 2 ==> Accept !in toO[due..] && (rule == Unshown ==> toO[due..] == []))
  }

  /** A session of `o` with a follower that is there; `dueO` and `dueF` count what its phase found published. */
  ghost predicate Live(o: Side, f: Side, toO: seq<Msg>, toF: seq<Msg>, dueO: nat, dueF: nat, rule: Rule) {
    && o.id != f.id && o.active && !f.active && !f.left && !f.gone && !o.gone
    && o.shown && !o.pending && !o.waiting
    && Plain(toO) && End !in toO
    && (if o.left then EndsWithLeft(toF) else Left !in toF)
    && CannotStart(o, f, Clean(toF), rule) && Follower(o, f, Clean(toF))
    && (!o.left ==> dueF == |toF| && Late(o, toO, dueO, rule))
  }

  predicate Out(s: Side) { (s.left || s.gone) && !s.active }

  /** Nothing about phases is in the channel behind its head. */
  ghost predicate PhaseOnlyAhead(q: seq<Msg>) { forall i :: 1 <= i < |q| ==> !q[i].Switch? && !q[i].End? }

  /** `s` takes no part any more, and its peer is not told about a session that is not its own. */
  ghost predicate Lone(s: Side, p: Side, toP: seq<Msg>) {
    Out(s) && PhaseOnlyAhead(toP) && (p.active ==> NoPhase(toP))
  }

  ghost predicate LoneAt(r: Room, x: bool) { Lone(r.At(x), r.At(!x), r.In(!x)) }

  ghost predicate IdleAt(r: Room, rule: Rule) { Idle(r.t, r.f, r.toT, r.toF, rule) }

  ghost predicate LiveAt(w: Watched, x: bool, rule: Rule) {
    var r, d := w.room, w.At(x);
    Live(r.At(x), r.At(!x), r.In(x), r.In(!x), d.In(x), d.In(!x), rule)
  }

  ghost predicate Sound(w: Watched, rule: Rule) {
    var r := w.room;
    || LoneAt(r, true)
    || LoneAt(r, false)
    || IdleAt(r, rule)
    || LiveAt(w, true, rule)
    || LiveAt(w, false, rule)
  }

  // ---------------------------------------------------------------- between sessions

  ghost predicate MayPropose(s: Side, rule: Rule) { Sends(s) && if rule == Unshown then !s.shown else !s.waiting }

  lemma Appended(q: seq<Msg>, m: Msg)
    ensures forall m' :: m' in q + [m] <==> m' == m || m' in q
    ensures q != [] ==> (q + [m])[0] == q[0] && (q + [m])[1..] == q[1..] + [m]
    ensures q == [] ==> (q + [m])[1..] == []
  {
  }

  lemma Popped(q: seq<Msg>)
    requires q != []
    ensures forall m' :: m' in q <==> m' == q[0] || m' in q[1..]
    ensures Count(q, Propose) == Count(q[1..], Propose) + if q[0] == Propose then 1 else 0
  {
    assert q == [q[0]] + q[1..];
  }

  lemma ProposeIdle(s: Side, p: Side, toS: seq<Msg>, toP: seq<Msg>, rule: Rule)
    requires Idle(s, p, toS, toP, rule) && MayPropose(s, rule)
    ensures Idle(s.(proposed := true), p, toS, toP + [Propose], rule)
  {
    Appended(toP, Propose);
    CountAppend(toP, Propose, Propose);
    NoneCounted(toP, Propose);
  }

  lemma AcceptIdle(s: Side, p: Side, toS: seq<Msg>, toP: seq<Msg>, rule: Rule)
    requires Idle(s, p, toS, toP, rule) && Sends(s) && s.pending
    ensures Idle(s.(accepted := true, pending := false, waiting := true), p, toS, toP + [Accept], rule)
  {
    Appended(toP, Accept);
    CountAppend(toP, Propose, Accept);
    NoneCounted(toS, Propose);
  }

  lemma ReadIdle(s: Side, p: Side, toS: seq<Msg>, toP: seq<Msg>, rule: Rule)
    requires Idle(s, p, toS, toP, rule) && toS != [] && toS[0] != End && !Starts(s, p, toS[0])
    ensures Idle(Seen(s, toS[0]), p, toS[1..], toP, rule)
  {
    Popped(toS);
    NoneCounted(toS[1..], Propose);
  }

  lemma EndIdle(s: Side, p: Side, toS: seq<Msg>, toP: seq<Msg>, rule: Rule)
    requires Idle(s, p, toS, toP, rule) && toS != [] && toS[0] == End
    ensures Idle(Ended(s), p, toS[1..], toP, rule)
  {
    Popped(toS);
  }

  lemma StartLive(s: Side, p: Side, toS: seq<Msg>, toP: seq<Msg>, rule: Rule)
    requires Idle(s, p, toS, toP, rule) && toS != [] && Starts(s, p, toS[0])
    ensures var m, s' := Switch(s.PhaseLang(1)), Started(s.(got := s.got || toS[0] == Propose));
            Live(s', p, toS[1..], toP + [m], |toS| - 1, |toP| + 1, rule)
  {
    Popped(toS);
    Appended(toP, Switch(s.PhaseLang(1)));
  }

  // ---------------------------------------------------------------- a session, its owner acting

  lemma SecondLive(o: Side, f: Side, toO: seq<Msg>, toF: seq<Msg>, rule: Rule)
    requires Live(o, f, toO, toF, 0, 0, rule) && !o.left && o.phase == 1
    ensures Live(InPhase(o, 2), f, toO, toF + [Switch(o.PhaseLang(2))], |toO|, |toF| + 1, rule)
  {
    assert toF == [];
    assert toF + [Switch(o.PhaseLang(2))] == [Switch(o.PhaseLang(2))];
  }

  lemma EndLive(o: Side, f: Side, toO: seq<Msg>, toF: seq<Msg>, rule: Rule)
    requires Live(o, f, toO, toF, 0, 0, rule) && !o.left && o.phase == 2
    ensures Idle(Ended(o), f, toO, toF + [End], rule)
  {
    assert toF == [] && toF + [End] == [End] && toO[0..] == toO;
    NoneCounted(toO, Propose);
    NoneCounted([End], Propose);
  }

  lemma OwnerReadsLive(o: Side, f: Side, toO: seq<Msg>, toF: seq<Msg>, dueO: nat, dueF: nat, rule: Rule)
    requires Live(o, f, toO, toF, dueO, dueF, rule) && !o.left && toO != []
    ensures !Starts(o, f, toO[0]) && toO[0] != End
    ensures Live(Seen(o, toO[0]), f, toO[1..], toF, Fewer(dueO), dueF, rule)
  {
    Popped(toO);
    ReadsLate(o, toO, dueO, rule);
  }

  lemma ReadsLate(o: Side, toO: seq<Msg>, due: nat, rule: Rule)
    requires Late(o, toO, due, rule) && toO != []
    ensures Late(o, toO[1..], Fewer(due), rule)
  {
    if due == 0 {
      assert toO[0..] == toO && toO[1..][0..] == toO[1..];
    } else {
      assert toO[1..][due - 1..] == toO[due..];
    }
  }

  lemma OwnerLeavesLive(o: Side, f: Side, toO: seq<Msg>, toF: seq<Msg>, dueO: nat, dueF: nat, rule: Rule)
    requires Live(o, f, toO, toF, dueO, dueF, rule) && !o.left
    ensures Live(o.(left := true), f, toO, toF + [Left], dueO, dueF, rule)
  {
    CleanAppend(toF, Left);
    assert (toF + [Left])[..|toF|] == toF;
  }

  // ---------------------------------------------------------------- a session, its follower acting

  lemma FollowerProposesLive(o: Side, f: Side, toO: seq<Msg>, toF: seq<Msg>, dueO: nat, dueF: nat, rule: Rule)
    requires Live(o, f, toO, toF, dueO, dueF, rule) && MayPropose(f, rule)
    ensures Live(o, f.(proposed := true), toO + [Propose], toF, dueO, dueF, rule)
  {
    Appended(toO, Propose);
    if !o.left {
      assert (toO + [Propose])[dueO..] == toO[dueO..] + [Propose];
    }
  }

  lemma FollowerAcceptsLive(o: Side, f: Side, toO: seq<Msg>, toF: seq<Msg>, dueO: nat, dueF: nat, rule: Rule)
    requires Live(o, f, toO, toF, dueO, dueF, rule) && Sends(f) && f.pending
    ensures Live(o, f.(accepted := true, pending := false, waiting := true), toO + [Accept], toF, dueO, dueF, rule)
  {
    Appended(toO, Accept);
  }

  lemma FollowerReadsLive(o: Side, f: Side, toO: seq<Msg>, toF: seq<Msg>, dueO: nat, dueF: nat, rule: Rule)
    requires Live(o, f, toO, toF, dueO, dueF, rule) && toF != [] && toF[0] != Left
    ensures !Starts(f, o, toF[0])
    ensures var f' := if toF[0] == End then Ended(f) else Seen(f, toF[0]);
            Live(o, f', toO, toF[1..], dueO, Fewer(dueF), rule)
  {
    CleanPop(toF);
    Popped(Clean(toF));
    Popped(toF);
    assert toF[0].Switch? ==> |Clean(toF)| == 1 && Clean(toF[1..]) == [];
  }

  // ---------------------------------------------------------------- every step of a room

  lemma OutActs(r: Room, a: Action)
    requires Out(r.At(a.x))
    ensures var r' := Step(r, a);
            && Out(r'.At(a.x)) && r'.At(!a.x) == r.At(!a.x)
            && (r'.In(!a.x) == r.In(!a.x) || r'.In(!a.x) == r.In(!a.x) + [Left])
  {
  }

  predicate Becomes(s: Side, s': Side, p: Side, toS: seq<Msg>) {
    s'.active ==> s.active || (toS != [] && Starts(s, p, toS[0]))
  }

  lemma StartedIs(r: Room, x: bool)
    requires r.In(x) != []
    ensures var s := r.At(x);
            var s' := Started(s.(got := s.got || r.In(x)[0] == Propose));
            Is(AfterStart(r, x), x, s', r.At(!x), r.In(x)[1..], r.In(!x) + [Switch(s.PhaseLang(1))])
  {
  }

  lemma StartIs(r: Room, x: bool)
    requires !r.At(x).left && !r.At(x).gone && r.In(x) != [] && Starts(r.At(x), r.At(!x), r.In(x)[0])
    ensures var s := r.At(x);
            var s' := Started(s.(got := s.got || r.In(x)[0] == Propose));
            Is(Step(r, Receive(x)), x, s', r.At(!x), r.In(x)[1..], r.In(!x) + [Switch(s.PhaseLang(1))])
  {
    ReceiveReads(r, x);
    assert Step(r, Receive(x)) == AfterStart(r, x);
    StartedIs(r, x);
  }

  lemma ReadIs(r: Room, x: bool)
    requires !r.At(x).left && !r.At(x).gone && r.In(x) != [] && !Starts(r.At(x), r.At(!x), r.In(x)[0])
    ensures var s' := if r.In(x)[0] == End then Ended(r.At(x)) else Seen(r.At(x), r.In(x)[0]);
            Is(Step(r, Receive(x)), x, s', r.At(!x), r.In(x)[1..], r.In(!x))
  {
    if r.In(x)[0] == End {
      ReceiveEnds(r, x);
    } else {
      ReceiveReads(r, x);
    }
  }

  lemma DiscardIs(r: Room, x: bool)
    requires !r.At(x).left && r.At(x).gone && r.In(x) != []
    ensures Is(Step(r, Receive(x)), x, r.At(x), r.At(!x), r.In(x)[1..], r.In(!x))
  {
  }

  /** Only what is at the head of its channel makes a side an owner. */
  lemma Reads(r: Room, x: bool)
    requires !r.At(x).left && r.In(x) != []
    ensures var r' := Step(r, Receive(x));
            r'.At(!x) == r.At(!x) && r'.In(x) == r.In(x)[1..] && Becomes(r.At(x), r'.At(x), r.At(!x), r.In(x))
  {
    if r.At(x).gone {
      DiscardIs(r, x);
    } else if Starts(r.At(x), r.At(!x), r.In(x)[0]) {
      StartIs(r, x);
    } else {
      ReadIs(r, x);
    }
  }

  lemma Acts(r: Room, a: Action)
    requires !a.Receive? || r.At(a.x).left || r.In(a.x) == []
    ensures var r' := Step(r, a);
            r'.At(!a.x) == r.At(!a.x) && r'.In(a.x) == r.In(a.x) && (r'.At(a.x).active ==> r.At(a.x).active)
  {
  }

  lemma LoneStays(r: Room, a: Action, x: bool)
    requires LoneAt(r, x)
    ensures LoneAt(Step(r, a), x)
  {
    if a.x == x {
      OutActs(r, a);
    } else if a.Receive? && !r.At(a.x).left && r.In(a.x) != [] {
      Reads(r, a.x);
    } else {
      Acts(r, a);
    }
  }

  lemma LoneFrom(w: Watched, x: bool, rule: Rule)
    requires LoneAt(w.room, x)
    ensures Sound(w, rule)
  {
  }

  lemma IdleFrom(w: Watched, x: bool, s: Side, p: Side, toS: seq<Msg>, toP: seq<Msg>, rule: Rule)
    requires Is(w.room, x, s, p, toS, toP) && Idle(s, p, toS, toP, rule)
    ensures Sound(w, rule)
  {
    assert IdleAt(w.room, rule);
  }

  lemma IdleFor(r: Room, x: bool, rule: Rule)
    requires IdleAt(r, rule)
    ensures Idle(r.At(x), r.At(!x), r.In(x), r.In(!x), rule)
  {
  }

  lemma LiveFrom(
      w: Watched, x: bool, o: Side, f: Side, toO: seq<Msg>, toF: seq<Msg>, dueO: nat, dueF: nat, rule: Rule)
    requires Is(w.room, x, o, f, toO, toF)
    requires w.At(x).In(x) == dueO && w.At(x).In(!x) == dueF && Live(o, f, toO, toF, dueO, dueF, rule)
    ensures Sound(w, rule)
  {
    assert LiveAt(w, x, rule);
  }

  function Fewer(n: nat): nat { if n == 0 then 0 else n - 1 }

  // What a step does, whatever the shape of the room.

  lemma TickReads(w: Watched, x: bool)
    requires !w.room.At(x).left && !w.room.At(x).gone && w.room.In(x) != []
    requires !Starts(w.room.At(x), w.room.At(!x), w.room.In(x)[0])
    ensures var r, w' := w.room, Tick(w, Receive(x));
            var m := r.In(x)[0];
            && Is(w'.room, x, if m == End then Ended(r.At(x)) else Seen(r.At(x), m), r.At(!x), r.In(x)[1..], r.In(!x))
            && forall y :: w'.At(y).In(x) == Fewer(w.At(y).In(x)) && w'.At(y).In(!x) == w.At(y).In(!x)
  {
    ReadIs(w.room, x);
  }

  lemma TickStarts(w: Watched, x: bool)
    requires !w.room.At(x).left && !w.room.At(x).gone && w.room.In(x) != []
    requires Starts(w.room.At(x), w.room.At(!x), w.room.In(x)[0])
    ensures var r, w' := w.room, Tick(w, Receive(x));
            var s, m := r.At(x), Switch(r.At(x).PhaseLang(1));
            var s' := Started(s.(got := s.got || r.In(x)[0] == Propose));
            && Is(w'.room, x, s', r.At(!x), r.In(x)[1..], r.In(!x) + [m])
            && w'.At(x).In(x) == |r.In(x)| - 1 && w'.At(x).In(!x) == |r.In(!x)| + 1
  {
    StartIs(w.room, x);
  }

  /** The side acts only on itself and its outgoing channel, and what is due stays. */
  lemma TickSends(w: Watched, a: Action, s: Side, out: seq<Msg>)
    requires !a.Receive? && !Begins(w.room, a)
    requires Step(w.room, a).At(a.x) == s && Step(w.room, a).In(!a.x) == w.room.In(!a.x) + out
    ensures Is(Tick(w, a).room, a.x, s, w.room.At(!a.x), w.room.In(a.x), w.room.In(!a.x) + out)
    ensures forall y, z :: Tick(w, a).At(y).In(z) == w.At(y).In(z)
  {
  }

  ghost predicate Keeps(r: Room, a: Action, rule: Rule) { Follows(Prompted, r, a) && Follows(rule, r, a) }

  /** What a step sends, between sessions or on the follower's side. */
  lemma TickActs(w: Watched, a: Action)
    requires !a.Receive? && !w.room.At(a.x).active && !w.room.At(a.x).left && !w.room.At(a.x).gone
    ensures var r := w.room; var s := r.At(a.x); var w' := Tick(w, a);
            && (forall y, z :: w'.At(y).In(z) == w.At(y).In(z))
            && match a
               case Leave(x) => Is(w'.room, x, s.(left := true), r.At(!x), r.In(x), r.In(!x) + [Left])
               case TimerFires(x) => Is(w'.room, x, s.(timer := false), r.At(!x), r.In(x), r.In(!x))
               case ClientPropose(x) =>
                 if Sends(s) then Is(w'.room, x, s.(proposed := true), r.At(!x), r.In(x), r.In(!x) + [Propose])
                 else w'.room == r
               case ClientAccept(x) =>
                 var s' := s.(accepted := true, pending := false, waiting := true);
                 if Sends(s) then Is(w'.room, x, s', r.At(!x), r.In(x), r.In(!x) + [Accept]) else w'.room == r
               case _ => true
  {
  }

  lemma IdleStep(w: Watched, a: Action, rule: Rule)
    requires IdleAt(w.room, rule) && rule != Prompted && Keeps(w.room, a, rule)
    ensures Sound(Tick(w, a), rule)
  {
    var r, x, w' := w.room, a.x, Tick(w, a);
    var s, p, toS, toP := r.At(x), r.At(!x), r.In(x), r.In(!x);
    IdleFor(r, x, rule);
    if a.Receive? {
      if toS == [] {
        IdleFrom(w', x, s, p, toS, toP, rule);
      } else {
        IdleReceives(w, x, rule);
      }
    } else {
      TickActs(w, a);
      match a
      case Leave(_) => LoneFrom(w', x, rule);
      case TimerFires(_) => IdleFrom(w', x, s.(timer := false), p, toS, toP, rule);
      case ClientPropose(_) => IdleProposes(w, x, rule);
      case ClientAccept(_) => IdleAccepts(w, x, rule);
    }
  }

  lemma IdleProposes(w: Watched, x: bool, rule: Rule)
    requires IdleAt(w.room, rule) && rule != Prompted
    requires Follows(rule, w.room, ClientPropose(x))
    ensures Sound(Tick(w, ClientPropose(x)), rule)
  {
    var r, w' := w.room, Tick(w, ClientPropose(x));
    var s, p, toS, toP := r.At(x), r.At(!x), r.In(x), r.In(!x);
    IdleFor(r, x, rule);
    TickActs(w, ClientPropose(x));
    if Sends(s) {
      ProposeIdle(s, p, toS, toP, rule);
      IdleFrom(w', x, s.(proposed := true), p, toS, toP + [Propose], rule);
    } else {
      IdleFrom(w', x, s, p, toS, toP, rule);
    }
  }

  lemma IdleAccepts(w: Watched, x: bool, rule: Rule)
    requires IdleAt(w.room, rule) && Follows(Prompted, w.room, ClientAccept(x))
    ensures Sound(Tick(w, ClientAccept(x)), rule)
  {
    var r, w' := w.room, Tick(w, ClientAccept(x));
    var s, p, toS, toP := r.At(x), r.At(!x), r.In(x), r.In(!x);
    IdleFor(r, x, rule);
    TickActs(w, ClientAccept(x));
    if Sends(s) {
      AcceptIdle(s, p, toS, toP, rule);
      IdleFrom(w', x, s.(accepted := true, pending := false, waiting := true), p, toS, toP + [Accept], rule);
    } else {
      IdleFrom(w', x, s, p, toS, toP, rule);
    }
  }

  lemma IdleReceives(w: Watched, x: bool, rule: Rule)
    requires IdleAt(w.room, rule) && rule != Prompted && w.room.In(x) != []
    ensures Sound(Tick(w, Receive(x)), rule)
  {
    var r, w' := w.room, Tick(w, Receive(x));
    var s, p, toS, toP := r.At(x), r.At(!x), r.In(x), r.In(!x);
    IdleFor(r, x, rule);
    if Starts(s, p, toS[0]) {
      TickStarts(w, x);
      StartLive(s, p, toS, toP, rule);
      var s' := Started(s.(got := s.got || toS[0] == Propose));
      LiveFrom(w', x, s', p, toS[1..], toP + [Switch(s.PhaseLang(1))], |toS| - 1, |toP| + 1, rule);
    } else {
      TickReads(w, x);
      if toS[0] == End {
        EndIdle(s, p, toS, toP, rule);
        IdleFrom(w', x, Ended(s), p, toS[1..], toP, rule);
      } else {
        ReadIdle(s, p, toS, toP, rule);
        IdleFrom(w', x, Seen(s, toS[0]), p, toS[1..], toP, rule);
      }
    }
  }

  lemma OwnerStep(w: Watched, a: Action, rule: Rule)
    requires LiveAt(w, a.x, rule) && OnTime(w, a)
    ensures Sound(Tick(w, a), rule)
  {
    var r, x, d, w' := w.room, a.x, w.At(a.x), Tick(w, a);
    var o, f, toO, toF := r.At(x), r.At(!x), r.In(x), r.In(!x);
    if a.Receive? && !o.left && toO != [] {
      OwnerReadsLive(o, f, toO, toF, d.In(x), d.In(!x), rule);
      TickReads(w, x);
      LiveFrom(w', x, Seen(o, toO[0]), f, toO[1..], toF, Fewer(d.In(x)), d.In(!x), rule);
    } else if a.TimerFires? && !o.left && o.timer {
      OwnerTimer(w, x, rule);
    } else if a.Leave? && !o.left {
      OwnerLeavesLive(o, f, toO, toF, d.In(x), d.In(!x), rule);
      TickSends(w, a, o.(left := true), [Left]);
      LiveFrom(w', x, o.(left := true), f, toO, toF + [Left], d.In(x), d.In(!x), rule);
    } else {
      OwnerWaits(w, a);
      LiveFrom(w', x, o, f, toO, toF, d.In(x), d.In(!x), rule);
    }
  }

  lemma OwnerWaits(w: Watched, a: Action)
    requires w.room.At(a.x).left || match a
             case Receive(x) => w.room.In(x) == []
             case TimerFires(x) => !w.room.At(x).timer
             case Leave(_) => false
             case _ => w.room.At(a.x).active
    ensures Tick(w, a) == w
  {
  }

  lemma OwnerTimer(w: Watched, x: bool, rule: Rule)
    requires LiveAt(w, x, rule) && OnTime(w, TimerFires(x))
    requires !w.room.At(x).left && w.room.At(x).timer
    ensures Sound(Tick(w, TimerFires(x)), rule)
  {
    var r, a, w' := w.room, TimerFires(x), Tick(w, TimerFires(x));
    var o, f, toO, toF := r.At(x), r.At(!x), r.In(x), r.In(!x);
    assert Expires(r, a) && w.At(x).In(x) == 0 && w.At(x).In(!x) == 0;
    TimerMoves(r, x);
    if o.phase == 1 {
      SecondLive(o, f, toO, toF, rule);
      LiveFrom(w', x, InPhase(o, 2), f, toO, toF + [Switch(o.PhaseLang(2))], |toO|, |toF| + 1, rule);
    } else {
      EndLive(o, f, toO, toF, rule);
      IdleFrom(w', x, Ended(o), f, toO, toF + [End], rule);
    }
  }

  lemma FollowerStep(w: Watched, a: Action, rule: Rule)
    requires LiveAt(w, !a.x, rule) && Keeps(w.room, a, rule) && rule != Prompted
    ensures Sound(Tick(w, a), rule)
  {
    var r, x, d, w' := w.room, a.x, w.At(!a.x), Tick(w, a);
    var o, f, toO, toF := r.At(!x), r.At(x), r.In(!x), r.In(x);
    if a.Receive? {
      if toF == [] {
        OwnerWaits(w, a);
        LiveFrom(w', !x, o, f, toO, toF, d.In(!x), d.In(x), rule);
      } else {
        FollowerReceives(w, x, rule);
      }
    } else {
      TickActs(w, a);
      match a
      case Leave(_) => LoneFrom(w', x, rule);
      case TimerFires(_) =>
        LiveFrom(w', !x, o, f.(timer := false), toO, toF, d.In(!x), d.In(x), rule);
      case ClientPropose(_) => FollowerProposes(w, x, rule);
      case ClientAccept(_) => FollowerAccepts(w, x, rule);
    }
  }

  lemma FollowerProposes(w: Watched, x: bool, rule: Rule)
    requires LiveAt(w, !x, rule) && rule != Prompted
    requires Follows(rule, w.room, ClientPropose(x))
    ensures Sound(Tick(w, ClientPropose(x)), rule)
  {
    var r, d, w' := w.room, w.At(!x), Tick(w, ClientPropose(x));
    var o, f, toO, toF := r.At(!x), r.At(x), r.In(!x), r.In(x);
    TickActs(w, ClientPropose(x));
    if Sends(f) {
      FollowerProposesLive(o, f, toO, toF, d.In(!x), d.In(x), rule);
      LiveFrom(w', !x, o, f.(proposed := true), toO + [Propose], toF, d.In(!x), d.In(x), rule);
    } else {
      LiveFrom(w', !x, o, f, toO, toF, d.In(!x), d.In(x), rule);
    }
  }

  lemma FollowerAccepts(w: Watched, x: bool, rule: Rule)
    requires LiveAt(w, !x, rule) && Follows(Prompted, w.room, ClientAccept(x))
    ensures Sound(Tick(w, ClientAccept(x)), rule)
  {
    var r, d, w' := w.room, w.At(!x), Tick(w, ClientAccept(x));
    var o, f, toO, toF := r.At(!x), r.At(x), r.In(!x), r.In(x);
    TickActs(w, ClientAccept(x));
    if Sends(f) {
      FollowerAcceptsLive(o, f, toO, toF, d.In(!x), d.In(x), rule);
      var f' := f.(accepted := true, pending := false, waiting := true);
      LiveFrom(w', !x, o, f', toO + [Accept], toF, d.In(!x), d.In(x), rule);
    } else {
      LiveFrom(w', !x, o, f, toO, toF, d.In(!x), d.In(x), rule);
    }
  }

  lemma FollowerReceives(w: Watched, x: bool, rule: Rule)
    requires LiveAt(w, !x, rule) && w.room.In(x) != []
    ensures Sound(Tick(w, Receive(x)), rule)
  {
    var r, d, w' := w.room, w.At(!x), Tick(w, Receive(x));
    var o, f, toO, toF := r.At(!x), r.At(x), r.In(!x), r.In(x);
    if toF[0] == Left {
      TickReads(w, x);
      LoneFrom(w', x, rule);
    } else {
      FollowerReadsLive(o, f, toO, toF, d.In(!x), d.In(x), rule);
      TickReads(w, x);
      var f' := if toF[0] == End then Ended(f) else Seen(f, toF[0]);
      LiveFrom(w', !x, o, f', toO, toF[1..], d.In(!x), Fewer(d.In(x)), rule);
    }
  }

  lemma StepSound(w: Watched, a: Action, rule: Rule)
    requires Sound(w, rule) && rule != Prompted && Keeps(w.room, a, rule) && OnTime(w, a)
    ensures Sound(Tick(w, a), rule)
  {
    var r := w.room;
    if LoneAt(r, true) {
      LoneStays(r, a, true);
      LoneFrom(Tick(w, a), true, rule);
    } else if LoneAt(r, false) {
      LoneStays(r, a, false);
      LoneFrom(Tick(w, a), false, rule);
    } else if IdleAt(r, rule) {
      IdleStep(w, a, rule);
    } else if LiveAt(w, a.x, rule) {
      OwnerStep(w, a, rule);
    } else {
      FollowerStep(w, a, rule);
    }
  }

  lemma {:induction false} RunSound(r: Room, run: seq<Action>, rule: Rule)
    requires Start(r) && Kept(r, run, {Prompted, rule}) && rule != Prompted && Timely(r, run)
    ensures Sound(Watch(r, run), rule)
  {
    if run != [] {
      var n := |run| - 1;
      assert forall i: nat :: i < n ==> run[..n][i] == run[i] && run[..n][..i] == run[..i];
      RunSound(r, run[..n], rule);
      WatchesTheRun(r, run[..n]);
      StepSound(Watch(r, run[..n]), run[n], rule);
    }
  }

  /**
   In every timely run at most one side owns a session at a time, across any number of sessions, if both clients
   accept only a pending prompt and keep either of the rules about proposing.
   */
  lemma OneOwnerInTime(r: Room, run: seq<Action>, rule: Rule)
    requires Start(r) && Kept(r, run, {Prompted, rule}) && rule != Prompted && Timely(r, run)
    ensures !(Run(r, run).t.active && Run(r, run).f.active)
  {
    RunSound(r, run, rule);
    WatchesTheRun(r, run);
  }

  // ---------------------------------------------------------------- timers that find nothing unread

  /** A timer expires only on empty channels. */
  predicate Rested(r: Room, a: Action) { Expires(r, a) ==> r.toT == [] && r.toF == [] }

  ghost predicate Drained(r: Room, run: seq<Action>) {
    forall i: nat :: i < |run| ==> Rested(Run(r, run[..i]), run[i])
  }

  ghost predicate DueIsThere(w: Watched) { forall x, y :: w.At(x).In(y) <= |w.room.In(y)| }

  lemma DueStaysThere(w: Watched, a: Action)
    requires DueIsThere(w)
    ensures DueIsThere(Tick(w, a))
  {
    forall x, y
      ensures Tick(w, a).At(x).In(y) <= |Tick(w, a).room.In(y)|
    {
      assert w.At(x).In(y) <= |w.room.In(y)|;
      ChannelShrinks(w.room, a, y);
    }
  }

  /** A channel gets shorter by one message at most, and only when it is read. */
  lemma ChannelShrinks(r: Room, a: Action, y: bool)
    ensures |Step(r, a).In(y)| >=
            |r.In(y)| - if a == Receive(y) && !r.At(y).left && r.In(y) != [] then 1 else 0
  {
    if a.Receive? && !r.At(a.x).left && r.In(a.x) != [] {
      var x := a.x;
      if r.At(x).gone {
        DiscardIs(r, x);
      } else if Starts(r.At(x), r.At(!x), r.In(x)[0]) {
        StartIs(r, x);
      } else {
        ReadIs(r, x);
      }
    }
  }

  lemma {:induction false} DueWasThere(r: Room, run: seq<Action>)
    ensures DueIsThere(Watch(r, run))
  {
    if run != [] {
      DueWasThere(r, run[..|run| - 1]);
      DueStaysThere(Watch(r, run[..|run| - 1]), run[|run| - 1]);
    }
  }

  lemma DrainedIsTimely(r: Room, run: seq<Action>)
    requires Drained(r, run)
    ensures Timely(r, run)
  {
    forall i: nat | i < |run|
      ensures OnTime(Watch(r, run[..i]), run[i])
    {
      WatchesTheRun(r, run[..i]);
      DueWasThere(r, run[..i]);
      var w := Watch(r, run[..i]);
      assert Rested(w.room, run[i]);
      if Expires(w.room, run[i]) {
        forall x
          ensures w.At(run[i].x).In(x) == 0
        {
          assert w.At(run[i].x).In(x) <= |w.room.In(x)|;
        }
      }
    }
  }
}
