/**
 The tandem 50/50 session of a human chat: two endpoints that shake hands over the room's ordered
 channel, after which one of them owns the timer of the two language phases.

 Side `true` and side `false` each run the event loop of `runChat`; one `Action` is one turn of one loop.
 */
module Tandem {
  datatype Msg = Propose | Accept | Switch(lang: string) | End | Left

  /**
   One endpoint.  The third line is whether its client was ever prompted, ever accepted, and whether a
   proposal of the peer was ever read; the last is the client's screen: a prompt it has not answered, a
   session, and an accept of its own without an answer yet.
   */
  datatype Side = Side(
    id: nat, speaks: string, wants: string,
    proposed: bool, active: bool, phase: nat, timer: bool, lang: string, gone: bool, left: bool,
    prompted: bool, accepted: bool, got: bool,
    pending: bool, shown: bool, waiting: bool)
  {
    /** A tandem_switch, or a tandem_end, reaches the client. */
    function Screen(session: bool): Side { this.(pending := false, shown := session, waiting := false) }

    function PhaseLang(n: nat): string { if n == 1 then wants else speaks }
  }

  /** `starts`: the sides that ran startTandem, in order; `over`: a session has been ended. */
  datatype Room = Room(t: Side, f: Side, toT: seq<Msg>, toF: seq<Msg>, starts: seq<bool>, over: bool) {
    function At(x: bool): Side { if x then t else f }
    function In(x: bool): seq<Msg> { if x then toT else toF }
    function Put(x: bool, s: Side): Room { if x then this.(t := s) else this.(f := s) }
    function Send(x: bool, m: Msg): Room { if x then this.(toF := toF + [m]) else this.(toT := toT + [m]) }
    function Pop(x: bool): Room
      requires In(x) != []
    {
      if x then this.(toT := toT[1..]) else this.(toF := toF[1..])
    }
  }

  function Fresh(id: nat, speaks: string, wants: string): Side {
    Side(id, speaks, wants, false, false, 0, false, "", false, false, false, false, false, false, false, false)
  }

  /** A fresh room between two matched sessions. */
  ghost predicate Start(r: Room) {
    && r.t.id != r.f.id
    && r == Room(Fresh(r.t.id, r.t.speaks, r.t.wants), Fresh(r.f.id, r.f.speaks, r.f.wants), [], [], [], false)
  }

  /** The session is over for `s`. */
  function Ended(s: Side): Side {
    s.Screen(false).(active := false, phase := 0, proposed := false, timer := false, lang := "")
  }

  function EndTandem(r: Room, x: bool): Room { r.Put(x, Ended(r.At(x))).(over := true) }

  /** Phase `n` begins: the owner shows its language and publishes it. */
  function InPhase(s: Side, n: nat): Side { s.Screen(true).(phase := n, lang := s.PhaseLang(n), timer := true) }

  function Started(s: Side): Side { InPhase(s.(active := true), 1) }

  function StartTandem(r: Room, x: bool): Room {
    r.Put(x, Started(r.At(x))).Send(x, Switch(r.At(x).PhaseLang(1))).(starts := r.starts + [x])
  }

  datatype Action =
    | ClientPropose(x: bool)
    | ClientAccept(x: bool)
    | TimerFires(x: bool)
    | Receive(x: bool)
    | Leave(x: bool)

  /** Whether reading `m` makes `s` start a session: an accept of its proposal, or a crossed proposal it wins. */
  predicate Starts(s: Side, p: Side, m: Msg) {
    s.proposed && !s.active && (m == Accept || (m == Propose && s.id < p.id))
  }

  /** What it becomes when it reads `m` without starting. */
  function Seen(s: Side, m: Msg): Side {
    match m
    case Propose =>
      if s.active || s.proposed then s.(got := true)
      else s.(got := true, prompted := true, pending := true)
    case Switch(lang) => s.Screen(true).(lang := lang)
    case Left => s.(gone := true)
    case _ => s
  }

  function OnMessage(r: Room, x: bool, m: Msg): Room {
    var s := r.At(x);
    if s.gone then r
    else if m == End then EndTandem(r, x)
    else if Starts(s, r.At(!x), m) then StartTandem(r.Put(x, s.(got := s.got || m == Propose)), x)
    else r.Put(x, Seen(s, m))
  }

  function Step(r: Room, a: Action): Room {
    var s := r.At(a.x);
    if s.left then r
    else match a
      case ClientPropose(x) =>
        if s.gone || s.active || s.proposed then r else r.Put(x, s.(proposed := true)).Send(x, Propose)
      case ClientAccept(x) =>
        if s.gone || s.active || s.proposed then r
        else r.Put(x, s.(accepted := true, pending := false, waiting := true)).Send(x, Accept)
      case TimerFires(x) =>
        if !s.timer then r
        else
          var r' := r.Put(x, s.(timer := false));
          if !s.active || s.gone then r'
          else if s.phase == 1 then r'.Put(x, InPhase(s, 2)).Send(x, Switch(s.PhaseLang(2)))
          else EndTandem(r'.Send(x, End), x)
      case Receive(x) => if r.In(x) == [] then r else OnMessage(r.Pop(x), x, r.In(x)[0])
      case Leave(x) => r.Put(x, s.(left := true)).Send(x, Left)
  }

  function Run(r: Room, run: seq<Action>): Room {
    if run == [] then r else Step(Run(r, run[..|run| - 1]), run[|run| - 1])
  }

  /** Both clients accept only what they have been prompted for. */
  ghost predicate Disciplined(r: Room, run: seq<Action>) {
    forall i: nat :: i < |run| && run[i].ClientAccept? ==> Run(r, run[..i]).At(run[i].x).prompted
  }

  /** The side that wins a tie: the one with the smaller session ID. */
  function Smaller(w: Room): bool { w.t.id < w.f.id }

  /** Whether a proposal or an accept of the client goes out. */
  predicate Sends(s: Side) { !s.left && !s.gone && !s.active && !s.proposed }

  /**
   The one thing to guard against: the smaller side sends an accept it was never prompted for, to a peer that
   is there.
   */
  ghost predicate Harmless(w: Room, a: Action) {
    a.ClientAccept? && a.x == Smaller(w) && Sends(w.At(a.x)) && !w.At(!a.x).left ==> w.At(a.x).prompted
  }

  ghost predicate Careful(r: Room, run: seq<Action>) {
    forall i: nat :: i < |run| ==> Harmless(Run(r, run[..i]), run[i])
  }

  // ---------------------------------------------------------------- the invariant up to the first end

  function Count(q: seq<Msg>, m: Msg): nat {
    if q == [] then 0 else (if q[0] == m then 1 else 0) + Count(q[1..], m)
  }

  lemma {:induction false} CountAppend(q: seq<Msg>, m: Msg, m': Msg)
    ensures Count(q + [m'], m) == Count(q, m) + if m == m' then 1 else 0
  {
    if q == [] {
      assert [] + [m'] == [m'];
      assert [m'][1..] == [];
    } else {
      assert (q + [m'])[1..] == q[1..] + [m'];
      CountAppend(q[1..], m, m');
    }
  }

  function Heard(lang: string, m: Msg): string {
    match m
    case Switch(l) => l
    case End => ""
    case _ => lang
  }

  /** The phase language a side will hold once it has read what is in its channel. */
  function LangAfter(lang: string, q: seq<Msg>): string
    decreases |q|
  {
    if q == [] then lang else LangAfter(Heard(lang, q[0]), q[1..])
  }

  lemma {:induction false} LangAfterAppend(lang: string, q: seq<Msg>, m: Msg)
    ensures LangAfter(lang, q + [m]) == Heard(LangAfter(lang, q), m)
    decreases |q|
  {
    if q == [] {
      assert [] + [m] == [m];
      assert [m][1..] == [];
    } else {
      assert (q + [m])[1..] == q[1..] + [m];
      LangAfterAppend(Heard(lang, q[0]), q[1..], m);
    }
  }

  ghost predicate NoPhase(q: seq<Msg>) {
    forall i :: 0 <= i < |q| ==> !q[i].Switch? && !q[i].End?
  }

  ghost predicate EndsWithLeft(q: seq<Msg>) {
    q != [] && q[|q| - 1] == Left && Left !in q[..|q| - 1]
  }

  /** Proposals and answers between a side `s`, its peer `p` and what is in their channels. */
  ghost predicate Handshake(s: Side, p: Side, toS: seq<Msg>) {
    // one proposal per side, in the channel until it is read
    && Count(toS, Propose) + (if s.got then 1 else 0) == (if p.proposed then 1 else 0)
    && (s.prompted ==> s.got && !p.prompted)
    && (Accept in toS ==> p.accepted)
    && (s.got && !s.prompted ==> s.active || (s.proposed && p.id < s.id))
  }

  /** An accept behind a proposal. */
  predicate AcceptLate(q: seq<Msg>) {
    q != [] && if q[0] == Propose then Accept in q[1..] else AcceptLate(q[1..])
  }

  /** Why the larger side can only start on an accept that answers its proposal. */
  ghost predicate Ties(s: Side, p: Side, toS: seq<Msg>, toP: seq<Msg>) {
    // accepts come before the proposal
    && !AcceptLate(toS)
    && (s.got ==> Accept !in toS)
    // the smaller side
    && (s.id < p.id && s.accepted ==> s.prompted || p.left)
    && (s.id < p.id && s.prompted ==> !s.active)
    && (p.id < s.id && s.active ==> p.prompted)
    && (!s.proposed && !s.accepted && !s.active && !s.left ==> toP == [])
  }

  /** A Left is the last thing a side sends, and the last its peer reads. */
  ghost predicate Leaving(s: Side, p: Side, toS: seq<Msg>) {
    && (!p.left ==> !s.gone && Left !in toS)
    && (p.left ==> if s.gone then toS == [] else EndsWithLeft(toS))
  }

  /** Why `s` is the owner, and how its phase language reaches the peer. */
  ghost predicate Ownership(s: Side, p: Side, toP: seq<Msg>) {
    && (s.timer ==> s.active)
    && (s.active ==> s.proposed && 1 <= s.phase <= 2 && s.lang == s.PhaseLang(s.phase))
    && (s.active ==> p.accepted || (s.got && !s.prompted && s.id < p.id))
    && (s.active ==> !p.active && LangAfter(p.lang, toP) == s.lang)
    && (!s.active ==> NoPhase(toP))
  }

  ghost predicate Half(s: Side, p: Side, toS: seq<Msg>, toP: seq<Msg>) {
    s.id != p.id && Handshake(s, p, toS) && Leaving(s, p, toS) && Ties(s, p, toS, toP) && Ownership(s, p, toP)
  }

  ghost predicate Both(s: Side, p: Side, toS: seq<Msg>, toP: seq<Msg>) { Half(s, p, toS, toP) && Half(p, s, toP, toS) }

  ghost predicate Inv(r: Room) {
    && Both(r.t, r.f, r.toT, r.toF)
    && r.starts == (if r.t.active then [true] else if r.f.active then [false] else [])
    && (r.starts == [] ==> r.t.lang == "" && r.f.lang == "")
  }

  lemma {:induction false} AcceptLateAppend(q: seq<Msg>, m: Msg)
    ensures AcceptLate(q + [m]) <==> AcceptLate(q) || (m == Accept && Propose in q)
  {
    if q == [] {
      assert [] + [m] == [m] && [m][1..] == [];
    } else {
      assert (q + [m])[1..] == q[1..] + [m] && q == [q[0]] + q[1..];
      AcceptLateAppend(q[1..], m);
    }
  }

  lemma {:induction false} NoneCounted(q: seq<Msg>, m: Msg)
    ensures Count(q, m) == 0 <==> m !in q
  {
    if q != [] {
      NoneCounted(q[1..], m);
      assert q == [q[0]] + q[1..];
    }
  }

  lemma PopKeepsCounts(q: seq<Msg>)
    requires q != []
    ensures Count(q, Propose) == Count(q[1..], Propose) + if q[0] == Propose then 1 else 0
    ensures EndsWithLeft(q) ==> if q[0] == Left then q[1..] == [] else EndsWithLeft(q[1..])
    ensures NoPhase(q) ==> NoPhase(q[1..])
    ensures !AcceptLate(q) ==> !AcceptLate(q[1..]) && (q[0] == Propose ==> Accept !in q[1..])
    ensures forall m :: m in q[1..] ==> m in q
    ensures forall m :: m in q ==> m == q[0] || m in q[1..]
  {
    if EndsWithLeft(q) && q[0] != Left {
      assert q[1..][..|q| - 2] == q[..|q| - 1][1..];
    }
    NoAcceptNoneLate(q[1..]);
  }

  lemma {:induction false} NoAcceptNoneLate(q: seq<Msg>)
    ensures Accept !in q ==> !AcceptLate(q)
  {
    if q != [] {
      NoAcceptNoneLate(q[1..]);
      assert q == [q[0]] + q[1..];
    }
  }

  // ---------------------------------------------------------------- side `s` sends

  lemma ProposeKeeps(s: Side, p: Side, toS: seq<Msg>, toP: seq<Msg>)
    requires Both(s, p, toS, toP) && Sends(s)
    ensures Both(s.(proposed := true), p, toS, toP + [Propose])
  {
    CountAppend(toP, Propose, Propose);
    LangAfterAppend(p.lang, toP, Propose);
    AcceptLateAppend(toP, Propose);
  }

  lemma AcceptKeeps(s: Side, p: Side, toS: seq<Msg>, toP: seq<Msg>)
    requires Both(s, p, toS, toP) && Sends(s) && (s.id < p.id && !p.left ==> s.prompted)
    ensures Both(s.(accepted := true, pending := false, waiting := true), p, toS, toP + [Accept])
  {
    CountAppend(toP, Propose, Accept);
    LangAfterAppend(p.lang, toP, Accept);
    AcceptLateAppend(toP, Accept);
    NoneCounted(toP, Propose);
  }

  lemma LeaveKeeps(s: Side, p: Side, toS: seq<Msg>, toP: seq<Msg>)
    requires Both(s, p, toS, toP) && !s.left
    ensures Both(s.(left := true), p, toS, toP + [Left])
  {
    CountAppend(toP, Propose, Left);
    LangAfterAppend(p.lang, toP, Left);
    AcceptLateAppend(toP, Left);
    assert (toP + [Left])[..|toP|] == toP;
  }

  lemma PhaseKeeps(s: Side, p: Side, toS: seq<Msg>, toP: seq<Msg>)
    requires Both(s, p, toS, toP) && s.active && s.timer && !s.gone && !s.left
    ensures Both(InPhase(s, 2), p, toS, toP + [Switch(s.PhaseLang(2))])
  {
    CountAppend(toP, Propose, Switch(s.PhaseLang(2)));
    LangAfterAppend(p.lang, toP, Switch(s.PhaseLang(2)));
    AcceptLateAppend(toP, Switch(s.PhaseLang(2)));
  }

  // ---------------------------------------------------------------- side `s` reads `toS[0]`

  /** Nobody has started when a side is about to: the other's start would have needed this one's answer. */
  lemma StarterFindsNoOwner(s: Side, p: Side, toS: seq<Msg>, toP: seq<Msg>)
    requires Both(s, p, toS, toP) && !s.left && !s.gone && toS != [] && Starts(s, p, toS[0])
    ensures !p.active
    ensures if s.id < p.id then !s.prompted else p.prompted
    ensures if toS[0] == Propose then !s.got else p.accepted
  {
    PopKeepsCounts(toS);
    NoneCounted(toS, Propose);
  }

  lemma StartKeeps(s: Side, p: Side, toS: seq<Msg>, toP: seq<Msg>)
    requires Both(s, p, toS, toP) && !s.left && !s.gone && toS != [] && Starts(s, p, toS[0])
    ensures Both(Started(s.(got := s.got || toS[0] == Propose)), p, toS[1..], toP + [Switch(s.PhaseLang(1))])
  {
    var m, s' := Switch(s.PhaseLang(1)), Started(s.(got := s.got || toS[0] == Propose));
    StarterFindsNoOwner(s, p, toS, toP);
    PopKeepsCounts(toS);
    CountAppend(toP, Propose, m);
    LangAfterAppend(p.lang, toP, m);
    AcceptLateAppend(toP, m);
    assert Half(s', p, toS[1..], toP + [m]);
    assert Half(p, s', toP + [m], toS[1..]);
  }

  lemma ReadProposeKeeps(s: Side, p: Side, toS: seq<Msg>, toP: seq<Msg>)
    requires Both(s, p, toS, toP) && !s.left && toS != [] && toS[0] == Propose && !s.gone && !Starts(s, p, Propose)
    ensures var s' :=
              if s.active || s.proposed then s.(got := true)
              else s.(got := true, prompted := true, pending := true);
            Both(s', p, toS[1..], toP)
  {
    PopKeepsCounts(toS);
  }

  lemma ReadAcceptKeeps(s: Side, p: Side, toS: seq<Msg>, toP: seq<Msg>)
    requires Both(s, p, toS, toP) && !s.left && toS != [] && toS[0] == Accept && !s.gone && !Starts(s, p, Accept)
    ensures Both(s, p, toS[1..], toP)
  {
    PopKeepsCounts(toS);
  }

  lemma ReadSwitchKeeps(s: Side, p: Side, toS: seq<Msg>, toP: seq<Msg>)
    requires Both(s, p, toS, toP) && !s.left && toS != [] && toS[0].Switch? && !s.gone
    ensures p.active && Both(s.Screen(true).(lang := toS[0].lang), p, toS[1..], toP)
  {
    PopKeepsCounts(toS);
  }

  lemma ReadLeftKeeps(s: Side, p: Side, toS: seq<Msg>, toP: seq<Msg>)
    requires Both(s, p, toS, toP) && !s.left && toS != [] && toS[0] == Left && !s.gone
    ensures Both(s.(gone := true), p, toS[1..], toP)
  {
    PopKeepsCounts(toS);
  }

  lemma SwitchIsOwners(s: Side, p: Side, toS: seq<Msg>, toP: seq<Msg>)
    requires Both(s, p, toS, toP) && toS != [] && toS[0].Switch?
    ensures p.active
  {
  }

  lemma SeenKeeps(s: Side, p: Side, toS: seq<Msg>, toP: seq<Msg>)
    requires Both(s, p, toS, toP) && !s.left && !s.gone && toS != [] && !toS[0].End? && !Starts(s, p, toS[0])
    ensures Both(Seen(s, toS[0]), p, toS[1..], toP)
  {
    match toS[0]
    case Propose => ReadProposeKeeps(s, p, toS, toP);
    case Accept => ReadAcceptKeeps(s, p, toS, toP);
    case Switch(_) => ReadSwitchKeeps(s, p, toS, toP);
    case Left => ReadLeftKeeps(s, p, toS, toP);
  }

  // ---------------------------------------------------------------- each action keeps it

  /** A room from the point of view of side `x`. */
  ghost predicate Is(r: Room, x: bool, s: Side, p: Side, toS: seq<Msg>, toP: seq<Msg>) {
    r.At(x) == s && r.At(!x) == p && r.In(x) == toS && r.In(!x) == toP
  }

  ghost predicate StartsMatch(r: Room, x: bool, s: Side, p: Side) {
    && r.starts == (if s.active then [x] else if p.active then [!x] else [])
    && (r.starts == [] ==> s.lang == "" && p.lang == "")
  }

  lemma InvAt(r: Room, x: bool)
    requires Inv(r)
    ensures Both(r.At(x), r.At(!x), r.In(x), r.In(!x)) && StartsMatch(r, x, r.At(x), r.At(!x))
  {
  }

  lemma InvFrom(r: Room, x: bool, s: Side, p: Side, toS: seq<Msg>, toP: seq<Msg>)
    requires Is(r, x, s, p, toS, toP) && Both(s, p, toS, toP) && StartsMatch(r, x, s, p)
    ensures Inv(r)
  {
  }

  /** The room after side `x`, listening, read `m` from the front of its channel. */
  function AfterStart(r: Room, x: bool): Room
    requires r.In(x) != []
  {
    StartTandem(r.Pop(x).Put(x, r.At(x).(got := r.At(x).got || r.In(x)[0] == Propose)), x)
  }

  lemma ReceiveReads(r: Room, x: bool)
    requires !r.At(x).left && !r.At(x).gone && r.In(x) != [] && !r.In(x)[0].End?
    ensures Step(r, Receive(x)) ==
            if Starts(r.At(x), r.At(!x), r.In(x)[0]) then AfterStart(r, x)
            else r.Pop(x).Put(x, Seen(r.At(x), r.In(x)[0]))
  {
  }

  lemma StartKeepsInv(r: Room, x: bool)
    requires Inv(r) && !r.At(x).left && !r.At(x).gone && r.In(x) != [] && Starts(r.At(x), r.At(!x), r.In(x)[0])
    ensures Inv(AfterStart(r, x))
  {
    var s, p, toS, toP := r.At(x), r.At(!x), r.In(x), r.In(!x);
    InvAt(r, x);
    StartKeeps(s, p, toS, toP);
    StarterFindsNoOwner(s, p, toS, toP);
    var s' := Started(s.(got := s.got || toS[0] == Propose));
    InvFrom(AfterStart(r, x), x, s', p, toS[1..], toP + [Switch(s.PhaseLang(1))]);
  }

  lemma QuietKeepsInv(r: Room, x: bool)
    requires Inv(r) && !r.At(x).left && !r.At(x).gone && r.In(x) != [] && !r.In(x)[0].End?
    requires !Starts(r.At(x), r.At(!x), r.In(x)[0])
    ensures Inv(r.Pop(x).Put(x, Seen(r.At(x), r.In(x)[0])))
  {
    var s, p, toS, toP := r.At(x), r.At(!x), r.In(x), r.In(!x);
    InvAt(r, x);
    SeenKeeps(s, p, toS, toP);
    if toS[0].Switch? {
      SwitchIsOwners(s, p, toS, toP);
    }
    InvFrom(r.Pop(x).Put(x, Seen(s, toS[0])), x, Seen(s, toS[0]), p, toS[1..], toP);
  }

  lemma SentKeepsInv(r: Room, x: bool, s: Side, m: Msg)
    requires Inv(r) && Both(s, r.At(!x), r.In(x), r.In(!x) + [m])
    requires s.active == r.At(x).active && (s.active || s.lang == r.At(x).lang)
    ensures Inv(r.Put(x, s).Send(x, m))
  {
    InvAt(r, x);
    InvFrom(r.Put(x, s).Send(x, m), x, s, r.At(!x), r.In(x), r.In(!x) + [m]);
  }

  lemma ClientKeepsInv(r: Room, a: Action)
    requires Inv(r) && Harmless(r, a) && (a.ClientPropose? || a.ClientAccept?) && Sends(r.At(a.x))
    ensures Inv(Step(r, a))
  {
    var s, p, toS, toP := r.At(a.x), r.At(!a.x), r.In(a.x), r.In(!a.x);
    InvAt(r, a.x);
    if a.ClientPropose? {
      ProposeKeeps(s, p, toS, toP);
      SentKeepsInv(r, a.x, s.(proposed := true), Propose);
    } else {
      AcceptKeeps(s, p, toS, toP);
      SentKeepsInv(r, a.x, s.(accepted := true, pending := false, waiting := true), Accept);
    }
  }

  lemma LeaveKeepsInv(r: Room, x: bool)
    requires Inv(r) && !r.At(x).left
    ensures Inv(Step(r, Leave(x)))
  {
    InvAt(r, x);
    LeaveKeeps(r.At(x), r.At(!x), r.In(x), r.In(!x));
    SentKeepsInv(r, x, r.At(x).(left := true), Left);
  }

  lemma TimerKeepsInv(r: Room, x: bool)
    requires Inv(r) && !Step(r, TimerFires(x)).over && !r.At(x).left && r.At(x).timer
    ensures Inv(Step(r, TimerFires(x)))
  {
    var s, p, toS, toP := r.At(x), r.At(!x), r.In(x), r.In(!x);
    InvAt(r, x);
    if s.active && !s.gone {
      PhaseKeeps(s, p, toS, toP);
      SentKeepsInv(r, x, InPhase(s, 2), Switch(s.PhaseLang(2)));
      assert Step(r, TimerFires(x)) == r.Put(x, InPhase(s, 2)).Send(x, Switch(s.PhaseLang(2)));
    } else {
      InvFrom(r.Put(x, s.(timer := false)), x, s.(timer := false), p, toS, toP);
    }
  }

  lemma StepKeepsInv(r: Room, a: Action)
    requires Inv(r) && !Step(r, a).over && Harmless(r, a)
    ensures Inv(Step(r, a))
  {
    if a.Receive? {
      if !r.At(a.x).left && r.In(a.x) != [] {
        InvAt(r, a.x);
        ReceiveReads(r, a.x);
        if Starts(r.At(a.x), r.At(!a.x), r.In(a.x)[0]) {
          StartKeepsInv(r, a.x);
        } else {
          QuietKeepsInv(r, a.x);
        }
      }
    } else if a.Leave? && !r.At(a.x).left {
      LeaveKeepsInv(r, a.x);
    } else if a.TimerFires? && !r.At(a.x).left && r.At(a.x).timer {
      TimerKeepsInv(r, a.x);
    } else if (a.ClientPropose? || a.ClientAccept?) && Sends(r.At(a.x)) {
      ClientKeepsInv(r, a);
    } else {
      assert Step(r, a) == r;
    }
  }

  lemma OverStays(r: Room, a: Action)
    ensures r.over ==> Step(r, a).over
  {
  }

  lemma CarefulPrefix(r: Room, run: seq<Action>, n: nat)
    requires Careful(r, run) && n < |run|
    ensures Careful(r, run[..n]) && Harmless(Run(r, run[..n]), run[n])
  {
    assert forall i: nat :: i < n ==> run[..n][i] == run[i] && run[..n][..i] == run[..i];
  }

  lemma {:induction false} RunKeepsInv(r: Room, run: seq<Action>)
    requires Start(r) && Careful(r, run) && !Run(r, run).over
    ensures Inv(Run(r, run))
  {
    if run != [] {
      var n := |run| - 1;
      CarefulPrefix(r, run, n);
      OverStays(Run(r, run[..n]), run[n]);
      RunKeepsInv(r, run[..n]);
      StepKeepsInv(Run(r, run[..n]), run[n]);
    } else {
    }
  }

  // ---------------------------------------------------------------- results up to the first end

  /**
   If the smaller side accepts only what it was prompted for, at most one side ever runs startTandem in any
   interleaving, whatever the larger side accepts.
   */
  lemma AtMostOneOwner(r: Room, run: seq<Action>)
    requires Start(r) && Careful(r, run) && !Run(r, run).over
    ensures |Run(r, run).starts| <= 1
    ensures !(Run(r, run).t.active && Run(r, run).f.active)
    ensures forall x :: x in Run(r, run).starts ==> Run(r, run).At(x).active
  {
    RunKeepsInv(r, run);
    var w := Run(r, run);
  }

  /** Once the channels are empty both sides hold the same phase language: the owner's. */
  lemma PhaseLanguageAgrees(r: Room, run: seq<Action>)
    requires Start(r) && Careful(r, run) && !Run(r, run).over
    requires Run(r, run).toT == [] && Run(r, run).toF == []
    ensures var w := Run(r, run);
            && w.t.lang == w.f.lang
            && (w.starts == [] ==> w.t.lang == "")
            && (forall x :: x in w.starts ==> w.t.lang == w.At(x).PhaseLang(w.At(x).phase))
  {
    RunKeepsInv(r, run);
    var w := Run(r, run);
  }

  // ---------------------------------------------------------------- exactly which accepts endanger it

  lemma {:induction false} RunConcat(r: Room, run: seq<Action>, more: seq<Action>)
    ensures Run(r, run + more) == Run(Run(r, run), more)
  {
    if more == [] {
      assert run + more == run;
    } else {
      var n := |more| - 1;
      assert (run + more)[..|run| + n] == run + more[..n];
      RunConcat(r, run, more[..n]);
    }
  }

  lemma CarefulConcat(r: Room, run: seq<Action>, more: seq<Action>)
    requires Careful(r, run) && Careful(Run(r, run), more)
    ensures Careful(r, run + more)
  {
    var all := run + more;
    forall i: nat | i < |all|
      ensures Harmless(Run(r, all[..i]), all[i])
    {
      if i < |run| {
        assert all[..i] == run[..i] && all[i] == run[i];
      } else {
        assert all[..i] == run + more[..i - |run|] && all[i] == more[i - |run|];
        RunConcat(r, run, more[..i - |run|]);
        assert Harmless(Run(Run(r, run), more[..i - |run|]), more[i - |run|]);
      }
    }
  }

  /** Some continuation, itself careful and without an end, makes both sides owners. */
  ghost predicate CanDouble(w: Room) {
    exists more :: Careful(w, more) && Doubles(Run(w, more))
  }

  ghost predicate Doubles(w: Room) { !w.over && w.t.active && w.f.active }

  lemma CanDoubleBefore(w: Room, a: Action)
    requires CanDouble(Step(w, a)) && !a.ClientAccept?
    ensures CanDouble(w)
  {
    var more :| Careful(Step(w, a), more) && Doubles(Run(Step(w, a), more));
    assert [a][..0] == [] && Run(w, [a]) == Step(w, a);
    RunConcat(w, [a], more);
    CarefulConcat(w, [a], more);
  }

  lemma DoublesCanDouble(w: Room)
    requires Doubles(w)
    ensures CanDouble(w)
  {
    assert Run(w, []) == w && Careful(w, []);
  }

  /** The accept of `x` is alone in its channel, and nobody has started. */
  ghost predicate UnderWay(w: Room, x: bool) {
    var s, p, q := w.At(x), w.At(!x), w.In(x);
    && w.In(!x) == [Accept] && s.id < p.id && !w.over
    && Sends(s) && !s.got && !p.active && !p.gone && !p.left
    && (forall i :: 0 <= i < |q| ==> q[i] == Accept || q[i] == Propose)
    && (p.proposed ==> q != [])
  }

  lemma UnpromptedAcceptUnderWay(w: Room, x: bool)
    requires Inv(w) && !w.over && x == Smaller(w) && !Harmless(w, ClientAccept(x))
    ensures UnderWay(Step(w, ClientAccept(x)), x)
  {
    InvAt(w, x);
    NoneCounted(w.In(x), Propose);
  }

  /** Both sides propose. */
  lemma BothPropose(w: Room, x: bool)
    requires UnderWay(w, x)
    ensures var w' := Step(Step(w, ClientPropose(!x)), ClientPropose(x));
            && w'.At(x) == w.At(x).(proposed := true) && w'.At(!x) == w.At(!x).(proposed := true) && !w'.over
            && w'.In(!x) == [Accept, Propose]
            && w'.In(x) != [] && (w'.In(x)[0] == Accept || w'.In(x)[0] == Propose)
  {
  }

  /** Each reads what makes it start. */
  lemma BothStart(w: Room, x: bool)
    requires w.At(x).id < w.At(!x).id && !w.over && w.At(x).proposed && w.At(!x).proposed
    requires !w.At(x).left && !w.At(x).gone && !w.At(!x).left && !w.At(!x).gone && !w.At(x).active && !w.At(!x).active
    requires w.In(!x) == [Accept, Propose] && w.In(x) != [] && (w.In(x)[0] == Accept || w.In(x)[0] == Propose)
    ensures Doubles(Step(Step(w, Receive(!x)), Receive(x)))
  {
    ReceiveReads(w, !x);
    var w' := AfterStart(w, !x);
    assert w'.At(x) == w.At(x) && w'.In(x)[0] == w.In(x)[0] && w'.At(!x).active && w'.At(!x).id == w.At(!x).id;
    ReceiveReads(w', x);
  }

  /** Both owners, from an unprompted accept of the smaller side `x`. */
  lemma UnpromptedAcceptDoubles(w: Room, x: bool)
    requires Inv(w) && !w.over && x == Smaller(w) && !Harmless(w, ClientAccept(x))
    ensures CanDouble(Step(w, ClientAccept(x)))
  {
    UnpromptedAcceptUnderWay(w, x);
    var w1 := Step(w, ClientAccept(x));
    BothPropose(w1, x);
    BothStart(Step(Step(w1, ClientPropose(!x)), ClientPropose(x)), x);
    var w3 := Step(Step(w1, ClientPropose(!x)), ClientPropose(x));
    DoublesCanDouble(Step(Step(w3, Receive(!x)), Receive(x)));
    CanDoubleBefore(Step(w3, Receive(!x)), Receive(x));
    CanDoubleBefore(w3, Receive(!x));
    CanDoubleBefore(Step(w1, ClientPropose(!x)), ClientPropose(x));
    CanDoubleBefore(w1, ClientPropose(!x));
  }

  /**
   Up to the first end the guard is exact: from any room a careful run can reach, an action makes two owners
   possible iff it is an accept that the smaller side was never prompted for, that goes out, and whose
   receiver is still there.
   */
  lemma OwnerAtRiskIff(r: Room, run: seq<Action>, a: Action)
    requires Start(r) && Careful(r, run) && !Run(r, run).over
    ensures CanDouble(Step(Run(r, run), a)) <==> !Harmless(Run(r, run), a)
  {
    var w := Run(r, run);
    RunKeepsInv(r, run);
    if Harmless(w, a) {
      forall more | Careful(Step(w, a), more)
        ensures !Doubles(Run(Step(w, a), more))
      {
        assert [a][..0] == [] && Run(w, [a]) == Step(w, a) && Careful(w, [a]);
        CarefulConcat(r, run, [a]);
        RunConcat(r, run, [a]);
        CarefulConcat(r, run + [a], more);
        RunConcat(r, run + [a], more);
        if !Run(r, run + [a] + more).over {
          AtMostOneOwner(r, run + [a] + more);
        }
      }
    } else {
      UnpromptedAcceptDoubles(w, a.x);
    }
  }

  // ---------------------------------------------------------------- when both clients are disciplined

  lemma DisciplinedIsCareful(r: Room, run: seq<Action>)
    requires Disciplined(r, run)
    ensures Careful(r, run)
  {
    forall i: nat | i < |run|
      ensures Harmless(Run(r, run[..i]), run[i])
    {
    }
  }

  /** An accept of `s` was asked for, and is under way or has started a session. */
  ghost predicate Answered(s: Side, p: Side, toP: seq<Msg>) {
    s.accepted ==> s.prompted && (Accept in toP || p.active)
  }

  ghost predicate AllAnswered(r: Room) { Answered(r.t, r.f, r.toF) && Answered(r.f, r.t, r.toT) }

  lemma AnsweredAt(r: Room, x: bool, s: Side, p: Side, toS: seq<Msg>, toP: seq<Msg>)
    requires Is(r, x, s, p, toS, toP)
    ensures AllAnswered(r) <==> Answered(s, p, toP) && Answered(p, s, toS)
  {
  }

  lemma SeenAnswered(s: Side, p: Side, toS: seq<Msg>, toP: seq<Msg>)
    requires Both(s, p, toS, toP) && toS != [] && !toS[0].End? && Answered(s, p, toP) && Answered(p, s, toS)
    requires !Starts(s, p, toS[0])
    ensures Answered(Seen(s, toS[0]), p, toP) && Answered(p, Seen(s, toS[0]), toS[1..])
  {
    PopKeepsCounts(toS);
  }

  lemma ReadKeepsAnswered(r: Room, x: bool)
    requires Inv(r) && !r.At(x).left && r.In(x) != [] && !r.In(x)[0].End? && AllAnswered(r)
    ensures AllAnswered(Step(r, Receive(x)))
  {
    var s, p, toS, toP := r.At(x), r.At(!x), r.In(x), r.In(!x);
    InvAt(r, x);
    AnsweredAt(r, x, s, p, toS, toP);
    ReceiveReads(r, x);
    if Starts(s, p, toS[0]) {
      var s' := Started(s.(got := s.got || toS[0] == Propose));
      AnsweredAt(AfterStart(r, x), x, s', p, toS[1..], toP + [Switch(s.PhaseLang(1))]);
    } else {
      SeenAnswered(s, p, toS, toP);
      AnsweredAt(r.Pop(x).Put(x, Seen(s, toS[0])), x, Seen(s, toS[0]), p, toS[1..], toP);
    }
  }

  lemma StepKeepsAnswered(r: Room, a: Action)
    requires Inv(r) && !Step(r, a).over && AllAnswered(r)
    requires a.ClientAccept? ==> r.At(a.x).prompted
    ensures AllAnswered(Step(r, a))
  {
    InvAt(r, a.x);
    if a.Receive? && !r.At(a.x).left && r.In(a.x) != [] {
      ReadKeepsAnswered(r, a.x);
    }
  }

  lemma {:induction false} RunKeepsAnswered(r: Room, run: seq<Action>)
    requires Start(r) && Disciplined(r, run) && !Run(r, run).over
    ensures Inv(Run(r, run)) && AllAnswered(Run(r, run))
  {
    DisciplinedIsCareful(r, run);
    RunKeepsInv(r, run);
    if run != [] {
      var n := |run| - 1;
      var w := Run(r, run[..n]);
      DisciplinedPrefix(r, run, n);
      OverStays(w, run[n]);
      RunKeepsAnswered(r, run[..n]);
      StepKeepsAnswered(w, run[n]);
    }
  }

  lemma DisciplinedPrefix(r: Room, run: seq<Action>, n: nat)
    requires Disciplined(r, run) && n < |run|
    ensures Disciplined(r, run[..n]) && (run[n].ClientAccept? ==> Run(r, run[..n]).At(run[n].x).prompted)
  {
    assert forall i: nat :: i < n ==> run[..n][i] == run[i] && run[..n][..i] == run[..i];
  }

  /**
   When the channels are empty there is exactly one owner iff one side accepted, or both proposed and
   the side with the smaller ID had not been prompted, that is, had proposed before it read the peer's
   proposal.  In all other cases there is none.
   */
  lemma OwnerIffAgreed(r: Room, run: seq<Action>)
    requires Start(r) && Disciplined(r, run) && !Run(r, run).over
    requires Run(r, run).toT == [] && Run(r, run).toF == []
    ensures var w := Run(r, run);
            |w.starts| == 1 <==>
              w.t.accepted || w.f.accepted || (w.t.proposed && w.f.proposed && !w.At(Smaller(w)).prompted)
  {
    RunKeepsAnswered(r, run);
    var w := Run(r, run);
  }

  /**
   Proposals that crossed, each side proposing before it read the other's, end with the smaller ID as the one
   owner.
   */
  lemma CrossedProposalsHaveOneOwner(r: Room, run: seq<Action>)
    requires Start(r) && Disciplined(r, run) && !Run(r, run).over
    requires Run(r, run).toT == [] && Run(r, run).toF == []
    requires var w := Run(r, run); w.t.proposed && w.f.proposed && !w.t.prompted && !w.f.prompted
    ensures Run(r, run).starts == [Smaller(Run(r, run))]
  {
    RunKeepsAnswered(r, run);
    var w := Run(r, run);
  }

  /** Two proposals without an owner stay so: short of leaving, nothing either side does changes anything. */
  lemma StalemateIsForever(r: Room, run: seq<Action>, a: Action)
    requires Start(r) && Disciplined(r, run) && !Run(r, run).over
    requires Run(r, run).toT == [] && Run(r, run).toF == []
    requires Run(r, run).t.proposed && Run(r, run).f.proposed && Run(r, run).starts == []
    requires !a.Leave?
    ensures Step(Run(r, run), a) == Run(r, run)
  {
    RunKeepsAnswered(r, run);
    var w := Run(r, run);
  }
}
