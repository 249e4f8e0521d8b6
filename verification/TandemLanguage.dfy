/** The phase language over whole chats: what both sides hold once the channels are empty. */
module TandemLanguage {
  import opened Tandem
  import opened TandemAlways
  import opened TandemInTime

  lemma {:induction false} NoPhaseKeepsLang(lang: string, q: seq<Msg>)
    requires NoPhase(q)
    ensures LangAfter(lang, q) == lang
    decreases |q|
  {
    if q != [] {
      assert !q[0].Switch? && !q[0].End?;
      NoPhaseKeepsLang(lang, q[1..]);
    }
  }

  /** An owner holds the language of its phase. */
  predicate InOwnPhase(s: Side) { s.active ==> 1 <= s.phase <= 2 && s.lang == s.PhaseLang(s.phase) }

  /** `s` once it has read `m` without starting. */
  function Read(s: Side, m: Msg): Side { if m.End? then Ended(s) else Seen(s, m) }

  /** Both sides will hold one language when they have read their channels, and none if nobody owns a session. */
  ghost predicate OneTongue(s: Side, p: Side, toS: seq<Msg>, toP: seq<Msg>) {
    && LangAfter(s.lang, toS) == LangAfter(p.lang, toP)
    && InOwnPhase(s) && InOwnPhase(p)
    && (!s.active && !p.active ==> LangAfter(s.lang, toS) == "")
  }

  /** Nothing about phases is under way to an owner, to a side about to become one, or to one left alone. */
  ghost predicate Unspoken(s: Side, p: Side, toS: seq<Msg>) {
    && (s.active || s.gone ==> NoPhase(toS))
    && (s.active ==> !p.active)
    && (!s.gone && !s.left && toS != [] && Starts(s, p, toS[0]) ==> NoPhase(toS) && !p.active)
  }

  ghost predicate Steady(r: Room) { Unspoken(r.t, r.f, r.toT) && Unspoken(r.f, r.t, r.toF) }

  ghost predicate Agreed(r: Room) { OneTongue(r.t, r.f, r.toT, r.toF) }

  lemma AgreedFrom(r: Room, x: bool, s: Side, p: Side, toS: seq<Msg>, toP: seq<Msg>)
    requires Is(r, x, s, p, toS, toP) && OneTongue(s, p, toS, toP)
    ensures Agreed(r)
  {
  }

  lemma AgreedFor(r: Room, x: bool)
    requires Agreed(r) && Steady(r)
    ensures OneTongue(r.At(x), r.At(!x), r.In(x), r.In(!x)) && Unspoken(r.At(x), r.At(!x), r.In(x))
  {
  }

  // ---------------------------------------------------------------- side `s` acts

  lemma SendsTongue(s: Side, s': Side, p: Side, toS: seq<Msg>, toP: seq<Msg>, m: Msg)
    requires OneTongue(s, p, toS, toP) && !m.Switch? && !m.End?
    requires s'.lang == s.lang && s'.active == s.active && InOwnPhase(s')
    ensures OneTongue(s', p, toS, toP + [m])
  {
    LangAfterAppend(p.lang, toP, m);
  }

  lemma PhaseTongue(s: Side, p: Side, toS: seq<Msg>, toP: seq<Msg>, n: nat)
    requires OneTongue(s, p, toS, toP) && s.active && NoPhase(toS) && 1 <= n <= 2
    ensures OneTongue(InPhase(s, n), p, toS, toP + [Switch(s.PhaseLang(n))])
  {
    LangAfterAppend(p.lang, toP, Switch(s.PhaseLang(n)));
    NoPhaseKeepsLang(s.PhaseLang(n), toS);
  }

  lemma EndTongue(s: Side, p: Side, toS: seq<Msg>, toP: seq<Msg>)
    requires OneTongue(s, p, toS, toP) && s.active && NoPhase(toS) && !p.active
    ensures OneTongue(Ended(s), p, toS, toP + [End])
  {
    LangAfterAppend(p.lang, toP, End);
    NoPhaseKeepsLang("", toS);
  }

  lemma StartTongue(s: Side, p: Side, toS: seq<Msg>, toP: seq<Msg>)
    requires OneTongue(s, p, toS, toP) && toS != [] && NoPhase(toS)
    ensures var s' := Started(s.(got := s.got || toS[0] == Propose));
            OneTongue(s', p, toS[1..], toP + [Switch(s.PhaseLang(1))])
  {
    LangAfterAppend(p.lang, toP, Switch(s.PhaseLang(1)));
    NoPhaseKeepsLang(s.PhaseLang(1), toS[1..]);
  }

  lemma ReadFlags(s: Side, m: Msg)
    ensures Read(s, m).lang == Heard(s.lang, m) && (Read(s, m).active <==> s.active && !m.End?)
    ensures s.active && InOwnPhase(s) && !m.Switch? ==> InOwnPhase(Read(s, m))
    ensures Read(s, m).left == s.left && Read(s, m).gone == (s.gone || m.Left?)
  {
    match m
    case Propose =>
    case Accept =>
    case Switch(_) =>
    case End =>
    case Left =>
  }

  lemma ReadTongue(s: Side, p: Side, toS: seq<Msg>, toP: seq<Msg>)
    requires OneTongue(s, p, toS, toP) && toS != [] && (s.active ==> NoPhase(toS))
    ensures OneTongue(Read(s, toS[0]), p, toS[1..], toP)
  {
    ReadFlags(s, toS[0]);
  }

  // ---------------------------------------------------------------- every step

  lemma TimerAgrees(r: Room, x: bool)
    requires Agreed(r) && Steady(r) && !r.At(x).left && r.At(x).timer
    ensures Agreed(Step(r, TimerFires(x)))
  {
    var r', s, p, toS, toP := Step(r, TimerFires(x)), r.At(x), r.At(!x), r.In(x), r.In(!x);
    AgreedFor(r, x);
    if !s.active || s.gone {
      AgreedFrom(r', x, s.(timer := false), p, toS, toP);
    } else {
      TimerMoves(r, x);
      if s.phase == 1 {
        PhaseTongue(s, p, toS, toP, 2);
        AgreedFrom(r', x, InPhase(s, 2), p, toS, toP + [Switch(s.PhaseLang(2))]);
      } else {
        EndTongue(s, p, toS, toP);
        AgreedFrom(r', x, Ended(s), p, toS, toP + [End]);
      }
    }
  }

  lemma ReceiveAgrees(r: Room, x: bool)
    requires Agreed(r) && Steady(r) && !r.At(x).left && r.In(x) != []
    ensures Agreed(Step(r, Receive(x)))
  {
    var r', s, p, toS, toP := Step(r, Receive(x)), r.At(x), r.At(!x), r.In(x), r.In(!x);
    AgreedFor(r, x);
    if s.gone {
      NoPhaseKeepsLang(s.lang, toS);
      NoPhaseKeepsLang(s.lang, toS[1..]);
      AgreedFrom(r', x, s, p, toS[1..], toP);
    } else if Starts(s, p, toS[0]) {
      StartIs(r, x);
      StartTongue(s, p, toS, toP);
      AgreedFrom(r', x, Started(s.(got := s.got || toS[0] == Propose)), p, toS[1..],
                 toP + [Switch(s.PhaseLang(1))]);
    } else {
      ReadIs(r, x);
      ReadTongue(s, p, toS, toP);
      AgreedFrom(r', x, Read(s, toS[0]), p, toS[1..], toP);
    }
  }

  lemma SendAgrees(r: Room, a: Action)
    requires Agreed(r) && Steady(r) && !r.At(a.x).left
    requires a.Leave? || ((a.ClientPropose? || a.ClientAccept?) && Sends(r.At(a.x)))
    ensures Agreed(Step(r, a))
  {
    var r', s, p, toS, toP := Step(r, a), r.At(a.x), r.At(!a.x), r.In(a.x), r.In(!a.x);
    AgreedFor(r, a.x);
    var m := match a case Leave(_) => Left case ClientPropose(_) => Propose case _ => Accept;
    SendsTongue(s, r'.At(a.x), p, toS, toP, m);
    AgreedFrom(r', a.x, r'.At(a.x), p, toS, toP + [m]);
  }

  lemma StepAgrees(r: Room, a: Action)
    requires Agreed(r) && Steady(r)
    ensures Agreed(Step(r, a))
  {
    var s := r.At(a.x);
    if !s.left && (a.Leave? || ((a.ClientPropose? || a.ClientAccept?) && Sends(s))) {
      SendAgrees(r, a);
    } else if a.TimerFires? && !s.left && s.timer {
      TimerAgrees(r, a.x);
    } else if a.Receive? && !s.left && r.In(a.x) != [] {
      ReceiveAgrees(r, a.x);
    } else {
      assert Step(r, a) == r;
    }
  }

  // ---------------------------------------------------------------- whatever the delays

  lemma CleanNoPhase(q: seq<Msg>)
    requires (EndsWithLeft(q) || Left !in q) && (Clean(q) == [] || Clean(q) == [Propose] || Clean(q) == [Accept])
    ensures NoPhase(q)
  {
    if EndsWithLeft(q) {
      assert q == Clean(q) + [Left];
    }
  }

  lemma SafeUnspoken(s: Side, p: Side, toS: seq<Msg>, toP: seq<Msg>)
    requires Safe(s, p, toS, toP)
    ensures Unspoken(s, p, toS)
  {
    if s.gone {
      assert toS == [];
    } else if s.active || (toS != [] && Starts(s, p, toS[0])) {
      if toS != [] {
        CleanPop(toS);
      }
      CleanNoPhase(toS);
    }
  }

  lemma {:induction false} RunAgrees(r: Room, run: seq<Action>)
    requires Start(r) && Kept(r, run, ALL_RULES)
    ensures Agreed(Run(r, run))
  {
    if run != [] {
      var n := |run| - 1;
      PrudentPrefix(r, run, n);
      RunAgrees(r, run[..n]);
      RunSafe(r, run[..n]);
      var w := Run(r, run[..n]);
      SafeUnspoken(w.t, w.f, w.toT, w.toF);
      SafeAt(w, false);
      SafeUnspoken(w.f, w.t, w.toF, w.toT);
      StepAgrees(w, run[n]);
    }
  }

  /** The language both sides hold: the owner's of its phase, or none. */
  ghost predicate SameLanguage(r: Room) {
    && r.t.lang == r.f.lang
    && (forall x :: r.At(x).active ==> r.t.lang == r.At(x).PhaseLang(r.At(x).phase))
    && (!r.t.active && !r.f.active ==> r.t.lang == "")
  }

  /** In every run of prudent clients both sides hold the owner's phase language, or none, on empty channels. */
  lemma PhaseLanguageAlways(r: Room, run: seq<Action>)
    requires Start(r) && Kept(r, run, ALL_RULES)
    requires Run(r, run).toT == [] && Run(r, run).toF == []
    ensures SameLanguage(Run(r, run))
  {
    RunAgrees(r, run);
  }

  // ---------------------------------------------------------------- in time

  /** A Left is the last thing a side sends, and the last its peer reads. */
  ghost predicate LeftLast(r: Room) { Leaving(r.t, r.f, r.toT) && Leaving(r.f, r.t, r.toF) }

  lemma {:induction false} RunLeavesLast(r: Room, run: seq<Action>)
    requires Start(r)
    ensures LeftLast(Run(r, run))
  {
    if run != [] {
      RunLeavesLast(r, run[..|run| - 1]);
      StepLeavesLast(Run(r, run[..|run| - 1]), run[|run| - 1]);
    }
  }

  lemma LastFrom(r: Room, x: bool, s: Side, p: Side, toS: seq<Msg>, toP: seq<Msg>)
    requires Is(r, x, s, p, toS, toP) && Leaving(s, p, toS) && Leaving(p, s, toP)
    ensures LeftLast(r)
  {
  }

  lemma StepLeavesLast(r: Room, a: Action)
    requires LeftLast(r)
    ensures LeftLast(Step(r, a))
  {
    var r', s, p, toS, toP := Step(r, a), r.At(a.x), r.At(!a.x), r.In(a.x), r.In(!a.x);
    if a.Receive? && !s.left && toS != [] {
      ReadLeavesLast(r, a.x);
    } else {
      Acts(r, a);
      ActLeaves(r, a);
      if r'.In(!a.x) != toP {
        SentLeaves(p, r'.At(a.x), toP, r'.In(!a.x)[|toP|]);
      }
    }
  }

  lemma SentLeaves(p: Side, s': Side, toP: seq<Msg>, m: Msg)
    requires Left !in toP && !p.gone && s'.left == (m == Left)
    ensures Leaving(p, s', toP + [m])
  {
    assert (toP + [m])[..|toP|] == toP;
  }

  lemma LastFor(r: Room, x: bool)
    requires LeftLast(r)
    ensures Leaving(r.At(x), r.At(!x), r.In(x)) && Leaving(r.At(!x), r.At(x), r.In(!x))
  {
  }

  lemma SeenLeaves(s: Side, p: Side, toS: seq<Msg>, toP: seq<Msg>)
    requires Leaving(s, p, toS) && Leaving(p, s, toP) && toS != []
    ensures !s.gone
    ensures Leaving(Read(s, toS[0]), p, toS[1..]) && Leaving(p, Read(s, toS[0]), toP)
  {
    PopKeepsCounts(toS);
    ReadFlags(s, toS[0]);
  }

  lemma StartLeaves(s: Side, p: Side, toS: seq<Msg>, toP: seq<Msg>)
    requires Leaving(s, p, toS) && Leaving(p, s, toP) && toS != [] && !s.left && Starts(s, p, toS[0])
    ensures var s' := Started(s.(got := s.got || toS[0] == Propose));
            Leaving(s', p, toS[1..]) && Leaving(p, s', toP + [Switch(s.PhaseLang(1))])
  {
    PopKeepsCounts(toS);
    assert (toP + [Switch(s.PhaseLang(1))])[..|toP|] == toP;
  }

  lemma ReadLeavesLast(r: Room, x: bool)
    requires LeftLast(r) && !r.At(x).left && r.In(x) != []
    ensures LeftLast(Step(r, Receive(x)))
  {
    var r', s, p, toS, toP := Step(r, Receive(x)), r.At(x), r.At(!x), r.In(x), r.In(!x);
    LastFor(r, x);
    SeenLeaves(s, p, toS, toP);
    if Starts(s, p, toS[0]) {
      StartIs(r, x);
      StartLeaves(s, p, toS, toP);
      var s' := Started(s.(got := s.got || toS[0] == Propose));
      LastFrom(r', x, s', p, toS[1..], toP + [Switch(s.PhaseLang(1))]);
    } else {
      ReadIs(r, x);
      LastFrom(r', x, Read(s, toS[0]), p, toS[1..], toP);
    }
  }

  ghost predicate Grows(q: seq<Msg>, q': seq<Msg>, left: bool) {
    q' == q || (|q'| == |q| + 1 && q' == q + [q'[|q|]] && (q'[|q|] == Left <==> left))
  }

  lemma ActLeaves(r: Room, a: Action)
    requires !a.Receive? || r.At(a.x).left || r.In(a.x) == []
    ensures var r' := Step(r, a);
            && r'.At(a.x).left == (r.At(a.x).left || a.Leave?) && r'.At(a.x).gone == r.At(a.x).gone
            && Grows(r.In(!a.x), r'.In(!a.x), a.Leave?)
            && (r.At(a.x).left ==> r'.In(!a.x) == r.In(!a.x))
            && (a.Leave? && !r.At(a.x).left ==> r'.In(!a.x) != r.In(!a.x))
  {
    if a.TimerFires? && !r.At(a.x).left && r.At(a.x).timer && r.At(a.x).active && !r.At(a.x).gone {
      TimerMoves(r, a.x);
    }
  }

  lemma LoneIsSteady(r: Room, x: bool)
    requires LeftLast(r) && LoneAt(r, x)
    ensures Steady(r)
  {
  }

  lemma SoundIsSteady(w: Watched, rule: Rule)
    requires Sound(w, rule) && LeftLast(w.room)
    ensures Steady(w.room)
  {
    if LoneAt(w.room, true) {
      LoneIsSteady(w.room, true);
    } else if LoneAt(w.room, false) {
      LoneIsSteady(w.room, false);
    }
  }

  lemma {:induction false} TimelyRunAgrees(r: Room, run: seq<Action>, rule: Rule)
    requires Start(r) && Kept(r, run, {Prompted, rule}) && rule != Prompted && Timely(r, run)
    ensures Agreed(Run(r, run))
  {
    if run != [] {
      var n := |run| - 1;
      assert forall i: nat :: i < n ==> run[..n][i] == run[i] && run[..n][..i] == run[..i];
      TimelyRunAgrees(r, run[..n], rule);
      RunSound(r, run[..n], rule);
      WatchesTheRun(r, run[..n]);
      RunLeavesLast(r, run[..n]);
      SoundIsSteady(Watch(r, run[..n]), rule);
      StepAgrees(Run(r, run[..n]), run[n]);
    }
  }

  /** In time the same holds under either rule about proposing. */
  lemma PhaseLanguageInTime(r: Room, run: seq<Action>, rule: Rule)
    requires Start(r) && Kept(r, run, {Prompted, rule}) && rule != Prompted && Timely(r, run)
    requires Run(r, run).toT == [] && Run(r, run).toF == []
    ensures SameLanguage(Run(r, run))
  {
    TimelyRunAgrees(r, run, rule);
  }
}
