/** Runs between any two sessions that end badly: what the guarantees of the other modules cannot do without. */
module TandemRuns {
  import opened Tandem
  import opened TandemAlways
  import opened TandemInTime

  lemma RunSnoc(r: Room, run: seq<Action>, a: Action)
    ensures Run(r, run + [a]) == Step(Run(r, run), a)
    ensures Disciplined(r, run + [a]) <==> Disciplined(r, run) && (a.ClientAccept? ==> Run(r, run).At(a.x).prompted)
  {
    var more := run + [a];
    assert more[..|run|] == run;
    assert forall i: nat :: i < |run| ==> more[i] == run[i] && more[..i] == run[..i];
    if Disciplined(r, more) {
      assert forall i: nat :: i < |run| && run[i].ClientAccept? ==> more[i].ClientAccept?;
      assert more[|run|] == a;
    }
  }

  /** A fresh room of any two sessions, named so that side `true` has the smaller id. */
  ghost predicate Pair(r: Room) { Start(r) && r.t.id < r.f.id }

  /** One more action of a run that ends in `w`. */
  lemma Extend(r: Room, run: seq<Action>, w: Room, a: Action) returns (run': seq<Action>, w': Room)
    requires w == Run(r, run) && Disciplined(r, run) && (a.ClientAccept? ==> w.At(a.x).prompted)
    ensures run' == run + [a] && w' == Step(w, a) && w' == Run(r, run') && Disciplined(r, run')
  {
    run', w' := run + [a], Step(w, a);
    RunSnoc(r, run, a);
  }

  /** The smaller side reads a proposal and answers by proposing: both have proposed and nobody starts. */
  lemma ProposingInAnswerStalls(r: Room) returns (run: seq<Action>)
    requires Pair(r)
    ensures Disciplined(r, run) && !Run(r, run).over
    ensures var w := Run(r, run);
            w.toT == [] && w.toF == [] && w.t.proposed && w.f.proposed && w.starts == []
  {
    var w := r;
    run := [];
    run, w := Extend(r, run, w, ClientPropose(false));
    run, w := Extend(r, run, w, Receive(true));
    run, w := Extend(r, run, w, ClientPropose(true));
    run, w := Extend(r, run, w, Receive(false));
  }

  /** What a run keeps to: the clients' rules, and whether its timers only expire on empty channels. */
  datatype Terms = Terms(rules: set<Rule>, rested: bool)

  ghost predicate Abides(w: Room, a: Action, terms: Terms) {
    (forall rule :: rule in terms.rules ==> Follows(rule, w, a)) && (terms.rested ==> Rested(w, a))
  }

  /** The actions lead from room `w` to room `v` and keep to the terms. */
  ghost predicate Leads(w: Room, run: seq<Action>, terms: Terms, v: Room)
    decreases |run|
  {
    if run == [] then v == w else Abides(w, run[0], terms) && Leads(Step(w, run[0]), run[1..], terms, v)
  }

  lemma {:induction false} LeadsSnoc(r: Room, run: seq<Action>, terms: Terms, w: Room, a: Action)
    requires Leads(r, run, terms, w) && Abides(w, a, terms)
    ensures Leads(r, run + [a], terms, Step(w, a))
    decreases |run|
  {
    if run == [] {
      assert [] + [a] == [a];
    } else {
      assert (run + [a])[1..] == run[1..] + [a];
      LeadsSnoc(Step(r, run[0]), run[1..], terms, w, a);
    }
  }

  lemma {:induction false} FewerRules(r: Room, run: seq<Action>, terms: Terms, fewer: Terms, w: Room)
    requires Leads(r, run, terms, w) && fewer.rules <= terms.rules && (fewer.rested ==> terms.rested)
    ensures Leads(r, run, fewer, w)
    decreases |run|
  {
    if run != [] {
      FewerRules(Step(r, run[0]), run[1..], terms, fewer, w);
    }
  }

  lemma {:induction false} LeadsKeeps(r: Room, run: seq<Action>, terms: Terms, w: Room)
    requires Leads(r, run, terms, w)
    ensures Run(r, run) == w && Kept(r, run, terms.rules) && (terms.rested ==> Drained(r, run))
    decreases |run|
  {
    if run != [] {
      var r', rest := Step(r, run[0]), run[1..];
      LeadsKeeps(r', rest, terms, w);
      forall i: nat | i <= |rest|
        ensures Run(r, run[..i + 1]) == Run(r', rest[..i])
      {
        FirstThenRest(r, run[0], rest[..i]);
        assert run[..i + 1] == [run[0]] + rest[..i];
      }
      assert run[..|rest| + 1] == run && rest[..|rest|] == rest;
      forall i: nat | i < |run|
        ensures Abides(Run(r, run[..i]), run[i], terms)
      {
        if i > 0 {
          assert run[..i] == run[..(i - 1) + 1] && run[i] == rest[i - 1];
        }
      }
    }
  }

  lemma FirstThenRest(r: Room, a: Action, more: seq<Action>)
    ensures Run(r, [a] + more) == Run(Step(r, a), more)
  {
    RunConcat(r, [a], more);
    assert [a][..0] == [] && Run(r, [a]) == Step(r, a);
  }

  /** One more action of a run that keeps to the terms. */
  lemma Follow(r: Room, run: seq<Action>, w: Room, a: Action, terms: Terms) returns (run': seq<Action>, w': Room)
    requires Leads(r, run, terms, w) && Abides(w, a, terms)
    ensures run' == run + [a] && w' == Step(w, a) && Leads(r, run', terms, w')
  {
    run', w' := run + [a], Step(w, a);
    LeadsSnoc(r, run, terms, w, a);
  }

  const NO_TERMS: Terms := Terms({}, false)
  const ANY_DELAY: Terms := Terms(ALL_RULES, false)
  const WITHOUT_UNOWED: Terms := Terms(ALL_RULES - {Unowed}, false)
  const WITHOUT_UNSHOWN: Terms := Terms(ALL_RULES - {Unshown}, false)
  const WITHOUT_PROMPTED: Terms := Terms({Unshown, Unowed}, true)
  const PROMPTED_ALONE: Terms := Terms({Prompted}, true)

  /** The smaller side accepts before any prompt, and later both start: `before` leads to the accept. */
  lemma AcceptsUnprompted(r: Room) returns (before: seq<Action>, w: Room, run: seq<Action>, v: Room)
    requires Pair(r)
    ensures Leads(r, before, NO_TERMS, w) && !Harmless(w, ClientAccept(true))
    ensures Leads(r, run, NO_TERMS, v) && !v.over && v.t.active && v.f.active
    ensures |before| < |run| && run[..|before|] == before && run[|before|] == ClientAccept(true)
  {
    before, w := Follow(r, [], r, ClientPropose(false), NO_TERMS);
    run, v := Follow(r, before, w, ClientAccept(true), NO_TERMS);
    run, v := Follow(r, run, v, ClientPropose(true), NO_TERMS);
    run, v := Follow(r, run, v, Receive(false), NO_TERMS);
    run, v := Follow(r, run, v, Receive(true), NO_TERMS);
  }

  /** Without the smaller side's discipline, an accept sent before any prompt lets both sides start. */
  lemma UnpromptedAcceptMakesTwoOwners(r: Room) returns (run: seq<Action>)
    requires Pair(r)
    ensures !Careful(r, run) && !Run(r, run).over
    ensures Run(r, run).t.active && Run(r, run).f.active
  {
    var before, w, v;
    before, w, run, v := AcceptsUnprompted(r);
    LeadsKeeps(r, before, NO_TERMS, w);
    LeadsKeeps(r, run, NO_TERMS, v);
  }

  // ---------------------------------------------------------------- whatever the delays, all three rules are needed

  /** `s` once it was prompted and accepted. */
  ghost function Accepting(s: Side): Side { s.(prompted := true, accepted := true, got := true) }

  // A session that ends before its follower has seen any of it; every rule is kept.

  lemma OneAccepts(r: Room) returns (run: seq<Action>, w: Room)
    requires Pair(r)
    ensures Leads(r, run, ANY_DELAY, w)
    ensures w == Room(r.t.(proposed := true),
                      Accepting(r.f).(waiting := true),
                      [Accept], [], [], false)
  {
    run, w := [], r;
    run, w := Follow(r, run, w, ClientPropose(true), ANY_DELAY);
    run, w := Follow(r, run, w, Receive(false), ANY_DELAY);
    run, w := Follow(r, run, w, ClientAccept(false), ANY_DELAY);
  }

  lemma OneSessionRuns(r: Room) returns (run: seq<Action>, w: Room)
    requires Pair(r)
    ensures Leads(r, run, ANY_DELAY, w)
    ensures w == Room(InPhase(r.t.(proposed := true, active := true), 2),
                      Accepting(r.f).(waiting := true),
                      [], [Switch(r.t.wants), Switch(r.t.speaks)], [true], false)
  {
    run, w := OneAccepts(r);
    run, w := Follow(r, run, w, Receive(true), ANY_DELAY);
    run, w := Follow(r, run, w, TimerFires(true), ANY_DELAY);
  }

  lemma OneSessionEnds(r: Room) returns (run: seq<Action>, w: Room)
    requires Pair(r)
    ensures Leads(r, run, ANY_DELAY, w)
    ensures w == Room(r.t,
                      Accepting(r.f).(waiting := true),
                      [], [Switch(r.t.wants), Switch(r.t.speaks), End], [true], true)
  {
    run, w := OneSessionRuns(r);
    run, w := Follow(r, run, w, TimerFires(true), ANY_DELAY);
  }

  lemma LateProposalUnderWay(r: Room) returns (run: seq<Action>, w: Room)
    requires Pair(r)
    ensures Leads(r, run, WITHOUT_UNOWED, w)
    ensures w == Room(Accepting(r.t).(proposed := true, waiting := true),
                      Accepting(r.f).(proposed := true, waiting := true),
                      [], [Switch(r.t.wants), Switch(r.t.speaks), End, Accept, Propose], [true], true)
  {
    run, w := OneSessionEnds(r);
    FewerRules(r, run, ANY_DELAY, WITHOUT_UNOWED, w);
    run, w := Follow(r, run, w, ClientPropose(false), WITHOUT_UNOWED);
    run, w := Follow(r, run, w, Receive(true), WITHOUT_UNOWED);
    run, w := Follow(r, run, w, ClientAccept(true), WITHOUT_UNOWED);
    run, w := Follow(r, run, w, ClientPropose(true), WITHOUT_UNOWED);
  }

  lemma BothPhasesHeard(r: Room) returns (run: seq<Action>, w: Room)
    requires Pair(r)
    ensures Leads(r, run, WITHOUT_UNOWED, w)
    ensures w == Room(Accepting(r.t).(proposed := true, waiting := true),
                      Accepting(r.f).(proposed := true, lang := r.t.speaks, shown := true),
                      [], [End, Accept, Propose], [true], true)
  {
    run, w := LateProposalUnderWay(r);
    run, w := Follow(r, run, w, Receive(false), WITHOUT_UNOWED);
    run, w := Follow(r, run, w, Receive(false), WITHOUT_UNOWED);
  }

  lemma BothProposeAgain(r: Room) returns (run: seq<Action>, w: Room)
    requires Pair(r)
    ensures Leads(r, run, WITHOUT_UNOWED, w)
    ensures w == Room(Accepting(r.t).(proposed := true, waiting := true),
                      Accepting(r.f).(proposed := true),
                      [Propose], [Accept, Propose], [true], true)
  {
    run, w := BothPhasesHeard(r);
    run, w := Follow(r, run, w, Receive(false), WITHOUT_UNOWED);
    run, w := Follow(r, run, w, ClientPropose(false), WITHOUT_UNOWED);
  }

  lemma BothStartUnheard(r: Room) returns (run: seq<Action>, w: Room)
    requires Pair(r)
    ensures Leads(r, run, WITHOUT_UNOWED, w) && w.t.active && w.f.active
  {
    run, w := BothProposeAgain(r);
    run, w := Follow(r, run, w, Receive(true), WITHOUT_UNOWED);
    run, w := Follow(r, run, w, Receive(false), WITHOUT_UNOWED);
  }

  /**
   A proposal made while an accept was unanswered makes two owners if its session ends before the follower has
   read anything of it.
   */
  lemma TwoOwnersWithoutUnowed(r: Room) returns (run: seq<Action>)
    requires Pair(r)
    ensures Kept(r, run, ALL_RULES - {Unowed})
    ensures Run(r, run).t.active && Run(r, run).f.active
  {
    var w;
    run, w := BothStartUnheard(r);
    LeadsKeeps(r, run, WITHOUT_UNOWED, w);
  }

  lemma ProposedInSession(r: Room) returns (run: seq<Action>, w: Room)
    requires Pair(r)
    ensures Leads(r, run, WITHOUT_UNSHOWN, w)
    ensures w == Room(Accepting(r.t).(waiting := true),
                      Accepting(r.f).(proposed := true, lang := r.t.wants, shown := true),
                      [], [Switch(r.t.speaks), End, Accept], [true], true)
  {
    run, w := OneSessionEnds(r);
    FewerRules(r, run, ANY_DELAY, WITHOUT_UNSHOWN, w);
    run, w := Follow(r, run, w, Receive(false), WITHOUT_UNSHOWN);
    run, w := Follow(r, run, w, ClientPropose(false), WITHOUT_UNSHOWN);
    run, w := Follow(r, run, w, Receive(true), WITHOUT_UNSHOWN);
    run, w := Follow(r, run, w, ClientAccept(true), WITHOUT_UNSHOWN);
  }

  lemma FirstSessionHeard(r: Room) returns (run: seq<Action>, w: Room)
    requires Pair(r)
    ensures Leads(r, run, WITHOUT_UNSHOWN, w)
    ensures w == Room(Accepting(r.t).(waiting := true), Accepting(r.f), [], [Accept], [true], true)
  {
    run, w := ProposedInSession(r);
    run, w := Follow(r, run, w, Receive(false), WITHOUT_UNSHOWN);
    run, w := Follow(r, run, w, Receive(false), WITHOUT_UNSHOWN);
  }

  lemma SecondSessionStarts(r: Room) returns (run: seq<Action>, w: Room)
    requires Pair(r)
    ensures Leads(r, run, WITHOUT_UNSHOWN, w)
    ensures w == Room(Accepting(r.t).(waiting := true),
                      Accepting(r.f).(proposed := true),
                      [], [Accept, Accept], [true], true)
  {
    run, w := FirstSessionHeard(r);
    run, w := Follow(r, run, w, ClientPropose(false), WITHOUT_UNSHOWN);
    run, w := Follow(r, run, w, Receive(true), WITHOUT_UNSHOWN);
    run, w := Follow(r, run, w, ClientAccept(true), WITHOUT_UNSHOWN);
  }

  lemma SecondSessionRuns(r: Room) returns (run: seq<Action>, w: Room)
    requires Pair(r)
    ensures Leads(r, run, WITHOUT_UNSHOWN, w)
    ensures w == Room(Accepting(r.t).(lang := r.f.wants, shown := true),
                      InPhase(Accepting(r.f).(proposed := true, active := true), 2),
                      [Switch(r.f.speaks)], [Accept], [true, false], true)
  {
    run, w := SecondSessionStarts(r);
    run, w := Follow(r, run, w, Receive(false), WITHOUT_UNSHOWN);
    run, w := Follow(r, run, w, Receive(true), WITHOUT_UNSHOWN);
    run, w := Follow(r, run, w, TimerFires(false), WITHOUT_UNSHOWN);
  }

  lemma SecondSessionEnds(r: Room) returns (run: seq<Action>, w: Room)
    requires Pair(r)
    ensures Leads(r, run, WITHOUT_UNSHOWN, w)
    ensures w == Room(Accepting(r.t).(lang := r.f.speaks, shown := true),
                      Accepting(r.f),
                      [End], [Accept], [true, false], true)
  {
    run, w := SecondSessionRuns(r);
    run, w := Follow(r, run, w, Receive(true), WITHOUT_UNSHOWN);
    run, w := Follow(r, run, w, TimerFires(false), WITHOUT_UNSHOWN);
  }

  lemma BothProposeOnceMore(r: Room) returns (run: seq<Action>, w: Room)
    requires Pair(r)
    ensures Leads(r, run, WITHOUT_UNSHOWN, w)
    ensures w == Room(Accepting(r.t).(proposed := true),
                      Accepting(r.f).(proposed := true),
                      [Propose], [Accept, Propose], [true, false], true)
  {
    run, w := SecondSessionEnds(r);
    run, w := Follow(r, run, w, Receive(true), WITHOUT_UNSHOWN);
    run, w := Follow(r, run, w, ClientPropose(true), WITHOUT_UNSHOWN);
    run, w := Follow(r, run, w, ClientPropose(false), WITHOUT_UNSHOWN);
  }

  lemma BothStartOnceMore(r: Room) returns (run: seq<Action>, w: Room)
    requires Pair(r)
    ensures Leads(r, run, WITHOUT_UNSHOWN, w) && w.t.active && w.f.active
  {
    run, w := BothProposeOnceMore(r);
    run, w := Follow(r, run, w, Receive(true), WITHOUT_UNSHOWN);
    run, w := Follow(r, run, w, Receive(false), WITHOUT_UNSHOWN);
  }

  /** So does proposing while a session is shown, if it ends before the follower has read its second phase. */
  lemma TwoOwnersWithoutUnshown(r: Room) returns (run: seq<Action>)
    requires Pair(r)
    ensures Kept(r, run, ALL_RULES - {Unshown})
    ensures Run(r, run).t.active && Run(r, run).f.active
  {
    var w;
    run, w := BothStartOnceMore(r);
    LeadsKeeps(r, run, WITHOUT_UNSHOWN, w);
  }

  // ---------------------------------------------------------------- two rules that are not enough in time

  // The larger side owns a session that everyone follows, and the smaller side accepts unasked at its end.

  lemma UnaskedSessionRuns(r: Room) returns (run: seq<Action>, w: Room)
    requires Pair(r)
    ensures Leads(r, run, WITHOUT_PROMPTED, w)
    ensures w == Room(Accepting(r.t).(lang := r.f.wants, shown := true),
                      Started(r.f.(proposed := true)),
                      [], [], [false], false)
  {
    run, w := [], r;
    run, w := Follow(r, run, w, ClientPropose(false), WITHOUT_PROMPTED);
    run, w := Follow(r, run, w, ClientAccept(true), WITHOUT_PROMPTED);
    run, w := Follow(r, run, w, Receive(true), WITHOUT_PROMPTED);
    run, w := Follow(r, run, w, Receive(false), WITHOUT_PROMPTED);
    run, w := Follow(r, run, w, Receive(true), WITHOUT_PROMPTED);
  }

  lemma UnaskedSessionEnds(r: Room) returns (run: seq<Action>, w: Room)
    requires Pair(r)
    ensures Leads(r, run, WITHOUT_PROMPTED, w)
    ensures w == Room(Accepting(r.t).(lang := r.f.speaks, shown := true), r.f, [End], [], [false], true)
  {
    run, w := UnaskedSessionRuns(r);
    run, w := Follow(r, run, w, TimerFires(false), WITHOUT_PROMPTED);
    run, w := Follow(r, run, w, Receive(true), WITHOUT_PROMPTED);
    run, w := Follow(r, run, w, TimerFires(false), WITHOUT_PROMPTED);
  }

  lemma AcceptedUnasked(r: Room) returns (run: seq<Action>, w: Room)
    requires Pair(r)
    ensures Leads(r, run, WITHOUT_PROMPTED, w)
    ensures w == Room(Accepting(r.t).(proposed := true), r.f.(proposed := true), [Propose], [Accept, Propose],
                      [false], true)
  {
    run, w := UnaskedSessionEnds(r);
    run, w := Follow(r, run, w, ClientPropose(false), WITHOUT_PROMPTED);
    run, w := Follow(r, run, w, ClientAccept(true), WITHOUT_PROMPTED);
    run, w := Follow(r, run, w, Receive(true), WITHOUT_PROMPTED);
    run, w := Follow(r, run, w, ClientPropose(true), WITHOUT_PROMPTED);
  }

  lemma BothStartUnasked(r: Room) returns (run: seq<Action>, w: Room)
    requires Pair(r)
    ensures Leads(r, run, WITHOUT_PROMPTED, w) && w.t.active && w.f.active
  {
    run, w := AcceptedUnasked(r);
    run, w := Follow(r, run, w, Receive(true), WITHOUT_PROMPTED);
    run, w := Follow(r, run, w, Receive(false), WITHOUT_PROMPTED);
  }

  /** Accepting without a pending prompt makes two owners, even if every timer finds all messages read. */
  lemma TwoOwnersWithoutPrompted(r: Room) returns (run: seq<Action>)
    requires Pair(r)
    ensures Kept(r, run, {Unshown, Unowed}) && Drained(r, run)
    ensures Run(r, run).t.active && Run(r, run).f.active
  {
    var w;
    run, w := BothStartUnasked(r);
    LeadsKeeps(r, run, WITHOUT_PROMPTED, w);
  }

  // The smaller side owns a session that everyone follows; its peer proposes in it and is accepted at its end.

  lemma FollowedSessionRuns(r: Room) returns (run: seq<Action>, w: Room)
    requires Pair(r)
    ensures Leads(r, run, PROMPTED_ALONE, w)
    ensures w == Room(Started(r.t.(proposed := true)),
                      Accepting(r.f).(lang := r.t.wants, shown := true),
                      [], [], [true], false)
  {
    run, w := [], r;
    run, w := Follow(r, run, w, ClientPropose(true), PROMPTED_ALONE);
    run, w := Follow(r, run, w, Receive(false), PROMPTED_ALONE);
    run, w := Follow(r, run, w, ClientAccept(false), PROMPTED_ALONE);
    run, w := Follow(r, run, w, Receive(true), PROMPTED_ALONE);
    run, w := Follow(r, run, w, Receive(false), PROMPTED_ALONE);
  }

  lemma FollowedSessionEnds(r: Room) returns (run: seq<Action>, w: Room)
    requires Pair(r)
    ensures Leads(r, run, PROMPTED_ALONE, w)
    ensures w == Room(r.t, Accepting(r.f).(lang := r.t.speaks, shown := true), [], [End], [true], true)
  {
    run, w := FollowedSessionRuns(r);
    run, w := Follow(r, run, w, TimerFires(true), PROMPTED_ALONE);
    run, w := Follow(r, run, w, Receive(false), PROMPTED_ALONE);
    run, w := Follow(r, run, w, TimerFires(true), PROMPTED_ALONE);
  }

  lemma AcceptedAtTheEnd(r: Room) returns (run: seq<Action>, w: Room)
    requires Pair(r)
    ensures Leads(r, run, PROMPTED_ALONE, w)
    ensures w == Room(Accepting(r.t).(proposed := true, waiting := true),
                      Accepting(r.f).(proposed := true, lang := r.t.speaks, shown := true),
                      [], [End, Accept, Propose], [true], true)
  {
    run, w := FollowedSessionEnds(r);
    run, w := Follow(r, run, w, ClientPropose(false), PROMPTED_ALONE);
    run, w := Follow(r, run, w, Receive(true), PROMPTED_ALONE);
    run, w := Follow(r, run, w, ClientAccept(true), PROMPTED_ALONE);
    run, w := Follow(r, run, w, ClientPropose(true), PROMPTED_ALONE);
  }

  lemma BothStartAtTheEnd(r: Room) returns (run: seq<Action>, w: Room)
    requires Pair(r)
    ensures Leads(r, run, PROMPTED_ALONE, w) && w.t.active && w.f.active
  {
    run, w := AcceptedAtTheEnd(r);
    run, w := Follow(r, run, w, Receive(false), PROMPTED_ALONE);
    run, w := Follow(r, run, w, ClientPropose(false), PROMPTED_ALONE);
    run, w := Follow(r, run, w, Receive(true), PROMPTED_ALONE);
    run, w := Follow(r, run, w, Receive(false), PROMPTED_ALONE);
  }

  /**
   Neither does it do to keep to prompts alone: one side proposes in a session, the other accepts at its end and
   proposes with that accept unanswered.
   */
  lemma TwoOwnersOnPromptsAlone(r: Room) returns (run: seq<Action>)
    requires Pair(r)
    ensures Kept(r, run, {Prompted}) && Drained(r, run)
    ensures Run(r, run).t.active && Run(r, run).f.active
  {
    var w;
    run, w := BothStartAtTheEnd(r);
    LeadsKeeps(r, run, PROMPTED_ALONE, w);
  }
}
