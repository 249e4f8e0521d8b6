/** What restores, messages and readers are answered, on every row that a run can reach. */
module StreakAnswers {
  import opened Common
  import opened StreakRules
  import opened Streaks

  /** The loss a restore is about: the one recorded, else a streak that has expired unrecorded. */
  function Restorable(w: World, day: int): Option<Loss> {
    if w.row.lost.Some? then (if w.losses == [] then None else Some(w.losses[|w.losses| - 1]))
    else if Expired(w.row, day) then Some(Loss(w.row.current, w.row.lastDay.value))
    else None
  }

  /**
   On every reachable row a restore is refused to a stranger, without a loss, for a loss more than three days
   old, and after three restores that month, in that order; otherwise it gives exactly the streak lost and says
   how many restores are left.
   */
  lemma RestoreAnswers(start: int, ops: seq<Op>, calendar: int -> int, member: bool, day: int)
    requires Forward(start, ops) && Monotone(calendar) && Run(start, ops, calendar).today <= day
    ensures var w := Run(start, ops, calendar);
            var loss, used := Restorable(w, day), Times(w.restores, calendar(day));
            Restore(w.row, member, day, calendar(day)).1 ==
            if !member then Refused(NotMember)
            else if loss == None then Refused(NoLoss)
            else if day - loss.value.at > 3 then Refused(WindowExpired)
            else if used >= 3 then Refused(QuotaExhausted)
            else Restored(loss.value.streak, 2 - used)
  {
    RunIsSound(start, ops, calendar);
    LossesAnnouncedOnce(start, ops, calendar);
    AtMostThreeRestoresAMonth(start, ops, calendar);
    assert calendar(Run(start, ops, calendar).today) <= calendar(day);
  }

  /** A refused restore changes nothing that is read; one that succeeds is read at once, and settles the loss. */
  lemma RestoreIsRead(start: int, ops: seq<Op>, calendar: int -> int, member: bool, day: int)
    requires Forward(start, ops) && Run(start, ops, calendar).today <= day
    ensures var r := Run(start, ops, calendar).row;
            var (r', res) := Restore(r, member, day, calendar(day));
            && (res.Refused? ==> ReadStreak(r', day).current == ReadStreak(r, day).current)
            && (res.Restored? ==> ReadStreak(r', day) == View(res.newStreak, false, 0, None))
  {
    RunIsSound(start, ops, calendar);
  }

  /** The loss a reader is shown is the last one recorded, while a restore would still take it. */
  lemma LossIsShown(start: int, ops: seq<Op>, calendar: int -> int, t: int)
    requires Forward(start, ops) && Run(start, ops, calendar).today <= t
    ensures var w := Run(start, ops, calendar); var v := ReadStreak(w.row, t);
            if w.row.lost.Some? && w.losses != [] && t - w.losses[|w.losses| - 1].at <= 3
            then v.lost == w.losses[|w.losses| - 1].streak && v.lostAt == Some(w.losses[|w.losses| - 1].at)
            else v.lost == 0 && v.lostAt == None
  {
    RunIsSound(start, ops, calendar);
    LossesAnnouncedOnce(start, ops, calendar);
  }

  /** At risk is a streak of at least two that ended yesterday; so today's exchange would save it. */
  lemma RiskIsShown(start: int, ops: seq<Op>, calendar: int -> int, t: int)
    requires Forward(start, ops) && Run(start, ops, calendar).restores == []
    requires Run(start, ops, calendar).today <= t
    ensures var w := Run(start, ops, calendar);
            ReadStreak(w.row, t).atRisk <==> t !in Shared(w) && RunLength(Shared(w), t - 1) >= 2
  {
    RunTracks(start, ops, calendar);
  }

  /** A loss is recorded only of a streak that has expired, as it stood, and only then does a row come to hold one. */
  lemma LossesAreReal(w: World, op: Op, calendar: int -> int)
    requires Sound(w) && w.today <= op.day
    ensures var w' := Step(w, op, calendar);
            && (w'.losses != w.losses ==>
                  && Expired(w.row, op.day) && (op.RestoreBy? ==> op.member)
                  && w'.losses == w.losses + [Loss(w.row.current, w.row.lastDay.value)])
            && (w'.losses == w.losses ==> w'.row.lost == w.row.lost || w'.row.lost == None)
  {
    if op.Message? {
      var marked := Mark(w.row, op.fromA, op.day);
      var bumped := if BothOn(marked, op.day) then Bump(marked, op.day) else marked;
      var w' := Step(w, op, calendar);
      assert w'.row == bumped.(milestone := w'.row.milestone);
    }
  }

  // ---------------------------------------------------------------- losses are announced

  /** The last notice is about the last loss. */
  ghost predicate LastIsNoted(w: World) {
    w.losses != [] && w.notices != [] && w.notices[|w.notices| - 1].loss == |w.losses| - 1
  }

  ghost predicate NotedIsLast(w: World) { w.row.lost.Some? && w.row.notified ==> LastIsNoted(w) }

  lemma StepNotes(w: World, op: Op, calendar: int -> int)
    requires Sound(w) && Numbered(w) && NotedIsLast(w) && w.today <= op.day
    ensures NotedIsLast(Step(w, op, calendar))
    ensures op.CronAt? && Step(w, op, calendar).row.lost.Some? ==> LastIsNoted(Step(w, op, calendar))
  {
    match op
    case Message(fromA, day) =>
      var marked := Mark(w.row, fromA, day);
      var bumped := if BothOn(marked, day) then Bump(marked, day) else marked;
      var w' := Step(w, op, calendar);
      assert w'.row == bumped.(milestone := w'.row.milestone) && w'.notices == w.notices;
    case CronAt(_) =>
    case RestoreBy(_, _) =>
  }

  lemma {:induction false} RunNotes(start: int, ops: seq<Op>, calendar: int -> int)
    requires Forward(start, ops)
    ensures NotedIsLast(Run(start, ops, calendar))
  {
    if ops != [] {
      var n := |ops| - 1;
      RunToday(start, ops[..n], calendar);
      RunIsSound(start, ops[..n], calendar);
      LossesAnnouncedOnce(start, ops[..n], calendar);
      RunNotes(start, ops[..n], calendar);
      StepNotes(Run(start, ops[..n], calendar), ops[n], calendar);
    }
  }

  /** After any pass of the cron the loss then recorded has been announced. */
  lemma PassLeavesNoLossUnannounced(start: int, ops: seq<Op>, calendar: int -> int, day: int)
    requires Forward(start, ops) && Run(start, ops, calendar).today <= day
    ensures var w := Step(Run(start, ops, calendar), CronAt(day), calendar); w.row.lost.Some? ==> LastIsNoted(w)
  {
    RunIsSound(start, ops, calendar);
    LossesAnnouncedOnce(start, ops, calendar);
    RunNotes(start, ops, calendar);
    StepNotes(Run(start, ops, calendar), CronAt(day), calendar);
  }

  // ---------------------------------------------------------------- milestones are announced

  /** Announced are exactly the milestones up to the stored one. */
  ghost predicate AnnouncedUpTo(announced: seq<nat>, top: nat) {
    forall m :: m in MILESTONES ==> (m in announced <==> m <= top)
  }

  /** Every milestone that `streak` reaches is at most `top`. */
  ghost predicate Reached(streak: nat, top: nat) { forall m :: m in MILESTONES && m <= streak ==> m <= top }

  ghost predicate AllAnnounced(w: World) {
    && AnnouncedUpTo(w.announced, w.row.milestone) && Reached(w.row.current, w.row.milestone)
    && (w.row.lost.Some? ==> Reached(w.row.lost.value, w.row.milestone))
  }

  lemma CrossingAnnounces(announced: seq<nat>, streak: nat, top: nat, streak': nat)
    requires AnnouncedUpTo(announced, top) && Reached(streak, top) && streak' <= streak + 1
    ensures var m := Crossed(MILESTONES, streak', top);
            var top' := if m > 0 then m else top;
            && AnnouncedUpTo(if m > 0 then announced + [m] else announced, top')
            && Reached(streak', top') && top <= top'
  {
    CrossedIsGreatest(MILESTONES, streak', top);
  }

  lemma MessageMoves(r: Row, fromA: bool, day: int)
    ensures var marked := Mark(r, fromA, day);
            var bumped := if BothOn(marked, day) then Bump(marked, day) else marked;
            && bumped.milestone == r.milestone && bumped.current <= r.current + 1
            && (bumped.lost == r.lost || bumped.lost == Some(r.current))
  {
  }

  lemma MessageAnnounces(w: World, op: Op, calendar: int -> int)
    requires AllAnnounced(w) && op.Message?
    ensures AllAnnounced(Step(w, op, calendar))
  {
    var marked := Mark(w.row, op.fromA, op.day);
    var bumped := if BothOn(marked, op.day) then Bump(marked, op.day) else marked;
    MessageMoves(w.row, op.fromA, op.day);
    CrossingAnnounces(w.announced, w.row.current, w.row.milestone, bumped.current);
    var w' := Step(w, op, calendar);
    assert w'.row == bumped.(milestone := w'.row.milestone) && w'.row.milestone >= w.row.milestone;
  }

  lemma OthersAnnounceNothing(w: World, op: Op, calendar: int -> int)
    requires AllAnnounced(w) && Sound(w) && w.today <= op.day && !op.Message?
    ensures AllAnnounced(Step(w, op, calendar))
  {
  }

  lemma {:induction false} RunAnnounces(start: int, ops: seq<Op>, calendar: int -> int)
    requires Forward(start, ops)
    ensures AllAnnounced(Run(start, ops, calendar))
  {
    if ops != [] {
      var n := |ops| - 1;
      RunToday(start, ops[..n], calendar);
      RunIsSound(start, ops[..n], calendar);
      RunAnnounces(start, ops[..n], calendar);
      var w := Run(start, ops[..n], calendar);
      if ops[n].Message? {
        MessageAnnounces(w, ops[n], calendar);
      } else {
        OthersAnnounceNothing(w, ops[n], calendar);
      }
    }
  }

  /** In every run each milestone that the streak has reached has been announced, once, in its turn. */
  lemma MilestonesAreAnnounced(start: int, ops: seq<Op>, calendar: int -> int, m: nat)
    requires Forward(start, ops) && m in MILESTONES && m <= Run(start, ops, calendar).row.current
    ensures exists i :: 0 <= i < |Run(start, ops, calendar).announced| && Run(start, ops, calendar).announced[i] == m
    ensures forall i, j :: 0 <= i < j < |Run(start, ops, calendar).announced| ==>
              Run(start, ops, calendar).announced[i] < Run(start, ops, calendar).announced[j]
  {
    RunAnnounces(start, ops, calendar);
    MilestonesAscend(start, ops, calendar);
  }
}
