/**
 The two-sided streak of a friendship: one row, rewritten by messages, by the loss cron and by restores.

 `Row` is the stored row and the functions on it are the committed transactions; `StreakRow` runs them
 statement by statement.  `World` adds what really happened, and the results compare the two.
 Days are UTC day numbers and months are numbered by a non-decreasing calendar function.
 */
module Streaks {
  import opened Common
  import opened StreakRules

  const RESTORE_WINDOW := 3
  const RESTORE_QUOTA: nat := 3

  datatype Row = Row(current: nat, lastDay: Option<int>, lastA: Option<int>, lastB: Option<int>, milestone: nat,
                     lost: Option<nat>, lostAt: Option<int>, notified: bool, used: nat, month: Option<int>)

  const NEW_ROW: Row := Row(0, None, None, None, 0, None, None, false, 0, None)

  // ---------------------------------------------------------------- the transactions

  predicate BothOn(r: Row, day: int) { r.lastA == Some(day) && r.lastB == Some(day) }

  function Mark(r: Row, fromA: bool, today: int): Row {
    if fromA then r.(lastA := Some(today)) else r.(lastB := Some(today))
  }

  /** Both wrote today: count the day, or start again and keep the lost streak for a restore. */
  function Bump(r: Row, today: int): Row {
    if r.lastDay == None then r.(current := 1, lastDay := Some(today))
    else
      var gap := today - r.lastDay.value;
      if gap > 1 then
        var kept := if r.current >= 2 then r.(lost := Some(r.current), lostAt := r.lastDay, notified := false) else r;
        kept.(current := 1, lastDay := Some(today))
      else if gap == 1 then r.(current := r.current + 1, lastDay := Some(today))
      else r.(lastDay := Some(today))
  }

  function Update(r: Row, fromA: bool, today: int): (Row, nat) {
    var marked := Mark(r, fromA, today);
    var bumped := if BothOn(marked, today) then Bump(marked, today) else marked;
    var m := Crossed(MILESTONES, bumped.current, bumped.milestone);
    (if m > 0 then bumped.(milestone := m) else bumped, m)
  }

  predicate Expired(r: Row, today: int) {
    r.current >= 2 && r.lastDay.Some? && today - r.lastDay.value > 1
  }

  function Snapshot(r: Row): Row { r.(lost := Some(r.current), lostAt := r.lastDay, current := 0) }

  /** One cron pass over the row: late snapshot, then the loss notice; true if a notice was posted. */
  function Cron(r: Row, today: int): (Row, bool) {
    var r' := if Expired(r, today) && r.lost == None then Snapshot(r) else r;
    if r'.lost.Some? && r'.lost.value >= 2 && !r'.notified then (r'.(notified := true), true) else (r', false)
  }

  datatype Refusal = NotMember | NoLoss | WindowExpired | QuotaExhausted
  datatype Restored = Restored(newStreak: nat, remaining: int) | Refused(why: Refusal)

  function Restore(r: Row, member: bool, today: int, month: int): (Row, Restored) {
    if !member then (r, Refused(NotMember))
    else
      var r' := if (r.lost == None || r.lost.value == 0) && Expired(r, today) then Snapshot(r) else r;
      if r'.lost == None || r'.lost.value < 2 then (r', Refused(NoLoss))
      else if r'.lostAt == None || today - r'.lostAt.value > RESTORE_WINDOW then (r', Refused(WindowExpired))
      else
        var used := if r'.month == Some(month) then r'.used else 0;
        if used >= RESTORE_QUOTA then (r', Refused(QuotaExhausted))
        else (r'.(current := r'.lost.value, lastDay := Some(today), lost := None, lostAt := None, notified := false,
                  used := used + 1, month := Some(month)),
              Restored(r'.lost.value, RESTORE_QUOTA - (used + 1)))
  }

  datatype View = View(current: nat, atRisk: bool, lost: nat, lostAt: Option<int>)

  function ReadStreak(r: Row, today: int): View {
    var inWindow := r.lostAt.Some? && r.lostAt.value >= today - RESTORE_WINDOW;
    View(if r.lastDay.Some? && r.lastDay.value >= today - 1 then r.current else 0,
         r.lastDay == Some(today - 1) && r.current >= 2 && !BothOn(r, today),
         if inWindow && r.lost.Some? then r.lost.value else 0,
         if inWindow then r.lostAt else None)
  }

  /** The row as the transactions write it, one statement after the other. */
  class StreakRow {
    var row: Row

    constructor ()
      ensures row == NEW_ROW
    {
      row := NEW_ROW;
    }

    method UpdateOnMessage(fromA: bool, today: int) returns (newMilestone: nat)
      modifies this
      ensures (row, newMilestone) == Update(old(row), fromA, today)
    {
      if fromA {
        row := row.(lastA := Some(today));
      } else {
        row := row.(lastB := Some(today));
      }
      var newStreak := row.current;
      if row.lastA == Some(today) && row.lastB == Some(today) {
        var gap := -1;
        if row.lastDay.Some? {
          gap := today - row.lastDay.value;
        }
        if row.lastDay == None || gap > 1 {
          if row.current >= 2 && row.lastDay.Some? {
            row := row.(lost := Some(row.current), lostAt := row.lastDay, notified := false);
          }
          newStreak := 1;
        } else if gap == 1 {
          newStreak := row.current + 1;
        }
        row := row.(current := newStreak, lastDay := Some(today));
      }
      newMilestone := 0;
      for i := 0 to |MILESTONES|
        invariant newMilestone == Crossed(MILESTONES[..i], newStreak, row.milestone)
      {
        assert MILESTONES[..i + 1][..i] == MILESTONES[..i];
        if newStreak >= MILESTONES[i] && MILESTONES[i] > row.milestone {
          newMilestone := MILESTONES[i];
        }
      }
      assert MILESTONES[..|MILESTONES|] == MILESTONES;
      if newMilestone > 0 {
        row := row.(milestone := newMilestone);
      }
    }

    method CronPass(today: int) returns (posted: bool)
      modifies this
      ensures (row, posted) == Cron(old(row), today)
    {
      if row.current >= 2 && row.lastDay.Some? && row.lastDay.value < today - 1 && row.lost == None {
        row := row.(lost := Some(row.current), lostAt := row.lastDay, current := 0);
      }
      posted := row.lost.Some? && row.lost.value >= 2 && !row.notified;
      if posted {
        row := row.(notified := true);
      }
    }

    method RestoreStreak(member: bool, today: int, month: int) returns (res: Restored)
      modifies this
      ensures (row, res) == Restore(old(row), member, today, month)
    {
      if !member {
        return Refused(NotMember);
      }
      if (row.lost == None || row.lost.value == 0) && row.current >= 2 && row.lastDay.Some?
          && today - row.lastDay.value > 1 {
        row := row.(lost := Some(row.current), lostAt := row.lastDay, current := 0);
      }
      if row.lost == None || row.lost.value < 2 {
        return Refused(NoLoss);
      }
      if row.lostAt == None || today - row.lostAt.value > RESTORE_WINDOW {
        return Refused(WindowExpired);
      }
      var used := if row.month != Some(month) then 0 else row.used;
      if used >= RESTORE_QUOTA {
        return Refused(QuotaExhausted);
      }
      var restored := row.lost.value;
      row := row.(current := restored, lastDay := Some(today), lost := None, lostAt := None, notified := false,
                  used := used + 1, month := Some(month));
      res := Restored(restored, RESTORE_QUOTA - (used + 1));
    }
  }

  // ---------------------------------------------------------------- runs

  datatype Op = Message(fromA: bool, day: int) | CronAt(day: int) | RestoreBy(member: bool, day: int)

  /** A lost streak and the last day it counted. */
  datatype Loss = Loss(streak: nat, at: int)

  /** A notice of the chat: the streak it names and which loss it is about. */
  datatype Notice = Notice(streak: nat, loss: nat)

  /** The row with what happened: who wrote when, what was announced, restored, lost and posted. */
  datatype World = World(row: Row, today: int, wroteA: set<int>, wroteB: set<int>,
                         announced: seq<nat>, restores: seq<int>, losses: seq<Loss>, notices: seq<Notice>)

  function Begin(day: int): World { World(NEW_ROW, day, {}, {}, [], [], [], []) }

  /** Whether the transaction records a loss: a message of both after a gap, or a late snapshot. */
  predicate Loses(r: Row, op: Op) {
    match op
    case Message(fromA, day) =>
      BothOn(Mark(r, fromA, day), day) && r.lastDay.Some? && day - r.lastDay.value > 1 && r.current >= 2
    case CronAt(day) => Expired(r, day) && r.lost == None
    case RestoreBy(member, day) => member && (r.lost == None || r.lost.value == 0) && Expired(r, day)
  }

  function LossesAfter(w: World, op: Op): seq<Loss> {
    if Loses(w.row, op) && w.row.lastDay.Some? then w.losses + [Loss(w.row.current, w.row.lastDay.value)] else w.losses
  }

  /** A notice is about the loss recorded last: it is the one the row still holds. */
  function Step(w: World, op: Op, calendar: int -> int): World {
    var losses := LossesAfter(w, op);
    match op
    case Message(fromA, day) =>
      var (r, m) := Update(w.row, fromA, day);
      w.(row := r, today := day, losses := losses,
         wroteA := if fromA then w.wroteA + {day} else w.wroteA,
         wroteB := if fromA then w.wroteB else w.wroteB + {day},
         announced := if m > 0 then w.announced + [m] else w.announced)
    case CronAt(day) =>
      var (r, posted) := Cron(w.row, day);
      w.(row := r, today := day, losses := losses,
         notices :=
           if posted && r.lost.Some? && losses != [] then w.notices + [Notice(r.lost.value, |losses| - 1)]
           else w.notices)
    case RestoreBy(member, day) =>
      var (r, res) := Restore(w.row, member, day, calendar(day));
      w.(row := r, today := day, losses := losses,
         restores := if res.Restored? then w.restores + [calendar(day)] else w.restores)
  }

  function Run(start: int, ops: seq<Op>, calendar: int -> int): World {
    if ops == [] then Begin(start) else Step(Run(start, ops[..|ops| - 1], calendar), ops[|ops| - 1], calendar)
  }

  /** Days never go back. */
  ghost predicate Forward(start: int, ops: seq<Op>) {
    && (ops != [] ==> start <= ops[0].day)
    && (forall i :: 0 < i < |ops| ==> ops[i - 1].day <= ops[i].day)
  }

  ghost predicate Monotone(calendar: int -> int) {
    forall a, b :: a <= b ==> calendar(a) <= calendar(b)
  }

  // ---------------------------------------------------------------- the streak is the run of shared days

  function Shared(w: World): set<int> { w.wroteA * w.wroteB }

  ghost predicate LastOf(last: Option<int>, days: set<int>, today: int) {
    && (last == None <==> days == {})
    && (last.Some? ==> last.value in days && last.value <= today && forall d :: d in days ==> d <= last.value)
  }

  /** The stored row while no restore has succeeded. */
  ghost predicate Tracks(w: World) {
    && LastOf(w.row.lastA, w.wroteA, w.today) && LastOf(w.row.lastB, w.wroteB, w.today)
    && LastOf(w.row.lastDay, Shared(w), w.today)
    && (w.row.lastDay == None ==> w.row.current == 0)
    && (w.row.lastDay.Some? ==>
          || w.row.current == RunLength(Shared(w), w.row.lastDay.value)
          || (w.row.current == 0 && w.row.lastDay.value + 1 < w.today))
  }

  lemma MessageTracks(w: World, op: Op, calendar: int -> int)
    requires Tracks(w) && op.Message? && w.today <= op.day
    ensures Tracks(Step(w, op, calendar))
  {
    var w' := Step(w, op, calendar);
    var today, days, days' := op.day, Shared(w), Shared(w');
    var marked := Mark(w.row, op.fromA, today);
    assert LastOf(marked.lastA, w'.wroteA, today) && LastOf(marked.lastB, w'.wroteB, today);
    assert BothOn(marked, today) <==> today in days';
    if today in days' {
      assert days' == days + {today};
      assert days' - {today} == days - {today};
      RunLengthIgnoresLater(days, today, today - 1);
      assert RunLength(days', today) == 1 + RunLength(days, today - 1);
      if w.row.lastDay.Some? && today - w.row.lastDay.value == 0 {
        assert days' == days;
      }
    } else {
      assert days' == days;
    }
  }

  lemma StepTracks(w: World, op: Op, calendar: int -> int)
    requires Tracks(w) && w.today <= op.day
    requires Step(w, op, calendar).restores == w.restores
    ensures Tracks(Step(w, op, calendar))
  {
    if op.Message? {
      MessageTracks(w, op, calendar);
    }
  }

  lemma {:induction false} RunTracks(start: int, ops: seq<Op>, calendar: int -> int)
    requires Forward(start, ops) && Run(start, ops, calendar).restores == []
    ensures Tracks(Run(start, ops, calendar))
  {
    if ops != [] {
      var n := |ops| - 1;
      RunToday(start, ops[..n], calendar);
      RunTracks(start, ops[..n], calendar);
      StepTracks(Run(start, ops[..n], calendar), ops[n], calendar);
    }
  }

  lemma RunToday(start: int, ops: seq<Op>, calendar: int -> int)
    ensures Run(start, ops, calendar).today == if ops == [] then start else ops[|ops| - 1].day
  {
  }

  /**
   Refinement: in any run of messages, cron passes and refused restores, what is read on day t is the
   length of the longest run of consecutive days on which both wrote that ends on t or the day before,
   and 0 if neither is such a day.  The cron's snapshots are invisible.
   */
  lemma ReadIsRunOfSharedDays(start: int, ops: seq<Op>, calendar: int -> int, t: int)
    requires Forward(start, ops) && Run(start, ops, calendar).restores == []
    requires Run(start, ops, calendar).today <= t
    ensures var w := Run(start, ops, calendar);
            ReadStreak(w.row, t).current == RunLength(Shared(w), if t in Shared(w) then t else t - 1)
  {
    RunTracks(start, ops, calendar);
  }

  // ---------------------------------------------------------------- restores never lower

  /** Holds in every run, restores included. */
  ghost predicate Sound(w: World) {
    var r := w.row;
    && (r.lastDay.Some? ==> r.lastDay.value <= w.today)
    && (r.current > 0 ==> r.lastDay.Some?)
    && (r.current == 0 && r.lastDay.Some? ==> r.lastDay.value + 1 < w.today)
    && (r.lost.Some? <==> r.lostAt.Some?)
    && (r.lost.Some? ==> r.lost.value >= 2 && r.lastDay.Some? && r.lostAt.value <= r.lastDay.value)
    // a streak rebuilt after a loss started at least two days after it
    && (r.lost.Some? && r.current > 0 ==> r.current <= r.lastDay.value - r.lostAt.value - 1)
    && (r.lost == None ==> !r.notified)
  }

  lemma MessageIsSound(w: World, op: Op, calendar: int -> int)
    requires Sound(w) && w.today <= op.day && op.Message?
    ensures Sound(Step(w, op, calendar))
  {
    var marked := Mark(w.row, op.fromA, op.day);
    var r := if BothOn(marked, op.day) then Bump(marked, op.day) else marked;
    assert Step(w, op, calendar).row == r.(milestone := Step(w, op, calendar).row.milestone);
  }

  lemma CronIsSound(w: World, op: Op, calendar: int -> int)
    requires Sound(w) && w.today <= op.day && op.CronAt?
    ensures Sound(Step(w, op, calendar))
  {
  }

  lemma RestoreIsSound(w: World, op: Op, calendar: int -> int)
    requires Sound(w) && w.today <= op.day && op.RestoreBy?
    ensures Sound(Step(w, op, calendar))
  {
  }

  lemma StepIsSound(w: World, op: Op, calendar: int -> int)
    requires Sound(w) && w.today <= op.day
    ensures Sound(Step(w, op, calendar))
  {
    match op
    case Message(_, _) => MessageIsSound(w, op, calendar);
    case CronAt(_) => CronIsSound(w, op, calendar);
    case RestoreBy(_, _) => RestoreIsSound(w, op, calendar);
  }

  lemma {:induction false} RunIsSound(start: int, ops: seq<Op>, calendar: int -> int)
    requires Forward(start, ops)
    ensures Sound(Run(start, ops, calendar))
  {
    if ops != [] {
      var n := |ops| - 1;
      RunToday(start, ops[..n], calendar);
      RunIsSound(start, ops[..n], calendar);
      StepIsSound(Run(start, ops[..n], calendar), ops[n], calendar);
    }
  }

  /** On every reachable row a restore that succeeds gives a streak at least as long as the stored one. */
  lemma RestoreNeverLowers(start: int, ops: seq<Op>, calendar: int -> int, member: bool, day: int)
    requires Forward(start, ops) && Run(start, ops, calendar).today <= day
    ensures var r := Run(start, ops, calendar).row;
            var (r', res) := Restore(r, member, day, calendar(day));
            res.Restored? ==>
              && res.newStreak >= r.current && res.newStreak >= 2
              && ReadStreak(r', day).current == res.newStreak
  {
    RunIsSound(start, ops, calendar);
  }

  // ---------------------------------------------------------------- notices

  /** Each notice is about an earlier loss than the next, all of them among the first `bound`, and names its streak. */
  ghost predicate Ordered(notices: seq<Notice>, losses: seq<Loss>, bound: nat) {
    && bound <= |losses|
    && (forall i :: 0 <= i < |notices| ==>
          notices[i].loss < bound && notices[i].streak == losses[notices[i].loss].streak)
    && (forall i, j :: 0 <= i < j < |notices| ==> notices[i].loss < notices[j].loss)
  }

  /** The losses that may have been announced: all, or all but the one the row still has to announce. */
  function Announceable(r: Row, losses: seq<Loss>): nat {
    if r.lost.Some? && !r.notified && losses != [] then |losses| - 1 else |losses|
  }

  /** The row holds the last loss recorded. */
  ghost predicate HoldsLast(r: Row, losses: seq<Loss>) {
    r.lost.Some? && r.lostAt.Some? ==> losses != [] && losses[|losses| - 1] == Loss(r.lost.value, r.lostAt.value)
  }

  ghost predicate Numbered(w: World) {
    HoldsLast(w.row, w.losses) && Ordered(w.notices, w.losses, Announceable(w.row, w.losses))
  }

  lemma OrderedStays(notices: seq<Notice>, losses: seq<Loss>, bound: nat, losses': seq<Loss>, bound': nat)
    requires Ordered(notices, losses, bound) && bound <= bound' <= |losses'| && losses <= losses'
    ensures Ordered(notices, losses', bound')
  {
  }

  lemma OrderedAppend(notices: seq<Notice>, losses: seq<Loss>, streak: nat)
    requires losses != [] && Ordered(notices, losses, |losses| - 1) && losses[|losses| - 1].streak == streak
    ensures Ordered(notices + [Notice(streak, |losses| - 1)], losses, |losses|)
  {
  }

  lemma MessageNumbers(w: World, op: Op, calendar: int -> int)
    requires Sound(w) && Numbered(w) && w.today <= op.day && op.Message?
    ensures Numbered(Step(w, op, calendar))
  {
    var marked := Mark(w.row, op.fromA, op.day);
    var r := if BothOn(marked, op.day) then Bump(marked, op.day) else marked;
    var w' := Step(w, op, calendar);
    assert w'.row == r.(milestone := w'.row.milestone);
    OrderedStays(w.notices, w.losses, Announceable(w.row, w.losses), w'.losses, Announceable(w'.row, w'.losses));
  }

  lemma CronNumbers(w: World, op: Op, calendar: int -> int)
    requires Sound(w) && Numbered(w) && w.today <= op.day && op.CronAt?
    ensures Numbered(Step(w, op, calendar))
  {
    var w' := Step(w, op, calendar);
    var r := if Loses(w.row, op) then Snapshot(w.row) else w.row;
    OrderedStays(w.notices, w.losses, Announceable(w.row, w.losses), w'.losses, Announceable(r, w'.losses));
    if Cron(w.row, op.day).1 {
      OrderedAppend(w.notices, w'.losses, w'.row.lost.value);
    }
  }

  lemma RestoreNumbers(w: World, op: Op, calendar: int -> int)
    requires Sound(w) && Numbered(w) && w.today <= op.day && op.RestoreBy?
    ensures Numbered(Step(w, op, calendar))
  {
    var w' := Step(w, op, calendar);
    OrderedStays(w.notices, w.losses, Announceable(w.row, w.losses), w'.losses, Announceable(w'.row, w'.losses));
  }

  lemma StepNumbers(w: World, op: Op, calendar: int -> int)
    requires Sound(w) && Numbered(w) && w.today <= op.day
    ensures Numbered(Step(w, op, calendar))
  {
    match op
    case Message(_, _) => MessageNumbers(w, op, calendar);
    case CronAt(_) => CronNumbers(w, op, calendar);
    case RestoreBy(_, _) => RestoreNumbers(w, op, calendar);
  }

  /**
   In every run each notice names the streak of a loss of its own, in the order of the losses: none is
   announced twice.
   */
  lemma {:induction false} LossesAnnouncedOnce(start: int, ops: seq<Op>, calendar: int -> int)
    requires Forward(start, ops)
    ensures var w := Run(start, ops, calendar); Numbered(w) && Ordered(w.notices, w.losses, |w.losses|)
  {
    if ops != [] {
      var n := |ops| - 1;
      RunToday(start, ops[..n], calendar);
      RunIsSound(start, ops[..n], calendar);
      LossesAnnouncedOnce(start, ops[..n], calendar);
      StepNumbers(Run(start, ops[..n], calendar), ops[n], calendar);
    }
  }

  // ---------------------------------------------------------------- a loss behind an older one

  /** Whether the quota has a restore left. */
  predicate QuotaLeft(r: Row, month: int) { (if r.month == Some(month) then r.used else 0) < RESTORE_QUOTA }

  /**
   On every reachable row whose streak has expired, with the window open and the quota in order, a restore gives
   that streak back iff no older loss is still recorded; otherwise it is refused as too late.
   */
  lemma ExpiredStreakRestoredIff(start: int, ops: seq<Op>, calendar: int -> int, day: int)
    requires Forward(start, ops) && Run(start, ops, calendar).today <= day
    requires var r := Run(start, ops, calendar).row;
             Expired(r, day) && day - r.lastDay.value <= RESTORE_WINDOW && QuotaLeft(r, calendar(day))
    ensures var r := Run(start, ops, calendar).row; var res := Restore(r, true, day, calendar(day)).1;
            if r.lost == None then res.Restored? && res.newStreak == r.current else res == Refused(WindowExpired)
  {
    RunIsSound(start, ops, calendar);
  }

  /** And the cron posts a notice about it iff no older loss is still recorded. */
  lemma ExpiredStreakAnnouncedIff(start: int, ops: seq<Op>, calendar: int -> int, day: int)
    requires Forward(start, ops) && Run(start, ops, calendar).today <= day
    requires Expired(Run(start, ops, calendar).row, day)
    ensures var r := Run(start, ops, calendar).row; var (r', posted) := Cron(r, day);
            (posted && r'.lostAt == r.lastDay && r'.lost == Some(r.current)) <==> r.lost == None
  {
    RunIsSound(start, ops, calendar);
  }

  /** Both write on `day`, for the first time that day. */
  lemma BothWrite(start: int, ops: seq<Op>, calendar: int -> int, row: Row, day: int) returns (ops': seq<Op>, row': Row)
    requires Forward(start, ops) && Bare(row) == Bare(Run(start, ops, calendar).row)
    requires (if ops == [] then start else ops[|ops| - 1].day) <= day && row.lastA != Some(day)
             && row.lastB != Some(day)
    ensures ops' == ops + [Message(true, day), Message(false, day)] && Forward(start, ops')
    ensures row' == Bare(Bump(row.(lastA := Some(day), lastB := Some(day)), day))
    ensures row' == Bare(Run(start, ops', calendar).row)
  {
    ops' := ops + [Message(true, day), Message(false, day)];
    row' := Bare(Bump(row.(lastA := Some(day), lastB := Some(day)), day));
    BothMessages(start, ops, calendar, day);
    BothUpdate(Run(start, ops, calendar).row, day);
  }

  lemma BothMessages(start: int, ops: seq<Op>, calendar: int -> int, day: int)
    ensures Run(start, ops + [Message(true, day), Message(false, day)], calendar).row
            == Update(Update(Run(start, ops, calendar).row, true, day).0, false, day).0
  {
    var one := ops + [Message(true, day)];
    var two := ops + [Message(true, day), Message(false, day)];
    assert one[..|ops|] == ops && two[..|ops| + 1] == one;
    assert Run(start, one, calendar) == Step(Run(start, ops, calendar), Message(true, day), calendar);
    assert Run(start, two, calendar) == Step(Run(start, one, calendar), Message(false, day), calendar);
  }

  lemma BothUpdate(r: Row, day: int)
    requires r.lastA != Some(day) && r.lastB != Some(day)
    ensures Bare(Update(Update(r, true, day).0, false, day).0)
            == Bare(Bump(Bare(r).(lastA := Some(day), lastB := Some(day)), day))
  {
    var first := Update(r, true, day).0;
    assert first == r.(lastA := Some(day), milestone := first.milestone);
  }

  /** The row but for its milestone. */
  function Bare(r: Row): Row { r.(milestone := 0) }

  /** A streak of two, lost and noted by the cron. */
  lemma NotedLoss(calendar: int -> int) returns (ops: seq<Op>, row: Row)
    ensures Forward(1, ops) && ops != [] && ops[|ops| - 1].day == 4 && forall i :: 0 <= i < |ops| ==> !ops[i].RestoreBy?
    ensures row == Row(0, Some(2), Some(2), Some(2), 0, Some(2), Some(2), true, 0, None)
    ensures row == Bare(Run(1, ops, calendar).row)
  {
    ops, row := BothWrite(1, [], calendar, NEW_ROW, 1);
    ops, row := BothWrite(1, ops, calendar, row, 2);
    var before := ops;
    ops, row := ops + [CronAt(4)], Cron(row, 4).0;
    assert ops[..|before|] == before;
  }

  /**
   Such a row: a streak of two is lost and noted by the cron, then one of three is lost while that is still
   recorded.
   */
  lemma LossBehindOlderOne(calendar: int -> int) returns (ops: seq<Op>)
    ensures Forward(1, ops) && Run(1, ops, calendar).today == 11 && Run(1, ops, calendar).restores == []
    ensures var r := Run(1, ops, calendar).row;
            && r.current == 3 && r.lastDay == Some(11) && Expired(r, 13) && 13 - 11 <= RESTORE_WINDOW
            && Restore(r, true, 13, calendar(13)).1 == Refused(WindowExpired)
            && !Cron(r, 13).1
  {
    var row;
    ops, row := NotedLoss(calendar);
    ops, row := BothWrite(1, ops, calendar, row, 9);
    ops, row := BothWrite(1, ops, calendar, row, 10);
    ops, row := BothWrite(1, ops, calendar, row, 11);
    NoRestores(1, ops, calendar);
    RunToday(1, ops, calendar);
  }

  lemma {:induction false} NoRestores(start: int, ops: seq<Op>, calendar: int -> int)
    requires forall i :: 0 <= i < |ops| ==> !ops[i].RestoreBy?
    ensures Run(start, ops, calendar).restores == []
  {
    if ops != [] {
      NoRestores(start, ops[..|ops| - 1], calendar);
    }
  }

  // ---------------------------------------------------------------- quotas

  function Times(s: seq<int>, m: int): nat {
    if s == [] then 0 else Times(s[..|s| - 1], m) + if s[|s| - 1] == m then 1 else 0
  }

  ghost predicate QuotaKept(w: World, calendar: int -> int) {
    && (forall m :: Times(w.restores, m) <= RESTORE_QUOTA)
    && w.row.used <= RESTORE_QUOTA
    && (w.row.month == None ==> w.restores == [])
    && (w.row.month.Some? ==>
          && w.row.month.value <= calendar(w.today)
          && Times(w.restores, w.row.month.value) == w.row.used
          && forall m :: m > w.row.month.value ==> Times(w.restores, m) == 0)
  }

  lemma TimesSnoc(s: seq<int>, x: int, m: int)
    ensures Times(s + [x], m) == Times(s, m) + if m == x then 1 else 0
  {
    assert (s + [x])[..|s|] == s;
  }

  lemma RestoreKeepsQuota(w: World, member: bool, day: int, calendar: int -> int)
    requires QuotaKept(w, calendar) && calendar(w.today) <= calendar(day)
    ensures QuotaKept(Step(w, RestoreBy(member, day), calendar), calendar)
  {
    var month := calendar(day);
    var (r, res) := Restore(w.row, member, day, month);
    var w' := Step(w, RestoreBy(member, day), calendar);
    if res.Restored? {
      var used := if w.row.month == Some(month) then w.row.used else 0;
      assert r.month == Some(month) && r.used == used + 1 && used < RESTORE_QUOTA;
      assert used == Times(w.restores, month);
      OneMoreRestore(w.restores, month, used);
      assert w'.restores == w.restores + [month];
    } else {
      assert r.month == w.row.month && r.used == w.row.used;
      assert w'.restores == w.restores;
    }
  }

  lemma OneMoreRestore(restores: seq<int>, month: int, used: nat)
    requires (forall m :: Times(restores, m) <= RESTORE_QUOTA) && (forall m :: m > month ==> Times(restores, m) == 0)
    requires used == Times(restores, month) < RESTORE_QUOTA
    ensures var after := restores + [month];
            && (forall m :: Times(after, m) <= RESTORE_QUOTA) && (forall m :: m > month ==> Times(after, m) == 0)
            && Times(after, month) == used + 1
  {
    forall m
      ensures Times(restores + [month], m) == Times(restores, m) + if m == month then 1 else 0
    {
      TimesSnoc(restores, month, m);
    }
  }

  lemma StepKeepsQuota(w: World, op: Op, calendar: int -> int)
    requires QuotaKept(w, calendar) && w.today <= op.day && Monotone(calendar)
    ensures QuotaKept(Step(w, op, calendar), calendar)
  {
    assert calendar(w.today) <= calendar(op.day);
    match op
    case Message(fromA, day) =>
      var r := Step(w, op, calendar).row;
      assert r.month == w.row.month && r.used == w.row.used;
    case CronAt(day) =>
      var r := Step(w, op, calendar).row;
      assert r.month == w.row.month && r.used == w.row.used;
    case RestoreBy(member, day) => RestoreKeepsQuota(w, member, day, calendar);
  }

  /** At most three restores succeed per friendship and calendar month. */
  lemma {:induction false} AtMostThreeRestoresAMonth(start: int, ops: seq<Op>, calendar: int -> int)
    requires Forward(start, ops) && Monotone(calendar)
    ensures QuotaKept(Run(start, ops, calendar), calendar)
    ensures forall m :: Times(Run(start, ops, calendar).restores, m) <= 3
  {
    if ops != [] {
      var n := |ops| - 1;
      RunToday(start, ops[..n], calendar);
      AtMostThreeRestoresAMonth(start, ops[..n], calendar);
      StepKeepsQuota(Run(start, ops[..n], calendar), ops[n], calendar);
    }
  }

  ghost predicate Ascending(s: seq<nat>, top: nat) {
    && (forall i, j :: 0 <= i < j < |s| ==> s[i] < s[j])
    && (forall i :: 0 <= i < |s| ==> s[i] in MILESTONES && s[i] <= top)
    && (s != [] ==> s[|s| - 1] == top)
    && (s == [] ==> top == 0)
  }

  lemma MessageAscends(announced: seq<nat>, r: Row, fromA: bool, day: int)
    requires Ascending(announced, r.milestone)
    ensures var (r', m) := Update(r, fromA, day);
            Ascending(if m > 0 then announced + [m] else announced, r'.milestone)
  {
    var marked := Mark(r, fromA, day);
    var bumped := if BothOn(marked, day) then Bump(marked, day) else marked;
    assert bumped.milestone == r.milestone;
    CrossedIsGreatest(MILESTONES, bumped.current, r.milestone);
  }

  /** Each announced milestone is strictly above all earlier ones, across losses and restores. */
  lemma {:induction false} MilestonesAscend(start: int, ops: seq<Op>, calendar: int -> int)
    ensures var w := Run(start, ops, calendar); Ascending(w.announced, w.row.milestone)
  {
    if ops != [] {
      var n := |ops| - 1;
      MilestonesAscend(start, ops[..n], calendar);
      var w, op := Run(start, ops[..n], calendar), ops[n];
      if op.Message? {
        MessageAscends(w.announced, w.row, op.fromA, op.day);
      } else {
        assert Step(w, op, calendar).row.milestone == w.row.milestone;
      }
    }
  }
}
