/**
 A learner's rows: XP, hearts, daily streak, milestones, badges and lesson progress.

 `Learner` holds one user's rows and the functions on it are the committed transactions; `LearnStore` runs
 them statement by statement.  `World` adds what was spent and received.  Instants are in microseconds and
 a day is a whole number of them since the epoch (UTC).
 */
module Ledger {
  import opened Common
  import opened StreakRules
  import opened Sums
  import Hearts

  const DAY := 86_400 * Hearts.SECOND
  const REVIEW_XP_MAX := 5
  const DAILY_REVIEW_XP := 10

  function DayOf(now: int): int { now / DAY }

  // ---------------------------------------------------------------- the rows

  datatype Streak = Streak(current: nat, longest: nat, lastDay: Option<int>, milestone: nat)

  datatype Progress = Progress(stars: int, times: nat, placed: bool)

  datatype Badge = FirstLesson | Lessons10 | Lessons50 | Xp100 | Xp500 | Xp1000 | Streak3 | Streak7 | Streak30

  const ACHIEVEMENTS: seq<Badge> :=
    [FirstLesson, Lessons10, Lessons50, Xp100, Xp500, Xp1000, Streak3, Streak7, Streak30]

  /** `items` maps each review item to whether it was consumed. */
  datatype Learner = Learner(xp: int, bucket: Hearts.Bucket, streak: Streak, daily: map<int, int>,
                             progress: map<nat, Progress>, badges: set<Badge>, items: map<nat, bool>)

  function NewLearner(at: int): Learner {
    Learner(0, Hearts.Bucket(Hearts.MAX, at), Streak(0, 0, None, 0), map[], map[], {}, map[])
  }

  // ---------------------------------------------------------------- streak

  datatype Applied = Applied(streak: Streak, increased: bool, newMilestone: nat)

  /** The day's activity: unchanged on the same day, one more on the next, else a new streak. */
  function ApplyStreak(s: Streak, today: int): Applied {
    var gap := if s.lastDay.Some? then today - s.lastDay.value else 1;
    var reset := s.lastDay.Some? && gap != 0 && gap != 1;
    var current := if s.lastDay == None || reset then 1 else if gap == 1 then s.current + 1 else s.current;
    var base := if reset then 0 else s.milestone;
    var m := Crossed(MILESTONES, current, base);
    Applied(Streak(current, if current > s.longest then current else s.longest, Some(today), if m > 0 then m else base),
            s.lastDay == None || gap != 0, m)
  }

  method ComputeStreak(s: Streak, today: int) returns (r: Applied)
    ensures r == ApplyStreak(s, today)
  {
    var current, increased, reset := s.current, false, false;
    if s.lastDay == None {
      current, increased := 1, true;
    } else {
      match today - s.lastDay.value
      case 0 =>
      case 1 => current, increased := s.current + 1, true;
      case _ => current, increased, reset := 1, true, true;
    }
    var longest := s.longest;
    if current > longest {
      longest := current;
    }
    var base := if reset then 0 else s.milestone;
    var newMilestone := 0;
    for i := 0 to |MILESTONES|
      invariant newMilestone == Crossed(MILESTONES[..i], current, base)
    {
      assert MILESTONES[..i + 1][..i] == MILESTONES[..i];
      if current >= MILESTONES[i] && MILESTONES[i] > base {
        newMilestone := MILESTONES[i];
      }
    }
    assert MILESTONES[..|MILESTONES|] == MILESTONES;
    var persisted := base;
    if newMilestone > 0 {
      persisted := newMilestone;
    }
    r := Applied(Streak(current, longest, Some(today), persisted), increased, newMilestone);
  }

  // ---------------------------------------------------------------- badges

  /** What badges are judged on; `lessons` is `None` when a transaction does not look at them. */
  datatype Facts = Facts(lessons: Option<int>, xp: int, streak: int)

  function Earned(b: Badge, f: Facts): bool {
    match b
    case FirstLesson => f.lessons.Some? && f.lessons.value >= 1
    case Lessons10 => f.lessons.Some? && f.lessons.value >= 10
    case Lessons50 => f.lessons.Some? && f.lessons.value >= 50
    case Xp100 => f.xp >= 100
    case Xp500 => f.xp >= 500
    case Xp1000 => f.xp >= 1000
    case Streak3 => f.streak >= 3
    case Streak7 => f.streak >= 7
    case Streak30 => f.streak >= 30
  }

  /** The badges of the list that are earned and not yet held, in its order. */
  function Awards(list: seq<Badge>, f: Facts, held: set<Badge>): seq<Badge> {
    if list == [] then []
    else
      var b, before := list[|list| - 1], Awards(list[..|list| - 1], f, held);
      if Earned(b, f) && b !in held && b !in before then before + [b] else before
  }

  lemma {:induction false} AwardsAreTheEarned(list: seq<Badge>, f: Facts, held: set<Badge>, b: Badge)
    ensures b in Awards(list, f, held) <==> b in list && Earned(b, f) && b !in held
  {
    if list != [] {
      AwardsAreTheEarned(list[..|list| - 1], f, held, b);
      assert list == list[..|list| - 1] + [list[|list| - 1]];
    }
  }

  function ElementsOf(bs: seq<Badge>): set<Badge> { set b | b in bs }

  // ---------------------------------------------------------------- the transactions

  function Played(progress: map<nat, Progress>): set<nat> {
    set l | l in progress && !progress[l].placed
  }

  function Stars(mistakes: int): int {
    if mistakes <= 0 then 3 else if mistakes <= 2 then 2 else 1
  }

  function Credited(daily: map<int, int>, today: int, xp: int): map<int, int> {
    daily[today := (if today in daily then daily[today] else 0) + xp]
  }

  /** XP, streak, day and badges after an activity worth `xp`. */
  function Active(l: Learner, xp: int, lessons: Option<int>, today: int): Learner {
    var streak := ApplyStreak(l.streak, today).streak;
    var won := Awards(ACHIEVEMENTS, Facts(lessons, l.xp + xp, streak.current), l.badges);
    l.(xp := l.xp + xp, streak := streak, daily := Credited(l.daily, today, xp), badges := l.badges + ElementsOf(won))
  }

  function Spend(b: Hearts.Bucket, mistakes: int): Hearts.Bucket {
    b.(hearts := if b.hearts - mistakes < 0 then 0 else b.hearts - mistakes)
  }

  function WithLesson(progress: map<nat, Progress>, lesson: nat, stars: int): map<nat, Progress> {
    var p := if lesson in progress then progress[lesson] else Progress(0, 0, false);
    progress[lesson := Progress(if p.stars > stars then p.stars else stars, p.times + 1, false)]
  }

  datatype Outcome =
    | NotFound
    | Failed
    | Done(xp: int, stars: int, newBadges: seq<Badge>, increased: bool, newMilestone: nat)

  /** `lessonXP` is `None` for a lesson that does not exist. */
  function CompleteLesson(l: Learner, lesson: nat, lessonXP: Option<int>, mistakes: int, premium: bool, failed: bool,
                          now: int): (Learner, Outcome)
  {
    if lessonXP == None then (l, NotFound)
    else
      var bucket := if premium then l.bucket else Spend(Hearts.Regen(l.bucket, now).bucket, mistakes);
      if failed && !premium then (l.(bucket := bucket), Failed)
      else
        var xp := if lesson in Played(l.progress) then REVIEW_XP_MAX else lessonXP.value;
        var progress := WithLesson(l.progress, lesson, Stars(mistakes));
        var lessons := Some(|Played(progress)|);
        var a := ApplyStreak(l.streak, DayOf(now));
        (Active(l, xp, lessons, DayOf(now)).(bucket := bucket, progress := progress),
         Done(xp, Stars(mistakes), Awards(ACHIEVEMENTS, Facts(lessons, l.xp + xp, a.streak.current), l.badges),
              a.increased, a.newMilestone))
  }

  function Consumable(items: map<nat, bool>, ids: set<nat>): set<nat> {
    set i | i in ids && i in items && !items[i]
  }

  function Consumed(items: map<nat, bool>, ids: set<nat>): map<nat, bool> {
    map i | i in items :: items[i] || i in ids
  }

  function CompleteReview(l: Learner, ids: set<nat>, now: int): (Learner, Outcome) {
    if Consumable(l.items, ids) == {} then (l, NotFound)
    else
      var a := ApplyStreak(l.streak, DayOf(now));
      (Active(l, DAILY_REVIEW_XP, None, DayOf(now)).(items := Consumed(l.items, ids)),
       Done(DAILY_REVIEW_XP, 0, Awards(ACHIEVEMENTS, Facts(None, l.xp + DAILY_REVIEW_XP, a.streak.current), l.badges),
            a.increased, a.newMilestone))
  }

  function GrantHeart(l: Learner, now: int): Learner {
    var b := Hearts.Regen(l.bucket, now).bucket;
    l.(bucket := b.(hearts := if b.hearts + 1 > Hearts.MAX then Hearts.MAX else b.hearts + 1))
  }

  /** Enrolling further on marks earlier lessons as placed, unless they have a row already. */
  function Place(progress: map<nat, Progress>, lessons: set<nat>): map<nat, Progress> {
    map l | l in lessons + progress.Keys :: if l in progress then progress[l] else Progress(0, 0, true)
  }

  /** The streak a reader is shown. */
  function Shown(l: Learner, now: int): nat {
    if l.streak.lastDay == None || DayOf(now) - l.streak.lastDay.value > 1 then 0 else l.streak.current
  }

  class LearnStore {
    var rows: Learner

    constructor (at: int)
      ensures rows == NewLearner(at)
    {
      rows := NewLearner(at);
    }

    method InsertBadges(f: Facts) returns (won: seq<Badge>)
      modifies this
      ensures won == Awards(ACHIEVEMENTS, f, old(rows.badges))
      ensures rows == old(rows).(badges := old(rows.badges) + ElementsOf(won))
    {
      ghost var held := rows.badges;
      won := [];
      for i := 0 to |ACHIEVEMENTS|
        invariant won == Awards(ACHIEVEMENTS[..i], f, held)
        invariant rows == old(rows).(badges := held + ElementsOf(won))
      {
        var b := ACHIEVEMENTS[i];
        assert ACHIEVEMENTS[..i + 1][..i] == ACHIEVEMENTS[..i];
        if Earned(b, f) && b !in rows.badges {
          rows := rows.(badges := rows.badges + {b});
          assert ElementsOf(won + [b]) == ElementsOf(won) + {b};
          won := won + [b];
        }
      }
      assert ACHIEVEMENTS[..|ACHIEVEMENTS|] == ACHIEVEMENTS;
    }

    method FinishLesson(lesson: nat, lessonXP: Option<int>, mistakes: int, premium: bool, failed: bool, now: int)
        returns (res: Outcome)
      modifies this
      ensures (rows, res) == CompleteLesson(old(rows), lesson, lessonXP, mistakes, premium, failed, now)
    {
      if lessonXP == None {
        return NotFound;
      }
      var regenerated := Hearts.Regen(rows.bucket, now);
      var bucket := regenerated.bucket;
      if !premium {
        var cur := bucket.hearts - mistakes;
        if cur < 0 {
          cur := 0;
        }
        bucket := bucket.(hearts := cur);
      } else {
        bucket := rows.bucket;
      }
      if failed && !premium {
        rows := rows.(bucket := bucket);
        return Failed;
      }
      var stars := Stars(mistakes);
      var xpAward := lessonXP.value;
      if lesson in rows.progress && !rows.progress[lesson].placed {
        xpAward := REVIEW_XP_MAX;
      }
      var today := DayOf(now);
      var sk := ComputeStreak(rows.streak, today);
      rows := rows.(xp := rows.xp + xpAward, bucket := bucket, streak := sk.streak);
      rows := rows.(progress := WithLesson(rows.progress, lesson, stars));
      rows := rows.(daily := Credited(rows.daily, today, xpAward));
      var lessonsDone := |Played(rows.progress)|;
      var won := InsertBadges(Facts(Some(lessonsDone), rows.xp, sk.streak.current));
      res := Done(xpAward, stars, won, sk.increased, sk.newMilestone);
    }

    method FinishReview(ids: set<nat>, now: int) returns (res: Outcome)
      modifies this
      ensures (rows, res) == CompleteReview(old(rows), ids, now)
    {
      if ids == {} || Consumable(rows.items, ids) == {} {
        return NotFound;
      }
      rows := rows.(items := Consumed(rows.items, ids));
      var sk := ComputeStreak(rows.streak, DayOf(now));
      rows := rows.(xp := rows.xp + DAILY_REVIEW_XP, streak := sk.streak);
      rows := rows.(daily := Credited(rows.daily, DayOf(now), DAILY_REVIEW_XP));
      var won := InsertBadges(Facts(None, rows.xp, sk.streak.current));
      res := Done(DAILY_REVIEW_XP, 0, won, sk.increased, sk.newMilestone);
    }
  }

  // ---------------------------------------------------------------- runs

  datatype Op =
    | Lesson(lesson: nat, lessonXP: Option<int>, mistakes: int, premium: bool, failed: bool, now: int)
    | Review(ids: set<nat>, now: int)
    | Grant(pending: bool, now: int)
    | Enroll(lessons: set<nat>, now: int)
    | Withdraw(lessons: set<nat>, now: int)
    | Harvest(ids: set<nat>, now: int)
    | Discard(ids: set<nat>, now: int)

  /**
   `spent`: hearts lost to mistakes; `granted`: hearts given by friends; `reviews`: the items each credited review
   consumed; `peak`: most lessons seen played.
   */
  datatype World = World(l: Learner, now: int, spent: int, granted: int, reviews: seq<set<nat>>, peak: int)

  function Begin(at: int, now: int): World { World(NewLearner(at), now, 0, 0, [], 0) }

  /** The handler turns a negative number of mistakes into none. */
  function Clamp(mistakes: int): int { if mistakes < 0 then 0 else mistakes }

  function Step(w: World, op: Op): World {
    var w := w.(now := op.now);
    match op
    case Lesson(lesson, lessonXP, mistakes, premium, failed, now) =>
      var (l, res) := CompleteLesson(w.l, lesson, lessonXP, Clamp(mistakes), premium, failed, now);
      var lost := if premium || lessonXP == None then 0
          else Hearts.Regen(w.l.bucket, now).bucket.hearts - l.bucket.hearts;
      var played := |Played(l.progress)|;
      w.(l := l, spent := w.spent + lost, peak := if res.Done? && played > w.peak then played else w.peak)
    case Review(ids, now) =>
      var (l, res) := CompleteReview(w.l, ids, now);
      w.(l := l, reviews := if res.Done? then w.reviews + [Consumable(w.l.items, ids)] else w.reviews)
    case Grant(pending, now) =>
      if pending then w.(l := GrantHeart(w.l, now), granted := w.granted + 1) else w
    case Enroll(lessons, _) => w.(l := w.l.(progress := Place(w.l.progress, lessons)))
    case Withdraw(lessons, _) => w.(l := w.l.(progress := w.l.progress - lessons))
    case Harvest(ids, _) => w.(l := w.l.(items := (map i | i in ids :: false) + w.l.items))
    case Discard(ids, _) => w.(l := w.l.(items := Consumed(w.l.items, ids)))
  }

  function Run(at: int, start: int, ops: seq<Op>): World {
    if ops == [] then Begin(at, start) else Step(Run(at, start, ops[..|ops| - 1]), ops[|ops| - 1])
  }

  /** Time never goes back, and the lessons of the catalogue are worth something. */
  ghost predicate Proper(start: int, ops: seq<Op>) {
    && (ops != [] ==> start <= ops[0].now)
    && (forall i :: 0 < i < |ops| ==> ops[i - 1].now <= ops[i].now)
    && (forall i :: 0 <= i < |ops| && ops[i].Lesson? && ops[i].lessonXP.Some? ==> ops[i].lessonXP.value > 0)
  }

  lemma RunNow(at: int, start: int, ops: seq<Op>)
    ensures Run(at, start, ops).now == if ops == [] then start else ops[|ops| - 1].now
  {
  }

  // ---------------------------------------------------------------- hearts over a run

  /** Once regenerated at `now`. */
  ghost predicate Metered(b: Hearts.Bucket, now: int, start: int, balance: int) {
    && 0 <= b.hearts <= Hearts.MAX && b.at <= now
    && Hearts.REGEN * (b.hearts - Hearts.MAX + balance) <= b.at - start
  }

  /** As stored: a full bucket's instant does not matter. */
  ghost predicate Stored(b: Hearts.Bucket, now: int, start: int, balance: int) {
    && 0 <= b.hearts <= Hearts.MAX
    && (b.hearts < Hearts.MAX ==> Metered(b, now, start, balance))
    && (b.hearts == Hearts.MAX ==> Hearts.REGEN * balance <= now - start)
  }

  lemma RegenMeters(b: Hearts.Bucket, before: int, now: int, start: int, balance: int)
    requires Stored(b, before, start, balance) && before <= now
    ensures Metered(Hearts.Regen(b, now).bucket, now, start, balance)
  {
    if b.hearts < Hearts.MAX {
      Hearts.Periods(b.at, now);
      var k := Hearts.Quotient(now - b.at, Hearts.REGEN);
      assert Hearts.REGEN * (b.hearts + k - Hearts.MAX + balance)
          == Hearts.REGEN * (b.hearts - Hearts.MAX + balance) + k * Hearts.REGEN;
    }
  }

  ghost predicate HeartsKept(w: World, start: int) {
    Stored(w.l.bucket, w.now, start, w.spent - w.granted)
  }

  lemma LessonKeepsHearts(w: World, op: Op, start: int)
    requires HeartsKept(w, start) && w.now <= op.now && op.Lesson?
    ensures HeartsKept(Step(w, op), start)
  {
    RegenMeters(w.l.bucket, w.now, op.now, start, w.spent - w.granted);
    var b := if op.premium || op.lessonXP == None then w.l.bucket
        else Spend(Hearts.Regen(w.l.bucket, op.now).bucket, Clamp(op.mistakes));
    assert Step(w, op).l.bucket == b;
  }

  lemma StepKeepsHearts(w: World, op: Op, start: int)
    requires HeartsKept(w, start) && w.now <= op.now
    ensures HeartsKept(Step(w, op), start)
  {
    match op
    case Lesson(_, _, _, _, _, _) => LessonKeepsHearts(w, op, start);
    case Grant(_, _) => RegenMeters(w.l.bucket, w.now, op.now, start, w.spent - w.granted);
    case _ => assert Step(w, op).l.bucket == w.l.bucket;
  }

  lemma {:induction false} RunKeepsHearts(at: int, start: int, ops: seq<Op>)
    requires Proper(start, ops)
    ensures HeartsKept(Run(at, start, ops), start)
  {
    if ops != [] {
      var n := |ops| - 1;
      RunNow(at, start, ops[..n]);
      RunKeepsHearts(at, start, ops[..n]);
      StepKeepsHearts(Run(at, start, ops[..n]), ops[n], start);
    }
  }

  lemma SpentIsBounded(b: Hearts.Bucket, now: int, start: int, balance: int)
    requires Metered(b, now, start, balance)
    ensures balance - Hearts.MAX <= (now - start) / Hearts.REGEN
  {
    assert Hearts.REGEN * (balance - Hearts.MAX) <= Hearts.REGEN * (b.hearts - Hearts.MAX + balance) <= now - start;
  }

  /**
   A token bucket: in every run the hearts stay between 0 and 5, stored or shown, and no more hearts are
   lost than the five at the start, those friends gave and one per elapsed half hour.
   */
  lemma HeartsAreATokenBucket(at: int, start: int, ops: seq<Op>, t: int)
    requires Proper(start, ops) && Run(at, start, ops).now <= t
    ensures var w := Run(at, start, ops);
            && 0 <= w.l.bucket.hearts <= 5 && 0 <= Hearts.Regen(w.l.bucket, t).bucket.hearts <= 5
            && w.spent <= 5 + w.granted + (w.now - start) / Hearts.REGEN
  {
    RunKeepsHearts(at, start, ops);
    var w := Run(at, start, ops);
    var balance := w.spent - w.granted;
    RegenMeters(w.l.bucket, w.now, t, start, balance);
    RegenMeters(w.l.bucket, w.now, w.now, start, balance);
    SpentIsBounded(Hearts.Regen(w.l.bucket, w.now).bucket, w.now, start, balance);
  }

  // ---------------------------------------------------------------- XP is the sum of the days

  lemma CreditAdds(daily: map<int, int>, today: int, xp: int)
    ensures Total(Credited(daily, today, xp)) == Total(daily) + xp
  {
    var after := Credited(daily, today, xp);
    TotalSplits(after, today);
    assert after - {today} == daily - {today};
    if today in daily {
      TotalSplits(daily, today);
    } else {
      assert daily - {today} == daily;
    }
  }

  // ---------------------------------------------------------------- what every run keeps

  ghost predicate GreatestMilestone(m: nat, streak: nat) {
    && (m == 0 || (m in MILESTONES && m <= streak))
    && forall x :: x in MILESTONES && x <= streak ==> x <= m
  }

  ghost predicate StreakKept(s: Streak, days: set<int>, today: int) {
    && (s.lastDay == None <==> days == {})
    && (s.lastDay == None ==> s.current == 0)
    && (s.lastDay.Some? ==>
          s.lastDay.value in days && s.lastDay.value <= today && s.current == RunLength(days, s.lastDay.value))
    && (forall d :: d in days ==> d <= s.lastDay.value)
    && (forall d :: d in days ==> RunLength(days, d) <= s.longest)
    && (s.longest > 0 ==> exists d :: d in days && RunLength(days, d) == s.longest)
    && GreatestMilestone(s.milestone, s.current)
  }

  lemma ActivityKeepsRuns(s: Streak, days: set<int>, before: int, today: int)
    requires StreakKept(s, days, before) && before <= today
    ensures var s' := ApplyStreak(s, today).streak; s'.current == RunLength(days + {today}, today)
  {
    var days' := days + {today};
    if s.lastDay == Some(today) {
      assert days' == days;
    } else {
      assert today !in days;
      assert days' - {today} == days;
      assert RunLength(days', today) == 1 + RunLength(days, today - 1);
    }
  }

  lemma ActivityKeepsMilestone(s: Streak, today: int)
    requires GreatestMilestone(s.milestone, s.current) && (s.lastDay == None ==> s.milestone == 0)
    ensures var s' := ApplyStreak(s, today).streak; GreatestMilestone(s'.milestone, s'.current)
  {
    var s' := ApplyStreak(s, today).streak;
    var reset := s.lastDay.Some? && today - s.lastDay.value != 0 && today - s.lastDay.value != 1;
    CrossedIsGreatest(MILESTONES, s'.current, if reset then 0 else s.milestone);
  }

  lemma ActivityKeepsStreak(s: Streak, days: set<int>, before: int, today: int)
    requires StreakKept(s, days, before) && before <= today
    requires s.lastDay == None ==> s.longest == 0 && s.milestone == 0
    ensures StreakKept(ApplyStreak(s, today).streak, days + {today}, today)
  {
    var s', days' := ApplyStreak(s, today).streak, days + {today};
    ActivityKeepsRuns(s, days, before, today);
    ActivityKeepsMilestone(s, today);
    forall d | d in days && d < today
      ensures RunLength(days', d) == RunLength(days, d)
    {
      RunLengthIgnoresLater(days, today, d);
    }
    if s'.longest == s'.current {
      assert today in days' && RunLength(days', today) == s'.longest;
    } else {
      var d :| d in days && RunLength(days, d) == s.longest;
      assert d in days' && RunLength(days', d) == s'.longest;
    }
  }

  ghost predicate BadgesKept(l: Learner, peak: int) {
    forall b :: b in l.badges <==> Earned(b, Facts(Some(peak), l.xp, l.streak.longest))
  }

  ghost predicate LedgerKept(w: World) {
    && w.l.xp == Total(w.l.daily) && w.l.xp >= 0
    && StreakKept(w.l.streak, w.l.daily.Keys, DayOf(w.now))
    && (w.l.streak.lastDay == None ==> w.l.streak.longest == 0 && w.l.streak.milestone == 0)
    && BadgesKept(w.l, w.peak)
    && w.peak >= 0
  }

  lemma EveryBadgeIsListed(b: Badge)
    ensures b in ACHIEVEMENTS
  {
    match b
    case FirstLesson => assert ACHIEVEMENTS[0] == b;
    case Lessons10 => assert ACHIEVEMENTS[1] == b;
    case Lessons50 => assert ACHIEVEMENTS[2] == b;
    case Xp100 => assert ACHIEVEMENTS[3] == b;
    case Xp500 => assert ACHIEVEMENTS[4] == b;
    case Xp1000 => assert ACHIEVEMENTS[5] == b;
    case Streak3 => assert ACHIEVEMENTS[6] == b;
    case Streak7 => assert ACHIEVEMENTS[7] == b;
    case Streak30 => assert ACHIEVEMENTS[8] == b;
  }

  lemma ActivityKeepsBadges(l: Learner, xp: int, lessons: Option<int>, today: int, peak: int)
    requires BadgesKept(l, peak) && xp > 0
    ensures var peak' := if lessons.Some? && lessons.value > peak then lessons.value else peak;
            BadgesKept(Active(l, xp, lessons, today), peak')
  {
    var l' := Active(l, xp, lessons, today);
    var f := Facts(lessons, l'.xp, l'.streak.current);
    forall b
      ensures b in l'.badges <==> b in l.badges || Earned(b, f)
    {
      EveryBadgeIsListed(b);
      AwardsAreTheEarned(ACHIEVEMENTS, f, l.badges, b);
    }
  }

  lemma ActivityKeepsLedger(l: Learner, xp: int, lessons: Option<int>, before: int, today: int, peak: int)
    requires l.xp == Total(l.daily) && l.xp >= 0 && xp > 0
    requires StreakKept(l.streak, l.daily.Keys, before) && before <= today
    requires l.streak.lastDay == None ==> l.streak.longest == 0 && l.streak.milestone == 0
    ensures var l' := Active(l, xp, lessons, today);
            l'.xp == Total(l'.daily) && l'.xp >= 0 && StreakKept(l'.streak, l'.daily.Keys, today)
  {
    CreditAdds(l.daily, today, xp);
    ActivityKeepsStreak(l.streak, l.daily.Keys, before, today);
    assert Credited(l.daily, today, xp).Keys == l.daily.Keys + {today};
  }

  lemma DaysGoForward(a: int, b: int)
    requires a <= b
    ensures DayOf(a) <= DayOf(b)
  {
  }

  /** The facts an activity's transaction leaves, whatever else it writes. */
  lemma ActiveKeepsLedger(w: World, w': World, xp: int, lessons: Option<int>)
    requires LedgerKept(w) && w.now <= w'.now && xp > 0
    requires var l' := Active(w.l, xp, lessons, DayOf(w'.now));
             w'.l == l'.(bucket := w'.l.bucket, progress := w'.l.progress, items := w'.l.items)
    requires w'.peak == if lessons.Some? && lessons.value > w.peak then lessons.value else w.peak
    ensures LedgerKept(w')
  {
    DaysGoForward(w.now, w'.now);
    ActivityKeepsLedger(w.l, xp, lessons, DayOf(w.now), DayOf(w'.now), w.peak);
    ActivityKeepsBadges(w.l, xp, lessons, DayOf(w'.now), w.peak);
  }

  lemma LaterKeepsLedger(w: World, w': World)
    requires LedgerKept(w) && w.now <= w'.now
    requires w'.l == w.l.(bucket := w'.l.bucket, progress := w'.l.progress, items := w'.l.items) && w'.peak == w.peak
    ensures LedgerKept(w')
  {
    DaysGoForward(w.now, w'.now);
    assert BadgesKept(w'.l, w'.peak);
  }

  lemma StepKeepsLedger(w: World, op: Op)
    requires LedgerKept(w) && w.now <= op.now
    requires op.Lesson? && op.lessonXP.Some? ==> op.lessonXP.value > 0
    ensures LedgerKept(Step(w, op))
  {
    var w' := Step(w, op);
    match op
    case Lesson(lesson, lessonXP, mistakes, premium, failed, now) =>
      var (l, res) := CompleteLesson(w.l, lesson, lessonXP, Clamp(mistakes), premium, failed, now);
      if res.Done? {
        ActiveKeepsLedger(w, w', res.xp, Some(|Played(l.progress)|));
      } else {
        LaterKeepsLedger(w, w');
      }
    case Review(ids, now) =>
      if Consumable(w.l.items, ids) != {} {
        ActiveKeepsLedger(w, w', DAILY_REVIEW_XP, None);
      } else {
        LaterKeepsLedger(w, w');
      }
    case _ => LaterKeepsLedger(w, w');
  }

  lemma {:induction false} RunKeepsLedger(at: int, start: int, ops: seq<Op>)
    requires Proper(start, ops)
    ensures LedgerKept(Run(at, start, ops))
  {
    if ops != [] {
      var n := |ops| - 1;
      RunNow(at, start, ops[..n]);
      RunKeepsLedger(at, start, ops[..n]);
      StepKeepsLedger(Run(at, start, ops[..n]), ops[n]);
    }
  }

  // ---------------------------------------------------------------- results about every run

  /** The XP total is the sum of the daily rows. */
  lemma XpIsTheSumOfDays(at: int, start: int, ops: seq<Op>)
    requires Proper(start, ops)
    ensures Run(at, start, ops).l.xp == Total(Run(at, start, ops).l.daily)
  {
    RunKeepsLedger(at, start, ops);
  }

  /**
   A badge is held exactly when its threshold was reached: of XP, of the longest streak, of lessons played at
   once.
   */
  lemma BadgesAreEarned(at: int, start: int, ops: seq<Op>, b: Badge)
    requires Proper(start, ops)
    ensures var w := Run(at, start, ops);
            b in w.l.badges <==> Earned(b, Facts(Some(w.peak), w.l.xp, w.l.streak.longest))
  {
    RunKeepsLedger(at, start, ops);
  }

  /** The rows agree with their history of active days, those with a row of XP. */
  ghost predicate StreakAgrees(l: Learner, t: int) {
    var days, s := l.daily.Keys, l.streak;
    && Shown(l, t) == RunLength(days, if DayOf(t) in days then DayOf(t) else DayOf(t) - 1)
    && (forall d :: RunLength(days, d) <= s.longest)
    && (days != {} ==> exists d :: d in days && RunLength(days, d) == s.longest)
    && (days != {} ==>
          && s.lastDay.Some? && s.current == RunLength(days, s.lastDay.value)
          && forall d :: d in days ==> d <= s.lastDay.value)
    && GreatestMilestone(s.milestone, s.current)
  }

  lemma KeptAgrees(w: World, t: int)
    requires LedgerKept(w) && w.now <= t
    ensures StreakAgrees(w.l, t)
  {
    DaysGoForward(w.now, t);
    ShownIsRun(w.l.streak, w.l.daily.Keys, DayOf(w.now), DayOf(t));
    LongestIsRun(w.l.streak, w.l.daily.Keys, DayOf(w.now));
  }

  /**
   The streak shown at a later instant is the run of consecutive active days ending that day or the day
   before, the stored one ends at the last active day, the longest streak is the longest run there is,
   and the milestone stored is the greatest one the stored streak reaches.
   */
  lemma StreakIsRunOfActiveDays(at: int, start: int, ops: seq<Op>, t: int)
    requires Proper(start, ops) && Run(at, start, ops).now <= t
    ensures StreakAgrees(Run(at, start, ops).l, t)
  {
    RunKeepsLedger(at, start, ops);
    KeptAgrees(Run(at, start, ops), t);
  }

  lemma ShownIsRun(s: Streak, days: set<int>, before: int, t: int)
    requires StreakKept(s, days, before) && before <= t
    ensures (if s.lastDay == None || t - s.lastDay.value > 1 then 0 else s.current)
            == RunLength(days, if t in days then t else t - 1)
  {
  }

  lemma LongestIsRun(s: Streak, days: set<int>, today: int)
    requires StreakKept(s, days, today)
    ensures forall d :: RunLength(days, d) <= s.longest
    ensures days != {} ==> exists d :: d in days && RunLength(days, d) == s.longest
  {
    if days != {} {
      assert RunLength(days, s.lastDay.value) > 0;
    }
  }

  function ConsumedItems(items: map<nat, bool>): set<nat> { set i | i in items && items[i] }

  /** Each credited review consumed something, and nothing another one did. */
  ghost predicate OwnItems(w: World) {
    && (forall i :: 0 <= i < |w.reviews| ==> w.reviews[i] != {} && w.reviews[i] <= ConsumedItems(w.l.items))
    && (forall i, j :: 0 <= i < j < |w.reviews| ==> w.reviews[i] !! w.reviews[j])
  }

  lemma StepKeepsOwnItems(w: World, op: Op)
    requires OwnItems(w)
    ensures OwnItems(Step(w, op))
  {
    var w' := Step(w, op);
    assert ConsumedItems(w.l.items) <= ConsumedItems(w'.l.items);
    if op.Review? && Consumable(w.l.items, op.ids) != {} {
      var taken := Consumable(w.l.items, op.ids);
      assert taken !! ConsumedItems(w.l.items) && taken <= ConsumedItems(w'.l.items);
      assert w'.reviews == w.reviews + [taken];
    } else {
      assert w'.reviews == w.reviews;
    }
  }

  /** In every run the credited reviews consumed non-empty, pairwise disjoint sets of items. */
  lemma {:induction false} ReviewsConsumeItems(at: int, start: int, ops: seq<Op>)
    ensures OwnItems(Run(at, start, ops))
  {
    if ops != [] {
      ReviewsConsumeItems(at, start, ops[..|ops| - 1]);
      StepKeepsOwnItems(Run(at, start, ops[..|ops| - 1]), ops[|ops| - 1]);
    }
  }

  /** Sending a credited review again, or part of it, is refused and credits nothing. */
  lemma ReviewAgainIsRefused(l: Learner, ids: set<nat>, again: set<nat>, now: int, later: int)
    requires CompleteReview(l, ids, now).1.Done? && again <= ids
    ensures var l' := CompleteReview(l, ids, now).0; CompleteReview(l', again, later) == (l', NotFound)
  {
    assert Consumable(CompleteReview(l, ids, now).0.items, again) == {};
  }
}
