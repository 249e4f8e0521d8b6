/** What lessons, reviews and hearts pay and cost a learner, one by one and over every run. */
module LedgerPays {
  import opened Common
  import opened StreakRules
  import opened Ledger
  import Hearts

  // ---------------------------------------------------------------- one transaction

  function At(daily: map<int, int>, day: int): int { if day in daily then daily[day] else 0 }

  /** XP is added to the total and to the day, and to no other day. */
  ghost predicate Earns(l: Learner, l': Learner, xp: int, today: int) {
    && l'.xp == l.xp + xp && l'.daily.Keys == l.daily.Keys + {today}
    && forall d :: At(l'.daily, d) == At(l.daily, d) + if d == today then xp else 0
  }

  ghost predicate OtherLessonsStay(l: Learner, l': Learner, lesson: nat) {
    forall i :: i != lesson ==>
      (i in l'.progress <==> i in l.progress) && (i in l.progress ==> l'.progress[i] == l.progress[i])
  }

  /** The lesson counts as played once more, with the best stars so far. */
  ghost predicate Plays(l: Learner, l': Learner, lesson: nat, stars: int) {
    && lesson in l'.progress && !l'.progress[lesson].placed && OtherLessonsStay(l, l', lesson)
    && (lesson in l.progress ==>
          && l'.progress[lesson].times == l.progress[lesson].times + 1
          && l'.progress[lesson].stars >= l.progress[lesson].stars && l'.progress[lesson].stars >= stars
          && l'.progress[lesson].stars in {stars, l.progress[lesson].stars})
    && (lesson !in l.progress ==>
          l'.progress[lesson].times == 1 && l'.progress[lesson].stars == if stars > 0 then stars else 0)
  }

  /** A heart for each mistake, as long as there are any. */
  ghost predicate Costs(l: Learner, l': Learner, mistakes: int, now: int) {
    var b := Hearts.Regen(l.bucket, now).bucket;
    && l'.bucket.at == b.at
    && (mistakes <= b.hearts ==> l'.bucket.hearts == b.hearts - mistakes)
    && (mistakes > b.hearts ==> l'.bucket.hearts == 0)
  }

  /** The new badges are those held now and not before, each once. */
  ghost predicate Awarded(l: Learner, l': Learner, won: seq<Badge>) {
    && (forall b :: b in won <==> b in l'.badges && b !in l.badges) && l.badges <= l'.badges
    && NoneTwice(won)
  }

  ghost predicate NoneTwice(won: seq<Badge>) { forall i, j :: 0 <= i < j < |won| ==> won[i] != won[j] }

  lemma {:induction false} AwardsDiffer(list: seq<Badge>, f: Facts, held: set<Badge>)
    ensures NoneTwice(Awards(list, f, held))
  {
    if list != [] {
      var before, b := Awards(list[..|list| - 1], f, held), list[|list| - 1];
      AwardsDiffer(list[..|list| - 1], f, held);
      if b !in before {
        assert forall i :: 0 <= i < |before| ==> before[i] in before;
        assert NoneTwice(before + [b]);
      }
    }
  }

  lemma ActiveAwards(l: Learner, xp: int, lessons: Option<int>, today: int)
    ensures var f := Facts(lessons, l.xp + xp, ApplyStreak(l.streak, today).streak.current);
            Awarded(l, Active(l, xp, lessons, today), Awards(ACHIEVEMENTS, f, l.badges))
  {
    var f := Facts(lessons, l.xp + xp, ApplyStreak(l.streak, today).streak.current);
    var won := Awards(ACHIEVEMENTS, f, l.badges);
    forall b
      ensures b in won ==> b !in l.badges
      ensures b in won <==> b in ElementsOf(won)
    {
      AwardsAreTheEarned(ACHIEVEMENTS, f, l.badges, b);
    }
    AwardsDiffer(ACHIEVEMENTS, f, l.badges);
    assert Active(l, xp, lessons, today).badges == l.badges + ElementsOf(won);
  }

  /**
   A lesson pays its XP, or five if the learner has played it before; mistakes cost hearts unless the learner is
   premium.  One given up for want of hearts costs them and pays nothing.
   */
  lemma LessonPays(l: Learner, lesson: nat, lessonXP: Option<int>, mistakes: nat, premium: bool, failed: bool, now: int)
    ensures var (l', res) := CompleteLesson(l, lesson, lessonXP, mistakes, premium, failed, now);
            if lessonXP == None then l' == l && res == NotFound
            else
              && (if premium then l'.bucket == l.bucket else Costs(l, l', mistakes, now))
              && (if failed && !premium then l' == l.(bucket := l'.bucket) && res == Failed
                  else
                    && res.Done? && l'.items == l.items
                    && res.xp == (if lesson in Played(l.progress) then 5 else lessonXP.value)
                    && res.stars == (if mistakes == 0 then 3 else if mistakes <= 2 then 2 else 1)
                    && Earns(l, l', res.xp, DayOf(now)) && Plays(l, l', lesson, res.stars)
                    && Awarded(l, l', res.newBadges))
  {
    var (l', res) := CompleteLesson(l, lesson, lessonXP, mistakes, premium, failed, now);
    if res.Done? {
      ActiveAwards(l, res.xp, Some(|Played(l'.progress)|), DayOf(now));
    }
  }

  /** A review pays ten for the items it is the first to consume, and touches neither hearts nor lessons. */
  lemma ReviewPays(l: Learner, ids: set<nat>, now: int)
    ensures var (l', res) := CompleteReview(l, ids, now);
            if forall i :: i in ids && i in l.items ==> l.items[i] then l' == l && res == NotFound
            else
              && res.Done? && res.xp == 10 && res.stars == 0
              && l'.bucket == l.bucket && l'.progress == l.progress && l'.items.Keys == l.items.Keys
              && (forall i :: i in l.items ==> (l'.items[i] <==> l.items[i] || i in ids))
              && Earns(l, l', 10, DayOf(now)) && Awarded(l, l', res.newBadges)
  {
    if !forall i :: i in ids && i in l.items ==> l.items[i] {
      var i :| i in ids && i in l.items && !l.items[i];
      assert i in Consumable(l.items, ids);
    } else {
      assert Consumable(l.items, ids) == {};
    }
    ActiveAwards(l, DAILY_REVIEW_XP, None, DayOf(now));
  }

  /** A heart given is one heart more, up to five, and nothing else. */
  lemma GrantGivesOne(l: Learner, now: int)
    ensures var l', b := GrantHeart(l, now), Hearts.Regen(l.bucket, now).bucket;
            && l' == l.(bucket := l'.bucket) && l'.bucket.at == b.at
            && (b.hearts < 5 ==> l'.bucket.hearts == b.hearts + 1)
            && (b.hearts == 5 ==> l'.bucket.hearts == 5)
  {
  }

  // ---------------------------------------------------------------- what an activity tells

  /**
   In every run an activity is told to have raised the streak iff it is the first of its day, and to have reached
   a milestone iff it then has.
   */
  lemma MilestoneIsTold(at: int, start: int, ops: seq<Op>, now: int)
    requires Proper(start, ops) && Run(at, start, ops).now <= now
    ensures var l := Run(at, start, ops).l; var a := ApplyStreak(l.streak, DayOf(now));
            && (a.increased <==> DayOf(now) !in l.daily)
            && a.newMilestone == (if a.increased && a.streak.current in MILESTONES then a.streak.current else 0)
  {
    RunKeepsLedger(at, start, ops);
    var w := Run(at, start, ops);
    DaysGoForward(w.now, now);
    MilestoneOnTheWay(w.l.streak, DayOf(now));
  }

  lemma MilestoneOnTheWay(s: Streak, today: int)
    requires GreatestMilestone(s.milestone, s.current) && (s.lastDay == None ==> s.milestone == 0 && s.current == 0)
    ensures var a := ApplyStreak(s, today);
            a.newMilestone == if a.increased && a.streak.current in MILESTONES then a.streak.current else 0
  {
    var reset := s.lastDay.Some? && today - s.lastDay.value != 0 && today - s.lastDay.value != 1;
    CrossedIsGreatest(MILESTONES, ApplyStreak(s, today).streak.current, if reset then 0 else s.milestone);
    assert forall m :: m in MILESTONES ==> m > 1;
  }

  // ---------------------------------------------------------------- what every run has paid

  /** The call is credited as a lesson played. */
  predicate Counts(op: Op, lesson: nat) {
    op.Lesson? && op.lesson == lesson && op.lessonXP.Some? && !(op.failed && !op.premium)
  }

  /** The lesson was played at some point, and its progress not withdrawn since. */
  ghost predicate PlayedBefore(ops: seq<Op>, lesson: nat) {
    exists i :: 0 <= i < |ops| && Counts(ops[i], lesson)
      && forall j :: i < j < |ops| ==> !(ops[j].Withdraw? && lesson in ops[j].lessons)
  }

  lemma PlayedBeforeSnoc(ops: seq<Op>, op: Op, lesson: nat)
    ensures PlayedBefore(ops + [op], lesson) <==>
            Counts(op, lesson) || (PlayedBefore(ops, lesson) && !(op.Withdraw? && lesson in op.lessons))
  {
    var all := ops + [op];
    if PlayedBefore(ops, lesson) && !(op.Withdraw? && lesson in op.lessons) {
      var i :| 0 <= i < |ops| && Counts(ops[i], lesson)
        && forall j :: i < j < |ops| ==> !(ops[j].Withdraw? && lesson in ops[j].lessons);
      assert Counts(all[i], lesson);
    }
    if Counts(op, lesson) {
      assert Counts(all[|ops|], lesson);
    }
    if PlayedBefore(all, lesson) {
      var i :| 0 <= i < |all| && Counts(all[i], lesson)
        && forall j :: i < j < |all| ==> !(all[j].Withdraw? && lesson in all[j].lessons);
      if i < |ops| {
        assert Counts(ops[i], lesson) && all[|ops|] == op;
        assert forall j :: i < j < |ops| ==> ops[j] == all[j];
      }
    }
  }

  lemma StepPlays(w: World, op: Op, lesson: nat)
    ensures lesson in Played(Step(w, op).l.progress) <==>
            Counts(op, lesson) || (lesson in Played(w.l.progress) && !(op.Withdraw? && lesson in op.lessons))
  {
  }

  /** What counts as played is what was played: placing a learner further on does not. */
  lemma {:induction false} PlayedIsPlayedBefore(at: int, start: int, ops: seq<Op>, lesson: nat)
    ensures lesson in Played(Run(at, start, ops).l.progress) <==> PlayedBefore(ops, lesson)
  {
    if ops != [] {
      var n := |ops| - 1;
      PlayedIsPlayedBefore(at, start, ops[..n], lesson);
      PlayedBeforeSnoc(ops[..n], ops[n], lesson);
      assert ops == ops[..n] + [ops[n]];
      StepPlays(Run(at, start, ops[..n]), ops[n], lesson);
    }
  }

  /** What the lessons of a run are worth: each its XP when first played, five when played again. */
  ghost function LessonsWorth(ops: seq<Op>): int {
    if ops == [] then 0
    else
      var n := |ops| - 1;
      var op := ops[n];
      LessonsWorth(ops[..n])
      + if !op.Lesson? || !Counts(op, op.lesson) then 0
        else if PlayedBefore(ops[..n], op.lesson) then 5 else op.lessonXP.value
  }

  lemma StepEarns(w: World, op: Op)
    ensures var w' := Step(w, op);
            w'.l.xp - w.l.xp ==
            if op.Lesson? && Counts(op, op.lesson) then
              (if op.lesson in Played(w.l.progress) then 5 else op.lessonXP.value)
            else 10 * (|w'.reviews| - |w.reviews|)
    ensures op.Lesson? ==> Step(w, op).reviews == w.reviews
  {
  }

  /** In every run the XP is what the lessons played are worth and ten for each credited review. */
  lemma {:induction false} XpIsWhatWasPaid(at: int, start: int, ops: seq<Op>)
    ensures Run(at, start, ops).l.xp == LessonsWorth(ops) + 10 * |Run(at, start, ops).reviews|
  {
    if ops != [] {
      var n := |ops| - 1;
      XpIsWhatWasPaid(at, start, ops[..n]);
      StepEarns(Run(at, start, ops[..n]), ops[n]);
      if ops[n].Lesson? {
        PlayedIsPlayedBefore(at, start, ops[..n], ops[n].lesson);
      }
    }
  }

  // ---------------------------------------------------------------- the catalogue and the levels

  datatype Column = LessonsPlayed | TotalXp | DailyStreak

  /** The catalogue: what each badge looks at and from where on it is earned. */
  function Needs(b: Badge): (Column, int) {
    match b
    case FirstLesson => (LessonsPlayed, 1)
    case Lessons10 => (LessonsPlayed, 10)
    case Lessons50 => (LessonsPlayed, 50)
    case Xp100 => (TotalXp, 100)
    case Xp500 => (TotalXp, 500)
    case Xp1000 => (TotalXp, 1000)
    case Streak3 => (DailyStreak, 3)
    case Streak7 => (DailyStreak, 7)
    case Streak30 => (DailyStreak, 30)
  }

  /** In every run a badge is held iff its column, at its highest, reached what the catalogue asks. */
  lemma BadgesFollowTheCatalogue(at: int, start: int, ops: seq<Op>, b: Badge)
    requires Proper(start, ops)
    ensures var w := Run(at, start, ops);
            var best := match Needs(b).0
                        case LessonsPlayed => w.peak
                        case TotalXp => w.l.xp
                        case DailyStreak => w.l.streak.longest;
            b in w.l.badges <==> best >= Needs(b).1
  {
    BadgesAreEarned(at, start, ops, b);
  }

  /** Enrolling further on marks lessons as placed that had no progress yet, and touches no other. */
  lemma EnrollingPlaces(w: World, lessons: set<nat>, now: int)
    ensures var l, l' := w.l, Step(w, Enroll(lessons, now)).l;
            && l' == l.(progress := l'.progress)
            && l'.progress.Keys == l.progress.Keys + lessons
            && (forall i :: i in l.progress ==> l'.progress[i] == l.progress[i])
            && (forall i :: i in lessons && i !in l.progress ==> l'.progress[i] == Progress(0, 0, true))
  {
  }

  // ---------------------------------------------------------------- what a run's record means

  /** Each call of a run is the transaction it stands for, a negative number of mistakes counting as none. */
  lemma CallsAreTransactions(w: World, op: Op)
    ensures var l' := Step(w, op).l;
            match op
            case Lesson(lesson, xp, mistakes, premium, failed, now) =>
              l' == CompleteLesson(w.l, lesson, xp, if mistakes > 0 then mistakes else 0, premium, failed, now).0
            case Review(ids, now) => l' == CompleteReview(w.l, ids, now).0
            case Grant(pending, now) => l' == if pending then GrantHeart(w.l, now) else w.l
            case Enroll(lessons, _) => l' == w.l.(progress := Place(w.l.progress, lessons))
            case Withdraw(lessons, _) => l' == w.l.(progress := w.l.progress - lessons)
            case Harvest(ids, _) =>
              && l' == w.l.(items := l'.items) && l'.items.Keys == w.l.items.Keys + ids
              && (forall i :: i in w.l.items ==> l'.items[i] == w.l.items[i])
              && (forall i :: i in ids && i !in w.l.items ==> !l'.items[i])
            case Discard(ids, _) =>
              && l' == w.l.(items := l'.items) && l'.items.Keys == w.l.items.Keys
              && forall i :: i in w.l.items ==> (l'.items[i] <==> w.l.items[i] || i in ids)
  {
  }

  /** The record counts every heart a lesson took, every heart given, and the most lessons seen played. */
  lemma RecordsWhatHappened(w: World, op: Op)
    ensures var w' := Step(w, op);
            && (op.Lesson? && op.lessonXP.Some? && !op.premium ==>
                  w'.spent - w.spent == Hearts.Regen(w.l.bucket, op.now).bucket.hearts - w'.l.bucket.hearts)
            && (!op.Lesson? || op.lessonXP == None || op.premium ==> w'.spent == w.spent)
            && w'.granted - w.granted == (if op.Grant? && op.pending then 1 else 0)
            && (op.Lesson? && Counts(op, op.lesson) ==>
                  w'.peak >= w.peak && w'.peak >= |Played(w'.l.progress)|
                  && (w'.peak == w.peak || w'.peak == |Played(w'.l.progress)|))
            && (op.Review? && w'.l.xp != w.l.xp ==> w'.reviews == w.reviews + [Consumable(w.l.items, op.ids)])
            && w'.now == op.now
  {
  }
}
