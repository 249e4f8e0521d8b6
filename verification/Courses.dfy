/**
 Storing a whole course over what is already there: course, units and lessons keyed by slug, so that a
 learner's progress stays on the lessons that are still part of it.

 `Db` holds the tables and `Upserted` is the committed transaction; `CourseStore` runs it statement by
 statement.  A deleted row takes the rows that refer to it with it.  Texts are numbers.
 */
module Courses {
  import opened Common
  import opened Reconcile

  type Text = nat

  datatype Lang = Fr | En | Es | De | Pt | It | Zh | Ja | Ko | Ar | Unsupported(code: nat)

  datatype Kind = NoKind | Vocab | Script

  datatype Lesson = Lesson(slug: Slug, title: Text, xp: int, kind: Kind, items: Text)

  datatype Unit = Unit(slug: Slug, title: Text, lessons: seq<Lesson>)

  datatype Course = Course(lang: Lang, title: Text, units: seq<Unit>)

  datatype LessonBody = LessonBody(title: Text, xp: int, kind: Kind, items: Text)

  datatype CourseRow = CourseRow(id: nat, title: Text)

  /** `progress` maps a user and a lesson to what the user has done there. */
  datatype Db = Db(courses: map<Lang, CourseRow>, nextCourse: nat, units: Table<Text>,
                   lessons: Table<LessonBody>, progress: map<(nat, nat), nat>)

  function Normal(l: Lesson): LessonBody {
    LessonBody(l.title, if l.xp <= 0 then 10 else l.xp, if l.kind == NoKind then Vocab else l.kind, l.items)
  }

  function LessonEntries(u: Unit): seq<Entry<LessonBody>> {
    seq(|u.lessons|, k requires 0 <= k < |u.lessons| => Entry(u.lessons[k].slug, Normal(u.lessons[k])))
  }

  function UnitEntries(units: seq<Unit>): seq<Entry<Text>> {
    seq(|units|, k requires 0 <= k < |units| => Entry(units[k].slug, units[k].title))
  }

  // ---------------------------------------------------------------- the transaction

  function OfLessons(progress: map<(nat, nat), nat>, lessons: Table<LessonBody>): map<(nat, nat), nat> {
    map p | p in progress && p.1 in lessons.rows :: progress[p]
  }

  function OfUnits(lessons: Table<LessonBody>, units: Table<Text>): Table<LessonBody> {
    lessons.(rows := map i | i in lessons.rows && lessons.rows[i].parent in units.rows :: lessons.rows[i])
  }

  function CourseId(db: Db, lang: Lang): nat {
    if lang in db.courses then db.courses[lang].id else db.nextCourse
  }

  function WithCourse(db: Db, c: Course): Db {
    db.(courses := db.courses[c.lang := CourseRow(CourseId(db, c.lang), c.title)], nextCourse := db.nextCourse + 1)
  }

  /** One unit, at place `n`: its row, then its lessons. */
  ghost function WithUnit(db: Db, course: nat, u: Unit, n: nat): Db {
    var (units, id) := Upsert(db.units, course, u.slug, n, u.title);
    var lessons := Reconciled(db.lessons, id, LessonEntries(u));
    db.(units := units, lessons := lessons, progress := OfLessons(db.progress, lessons))
  }

  ghost function WithUnits(db: Db, course: nat, units: seq<Unit>): Db {
    if units == [] then db
    else WithUnit(WithUnits(db, course, units[..|units| - 1]), course, units[|units| - 1], |units| - 1)
  }

  function WithoutOthers(db: Db, course: nat, slugs: seq<Slug>): Db {
    var units := Pruned(db.units, course, slugs);
    var lessons := OfUnits(db.lessons, units);
    db.(units := units, lessons := lessons, progress := OfLessons(db.progress, lessons))
  }

  ghost function Upserted(db: Db, c: Course): Db {
    if c.lang.Unsupported? then db
    else
      var course := CourseId(db, c.lang);
      var done := WithUnits(WithCourse(db, c), course, c.units);
      if c.units == [] then done else WithoutOthers(done, course, Slugs(UnitEntries(c.units)))
  }

  class CourseStore {
    var db: Db

    constructor (db: Db)
      ensures this.db == db
    {
      this.db := db;
    }

    method UpsertRow<B>(t: Table<B>, parent: nat, slug: Slug, idx: nat, body: B) returns (t': Table<B>, id: nat)
      requires Good(t)
      ensures (t', id) == Upsert(t, parent, slug, idx, body)
    {
      id := t.next;
      var todo := t.rows.Keys;
      while todo != {}
        invariant todo <= t.rows.Keys
        invariant id == t.next && forall i :: Named(t, i, parent, slug) ==> i in todo
        decreases todo
      {
        var i :| i in todo;
        if t.rows[i].parent == parent && t.rows[i].slug == slug {
          IdOfNamed(t, i, parent, slug);
          id := i;
          break;
        }
        todo := todo - {i};
      }
      t' := Table(t.rows[id := Row(parent, slug, idx, body)], t.next + 1);
    }

    method UpsertLesson(unitId: nat, l: Lesson, li: nat)
      requires Good(db.lessons)
      modifies this
      ensures db == old(db).(lessons := Upsert(old(db.lessons), unitId, l.slug, li, Normal(l)).0) && Good(db.lessons)
    {
      var xp := l.xp;
      if xp <= 0 {
        xp := 10;
      }
      var kind := l.kind;
      if kind == NoKind {
        kind := Vocab;
      }
      UpsertKeepsGood(db.lessons, unitId, l.slug, li, LessonBody(l.title, xp, kind, l.items));
      var t, _ := UpsertRow(db.lessons, unitId, l.slug, li, LessonBody(l.title, xp, kind, l.items));
      db := db.(lessons := t);
    }

    method UpsertEachLesson(unitId: nat, u: Unit) returns (slugs: seq<Slug>)
      requires Good(db.lessons)
      modifies this
      ensures db == old(db).(lessons := UpsertAll(old(db.lessons), unitId, LessonEntries(u)))
      ensures slugs == Slugs(LessonEntries(u))
    {
      slugs := [];
      ghost var entries := LessonEntries(u);
      ghost var start := db;
      for li := 0 to |u.lessons|
        invariant |slugs| == li && forall k :: 0 <= k < li ==> slugs[k] == u.lessons[k].slug
        invariant db == start.(lessons := UpsertAll(start.lessons, unitId, entries[..li])) && Good(db.lessons)
      {
        slugs := slugs + [u.lessons[li].slug];
        UpsertLesson(unitId, u.lessons[li], li);
        assert entries[..li + 1][..li] == entries[..li];
      }
      assert entries[..|u.lessons|] == entries && slugs == Slugs(entries);
    }

    method UpsertLessons(unitId: nat, u: Unit)
      requires Good(db.lessons)
      modifies this
      ensures db == old(db).(lessons := Reconciled(old(db.lessons), unitId, LessonEntries(u)),
                             progress := OfLessons(old(db.progress), db.lessons))
    {
      var slugs := UpsertEachLesson(unitId, u);
      if |slugs| > 0 {
        db := db.(lessons := Pruned(db.lessons, unitId, slugs));
      }
      db := db.(progress := OfLessons(db.progress, db.lessons));
    }

    method UpsertUnit(courseId: nat, u: Unit, ui: nat)
      requires Good(db.units) && Good(db.lessons)
      modifies this
      ensures db == WithUnit(old(db), courseId, u, ui) && Good(db.units) && Good(db.lessons)
    {
      UpsertKeepsGood(db.units, courseId, u.slug, ui, u.title);
      var units, unitId := UpsertRow(db.units, courseId, u.slug, ui, u.title);
      db := db.(units := units);
      ReconciledTouches(db.lessons, unitId, LessonEntries(u));
      UpsertLessons(unitId, u);
    }

    method UpsertUnits(courseId: nat, units: seq<Unit>) returns (slugs: seq<Slug>)
      requires Good(db.units) && Good(db.lessons)
      modifies this
      ensures db == WithUnits(old(db), courseId, units) && slugs == Slugs(UnitEntries(units))
    {
      slugs := [];
      ghost var start := db;
      for ui := 0 to |units|
        invariant |slugs| == ui && forall k :: 0 <= k < ui ==> slugs[k] == units[k].slug
        invariant db == WithUnits(start, courseId, units[..ui])
        invariant Good(db.units) && Good(db.lessons)
      {
        slugs := slugs + [units[ui].slug];
        UpsertUnit(courseId, units[ui], ui);
        assert units[..ui + 1][..ui] == units[..ui];
      }
      assert units[..|units|] == units && slugs == Slugs(UnitEntries(units));
    }

    method UpsertCourse(c: Course) returns (ok: bool)
      requires Valid(db)
      modifies this
      ensures db == Upserted(old(db), c) && ok == !c.lang.Unsupported?
    {
      if c.lang.Unsupported? {
        return false;
      }
      var courseId := CourseId(db, c.lang);
      db := WithCourse(db, c);
      var slugs := UpsertUnits(courseId, c.units);
      if |slugs| > 0 {
        db := WithoutOthers(db, courseId, slugs);
      }
      ok := true;
    }
  }

  // ---------------------------------------------------------------- what the tables keep

  /** The unique constraints and the foreign keys. */
  ghost predicate Valid(db: Db) {
    && Good(db.units) && Good(db.lessons)
    && (forall i :: i in db.lessons.rows ==> db.lessons.rows[i].parent in db.units.rows)
    && (forall p :: p in db.progress ==> p.1 in db.lessons.rows)
    && (forall l :: l in db.courses ==> db.courses[l].id < db.nextCourse)
    && (forall l, m :: l in db.courses && m in db.courses && db.courses[l].id == db.courses[m].id ==> l == m)
  }

  ghost predicate ProperUnits(units: seq<Unit>) {
    Distinct(UnitEntries(units)) && forall k :: 0 <= k < |units| ==> Distinct(LessonEntries(units[k]))
  }

  /** The lessons of the `k`th unit are stored as listed. */
  ghost predicate LessonsStored(db: Db, course: nat, units: seq<Unit>, k: nat)
    requires k < |units|
  {
    units[k].lessons != [] ==>
      forall id :: Named(db.units, id, course, units[k].slug) ==> Lists(db.lessons, id, LessonEntries(units[k]))
  }

  /** Progress is lost exactly with its lesson. */
  ghost predicate ProgressFollows(before: Db, after: Db) {
    && after.progress == OfLessons(before.progress, after.lessons)
    && before.lessons.next <= after.lessons.next
    && forall i :: i in after.lessons.rows && i !in before.lessons.rows ==> i >= before.lessons.next
  }

  ghost predicate Foreign(db: Db, unit: nat, course: nat) {
    unit in db.units.rows && db.units.rows[unit].parent != course
  }

  /** Units and lessons outside the course stay as they are. */
  ghost predicate OthersUntouched(before: Db, after: Db, course: nat) {
    && (forall i :: i in before.units.rows && before.units.rows[i].parent != course ==>
          i in after.units.rows && after.units.rows[i] == before.units.rows[i])
    && (forall i :: i in after.units.rows && i in before.units.rows ==>
          Named(before.units, i, after.units.rows[i].parent, after.units.rows[i].slug))
    && (forall i :: i in after.units.rows && i !in before.units.rows ==>
          after.units.rows[i].parent == course && i >= before.units.next)
    && (forall j :: j in before.lessons.rows && Foreign(before, before.lessons.rows[j].parent, course) ==>
          j in after.lessons.rows && after.lessons.rows[j] == before.lessons.rows[j])
  }

  // ---------------------------------------------------------------- one unit

  lemma TouchesKeepsLists<B>(t: Table<B>, t': Table<B>, parent: nat, other: nat, entries: seq<Entry<B>>)
    requires Touches(t, t', parent) && other != parent && Lists(t, other, entries)
    ensures Lists(t', other, entries)
  {
    forall k | 0 <= k < |entries|
      ensures Stored(t', other, entries, k)
    {
      assert Stored(t, other, entries, k);
    }
  }

  lemma UnitKeepsValid(db: Db, course: nat, u: Unit, n: nat)
    requires Valid(db)
    ensures Valid(WithUnit(db, course, u, n))
  {
    var (units, id) := Upsert(db.units, course, u.slug, n, u.title);
    UpsertKeepsGood(db.units, course, u.slug, n, u.title);
    UpsertExtends(db.units, course, u.slug, n, u.title);
    ReconciledTouches(db.lessons, id, LessonEntries(u));
    var lessons := WithUnit(db, course, u, n).lessons;
    forall i | i in lessons.rows
      ensures lessons.rows[i].parent in units.rows
    {
      if lessons.rows[i].parent != id {
        assert i in db.lessons.rows && Named(lessons, i, db.lessons.rows[i].parent, db.lessons.rows[i].slug);
      }
    }
  }

  lemma UnitStored(db: Db, course: nat, units: seq<Unit>, n: nat)
    requires Valid(db) && n < |units| && ProperUnits(units)
    ensures LessonsStored(WithUnit(db, course, units[n], n), course, units, n)
  {
    var u := units[n];
    var (t, id) := Upsert(db.units, course, u.slug, n, u.title);
    UpsertKeepsGood(db.units, course, u.slug, n, u.title);
    if u.lessons != [] {
      ReconciledLists(db.lessons, id, LessonEntries(u));
      forall i | Named(t, i, course, u.slug)
        ensures i == id
      {
        IdOfNamed(t, i, course, u.slug);
      }
    }
  }

  lemma EarlierUnitStays(db: Db, course: nat, units: seq<Unit>, n: nat, k: nat)
    requires Valid(db) && k < n < |units| && ProperUnits(units)
    requires LessonsStored(db, course, units, k)
    ensures LessonsStored(WithUnit(db, course, units[n], n), course, units, k)
  {
    var u := units[n];
    var (t, id) := Upsert(db.units, course, u.slug, n, u.title);
    UpsertExtends(db.units, course, u.slug, n, u.title);
    UpsertKeepsGood(db.units, course, u.slug, n, u.title);
    ReconciledTouches(db.lessons, id, LessonEntries(u));
    var lessons := WithUnit(db, course, u, n).lessons;
    assert UnitEntries(units)[k].slug != UnitEntries(units)[n].slug;
    if units[k].lessons != [] {
      forall i | Named(t, i, course, units[k].slug)
        ensures Lists(lessons, i, LessonEntries(units[k]))
      {
        assert i != id;
        assert Named(db.units, i, course, units[k].slug);
        TouchesKeepsLists(db.lessons, lessons, id, i, LessonEntries(units[k]));
      }
    }
  }

  lemma CutTwice(progress: map<(nat, nat), nat>, first: Table<LessonBody>, second: Table<LessonBody>)
    requires forall p :: p in progress && p.1 in second.rows ==> p.1 in first.rows
    ensures OfLessons(OfLessons(progress, first), second) == OfLessons(progress, second)
  {
  }

  lemma UnitFollows(before: Db, db: Db, course: nat, u: Unit, n: nat)
    requires Valid(before) && Valid(db) && ProgressFollows(before, db)
    ensures ProgressFollows(before, WithUnit(db, course, u, n))
  {
    var id := Upsert(db.units, course, u.slug, n, u.title).1;
    ReconciledTouches(db.lessons, id, LessonEntries(u));
    var lessons := WithUnit(db, course, u, n).lessons;
    forall i | i in lessons.rows && i in before.lessons.rows
      ensures i in db.lessons.rows
    {
      assert i < before.lessons.next;
    }
    CutTwice(before.progress, db.lessons, lessons);
  }

  lemma UnitLeavesOthers(before: Db, db: Db, course: nat, u: Unit, n: nat)
    requires Valid(before) && Valid(db) && OthersUntouched(before, db, course) && before.units.next <= db.units.next
    ensures OthersUntouched(before, WithUnit(db, course, u, n), course)
            && before.units.next <= WithUnit(db, course, u, n).units.next
  {
    var (t, id) := Upsert(db.units, course, u.slug, n, u.title);
    UpsertExtends(db.units, course, u.slug, n, u.title);
    UpsertKeepsGood(db.units, course, u.slug, n, u.title);
    ReconciledTouches(db.lessons, id, LessonEntries(u));
  }

  // ---------------------------------------------------------------- all units

  lemma {:induction false} UnitsAreUpserted(db: Db, course: nat, units: seq<Unit>)
    ensures WithUnits(db, course, units).units == UpsertAll(db.units, course, UnitEntries(units))
    ensures WithUnits(db, course, units).courses == db.courses
            && WithUnits(db, course, units).nextCourse == db.nextCourse
  {
    if units != [] {
      var n := |units| - 1;
      UnitsAreUpserted(db, course, units[..n]);
      assert UnitEntries(units)[..n] == UnitEntries(units[..n]);
    }
  }

  lemma {:induction false} UnitsKept(db: Db, course: nat, units: seq<Unit>)
    requires Valid(db)
    ensures var d := WithUnits(db, course, units);
            Valid(d) && ProgressFollows(db, d) && OthersUntouched(db, d, course) && db.units.next <= d.units.next
  {
    if units == [] {
      assert OfLessons(db.progress, db.lessons) == db.progress;
    } else {
      var n := |units| - 1;
      var before := WithUnits(db, course, units[..n]);
      UnitsKept(db, course, units[..n]);
      UnitKeepsValid(before, course, units[n], n);
      UnitFollows(db, before, course, units[n], n);
      UnitLeavesOthers(db, before, course, units[n], n);
    }
  }

  lemma {:induction false} UnitsStored(db: Db, course: nat, units: seq<Unit>, k: nat)
    requires Valid(db) && ProperUnits(units) && k < |units|
    ensures LessonsStored(WithUnits(db, course, units), course, units, k)
  {
    var n := |units| - 1;
    var before := WithUnits(db, course, units[..n]);
    UnitsKept(db, course, units[..n]);
    if k == n {
      UnitStored(before, course, units, n);
    } else {
      PrefixProper(units, n);
      UnitsStored(db, course, units[..n], k);
      assert LessonsStored(before, course, units, k);
      EarlierUnitStays(before, course, units, n, k);
    }
  }

  lemma PrefixProper(units: seq<Unit>, n: nat)
    requires ProperUnits(units) && n <= |units|
    ensures ProperUnits(units[..n])
  {
    assert UnitEntries(units)[..n] == UnitEntries(units[..n]);
  }

  // ---------------------------------------------------------------- results

  /** The stored tree, each level ordered by idx, is the course; an empty list leaves its level alone. */
  ghost predicate TreeIs(db: Db, c: Course) {
    && c.lang in db.courses && db.courses[c.lang].title == c.title
    && (c.units != [] ==> Lists(db.units, db.courses[c.lang].id, UnitEntries(c.units)))
    && forall k :: 0 <= k < |c.units| ==> LessonsStored(db, db.courses[c.lang].id, c.units, k)
  }

  lemma WithCourseValid(db: Db, c: Course)
    requires Valid(db)
    ensures Valid(WithCourse(db, c))
  {
  }

  lemma WithoutOthersValid(db: Db, course: nat, slugs: seq<Slug>)
    requires Valid(db)
    ensures Valid(WithoutOthers(db, course, slugs))
  {
  }

  lemma WithoutOthersKeepsLessons(db: Db, course: nat, units: seq<Unit>, k: nat)
    requires k < |units| && LessonsStored(db, course, units, k)
    ensures LessonsStored(WithoutOthers(db, course, Slugs(UnitEntries(units))), course, units, k)
  {
    var d := WithoutOthers(db, course, Slugs(UnitEntries(units)));
    if units[k].lessons != [] {
      var entries := LessonEntries(units[k]);
      forall id | Named(d.units, id, course, units[k].slug)
        ensures Lists(d.lessons, id, entries)
      {
        assert Named(db.units, id, course, units[k].slug);
        forall j | 0 <= j < |entries|
          ensures Stored(d.lessons, id, entries, j)
        {
          assert Stored(db.lessons, id, entries, j);
          var i :| i in db.lessons.rows && db.lessons.rows[i] == Row(id, entries[j].slug, j, entries[j].body);
          assert i in d.lessons.rows;
        }
      }
    }
  }

  /** The tables stay consistent whatever the course. */
  lemma UpsertKeepsValid(db: Db, c: Course)
    requires Valid(db)
    ensures Valid(Upserted(db, c))
  {
    if !c.lang.Unsupported? {
      WithCourseValid(db, c);
      UnitsKept(WithCourse(db, c), CourseId(db, c.lang), c.units);
      WithoutOthersValid(WithUnits(WithCourse(db, c), CourseId(db, c.lang), c.units), CourseId(db, c.lang),
          Slugs(UnitEntries(c.units)));
    }
  }

  lemma ProperIsStored(db: Db, c: Course)
    requires Valid(db) && !c.lang.Unsupported? && ProperUnits(c.units)
    ensures TreeIs(Upserted(db, c), c)
  {
    var start, course := WithCourse(db, c), CourseId(db, c.lang);
    var done := WithUnits(start, course, c.units);
    WithCourseValid(db, c);
    UnitsAreUpserted(start, course, c.units);
    UnitsKept(start, course, c.units);
    if c.units != [] {
      ReconciledLists(start.units, course, UnitEntries(c.units));
    }
    forall k | 0 <= k < |c.units|
      ensures LessonsStored(Upserted(db, c), course, c.units, k)
    {
      UnitsStored(start, course, c.units, k);
      WithoutOthersKeepsLessons(done, course, c.units, k);
    }
  }

  lemma StoredIsProper(d: Db, c: Course)
    requires Valid(d) && TreeIs(d, c)
    ensures ProperUnits(c.units)
  {
    var course := d.courses[c.lang].id;
    if c.units != [] {
      ListsNeedsDistinct(d.units, course, UnitEntries(c.units));
    }
    forall k | 0 <= k < |c.units|
      ensures Distinct(LessonEntries(c.units[k]))
    {
      if c.units[k].lessons != [] {
        assert Stored(d.units, course, UnitEntries(c.units), k);
        var id :| id in d.units.rows && d.units.rows[id] == Row(course, c.units[k].slug, k, c.units[k].title);
        assert LessonsStored(d, course, c.units, k) && Named(d.units, id, course, c.units[k].slug);
        ListsNeedsDistinct(d.lessons, id, LessonEntries(c.units[k]));
      }
    }
  }

  /** After the upsert the stored tree is the course iff its slugs differ, the units' and each unit's lessons'. */
  lemma CourseIsStored(db: Db, c: Course)
    requires Valid(db) && !c.lang.Unsupported?
    ensures Valid(Upserted(db, c))
    ensures TreeIs(Upserted(db, c), c) <==> ProperUnits(c.units)
  {
    UpsertKeepsValid(db, c);
    if ProperUnits(c.units) {
      ProperIsStored(db, c);
    }
    if TreeIs(Upserted(db, c), c) {
      StoredIsProper(Upserted(db, c), c);
    }
  }

  // ---------------------------------------------------------------- what survives

  /** Every row of the course that is still listed keeps its id, and every other row of it is gone. */
  lemma SurvivorsKeepTheirIds(db: Db, c: Course, i: nat)
    requires Valid(db) && !c.lang.Unsupported? && c.units != []
    requires i in db.units.rows && db.units.rows[i].parent == CourseId(db, c.lang)
    ensures var slug := db.units.rows[i].slug; var d := Upserted(db, c);
            if slug in Slugs(UnitEntries(c.units)) then Named(d.units, i, CourseId(db, c.lang), slug)
            else i !in d.units.rows && forall j :: j in d.lessons.rows ==> d.lessons.rows[j].parent != i
  {
    UnitsAreUpserted(WithCourse(db, c), CourseId(db, c.lang), c.units);
    ReconciledKeepsIds(db.units, CourseId(db, c.lang), UnitEntries(c.units), i);
  }

  /** In its own unit's step a lesson survives under its own id exactly if the unit still lists its slug. */
  lemma OwnUnitStep(db: Db, course: nat, u: Unit, n: nat, j: nat)
    requires Valid(db) && u.lessons != []
    requires j in db.lessons.rows && Named(db.units, db.lessons.rows[j].parent, course, u.slug)
    ensures var l := db.lessons.rows[j]; var d := WithUnit(db, course, u, n);
            if l.slug in Slugs(LessonEntries(u)) then Named(d.lessons, j, l.parent, l.slug) else j !in d.lessons.rows
  {
    IdOfNamed(db.units, db.lessons.rows[j].parent, course, u.slug);
    ReconciledKeepsIds(db.lessons, db.lessons.rows[j].parent, LessonEntries(u), j);
  }

  /** In another unit's step nothing happens to it. */
  lemma OtherUnitStep(db: Db, course: nat, u: Unit, n: nat, unit: nat, slug: Slug, j: nat)
    requires Valid(db) && Named(db.units, unit, course, slug) && slug != u.slug && j < db.lessons.next
    requires j in db.lessons.rows ==> db.lessons.rows[j].parent == unit
    ensures var d := WithUnit(db, course, u, n);
            && Named(d.units, unit, course, slug) && j < d.lessons.next
            && (j in d.lessons.rows <==> j in db.lessons.rows)
            && (j in db.lessons.rows ==> d.lessons.rows[j] == db.lessons.rows[j])
  {
    var id := Upsert(db.units, course, u.slug, n, u.title).1;
    UpsertExtends(db.units, course, u.slug, n, u.title);
    UpsertKeepsGood(db.units, course, u.slug, n, u.title);
    ReconciledTouches(db.lessons, id, LessonEntries(u));
  }

  ghost predicate Survives(db: Db, d: Db, course: nat, u: Unit, j: nat)
    requires j in db.lessons.rows
  {
    var l := db.lessons.rows[j];
    && Named(d.units, l.parent, course, u.slug) && j < d.lessons.next
    && if l.slug in Slugs(LessonEntries(u)) then Named(d.lessons, j, l.parent, l.slug) else j !in d.lessons.rows
  }

  lemma {:induction false} BeforeItsUnit(db: Db, course: nat, units: seq<Unit>, slug: Slug, j: nat)
    requires Valid(db) && j in db.lessons.rows && Named(db.units, db.lessons.rows[j].parent, course, slug)
    requires slug !in Slugs(UnitEntries(units))
    ensures var d := WithUnits(db, course, units);
            && Named(d.units, db.lessons.rows[j].parent, course, slug)
            && j in d.lessons.rows && d.lessons.rows[j] == db.lessons.rows[j]
  {
    if units != [] {
      var n := |units| - 1;
      assert Slugs(UnitEntries(units))[n] == units[n].slug;
      assert Slugs(UnitEntries(units[..n])) == Slugs(UnitEntries(units))[..n];
      BeforeItsUnit(db, course, units[..n], slug, j);
      UnitsKept(db, course, units[..n]);
      OtherUnitStep(WithUnits(db, course, units[..n]), course, units[n], n, db.lessons.rows[j].parent, slug, j);
    }
  }

  lemma AtItsUnit(db: Db, course: nat, units: seq<Unit>, j: nat)
    requires Valid(db) && ProperUnits(units) && units != [] && units[|units| - 1].lessons != []
    requires j in db.lessons.rows && Named(db.units, db.lessons.rows[j].parent, course, units[|units| - 1].slug)
    ensures Survives(db, WithUnits(db, course, units), course, units[|units| - 1], j)
  {
    var n := |units| - 1;
    var before := WithUnits(db, course, units[..n]);
    UnitsKept(db, course, units[..n]);
    forall m | 0 <= m < n
      ensures Slugs(UnitEntries(units[..n]))[m] != units[n].slug
    {
      assert UnitEntries(units)[m].slug != UnitEntries(units)[n].slug;
    }
    BeforeItsUnit(db, course, units[..n], units[n].slug, j);
    OwnUnitStep(before, course, units[n], n, j);
    UnitKeepsItsRow(before, course, units[n], n, db.lessons.rows[j].parent);
  }

  lemma {:induction false} FromItsUnitOn(db: Db, course: nat, units: seq<Unit>, k: nat, j: nat)
    requires Valid(db) && ProperUnits(units) && k < |units| && units[k].lessons != []
    requires j in db.lessons.rows && Named(db.units, db.lessons.rows[j].parent, course, units[k].slug)
    ensures Survives(db, WithUnits(db, course, units), course, units[k], j)
  {
    var n := |units| - 1;
    var before := WithUnits(db, course, units[..n]);
    UnitsKept(db, course, units[..n]);
    if k == n {
      AtItsUnit(db, course, units, j);
    } else {
      PrefixProper(units, n);
      FromItsUnitOn(db, course, units[..n], k, j);
      assert UnitEntries(units)[k].slug != UnitEntries(units)[n].slug;
      OtherUnitStep(before, course, units[n], n, db.lessons.rows[j].parent, units[k].slug, j);
    }
  }

  lemma UnitKeepsItsRow(db: Db, course: nat, u: Unit, n: nat, id: nat)
    requires Valid(db) && Named(db.units, id, course, u.slug)
    ensures Named(WithUnit(db, course, u, n).units, id, course, u.slug)
    ensures db.lessons.next <= WithUnit(db, course, u, n).lessons.next
  {
    UpsertExtends(db.units, course, u.slug, n, u.title);
    ReconciledTouches(db.lessons, Upsert(db.units, course, u.slug, n, u.title).1, LessonEntries(u));
  }

  /**
   A lesson of a unit that is still part of the course keeps its id if the unit still lists it, and is gone
   otherwise.
   */
  lemma LessonsKeepTheirIds(db: Db, c: Course, k: nat, j: nat)
    requires Valid(db) && !c.lang.Unsupported? && ProperUnits(c.units) && k < |c.units| && c.units[k].lessons != []
    requires j in db.lessons.rows && Named(db.units, db.lessons.rows[j].parent, CourseId(db, c.lang), c.units[k].slug)
    ensures var l := db.lessons.rows[j]; var d := Upserted(db, c);
            if l.slug in Slugs(LessonEntries(c.units[k])) then Named(d.lessons, j, l.parent, l.slug)
            else j !in d.lessons.rows
  {
    WithCourseValid(db, c);
    FromItsUnitOn(WithCourse(db, c), CourseId(db, c.lang), c.units, k, j);
    assert Slugs(UnitEntries(c.units))[k] == c.units[k].slug;
  }

  lemma CutLeavesOthers(before: Db, db: Db, course: nat, slugs: seq<Slug>)
    requires Valid(before) && Valid(db) && OthersUntouched(before, db, course)
    ensures OthersUntouched(before, WithoutOthers(db, course, slugs), course)
  {
    var d := WithoutOthers(db, course, slugs);
    forall j | j in before.lessons.rows && Foreign(before, before.lessons.rows[j].parent, course)
      ensures j in d.lessons.rows && d.lessons.rows[j] == before.lessons.rows[j]
    {
      assert before.lessons.rows[j].parent in d.units.rows;
    }
  }

  lemma CutFollows(before: Db, db: Db, course: nat, slugs: seq<Slug>)
    requires Valid(before) && Valid(db) && ProgressFollows(before, db)
    ensures ProgressFollows(before, WithoutOthers(db, course, slugs))
  {
    CutTwice(before.progress, db.lessons, WithoutOthers(db, course, slugs).lessons);
  }

  lemma SameStart(db: Db, start: Db, d: Db, course: nat)
    requires start.units == db.units && start.lessons == db.lessons && start.progress == db.progress
    ensures OthersUntouched(start, d, course) ==> OthersUntouched(db, d, course)
    ensures ProgressFollows(start, d) ==> ProgressFollows(db, d)
  {
    if OthersUntouched(start, d, course) {
      forall j | j in db.lessons.rows && Foreign(db, db.lessons.rows[j].parent, course)
        ensures j in d.lessons.rows && d.lessons.rows[j] == db.lessons.rows[j]
      {
        assert Foreign(start, db.lessons.rows[j].parent, course);
      }
    }
  }

  /** Progress is lost exactly with its lesson, and other courses' units and lessons are untouched. */
  lemma ProgressStaysWithLessons(db: Db, c: Course)
    requires Valid(db) && !c.lang.Unsupported?
    ensures ProgressFollows(db, Upserted(db, c)) && OthersUntouched(db, Upserted(db, c), CourseId(db, c.lang))
  {
    var start, course, slugs := WithCourse(db, c), CourseId(db, c.lang), Slugs(UnitEntries(c.units));
    var done := WithUnits(start, course, c.units);
    WithCourseValid(db, c);
    UnitsKept(start, course, c.units);
    if c.units != [] {
      CutFollows(start, done, course, slugs);
      CutLeavesOthers(start, done, course, slugs);
    }
    SameStart(db, start, Upserted(db, c), course);
  }

  /** Course rows keep their ids. */
  lemma CoursesKeepTheirIds(db: Db, c: Course, l: Lang)
    requires l in db.courses
    ensures l in Upserted(db, c).courses && Upserted(db, c).courses[l].id == db.courses[l].id
  {
    UnitsAreUpserted(WithCourse(db, c), CourseId(db, c.lang), c.units);
  }

  // ---------------------------------------------------------------- a second run

  lemma UnitAgain(db: Db, course: nat, units: seq<Unit>, n: nat)
    requires Valid(db) && n < |units|
    requires Stored(db.units, course, UnitEntries(units), n) && LessonsStored(db, course, units, n)
    ensures var d := WithUnit(db, course, units[n], n);
            d.units.rows == db.units.rows && d.lessons.rows == db.lessons.rows && d.progress == db.progress
                && d.courses == db.courses
  {
    var u := units[n];
    var i :| i in db.units.rows && db.units.rows[i] == Row(course, u.slug, n, u.title);
    IdOfNamed(db.units, i, course, u.slug);
    ReconciledAgain(db.lessons, i, LessonEntries(u));
    assert OfLessons(db.progress, db.lessons) == db.progress;
  }

  ghost predicate SameRows(a: Db, b: Db) {
    a.courses == b.courses && a.units.rows == b.units.rows && a.lessons.rows == b.lessons.rows
        && a.progress == b.progress
  }

  lemma SameRowsSameLessons(a: Db, b: Db, course: nat, units: seq<Unit>, k: nat)
    requires SameRows(a, b) && k < |units| && LessonsStored(a, course, units, k)
    ensures LessonsStored(b, course, units, k)
  {
    if units[k].lessons != [] {
      var entries := LessonEntries(units[k]);
      forall id | Named(b.units, id, course, units[k].slug)
        ensures Lists(b.lessons, id, entries)
      {
        assert Named(a.units, id, course, units[k].slug);
        forall j | 0 <= j < |entries|
          ensures Stored(b.lessons, id, entries, j)
        {
          assert Stored(a.lessons, id, entries, j);
        }
      }
    }
  }

  lemma SameRowsUnitAgain(db: Db, before: Db, course: nat, units: seq<Unit>, n: nat)
    requires SameRows(db, before) && Valid(before) && n < |units|
    requires Lists(db.units, course, UnitEntries(units)) && LessonsStored(db, course, units, n)
    ensures SameRows(db, WithUnit(before, course, units[n], n))
  {
    SameRowsSameLessons(db, before, course, units, n);
    assert Stored(db.units, course, UnitEntries(units), n);
    assert Stored(before.units, course, UnitEntries(units), n);
    UnitAgain(before, course, units, n);
  }

  lemma OneMoreUnit(db: Db, course: nat, units: seq<Unit>, n: nat)
    requires n < |units| && Lists(db.units, course, UnitEntries(units)) && LessonsStored(db, course, units, n)
    requires SameRows(db, WithUnits(db, course, units[..n])) && Valid(WithUnits(db, course, units[..n]))
    ensures SameRows(db, WithUnits(db, course, units[..n + 1]))
  {
    SameRowsUnitAgain(db, WithUnits(db, course, units[..n]), course, units, n);
    assert units[..n + 1][..n] == units[..n];
  }

  lemma {:induction false} UnitsAgain(db: Db, course: nat, units: seq<Unit>, n: nat)
    requires Valid(db) && n <= |units| && Lists(db.units, course, UnitEntries(units))
    requires forall k :: 0 <= k < |units| ==> LessonsStored(db, course, units, k)
    ensures SameRows(db, WithUnits(db, course, units[..n])) && Valid(WithUnits(db, course, units[..n]))
  {
    UnitsKept(db, course, units[..n]);
    if n > 0 {
      UnitsAgain(db, course, units, n - 1);
      OneMoreUnit(db, course, units, n - 1);
    }
  }

  lemma CutAgain(db: Db, course: nat, entries: seq<Entry<Text>>)
    requires Valid(db) && Lists(db.units, course, entries)
    ensures SameRows(db, WithoutOthers(db, course, Slugs(entries)))
  {
    forall i | i in db.units.rows && db.units.rows[i].parent == course
      ensures db.units.rows[i].slug in Slugs(entries)
    {
      assert Slugs(entries)[db.units.rows[i].idx] == db.units.rows[i].slug;
    }
    assert WithoutOthers(db, course, Slugs(entries)).units.rows == db.units.rows;
  }

  lemma SameRowsSameUnits(a: Db, b: Db, course: nat, units: seq<Unit>)
    requires SameRows(a, b) && Lists(a.units, course, UnitEntries(units))
    ensures Lists(b.units, course, UnitEntries(units))
  {
    forall k | 0 <= k < |units|
      ensures Stored(b.units, course, UnitEntries(units), k)
    {
      assert Stored(a.units, course, UnitEntries(units), k);
    }
  }

  /** Seeding a course that is already stored changes no row at all: ids and progress included. */
  lemma SecondRunChangesNothing(db: Db, c: Course)
    requires Valid(db) && !c.lang.Unsupported? && ProperUnits(c.units)
    ensures SameRows(Upserted(db, c), Upserted(Upserted(db, c), c))
  {
    CourseIsStored(db, c);
    AlreadyStored(Upserted(db, c), c);
  }

  lemma AlreadyStored(d: Db, c: Course)
    requires Valid(d) && !c.lang.Unsupported? && TreeIs(d, c)
    ensures SameRows(d, Upserted(d, c))
  {
    var start, course := WithCourse(d, c), CourseId(d, c.lang);
    WithCourseValid(d, c);
    assert start.courses == d.courses;
    if c.units != [] {
      SameRowsSameUnits(d, start, course, c.units);
      forall k | 0 <= k < |c.units|
        ensures LessonsStored(start, course, c.units, k)
      {
        SameRowsSameLessons(d, start, course, c.units, k);
      }
      UnitsAgain(start, course, c.units, |c.units|);
      assert c.units[..|c.units|] == c.units;
      var done := WithUnits(start, course, c.units);
      SameRowsSameUnits(d, done, course, c.units);
      CutAgain(done, course, UnitEntries(c.units));
    }
  }

  // ---------------------------------------------------------------- defaults

  /** Every stored lesson is worth some XP and has a kind. */
  ghost predicate Playable(lessons: Table<LessonBody>) {
    forall i :: i in lessons.rows ==> lessons.rows[i].body.xp > 0 && lessons.rows[i].body.kind != NoKind
  }

  lemma {:induction false} UnitsStayPlayable(db: Db, course: nat, units: seq<Unit>)
    requires Playable(db.lessons)
    ensures Playable(WithUnits(db, course, units).lessons)
  {
    if units != [] {
      var n := |units| - 1;
      var before := WithUnits(db, course, units[..n]);
      UnitsStayPlayable(db, course, units[..n]);
      var id := Upsert(before.units, course, units[n].slug, n, units[n].title).1;
      forall i | i in WithUnits(db, course, units).lessons.rows
        ensures WithUnits(db, course, units).lessons.rows[i].body.xp > 0
                && WithUnits(db, course, units).lessons.rows[i].body.kind != NoKind
      {
        ReconciledBodies(before.lessons, id, LessonEntries(units[n]), i);
      }
    }
  }

  /** The defaults see to it: no course, whatever XP or kinds it gives, stores a lesson worth nothing. */
  lemma LessonsStayPlayable(db: Db, c: Course)
    requires Playable(db.lessons)
    ensures Playable(Upserted(db, c).lessons)
  {
    UnitsStayPlayable(WithCourse(db, c), CourseId(db, c.lang), c.units);
  }

  // ---------------------------------------------------------------- what is stored of a lesson

  /** What a lesson is stored as: its own title and items, its XP if it has any, its kind if it has one. */
  ghost predicate Keeps(l: Lesson, b: LessonBody) {
    && b.title == l.title && b.items == l.items
    && b.xp == (if l.xp > 0 then l.xp else 10)
    && (l.kind != NoKind ==> b.kind == l.kind) && (l.kind == NoKind ==> b.kind == Vocab)
  }

  /** Every lesson of a course is stored in its unit, at its place, with what it says. */
  lemma LessonsAreStored(db: Db, c: Course, k: nat, m: nat)
    requires Valid(db) && !c.lang.Unsupported? && ProperUnits(c.units)
    requires k < |c.units| && m < |c.units[k].lessons|
    ensures var d := Upserted(db, c); var l := c.units[k].lessons[m];
            && c.lang in d.courses
            && exists u, i :: Named(d.units, u, d.courses[c.lang].id, c.units[k].slug)
                 && u in d.units.rows && d.units.rows[u].idx == k && d.units.rows[u].body == c.units[k].title
                 && i in d.lessons.rows && d.lessons.rows[i].parent == u && d.lessons.rows[i].idx == m
                 && d.lessons.rows[i].slug == l.slug && Keeps(l, d.lessons.rows[i].body)
  {
    CourseIsStored(db, c);
    var d, course := Upserted(db, c), Upserted(db, c).courses[c.lang].id;
    assert Stored(d.units, course, UnitEntries(c.units), k);
    var u :| u in d.units.rows && d.units.rows[u] == Row(course, c.units[k].slug, k, c.units[k].title);
    assert LessonsStored(d, course, c.units, k) && Named(d.units, u, course, c.units[k].slug);
    var entries := LessonEntries(c.units[k]);
    assert Stored(d.lessons, u, entries, m);
    var i :| i in d.lessons.rows && d.lessons.rows[i] == Row(u, entries[m].slug, m, entries[m].body);
    assert Keeps(c.units[k].lessons[m], d.lessons.rows[i].body);
  }
}
