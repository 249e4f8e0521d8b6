/** Which issues the anchored matches report, with what, and where each extract is taken to stand. */
module AnchorReports {
  import opened Common
  import opened Utf
  import opened Anchor

  // ---------------------------------------------------------------- the first usable fixes

  predicate UsableFix(f: Bytes, wrong: Bytes, trim: Bytes -> Bytes) { trim(f) != [] && trim(f) != wrong }

  /**
   `r` are the first usable fixes, trimmed and in order, `room` of them if there are as many; `from` are their
   places.
   */
  ghost predicate FirstUsable(fixes: seq<Bytes>, wrong: Bytes, trim: Bytes -> Bytes, room: nat, r: seq<Bytes>,
      from: seq<nat>) {
    && |from| == |r| <= room
    && (forall i :: 0 <= i < |r| ==>
          from[i] < |fixes| && UsableFix(fixes[from[i]], wrong, trim) && r[i] == trim(fixes[from[i]]))
    && (forall i, j :: 0 <= i < j < |r| ==> from[i] < from[j])
    && (forall k :: 0 <= k < |fixes| && UsableFix(fixes[k], wrong, trim) && k !in from ==>
          |r| == room && forall i :: 0 <= i < |r| ==> from[i] < k)
  }

  /** The fixes kept are the first usable ones. */
  lemma {:induction false} KeptAreTheFirst(fixes: seq<Bytes>, wrong: Bytes, trim: Bytes -> Bytes, room: nat)
      returns (from: seq<nat>)
    ensures FirstUsable(fixes, wrong, trim, room, Kept(fixes, wrong, trim, room), from)
  {
    if fixes == [] || room == 0 {
      return [];
    }
    if UsableFix(fixes[0], wrong, trim) {
      var later := KeptAreTheFirst(fixes[1..], wrong, trim, room - 1);
      from := [0] + Later(later);
      WithTheFirst(fixes, wrong, trim, room, Kept(fixes[1..], wrong, trim, room - 1), later);
    } else {
      var later := KeptAreTheFirst(fixes[1..], wrong, trim, room);
      from := Later(later);
      WithoutTheFirst(fixes, wrong, trim, room, Kept(fixes, wrong, trim, room), later);
    }
  }

  function Later(from: seq<nat>): seq<nat> { seq(|from|, i requires 0 <= i < |from| => from[i] + 1) }

  lemma LaterHas(from: seq<nat>, k: nat)
    requires k > 0
    ensures k in Later(from) <==> k - 1 in from
  {
    if k - 1 in from {
      var i :| 0 <= i < |from| && from[i] == k - 1;
      assert Later(from)[i] == k;
    }
  }

  lemma WithoutTheFirst(fixes: seq<Bytes>, wrong: Bytes, trim: Bytes -> Bytes, room: nat, r: seq<Bytes>,
      later: seq<nat>)
    requires fixes != [] && !UsableFix(fixes[0], wrong, trim)
    requires FirstUsable(fixes[1..], wrong, trim, room, r, later)
    ensures FirstUsable(fixes, wrong, trim, room, r, Later(later))
  {
    forall k | 0 <= k < |fixes| && UsableFix(fixes[k], wrong, trim) && k !in Later(later)
      ensures |r| == room && forall i :: 0 <= i < |r| ==> Later(later)[i] < k
    {
      assert fixes[1..][k - 1] == fixes[k];
      LaterHas(later, k);
    }
  }

  lemma FirstShifts(fixes: seq<Bytes>, wrong: Bytes, trim: Bytes -> Bytes, room: nat, r: seq<Bytes>, later: seq<nat>,
      i: nat)
    requires fixes != [] && UsableFix(fixes[0], wrong, trim) && room > 0
    requires FirstUsable(fixes[1..], wrong, trim, room - 1, r, later) && i <= |r|
    ensures var from, r' := [0] + Later(later), [trim(fixes[0])] + r;
            && from[i] < |fixes| && UsableFix(fixes[from[i]], wrong, trim) && r'[i] == trim(fixes[from[i]])
            && forall j :: 0 <= j < i ==> from[j] < from[i]
  {
    if i > 0 {
      var from := [0] + Later(later);
      assert from[i] == later[i - 1] + 1 && fixes[1..][later[i - 1]] == fixes[from[i]];
      assert forall j :: 0 < j < i ==> from[j] == later[j - 1] + 1;
    }
  }

  lemma WithTheFirst(fixes: seq<Bytes>, wrong: Bytes, trim: Bytes -> Bytes, room: nat, r: seq<Bytes>, later: seq<nat>)
    requires fixes != [] && UsableFix(fixes[0], wrong, trim) && room > 0
    requires FirstUsable(fixes[1..], wrong, trim, room - 1, r, later)
    ensures FirstUsable(fixes, wrong, trim, room, [trim(fixes[0])] + r, [0] + Later(later))
  {
    forall i | 0 <= i <= |r|
      ensures var from, r' := [0] + Later(later), [trim(fixes[0])] + r;
              && from[i] < |fixes| && UsableFix(fixes[from[i]], wrong, trim) && r'[i] == trim(fixes[from[i]])
              && forall j :: 0 <= j < i ==> from[j] < from[i]
    {
      FirstShifts(fixes, wrong, trim, room, r, later, i);
    }
    forall k | 0 <= k < |fixes| && UsableFix(fixes[k], wrong, trim) && k !in [0] + Later(later)
      ensures 1 + |r| == room && forall i :: 0 <= i <= |r| ==> ([0] + Later(later))[i] < k
    {
      FirstBefore(fixes, wrong, trim, room, r, later, k);
    }
  }

  lemma FirstBefore(fixes: seq<Bytes>, wrong: Bytes, trim: Bytes -> Bytes, room: nat, r: seq<Bytes>, later: seq<nat>,
      k: nat)
    requires fixes != [] && room > 0 && FirstUsable(fixes[1..], wrong, trim, room - 1, r, later)
    requires k < |fixes| && UsableFix(fixes[k], wrong, trim) && k !in [0] + Later(later)
    ensures 1 + |r| == room && forall i :: 0 <= i <= |r| ==> ([0] + Later(later))[i] < k
  {
    assert ([0] + Later(later))[0] == 0 && k > 0;
    assert k !in Later(later);
    assert fixes[1..][k - 1] == fixes[k];
    LaterHas(later, k);
  }

  // ---------------------------------------------------------------- which issues are reported

  /** Well formed, in the text, and with something to show: a usable fix or a note. */
  ghost predicate Reportable(text: Bytes, e: Issue, trim: Bytes -> Bytes) {
    && e.wrong != [] && Valid(e.wrong) && (exists j: nat :: Occurs(text, j, e.wrong))
    && (trim(e.note) != [] || exists f :: f in e.fixes && UsableFix(f, e.wrong, trim))
  }

  /** How many issues from `k` on and before `j` are reportable. */
  ghost function ReportableFrom(text: Bytes, errs: seq<Issue>, trim: Bytes -> Bytes, k: nat, j: nat): nat
    requires j <= |errs|
    decreases j - k
  {
    if k >= j then 0
    else (if Reportable(text, errs[k], trim) then 1 else 0) + ReportableFrom(text, errs, trim, k + 1, j)
  }

  /** Issue `k` is reported in `plan`. */
  ghost predicate IsIn(plan: seq<Pick>, k: nat) { exists i :: 0 <= i < |plan| && plan[i].issue == k }

  /** It shows the trimmed note and the first five usable fixes. */
  ghost predicate ShowsAll(errs: seq<Issue>, p: Pick, trim: Bytes -> Bytes) {
    && p.issue < |errs| && p.note == trim(errs[p.issue].note)
    && exists from :: FirstUsable(errs[p.issue].fixes, errs[p.issue].wrong, trim, MAX_FIXES, p.repl, from)
  }

  lemma AcceptedIffReportable(text: Bytes, errs: seq<Issue>, k: nat, cursor: nat, trim: Bytes -> Bytes)
    requires k < |errs|
    ensures Accept(text, errs, k, cursor, trim).Some? <==> Reportable(text, errs[k], trim)
    ensures Accept(text, errs, k, cursor, trim).Some? ==>
              var p := Accept(text, errs, k, cursor, trim).value; p.issue == k && ShowsAll(errs, p, trim)
  {
    var e := errs[k];
    LocateIsExact(text, e.wrong, cursor);
    var from := KeptAreTheFirst(e.fixes, e.wrong, trim, MAX_FIXES);
    var repl := Kept(e.fixes, e.wrong, trim, MAX_FIXES);
    if repl != [] {
      assert e.fixes[from[0]] in e.fixes;
    }
    if f :| f in e.fixes && UsableFix(f, e.wrong, trim) {
      var i :| 0 <= i < |e.fixes| && e.fixes[i] == f;
      assert i in from || |repl| == MAX_FIXES;
    }
  }

  lemma {:induction false} PlanReports(text: Bytes, errs: seq<Issue>, k: nat, cursor: nat, room: nat,
      trim: Bytes -> Bytes, j: nat)
    requires k <= j < |errs|
    ensures var plan := Plan(text, errs, k, cursor, room, trim);
            IsIn(plan, j) <==> Reportable(text, errs[j], trim) && ReportableFrom(text, errs, trim, k, j) < room
    decreases |errs| - k
  {
    if room > 0 {
      AcceptedIffReportable(text, errs, k, cursor, trim);
      var a := Accept(text, errs, k, cursor, trim);
      var after := if a.Some? then Advance(cursor, a.value.at + |errs[k].wrong|) else cursor;
      var left := if a.Some? then room - 1 else room;
      var rest := Plan(text, errs, k + 1, after, left, trim);
      PlanIsGood(text, errs, k + 1, after, left, trim);
      if k < j {
        PlanReports(text, errs, k + 1, after, left, trim, j);
        if a.Some? {
          InRest(a.value, rest, j);
        }
      } else {
        FirstIsIn(a, rest, k);
      }
    }
  }

  lemma FirstIsIn(a: Option<Pick>, rest: seq<Pick>, k: nat)
    requires (a.Some? ==> a.value.issue == k) && forall i :: 0 <= i < |rest| ==> k + 1 <= rest[i].issue
    ensures IsIn(if a.Some? then [a.value] + rest else rest, k) <==> a.Some?
  {
    if a.Some? {
      assert ([a.value] + rest)[0] == a.value;
    }
  }

  lemma InRest(p: Pick, rest: seq<Pick>, j: nat)
    requires p.issue != j
    ensures IsIn([p] + rest, j) <==> IsIn(rest, j)
  {
    var plan := [p] + rest;
    assert forall i :: 0 <= i < |rest| ==> plan[i + 1] == rest[i];
    assert forall i :: 0 < i < |plan| ==> plan[i] == rest[i - 1];
  }

  lemma {:induction false} PlanShowsAll(text: Bytes, errs: seq<Issue>, k: nat, cursor: nat, room: nat,
      trim: Bytes -> Bytes, i: nat)
    requires i < |Plan(text, errs, k, cursor, room, trim)|
    ensures ShowsAll(errs, Plan(text, errs, k, cursor, room, trim)[i], trim)
    decreases |errs| - k
  {
    AcceptedIffReportable(text, errs, k, cursor, trim);
    match Accept(text, errs, k, cursor, trim)
    case None => PlanShowsAll(text, errs, k + 1, cursor, room, trim, i);
    case Some(p) =>
      if i > 0 {
        PlanShowsAll(text, errs, k + 1, Advance(cursor, p.at + |errs[k].wrong|), room - 1, trim, i - 1);
      }
  }

  /** Match `m` reports issue `e`: its place in the text, its trimmed note, its first five usable fixes. */
  ghost predicate Tells(text: Bytes, e: Issue, trim: Bytes -> Bytes, m: Match) {
    && Selects(text, m, e) && m.message == trim(e.note)
    && exists from :: FirstUsable(e.fixes, e.wrong, trim, MAX_FIXES, m.replacements, from)
  }

  /**
   The matches tell, in order, of the issues numbered in `issues`: of those that are reportable with fewer than
   ten reportable ones before them, and of no others.
   */
  ghost predicate TellsOf(text: Bytes, errs: seq<Issue>, trim: Bytes -> Bytes, ms: seq<Match>, issues: seq<nat>) {
    && |issues| == |ms|
    && (forall i, j :: 0 <= i < j < |issues| ==> issues[i] < issues[j])
    && (forall i :: 0 <= i < |ms| ==> issues[i] < |errs| && Tells(text, errs[issues[i]], trim, ms[i]))
    && (forall k :: 0 <= k < |errs| ==>
          (k in issues <==> Reportable(text, errs[k], trim) && ReportableFrom(text, errs, trim, 0, k) < MAX_MATCHES))
  }

  function IssuesOf(plan: seq<Pick>): seq<nat> { seq(|plan|, i requires 0 <= i < |plan| => plan[i].issue) }

  lemma InIssues(plan: seq<Pick>, k: nat)
    ensures k in IssuesOf(plan) <==> IsIn(plan, k)
  {
    if i :| 0 <= i < |plan| && plan[i].issue == k {
      assert IssuesOf(plan)[i] == k;
    }
  }

  /** For every text and every list of issues, exactly the first ten reportable issues are told of, each in full. */
  lemma FirstTenAreReported(text: Bytes, errs: seq<Issue>, trim: Bytes -> Bytes, ms: seq<Match>)
    requires Renders(text, errs, ms, Plan(text, errs, 0, 0, MAX_MATCHES, trim))
    ensures TellsOf(text, errs, trim, ms, IssuesOf(Plan(text, errs, 0, 0, MAX_MATCHES, trim)))
  {
    var plan := Plan(text, errs, 0, 0, MAX_MATCHES, trim);
    var issues := IssuesOf(plan);
    EveryMatchSelectsItsExtract(text, errs, trim, ms);
    forall i | 0 <= i < |ms|
      ensures Tells(text, errs[issues[i]], trim, ms[i])
    {
      PlanShowsAll(text, errs, 0, 0, MAX_MATCHES, trim, i);
    }
    forall k | 0 <= k < |errs|
      ensures k in issues <==> Reportable(text, errs[k], trim) && ReportableFrom(text, errs, trim, 0, k) < MAX_MATCHES
    {
      InIssues(plan, k);
      PlanReports(text, errs, 0, 0, MAX_MATCHES, trim, k);
    }
  }

  // ---------------------------------------------------------------- where an extract stands

  /** Position `x` is past the cursor and past every extract anchored so far. */
  ghost predicate Past(errs: seq<Issue>, picks: seq<Pick>, cursor: nat, x: nat)
    requires forall i :: 0 <= i < |picks| ==> picks[i].issue < |errs|
  {
    cursor <= x && forall i :: 0 <= i < |picks| ==> picks[i].at + |errs[picks[i].issue].wrong| <= x
  }

  /** At its first occurrence past everything before it, or, if it has none there, at its first in the text. */
  ghost predicate StandsNext(text: Bytes, errs: seq<Issue>, before: seq<Pick>, cursor: nat, w: Bytes, at: nat)
    requires forall i :: 0 <= i < |before| ==> before[i].issue < |errs|
  {
    && Occurs(text, at, w)
    && (if exists x: nat :: Past(errs, before, cursor, x) && Occurs(text, x, w)
        then
          && Past(errs, before, cursor, at)
          && forall x: nat :: Past(errs, before, cursor, x) && Occurs(text, x, w) ==> at <= x
        else forall x: nat :: Occurs(text, x, w) ==> at <= x)
  }

  /** Each extract stands where a reader looking for it from left to right would find it. */
  lemma {:induction false} EachStandsNext(text: Bytes, errs: seq<Issue>, k: nat, cursor: nat, room: nat,
      trim: Bytes -> Bytes, j: nat)
    requires j < |Plan(text, errs, k, cursor, room, trim)|
    ensures var plan := Plan(text, errs, k, cursor, room, trim);
            && (forall i :: 0 <= i < |plan| ==> plan[i].issue < |errs|)
            && StandsNext(text, errs, plan[..j], cursor, errs[plan[j].issue].wrong, plan[j].at)
    decreases |errs| - k
  {
    var plan := Plan(text, errs, k, cursor, room, trim);
    PlanIsGood(text, errs, k, cursor, room, trim);
    match Accept(text, errs, k, cursor, trim)
    case None => EachStandsNext(text, errs, k + 1, cursor, room, trim, j);
    case Some(p) =>
      if j == 0 {
        StandsFirst(text, errs, cursor, errs[k].wrong);
        assert plan[..0] == [] && plan[0] == p;
      } else {
        var after := Advance(cursor, p.at + |errs[k].wrong|);
        var rest := Plan(text, errs, k + 1, after, room - 1, trim);
        EachStandsNext(text, errs, k + 1, after, room - 1, trim, j - 1);
        StandsInside(text, errs, p, rest, cursor, j);
      }
  }

  lemma StandsFirst(text: Bytes, errs: seq<Issue>, cursor: nat, w: Bytes)
    requires Locate(text, w, cursor).Some?
    ensures StandsNext(text, errs, [], cursor, w, Locate(text, w, cursor).value)
  {
    LocateIsExact(text, w, cursor);
    assert forall x: nat :: Past(errs, [], cursor, x) <==> cursor <= x;
  }

  lemma StandsInside(text: Bytes, errs: seq<Issue>, p: Pick, rest: seq<Pick>, cursor: nat, j: nat)
    requires 0 < j <= |rest| && p.issue < |errs| && forall i :: 0 <= i < |rest| ==> rest[i].issue < |errs|
    requires StandsNext(text, errs, rest[..j - 1], Advance(cursor, p.at + |errs[p.issue].wrong|),
                        errs[rest[j - 1].issue].wrong, rest[j - 1].at)
    ensures var plan := [p] + rest;
            && (forall i :: 0 <= i < |plan| ==> plan[i].issue < |errs|)
            && StandsNext(text, errs, plan[..j], cursor, errs[plan[j].issue].wrong, plan[j].at)
  {
    var plan := [p] + rest;
    assert plan[..j][1..] == rest[..j - 1] && plan[j] == rest[j - 1];
    StandsBehind(text, errs, plan[..j], cursor, errs[plan[j].issue].wrong, plan[j].at);
  }

  lemma StandsBehind(text: Bytes, errs: seq<Issue>, before: seq<Pick>, cursor: nat, w: Bytes, at: nat)
    requires before != [] && forall i :: 0 <= i < |before| ==> before[i].issue < |errs|
    requires StandsNext(text, errs, before[1..], Advance(cursor, before[0].at + |errs[before[0].issue].wrong|), w, at)
    ensures StandsNext(text, errs, before, cursor, w, at)
  {
    var after := Advance(cursor, before[0].at + |errs[before[0].issue].wrong|);
    forall x: nat
      ensures Past(errs, before, cursor, x) <==> Past(errs, before[1..], after, x)
    {
      PastTheFirst(errs, before, cursor, x);
    }
  }

  lemma PastTheFirst(errs: seq<Issue>, picks: seq<Pick>, cursor: nat, x: nat)
    requires picks != [] && forall i :: 0 <= i < |picks| ==> picks[i].issue < |errs|
    ensures Past(errs, picks, cursor, x) <==>
            Past(errs, picks[1..], Advance(cursor, picks[0].at + |errs[picks[0].issue].wrong|), x)
  {
    assert forall i :: 0 < i < |picks| ==> picks[1..][i - 1] == picks[i];
  }
}
