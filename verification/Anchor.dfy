/**
 Anchoring of the errors an AI reports in a chat message: each quoted extract is searched in the text,
 after the previous one first, and reported by its offset and length in UTF-16 units.

 Texts are arbitrary bytes.  `trim` stands for Go's TrimSpace and is arbitrary.
 */
module Anchor {
  import opened Common
  import opened Utf

  const MAX_MATCHES: nat := 10
  const MAX_FIXES: nat := 5

  datatype Issue = Issue(wrong: Bytes, fixes: seq<Bytes>, note: Bytes)
  datatype Match = Match(message: Bytes, offset: nat, length: nat, replacements: seq<Bytes>)

  // ---------------------------------------------------------------- search

  predicate Occurs(s: Bytes, i: nat, w: Bytes) { i + |w| <= |s| && s[i..i + |w|] == w }

  /** The first occurrence at or after `from`, as the slice search with the cursor added back. */
  function IndexFrom(s: Bytes, w: Bytes, from: nat): Option<nat>
    decreases |s| - from
  {
    if from + |w| > |s| then None
    else if Occurs(s, from, w) then Some(from)
    else if from == |s| then None
    else IndexFrom(s, w, from + 1)
  }

  lemma {:induction false} IndexFromIsFirst(s: Bytes, w: Bytes, from: nat)
    ensures match IndexFrom(s, w, from)
            case Some(i) => from <= i && Occurs(s, i, w) && forall j :: from <= j < i ==> !Occurs(s, j, w)
            case None => forall j :: from <= j ==> !Occurs(s, j, w)
    decreases |s| - from
  {
    if from + |w| <= |s| && !Occurs(s, from, w) && from < |s| {
      IndexFromIsFirst(s, w, from + 1);
    }
  }

  method Index(s: Bytes, w: Bytes, from: nat) returns (i: Option<nat>)
    requires from <= |s|
    ensures i == IndexFrom(s, w, from)
  {
    var k := from;
    while k + |w| <= |s|
      invariant from <= k
      invariant k <= |s| ==> IndexFrom(s, w, k) == IndexFrom(s, w, from)
      invariant k > |s| ==> IndexFrom(s, w, from) == None
      decreases |s| - k
    {
      if s[k..k + |w|] == w {
        return Some(k);
      }
      k := k + 1;
    }
    i := None;
  }

  /** After the cursor if it occurs there, else from the start. */
  function Locate(s: Bytes, w: Bytes, cursor: nat): Option<nat> {
    if IndexFrom(s, w, cursor).Some? then IndexFrom(s, w, cursor) else IndexFrom(s, w, 0)
  }

  /**
   An extract is dropped only if it does not occur; one that occurs again after the cursor is not anchored
   before it.
   */
  lemma LocateIsExact(s: Bytes, w: Bytes, cursor: nat)
    ensures match Locate(s, w, cursor)
            case None => forall j: nat :: !Occurs(s, j, w)
            case Some(i) =>
              && Occurs(s, i, w)
              && (i < cursor ==> forall j: nat :: cursor <= j ==> !Occurs(s, j, w))
              && forall j: nat :: Occurs(s, j, w) && (cursor <= j || i < cursor) ==> i <= j
  {
    IndexFromIsFirst(s, w, cursor);
    IndexFromIsFirst(s, w, 0);
  }

  // ---------------------------------------------------------------- replacements

  /** Up to `room` of the trimmed fixes, empty and unchanged ones left out. */
  function Kept(fixes: seq<Bytes>, wrong: Bytes, trim: Bytes -> Bytes, room: nat): (r: seq<Bytes>)
    ensures |r| <= room
    ensures forall f :: f in r ==> f != [] && f != wrong
  {
    if fixes == [] || room == 0 then []
    else
      var f := trim(fixes[0]);
      if f == [] || f == wrong then Kept(fixes[1..], wrong, trim, room)
      else [f] + Kept(fixes[1..], wrong, trim, room - 1)
  }

  method Replacements(fixes: seq<Bytes>, wrong: Bytes, trim: Bytes -> Bytes) returns (repl: seq<Bytes>)
    ensures repl == Kept(fixes, wrong, trim, MAX_FIXES)
  {
    repl := [];
    for i := 0 to |fixes|
      invariant |repl| < MAX_FIXES
      invariant Kept(fixes, wrong, trim, MAX_FIXES) == repl + Kept(fixes[i..], wrong, trim, MAX_FIXES - |repl|)
    {
      var f := trim(fixes[i]);
      assert fixes[i..][1..] == fixes[i + 1..];
      if f == [] || f == wrong {
        continue;
      }
      repl := repl + [f];
      if |repl| == MAX_FIXES {
        break;
      }
    }
  }

  // ---------------------------------------------------------------- the matches

  /** An issue that is reported: its number, where its extract was found, with what. */
  datatype Pick = Pick(issue: nat, at: nat, repl: seq<Bytes>, note: Bytes)

  /** None if issue `k` is skipped: malformed, not in the text, or nothing to show for it. */
  function Accept(text: Bytes, errs: seq<Issue>, k: nat, cursor: nat, trim: Bytes -> Bytes): Option<Pick>
    requires k < |errs|
  {
    var e := errs[k];
    if e.wrong == [] || !Valid(e.wrong) then None
    else match Locate(text, e.wrong, cursor)
      case None => None
      case Some(i) =>
        var repl, note := Kept(e.fixes, e.wrong, trim, MAX_FIXES), trim(e.note);
        if repl == [] && note == [] then None else Some(Pick(k, i, repl, note))
  }

  function Advance(cursor: nat, end: nat): nat { if end > cursor then end else cursor }

  /** The issues reported from number `k` on. */
  function Plan(text: Bytes, errs: seq<Issue>, k: nat, cursor: nat, room: nat, trim: Bytes -> Bytes): seq<Pick>
    decreases |errs| - k
  {
    if k >= |errs| || room == 0 then []
    else match Accept(text, errs, k, cursor, trim)
      case None => Plan(text, errs, k + 1, cursor, room, trim)
      case Some(p) => [p] + Plan(text, errs, k + 1, Advance(cursor, p.at + |errs[k].wrong|), room - 1, trim)
  }

  ghost predicate GoodPick(text: Bytes, errs: seq<Issue>, p: Pick) {
    p.issue < |errs| && errs[p.issue].wrong != [] && Valid(errs[p.issue].wrong)
        && Occurs(text, p.at, errs[p.issue].wrong)
  }

  lemma AcceptIsGood(text: Bytes, errs: seq<Issue>, k: nat, cursor: nat, trim: Bytes -> Bytes)
    requires k < |errs| && Accept(text, errs, k, cursor, trim).Some?
    ensures GoodPick(text, errs, Accept(text, errs, k, cursor, trim).value)
  {
    LocateIsExact(text, errs[k].wrong, cursor);
  }

  /** At most `room` picks, for issues from `k` on, in their order. */
  ghost predicate GoodPlan(text: Bytes, errs: seq<Issue>, plan: seq<Pick>, k: nat, room: nat) {
    && |plan| <= room
    && (forall i :: 0 <= i < |plan| ==> GoodPick(text, errs, plan[i]) && k <= plan[i].issue)
    && (forall i, j :: 0 <= i < j < |plan| ==> plan[i].issue < plan[j].issue)
  }

  lemma GoodPlanCons(text: Bytes, errs: seq<Issue>, p: Pick, rest: seq<Pick>, k: nat, room: nat)
    requires GoodPick(text, errs, p) && p.issue == k && GoodPlan(text, errs, rest, k + 1, room)
    ensures GoodPlan(text, errs, [p] + rest, k, room + 1)
  {
    var plan := [p] + rest;
    forall i | 0 <= i < |plan|
      ensures GoodPick(text, errs, plan[i]) && k <= plan[i].issue && (i > 0 ==> plan[i] == rest[i - 1])
    {
    }
  }

  lemma {:induction false} PlanIsGood(text: Bytes, errs: seq<Issue>, k: nat, cursor: nat, room: nat,
      trim: Bytes -> Bytes)
    ensures GoodPlan(text, errs, Plan(text, errs, k, cursor, room, trim), k, room)
    decreases |errs| - k
  {
    if k < |errs| && room > 0 {
      match Accept(text, errs, k, cursor, trim)
      case None => PlanIsGood(text, errs, k + 1, cursor, room, trim);
      case Some(p) =>
        AcceptIsGood(text, errs, k, cursor, trim);
        var after := Advance(cursor, p.at + |errs[k].wrong|);
        PlanIsGood(text, errs, k + 1, after, room - 1, trim);
        GoodPlanCons(text, errs, p, Plan(text, errs, k + 1, after, room - 1, trim), k, room - 1);
    }
  }

  ghost function ToMatch(text: Bytes, errs: seq<Issue>, p: Pick): Match
    requires GoodPick(text, errs, p)
  {
    Match(p.note, |Js(text[..p.at])|, |Js(errs[p.issue].wrong)|, p.repl)
  }

  /** The match is what the pick says, in UTF-16 units. */
  ghost predicate Renders(text: Bytes, errs: seq<Issue>, ms: seq<Match>, picks: seq<Pick>) {
    && |ms| == |picks|
    && forall i :: 0 <= i < |ms| ==> GoodPick(text, errs, picks[i]) && ms[i] == ToMatch(text, errs, picks[i])
  }

  method Measure(text: Bytes, errs: seq<Issue>, p: Pick) returns (m: Match)
    requires GoodPick(text, errs, p)
    ensures m == ToMatch(text, errs, p)
  {
    var offset := Utf16Len(text[..p.at]);
    var length := Utf16Len(errs[p.issue].wrong);
    m := Match(p.note, offset, length, p.repl);
  }

  /** The body of the loop for one issue: find it, collect its fixes, or skip it. */
  method Consider(text: Bytes, errs: seq<Issue>, k: nat, cursor: nat, trim: Bytes -> Bytes) returns (p: Option<Pick>)
    requires k < |errs| && cursor <= |text|
    ensures p == Accept(text, errs, k, cursor, trim)
    ensures p.Some? ==> GoodPick(text, errs, p.value) && p.value.issue == k
  {
    if Accept(text, errs, k, cursor, trim).Some? {
      AcceptIsGood(text, errs, k, cursor, trim);
    }
    var e := errs[k];
    if e.wrong == [] || !Valid(e.wrong) {
      return None;
    }
    var idx := Index(text, e.wrong, cursor);
    if idx == None {
      idx := Index(text, e.wrong, 0);
      if idx == None {
        return None;
      }
    }
    var repl := Replacements(e.fixes, e.wrong, trim);
    var note := trim(e.note);
    p := if repl == [] && note == [] then None else Some(Pick(k, idx.value, repl, note));
  }

  lemma RendersSnoc(text: Bytes, errs: seq<Issue>, ms: seq<Match>, picks: seq<Pick>, m: Match, p: Pick)
    requires Renders(text, errs, ms, picks) && GoodPick(text, errs, p) && m == ToMatch(text, errs, p)
    ensures Renders(text, errs, ms + [m], picks + [p])
  {
  }

  /** What is planned once `done` has been planned and issue `k` is next. */
  ghost predicate Ahead(whole: seq<Pick>, done: seq<Pick>, text: Bytes, errs: seq<Issue>, k: nat, cursor: nat,
      trim: Bytes -> Bytes) {
    |done| <= MAX_MATCHES && whole == done + Plan(text, errs, k, cursor, MAX_MATCHES - |done|, trim)
  }

  lemma AheadOne(whole: seq<Pick>, done: seq<Pick>, text: Bytes, errs: seq<Issue>, k: nat, cursor: nat,
      trim: Bytes -> Bytes)
    requires Ahead(whole, done, text, errs, k, cursor, trim) && k < |errs| && |done| < MAX_MATCHES
    ensures match Accept(text, errs, k, cursor, trim)
            case None => Ahead(whole, done, text, errs, k + 1, cursor, trim)
            case Some(p) => Ahead(whole, done + [p], text, errs, k + 1, Advance(cursor, p.at + |errs[k].wrong|), trim)
  {
    var a := Accept(text, errs, k, cursor, trim);
    if a.Some? {
      assert done
          + ([a.value] + Plan(text, errs, k + 1, Advance(cursor, a.value.at + |errs[k].wrong|),
                          MAX_MATCHES - |done| - 1, trim))
          == done + [a.value]
             + Plan(text, errs, k + 1, Advance(cursor, a.value.at + |errs[k].wrong|), MAX_MATCHES - |done| - 1, trim);
    }
  }

  method AnchorMatches(text: Bytes, errs: seq<Issue>, trim: Bytes -> Bytes) returns (matches: seq<Match>)
    ensures Renders(text, errs, matches, Plan(text, errs, 0, 0, MAX_MATCHES, trim))
  {
    matches := [];
    ghost var picks: seq<Pick> := [];
    ghost var whole := Plan(text, errs, 0, 0, MAX_MATCHES, trim);
    var cursor: nat := 0;
    for k := 0 to |errs|
      invariant cursor <= |text|
      invariant Renders(text, errs, matches, picks)
      invariant Ahead(whole, picks, text, errs, k, cursor, trim)
    {
      if |matches| >= MAX_MATCHES {
        break;
      }
      var p := Consider(text, errs, k, cursor, trim);
      AheadOne(whole, picks, text, errs, k, cursor, trim);
      if p == None {
        continue;
      }
      var m := Measure(text, errs, p.value);
      RendersSnoc(text, errs, matches, picks, m, p.value);
      matches := matches + [m];
      picks := picks + [p.value];
      cursor := Advance(cursor, p.value.at + |errs[k].wrong|);
    }
  }

  // ---------------------------------------------------------------- what every match means

  /** The match selects, in the text as JavaScript sees it, exactly the extract of the issue. */
  ghost predicate Selects(text: Bytes, m: Match, e: Issue) {
    && m.offset + m.length <= |Js(text)|
    && Js(text)[m.offset..m.offset + m.length] == Js(e.wrong)
  }

  /**
   For every text and every list of issues, the matches are at most ten, come in the order of the issues
   they report, and each selects exactly the UTF-16 units of its extract.
   */
  lemma EveryMatchSelectsItsExtract(text: Bytes, errs: seq<Issue>, trim: Bytes -> Bytes, ms: seq<Match>)
    requires Renders(text, errs, ms, Plan(text, errs, 0, 0, MAX_MATCHES, trim))
    ensures var plan := Plan(text, errs, 0, 0, MAX_MATCHES, trim);
            && |ms| == |plan| <= MAX_MATCHES
            && (forall i, j :: 0 <= i < j < |plan| ==> plan[i].issue < plan[j].issue)
            && (forall i :: 0 <= i < |ms| ==> plan[i].issue < |errs| && Selects(text, ms[i], errs[plan[i].issue]))
  {
    PlanIsGood(text, errs, 0, 0, MAX_MATCHES, trim);
    var plan := Plan(text, errs, 0, 0, MAX_MATCHES, trim);
    forall i | 0 <= i < |ms|
      ensures Selects(text, ms[i], errs[plan[i].issue])
    {
      OccurrenceInJs(text, plan[i].at, errs[plan[i].issue].wrong);
    }
  }

  /** How far the extracts of the picks reach, starting from `c`. */
  ghost function Reach(errs: seq<Issue>, picks: seq<Pick>, c: nat): nat
    requires forall i :: 0 <= i < |picks| ==> picks[i].issue < |errs|
  {
    if picks == [] then c else Reach(errs, picks[1..], Advance(c, picks[0].at + |errs[picks[0].issue].wrong|))
  }

  /**
   Reading order: an extract is anchored past everything anchored before it, unless it does not occur
   there at all.  So the second report of a repeated extract never falls on the first one's place while
   another occurrence follows.
   */
  lemma {:induction false} ReadingOrder(text: Bytes, errs: seq<Issue>, k: nat, cursor: nat, room: nat,
      trim: Bytes -> Bytes, j: nat)
    requires j < |Plan(text, errs, k, cursor, room, trim)|
    requires forall p :: p in Plan(text, errs, k, cursor, room, trim) ==> p.issue < |errs|
    ensures var plan := Plan(text, errs, k, cursor, room, trim);
            var c := Reach(errs, plan[..j], cursor);
            c <= plan[j].at || forall x: nat :: c <= x ==> !Occurs(text, x, errs[plan[j].issue].wrong)
    decreases |errs| - k
  {
    var plan := Plan(text, errs, k, cursor, room, trim);
    match Accept(text, errs, k, cursor, trim)
    case None => ReadingOrder(text, errs, k + 1, cursor, room, trim, j);
    case Some(p) =>
      if j == 0 {
        LocateIsExact(text, errs[k].wrong, cursor);
      } else {
        var rest := Plan(text, errs, k + 1, Advance(cursor, p.at + |errs[k].wrong|), room - 1, trim);
        assert forall q :: q in rest ==> q in plan;
        assert plan[..j][1..] == rest[..j - 1];
        ReadingOrder(text, errs, k + 1, Advance(cursor, p.at + |errs[k].wrong|), room - 1, trim, j - 1);
      }
  }
}
