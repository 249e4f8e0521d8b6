/**
 Runs of the matcher: any sequence of TryMatch and Cancel/RemoveFromQueue calls, each one atomic.

 `Log` carries the store together with what the calls so far said about each queue entry: when it
 joined, whom it avoided, when it arrived.
 */
module MatcherRuns {
  import opened Common
  import opened Matcher

  const BOOST_AUTHENTICATED: nat := 20
  const BOOST_PREMIUM: nat := 40

  function MatchScore(now: int, authenticated: bool, premium: bool): int {
    now - (if authenticated then BOOST_AUTHENTICATED else 0) - (if premium then BOOST_PREMIUM else 0)
  }

  /** At one instant premium goes before authenticated and that before anonymous; no advantage outlasts a minute. */
  lemma ScoreRanks(now: int, authenticated: bool, premium: bool, later: int)
    ensures MatchScore(now, true, true) < MatchScore(now, false, true) < MatchScore(now, true, false)
            < MatchScore(now, false, false)
    ensures MatchScore(later, authenticated, premium) - MatchScore(now, authenticated, premium) == later - now
    ensures MatchScore(now, true, true) == MatchScore(now - 60, false, false)
            && MatchScore(now, false, true) == MatchScore(now - 40, false, false)
            && MatchScore(now, true, false) == MatchScore(now - 20, false, false)
  {
  }

  datatype Op =
    | Try(levelAware: bool, speaks: Lang, wants: Lang, me: SessionId, avoid: SessionId,
          now: int, authenticated: bool, premium: bool, level: real)
    | Leave(speaks: Lang, wants: Lang, me: SessionId)
  {
    function Req(): Request
      requires Try?
    {
      Request(speaks, wants, me, avoid, MatchScore(now, authenticated, premium), level)
    }
  }

  type Slot = (string, SessionId)

  datatype Entry = Entry(step: nat, avoid: SessionId, arrival: int)

  datatype Log = Log(store: Store, entries: map<Slot, Entry>, clock: nat)

  const EMPTY: Log := Log(Store(map[], map[]), map[], 0)

  function Result(l: Log, op: Op): Outcome
    requires op.Try?
  {
    MatchStep(l.store, op.levelAware, op.Req()).1
  }

  function Do(l: Log, op: Op): Log {
    match op
    case Leave(s, w, me) => l.(store := Remove(l.store, s, w, me), clock := l.clock + 1)
    case Try(_, _, _, me, avoid, now, _, _, _) =>
      var st := MatchStep(l.store, op.levelAware, op.Req()).0;
      var entries :=
        if Result(l, op) == Waiting then l.entries[(op.Req().Own(), me) := Entry(l.clock, avoid, now)] else l.entries;
      Log(st, entries, l.clock + 1)
  }

  function RunFrom(l: Log, ops: seq<Op>): Log {
    if ops == [] then l else Do(RunFrom(l, ops[..|ops| - 1]), ops[|ops| - 1])
  }

  // ---------------------------------------------------------------- the invariant

  ghost predicate InQueue(l: Log, k: string, m: SessionId) {
    m in l.store.Queue(k)
  }

  ghost predicate Recorded(l: Log) {
    && (forall x :: x in l.entries ==> l.entries[x].step < l.clock)
    && (forall x, y :: x in l.entries && y in l.entries && l.entries[x].step == l.entries[y].step ==> x == y)
    && (forall k, m :: InQueue(l, k, m) ==>
          && m != NO_SESSION
          && (k, m) in l.entries
          && l.entries[(k, m)].arrival - 60 <= l.store.Queue(k)[m] <= l.entries[(k, m)].arrival)
  }

  /** Of two compatible sessions waiting at once, the one that joined last was avoiding the other. */
  ghost predicate LaterAvoids(l: Log)
    requires Recorded(l)
  {
    forall s, w, a, b :: Open(s, w) && InQueue(l, QueueOwn(s, w), a) && InQueue(l, QueueOwn(w, s), b)
      && l.entries[(QueueOwn(s, w), a)].step > l.entries[(QueueOwn(w, s), b)].step
      ==> l.entries[(QueueOwn(s, w), a)].avoid == b
  }

  ghost predicate Inv(l: Log) {
    Recorded(l) && LaterAvoids(l)
  }

  lemma ShrinkKeepsInv(l: Log, l': Log)
    requires Inv(l)
    requires l'.entries == l.entries && l'.clock == l.clock + 1
    requires forall k, m :: InQueue(l', k, m) ==> InQueue(l, k, m) && l'.store.Queue(k)[m] == l.store.Queue(k)[m]
    ensures Inv(l')
  {
  }

  lemma JoinAddsOne(l: Log, op: Op)
    requires op.Try? && Result(l, op) == Waiting
    ensures forall k, m :: InQueue(Do(l, op), k, m) <==> InQueue(l, k, m) || (k == op.Req().Own() && m == op.me)
    ensures forall b :: InQueue(l, op.Req().Target(), b) ==> b == op.avoid
  {
    WaitingJoins(l.store, op.levelAware, op.Req());
  }

  lemma JoinKeepsRecord(l: Log, op: Op)
    requires Recorded(l) && op.Try? && Result(l, op) == Waiting
    ensures Recorded(Do(l, op))
  {
    WaitingJoins(l.store, op.levelAware, op.Req());
    var l', own := Do(l, op), (op.Req().Own(), op.me);
    assert l'.entries == l.entries[own := Entry(l.clock, op.avoid, op.now)] && l'.clock == l.clock + 1;
    forall k, m | InQueue(l', k, m)
      ensures m != NO_SESSION && (k, m) in l'.entries
      ensures l'.entries[(k, m)].arrival - 60 <= l'.store.Queue(k)[m] <= l'.entries[(k, m)].arrival
    {
      if (k, m) != own {
        assert InQueue(l, k, m);
      }
    }
  }

  lemma JoinKeepsInv(l: Log, op: Op)
    requires Inv(l) && op.Try? && Result(l, op) == Waiting
    ensures Inv(Do(l, op))
  {
    var l' := Do(l, op);
    JoinKeepsRecord(l, op);
    JoinAddsOne(l, op);
    forall s, w, a, b | Open(s, w) && InQueue(l', QueueOwn(s, w), a) && InQueue(l', QueueOwn(w, s), b)
        && l'.entries[(QueueOwn(s, w), a)].step > l'.entries[(QueueOwn(w, s), b)].step
      ensures l'.entries[(QueueOwn(s, w), a)].avoid == b
    {
      JoinKeepsPair(l, op, s, w, a, b);
    }
  }

  lemma JoinKeepsPair(l: Log, op: Op, s: Lang, w: Lang, a: SessionId, b: SessionId)
    requires Inv(l) && op.Try? && Result(l, op) == Waiting
    requires Recorded(Do(l, op)) && Open(s, w)
    requires InQueue(Do(l, op), QueueOwn(s, w), a) && InQueue(Do(l, op), QueueOwn(w, s), b)
    requires Do(l, op).entries[(QueueOwn(s, w), a)].step > Do(l, op).entries[(QueueOwn(w, s), b)].step
    ensures Do(l, op).entries[(QueueOwn(s, w), a)].avoid == b
  {
    JoinAddsOne(l, op);
    OpenIffDistinctSupported(s, w);
    QueueKeysAreDistinct(s, w, op.speaks, op.wants);
    QueueKeysAreDistinct(w, s, op.speaks, op.wants);
    QueueKeysAreDistinct(s, w, w, s);
    var own, x, y := (op.Req().Own(), op.me), (QueueOwn(s, w), a), (QueueOwn(w, s), b);
    if x != own && y != own {
      assert InQueue(l, QueueOwn(s, w), a) && InQueue(l, QueueOwn(w, s), b);
    }
  }

  lemma StepKeepsInv(l: Log, op: Op)
    requires Inv(l)
    ensures Inv(Do(l, op))
  {
    if op.Try? && Result(l, op) == Waiting {
      JoinKeepsInv(l, op);
    } else {
      ShrinkKeepsInv(l, Do(l, op));
    }
  }

  lemma {:induction false} RunKeepsInv(l: Log, ops: seq<Op>)
    requires Inv(l)
    ensures Inv(RunFrom(l, ops))
  {
    if ops != [] {
      RunKeepsInv(l, ops[..|ops| - 1]);
      StepKeepsInv(RunFrom(l, ops[..|ops| - 1]), ops[|ops| - 1]);
    }
  }

  // ---------------------------------------------------------------- results about every run

  /**
   Waiting pair: when two compatible sessions wait at once, the one whose TryMatch ran last had
   passed the other as the peer to avoid.
   */
  lemma WaitingPair(ops: seq<Op>, s: Lang, w: Lang, a: SessionId, b: SessionId)
    requires Open(s, w)
    requires InQueue(RunFrom(EMPTY, ops), QueueOwn(s, w), a) && InQueue(RunFrom(EMPTY, ops), QueueOwn(w, s), b)
    ensures var e := RunFrom(EMPTY, ops).entries;
            var x, y := (QueueOwn(s, w), a), (QueueOwn(w, s), b);
            x in e && y in e && if e[x].step > e[y].step then e[x].avoid == b else e[y].avoid == a
  {
    RunKeepsInv(EMPTY, ops);
    OpenIffDistinctSupported(s, w);
    QueueKeysAreDistinct(s, w, w, s);
  }

  lemma {:induction false} AvoidedOnlyByRequest(ops: seq<Op>, x: Slot)
    requires x in RunFrom(EMPTY, ops).entries
    ensures exists i: nat :: i < |ops| && ops[i].Try? && ops[i].avoid == RunFrom(EMPTY, ops).entries[x].avoid
  {
    var n := |ops| - 1;
    if ops != [] {
      var before := RunFrom(EMPTY, ops[..n]);
      if x in before.entries && RunFrom(EMPTY, ops).entries[x] == before.entries[x] {
        AvoidedOnlyByRequest(ops[..n], x);
        var i: nat :| i < |ops[..n]| && ops[..n][i].Try? && ops[..n][i].avoid == before.entries[x].avoid;
        assert ops[i].Try? && ops[i].avoid == before.entries[x].avoid;
      } else {
        assert ops[n].Try?;
      }
    }
  }

  /** When nobody avoids anybody, compatible sessions never wait facing each other. */
  lemma NoAvoidanceNoFacingQueues(ops: seq<Op>, s: Lang, w: Lang)
    requires Open(s, w)
    requires forall i: nat :: i < |ops| && ops[i].Try? ==> ops[i].avoid == NO_SESSION
    ensures var st := RunFrom(EMPTY, ops).store;
            st.Queue(QueueOwn(s, w)) == map[] || st.Queue(QueueOwn(w, s)) == map[]
  {
    var l := RunFrom(EMPTY, ops);
    if l.store.Queue(QueueOwn(s, w)) != map[] && l.store.Queue(QueueOwn(w, s)) != map[] {
      var a :| a in l.store.Queue(QueueOwn(s, w));
      var b :| b in l.store.Queue(QueueOwn(w, s));
      WaitingPair(ops, s, w, a, b);
      RunKeepsInv(EMPTY, ops);
      AvoidedOnlyByRequest(ops, (QueueOwn(s, w), a));
      AvoidedOnlyByRequest(ops, (QueueOwn(w, s), b));
      assert false;
    }
  }

  /** A member of queue `k` that joined last among its members. */
  lemma LatestExists(l: Log, k: string) returns (a: SessionId)
    requires Recorded(l) && l.store.Queue(k) != map[]
    ensures InQueue(l, k, a)
    ensures forall m :: InQueue(l, k, m) ==> l.entries[(k, m)].step <= l.entries[(k, a)].step
  {
    a :| a in l.store.Queue(k);
    var todo := l.store.Queue(k).Keys;
    while todo != {}
      invariant InQueue(l, k, a) && todo <= l.store.Queue(k).Keys
      invariant forall m :: InQueue(l, k, m) && m !in todo ==> l.entries[(k, m)].step <= l.entries[(k, a)].step
      decreases |todo|
    {
      var m :| m in todo;
      todo := todo - {m};
      assert InQueue(l, k, m);
      if l.entries[(k, m)].step > l.entries[(k, a)].step {
        a := m;
      }
    }
  }

  /** Even with avoidance, of two facing queues one holds a single session. */
  lemma FacingQueuesLeaveOneAlone(ops: seq<Op>, s: Lang, w: Lang)
    requires Open(s, w)
    ensures var st := RunFrom(EMPTY, ops).store;
            |st.Queue(QueueOwn(s, w))| <= 1 || |st.Queue(QueueOwn(w, s))| <= 1
  {
    var l := RunFrom(EMPTY, ops);
    var k, k' := QueueOwn(s, w), QueueOwn(w, s);
    RunKeepsInv(EMPTY, ops);
    OpenIffDistinctSupported(s, w);
    QueueKeysAreDistinct(s, w, w, s);
    if l.store.Queue(k) != map[] && l.store.Queue(k') != map[] {
      var a := LatestExists(l, k);
      var b := LatestExists(l, k');
      if l.entries[(k, a)].step > l.entries[(k', b)].step {
        AllAvoided(l, s, w, a);
      } else {
        AllAvoided(l, w, s, b);
      }
    }
  }

  lemma AllAvoided(l: Log, s: Lang, w: Lang, a: SessionId)
    requires Inv(l) && Open(s, w) && InQueue(l, QueueOwn(s, w), a)
    requires forall b :: InQueue(l, QueueOwn(w, s), b) ==>
               l.entries[(QueueOwn(w, s), b)].step < l.entries[(QueueOwn(s, w), a)].step
    ensures |l.store.Queue(QueueOwn(w, s))| <= 1
  {
    var z := l.store.Queue(QueueOwn(w, s));
    var v := l.entries[(QueueOwn(s, w), a)].avoid;
    forall b | b in z
      ensures b == v
    {
      assert InQueue(l, QueueOwn(w, s), b);
    }
    assert z.Keys == {} || z.Keys == {v};
  }

  /** Without levels the candidate of lowest score is taken. */
  lemma HeadIsTaken(st: Store, levelAware: bool, rq: Request, p: SessionId, b: SessionId)
    requires MatchStep(st, levelAware, rq).1 == Matched(p) && (!levelAware || rq.level <= 0.0)
    requires b in st.Queue(rq.Target()) && b != rq.avoid
    ensures p in st.Queue(rq.Target()) && st.Queue(rq.Target())[p] <= st.Queue(rq.Target())[b]
  {
    var cands := Candidates(st, rq);
    assert b in cands && p == Head(cands) && IsHead(cands, p);
  }

  /**
   No starvation: the standard script never returns a session that arrived more than 60 seconds
   after another one that waits in the same queue and is not avoided.
   */
  lemma NoOvertakingByMoreThanAMinute(ops: seq<Op>, op: Op, p: SessionId, b: SessionId)
    requires op.Try? && Result(RunFrom(EMPTY, ops), op) == Matched(p)
    requires !op.levelAware || op.level <= 0.0
    requires InQueue(RunFrom(EMPTY, ops), op.Req().Target(), b) && b != op.avoid
    ensures var e := RunFrom(EMPTY, ops).entries;
            var k := op.Req().Target();
            (k, p) in e && (k, b) in e && e[(k, p)].arrival <= e[(k, b)].arrival + 60
  {
    RunKeepsInv(EMPTY, ops);
    var l := RunFrom(EMPTY, ops);
    HeadIsTaken(l.store, op.levelAware, op.Req(), p, b);
    assert InQueue(l, op.Req().Target(), p);
  }

  /** A match takes one entry out and leaves every other score and level as it was, the avoided peer's included. */
  lemma MatchTouchesOnlyThePeer(st: Store, levelAware: bool, rq: Request, k: string, m: SessionId)
    requires MatchStep(st, levelAware, rq).1.Matched?
    ensures var p := MatchStep(st, levelAware, rq).1.peer;
            var st' := MatchStep(st, levelAware, rq).0;
            && p in st.Queue(rq.Target()) && p !in st'.Queue(rq.Target()) && (rq.avoid != NO_SESSION ==> p != rq.avoid)
            && (if k == rq.Target() && m == p then m !in st'.Queue(k)
                else
                  && (m in st'.Queue(k) <==> m in st.Queue(k))
                  && (m in st.Queue(k) ==> st'.Queue(k)[m] == st.Queue(k)[m]))
            && (m != p ==> (m in st'.levels <==> m in st.levels) && (m in st.levels ==> st'.levels[m] == st.levels[m]))
  {
  }

  // ---------------------------------------------------------------- nobody is handed out twice

  function Takes(l: Log, ops: seq<Op>, x: Slot): nat {
    if ops == [] then 0 else
      var n := |ops| - 1;
      var before, op := RunFrom(l, ops[..n]), ops[n];
      Takes(l, ops[..n], x)
      + if op.Try? && (Result(before, op) == Matched(x.1)) && op.Req().Target() == x.0 then 1 else 0
  }

  function Joins(l: Log, ops: seq<Op>, x: Slot): nat {
    if ops == [] then 0 else
      var n := |ops| - 1;
      var before, op := RunFrom(l, ops[..n]), ops[n];
      Joins(l, ops[..n], x)
      + if op.Try? && Result(before, op) == Waiting && (op.Req().Own(), op.me) == x then 1 else 0
  }

  ghost function Present(l: Log, x: Slot): nat { if InQueue(l, x.0, x.1) then 1 else 0 }

  /**
   Over any stretch of any run a session is returned by TryMatch at most once more often than it
   joins the queue, and only if it was waiting at the start: it is never returned twice without
   joining again in between.
   */
  lemma {:induction false} TakenAtMostOncePerJoin(l: Log, ops: seq<Op>, x: Slot)
    ensures Takes(l, ops, x) + Present(RunFrom(l, ops), x) <= Joins(l, ops, x) + Present(l, x)
  {
    if ops != [] {
      var n := |ops| - 1;
      TakenAtMostOncePerJoin(l, ops[..n], x);
      var before, op := RunFrom(l, ops[..n]), ops[n];
      if op.Try? && Result(before, op) == Matched(x.1) {
        assert x.1 in Candidates(before.store, op.Req());
      }
    }
  }
}
