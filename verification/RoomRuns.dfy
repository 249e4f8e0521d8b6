/** Runs of the room protocol that show what it can do: how two sessions meet, and one way they meet amiss. */
module RoomRuns {
  import opened Common
  import opened Matcher
  import opened Rooms

  lemma Extend(run: seq<Action>, w: World, a: Action) returns (run': seq<Action>, w': World)
    requires Runs(run) && w == After(run) && Enabled(w, a)
    ensures run' == run + [a] && Runs(run') && w' == Step(w, a) && w' == After(run')
  {
    run', w' := run + [a], Step(w, a);
    assert run'[..|run|] == run;
  }

  /** With no candidate in the queue searched, TryMatch waits. */
  lemma EmptyQueueWaits(st: Store, rq: Request)
    requires Open(rq.speaks, rq.wants) && rq.me != NO_SESSION && st.Queue(rq.Target()) == map[]
    ensures MatchStep(st, false, rq) == (Join(st, rq, false), Waiting)
  {
    assert Candidates(st, rq) == map[];
  }

  /** With one candidate, TryMatch returns it. */
  lemma OnlyCandidateIsTaken(st: Store, rq: Request, p: SessionId)
    requires Open(rq.speaks, rq.wants) && rq.me != NO_SESSION && rq.avoid != p
    requires st.Queue(rq.Target()).Keys == {p}
    ensures MatchStep(st, false, rq) == (Take(st, rq, p), Matched(p))
  {
    var cands := Candidates(st, rq);
    assert p in cands && cands.Keys == {p};
    assert Head(cands) in cands.Keys;
  }

  /** Sessions `a` and `b` connect; `a` joins its queue and `b` pops it. */
  lemma FirstWaitsSecondPops(a: SessionId, b: SessionId, s: Lang, l: Lang, now: int)
      returns (run: seq<Action>, w: World)
    requires a != b && a != NO_SESSION && b != NO_SESSION && Open(s, l)
    ensures Runs(run) && w == After(run)
    ensures w.sess == map[a := Sess(s, l, false, Queued, NO_SESSION, None, true),
                          b := Sess(l, s, false, Popped(a), NO_SESSION, None, true)]
    ensures w.nextRoom == 0 && w.offers == map[] && w.delivered == {} && w.adopted == {}
  {
    OpenIffDistinctSupported(s, l);
    OpenIffDistinctSupported(l, s);
    QueueKeysAreDistinct(s, l, l, s);
    run, w := [], START;
    run, w := Extend(run, w, Connect(a, s, l, false));
    run, w := Extend(run, w, Connect(b, l, s, false));
    run, w := Extend(run, w, Drain(a));
    EmptyQueueWaits(w.store, Request(s, l, a, NO_SESSION, now, 0.0));
    run, w := Extend(run, w, TryMatch(a, false, now, 0.0));
    assert w.store.Queue(QueueOwn(s, l)) == map[a := now];
    run, w := Extend(run, w, Drain(b));
    OnlyCandidateIsTaken(w.store, Request(l, s, b, NO_SESSION, now, 0.0), a);
    run, w := Extend(run, w, TryMatch(b, false, now, 0.0));
  }

  /** Two sessions with mirrored languages can meet: each ends up chatting with the other in one human room. */
  lemma MirroredPairMeets(a: SessionId, b: SessionId, s: Lang, l: Lang, now: int) returns (run: seq<Action>)
    requires a != b && a != NO_SESSION && b != NO_SESSION && Open(s, l)
    ensures Runs(run)
    ensures var w := After(run);
            && a in w.sess && b in w.sess
            && w.sess[a].pc == Chat(0, b, false, false) && w.sess[b].pc == Chat(0, a, false, false)
            && 0 in w.offers && !w.offers[0].bot
  {
    var w;
    run, w := FirstWaitsSecondPops(a, b, s, l, now);
    run, w := Extend(run, w, LookupPeer(b));
    run, w := Extend(run, w, WakePeer(b));
    run, w := Extend(run, w, TakeWakeup(a));
    run, w := Extend(run, w, Enter(a));
    run, w := Extend(run, w, Enter(b));
  }

  // ---------------------------------------------------------------- a human entered as a tutor

  /** A session in tutor mode asks for its tutor and is refused. */
  lemma TutorIsRefused(a: SessionId, s: Lang, l: Lang) returns (run: seq<Action>, w: World)
    requires a != NO_SESSION
    ensures Runs(run) && w == After(run)
    ensures w == START.(sess := map[a := Sess(s, l, true, Ready, NO_SESSION, None, true)])
  {
    run, w := [], START;
    run, w := Extend(run, w, Connect(a, s, l, true));
    run, w := Extend(run, w, Drain(a));
    run, w := Extend(run, w, AskTutor(a));
    run, w := Extend(run, w, TutorRefused(a));
  }

  /** It then waits in the queue like any other. */
  lemma RefusedWaits(a: SessionId, s: Lang, l: Lang, now: int) returns (run: seq<Action>, w: World)
    requires a != NO_SESSION && Open(s, l)
    ensures Runs(run) && w == After(run)
    ensures w.sess == map[a := Sess(s, l, true, Queued, NO_SESSION, None, true)]
    ensures w.nextRoom == 0 && w.offers == map[] && w.store.queues == map[QueueOwn(s, l) := map[a := now]]
  {
    OpenIffDistinctSupported(s, l);
    run, w := TutorIsRefused(a, s, l);
    EmptyQueueWaits(w.store, Request(s, l, a, NO_SESSION, now, 0.0));
    run, w := Extend(run, w, TryMatch(a, false, now, 0.0));
  }

  /** The tutor of the waiting room keeps it company, without its leaving the queue. */
  lemma WaitsWithTutor(a: SessionId, bot: SessionId, s: Lang, l: Lang, now: int) returns (run: seq<Action>, w: World)
    requires a != NO_SESSION && Open(s, l)
    ensures Runs(run) && w == After(run)
    ensures w.sess == map[a := Sess(s, l, true, Chat(0, bot, true, true), bot, None, true)]
    ensures w.nextRoom == 1 && w.store.queues == map[QueueOwn(s, l) := map[a := now]]
  {
    run, w := RefusedWaits(a, s, l, now);
    run, w := Extend(run, w, BotWake(a, bot));
    run, w := Extend(run, w, TakeWakeup(a));
    run, w := Extend(run, w, Enter(a));
  }

  /** A partner pops it and draws a room. */
  lemma PartnerPops(a: SessionId, b: SessionId, bot: SessionId, s: Lang, l: Lang, now: int)
      returns (run: seq<Action>, w: World)
    requires a != b && a != NO_SESSION && b != NO_SESSION && Open(s, l)
    ensures Runs(run) && w == After(run)
    ensures w.sess == map[a := Sess(s, l, true, Chat(0, bot, true, true), bot, None, true),
                          b := Sess(l, s, false, Popped(a), NO_SESSION, None, true)]
    ensures w.nextRoom == 1
  {
    OpenIffDistinctSupported(s, l);
    OpenIffDistinctSupported(l, s);
    QueueKeysAreDistinct(s, l, l, s);
    run, w := WaitsWithTutor(a, bot, s, l, now);
    run, w := Extend(run, w, Connect(b, l, s, false));
    run, w := Extend(run, w, Drain(b));
    OnlyCandidateIsTaken(w.store, Request(l, s, b, NO_SESSION, now, 0.0), a);
    run, w := Extend(run, w, TryMatch(b, false, now, 0.0));
  }

  /** Meanwhile the popped session goes on and asks for its tutor again. */
  lemma PoppedAsksAgain(a: SessionId, b: SessionId, bot: SessionId, s: Lang, l: Lang, now: int)
      returns (run: seq<Action>, w: World)
    requires a != b && a != NO_SESSION && b != NO_SESSION && Open(s, l)
    ensures Runs(run) && w == After(run)
    ensures w.sess == map[a := Sess(s, l, true, BotWait, bot, None, true),
                          b := Sess(l, s, false, Popped(a), NO_SESSION, None, true)]
    ensures w.nextRoom == 1
  {
    run, w := PartnerPops(a, b, bot, s, l, now);
    run, w := Extend(run, w, Next(a, true));
    run, w := Extend(run, w, Drain(a));
    run, w := Extend(run, w, AskTutor(a));
  }

  /** A human can be entered as a tutor: the partner's wakeup arrives while the session waits for its tutor. */
  lemma HumanEnteredAsTutor(a: SessionId, b: SessionId, bot: SessionId, s: Lang, l: Lang, now: int)
      returns (run: seq<Action>)
    requires a != b && a != NO_SESSION && b != NO_SESSION && Open(s, l)
    ensures Runs(run)
    ensures var w := After(run);
            && a in w.sess && w.sess[a].pc == Chat(1, b, true, false)
            && 1 in w.offers && !w.offers[1].bot
  {
    var w;
    run, w := PoppedAsksAgain(a, b, bot, s, l, now);
    run, w := Extend(run, w, LookupPeer(b));
    run, w := Extend(run, w, WakePeer(b));
    run, w := Extend(run, w, JoinTutor(a));
  }
}
