/**
 When a session can be taken for a tutor's pupil by mistake: entered, by the wait for its tutor, into the room
 of a human.
 */
module TutorRooms {
  import opened Common
  import opened Matcher
  import opened Rooms

  // ---------------------------------------------------------------- everywhere else a room is what it is taken for

  ghost predicate Tagged(w: World, s: SessionId)
    requires s in w.sess
  {
    var x := w.sess[s];
    && (x.pc == Asking || x.pc == BotWait ==> x.tutor)
    && (x.pc.Chat? ==>
          && x.pc.room in w.offers
          && (x.pc.isBot == w.offers[x.pc.room].bot || Mistaken(w, s)))
  }

  /** In tutor mode, past the wait for the tutor, in a room a human offered. */
  ghost predicate Mistaken(w: World, s: SessionId)
    requires s in w.sess
  {
    var x := w.sess[s];
    && x.tutor && x.pc.Chat? && x.pc.isBot && !x.pc.waiting
    && x.pc.room in w.offers && !w.offers[x.pc.room].bot && w.offers[x.pc.room].to == s
    && w.offers[x.pc.room].from == x.pc.peer
  }

  lemma StepKeepsTag(w: World, a: Action, s: SessionId)
    requires Rooms.Inv(w) && Enabled(w, a) && (s in w.sess ==> Tagged(w, s)) && s in Step(w, a).sess
    ensures Tagged(Step(w, a), s)
  {
    StepGrows(w, a);
    if s == a.s && !a.Connect? {
      assert PcGood(w, s);
      if w.sess[s].mail.Some? {
        assert UnreadGood(w, s);
      }
    } else if s in w.sess {
      OthersKeepMode(w, a, s);
    }
  }

  lemma OthersKeepMode(w: World, a: Action, s: SessionId)
    requires Enabled(w, a) && s in w.sess && s != a.s
    ensures s in Step(w, a).sess && Step(w, a).sess[s].(mail := w.sess[s].mail) == w.sess[s]
  {
  }

  lemma {:induction false} RunKeepsTag(run: seq<Action>, s: SessionId)
    requires Runs(run) && s in After(run).sess
    ensures Tagged(After(run), s)
  {
    if run != [] {
      var n := |run| - 1;
      RunKeepsInv(run[..n]);
      if s in After(run[..n]).sess {
        RunKeepsTag(run[..n], s);
      }
      StepKeepsTag(After(run[..n]), run[n], s);
    }
  }

  /**
   In every run a chat is taken for what its room is, but for sessions in tutor mode that entered a human's
   room while waiting.
   */
  lemma ChatsAreTaggedRight(run: seq<Action>, s: SessionId)
    requires Runs(run) && s in After(run).sess && After(run).sess[s].pc.Chat?
    ensures var w := After(run); var pc := w.sess[s].pc;
            pc.room in w.offers && (pc.isBot == w.offers[pc.room].bot || Mistaken(w, s))
  {
    RunKeepsTag(run, s);
  }

  // ---------------------------------------------------------------- who never waits in the queue

  ghost predicate Waited(run: seq<Action>, s: SessionId)
    requires Runs(run)
  {
    exists i: nat :: i < |run| && WaitsAt(run, i, s)
  }

  /** The call at `i` puts `s` in its queue. */
  ghost predicate WaitsAt(run: seq<Action>, i: nat, s: SessionId)
    requires Runs(run) && i < |run|
  {
    RunPrefix(run, i);
    Joins(After(run[..i]), run[i], s)
  }

  ghost predicate Joins(w: World, a: Action, s: SessionId)
    requires Enabled(w, a)
  {
    a.TryMatch? && a.s == s && OutcomeOf(w, a) == Waiting
  }

  lemma {:induction false} RunPrefix(run: seq<Action>, i: nat)
    requires Runs(run) && i <= |run|
    ensures Runs(run[..i]) && (i < |run| ==> Enabled(After(run[..i]), run[i]))
  {
    var n := |run| - 1;
    if i == |run| {
      assert run[..i] == run;
    } else if i < n {
      assert run[..n][..i] == run[..i] && run[..n][i] == run[i];
      RunPrefix(run[..n], i);
    }
  }

  /** Nobody can find it: it is in no queue, no one has popped it, and no human has offered it a room. */
  ghost predicate Unsought(w: World, s: SessionId) {
    && (forall k :: s !in w.store.Queue(k))
    && (forall t :: t in w.sess ==> w.sess[t].pc != Popped(s))
    && (forall r :: r in w.offers && w.offers[r].to == s ==> w.offers[r].bot)
  }

  lemma QueuesStayFree(w: World, a: Action, s: SessionId)
    requires Enabled(w, a) && (forall k :: s !in w.store.Queue(k)) && !Joins(w, a, s)
    ensures forall k :: s !in Step(w, a).store.Queue(k)
    ensures a.TryMatch? ==> OutcomeOf(w, a) != Matched(s)
  {
    if a.TryMatch? {
      if OutcomeOf(w, a) == Waiting {
        WaitingJoins(w.store, a.levelAware, RequestOf(w, a));
      } else if OutcomeOf(w, a).Matched? {
        MatchTakes(w.store, a.levelAware, RequestOf(w, a));
      }
    } else {
      StepShrinksQueues(w, a);
    }
  }

  lemma StepStaysUnsought(w: World, a: Action, s: SessionId)
    requires Enabled(w, a) && Unsought(w, s) && !Joins(w, a, s)
    ensures Unsought(Step(w, a), s)
  {
    QueuesStayFree(w, a, s);
    var w' := Step(w, a);
    forall t | t in w'.sess
      ensures w'.sess[t].pc != Popped(s)
    {
      if t != a.s {
        assert t in w.sess && w'.sess[t].pc == w.sess[t].pc;
      }
    }
  }

  lemma {:induction false} RunStaysUnsought(run: seq<Action>, s: SessionId)
    requires Runs(run) && !Waited(run, s)
    ensures Unsought(After(run), s)
  {
    if run != [] {
      var n := |run| - 1;
      forall i: nat | i < n
        ensures !WaitsAt(run[..n], i, s)
      {
        assert !WaitsAt(run, i, s);
        assert run[..n][..i] == run[..i] && run[..n][i] == run[i];
      }
      assert !WaitsAt(run, n, s);
      RunStaysUnsought(run[..n], s);
      StepStaysUnsought(After(run[..n]), run[n], s);
    }
  }

  /** A session that never waited in the queue is only ever taken for what its room is. */
  lemma NeverWaitedNeverMistaken(run: seq<Action>, s: SessionId)
    requires Runs(run) && s in After(run).sess && !Waited(run, s)
    ensures !Mistaken(After(run), s)
    ensures After(run).sess[s].mail.Some? ==> After(run).sess[s].mail.value.isBot
  {
    RunStaysUnsought(run, s);
    RunKeepsInv(run);
    if After(run).sess[s].mail.Some? {
      assert UnreadGood(After(run), s);
    }
  }

  // ---------------------------------------------------------------- exactly when it can happen

  /** While `s` waits for its tutor, the steps of others can bring it to enter a human's room as its tutor's. */
  ghost predicate CanBeMistaken(w: World, s: SessionId) {
    exists more :: OthersBring(w, s, more)
  }

  /** A step of another session, or of a tutor. */
  predicate ByOthers(a: Action, s: SessionId) { a.s != s || a.BotWake? }

  ghost predicate OthersBring(w: World, s: SessionId, more: seq<Action>) {
    && RunsFrom(w, more) && (forall i :: 0 <= i < |more| ==> ByOthers(more[i], s))
    && s in AfterFrom(w, more).sess && EntersHuman(AfterFrom(w, more), s)
  }

  ghost predicate EntersHuman(w: World, s: SessionId)
    requires s in w.sess
  {
    Enabled(w, JoinTutor(s)) && !w.sess[s].mail.value.isBot
  }

  /** A human's wakeup is in its mailbox, or the mailbox is free and it was popped, or can still be. */
  ghost predicate Exposed(w: World, s: SessionId)
    requires s in w.sess
  {
    var x := w.sess[s];
    || (x.mail.Some? && !x.mail.value.isBot)
    || (x.mail == None && (Sought(w, s) || s in w.store.Queue(QueueOwn(x.speaks, x.wants))))
  }

  ghost predicate Sought(w: World, s: SessionId) {
    exists t :: t in w.sess && Seeks(w.sess[t].pc, s)
  }

  predicate Seeks(pc: Pc, s: SessionId) { (pc.Popped? || pc.Found?) && pc.peer == s }

  /** Otherwise nothing others do exposes it. */
  ghost predicate Spared(w: World, s: SessionId) {
    && s in w.sess && w.sess[s].pc == BotWait
    && if w.sess[s].mail.Some? then w.sess[s].mail.value.isBot else !Sought(w, s) && forall k :: s !in w.store.Queue(k)
  }

  lemma OthersDoNotSeek(w: World, a: Action, s: SessionId)
    requires Enabled(w, a) && a.s != s && !Sought(w, s) && (forall k :: s !in w.store.Queue(k))
    ensures !Sought(Step(w, a), s)
  {
    QueuesStayFree(w, a, s);
    var w' := Step(w, a);
    forall t | t in w'.sess
      ensures !Seeks(w'.sess[t].pc, s)
    {
      if t != a.s {
        assert t in w.sess && w'.sess[t].pc == w.sess[t].pc;
      } else if t in w.sess {
        assert !Seeks(w.sess[t].pc, s);
      }
    }
  }

  lemma OthersSpare(w: World, a: Action, s: SessionId)
    requires Enabled(w, a) && ByOthers(a, s) && Spared(w, s)
    ensures Spared(Step(w, a), s)
  {
    if w.sess[s].mail == None && a.s != s {
      QueuesStayFree(w, a, s);
      OthersDoNotSeek(w, a, s);
      if a.s in w.sess {
        assert !Seeks(w.sess[a.s].pc, s);
      }
    }
  }

  lemma {:induction false} SparedStays(w: World, s: SessionId, more: seq<Action>)
    requires Spared(w, s) && RunsFrom(w, more) && forall i :: 0 <= i < |more| ==> ByOthers(more[i], s)
    ensures Spared(AfterFrom(w, more), s)
  {
    if more != [] {
      var n := |more| - 1;
      assert forall i :: 0 <= i < n ==> more[..n][i] == more[i];
      SparedStays(w, s, more[..n]);
      OthersSpare(AfterFrom(w, more[..n]), more[n], s);
    }
  }

  // ---------------------------------------------------------------- bringing it about

  lemma {:induction false} RunsFromCons(w: World, a: Action, more: seq<Action>)
    requires Enabled(w, a) && RunsFrom(Step(w, a), more)
    ensures RunsFrom(w, [a] + more) && AfterFrom(w, [a] + more) == AfterFrom(Step(w, a), more)
  {
    if more == [] {
      assert [a] + more == [a] && [a][..0] == [];
    } else {
      var n := |more| - 1;
      assert ([a] + more)[..n + 1] == [a] + more[..n];
      RunsFromCons(w, a, more[..n]);
    }
  }

  lemma BroughtBefore(w: World, s: SessionId, a: Action)
    requires Enabled(w, a) && ByOthers(a, s) && CanBeMistaken(Step(w, a), s)
    ensures CanBeMistaken(w, s)
  {
    var more :| OthersBring(Step(w, a), s, more);
    RunsFromCons(w, a, more);
    assert OthersBring(w, s, [a] + more);
  }

  lemma HumanMailBrings(w: World, s: SessionId)
    requires s in w.sess && EntersHuman(w, s)
    ensures CanBeMistaken(w, s)
  {
    assert OthersBring(w, s, []);
  }

  lemma FinderBrings(w: World, s: SessionId, t: SessionId)
    requires s in w.sess && w.sess[s].pc == BotWait && w.sess[s].open && w.sess[s].mail == None
    requires t in w.sess && w.sess[t].pc.Found? && w.sess[t].pc.peer == s
    ensures CanBeMistaken(w, s)
  {
    HumanMailBrings(Step(w, WakePeer(t)), s);
    BroughtBefore(w, s, WakePeer(t));
  }

  lemma PopperBrings(w: World, s: SessionId, t: SessionId)
    requires s in w.sess && w.sess[s].pc == BotWait && w.sess[s].open && w.sess[s].mail == None
    requires t in w.sess && w.sess[t].pc == Popped(s)
    ensures CanBeMistaken(w, s)
  {
    FinderBrings(Step(w, LookupPeer(t)), s, t);
    BroughtBefore(w, s, LookupPeer(t));
  }

  lemma {:induction false} Above(ids: set<SessionId>) returns (n: SessionId)
    ensures forall i :: i in ids ==> i < n
  {
    if ids == {} {
      return 0;
    }
    var i :| i in ids;
    var m := Above(ids - {i});
    n := if m > i then m else i + 1;
    assert forall j :: j in ids ==> j == i || j in ids - {i};
  }

  /** A newcomer with the mirrored pair, ready to look for a match. */
  function Newcomer(w: World, n: SessionId, s: Lang, l: Lang): World
    requires n != NO_SESSION && n !in w.sess
  {
    w.Set(n, Sess(s, l, false, Ready, NO_SESSION, None, true))
  }

  lemma NewcomerComes(w: World, n: SessionId, s: Lang, l: Lang)
    requires n != NO_SESSION && n !in w.sess
    ensures Enabled(w, Connect(n, s, l, false)) && Enabled(Step(w, Connect(n, s, l, false)), Drain(n))
    ensures Step(Step(w, Connect(n, s, l, false)), Drain(n)) == Newcomer(w, n, s, l)
  {
  }

  /** It pops the head of the queue it searches. */
  lemma NewcomerPops(w: World, n: SessionId, s: Lang, l: Lang)
    requires n != NO_SESSION && n !in w.sess && Open(s, l) && w.store.Queue(QueueTarget(s, l)) != map[]
    ensures var v, a := Newcomer(w, n, s, l), TryMatch(n, false, 0, 0.0);
            var h := Head(w.store.Queue(QueueTarget(s, l)));
            && Enabled(v, a) && Step(v, a).sess == w.sess[n := Sess(s, l, false, Popped(h), NO_SESSION, None, true)]
            && Step(v, a).store.Queue(QueueTarget(s, l)) == w.store.Queue(QueueTarget(s, l)) - {h}
  {
  }

  /** Newcomers empty the queue from its head until one of them pops `s`. */
  lemma {:induction false} NewcomersBring(w: World, s: SessionId)
    requires QueuesSorted(w) && s in w.sess && w.sess[s].pc == BotWait && w.sess[s].open && w.sess[s].mail == None
    requires s in w.store.Queue(QueueOwn(w.sess[s].speaks, w.sess[s].wants))
    ensures CanBeMistaken(w, s)
    decreases |w.store.Queue(QueueOwn(w.sess[s].speaks, w.sess[s].wants))|
  {
    var x := w.sess[s];
    var k := QueueOwn(x.speaks, x.wants);
    OpenIffDistinctSupported(x.speaks, x.wants);
    OpenIffDistinctSupported(x.wants, x.speaks);
    QueueKeysAreDistinct(x.wants, x.speaks, x.wants, x.speaks);
    var m := Above(w.sess.Keys);
    var n := m + 1;
    var connect, drain, match' := Connect(n, x.wants, x.speaks, false), Drain(n), TryMatch(n, false, 0, 0.0);
    NewcomerComes(w, n, x.wants, x.speaks);
    NewcomerPops(w, n, x.wants, x.speaks);
    var v := Newcomer(w, n, x.wants, x.speaks);
    var w' := Step(v, match');
    var h := Head(w.store.Queue(k));
    assert w'.sess[s] == x;
    if h == s {
      PopperBrings(w', s, n);
    } else {
      QueuesStaySorted(w, connect);
      QueuesStaySorted(Step(w, connect), drain);
      QueuesStaySorted(v, match');
      NewcomersBring(w', s);
    }
    BroughtBefore(v, s, match');
    BroughtBefore(Step(w, connect), s, drain);
    BroughtBefore(w, s, connect);
  }

  lemma {:induction false} UpIsOpen(run: seq<Action>, s: SessionId)
    requires Runs(run) && s in After(run).sess && After(run).sess[s].pc != Done
    ensures After(run).sess[s].open
  {
    if run != [] {
      var n := |run| - 1;
      var w, a := After(run[..n]), run[n];
      if s in w.sess && w.sess[s].pc != Done {
        UpIsOpen(run[..n], s);
      }
      StepKeepsUpOpen(w, a, s);
    }
  }

  lemma StepKeepsUpOpen(w: World, a: Action, s: SessionId)
    requires Enabled(w, a) && s in Step(w, a).sess && (s in w.sess && w.sess[s].pc != Done ==> w.sess[s].open)
    ensures Step(w, a).sess[s].pc != Done ==> Step(w, a).sess[s].open
  {
    if s in w.sess && s != a.s {
      OthersKeepMode(w, a, s);
    }
  }

  /**
   In every run: while a session waits for its tutor it can be brought to enter a human's room as its tutor's
   iff a human's wakeup is already in its mailbox, or its mailbox is free and some session has popped it or it
   is still in its queue.
   */
  lemma CanBeMistakenIff(run: seq<Action>, s: SessionId)
    requires Runs(run) && s in After(run).sess && After(run).sess[s].pc == BotWait
    ensures CanBeMistaken(After(run), s) <==> Exposed(After(run), s)
  {
    var w := After(run);
    RunKeepsInv(run);
    UpIsOpen(run, s);
    if Exposed(w, s) {
      if w.sess[s].mail.Some? {
        HumanMailBrings(w, s);
      } else if Sought(w, s) {
        var t :| t in w.sess && Seeks(w.sess[t].pc, s);
        if w.sess[t].pc.Popped? {
          PopperBrings(w, s, t);
        } else {
          FinderBrings(w, s, t);
        }
      } else {
        NewcomersBring(w, s);
      }
    } else {
      assert Spared(w, s);
      forall more: seq<Action> | RunsFrom(w, more) && forall i :: 0 <= i < |more| ==> ByOthers(more[i], s)
        ensures !OthersBring(w, s, more)
      {
        SparedStays(w, s, more);
      }
    }
  }
}
