/** Where the search loop goes from step to step: when it ends, when it looks again, and what it leaves behind. */
module RoomMoves {
  import opened Common
  import opened Matcher
  import opened Rooms

  /** The session that was popped can still be woken. */
  predicate CanBeWoken(w: World, p: SessionId) { p in w.sess && w.sess[p].open && w.sess[p].mail == None }

  /**
   A session's loop ends exactly when its swipe quota is used up, before or after a partner was secured, when its
   connection or its time in the queue is up while it waits or chats, or when the matcher rejects its languages.
   */
  lemma EndsOnlyWhen(w: World, a: Action)
    requires Enabled(w, a) && (a.s in w.sess ==> w.sess[a.s].pc != Done)
    ensures Step(w, a).sess[a.s].pc == Done <==>
            || a.QuotaStop?
            || (a.Refuse? && a.stop)
            || a.Disconnect?
            || (a.TryMatch? && OutcomeOf(w, a).Rejected?)
  {
  }

  /** It is over for good: an ended session only cancels its queue entry and unregisters. */
  lemma EndIsFinal(w: World, a: Action)
    requires Enabled(w, a) && a.s in w.sess && w.sess[a.s].pc == Done
    ensures Step(w, a).sess[a.s].pc == Done && (a.BotWake? || a.DeferredCancel? || a.Unregister?)
  {
  }

  /**
   It looks again, from the head of the loop, exactly when it connects, presses Next, lets go of a partner it may
   not have, or finds the session it popped gone or not to be woken.
   */
  lemma LooksAgainWhen(w: World, a: Action)
    requires Enabled(w, a) && (a.s in w.sess ==> w.sess[a.s].pc != Search)
    ensures Step(w, a).sess[a.s].pc == Search <==>
            || a.Connect?
            || a.Next?
            || (a.Refuse? && !a.stop)
            || (a.LookupPeer? && !(w.sess[a.s].pc.peer in w.sess && w.sess[w.sess[a.s].pc.peer].open))
            || (a.WakePeer? && !CanBeWoken(w, w.sess[a.s].pc.peer))
  {
  }

  /** A wakeup left over from before is read at the head of the loop and dismissed, with a Left to whoever sent it. */
  lemma DrainEmptiesTheMailbox(w: World, a: Action)
    requires Enabled(w, a) && a.Drain?
    ensures var x, w' := w.sess[a.s], Step(w, a);
            && w'.sess[a.s] == x.(pc := if x.tutor then Asking else Ready, mail := None)
            && (x.mail.Some? ==> x.mail.value.room in w'.dismissed && (x.mail.value.room, a.s) in w'.lefts)
            && (x.mail == None ==> w'.dismissed == w.dismissed && w'.lefts == w.lefts)
  {
  }

  /** A second tutor that comes to a waiting chat is dismissed, and the chat goes on. */
  lemma SecondTutorIsDismissed(w: World, a: Action)
    requires Enabled(w, a) && a.DismissBot?
    ensures var x, w' := w.sess[a.s], Step(w, a);
            && w'.sess[a.s] == x.(mail := None)
            && x.mail.value.room in w'.dismissed && (x.mail.value.room, a.s) in w'.lefts
  {
  }

  /** A human who comes to a chat with a waiting tutor takes over: the tutor is left and the human's room held. */
  lemma HumanTakesOver(w: World, a: Action)
    requires Enabled(w, a) && a.HumanArrived?
    ensures var x, w' := w.sess[a.s], Step(w, a); var ev := x.mail.value;
            && w'.sess[a.s] == x.(pc := Holding(ev.room, ev.peer, false), lastPeer := ev.peer, mail := None)
            && (x.pc.room, a.s) in w'.lefts && (ev.room, a.s, ev.peer) in w'.adopted
            && w'.store == w.store
  {
  }

  /** Whoever leaves a room has said so in it. */
  lemma LeavingIsPublished(w: World, a: Action)
    requires Enabled(w, a) && (a.Next? || a.Refuse? || (a.Disconnect? && w.sess[a.s].pc.Chat?))
    ensures (w.sess[a.s].pc.room, a.s) in Step(w, a).lefts
  {
  }

  /**
   A session that leaves a chat with a waiting tutor is out of its queue, if that cancel goes through, and any
   session is when it ends; no other step but a match takes anybody out of a queue.
   */
  lemma QueueIsLeft(w: World, a: Action)
    requires Enabled(w, a) && a.s in w.sess && Open(w.sess[a.s].speaks, w.sess[a.s].wants)
    ensures var x, w' := w.sess[a.s], Step(w, a); var own := QueueOwn(x.speaks, x.wants);
            && ((a.Next? && x.pc.waiting && a.cancelled) || a.DeferredCancel? ==>
                  a.s !in w'.store.Queue(own)
                  && forall k, m :: m in w.store.Queue(k) && m != a.s ==> m in w'.store.Queue(k))
            && (!a.TryMatch? && !a.DeferredCancel? && !(a.Next? && x.pc.waiting && a.cancelled) ==> w'.store == w.store)
  {
  }

  // ---------------------------------------------------------------- what may happen when

  /** A chat with a partner is not interrupted: its session only leaves it, and a wakeup that comes stays unread. */
  lemma ChatIsNotInterrupted(w: World, a: Action)
    requires Enabled(w, a) && a.s in w.sess && w.sess[a.s].pc.Chat? && !w.sess[a.s].pc.waiting
    ensures a.Next? || a.Disconnect? || a.BotWake?
    ensures w.sess[a.s].mail.Some? ==> Step(w, a).sess[a.s].mail == w.sess[a.s].mail
  {
  }

  /** A chat with a waiting tutor is only interrupted by a wakeup, which a human's ends and a tutor's does not. */
  lemma WaitingChatGoesOn(w: World, a: Action)
    requires Enabled(w, a) && a.s in w.sess && w.sess[a.s].pc.Chat? && w.sess[a.s].pc.waiting
    requires !a.Next? && !a.Disconnect?
    ensures Step(w, a).sess[a.s].pc != w.sess[a.s].pc <==>
            a.HumanArrived? && w.sess[a.s].mail.Some? && !w.sess[a.s].mail.value.isBot
  {
  }

  /** Wherever a session waits, in the queue, for its tutor or in a chat, its connection may go, and that ends it. */
  lemma StopsWhileWaiting(w: World, s: SessionId)
    requires s in w.sess
    ensures var pc := w.sess[s].pc;
            Enabled(w, Disconnect(s)) <==> pc == Queued || pc == BotWait || pc.Chat?
    ensures var pc := w.sess[s].pc;
            Enabled(w, QuotaStop(s)) <==> pc == Asking || pc == Ready
  {
  }

  /** Only a session whose loop has ended, once, gives up its queue entry for good and unregisters. */
  lemma UnregistersOnceEnded(w: World, a: Action)
    requires Enabled(w, a) && (a.DeferredCancel? || a.Unregister?)
    ensures w.sess[a.s].pc == Done && w.sess[a.s].open
    ensures a.Unregister? ==> !Enabled(Step(w, a), a)
  {
  }

  /** In every run only a human partner is let go of after having been secured. */
  lemma OnlyHumansAreRefused(run: seq<Action>, a: Action)
    requires Runs(run) && Enabled(After(run), a) && a.Refuse?
    ensures var w := After(run); var room := w.sess[a.s].pc.room; room in w.offers && !w.offers[room].bot
  {
    RunKeepsInv(run);
    assert PcGood(After(run), a.s);
  }
}
