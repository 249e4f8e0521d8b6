/**
 The room protocol: any number of sessions run the search loop of `runSession` concurrently over the
 shared matching queues and the in-memory hub.

 One `Action` is one atomic step of one session (or of a tutor bot): a Redis script, one hub call, one
 read of the session's one-slot mailbox, or a local decision.  A run is any sequence of enabled
 actions.  The fields after `nextRoom` only record what has happened.
 */
module Rooms {
  import opened Common
  import opened Matcher

  type RoomId = nat

  /** A wakeup: the room to join and the peer that offers it. */
  datatype Event = Event(room: RoomId, peer: SessionId, isBot: bool)

  /** Where a session stands between two atomic steps. */
  datatype Pc =
    | Search                                                        // head of the loop
    | Asking                                                        // mailbox drained, about to ask for its tutor
    | Ready                                                         // about to look for a match
    | Popped(peer: SessionId)                                       // TryMatch returned a peer
    | Found(peer: SessionId, room: RoomId)                          // Lookup found it, room ID drawn
    | Queued                                                        // waiting in the queue
    | BotWait                                                       // waiting for the chosen tutor
    | Holding(room: RoomId, peer: SessionId, isBot: bool)           // partner secured
    | Chat(room: RoomId, peer: SessionId, isBot: bool, waiting: bool)
    | Done                                                          // the loop returned

  /** `tutor`: the session asked, once and for all, for a tutor rather than a partner, and tutors are enabled. */
  datatype Sess = Sess(speaks: Lang, wants: Lang, tutor: bool, pc: Pc, lastPeer: SessionId, mail: Option<Event>,
      open: bool)

  /** A room as first offered; a bot offers rooms to one session, a session to the peer it popped. */
  datatype Offer = Offer(from: SessionId, to: SessionId, bot: bool)

  datatype World = World(
    sess: map<SessionId, Sess>,
    store: Store,
    nextRoom: RoomId,
    offers: map<RoomId, Offer>,
    delivered: set<RoomId>,
    adopted: set<(RoomId, SessionId, SessionId)>,      // (room, who, with whom)
    dismissed: set<RoomId>,
    lost: set<RoomId>,
    lefts: set<(RoomId, SessionId)>)                   // Left messages published
  {
    function Set(s: SessionId, x: Sess): World { this.(sess := sess[s := x]) }
    function Adopt(s: SessionId, ev: Event): World { this.(adopted := adopted + {(ev.room, s, ev.peer)}) }
    function Left(r: RoomId, s: SessionId): World { this.(lefts := lefts + {(r, s)}) }
    function Unqueue(s: SessionId, cancelled: bool): World
      requires s in sess
    {
      if cancelled then this.(store := Remove(store, sess[s].speaks, sess[s].wants, s)) else this
    }
  }

  const START: World := World(map[], Store(map[], map[]), 0, map[], {}, {}, {}, {}, {})

  /** `cancelled` tells whether the best-effort Cancel of that step went through. */
  datatype Action =
    | Connect(s: SessionId, speaks: Lang, wants: Lang, tutor: bool)
    | Drain(s: SessionId)
    | QuotaStop(s: SessionId)
    | AskTutor(s: SessionId)
    | TutorRefused(s: SessionId)
    | JoinTutor(s: SessionId)
    | TryMatch(s: SessionId, levelAware: bool, score: int, level: real)
    | LookupPeer(s: SessionId)
    | WakePeer(s: SessionId)
    | BotWake(s: SessionId, bot: SessionId)
    | TakeWakeup(s: SessionId)
    | Refuse(s: SessionId, stop: bool)
    | Enter(s: SessionId)
    | Next(s: SessionId, cancelled: bool)
    | DismissBot(s: SessionId)
    | HumanArrived(s: SessionId)
    | Disconnect(s: SessionId)
    | DeferredCancel(s: SessionId)
    | Unregister(s: SessionId)

  predicate Enabled(w: World, a: Action) {
    if a.Connect? then a.s != NO_SESSION && a.s !in w.sess
    else a.s in w.sess && var x := w.sess[a.s];
      match a
      case Drain(_) => x.pc == Search
      case QuotaStop(_) => x.pc == Asking || x.pc == Ready
      case AskTutor(_) => x.pc == Asking
      case TutorRefused(_) => x.pc == BotWait
      case JoinTutor(_) => x.pc == BotWait && x.mail.Some?
      case TryMatch(_, _, _, _) => x.pc == Ready
      case LookupPeer(_) => x.pc.Popped?
      case WakePeer(_) => x.pc.Found?
      case BotWake(_, _) => x.open && x.mail == None
      case TakeWakeup(_) => x.pc == Queued && x.mail.Some?
      case Refuse(_, _) => x.pc.Holding? && !x.pc.isBot
      case Enter(_) => x.pc.Holding?
      case Next(_, _) => x.pc.Chat?
      case DismissBot(_) => x.pc.Chat? && x.pc.waiting && x.mail.Some? && x.mail.value.isBot
      case HumanArrived(_) => x.pc.Chat? && x.pc.waiting && x.mail.Some? && !x.mail.value.isBot
      case Disconnect(_) => x.pc == Queued || x.pc == BotWait || x.pc.Chat?
      case DeferredCancel(_) => x.pc == Done && x.open
      case Unregister(_) => x.pc == Done && x.open
  }

  function Hold(ev: Event): Pc { Holding(ev.room, ev.peer, ev.isBot) }

  /** Dismiss the event in the mailbox of `s`: its peer gets a Left. */
  function Dismiss(w: World, s: SessionId, pc: Pc): World
    requires s in w.sess && w.sess[s].mail.Some?
  {
    var r := w.sess[s].mail.value.room;
    w.Set(s, w.sess[s].(pc := pc, mail := None)).Left(r, s).(dismissed := w.dismissed + {r})
  }

  function Step(w: World, a: Action): World
    requires Enabled(w, a)
  {
    match a
    case Connect(s, speaks, wants, tutor) => w.Set(s, Sess(speaks, wants, tutor, Search, NO_SESSION, None, true))
    case Drain(s) =>
      var next := if w.sess[s].tutor then Asking else Ready;
      if w.sess[s].mail.Some? then Dismiss(w, s, next) else w.Set(s, w.sess[s].(pc := next))
    case QuotaStop(s) => w.Set(s, w.sess[s].(pc := Done))
    case AskTutor(s) => w.Set(s, w.sess[s].(pc := BotWait))
    case TutorRefused(s) => w.Set(s, w.sess[s].(pc := Ready))
    case JoinTutor(s) =>
      // The event is entered as a tutor's whoever sent it, and the queue is not listened to.
      var ev := w.sess[s].mail.value;
      w.Set(s, w.sess[s].(pc := Chat(ev.room, ev.peer, true, false), mail := None)).Adopt(s, ev)
    case TryMatch(s, levelAware, score, level) =>
      var x := w.sess[s];
      var (st, out) := MatchStep(w.store, levelAware, Request(x.speaks, x.wants, s, x.lastPeer, score, level));
      var pc := match out case Matched(p) => Popped(p) case Waiting => Queued case Rejected(_) => Done;
      w.Set(s, x.(pc := pc)).(store := st)
    case LookupPeer(s) =>
      var p := w.sess[s].pc.peer;
      if p in w.sess && w.sess[p].open
      then w.Set(s, w.sess[s].(pc := Found(p, w.nextRoom)))
            .(nextRoom := w.nextRoom + 1, offers := w.offers[w.nextRoom := Offer(s, p, false)])
      else w.Set(s, w.sess[s].(pc := Search))
    case WakePeer(s) =>
      var Found(p, r) := w.sess[s].pc;
      if p in w.sess && w.sess[p].open && w.sess[p].mail == None then
        var w' := w.Set(p, w.sess[p].(mail := Some(Event(r, s, false)))).(delivered := w.delivered + {r});
        w'.Set(s, w'.sess[s].(pc := Holding(r, p, false), lastPeer := p)).Adopt(s, Event(r, p, false))
      else w.Set(s, w.sess[s].(pc := Search))
    case BotWake(s, bot) =>
      w.Set(s, w.sess[s].(mail := Some(Event(w.nextRoom, bot, true))))
       .(nextRoom := w.nextRoom + 1, offers := w.offers[w.nextRoom := Offer(bot, s, true)],
         delivered := w.delivered + {w.nextRoom})
    case TakeWakeup(s) =>
      var ev := w.sess[s].mail.value;
      w.Set(s, w.sess[s].(pc := Hold(ev), lastPeer := ev.peer, mail := None)).Adopt(s, ev)
    case Refuse(s, stop) =>
      w.Set(s, w.sess[s].(pc := if stop then Done else Search)).Left(w.sess[s].pc.room, s)
    case Enter(s) =>
      var Holding(r, p, isBot) := w.sess[s].pc;
      w.Set(s, w.sess[s].(pc := Chat(r, p, isBot, isBot)))
    case Next(s, cancelled) =>
      w.Set(s, w.sess[s].(pc := Search)).Left(w.sess[s].pc.room, s).Unqueue(s, w.sess[s].pc.waiting && cancelled)
    case DismissBot(s) => Dismiss(w, s, w.sess[s].pc)
    case HumanArrived(s) =>
      var ev := w.sess[s].mail.value;
      w.Set(s, w.sess[s].(pc := Hold(ev), lastPeer := ev.peer, mail := None)).Left(w.sess[s].pc.room, s).Adopt(s, ev)
    case Disconnect(s) =>
      var w' := w.Set(s, w.sess[s].(pc := Done));
      if w.sess[s].pc.Chat? then w'.Left(w.sess[s].pc.room, s) else w'
    case DeferredCancel(s) => w.Unqueue(s, true)
    case Unregister(s) =>
      var w' := w.Set(s, w.sess[s].(mail := None, open := false));
      if w.sess[s].mail.Some? then w'.(lost := w.lost + {w.sess[s].mail.value.room}) else w'
  }

  /** `runs` is a run from the start: every action is enabled where it happens. */
  ghost predicate Runs(run: seq<Action>) { RunsFrom(START, run) }

  ghost function After(run: seq<Action>): World
    requires Runs(run)
  {
    AfterFrom(START, run)
  }

  ghost predicate RunsFrom(w: World, run: seq<Action>)
    decreases |run|, 0
  {
    run == [] || (RunsFrom(w, run[..|run| - 1]) && Enabled(AfterFrom(w, run[..|run| - 1]), run[|run| - 1]))
  }

  ghost function AfterFrom(w: World, run: seq<Action>): World
    requires RunsFrom(w, run)
    decreases |run|, 1
  {
    if run == [] then w else Step(AfterFrom(w, run[..|run| - 1]), run[|run| - 1])
  }

  // ---------------------------------------------------------------- the invariant

  /** Two distinct sessions, each speaking what the other wants. */
  ghost predicate Mirror(w: World, a: SessionId, b: SessionId) {
    && a in w.sess && b in w.sess && a != b
    && w.sess[a].speaks == w.sess[b].wants && w.sess[a].wants == w.sess[b].speaks
  }

  /** A queue only holds sessions of its own pair. */
  ghost predicate QueuesSorted(w: World) {
    forall k, m :: m in w.store.Queue(k) ==>
      m in w.sess && Open(w.sess[m].speaks, w.sess[m].wants) && k == QueueOwn(w.sess[m].speaks, w.sess[m].wants)
  }

  ghost predicate OffersGood(w: World) {
    && w.delivered <= w.offers.Keys
    && (forall r :: r in w.offers ==> r < w.nextRoom && w.offers[r].to in w.sess)
    && (forall r :: r in w.offers && !w.offers[r].bot ==> Mirror(w, w.offers[r].from, w.offers[r].to))
  }

  ghost predicate PcGood(w: World, s: SessionId)
    requires s in w.sess
  {
    match w.sess[s].pc
    case Popped(p) => Mirror(w, s, p)
    case Found(p, r) => r in w.offers && w.offers[r] == Offer(s, p, false) && r !in w.delivered
    case Holding(r, p, isBot) => (r, s, p) in w.adopted && r in w.offers && w.offers[r].bot == isBot
    case Chat(r, p, _, _) => (r, s, p) in w.adopted
    case _ => true
  }

  ghost predicate PcsGood(w: World) {
    forall s :: s in w.sess ==> PcGood(w, s)
  }

  ghost predicate UnreadGood(w: World, s: SessionId)
    requires s in w.sess && w.sess[s].mail.Some?
  {
    var ev := w.sess[s].mail.value;
    && w.sess[s].open
    && ev.room in w.delivered && ev.room in w.offers && w.offers[ev.room] == Offer(ev.peer, s, ev.isBot)
    && ev.room !in w.dismissed && ev.room !in w.lost
    && (ev.room, s, ev.peer) !in w.adopted
  }

  ghost predicate MailGood(w: World) {
    forall s :: s in w.sess && w.sess[s].mail.Some? ==> UnreadGood(w, s)
  }

  ghost predicate AdoptionGood(w: World, r: RoomId, s: SessionId, p: SessionId) {
    && r in w.delivered && r in w.offers
    && (   (s == w.offers[r].to && p == w.offers[r].from && r !in w.dismissed && r !in w.lost)
        || (!w.offers[r].bot && s == w.offers[r].from && p == w.offers[r].to))
  }

  ghost predicate AdoptedGood(w: World) {
    forall r, s, p :: (r, s, p) in w.adopted ==> AdoptionGood(w, r, s, p)
  }

  ghost predicate InMail(w: World, r: RoomId)
    requires r in w.offers
  {
    var t := w.offers[r].to;
    t in w.sess && w.sess[t].mail.Some? && w.sess[t].mail.value.room == r
  }

  ghost predicate TargetAdopted(w: World, r: RoomId)
    requires r in w.offers
  {
    (r, w.offers[r].to, w.offers[r].from) in w.adopted
  }

  /** Where a delivered room is: unread, adopted by its target, dismissed, or lost. */
  ghost predicate Settled(w: World, r: RoomId)
    requires r in w.offers
  {
    InMail(w, r) || TargetAdopted(w, r) || r in w.dismissed || r in w.lost
  }

  ghost predicate DeliveredGood(w: World)
    requires w.delivered <= w.offers.Keys
  {
    && w.dismissed <= w.delivered && w.lost <= w.delivered && w.dismissed !! w.lost
    && (forall r :: r in w.delivered ==> Settled(w, r))
    && (forall r :: r in w.delivered && !w.offers[r].bot ==> (r, w.offers[r].from, w.offers[r].to) in w.adopted)
    && (forall r :: r in w.lost ==> w.offers[r].to in w.sess && !w.sess[w.offers[r].to].open)
  }

  ghost predicate Holds(w: World, s: SessionId, r: RoomId) {
    s in w.sess && var pc := w.sess[s].pc; (pc.Holding? || pc.Chat?) && pc.room == r
  }

  /** Whoever adopted a room is still in it or has published a Left there; so has whoever dismissed one. */
  ghost predicate LeftsGood(w: World)
    requires w.delivered <= w.offers.Keys && w.dismissed <= w.delivered
  {
    && (forall r, s, p :: (r, s, p) in w.adopted ==> (r, s) in w.lefts || Holds(w, s, r))
    && (forall r :: r in w.dismissed ==> (r, w.offers[r].to) in w.lefts)
  }

  ghost predicate Inv(w: World) {
    && QueuesSorted(w) && OffersGood(w) && PcsGood(w) && MailGood(w) && AdoptedGood(w) && DeliveredGood(w)
        && LeftsGood(w)
  }

  ghost predicate SamePeople(w: World, w': World) {
    forall s :: s in w.sess ==>
      s in w'.sess && w'.sess[s].speaks == w.sess[s].speaks && w'.sess[s].wants == w.sess[s].wants
  }

  ghost predicate QueuesShrink(w: World, w': World) {
    forall k, m :: m in w'.store.Queue(k) ==> m in w.store.Queue(k)
  }

  lemma StepKeepsPeople(w: World, a: Action)
    requires Enabled(w, a)
    ensures SamePeople(w, Step(w, a))
  {
  }

  function RequestOf(w: World, a: Action): Request
    requires a.TryMatch? && a.s in w.sess
  {
    var x := w.sess[a.s];
    Request(x.speaks, x.wants, a.s, x.lastPeer, a.score, a.level)
  }

  function OutcomeOf(w: World, a: Action): Outcome
    requires a.TryMatch? && a.s in w.sess
  {
    MatchStep(w.store, a.levelAware, RequestOf(w, a)).1
  }

  lemma StepShrinksQueues(w: World, a: Action)
    requires Enabled(w, a) && (a.TryMatch? ==> OutcomeOf(w, a) != Waiting)
    ensures QueuesShrink(w, Step(w, a))
  {
    if a.TryMatch? && OutcomeOf(w, a).Matched? {
      MatchTakes(w.store, a.levelAware, RequestOf(w, a));
    }
  }

  lemma ShrunkQueuesStaySorted(w: World, w': World)
    requires QueuesSorted(w) && SamePeople(w, w') && QueuesShrink(w, w')
    ensures QueuesSorted(w')
  {
  }

  lemma QueuesStaySorted(w: World, a: Action)
    requires QueuesSorted(w) && Enabled(w, a)
    ensures QueuesSorted(Step(w, a))
  {
    StepKeepsPeople(w, a);
    if a.TryMatch? && OutcomeOf(w, a) == Waiting {
      WaitingJoins(w.store, a.levelAware, RequestOf(w, a));
    } else {
      StepShrinksQueues(w, a);
      ShrunkQueuesStaySorted(w, Step(w, a));
    }
  }

  /** The record only grows, and only the acting session moves. */
  ghost predicate Grows(w: World, w': World, s: SessionId) {
    && w.nextRoom <= w'.nextRoom
    && (forall r :: r in w.offers ==> r in w'.offers && w'.offers[r] == w.offers[r])
    && w.delivered <= w'.delivered && w.adopted <= w'.adopted && w.lefts <= w'.lefts
    && (forall t :: t in w.sess && t != s ==>
          t in w'.sess && w'.sess[t].pc == w.sess[t].pc && w'.sess[t].open == w.sess[t].open)
  }

  lemma StepGrows(w: World, a: Action)
    requires Enabled(w, a) && OffersGood(w)
    ensures Grows(w, Step(w, a), a.s)
  {
  }

  lemma OldOffersStayGood(w: World, w': World)
    requires OffersGood(w) && SamePeople(w, w')
    requires w'.offers == w.offers && w'.nextRoom == w.nextRoom && w'.delivered == w.delivered
    ensures OffersGood(w')
  {
  }

  lemma OffersStayGood(w: World, a: Action)
    requires OffersGood(w) && PcsGood(w) && Enabled(w, a)
    ensures OffersGood(Step(w, a))
  {
    StepKeepsPeople(w, a);
    if a.LookupPeer? || a.BotWake? || a.WakePeer? {
      assert PcGood(w, a.s);
    } else {
      OldOffersStayGood(w, Step(w, a));
    }
  }

  lemma BystanderPcStaysGood(w: World, a: Action, t: SessionId)
    requires OffersGood(w) && PcsGood(w) && Enabled(w, a)
    requires t in w.sess && t != a.s
    ensures t in Step(w, a).sess && PcGood(Step(w, a), t)
  {
    StepKeepsPeople(w, a);
    StepGrows(w, a);
    var w' := Step(w, a);
    assert PcGood(w, t);
    if a.WakePeer? {
      assert PcGood(w, a.s);
    }
    if w.sess[t].pc.Found? {
      assert w.sess[t].pc.room !in w'.delivered by {
        assert w'.delivered == w.delivered || a.WakePeer? || a.BotWake?;
      }
    }
  }

  lemma ActorPcStaysGood(w: World, a: Action)
    requires OffersGood(w) && PcsGood(w) && MailGood(w) && QueuesSorted(w) && Enabled(w, a)
    ensures PcGood(Step(w, a), a.s)
  {
    StepKeepsPeople(w, a);
    if a.TryMatch? {
      if OutcomeOf(w, a).Matched? {
        MatchTakes(w.store, a.levelAware, RequestOf(w, a));
        PoppedIsMirrored(w, a.s, OutcomeOf(w, a).peer);
      }
    } else if !a.Connect? {
      assert PcGood(w, a.s);
    }
  }

  lemma PcsStayGood(w: World, a: Action)
    requires Inv(w) && Enabled(w, a)
    ensures PcsGood(Step(w, a))
  {
    ActorPcStaysGood(w, a);
    forall t | t in Step(w, a).sess
      ensures PcGood(Step(w, a), t)
    {
      if t != a.s {
        assert t in w.sess;
        BystanderPcStaysGood(w, a, t);
      }
    }
  }

  lemma PoppedIsMirrored(w: World, s: SessionId, p: SessionId)
    requires QueuesSorted(w) && s in w.sess && Open(w.sess[s].speaks, w.sess[s].wants)
    requires p in w.store.Queue(QueueTarget(w.sess[s].speaks, w.sess[s].wants))
    ensures Mirror(w, s, p)
  {
    var x, y := w.sess[s], w.sess[p];
    OpenIffDistinctSupported(x.speaks, x.wants);
    QueueKeysAreDistinct(x.speaks, x.wants, x.speaks, x.wants);
    QueueKeysAreDistinct(x.wants, x.speaks, y.speaks, y.wants);
  }

  /** What one step adds: ends and adoptions concern the actor's own wakeup, or the room it offered. */
  lemma StepEndsOwn(w: World, a: Action)
    requires Inv(w) && Enabled(w, a)
    ensures var w' := Step(w, a);
            && w.dismissed <= w'.dismissed && w.lost <= w'.lost
            && forall r :: (r in w'.dismissed && r !in w.dismissed) || (r in w'.lost && r !in w.lost) ==>
                  a.s in w.sess && w.sess[a.s].mail.Some? && r == w.sess[a.s].mail.value.room
                      && w'.sess[a.s].mail == None
  {
  }

  lemma StepAdoptsOwn(w: World, a: Action)
    requires Inv(w) && Enabled(w, a)
    ensures var w' := Step(w, a);
            forall r, s, p :: (r, s, p) in w'.adopted && (r, s, p) !in w.adopted ==>
              && s == a.s && a.s in w.sess
              && (if a.WakePeer? then w.sess[s].pc == Found(p, r) && r in w'.delivered
                  else
                    && w.sess[s].mail.Some? && r == w.sess[s].mail.value.room && p == w.sess[s].mail.value.peer
                    && w'.sess[s].mail == None)
  {
  }

  /** A wakeup that stays unread. */
  lemma OldMailStaysGood(w: World, a: Action, t: SessionId)
    requires Inv(w) && Enabled(w, a)
    requires t in w.sess && w.sess[t].mail.Some? && t in Step(w, a).sess && Step(w, a).sess[t].mail == w.sess[t].mail
    ensures UnreadGood(Step(w, a), t)
  {
    StepGrows(w, a);
    StepEndsOwn(w, a);
    StepAdoptsOwn(w, a);
    assert UnreadGood(w, t);
    if a.s in w.sess && w.sess[a.s].mail.Some? {
      assert UnreadGood(w, a.s);
    }
    if a.WakePeer? {
      assert PcGood(w, a.s);
    }
  }

  /** A wakeup just delivered. */
  lemma NewMailIsGood(w: World, a: Action, t: SessionId)
    requires Inv(w) && Enabled(w, a)
    requires t in Step(w, a).sess && Step(w, a).sess[t].mail.Some?
    requires t !in w.sess || Step(w, a).sess[t].mail != w.sess[t].mail
    ensures UnreadGood(Step(w, a), t)
  {
    assert a.WakePeer? || a.BotWake?;
    if a.WakePeer? {
      assert PcGood(w, a.s);
    }
  }

  lemma MailStaysGood(w: World, a: Action)
    requires Inv(w) && Enabled(w, a)
    ensures MailGood(Step(w, a))
  {
    var w' := Step(w, a);
    forall t | t in w'.sess && w'.sess[t].mail.Some?
      ensures UnreadGood(w', t)
    {
      if t in w.sess && w'.sess[t].mail == w.sess[t].mail {
        OldMailStaysGood(w, a, t);
      } else {
        NewMailIsGood(w, a, t);
      }
    }
  }

  lemma OldAdoptionStaysGood(w: World, a: Action, r: RoomId, s: SessionId, p: SessionId)
    requires Inv(w) && Enabled(w, a) && (r, s, p) in w.adopted
    ensures AdoptionGood(Step(w, a), r, s, p)
  {
    StepGrows(w, a);
    StepEndsOwn(w, a);
    assert AdoptionGood(w, r, s, p);
    if a.s in w.sess && w.sess[a.s].mail.Some? {
      assert UnreadGood(w, a.s);
    }
  }

  lemma NewAdoptionIsGood(w: World, a: Action, r: RoomId, s: SessionId, p: SessionId)
    requires Inv(w) && Enabled(w, a) && (r, s, p) in Step(w, a).adopted && (r, s, p) !in w.adopted
    ensures AdoptionGood(Step(w, a), r, s, p)
  {
    StepGrows(w, a);
    StepAdoptsOwn(w, a);
    if a.WakePeer? {
      assert PcGood(w, a.s);
    } else {
      assert UnreadGood(w, a.s);
      var w' := Step(w, a);
      assert w'.dismissed == w.dismissed && w'.lost == w.lost;
    }
  }

  lemma AdoptedStaysGood(w: World, a: Action)
    requires Inv(w) && Enabled(w, a)
    ensures AdoptedGood(Step(w, a))
  {
    forall r, s, p | (r, s, p) in Step(w, a).adopted
      ensures AdoptionGood(Step(w, a), r, s, p)
    {
      if (r, s, p) in w.adopted {
        OldAdoptionStaysGood(w, a, r, s, p);
      } else {
        NewAdoptionIsGood(w, a, r, s, p);
      }
    }
  }

  /** A wakeup that is read or closed is adopted, dismissed or lost. */
  lemma ReadIsSettled(w: World, a: Action, r: RoomId)
    requires Inv(w) && Enabled(w, a) && r in w.offers && InMail(w, r)
    ensures r in Step(w, a).offers && Settled(Step(w, a), r)
  {
    var t := w.offers[r].to;
    assert UnreadGood(w, t);
    assert w.sess[t].mail.value == Event(r, w.offers[r].from, w.offers[r].bot);
  }

  lemma SettledStays(w: World, a: Action, r: RoomId)
    requires Inv(w) && Enabled(w, a) && r in w.delivered
    ensures r in Step(w, a).offers && Settled(Step(w, a), r)
  {
    assert Settled(w, r);
    if InMail(w, r) {
      ReadIsSettled(w, a, r);
    } else {
      StepGrows(w, a);
      StepEndsOwn(w, a);
    }
  }

  lemma NewDeliverySettled(w: World, a: Action, r: RoomId)
    requires Inv(w) && Enabled(w, a) && r in Step(w, a).delivered && r !in w.delivered
    ensures r in Step(w, a).offers && Settled(Step(w, a), r)
    ensures !Step(w, a).offers[r].bot ==> (r, Step(w, a).offers[r].from, Step(w, a).offers[r].to) in Step(w, a).adopted
  {
    if a.WakePeer? {
      assert PcGood(w, a.s);
    }
  }

  lemma EndsStayGood(w: World, a: Action)
    requires Inv(w) && Enabled(w, a)
    ensures var w' := Step(w, a); w'.dismissed <= w'.delivered && w'.lost <= w'.delivered && w'.dismissed !! w'.lost
  {
    StepGrows(w, a);
    StepEndsOwn(w, a);
    if a.s in w.sess && w.sess[a.s].mail.Some? {
      assert UnreadGood(w, a.s);
    }
    assert a.Unregister? || Step(w, a).lost == w.lost;
    assert !a.Unregister? || Step(w, a).dismissed == w.dismissed;
  }

  lemma LostStaysGood(w: World, a: Action, r: RoomId)
    requires Inv(w) && Enabled(w, a) && r in Step(w, a).lost
    ensures var w' := Step(w, a); r in w'.offers && w'.offers[r].to in w'.sess && !w'.sess[w'.offers[r].to].open
  {
    if r in w.lost {
      LostBeforeStaysGood(w, a, r);
    } else {
      assert a.Unregister? && w.sess[a.s].mail.Some?;
      assert UnreadGood(w, a.s);
    }
  }

  lemma LostBeforeStaysGood(w: World, a: Action, r: RoomId)
    requires Inv(w) && Enabled(w, a) && r in w.lost
    ensures var w' := Step(w, a); r in w'.offers && w'.offers[r].to in w'.sess && !w'.sess[w'.offers[r].to].open
  {
    StepGrows(w, a);
    assert r in w.offers && w.offers[r].to in w.sess && !w.sess[w.offers[r].to].open;
    ClosedStaysClosed(w, a, w.offers[r].to);
  }

  lemma ClosedStaysClosed(w: World, a: Action, s: SessionId)
    requires Enabled(w, a) && s in w.sess && !w.sess[s].open
    ensures s in Step(w, a).sess && !Step(w, a).sess[s].open
  {
  }

  lemma DeliveredStaysGood(w: World, a: Action)
    requires Inv(w) && Enabled(w, a) && OffersGood(Step(w, a))
    ensures DeliveredGood(Step(w, a))
  {
    EndsStayGood(w, a);
    StepGrows(w, a);
    var w' := Step(w, a);
    forall r | r in w'.delivered
      ensures Settled(w', r) && (!w'.offers[r].bot ==> (r, w'.offers[r].from, w'.offers[r].to) in w'.adopted)
    {
      if r in w.delivered {
        SettledStays(w, a, r);
      } else {
        NewDeliverySettled(w, a, r);
      }
    }
    forall r | r in w'.lost
      ensures w'.offers[r].to in w'.sess && !w'.sess[w'.offers[r].to].open
    {
      LostStaysGood(w, a, r);
    }
  }

  lemma DepartureStaysGood(w: World, a: Action, r: RoomId, s: SessionId, p: SessionId)
    requires Inv(w) && Enabled(w, a)
    requires (r, s, p) in Step(w, a).adopted
    ensures (r, s) in Step(w, a).lefts || Holds(Step(w, a), s, r)
  {
    StepGrows(w, a);
    if (r, s, p) in w.adopted {
      assert (r, s) in w.lefts || Holds(w, s, r);
    }
  }

  lemma LeftsStayGood(w: World, a: Action)
    requires Inv(w) && Enabled(w, a)
    requires Step(w, a).delivered <= Step(w, a).offers.Keys && Step(w, a).dismissed <= Step(w, a).delivered
    ensures LeftsGood(Step(w, a))
  {
    var w' := Step(w, a);
    StepGrows(w, a);
    forall r, s, p | (r, s, p) in w'.adopted
      ensures (r, s) in w'.lefts || Holds(w', s, r)
    {
      DepartureStaysGood(w, a, r, s, p);
    }
    forall r | r in w'.dismissed
      ensures (r, w'.offers[r].to) in w'.lefts
    {
      assert r in w.dismissed || (w.sess[a.s].mail.Some? && r == w.sess[a.s].mail.value.room);
    }
  }

  lemma StepKeepsInv(w: World, a: Action)
    requires Inv(w) && Enabled(w, a)
    ensures Inv(Step(w, a))
  {
    QueuesStaySorted(w, a);
    OffersStayGood(w, a);
    PcsStayGood(w, a);
    MailStaysGood(w, a);
    AdoptedStaysGood(w, a);
    DeliveredStaysGood(w, a);
    LeftsStayGood(w, a);
  }

  lemma {:induction false} RunKeepsInv(run: seq<Action>)
    requires Runs(run)
    ensures Inv(After(run))
  {
    if run != [] {
      RunKeepsInv(run[..|run| - 1]);
      StepKeepsInv(After(run[..|run| - 1]), run[|run| - 1]);
    }
  }

  // ---------------------------------------------------------------- results about every run

  /**
   Room agreement: of a human room, the sessions that ever secured it are at most two, distinct, and
   each took the other as its peer; they speak and want mirrored languages.
   */
  lemma RoomAgreement(run: seq<Action>, r: RoomId, s: SessionId, p: SessionId, s': SessionId, p': SessionId)
    requires Runs(run)
    requires (r, s, p) in After(run).adopted && (r, s', p') in After(run).adopted
    requires r in After(run).offers && !After(run).offers[r].bot
    ensures Mirror(After(run), s, p)
    ensures if s == s' then p == p' else s' == p && p' == s
  {
    RunKeepsInv(run);
  }

  /** At most two sessions secure a human room. */
  lemma AtMostTwoInARoom(run: seq<Action>, r: RoomId, who: set<SessionId>)
    requires Runs(run) && r in After(run).offers && !After(run).offers[r].bot
    requires forall s :: s in who ==> exists p :: (r, s, p) in After(run).adopted
    ensures |who| <= 2
  {
    RunKeepsInv(run);
    var o := After(run).offers[r];
    assert who <= {o.from, o.to};
    SubsetIsSmaller(who, {o.from, o.to});
  }

  lemma SubsetIsSmaller<T>(a: set<T>, b: set<T>)
    requires a <= b
    ensures |a| <= |b|
  {
    if a != {} {
      var x :| x in a;
      SubsetIsSmaller(a - {x}, b - {x});
    }
  }

  /** Sessions chatting in one human room at the same time are each other's peer. */
  lemma ChatPartnersAgree(run: seq<Action>, s: SessionId, s': SessionId)
    requires Runs(run)
    requires s in After(run).sess && s' in After(run).sess && s != s'
    requires After(run).sess[s].pc.Chat? && After(run).sess[s'].pc.Chat?
    requires After(run).sess[s].pc.room == After(run).sess[s'].pc.room
    ensures After(run).sess[s].pc.peer == s' && After(run).sess[s'].pc.peer == s
  {
    var w := After(run);
    RunKeepsInv(run);
    assert PcGood(w, s) && PcGood(w, s');
  }

  function Count(b: bool): nat { if b then 1 else 0 }

  /**
   Each delivered wakeup is exactly one of: unread, adopted by its target, dismissed, lost; lost only if the
   session ended.
   */
  lemma EachWakeupSettledOnce(run: seq<Action>, r: RoomId)
    requires Runs(run) && r in After(run).delivered
    ensures var w := After(run);
            && r in w.offers
            && Count(InMail(w, r)) + Count(TargetAdopted(w, r)) + Count(r in w.dismissed) + Count(r in w.lost) == 1
            && (r in w.lost ==> w.offers[r].to in w.sess && !w.sess[w.offers[r].to].open)
  {
    RunKeepsInv(run);
    var w := After(run);
    if InMail(w, r) {
      assert UnreadGood(w, w.offers[r].to);
      assert w.sess[w.offers[r].to].mail.value == Event(r, w.offers[r].from, w.offers[r].bot);
    }
    assert forall s, p :: (r, s, p) in w.adopted ==> AdoptionGood(w, r, s, p);
  }

  /**
   Nobody is left alone without notice: once a human room was delivered, each of its two sessions is in
   it, has published a Left in it, has not read the wakeup yet, or ended with the wakeup unread.
   */
  lemma NoSilentDeparture(run: seq<Action>, r: RoomId)
    requires Runs(run) && r in After(run).delivered && r in After(run).offers && !After(run).offers[r].bot
    ensures var w := After(run);
            var o := w.offers[r];
            && (Holds(w, o.from, r) || (r, o.from) in w.lefts)
            && (Holds(w, o.to, r) || (r, o.to) in w.lefts || InMail(w, r) || r in w.lost)
  {
    RunKeepsInv(run);
    assert Settled(After(run), r);
  }
}
