/**
 The in-memory registry of connected sessions, each with a one-slot wakeup channel.

 Methods are proved against functions on the registry's value, and the lemmas at the end show that the
 room protocol of module Rooms performs exactly those operations.
 */
module Hub {
  import opened Common
  import opened Matcher
  import Rooms

  type Event = Rooms.Event

  /** The registry as a value: the unread wakeup of every registered session. */
  type Slots = map<SessionId, Option<Event>>

  /** The non-blocking send: it succeeds iff the session is registered and its slot is free. */
  function Woken(h: Slots, id: SessionId, ev: Event): (Slots, bool) {
    if id in h && h[id] == None then (h[id := Some(ev)], true) else (h, false)
  }

  class Mailbox {
    var slot: Option<Event>
    var closed: bool

    constructor ()
      ensures slot == None && !closed
    {
      slot, closed := None, false;
    }
  }

  class Hub {
    var sessions: map<SessionId, Mailbox>

    ghost function Boxes(): set<Mailbox>
      reads this
    {
      set id | id in sessions :: sessions[id]
    }

    /** Channels are open while registered and never shared. */
    ghost predicate Valid()
      reads this, Boxes()
    {
      && (forall id :: id in sessions ==> !sessions[id].closed)
      && (forall a, b :: a in sessions && b in sessions && a != b ==> sessions[a] != sessions[b])
    }

    ghost function View(): Slots
      reads this, Boxes()
    {
      map id | id in sessions :: sessions[id].slot
    }

    constructor ()
      ensures Valid() && View() == map[]
    {
      sessions := map[];
    }

    method Register(id: SessionId) returns (wakeup: Mailbox)
      requires Valid()
      modifies this, Boxes()
      ensures Valid() && fresh(wakeup) && id in sessions && sessions[id] == wakeup
      ensures View() == old(View())[id := None]
      ensures id in old(sessions) ==> old(sessions)[id].closed && old(sessions)[id].slot == old(sessions[id].slot)
    {
      if id in sessions {
        sessions[id].closed := true;
      }
      wakeup := new Mailbox();
      sessions := sessions[id := wakeup];
    }

    method Unregister(id: SessionId)
      requires Valid()
      modifies this, Boxes()
      ensures Valid() && View() == old(View()) - {id}
      ensures id in old(sessions) ==> old(sessions)[id].closed
    {
      if id in sessions {
        sessions[id].closed := true;
        sessions := sessions - {id};
      }
    }

    method Lookup(id: SessionId) returns (ok: bool)
      requires Valid()
      ensures ok <==> id in View()
    {
      ok := id in sessions;
    }

    method Wakeup(id: SessionId, ev: Event) returns (ok: bool)
      requires Valid()
      modifies Boxes()
      ensures Valid() && sessions == old(sessions)
      ensures (View(), ok) == Woken(old(View()), id, ev)
    {
      ok := id in sessions && sessions[id].slot == None;
      if ok {
        sessions[id].slot := Some(ev);
        assert forall x :: x in sessions && x != id ==> sessions[x].slot == old(sessions[x].slot);
        assert View() == old(View())[id := Some(ev)];
      }
    }
  }

  // ---------------------------------------------------------------- the hub inside the room protocol

  ghost function SlotsIn(sess: map<SessionId, Rooms.Sess>): Slots {
    map s | s in sess && sess[s].open :: sess[s].mail
  }

  ghost function SlotsOf(w: Rooms.World): Slots { SlotsIn(w.sess) }

  lemma SlotChanges(sess: map<SessionId, Rooms.Sess>, s: SessionId, x: Rooms.Sess)
    ensures SlotsIn(sess[s := x]) == if x.open then SlotsIn(sess)[s := x.mail] else SlotsIn(sess) - {s}
  {
  }

  /** A session that wakes its peer does so by the hub's Wakeup, and secures the room iff that succeeds. */
  lemma WakePeerIsWakeup(w: Rooms.World, a: Rooms.Action)
    requires Rooms.Inv(w) && Rooms.Enabled(w, a) && a.WakePeer?
    ensures var h, w' := SlotsOf(w), Rooms.Step(w, a);
            var (woken, ok) := Woken(h, w.sess[a.s].pc.peer, Rooms.Event(w.sess[a.s].pc.room, a.s, false));
            SlotsOf(w') == woken && (w'.sess[a.s].pc.Holding? <==> ok)
  {
    assert Rooms.PcGood(w, a.s);
  }

  /** So does a tutor bot. */
  lemma BotWakeIsWakeup(w: Rooms.World, a: Rooms.Action)
    requires Rooms.Enabled(w, a) && a.BotWake?
    ensures (SlotsOf(Rooms.Step(w, a)), true) == Woken(SlotsOf(w), a.s, Rooms.Event(w.nextRoom, a.bot, true))
  {
    var x := w.sess[a.s];
    var ev := Rooms.Event(w.nextRoom, a.bot, true);
    assert Rooms.Step(w, a).sess == w.sess[a.s := x.(mail := Some(ev))];
    SlotChanges(w.sess, a.s, x.(mail := Some(ev)));
    SlotChanges(w.sess, a.s, x);
    assert w.sess[a.s := x] == w.sess;
  }

  /** Lookup decides on registration; connecting and leaving are Register and Unregister. */
  lemma RegistryStepsAgree(w: Rooms.World, a: Rooms.Action)
    requires Rooms.Enabled(w, a) && (a.Connect? || a.Unregister? || a.LookupPeer?)
    ensures var h, w' := SlotsOf(w), Rooms.Step(w, a);
            && (a.Connect? ==> SlotsOf(w') == h[a.s := None])
            && (a.Unregister? ==> SlotsOf(w') == h - {a.s})
            && (a.LookupPeer? ==> SlotsOf(w') == h && (w'.sess[a.s].pc.Found? <==> w.sess[a.s].pc.peer in h))
  {
    var x' := Rooms.Step(w, a).sess[a.s];
    assert Rooms.Step(w, a).sess == w.sess[a.s := x'];
    assert a.LookupPeer? ==> x'.open == w.sess[a.s].open && x'.mail == w.sess[a.s].mail;
    if a.LookupPeer? {
      var p := w.sess[a.s].pc.peer;
      assert p in SlotsOf(w) <==> p in w.sess && w.sess[p].open;
      assert x'.pc.Found? <==> p in w.sess && w.sess[p].open;
      assert SlotsOf(Rooms.Step(w, a)) == SlotsOf(w);
    }
  }

  /** Every other step leaves the hub alone, or takes the one unread wakeup of the acting session. */
  lemma OtherStepsReadOwnChannel(w: Rooms.World, a: Rooms.Action)
    requires Rooms.Inv(w) && Rooms.Enabled(w, a)
    requires !(a.WakePeer? || a.BotWake? || a.Connect? || a.Unregister? || a.LookupPeer?)
    ensures var h, h' := SlotsOf(w), SlotsOf(Rooms.Step(w, a));
            h' == h || (a.s in h && h[a.s].Some? && h' == h[a.s := None])
  {
    var x, x' := w.sess[a.s], Rooms.Step(w, a).sess[a.s];
    OwnSlotOnly(w, a);
    SlotChanges(w.sess, a.s, x');
    SlotChanges(w.sess, a.s, x);
    assert w.sess[a.s := x] == w.sess;
  }

  lemma OwnSlotOnly(w: Rooms.World, a: Rooms.Action)
    requires Rooms.Enabled(w, a)
    requires !(a.WakePeer? || a.BotWake? || a.Connect? || a.Unregister? || a.LookupPeer?)
    ensures var w' := Rooms.Step(w, a);
            && a.s in w.sess && a.s in w'.sess && w'.sess == w.sess[a.s := w'.sess[a.s]]
            && w'.sess[a.s].open == w.sess[a.s].open
            && (w'.sess[a.s].mail == w.sess[a.s].mail || (w.sess[a.s].mail.Some? && w'.sess[a.s].mail == None))
  {
  }
}
