/**
 One endpoint of the tandem as `runChat` keeps it: loop variables rewritten turn by turn.

 Each method is one turn of the event loop.  Given any room whose side `x` is in this endpoint's state, the
 turn does to that side, and publishes, exactly what module Tandem's step does.
 */
module TandemEnd {
  import opened Tandem

  /** The room after a turn of side `x` that left it in state `s` having published `out`. */
  ghost predicate Turn(r: Room, r': Room, x: bool, s: Side, out: seq<Msg>) {
    && r'.At(x) == s && r'.In(!x) == r.In(!x) + out
    && r'.At(!x) == r.At(!x) && r'.In(x) == r.In(x)
  }

  class ChatEnd {
    const id: nat
    const peerId: nat
    const speaks: string
    const wants: string
    var proposedByMe: bool
    var active: bool
    var phase: nat
    var timer: bool
    var lang: string
    var peerGone: bool
    var left: bool
    ghost var prompted: bool
    ghost var accepted: bool
    ghost var got: bool
    ghost var pending: bool
    ghost var shown: bool
    ghost var waiting: bool

    constructor (id: nat, peerId: nat, speaks: string, wants: string)
      ensures State() == Fresh(id, speaks, wants) && this.peerId == peerId
    {
      this.id, this.peerId, this.speaks, this.wants := id, peerId, speaks, wants;
      proposedByMe, active, phase, timer, lang, peerGone, left := false, false, 0, false, "", false, false;
      prompted, accepted, got, pending, shown, waiting := false, false, false, false, false, false;
    }

    ghost function State(): Side
      reads this
    {
      Side(id, speaks, wants, proposedByMe, active, phase, timer, lang, peerGone, left,
           prompted, accepted, got, pending, shown, waiting)
    }

    ghost predicate In(r: Room, x: bool)
      reads this
    {
      r.At(x) == State() && r.At(!x).id == peerId
    }

    /** A tandem_switch or a tandem_end frame reaches the client. */
    ghost method Screen(session: bool)
      modifies this
      ensures State() == old(State()).Screen(session)
    {
      pending, shown, waiting := false, session, false;
    }

    method BeginPhase(n: nat) returns (out: seq<Msg>)
      requires n == 1 || n == 2
      modifies this
      ensures State() == InPhase(old(State()), n)
      ensures out == [Switch(old(State()).PhaseLang(n))]
    {
      var langs := [wants, speaks];
      phase := n;
      lang := langs[n - 1];
      Screen(true);
      out := [Switch(lang)];
      timer := true;
    }

    method Begin() returns (out: seq<Msg>)
      modifies this
      ensures State() == Started(old(State()))
      ensures out == [Switch(old(State()).PhaseLang(1))]
    {
      active := true;
      out := BeginPhase(1);
    }

    method Finish()
      modifies this
      ensures State() == Ended(old(State()))
    {
      active, phase, proposedByMe, timer, lang := false, 0, false, false, "";
      Screen(false);
    }

    method NextPhase() returns (out: seq<Msg>)
      modifies this
      ensures var s := old(State());
              if s.phase == 1 then State() == InPhase(s, 2) && out == [Switch(s.PhaseLang(2))]
              else State() == Ended(s) && out == [End]
    {
      if phase == 1 {
        out := BeginPhase(2);
        return;
      }
      out := [End];
      Finish();
    }

    method OnTimer(ghost r: Room, ghost x: bool) returns (out: seq<Msg>)
      requires In(r, x) && timer && !left
      modifies this
      ensures Turn(r, Step(r, TimerFires(x)), x, State(), out)
    {
      timer := false;
      if !active || peerGone {
        return [];
      }
      out := NextPhase();
    }

    method OnProposal(ghost r: Room, ghost x: bool) returns (out: seq<Msg>)
      requires In(r, x) && !peerGone
      modifies this
      ensures Turn(r, OnMessage(r, x, Propose), x, State(), out)
    {
      out := [];
      got := true;
      if active {
        return;
      }
      if proposedByMe {
        if id < peerId {
          out := Begin();
        }
        return;
      }
      prompted, pending := true, true;
    }

    method OnAccept(ghost r: Room, ghost x: bool) returns (out: seq<Msg>)
      requires In(r, x) && !peerGone
      modifies this
      ensures Turn(r, OnMessage(r, x, Accept), x, State(), out)
    {
      out := [];
      if proposedByMe && !active {
        out := Begin();
      }
    }

    /** One message of the peer. */
    method OnPeer(m: Msg, ghost r: Room, ghost x: bool) returns (out: seq<Msg>)
      requires In(r, x)
      modifies this
      ensures Turn(r, OnMessage(r, x, m), x, State(), out)
    {
      out := [];
      if peerGone {
        return;
      }
      match m
      case Propose =>
        out := OnProposal(r, x);
      case Accept =>
        out := OnAccept(r, x);
      case Switch(l) =>
        lang := l;
        Screen(true);
      case End =>
        Finish();
      case Left =>
        peerGone := true;
    }

    method OnClientPropose(ghost r: Room, ghost x: bool) returns (out: seq<Msg>)
      requires In(r, x) && !left
      modifies this
      ensures Turn(r, Step(r, ClientPropose(x)), x, State(), out)
    {
      if peerGone || active || proposedByMe {
        return [];
      }
      proposedByMe := true;
      out := [Propose];
    }

    method OnClientAccept(ghost r: Room, ghost x: bool) returns (out: seq<Msg>)
      requires In(r, x) && !left
      modifies this
      ensures Turn(r, Step(r, ClientAccept(x)), x, State(), out)
    {
      if peerGone || active || proposedByMe {
        return [];
      }
      accepted, pending, waiting := true, false, true;
      out := [Accept];
    }

    /** Every way out of the loop publishes a Left. */
    method Exit(ghost r: Room, ghost x: bool) returns (out: seq<Msg>)
      requires In(r, x) && !left
      modifies this
      ensures Turn(r, Step(r, Leave(x)), x, State(), out)
    {
      left := true;
      out := [Left];
    }
  }
}
