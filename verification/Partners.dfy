/**
 Whom a session avoids: the partner it secured last, over every interleaving of the room protocol.

 The partner is read off the run, from the steps at which a session came to hold a room.
 */
module Partners {
  import opened Common
  import opened Matcher
  import opened Rooms

  /** `s` came to hold a room in this step. */
  ghost predicate Secures(w: World, a: Action, s: SessionId)
    requires Enabled(w, a)
  {
    var w' := Step(w, a);
    s in w'.sess && w'.sess[s].pc.Holding? && (s in w.sess ==> w'.sess[s].pc != w.sess[s].pc)
  }

  /** The peer of the room that `s` held last, whatever has become of it. */
  ghost function LastSecured(run: seq<Action>, s: SessionId): SessionId
    requires Runs(run)
  {
    if run == [] then NO_SESSION
    else
      var w, a := After(run[..|run| - 1]), run[|run| - 1];
      if Secures(w, a, s) then Step(w, a).sess[s].pc.peer else LastSecured(run[..|run| - 1], s)
  }

  lemma StepRemembers(w: World, a: Action, s: SessionId)
    requires Enabled(w, a) && s in Step(w, a).sess
    ensures var x' := Step(w, a).sess[s];
            x'.lastPeer ==
            if Secures(w, a, s) then x'.pc.peer else if s in w.sess then w.sess[s].lastPeer else NO_SESSION
  {
  }

  /** The peer a session passes to be avoided is the one it secured last, a waiting-room tutor included. */
  lemma {:induction false} AvoidsLastSecured(run: seq<Action>, s: SessionId)
    requires Runs(run) && s in After(run).sess
    ensures After(run).sess[s].lastPeer == LastSecured(run, s)
  {
    if run != [] {
      var before, a := run[..|run| - 1], run[|run| - 1];
      if s in After(before).sess {
        AvoidsLastSecured(before, s);
      } else {
        NeverSecured(before, s);
      }
      StepRemembers(After(before), a, s);
    }
  }

  lemma {:induction false} NeverSecured(run: seq<Action>, s: SessionId)
    requires Runs(run) && s !in After(run).sess
    ensures LastSecured(run, s) == NO_SESSION
  {
    if run != [] {
      var before, a := run[..|run| - 1], run[|run| - 1];
      StepKeepsPeople(After(before), a);
      NeverSecured(before, s);
    }
  }

  /** In every run, looking for a match never returns the partner secured last. */
  lemma NotTheSamePartnerAgain(run: seq<Action>, a: Action, p: SessionId)
    requires Runs(run) && Enabled(After(run), a) && a.TryMatch?
    requires Step(After(run), a).sess[a.s].pc == Popped(p)
    ensures p != LastSecured(run, a.s)
  {
    var w := After(run);
    AvoidsLastSecured(run, a.s);
    MatchTakes(w.store, a.levelAware, RequestOf(w, a));
    RunKeepsInv(run);
    NobodyIsEmpty(run);
  }

  lemma {:induction false} NobodyIsEmpty(run: seq<Action>)
    requires Runs(run)
    ensures NO_SESSION !in After(run).sess
  {
    if run != [] {
      NobodyIsEmpty(run[..|run| - 1]);
      NobodyStaysEmpty(After(run[..|run| - 1]), run[|run| - 1]);
    }
  }

  lemma NobodyStaysEmpty(w: World, a: Action)
    requires Enabled(w, a) && NO_SESSION !in w.sess
    ensures NO_SESSION !in Step(w, a).sess
  {
  }
}
