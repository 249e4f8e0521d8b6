/** What the tutor remembers: each turn puts to Claude the end of the whole conversation so far. */
module TutorMemory {
  import opened Common
  import opened Tutor

  /** The opening and the first `n` answered turns: what the user said, what the tutor replied. */
  ghost function Transcript(opening: seq<Message>, answered: seq<seq<Body>>, replies: seq<string>, n: nat,
      plain: string -> string): seq<Message>
    requires n <= |answered| && n <= |replies|
  {
    if n == 0 then opening
    else
      Transcript(opening, answered, replies, n - 1, plain)
      + [Message(true, plain(Joined(answered[n - 1]))), Message(false, replies[n - 1])]
  }

  /** More turns do not change the transcript of the first ones. */
  lemma {:induction false} TranscriptStays(opening: seq<Message>, answered: seq<seq<Body>>, replies: seq<string>,
      n: nat, plain: string -> string, bodies: seq<Body>, reply: string)
    requires n <= |answered| && n <= |replies|
    ensures Transcript(opening, answered + [bodies], replies + [reply], n, plain)
            == Transcript(opening, answered, replies, n, plain)
  {
    if n > 0 {
      TranscriptStays(opening, answered, replies, n - 1, plain, bodies, reply);
    }
  }

  /** The newest 24 messages. */
  function Newest(ms: seq<Message>): seq<Message> {
    if |ms| > 24 then ms[|ms| - 24..] else ms
  }

  /** A pair more: what `AfterTurn` leaves of the newest is the newest. */
  lemma NewestAfterTurn(whole: seq<Message>, history: seq<Message>, userMsg: string, reply: string, after: seq<Message>)
    requires history == Newest(whole) && PairedHistory(history)
    requires after == whole + [Message(true, userMsg), Message(false, reply)]
    ensures AfterTurn(history, userMsg, reply) == Newest(after)
  {
    TurnKeepsPairs(history, userMsg, reply);
    var pair := [Message(true, userMsg), Message(false, reply)];
    if |whole| >= 24 {
      assert history == whole[|whole| - 24..];
      assert (history + pair)[2..] == (whole + pair)[|whole| + 2 - 24..];
    }
  }

  ghost predicate Remembers(w: World, plain: string -> string) {
    && |w.answered| == |w.replies| <= |w.asked| <= |w.requests|
    && (w.opening == [] ==> w.asked == [] && w.history == [])
    && (w.opening != [] ==>
          && |w.opening| == 2
          && w.history == Newest(Transcript(w.opening, w.answered, w.replies, |w.answered|, plain)))
  }

  /** The `i`th turn put to Claude: the newest 24 messages before it, and what the user said. */
  ghost predicate AskedInContext(w: World, plain: string -> string, i: nat)
    requires i < |w.asked| <= |w.requests| && |w.answered| == |w.replies|
  {
    && i <= |w.answered|
    && w.requests[|w.requests| - |w.asked| + i] ==
       Newest(Transcript(w.opening, w.answered, w.replies, i, plain)) + [Message(true, plain(Joined(w.asked[i])))]
  }

  ghost predicate AllInContext(w: World, plain: string -> string)
    requires |w.asked| <= |w.requests| && |w.answered| == |w.replies|
  {
    forall i: nat :: i < |w.asked| ==> AskedInContext(w, plain, i)
  }

  /** Whether the bot is between the greeting and the end. */
  predicate Talking(w: World) { w.pc == Idle || w.pc.Turn? || w.pc.Drain? || w.pc.Ask? }

  ghost predicate Kept(w: World, plain: string -> string) {
    && Remembers(w, plain) && AllInContext(w, plain)
    && (Talking(w) ==> w.opening != [] && w.asked == w.answered)
    && (w.pc == WaitJoin || w.pc.Greet? ==> w.opening == [] && w.asked == [])
  }

  /** `w'` is `w` with one more turn put to Claude, and with it answered if `reply` is there. */
  ghost predicate OneMore(w: World, w': World, request: seq<Message>, bodies: seq<Body>, reply: Option<string>) {
    && w'.requests == w.requests + [request] && w'.asked == w.asked + [bodies] && w'.opening == w.opening
    && w'.answered == (if reply.Some? then w.answered + [bodies] else w.answered)
    && w'.replies == (if reply.Some? then w.replies + [reply.value] else w.replies)
  }

  lemma ContextStays(w: World, w': World, request: seq<Message>, bodies: seq<Body>, reply: Option<string>,
      plain: string -> string, i: nat)
    requires i < |w.asked| <= |w.requests| && |w.answered| == |w.replies| && AskedInContext(w, plain, i)
    requires OneMore(w, w', request, bodies, reply)
    ensures AskedInContext(w', plain, i)
  {
    if reply.Some? {
      TranscriptStays(w.opening, w.answered, w.replies, i, plain, bodies, reply.value);
    }
  }

  lemma LastInContext(w: World, w': World, bodies: seq<Body>, reply: Option<string>, plain: string -> string)
    requires Remembers(w, plain) && w.opening != [] && w.asked == w.answered
    requires OneMore(w, w', w.history + [Message(true, plain(Joined(bodies)))], bodies, reply)
    ensures AskedInContext(w', plain, |w.asked|)
  {
    if reply.Some? {
      TranscriptStays(w.opening, w.answered, w.replies, |w.answered|, plain, bodies, reply.value);
    }
  }

  lemma TranscriptNext(opening: seq<Message>, answered: seq<seq<Body>>, replies: seq<string>, plain: string -> string,
      bodies: seq<Body>, reply: string)
    requires |answered| == |replies|
    ensures Transcript(opening, answered + [bodies], replies + [reply], |answered| + 1, plain)
            == Transcript(opening, answered, replies, |answered|, plain)
               + [Message(true, plain(Joined(bodies))), Message(false, reply)]
  {
    TranscriptStays(opening, answered, replies, |answered|, plain, bodies, reply);
  }

  lemma HistoryNext(opening: seq<Message>, answered: seq<seq<Body>>, replies: seq<string>, plain: string -> string,
      bodies: seq<Body>, reply: string, history: seq<Message>)
    requires |answered| == |replies| && |opening| == 2 && PairedHistory(history)
    requires history == Newest(Transcript(opening, answered, replies, |answered|, plain))
    ensures AfterTurn(history, plain(Joined(bodies)), reply)
            == Newest(Transcript(opening, answered + [bodies], replies + [reply], |answered| + 1, plain))
  {
    var whole := Transcript(opening, answered, replies, |answered|, plain);
    var after := Transcript(opening, answered + [bodies], replies + [reply], |answered| + 1, plain);
    TranscriptNext(opening, answered, replies, plain, bodies, reply);
    NewestAfterTurn(whole, history, plain(Joined(bodies)), reply, after);
  }

  lemma AllStayInContext(w: World, w': World, bodies: seq<Body>, reply: Option<string>, plain: string -> string)
    requires Remembers(w, plain) && AllInContext(w, plain) && w.opening != [] && w.asked == w.answered
    requires OneMore(w, w', w.history + [Message(true, plain(Joined(bodies)))], bodies, reply)
    ensures AllInContext(w', plain)
  {
    forall i: nat | i < |w'.asked|
      ensures AskedInContext(w', plain, i)
    {
      if i < |w.asked| {
        assert AskedInContext(w, plain, i);
        ContextStays(w, w', w.history + [Message(true, plain(Joined(bodies)))], bodies, reply, plain, i);
      } else {
        LastInContext(w, w', bodies, reply, plain);
      }
    }
  }

  lemma FinishKeeps(w: World, a: Action, plain: string -> string)
    requires Kept(w, plain) && BoundedTalk(w) && Enabled(w, a) && a.Finish? && !a.overLimit
    ensures Kept(Step(w, a, plain), plain)
  {
    var w', bodies := Step(w, a, plain), w.pc.bodies;
    var request := w.history + [Message(true, plain(Joined(bodies)))];
    RequestIsGood(w.history, plain(Joined(bodies)));
    assert OneMore(w, w', request, bodies, a.reply);
    AllStayInContext(w, w', bodies, a.reply, plain);
    if a.reply.Some? {
      HistoryNext(w.opening, w.answered, w.replies, plain, bodies, a.reply.value, w.history);
    }
  }

  lemma StepKeeps(w: World, a: Action, plain: string -> string)
    requires Kept(w, plain) && BoundedTalk(w) && Enabled(w, a)
    ensures Kept(Step(w, a, plain), plain)
  {
    if a.Finish? && !a.overLimit {
      FinishKeeps(w, a, plain);
    } else {
      var w' := Step(w, a, plain);
      StepTurnsNothing(w, a, plain);
      forall i: nat | i < |w'.asked|
        ensures AskedInContext(w', plain, i)
      {
        assert AskedInContext(w, plain, i);
      }
    }
  }

  lemma StepTurnsNothing(w: World, a: Action, plain: string -> string)
    requires Enabled(w, a) && !(a.Finish? && !a.overLimit)
    ensures var w' := Step(w, a, plain);
            && w'.asked == w.asked && w'.answered == w.answered && w'.replies == w.replies
            && (!a.Open? ==> w'.opening == w.opening && w'.requests == w.requests && w'.history == w.history)
            && (a.Open? && w'.pc != Ended ==> |w'.opening| == 2 && w'.history == w'.opening)
            && (a.Open? && w'.pc == Ended ==> w'.opening == w.opening && w'.history == w.history)
            && (Talking(w') ==> Talking(w) || a.Open?)
            && (w'.pc == WaitJoin || w'.pc.Greet? ==> w.pc == WaitJoin || w.pc.Greet?)
  {
  }

  lemma {:induction false} RunKeeps(scenario: bool, run: seq<Action>, plain: string -> string)
    requires Runs(scenario, run, plain)
    ensures Kept(After(scenario, run, plain), plain)
  {
    if run != [] {
      RunKeeps(scenario, run[..|run| - 1], plain);
      RunKeepsBounds(scenario, run[..|run| - 1], plain);
      StepKeeps(After(scenario, run[..|run| - 1], plain), run[|run| - 1], plain);
    }
  }

  /**
   In every conversation each turn's request is the newest 24 messages of the opening and the turns answered
   before it, as they were said and replied, followed by what the user says in this turn.
   */
  lemma EachTurnIsAskedInContext(scenario: bool, run: seq<Action>, plain: string -> string, i: nat)
    requires Runs(scenario, run, plain) && i < |After(scenario, run, plain).asked|
    ensures var w := After(scenario, run, plain);
            && |w.asked| <= |w.requests| && |w.answered| == |w.replies|
            && AskedInContext(w, plain, i)
  {
    RunKeeps(scenario, run, plain);
  }
}
