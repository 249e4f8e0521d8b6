/** That a conversation goes on: when it ends, how it opens, and that a burst of messages is answered. */
module TutorProgress {
  import opened Common
  import opened Tutor

  // ---------------------------------------------------------------- what is sent arrives

  /** A full buffer drops the envelope; otherwise it is sent, behind what waits already. */
  lemma SentUnlessFull(w: World, env: Env, plain: string -> string)
    ensures var w' := Step(w, Send(env), plain);
            && w'.buf == Offered(w.buf, false, env)
            && w'.sent == (if |w.buf| < 128 then w.sent + [env] else w.sent)
            && w' == w.(buf := w'.buf, sent := w'.sent)
  {
  }

  /** An envelope is buffered exactly if the peer is there and fewer than 128 wait, and what waits stays in order. */
  lemma OfferedIffRoom(buf: seq<Env>, peerClosed: bool, env: Env)
    ensures !peerClosed && |buf| < 128 ==> Offered(buf, peerClosed, env) == buf + [env]
    ensures peerClosed || |buf| >= 128 ==> Offered(buf, peerClosed, env) == buf
  {
  }

  // ---------------------------------------------------------------- when it ends

  /** The bot reads a Left. */
  predicate ReadsLeft(w: World, a: Action) {
    (a.ReadFirst? || a.ReadNext? || a.DrainOne?) && w.buf != [] && w.buf[0] == Left
  }

  /** Fifty messages of the bot: the greeting and 49 answers. */
  lemma {:induction false} CountIsAnswers(scenario: bool, run: seq<Action>, plain: string -> string)
    requires Runs(scenario, run, plain)
    ensures var w := After(scenario, run, plain);
            w.pc == Idle || w.pc.Turn? || w.pc.Drain? || w.pc.Ask? ==> w.count == |w.answered| + 1
    ensures var w := After(scenario, run, plain); w.pc == WaitJoin || w.pc.Greet? ==> w.answered == []
  {
    if run != [] {
      CountIsAnswers(scenario, run[..|run| - 1], plain);
      StepCounts(After(scenario, run[..|run| - 1], plain), run[|run| - 1], plain);
    }
  }

  lemma StepCounts(w: World, a: Action, plain: string -> string)
    requires Enabled(w, a) && (w.pc == WaitJoin || w.pc.Greet? ==> w.answered == [])
    requires w.pc == Idle || w.pc.Turn? || w.pc.Drain? || w.pc.Ask? ==> w.count == |w.answered| + 1
    ensures var w' := Step(w, a, plain);
            && (w'.pc == WaitJoin || w'.pc.Greet? ==> w'.answered == [])
            && (w'.pc == Idle || w'.pc.Turn? || w'.pc.Drain? || w'.pc.Ask? ==> w'.count == |w'.answered| + 1)
  {
  }

  /**
   A conversation ends exactly when it is cancelled before a turn, the user leaves, a quota is used up, Claude
   fails, or the bot has sent fifty messages.
   */
  lemma EndsOnlyWhen(scenario: bool, run: seq<Action>, a: Action, plain: string -> string)
    requires Runs(scenario, run, plain) && Enabled(After(scenario, run, plain), a)
    requires After(scenario, run, plain).pc != Ended
    ensures var w := After(scenario, run, plain);
            Step(w, a, plain).pc == Ended <==>
              || a == Cancelled
              || ReadsLeft(w, a)
              || (a.Open? && (a.overLimit || (scenario && a.opening == None)))
              || (a.BeginTurn? && |w.answered| == 49)
              || (a.Finish? && (a.overLimit || a.reply == None))
  {
    CountIsAnswers(scenario, run, plain);
    ScenarioStays(scenario, run, plain);
    RunKeepsBounds(scenario, run, plain);
  }

  /** The bot can be cancelled whenever it waits, and only then: before the greeting and between turns. */
  lemma CancelledWhileWaiting(w: World)
    ensures Enabled(w, Cancelled) <==> w.pc == WaitJoin || w.pc.Greet? || w.pc == Idle
  {
  }

  // ---------------------------------------------------------------- how it opens

  /** The pair a conversation starts from: the seed, and the greeting or what Claude said to open the scenario. */
  predicate OpensWith(scenario: bool, a: Action, pair: seq<Message>) {
    && a.Open? && !a.overLimit && (scenario ==> a.opening.Some?)
    && pair == [Message(true, a.seed), Message(false, if scenario then a.opening.value else a.greeting)]
  }

  /** Only in a scenario is Claude asked for the opening, once, with the seed alone. */
  ghost predicate OpenedBy(scenario: bool, run: seq<Action>, w: World) {
    if w.pc == WaitJoin || w.pc.Greet? then w.opening == [] && w.requests == []
    else if w.opening == [] then w.pc == Ended && w.asked == []
    else exists i :: 0 <= i < |run| && IsOpening(scenario, run[i], w)
  }

  ghost predicate IsOpening(scenario: bool, a: Action, w: World) {
    && OpensWith(scenario, a, w.opening)
    && |w.requests| == |w.asked| + (if scenario then 1 else 0)
    && (scenario ==> w.requests[0] == [Message(true, a.seed)])
  }

  lemma StepOpened(scenario: bool, run: seq<Action>, a: Action, w: World, plain: string -> string)
    requires OpenedBy(scenario, run, w) && w.scenario == scenario && Enabled(w, a)
    requires w.pc == WaitJoin || w.pc.Greet? ==> w.asked == []
    ensures OpenedBy(scenario, run + [a], Step(w, a, plain))
  {
    var w', all := Step(w, a, plain), run + [a];
    if w.opening != [] {
      var i :| 0 <= i < |run| && IsOpening(scenario, run[i], w);
      assert all[i] == run[i] && IsOpening(scenario, all[i], w');
    } else if w'.opening != [] {
      assert all[|run|] == a && IsOpening(scenario, a, w');
    }
  }

  lemma {:induction false} OpensOnce(scenario: bool, run: seq<Action>, plain: string -> string)
    requires Runs(scenario, run, plain)
    ensures OpenedBy(scenario, run, After(scenario, run, plain))
  {
    if run != [] {
      var n := |run| - 1;
      OpensOnce(scenario, run[..n], plain);
      ScenarioStays(scenario, run[..n], plain);
      TurnsAskWhatWasSaid(scenario, run[..n], plain);
      StepOpened(scenario, run[..n], run[n], After(scenario, run[..n], plain), plain);
      assert run == run[..n] + [run[n]];
    }
  }

  /** Claude is asked for the opening of a scenario even if the answer then fails, and for no greeting. */
  lemma OpeningIsAsked(w: World, a: Action, plain: string -> string)
    requires Enabled(w, a) && a.Open?
    ensures Step(w, a, plain).requests ==
            w.requests + if w.scenario && !a.overLimit then [[Message(true, a.seed)]] else []
  {
    assert TrimHead([Message(true, a.seed)]) == [Message(true, a.seed)];
  }

  // ---------------------------------------------------------------- a burst is answered

  /** `acts` are possible one after the other from `w`, and lead to `v`. */
  ghost predicate Leads(w: World, acts: seq<Action>, v: World, plain: string -> string)
    decreases |acts|
  {
    if acts == [] then v == w
    else Enabled(w, acts[0]) && Leads(Step(w, acts[0], plain), acts[1..], v, plain)
  }

  lemma LeadsCons(w: World, a: Action, acts: seq<Action>, v: World, plain: string -> string)
    requires Enabled(w, a) && Leads(Step(w, a, plain), acts, v, plain)
    ensures Leads(w, [a] + acts, v, plain)
  {
    assert ([a] + acts)[0] == a && ([a] + acts)[1..] == acts;
  }

  /** `w` with the turn `bodies` answered and everything read. */
  ghost predicate Answers(w: World, v: World, bodies: seq<Body>, reply: string, plain: string -> string) {
    && v.pc == Idle && v.buf == [] && v.read == w.read + w.buf && v.sent == w.sent
    && v.answered == w.answered + [bodies] && v.replies == w.replies + [reply] && v.count == w.count + 1
    && v.asked == w.asked + [bodies]
    && v.history == AfterTurn(w.history, plain(Joined(bodies)), reply)
  }

  lemma {:induction false} DrainsAll(w: World, reply: string, plain: string -> string)
      returns (acts: seq<Action>, v: World)
    requires w.pc.Drain? && Left !in w.buf
    ensures Leads(w, acts, v, plain) && Answers(w, v, w.pc.bodies + Bodies(w.buf), reply, plain)
    decreases |w.buf|
  {
    if w.buf == [] {
      v := FinishAnswers(w, reply, plain);
      acts := [DrainOne, Finish(false, Some(reply))];
    } else {
      var next, more := DrainedOne(w, plain), [];
      more, v := DrainsAll(next, reply, plain);
      acts := [DrainOne] + more;
      LeadsCons(w, DrainOne, more, v, plain);
    }
  }

  /** `w` once one more message, or something else than a message, was drained. */
  function DrainedOne(w: World, plain: string -> string): (next: World)
    requires w.pc.Drain? && w.buf != [] && Left !in w.buf
    ensures next == Step(w, DrainOne, plain) && next.pc.Drain?
    ensures next.pc.bodies + Bodies(next.buf) == w.pc.bodies + Bodies(w.buf)
    ensures next.read + next.buf == w.read + w.buf && next.buf == w.buf[1..]
    ensures next == w.(buf := next.buf, read := next.read, pc := next.pc)
  {
    Step(w, DrainOne, plain)
  }

  lemma FinishAnswers(w: World, reply: string, plain: string -> string) returns (v: World)
    requires w.pc.Drain? && w.buf == []
    ensures Leads(w, [DrainOne, Finish(false, Some(reply))], v, plain)
    ensures Answers(w, v, w.pc.bodies + Bodies(w.buf), reply, plain)
  {
    var last, next := Finish(false, Some(reply)), Step(w, DrainOne, plain);
    v := Step(next, last, plain);
    assert Leads(v, [], v, plain);
    LeadsCons(next, last, [], v, plain);
    LeadsCons(w, DrainOne, [last] + [], v, plain);
    assert [DrainOne] + ([last] + []) == [DrainOne, last];
    assert w.pc.bodies + Bodies(w.buf) == w.pc.bodies && w.read + w.buf == w.read;
  }

  /**
   A message that the bot takes up with everything waiting behind it, as long as nobody leaves: one turn, one
   reply, whatever the burst, until the bot has sent its fifty messages.
   */
  lemma BurstIsAnswered(scenario: bool, run: seq<Action>, reply: string, plain: string -> string)
      returns (acts: seq<Action>, v: World)
    requires Runs(scenario, run, plain)
    requires var w := After(scenario, run, plain);
             w.pc == Idle && w.buf != [] && w.buf[0].Msg? && Left !in w.buf && |w.answered| < 49
    ensures var w := After(scenario, run, plain);
            Leads(w, acts, v, plain) && Answers(w, v, Bodies(w.buf), reply, plain)
  {
    var w := After(scenario, run, plain);
    CountIsAnswers(scenario, run, plain);
    acts, v := NextIsAnswered(w, reply, plain);
  }

  lemma NextIsAnswered(w: World, reply: string, plain: string -> string) returns (acts: seq<Action>, v: World)
    requires w.pc == Idle && w.buf != [] && w.buf[0].Msg? && Left !in w.buf && w.count < MAX_BOT_MESSAGES
    ensures Leads(w, acts, v, plain) && Answers(w, v, Bodies(w.buf), reply, plain)
  {
    var more;
    var next := Step(w, ReadNext, plain);
    assert next == w.(buf := w.buf[1..], read := w.read + [w.buf[0]], pc := Turn(w.buf[0].body));
    more, v := TurnIsAnswered(next, reply, plain);
    acts := [ReadNext] + more;
    LeadsCons(w, ReadNext, more, v, plain);
    assert [w.buf[0].body] + Bodies(w.buf[1..]) == Bodies(w.buf);
    assert next.read + next.buf == w.read + w.buf;
  }

  lemma TurnIsAnswered(w: World, reply: string, plain: string -> string) returns (acts: seq<Action>, v: World)
    requires w.pc.Turn? && w.count < MAX_BOT_MESSAGES && Left !in w.buf
    ensures Leads(w, acts, v, plain) && Answers(w, v, [w.pc.body] + Bodies(w.buf), reply, plain)
  {
    var more;
    more, v := DrainsAll(Step(w, BeginTurn, plain), reply, plain);
    acts := [BeginTurn] + more;
    LeadsCons(w, BeginTurn, more, v, plain);
  }

  /** Without a sign of the user the bot greets all the same, and then listens. */
  lemma GreetsInTheEnd(seed: string, greeting: string, plain: string -> string) returns (v: World)
    ensures Leads(Opened(false), [GiveUpWaiting, Open(false, None, seed, greeting)], v, plain)
    ensures v == Opened(false).(pc := Idle, history := [Message(true, seed), Message(false, greeting)], count := 1,
                                opening := [Message(true, seed), Message(false, greeting)])
  {
    var w := Step(Opened(false), GiveUpWaiting, plain);
    v := Step(w, Open(false, None, seed, greeting), plain);
    assert Leads(v, [], v, plain);
    LeadsCons(w, Open(false, None, seed, greeting), [], v, plain);
    LeadsCons(Opened(false), GiveUpWaiting, [Open(false, None, seed, greeting)] + [], v, plain);
    assert [GiveUpWaiting] + ([Open(false, None, seed, greeting)] + [])
        == [GiveUpWaiting, Open(false, None, seed, greeting)];
  }
}
