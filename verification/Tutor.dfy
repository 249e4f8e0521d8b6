/**
 A conversation with the AI tutor: an in-process channel with a bounded buffer each way, and the bot
 that waits for the user, coalesces bursts of messages into turns and asks Claude for each.

 The user's connection and the bot run concurrently: `Send` is a step of the former, the other actions
 are steps of the bot.  What Claude and the quota answer is a parameter of the step.
 */
module Tutor {
  import opened Common

  type Body = string

  datatype Env = Msg(body: Body) | Typing | Join | Left

  const BUFFER: nat := 128
  const MAX_BOT_MESSAGES: nat := 50
  const MAX_HISTORY: nat := 24    // 12 pairs

  // ---------------------------------------------------------------- the in-process transport

  class Channel {
    var buf: seq<Env>

    constructor ()
      ensures buf == []
    {
      buf := [];
    }
  }

  class Flag {
    var closed: bool

    constructor ()
      ensures !closed
    {
      closed := false;
    }
  }

  datatype Arrival = RoomFree | PeerCloses | TimeIsUp

  /** One end: what the other end sends arrives in `recv`. */
  class LocalRoom {
    const recv: Channel
    const send: Channel
    const self: Flag
    const peer: Flag

    constructor (recv: Channel, send: Channel, self: Flag, peer: Flag)
      ensures this.recv == recv && this.send == send && this.self == self && this.peer == peer
    {
      this.recv, this.send, this.self, this.peer := recv, send, self, peer;
    }

    /** Never blocks: to a closed peer or into a full buffer the envelope is dropped. */
    method Publish(env: Env)
      modifies send
      ensures send.buf == Offered(old(send.buf), peer.closed, env)
    {
      if !peer.closed && |send.buf| < BUFFER {
        send.buf := send.buf + [env];
      }
    }

    /**
     The one send that waits.  `first` is what comes first of those that are ready: room in the buffer, which
     in a full one only the peer can make by reading, the peer's close, or the caller's time limit.
     */
    method SendLeft(first: Arrival) returns (ok: bool)
      requires |send.buf| <= BUFFER
      modifies send, peer
      ensures first == RoomFree ==>
                && ok
                && send.buf == (if |old(send.buf)| < BUFFER then old(send.buf) else old(send.buf)[1..]) + [Left]
      ensures first == PeerCloses ==> ok && peer.closed && send.buf == old(send.buf)
      ensures first == TimeIsUp ==> !ok && send.buf == old(send.buf)
      ensures first != PeerCloses ==> peer.closed == old(peer.closed)
      ensures ok && !peer.closed ==> send.buf != [] && send.buf[|send.buf| - 1] == Left
    {
      match first
      case RoomFree =>
        if |send.buf| == BUFFER {
          send.buf := send.buf[1..];
        }
        send.buf := send.buf + [Left];
        ok := true;
      case PeerCloses =>
        peer.closed := true;
        ok := true;
      case TimeIsUp =>
        ok := false;
    }

    method Close()
      modifies self
      ensures self.closed
    {
      self.closed := true;
    }
  }

  function Offered(buf: seq<Env>, peerClosed: bool, env: Env): seq<Env> {
    if !peerClosed && |buf| < BUFFER then buf + [env] else buf
  }

  /** Two crossed ends: each publishes into what the other receives, and sees the other's close. */
  method NewLocalRoomPair() returns (a: LocalRoom, b: LocalRoom)
    ensures fresh(a) && fresh(b) && a.send == b.recv && b.send == a.recv && a.send != b.send
    ensures a.peer == b.self && b.peer == a.self && a.self != b.self
    ensures a.send.buf == b.send.buf == [] && !a.self.closed && !b.self.closed
  {
    var ab := new Channel();
    var ba := new Channel();
    var da := new Flag();
    var db := new Flag();
    a := new LocalRoom(ba, ab, da, db);
    b := new LocalRoom(ab, ba, db, da);
  }

  // ---------------------------------------------------------------- bodies and bursts

  function Bodies(es: seq<Env>): seq<Body> {
    if es == [] then []
    else if es[0].Msg? then [es[0].body] + Bodies(es[1..])
    else Bodies(es[1..])
  }

  lemma {:induction false} BodiesSnoc(es: seq<Env>, e: Env)
    ensures Bodies(es + [e]) == if e.Msg? then Bodies(es) + [e.body] else Bodies(es)
  {
    if es == [] {
      assert es + [e] == [e] && [e][1..] == [];
    } else {
      assert (es + [e])[1..] == es[1..] + [e];
      BodiesSnoc(es[1..], e);
    }
  }

  function Flat(turns: seq<seq<Body>>): seq<Body> {
    if turns == [] then [] else Flat(turns[..|turns| - 1]) + turns[|turns| - 1]
  }

  lemma FlatSnoc(turns: seq<seq<Body>>, t: seq<Body>)
    ensures Flat(turns + [t]) == Flat(turns) + t
  {
    assert (turns + [t])[..|turns|] == turns;
  }

  /** `n` envelopes were taken: all of them, or as far as the first Left. */
  ghost predicate Drained(was: seq<Env>, rest: seq<Env>, taken: seq<Body>, left: bool, n: nat) {
    && n <= |was| && rest == was[n..] && taken == Bodies(was[..n])
    && (if left then n > 0 && was[n - 1] == Left && Left !in was[..n - 1] else rest == [] && Left !in was)
  }

  /** Empties what is buffered when a turn begins; stops at a Left. */
  method DrainPending(events: Channel, current: Body) returns (bodies: seq<Body>, left: bool)
    modifies events
    ensures left <==> Left in old(events.buf)
    ensures bodies != [] && bodies[0] == current
    ensures exists n: nat :: Drained(old(events.buf), events.buf, bodies[1..], left, n)
  {
    bodies := [current];
    ghost var was := events.buf;
    ghost var n: nat := 0;
    while events.buf != []
      invariant n <= |was| && events.buf == was[n..] && Left !in was[..n]
      invariant bodies != [] && bodies[0] == current && bodies[1..] == Bodies(was[..n])
      decreases |events.buf|
    {
      var e := events.buf[0];
      events.buf := events.buf[1..];
      BodiesSnoc(was[..n], e);
      assert was[..n + 1] == was[..n] + [e];
      match e {
        case Left =>
          assert Drained(was, events.buf, bodies[1..], true, n + 1);
          return bodies, true;
        case Msg(b) =>
          bodies := bodies + [b];
        case _ =>
      }
      n := n + 1;
    }
    assert was[..n] == was;
    assert Drained(was, events.buf, bodies[1..], false, n);
    left := false;
  }

  // ---------------------------------------------------------------- what Claude is sent

  datatype Message = Message(user: bool, content: string)

  function Capped(h: seq<Message>): seq<Message> {
    if |h| > MAX_HISTORY then h[|h| - MAX_HISTORY..] else h
  }

  method AppendHistory(h: seq<Message>, m: Message) returns (h': seq<Message>)
    ensures h' == Capped(h + [m])
    ensures |h'| <= MAX_HISTORY && h' != [] && h'[|h'| - 1] == m
  {
    h' := h + [m];
    if |h'| > MAX_HISTORY {
      h' := h'[|h'| - MAX_HISTORY..];
    }
  }

  function TrimHead(ms: seq<Message>): seq<Message> {
    if ms != [] && !ms[0].user then TrimHead(ms[1..]) else ms
  }

  /** The client's request: the history and the new message, trimmed to start with a user turn. */
  method AssembleRequest(history: seq<Message>, userMsg: string) returns (ms: seq<Message>)
    ensures ms == TrimHead(history + [Message(true, userMsg)])
    ensures ms != [] && ms[0].user && ms[|ms| - 1] == Message(true, userMsg)
  {
    ms := history + [Message(true, userMsg)];
    while ms != [] && !ms[0].user
      invariant ms != [] && ms[|ms| - 1] == Message(true, userMsg)
      invariant TrimHead(ms) == TrimHead(history + [Message(true, userMsg)])
      decreases |ms|
    {
      ms := ms[1..];
    }
  }

  ghost predicate Alternates(ms: seq<Message>) {
    && (forall i :: 0 <= i < |ms| - 1 ==> ms[i].user != ms[i + 1].user)
  }

  /** The history between two turns: pairs, the user's turn first. */
  ghost predicate PairedHistory(h: seq<Message>) {
    2 <= |h| <= MAX_HISTORY && |h| % 2 == 0 && h[0].user && Alternates(h)
  }

  /** What the API accepts. */
  ghost predicate GoodRequest(ms: seq<Message>) {
    ms != [] && |ms| <= MAX_HISTORY + 1 && ms[0].user && ms[|ms| - 1].user && Alternates(ms)
  }

  lemma {:induction false} AlternationFixesParity(ms: seq<Message>, i: nat)
    requires ms != [] && ms[0].user && Alternates(ms) && i < |ms|
    ensures ms[i].user <==> i % 2 == 0
  {
    if i > 0 {
      AlternationFixesParity(ms, i - 1);
      assert ms[i - 1].user != ms[i - 1 + 1].user;
    }
  }

  /** On a paired history the trimming loop removes nothing and the request is well formed. */
  lemma RequestIsGood(h: seq<Message>, userMsg: string)
    requires PairedHistory(h)
    ensures var ms := h + [Message(true, userMsg)]; TrimHead(ms) == ms && GoodRequest(ms)
  {
    AlternationFixesParity(h, |h| - 1);
    var ms := h + [Message(true, userMsg)];
    assert ms[0] == h[0];
    assert forall i :: 0 <= i < |h| ==> ms[i] == h[i];
  }

  function AfterTurn(h: seq<Message>, userMsg: string, reply: string): seq<Message> {
    Capped(Capped(h + [Message(true, userMsg)]) + [Message(false, reply)])
  }

  /** A turn keeps the history paired, the oldest pair leaving when it is full. */
  lemma TurnKeepsPairs(h: seq<Message>, userMsg: string, reply: string)
    requires PairedHistory(h)
    ensures var whole := h + [Message(true, userMsg), Message(false, reply)];
            AfterTurn(h, userMsg, reply) == (if |whole| > MAX_HISTORY then whole[2..] else whole)
    ensures PairedHistory(AfterTurn(h, userMsg, reply))
  {
    var whole := h + [Message(true, userMsg), Message(false, reply)];
    WholeAlternates(h, userMsg, reply);
    if |h| == MAX_HISTORY {
      assert Capped(h + [Message(true, userMsg)]) == whole[1..|whole| - 1];
      assert Capped(h + [Message(true, userMsg)]) + [Message(false, reply)] == whole[1..];
      assert AfterTurn(h, userMsg, reply) == whole[1..][1..] == whole[2..];
      AlternationFixesParity(whole, 2);
      TailAlternates(whole, 2);
    } else {
      assert h + [Message(true, userMsg)] + [Message(false, reply)] == whole;
    }
  }

  lemma WholeAlternates(h: seq<Message>, userMsg: string, reply: string)
    requires PairedHistory(h)
    ensures Alternates(h + [Message(true, userMsg), Message(false, reply)])
  {
    AlternationFixesParity(h, |h| - 1);
    var whole := h + [Message(true, userMsg), Message(false, reply)];
    forall i | 0 <= i < |whole| - 1
      ensures whole[i].user != whole[i + 1].user
    {
      if i + 1 < |h| {
        assert h[i].user != h[i + 1].user;
      }
    }
  }

  lemma TailAlternates(ms: seq<Message>, k: nat)
    requires Alternates(ms) && k <= |ms|
    ensures Alternates(ms[k..])
  {
    var tail := ms[k..];
    forall i | 0 <= i < |tail| - 1
      ensures tail[i].user != tail[i + 1].user
    {
      assert ms[k + i].user != ms[k + i + 1].user;
    }
  }

  // ---------------------------------------------------------------- the conversation

  /** What the bot does next, with the bodies it holds. */
  datatype Pc =
    | WaitJoin
    | Greet(first: Option<Body>)
    | Idle
    | Turn(body: Body)
    | Drain(bodies: seq<Body>)
    | Ask(bodies: seq<Body>)
    | Ended

  /**
   `sent`: envelopes that fitted the buffer; `read`: those the bot took; `asked`: the bodies of each turn put to
   Claude; `answered`: those of each replied turn; `replies`: what was replied; `opening`: how it all began.
   */
  datatype World = World(scenario: bool, buf: seq<Env>, sent: seq<Env>, read: seq<Env>, pc: Pc,
                         history: seq<Message>, count: nat, requests: seq<seq<Message>>, asked: seq<seq<Body>>,
                         answered: seq<seq<Body>>, replies: seq<string>, opening: seq<Message>)
  {
    function Read(pc': Pc): World
      requires buf != []
    {
      this.(buf := buf[1..], read := read + [buf[0]], pc := pc')
    }
  }

  function Opened(scenario: bool): World { World(scenario, [], [], [], WaitJoin, [], 0, [], [], [], [], []) }

  datatype Action =
    | Send(env: Env)
    | GiveUpWaiting
    | Cancelled
    | ReadFirst
    | Open(overLimit: bool, opening: Option<string>, seed: string, greeting: string)
    | ReadNext
    | BeginTurn
    | DrainOne
    | Finish(overLimit: bool, reply: Option<string>)

  predicate Enabled(w: World, a: Action) {
    match a
    case Send(_) => true
    case GiveUpWaiting => w.pc == WaitJoin
    case Cancelled => w.pc == WaitJoin || w.pc.Greet? || w.pc == Idle
    case ReadFirst => w.pc == WaitJoin && w.buf != []
    case Open(_, _, _, _) => w.pc.Greet?
    case ReadNext => w.pc == Idle && w.buf != []
    case BeginTurn => w.pc.Turn?
    case DrainOne => w.pc.Drain?
    case Finish(_, _) => w.pc.Ask?
  }

  function Greeted(w: World, h: seq<Message>, requests: seq<seq<Message>>): World
    requires w.pc.Greet?
  {
    w.(history := h, opening := h, requests := requests, count := 1,
       pc := if w.pc.first.Some? then Turn(w.pc.first.value) else Idle)
  }

  /** The bodies on lines of their own. */
  function Joined(bodies: seq<Body>): string {
    if bodies == [] then ""
    else if |bodies| == 1 then bodies[0]
    else Joined(bodies[..|bodies| - 1]) + "\n" + bodies[|bodies| - 1]
  }

  /** `text` is the bodies in order, one per line. */
  ghost predicate Lines(text: string, bodies: seq<Body>)
    decreases |bodies|
  {
    if bodies == [] then text == ""
    else if |bodies| == 1 then text == bodies[0]
    else bodies[0] + "\n" <= text && Lines(text[|bodies[0]| + 1..], bodies[1..])
  }

  lemma {:induction false} JoinedConcat(a: seq<Body>, b: seq<Body>)
    requires a != [] && b != []
    ensures Joined(a + b) == Joined(a) + "\n" + Joined(b)
  {
    var n := |b| - 1;
    assert (a + b)[..|a| + n] == a + b[..n];
    if n > 0 {
      JoinedConcat(a, b[..n]);
    } else {
      assert a + b[..n] == a;
    }
  }

  /** What a burst is joined to: each of its bodies on a line of its own, in the order they came. */
  lemma {:induction false} JoinedIsLines(bodies: seq<Body>)
    ensures Lines(Joined(bodies), bodies)
  {
    if |bodies| > 1 {
      JoinedConcat(bodies[..1], bodies[1..]);
      assert bodies == bodies[..1] + bodies[1..];
      assert Joined(bodies) == bodies[0] + "\n" + Joined(bodies[1..]);
      JoinedIsLines(bodies[1..]);
      assert Joined(bodies)[|bodies[0]| + 1..] == Joined(bodies[1..]);
    }
  }

  /** `plain` undoes the escaping that the bodies went through on the way in. */
  function Step(w: World, a: Action, plain: string -> string): World
    requires Enabled(w, a)
  {
    match a
    case Send(env) =>
      if |w.buf| < BUFFER then w.(buf := w.buf + [env], sent := w.sent + [env]) else w
    case GiveUpWaiting => w.(pc := Greet(None))
    case Cancelled => w.(pc := Ended)
    case ReadFirst =>
      w.Read(match w.buf[0] case Left => Ended case Msg(b) => Greet(Some(b)) case _ => Greet(None))
    case Open(overLimit, opening, seed, greeting) =>
      if overLimit then w.(pc := Ended)
      else if !w.scenario then Greeted(w, [Message(true, seed), Message(false, greeting)], w.requests)
      else
        var asked := w.requests + [TrimHead([Message(true, seed)])];
        if opening == None then w.(pc := Ended, requests := asked)
        else Greeted(w, [Message(true, seed), Message(false, opening.value)], asked)
    case ReadNext =>
      w.Read(match w.buf[0] case Left => Ended case Msg(b) => Turn(b) case _ => Idle)
    case BeginTurn =>
      w.(pc := if w.count >= MAX_BOT_MESSAGES then Ended else Drain([w.pc.body]))
    case DrainOne =>
      if w.buf == [] then w.(pc := Ask(w.pc.bodies))
      else w.Read(match w.buf[0] case Left => Ended case Msg(b) => Drain(w.pc.bodies + [b]) case _ => w.pc)
    case Finish(overLimit, reply) =>
      if overLimit then w.(pc := Ended)
      else
        var userMsg := plain(Joined(w.pc.bodies));
        var v := w.(requests := w.requests + [TrimHead(w.history + [Message(true, userMsg)])],
            asked := w.asked + [w.pc.bodies]);
        if reply == None then v.(pc := Ended)
        else v.(pc := Idle, history := AfterTurn(w.history, userMsg, reply.value),
                count := w.count + 1, answered := w.answered + [w.pc.bodies], replies := w.replies + [reply.value])
  }

  ghost predicate Runs(scenario: bool, run: seq<Action>, plain: string -> string)
    decreases |run|, 0
  {
    run == [] || (Runs(scenario, run[..|run| - 1], plain)
        && Enabled(After(scenario, run[..|run| - 1], plain), run[|run| - 1]))
  }

  ghost function After(scenario: bool, run: seq<Action>, plain: string -> string): World
    requires Runs(scenario, run, plain)
    decreases |run|, 1
  {
    if run == [] then Opened(scenario) else Step(After(scenario, run[..|run| - 1], plain), run[|run| - 1], plain)
  }

  /** The bodies taken from the channel and not yet in a replied turn. */
  function InHand(pc: Pc): seq<Body> {
    match pc
    case Greet(first) => if first.Some? then [first.value] else []
    case Turn(b) => [b]
    case Drain(bs) => bs
    case Ask(bs) => bs
    case _ => []
  }

  ghost predicate NothingLost(w: World) {
    && w.sent == w.read + w.buf
    && |w.buf| <= BUFFER
    && (w.pc != Ended ==> Flat(w.answered) + InHand(w.pc) == Bodies(w.read))
    && Flat(w.answered) <= Bodies(w.read)
  }

  lemma BodiesOfOneMore(es: seq<Env>, e: Env)
    ensures Bodies(es + [e]) == Bodies(es) + Bodies([e])
  {
    BodiesSnoc(es, e);
    BodiesSnoc([], e);
    assert [] + [e] == [e];
  }

  lemma Regroup(a: seq<Body>, b: seq<Body>, c: seq<Body>, whole: seq<Body>)
    requires a + b == whole
    ensures a + (b + c) == whole + c
  {
  }

  lemma ReadMovesOne(sent: seq<Env>, read: seq<Env>, buf: seq<Env>)
    requires sent == read + buf && buf != []
    ensures sent == (read + [buf[0]]) + buf[1..]
  {
  }

  lemma ReadKeepsAll(w: World, pc': Pc)
    requires NothingLost(w) && w.buf != [] && w.pc != Ended
    requires pc' != Ended ==> InHand(pc') == InHand(w.pc) + Bodies([w.buf[0]])
    ensures NothingLost(w.Read(pc'))
  {
    var one := Bodies([w.buf[0]]);
    ReadMovesOne(w.sent, w.read, w.buf);
    BodiesOfOneMore(w.read, w.buf[0]);
    Regroup(Flat(w.answered), InHand(w.pc), one, Bodies(w.read));
    assert Flat(w.answered) <= Bodies(w.read) + one;
  }

  lemma FinishLosesNothing(w: World, a: Action, plain: string -> string)
    requires NothingLost(w) && Enabled(w, a) && a.Finish?
    ensures NothingLost(Step(w, a, plain))
  {
    FlatSnoc(w.answered, w.pc.bodies);
    assert Flat(w.answered) + w.pc.bodies + [] == Flat(w.answered) + w.pc.bodies;
  }

  lemma StepLosesNothing(w: World, a: Action, plain: string -> string)
    requires NothingLost(w) && Enabled(w, a)
    ensures NothingLost(Step(w, a, plain))
  {
    match a
    case Send(env) => assert w.sent + [env] == w.read + (w.buf + [env]);
    case ReadFirst => ReadKeepsAll(w, Step(w, a, plain).pc);
    case ReadNext => ReadKeepsAll(w, Step(w, a, plain).pc);
    case DrainOne =>
      if w.buf != [] {
        ReadKeepsAll(w, Step(w, a, plain).pc);
      }
    case Finish(_, _) => FinishLosesNothing(w, a, plain);
    case _ =>
  }

  lemma {:induction false} RunLosesNothing(scenario: bool, run: seq<Action>, plain: string -> string)
    requires Runs(scenario, run, plain)
    ensures NothingLost(After(scenario, run, plain))
  {
    if run != [] {
      RunLosesNothing(scenario, run[..|run| - 1], plain);
      StepLosesNothing(After(scenario, run[..|run| - 1], plain), run[|run| - 1], plain);
    }
  }

  ghost predicate BoundedTalk(w: World) {
    && (w.pc == Idle || w.pc.Turn? || w.pc.Drain? || w.pc.Ask? ==> PairedHistory(w.history) && 1 <= w.count)
    && (w.pc == WaitJoin || w.pc.Greet? ==> w.requests == [])
    && (w.pc == Idle || w.pc.Turn? ==>
          |w.requests| <= w.count - (if w.scenario then 0 else 1) && w.count <= MAX_BOT_MESSAGES)
    && (w.pc.Drain? || w.pc.Ask? ==>
          |w.requests| <= w.count - (if w.scenario then 0 else 1) && w.count < MAX_BOT_MESSAGES)
    && |w.requests| <= MAX_BOT_MESSAGES - (if w.scenario then 0 else 1)
    && (forall i :: 0 <= i < |w.requests| ==> GoodRequest(w.requests[i]))
  }

  lemma StepKeepsBounds(w: World, a: Action, plain: string -> string)
    requires BoundedTalk(w) && Enabled(w, a)
    ensures BoundedTalk(Step(w, a, plain))
  {
    match a
    case Finish(_, reply) =>
      var userMsg := plain(Joined(w.pc.bodies));
      RequestIsGood(w.history, userMsg);
      if reply.Some? {
        TurnKeepsPairs(w.history, userMsg, reply.value);
      }
    case _ =>
  }

  lemma {:induction false} RunKeepsBounds(scenario: bool, run: seq<Action>, plain: string -> string)
    requires Runs(scenario, run, plain)
    ensures BoundedTalk(After(scenario, run, plain))
  {
    if run != [] {
      RunKeepsBounds(scenario, run[..|run| - 1], plain);
      StepKeepsBounds(After(scenario, run[..|run| - 1], plain), run[|run| - 1], plain);
    }
  }

  // ---------------------------------------------------------------- results about every conversation

  /**
   Nothing is lost or repeated: until the conversation ends, the bodies of the replied turns followed by
   those in hand are exactly the messages taken from the channel, and with those still buffered exactly
   the messages accepted from the user, all in the order sent.
   */
  lemma UserMessagesKept(scenario: bool, run: seq<Action>, plain: string -> string)
    requires Runs(scenario, run, plain) && After(scenario, run, plain).pc != Ended
    ensures var w := After(scenario, run, plain);
            Flat(w.answered) + InHand(w.pc) + Bodies(w.buf) == Bodies(w.sent)
  {
    RunLosesNothing(scenario, run, plain);
    var w := After(scenario, run, plain);
    BodiesConcat(w.read, w.buf);
  }

  lemma {:induction false} BodiesConcat(a: seq<Env>, b: seq<Env>)
    ensures Bodies(a + b) == Bodies(a) + Bodies(b)
  {
    if a == [] {
      assert a + b == b;
    } else {
      assert (a + b)[1..] == a[1..] + b;
      BodiesConcat(a[1..], b);
    }
  }

  /**
   Every request of a conversation alternates user and assistant, starts and ends with the user and holds
   at most 25 messages; there are at most 50 of them, 49 without a scenario.
   */
  lemma RequestsBounded(scenario: bool, run: seq<Action>, plain: string -> string)
    requires Runs(scenario, run, plain)
    ensures var w := After(scenario, run, plain);
            && |w.requests| <= (if scenario then 50 else 49)
            && forall i :: 0 <= i < |w.requests| ==> GoodRequest(w.requests[i]) && |w.requests[i]| <= 25
  {
    RunKeepsBounds(scenario, run, plain);
    ScenarioStays(scenario, run, plain);
  }

  /** Each turn's request ends with its bodies; before them there is at most the opening of a scenario. */
  ghost predicate TurnsAsked(w: World, plain: string -> string) {
    var opening := |w.requests| - |w.asked|;
    && (opening == 0 || (opening == 1 && w.scenario))
    && (w.pc == WaitJoin || w.pc.Greet? ==> w.asked == [] && w.requests == [])
    && (w.answered == w.asked || (w.pc == Ended && w.asked != [] && w.answered == w.asked[..|w.asked| - 1]))
    && (forall i :: 0 <= i < |w.asked| ==> Asks(w.requests[opening + i], w.asked[i], plain))
  }

  /** The request ends with a message of the user that has all the bodies, one per line. */
  ghost predicate Asks(ms: seq<Message>, bodies: seq<Body>, plain: string -> string) {
    exists text :: Lines(text, bodies) && EndsWith(ms, plain(text))
  }

  ghost predicate EndsWith(ms: seq<Message>, text: string) { ms != [] && ms[|ms| - 1] == Message(true, text) }

  lemma {:induction false} TrimKeepsLast(ms: seq<Message>, text: string)
    requires EndsWith(ms, text)
    ensures EndsWith(TrimHead(ms), text)
  {
    if !ms[0].user {
      TrimKeepsLast(ms[1..], text);
    }
  }

  lemma FinishAsks(w: World, a: Action, plain: string -> string)
    requires TurnsAsked(w, plain) && Enabled(w, a) && a.Finish? && !a.overLimit
    ensures TurnsAsked(Step(w, a, plain), plain)
  {
    var text := plain(Joined(w.pc.bodies));
    var request := TrimHead(w.history + [Message(true, text)]);
    TrimKeepsLast(w.history + [Message(true, text)], text);
    JoinedIsLines(w.pc.bodies);
    assert Asks(request, w.pc.bodies, plain);
    var w' := Step(w, a, plain);
    assert w'.requests == w.requests + [request] && w'.asked == w.asked + [w.pc.bodies];
    assert w'.answered == if a.reply == None then w.answered else w.answered + [w.pc.bodies];
    assert w'.asked[..|w'.asked| - 1] == w.asked;
  }

  lemma StepAsks(w: World, a: Action, plain: string -> string)
    requires TurnsAsked(w, plain) && Enabled(w, a)
    ensures TurnsAsked(Step(w, a, plain), plain)
  {
    if a.Finish? && !a.overLimit {
      FinishAsks(w, a, plain);
    } else {
      var w' := Step(w, a, plain);
      assert w'.asked == w.asked && w'.answered == w.answered;
      assert w'.requests == w.requests || (a.Open? && w.scenario && w.requests == [] && |w'.requests| == 1);
    }
  }

  /**
   In every conversation the last message of each turn's request is all that the user said in that turn, line by
   line, and only the last turn can go unanswered.
   */
  lemma {:induction false} TurnsAskWhatWasSaid(scenario: bool, run: seq<Action>, plain: string -> string)
    requires Runs(scenario, run, plain)
    ensures TurnsAsked(After(scenario, run, plain), plain)
  {
    if run != [] {
      TurnsAskWhatWasSaid(scenario, run[..|run| - 1], plain);
      StepAsks(After(scenario, run[..|run| - 1], plain), run[|run| - 1], plain);
    }
  }

  lemma {:induction false} ScenarioStays(scenario: bool, run: seq<Action>, plain: string -> string)
    requires Runs(scenario, run, plain)
    ensures After(scenario, run, plain).scenario == scenario
  {
    if run != [] {
      ScenarioStays(scenario, run[..|run| - 1], plain);
    }
  }

  // ---------------------------------------------------------------- the daily quota of a turn

  /** The counter of one identity while other connections of the same identity also move it. */
  class QuotaCounter {
    var used: int

    constructor ()
      ensures used == 0
    {
      used := 0;
    }

    /** Increment unless Redis fails; `None` then, else whether the limit is exceeded. */
    method CheckAndIncrement(limit: int, redisUp: bool) returns (exceeded: Option<bool>)
      modifies this
      ensures used == old(used) + if redisUp then 1 else 0
      ensures exceeded == if redisUp then Some(limit > 0 && used > limit) else None
    {
      if !redisUp {
        return None;
      }
      used := used + 1;
      exceeded := Some(limit > 0 && used > limit);
    }

    method Refund(n: nat)
      modifies this
      ensures used == old(used) - n
    {
      used := used - n;
    }

    /**
     The quota side of one turn.  Other connections move the counter by `others[i]` before increment `i` and
     by `during` while Claude answers.  A turn whose Claude call fails leaves the counter where they alone
     would have put it; only an increment beyond the limit, which is not given back, ends it earlier.
     */
    method TurnQuota(limit: int, redisUp: seq<bool>, others: seq<int>, during: int, claudeFails: bool)
        returns (end: TurnEnd)
      requires |redisUp| == |others|
      modifies this
      ensures end == OverLimit <==> exists n :: 0 <= n < |redisUp| && Exceeds(old(used), limit, redisUp, others, n)
      ensures end == OverLimit ==> exists n :: 0 <= n < |redisUp| && Exceeds(old(used), limit, redisUp, others, n)
                                              && used == Counted(old(used), redisUp, others, n + 1)
      ensures end == Fallback ==> claudeFails && used == old(used) + Sum(others) + during
      ensures end == Replied ==> !claudeFails && used == old(used) + Sum(others) + during + Ups(redisUp)
    {
      var debited: nat := 0;
      for i := 0 to |redisUp|
        invariant debited == Ups(redisUp[..i]) && used == Counted(old(used), redisUp, others, i)
        invariant forall n :: 0 <= n < i ==> !Exceeds(old(used), limit, redisUp, others, n)
      {
        used := used + others[i];
        SumSnoc(others, i);
        assert redisUp[..i + 1][..i] == redisUp[..i];
        var exceeded := CheckAndIncrement(limit, redisUp[i]);
        if exceeded == Some(true) {
          assert Exceeds(old(used), limit, redisUp, others, i);
          return OverLimit;
        }
        if exceeded.Some? {
          debited := debited + 1;
        }
      }
      assert others[..|redisUp|] == others && redisUp[..|redisUp|] == redisUp;
      used := used + during;
      if claudeFails {
        if debited > 0 {
          Refund(debited);
        }
        return Fallback;
      }
      end := Replied;
    }
  }

  datatype TurnEnd = OverLimit | Fallback | Replied

  /** How many increments were counted. */
  function Ups(up: seq<bool>): nat {
    if up == [] then 0 else Ups(up[..|up| - 1]) + if up[|up| - 1] then 1 else 0
  }

  /** The counter after the first `n` increments of a turn. */
  ghost function Counted(start: int, up: seq<bool>, others: seq<int>, n: nat): int
    requires n <= |up| == |others|
  {
    start + Sum(others[..n]) + Ups(up[..n])
  }

  ghost predicate Exceeds(start: int, limit: int, up: seq<bool>, others: seq<int>, n: nat)
    requires n < |up| == |others|
  {
    up[n] && limit > 0 && Counted(start, up, others, n + 1) > limit
  }

  function Sum(s: seq<int>): int {
    if s == [] then 0 else Sum(s[..|s| - 1]) + s[|s| - 1]
  }

  lemma SumSnoc(s: seq<int>, i: nat)
    requires i < |s|
    ensures Sum(s[..i + 1]) == Sum(s[..i]) + s[i]
  {
    assert s[..i + 1][..i] == s[..i];
  }
}
