/**
 The matching queues: sorted sets in Redis, read and written by two atomic scripts.

 `Store` is the value of the Redis keys and the functions on it say what each script does in one
 step.  `QueueStore` is the mutable store with the scripts' own order of commands; its methods are
 proved against those functions.  The results about runs are in module MatcherRuns.
 */
module Matcher {
  import opened Common

  /** A session ID is a UUID: its text order is its numeric order.  0 stands for the empty string. */
  type SessionId = nat
  const NO_SESSION: SessionId := 0

  type Lang = string
  const ALL_LANGS: seq<Lang> := ["fr", "en", "es", "de", "pt", "it", "zh", "ja", "ko", "ar"]

  // ---------------------------------------------------------------- language pairs

  function PairKey(speaks: Lang, wants: Lang): string {
    speaks + "|" + wants
  }

  function Row(langs: seq<Lang>, s: Lang, n: nat): set<string>
    requires n <= |langs|
  {
    set j | 0 <= j < n && s != langs[j] :: PairKey(s, langs[j])
  }

  function PairsOf(langs: seq<Lang>, n: nat): set<string>
    requires n <= |langs|
  {
    set i, j | 0 <= i < n && 0 <= j < |langs| && langs[i] != langs[j] :: PairKey(langs[i], langs[j])
  }

  function AllowedPairs(): set<string> {
    PairsOf(ALL_LANGS, |ALL_LANGS|)
  }

  /** The two nested loops over the languages build exactly the keys of the pairs of distinct ones. */
  method BuildAllowedPairs(langs: seq<Lang>) returns (pairs: set<string>)
    ensures pairs == PairsOf(langs, |langs|)
  {
    pairs := {};
    for i := 0 to |langs|
      invariant pairs == PairsOf(langs, i)
    {
      for j := 0 to |langs|
        invariant pairs == PairsOf(langs, i) + Row(langs, langs[i], j)
      {
        if langs[i] != langs[j] {
          pairs := pairs + {PairKey(langs[i], langs[j])};
        }
      }
      assert PairsOf(langs, i + 1) == PairsOf(langs, i) + Row(langs, langs[i], |langs|);
    }
  }

  datatype Error = InvalidLang | SameLang | PairNotOpen | EmptySession

  function ValidatePair(speaks: Lang, wants: Lang): Option<Error> {
    if speaks !in ALL_LANGS || wants !in ALL_LANGS then Some(InvalidLang)
    else if speaks == wants then Some(SameLang)
    else if PairKey(speaks, wants) !in AllowedPairs() then Some(PairNotOpen)
    else None
  }

  function QueueOwn(speaks: Lang, wants: Lang): string {
    "queue:speaks=" + speaks + ",wants=" + wants
  }

  function QueueTarget(speaks: Lang, wants: Lang): string {
    "queue:speaks=" + wants + ",wants=" + speaks
  }

  ghost predicate Open(speaks: Lang, wants: Lang) {
    ValidatePair(speaks, wants) == None
  }

  /** A pair passes validation iff both codes are supported and differ: `PairNotOpen` never happens. */
  lemma OpenIffDistinctSupported(speaks: Lang, wants: Lang)
    ensures ValidatePair(speaks, wants) != Some(PairNotOpen)
    ensures Open(speaks, wants) <==> speaks in ALL_LANGS && wants in ALL_LANGS && speaks != wants
    ensures Open(speaks, wants) ==> Open(wants, speaks) && |speaks| == |wants| == 2
  {
    if speaks in ALL_LANGS && wants in ALL_LANGS && speaks != wants {
      var i: nat :| i < |ALL_LANGS| && ALL_LANGS[i] == speaks;
      var j: nat :| j < |ALL_LANGS| && ALL_LANGS[j] == wants;
      assert PairKey(ALL_LANGS[i], ALL_LANGS[j]) in AllowedPairs();
      assert PairKey(ALL_LANGS[j], ALL_LANGS[i]) in AllowedPairs();
    }
  }

  /** No two open pairs share a queue, and the queue searched is the queue of the mirrored pair. */
  lemma QueueKeysAreDistinct(s: Lang, w: Lang, s': Lang, w': Lang)
    requires Open(s, w) && Open(s', w')
    ensures QueueTarget(s, w) == QueueOwn(w, s)
    ensures QueueOwn(s, w) == QueueOwn(s', w') ==> s == s' && w == w'
  {
    OpenIffDistinctSupported(s, w);
    OpenIffDistinctSupported(s', w');
    var k, k' := QueueOwn(s, w), QueueOwn(s', w');
    if k == k' {
      assert k[13..15] == s && k'[13..15] == s';
      assert k[22..24] == w && k'[22..24] == w';
    }
  }

  // ---------------------------------------------------------------- sorted sets

  /** A Redis sorted set: members with their score. */
  type ZSet = map<SessionId, int>

  predicate Before(z: ZSet, a: SessionId, b: SessionId)
    requires a in z && b in z
  {
    z[a] < z[b] || (z[a] == z[b] && a < b)
  }

  ghost predicate IsHead(z: ZSet, h: SessionId) {
    h in z && forall m :: m in z ==> m == h || Before(z, h, m)
  }

  lemma HeadExists(z: ZSet)
    requires z != map[]
    ensures exists h :: IsHead(z, h)
    decreases |z|
  {
    var m :| m in z;
    var rest := z - {m};
    if rest == map[] {
      assert forall x :: x in z ==> x == m || x in rest;
      assert IsHead(z, m);
    } else {
      HeadExists(rest);
      var h :| IsHead(rest, h);
      assert forall x :: x in z ==> x == m || x in rest;
      assert IsHead(z, if Before(z, m, h) then m else h);
    }
  }

  /** The member ZPOPMIN takes: lowest score, ties by member. */
  function Head(z: ZSet): (h: SessionId)
    requires z != map[]
    ensures IsHead(z, h)
  {
    HeadExists(z);
    var h :| h in z && forall m :: m in z ==> m == h || Before(z, h, m);
    h
  }

  /** Members in rank order, as ZRANGE lists them. */
  function Ranked(z: ZSet): (r: seq<SessionId>)
    ensures |r| == |z|
    ensures forall m :: m in r <==> m in z
    decreases |z|
  {
    if z == map[] then [] else
      var h := Head(z);
      assert z.Keys == (z - {h}).Keys + {h};
      [h] + Ranked(z - {h})
  }

  ghost predicate InOrder(z: ZSet, cs: seq<SessionId>) {
    && (forall i :: 0 <= i < |cs| ==> cs[i] in z)
    && (forall i, j :: 0 <= i < j < |cs| ==> Before(z, cs[i], cs[j]))
  }

  lemma OrderCons(z: ZSet, h: SessionId, rest: ZSet, cs: seq<SessionId>)
    requires IsHead(z, h) && rest == z - {h} && InOrder(rest, cs)
    ensures InOrder(z, [h] + cs)
  {
    var all := [h] + cs;
    assert forall i :: 0 <= i < |cs| ==> cs[i] in rest && all[i + 1] == cs[i] && Before(z, h, cs[i]);
    forall i, j | 0 <= i < j < |all|
      ensures Before(z, all[i], all[j])
    {
      assert all[j] == cs[j - 1];
      if i > 0 {
        assert all[i] == cs[i - 1] && Before(rest, cs[i - 1], cs[j - 1]);
      }
    }
  }

  /** The list is in rank order and starts with the head. */
  lemma {:induction false} RankedInOrder(z: ZSet)
    ensures InOrder(z, Ranked(z)) && (z != map[] ==> Ranked(z) != [] && Ranked(z)[0] == Head(z))
    decreases |z|
  {
    if z != map[] {
      var h := Head(z);
      var rest: ZSet := z - {h};
      assert z.Keys == rest.Keys + {h};
      RankedInOrder(rest);
      OrderCons(z, h, rest, Ranked(rest));
    }
  }

  // ---------------------------------------------------------------- the level preference

  const LEVEL_MAX_DELTA: real := 1.0
  const LEVEL_SCAN: nat := 10

  function Abs(x: real): real { if x < 0.0 then -x else x }

  function Delta(levels: map<SessionId, real>, mine: real, c: SessionId): real {
    if c in levels then Abs(levels[c] - mine) else LEVEL_MAX_DELTA / 2.0
  }

  /** A known level is compared by its distance, an unknown one counts as half the tolerance. */
  lemma DeltaIsDistance(levels: map<SessionId, real>, mine: real, c: SessionId)
    ensures c in levels ==>
              && Delta(levels, mine, c) >= 0.0
              && (levels[c] == mine + Delta(levels, mine, c) || levels[c] == mine - Delta(levels, mine, c))
    ensures c !in levels ==> Delta(levels, mine, c) + Delta(levels, mine, c) == LEVEL_MAX_DELTA == 1.0
  {
  }

  /** The scan of the candidates from index `i` on, with the best index and distance so far. */
  function Scan(cs: seq<SessionId>, levels: map<SessionId, real>, mine: real, i: nat, chosen: nat, best: real): nat
    requires i <= |cs|
    decreases |cs| - i
  {
    if i == |cs| then chosen
    else
      var d := Delta(levels, mine, cs[i]);
      if d <= LEVEL_MAX_DELTA && d < best
      then Scan(cs, levels, mine, i + 1, i, d)
      else Scan(cs, levels, mine, i + 1, chosen, best)
  }

  /** Candidate k is the first one closest in level, when one is near enough; otherwise the first. */
  ghost predicate FirstClosest(cs: seq<SessionId>, levels: map<SessionId, real>, mine: real, k: nat) {
    && k < |cs|
    && (if exists i: nat :: i < |cs| && Delta(levels, mine, cs[i]) <= LEVEL_MAX_DELTA then
          && Delta(levels, mine, cs[k]) <= LEVEL_MAX_DELTA
          && (forall i: nat :: i < |cs| ==> Delta(levels, mine, cs[k]) <= Delta(levels, mine, cs[i]))
          && (forall i: nat :: i < k ==> Delta(levels, mine, cs[k]) < Delta(levels, mine, cs[i]))
        else k == 0)
  }

  ghost predicate ScanInvariant(cs: seq<SessionId>, levels: map<SessionId, real>, mine: real, i: nat, chosen: nat,
      best: real) {
    && 0 < |cs|
    && i <= |cs|
    && chosen < |cs|
    && (best == LEVEL_MAX_DELTA + 1.0 ==>
          chosen == 0 && forall j: nat :: j < i ==> Delta(levels, mine, cs[j]) > LEVEL_MAX_DELTA)
    && (best != LEVEL_MAX_DELTA + 1.0 ==>
          && chosen < i
          && best == Delta(levels, mine, cs[chosen]) <= LEVEL_MAX_DELTA
          && (forall j: nat :: j < i ==> best <= Delta(levels, mine, cs[j]))
          && (forall j: nat :: j < chosen ==> best < Delta(levels, mine, cs[j])))
  }

  lemma {:induction false} ScanFindsFirstClosest(cs: seq<SessionId>, levels: map<SessionId, real>, mine: real,
                                                 i: nat, chosen: nat, best: real)
    requires ScanInvariant(cs, levels, mine, i, chosen, best)
    ensures FirstClosest(cs, levels, mine, Scan(cs, levels, mine, i, chosen, best))
    decreases |cs| - i
  {
    if i < |cs| {
      var d := Delta(levels, mine, cs[i]);
      if d <= LEVEL_MAX_DELTA && d < best {
        ScanFindsFirstClosest(cs, levels, mine, i + 1, i, d);
      } else {
        ScanFindsFirstClosest(cs, levels, mine, i + 1, chosen, best);
      }
    }
  }

  /** The first ten candidates in rank order. */
  function Scanned(z: ZSet): seq<SessionId> {
    var r := Ranked(z);
    if |r| <= LEVEL_SCAN then r else r[..LEVEL_SCAN]
  }

  /** `cs` are the ten members of lowest rank, or all if there are fewer, from the head on. */
  ghost predicate LowestTen(z: ZSet, cs: seq<SessionId>) {
    && |cs| == (if |z| <= LEVEL_SCAN then |z| else LEVEL_SCAN)
    && InOrder(z, cs)
    && (forall m, i :: m in z && m !in cs && 0 <= i < |cs| ==> Before(z, cs[i], m))
    && (z != map[] ==> cs != [] && cs[0] == Head(z))
  }

  lemma PrefixIsLowest(z: ZSet, r: seq<SessionId>, n: nat)
    requires InOrder(z, r) && n <= |r| && forall m :: m in z ==> m in r
    ensures InOrder(z, r[..n])
    ensures forall m, i :: m in z && m !in r[..n] && 0 <= i < n ==> Before(z, r[..n][i], m)
  {
    assert forall k :: 0 <= k < n ==> r[k] == r[..n][k] && r[..n][k] in r[..n];
    forall m, i | m in z && m !in r[..n] && 0 <= i < n
      ensures Before(z, r[..n][i], m)
    {
      var j :| 0 <= j < |r| && r[j] == m;
      assert j >= n;
    }
  }

  lemma ScannedAreLowest(z: ZSet)
    ensures LowestTen(z, Scanned(z))
  {
    var r := Ranked(z);
    RankedInOrder(z);
    PrefixIsLowest(z, r, |Scanned(z)|);
    assert Scanned(z) == r[..|Scanned(z)|];
  }

  /** `p` is, of the ten candidates of lowest rank, the first one closest in level, or the head when none is close. */
  ghost predicate ClosestScanned(z: ZSet, levels: map<SessionId, real>, mine: real, p: SessionId) {
    exists cs, k: nat :: LowestTen(z, cs) && k < |cs| && cs[k] == p && FirstClosest(cs, levels, mine, k)
  }

  function PickByLevel(z: ZSet, levels: map<SessionId, real>, mine: real): (p: SessionId)
    requires z != map[]
    ensures p in z && ClosestScanned(z, levels, mine, p)
  {
    ScannedAreLowest(z);
    var cs := Scanned(z);
    var k := Scan(cs, levels, mine, 0, 0, LEVEL_MAX_DELTA + 1.0);
    ScanFindsFirstClosest(cs, levels, mine, 0, 0, LEVEL_MAX_DELTA + 1.0);
    cs[k]
  }

  method ScanCandidates(cs: seq<SessionId>, levels: map<SessionId, real>, mine: real) returns (chosen: nat)
    requires cs != []
    ensures FirstClosest(cs, levels, mine, chosen)
    ensures chosen == Scan(cs, levels, mine, 0, 0, LEVEL_MAX_DELTA + 1.0)
  {
    chosen := 0;
    var best := LEVEL_MAX_DELTA + 1.0;
    for i := 0 to |cs|
      invariant ScanInvariant(cs, levels, mine, i, chosen, best)
      invariant Scan(cs, levels, mine, i, chosen, best) == Scan(cs, levels, mine, 0, 0, LEVEL_MAX_DELTA + 1.0)
    {
      var d := Delta(levels, mine, cs[i]);
      if d <= LEVEL_MAX_DELTA && d < best {
        chosen, best := i, d;
      }
    }
    ScanFindsFirstClosest(cs, levels, mine, 0, 0, LEVEL_MAX_DELTA + 1.0);
  }

  method ChooseByLevel(z: ZSet, levels: map<SessionId, real>, mine: real) returns (p: Option<SessionId>)
    ensures p == if z == map[] then None else Some(PickByLevel(z, levels, mine))
  {
    var cs := Scanned(z);
    if cs == [] {
      assert |z| == 0;
      return None;
    }
    var k := ScanCandidates(cs, levels, mine);
    assert z != map[] by { assert cs[0] in Ranked(z); }
    p := Some(cs[k]);
  }

  // ---------------------------------------------------------------- the store and its operations

  /** The queues by key and the hash of known levels; an absent key is an empty sorted set. */
  datatype Store = Store(queues: map<string, ZSet>, levels: map<SessionId, real>) {
    function Queue(k: string): ZSet { if k in queues then queues[k] else map[] }
    function Put(k: string, z: ZSet): Store { this.(queues := queues[k := z]) }
    function ForgetLevel(m: SessionId): Store { this.(levels := levels - {m}) }
  }

  datatype Request = Request(speaks: Lang, wants: Lang, me: SessionId, avoid: SessionId, score: int, level: real) {
    function Own(): string { QueueOwn(speaks, wants) }
    function Target(): string { QueueTarget(speaks, wants) }
  }

  datatype Outcome = Waiting | Matched(peer: SessionId) | Rejected(error: Error)

  function Candidates(st: Store, rq: Request): ZSet {
    var z := st.Queue(rq.Target());
    if rq.avoid == NO_SESSION then z else z - {rq.avoid}
  }

  function CheckRequest(speaks: Lang, wants: Lang, me: SessionId): Option<Error> {
    if ValidatePair(speaks, wants) != None then ValidatePair(speaks, wants)
    else if me == NO_SESSION then Some(EmptySession)
    else None
  }

  /** Take peer `p` out of the queue searched. */
  function Take(st: Store, rq: Request, p: SessionId): Store {
    st.Put(rq.Target(), st.Queue(rq.Target()) - {p}).ForgetLevel(p)
  }

  /** Join one's own queue. */
  function Join(st: Store, rq: Request, levelled: bool): Store {
    var st' := st.Put(rq.Own(), st.Queue(rq.Own())[rq.me := rq.score]);
    if levelled then st'.(levels := st'.levels[rq.me := rq.level]) else st'
  }

  function MatchStep(st: Store, levelAware: bool, rq: Request): (Store, Outcome) {
    var err := CheckRequest(rq.speaks, rq.wants, rq.me);
    if err != None then (st, Rejected(err.value))
    else
      var cands := Candidates(st, rq);
      var levelled := levelAware && rq.level > 0.0;
      if cands == map[] then (Join(st, rq, levelled), Waiting)
      else
        var p := if levelled then PickByLevel(cands, st.levels, rq.level) else Head(cands);
        (Take(st, rq, p), Matched(p))
  }

  /** What a request that finds nobody leaves: it joined its queue, and nobody it may meet was there. */
  lemma WaitingJoins(st: Store, levelAware: bool, rq: Request)
    requires MatchStep(st, levelAware, rq).1 == Waiting
    ensures Open(rq.speaks, rq.wants) && rq.me != NO_SESSION
    ensures forall k ::
              MatchStep(st, levelAware, rq).0.Queue(k) ==
              if k == rq.Own() then st.Queue(k)[rq.me := rq.score] else st.Queue(k)
    ensures forall b :: b in st.Queue(rq.Target()) ==> b == rq.avoid
  {
    assert Candidates(st, rq) == map[];
    forall b | b in st.Queue(rq.Target())
      ensures b == rq.avoid
    {
      assert b != rq.avoid ==> b in Candidates(st, rq);
    }
  }

  /** What a match leaves: the peer, whom the request did not avoid, is out of the queue searched. */
  lemma MatchTakes(st: Store, levelAware: bool, rq: Request)
    requires MatchStep(st, levelAware, rq).1.Matched?
    ensures Open(rq.speaks, rq.wants) && rq.me != NO_SESSION
    ensures var p := MatchStep(st, levelAware, rq).1.peer;
            && p in st.Queue(rq.Target())
            && (rq.avoid != NO_SESSION ==> p != rq.avoid)
            && forall k :: MatchStep(st, levelAware, rq).0.Queue(k) ==
                if k == rq.Target() then st.Queue(k) - {p} else st.Queue(k)
  {
  }

  /** The candidates are the members of the mirrored pair's queue but the avoided peer, with their scores. */
  lemma CandidatesAreTheOthers(st: Store, rq: Request, m: SessionId)
    ensures var z, cands := st.Queue(QueueOwn(rq.wants, rq.speaks)), Candidates(st, rq);
            && (m in cands <==> m in z && (rq.avoid == NO_SESSION || m != rq.avoid))
            && (m in cands ==> cands[m] == z[m])
  {
  }

  /** Who is returned: of the candidates the closest in level if the request says its own, else the lowest ranked. */
  lemma MatchChooses(st: Store, levelAware: bool, rq: Request, p: SessionId)
    requires MatchStep(st, levelAware, rq).1 == Matched(p)
    ensures levelAware && rq.level > 0.0 ==> ClosestScanned(Candidates(st, rq), st.levels, rq.level, p)
    ensures !levelAware || rq.level <= 0.0 ==> IsHead(Candidates(st, rq), p)
  {
  }

  /** Somebody is returned exactly when somebody may be. */
  lemma MatchesIffPossible(st: Store, levelAware: bool, rq: Request)
    requires Open(rq.speaks, rq.wants) && rq.me != NO_SESSION
    ensures var out := MatchStep(st, levelAware, rq).1;
            && !out.Rejected?
            && (out.Matched? <==>
                  exists m :: m in st.Queue(QueueOwn(rq.wants, rq.speaks)) && (rq.avoid == NO_SESSION || m != rq.avoid))
  {
    var cands, z := Candidates(st, rq), st.Queue(QueueOwn(rq.wants, rq.speaks));
    if m :| m in z && (rq.avoid == NO_SESSION || m != rq.avoid) {
      assert m in cands;
    }
    if cands != map[] {
      var m :| m in cands;
      assert m in z && (rq.avoid == NO_SESSION || m != rq.avoid);
    }
  }

  /** The levels known afterwards: a waiting session's is recorded if it says one, a matched peer's is forgotten. */
  lemma LevelsFollow(st: Store, levelAware: bool, rq: Request)
    ensures var (st', out) := MatchStep(st, levelAware, rq);
            && (out == Waiting && levelAware && rq.level > 0.0 ==>
                  st'.levels == st.levels[rq.me := rq.level])
            && (out == Waiting && (!levelAware || rq.level <= 0.0) ==> st'.levels == st.levels)
            && (out.Matched? ==> st'.levels == st.levels - {out.peer})
            && (out.Rejected? ==> st' == st)
  {
  }

  /** Each rejection names the first check that fails: languages, their being different, the session. */
  lemma RejectedFor(st: Store, levelAware: bool, rq: Request)
    ensures var out := MatchStep(st, levelAware, rq).1;
            var known := rq.speaks in ALL_LANGS && rq.wants in ALL_LANGS;
            && (out == Rejected(InvalidLang) <==> !known)
            && (out == Rejected(SameLang) <==> known && rq.speaks == rq.wants)
            && (out == Rejected(EmptySession) <==> known && rq.speaks != rq.wants && rq.me == NO_SESSION)
            && out != Rejected(PairNotOpen)
  {
    OpenIffDistinctSupported(rq.speaks, rq.wants);
  }

  function Remove(st: Store, speaks: Lang, wants: Lang, me: SessionId): Store {
    var k := QueueOwn(speaks, wants);
    if ValidatePair(speaks, wants) != None then st
    else st.Put(k, st.Queue(k) - {me}).ForgetLevel(me)
  }

  /** Removing takes the session out of its own queue and forgets its level; nothing else changes. */
  lemma RemoveLeavesOthers(st: Store, speaks: Lang, wants: Lang, me: SessionId, k: string, m: SessionId)
    requires Open(speaks, wants)
    ensures var st' := Remove(st, speaks, wants, me);
            && (m in st'.Queue(k) <==> m in st.Queue(k) && !(k == QueueOwn(speaks, wants) && m == me))
            && (m in st'.Queue(k) ==> st'.Queue(k)[m] == st.Queue(k)[m])
            && (m in st'.levels <==> m in st.levels && m != me)
            && (m in st'.levels ==> st'.levels[m] == st.levels[m])
  {
  }

  /** For a pair that is not open it changes nothing. */
  lemma RemoveNeedsAnOpenPair(st: Store, speaks: Lang, wants: Lang, me: SessionId)
    requires !Open(speaks, wants)
    ensures Remove(st, speaks, wants, me) == st
  {
  }

  ghost predicate NoEmptyMember(st: Store) {
    forall k :: k in st.queues ==> NO_SESSION !in st.queues[k]
  }

  ghost function Saved(st: Store, rq: Request): Option<int> {
    var z := st.Queue(rq.Target());
    if rq.avoid != NO_SESSION && rq.avoid in z then Some(z[rq.avoid]) else None
  }

  /** Taking `p` from the candidates and putting the avoided peer back is taking `p` from the queue. */
  lemma TakeThenRestore(st: Store, rq: Request, p: SessionId, queues': map<string, ZSet>)
    requires p in Candidates(st, rq)
    requires var left := Candidates(st, rq) - {p};
             queues' == if Saved(st, rq).Some?
                           then st.queues[rq.Target() := left[rq.avoid := Saved(st, rq).value]]
                           else st.queues[rq.Target() := left]
    ensures Store(queues', st.levels - {p}) == Take(st, rq, p)
  {
    var z := st.Queue(rq.Target());
    var left := Candidates(st, rq) - {p};
    if Saved(st, rq).Some? {
      assert left[rq.avoid := z[rq.avoid]] == z - {p};
    } else {
      assert left == z - {p};
    }
  }

  /** Setting the avoided peer aside and putting it back changes nothing. */
  lemma NothingTaken(st: Store, rq: Request, queues': map<string, ZSet>)
    requires queues' == if Saved(st, rq).Some?
                        then st.queues[rq.Target() := Candidates(st, rq)[rq.avoid := Saved(st, rq).value]]
                        else st.queues
    ensures queues' == st.queues
  {
    var z := st.Queue(rq.Target());
    if Saved(st, rq).Some? {
      assert Candidates(st, rq)[rq.avoid := z[rq.avoid]] == z;
    }
  }

  lemma JoinHasNoEmptyMember(st: Store, rq: Request, levelled: bool)
    requires NoEmptyMember(st) && rq.me != NO_SESSION
    ensures NoEmptyMember(Join(st, rq, levelled))
  {
    assert NO_SESSION !in st.Queue(rq.Own());
  }

  lemma TakeHasNoEmptyMember(st: Store, rq: Request, p: SessionId)
    requires NoEmptyMember(st)
    ensures NoEmptyMember(Take(st, rq, p)) && NO_SESSION !in st.Queue(rq.Target())
  {
  }

  lemma MatchKeepsNoEmptyMember(st: Store, levelAware: bool, rq: Request)
    requires NoEmptyMember(st)
    ensures NoEmptyMember(MatchStep(st, levelAware, rq).0)
    ensures MatchStep(st, levelAware, rq).1 != Matched(NO_SESSION)
  {
    var (st', out) := MatchStep(st, levelAware, rq);
    match out
    case Rejected(_) =>
    case Waiting => WaitingJoins(st, levelAware, rq); JoinHasNoEmptyMember(st, rq, levelAware && rq.level > 0.0);
    case Matched(p) => MatchTakes(st, levelAware, rq); TakeHasNoEmptyMember(st, rq, p);
  }

  class QueueStore {
    var queues: map<string, ZSet>
    var levels: map<SessionId, real>

    constructor ()
      ensures View() == Store(map[], map[])
    {
      queues := map[];
      levels := map[];
    }

    function View(): Store
      reads this
    {
      Store(queues, levels)
    }

    /** ZREM of the avoided peer, remembering its score. */
    method SetAside(k: string, avoid: SessionId) returns (saved: Option<int>)
      modifies this`queues
      ensures saved ==
              if avoid != NO_SESSION && avoid in old(View()).Queue(k) then Some(old(View()).Queue(k)[avoid]) else None
      ensures queues == if saved.Some? then old(queues)[k := old(View()).Queue(k) - {avoid}] else old(queues)
    {
      var z := View().Queue(k);
      if avoid != NO_SESSION && avoid in z {
        saved := Some(z[avoid]);
        var rest: ZSet := z - {avoid};
        queues := queues[k := rest];
      } else {
        saved := None;
      }
    }

    /** ZADD of the avoided peer with its own score. */
    method Restore(k: string, avoid: SessionId, saved: Option<int>)
      modifies this`queues
      ensures queues ==
              if saved.Some? then old(queues)[k := old(View()).Queue(k)[avoid := saved.value]] else old(queues)
    {
      if saved.Some? {
        queues := queues[k := View().Queue(k)[avoid := saved.value]];
      }
    }

    /** The standard script: set the avoided peer aside, pop the head, put the avoided peer back. */
    method MatchScript(rq: Request) returns (peer: SessionId)
      modifies this
      ensures var cands := Candidates(old(View()), rq);
              if cands == map[] then peer == NO_SESSION && View() == Join(old(View()), rq, false)
              else peer == Head(cands) && View() == Take(old(View()), rq, peer)
    {
      ghost var z := View().Queue(rq.Target());
      var saved := SetAside(rq.Target(), rq.avoid);
      var left := View().Queue(rq.Target());
      assert left == Candidates(old(View()), rq);
      if left != map[] {
        peer := Head(left);
        var rest: ZSet := left - {peer};
        queues := queues[rq.Target() := rest];
        Restore(rq.Target(), rq.avoid, saved);
        levels := levels - {peer};
        TakeThenRestore(old(View()), rq, peer, queues);
      } else {
        Restore(rq.Target(), rq.avoid, saved);
        NothingTaken(old(View()), rq, queues);
        queues := queues[rq.Own() := View().Queue(rq.Own())[rq.me := rq.score]];
        peer := NO_SESSION;
      }
    }

    /** ZREM and HDEL of the chosen candidate, then ZADD of the avoided peer. */
    method TakeChosen(ghost before: Store, rq: Request, saved: Option<int>, peer: SessionId)
      requires peer in Candidates(before, rq) && saved == Saved(before, rq) && levels == before.levels
      requires queues == if saved.Some? then before.queues[rq.Target() := Candidates(before, rq)] else before.queues
      modifies this
      ensures View() == Take(before, rq, peer)
    {
      var left := View().Queue(rq.Target());
      assert left == Candidates(before, rq);
      var rest: ZSet := left - {peer};
      queues := queues[rq.Target() := rest];
      levels := levels - {peer};
      Restore(rq.Target(), rq.avoid, saved);
      TakeThenRestore(before, rq, peer, queues);
    }

    /** The variant that prefers a close level among the first candidates. */
    method MatchLevelScript(rq: Request) returns (peer: SessionId)
      modifies this
      ensures var cands := Candidates(old(View()), rq);
              if cands == map[] then peer == NO_SESSION && View() == Join(old(View()), rq, true)
              else peer == PickByLevel(cands, old(levels), rq.level) && View() == Take(old(View()), rq, peer)
    {
      var saved := SetAside(rq.Target(), rq.avoid);
      var left := View().Queue(rq.Target());
      assert left == Candidates(old(View()), rq);
      var chosen := ChooseByLevel(left, levels, rq.level);
      if chosen.Some? {
        peer := chosen.value;
        TakeChosen(old(View()), rq, saved, peer);
      } else {
        Restore(rq.Target(), rq.avoid, saved);
        NothingTaken(old(View()), rq, queues);
        queues := queues[rq.Own() := View().Queue(rq.Own())[rq.me := rq.score]];
        levels := levels[rq.me := rq.level];
        peer := NO_SESSION;
      }
    }

    /** No queue ever holds the empty ID: a request without a session ID is rejected. */
    ghost predicate Valid()
      reads this
    {
      NoEmptyMember(View())
    }

    method TryMatch(levelAware: bool, rq: Request) returns (out: Outcome)
      requires Valid()
      modifies this
      ensures Valid()
      ensures (View(), out) == MatchStep(old(View()), levelAware, rq)
    {
      var err := CheckRequest(rq.speaks, rq.wants, rq.me);
      if err != None {
        return Rejected(err.value);
      }
      MatchKeepsNoEmptyMember(View(), levelAware, rq);
      var peer: SessionId;
      if levelAware && rq.level > 0.0 {
        peer := MatchLevelScript(rq);
      } else {
        peer := MatchScript(rq);
      }
      out := if peer == NO_SESSION then Waiting else Matched(peer);
    }

    method Cancel(speaks: Lang, wants: Lang, me: SessionId) returns (error: Option<Error>)
      requires Valid()
      modifies this
      ensures Valid()
      ensures error == ValidatePair(speaks, wants)
      ensures View() == Remove(old(View()), speaks, wants, me)
    {
      error := ValidatePair(speaks, wants);
      if error == None {
        var own := View().Queue(QueueOwn(speaks, wants));
        var rest: ZSet := own - {me};
        queues := queues[QueueOwn(speaks, wants) := rest];
        levels := levels - {me};
      }
    }

    method InQueue(speaks: Lang, wants: Lang, me: SessionId) returns (waiting: bool, error: Option<Error>)
      ensures error == CheckRequest(speaks, wants, me)
      ensures waiting <==> error == None && me in View().Queue(QueueOwn(speaks, wants))
    {
      error := CheckRequest(speaks, wants, me);
      waiting := error == None && me in View().Queue(QueueOwn(speaks, wants));
    }

    method RemoveFromQueue(speaks: Lang, wants: Lang, me: SessionId) returns (was: bool, error: Option<Error>)
      requires Valid()
      modifies this
      ensures Valid()
      ensures error == CheckRequest(speaks, wants, me)
      ensures was <==> error == None && me in old(View()).Queue(QueueOwn(speaks, wants))
      ensures View() == if error == None then Remove(old(View()), speaks, wants, me) else old(View())
    {
      error := CheckRequest(speaks, wants, me);
      was := false;
      if error == None {
        was := me in View().Queue(QueueOwn(speaks, wants));
        var _ := Cancel(speaks, wants, me);
      }
    }
  }
}
