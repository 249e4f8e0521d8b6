/**
 Friendships accepted while a side is anonymous: set entries in Redis under device fingerprints,
 converted when a user logs in on a device.

 Adds and resolves run concurrently and interleave command by command; `Tick` is one command.  Each
 device belongs to one user (`owner`), different devices of a pair to different users.
 */
module PendingFriends {
  import opened Common

  type Fp = string
  type Uid = nat
  type Pid = nat

  /** `u:<id>` and `fp:<fingerprint>`. */
  datatype Entry = User(uid: Uid) | Device(fp: Fp)

  datatype Store = Store(keys: map<Fp, set<Entry>>, friends: set<(Uid, Uid)>) {
    function Members(k: Fp): set<Entry> { if k in keys then keys[k] else {} }
    function SAdd(k: Fp, e: Entry): Store { this.(keys := keys[k := Members(k) + {e}]) }
    function SRem(k: Fp, e: Entry): Store { this.(keys := keys[k := Members(k) - {e}]) }
    function AddFriend(a: Uid, b: Uid): Store { this.(friends := friends + {Ordered(a, b)}) }
    predicate AreFriends(a: Uid, b: Uid) { Ordered(a, b) in friends }
  }

  function Ordered(a: Uid, b: Uid): (Uid, Uid) { if a < b then (a, b) else (b, a) }

  // ---------------------------------------------------------------- the two procedures, command by command

  /** What a running call does next. */
  datatype Proc =
    | AddOne(key: Fp, entry: Entry)                                   // the last SAdd of an add
    | AddTwo(key: Fp, entry: Entry, key': Fp, entry': Entry)          // both sides anonymous
    | Scan(uid: Uid, fp: Fp)                                          // about to read the members
    | Loop(uid: Uid, fp: Fp, todo: seq<Entry>)                        // head of the loop over them
    | Clean(uid: Uid, fp: Fp, todo: seq<Entry>)                       // SRem of todo[0] comes next
    | Swap(uid: Uid, fp: Fp, todo: seq<Entry>)                        // between SRem and SAdd on the peer's key
    | Stop

  function AddCall(u1: Uid, u2: Uid, f1: Fp, f2: Fp): Proc {
    if u1 == 0 && u2 > 0 then AddOne(f1, User(u2))
    else if u1 > 0 && u2 == 0 then AddOne(f2, User(u1))
    else if u1 == 0 && u2 == 0 then AddTwo(f1, Device(f2), f2, Device(f1))
    else Stop
  }

  function ResolveCall(uid: Uid, fp: Fp): Proc {
    if uid == 0 || fp == "" then Stop else Scan(uid, fp)
  }

  /** One command of a call; `order` is the order in which the members come back. */
  function Tick(st: Store, p: Proc, order: seq<Entry>): (Store, Proc) {
    match p
    case AddOne(k, e) => (st.SAdd(k, e), Stop)
    case AddTwo(k, e, k', e') => (st.SAdd(k, e), AddOne(k', e'))
    case Scan(uid, fp) => (st, Loop(uid, fp, order))
    case Loop(uid, fp, todo) =>
      if todo == [] then (st, Stop)
      else (match todo[0]
            case User(peer) =>
              (if peer > 0 && peer != uid then st.AddFriend(uid, peer) else st, Clean(uid, fp, todo))
            case Device(g) =>
              if g == "" then (st, Clean(uid, fp, todo))
              else (st.SRem(g, Device(fp)), Swap(uid, fp, todo)))
    case Swap(uid, fp, todo) =>
      if todo == [] || todo[0].User? then (st, Stop) else (st.SAdd(todo[0].fp, User(uid)), Clean(uid, fp, todo))
    case Clean(uid, fp, todo) =>
      if todo == [] then (st, Stop) else (st.SRem(fp, todo[0]), Loop(uid, fp, todo[1..]))
    case Stop => (st, Stop)
  }

  // ---------------------------------------------------------------- concurrent runs

  /** `entered`: every entry ever put under a key. */
  datatype World = World(st: Store, procs: map<Pid, Proc>, entered: set<(Fp, Entry)>)

  const EMPTY: World := World(Store(map[], {}), map[], {})

  datatype Action =
    | Accept(pid: Pid, u1: Uid, u2: Uid, f1: Fp, f2: Fp)
    | Login(pid: Pid, fp: Fp)
    | Command(pid: Pid, order: seq<Entry>)

  /** Distinct devices of distinct users; `uid` is 0 for an anonymous side. */
  ghost predicate Enabled(w: World, a: Action, owner: Fp -> Uid) {
    match a
    case Accept(pid, u1, u2, f1, f2) =>
      && pid !in w.procs && f1 != f2 && f1 != "" && f2 != "" && owner(f1) != owner(f2)
      && (u1 == 0 || u1 == owner(f1)) && (u2 == 0 || u2 == owner(f2))
    case Login(pid, fp) => pid !in w.procs
    case Command(pid, order) =>
      && pid in w.procs
      && (w.procs[pid].Scan? ==> (set e | e in order) == w.st.Members(w.procs[pid].fp))
  }

  ghost function Step(w: World, a: Action, owner: Fp -> Uid): World
    requires Enabled(w, a, owner)
  {
    match a
    case Accept(pid, u1, u2, f1, f2) => w.(procs := w.procs[pid := AddCall(u1, u2, f1, f2)])
    case Login(pid, fp) => w.(procs := w.procs[pid := ResolveCall(owner(fp), fp)])
    case Command(pid, order) =>
      var p := w.procs[pid];
      var (st, p') := Tick(w.st, p, order);
      var entered :=
        if p.AddOne? || p.AddTwo? then w.entered + {(p.key, p.entry)}
        else if p.Swap? && p.todo != [] && p.todo[0].Device? then w.entered + {(p.todo[0].fp, User(p.uid))}
        else w.entered;
      World(st, if p' == Stop then w.procs - {pid} else w.procs[pid := p'], entered)
  }

  ghost predicate Runs(run: seq<Action>, owner: Fp -> Uid)
    decreases |run|, 0
  {
    run == [] || (Runs(run[..|run| - 1], owner) && Enabled(After(run[..|run| - 1], owner), run[|run| - 1], owner))
  }

  ghost function After(run: seq<Action>, owner: Fp -> Uid): World
    requires Runs(run, owner)
    decreases |run|, 1
  {
    if run == [] then EMPTY else Step(After(run[..|run| - 1], owner), run[|run| - 1], owner)
  }

  // ---------------------------------------------------------------- the invariant

  /** The friendship of device `f`'s user with `u` is waiting under `f`, or made. */
  ghost predicate UserToken(w: World, owner: Fp -> Uid, f: Fp, u: Uid) {
    User(u) in w.st.Members(f) || w.st.AreFriends(owner(f), u)
  }

  /** A login on `g` is between taking its entry for `f` away and putting its user there. */
  ghost predicate Swapping(w: World, g: Fp, f: Fp) {
    exists pid :: pid in w.procs && w.procs[pid].Swap? && w.procs[pid].fp == g
      && w.procs[pid].todo != [] && w.procs[pid].todo[0] == Device(f)
  }

  /** Where the accepted friendship of devices `f` and `g`, once entered under `f`, is now. */
  ghost predicate DeviceToken(w: World, owner: Fp -> Uid, f: Fp, g: Fp) {
    || Device(g) in w.st.Members(f)
    || UserToken(w, owner, g, owner(f))
    || UserToken(w, owner, f, owner(g))
    || Swapping(w, g, f)
  }

  /** An entry that may be put under `f`. */
  ghost predicate Proper(owner: Fp -> Uid, f: Fp, e: Entry) {
    f != "" && match e
      case User(u) => u > 0 && u != owner(f)
      case Device(g) => g != "" && g != f && owner(g) != owner(f)
  }

  ghost predicate ProcGood(w: World, owner: Fp -> Uid, p: Proc) {
    match p
    case AddOne(k, e) => Proper(owner, k, e)
    case AddTwo(k, e, k', e') => Proper(owner, k, e) && Proper(owner, k', e')
    case Scan(uid, fp) => uid == owner(fp) > 0 && fp != ""
    case Loop(uid, fp, todo) =>
      uid == owner(fp) > 0 && fp != "" && forall e :: e in todo ==> (fp, e) in w.entered
    case Clean(uid, fp, todo) =>
      && uid == owner(fp) > 0 && fp != "" && todo != [] && (forall e :: e in todo ==> (fp, e) in w.entered)
      && (todo[0].User? ==> w.st.AreFriends(uid, todo[0].uid))
      && (todo[0].Device? ==> (todo[0].fp, User(uid)) in w.entered)
    case Swap(uid, fp, todo) =>
      && uid == owner(fp) > 0 && fp != "" && todo != [] && (forall e :: e in todo ==> (fp, e) in w.entered)
      && todo[0].Device?
    case Stop => true
  }

  ghost predicate EntriesGood(w: World, owner: Fp -> Uid) {
    && (forall f, e :: e in w.st.Members(f) ==> (f, e) in w.entered)
    && (forall f, e :: (f, e) in w.entered ==> Proper(owner, f, e))
  }

  ghost predicate ProcsGood(w: World, owner: Fp -> Uid) {
    forall pid :: pid in w.procs ==> ProcGood(w, owner, w.procs[pid])
  }

  ghost predicate UsersKept(w: World, owner: Fp -> Uid) {
    forall f, u :: (f, User(u)) in w.entered ==> UserToken(w, owner, f, u)
  }

  ghost predicate DevicesKept(w: World, owner: Fp -> Uid) {
    forall f, g :: (f, Device(g)) in w.entered ==> DeviceToken(w, owner, f, g)
  }

  ghost predicate Inv(w: World, owner: Fp -> Uid) {
    EntriesGood(w, owner) && ProcsGood(w, owner) && UsersKept(w, owner) && DevicesKept(w, owner)
  }

  lemma EntriesStayGood(w: World, a: Action, owner: Fp -> Uid)
    requires Inv(w, owner) && Enabled(w, a, owner)
    ensures EntriesGood(Step(w, a, owner), owner)
  {
    if a.Command? {
      var p := w.procs[a.pid];
      assert ProcGood(w, owner, p);
      if p.Swap? {
        assert (p.fp, p.todo[0]) in w.entered;
        assert Proper(owner, p.fp, p.todo[0]);
        assert Proper(owner, p.todo[0].fp, User(p.uid));
      }
    }
  }

  lemma UsersStayKept(w: World, a: Action, owner: Fp -> Uid)
    requires Inv(w, owner) && Enabled(w, a, owner)
    ensures UsersKept(Step(w, a, owner), owner)
  {
    if a.Command? {
      assert ProcGood(w, owner, w.procs[a.pid]);
    }
  }

  lemma BystanderStaysGood(w: World, a: Action, owner: Fp -> Uid, p: Proc)
    requires Inv(w, owner) && Enabled(w, a, owner) && ProcGood(w, owner, p)
    ensures ProcGood(Step(w, a, owner), owner, p)
  {
  }

  lemma ActorStaysGood(w: World, pid: Pid, order: seq<Entry>, owner: Fp -> Uid)
    requires Inv(w, owner) && Enabled(w, Command(pid, order), owner)
    ensures ProcGood(Step(w, Command(pid, order), owner), owner, Tick(w.st, w.procs[pid], order).1)
  {
    var p := w.procs[pid];
    assert ProcGood(w, owner, p);
    if p.Scan? {
      assert forall e :: e in order ==> e in w.st.Members(p.fp);
    } else if p.Loop? && p.todo != [] {
      assert (p.fp, p.todo[0]) in w.entered;
      assert Proper(owner, p.fp, p.todo[0]);
    }
  }

  lemma ProcsStayGood(w: World, a: Action, owner: Fp -> Uid)
    requires Inv(w, owner) && Enabled(w, a, owner)
    ensures ProcsGood(Step(w, a, owner), owner)
  {
    var w' := Step(w, a, owner);
    forall pid | pid in w'.procs
      ensures ProcGood(w', owner, w'.procs[pid])
    {
      if pid != a.pid {
        BystanderStaysGood(w, a, owner, w.procs[pid]);
      } else if a.Command? {
        ActorStaysGood(w, pid, a.order, owner);
      }
    }
  }

  lemma DeviceStaysKept(w: World, a: Action, owner: Fp -> Uid, f: Fp, g: Fp)
    requires Inv(w, owner) && Enabled(w, a, owner)
    requires UsersKept(Step(w, a, owner), owner) && (f, Device(g)) in Step(w, a, owner).entered
    ensures DeviceToken(Step(w, a, owner), owner, f, g)
  {
    var w' := Step(w, a, owner);
    if (f, Device(g)) in w.entered {
      assert DeviceToken(w, owner, f, g);
    }
    if Swapping(w, g, f) {
      var pid :| pid in w.procs && w.procs[pid].Swap? && w.procs[pid].fp == g
        && w.procs[pid].todo != [] && w.procs[pid].todo[0] == Device(f);
      if a.Command? && a.pid == pid {
        assert ProcGood(w, owner, w.procs[pid]);
        assert (f, User(owner(g))) in w'.entered;
      } else {
        assert w'.procs[pid] == w.procs[pid];
      }
    } else if a.Command? {
      var p := w.procs[a.pid];
      assert ProcGood(w, owner, p);
      if p.Loop? && p.todo != [] && p.todo[0] == Device(f) && p.fp == g {
        assert (g, Device(f)) in w.entered;
        assert Proper(owner, g, Device(f));
        assert w'.procs[a.pid] == Swap(p.uid, p.fp, p.todo);
        assert Swapping(w', g, f);
      } else if p.Clean? && p.todo[0] == Device(g) && p.fp == f {
        assert (g, User(owner(f))) in w'.entered;
      }
    }
  }

  lemma StepKeepsInv(w: World, a: Action, owner: Fp -> Uid)
    requires Inv(w, owner) && Enabled(w, a, owner)
    ensures Inv(Step(w, a, owner), owner)
  {
    EntriesStayGood(w, a, owner);
    UsersStayKept(w, a, owner);
    ProcsStayGood(w, a, owner);
    forall f, g | (f, Device(g)) in Step(w, a, owner).entered
      ensures DeviceToken(Step(w, a, owner), owner, f, g)
    {
      DeviceStaysKept(w, a, owner, f, g);
    }
  }

  lemma {:induction false} RunKeepsInv(run: seq<Action>, owner: Fp -> Uid)
    requires Runs(run, owner)
    ensures Inv(After(run, owner), owner)
  {
    if run != [] {
      RunKeepsInv(run[..|run| - 1], owner);
      StepKeepsInv(After(run[..|run| - 1], owner), run[|run| - 1], owner);
    }
  }

  // ---------------------------------------------------------------- results about every interleaving

  /** An accepted friendship with a registered user stays under the device until the two are friends. */
  lemma FriendshipWithUserNotLost(run: seq<Action>, owner: Fp -> Uid, f: Fp, u: Uid)
    requires Runs(run, owner) && (f, User(u)) in After(run, owner).entered
    ensures User(u) in After(run, owner).st.Members(f) || After(run, owner).st.AreFriends(owner(f), u)
  {
    RunKeepsInv(run, owner);
  }

  /**
   An accepted friendship between two anonymous devices is, at every moment, an entry under one of them,
   in the hands of a login between its SRem and its SAdd, or made.
   */
  lemma FriendshipOfDevicesNotLost(run: seq<Action>, owner: Fp -> Uid, f: Fp, g: Fp)
    requires Runs(run, owner) && (f, Device(g)) in After(run, owner).entered
    ensures var w := After(run, owner);
            || Device(g) in w.st.Members(f)
            || User(owner(f)) in w.st.Members(g)
            || User(owner(g)) in w.st.Members(f)
            || w.st.AreFriends(owner(f), owner(g))
            || Swapping(w, g, f)
  {
    RunKeepsInv(run, owner);
    assert DeviceToken(After(run, owner), owner, f, g);
  }

  // ---------------------------------------------------------------- logins that run alone

  /** One member of the loop, all its commands. */
  function ResolveOne(st: Store, uid: Uid, fp: Fp, e: Entry): Store {
    var st' := match e
      case User(peer) => if peer > 0 && peer != uid then st.AddFriend(uid, peer) else st
      case Device(g) => if g == "" then st else st.SRem(g, Device(fp)).SAdd(g, User(uid));
    st'.SRem(fp, e)
  }

  function ResolveAll(st: Store, uid: Uid, fp: Fp, todo: seq<Entry>): Store
    decreases |todo|
  {
    if todo == [] then st else ResolveAll(ResolveOne(st, uid, fp, todo[0]), uid, fp, todo[1..])
  }

  /** `n` commands of one call with nothing in between. */
  function Ticks(st: Store, p: Proc, n: nat): (Store, Proc)
    decreases n
  {
    if n == 0 then (st, p) else var (st', p') := Tick(st, p, []); Ticks(st', p', n - 1)
  }

  /** The loop of a call that is not interrupted is `ResolveAll`. */
  lemma {:induction false} LoopAloneIsResolveAll(st: Store, uid: Uid, fp: Fp, todo: seq<Entry>) returns (n: nat)
    ensures Ticks(st, Loop(uid, fp, todo), n) == (ResolveAll(st, uid, fp, todo), Stop)
    decreases |todo|
  {
    if todo == [] {
      return 1;
    }
    var st' := ResolveOne(st, uid, fp, todo[0]);
    var m := LoopAloneIsResolveAll(st', uid, fp, todo[1..]);
    var (st1, p1) := Tick(st, Loop(uid, fp, todo), []);
    var (st2, p2) := Tick(st1, p1, []);
    if p1.Swap? {
      var (st3, p3) := Tick(st2, p2, []);
      assert (st3, p3) == (st', Loop(uid, fp, todo[1..]));
      n := m + 3;
      assert Ticks(st2, p2, m + 1) == Ticks(st3, p3, m);
    } else {
      assert (st2, p2) == (st', Loop(uid, fp, todo[1..]));
      n := m + 2;
    }
    assert Ticks(st1, p1, n - 1) == Ticks(st2, p2, n - 2);
  }

  class PendingStore {
    var keys: map<Fp, set<Entry>>
    var friends: set<(Uid, Uid)>

    function View(): Store
      reads this
    {
      Store(keys, friends)
    }

    method SAdd(k: Fp, e: Entry)
      modifies this
      ensures View() == old(View()).SAdd(k, e)
    {
      keys := keys[k := View().Members(k) + {e}];
    }

    method SRem(k: Fp, e: Entry)
      modifies this
      ensures View() == old(View()).SRem(k, e)
    {
      keys := keys[k := View().Members(k) - {e}];
    }

    /** The commands of an add: an entry under each anonymous side's device. */
    method AddPendingFriendship(u1: Uid, u2: Uid, f1: Fp, f2: Fp)
      modifies this
      ensures View() == Ticks(old(View()), AddCall(u1, u2, f1, f2), 2).0
      ensures u1 == 0 && u2 > 0 ==> User(u2) in View().Members(f1)
      ensures u1 > 0 && u2 == 0 ==> User(u1) in View().Members(f2)
      ensures u1 == 0 && u2 == 0 ==> Device(f2) in View().Members(f1) && Device(f1) in View().Members(f2)
      ensures u1 > 0 && u2 > 0 ==> View() == old(View())
    {
      ghost var st, p := View(), AddCall(u1, u2, f1, f2);
      ghost var (st1, p1) := Tick(st, p, []);
      ghost var (st2, p2) := Tick(st1, p1, []);
      assert Ticks(st, p, 2) == Ticks(st1, p1, 1) == Ticks(st2, p2, 0);
      if u1 == 0 && u2 > 0 {
        SAdd(f1, User(u2));
      }
      if u1 > 0 && u2 == 0 {
        SAdd(f2, User(u1));
      }
      if u1 == 0 && u2 == 0 {
        SAdd(f1, Device(f2));
        SAdd(f2, Device(f1));
      }
    }

    /** `members` are the set's members in the order SMEMBERS returned them. */
    method ResolvePendingFriendships(uid: Uid, fp: Fp, members: seq<Entry>)
      requires (set e | e in members) == View().Members(fp)
      modifies this
      ensures View() == if uid == 0 || fp == "" then old(View()) else ResolveAll(old(View()), uid, fp, members)
    {
      if uid == 0 || fp == "" {
        return;
      }
      for i := 0 to |members|
        invariant ResolveAll(View(), uid, fp, members[i..]) == ResolveAll(old(View()), uid, fp, members)
      {
        ghost var before := View();
        var m := members[i];
        assert members[i..][0] == m && members[i..][1..] == members[i + 1..];
        match m {
          case User(peer) =>
            if peer > 0 && peer != uid {
              friends := friends + {Ordered(uid, peer)};
            }
          case Device(g) =>
            if g != "" {
              SRem(g, Device(fp));
              SAdd(g, User(uid));
            }
        }
        SRem(fp, m);
        assert View() == ResolveOne(before, uid, fp, m);
      }
    }
  }

  /** What a login leaves untouched: friendships, and entries of users under other devices. */
  lemma {:induction false} ResolveKeeps(st: Store, uid: Uid, fp: Fp, todo: seq<Entry>)
    ensures st.friends <= ResolveAll(st, uid, fp, todo).friends
    ensures forall k, u :: k != fp && User(u) in st.Members(k) ==> User(u) in ResolveAll(st, uid, fp, todo).Members(k)
    decreases |todo|
  {
    if todo != [] {
      ResolveKeeps(ResolveOne(st, uid, fp, todo[0]), uid, fp, todo[1..]);
    }
  }

  /** What a login achieves: a friendship for each user entry, its own user under each peer device. */
  lemma {:induction false} ResolveHonours(st: Store, uid: Uid, fp: Fp, todo: seq<Entry>, e: Entry)
    requires e in todo && (e.User? ==> e.uid > 0 && e.uid != uid) && (e.Device? ==> e.fp != fp && e.fp != "")
    ensures e.User? ==> ResolveAll(st, uid, fp, todo).AreFriends(uid, e.uid)
    ensures e.Device? ==> User(uid) in ResolveAll(st, uid, fp, todo).Members(e.fp)
    decreases |todo|
  {
    var st' := ResolveOne(st, uid, fp, todo[0]);
    if todo[0] == e {
      ResolveKeeps(st', uid, fp, todo[1..]);
    } else {
      ResolveHonours(st', uid, fp, todo[1..], e);
    }
  }

  /**
   Two logins are enough: from any reachable moment at which no call is running, a login on `f` followed
   by one on `g` makes their users friends, if the acceptance was entered under `f`.
   */
  lemma TwoLoginsMakeFriends(run: seq<Action>, owner: Fp -> Uid, f: Fp, g: Fp, first: seq<Entry>, second: seq<Entry>)
    requires Runs(run, owner) && After(run, owner).procs == map[]
    requires (f, Device(g)) in After(run, owner).entered && owner(f) > 0 && owner(g) > 0
    requires (set e | e in first) == After(run, owner).st.Members(f)
    requires (set e | e in second) == ResolveAll(After(run, owner).st, owner(f), f, first).Members(g)
    ensures var st' := ResolveAll(After(run, owner).st, owner(f), f, first);
            ResolveAll(st', owner(g), g, second).AreFriends(owner(f), owner(g))
  {
    var w := After(run, owner);
    RunKeepsInv(run, owner);
    assert Proper(owner, f, Device(g));
    assert DeviceToken(w, owner, f, g);
    var st' := ResolveAll(w.st, owner(f), f, first);
    ResolveKeeps(w.st, owner(f), f, first);
    ResolveKeeps(st', owner(g), g, second);
    if User(owner(g)) in w.st.Members(f) {
      assert User(owner(g)) in first;
      ResolveHonours(w.st, owner(f), f, first, User(owner(g)));
    } else if !w.st.AreFriends(owner(f), owner(g)) {
      if Device(g) in w.st.Members(f) {
        assert Device(g) in first;
        ResolveHonours(w.st, owner(f), f, first, Device(g));
      }
      assert User(owner(f)) in st'.Members(g);
      assert User(owner(f)) in second;
      ResolveHonours(st', owner(g), g, second, User(owner(f)));
    }
  }

  // ---------------------------------------------------------------- nothing is left over, nothing is invented

  /** A login leaves nothing under its device of what it read, and its device under none of the peers it read. */
  lemma {:induction false} ResolveClears(st: Store, uid: Uid, fp: Fp, todo: seq<Entry>, e: Entry)
    requires e in todo && e != User(uid) && e != Device(fp) && forall d :: d in todo && d.Device? ==> d.fp != fp
    ensures e !in ResolveAll(st, uid, fp, todo).Members(fp)
    ensures e.Device? && e.fp != "" ==> Device(fp) !in ResolveAll(st, uid, fp, todo).Members(e.fp)
    decreases |todo|
  {
    var st' := ResolveOne(st, uid, fp, todo[0]);
    if todo[0] == e {
      StaysCleared(st', uid, fp, todo[1..], fp, e);
      if e.Device? && e.fp != "" {
        StaysCleared(st', uid, fp, todo[1..], e.fp, Device(fp));
      }
    } else {
      ResolveClears(st', uid, fp, todo[1..], e);
    }
  }

  lemma {:induction false} StaysCleared(st: Store, uid: Uid, fp: Fp, todo: seq<Entry>, k: Fp, e: Entry)
    requires e !in st.Members(k) && e != User(uid)
    ensures e !in ResolveAll(st, uid, fp, todo).Members(k)
    decreases |todo|
  {
    if todo != [] {
      StaysCleared(ResolveOne(st, uid, fp, todo[0]), uid, fp, todo[1..], k, e);
    }
  }

  /** Some acceptance of the run was between the users `a` and `b`, who each own one of its devices. */
  ghost predicate Accepted(run: seq<Action>, owner: Fp -> Uid, a: Uid, b: Uid) {
    exists i :: 0 <= i < |run| && AcceptedBy(run[i], owner, a, b)
  }

  ghost predicate AcceptedBy(act: Action, owner: Fp -> Uid, a: Uid, b: Uid) {
    act.Accept? && {owner(act.f1), owner(act.f2)} == {a, b}
  }

  /** An entry under `f` stands for an acceptance between its users. */
  ghost predicate EntryAccepted(run: seq<Action>, owner: Fp -> Uid, f: Fp, e: Entry) {
    Accepted(run, owner, owner(f), match e case User(u) => u case Device(g) => owner(g))
  }

  ghost predicate ProcAccepted(run: seq<Action>, owner: Fp -> Uid, p: Proc) {
    match p
    case AddOne(k, e) => EntryAccepted(run, owner, k, e)
    case AddTwo(k, e, k', e') => EntryAccepted(run, owner, k, e) && EntryAccepted(run, owner, k', e')
    case _ => true
  }

  ghost predicate AllAccepted(run: seq<Action>, owner: Fp -> Uid, w: World) {
    && (forall f, e :: (f, e) in w.entered ==> EntryAccepted(run, owner, f, e))
    && (forall pid :: pid in w.procs ==> ProcAccepted(run, owner, w.procs[pid]))
    && (forall a, b :: (a, b) in w.st.friends ==> Accepted(run, owner, a, b))
  }

  lemma AcceptedStays(run: seq<Action>, act: Action, owner: Fp -> Uid, a: Uid, b: Uid)
    requires Accepted(run, owner, a, b)
    ensures Accepted(run + [act], owner, a, b)
  {
    var i :| 0 <= i < |run| && AcceptedBy(run[i], owner, a, b);
    assert (run + [act])[i] == run[i];
  }

  lemma AllStayAccepted(run: seq<Action>, act: Action, owner: Fp -> Uid, w: World)
    requires AllAccepted(run, owner, w)
    ensures AllAccepted(run + [act], owner, w)
  {
    forall a, b | Accepted(run, owner, a, b)
      ensures Accepted(run + [act], owner, a, b)
    {
      AcceptedStays(run, act, owner, a, b);
    }
  }

  /** The two ways round are one acceptance. */
  lemma AcceptedEitherWay(run: seq<Action>, owner: Fp -> Uid, a: Uid, b: Uid)
    requires Accepted(run, owner, a, b)
    ensures Accepted(run, owner, b, a)
  {
    var i :| 0 <= i < |run| && AcceptedBy(run[i], owner, a, b);
    assert AcceptedBy(run[i], owner, b, a);
  }

  lemma CallIsAccepted(run: seq<Action>, act: Action, owner: Fp -> Uid, w: World)
    requires Enabled(w, act, owner) && act.Accept?
    ensures ProcAccepted(run + [act], owner, AddCall(act.u1, act.u2, act.f1, act.f2))
  {
    var all, a, b := run + [act], owner(act.f1), owner(act.f2);
    assert all[|run|] == act && AcceptedBy(all[|run|], owner, a, b);
    AcceptedEitherWay(all, owner, a, b);
  }

  lemma CommandIsAccepted(run: seq<Action>, act: Action, owner: Fp -> Uid, w: World)
    requires Inv(w, owner) && AllAccepted(run, owner, w) && Enabled(w, act, owner) && act.Command?
    ensures AllAccepted(run, owner, Step(w, act, owner))
  {
    var w', p := Step(w, act, owner), w.procs[act.pid];
    assert ProcGood(w, owner, p) && ProcAccepted(run, owner, p);
    if (p.Loop? || p.Swap?) && p.todo != [] {
      assert (p.fp, p.todo[0]) in w.entered && EntryAccepted(run, owner, p.fp, p.todo[0]);
      var peer := match p.todo[0] case User(u) => u case Device(g) => owner(g);
      AcceptedEitherWay(run, owner, p.uid, peer);
    }
  }

  lemma {:induction false} RunIsAccepted(run: seq<Action>, owner: Fp -> Uid)
    requires Runs(run, owner)
    ensures AllAccepted(run, owner, After(run, owner))
  {
    if run != [] {
      var n := |run| - 1;
      var w := After(run[..n], owner);
      RunKeepsInv(run[..n], owner);
      RunIsAccepted(run[..n], owner);
      AllStayAccepted(run[..n], run[n], owner, w);
      assert run == run[..n] + [run[n]];
      match run[n]
      case Accept(_, _, _, _, _) => CallIsAccepted(run[..n], run[n], owner, w);
      case Login(_, _) =>
      case Command(_, _) => CommandIsAccepted(run, run[n], owner, w);
    }
  }

  /** In every interleaving two users become friends only if an acceptance was between devices of theirs. */
  lemma NoFriendshipIsInvented(run: seq<Action>, owner: Fp -> Uid, a: Uid, b: Uid)
    requires Runs(run, owner) && After(run, owner).st.AreFriends(a, b)
    ensures Accepted(run, owner, a, b)
  {
    RunIsAccepted(run, owner);
    assert Ordered(a, b) in After(run, owner).st.friends;
    if a >= b {
      AcceptedEitherWay(run, owner, b, a);
    }
  }
}
