/**
 A user's photos, ordered by position, and the verification flag that vouches for the first one.

 `Album` holds the photo rows and the flag; the functions on it are the committed transactions and `AlbumStore`
 runs them statement by statement.  A transaction that fails leaves the album as it was.
 */
module Photos {
  import opened Common

  const MAX_PHOTOS := 6

  /** A trimmed public id; 0 is the empty one. */
  type PublicId = nat

  const EMPTY: PublicId := 0

  datatype Photo = Photo(position: int, publicId: PublicId)

  type Rows = map<nat, Photo>

  datatype Album = Album(rows: Rows, nextId: nat, verified: bool)

  const NEW_ALBUM: Album := Album(map[], 1, false)

  datatype Failure = InvalidPosition | EmptyPublicId | Duplicated | WrongLength | PositionTaken

  datatype Result<T> = Ok(value: T) | Err(error: Failure)

  /** The table's constraint: at most one photo per position. */
  ghost predicate Unique(rows: Rows) {
    forall i, j :: i in rows && j in rows && rows[i].position == rows[j].position ==> i == j
  }

  /** What every committed transaction keeps. */
  ghost predicate Contiguous(rows: Rows) {
    && Unique(rows)
    && (forall i :: i in rows ==> 1 <= rows[i].position <= |rows| && rows[i].publicId != EMPTY)
    && |rows| <= MAX_PHOTOS
  }

  // ---------------------------------------------------------------- one photo

  ghost predicate Has(rows: Rows, position: int) {
    exists i :: i in rows && rows[i].position == position
  }

  /** The public id at a position, EMPTY if there is none. */
  ghost function HeldAt(rows: Rows, position: int): PublicId {
    if Has(rows, position) then
      var i :| i in rows && rows[i].position == position;
      rows[i].publicId
    else EMPTY
  }

  lemma HeldAtIs(rows: Rows, i: nat)
    requires Unique(rows) && i in rows
    ensures HeldAt(rows, rows[i].position) == rows[i].publicId
  {
    assert Has(rows, rows[i].position);
  }

  method Find(rows: Rows, position: int) returns (found: Option<nat>)
    requires Unique(rows)
    ensures found == None <==> !Has(rows, position)
    ensures found.Some? ==> found.value in rows && rows[found.value].position == position
    ensures found.Some? ==> HeldAt(rows, position) == rows[found.value].publicId
  {
    var todo := rows.Keys;
    while todo != {}
      invariant todo <= rows.Keys
      invariant forall i :: i in rows && rows[i].position == position ==> i in todo
      decreases todo
    {
      var i :| i in todo;
      if rows[i].position == position {
        HeldAtIs(rows, i);
        return Some(i);
      }
      todo := todo - {i};
    }
    found := None;
  }

  // ---------------------------------------------------------------- distinct positions within 1..n are all of them

  ghost function Upto(n: nat): (s: set<int>)
    ensures |s| == n
    ensures forall p :: p in s <==> 1 <= p <= n
  {
    if n == 0 then {} else Upto(n - 1) + {n}
  }

  ghost function Positions(rows: Rows): set<int> { set i | i in rows :: rows[i].position }

  lemma PositionsSplit(rows: Rows, i: nat)
    requires i in rows
    ensures Positions(rows) == Positions(rows - {i}) + {rows[i].position}
  {
    var rest: Rows := rows - {i};
    assert forall j :: j in rows ==> j == i || (j in rest && rest[j] == rows[j]);
  }

  lemma {:induction false} PositionsSize(rows: Rows)
    requires Unique(rows)
    ensures |Positions(rows)| == |rows|
    decreases |rows|
  {
    if |rows| > 0 {
      var i :| i in rows;
      var rest: Rows := rows - {i};
      PositionsSize(rest);
      assert rows.Keys == rest.Keys + {i};
      PositionsSplit(rows, i);
    }
  }

  lemma SubsetOfSameSize(a: set<int>, b: set<int>)
    requires a <= b && |a| == |b|
    ensures a == b
  {
    assert b == a + (b - a);
  }

  lemma EveryPositionIsTaken(rows: Rows, p: int)
    requires Contiguous(rows)
    ensures Has(rows, p) <==> 1 <= p <= |rows|
  {
    if 1 <= p <= |rows| {
      PositionsSize(rows);
      SubsetOfSameSize(Positions(rows), Upto(|rows|));
      assert p in Upto(|rows|);
    }
  }

  // ---------------------------------------------------------------- setting

  function Replaced(rows: Rows, position: int, publicId: PublicId): Rows {
    map i | i in rows :: if rows[i].position == position then rows[i].(publicId := publicId) else rows[i]
  }

  /**
   Replaces the photo at `wanted`, or adds one, after the last photo if `wanted` is further on; gives the
   position and what was replaced.
   */
  ghost function SetPhoto(a: Album, wanted: int, publicId: PublicId): (Album, Result<(int, PublicId)>) {
    if wanted < 1 || wanted > MAX_PHOTOS then (a, Err(InvalidPosition))
    else if publicId == EMPTY then (a, Err(EmptyPublicId))
    else
      var was := HeldAt(a.rows, wanted);
      if was != EMPTY then
        (a.(rows := Replaced(a.rows, wanted, publicId), verified := a.verified && !(wanted == 1 && was != publicId)),
            Ok((wanted, was)))
      else
        var position := if wanted > |a.rows| + 1 then |a.rows| + 1 else wanted;
        (a.(rows := a.rows[a.nextId := Photo(position, publicId)], nextId := a.nextId + 1), Ok((position, EMPTY)))
  }

  lemma SamePositionsKeep(rows: Rows, rows': Rows)
    requires Contiguous(rows) && rows'.Keys == rows.Keys
    requires forall i :: i in rows ==> rows'[i].position == rows[i].position && rows'[i].publicId != EMPTY
    ensures Contiguous(rows')
  {
    assert |rows'| == |rows'.Keys| == |rows|;
  }

  lemma ReplacedKeeps(rows: Rows, position: int, publicId: PublicId)
    requires Contiguous(rows) && publicId != EMPTY
    ensures Contiguous(Replaced(rows, position, publicId))
  {
    SamePositionsKeep(rows, Replaced(rows, position, publicId));
  }

  lemma AddedUnique(rows: Rows, i: nat, photo: Photo)
    requires Unique(rows) && i !in rows
    requires forall j :: j in rows ==> rows[j].position != photo.position
    ensures Unique(rows[i := photo])
  {
  }

  lemma AddedKeeps(rows: Rows, i: nat, publicId: PublicId)
    requires Contiguous(rows) && i !in rows && |rows| < MAX_PHOTOS && publicId != EMPTY
    ensures Contiguous(rows[i := Photo(|rows| + 1, publicId)])
  {
    var photo := Photo(|rows| + 1, publicId);
    var rows' := rows[i := photo];
    AddedUnique(rows, i, photo);
    assert |rows'| == |rows| + 1 by {
      assert rows'.Keys == rows.Keys + {i};
    }
    forall j | j in rows'
      ensures 1 <= rows'[j].position <= |rows'| && rows'[j].publicId != EMPTY
    {
      assert j == i || j in rows;
    }
  }

  // ---------------------------------------------------------------- deleting

  /** Without the photo at `position`, the later ones one place to the left. */
  function Closed(rows: Rows, position: int): Rows {
    map i | i in rows && rows[i].position != position ::
      if rows[i].position > position then rows[i].(position := rows[i].position - 1) else rows[i]
  }

  ghost function DeletePhoto(a: Album, position: int): (Album, Result<PublicId>) {
    if position < 1 || position > MAX_PHOTOS then (a, Err(InvalidPosition))
    else if !Has(a.rows, position) then (a, Ok(EMPTY))
    else (a.(rows := Closed(a.rows, position), verified := a.verified && position != 1), Ok(HeldAt(a.rows, position)))
  }

  lemma ClosedUnique(rows: Rows, position: int)
    requires Unique(rows)
    ensures Unique(Closed(rows, position))
  {
    var rows' := Closed(rows, position);
    forall i, j | i in rows' && j in rows' && rows'[i].position == rows'[j].position
      ensures i == j
    {
      assert rows[i].position == rows[j].position;
    }
  }

  lemma ClosedKeeps(rows: Rows, position: int)
    requires Contiguous(rows) && Has(rows, position)
    ensures Contiguous(Closed(rows, position)) && |Closed(rows, position)| == |rows| - 1
  {
    var rows' := Closed(rows, position);
    var i :| i in rows && rows[i].position == position;
    ClosedUnique(rows, position);
    assert |rows'| == |rows| - 1 by {
      assert rows'.Keys == rows.Keys - {i};
    }
    forall j | j in rows'
      ensures 1 <= rows'[j].position <= |rows'| && rows'[j].publicId != EMPTY
    {
      assert j in rows && rows[j].position != position;
    }
  }

  // ---------------------------------------------------------------- reordering

  /** The place of `p` in the ordering, from 1; 0 if it is not there. */
  function Rank(ordering: seq<int>, p: int): nat {
    if ordering == [] then 0
    else
      var r := Rank(ordering[..|ordering| - 1], p);
      if r > 0 then r else if ordering[|ordering| - 1] == p then |ordering| else 0
  }

  lemma {:induction false} RankFinds(ordering: seq<int>, p: int)
    ensures Rank(ordering, p) <= |ordering|
    ensures Rank(ordering, p) == 0 <==> p !in ordering
    ensures Rank(ordering, p) > 0 ==> ordering[Rank(ordering, p) - 1] == p
  {
    if ordering != [] {
      var n := |ordering| - 1;
      RankFinds(ordering[..n], p);
      assert ordering == ordering[..n] + [ordering[n]];
    }
  }

  /** One UPDATE with a CASE: named positions move to their rank, others stay. */
  function Place(ordering: seq<int>, p: int): int {
    if Rank(ordering, p) > 0 then Rank(ordering, p) else p
  }

  function Moved(rows: Rows, ordering: seq<int>): Rows {
    map i | i in rows :: rows[i].(position := Place(ordering, rows[i].position))
  }

  ghost predicate Distinct(s: seq<int>) { forall m, n :: 0 <= m < n < |s| ==> s[m] != s[n] }

  ghost predicate InRange(s: seq<int>) { forall k :: 0 <= k < |s| ==> 1 <= s[k] <= MAX_PHOTOS }

  /** What is checked before the update: as many distinct positions as there are photos, not that they exist. */
  ghost predicate Orders(rows: Rows, ordering: seq<int>) {
    |ordering| == |rows| && InRange(ordering) && Distinct(ordering)
  }

  ghost function ReorderPhotos(a: Album, ordering: seq<int>): (Album, Option<Failure>) {
    if ordering == [] then (a, None)
    else if !InRange(ordering) then (a, Some(InvalidPosition))
    else if !Distinct(ordering) then (a, Some(Duplicated))
    else if |a.rows| != |ordering| then (a, Some(WrongLength))
    else
      var rows := Moved(a.rows, ordering);
      if !Unique(rows) then (a, Some(PositionTaken))
      else
        var was := HeldAt(a.rows, 1);
        (a.(rows := rows, verified := a.verified && !(was != EMPTY && HeldAt(rows, 1) != was)), None)
  }

  lemma PlaceStaysInside(ordering: seq<int>, p: int)
    requires 1 <= p <= |ordering|
    ensures 1 <= Place(ordering, p) <= |ordering|
  {
    RankFinds(ordering, p);
  }

  lemma MovedKeeps(rows: Rows, ordering: seq<int>)
    requires Contiguous(rows) && |ordering| == |rows|
    requires Unique(Moved(rows, ordering))
    ensures Contiguous(Moved(rows, ordering))
  {
    var moved := Moved(rows, ordering);
    assert moved.Keys == rows.Keys;
    forall i | i in moved
      ensures 1 <= moved[i].position <= |moved| && moved[i].publicId != EMPTY
    {
      PlaceStaysInside(ordering, rows[i].position);
    }
  }

  /** Each photo named goes where it was asked to go. */
  lemma OrderingIsObeyed(rows: Rows, ordering: seq<int>, i: nat, k: nat)
    requires Orders(rows, ordering) && k < |ordering|
    requires i in rows && rows[i].position == ordering[k]
    ensures Moved(rows, ordering)[i] == rows[i].(position := k + 1)
  {
    RankFinds(ordering, ordering[k]);
  }

  lemma Meet(rows: Rows, ordering: seq<int>, i: nat, j: nat)
    requires Orders(rows, ordering) && i in rows && j in rows
    requires rows[i].position !in ordering && 1 <= rows[i].position <= |ordering|
    requires rows[j].position == ordering[rows[i].position - 1]
    ensures Moved(rows, ordering)[i].position == Moved(rows, ordering)[j].position
  {
    RankFinds(ordering, rows[i].position);
    OrderingIsObeyed(rows, ordering, j, rows[i].position - 1);
  }

  /** A photo left out would meet the one named at its rank. */
  lemma LeftOutMeets(rows: Rows, ordering: seq<int>, p: int)
    requires Contiguous(rows) && Orders(rows, ordering) && Unique(Moved(rows, ordering))
    requires 1 <= p <= |rows| && p !in ordering
    ensures ordering[p - 1] > |rows|
  {
    if ordering[p - 1] <= |rows| {
      EveryPositionIsTaken(rows, p);
      EveryPositionIsTaken(rows, ordering[p - 1]);
      var i :| i in rows && rows[i].position == p;
      var j :| j in rows && rows[j].position == ordering[p - 1];
      Meet(rows, ordering, i, j);
    }
  }

  /** Two positions only meet when one is left out and the other is named at its rank. */
  lemma MeetingPlaces(ordering: seq<int>, p: int, q: int)
    requires Distinct(ordering) && p != q && Place(ordering, p) == Place(ordering, q)
    ensures (p !in ordering && 1 <= p <= |ordering| && ordering[p - 1] == q)
         || (q !in ordering && 1 <= q <= |ordering| && ordering[q - 1] == p)
  {
    RankFinds(ordering, p);
    RankFinds(ordering, q);
  }

  /** For every photo left out, the place it keeps is given to a position that has no photo. */
  ghost predicate LeavesFree(rows: Rows, ordering: seq<int>) {
    forall p :: 1 <= p <= |rows| <= |ordering| && p !in ordering ==> ordering[p - 1] > |rows|
  }

  lemma PlacesDiffer(rows: Rows, ordering: seq<int>, p: int, q: int)
    requires Orders(rows, ordering) && LeavesFree(rows, ordering)
    requires 1 <= p <= |rows| && 1 <= q <= |rows| && p != q
    ensures Place(ordering, p) != Place(ordering, q)
  {
    if Place(ordering, p) == Place(ordering, q) {
      MeetingPlaces(ordering, p, q);
    }
  }

  lemma NobodyMeets(rows: Rows, ordering: seq<int>)
    requires Contiguous(rows) && Orders(rows, ordering) && LeavesFree(rows, ordering)
    ensures Unique(Moved(rows, ordering))
  {
    var moved := Moved(rows, ordering);
    forall i, j | i in moved && j in moved && moved[i].position == moved[j].position
      ensures i == j
    {
      if rows[i].position != rows[j].position {
        PlacesDiffer(rows, ordering, rows[i].position, rows[j].position);
      }
    }
  }

  /** Which accepted orderings commit; in particular every permutation of the photos does. */
  lemma ReorderCommitsIff(a: Album, ordering: seq<int>)
    requires Contiguous(a.rows) && Orders(a.rows, ordering) && ordering != []
    ensures ReorderPhotos(a, ordering).1 == None <==> LeavesFree(a.rows, ordering)
  {
    if Unique(Moved(a.rows, ordering)) {
      forall p | 1 <= p <= |a.rows| && p !in ordering
        ensures ordering[p - 1] > |a.rows|
      {
        LeftOutMeets(a.rows, ordering, p);
      }
    } else if LeavesFree(a.rows, ordering) {
      NobodyMeets(a.rows, ordering);
    }
  }

  // ---------------------------------------------------------------- the store

  ghost predicate Valid(a: Album) {
    Contiguous(a.rows) && forall i :: i in a.rows ==> i < a.nextId
  }

  class AlbumStore {
    var album: Album

    constructor ()
      ensures album == NEW_ALBUM
    {
      album := NEW_ALBUM;
    }

    method Set(wanted: int, publicId: PublicId) returns (res: Result<(int, PublicId)>)
      requires Valid(album)
      modifies this
      ensures (album, res) == SetPhoto(old(album), wanted, publicId)
    {
      if wanted < 1 || wanted > MAX_PHOTOS {
        return Err(InvalidPosition);
      }
      if publicId == EMPTY {
        return Err(EmptyPublicId);
      }
      var position := wanted;
      var there := Find(album.rows, position);
      var replaced: PublicId := EMPTY;
      if there.Some? {
        replaced := album.rows[there.value].publicId;
      }
      if replaced == EMPTY {
        var count := |album.rows|;
        if position > count + 1 {
          position := count + 1;
        }
        album := album.(rows := album.rows[album.nextId := Photo(position, publicId)], nextId := album.nextId + 1);
      } else {
        album := album.(rows := Replaced(album.rows, position, publicId));
      }
      if position == 1 && replaced != EMPTY && replaced != publicId {
        album := album.(verified := false);
      }
      res := Ok((position, replaced));
    }

    method Delete(position: int) returns (res: Result<PublicId>)
      requires Valid(album)
      modifies this
      ensures (album, res) == DeletePhoto(old(album), position)
    {
      if position < 1 || position > MAX_PHOTOS {
        return Err(InvalidPosition);
      }
      var there := Find(album.rows, position);
      if there == None {
        return Ok(EMPTY);
      }
      res := Ok(album.rows[there.value].publicId);
      album := album.(rows := Closed(album.rows, position));
      if position == 1 {
        album := album.(verified := false);
      }
    }

    method Reorder(ordering: seq<int>) returns (failure: Option<Failure>)
      requires Valid(album)
      modifies this
      ensures (album, failure) == ReorderPhotos(old(album), ordering)
    {
      if ordering == [] {
        return None;
      }
      for k := 0 to |ordering|
        invariant InRange(ordering[..k])
      {
        if ordering[k] < 1 || ordering[k] > MAX_PHOTOS {
          return Some(InvalidPosition);
        }
      }
      assert ordering[..|ordering|] == ordering;
      var seen: set<int> := {};
      for k := 0 to |ordering|
        invariant forall p :: p in seen <==> p in ordering[..k]
        invariant Distinct(ordering[..k])
      {
        if ordering[k] in seen {
          return Some(Duplicated);
        }
        seen := seen + {ordering[k]};
      }
      if |album.rows| != |ordering| {
        return Some(WrongLength);
      }
      var rows := album.rows;
      var main := Find(rows, 1);
      var moved := Moved(rows, ordering);
      if exists i, j :: i in moved && j in moved && moved[i].position == moved[j].position && i != j {
        return Some(PositionTaken);
      }
      album := album.(rows := moved);
      MovedKeeps(rows, ordering);
      if main.Some? {
        var newMain := Find(moved, 1);
        if newMain == None || moved[newMain.value].publicId != rows[main.value].publicId {
          album := album.(verified := false);
        }
      }
      failure := None;
    }
  }

  // ---------------------------------------------------------------- runs

  datatype Op =
    | Set(position: int, publicId: PublicId)
    | Delete(position: int)
    | Reorder(ordering: seq<int>)
    | Verify(matched: bool)

  /** `vouched`: the first photo's public id when the face check last succeeded. */
  datatype World = World(album: Album, vouched: PublicId)

  ghost function Step(w: World, op: Op): World {
    match op
    case Set(position, publicId) => w.(album := SetPhoto(w.album, position, publicId).0)
    case Delete(position) => w.(album := DeletePhoto(w.album, position).0)
    case Reorder(ordering) => w.(album := ReorderPhotos(w.album, ordering).0)
    case Verify(matched) =>
      // refused without a first photo
      if matched && Has(w.album.rows, 1) then World(w.album.(verified := true), HeldAt(w.album.rows, 1)) else w
  }

  ghost function Run(ops: seq<Op>): World {
    if ops == [] then World(NEW_ALBUM, EMPTY) else Step(Run(ops[..|ops| - 1]), ops[|ops| - 1])
  }

  /** While the flag is on, position 1 holds the photo that was checked. */
  ghost predicate Vouched(w: World) {
    w.album.verified ==> Has(w.album.rows, 1) && HeldAt(w.album.rows, 1) == w.vouched
  }

  ghost predicate Kept(w: World) { Valid(w.album) && Vouched(w) }

  lemma SetReplacing(w: World, wanted: int, publicId: PublicId)
    requires Kept(w) && 1 <= wanted <= MAX_PHOTOS && publicId != EMPTY && Has(w.album.rows, wanted)
    ensures Kept(Step(w, Set(wanted, publicId)))
  {
    var rows := w.album.rows;
    var i :| i in rows && rows[i].position == wanted;
    HeldAtIs(rows, i);
    EveryPositionIsTaken(rows, wanted);
    EveryPositionIsTaken(rows, 1);
    ReplacedKeeps(rows, wanted, publicId);
    ReplacedMain(rows, wanted, publicId);
  }

  lemma AddingKeeps(w: World, publicId: PublicId)
    requires Kept(w) && publicId != EMPTY && |w.album.rows| < MAX_PHOTOS
    ensures var a := w.album;
            Kept(w.(album := a.(rows := a.rows[a.nextId := Photo(|a.rows| + 1, publicId)], nextId := a.nextId + 1)))
  {
    var a := w.album;
    AddedKeeps(a.rows, a.nextId, publicId);
    if Has(a.rows, 1) {
      AddedMain(a.rows, a.nextId, publicId);
    }
  }

  lemma SetAdding(w: World, wanted: int, publicId: PublicId)
    requires Kept(w) && 1 <= wanted <= MAX_PHOTOS && publicId != EMPTY && !Has(w.album.rows, wanted)
    ensures Kept(Step(w, Set(wanted, publicId)))
  {
    EveryPositionIsTaken(w.album.rows, wanted);
    AddingKeeps(w, publicId);
  }

  lemma SetKeeps(w: World, wanted: int, publicId: PublicId)
    requires Kept(w)
    ensures Kept(Step(w, Set(wanted, publicId)))
  {
    if 1 <= wanted <= MAX_PHOTOS && publicId != EMPTY {
      if Has(w.album.rows, wanted) {
        SetReplacing(w, wanted, publicId);
      } else {
        SetAdding(w, wanted, publicId);
      }
    }
  }

  lemma ReplacedMain(rows: Rows, wanted: int, publicId: PublicId)
    requires Contiguous(rows) && publicId != EMPTY && Has(rows, 1)
    ensures var rows' := Replaced(rows, wanted, publicId);
            Has(rows', 1) && HeldAt(rows', 1) == if wanted == 1 then publicId else HeldAt(rows, 1)
  {
    var rows' := Replaced(rows, wanted, publicId);
    var m :| m in rows && rows[m].position == 1;
    ReplacedKeeps(rows, wanted, publicId);
    HeldAtIs(rows, m);
    HeldAtIs(rows', m);
  }

  lemma AddedMain(rows: Rows, i: nat, publicId: PublicId)
    requires Contiguous(rows) && i !in rows && |rows| < MAX_PHOTOS && publicId != EMPTY && Has(rows, 1)
    ensures var rows' := rows[i := Photo(|rows| + 1, publicId)]; Has(rows', 1) && HeldAt(rows', 1) == HeldAt(rows, 1)
  {
    var rows' := rows[i := Photo(|rows| + 1, publicId)];
    var m :| m in rows && rows[m].position == 1;
    AddedKeeps(rows, i, publicId);
    HeldAtIs(rows, m);
    HeldAtIs(rows', m);
  }

  lemma DeleteKeeps(w: World, position: int)
    requires Kept(w)
    ensures Kept(Step(w, Delete(position)))
  {
    var rows := w.album.rows;
    if 1 <= position <= MAX_PHOTOS && Has(rows, position) {
      ClosedKeeps(rows, position);
      var rows' := Closed(rows, position);
      if position != 1 && Has(rows, 1) {
        var m :| m in rows && rows[m].position == 1;
        HeldAtIs(rows, m);
        assert m in rows' && rows'[m] == rows[m];
        HeldAtIs(rows', m);
      }
    }
  }

  lemma ReorderKeeps(w: World, ordering: seq<int>)
    requires Kept(w)
    ensures Kept(Step(w, Reorder(ordering)))
  {
    var rows := w.album.rows;
    if ordering != [] && Orders(rows, ordering) && Unique(Moved(rows, ordering)) {
      MovedKeeps(rows, ordering);
      assert Moved(rows, ordering).Keys == rows.Keys;
      EveryPositionIsTaken(rows, 1);
      EveryPositionIsTaken(Moved(rows, ordering), 1);
      var m :| m in rows && rows[m].position == 1;
      HeldAtIs(rows, m);
    }
  }

  lemma {:induction false} RunKeeps(ops: seq<Op>)
    ensures Kept(Run(ops))
  {
    if ops != [] {
      var w := Run(ops[..|ops| - 1]);
      RunKeeps(ops[..|ops| - 1]);
      match ops[|ops| - 1]
      case Set(position, publicId) => SetKeeps(w, position, publicId);
      case Delete(position) => DeleteKeeps(w, position);
      case Reorder(ordering) => ReorderKeeps(w, ordering);
      case Verify(_) =>
    }
  }

  // ---------------------------------------------------------------- results about every run

  /** After any calls a user's positions are exactly 1..n, each taken once, with at most six photos. */
  lemma PositionsAreOneToN(ops: seq<Op>)
    ensures var rows := Run(ops).album.rows;
            && |rows| <= 6 && Unique(rows)
            && forall p :: Has(rows, p) <==> 1 <= p <= |rows|
  {
    RunKeeps(ops);
    var rows := Run(ops).album.rows;
    forall p
      ensures Has(rows, p) <==> 1 <= p <= |rows|
    {
      EveryPositionIsTaken(rows, p);
    }
  }

  /** A verified user still shows the checked photo first. */
  lemma VerifiedShowsTheCheckedPhoto(ops: seq<Op>)
    requires Run(ops).album.verified
    ensures var w := Run(ops);
            exists i :: i in w.album.rows && w.album.rows[i] == Photo(1, w.vouched)
  {
    RunKeeps(ops);
    var rows := Run(ops).album.rows;
    var i :| i in rows && rows[i].position == 1;
    HeldAtIs(rows, i);
  }

  lemma OthersStay(rows: Rows, rows': Rows, p: int)
    requires Unique(rows) && Unique(rows')
    requires forall i :: i in rows && rows[i].position == p ==> i in rows' && rows'[i] == rows[i]
    requires forall i :: i in rows' && rows'[i].position == p ==> i in rows
    requires forall i :: i in rows' && i in rows ==> rows'[i].position == rows[i].position
    ensures HeldAt(rows', p) == HeldAt(rows, p)
  {
    if Has(rows, p) {
      var i :| i in rows && rows[i].position == p;
      HeldAtIs(rows, i);
      HeldAtIs(rows', i);
    }
  }

  /** What a reader sees change: the photo at `at`, and nothing elsewhere. */
  ghost predicate OnlyAt(rows: Rows, rows': Rows, at: int, publicId: PublicId) {
    HeldAt(rows', at) == publicId && forall p :: p != at ==> HeldAt(rows', p) == HeldAt(rows, p)
  }

  lemma ReplacedOnlyThere(rows: Rows, position: int, publicId: PublicId)
    requires Contiguous(rows) && publicId != EMPTY && Has(rows, position)
    ensures OnlyAt(rows, Replaced(rows, position, publicId), position, publicId)
  {
    var rows' := Replaced(rows, position, publicId);
    ReplacedKeeps(rows, position, publicId);
    var i :| i in rows && rows[i].position == position;
    HeldAtIs(rows', i);
    forall p | p != position
      ensures HeldAt(rows', p) == HeldAt(rows, p)
    {
      OthersStay(rows, rows', p);
    }
  }

  lemma AddedOnlyThere(rows: Rows, i: nat, publicId: PublicId)
    requires Contiguous(rows) && i !in rows && |rows| < MAX_PHOTOS && publicId != EMPTY
    ensures OnlyAt(rows, rows[i := Photo(|rows| + 1, publicId)], |rows| + 1, publicId)
  {
    var rows' := rows[i := Photo(|rows| + 1, publicId)];
    AddedKeeps(rows, i, publicId);
    HeldAtIs(rows', i);
    forall p | p != |rows| + 1
      ensures HeldAt(rows', p) == HeldAt(rows, p)
    {
      OthersStay(rows, rows', p);
    }
  }

  ghost predicate Landed(a: Album, wanted: int, publicId: PublicId) {
    var (a', res) := SetPhoto(a, wanted, publicId);
    && res.Ok?
    && (wanted <= |a.rows| ==> res.value == (wanted, HeldAt(a.rows, wanted)) && HeldAt(a.rows, wanted) != EMPTY)
    && (wanted > |a.rows| ==> res.value == (|a.rows| + 1, EMPTY))
    && OnlyAt(a.rows, a'.rows, res.value.0, publicId)
  }

  lemma SettingLands(a: Album, wanted: int, publicId: PublicId)
    requires 1 <= wanted <= MAX_PHOTOS && publicId != EMPTY && Valid(a)
    ensures Landed(a, wanted, publicId)
  {
    EveryPositionIsTaken(a.rows, wanted);
    if wanted <= |a.rows| {
      var i :| i in a.rows && a.rows[i].position == wanted;
      HeldAtIs(a.rows, i);
      ReplacedOnlyThere(a.rows, wanted, publicId);
    } else {
      AddedOnlyThere(a.rows, a.nextId, publicId);
    }
  }

  /** After any calls, setting never leaves a gap: it replaces at the position wanted or adds right after the last. */
  lemma SettingNeverLeavesAGap(ops: seq<Op>, wanted: int, publicId: PublicId)
    requires 1 <= wanted <= MAX_PHOTOS && publicId != EMPTY
    ensures Landed(Run(ops).album, wanted, publicId)
  {
    RunKeeps(ops);
    SettingLands(Run(ops).album, wanted, publicId);
  }
}
