/** What a reader of an album sees before and after each call: which photo is where, and whether it is vouched for. */
module PhotoViews {
  import opened Common
  import opened Photos

  lemma HeldElsewhere(rows: Rows, p: int)
    requires Contiguous(rows)
    ensures HeldAt(rows, p) == EMPTY <==> p < 1 || p > |rows|
  {
    EveryPositionIsTaken(rows, p);
    if Has(rows, p) {
      var i :| i in rows && rows[i].position == p;
      HeldAtIs(rows, i);
    }
  }

  // ---------------------------------------------------------------- deleting

  /** The photo that comes to stand at `p` when the one at `position` goes. */
  function NextTo(position: int, p: int): int { if p < position then p else p + 1 }

  lemma ClosedHolds(rows: Rows, position: int, p: int)
    requires Contiguous(rows) && 1 <= position <= |rows| && p >= 1
    ensures HeldAt(Closed(rows, position), p) == HeldAt(rows, NextTo(position, p))
  {
    var rows' := Closed(rows, position);
    EveryPositionIsTaken(rows, position);
    ClosedKeeps(rows, position);
    EveryPositionIsTaken(rows', p);
    EveryPositionIsTaken(rows, NextTo(position, p));
    if p <= |rows'| {
      var i :| i in rows && rows[i].position == NextTo(position, p);
      HeldAtIs(rows, i);
      assert i in rows' && rows'[i].position == p;
      HeldAtIs(rows', i);
    }
  }

  /**
   Deleting gives back what was at the position, or nothing if no photo was; the later photos move up by one,
   the others stay, and only the first photo takes the verification with it.
   */
  lemma DeletingCloses(a: Album, position: int)
    requires Valid(a)
    ensures var (a', res) := DeletePhoto(a, position);
            if position < 1 || position > 6 then a' == a && res == Err(InvalidPosition)
            else if position > |a.rows| then a' == a && res == Ok(EMPTY)
            else
              && res == Ok(HeldAt(a.rows, position)) && HeldAt(a.rows, position) != EMPTY
              && |a'.rows| == |a.rows| - 1 && (a'.verified <==> a.verified && position != 1)
              && forall p :: p >= 1 ==> HeldAt(a'.rows, p) == HeldAt(a.rows, if p < position then p else p + 1)
  {
    EveryPositionIsTaken(a.rows, position);
    if 1 <= position <= |a.rows| {
      ClosedKeeps(a.rows, position);
      HeldElsewhere(a.rows, position);
      forall p | p >= 1
        ensures HeldAt(Closed(a.rows, position), p) == HeldAt(a.rows, NextTo(position, p))
      {
        ClosedHolds(a.rows, position, p);
      }
    }
  }

  // ---------------------------------------------------------------- reordering

  lemma MovedHolds(rows: Rows, ordering: seq<int>, p: int)
    requires Contiguous(rows) && Unique(Moved(rows, ordering)) && |ordering| == |rows| && 1 <= p <= |rows|
    ensures HeldAt(Moved(rows, ordering), Place(ordering, p)) == HeldAt(rows, p)
  {
    EveryPositionIsTaken(rows, p);
    var i :| i in rows && rows[i].position == p;
    HeldAtIs(rows, i);
    HeldAtIs(Moved(rows, ordering), i);
  }

  /** Each photo named stands where the ordering puts it, each one left out where it was. */
  ghost predicate Follows(rows: Rows, rows': Rows, ordering: seq<int>) {
    && |rows'| == |rows|
    && (forall k :: 0 <= k < |ordering| && ordering[k] <= |rows| ==> HeldAt(rows', k + 1) == HeldAt(rows, ordering[k]))
    && (forall p :: 1 <= p <= |rows| && p !in ordering ==> HeldAt(rows', p) == HeldAt(rows, p))
  }

  lemma MovedFollows(rows: Rows, ordering: seq<int>)
    requires Contiguous(rows) && Orders(rows, ordering) && Unique(Moved(rows, ordering))
    ensures Follows(rows, Moved(rows, ordering), ordering)
  {
    var rows' := Moved(rows, ordering);
    assert rows'.Keys == rows.Keys;
    assert |rows'| == |rows'.Keys|;
    forall p | 1 <= p <= |rows|
      ensures HeldAt(rows', Place(ordering, p)) == HeldAt(rows, p)
    {
      MovedHolds(rows, ordering, p);
    }
    forall k | 0 <= k < |ordering| && ordering[k] <= |rows|
      ensures HeldAt(rows', k + 1) == HeldAt(rows, ordering[k])
    {
      RankFinds(ordering, ordering[k]);
      assert Place(ordering, ordering[k]) == k + 1;
    }
    forall p | 1 <= p <= |rows| && p !in ordering
      ensures HeldAt(rows', p) == HeldAt(rows, p)
    {
      RankFinds(ordering, p);
    }
  }

  /**
   An ordering that commits is followed by what is stored, and takes the verification away unless the first photo
   shows the same picture; one that does not commit changes nothing and says which check failed.
   */
  lemma ReorderingIsStored(a: Album, ordering: seq<int>)
    requires Valid(a) && ordering != []
    ensures var (a', failure) := ReorderPhotos(a, ordering);
            && (failure == Some(InvalidPosition) <==> !InRange(ordering))
            && (failure == Some(Duplicated) <==> InRange(ordering) && !Distinct(ordering))
            && (failure == Some(WrongLength) <==>
                  InRange(ordering) && Distinct(ordering) && |ordering| != |a.rows|)
            && (failure == Some(PositionTaken) <==> Orders(a.rows, ordering) && !LeavesFree(a.rows, ordering))
            && (failure.Some? ==> a' == a)
            && (failure == None ==>
                  && Follows(a.rows, a'.rows, ordering)
                  && (a'.verified <==> a.verified && HeldAt(a'.rows, 1) == HeldAt(a.rows, 1)))
  {
    if Orders(a.rows, ordering) {
      ReorderCommitsIff(a, ordering);
      HeldElsewhere(a.rows, 1);
      if Unique(Moved(a.rows, ordering)) {
        MovedFollows(a.rows, ordering);
      }
    }
  }

  lemma EmptyOrderingIsNothing(a: Album)
    ensures ReorderPhotos(a, []) == (a, None)
  {
  }

  // ---------------------------------------------------------------- setting and vouching

  /**
   Setting takes the verification away exactly if it shows another first photo; a wrong position or an empty id
   changes nothing.
   */
  lemma SettingKeepsTheFlag(a: Album, wanted: int, publicId: PublicId)
    requires Valid(a)
    ensures var (a', res) := SetPhoto(a, wanted, publicId);
            && (res == Err(InvalidPosition) <==> wanted < 1 || wanted > 6)
            && (res == Err(EmptyPublicId) <==> 1 <= wanted <= 6 && publicId == EMPTY)
            && (res.Err? ==> a' == a && (wanted < 1 || wanted > 6 || publicId == EMPTY))
            && (res.Ok? && a.rows != map[] ==>
                  (a'.verified <==> a.verified && HeldAt(a'.rows, 1) == HeldAt(a.rows, 1)))
            && (res.Ok? && a.rows == map[] ==> a'.verified == a.verified)
  {
    if 1 <= wanted <= MAX_PHOTOS && publicId != EMPTY && a.rows != map[] {
      SettingLands(a, wanted, publicId);
      HeldElsewhere(a.rows, 1);
      HeldElsewhere(a.rows, wanted);
    }
  }

  /** The face check vouches for the first photo as it is, and for nothing without one. */
  lemma CheckVouches(w: World, matched: bool)
    requires Valid(w.album)
    ensures var w' := Step(w, Verify(matched));
            && w'.album.rows == w.album.rows
            && (matched && w.album.rows != map[] ==> w'.album.verified && w'.vouched == HeldAt(w.album.rows, 1))
            && (!matched || w.album.rows == map[] ==> w' == w)
  {
    EveryPositionIsTaken(w.album.rows, 1);
  }

  /** Each call of a run is the transaction it stands for. */
  lemma CallsAreTransactions(w: World, op: Op)
    requires !op.Verify?
    ensures var w' := Step(w, op);
            && w'.vouched == w.vouched
            && (op.Set? ==> w'.album == SetPhoto(w.album, op.position, op.publicId).0)
            && (op.Delete? ==> w'.album == DeletePhoto(w.album, op.position).0)
            && (op.Reorder? ==> w'.album == ReorderPhotos(w.album, op.ordering).0)
  {
  }
}
