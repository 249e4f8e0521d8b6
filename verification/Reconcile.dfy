/**
 Replacing the children of one parent in a table, keyed by slug: upsert each entry, then delete the rest.

 Row ids are given by a sequence that advances on every upsert, new row or not, and are never given twice.
 Slugs stand for texts.
 */
module Reconcile {
  import opened Common

  type Slug = nat

  datatype Row<B> = Row(parent: nat, slug: Slug, idx: nat, body: B)

  datatype Entry<B> = Entry(slug: Slug, body: B)

  datatype Table<B> = Table(rows: map<nat, Row<B>>, next: nat)

  ghost predicate Named<B>(t: Table<B>, i: nat, parent: nat, slug: Slug) {
    i in t.rows && t.rows[i].parent == parent && t.rows[i].slug == slug
  }

  /** The table's unique constraint, and ids all behind the sequence. */
  ghost predicate Good<B>(t: Table<B>) {
    && (forall i, j ::
          i in t.rows && j in t.rows && t.rows[i].parent == t.rows[j].parent && t.rows[i].slug == t.rows[j].slug ==>
            i == j)
    && (forall i :: i in t.rows ==> i < t.next)
  }

  ghost function IdOf<B>(t: Table<B>, parent: nat, slug: Slug): Option<nat> {
    if exists i :: Named(t, i, parent, slug) then
      var i :| Named(t, i, parent, slug);
      Some(i)
    else None
  }

  lemma IdOfNamed<B>(t: Table<B>, i: nat, parent: nat, slug: Slug)
    requires Good(t)
    ensures IdOf(t, parent, slug) == Some(i) <==> Named(t, i, parent, slug)
  {
  }

  // ---------------------------------------------------------------- one row

  /** INSERT ... ON CONFLICT (parent, slug) DO UPDATE, with the id it returns. */
  ghost function Upsert<B>(t: Table<B>, parent: nat, slug: Slug, idx: nat, body: B): (Table<B>, nat) {
    var id := IdOf(t, parent, slug).UnwrapOr(t.next);
    (Table(t.rows[id := Row(parent, slug, idx, body)], t.next + 1), id)
  }

  lemma UpsertKeepsGood<B>(t: Table<B>, parent: nat, slug: Slug, idx: nat, body: B)
    requires Good(t)
    ensures Good(Upsert(t, parent, slug, idx, body).0)
    ensures Named(Upsert(t, parent, slug, idx, body).0, Upsert(t, parent, slug, idx, body).1, parent, slug)
  {
    var (t', id) := Upsert(t, parent, slug, idx, body);
    forall i, j | i in t'.rows && j in t'.rows && t'.rows[i].parent == t'.rows[j].parent
                  && t'.rows[i].slug == t'.rows[j].slug
      ensures i == j
    {
      if i == id && j != id {
        IdOfNamed(t, j, parent, slug);
      } else if i != id && j == id {
        IdOfNamed(t, i, parent, slug);
      }
    }
  }

  /** `t'` has the rows of `t` under the same ids and names, those of other parents untouched, and perhaps new ones. */
  ghost predicate Extends<B>(t: Table<B>, t': Table<B>, parent: nat) {
    && t.next <= t'.next
    && (forall i :: i in t.rows ==> Named(t', i, t.rows[i].parent, t.rows[i].slug))
    && (forall i :: i in t.rows && t.rows[i].parent != parent ==> t'.rows[i] == t.rows[i])
    && (forall i :: i in t'.rows && i !in t.rows ==> t'.rows[i].parent == parent && i >= t.next)
  }

  lemma UpsertExtends<B>(t: Table<B>, parent: nat, slug: Slug, idx: nat, body: B)
    requires Good(t)
    ensures Extends(t, Upsert(t, parent, slug, idx, body).0, parent)
  {
  }

  // ---------------------------------------------------------------- the loop

  function Slugs<B>(entries: seq<Entry<B>>): seq<Slug> {
    seq(|entries|, k requires 0 <= k < |entries| => entries[k].slug)
  }

  ghost predicate Distinct<B>(entries: seq<Entry<B>>) {
    forall j, k :: 0 <= j < k < |entries| ==> entries[j].slug != entries[k].slug
  }

  ghost function UpsertAll<B>(t: Table<B>, parent: nat, entries: seq<Entry<B>>): Table<B> {
    if entries == [] then t
    else
      var n := |entries| - 1;
      Upsert(UpsertAll(t, parent, entries[..n]), parent, entries[n].slug, n, entries[n].body).0
  }

  /** Row `k` is stored as asked. */
  ghost predicate Stored<B>(t: Table<B>, parent: nat, entries: seq<Entry<B>>, k: nat)
    requires k < |entries|
  {
    exists i :: i in t.rows && t.rows[i] == Row(parent, entries[k].slug, k, entries[k].body)
  }

  lemma {:induction false} UpsertAllExtends<B>(t: Table<B>, parent: nat, entries: seq<Entry<B>>)
    requires Good(t)
    ensures Good(UpsertAll(t, parent, entries)) && Extends(t, UpsertAll(t, parent, entries), parent)
  {
    if entries != [] {
      var n := |entries| - 1;
      var before := UpsertAll(t, parent, entries[..n]);
      UpsertAllExtends(t, parent, entries[..n]);
      UpsertKeepsGood(before, parent, entries[n].slug, n, entries[n].body);
      UpsertExtends(before, parent, entries[n].slug, n, entries[n].body);
    }
  }

  lemma UpsertKeepsStored<B>(t: Table<B>, parent: nat, entries: seq<Entry<B>>, n: nat, k: nat)
    requires Good(t) && n < |entries| && k < n && Distinct(entries)
    requires Stored(t, parent, entries[..n], k)
    ensures Stored(Upsert(t, parent, entries[n].slug, n, entries[n].body).0, parent, entries, k)
  {
    var t' := Upsert(t, parent, entries[n].slug, n, entries[n].body).0;
    var i :| i in t.rows && t.rows[i] == Row(parent, entries[..n][k].slug, k, entries[..n][k].body);
    assert entries[k].slug != entries[n].slug;
    assert t'.rows[i] == t.rows[i];
  }

  lemma {:induction false} UpsertAllStores<B>(t: Table<B>, parent: nat, entries: seq<Entry<B>>, k: nat)
    requires Good(t) && Distinct(entries) && k < |entries|
    ensures Stored(UpsertAll(t, parent, entries), parent, entries, k)
  {
    var n := |entries| - 1;
    var before := UpsertAll(t, parent, entries[..n]);
    UpsertAllExtends(t, parent, entries[..n]);
    UpsertKeepsGood(before, parent, entries[n].slug, n, entries[n].body);
    if k < n {
      UpsertAllStores(t, parent, entries[..n], k);
      UpsertKeepsStored(before, parent, entries, n, k);
    }
  }

  lemma {:induction false} UpsertAllAddsOnlyEntries<B>(t: Table<B>, parent: nat, entries: seq<Entry<B>>, i: nat)
    requires Good(t) && i in UpsertAll(t, parent, entries).rows && i !in t.rows
    ensures UpsertAll(t, parent, entries).rows[i].slug in Slugs(entries)
  {
    if entries != [] {
      var n := |entries| - 1;
      var before := UpsertAll(t, parent, entries[..n]);
      UpsertAllExtends(t, parent, entries[..n]);
      if i in before.rows {
        UpsertAllAddsOnlyEntries(t, parent, entries[..n], i);
        assert forall k :: 0 <= k < n ==> Slugs(entries)[k] == Slugs(entries[..n])[k];
        UpsertExtends(before, parent, entries[n].slug, n, entries[n].body);
      } else {
        assert Slugs(entries)[n] == entries[n].slug;
      }
    }
  }

  // ---------------------------------------------------------------- the deletion

  /** DELETE ... WHERE parent = $1 AND slug <> ALL($2). */
  function Pruned<B>(t: Table<B>, parent: nat, slugs: seq<Slug>): Table<B> {
    t.(rows := map i | i in t.rows && !(t.rows[i].parent == parent && t.rows[i].slug !in slugs) :: t.rows[i])
  }

  /** The whole reconciliation; nothing is deleted for an empty list. */
  ghost function Reconciled<B>(t: Table<B>, parent: nat, entries: seq<Entry<B>>): Table<B> {
    if entries == [] then t else Pruned(UpsertAll(t, parent, entries), parent, Slugs(entries))
  }

  // ---------------------------------------------------------------- what it achieves

  /** The parent's rows by ascending idx are exactly the entries. */
  ghost predicate Lists<B>(t: Table<B>, parent: nat, entries: seq<Entry<B>>) {
    && (forall k :: 0 <= k < |entries| ==> Stored(t, parent, entries, k))
    && (forall i :: i in t.rows && t.rows[i].parent == parent ==>
          t.rows[i].idx < |entries|
              && t.rows[i] == Row(parent, entries[t.rows[i].idx].slug, t.rows[i].idx, entries[t.rows[i].idx].body))
  }

  /** What reconciling one parent may do to the table. */
  ghost predicate Touches<B>(t: Table<B>, t': Table<B>, parent: nat) {
    && Good(t') && t.next <= t'.next
    && (forall i :: i in t.rows && t.rows[i].parent != parent ==> i in t'.rows && t'.rows[i] == t.rows[i])
    && (forall i :: i in t'.rows && t'.rows[i].parent != parent ==> i in t.rows)
    && (forall i :: i in t'.rows && i in t.rows ==> Named(t', i, t.rows[i].parent, t.rows[i].slug))
    && (forall i :: i in t'.rows && i !in t.rows ==> i >= t.next)
  }

  lemma ReconciledTouches<B>(t: Table<B>, parent: nat, entries: seq<Entry<B>>)
    requires Good(t)
    ensures Touches(t, Reconciled(t, parent, entries), parent)
  {
    UpsertAllExtends(t, parent, entries);
  }

  /** The rows left are those of the list, each once, in its order. */
  lemma ReconciledLists<B>(t: Table<B>, parent: nat, entries: seq<Entry<B>>)
    requires Good(t) && Distinct(entries) && entries != []
    ensures Lists(Reconciled(t, parent, entries), parent, entries)
  {
    var all, t' := UpsertAll(t, parent, entries), Reconciled(t, parent, entries);
    UpsertAllExtends(t, parent, entries);
    forall k | 0 <= k < |entries|
      ensures Stored(t', parent, entries, k) && Stored(all, parent, entries, k)
    {
      UpsertAllStores(t, parent, entries, k);
      var i :| i in all.rows && all.rows[i] == Row(parent, entries[k].slug, k, entries[k].body);
      assert Slugs(entries)[k] == entries[k].slug;
      assert i in t'.rows && t'.rows[i] == all.rows[i];
    }
    forall i | i in t'.rows && t'.rows[i].parent == parent
      ensures t'.rows[i].idx < |entries|
      ensures t'.rows[i] == Row(parent, entries[t'.rows[i].idx].slug, t'.rows[i].idx, entries[t'.rows[i].idx].body)
    {
      var k :| 0 <= k < |entries| && Slugs(entries)[k] == t'.rows[i].slug;
      assert Stored(all, parent, entries, k);
      var j :| j in all.rows && all.rows[j] == Row(parent, entries[k].slug, k, entries[k].body);
      assert i == j;
    }
  }

  /** A slug that is still listed keeps the id it had; one that is not has none. */
  lemma ReconciledKeepsIds<B>(t: Table<B>, parent: nat, entries: seq<Entry<B>>, i: nat)
    requires Good(t) && entries != [] && i in t.rows && t.rows[i].parent == parent
    ensures var t' := Reconciled(t, parent, entries);
            if t.rows[i].slug in Slugs(entries) then Named(t', i, parent, t.rows[i].slug)
            else i !in t'.rows && IdOf(t', parent, t.rows[i].slug) == None
  {
    UpsertAllExtends(t, parent, entries);
  }

  /** Two entries of the same slug cannot both be listed, so the list is stored only if its slugs differ. */
  lemma ListsNeedsDistinct<B>(t: Table<B>, parent: nat, entries: seq<Entry<B>>)
    requires Good(t) && Lists(t, parent, entries)
    ensures Distinct(entries)
  {
    forall j, k | 0 <= j < k < |entries|
      ensures entries[j].slug != entries[k].slug
    {
      assert Stored(t, parent, entries, j) && Stored(t, parent, entries, k);
    }
  }

  lemma {:induction false} UpsertAllOfStored<B>(t: Table<B>, parent: nat, entries: seq<Entry<B>>, all: seq<Entry<B>>)
    requires Good(t) && entries <= all
    requires forall k :: 0 <= k < |all| ==> Stored(t, parent, all, k)
    ensures UpsertAll(t, parent, entries).rows == t.rows && Good(UpsertAll(t, parent, entries))
  {
    if entries != [] {
      var n := |entries| - 1;
      var before := UpsertAll(t, parent, entries[..n]);
      UpsertAllOfStored(t, parent, entries[..n], all);
      assert Stored(t, parent, all, n);
      var i :| i in t.rows && t.rows[i] == Row(parent, all[n].slug, n, all[n].body);
      IdOfNamed(before, i, parent, entries[n].slug);
      UpsertKeepsGood(before, parent, entries[n].slug, n, entries[n].body);
    }
  }

  /** Reconciling what is already stored changes no row. */
  lemma ReconciledAgain<B>(t: Table<B>, parent: nat, entries: seq<Entry<B>>)
    requires Good(t) && (entries == [] || Lists(t, parent, entries))
    ensures Reconciled(t, parent, entries).rows == t.rows
  {
    if entries != [] {
      UpsertAllOfStored(t, parent, entries, entries);
      forall i | i in t.rows && t.rows[i].parent == parent
        ensures t.rows[i].slug in Slugs(entries)
      {
        assert Slugs(entries)[t.rows[i].idx] == t.rows[i].slug;
      }
    }
  }

  lemma {:induction false} UpsertAllBodies<B>(t: Table<B>, parent: nat, entries: seq<Entry<B>>, i: nat)
    requires i in UpsertAll(t, parent, entries).rows
    ensures var body := UpsertAll(t, parent, entries).rows[i].body;
            (i in t.rows && t.rows[i].body == body) || exists k :: 0 <= k < |entries| && entries[k].body == body
  {
    if entries != [] {
      var n := |entries| - 1;
      var before, after := UpsertAll(t, parent, entries[..n]), UpsertAll(t, parent, entries);
      if i in before.rows && after.rows[i] == before.rows[i] {
        UpsertAllBodies(t, parent, entries[..n], i);
        if k :| 0 <= k < n && entries[..n][k].body == after.rows[i].body {
          assert entries[k].body == after.rows[i].body;
        }
      } else {
        assert entries[n].body == after.rows[i].body;
      }
    }
  }

  /** No body comes from anywhere but the table and the list. */
  lemma ReconciledBodies<B>(t: Table<B>, parent: nat, entries: seq<Entry<B>>, i: nat)
    requires i in Reconciled(t, parent, entries).rows
    ensures var body := Reconciled(t, parent, entries).rows[i].body;
            (i in t.rows && t.rows[i].body == body) || exists k :: 0 <= k < |entries| && entries[k].body == body
  {
    if entries != [] {
      UpsertAllBodies(t, parent, entries, i);
    }
  }
}
