/**
 The room's pub/sub channel: one ordered log that both peers write, each reading it from its own
 cursor and skipping what it wrote itself.  A reader's cursor starts where it subscribes: what was
 published before never reaches it.

 Once both have subscribed this is to each a FIFO of the other's messages, which is how module Tandem sees it.
 */
module Transport {
  import opened Common

  datatype Envelope<T> = Envelope(from: nat, body: T)

  /** What `self` has still to read of `log`: the messages it did not send. */
  function Unread<T>(log: seq<Envelope<T>>, self: nat): seq<T> {
    if log == [] then []
    else if log[0].from == self then Unread(log[1..], self)
    else [log[0].body] + Unread(log[1..], self)
  }

  lemma {:induction false} UnreadAppend<T>(log: seq<Envelope<T>>, e: Envelope<T>, self: nat)
    ensures Unread(log + [e], self) == Unread(log, self) + if e.from == self then [] else [e.body]
  {
    if log == [] {
      assert log + [e] == [e];
      assert [e][1..] == [];
    } else {
      assert (log + [e])[1..] == log[1..] + [e];
      UnreadAppend(log[1..], e, self);
    }
  }

  class Topic<T> {
    var log: seq<Envelope<T>>

    constructor ()
      ensures log == []
    {
      log := [];
    }

    /** Opening the room: nothing published so far will be read. */
    method Subscribe() returns (cursor: nat)
      ensures cursor == |log|
      ensures forall self: nat :: Unread(log[cursor..], self) == []
    {
      cursor := |log|;
    }

    /** Publishing appends to the other readers' queues and to no part of one's own. */
    method Publish(self: nat, body: T)
      modifies this
      ensures forall reader: nat, cursor: nat :: cursor <= |old(log)| ==>
                && cursor <= |log|
                && Unread(log[cursor..], reader) ==
                   old(Unread(log[cursor..], reader)) + if reader == self then [] else [body]
    {
      ghost var before := log;
      log := log + [Envelope(self, body)];
      forall reader: nat, cursor: nat | cursor <= |before|
        ensures Unread(log[cursor..], reader) ==
                Unread(before[cursor..], reader) + if reader == self then [] else [body]
      {
        assert log[cursor..] == before[cursor..] + [Envelope(self, body)];
        UnreadAppend(before[cursor..], Envelope(self, body), reader);
      }
    }

    /** The forwarding loop: drop own echoes, hand over the next message of a peer. */
    method Receive(self: nat, cursor: nat) returns (cursor': nat, body: Option<T>)
      requires cursor <= |log|
      ensures cursor <= cursor' <= |log|
      ensures match body
              case None => Unread(log[cursor..], self) == [] && cursor' == |log|
              case Some(b) => Unread(log[cursor..], self) == [b] + Unread(log[cursor'..], self)
    {
      cursor' := cursor;
      while cursor' < |log|
        invariant cursor <= cursor' <= |log|
        invariant Unread(log[cursor..], self) == Unread(log[cursor'..], self)
      {
        var e := log[cursor'];
        assert log[cursor'..][1..] == log[cursor' + 1..];
        cursor' := cursor' + 1;
        if e.from != self {
          return cursor', Some(e.body);
        }
      }
      body := None;
    }
  }
}
