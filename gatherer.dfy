/**
 * The plugin's collection of listings between uploads (`Gatherer`). Listings arrive one at a
 * time with the batch number the game gave them and are appended to that batch's list; at
 * most every ten seconds the update handler takes every batch out of the map and hands each
 * one, converted listing by listing, to an upload task.
 *
 * The dictionary is modelled sequentially, the timer as the clock reading (in `TimeSpan`
 * ticks of 100 ns) at its last restart with the current reading passed in, and the upload
 * tasks as the returned map from batch number to the converted batch.
 */
module Gathering {
  import Uploadable

  type Listing = Uploadable.ClientListing

  /** Ten seconds in `TimeSpan` ticks. */
  const UploadInterval: int := 100_000_000

  /** A received listing with its batch number. */
  type Arrival = (int, Listing)

  /** The listings of batch `b`, in arrival order. */
  function BatchOf(log: seq<Arrival>, b: int): (r: seq<Listing>)
    ensures |r| <= |log|
  {
    if |log| == 0 then []
    else BatchOf(log[..|log| - 1], b) + (if log[|log| - 1].0 == b then [log[|log| - 1].1] else [])
  }

  /** The batch numbers that occur in the log. */
  function BatchNumbers(log: seq<Arrival>): (r: set<int>)
    ensures forall b :: b in r <==> exists i :: 0 <= i < |log| && log[i].0 == b
  {
    if |log| == 0 then {}
    else
      var init := log[..|log| - 1];
      assert forall i :: 0 <= i < |init| ==> init[i] == log[i];
      BatchNumbers(init) + {log[|log| - 1].0}
  }

  /** The log grouped by batch number, each batch in arrival order. */
  function Grouped(log: seq<Arrival>): map<int, seq<Listing>> {
    map b | b in BatchNumbers(log) :: BatchOf(log, b)
  }

  /** A batch that occurs in the log is not empty. */
  lemma {:induction false} BatchOfNonEmpty(log: seq<Arrival>, b: int)
    requires b in BatchNumbers(log)
    ensures |BatchOf(log, b)| > 0
  {
    var init := log[..|log| - 1];
    if log[|log| - 1].0 != b {
      var i :| 0 <= i < |log| && log[i].0 == b;
      assert init[i] == log[i];
      BatchOfNonEmpty(init, b);
    }
  }

  /** Every listing of the log is in its batch, and each batch holds only listings of the log. */
  lemma {:induction false} BatchOfMembers(log: seq<Arrival>, b: int, x: Listing)
    ensures x in BatchOf(log, b) <==> (b, x) in log
  {
    if |log| > 0 {
      var init := log[..|log| - 1];
      BatchOfMembers(init, b, x);
      assert log == init + [log[|log| - 1]];
    }
  }

  /** A batch number that does not occur in the log has no listings. */
  lemma {:induction false} BatchOfAbsent(log: seq<Arrival>, b: int)
    requires b !in BatchNumbers(log)
    ensures BatchOf(log, b) == []
  {
    if |log| > 0 {
      var init := log[..|log| - 1];
      assert forall i :: 0 <= i < |init| ==> init[i] == log[i];
      BatchOfAbsent(init, b);
    }
  }

  /** One more arrival lengthens its own batch by one and no other. */
  lemma OneMoreArrival(log: seq<Arrival>, a: Arrival, b: int)
    ensures BatchOf(log + [a], b) == BatchOf(log, b) + (if a.0 == b then [a.1] else [])
  {
    assert (log + [a])[..|log|] == log;
  }

  /** Grouping one more arrival appends it to its batch, which it creates when new. */
  lemma GroupedSnoc(log: seq<Arrival>, a: Arrival)
    ensures Grouped(log + [a]) ==
      Grouped(log)[a.0 := (if a.0 in Grouped(log) then Grouped(log)[a.0] else []) + [a.1]]
  {
    var g, g2 := Grouped(log), Grouped(log + [a]);
    var expected := g[a.0 := (if a.0 in g then g[a.0] else []) + [a.1]];
    assert BatchNumbers(log + [a]) == BatchNumbers(log) + {a.0} by {
      assert (log + [a])[..|log|] == log;
    }
    forall b | b in g2
      ensures b in expected && g2[b] == expected[b]
    {
      OneMoreArrival(log, a, b);
      if b == a.0 && a.0 !in g {
        BatchOfAbsent(log, b);
      }
    }
    assert g2.Keys == expected.Keys;
  }

  class Gatherer {
    /** The batch lists, keyed by batch number. */
    var batches: map<int, seq<Listing>>
    /** The clock reading when the upload timer was last started. */
    var timerStart: int
    /** The listings received since the last upload, with their batch numbers. */
    ghost var received: seq<Arrival>

    /** The batch map is the received listings grouped by batch number, in arrival order. */
    ghost predicate Valid()
      reads this
    {
      batches == Grouped(received)
    }

    /** Creation starts the timer with an empty map. */
    constructor(now: int)
      ensures Valid()
      ensures batches == map[] && timerStart == now && received == []
    {
      batches := map[];
      timerStart := now;
      received := [];
    }

    /** `OnListing`: append to the listing's batch, creating the batch if it is new. */
    method OnListing(listing: Listing, batch: int)
      requires Valid()
      modifies this
      ensures Valid()
      ensures received == old(received) + [(batch, listing)]
      ensures batches == old(batches)[batch := (if batch in old(batches) then old(batches)[batch] else []) + [listing]]
      ensures timerStart == old(timerStart)
    {
      if batch !in batches {
        batches := batches[batch := []];
      }
      batches := batches[batch := batches[batch] + [listing]];
      GroupedSnoc(received, (batch, listing));
      received := received + [(batch, listing)];
    }

    /**
     * `OnUpdate`: nothing happens before ten seconds have passed on the timer; afterwards the
     * timer restarts and every batch is removed from the map and uploaded, converted.
     */
    method OnUpdate(now: int) returns (uploads: map<int, seq<Uploadable.UploadableListing>>)
      requires Valid()
      modifies this
      ensures Valid()
      ensures now - old(timerStart) < UploadInterval ==>
        uploads == map[] && batches == old(batches) && timerStart == old(timerStart) && received == old(received)
      ensures now - old(timerStart) >= UploadInterval ==> timerStart == now && batches == map[] && received == []
      ensures now - old(timerStart) >= UploadInterval ==> uploads.Keys == old(batches).Keys
      ensures now - old(timerStart) >= UploadInterval ==>
        forall b :: b in uploads ==> uploads[b] == Converted(old(batches)[b])
    {
      uploads := map[];
      if now - timerStart < UploadInterval {
        return;
      }
      timerStart := now;
      var pending := batches.Keys;
      ghost var snapshot := batches;
      assert batches == map b | b in pending :: snapshot[b];
      while pending != {}
        invariant timerStart == now
        invariant pending <= snapshot.Keys
        invariant batches == map b | b in pending :: snapshot[b]
        invariant uploads.Keys == snapshot.Keys - pending
        invariant forall b :: b in uploads ==> uploads[b] == Converted(snapshot[b])
        decreases pending
      {
        var b :| b in pending;
        var listings := batches[b];
        batches := batches - {b};
        uploads := uploads[b := Converted(listings)];
        pending := pending - {b};
      }
      received := [];
      assert batches == map[];
      assert Grouped(received) == map[];
    }
  }

  /** One `UploadableListing` per listing of the batch, in order. */
  function Converted(listings: seq<Listing>): (r: seq<Uploadable.UploadableListing>)
    ensures |r| == |listings|
    ensures forall i :: 0 <= i < |listings| ==> r[i] == Uploadable.FromClient(listings[i])
  {
    seq(|listings|, i requires 0 <= i < |listings| => Uploadable.FromClient(listings[i]))
  }
}
