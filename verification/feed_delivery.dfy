/**
 Handing a batch to its channels: the duplicate filter runs first, and only then is the
 routing table read. When that read fails the filter has already taken note of the rows.
 */
module FeedDelivery {
  import opened PresenceDedup

  class Delivery {
    const dedup: Recent
    var posted: seq<Row>

    constructor (dedup: Recent)
      ensures this.dedup == dedup && posted == []
    {
      this.dedup := dedup;
      posted := [];
    }

    /**
     Delivers the rows of `all` from `seen` on; `routed` is whether the routing table can be
     read. `kept` are the rows the filter lets through, posted unless that read fails.
     */
    method DeliverRouted(all: seq<Arrival>, seen: nat, routed: bool) returns (ok: bool, kept: seq<Row>)
      requires seen <= |all| && Timed(all) && dedup.recent == RecentAfter(all, seen)
      modifies this, dedup
      ensures dedup.recent == RecentAfter(all, |all|)
      ensures KeptRows(all, |all|) == KeptRows(all, seen) + kept
      ensures ok <==> routed || kept == []
      ensures posted == old(posted) + if ok then kept else []
    {
      kept := dedup.DropDuplicates(all, seen);
      if kept == [] {
        return true, kept;
      }
      if !routed {
        return false, kept;
      }
      posted := posted + kept;
      return true, kept;
    }
  }

  predicate SameKey(a: Arrival, b: Arrival) { DupKey(a.row).Some? && DupKey(a.row) == DupKey(b.row) }

  /** Position `j` holds a kept row with the key of `r`. */
  predicate KeptTwin(all: seq<Arrival>, j: nat, r: nat)
    requires j < r < |all|
  {
    SameKey(all[j], all[r]) && Kept(all, j)
  }

  /** Row `f` is kept, and no later row before `r` that has the key of `r` is. */
  predicate LastKept(all: seq<Arrival>, f: nat, r: nat)
    requires f < r < |all|
  {
    Kept(all, f) && forall j: nat :: f < j < r ==> !KeptTwin(all, j, r)
  }

  lemma DroppedByNearRow(all: seq<Arrival>, r: nat) returns (j: nat)
    requires r < |all| && !Kept(all, r)
    ensures j < r && Near(all, j, r) && Kept(all, j)
  {
    j :| j < r && Near(all, j, r) && Kept(all, j);
  }

  /** A row kept before `f` is too old to drop a later row with the key of `f`. */
  lemma EarlierIsFar(all: seq<Arrival>, j: nat, f: nat, r: nat)
    requires j < f < r < |all| && Timed(all) && Kept(all, j) && Kept(all, f) && SameKey(all[f], all[r])
    ensures !Near(all, j, r)
  {
    assert NotLater(all[f], all[r]);
    if DupKey(all[j].row) == DupKey(all[f].row) {
      KeptAreApart(all, j, f);
    }
  }

  /** Only the last kept row of its key can drop a row. */
  lemma OnlyLastDrops(all: seq<Arrival>, f: nat, r: nat, j: nat)
    requires f < r < |all| && Timed(all) && SameKey(all[f], all[r]) && LastKept(all, f, r)
    requires j < r && Near(all, j, r) && Kept(all, j)
    ensures j == f
  {
    assert KeptTwin(all, j, r);
    if j < f {
      EarlierIsFar(all, j, f, r);
    }
  }

  /** With the last kept row of a key at `f`, a later one is kept exactly when it is over a window later. */
  lemma KeptAgainIff(all: seq<Arrival>, f: nat, r: nat)
    requires f < r < |all| && Timed(all) && SameKey(all[f], all[r]) && LastKept(all, f, r)
    ensures Kept(all, r) <==> all[r].at - all[f].at > PRESENCE_DEDUP
  {
    if Kept(all, r) {
      KeptAreApart(all, f, r);
    } else {
      var j := DroppedByNearRow(all, r);
      OnlyLastDrops(all, f, r, j);
    }
  }

  /**
   Row `f` was let through when the routing table could not be read, and comes again at `r`,
   with any rows before, between and around. If no row of its key was let through in between,
   it goes out the second time if and only if it is no join or leave, or comes more than a
   window later. Otherwise the retry succeeds without it, and the cursor moves past it.
   */
  lemma RetryPostsIff(all: seq<Arrival>, f: nat, r: nat)
    requires f < r < |all| && Timed(all) && all[f].row == all[r].row && LastKept(all, f, r)
    ensures Kept(all, r) <==> DupKey(all[f].row).None? || all[r].at - all[f].at > 20000
  {
    if DupKey(all[f].row).Some? {
      KeptAgainIff(all, f, r);
    }
  }

  /**
   Rows `b` to `b + n` are delivered and then fetched again, with new rows mixed in: the rows
   from `b + n` on. If all this takes no more than a window, then of the rows the first
   attempt let through exactly those go out again that are no join or leave.
   */
  lemma RetriedBatch(all: seq<Arrival>, b: nat, n: nat, i: nat, r: nat)
    requires Timed(all) && i < n && b + n <= r < |all| && all[r].row == all[b + i].row && Kept(all, b + i)
    requires all[|all| - 1].at - all[b].at <= 20000
    ensures Kept(all, r) <==> DupKey(all[r].row).None?
  {
    assert NotLater(all[b], all[b + i]) && NotLater(all[r], all[|all| - 1]);
    assert Near(all, b + i, r);
  }
}
