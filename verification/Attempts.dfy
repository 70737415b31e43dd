/** One attempt at a chunk, step by step over the patron cache's own transactions (`_process_sources` in
    collector/v2_run.py over collector/v2_patrons.py). Wherever it stops, it leaves a disk of module Retry, and every
    disk of module Retry is left by some attempt: the crash theorems speak of what the cache really stores. */
module Attempts {
  import opened Text
  import opened Identity
  import opened Classify
  import P = Patrons
  import opened PatronStore
  import opened Transform
  import opened Server
  import opened Retry
  import Crashes

  /** Stores the events of the first requests. */
  method StoreEvents(rows: seq<AcsEvent>, events: seq<AcsEvent>, n: nat) returns (stored: seq<AcsEvent>)
    ensures stored == InsertAll(rows, Prefix(events, n))
  {
    var first := Prefix(events, n);
    stored := rows;
    for i := 0 to |first|
      invariant stored == InsertAll(rows, first[..i])
    {
      assert first[..i + 1][..i] == first[..i];
      stored := Insert(stored, first[i]);
    }
    assert first[..|first|] == first;
  }

  /** Where an attempt stops: while delivering, at a transaction that the file does not take, or before the cursor is
      saved; None if it finishes. */
  function StopOf(c: P.Cache, stored: nat, delivered: bool, writesLeft: Option<nat>, saves: bool): Option<Stop> {
    if !delivered || LedgerFails(c, writesLeft) then Some(AfterEvents(stored))
    else if !Takes(writesLeft, Transactions(c)) then Some(AfterHolds)
    else if !saves then Some(AfterPatrons)
    else None
  }

  /** Opens the cache over the disk, transforms the lines, stores events, commits the cache and saves the cursor. The
      delivery ends after some events, and is then complete or not; the file takes so many transactions; and the
      process lives to save the cursor or does not. */
  method TryChunk(ctx: Context, today: int, disk: Disk, records: seq<AcsRecord>, end: int,
                  stored: nat, delivered: bool, writesLeft: Option<nat>, saves: bool) returns (after: Disk)
    requires delivered ==> stored >= |Out(ctx, disk, records).events|
    ensures after == match StopOf(Out(ctx, disk, records).cache, stored, delivered, writesLeft, saves)
                     case Some(stop) => Stopped(ctx, today, disk, records, stop)
                     case None => Finished(ctx, today, disk, records, end)
  {
    hide IsHexKey, IsDestination, IsLineText, TransformChunk, P.CommitHolds, InsertAll;
    var cache := new PatronCache(disk.patrons, disk.holds, today, 0, 0, 0, 0, false, writesLeft);
    assert cache.View() == Opened(disk);
    var events := TransformAcs(ctx, cache, records);
    ghost var c := cache.View();
    assert events[..|events|] == events;
    var rows := StoreEvents(disk.rows, events, stored);
    after := disk.(rows := rows);
    if !delivered { return; }
    var ok := cache.Commit();
    LedgerCommitKeeps(c, today);
    after := after.(patrons := cache.patrons, holds := cache.holds);
    if ok && saves { after := after.(cursor := end); }
  }

  lemma LedgerCommitKeeps(c: P.Cache, today: int)
    ensures P.CommitHolds(c).patrons == c.patrons && P.Commit(c, today).holds == P.CommitHolds(c).holds
  {
  }

  /** Every stop is one that an attempt makes. */
  lemma EveryStopHappens(ctx: Context, today: int, disk: Disk, records: seq<AcsRecord>, stop: Stop)
    returns (stored: nat, delivered: bool, writesLeft: Option<nat>, saves: bool)
    ensures delivered ==> stored >= |Out(ctx, disk, records).events|
    ensures
      var s := StopOf(Out(ctx, disk, records).cache, stored, delivered, writesLeft, saves);
      s.Some? && Stopped(ctx, today, disk, records, s.value) == Stopped(ctx, today, disk, records, stop)
  {
    hide IsHexKey, IsDestination, IsLineText, TransformChunk, InsertAll;
    var c := Out(ctx, disk, records).cache;
    stored, delivered, writesLeft, saves := |Out(ctx, disk, records).events|, true, None, false;
    match stop {
      case AfterEvents(n) => stored, delivered := n, false;
      case AfterPatrons =>
      case AfterHolds =>
        Crashes.ChunkTables(ctx, Opened(disk), records);
        P.NothingStaged(P.CommitHolds(c), today);
        if c.overlay != map[] { writesLeft := Some(Transactions(c) - 1); }
    }
  }
}
