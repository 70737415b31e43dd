/** A profile outlives the holds it may correct (`purge`, `purge_holds` and the sightings of `_transform_acs`). */
module Lifetimes {
  import opened Text
  import opened Identity
  import opened Classify
  import opened Patrons
  import opened Transform

  /** Every hold of the ledger has its patron's row, last seen no earlier than the day before the hold's day. */
  ghost predicate Backed(c: Cache, today: int) {
    && (forall pk :: pk in c.patrons ==> c.patrons[pk].lastSeen <= today)
    && (forall i :: i in c.holds ==>
          c.holds[i].patron in c.patrons && DayOf(c.holds[i].time) <= c.patrons[c.holds[i].patron].lastSeen + 1)
  }

  /** A ledger hold this chunk leaves alone but for flags, or one whose patron the chunk has staged. */
  predicate Accounted(base: Cache, c: Cache, today: int, i: HexKey, time: int, patron: string) {
    || (i in base.holds && base.holds[i].time == time && base.holds[i].patron == patron)
    || (patron in c.overlay && DayOf(time) <= today + 1)
  }

  ghost predicate AllAccounted(base: Cache, c: Cache, today: int) {
    && c.patrons == base.patrons && c.holds == base.holds
    && forall i :: HoldGet(c, i).Some? ==> Accounted(base, c, today, i, HoldGet(c, i).value.time, HoldGet(c, i).value.patron)
  }

  lemma PutAccounted(base: Cache, c: Cache, today: int, item: HexKey, hold: LedgerHold)
    requires AllAccounted(base, c, today) && Accounted(base, c, today, item, hold.time, hold.patron)
    ensures AllAccounted(base, HoldPut(c, item, hold), today)
  {
    hide IsHexKey, IsDestination, IsLineText;
    var d := HoldPut(c, item, hold);
    forall i | HoldGet(d, i).Some? ensures Accounted(base, d, today, i, HoldGet(d, i).value.time, HoldGet(d, i).value.patron) {
      if i != item { assert HoldGet(d, i) == HoldGet(c, i); }
    }
  }

  lemma DeleteAccounted(base: Cache, c: Cache, today: int, item: HexKey)
    requires AllAccounted(base, c, today)
    ensures AllAccounted(base, HoldDelete(c, item), today)
  {
    hide IsHexKey, IsDestination, IsLineText;
    var d := HoldDelete(c, item);
    forall i | HoldGet(d, i).Some? ensures Accounted(base, d, today, i, HoldGet(d, i).value.time, HoldGet(d, i).value.patron) {
      assert HoldGet(d, i) == HoldGet(c, i);
    }
  }

  lemma {:induction false} CorrectionsAccounted(ctx: Context, base: Cache, acc: Acc, entries: seq<Entry>, outcome: Flags, today: int)
    requires AllAccounted(base, acc.cache, today)
    requires forall e :: e in entries ==> Accounted(base, acc.cache, today, e.item, e.hold.time, e.hold.patron)
    ensures AllAccounted(base, Corrections(ctx, acc, entries, outcome).cache, today)
    ensures Corrections(ctx, acc, entries, outcome).cache.overlay == acc.cache.overlay
  {
    hide IsHexKey, IsDestination, IsLineText, EventKey, Combine, AllAccounted;
    if entries != [] {
      var n := |entries| - 1;
      assert forall e :: e in entries[..n] ==> e in entries;
      CorrectionsAccounted(ctx, base, acc, entries[..n], outcome, today);
      var before, e := Corrections(ctx, acc, entries[..n], outcome), entries[n];
      assert e in entries;
      var flags := Combine(e.hold.own, outcome);
      PutAccounted(base, before.cache, today, e.item, e.hold.(flags := flags, revision := e.hold.revision + 1));
    }
  }

  lemma {:induction false} ProfilesAccounted(ctx: Context, base: Cache, acc: Acc, dict: Dict, today: int)
    requires AllAccounted(base, acc.cache, today)
    ensures AllAccounted(base, ProfilePass(ctx, acc, dict).cache, today)
  {
    hide IsHexKey, IsDestination, IsLineText, ProfileOutcome, Corrections, Lookup;
    if dict != [] {
      ProfilesAccounted(ctx, base, acc, dict[..|dict| - 1], today);
      var before, last := ProfilePass(ctx, acc, dict[..|dict| - 1]), dict[|dict| - 1];
      var entries := HoldsForPatron(before.cache, last.0);
      forall e | e in entries ensures Accounted(base, before.cache, today, e.item, e.hold.time, e.hold.patron) {
        assert e in PatronHolds(before.cache, last.0);
        assert HoldGet(before.cache, e.item) == Some(e.hold);
      }
      var after := ProfileOutcome(Some(last.1), ctx.rules);
      CorrectionsAccounted(ctx, base, before, entries, after, today);
      var corrected := CorrectPatron(ctx, before, last.0, after);
      SightingsAccounted(base, corrected.cache, Stage(corrected.cache, last.0, last.1, true), today);
    }
  }

  lemma {:induction false} SightingsStage(ctx: Context, c: Cache, records: seq<AcsRecord>)
    ensures c.overlay.Keys <= Sightings(ctx, c, records).overlay.Keys
    ensures Sightings(ctx, c, records) == c.(overlay := Sightings(ctx, c, records).overlay)
    ensures forall r :: r in records && r.code != Profile64 && r.patron != "" ==> ctx.keys.patron(r.patron) in Sightings(ctx, c, records).overlay
  {
    hide IsHexKey, IsDestination, IsLineText;
    if records != [] { SightingsStage(ctx, c, records[..|records| - 1]); }
  }

  lemma ItemStepAccounted(ctx: Context, base: Cache, acc: Acc, r: AcsRecord, today: int)
    requires AllAccounted(base, acc.cache, today) && today == DayOf(ctx.now)
    requires r.code == Item10 && r.patron != "" ==> ctx.keys.patron(r.patron) in acc.cache.overlay
    ensures AllAccounted(base, ItemStep(ctx, acc, r).cache, today)
    ensures acc.cache.overlay.Keys <= ItemStep(ctx, acc, r).cache.overlay.Keys
  {
    hide IsHexKey, IsDestination, IsLineText, EventKey, ItemContent, ItemRevision, HoldFlags, NextRevision, Contains, AllAccounted;
    if Guarded(ctx, acc.cache, r) {
      SightingsAccounted(base, acc.cache, Stage(acc.cache, ctx.keys.patron(r.barcode), NO_INFO, false), today);
    } else if Admitted(ctx, acc.cache, r) {
      assert DayOf(r.when) <= today + 1;
      var item := ctx.keys.item(r.barcode);
      var existing := HoldGet(acc.cache, item);
      var after := LedgerAfter(ctx, acc.cache, r, existing);
      DeleteAccounted(base, acc.cache, today, item);
      if after.Some? {
        assert Puts(ctx, r, existing) ==> after.value.time == r.when && after.value.patron == ctx.keys.patron(r.patron);
        if Puts(ctx, r, existing) { PutAccounted(base, acc.cache, today, item, after.value); }
      }
    }
  }

  lemma {:induction false} ItemsAccounted(ctx: Context, base: Cache, acc: Acc, records: seq<AcsRecord>, today: int)
    requires AllAccounted(base, acc.cache, today) && today == DayOf(ctx.now)
    requires forall r :: r in records && r.code == Item10 && r.patron != "" ==> ctx.keys.patron(r.patron) in acc.cache.overlay
    ensures AllAccounted(base, ItemPass(ctx, acc, records).cache, today)
    ensures acc.cache.overlay.Keys <= ItemPass(ctx, acc, records).cache.overlay.Keys
  {
    hide IsHexKey, IsDestination, IsLineText, AllAccounted, ItemStep;
    if records != [] {
      var n := |records| - 1;
      assert forall r :: r in records[..n] ==> r in records;
      ItemsAccounted(ctx, base, acc, records[..n], today);
      assert records[n] in records;
      ItemStepAccounted(ctx, base, ItemPass(ctx, acc, records[..n]), records[n], today);
    }
  }

  lemma SightingsAccounted(base: Cache, c: Cache, d: Cache, today: int)
    requires AllAccounted(base, c, today) && d == c.(overlay := d.overlay) && c.overlay.Keys <= d.overlay.Keys
    ensures AllAccounted(base, d, today)
  {
    hide IsHexKey, IsDestination, IsLineText;
    forall i | HoldGet(d, i).Some? ensures Accounted(base, d, today, i, HoldGet(d, i).value.time, HoldGet(d, i).value.patron) {
      assert HoldGet(c, i) == HoldGet(d, i);
    }
  }

  /** A committed chunk keeps every hold backed: a hold it writes comes with a sighting of its patron, and no accepted
      instant is more than a day ahead. */
  lemma ChunkKeepsBacked(ctx: Context, c: Cache, records: seq<AcsRecord>, today: int)
    requires Backed(c, today) && c.overlay == map[] && c.holdOverlay == map[] && today == DayOf(ctx.now)
    ensures Backed(Commit(TransformChunk(ctx, c, records).cache, today), today)
  {
    hide IsHexKey, IsDestination, IsLineText, ItemPass, Sightings, ProfilePass, ProfileDict, SortByTime, ProfileRecords;
    var first, second := AfterProfiles(ctx, c, records), AfterSightings(ctx, c, records);
    ProfilesAccounted(ctx, c, Acc(c, []), ProfileDict(ctx.keys, SortByTime(ProfileRecords(records))), today);
    SightingsStage(ctx, first.cache, records);
    SightingsAccounted(c, first.cache, second.cache, today);
    ItemsAccounted(ctx, c, second, records, today);
    CommitBacked(c, TransformChunk(ctx, c, records).cache, today);
  }

  lemma CommitBacked(base: Cache, c: Cache, today: int)
    requires Backed(base, today) && AllAccounted(base, c, today)
    ensures Backed(Commit(c, today), today)
  {
    hide IsHexKey, IsDestination, IsLineText, SameAnswers;
    CommitKeepsAnswers(c, today);
    var d := Commit(c, today);
    forall i | i in d.holds
      ensures d.holds[i].patron in d.patrons && DayOf(d.holds[i].time) <= d.patrons[d.holds[i].patron].lastSeen + 1
    {
      CommittedHold(c, today, i);
      assert Accounted(base, c, today, i, d.holds[i].time, d.holds[i].patron);
    }
  }

  lemma CommittedHold(c: Cache, today: int, i: HexKey)
    ensures i in Commit(c, today).holds ==> HoldGet(c, i) == Some(Commit(c, today).holds[i])
  {
  }

  // ----- a run's start -----

  datatype Limits = Limits(ttlDays: nat, maxRows: nat, holdDays: nat, holdMaxRows: nat)

  /** Purging, then purging holds, without the row cap evicting anyone. */
  ghost predicate Cleaned(c: Cache, purged: Cache, trimmed: Cache, today: int, limits: Limits) {
    && PurgedTo(c, purged, today, limits.ttlDays, limits.maxRows) && |LiveRows(c, today, limits.ttlDays)| <= limits.maxRows
    && HoldsPurgedTo(purged, trimmed, today, limits.holdDays, limits.holdMaxRows)
  }

  /** Every surviving hold's patron row survives, however many days later, if the rows live longer than the holds. */
  lemma CleaningKeepsBacked(c: Cache, purged: Cache, trimmed: Cache, before: int, today: int, limits: Limits)
    requires Backed(c, before) && before <= today && Cleaned(c, purged, trimmed, today, limits)
    requires limits.ttlDays > limits.holdDays
    ensures Backed(trimmed, today)
  {
    hide IsHexKey, IsDestination, IsLineText, PurgedTo, HoldsPurgedTo;
    PurgeKeepsLive(c, purged, today, limits);
    HoldsKept(purged, trimmed, today, limits);
    forall i | i in trimmed.holds
      ensures trimmed.holds[i].patron in trimmed.patrons
              && DayOf(trimmed.holds[i].time) <= trimmed.patrons[trimmed.holds[i].patron].lastSeen + 1
    {
      assert c.patrons[c.holds[i].patron].lastSeen >= today - limits.ttlDays;
    }
  }

  lemma PurgeKeepsLive(c: Cache, purged: Cache, today: int, limits: Limits)
    requires PurgedTo(c, purged, today, limits.ttlDays, limits.maxRows) && |LiveRows(c, today, limits.ttlDays)| <= limits.maxRows
    ensures purged == c.(patrons := LiveRows(c, today, limits.ttlDays))
  {
    var live := LiveRows(c, today, limits.ttlDays);
    AllKept(purged.patrons.Keys, live.Keys);
    assert purged.patrons == live;
  }

  lemma HoldsKept(purged: Cache, trimmed: Cache, today: int, limits: Limits)
    requires HoldsPurgedTo(purged, trimmed, today, limits.holdDays, limits.holdMaxRows)
    ensures trimmed == purged.(holds := trimmed.holds)
    ensures forall i :: i in trimmed.holds ==>
      i in purged.holds && trimmed.holds[i] == purged.holds[i] && DayOf(purged.holds[i].time) >= today - limits.holdDays
  {
    hide IsHexKey, IsDestination, IsLineText, OlderHold;
  }

  lemma {:induction false} AllKept(kept: set<string>, live: set<string>)
    requires kept <= live && |kept| == |live|
    ensures kept == live
  {
    if x :| x in live && x !in kept {
      SubsetSize(kept, live - {x});
    }
  }

  // ----- over all runs -----

  /** One run: its instant, the cache after each purge, and the record lists of its committed chunks. */
  datatype Visit = Visit(now: int, purged: Cache, trimmed: Cache, chunks: seq<seq<AcsRecord>>)

  ghost function AfterChunks(keys: Keys, rules: Rules, c: Cache, now: int, chunks: seq<seq<AcsRecord>>): Cache {
    if chunks == [] then c
    else
      var before := AfterChunks(keys, rules, c, now, chunks[..|chunks| - 1]);
      Commit(TransformChunk(Context(keys, rules, now), before, chunks[|chunks| - 1]).cache, DayOf(now))
  }

  ghost function AfterVisits(keys: Keys, rules: Rules, visits: seq<Visit>): Cache {
    if visits == [] then EMPTY
    else
      var last := visits[|visits| - 1];
      AfterChunks(keys, rules, last.trimmed, last.now, last.chunks)
  }

  /** Runs on non-decreasing days, each cleaning what the one before left. */
  ghost predicate VisitsOk(keys: Keys, rules: Rules, visits: seq<Visit>, limits: Limits) {
    && (forall i :: 0 <= i < |visits| ==>
          Cleaned(AfterVisits(keys, rules, visits[..i]), visits[i].purged, visits[i].trimmed, DayOf(visits[i].now), limits))
    && (forall i, j :: 0 <= i < j < |visits| ==> DayOf(visits[i].now) <= DayOf(visits[j].now))
  }

  lemma {:induction false} ChunksKeepBacked(keys: Keys, rules: Rules, c: Cache, now: int, chunks: seq<seq<AcsRecord>>)
    requires Backed(c, DayOf(now)) && c.overlay == map[] && c.holdOverlay == map[]
    ensures Backed(AfterChunks(keys, rules, c, now, chunks), DayOf(now))
    ensures AfterChunks(keys, rules, c, now, chunks).overlay == map[] && AfterChunks(keys, rules, c, now, chunks).holdOverlay == map[]
  {
    hide IsHexKey, IsDestination, IsLineText, Backed, TransformChunk;
    if chunks != [] {
      ChunksKeepBacked(keys, rules, c, now, chunks[..|chunks| - 1]);
      var before := AfterChunks(keys, rules, c, now, chunks[..|chunks| - 1]);
      ChunkKeepsBacked(Context(keys, rules, now), before, chunks[|chunks| - 1], DayOf(now));
    }
  }

  /** With rows living longer than holds, over any runs without a row-cap eviction, after every cleaning each ledger
      hold's patron row is still there. */
  lemma {:induction false} ProfilesOutliveHolds(keys: Keys, rules: Rules, visits: seq<Visit>, limits: Limits)
    requires VisitsOk(keys, rules, visits, limits) && limits.ttlDays > limits.holdDays
    ensures forall k, i :: 0 <= k < |visits| && i in visits[k].trimmed.holds ==>
      visits[k].trimmed.holds[i].patron in visits[k].trimmed.patrons
    ensures visits != [] ==> Backed(AfterVisits(keys, rules, visits), DayOf(visits[|visits| - 1].now))
    ensures AfterVisits(keys, rules, visits).overlay == map[] && AfterVisits(keys, rules, visits).holdOverlay == map[]
  {
    hide IsHexKey, IsDestination, IsLineText, AfterChunks, Cleaned, Backed;
    if visits != [] {
      var n := |visits| - 1;
      var init, last := visits[..n], visits[n];
      VisitsBefore(keys, rules, visits, limits);
      ProfilesOutliveHolds(keys, rules, init, limits);
      var c, before := AfterVisits(keys, rules, init), if n > 0 then DayOf(visits[n - 1].now) else DayOf(last.now);
      assert Backed(c, before) by { EmptyBacked(before); }
      CleaningKeepsBacked(c, last.purged, last.trimmed, before, DayOf(last.now), limits);
      CleanedOverlays(c, last.purged, last.trimmed, DayOf(last.now), limits);
      BackedHasRows(last.trimmed, DayOf(last.now));
      ChunksKeepBacked(keys, rules, last.trimmed, last.now, last.chunks);
      assert forall k :: 0 <= k < |visits| && k != n ==> visits[k] == init[k];
    }
  }

  lemma VisitsBefore(keys: Keys, rules: Rules, visits: seq<Visit>, limits: Limits)
    requires visits != [] && VisitsOk(keys, rules, visits, limits)
    ensures VisitsOk(keys, rules, visits[..|visits| - 1], limits)
    ensures var n := |visits| - 1;
      Cleaned(AfterVisits(keys, rules, visits[..n]), visits[n].purged, visits[n].trimmed, DayOf(visits[n].now), limits)
  {
    hide IsHexKey, IsDestination, IsLineText, AfterVisits, Cleaned;
    var init := visits[..|visits| - 1];
    assert forall k :: 0 <= k < |init| ==> init[..k] == visits[..k] && init[k] == visits[k];
  }

  lemma EmptyBacked(today: int)
    ensures Backed(EMPTY, today)
  {
  }

  lemma BackedHasRows(c: Cache, today: int)
    requires Backed(c, today)
    ensures forall i :: i in c.holds ==> c.holds[i].patron in c.patrons
  {
  }

  lemma CleanedOverlays(c: Cache, purged: Cache, trimmed: Cache, today: int, limits: Limits)
    requires Cleaned(c, purged, trimmed, today, limits)
    ensures trimmed.overlay == c.overlay && trimmed.holdOverlay == c.holdOverlay
  {
  }

  /** The margin is exact: cleaning keeps the row of every surviving hold of every backed cache if and only if rows
      live longer than holds. */
  lemma MarginIsExact(ttlDays: nat, holdDays: nat, today: int)
    ensures (forall c: Cache, i: HexKey :: Backed(c, today) && i in RecentHolds(c, today, holdDays) ==> c.holds[i].patron in LiveRows(c, today, ttlDays))
       <==> ttlDays > holdDays
  {
    hide IsHexKey, IsDestination, IsLineText;
    if ttlDays <= holdDays {
      var i: HexKey :| true;
      var d: Destination :| true;
      var time := (today - ttlDays) * DAY;
      assert DayOf(time) == today - ttlDays;
      var hold := LedgerHold(time, "p", d, Flags(false, false, false), Flags(false, false, false), 0);
      var c := Cache(map["p" := PatronRow(NO_INFO, today - ttlDays - 1, today - ttlDays - 1)], map[i := hold], map[], map[]);
      assert Backed(c, today) && i in RecentHolds(c, today, holdDays) && "p" !in LiveRows(c, today, ttlDays);
    }
  }
}
