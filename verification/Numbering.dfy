/** Revisions count up by one: every revision up to that of a ledger row has been sent for its item and second, and the
    server has stored it. With `Runs.NoCorrectionSwallowed`, no row of the hold's destination is beyond it. */
module Numbering {
  import opened Text
  import opened Identity
  import opened Classify
  import opened Patrons
  import opened Transform
  import opened Server
  import opened Ledger
  import opened Refinement
  import opened Provenance
  import opened Runs
  import opened Retry
  import opened OneItem

  /** The server has a row of the item's hold in that second under this revision. */
  ghost predicate Has(keys: Keys, rows: seq<AcsEvent>, item: HexKey, time: int, n: nat) {
    exists destination: Destination, flags: Flags :: HasKey(rows, EventKey(keys, HoldContent(time, item, destination, flags), n))
  }

  ghost predicate NoGap(keys: Keys, rows: seq<AcsEvent>, item: HexKey, h: Option<LedgerHold>) {
    h.Some? ==> forall n: nat :: n <= h.value.revision ==> Has(keys, rows, item, h.value.time, n)
  }

  ghost predicate NoGaps(keys: Keys, rows: seq<AcsEvent>, c: Cache) {
    forall item :: NoGap(keys, rows, item, HoldGet(c, item))
  }

  lemma HasStays(keys: Keys, rows: seq<AcsEvent>, e: AcsEvent, item: HexKey, time: int, n: nat)
    requires Has(keys, rows, item, time, n)
    ensures Has(keys, Insert(rows, e), item, time, n)
  {
    hide IsHexKey, IsDestination, IsLineText, EventKey, HasKey, Insert;
    var destination: Destination, flags: Flags :| HasKey(rows, EventKey(keys, HoldContent(time, item, destination, flags), n));
    HasKeyInserted(rows, e, EventKey(keys, HoldContent(time, item, destination, flags), n));
  }

  lemma NoGapStays(keys: Keys, rows: seq<AcsEvent>, e: AcsEvent, item: HexKey, h: Option<LedgerHold>)
    requires NoGap(keys, rows, item, h)
    ensures NoGap(keys, Insert(rows, e), item, h)
  {
    hide Has, Insert;
    if h.Some? {
      forall n: nat | n <= h.value.revision ensures Has(keys, Insert(rows, e), item, h.value.time, n) {
        HasStays(keys, rows, e, item, h.value.time, n);
      }
    }
  }

  lemma JustSent(keys: Keys, rows: seq<AcsEvent>, content: Content, n: nat)
    requires content.HoldContent?
    ensures Has(keys, Insert(rows, BuildAcsItem(keys, content, n)), content.item, content.time, n)
  {
    hide IsHexKey, IsDestination, IsLineText, EventKey, HasKey, Insert;
    HasKeyInserted(rows, BuildAcsItem(keys, content, n), EventKey(keys, content, n));
    assert content == HoldContent(content.time, content.item, content.destination, content.flags);
  }

  /** The row's next revision is sent with it. */
  lemma NextSent(keys: Keys, rows: seq<AcsEvent>, item: HexKey, h: LedgerHold, content: Content, next: LedgerHold)
    requires NoGap(keys, rows, item, Some(h)) && next.time == h.time && next.revision == h.revision + 1
    requires content.HoldContent? && content.item == item && content.time == h.time
    ensures NoGap(keys, Insert(rows, BuildAcsItem(keys, content, next.revision)), item, Some(next))
  {
    hide IsHexKey, IsDestination, IsLineText, EventKey, Has, Insert;
    var e := BuildAcsItem(keys, content, next.revision);
    JustSent(keys, rows, content, next.revision);
    forall n: nat | n <= next.revision ensures Has(keys, Insert(rows, e), item, next.time, n) {
      if n <= h.revision { HasStays(keys, rows, e, item, h.time, n); }
    }
  }

  // ----- pass 1 -----

  lemma CorrectOneNumbers(ctx: Context, rows0: seq<AcsEvent>, prev: Acc, e: Entry, after: Flags)
    requires NoGaps(ctx.keys, InsertAll(rows0, prev.events), prev.cache)
    requires NoGap(ctx.keys, InsertAll(rows0, prev.events), e.item, Some(e.hold))
    ensures
      var next := CorrectOne(ctx, prev, e, after);
      NoGaps(ctx.keys, InsertAll(rows0, next.events), next.cache)
      && forall item, h :: NoGap(ctx.keys, InsertAll(rows0, prev.events), item, h) ==> NoGap(ctx.keys, InsertAll(rows0, next.events), item, h)
  {
    hide IsHexKey, IsDestination, IsLineText, EventKey, Insert, Combine, NoGap;
    var flags := Combine(e.hold.own, after);
    if flags != e.hold.flags {
      var rows := InsertAll(rows0, prev.events);
      var content := HoldContent(e.hold.time, e.item, e.hold.destination, flags);
      var event := BuildAcsItem(ctx.keys, content, e.hold.revision + 1);
      InsertAllSnoc(rows0, prev.events, event);
      NextSent(ctx.keys, rows, e.item, e.hold, content, e.hold.(flags := flags, revision := e.hold.revision + 1));
      forall item, h | NoGap(ctx.keys, rows, item, h) ensures NoGap(ctx.keys, Insert(rows, event), item, h) {
        NoGapStays(ctx.keys, rows, event, item, h);
      }
      var next := CorrectOne(ctx, prev, e, after).cache;
      forall item ensures NoGap(ctx.keys, Insert(rows, event), item, HoldGet(next, item)) {
        assert NoGap(ctx.keys, rows, item, HoldGet(prev.cache, item));
      }
    }
  }

  lemma {:induction false} CorrectionsNumber(ctx: Context, rows0: seq<AcsEvent>, acc0: Acc, entries: seq<Entry>, after: Flags)
    requires NoGaps(ctx.keys, InsertAll(rows0, acc0.events), acc0.cache)
    requires forall e :: e in entries ==> NoGap(ctx.keys, InsertAll(rows0, acc0.events), e.item, Some(e.hold))
    ensures
      var acc := Corrections(ctx, acc0, entries, after);
      NoGaps(ctx.keys, InsertAll(rows0, acc.events), acc.cache)
      && forall item, h :: NoGap(ctx.keys, InsertAll(rows0, acc0.events), item, h) ==> NoGap(ctx.keys, InsertAll(rows0, acc.events), item, h)
  {
    hide IsHexKey, IsDestination, IsLineText, InsertAll, CorrectOne, NoGap, NoGaps;
    if entries != [] {
      var n := |entries| - 1;
      assert entries[n] in entries;
      CorrectionsNumber(ctx, rows0, acc0, entries[..n], after);
      CorrectOneNumbers(ctx, rows0, Corrections(ctx, acc0, entries[..n], after), entries[n], after);
    }
  }

  lemma SameHoldsNumber(keys: Keys, rows: seq<AcsEvent>, a: Cache, b: Cache)
    requires NoGaps(keys, rows, a) && forall item :: HoldGet(a, item) == HoldGet(b, item)
    ensures NoGaps(keys, rows, b)
  {
    hide HoldGet, NoGap;
    forall item ensures NoGap(keys, rows, item, HoldGet(b, item)) {
      assert NoGap(keys, rows, item, HoldGet(a, item));
    }
  }

  lemma {:induction false} ProfilePassNumbers(ctx: Context, rows0: seq<AcsEvent>, c0: Cache, dict: Dict)
    requires NoGaps(ctx.keys, rows0, c0)
    ensures
      var acc := ProfilePass(ctx, Acc(c0, []), dict);
      NoGaps(ctx.keys, InsertAll(rows0, acc.events), acc.cache)
  {
    hide IsHexKey, IsDestination, IsLineText, ProfileOutcome, Corrections, NoGap, Insert;
    if dict != [] {
      var n := |dict| - 1;
      ProfilePassNumbers(ctx, rows0, c0, dict[..n]);
      var prev := ProfilePass(ctx, Acc(c0, []), dict[..n]);
      var pk, after := dict[n].0, ProfileOutcome(Some(dict[n].1), ctx.rules);
      var entries := HoldsForPatron(prev.cache, pk);
      forall e | e in entries ensures NoGap(ctx.keys, InsertAll(rows0, prev.events), e.item, Some(e.hold)) {
        EntryOfHeld(prev.cache, pk, e);
        assert NoGap(ctx.keys, InsertAll(rows0, prev.events), e.item, HoldGet(prev.cache, e.item));
      }
      CorrectionsNumber(ctx, rows0, prev, entries, after);
      var corrected := CorrectPatron(ctx, prev, pk, after);
      SameHoldsNumber(ctx.keys, InsertAll(rows0, corrected.events), corrected.cache, Stage(corrected.cache, pk, dict[n].1, true));
    }
  }

  // ----- pass 2 -----

  /** The row that an item record leaves has no gap once its event is stored. */
  lemma RecordNumbers(ctx: Context, c: Cache, rows: seq<AcsEvent>, r: AcsRecord, h: Option<LedgerHold>)
    requires NoGap(ctx.keys, rows, ctx.keys.item(r.barcode), h)
    ensures NoGap(ctx.keys, Insert(rows, ItemEvent(ctx, c, r, h)), ctx.keys.item(r.barcode), LedgerAfter(ctx, c, r, h))
  {
    hide IsHexKey, IsDestination, IsLineText, EventKey, Insert, HoldFlags, Has;
    var item, e := ctx.keys.item(r.barcode), ItemEvent(ctx, c, r, h);
    NoGapStays(ctx.keys, rows, e, item, h);
    if r.state == Hold {
      var content, rev := ItemContent(ctx, c, r), ItemRevision(ctx, c, r, h);
      JustSent(ctx.keys, rows, content, rev);
      var after := LedgerAfter(ctx, c, r, h);
      if after.Some? && after != h {
        forall n: nat | n <= rev ensures Has(ctx.keys, Insert(rows, e), item, r.when, n) {
          if n < rev { assert h.Some? && h.value.time == r.when && n <= h.value.revision; }
        }
      }
    }
  }

  lemma ItemStepNumbers(ctx: Context, rows0: seq<AcsEvent>, acc: Acc, r: AcsRecord)
    requires NoGaps(ctx.keys, InsertAll(rows0, acc.events), acc.cache)
    ensures
      var next := ItemStep(ctx, acc, r);
      NoGaps(ctx.keys, InsertAll(rows0, next.events), next.cache)
  {
    hide IsHexKey, IsDestination, IsLineText, EventKey, Insert, NoGap, LedgerAfter, ItemContent, ItemRevision, Puts, HoldGet,
      InWindow;
    var next := ItemStep(ctx, acc, r);
    if Guarded(ctx, acc.cache, r) {
      SightingKeeps(ctx, acc.cache, ctx.keys.patron(r.barcode));
      SameHoldsNumber(ctx.keys, InsertAll(rows0, acc.events), acc.cache, next.cache);
    } else if Admitted(ctx, acc.cache, r) {
      var rows, item := InsertAll(rows0, acc.events), ctx.keys.item(r.barcode);
      var h := HoldGet(acc.cache, item);
      var e := ItemEvent(ctx, acc.cache, r, h);
      InsertAllSnoc(rows0, acc.events, e);
      assert NoGap(ctx.keys, rows, item, h);
      RecordNumbers(ctx, acc.cache, rows, r, h);
      forall i ensures NoGap(ctx.keys, Insert(rows, e), i, HoldGet(next.cache, i)) {
        EntryStored(ctx, acc.cache, item, r, i);
        assert NoGap(ctx.keys, rows, i, HoldGet(acc.cache, i));
        NoGapStays(ctx.keys, rows, e, i, HoldGet(acc.cache, i));
      }
    }
  }

  lemma {:induction false} ItemPassNumbers(ctx: Context, rows0: seq<AcsEvent>, acc: Acc, records: seq<AcsRecord>)
    requires NoGaps(ctx.keys, InsertAll(rows0, acc.events), acc.cache)
    ensures
      var out := ItemPass(ctx, acc, records);
      NoGaps(ctx.keys, InsertAll(rows0, out.events), out.cache)
  {
    hide InsertAll, ItemStep, NoGaps;
    if records != [] {
      ItemPassNumbers(ctx, rows0, acc, records[..|records| - 1]);
      ItemStepNumbers(ctx, rows0, ItemPass(ctx, acc, records[..|records| - 1]), records[|records| - 1]);
    }
  }

  // ----- whole runs -----

  lemma ProcessNumbers(keys: Keys, rules: Rules, world: World, chunk: Chunk)
    requires NoGaps(keys, world.rows, world.cache)
    ensures NoGaps(keys, Process(keys, rules, world, chunk).rows, Process(keys, rules, world, chunk).cache)
  {
    hide InsertAll, ProfilePass, ItemPass, Sightings, ProfileDict, SortByTime, ProfileRecords, NoGaps, HoldGet, Commit;
    var ctx := Context(keys, rules, chunk.now);
    var records := chunk.records;
    ProfilePassNumbers(ctx, world.rows, world.cache, DictOf(ctx, records));
    var first := AfterProfiles(ctx, world.cache, records);
    SightingsKeep(ctx, first.cache, records);
    var seen := AfterSightings(ctx, world.cache, records);
    SameHoldsNumber(keys, InsertAll(world.rows, first.events), first.cache, seen.cache);
    ItemPassNumbers(ctx, world.rows, seen, records);
    var out := TransformChunk(ctx, world.cache, records);
    CommitKeepsAnswers(out.cache, chunk.today);
    SameHoldsNumber(keys, InsertAll(world.rows, out.events), out.cache, Commit(out.cache, chunk.today));
  }

  lemma {:induction false} RunNumbers(keys: Keys, rules: Rules, chunks: seq<Chunk>)
    ensures NoGaps(keys, Run(keys, rules, chunks).rows, Run(keys, rules, chunks).cache)
  {
    hide Process, NoGap;
    if chunks == [] {
      assert NoGaps(keys, [], EMPTY) by { NoRowsNoGaps(keys); }
    } else {
      RunNumbers(keys, rules, chunks[..|chunks| - 1]);
      ProcessNumbers(keys, rules, Run(keys, rules, chunks[..|chunks| - 1]), chunks[|chunks| - 1]);
    }
  }

  lemma NoRowsNoGaps(keys: Keys)
    ensures NoGaps(keys, [], EMPTY)
  {
  }

  /** After any committed chunks, for every revision up to that of a ledger row the server has a row of the item's
      hold in that second under this revision. Nothing is asked of the log or the keys. */
  lemma EveryRevisionWasSent(keys: Keys, rules: Rules, chunks: seq<Chunk>, item: HexKey, h: LedgerHold, n: nat)
    requires HoldGet(Run(keys, rules, chunks).cache, item) == Some(h) && n <= h.revision
    ensures exists destination: Destination, flags: Flags ::
      HasKey(Run(keys, rules, chunks).rows, EventKey(keys, HoldContent(h.time, item, destination, flags), n))
  {
    hide Run, HasKey, EventKey, HoldGet;
    RunNumbers(keys, rules, chunks);
    var world := Run(keys, rules, chunks);
    assert NoGap(keys, world.rows, item, HoldGet(world.cache, item));
    assert Has(keys, world.rows, item, h.time, n);
  }
}
