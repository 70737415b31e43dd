/** From one item to whole chunks and whole runs: the invariant of module Ledger is kept by every step of a
    chunk and by its commit, so after any committed chunks the reader's view is the batch view. */
module Refinement {
  import opened Text
  import opened Identity
  import opened Classify
  import opened Patrons
  import opened Transform
  import opened Server
  import opened Ledger
  import opened Provenance

  ghost predicate ItemHolds(ctx: Context, rows: seq<AcsEvent>, c: Cache, items: seq<AcsRecord>, item: HexKey) {
    ItemInv(ctx.keys, rows, item, Winner(ctx.keys, items, item), HoldGet(c, item), OutcomeOf(ctx, c, HoldGet(c, item)))
  }

  /** The rows a reader sees, the ledger and the profiles fit the item records admitted so far. */
  ghost predicate Inv(ctx: Context, rows: seq<AcsEvent>, c: Cache, items: seq<AcsRecord>) {
    AllKeyed(ctx.keys, rows) && forall item :: ItemHolds(ctx, rows, c, items, item)
  }

  lemma InsertAllSnoc(rows: seq<AcsEvent>, events: seq<AcsEvent>, e: AcsEvent)
    ensures InsertAll(rows, events + [e]) == Insert(InsertAll(rows, events), e)
  {
    assert (events + [e])[..|events|] == events;
  }

  // ----- pass 1 -----

  ghost predicate InPrefix(entries: seq<Entry>, k: nat, item: HexKey) {
    exists j :: 0 <= j < k && j < |entries| && entries[j].item == item
  }

  /** The item after the first k corrections of one patron: done with the new outcome, or untouched. */
  ghost predicate Corrected(ctx: Context, rows: seq<AcsEvent>, c0: Cache, c: Cache, items: seq<AcsRecord>,
                            entries: seq<Entry>, k: nat, pk: string, after: Flags, item: HexKey) {
    var w := Winner(ctx.keys, items, item);
    if InPrefix(entries, k, item) then
      HoldGet(c, item).Some? && HoldGet(c, item).value.patron == pk
      && ItemInv(ctx.keys, rows, item, w, HoldGet(c, item), after)
    else
      HoldGet(c, item) == HoldGet(c0, item)
      && ItemInv(ctx.keys, rows, item, w, HoldGet(c, item), OutcomeOf(ctx, c0, HoldGet(c, item)))
  }

  ghost predicate AllCorrected(ctx: Context, rows: seq<AcsEvent>, c0: Cache, c: Cache, items: seq<AcsRecord>,
                               entries: seq<Entry>, k: nat, pk: string, after: Flags) {
    AllKeyed(ctx.keys, rows) && c.overlay == c0.overlay && c.patrons == c0.patrons
    && forall item :: Corrected(ctx, rows, c0, c, items, entries, k, pk, after, item)
  }

  function CorrectionContent(e: Entry, after: Flags): Content {
    HoldContent(e.hold.time, e.item, e.hold.destination, Combine(e.hold.own, after))
  }

  /** What one correction does to rows and cache. */
  lemma CorrectOneEffect(ctx: Context, rows0: seq<AcsEvent>, prev: Acc, e: Entry, after: Flags)
    requires AllKeyed(ctx.keys, InsertAll(rows0, prev.events))
    ensures
      var next := CorrectOne(ctx, prev, e, after);
      var flags := Combine(e.hold.own, after);
      var rows := InsertAll(rows0, prev.events);
      AllKeyed(ctx.keys, InsertAll(rows0, next.events))
      && next.cache.overlay == prev.cache.overlay && next.cache.patrons == prev.cache.patrons
      && (forall item :: item != e.item ==> HoldGet(next.cache, item) == HoldGet(prev.cache, item))
      && (if flags == e.hold.flags then next == prev
          else HoldGet(next.cache, e.item) == Some(e.hold.(flags := flags, revision := e.hold.revision + 1))
               && InsertAll(rows0, next.events)
                  == Insert(rows, BuildAcsItem(ctx.keys, CorrectionContent(e, after), e.hold.revision + 1)))
  {
    hide IsHexKey, IsDestination, IsLineText, EventKey, Insert, AllKeyed;
    InsertAllSnoc(rows0, prev.events, BuildAcsItem(ctx.keys, CorrectionContent(e, after), e.hold.revision + 1));
    InsertKeyed(ctx.keys, InsertAll(rows0, prev.events), CorrectionContent(e, after), e.hold.revision + 1);
  }

  /** The entry's own item under its correction. */
  lemma CorrectedHere(ctx: Context, rows0: seq<AcsEvent>, c0: Cache, prev: Acc, items: seq<AcsRecord>,
                      entries: seq<Entry>, k: nat, pk: string, after: Flags)
    requires SoundKeys(ctx.keys) && k < |entries| && !InPrefix(entries, k, entries[k].item)
    requires HoldGet(c0, entries[k].item) == Some(entries[k].hold) && entries[k].hold.patron == pk
    requires AllKeyed(ctx.keys, InsertAll(rows0, prev.events))
    requires Corrected(ctx, InsertAll(rows0, prev.events), c0, prev.cache, items, entries, k, pk, after, entries[k].item)
    ensures
      var next := CorrectOne(ctx, prev, entries[k], after);
      Corrected(ctx, InsertAll(rows0, next.events), c0, next.cache, items, entries, k + 1, pk, after, entries[k].item)
  {
    hide IsHexKey, IsDestination, IsLineText, Winner, EventKey, Insert, InsertAll, AllKeyed, Combine, ItemInv, InPrefix,
      CorrectOne, Outcome, SoundKeys, HoldGet, Canonical;
    var e := entries[k];
    PrefixGrows(entries, k + 1, e.item);
    CorrectOneEffect(ctx, rows0, prev, e, after);
    CorrectionTransition(ctx.keys, InsertAll(rows0, prev.events), e.item, Winner(ctx.keys, items, e.item), e.hold,
                         OutcomeOf(ctx, c0, Some(e.hold)), after);
  }

  /** Any other item under that correction. */
  lemma CorrectedThere(ctx: Context, rows0: seq<AcsEvent>, c0: Cache, prev: Acc, items: seq<AcsRecord>,
                       entries: seq<Entry>, k: nat, pk: string, after: Flags, item: HexKey)
    requires k < |entries| && item != entries[k].item
    requires AllKeyed(ctx.keys, InsertAll(rows0, prev.events))
    requires Corrected(ctx, InsertAll(rows0, prev.events), c0, prev.cache, items, entries, k, pk, after, item)
    ensures
      var next := CorrectOne(ctx, prev, entries[k], after);
      Corrected(ctx, InsertAll(rows0, next.events), c0, next.cache, items, entries, k + 1, pk, after, item)
  {
    var e := entries[k];
    PrefixGrows(entries, k + 1, item);
    CorrectOneEffect(ctx, rows0, prev, e, after);
    hide IsHexKey, IsDestination, IsLineText, Winner, EventKey, Insert, InsertAll, AllKeyed, Combine, ItemInv, InPrefix,
      CorrectOne, Outcome;
    CorrectedElsewhere(ctx, InsertAll(rows0, prev.events), c0, prev.cache, items, entries, k, pk, after, item,
                       BuildAcsItem(ctx.keys, CorrectionContent(e, after), e.hold.revision + 1));
  }

  lemma CorrectOneKeeps(ctx: Context, rows0: seq<AcsEvent>, c0: Cache, prev: Acc, items: seq<AcsRecord>,
                        entries: seq<Entry>, k: nat, pk: string, after: Flags)
    requires SoundKeys(ctx.keys) && IsListing(entries, PatronHolds(c0, pk)) && k < |entries|
    requires AllCorrected(ctx, InsertAll(rows0, prev.events), c0, prev.cache, items, entries, k, pk, after)
    ensures
      var acc := CorrectOne(ctx, prev, entries[k], after);
      AllCorrected(ctx, InsertAll(rows0, acc.events), c0, acc.cache, items, entries, k + 1, pk, after)
  {
    DistinctItems(entries, PatronHolds(c0, pk), k);
    assert entries[k] in entries;
    CorrectOneEffect(ctx, rows0, prev, entries[k], after);
    hide IsHexKey, IsDestination, IsLineText, Corrected, CorrectOne, InsertAll, AllKeyed, SoundKeys, Insert, InPrefix, IsListing;
    var acc := CorrectOne(ctx, prev, entries[k], after);
    var rows, rows', k' := InsertAll(rows0, prev.events), InsertAll(rows0, acc.events), k + 1;
    forall item ensures Corrected(ctx, rows', c0, acc.cache, items, entries, k', pk, after, item) {
      assert Corrected(ctx, rows, c0, prev.cache, items, entries, k, pk, after, item);
      if item == entries[k].item {
        CorrectedHere(ctx, rows0, c0, prev, items, entries, k, pk, after);
      } else {
        CorrectedThere(ctx, rows0, c0, prev, items, entries, k, pk, after, item);
      }
    }
  }

  lemma {:induction false} CorrectionsKeep(ctx: Context, rows0: seq<AcsEvent>, acc0: Acc, items: seq<AcsRecord>,
                                           entries: seq<Entry>, k: nat, pk: string, after: Flags)
    requires SoundKeys(ctx.keys) && Inv(ctx, InsertAll(rows0, acc0.events), acc0.cache, items)
    requires IsListing(entries, PatronHolds(acc0.cache, pk)) && k <= |entries|
    ensures
      var acc := Corrections(ctx, acc0, entries[..k], after);
      AllCorrected(ctx, InsertAll(rows0, acc.events), acc0.cache, acc.cache, items, entries, k, pk, after)
  {
    hide IsHexKey, IsDestination, IsLineText, SoundKeys, AllCorrected, Inv, InsertAll, CorrectOne, IsListing, PatronHolds;
    if k == 0 {
      NothingCorrected(ctx, rows0, acc0, items, entries, pk, after);
    } else {
      CorrectionsKeep(ctx, rows0, acc0, items, entries, k - 1, pk, after);
      PrefixStep(entries, k - 1);
      CorrectOneKeeps(ctx, rows0, acc0.cache, Corrections(ctx, acc0, entries[..k - 1], after), items, entries, k - 1, pk, after);
    }
  }

  lemma NothingCorrected(ctx: Context, rows0: seq<AcsEvent>, acc0: Acc, items: seq<AcsRecord>,
                         entries: seq<Entry>, pk: string, after: Flags)
    requires Inv(ctx, InsertAll(rows0, acc0.events), acc0.cache, items)
    ensures AllCorrected(ctx, InsertAll(rows0, acc0.events), acc0.cache, acc0.cache, items, entries, 0, pk, after)
  {
    hide IsHexKey, IsDestination, IsLineText, ItemInv, Winner, InsertAll;
    var rows := InsertAll(rows0, acc0.events);
    forall item ensures Corrected(ctx, rows, acc0.cache, acc0.cache, items, entries, 0, pk, after, item) {
      assert ItemHolds(ctx, rows, acc0.cache, items, item);
    }
  }

  lemma PrefixGrows(entries: seq<Entry>, k: nat, item: HexKey)
    requires 0 < k <= |entries|
    ensures InPrefix(entries, k, item) <==> InPrefix(entries, k - 1, item) || item == entries[k - 1].item
  {
  }

  lemma DistinctItems(entries: seq<Entry>, s: set<Entry>, k: nat)
    requires IsListing(entries, s) && Patrons.Keyed(s) && k < |entries|
    ensures !InPrefix(entries, k, entries[k].item)
  {
    if InPrefix(entries, k, entries[k].item) {
      var j :| 0 <= j < k && entries[j].item == entries[k].item;
      assert entries[j] in entries && entries[k] in entries;
      assert entries[j] == entries[k];
      BeforeAsymmetric(entries[j], entries[k]);
    }
  }

  lemma CorrectedElsewhere(ctx: Context, rows: seq<AcsEvent>, c0: Cache, c: Cache, items: seq<AcsRecord>,
                           entries: seq<Entry>, k: nat, pk: string, after: Flags, item: HexKey, event: AcsEvent)
    requires Corrected(ctx, rows, c0, c, items, entries, k, pk, after, item) && event.content.item != item
    ensures Corrected(ctx, Insert(rows, event), c0, c, items, entries, k, pk, after, item)
  {
    var w := Winner(ctx.keys, items, item);
    if InPrefix(entries, k, item) {
      OtherItem(ctx.keys, rows, event, item, w, HoldGet(c, item), after);
    } else {
      OtherItem(ctx.keys, rows, event, item, w, HoldGet(c, item), OutcomeOf(ctx, c0, HoldGet(c, item)));
    }
  }

  /** The listing of a patron's holds names exactly the items whose ledger row is that patron's. */
  lemma ListedExactly(c: Cache, pk: string, entries: seq<Entry>, item: HexKey)
    requires IsListing(entries, PatronHolds(c, pk))
    ensures InPrefix(entries, |entries|, item) <==> HoldGet(c, item).Some? && HoldGet(c, item).value.patron == pk
  {
    if HoldGet(c, item).Some? && HoldGet(c, item).value.patron == pk {
      var e := Entry(item, HoldGet(c, item).value);
      assert e in PatronHolds(c, pk);
      assert e in entries;
    }
    if InPrefix(entries, |entries|, item) {
      var j :| 0 <= j < |entries| && entries[j].item == item;
      assert entries[j] in entries;
    }
  }

  /** One profile: the patron's holds are corrected, then the profile is staged; the invariant is back. */
  lemma ProfileStepKeeps(ctx: Context, rows0: seq<AcsEvent>, acc0: Acc, items: seq<AcsRecord>, pk: string, info: PatronInfo)
    requires SoundKeys(ctx.keys) && Inv(ctx, InsertAll(rows0, acc0.events), acc0.cache, items)
    ensures
      var acc := ProfileStep(ctx, acc0, pk, info);
      Inv(ctx, InsertAll(rows0, acc.events), acc.cache, items)
      && (forall p :: Lookup(acc.cache, p) == if p == pk then Some(info) else Lookup(acc0.cache, p))
      && (forall p :: Contains(acc.cache, p) <==> p == pk || Contains(acc0.cache, p))
  {
    hide IsHexKey, IsDestination, IsLineText, SoundKeys, Ledger.ItemInv, Ledger.AllKeyed, Winner, InsertAll, Corrections, ProfileOutcome;
    var after := ProfileOutcome(Some(info), ctx.rules);
    var corrected := CorrectPatron(ctx, acc0, pk, after);
    var acc := ProfileStep(ctx, acc0, pk, info);
    var rows := InsertAll(rows0, corrected.events);
    if Outcome(ctx, acc0.cache, pk) == after {
      forall item ensures ItemHolds(ctx, rows, acc.cache, items, item) {
        assert ItemHolds(ctx, rows, acc0.cache, items, item);
      }
    } else {
      var entries := HoldsForPatron(acc0.cache, pk);
      CorrectionsKeep(ctx, rows0, acc0, items, entries, |entries|, pk, after);
      assert entries[..|entries|] == entries;
      forall item ensures ItemHolds(ctx, rows, acc.cache, items, item) {
        assert Corrected(ctx, rows, acc0.cache, corrected.cache, items, entries, |entries|, pk, after, item);
        var h := HoldGet(corrected.cache, item);
        assert h == HoldGet(acc.cache, item);
        ListedExactly(acc0.cache, pk, entries, item);
      }
    }
  }

  /** The last value of a key in a dict. */
  function Find(dict: Dict, pk: string): Option<PatronInfo> {
    if dict == [] then None
    else if dict[|dict| - 1].0 == pk then Some(dict[|dict| - 1].1)
    else Find(dict[..|dict| - 1], pk)
  }

  lemma {:induction false} ProfilePassKeeps(ctx: Context, rows0: seq<AcsEvent>, c0: Cache, items: seq<AcsRecord>, dict: Dict)
    requires SoundKeys(ctx.keys) && Inv(ctx, rows0, c0, items)
    ensures
      var acc := ProfilePass(ctx, Acc(c0, []), dict);
      Inv(ctx, InsertAll(rows0, acc.events), acc.cache, items)
      && (forall p :: Lookup(acc.cache, p) == if Find(dict, p).Some? then Find(dict, p) else Lookup(c0, p))
      && (forall p :: Contains(acc.cache, p) <==> Find(dict, p).Some? || Contains(c0, p))
  {
    if dict != [] {
      var n := |dict| - 1;
      ProfilePassKeeps(ctx, rows0, c0, items, dict[..n]);
      ProfileStepKeeps(ctx, rows0, ProfilePass(ctx, Acc(c0, []), dict[..n]), items, dict[n].0, dict[n].1);
    }
  }

  // ----- sightings -----

  /** The two caches differ at most in sightings: same holds, same outcomes. */
  ghost predicate SameLedger(ctx: Context, a: Cache, b: Cache) {
    (forall item :: HoldGet(a, item) == HoldGet(b, item)) && (forall pk :: Outcome(ctx, a, pk) == Outcome(ctx, b, pk))
  }

  lemma SameLedgerKeeps(ctx: Context, rows: seq<AcsEvent>, a: Cache, b: Cache, items: seq<AcsRecord>)
    requires Inv(ctx, rows, a, items) && SameLedger(ctx, a, b)
    ensures Inv(ctx, rows, b, items)
  {
    forall item ensures ItemHolds(ctx, rows, b, items, item) {
      assert ItemHolds(ctx, rows, a, items, item);
    }
  }

  lemma SightingKeeps(ctx: Context, c: Cache, pk: string)
    ensures SameLedger(ctx, c, Stage(c, pk, NO_INFO, false))
    ensures forall p :: Contains(Stage(c, pk, NO_INFO, false), p) <==> p == pk || Contains(c, p)
  {
  }

  predicate Sights(keys: Keys, r: AcsRecord, pk: string) {
    r.code != Profile64 && r.patron != "" && keys.patron(r.patron) == pk
  }

  ghost predicate Sighted(keys: Keys, records: seq<AcsRecord>, pk: string) {
    exists k :: 0 <= k < |records| && Sights(keys, records[k], pk)
  }

  lemma {:induction false} SightingsKeep(ctx: Context, c: Cache, records: seq<AcsRecord>)
    ensures SameLedger(ctx, c, Sightings(ctx, c, records))
    ensures forall p :: Contains(Sightings(ctx, c, records), p) <==> Sighted(ctx.keys, records, p) || Contains(c, p)
  {
    if records != [] {
      var n := |records| - 1;
      SightingsKeep(ctx, c, records[..n]);
      var mid := Sightings(ctx, c, records[..n]);
      SightingKeeps(ctx, mid, ctx.keys.patron(records[n].patron));
      forall p ensures Sighted(ctx.keys, records, p) <==> Sighted(ctx.keys, records[..n], p) || Sights(ctx.keys, records[n], p) {
        if Sighted(ctx.keys, records[..n], p) {
          var k :| 0 <= k < n && Sights(ctx.keys, records[..n][k], p);
          assert Sights(ctx.keys, records[k], p);
        }
        if Sighted(ctx.keys, records, p) && !Sights(ctx.keys, records[n], p) {
          var k :| 0 <= k < |records| && Sights(ctx.keys, records[k], p);
          assert Sights(ctx.keys, records[..n][k], p);
        }
      }
    }
  }

  // ----- pass 2 -----

  function AdmittedOf(ctx: Context, c: Cache, records: seq<AcsRecord>): seq<AcsRecord> {
    if records == [] then []
    else
      var earlier := AdmittedOf(ctx, c, records[..|records| - 1]);
      if Admitted(ctx, c, records[|records| - 1]) then earlier + [records[|records| - 1]] else earlier
  }

  ghost predicate SameKnown(a: Cache, b: Cache) {
    forall pk :: Contains(a, pk) <==> Contains(b, pk)
  }

  lemma OrderlyPrefix(keys: Keys, items: seq<AcsRecord>, r: AcsRecord)
    requires Orderly(keys, items + [r])
    ensures Orderly(keys, items) && InOrder(keys, items, r)
  {
    assert (items + [r])[..|items|] == items;
  }

  lemma WinnerSnoc(keys: Keys, items: seq<AcsRecord>, r: AcsRecord, item: HexKey)
    ensures Winner(keys, items + [r], item) ==
      if keys.item(r.barcode) == item then Later(Winner(keys, items, item), r) else Winner(keys, items, item)
  {
    assert (items + [r])[..|items|] == items;
  }

  lemma StoreEntryGet(ctx: Context, c: Cache, item: HexKey, r: AcsRecord)
    ensures
      var h := HoldGet(c, item);
      var after := LedgerAfter(ctx, c, r, h);
      var d := StoreEntry(c, item, h, after, Puts(ctx, r, h));
      HoldGet(d, item) == after && (forall i :: i != item ==> HoldGet(d, i) == HoldGet(c, i))
      && d.overlay == c.overlay && d.patrons == c.patrons
  {
  }

  /** One admitted record keeps the invariant, with the record added to the items. */
  lemma AdmittedStepKeeps(ctx: Context, rows0: seq<AcsEvent>, acc: Acc, items: seq<AcsRecord>, r: AcsRecord)
    requires SoundKeys(ctx.keys) && Inv(ctx, InsertAll(rows0, acc.events), acc.cache, items)
    requires Admitted(ctx, acc.cache, r)
    requires ToldApart(InsertAll(rows0, acc.events), ctx.keys.item(r.barcode), Winner(ctx.keys, items, ctx.keys.item(r.barcode)), r)
    ensures
      var next := ItemStep(ctx, acc, r);
      Inv(ctx, InsertAll(rows0, next.events), next.cache, items + [r])
      && next.cache.overlay == acc.cache.overlay && next.cache.patrons == acc.cache.patrons
  {
    hide IsHexKey, IsDestination, IsLineText, SoundKeys, Ledger.ItemInv, Ledger.AllKeyed, Winner, Later, EventKey, Insert, LedgerAfter, HoldFlags,
      ToldApart;
    var rows := InsertAll(rows0, acc.events);
    var item := ctx.keys.item(r.barcode);
    var h := HoldGet(acc.cache, item);
    var e := ItemEvent(ctx, acc.cache, r, h);
    var next := ItemStep(ctx, acc, r);
    InsertAllSnoc(rows0, acc.events, e);
    InsertKeyed(ctx.keys, rows, ItemContent(ctx, acc.cache, r), ItemRevision(ctx, acc.cache, r, h));
    StoreEntryGet(ctx, acc.cache, item, r);
    assert ItemHolds(ctx, rows, acc.cache, items, item);
    ItemTransition(ctx, acc.cache, rows, item, Winner(ctx.keys, items, item), h, r);
    forall i ensures ItemHolds(ctx, Insert(rows, e), next.cache, items + [r], i) {
      WinnerSnoc(ctx.keys, items, r, i);
      assert ItemHolds(ctx, rows, acc.cache, items, i);
      if i != item {
        OtherItem(ctx.keys, rows, e, i, Winner(ctx.keys, items, i), h := HoldGet(acc.cache, i),
                  o := OutcomeOf(ctx, acc.cache, HoldGet(acc.cache, i)));
      }
    }
  }

  ghost predicate SameOutcomes(ctx: Context, a: Cache, b: Cache) {
    (forall pk :: Outcome(ctx, a, pk) == Outcome(ctx, b, pk))
  }

  /** The invariant of every item, and a source for every row. */
  ghost predicate SourcedInv(ctx: Context, rows: seq<AcsEvent>, c: Cache, items: seq<AcsRecord>) {
    Inv(ctx, rows, c, items) && AllSourced(ctx.keys, items, rows, c)
  }

  /** Any record of pass 2: guarded ones only move a sighting, refused ones do nothing. */
  lemma ItemStepKeeps(ctx: Context, rows0: seq<AcsEvent>, acc: Acc, items: seq<AcsRecord>, r: AcsRecord)
    requires SoundKeys(ctx.keys) && SourcedInv(ctx, InsertAll(rows0, acc.events), acc.cache, items)
    requires Admitted(ctx, acc.cache, r) ==> InOrder(ctx.keys, items, r)
    ensures
      var next := ItemStep(ctx, acc, r);
      SourcedInv(ctx, InsertAll(rows0, next.events), next.cache, if Admitted(ctx, acc.cache, r) then items + [r] else items)
      && SameOutcomes(ctx, acc.cache, next.cache) && SameKnown(acc.cache, next.cache)
  {
    hide IsHexKey, IsDestination, IsLineText, SoundKeys, Inv, ItemHolds, Winner, InsertAll, InOrder, ToldApart, RowsSourced,
      LedgerSourced;
    if Guarded(ctx, acc.cache, r) {
      var next := ItemStep(ctx, acc, r).cache;
      SightingKeeps(ctx, acc.cache, ctx.keys.patron(r.barcode));
      SameLedgerKeeps(ctx, InsertAll(rows0, acc.events), acc.cache, next, items);
      SameHoldsSourced(ctx.keys, items, InsertAll(rows0, acc.events), acc.cache, next);
    } else if Admitted(ctx, acc.cache, r) {
      InOrderToldApart(ctx.keys, InsertAll(rows0, acc.events), items, r);
      AdmittedStepKeeps(ctx, rows0, acc, items, r);
      AdmittedSourced(ctx, rows0, acc, items, r);
    }
  }

  lemma {:induction false} ItemPassKeeps(ctx: Context, rows0: seq<AcsEvent>, acc0: Acc, items: seq<AcsRecord>, records: seq<AcsRecord>)
    requires SoundKeys(ctx.keys) && SourcedInv(ctx, InsertAll(rows0, acc0.events), acc0.cache, items)
    requires Orderly(ctx.keys, items + AdmittedOf(ctx, acc0.cache, records))
    ensures
      var acc := ItemPass(ctx, acc0, records);
      SourcedInv(ctx, InsertAll(rows0, acc.events), acc.cache, items + AdmittedOf(ctx, acc0.cache, records))
      && SameOutcomes(ctx, acc0.cache, acc.cache) && SameKnown(acc0.cache, acc.cache)
  {
    hide IsHexKey, IsDestination, IsLineText, SoundKeys, SourcedInv, Winner, InsertAll, ItemStep, Contains, Outcome, Orderly, InOrder;
    if records == [] {
      assert items + [] == items;
    } else {
      var n := |records| - 1;
      var r := records[n];
      var earlier := AdmittedOf(ctx, acc0.cache, records[..n]);
      if Admitted(ctx, acc0.cache, r) {
        assert items + (earlier + [r]) == (items + earlier) + [r];
        OrderlyPrefix(ctx.keys, items + earlier, r);
      }
      ItemPassKeeps(ctx, rows0, acc0, items, records[..n]);
      ItemStepKeeps(ctx, rows0, ItemPass(ctx, acc0, records[..n]), items + earlier, r);
    }
  }
}
