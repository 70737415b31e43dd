/** Where rows come from: every hold row of the server and every ledger row goes back to a hold record that was
    admitted, and every 101 non-hold row to such a record. This carries what the log says about one second of an
    item over to what the rows say. */
module Provenance {
  import opened Text
  import opened Identity
  import opened Classify
  import opened Patrons
  import opened Transform
  import opened Server
  import opened Ledger

  /** The record is a hold of the item in that second for that destination. */
  predicate HoldBy(keys: Keys, r: AcsRecord, item: HexKey, time: int, destination: Destination) {
    r.state == Hold && keys.item(r.barcode) == item && r.when == time && r.destination == destination
  }

  ghost predicate HoldRecorded(keys: Keys, items: seq<AcsRecord>, item: HexKey, time: int, destination: Destination) {
    exists k :: 0 <= k < |items| && HoldBy(keys, items[k], item, time, destination) && items[k].patron != ""
  }

  /** A hold without a patron has no flags but its own. */
  ghost predicate PlainRecorded(keys: Keys, items: seq<AcsRecord>, item: HexKey, time: int, destination: Destination, flags: Flags) {
    exists k :: 0 <= k < |items| && HoldBy(keys, items[k], item, time, destination) && items[k].patron == "" && items[k].own == flags
  }

  predicate NonHoldBy(keys: Keys, r: AcsRecord, item: HexKey, time: int) {
    r.state == NonHold101 && keys.item(r.barcode) == item && r.when == time
  }

  ghost predicate Sourced(keys: Keys, items: seq<AcsRecord>, content: Content) {
    match content
    case HoldContent(time, item, destination, flags) =>
      HoldRecorded(keys, items, item, time, destination) || PlainRecorded(keys, items, item, time, destination, flags)
    case Non101Content(time, item) => exists k :: 0 <= k < |items| && NonHoldBy(keys, items[k], item, time)
    case Other10Content(_, _) => true
  }

  ghost predicate RowsSourced(keys: Keys, items: seq<AcsRecord>, rows: seq<AcsEvent>) {
    forall k :: 0 <= k < |rows| ==> Sourced(keys, items, rows[k].content)
  }

  ghost predicate EntrySourced(keys: Keys, items: seq<AcsRecord>, item: HexKey, h: Option<LedgerHold>) {
    h.Some? ==> HoldRecorded(keys, items, item, h.value.time, h.value.destination)
  }

  ghost predicate LedgerSourced(keys: Keys, items: seq<AcsRecord>, c: Cache) {
    forall item :: EntrySourced(keys, items, item, HoldGet(c, item))
  }

  ghost predicate AllSourced(keys: Keys, items: seq<AcsRecord>, rows: seq<AcsEvent>, c: Cache) {
    RowsSourced(keys, items, rows) && LedgerSourced(keys, items, c)
  }

  lemma InsertSourced(keys: Keys, items: seq<AcsRecord>, rows: seq<AcsEvent>, e: AcsEvent)
    requires RowsSourced(keys, items, rows) && Sourced(keys, items, e.content)
    ensures RowsSourced(keys, items, Insert(rows, e))
  {
  }

  // ----- more items keep every source -----

  lemma HoldStaysRecorded(keys: Keys, items: seq<AcsRecord>, r: AcsRecord, item: HexKey, time: int, destination: Destination)
    requires HoldRecorded(keys, items, item, time, destination)
    ensures HoldRecorded(keys, items + [r], item, time, destination)
  {
    var k :| 0 <= k < |items| && HoldBy(keys, items[k], item, time, destination) && items[k].patron != "";
    assert (items + [r])[k] == items[k];
  }

  lemma StaysSourced(keys: Keys, items: seq<AcsRecord>, r: AcsRecord, content: Content)
    requires Sourced(keys, items, content)
    ensures Sourced(keys, items + [r], content)
  {
    match content {
      case HoldContent(time, item, destination, flags) =>
        if HoldRecorded(keys, items, item, time, destination) {
          HoldStaysRecorded(keys, items, r, item, time, destination);
        } else {
          var k :| 0 <= k < |items| && HoldBy(keys, items[k], item, time, destination) && items[k].patron == "" && items[k].own == flags;
          assert (items + [r])[k] == items[k];
        }
      case Non101Content(time, item) =>
        var k :| 0 <= k < |items| && NonHoldBy(keys, items[k], item, time);
        assert (items + [r])[k] == items[k];
      case Other10Content(_, _) =>
    }
  }

  lemma AllStaySourced(keys: Keys, items: seq<AcsRecord>, r: AcsRecord, rows: seq<AcsEvent>, c: Cache)
    requires AllSourced(keys, items, rows, c)
    ensures AllSourced(keys, items + [r], rows, c)
  {
    hide Sourced, HoldRecorded, HoldGet;
    forall k | 0 <= k < |rows| ensures Sourced(keys, items + [r], rows[k].content) {
      StaysSourced(keys, items, r, rows[k].content);
    }
    forall item ensures EntrySourced(keys, items + [r], item, HoldGet(c, item)) {
      var h := HoldGet(c, item);
      assert EntrySourced(keys, items, item, h);
      if h.Some? { HoldStaysRecorded(keys, items, r, item, h.value.time, h.value.destination); }
    }
  }

  lemma SameHoldsSourced(keys: Keys, items: seq<AcsRecord>, rows: seq<AcsEvent>, a: Cache, b: Cache)
    requires AllSourced(keys, items, rows, a) && forall item :: HoldGet(a, item) == HoldGet(b, item)
    ensures AllSourced(keys, items, rows, b)
  {
    forall item ensures EntrySourced(keys, items, item, HoldGet(b, item)) {
      assert EntrySourced(keys, items, item, HoldGet(a, item));
    }
  }

  // ----- pass 1 -----

  /** A correction says again what a ledger row's record said, with other flags. */
  lemma {:induction false} CorrectionsSourced(ctx: Context, rows0: seq<AcsEvent>, acc0: Acc, items: seq<AcsRecord>,
                                              entries: seq<Entry>, after: Flags)
    requires AllSourced(ctx.keys, items, InsertAll(rows0, acc0.events), acc0.cache)
    requires forall e :: e in entries ==> EntrySourced(ctx.keys, items, e.item, Some(e.hold))
    ensures
      var acc := Corrections(ctx, acc0, entries, after);
      AllSourced(ctx.keys, items, InsertAll(rows0, acc.events), acc.cache)
  {
    hide IsHexKey, IsDestination, IsLineText, EventKey, Sourced, HoldRecorded, Insert, Combine;
    if entries != [] {
      var n := |entries| - 1;
      CorrectionsSourced(ctx, rows0, acc0, items, entries[..n], after);
      assert entries[n] in entries;
      CorrectOneSourced(ctx, rows0, Corrections(ctx, acc0, entries[..n], after), items, entries[n], after);
    }
  }

  lemma CorrectOneSourced(ctx: Context, rows0: seq<AcsEvent>, prev: Acc, items: seq<AcsRecord>, e: Entry, after: Flags)
    requires AllSourced(ctx.keys, items, InsertAll(rows0, prev.events), prev.cache)
    requires EntrySourced(ctx.keys, items, e.item, Some(e.hold))
    ensures
      var next := CorrectOne(ctx, prev, e, after);
      AllSourced(ctx.keys, items, InsertAll(rows0, next.events), next.cache)
  {
    hide IsHexKey, IsDestination, IsLineText, EventKey, HoldRecorded, Insert, Combine;
    var flags := Combine(e.hold.own, after);
    if flags != e.hold.flags {
      var content := HoldContent(e.hold.time, e.item, e.hold.destination, flags);
      var event := BuildAcsItem(ctx.keys, content, e.hold.revision + 1);
      assert (prev.events + [event])[..|prev.events|] == prev.events;
      InsertSourced(ctx.keys, items, InsertAll(rows0, prev.events), event);
      var next := CorrectOne(ctx, prev, e, after).cache;
      forall item ensures EntrySourced(ctx.keys, items, item, HoldGet(next, item)) {
        assert EntrySourced(ctx.keys, items, item, HoldGet(prev.cache, item));
      }
    }
  }

  lemma {:induction false} ProfilePassSourced(ctx: Context, rows0: seq<AcsEvent>, c0: Cache, items: seq<AcsRecord>, dict: Dict)
    requires AllSourced(ctx.keys, items, rows0, c0)
    ensures
      var acc := ProfilePass(ctx, Acc(c0, []), dict);
      AllSourced(ctx.keys, items, InsertAll(rows0, acc.events), acc.cache)
  {
    hide IsHexKey, IsDestination, IsLineText, ProfileOutcome, Corrections, HoldRecorded, RowsSourced, Insert;
    if dict != [] {
      var n := |dict| - 1;
      ProfilePassSourced(ctx, rows0, c0, items, dict[..n]);
      var prev := ProfilePass(ctx, Acc(c0, []), dict[..n]);
      var pk, after := dict[n].0, ProfileOutcome(Some(dict[n].1), ctx.rules);
      var entries := HoldsForPatron(prev.cache, pk);
      forall e | e in entries ensures EntrySourced(ctx.keys, items, e.item, Some(e.hold)) {
        assert e in PatronHolds(prev.cache, pk);
        assert EntrySourced(ctx.keys, items, e.item, HoldGet(prev.cache, e.item));
      }
      CorrectionsSourced(ctx, rows0, prev, items, entries, after);
      var corrected := CorrectPatron(ctx, prev, pk, after);
      SameHoldsSourced(ctx.keys, items, InsertAll(rows0, corrected.events), corrected.cache,
                       Stage(corrected.cache, pk, dict[n].1, true));
    }
  }

  // ----- pass 2 -----

  /** A hold record without a patron is sent with its own flags. */
  lemma OwnFlags(ctx: Context, c: Cache, r: AcsRecord)
    requires r.patron == ""
    ensures HoldFlags(ctx, c, r) == r.own
  {
  }

  /** The event of an item record and the ledger row it leaves go back to that record. */
  lemma ItemSourced(ctx: Context, c: Cache, items: seq<AcsRecord>, r: AcsRecord, h: Option<LedgerHold>)
    requires EntrySourced(ctx.keys, items + [r], ctx.keys.item(r.barcode), h)
    ensures Sourced(ctx.keys, items + [r], ItemContent(ctx, c, r))
    ensures EntrySourced(ctx.keys, items + [r], ctx.keys.item(r.barcode), LedgerAfter(ctx, c, r, h))
  {
    hide IsHexKey, IsDestination, IsLineText, HoldFlags, NextRevision;
    var all := items + [r];
    assert all[|items|] == r;
    if r.state == Hold {
      assert HoldBy(ctx.keys, all[|items|], ctx.keys.item(r.barcode), r.when, r.destination);
      if r.patron == "" { OwnFlags(ctx, c, r); }
    } else if r.state == NonHold101 {
      assert NonHoldBy(ctx.keys, all[|items|], ctx.keys.item(r.barcode), r.when);
    }
  }

  /** One admitted record keeps every row's and every ledger row's source. */
  lemma AdmittedSourced(ctx: Context, rows0: seq<AcsEvent>, acc: Acc, items: seq<AcsRecord>, r: AcsRecord)
    requires AllSourced(ctx.keys, items, InsertAll(rows0, acc.events), acc.cache) && Admitted(ctx, acc.cache, r)
    ensures
      var next := ItemStep(ctx, acc, r);
      AllSourced(ctx.keys, items + [r], InsertAll(rows0, next.events), next.cache)
  {
    hide IsHexKey, IsDestination, IsLineText, EventKey, Sourced, HoldRecorded, Insert, LedgerAfter, ItemContent, ItemRevision,
      HoldGet, Contains, Puts;
    var item := ctx.keys.item(r.barcode);
    var h := HoldGet(acc.cache, item);
    var e := ItemEvent(ctx, acc.cache, r, h);
    AllStaySourced(ctx.keys, items, r, InsertAll(rows0, acc.events), acc.cache);
    ItemSourced(ctx, acc.cache, items, r, h);
    assert (acc.events + [e])[..|acc.events|] == acc.events;
    InsertSourced(ctx.keys, items + [r], InsertAll(rows0, acc.events), e);
    var next := ItemStep(ctx, acc, r).cache;
    forall i ensures EntrySourced(ctx.keys, items + [r], i, HoldGet(next, i)) {
      assert EntrySourced(ctx.keys, items + [r], i, HoldGet(acc.cache, i));
      EntryStored(ctx, acc.cache, item, r, i);
    }
  }

  lemma EntryStored(ctx: Context, c: Cache, item: HexKey, r: AcsRecord, i: HexKey)
    ensures
      var h := HoldGet(c, item);
      var after := LedgerAfter(ctx, c, r, h);
      HoldGet(StoreEntry(c, item, h, after, Puts(ctx, r, h)), i) == if i == item then after else HoldGet(c, i)
  {
  }

  // ----- what the sources give -----

  /** Records that can be told apart send events that the rows tell apart. */
  lemma InOrderToldApart(keys: Keys, rows: seq<AcsEvent>, items: seq<AcsRecord>, r: AcsRecord)
    requires RowsSourced(keys, items, rows) && InOrder(keys, items, r)
    ensures ToldApart(rows, keys.item(r.barcode), Winner(keys, items, keys.item(r.barcode)), r)
  {
    hide IsHexKey, IsDestination, IsLineText, Winner, Repeats;
    var item := keys.item(r.barcode);
    if r.state == Hold && NewHold(keys, items, r) {
      forall k | 0 <= k < |rows| && HoldAt(rows[k].content, item, r.when, r.destination)
        ensures r.patron == "" && rows[k].content.flags != r.own
      {
        assert Sourced(keys, items, rows[k].content);
        var j :| 0 <= j < |items| && HoldBy(keys, items[j], item, r.when, r.destination)
                 && (items[j].patron != "" || items[j].own == rows[k].content.flags);
        assert SameSecond(keys, items[j], r);
      }
    }
    if r.state == NonHold101 && NewNonHold(keys, items, r) {
      forall k | 0 <= k < |rows| ensures rows[k].content != Non101Content(r.when, item) {
        assert Sourced(keys, items, rows[k].content);
      }
    }
  }
}
