/** What a chunk says of one item that none of its records is about: its ledger row's correction if it has a row,
    and nothing if it has none. What a reader sees of the item depends on those events alone. */
module OneItem {
  import opened Text
  import opened Identity
  import opened Classify
  import opened Patrons
  import opened Transform
  import opened Server
  import opened Ledger
  import opened Refinement
  import opened Runs
  import opened Retry

  // ----- one item's part of the stream -----

  function EventsAbout(events: seq<AcsEvent>, item: HexKey): seq<AcsEvent> {
    if events == [] then []
    else
      var earlier := EventsAbout(events[..|events| - 1], item);
      if events[|events| - 1].content.item == item then earlier + [events[|events| - 1]] else earlier
  }

  lemma {:induction false} AboutConcat(a: seq<AcsEvent>, b: seq<AcsEvent>, item: HexKey)
    ensures EventsAbout(a + b, item) == EventsAbout(a, item) + EventsAbout(b, item)
  {
    if b == [] {
      assert a + b == a;
    } else {
      AboutConcat(a, b[..|b| - 1], item);
      assert (a + b)[..|a + b| - 1] == a + b[..|b| - 1];
    }
  }

  lemma {:induction false} AboutHas(events: seq<AcsEvent>, item: HexKey, e: AcsEvent)
    ensures e in EventsAbout(events, item) <==> e in events && e.content.item == item
  {
    if events != [] {
      AboutHas(events[..|events| - 1], item, e);
      assert events == events[..|events| - 1] + [events[|events| - 1]];
    }
  }

  /** The two row lists say the same of the item, and store the same of its events. */
  ghost predicate SameItem(keys: Keys, a: seq<AcsEvent>, b: seq<AcsEvent>, item: HexKey) {
    Server.Latest(a, item) == Server.Latest(b, item)
    && forall content: Content, rev: nat :: content.item == item ==>
         (HasKey(a, EventKey(keys, content, rev)) <==> HasKey(b, EventKey(keys, content, rev)))
  }

  lemma HasKeyInserted(rows: seq<AcsEvent>, e: AcsEvent, key: string)
    ensures HasKey(Insert(rows, e), key) <==> HasKey(rows, key) || e.eventKey == key
  {
    var after := Insert(rows, e);
    if HasKey(rows, key) {
      var k :| 0 <= k < |rows| && rows[k].eventKey == key;
      assert after[k] == rows[k];
    }
    if e.eventKey == key && !HasKey(rows, key) { assert after[|rows|] == e; }
  }

  lemma OtherInserted(keys: Keys, a: seq<AcsEvent>, b: seq<AcsEvent>, item: HexKey, e: AcsEvent)
    requires SoundKeys(keys) && SameItem(keys, a, b, item) && e.content.item != item && Ledger.Keyed(keys, e)
    ensures SameItem(keys, Insert(a, e), b, item)
  {
    hide IsHexKey, IsDestination, IsLineText, EventKey, HasKey, Insert, Server.Latest;
    InsertLatest(a, e, item);
    var m: nat :| e.eventKey == EventKey(keys, e.content, m);
    forall content: Content, rev: nat | content.item == item
      ensures HasKey(Insert(a, e), EventKey(keys, content, rev)) <==> HasKey(b, EventKey(keys, content, rev))
    {
      HasKeyInserted(a, e, EventKey(keys, content, rev));
      if e.eventKey == EventKey(keys, content, rev) { EventKeyDetermines(keys, e.content, m, content, rev); }
    }
  }

  lemma OwnInserted(keys: Keys, a: seq<AcsEvent>, b: seq<AcsEvent>, item: HexKey, e: AcsEvent)
    requires SameItem(keys, a, b, item) && e.content.item == item && Ledger.Keyed(keys, e)
    ensures SameItem(keys, Insert(a, e), Insert(b, e), item)
  {
    hide IsHexKey, IsDestination, IsLineText, EventKey, HasKey, Insert, Server.Latest;
    InsertLatest(a, e, item);
    InsertLatest(b, e, item);
    var m: nat :| e.eventKey == EventKey(keys, e.content, m);
    assert HasKey(a, EventKey(keys, e.content, m)) <==> HasKey(b, EventKey(keys, e.content, m));
    forall content: Content, rev: nat | content.item == item
      ensures HasKey(Insert(a, e), EventKey(keys, content, rev)) <==> HasKey(Insert(b, e), EventKey(keys, content, rev))
    {
      HasKeyInserted(a, e, EventKey(keys, content, rev));
      HasKeyInserted(b, e, EventKey(keys, content, rev));
    }
  }

  /** What a reader sees of an item depends only on the events about it. */
  lemma {:induction false} AboutDecides(keys: Keys, a: seq<AcsEvent>, b: seq<AcsEvent>, item: HexKey, events: seq<AcsEvent>)
    requires SoundKeys(keys) && SameItem(keys, a, b, item) && AllKeyed(keys, events)
    ensures SameItem(keys, InsertAll(a, events), InsertAll(b, EventsAbout(events, item)), item)
  {
    hide IsHexKey, IsDestination, IsLineText, SameItem, Insert, SoundKeys;
    if events != [] {
      var init, e := events[..|events| - 1], events[|events| - 1];
      assert forall k :: 0 <= k < |init| ==> init[k] == events[k];
      AboutDecides(keys, a, b, item, init);
      var x, y := InsertAll(a, init), InsertAll(b, EventsAbout(init, item));
      if e.content.item == item {
        OwnInserted(keys, x, y, item, e);
        InsertAllSnoc(b, EventsAbout(init, item), e);
      } else {
        OtherInserted(keys, x, y, item, e);
      }
    }
  }

  // ----- the events of a chunk are keyed -----

  lemma {:induction false} CorrectionsKeyed(ctx: Context, acc: Acc, entries: seq<Entry>, after: Flags)
    requires AllKeyed(ctx.keys, acc.events)
    ensures AllKeyed(ctx.keys, Corrections(ctx, acc, entries, after).events)
  {
    hide IsHexKey, IsDestination, IsLineText, EventKey, Combine;
    if entries != [] { CorrectionsKeyed(ctx, acc, entries[..|entries| - 1], after); }
  }

  lemma {:induction false} ProfilePassKeyed(ctx: Context, acc: Acc, dict: Dict)
    requires AllKeyed(ctx.keys, acc.events)
    ensures AllKeyed(ctx.keys, ProfilePass(ctx, acc, dict).events)
  {
    hide IsHexKey, IsDestination, IsLineText, AllKeyed, Corrections, ProfileOutcome;
    if dict != [] {
      var n := |dict| - 1;
      ProfilePassKeyed(ctx, acc, dict[..n]);
      var prev := ProfilePass(ctx, acc, dict[..n]);
      CorrectionsKeyed(ctx, prev, HoldsForPatron(prev.cache, dict[n].0), ProfileOutcome(Some(dict[n].1), ctx.rules));
    }
  }

  lemma {:induction false} ItemPassKeyed(ctx: Context, acc: Acc, records: seq<AcsRecord>)
    requires AllKeyed(ctx.keys, acc.events)
    ensures AllKeyed(ctx.keys, ItemPass(ctx, acc, records).events)
  {
    hide IsHexKey, IsDestination, IsLineText, EventKey, ItemContent, ItemRevision, LedgerAfter, Puts, StoreEntry, HoldGet, Contains;
    if records != [] { ItemPassKeyed(ctx, acc, records[..|records| - 1]); }
  }

  lemma ChunkKeyed(ctx: Context, c: Cache, records: seq<AcsRecord>)
    ensures AllKeyed(ctx.keys, TransformChunk(ctx, c, records).events)
  {
    hide ProfilePass, ItemPass, Sightings, ProfileDict, SortByTime, ProfileRecords;
    ProfilePassKeyed(ctx, Acc(c, []), DictOf(ctx, records));
    ItemPassKeyed(ctx, AfterSightings(ctx, c, records), records);
  }

  // ----- what a chunk says of an item none of its records is about -----

  /** The correction of a ledger row under an outcome, if it changes the flags. */
  function CorrectionOf(keys: Keys, item: HexKey, h: LedgerHold, outcome: Flags): seq<AcsEvent> {
    var flags := Combine(h.own, outcome);
    if flags == h.flags then []
    else [BuildAcsItem(keys, HoldContent(h.time, item, h.destination, flags), h.revision + 1)]
  }

  lemma AboutOne(ctx: Context, prev: Acc, e: Entry, after: Flags, item: HexKey)
    ensures EventsAbout(CorrectOne(ctx, prev, e, after).events, item)
         == EventsAbout(prev.events, item) + (if e.item == item then CorrectionOf(ctx.keys, item, e.hold, after) else [])
  {
    hide IsHexKey, IsDestination, IsLineText, EventKey, Combine;
    var event := BuildAcsItem(ctx.keys, HoldContent(e.hold.time, e.item, e.hold.destination, Combine(e.hold.own, after)),
                              e.hold.revision + 1);
    AboutConcat(prev.events, [event], item);
    assert [event][..0] == [];
  }

  lemma {:induction false} AboutCorrections(ctx: Context, acc: Acc, entries: seq<Entry>, k: nat, pk: string, after: Flags,
                                            item: HexKey, h: LedgerHold)
    requires IsListing(entries, PatronHolds(acc.cache, pk)) && k <= |entries| && HoldGet(acc.cache, item) == Some(h)
    ensures EventsAbout(Corrections(ctx, acc, entries[..k], after).events, item)
         == EventsAbout(acc.events, item) + (if InPrefix(entries, k, item) then CorrectionOf(ctx.keys, item, h, after) else [])
  {
    hide IsHexKey, IsDestination, IsLineText, CorrectionOf, IsListing, HoldGet, CorrectOne, EventsAbout, InPrefix;
    if k == 0 {
      assert !InPrefix(entries, 0, item) by { NoneInPrefix(entries, item); }
    } else {
      AboutCorrections(ctx, acc, entries, k - 1, pk, after, item, h);
      PrefixStep(entries, k - 1);
      PrefixGrows(entries, k, item);
      EntryIsHeld(acc.cache, pk, entries, k - 1);
      AboutOne(ctx, Corrections(ctx, acc, entries[..k - 1], after), entries[k - 1], after, item);
    }
  }

  lemma NoneInPrefix(entries: seq<Entry>, item: HexKey)
    ensures !InPrefix(entries, 0, item)
  {
  }

  /** The ledger row after a profile: corrected if the outcome changes. */
  function NextHold(h: LedgerHold, stored: Flags, outcome: Flags): LedgerHold {
    if outcome == stored then h else CorrectedHold(h, outcome)
  }

  /** The correction a profile brings: none if the outcome that is stored is the same. */
  function Brought(keys: Keys, item: HexKey, h: LedgerHold, stored: Flags, outcome: Flags): seq<AcsEvent> {
    if outcome == stored then [] else CorrectionOf(keys, item, h, outcome)
  }

  /** Pass 1 up to some profile of the dict: nothing is said of the item before its patron's profile, and its
      correction, if any, with it. */
  ghost predicate SaidSoFar(ctx: Context, c: Cache, acc: Acc, dict: Dict, item: HexKey, h: LedgerHold) {
    match Find(dict, h.patron)
    case None =>
      EventsAbout(acc.events, item) == [] && HoldGet(acc.cache, item) == Some(h)
      && Lookup(acc.cache, h.patron) == Lookup(c, h.patron)
    case Some(info) =>
      var stored, outcome := Outcome(ctx, c, h.patron), ProfileOutcome(Some(info), ctx.rules);
      EventsAbout(acc.events, item) == Brought(ctx.keys, item, h, stored, outcome)
      && HoldGet(acc.cache, item) == Some(NextHold(h, stored, outcome))
      && Lookup(acc.cache, h.patron) == Some(info)
  }

  lemma AboutPatron(ctx: Context, acc: Acc, pk: string, after: Flags, item: HexKey, h: LedgerHold)
    requires HoldGet(acc.cache, item) == Some(h) && Outcome(ctx, acc.cache, pk) != after
    ensures EventsAbout(CorrectPatron(ctx, acc, pk, after).events, item)
         == EventsAbout(acc.events, item) + (if h.patron == pk then CorrectionOf(ctx.keys, item, h, after) else [])
  {
    hide IsHexKey, IsDestination, IsLineText, CorrectionOf, HoldGet, ProfileOutcome, InPrefix, EventsAbout;
    var entries := HoldsForPatron(acc.cache, pk);
    AboutCorrections(ctx, acc, entries, |entries|, pk, after, item, h);
    assert entries[..|entries|] == entries;
    ListedExactly(acc.cache, pk, entries, item);
  }

  /** Another patron's corrections say nothing of an item that is in no ledger row of theirs. */
  lemma AboutOther(ctx: Context, acc: Acc, pk: string, after: Flags, item: HexKey)
    requires HoldGet(acc.cache, item).Some? && HoldGet(acc.cache, item).value.patron != pk
    ensures EventsAbout(CorrectPatron(ctx, acc, pk, after).events, item) == EventsAbout(acc.events, item)
  {
    hide IsHexKey, IsDestination, IsLineText, HoldGet, ProfileOutcome, EventsAbout;
    if Outcome(ctx, acc.cache, pk) != after {
      AboutPatron(ctx, acc, pk, after, item, HoldGet(acc.cache, item).value);
    }
  }

  lemma {:induction false} AboutProfiles(ctx: Context, c: Cache, dict: Dict, item: HexKey, h: LedgerHold)
    requires UniqueKeys(dict) && HoldGet(c, item) == Some(h)
    ensures SaidSoFar(ctx, c, ProfilePass(ctx, Acc(c, []), dict), dict, item, h)
  {
    hide IsHexKey, IsDestination, IsLineText, SaidSoFar, ProfilePass, HoldGet;
    if dict == [] {
      NothingSaid(ctx, c, item, h);
    } else {
      var n := |dict| - 1;
      AboutProfiles(ctx, c, dict[..n], item, h);
      assert ProfilePass(ctx, Acc(c, []), dict) == ProfileStep(ctx, ProfilePass(ctx, Acc(c, []), dict[..n]), dict[n].0, dict[n].1)
        by { ProfilePassSnoc(ctx, Acc(c, []), dict); }
      FindPresent(dict[..n], dict[n].0);
      AboutProfile(ctx, c, ProfilePass(ctx, Acc(c, []), dict[..n]), dict, item, h);
    }
  }

  lemma NothingSaid(ctx: Context, c: Cache, item: HexKey, h: LedgerHold)
    requires HoldGet(c, item) == Some(h)
    ensures SaidSoFar(ctx, c, ProfilePass(ctx, Acc(c, []), []), [], item, h)
  {
  }

  lemma ProfilePassSnoc(ctx: Context, acc: Acc, dict: Dict)
    requires dict != []
    ensures ProfilePass(ctx, acc, dict)
         == ProfileStep(ctx, ProfilePass(ctx, acc, dict[..|dict| - 1]), dict[|dict| - 1].0, dict[|dict| - 1].1)
  {
  }

  lemma AboutProfile(ctx: Context, c: Cache, prev: Acc, dict: Dict, item: HexKey, h: LedgerHold)
    requires dict != [] && HoldGet(c, item) == Some(h)
    requires SaidSoFar(ctx, c, prev, dict[..|dict| - 1], item, h) && Find(dict[..|dict| - 1], dict[|dict| - 1].0).None?
    ensures SaidSoFar(ctx, c, ProfileStep(ctx, prev, dict[|dict| - 1].0, dict[|dict| - 1].1), dict, item, h)
  {
    hide IsHexKey, IsDestination, IsLineText, ProfileOutcome, CorrectPatron, EventsAbout, HoldGet, Combine, EventKey;
    var n := |dict| - 1;
    var pk, info := dict[n].0, dict[n].1;
    var after := ProfileOutcome(Some(info), ctx.rules);
    var corrected := CorrectPatron(ctx, prev, pk, after);
    var next := ProfileStep(ctx, prev, pk, info);
    CorrectPatronTables(ctx, prev, pk, after);
    CorrectPatronEffect(ctx, prev, pk, after, item);
    StageKeepsHolds(corrected.cache, pk, info, item);
    if pk != h.patron {
      AboutOther(ctx, prev, pk, after, item);
      assert Lookup(next.cache, h.patron) == Lookup(prev.cache, h.patron);
    } else if Outcome(ctx, prev.cache, pk) != after {
      AboutPatron(ctx, prev, pk, after, item, h);
    } else {
      assert corrected == prev by { QuietPatron(ctx, prev, pk, after); }
    }
  }

  lemma QuietPatron(ctx: Context, acc: Acc, pk: string, after: Flags)
    requires Outcome(ctx, acc.cache, pk) == after
    ensures CorrectPatron(ctx, acc, pk, after) == acc
  {
  }

  lemma StageKeepsHolds(c: Cache, pk: string, info: PatronInfo, item: HexKey)
    ensures HoldGet(Stage(c, pk, info, true), item) == HoldGet(c, item)
  {
  }

  lemma {:induction false} AboutItems(ctx: Context, acc: Acc, records: seq<AcsRecord>, item: HexKey)
    requires forall r :: r in AdmittedOf(ctx, acc.cache, records) ==> ItemOf(ctx, r) != item
    ensures EventsAbout(ItemPass(ctx, acc, records).events, item) == EventsAbout(acc.events, item)
    ensures SameKnown(acc.cache, ItemPass(ctx, acc, records).cache)
    ensures HoldGet(ItemPass(ctx, acc, records).cache, item) == HoldGet(acc.cache, item)
    ensures SameOutcomes(ctx, acc.cache, ItemPass(ctx, acc, records).cache)
  {
    hide IsHexKey, IsDestination, IsLineText, ItemStep, Contains, HoldGet, Outcome;
    if records != [] {
      var init, r := records[..|records| - 1], records[|records| - 1];
      AboutItems(ctx, acc, init, item);
      var prev := ItemPass(ctx, acc, init);
      assert Admitted(ctx, prev.cache, r) <==> Admitted(ctx, acc.cache, r) by { SameKnownAdmits(ctx, acc.cache, prev.cache, r); }
      if Admitted(ctx, acc.cache, r) {
        assert AdmittedOf(ctx, acc.cache, records) == AdmittedOf(ctx, acc.cache, init) + [r];
        assert r in AdmittedOf(ctx, acc.cache, records);
      }
      AboutStep(ctx, prev, r, item);
      ThroughKnown(acc.cache, prev.cache, ItemStep(ctx, prev, r).cache);
    }
  }

  lemma SameKnownAdmits(ctx: Context, a: Cache, b: Cache, r: AcsRecord)
    requires SameKnown(a, b)
    ensures Admitted(ctx, a, r) <==> Admitted(ctx, b, r)
  {
  }

  lemma ThroughKnown(a: Cache, b: Cache, c: Cache)
    requires SameKnown(a, b) && SameKnown(b, c)
    ensures SameKnown(a, c)
  {
  }

  lemma AboutStep(ctx: Context, acc: Acc, r: AcsRecord, item: HexKey)
    requires Admitted(ctx, acc.cache, r) ==> ItemOf(ctx, r) != item
    ensures EventsAbout(ItemStep(ctx, acc, r).events, item) == EventsAbout(acc.events, item)
    ensures SameKnown(acc.cache, ItemStep(ctx, acc, r).cache)
    ensures HoldGet(ItemStep(ctx, acc, r).cache, item) == HoldGet(acc.cache, item)
    ensures SameOutcomes(ctx, acc.cache, ItemStep(ctx, acc, r).cache)
  {
    hide IsHexKey, IsDestination, IsLineText, EventKey, ItemRevision, LedgerAfter, Puts, HoldFlags, InWindow;
    ItemStepTables(ctx, acc, r);
    if Guarded(ctx, acc.cache, r) { SightingKeeps(ctx, acc.cache, ctx.keys.patron(r.barcode)); }
    if Admitted(ctx, acc.cache, r) {
      var e := ItemEvent(ctx, acc.cache, r, HoldGet(acc.cache, ctx.keys.item(r.barcode)));
      AboutConcat(acc.events, [e], item);
      assert [e][..0] == [];
    }
  }

  /** The outcome a patron's profile has after the records, from the one that is stored. */
  function NewOutcome(ctx: Context, stored: Flags, records: seq<AcsRecord>, pk: string): Flags {
    match LatestProfile(ctx.keys, records, pk) case Some(r) => ProfileOutcome(Some(r.profile), ctx.rules) case None => stored
  }

  /** None of the records becomes an event about the item. */
  ghost predicate Silent(ctx: Context, c: Cache, records: seq<AcsRecord>, item: HexKey) {
    forall r :: r in AdmittedOf(ctx, AfterSightings(ctx, c, records).cache, records) ==> ItemOf(ctx, r) != item
  }

  /** Of an item none of its records is about, a chunk says only its ledger row's correction. */
  lemma AboutChunk(ctx: Context, c: Cache, records: seq<AcsRecord>, item: HexKey, h: LedgerHold)
    requires HoldGet(c, item) == Some(h) && Silent(ctx, c, records, item)
    ensures
      var stored := Outcome(ctx, c, h.patron);
      var outcome := NewOutcome(ctx, stored, records, h.patron);
      var out := TransformChunk(ctx, c, records);
      EventsAbout(out.events, item) == Brought(ctx.keys, item, h, stored, outcome)
      && HoldGet(out.cache, item) == Some(NextHold(h, stored, outcome))
      && Outcome(ctx, out.cache, h.patron) == outcome
  {
    hide IsHexKey, IsDestination, IsLineText, HoldGet, ItemPass, ProfilePass, Sightings, SortByTime, ProfileRecords, ProfileDict,
      EventsAbout, Find, LatestProfile, AdmittedOf, ProfileOutcome, Lookup, CorrectionOf, CorrectedHold;
    DictFindsLast(ctx.keys, SortByTime(ProfileRecords(records)), h.patron);
    SortFindsLatest(ctx.keys, records, h.patron);
    AboutProfiles(ctx, c, DictOf(ctx, records), item, h);
    var first := AfterProfiles(ctx, c, records);
    SightingsKeep(ctx, first.cache, records);
    assert HoldGet(first.cache, item) == HoldGet(AfterSightings(ctx, c, records).cache, item);
    assert Outcome(ctx, first.cache, h.patron) == Outcome(ctx, AfterSightings(ctx, c, records).cache, h.patron);
    AboutItems(ctx, AfterSightings(ctx, c, records), records, item);
  }

  // ----- an item that is in no ledger row -----

  lemma {:induction false} AbsentCorrections(ctx: Context, acc: Acc, entries: seq<Entry>, after: Flags, item: HexKey)
    requires forall e :: e in entries ==> e.item != item
    ensures EventsAbout(Corrections(ctx, acc, entries, after).events, item) == EventsAbout(acc.events, item)
  {
    hide IsHexKey, IsDestination, IsLineText, CorrectOne, EventsAbout;
    if entries != [] {
      var n := |entries| - 1;
      assert entries[n] in entries;
      AbsentCorrections(ctx, acc, entries[..n], after, item);
      AboutOne(ctx, Corrections(ctx, acc, entries[..n], after), entries[n], after, item);
    }
  }

  lemma {:induction false} AbsentProfiles(ctx: Context, c: Cache, dict: Dict, item: HexKey)
    requires HoldGet(c, item).None?
    ensures
      var acc := ProfilePass(ctx, Acc(c, []), dict);
      EventsAbout(acc.events, item) == [] && HoldGet(acc.cache, item).None?
  {
    hide IsHexKey, IsDestination, IsLineText, ProfileOutcome, HoldGet, EventsAbout, Corrections;
    if dict == [] {
      assert EventsAbout([], item) == [] by { NoneAbout(item); }
    } else {
      var n := |dict| - 1;
      AbsentProfiles(ctx, c, dict[..n], item);
      var prev := ProfilePass(ctx, Acc(c, []), dict[..n]);
      var pk, after := dict[n].0, ProfileOutcome(Some(dict[n].1), ctx.rules);
      var entries := HoldsForPatron(prev.cache, pk);
      forall e | e in entries ensures e.item != item { EntryOfHeld(prev.cache, pk, e); }
      AbsentCorrections(ctx, prev, entries, after, item);
      CorrectPatronEffect(ctx, prev, pk, after, item);
      StageKeepsHolds(CorrectPatron(ctx, prev, pk, after).cache, pk, dict[n].1, item);
    }
  }

  lemma NoneAbout(item: HexKey)
    ensures EventsAbout([], item) == []
  {
  }

  lemma EntryOfHeld(c: Cache, pk: string, e: Entry)
    requires e in HoldsForPatron(c, pk)
    ensures HoldGet(c, e.item) == Some(e.hold)
  {
    assert e in PatronHolds(c, pk);
  }

  /** Of an item in no ledger row that none of its records is about, a chunk says nothing. */
  lemma AbsentChunk(ctx: Context, c: Cache, records: seq<AcsRecord>, item: HexKey)
    requires HoldGet(c, item).None? && Silent(ctx, c, records, item)
    ensures
      var out := TransformChunk(ctx, c, records);
      EventsAbout(out.events, item) == [] && HoldGet(out.cache, item).None?
  {
    hide IsHexKey, IsDestination, IsLineText, HoldGet, ItemPass, ProfilePass, Sightings, SortByTime, ProfileRecords, ProfileDict,
      EventsAbout, AdmittedOf, Outcome;
    AbsentProfiles(ctx, c, DictOf(ctx, records), item);
    var first := AfterProfiles(ctx, c, records);
    SightingsKeep(ctx, first.cache, records);
    assert HoldGet(first.cache, item) == HoldGet(AfterSightings(ctx, c, records).cache, item);
    AboutItems(ctx, AfterSightings(ctx, c, records), records, item);
  }

  lemma {:induction false} NoItemsSilent(ctx: Context, c: Cache, records: seq<AcsRecord>)
    requires forall r :: r in records ==> r.code != Item10
    ensures AdmittedOf(ctx, c, records) == []
  {
    if records != [] {
      assert records[|records| - 1] in records;
      NoItemsSilent(ctx, c, records[..|records| - 1]);
    }
  }
}
