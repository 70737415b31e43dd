/** Crashes and retries of one chunk.

    A chunk is delivered, then its ledger rows are committed, then its patrons, then the cursor is saved
    (collector/v2_run.py, collector/v2_patrons.py). An attempt can stop between any two of these steps; the
    next attempt reads the same lines again. Here every attempt sees one clock reading and one day, and any
    number of stopped attempts followed by one that finishes leaves exactly what one uninterrupted attempt
    leaves; module Crashes gives each attempt a time of its own. */
module Retry {
  import opened Text
  import opened Identity
  import opened Classify
  import opened Patrons
  import opened Transform
  import opened Server
  import opened Ledger
  import opened Refinement
  import opened Runs

  // ----- attempts -----

  /** Everything that survives a crash. The cache's overlays live in memory only. */
  datatype Disk = Disk(rows: seq<AcsEvent>, patrons: map<string, PatronRow>, holds: map<HexKey, LedgerHold>, cursor: int)

  datatype Stop = AfterEvents(n: nat) | AfterHolds | AfterPatrons

  function Opened(disk: Disk): Cache {
    Cache(disk.patrons, disk.holds, map[], map[])
  }

  ghost function Out(ctx: Context, disk: Disk, records: seq<AcsRecord>): Acc {
    TransformChunk(ctx, Opened(disk), records)
  }

  function Prefix(events: seq<AcsEvent>, n: nat): seq<AcsEvent> {
    if n <= |events| then events[..n] else events
  }

  /** An attempt that stops: after the requests with the first n events were stored, after the ledger
      transaction, or after the patron transaction but before the cursor is saved. */
  ghost function Stopped(ctx: Context, today: int, disk: Disk, records: seq<AcsRecord>, stop: Stop): Disk {
    var out := Out(ctx, disk, records);
    match stop
    case AfterEvents(n) => disk.(rows := InsertAll(disk.rows, Prefix(out.events, n)))
    case AfterHolds => disk.(rows := InsertAll(disk.rows, out.events), holds := CommitHolds(out.cache).holds)
    case AfterPatrons =>
      disk.(rows := InsertAll(disk.rows, out.events), holds := Commit(out.cache, today).holds,
            patrons := Commit(out.cache, today).patrons)
  }

  ghost function Finished(ctx: Context, today: int, disk: Disk, records: seq<AcsRecord>, end: int): Disk {
    Stopped(ctx, today, disk, records, AfterPatrons).(cursor := end)
  }

  /** Stopped attempts that share one clock reading and one day. */
  ghost function StoppedAtOnce(ctx: Context, today: int, disk: Disk, records: seq<AcsRecord>, stops: seq<Stop>): Disk {
    if stops == [] then disk
    else Stopped(ctx, today, StoppedAtOnce(ctx, today, disk, records, stops[..|stops| - 1]), records, stops[|stops| - 1])
  }

  // ----- every ledger row carries the flags of its patron's known profile -----

  ghost predicate Coherent(ctx: Context, c: Cache) {
    forall item :: HoldGet(c, item).Some? ==>
      HoldGet(c, item).value.flags == Combine(HoldGet(c, item).value.own, Outcome(ctx, c, HoldGet(c, item).value.patron))
  }

  function CorrectedHold(h: LedgerHold, after: Flags): LedgerHold {
    var flags := Combine(h.own, after);
    if flags == h.flags then h else h.(flags := flags, revision := h.revision + 1)
  }

  /** The same hold, whatever was sent of it. */
  predicate SameHold(g: LedgerHold, h: LedgerHold) {
    g.time == h.time && g.patron == h.patron && g.destination == h.destination && g.own == h.own
  }

  ghost predicate SameHolds(a: Cache, b: Cache) {
    (forall item :: HoldGet(a, item).Some? <==> HoldGet(b, item).Some?)
    && (forall item :: HoldGet(a, item).Some? && HoldGet(b, item).Some? ==>
          SameHold(HoldGet(a, item).value, HoldGet(b, item).value))
  }

  /** The item's row after the first k corrections. */
  ghost predicate EntryEffect(c0: Cache, c: Cache, entries: seq<Entry>, k: nat, after: Flags, item: HexKey) {
    if InPrefix(entries, k, item) then
      HoldGet(c0, item).Some? && HoldGet(c, item) == Some(CorrectedHold(HoldGet(c0, item).value, after))
    else HoldGet(c, item) == HoldGet(c0, item)
  }

  lemma CorrectOneGet(ctx: Context, acc: Acc, e: Entry, after: Flags, item: HexKey)
    requires HoldGet(acc.cache, e.item) == Some(e.hold)
    ensures
      var c := CorrectOne(ctx, acc, e, after).cache;
      c.overlay == acc.cache.overlay && c.patrons == acc.cache.patrons && c.holds == acc.cache.holds
      && HoldGet(c, item) == if item == e.item then Some(CorrectedHold(e.hold, after)) else HoldGet(acc.cache, item)
  {
  }

  lemma {:induction false} CorrectionsEffect(ctx: Context, acc: Acc, entries: seq<Entry>, k: nat, pk: string, after: Flags)
    requires IsListing(entries, PatronHolds(acc.cache, pk)) && k <= |entries|
    ensures
      var c := Corrections(ctx, acc, entries[..k], after).cache;
      c.overlay == acc.cache.overlay && c.patrons == acc.cache.patrons && c.holds == acc.cache.holds
      && forall item :: EntryEffect(acc.cache, c, entries, k, after, item)
  {
    hide IsHexKey, IsDestination, IsLineText, CorrectOne, CorrectedHold, HoldGet, IsListing;
    if k > 0 {
      CorrectionsEffect(ctx, acc, entries, k - 1, pk, after);
      PrefixStep(entries, k - 1);
      EntryIsHeld(acc.cache, pk, entries, k - 1);
      var e := entries[k - 1];
      var prev := Corrections(ctx, acc, entries[..k - 1], after);
      assert EntryEffect(acc.cache, prev.cache, entries, k - 1, after, e.item);
      CorrectOneGet(ctx, prev, e, after, e.item);
      var c := CorrectOne(ctx, prev, e, after).cache;
      var k' := k;
      forall item ensures EntryEffect(acc.cache, c, entries, k', after, item) {
        assert EntryEffect(acc.cache, prev.cache, entries, k - 1, after, item);
        CorrectOneGet(ctx, prev, e, after, item);
        PrefixGrows(entries, k, item);
      }
    }
  }

  lemma EntryIsHeld(c: Cache, pk: string, entries: seq<Entry>, k: nat)
    requires IsListing(entries, PatronHolds(c, pk)) && k < |entries|
    ensures HoldGet(c, entries[k].item) == Some(entries[k].hold) && !InPrefix(entries, k, entries[k].item)
  {
    assert entries[k] in entries;
    DistinctItems(entries, PatronHolds(c, pk), k);
  }

  /** Correcting a patron whose outcome changes rewrites exactly that patron's rows. */
  lemma CorrectPatronEffect(ctx: Context, acc: Acc, pk: string, after: Flags, item: HexKey)
    ensures
      var c := CorrectPatron(ctx, acc, pk, after).cache;
      var h := HoldGet(acc.cache, item);
      HoldGet(c, item) == if h.Some? && h.value.patron == pk && Outcome(ctx, acc.cache, pk) != after
                          then Some(CorrectedHold(h.value, after)) else h
  {
    hide IsHexKey, IsDestination, IsLineText, CorrectedHold, HoldGet, ProfileOutcome, InPrefix;
    if Outcome(ctx, acc.cache, pk) != after {
      var entries := HoldsForPatron(acc.cache, pk);
      CorrectionsEffect(ctx, acc, entries, |entries|, pk, after);
      assert entries[..|entries|] == entries;
      ListedExactly(acc.cache, pk, entries, item);
      assert EntryEffect(acc.cache, CorrectPatron(ctx, acc, pk, after).cache, entries, |entries|, after, item);
    }
  }

  lemma CorrectPatronTables(ctx: Context, acc: Acc, pk: string, after: Flags)
    ensures
      var c := CorrectPatron(ctx, acc, pk, after).cache;
      c.overlay == acc.cache.overlay && c.patrons == acc.cache.patrons && c.holds == acc.cache.holds
  {
    hide IsHexKey, IsDestination, IsLineText, CorrectedHold, HoldGet, ProfileOutcome, InPrefix;
    if Outcome(ctx, acc.cache, pk) != after {
      var entries := HoldsForPatron(acc.cache, pk);
      CorrectionsEffect(ctx, acc, entries, |entries|, pk, after);
      assert entries[..|entries|] == entries;
    }
  }

  lemma ProfileStepCoherent(ctx: Context, acc: Acc, pk: string, info: PatronInfo)
    requires Coherent(ctx, acc.cache)
    ensures
      var c := ProfileStep(ctx, acc, pk, info).cache;
      Coherent(ctx, c) && c.patrons == acc.cache.patrons && c.holds == acc.cache.holds
      && c.overlay == acc.cache.overlay[pk := Staged(info, true)] && SameHolds(acc.cache, c)
  {
    hide IsHexKey, IsDestination, IsLineText, ProfileOutcome, CorrectPatron;
    var after := ProfileOutcome(Some(info), ctx.rules);
    var mid := CorrectPatron(ctx, acc, pk, after).cache;
    var c := ProfileStep(ctx, acc, pk, info).cache;
    CorrectPatronTables(ctx, acc, pk, after);
    forall item
      ensures HoldGet(c, item).Some? <==> HoldGet(acc.cache, item).Some?
      ensures HoldGet(c, item).Some? ==> SameHold(HoldGet(acc.cache, item).value, HoldGet(c, item).value)
      ensures HoldGet(c, item).Some? ==>
        HoldGet(c, item).value.flags == Combine(HoldGet(c, item).value.own, Outcome(ctx, c, HoldGet(c, item).value.patron))
    {
      CorrectPatronEffect(ctx, acc, pk, after, item);
      assert HoldGet(c, item) == HoldGet(mid, item);
      assert Lookup(c, pk) == Some(info);
      assert forall p :: p != pk ==> Lookup(c, p) == Lookup(acc.cache, p);
    }
  }

  function StagedProfiles(dict: Dict, overlay: map<string, Staged>): map<string, Staged> {
    if dict == [] then overlay
    else StagedProfiles(dict[..|dict| - 1], overlay)[dict[|dict| - 1].0 := Staged(dict[|dict| - 1].1, true)]
  }

  lemma {:induction false} ProfilePassCoherent(ctx: Context, c0: Cache, dict: Dict)
    requires Coherent(ctx, c0)
    ensures
      var c := ProfilePass(ctx, Acc(c0, []), dict).cache;
      Coherent(ctx, c) && c.patrons == c0.patrons && c.holds == c0.holds
      && c.overlay == StagedProfiles(dict, c0.overlay) && SameHolds(c0, c)
  {
    hide IsHexKey, IsDestination, IsLineText, Coherent, ProfileStep, HoldGet;
    if dict != [] {
      var n := |dict| - 1;
      ProfilePassCoherent(ctx, c0, dict[..n]);
      ProfileStepCoherent(ctx, ProfilePass(ctx, Acc(c0, []), dict[..n]), dict[n].0, dict[n].1);
    }
  }

  /** A patron whose rows already carry the outcome gets no correction. */
  lemma {:induction false} QuietCorrections(ctx: Context, acc: Acc, entries: seq<Entry>, after: Flags)
    requires forall e :: e in entries ==> e.hold.flags == Combine(e.hold.own, after)
    ensures Corrections(ctx, acc, entries, after) == acc
  {
    if entries != [] {
      assert entries[|entries| - 1] in entries;
      QuietCorrections(ctx, acc, entries[..|entries| - 1], after);
    }
  }

  /** The ledger's rows already carry what the dict's profiles say. */
  ghost predicate Settled(ctx: Context, c: Cache, dict: Dict) {
    forall k, item :: 0 <= k < |dict| && HoldGet(c, item).Some? && HoldGet(c, item).value.patron == dict[k].0 ==>
      HoldGet(c, item).value.flags == Combine(HoldGet(c, item).value.own, ProfileOutcome(Some(dict[k].1), ctx.rules))
  }

  lemma {:induction false} QuietProfilePass(ctx: Context, c0: Cache, dict: Dict)
    requires Settled(ctx, c0, dict)
    ensures ProfilePass(ctx, Acc(c0, []), dict) == Acc(c0.(overlay := StagedProfiles(dict, c0.overlay)), [])
  {
    if dict != [] {
      var n := |dict| - 1;
      assert Settled(ctx, c0, dict[..n]) by {
        assert forall k :: 0 <= k < n ==> dict[..n][k] == dict[k];
      }
      QuietProfilePass(ctx, c0, dict[..n]);
      var acc := ProfilePass(ctx, Acc(c0, []), dict[..n]);
      var entries := HoldsForPatron(acc.cache, dict[n].0);
      forall e | e in entries ensures e.hold.flags == Combine(e.hold.own, ProfileOutcome(Some(dict[n].1), ctx.rules)) {
        assert e in PatronHolds(acc.cache, dict[n].0);
        assert HoldGet(c0, e.item) == Some(e.hold) && e.hold.patron == dict[n].0;
      }
      QuietCorrections(ctx, acc, entries, ProfileOutcome(Some(dict[n].1), ctx.rules));
    }
  }

  // ----- pass 2 under the conditions of a plain chunk -----

  function ItemOf(ctx: Context, r: AcsRecord): HexKey {
    ctx.keys.item(r.barcode)
  }

  /** Hold records of one item and second repeat each other. */
  predicate HoldsAgree(ctx: Context, a: AcsRecord, b: AcsRecord) {
    a.state == Hold && b.state == Hold && a.when == b.when && ItemOf(ctx, a) == ItemOf(ctx, b) ==>
      a.patron == b.patron && a.own == b.own && a.destination == b.destination
  }

  predicate Agree(ctx: Context, admitted: seq<AcsRecord>) {
    forall i, j :: 0 <= i < |admitted| && 0 <= j < |admitted| ==> HoldsAgree(ctx, admitted[i], admitted[j])
  }

  /** No record of the item lies in the second of this ledger row. */
  predicate Apart(ctx: Context, admitted: seq<AcsRecord>, item: HexKey, time: int) {
    forall k :: 0 <= k < |admitted| && ItemOf(ctx, admitted[k]) == item ==> admitted[k].when != time
  }

  /** The record leaves this ledger row of its item as it is: it is older, or of another code and newer, or the
      same hold read again. */
  predicate Leaves(ctx: Context, r: AcsRecord, h: LedgerHold) {
    r.when < h.time
    || (r.when > h.time && r.state == OtherCode10)
    || (r.when == h.time && r.state == Hold && r.patron != "" && ctx.keys.patron(r.patron) == h.patron
        && r.own == h.own && r.destination == h.destination)
  }

  predicate Untouched(ctx: Context, admitted: seq<AcsRecord>, item: HexKey, h: LedgerHold) {
    forall k :: 0 <= k < |admitted| && ItemOf(ctx, admitted[k]) == item ==> Leaves(ctx, admitted[k], h)
  }

  /** No record of the item changes its ledger row. */
  predicate Stays(ctx: Context, c: Cache, admitted: seq<AcsRecord>, item: HexKey) {
    HoldGet(c, item).Some? && Untouched(ctx, admitted, item, HoldGet(c, item).value)
    && HoldGet(c, item).value.flags == Combine(HoldGet(c, item).value.own, Outcome(ctx, c, HoldGet(c, item).value.patron))
  }

  /** The revision of a record's event, from the ledger row its item had at first: a hold in that row's second
      takes the row's revision, any other starts at 0. */
  function RevisionAt(h: Option<LedgerHold>, r: AcsRecord): nat {
    if h.Some? && r.state == Hold && h.value.time == r.when then h.value.revision else 0
  }

  lemma StepLeaves(ctx: Context, c: Cache, r: AcsRecord, h: LedgerHold)
    requires Leaves(ctx, r, h) && h.flags == Combine(h.own, Outcome(ctx, c, h.patron))
    ensures LedgerAfter(ctx, c, r, Some(h)) == Some(h) && ItemRevision(ctx, c, r, Some(h)) == RevisionAt(Some(h), r)
  {
    hide IsHexKey, IsDestination, IsLineText, ProfileOutcome, Lookup;
  }

  /** The row a hold record with a patron leaves when it starts a new revision count. */
  function PutRow(ctx: Context, c: Cache, r: AcsRecord): LedgerHold {
    LedgerHold(r.when, ctx.keys.patron(r.patron), r.destination, r.own, HoldFlags(ctx, c, r), 0)
  }

  ghost predicate FromChunk(ctx: Context, c: Cache, admitted: seq<AcsRecord>, item: HexKey, h: LedgerHold) {
    exists k :: 0 <= k < |admitted| && admitted[k].state == Hold && admitted[k].patron != ""
                && ItemOf(ctx, admitted[k]) == item && h == PutRow(ctx, c, admitted[k])
  }

  ghost predicate Fits(ctx: Context, c: Cache, admitted: seq<AcsRecord>, item: HexKey, h: Option<LedgerHold>) {
    h.None? || FromChunk(ctx, c, admitted, item, h.value) || Apart(ctx, admitted, item, h.value.time)
  }

  /** The ledger step without revision bookkeeping. */
  function Simple(ctx: Context, c: Cache, r: AcsRecord, h: Option<LedgerHold>): Option<LedgerHold> {
    if r.state != Hold then NonHoldEntry(r, h)
    else if h.Some? && r.when < h.value.time then h
    else if r.patron != "" then Some(PutRow(ctx, c, r))
    else None
  }

  function Fold(ctx: Context, c: Cache, admitted: seq<AcsRecord>, item: HexKey, h: Option<LedgerHold>): Option<LedgerHold> {
    if admitted == [] then h
    else
      var before := Fold(ctx, c, admitted[..|admitted| - 1], item, h);
      var r := admitted[|admitted| - 1];
      if ItemOf(ctx, r) == item then Simple(ctx, c, r, before) else before
  }

  lemma StepIsSimple(ctx: Context, c: Cache, admitted: seq<AcsRecord>, k: nat, h: Option<LedgerHold>)
    requires k < |admitted| && Agree(ctx, admitted) && Fits(ctx, c, admitted, ItemOf(ctx, admitted[k]), h)
    ensures LedgerAfter(ctx, c, admitted[k], h) == Simple(ctx, c, admitted[k], h)
    ensures ItemRevision(ctx, c, admitted[k], h) == 0
    ensures RevisionAt(h, admitted[k]) == 0
    ensures Fits(ctx, c, admitted, ItemOf(ctx, admitted[k]), Simple(ctx, c, admitted[k], h))
  {
    var r := admitted[k];
    if r.state == Hold && h.Some? && h.value.time == r.when {
      var m :| 0 <= m < |admitted| && admitted[m].state == Hold && admitted[m].patron != ""
               && ItemOf(ctx, admitted[m]) == ItemOf(ctx, r) && h.value == PutRow(ctx, c, admitted[m]);
      assert HoldsAgree(ctx, admitted[m], r);
    }
  }

  /** The event of an admitted record. */
  function FirstEvent(ctx: Context, c: Cache, r: AcsRecord): AcsEvent {
    BuildAcsItem(ctx.keys, ItemContent(ctx, c, r), RevisionAt(HoldGet(c, ItemOf(ctx, r)), r))
  }

  function FirstEvents(ctx: Context, c: Cache, admitted: seq<AcsRecord>): seq<AcsEvent> {
    if admitted == [] then []
    else FirstEvents(ctx, c, admitted[..|admitted| - 1]) + [FirstEvent(ctx, c, admitted[|admitted| - 1])]
  }

  /** What the ledger has of the item after some of the records. */
  function Kept(ctx: Context, c: Cache, all: seq<AcsRecord>, admitted: seq<AcsRecord>, item: HexKey): Option<LedgerHold> {
    if Stays(ctx, c, all, item) then HoldGet(c, item) else Fold(ctx, c, admitted, item, HoldGet(c, item))
  }

  lemma OutcomesDecide(ctx: Context, a: Cache, b: Cache, r: AcsRecord, h: Option<LedgerHold>)
    requires SameOutcomes(ctx, a, b)
    ensures HoldFlags(ctx, a, r) == HoldFlags(ctx, b, r)
    ensures LedgerAfter(ctx, a, r, h) == LedgerAfter(ctx, b, r, h)
    ensures ItemContent(ctx, a, r) == ItemContent(ctx, b, r)
    ensures ItemRevision(ctx, a, r, h) == ItemRevision(ctx, b, r, h)
    ensures Simple(ctx, a, r, h) == Simple(ctx, b, r, h)
  {
    hide IsHexKey, IsDestination, IsLineText, ProfileOutcome;
    assert forall pk :: Outcome(ctx, a, pk) == Outcome(ctx, b, pk);
  }

  /** Pass 2 leaves each item's row or its fold in the ledger and sends each admitted record once. */
  ghost predicate Folded(ctx: Context, start: Acc, acc: Acc, all: seq<AcsRecord>, admitted: seq<AcsRecord>) {
    acc.events == start.events + FirstEvents(ctx, start.cache, admitted)
    && acc.cache.patrons == start.cache.patrons && acc.cache.holds == start.cache.holds
    && SameOutcomes(ctx, start.cache, acc.cache) && SameKnown(start.cache, acc.cache)
    && forall item :: HoldGet(acc.cache, item) == Kept(ctx, start.cache, all, admitted, item)
  }

  ghost predicate AllFit(ctx: Context, c: Cache, all: seq<AcsRecord>, admitted: seq<AcsRecord>) {
    forall item :: Stays(ctx, c, all, item) || Fits(ctx, c, all, item, Fold(ctx, c, admitted, item, HoldGet(c, item)))
  }

  lemma FoldSnoc(ctx: Context, c: Cache, admitted: seq<AcsRecord>, r: AcsRecord, item: HexKey, h: Option<LedgerHold>)
    ensures Fold(ctx, c, admitted + [r], item, h) ==
      if ItemOf(ctx, r) == item then Simple(ctx, c, r, Fold(ctx, c, admitted, item, h)) else Fold(ctx, c, admitted, item, h)
    ensures FirstEvents(ctx, c, admitted + [r])
         == FirstEvents(ctx, c, admitted) + [FirstEvent(ctx, c, r)]
  {
    assert (admitted + [r])[..|admitted|] == admitted;
  }

  lemma FoldStep(ctx: Context, start: Acc, acc: Acc, all: seq<AcsRecord>, admitted: seq<AcsRecord>)
    requires |admitted| < |all| && admitted == all[..|admitted|] && Plain(ctx, start.cache, all)
    requires Folded(ctx, start, acc, all, admitted) && AllFit(ctx, start.cache, all, admitted)
    requires Admitted(ctx, acc.cache, all[|admitted|])
    ensures Folded(ctx, start, ItemStep(ctx, acc, all[|admitted|]), all, admitted + [all[|admitted|]])
    ensures AllFit(ctx, start.cache, all, admitted + [all[|admitted|]])
  {
    hide IsHexKey, IsDestination, IsLineText, Fold, Simple, LedgerAfter, ItemRevision, ItemContent, Fits, ProfileOutcome,
      EventKey, Agree, FirstEvents, HoldFlags, Stays, RevisionAt;
    var r := all[|admitted|];
    var item := ItemOf(ctx, r);
    RecordStep(ctx, start.cache, all, admitted, r);
    OutcomesDecide(ctx, start.cache, acc.cache, r, HoldGet(acc.cache, item));
    StoreEntryGet(ctx, acc.cache, item, r);
    var next := ItemStep(ctx, acc, r);
    FoldSnoc(ctx, start.cache, admitted, r, item, HoldGet(start.cache, item));
    forall i
      ensures HoldGet(next.cache, i) == Kept(ctx, start.cache, all, admitted + [r], i)
      ensures Stays(ctx, start.cache, all, i)
              || Fits(ctx, start.cache, all, i, Fold(ctx, start.cache, admitted + [r], i, HoldGet(start.cache, i)))
    {
      FoldSnoc(ctx, start.cache, admitted, r, i, HoldGet(start.cache, i));
      assert Stays(ctx, start.cache, all, i)
             || Fits(ctx, start.cache, all, i, Fold(ctx, start.cache, admitted, i, HoldGet(start.cache, i)));
    }
    forall pk ensures Outcome(ctx, next.cache, pk) == Outcome(ctx, acc.cache, pk) {}
  }

  /** The record's own item: its ledger row and the revision of its event. */
  lemma RecordStep(ctx: Context, c: Cache, all: seq<AcsRecord>, admitted: seq<AcsRecord>, r: AcsRecord)
    requires |admitted| < |all| && admitted == all[..|admitted|] && r == all[|admitted|]
    requires Plain(ctx, c, all) && AllFit(ctx, c, all, admitted)
    ensures
      var item := ItemOf(ctx, r);
      var h := Kept(ctx, c, all, admitted, item);
      ItemRevision(ctx, c, r, h) == RevisionAt(HoldGet(c, item), r)
      && LedgerAfter(ctx, c, r, h) == (if Stays(ctx, c, all, item) then h else Simple(ctx, c, r, h))
      && (Stays(ctx, c, all, item) || Fits(ctx, c, all, item, Simple(ctx, c, r, h)))
  {
    hide IsHexKey, IsDestination, IsLineText, Fold, Simple, LedgerAfter, ItemRevision, ItemContent, Fits, ProfileOutcome,
      EventKey, Agree, HoldFlags, RevisionAt, HoldGet, Leaves, Lookup;
    var item, k := ItemOf(ctx, r), |admitted|;
    if Stays(ctx, c, all, item) {
      assert Leaves(ctx, all[k], HoldGet(c, item).value);
      StepLeaves(ctx, c, r, HoldGet(c, item).value);
    } else {
      StepIsSimple(ctx, c, all, k, Fold(ctx, c, admitted, item, HoldGet(c, item)));
      FoldNothing(ctx, c, item, HoldGet(c, item));
      StepIsSimple(ctx, c, all, k, HoldGet(c, item));
    }
  }

  lemma {:induction false} AdmittedPrefix(ctx: Context, c: Cache, records: seq<AcsRecord>, n: nat)
    requires n <= |records|
    ensures AdmittedOf(ctx, c, records[..n]) <= AdmittedOf(ctx, c, records)
    decreases |records|
  {
    if n < |records| {
      assert records[..|records| - 1][..n] == records[..n];
      AdmittedPrefix(ctx, c, records[..|records| - 1], n);
    } else {
      assert records[..n] == records;
    }
  }

  /** A chunk that leaves the ledger row of each item alone or has no record in its second, and whose same-second
      holds repeat each other. */
  ghost predicate Plain(ctx: Context, c: Cache, admitted: seq<AcsRecord>) {
    Agree(ctx, admitted) && AllFit(ctx, c, admitted, [])
  }

  lemma {:induction false} ItemPassFolds(ctx: Context, start: Acc, records: seq<AcsRecord>, n: nat)
    requires n <= |records| && Plain(ctx, start.cache, AdmittedOf(ctx, start.cache, records))
    ensures Folded(ctx, start, ItemPass(ctx, start, records[..n]), AdmittedOf(ctx, start.cache, records),
                   AdmittedOf(ctx, start.cache, records[..n]))
    ensures AllFit(ctx, start.cache, AdmittedOf(ctx, start.cache, records), AdmittedOf(ctx, start.cache, records[..n]))
  {
    hide IsHexKey, IsDestination, IsLineText, Folded, AllFit, Agree, ItemStep, Contains, Plain;
    var all := AdmittedOf(ctx, start.cache, records);
    if n == 0 {
      NothingFolded(ctx, start, all);
    } else {
      ItemPassFolds(ctx, start, records, n - 1);
      PrefixStep(records, n - 1);
      var r := records[n - 1];
      var before := AdmittedOf(ctx, start.cache, records[..n - 1]);
      var acc := ItemPass(ctx, start, records[..n - 1]);
      AdmittedPrefix(ctx, start.cache, records, n);
      FoldedKnown(ctx, start, acc, all, before, r);
      if Admitted(ctx, acc.cache, r) {
        FoldStep(ctx, start, acc, all, before);
      } else {
        FoldedSkip(ctx, start, acc, all, before, r);
      }
    }
  }

  lemma NothingFolded(ctx: Context, start: Acc, all: seq<AcsRecord>)
    ensures Folded(ctx, start, start, all, [])
    ensures Plain(ctx, start.cache, all) ==> AllFit(ctx, start.cache, all, [])
  {
  }

  lemma FoldedKnown(ctx: Context, start: Acc, acc: Acc, all: seq<AcsRecord>, admitted: seq<AcsRecord>, r: AcsRecord)
    requires Folded(ctx, start, acc, all, admitted)
    ensures Admitted(ctx, acc.cache, r) <==> Admitted(ctx, start.cache, r)
  {
  }

  lemma FoldedSkip(ctx: Context, start: Acc, acc: Acc, all: seq<AcsRecord>, admitted: seq<AcsRecord>, r: AcsRecord)
    requires Folded(ctx, start, acc, all, admitted) && !Admitted(ctx, acc.cache, r)
    ensures Folded(ctx, start, ItemStep(ctx, acc, r), all, admitted)
  {
    hide IsHexKey, IsDestination, IsLineText, Kept, FirstEvents;
    if Guarded(ctx, acc.cache, r) {
      SightingKeeps(ctx, acc.cache, ctx.keys.patron(r.barcode));
      var next := ItemStep(ctx, acc, r).cache;
      forall pk ensures Outcome(ctx, start.cache, pk) == Outcome(ctx, next, pk) {
        assert Outcome(ctx, start.cache, pk) == Outcome(ctx, acc.cache, pk);
      }
    }
  }

  // ----- folding again changes nothing -----

  function TimeUpTo(h: Option<LedgerHold>, bound: Option<LedgerHold>): bool {
    h.Some? && bound.Some? && h.value.time <= bound.value.time
  }

  /** How two folds over the same records relate when one starts from h0 and the other from s. */
  predicate Close(h0: Option<LedgerHold>, s: Option<LedgerHold>, a: Option<LedgerHold>, b: Option<LedgerHold>) {
    (b.None? || TimeUpTo(b, s) || b == a || (a == h0 && TimeUpTo(b, h0)))
    && (a.None? || a == h0 || TimeUpTo(a, s) || b == a)
  }

  lemma CloseStep(ctx: Context, c: Cache, r: AcsRecord, h0: Option<LedgerHold>, s: Option<LedgerHold>,
                  a: Option<LedgerHold>, b: Option<LedgerHold>)
    requires Close(h0, s, a, b) && (h0.Some? ==> r.when != h0.value.time)
    ensures Close(h0, s, Simple(ctx, c, r, a), Simple(ctx, c, r, b))
  {
  }

  lemma {:induction false} FoldsClose(ctx: Context, c: Cache, admitted: seq<AcsRecord>, item: HexKey,
                                      h0: Option<LedgerHold>, s: Option<LedgerHold>)
    requires h0.Some? ==> Apart(ctx, admitted, item, h0.value.time)
    ensures Close(h0, s, Fold(ctx, c, admitted, item, h0), Fold(ctx, c, admitted, item, s))
  {
    if admitted != [] {
      var n := |admitted| - 1;
      assert forall k :: 0 <= k < n ==> admitted[..n][k] == admitted[k];
      FoldsClose(ctx, c, admitted[..n], item, h0, s);
      if ItemOf(ctx, admitted[n]) == item {
        CloseStep(ctx, c, admitted[n], h0, s, Fold(ctx, c, admitted[..n], item, h0), Fold(ctx, c, admitted[..n], item, s));
      }
    }
  }

  /** Reading the chunk again over the ledger it left leaves that ledger. */
  lemma {:induction false} FoldTwice(ctx: Context, c: Cache, admitted: seq<AcsRecord>, item: HexKey, h0: Option<LedgerHold>)
    requires h0.Some? ==> Apart(ctx, admitted, item, h0.value.time)
    ensures Fold(ctx, c, admitted, item, Fold(ctx, c, admitted, item, h0)) == Fold(ctx, c, admitted, item, h0)
  {
    if admitted != [] {
      var n := |admitted| - 1;
      var r := admitted[n];
      assert forall k :: 0 <= k < n ==> admitted[..n][k] == admitted[k];
      FoldTwice(ctx, c, admitted[..n], item, h0);
      if ItemOf(ctx, r) == item {
        FoldsClose(ctx, c, admitted[..n], item, h0, Fold(ctx, c, admitted, item, h0));
      }
    }
  }

  // ----- what a chunk leaves, from any of the states a stop can leave behind -----

  ghost function Start(ctx: Context, disk: Disk, records: seq<AcsRecord>): Acc {
    AfterSightings(ctx, Opened(disk), records)
  }

  /** The item records that the chunk turns into events. */
  ghost function AdmittedIn(ctx: Context, disk: Disk, records: seq<AcsRecord>): seq<AcsRecord> {
    AdmittedOf(ctx, Start(ctx, disk, records).cache, records)
  }

  /** For each stored ledger row no admitted record of its item lies in its second, or all of them leave it alone,
      as the same hold read again does; and admitted holds of one item and second repeat each other. */
  ghost predicate Retryable(ctx: Context, disk: Disk, records: seq<AcsRecord>) {
    Agree(ctx, AdmittedIn(ctx, disk, records))
    && forall item :: item in disk.holds ==>
         Apart(ctx, AdmittedIn(ctx, disk, records), item, disk.holds[item].time)
         || Untouched(ctx, AdmittedIn(ctx, disk, records), item, disk.holds[item])
  }

  function DictOf(ctx: Context, records: seq<AcsRecord>): Dict {
    ProfileDict(ctx.keys, SortByTime(ProfileRecords(records)))
  }

  function SightedOverlay(keys: Keys, overlay: map<string, Staged>, records: seq<AcsRecord>): map<string, Staged> {
    if records == [] then overlay
    else
      var before := SightedOverlay(keys, overlay, records[..|records| - 1]);
      var r := records[|records| - 1];
      if r.code != Profile64 && r.patron != "" && keys.patron(r.patron) !in before
      then before[keys.patron(r.patron) := Staged(NO_INFO, false)] else before
  }

  lemma {:induction false} SightingsOverlay(ctx: Context, c: Cache, records: seq<AcsRecord>)
    ensures Sightings(ctx, c, records) == c.(overlay := SightedOverlay(ctx.keys, c.overlay, records))
  {
    if records != [] { SightingsOverlay(ctx, c, records[..|records| - 1]); }
  }

  lemma {:induction false} SightedKeepsStaged(keys: Keys, overlay: map<string, Staged>, records: seq<AcsRecord>, pk: string)
    requires pk in overlay
    ensures pk in SightedOverlay(keys, overlay, records) && SightedOverlay(keys, overlay, records)[pk] == overlay[pk]
  {
    if records != [] { SightedKeepsStaged(keys, overlay, records[..|records| - 1], pk); }
  }

  lemma {:induction false} StagedFind(dict: Dict, pk: string)
    ensures pk in StagedProfiles(dict, map[]) <==> Find(dict, pk).Some?
    ensures Find(dict, pk).Some? ==> StagedProfiles(dict, map[])[pk] == Staged(Find(dict, pk).value, true)
  {
    if dict != [] { StagedFind(dict[..|dict| - 1], pk); }
  }

  lemma {:induction false} FindOwn(dict: Dict, k: nat)
    requires UniqueKeys(dict) && k < |dict|
    ensures Find(dict, dict[k].0) == Some(dict[k].1)
  {
    var n := |dict| - 1;
    if k < n {
      assert dict[..n][k] == dict[k];
      FindOwn(dict[..n], k);
    }
  }

  /** The overlay a chunk starts pass 2 with, whatever the tables hold. */
  function StartOverlay(ctx: Context, records: seq<AcsRecord>): map<string, Staged> {
    SightedOverlay(ctx.keys, StagedProfiles(DictOf(ctx, records), map[]), records)
  }

  lemma StartOfChunk(ctx: Context, disk: Disk, records: seq<AcsRecord>)
    requires Coherent(ctx, Opened(disk))
    ensures
      var c := Start(ctx, disk, records).cache;
      Coherent(ctx, c) && c.patrons == disk.patrons && c.holds == disk.holds
      && c.overlay == StartOverlay(ctx, records) && SameHolds(Opened(disk), c)
  {
    hide IsHexKey, IsDestination, IsLineText, HoldGet, ProfileOutcome, SortByTime, ProfileDict, ProfileRecords, StagedProfiles;
    var first := AfterProfiles(ctx, Opened(disk), records);
    ProfilePassCoherent(ctx, Opened(disk), DictOf(ctx, records));
    SightingsOverlay(ctx, first.cache, records);
    SightingsKeep(ctx, first.cache, records);
    var c := Start(ctx, disk, records).cache;
    forall item ensures HoldGet(first.cache, item) == HoldGet(c, item) {}
    forall pk ensures Outcome(ctx, first.cache, pk) == Outcome(ctx, c, pk) {}
  }

  lemma {:induction false} AdmittedSame(ctx: Context, a: Cache, b: Cache, records: seq<AcsRecord>)
    requires SameKnown(a, b)
    ensures AdmittedOf(ctx, a, records) == AdmittedOf(ctx, b, records)
  {
    if records != [] { AdmittedSame(ctx, a, b, records[..|records| - 1]); }
  }

  lemma ItemStepTables(ctx: Context, acc: Acc, r: AcsRecord)
    ensures
      var c := ItemStep(ctx, acc, r).cache;
      c.patrons == acc.cache.patrons && c.holds == acc.cache.holds
      && c.overlay == if Guarded(ctx, acc.cache, r) then Stage(acc.cache, ctx.keys.patron(r.barcode), NO_INFO, false).overlay
                      else acc.cache.overlay
  {
    hide IsHexKey, IsDestination, IsLineText, EventKey, LedgerAfter, ItemContent, ItemRevision, Contains, InWindow, Puts;
  }

  /** Pass 2 stages the same sightings over any tables that know the same identifiers. */
  lemma {:induction false} ItemPassOverlay(ctx: Context, a: Acc, b: Acc, records: seq<AcsRecord>)
    requires a.cache.overlay == b.cache.overlay && SameKnown(a.cache, b.cache)
    ensures ItemPass(ctx, a, records).cache.overlay == ItemPass(ctx, b, records).cache.overlay
    ensures SameKnown(ItemPass(ctx, a, records).cache, ItemPass(ctx, b, records).cache)
  {
    hide ItemStep;
    if records != [] {
      var n := |records| - 1;
      ItemPassOverlay(ctx, a, b, records[..n]);
      ItemStepTables(ctx, ItemPass(ctx, a, records[..n]), records[n]);
      ItemStepTables(ctx, ItemPass(ctx, b, records[..n]), records[n]);
      var prevA, prevB := ItemPass(ctx, a, records[..n]).cache, ItemPass(ctx, b, records[..n]).cache;
      forall pk ensures Contains(ItemPass(ctx, a, records).cache, pk) <==> Contains(ItemPass(ctx, b, records).cache, pk) {
        assert Contains(prevA, pk) <==> Contains(prevB, pk);
      }
    }
  }

  lemma {:induction false} FoldSame(ctx: Context, a: Cache, b: Cache, admitted: seq<AcsRecord>, item: HexKey, h: Option<LedgerHold>)
    requires SameOutcomes(ctx, a, b)
    ensures Fold(ctx, a, admitted, item, h) == Fold(ctx, b, admitted, item, h)
  {
    hide SameOutcomes, Simple, ItemContent, IsHexKey, IsDestination, IsLineText, EventKey;
    if admitted != [] {
      var n := |admitted| - 1;
      FoldSame(ctx, a, b, admitted[..n], item, h);
      OutcomesDecide(ctx, a, b, admitted[n], Fold(ctx, a, admitted[..n], item, h));
    }
  }

  predicate SameRevision(ctx: Context, a: Cache, b: Cache, r: AcsRecord) {
    RevisionAt(HoldGet(a, ItemOf(ctx, r)), r) == RevisionAt(HoldGet(b, ItemOf(ctx, r)), r)
  }

  lemma {:induction false} EventsSame(ctx: Context, a: Cache, b: Cache, admitted: seq<AcsRecord>)
    requires SameOutcomes(ctx, a, b) && forall k :: 0 <= k < |admitted| ==> SameRevision(ctx, a, b, admitted[k])
    ensures FirstEvents(ctx, a, admitted) == FirstEvents(ctx, b, admitted)
  {
    hide SameOutcomes, Simple, ItemContent, IsHexKey, IsDestination, IsLineText, EventKey, RevisionAt, HoldGet, ItemOf;
    if admitted != [] {
      var n := |admitted| - 1;
      assert forall k :: 0 <= k < n ==> admitted[..n][k] == admitted[k];
      EventsSame(ctx, a, b, admitted[..n]);
      OutcomesDecide(ctx, a, b, admitted[n], None);
    }
  }

  lemma FitsSame(ctx: Context, a: Cache, b: Cache, admitted: seq<AcsRecord>, item: HexKey, h: Option<LedgerHold>)
    requires SameOutcomes(ctx, a, b) && Fits(ctx, a, admitted, item, h)
    ensures Fits(ctx, b, admitted, item, h)
  {
    if h.Some? && FromChunk(ctx, a, admitted, item, h.value) {
      var k :| 0 <= k < |admitted| && admitted[k].state == Hold && admitted[k].patron != ""
               && ItemOf(ctx, admitted[k]) == item && h.value == PutRow(ctx, a, admitted[k]);
      OutcomesDecide(ctx, a, b, admitted[k], h);
      assert h.value == PutRow(ctx, b, admitted[k]);
    }
  }

  lemma {:induction false} FoldCoherent(ctx: Context, c: Cache, admitted: seq<AcsRecord>, item: HexKey, h: Option<LedgerHold>)
    requires h.Some? ==> h.value.flags == Combine(h.value.own, Outcome(ctx, c, h.value.patron))
    ensures
      var f := Fold(ctx, c, admitted, item, h);
      f.Some? ==> f.value.flags == Combine(f.value.own, Outcome(ctx, c, f.value.patron))
  {
    hide IsHexKey, IsDestination, IsLineText, ProfileOutcome, Lookup;
    if admitted != [] { FoldCoherent(ctx, c, admitted[..|admitted| - 1], item, h); }
  }

  /** One whole attempt from a coherent, retryable disk. */
  lemma ChunkFolds(ctx: Context, disk: Disk, records: seq<AcsRecord>)
    requires Coherent(ctx, Opened(disk)) && Retryable(ctx, disk, records)
    ensures
      var start := Start(ctx, disk, records);
      var out := Out(ctx, disk, records);
      var admitted := AdmittedIn(ctx, disk, records);
      Folded(ctx, start, out, admitted, admitted) && AllFit(ctx, start.cache, admitted, admitted) && Coherent(ctx, out.cache)
  {
    hide IsHexKey, IsDestination, IsLineText, Agree, Fold, ProfileOutcome, Lookup, FirstEvents, AfterSightings, ItemPass,
      AdmittedOf, Fits, Stays;
    StartOfChunk(ctx, disk, records);
    var start := Start(ctx, disk, records);
    var admitted := AdmittedIn(ctx, disk, records);
    forall item
      ensures Stays(ctx, start.cache, admitted, item)
              || Fits(ctx, start.cache, admitted, item, Fold(ctx, start.cache, [], item, HoldGet(start.cache, item)))
    {
      StartFits(ctx, disk, records, item);
    }
    ItemPassFolds(ctx, start, records, |records|);
    assert records[..|records|] == records;
    var out := Out(ctx, disk, records);
    forall item | HoldGet(out.cache, item).Some?
      ensures HoldGet(out.cache, item).value.flags
        == Combine(HoldGet(out.cache, item).value.own, Outcome(ctx, out.cache, HoldGet(out.cache, item).value.patron))
    {
      FoldCoherent(ctx, start.cache, admitted, item, HoldGet(start.cache, item));
    }
  }

  /** At the start of pass 2 each ledger row stays as it is through the chunk, or has no record in its second. */
  lemma StartFits(ctx: Context, disk: Disk, records: seq<AcsRecord>, item: HexKey)
    requires Coherent(ctx, Opened(disk)) && Retryable(ctx, disk, records)
    ensures
      var start, admitted := Start(ctx, disk, records).cache, AdmittedIn(ctx, disk, records);
      var h := HoldGet(start, item);
      (Stays(ctx, start, admitted, item) || (h.Some? ==> Apart(ctx, admitted, item, h.value.time)))
      && (Stays(ctx, start, admitted, item) || Fits(ctx, start, admitted, item, Fold(ctx, start, [], item, h)))
  {
    hide IsHexKey, IsDestination, IsLineText, Agree, Fold, ProfileOutcome, Lookup, AfterSightings, AdmittedOf, Leaves;
    StartOfChunk(ctx, disk, records);
    var start, admitted := Start(ctx, disk, records).cache, AdmittedIn(ctx, disk, records);
    FoldNothing(ctx, start, item, HoldGet(start, item));
    assert HoldGet(Opened(disk), item).Some? <==> item in disk.holds;
    if HoldGet(start, item).Some? && Untouched(ctx, admitted, item, disk.holds[item]) {
      UntouchedSame(ctx, admitted, item, disk.holds[item], HoldGet(start, item).value);
    }
  }

  lemma UntouchedSame(ctx: Context, admitted: seq<AcsRecord>, item: HexKey, g: LedgerHold, h: LedgerHold)
    requires SameHold(g, h) && Untouched(ctx, admitted, item, g)
    ensures Untouched(ctx, admitted, item, h)
  {
  }

  lemma FoldNothing(ctx: Context, c: Cache, item: HexKey, h: Option<LedgerHold>)
    ensures Fold(ctx, c, [], item, h) == h
  {
  }

  // ----- reading the chunk again over what it left -----

  /** A disk whose ledger is the one the chunk leaves, with the patrons of before or after it. */
  ghost predicate LeftBy(ctx: Context, today: int, disk: Disk, records: seq<AcsRecord>, x: Disk) {
    var done := Commit(Out(ctx, disk, records).cache, today);
    x.holds == done.holds && (x.patrons == disk.patrons || x.patrons == done.patrons)
  }

  lemma LeftAnswers(ctx: Context, today: int, disk: Disk, records: seq<AcsRecord>, x: Disk)
    requires LeftBy(ctx, today, disk, records, x)
    ensures forall item :: HoldGet(Opened(x), item) == HoldGet(Out(ctx, disk, records).cache, item)
    ensures x.patrons == disk.patrons
         || (SameOutcomes(ctx, Opened(x), Out(ctx, disk, records).cache)
             && SameKnown(Opened(x), Out(ctx, disk, records).cache))
  {
    hide IsHexKey, IsDestination, IsLineText, ProfileOutcome, TransformChunk;
    var c := Out(ctx, disk, records).cache;
    CommitKeepsAnswers(c, today);
    forall item ensures HoldGet(Opened(x), item) == HoldGet(c, item) {
      assert HoldGet(Commit(c, today), item) == HoldGet(Opened(x), item);
    }
    if x.patrons != disk.patrons {
      var d := Commit(c, today);
      assert Opened(x) == d;
      forall pk ensures Outcome(ctx, Opened(x), pk) == Outcome(ctx, c, pk) {}
    }
  }

  /** Over tables that agree with a cache on outcomes and identifiers, the same overlay agrees with it too. */
  lemma OverlayOver(ctx: Context, x: Cache, c: Cache, y: Cache)
    requires SameOutcomes(ctx, x, c) && SameKnown(x, c)
    requires x.overlay == map[] && y == x.(overlay := c.overlay)
    ensures SameOutcomes(ctx, y, c) && SameKnown(y, c)
  {
    forall pk ensures Outcome(ctx, y, pk) == Outcome(ctx, c, pk) && (Contains(y, pk) <==> Contains(c, pk)) {
      assert Outcome(ctx, x, pk) == Outcome(ctx, c, pk);
      assert Contains(x, pk) <==> Contains(c, pk);
    }
  }

  /** The ledger the chunk leaves already carries the flags of the chunk's own profiles. */
  lemma LeftSettled(ctx: Context, today: int, disk: Disk, records: seq<AcsRecord>, x: Disk)
    requires Coherent(ctx, Opened(disk)) && Retryable(ctx, disk, records) && LeftBy(ctx, today, disk, records, x)
    ensures Settled(ctx, Opened(x), DictOf(ctx, records))
  {
    hide IsHexKey, IsDestination, IsLineText, ProfileOutcome, TransformChunk, AfterSightings, Folded, AllFit, Retryable,
      HoldGet, SortByTime, ProfileDict, ProfileRecords, StagedProfiles, Find;
    var c := Out(ctx, disk, records).cache;
    var start := Start(ctx, disk, records).cache;
    var dict := DictOf(ctx, records);
    ChunkFolds(ctx, disk, records);
    StartOfChunk(ctx, disk, records);
    LeftAnswers(ctx, today, disk, records, x);
    DictUnique(ctx, records);
    FoldedOutcomes(ctx, disk, records);
    forall k, item | 0 <= k < |dict| && HoldGet(Opened(x), item).Some? && HoldGet(Opened(x), item).value.patron == dict[k].0
      ensures HoldGet(Opened(x), item).value.flags
           == Combine(HoldGet(Opened(x), item).value.own, ProfileOutcome(Some(dict[k].1), ctx.rules))
    {
      assert HoldGet(Opened(x), item) == HoldGet(c, item);
      FindOwn(dict, k);
      StagedFind(dict, dict[k].0);
      SightedKeepsStaged(ctx.keys, StagedProfiles(dict, map[]), records, dict[k].0);
      assert Lookup(start, dict[k].0) == Some(dict[k].1);
      assert Outcome(ctx, c, dict[k].0) == Outcome(ctx, start, dict[k].0);
    }
  }

  lemma DictUnique(ctx: Context, records: seq<AcsRecord>)
    ensures UniqueKeys(DictOf(ctx, records))
  {
    DictFindsLast(ctx.keys, SortByTime(ProfileRecords(records)), "");
  }

  lemma FoldedOutcomes(ctx: Context, disk: Disk, records: seq<AcsRecord>)
    requires Coherent(ctx, Opened(disk)) && Retryable(ctx, disk, records)
    ensures SameOutcomes(ctx, Start(ctx, disk, records).cache, Out(ctx, disk, records).cache)
    ensures SameKnown(Start(ctx, disk, records).cache, Out(ctx, disk, records).cache)
  {
    ChunkFolds(ctx, disk, records);
  }

  /** Pass 1 of the second reading sends nothing and leaves the ledger. */
  lemma RereadStart(ctx: Context, today: int, disk: Disk, records: seq<AcsRecord>, x: Disk)
    requires Coherent(ctx, Opened(disk)) && Retryable(ctx, disk, records) && LeftBy(ctx, today, disk, records, x)
    ensures
      var start := Start(ctx, disk, records).cache;
      var again := Start(ctx, x, records);
      again.events == [] && again.cache == Opened(x).(overlay := start.overlay)
      && SameOutcomes(ctx, again.cache, start) && SameKnown(again.cache, start)
  {
    hide IsHexKey, IsDestination, IsLineText, ProfileOutcome, TransformChunk, Folded, AllFit, Retryable,
      HoldGet, Lookup, SortByTime, ProfileDict, ProfileRecords, StagedProfiles, Sightings, SightedOverlay, ProfilePass, Settled;
    var dict := DictOf(ctx, records);
    LeftSettled(ctx, today, disk, records, x);
    QuietProfilePass(ctx, Opened(x), dict);
    SightingsOverlay(ctx, AfterProfiles(ctx, Opened(x), records).cache, records);
    StartOfChunk(ctx, disk, records);
    var start := Start(ctx, disk, records).cache;
    var again := Start(ctx, x, records).cache;
    FoldedOutcomes(ctx, disk, records);
    LeftAnswers(ctx, today, disk, records, x);
    if x.patrons == disk.patrons {
      SameTablesSame(ctx, again, start);
    } else {
      ThroughOut(ctx, Opened(x), Out(ctx, disk, records).cache, start);
      OverlayOver(ctx, Opened(x), start, again);
    }
  }

  lemma SameTablesSame(ctx: Context, a: Cache, b: Cache)
    requires a.patrons == b.patrons && a.overlay == b.overlay
    ensures SameOutcomes(ctx, a, b) && SameKnown(a, b)
  {
  }

  lemma ThroughOut(ctx: Context, x: Cache, c: Cache, start: Cache)
    requires SameOutcomes(ctx, x, c) && SameKnown(x, c) && SameOutcomes(ctx, start, c) && SameKnown(start, c)
    ensures SameOutcomes(ctx, x, start) && SameKnown(x, start)
  {
    forall pk ensures Outcome(ctx, x, pk) == Outcome(ctx, start, pk) && (Contains(x, pk) <==> Contains(start, pk)) {
      assert Outcome(ctx, x, pk) == Outcome(ctx, c, pk);
      assert Outcome(ctx, start, pk) == Outcome(ctx, c, pk);
      assert Contains(x, pk) <==> Contains(c, pk);
      assert Contains(start, pk) <==> Contains(c, pk);
    }
  }

  lemma OverlayKeepsHolds(c: Cache, overlay: map<string, Staged>)
    ensures forall item :: HoldGet(c.(overlay := overlay), item) == HoldGet(c, item)
  {
  }

  /** What the second reading starts from: each row stays again, or fits. */
  lemma RereadFits(ctx: Context, disk: Disk, records: seq<AcsRecord>, c: Cache, item: HexKey)
    requires Coherent(ctx, Opened(disk)) && Retryable(ctx, disk, records)
    requires SameOutcomes(ctx, c, Start(ctx, disk, records).cache)
    requires HoldGet(c, item) == HoldGet(Out(ctx, disk, records).cache, item)
    ensures
      var start, admitted := Start(ctx, disk, records).cache, AdmittedIn(ctx, disk, records);
      if Stays(ctx, start, admitted, item) then Stays(ctx, c, admitted, item) && HoldGet(c, item) == HoldGet(start, item)
      else Fits(ctx, c, admitted, item, HoldGet(c, item))
  {
    hide IsHexKey, IsDestination, IsLineText, AfterSightings, Fold, Fits, HoldGet, AdmittedOf, TransformChunk, Outcome, Untouched;
    ChunkFolds(ctx, disk, records);
    var start, admitted := Start(ctx, disk, records).cache, AdmittedIn(ctx, disk, records);
    assert Stays(ctx, start, admitted, item)
           || Fits(ctx, start, admitted, item, Fold(ctx, start, admitted, item, HoldGet(start, item)));
    if !Stays(ctx, start, admitted, item) { FitsSame(ctx, start, c, admitted, item, HoldGet(c, item)); }
  }

  lemma RereadItem(ctx: Context, disk: Disk, records: seq<AcsRecord>, c: Cache, item: HexKey)
    requires Coherent(ctx, Opened(disk)) && Retryable(ctx, disk, records)
    requires SameOutcomes(ctx, c, Start(ctx, disk, records).cache)
    requires HoldGet(c, item) == HoldGet(Out(ctx, disk, records).cache, item)
    ensures Kept(ctx, c, AdmittedIn(ctx, disk, records), AdmittedIn(ctx, disk, records), item) == HoldGet(c, item)
  {
    var start, admitted := Start(ctx, disk, records).cache, AdmittedIn(ctx, disk, records);
    hide IsHexKey, IsDestination, IsLineText, AfterSightings, Fold, HoldGet, AdmittedOf, TransformChunk, Outcome, Agree, Coherent,
      Stays, Fits, Apart, FirstEvents;
    ChunkFolds(ctx, disk, records);
    RereadFits(ctx, disk, records, c, item);
    if !Stays(ctx, start, admitted, item) {
      FoldSame(ctx, c, start, admitted, item, HoldGet(c, item));
      StartFits(ctx, disk, records, item);
      FoldTwice(ctx, start, admitted, item, HoldGet(start, item));
    }
  }

  /** Both readings give a record's event the same revision. */
  lemma RereadRevision(ctx: Context, disk: Disk, records: seq<AcsRecord>, c: Cache, k: nat)
    requires Coherent(ctx, Opened(disk)) && Retryable(ctx, disk, records)
    requires SameOutcomes(ctx, c, Start(ctx, disk, records).cache) && k < |AdmittedIn(ctx, disk, records)|
    requires
      var item := ItemOf(ctx, AdmittedIn(ctx, disk, records)[k]);
      HoldGet(c, item) == HoldGet(Out(ctx, disk, records).cache, item)
    ensures SameRevision(ctx, c, Start(ctx, disk, records).cache, AdmittedIn(ctx, disk, records)[k])
  {
    var start, admitted := Start(ctx, disk, records).cache, AdmittedIn(ctx, disk, records);
    hide IsHexKey, IsDestination, IsLineText, AfterSightings, Fold, HoldGet, AdmittedOf, TransformChunk, Outcome, Coherent, Stays,
      Fits, Simple, RevisionAt, LedgerAfter, ItemRevision;
    var item := ItemOf(ctx, admitted[k]);
    RereadFits(ctx, disk, records, c, item);
    if !Stays(ctx, start, admitted, item) {
      StartFits(ctx, disk, records, item);
      FoldNothing(ctx, start, item, HoldGet(start, item));
      StepIsSimple(ctx, start, admitted, k, HoldGet(start, item));
      StepIsSimple(ctx, c, admitted, k, HoldGet(c, item));
    }
  }

  /** The second reading sends only what the first sent, and leaves the same ledger and the same overlay. */
  lemma RereadAtOnce(ctx: Context, today: int, disk: Disk, records: seq<AcsRecord>, x: Disk)
    requires Coherent(ctx, Opened(disk)) && Retryable(ctx, disk, records) && LeftBy(ctx, today, disk, records, x)
    ensures
      var out, again := Out(ctx, disk, records), Out(ctx, x, records);
      (forall k :: 0 <= k < |again.events| ==> again.events[k] in out.events)
      && (forall item :: HoldGet(again.cache, item) == HoldGet(out.cache, item))
      && again.cache.overlay == out.cache.overlay && again.cache.patrons == x.patrons
  {
    hide IsHexKey, IsDestination, IsLineText, ProfileOutcome, AfterSightings, Contains, Agree, ItemPass, FirstEvents,
      HoldGet, Lookup, Stays, Fits, Fold, SameRevision, Kept, SortByTime, ProfileDict, ProfileRecords,
      StagedProfiles, Sightings, SightedOverlay, Coherent, LeftBy;
    var start, restart := Start(ctx, disk, records), Start(ctx, x, records);
    var admitted := AdmittedIn(ctx, disk, records);
    ChunkFolds(ctx, disk, records);
    RereadStart(ctx, today, disk, records, x);
    LeftAnswers(ctx, today, disk, records, x);
    OverlayKeepsHolds(Opened(x), start.cache.overlay);
    AdmittedSame(ctx, restart.cache, start.cache, records);
    StartOfChunk(ctx, disk, records);
    forall item
      ensures Stays(ctx, restart.cache, admitted, item)
              || Fits(ctx, restart.cache, admitted, item, Fold(ctx, restart.cache, [], item, HoldGet(restart.cache, item)))
    {
      RereadFits(ctx, disk, records, restart.cache, item);
      FoldNothing(ctx, restart.cache, item, HoldGet(restart.cache, item));
    }
    ItemPassFolds(ctx, restart, records, |records|);
    assert records[..|records|] == records;
    ItemPassOverlay(ctx, restart, start, records);
    forall item ensures HoldGet(Out(ctx, x, records).cache, item) == HoldGet(Out(ctx, disk, records).cache, item) {
      RereadItem(ctx, disk, records, restart.cache, item);
    }
    forall k | 0 <= k < |admitted| ensures SameRevision(ctx, restart.cache, start.cache, admitted[k]) {
      RereadRevision(ctx, disk, records, restart.cache, k);
    }
    EventsSame(ctx, restart.cache, start.cache, admitted);
  }

  // ----- the theorem -----

  /** The states a stop can leave, all on the way to one finished attempt. */
  ghost predicate OnTheWay(ctx: Context, today: int, disk: Disk, records: seq<AcsRecord>, d: Disk) {
    var out := Out(ctx, disk, records);
    var done := Commit(out.cache, today);
    d.cursor == disk.cursor
    && ((d.holds == disk.holds && d.patrons == disk.patrons
         && exists n: nat :: d.rows == InsertAll(disk.rows, Prefix(out.events, n)))
        || (d.rows == InsertAll(disk.rows, out.events) && LeftBy(ctx, today, disk, records, d)))
  }

  lemma {:induction false} ResendPrefix(rows: seq<AcsEvent>, events: seq<AcsEvent>, n: nat, m: nat)
    ensures
      var mid := InsertAll(rows, Prefix(events, n));
      InsertAll(mid, Prefix(events, m)) == InsertAll(rows, Prefix(events, if n < m then m else n))
  {
    var a, b := Prefix(events, n), Prefix(events, m);
    if |a| <= |b| {
      assert b[..|a|] == a;
      ResendAfterPrefix(rows, b, |a|);
      assert b == Prefix(events, if n < m then m else n);
    } else {
      InsertAllHas(rows, a);
      forall k | 0 <= k < |b| ensures HasKey(InsertAll(rows, a), b[k].eventKey) {
        assert b[k] == a[k];
      }
      InsertKnown(InsertAll(rows, a), b);
    }
  }

  lemma ResendAll(rows: seq<AcsEvent>, events: seq<AcsEvent>, n: nat)
    ensures InsertAll(InsertAll(rows, Prefix(events, n)), events) == InsertAll(rows, events)
  {
    var m := if n < |events| then |events| else n;
    ResendPrefix(rows, events, n, m);
    assert Prefix(events, m) == events;
  }

  /** Every event of a second reading is already stored. */
  lemma SentBefore(rows: seq<AcsEvent>, events: seq<AcsEvent>, again: seq<AcsEvent>, n: nat)
    requires forall k :: 0 <= k < |again| ==> again[k] in events
    ensures InsertAll(InsertAll(rows, events), Prefix(again, n)) == InsertAll(rows, events)
  {
    InsertAllHas(rows, events);
    var p := Prefix(again, n);
    forall k | 0 <= k < |p| ensures HasKey(InsertAll(rows, events), p[k].eventKey) {
      assert p[k] == again[k];
      var j :| 0 <= j < |events| && events[j] == again[k];
    }
    InsertKnown(InsertAll(rows, events), p);
  }

  /** Committing the second reading's overlays gives the tables of one commit. */
  lemma RecommitHolds(ctx: Context, today: int, disk: Disk, records: seq<AcsRecord>, x: Disk)
    requires Coherent(ctx, Opened(disk)) && Retryable(ctx, disk, records) && LeftBy(ctx, today, disk, records, x)
    ensures CommitHolds(Out(ctx, x, records).cache).holds == Commit(Out(ctx, disk, records).cache, today).holds
    ensures Commit(Out(ctx, x, records).cache, today).holds == Commit(Out(ctx, disk, records).cache, today).holds
  {
    hide IsHexKey, IsDestination, IsLineText, TransformChunk, Retryable, Coherent;
    RereadAtOnce(ctx, today, disk, records, x);
    var a, b := Out(ctx, x, records).cache, Out(ctx, disk, records).cache;
    SameHoldsCommitted(a, b);
  }

  lemma SameHoldsCommitted(a: Cache, b: Cache)
    requires forall item :: HoldGet(a, item) == HoldGet(b, item)
    ensures CommitHolds(a).holds == CommitHolds(b).holds
  {
    var x, y := CommitHolds(a).holds, CommitHolds(b).holds;
    forall item ensures (item in x <==> item in y) && (item in x ==> x[item] == y[item]) {
      assert HoldGet(a, item) == HoldGet(b, item);
      assert item in x <==> HoldGet(a, item).Some?;
      assert item in y <==> HoldGet(b, item).Some?;
    }
  }

  lemma RecommitPatrons(ctx: Context, today: int, disk: Disk, records: seq<AcsRecord>, x: Disk)
    requires Coherent(ctx, Opened(disk)) && Retryable(ctx, disk, records) && LeftBy(ctx, today, disk, records, x)
    ensures Commit(Out(ctx, x, records).cache, today).patrons == Commit(Out(ctx, disk, records).cache, today).patrons
  {
    hide IsHexKey, IsDestination, IsLineText, TransformChunk, Retryable, Coherent;
    RereadAtOnce(ctx, today, disk, records, x);
    ChunkFoldsTables(ctx, disk, records);
    var a, b := Out(ctx, x, records).cache, Out(ctx, disk, records).cache;
    SamePatronsCommitted(a, b, today);
  }

  lemma ChunkFoldsTables(ctx: Context, disk: Disk, records: seq<AcsRecord>)
    requires Coherent(ctx, Opened(disk)) && Retryable(ctx, disk, records)
    ensures Out(ctx, disk, records).cache.patrons == disk.patrons
  {
    hide IsHexKey, IsDestination, IsLineText, TransformChunk, AfterSightings, Retryable, Coherent;
    ChunkFolds(ctx, disk, records);
    StartOfChunk(ctx, disk, records);
  }

  /** Upserting the same overlay once more on the same day changes nothing. */
  lemma SamePatronsCommitted(a: Cache, b: Cache, today: int)
    requires a.overlay == b.overlay
    requires a.patrons == b.patrons || a.patrons == b.patrons + Upserts(b, today)
    ensures CommitPatrons(CommitHolds(a), today).patrons == CommitPatrons(CommitHolds(b), today).patrons
  {
    hide IsHexKey, IsDestination, IsLineText, Upserts;
    HoldsAside(a, today);
    HoldsAside(b, today);
    UpsertTwice(a, b, today);
  }

  lemma HoldsAside(c: Cache, today: int)
    ensures Upserts(CommitHolds(c), today) == Upserts(c, today)
  {
    hide IsHexKey, IsDestination, IsLineText, Deleted, Replaced;
    assert forall pk :: pk in c.overlay ==> Upserted(CommitHolds(c), pk, today) == Upserted(c, pk, today);
  }

  /** Upserting the same staged patrons again changes nothing. */
  lemma UpsertTwice(a: Cache, b: Cache, today: int)
    requires a.overlay == b.overlay
    requires a.patrons == b.patrons || a.patrons == b.patrons + Upserts(b, today)
    ensures a.patrons + Upserts(a, today) == b.patrons + Upserts(b, today)
  {
    assert forall pk :: pk in a.overlay ==> Upserts(a, today)[pk] == Upserts(b, today)[pk];
  }

  /** Any stop, from any state on the way, leaves a state on the way. */
  lemma StopKeeps(ctx: Context, today: int, disk: Disk, records: seq<AcsRecord>, d: Disk, stop: Stop)
    requires Coherent(ctx, Opened(disk)) && Retryable(ctx, disk, records) && OnTheWay(ctx, today, disk, records, d)
    ensures OnTheWay(ctx, today, disk, records, Stopped(ctx, today, d, records, stop))
  {
    hide IsHexKey, IsDestination, IsLineText, TransformChunk, Retryable, Coherent, InsertAll;
    var out := Out(ctx, disk, records);
    if d.holds == disk.holds && d.patrons == disk.patrons
       && exists n: nat :: d.rows == InsertAll(disk.rows, Prefix(out.events, n)) {
      var n: nat :| d.rows == InsertAll(disk.rows, Prefix(out.events, n));
      assert Opened(d) == Opened(disk);
      match stop {
        case AfterEvents(m) => ResendPrefix(disk.rows, out.events, n, m);
        case AfterHolds => ResendAll(disk.rows, out.events, n);
        case AfterPatrons => ResendAll(disk.rows, out.events, n);
      }
    } else {
      RereadAtOnce(ctx, today, disk, records, d);
      RecommitHolds(ctx, today, disk, records, d);
      RecommitPatrons(ctx, today, disk, records, d);
      var again := Out(ctx, d, records).events;
      SentBefore(disk.rows, out.events, again, if stop.AfterEvents? then stop.n else |again|);
      assert Prefix(again, |again|) == again;
    }
  }

  /** A finished attempt from any state on the way is the finished attempt. */
  lemma FinishAgrees(ctx: Context, today: int, disk: Disk, records: seq<AcsRecord>, d: Disk, end: int)
    requires Coherent(ctx, Opened(disk)) && Retryable(ctx, disk, records) && OnTheWay(ctx, today, disk, records, d)
    ensures Finished(ctx, today, d, records, end) == Finished(ctx, today, disk, records, end)
  {
    hide IsHexKey, IsDestination, IsLineText, TransformChunk, Retryable, Coherent, InsertAll;
    var out := Out(ctx, disk, records);
    if d.holds == disk.holds && d.patrons == disk.patrons
       && exists n: nat :: d.rows == InsertAll(disk.rows, Prefix(out.events, n)) {
      var n: nat :| d.rows == InsertAll(disk.rows, Prefix(out.events, n));
      assert Opened(d) == Opened(disk);
      ResendAll(disk.rows, out.events, n);
    } else {
      RereadAtOnce(ctx, today, disk, records, d);
      RecommitHolds(ctx, today, disk, records, d);
      RecommitPatrons(ctx, today, disk, records, d);
      var again := Out(ctx, d, records).events;
      SentBefore(disk.rows, out.events, again, |again|);
      assert Prefix(again, |again|) == again;
    }
  }

  lemma {:induction false} StopsKeep(ctx: Context, today: int, disk: Disk, records: seq<AcsRecord>, stops: seq<Stop>)
    requires Coherent(ctx, Opened(disk)) && Retryable(ctx, disk, records)
    ensures OnTheWay(ctx, today, disk, records, StoppedAtOnce(ctx, today, disk, records, stops))
  {
    hide IsHexKey, IsDestination, IsLineText, TransformChunk, Retryable, Coherent, OnTheWay, Stopped;
    if stops == [] {
      OnTheWayAtStart(ctx, today, disk, records);
    } else {
      StopsKeep(ctx, today, disk, records, stops[..|stops| - 1]);
      StopKeeps(ctx, today, disk, records, StoppedAtOnce(ctx, today, disk, records, stops[..|stops| - 1]), stops[|stops| - 1]);
    }
  }

  lemma OnTheWayAtStart(ctx: Context, today: int, disk: Disk, records: seq<AcsRecord>)
    ensures OnTheWay(ctx, today, disk, records, disk)
  {
    var out := Out(ctx, disk, records);
    assert Prefix(out.events, 0) == [];
    assert disk.rows == InsertAll(disk.rows, Prefix(out.events, 0));
  }

  /** Any sequence of stopped attempts followed by a finished one leaves what one finished attempt leaves:
      the same rows in the same order, the same ledger, the same patrons and the same cursor. */
  lemma CrashesAtOnce(ctx: Context, today: int, disk: Disk, records: seq<AcsRecord>, stops: seq<Stop>, end: int)
    requires Coherent(ctx, Opened(disk)) && Retryable(ctx, disk, records)
    ensures Finished(ctx, today, StoppedAtOnce(ctx, today, disk, records, stops), records, end)
         == Finished(ctx, today, disk, records, end)
  {
    hide IsHexKey, IsDestination, IsLineText, TransformChunk, Retryable, Coherent, OnTheWay, Finished;
    StopsKeep(ctx, today, disk, records, stops);
    FinishAgrees(ctx, today, disk, records, StoppedAtOnce(ctx, today, disk, records, stops), end);
  }

  /** The precondition is kept: a finished attempt leaves a coherent disk again. */
  lemma FinishedCoherent(ctx: Context, today: int, disk: Disk, records: seq<AcsRecord>, end: int)
    requires Coherent(ctx, Opened(disk)) && Retryable(ctx, disk, records)
    ensures Coherent(ctx, Opened(Finished(ctx, today, disk, records, end)))
  {
    hide IsHexKey, IsDestination, IsLineText, TransformChunk, Retryable, ProfileOutcome;
    ChunkFolds(ctx, disk, records);
    var c := Out(ctx, disk, records).cache;
    CommitKeepsAnswers(c, today);
    assert Opened(Finished(ctx, today, disk, records, end)) == Commit(c, today);
  }
}
