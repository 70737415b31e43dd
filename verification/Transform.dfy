/** One chunk of the ACS log turned into events (collector/v2_transform.py, `_transform_acs`).

    A record is what the parser and the normaliser leave of a line: its instant, its message code, the
    two identifiers, and for an item record its state, own flags and destination, for a message-64
    record the reduced profile. `TransformChunk` says what a chunk does to the cache and which events leave;
    `TransformAcs` is the two-pass loop over a PatronCache, proved equal to it. */
module Transform {
  import opened Text
  import opened Identity
  import opened Classify
  import opened Patrons
  import opened PatronStore

  datatype Code = Profile64 | Item10 | OtherCode

  datatype AcsRecord = AcsRecord(
    when: int, code: Code, barcode: string, patron: string,
    state: ItemState, own: Flags, destination: Destination,
    profile: PatronInfo)

  /** The keyed functions and the spelling of an instant. */
  datatype Keys = Keys(event: string -> string, item: string -> HexKey, patron: string -> string, stamp: int -> LineText)

  datatype Context = Context(keys: Keys, rules: Rules, now: int)

  const EARLIEST := 946684800   // 2000-01-01T00:00:00Z in seconds
  const FUTURE := 86400         // one day

  predicate InWindow(now: int, when: int) {
    EARLIEST <= when <= now + FUTURE
  }

  // ----- events -----

  /** What an ACS item event says, apart from its key: exactly what the server stores and compares. */
  datatype Content =
    | HoldContent(time: int, item: HexKey, destination: Destination, flags: Flags)
    | Non101Content(time: int, item: HexKey)
    | Other10Content(time: int, item: HexKey)

  datatype AcsEvent = AcsEvent(eventKey: string, content: Content)

  function FormOf(keys: Keys, content: Content, revision: nat): (f: Form)
    ensures WellFormed(f)
  {
    match content
    case HoldContent(time, item, destination, flags) => HoldForm(keys.stamp(time), item, destination, flags, revision)
    case Non101Content(time, item) => NonHoldForm(keys.stamp(time), item, NonHold101)
    case Other10Content(time, item) => NonHoldForm(keys.stamp(time), item, OtherCode10)
  }

  function EventKey(keys: Keys, content: Content, revision: nat): string {
    DecodeCanonical(FormOf(keys, content, revision));
    keys.event(Canonical(FormOf(keys, content, revision)).value)
  }

  function BuildAcsItem(keys: Keys, content: Content, revision: nat): AcsEvent {
    AcsEvent(EventKey(keys, content, revision), content)
  }

  // ----- the latest profile of each patron in a chunk -----

  /** Insertion after every record that is not later: Python's stable sort by time, one record at a time. */
  function InsertByTime(sorted: seq<AcsRecord>, r: AcsRecord): seq<AcsRecord> {
    if sorted == [] || sorted[|sorted| - 1].when <= r.when then sorted + [r]
    else InsertByTime(sorted[..|sorted| - 1], r) + [sorted[|sorted| - 1]]
  }

  function SortByTime(records: seq<AcsRecord>): seq<AcsRecord> {
    if records == [] then []
    else InsertByTime(SortByTime(records[..|records| - 1]), records[|records| - 1])
  }

  predicate IsProfile(r: AcsRecord) {
    r.code == Profile64 && r.patron != ""
  }

  function ProfileRecords(records: seq<AcsRecord>): seq<AcsRecord> {
    if records == [] then []
    else
      var earlier := ProfileRecords(records[..|records| - 1]);
      if IsProfile(records[|records| - 1]) then earlier + [records[|records| - 1]] else earlier
  }

  type Dict = seq<(string, PatronInfo)>

  /** Assignment into a Python dict: an existing key keeps its place. */
  function Assign(dict: Dict, pk: string, info: PatronInfo): Dict {
    if dict == [] then [(pk, info)]
    else if dict[0].0 == pk then [(pk, info)] + dict[1..]
    else [dict[0]] + Assign(dict[1..], pk, info)
  }

  function ProfileDict(keys: Keys, sorted: seq<AcsRecord>): Dict {
    if sorted == [] then []
    else
      var r := sorted[|sorted| - 1];
      Assign(ProfileDict(keys, sorted[..|sorted| - 1]), keys.patron(r.patron), r.profile)
  }

  // ----- pass 1: profiles, corrections, sightings -----

  datatype Acc = Acc(cache: Cache, events: seq<AcsEvent>)

  /** Re-sends one ledger hold if the outcome changes its flags, with the next revision. */
  function CorrectOne(ctx: Context, acc: Acc, e: Entry, outcome: Flags): Acc {
    var flags := Combine(e.hold.own, outcome);
    if flags == e.hold.flags then acc
    else
      var revision := e.hold.revision + 1;
      var content := HoldContent(e.hold.time, e.item, e.hold.destination, flags);
      Acc(HoldPut(acc.cache, e.item, e.hold.(flags := flags, revision := revision)),
          acc.events + [BuildAcsItem(ctx.keys, content, revision)])
  }

  function Corrections(ctx: Context, acc: Acc, entries: seq<Entry>, outcome: Flags): Acc {
    if entries == [] then acc
    else CorrectOne(ctx, Corrections(ctx, acc, entries[..|entries| - 1], outcome), entries[|entries| - 1], outcome)
  }

  function Outcome(ctx: Context, c: Cache, pk: string): Flags {
    ProfileOutcome(Lookup(c, pk), ctx.rules)
  }

  ghost function CorrectPatron(ctx: Context, acc: Acc, pk: string, after: Flags): Acc {
    if Outcome(ctx, acc.cache, pk) == after then acc
    else Corrections(ctx, acc, HoldsForPatron(acc.cache, pk), after)
  }

  ghost function ProfileStep(ctx: Context, acc: Acc, pk: string, info: PatronInfo): Acc {
    var corrected := CorrectPatron(ctx, acc, pk, ProfileOutcome(Some(info), ctx.rules));
    corrected.(cache := Stage(corrected.cache, pk, info, true))
  }

  ghost function ProfilePass(ctx: Context, acc: Acc, dict: Dict): Acc {
    if dict == [] then acc
    else
      var last := dict[|dict| - 1];
      ProfileStep(ctx, ProfilePass(ctx, acc, dict[..|dict| - 1]), last.0, last.1)
  }

  function Sighting(ctx: Context, c: Cache, r: AcsRecord): Cache {
    if r.code != Profile64 && r.patron != "" then Stage(c, ctx.keys.patron(r.patron), NO_INFO, false) else c
  }

  function Sightings(ctx: Context, c: Cache, records: seq<AcsRecord>): Cache {
    if records == [] then c
    else Sighting(ctx, Sightings(ctx, c, records[..|records| - 1]), records[|records| - 1])
  }

  // ----- pass 2: item records -----

  /** Whether pass 2 turns the record into an event, given the identifiers the guard knows. */
  predicate Admitted(ctx: Context, c: Cache, r: AcsRecord) {
    r.code == Item10 && r.barcode != "" && !Contains(c, ctx.keys.patron(r.barcode)) && InWindow(ctx.now, r.when)
  }

  predicate Guarded(ctx: Context, c: Cache, r: AcsRecord) {
    r.code == Item10 && r.barcode != "" && Contains(c, ctx.keys.patron(r.barcode))
  }

  function PatronOf(keys: Keys, r: AcsRecord): Option<string> {
    if r.patron == "" then None else Some(keys.patron(r.patron))
  }

  /** A hold's flags under the profiles the cache knows. */
  function HoldFlags(ctx: Context, c: Cache, r: AcsRecord): Flags {
    match PatronOf(ctx.keys, r)
    case Some(pk) => Combine(r.own, Outcome(ctx, c, pk))
    case None => Combine(r.own, ProfileOutcome(None, ctx.rules))
  }

  /** The same hold read again keeps its revision, or moves on if its flags did. */
  function NextRevision(existing: Option<LedgerHold>, time: int, flags: Flags): nat {
    if existing.None? || existing.value.time != time then 0
    else if existing.value.flags == flags then existing.value.revision
    else existing.value.revision + 1
  }

  /** What the ledger keeps of the item after a hold record. */
  function HoldEntry(ctx: Context, c: Cache, r: AcsRecord, existing: Option<LedgerHold>): Option<LedgerHold> {
    var flags := HoldFlags(ctx, c, r);
    if existing.Some? && r.when < existing.value.time then existing
    else
      match PatronOf(ctx.keys, r)
      case Some(pk) => Some(LedgerHold(r.when, pk, r.destination, r.own, flags, NextRevision(existing, r.when, flags)))
      case None => None
  }

  /** What the ledger keeps of the item after a non-hold record. */
  function NonHoldEntry(r: AcsRecord, existing: Option<LedgerHold>): Option<LedgerHold> {
    if existing.Some?
       && ((r.state == NonHold101 && r.when >= existing.value.time)
           || (r.state == OtherCode10 && r.when == existing.value.time))
    then None
    else existing
  }

  function LedgerAfter(ctx: Context, c: Cache, r: AcsRecord, existing: Option<LedgerHold>): Option<LedgerHold> {
    if r.state == Hold then HoldEntry(ctx, c, r, existing) else NonHoldEntry(r, existing)
  }

  function ItemContent(ctx: Context, c: Cache, r: AcsRecord): Content {
    var item := ctx.keys.item(r.barcode);
    match r.state
    case Hold => HoldContent(r.when, item, r.destination, HoldFlags(ctx, c, r))
    case NonHold101 => Non101Content(r.when, item)
    case OtherCode10 => Other10Content(r.when, item)
  }

  function ItemRevision(ctx: Context, c: Cache, r: AcsRecord, existing: Option<LedgerHold>): nat {
    if r.state == Hold then NextRevision(existing, r.when, HoldFlags(ctx, c, r)) else 0
  }

  /** Stores the ledger's answer for one item; an unchanged answer stages nothing. */
  function StoreEntry(c: Cache, item: HexKey, existing: Option<LedgerHold>, after: Option<LedgerHold>, put: bool): Cache {
    if after.Some? && put then HoldPut(c, item, after.value)
    else if after.None? && existing.Some? then HoldDelete(c, item)
    else c
  }

  /** A hold record with a patron that is not older than the ledger's row is written, changed or not. */
  predicate Puts(ctx: Context, r: AcsRecord, existing: Option<LedgerHold>) {
    r.state == Hold && r.patron != "" && (existing.None? || r.when >= existing.value.time)
  }

  function ItemStep(ctx: Context, acc: Acc, r: AcsRecord): Acc {
    if Guarded(ctx, acc.cache, r) then
      acc.(cache := Stage(acc.cache, ctx.keys.patron(r.barcode), NO_INFO, false))
    else if !Admitted(ctx, acc.cache, r) then acc
    else
      var item := ctx.keys.item(r.barcode);
      var existing := HoldGet(acc.cache, item);
      Acc(StoreEntry(acc.cache, item, existing, LedgerAfter(ctx, acc.cache, r, existing), Puts(ctx, r, existing)),
          acc.events + [BuildAcsItem(ctx.keys, ItemContent(ctx, acc.cache, r),
                                     ItemRevision(ctx, acc.cache, r, existing))])
  }

  function ItemPass(ctx: Context, acc: Acc, records: seq<AcsRecord>): Acc {
    if records == [] then acc
    else ItemStep(ctx, ItemPass(ctx, acc, records[..|records| - 1]), records[|records| - 1])
  }

  // ----- the whole chunk -----

  ghost function AfterProfiles(ctx: Context, c: Cache, records: seq<AcsRecord>): Acc {
    ProfilePass(ctx, Acc(c, []), ProfileDict(ctx.keys, SortByTime(ProfileRecords(records))))
  }

  ghost function AfterSightings(ctx: Context, c: Cache, records: seq<AcsRecord>): Acc {
    var first := AfterProfiles(ctx, c, records);
    first.(cache := Sightings(ctx, first.cache, records))
  }

  ghost function TransformChunk(ctx: Context, c: Cache, records: seq<AcsRecord>): Acc {
    ItemPass(ctx, AfterSightings(ctx, c, records), records)
  }

  // ----- the loops -----

  lemma PrefixStep<T>(s: seq<T>, i: nat)
    requires i < |s|
    ensures s[..i + 1][..i] == s[..i] && s[..i + 1][i] == s[i] && |s[..i + 1]| == i + 1
  {
  }

  method CorrectHolds(ctx: Context, cache: PatronCache, pk: string, outcome: Flags)
    returns (events: seq<AcsEvent>)
    modifies cache`holdOverlay
    ensures Acc(cache.View(), events)
         == Corrections(ctx, Acc(old(cache.View()), []), HoldsForPatron(old(cache.View()), pk), outcome)
  {
    events := [];
    var entries := cache.HoldsForPatron(pk);
    ghost var start := Acc(cache.View(), []);
    for k := 0 to |entries|
      invariant Acc(cache.View(), events) == Corrections(ctx, start, entries[..k], outcome)
    {
      PrefixStep(entries, k);
      var e := entries[k];
      var flags := Combine(e.hold.own, outcome);
      if flags == e.hold.flags { continue; }
      var revision := e.hold.revision + 1;
      var content := HoldContent(e.hold.time, e.item, e.hold.destination, flags);
      events := events + [BuildAcsItem(ctx.keys, content, revision)];
      cache.HoldPut(e.item, e.hold.(flags := flags, revision := revision));
    }
    assert entries[..|entries|] == entries;
  }

  /** The dict of profiles a chunk brings, in the order Python builds it. */
  method CollectProfiles(ctx: Context, records: seq<AcsRecord>) returns (dict: Dict)
    ensures dict == ProfileDict(ctx.keys, SortByTime(ProfileRecords(records)))
  {
    var chosen: seq<AcsRecord> := [];
    for k := 0 to |records|
      invariant chosen == ProfileRecords(records[..k])
    {
      PrefixStep(records, k);
      if records[k].code == Profile64 && records[k].patron != "" { chosen := chosen + [records[k]]; }
    }
    assert records[..|records|] == records;
    var sorted := SortByTime(chosen);
    dict := [];
    for k := 0 to |sorted|
      invariant dict == ProfileDict(ctx.keys, sorted[..k])
    {
      PrefixStep(sorted, k);
      dict := Assign(dict, ctx.keys.patron(sorted[k].patron), sorted[k].profile);
    }
    assert sorted[..|sorted|] == sorted;
  }

  lemma {:induction false} CorrectionsAppend(ctx: Context, c: Cache, before: seq<AcsEvent>, entries: seq<Entry>, outcome: Flags)
    ensures Corrections(ctx, Acc(c, before), entries, outcome).cache == Corrections(ctx, Acc(c, []), entries, outcome).cache
    ensures Corrections(ctx, Acc(c, before), entries, outcome).events
         == before + Corrections(ctx, Acc(c, []), entries, outcome).events
  {
    if entries != [] {
      CorrectionsAppend(ctx, c, before, entries[..|entries| - 1], outcome);
    }
  }

  /** Pass 1: each profile first corrects the patron's ledger holds, then is staged; then the sightings. */
  method FirstPass(ctx: Context, cache: PatronCache, records: seq<AcsRecord>) returns (events: seq<AcsEvent>)
    modifies cache`overlay, cache`holdOverlay
    ensures Acc(cache.View(), events) == AfterSightings(ctx, old(cache.View()), records)
  {
    ghost var c := cache.View();
    events := [];
    var dict := CollectProfiles(ctx, records);
    for k := 0 to |dict|
      invariant Acc(cache.View(), events) == ProfilePass(ctx, Acc(c, []), dict[..k])
    {
      PrefixStep(dict, k);
      var pk, info := dict[k].0, dict[k].1;
      var after := ProfileOutcome(Some(info), ctx.rules);
      var known := cache.Lookup(pk);
      if ProfileOutcome(known, ctx.rules) != after {
        ghost var view := cache.View();
        var corrections := CorrectHolds(ctx, cache, pk, after);
        CorrectionsAppend(ctx, view, events, HoldsForPatron(view, pk), after);
        events := events + corrections;
      }
      cache.Stage(pk, info, true);
    }
    assert dict[..|dict|] == dict;
    ghost var profiled := cache.View();
    for k := 0 to |records|
      invariant cache.View() == Sightings(ctx, profiled, records[..k])
    {
      PrefixStep(records, k);
      var r := records[k];
      if r.code != Profile64 && r.patron != "" {
        cache.Stage(ctx.keys.patron(r.patron), NO_INFO, false);
      }
    }
    assert records[..|records|] == records;
  }

  /** Tells whether a scanned barcode is known as a patron's; if so the patron counts as seen again. */
  method GuardedCard(ctx: Context, cache: PatronCache, barcode: string) returns (guarded: bool)
    modifies cache`overlay
    ensures guarded <==> barcode != "" && Contains(old(cache.View()), ctx.keys.patron(barcode))
    ensures cache.View() == if guarded then Stage(old(cache.View()), ctx.keys.patron(barcode), NO_INFO, false)
                            else old(cache.View())
  {
    if barcode == "" { return false; }
    var pk := ctx.keys.patron(barcode);
    guarded := cache.Contains(pk);
    if guarded { cache.Stage(pk, NO_INFO, false); }
  }

  /** Pass 2 on one hold record: the event and the ledger's new row. */
  method HoldRecord(ctx: Context, cache: PatronCache, r: AcsRecord, item: HexKey) returns (event: AcsEvent)
    requires InWindow(ctx.now, r.when) && r.state == Hold && item == ctx.keys.item(r.barcode)
    requires r.code == Item10 && r.barcode != "" && !Contains(cache.View(), ctx.keys.patron(r.barcode))
    modifies cache`holdOverlay
    ensures Acc(cache.View(), [event]) == ItemStep(ctx, Acc(old(cache.View()), []), r)
  {
    var instant := r.when;
    var existing := cache.HoldGet(item);
    var profile := None;
    if r.patron != "" { profile := cache.Lookup(ctx.keys.patron(r.patron)); }
    var flags := Combine(r.own, ProfileOutcome(profile, ctx.rules));
    var revision: nat := 0;
    if existing.Some? && existing.value.time == instant {
      revision := if existing.value.flags == flags then existing.value.revision else existing.value.revision + 1;
    }
    event := BuildAcsItem(ctx.keys, HoldContent(instant, item, r.destination, flags), revision);
    var newest := existing.None? || instant >= existing.value.time;
    if r.patron != "" && newest {
      cache.HoldPut(item, LedgerHold(instant, ctx.keys.patron(r.patron), r.destination, r.own, flags, revision));
    } else if r.patron == "" && existing.Some? && newest {
      cache.HoldDelete(item);
    }
  }

  lemma ItemStepAppends(ctx: Context, c: Cache, before: seq<AcsEvent>, r: AcsRecord)
    ensures ItemStep(ctx, Acc(c, before), r).cache == ItemStep(ctx, Acc(c, []), r).cache
    ensures ItemStep(ctx, Acc(c, before), r).events == before + ItemStep(ctx, Acc(c, []), r).events
  {
  }

  /** Pass 2: item records become events and move the ledger. */
  method SecondPass(ctx: Context, cache: PatronCache, records: seq<AcsRecord>, before: seq<AcsEvent>)
    returns (events: seq<AcsEvent>)
    modifies cache`overlay, cache`holdOverlay
    ensures Acc(cache.View(), events) == ItemPass(ctx, Acc(old(cache.View()), before), records)
  {
    ghost var c := cache.View();
    events := before;
    for k := 0 to |records|
      invariant Acc(cache.View(), events) == ItemPass(ctx, Acc(c, before), records[..k])
    {
      PrefixStep(records, k);
      var r := records[k];
      if r.code != Item10 || r.barcode == "" { continue; }
      var guarded := GuardedCard(ctx, cache, r.barcode);
      if guarded || !InWindow(ctx.now, r.when) { continue; }
      var item := ctx.keys.item(r.barcode);
      ItemStepAppends(ctx, cache.View(), events, r);
      if r.state == Hold {
        var event := HoldRecord(ctx, cache, r, item);
        events := events + [event];
      } else {
        var instant := r.when;
        var existing := cache.HoldGet(item);
        var content := if r.state == NonHold101 then Non101Content(instant, item) else Other10Content(instant, item);
        events := events + [BuildAcsItem(ctx.keys, content, 0)];
        if existing.Some? && ((r.state == NonHold101 && instant >= existing.value.time)
                              || (r.state == OtherCode10 && instant == existing.value.time)) {
          cache.HoldDelete(item);
        }
      }
    }
    assert records[..|records|] == records;
  }

  method TransformAcs(ctx: Context, cache: PatronCache, records: seq<AcsRecord>) returns (events: seq<AcsEvent>)
    modifies cache`overlay, cache`holdOverlay
    ensures Acc(cache.View(), events) == TransformChunk(ctx, old(cache.View()), records)
  {
    var corrections := FirstPass(ctx, cache, records);
    events := SecondPass(ctx, cache, records, corrections);
  }
}
