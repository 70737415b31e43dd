/** Whole runs of committed chunks. */
module Runs {
  import opened Text
  import opened Identity
  import opened Classify
  import opened Patrons
  import opened Transform
  import opened Server
  import opened Ledger
  import opened Provenance
  import opened Refinement

  // ----- a chunk's profile dict holds each patron's latest profile -----

  predicate UniqueKeys(dict: Dict) {
    forall i, j :: 0 <= i < j < |dict| ==> dict[i].0 != dict[j].0
  }

  lemma {:induction false} FindCons(x: (string, PatronInfo), dict: Dict, p: string)
    ensures Find([x] + dict, p) ==
      if Find(dict, p).Some? then Find(dict, p) else if x.0 == p then Some(x.1) else None
  {
    if dict == [] {
      assert [x] + dict == [x];
    } else {
      FindCons(x, dict[..|dict| - 1], p);
      assert ([x] + dict)[..|dict|] == [x] + dict[..|dict| - 1];
    }
  }

  lemma {:induction false} FindPresent(dict: Dict, p: string)
    ensures Find(dict, p).Some? <==> exists i :: 0 <= i < |dict| && dict[i].0 == p
  {
    if dict != [] {
      FindPresent(dict[..|dict| - 1], p);
    }
  }

  lemma {:induction false} AssignKeepsUnique(dict: Dict, pk: string, info: PatronInfo)
    requires UniqueKeys(dict)
    ensures UniqueKeys(Assign(dict, pk, info))
    ensures forall k :: 0 <= k < |Assign(dict, pk, info)| ==>
      Assign(dict, pk, info)[k].0 == pk || exists j :: 0 <= j < |dict| && dict[j].0 == Assign(dict, pk, info)[k].0
  {
    if dict != [] && dict[0].0 != pk {
      var rest := Assign(dict[1..], pk, info);
      AssignKeepsUnique(dict[1..], pk, info);
      forall k | 0 <= k < |rest| ensures rest[k].0 != dict[0].0 && (rest[k].0 == pk || exists j :: 0 <= j < |dict| && dict[j].0 == rest[k].0) {
        if rest[k].0 != pk {
          var j :| 0 <= j < |dict[1..]| && dict[1..][j].0 == rest[k].0;
          assert dict[j + 1].0 == rest[k].0;
        }
      }
    }
  }

  lemma {:induction false} FindAssign(dict: Dict, pk: string, info: PatronInfo, p: string)
    requires UniqueKeys(dict)
    ensures Find(Assign(dict, pk, info), p) == if p == pk then Some(info) else Find(dict, p)
  {
    hide Find;
    if dict == [] {
      FindCons((pk, info), [], p);
      FindPresent([], p);
      assert [(pk, info)] + [] == [(pk, info)];
    } else {
      assert [dict[0]] + dict[1..] == dict;
      FindCons(dict[0], dict[1..], p);
      FindPresent(dict[1..], dict[0].0);
      if dict[0].0 == pk {
        FindCons((pk, info), dict[1..], p);
      } else {
        FindAssign(dict[1..], pk, info, p);
        FindCons(dict[0], Assign(dict[1..], pk, info), p);
      }
    }
  }

  function LastOf(keys: Keys, records: seq<AcsRecord>, p: string): Option<AcsRecord> {
    if records == [] then None
    else if keys.patron(records[|records| - 1].patron) == p then Some(records[|records| - 1])
    else LastOf(keys, records[..|records| - 1], p)
  }

  predicate Sorted(records: seq<AcsRecord>) {
    forall i, j :: 0 <= i < j < |records| ==> records[i].when <= records[j].when
  }

  lemma {:induction false} LastOfIsMember(keys: Keys, records: seq<AcsRecord>, p: string)
    ensures LastOf(keys, records, p).Some? ==> LastOf(keys, records, p).value in records
  {
    if records != [] { LastOfIsMember(keys, records[..|records| - 1], p); }
  }

  lemma {:induction false} InsertByTimeMembers(s: seq<AcsRecord>, r: AcsRecord)
    ensures forall x :: x in InsertByTime(s, r) <==> x in s || x == r
  {
    if s != [] {
      InsertByTimeMembers(s[..|s| - 1], r);
      assert s == s[..|s| - 1] + [s[|s| - 1]];
    }
  }

  lemma {:induction false} InsertByTimeSorts(s: seq<AcsRecord>, r: AcsRecord)
    requires Sorted(s)
    ensures Sorted(InsertByTime(s, r))
  {
    var n := |s| - 1;
    if s != [] && s[n].when > r.when {
      InsertByTimeSorts(s[..n], r);
      var rest := InsertByTime(s[..n], r);
      InsertByTimeMembers(s[..n], r);
      forall i | 0 <= i < |rest| ensures rest[i].when <= s[n].when {
        assert rest[i] in rest;
      }
    }
  }

  lemma {:induction false} InsertByTimeLast(keys: Keys, s: seq<AcsRecord>, r: AcsRecord, p: string)
    requires Sorted(s)
    ensures
      var last := LastOf(keys, s, p);
      LastOf(keys, InsertByTime(s, r), p)
      == if keys.patron(r.patron) == p && (last.None? || last.value.when <= r.when) then Some(r) else last
  {
    var n := |s| - 1;
    if s == [] || s[n].when <= r.when {
      assert (s + [r])[..|s|] == s;
      LastOfIsMember(keys, s, p);
    } else {
      InsertByTimeLast(keys, s[..n], r, p);
      var rest := InsertByTime(s[..n], r);
      assert (rest + [s[n]])[..|rest|] == rest;
    }
  }

  lemma {:induction false} SortFindsLatest(keys: Keys, records: seq<AcsRecord>, p: string)
    ensures Sorted(SortByTime(ProfileRecords(records)))
    ensures LastOf(keys, SortByTime(ProfileRecords(records)), p) == LatestProfile(keys, records, p)
  {
    if records != [] {
      var n := |records| - 1;
      var earlier := ProfileRecords(records[..n]);
      SortFindsLatest(keys, records[..n], p);
      if IsProfile(records[n]) {
        assert (earlier + [records[n]])[..|earlier|] == earlier;
        InsertByTimeSorts(SortByTime(earlier), records[n]);
        InsertByTimeLast(keys, SortByTime(earlier), records[n], p);
      }
    }
  }

  lemma {:induction false} DictFindsLast(keys: Keys, sorted: seq<AcsRecord>, p: string)
    ensures UniqueKeys(ProfileDict(keys, sorted))
    ensures Find(ProfileDict(keys, sorted), p) == ProfileOf(LastOf(keys, sorted, p))
  {
    if sorted != [] {
      var n := |sorted| - 1;
      DictFindsLast(keys, sorted[..n], p);
      FindAssign(ProfileDict(keys, sorted[..n]), keys.patron(sorted[n].patron), sorted[n].profile, p);
      AssignKeepsUnique(ProfileDict(keys, sorted[..n]), keys.patron(sorted[n].patron), sorted[n].profile);
    }
  }

  // ----- the identifiers a log quotes -----

  predicate Quotes(keys: Keys, r: AcsRecord, pk: string) {
    r.patron != "" && keys.patron(r.patron) == pk
  }

  predicate Known(keys: Keys, log: seq<AcsRecord>, pk: string) {
    exists k :: 0 <= k < |log| && Quotes(keys, log[k], pk)
  }

  lemma {:induction false} LatestProfileExists(keys: Keys, log: seq<AcsRecord>, pk: string)
    ensures LatestProfile(keys, log, pk).Some? <==>
      exists k :: 0 <= k < |log| && IsProfile(log[k]) && Quotes(keys, log[k], pk)
  {
    if log != [] {
      var n := |log| - 1;
      LatestProfileExists(keys, log[..n], pk);
      if exists k :: 0 <= k < n && IsProfile(log[..n][k]) && Quotes(keys, log[..n][k], pk) {
        var k :| 0 <= k < n && IsProfile(log[..n][k]) && Quotes(keys, log[..n][k], pk);
        assert IsProfile(log[k]) && Quotes(keys, log[k], pk);
      }
      if exists k :: 0 <= k < |log| && IsProfile(log[k]) && Quotes(keys, log[k], pk) {
        var k :| 0 <= k < |log| && IsProfile(log[k]) && Quotes(keys, log[k], pk);
        if k < n { assert IsProfile(log[..n][k]) && Quotes(keys, log[..n][k], pk); }
      }
    }
  }

  /** A chunk quotes an identifier in a profile or as a sighting. */
  lemma KnownByProfileOrSighting(keys: Keys, records: seq<AcsRecord>, pk: string)
    ensures Known(keys, records, pk) <==> LatestProfile(keys, records, pk).Some? || Sighted(keys, records, pk)
  {
    LatestProfileExists(keys, records, pk);
    if Known(keys, records, pk) {
      var k :| 0 <= k < |records| && Quotes(keys, records[k], pk);
      if records[k].code == Profile64 { assert IsProfile(records[k]); } else { assert Sights(keys, records[k], pk); }
    }
    if Sighted(keys, records, pk) {
      var k :| 0 <= k < |records| && Sights(keys, records[k], pk);
      assert Quotes(keys, records[k], pk);
    }
  }

  lemma KnownConcat(keys: Keys, a: seq<AcsRecord>, b: seq<AcsRecord>, pk: string)
    ensures Known(keys, a + b, pk) <==> Known(keys, a, pk) || Known(keys, b, pk)
  {
    if Known(keys, a, pk) {
      var k :| 0 <= k < |a| && Quotes(keys, a[k], pk);
      assert Quotes(keys, (a + b)[k], pk);
    }
    if Known(keys, b, pk) {
      var k :| 0 <= k < |b| && Quotes(keys, b[k], pk);
      assert Quotes(keys, (a + b)[|a| + k], pk);
    }
  }

  lemma {:induction false} LatestConcat(keys: Keys, a: seq<AcsRecord>, b: seq<AcsRecord>, pk: string)
    ensures
      var p, q := LatestProfile(keys, a, pk), LatestProfile(keys, b, pk);
      LatestProfile(keys, a + b, pk) == if q.Some? && (p.None? || q.value.when >= p.value.when) then q else p
  {
    if b == [] {
      assert a + b == a;
    } else {
      LatestConcat(keys, a, b[..|b| - 1], pk);
      assert (a + b)[..|a + b| - 1] == a + b[..|b| - 1];
    }
  }

  // ----- runs -----

  /** One committed chunk: when and on which day it ran, and the records it read. */
  datatype Chunk = Chunk(now: int, today: int, records: seq<AcsRecord>)

  datatype World = World(rows: seq<AcsEvent>, cache: Cache)

  /** Transform, deliver everything, commit the cache. */
  ghost function Process(keys: Keys, rules: Rules, world: World, chunk: Chunk): World {
    var out := TransformChunk(Context(keys, rules, chunk.now), world.cache, chunk.records);
    World(InsertAll(world.rows, out.events), Commit(out.cache, chunk.today))
  }

  ghost function Run(keys: Keys, rules: Rules, chunks: seq<Chunk>): World {
    if chunks == [] then World([], EMPTY)
    else Process(keys, rules, Run(keys, rules, chunks[..|chunks| - 1]), chunks[|chunks| - 1])
  }

  function Log(chunks: seq<Chunk>): seq<AcsRecord> {
    if chunks == [] then [] else Log(chunks[..|chunks| - 1]) + chunks[|chunks| - 1].records
  }

  /** An item record that becomes an event: it has a barcode, the barcode is no identifier quoted in the log
      up to the end of its chunk, and its instant was acceptable when it was read. */
  predicate Counted(keys: Keys, now: int, log: seq<AcsRecord>, r: AcsRecord) {
    r.code == Item10 && r.barcode != "" && !Known(keys, log, keys.patron(r.barcode)) && InWindow(now, r.when)
  }

  function CountedOf(keys: Keys, now: int, log: seq<AcsRecord>, records: seq<AcsRecord>): seq<AcsRecord> {
    if records == [] then []
    else
      var earlier := CountedOf(keys, now, log, records[..|records| - 1]);
      if Counted(keys, now, log, records[|records| - 1]) then earlier + [records[|records| - 1]] else earlier
  }

  function Items(keys: Keys, chunks: seq<Chunk>): seq<AcsRecord> {
    if chunks == [] then []
    else
      var last := chunks[|chunks| - 1];
      Items(keys, chunks[..|chunks| - 1]) + CountedOf(keys, last.now, Log(chunks), last.records)
  }

  predicate NotOlder(p: Option<AcsRecord>, q: Option<AcsRecord>) {
    p.Some? && q.Some? ==> q.value.when >= p.value.when
  }

  /** Where the records bring a profile of a patron, it is not older than the log's latest one. */
  ghost predicate Advances(keys: Keys, log: seq<AcsRecord>, records: seq<AcsRecord>) {
    forall pk :: NotOlder(LatestProfile(keys, log, pk), LatestProfile(keys, records, pk))
  }

  ghost predicate ProfilesAdvance(keys: Keys, chunks: seq<Chunk>) {
    chunks == []
    || (ProfilesAdvance(keys, chunks[..|chunks| - 1])
        && Advances(keys, Log(chunks[..|chunks| - 1]), chunks[|chunks| - 1].records))
  }

  /** The profile the collector goes by: the latest one of the last chunk that had any. */
  function LastRead(keys: Keys, chunks: seq<Chunk>, pk: string): Option<AcsRecord> {
    if chunks == [] then None
    else
      var q := LatestProfile(keys, chunks[|chunks| - 1].records, pk);
      if q.Some? then q else LastRead(keys, chunks[..|chunks| - 1], pk)
  }

  /** It is the log's latest one when no chunk brings only older profiles. */
  lemma {:induction false} LastReadIsLatest(keys: Keys, chunks: seq<Chunk>, pk: string)
    requires ProfilesAdvance(keys, chunks)
    ensures LastRead(keys, chunks, pk) == LatestProfile(keys, Log(chunks), pk)
  {
    if chunks != [] {
      var init, last := chunks[..|chunks| - 1], chunks[|chunks| - 1];
      LastReadIsLatest(keys, init, pk);
      LatestConcat(keys, Log(init), last.records, pk);
      assert NotOlder(LatestProfile(keys, Log(init), pk), LatestProfile(keys, last.records, pk));
    }
  }

  ghost predicate OutcomesFit(ctx: Context, c: Cache, chunks: seq<Chunk>) {
    forall pk :: Outcome(ctx, c, pk) == ProfileOutcome(ProfileOf(LastRead(ctx.keys, chunks, pk)), ctx.rules)
  }

  ghost predicate KnownFits(ctx: Context, c: Cache, log: seq<AcsRecord>) {
    forall pk :: Contains(c, pk) <==> Known(ctx.keys, log, pk)
  }

  ghost predicate WorldInv(ctx: Context, world: World, chunks: seq<Chunk>, items: seq<AcsRecord>) {
    SourcedInv(ctx, world.rows, world.cache, items)
    && OutcomesFit(ctx, world.cache, chunks) && KnownFits(ctx, world.cache, Log(chunks))
  }

  lemma ChunksSnoc(keys: Keys, chunks: seq<Chunk>, chunk: Chunk, pk: string)
    ensures Log(chunks + [chunk]) == Log(chunks) + chunk.records
    ensures
      var q := LatestProfile(keys, chunk.records, pk);
      LastRead(keys, chunks + [chunk], pk) == if q.Some? then q else LastRead(keys, chunks, pk)
  {
    assert (chunks + [chunk])[..|chunks|] == chunks;
  }

  /** Pass 1 and the sightings leave the profiles and identifiers of the longer run. */
  lemma FirstPassKeeps(ctx: Context, world: World, chunks: seq<Chunk>, items: seq<AcsRecord>, chunk: Chunk)
    requires SoundKeys(ctx.keys) && WorldInv(ctx, world, chunks, items)
    ensures
      var acc := AfterSightings(ctx, world.cache, chunk.records);
      WorldInv(ctx, World(InsertAll(world.rows, acc.events), acc.cache), chunks + [chunk], items)
  {
    hide IsHexKey, IsDestination, IsLineText, SoundKeys, Inv, InsertAll, ProfileOutcome, ProfilePass, Sightings, Find,
      ProfileDict, SortByTime, ProfileRecords, LatestProfile, Known, Sighted, Contains, Lookup, LastRead, Log;
    var records := chunk.records;
    var dict := ProfileDict(ctx.keys, SortByTime(ProfileRecords(records)));
    ProfilePassKeeps(ctx, world.rows, world.cache, items, dict);
    var first := AfterProfiles(ctx, world.cache, records);
    SightingsKeep(ctx, first.cache, records);
    var acc := AfterSightings(ctx, world.cache, records);
    SameLedgerKeeps(ctx, InsertAll(world.rows, first.events), first.cache, acc.cache, items);
    ProfilePassSourced(ctx, world.rows, world.cache, items, dict);
    SameHoldsSourced(ctx.keys, items, InsertAll(world.rows, first.events), first.cache, acc.cache);
    forall pk
      ensures Outcome(ctx, acc.cache, pk) == ProfileOutcome(ProfileOf(LastRead(ctx.keys, chunks + [chunk], pk)), ctx.rules)
      ensures Contains(acc.cache, pk) <==> Known(ctx.keys, Log(chunks + [chunk]), pk)
    {
      SortFindsLatest(ctx.keys, records, pk);
      DictFindsLast(ctx.keys, SortByTime(ProfileRecords(records)), pk);
      ChunksSnoc(ctx.keys, chunks, chunk, pk);
      KnownConcat(ctx.keys, Log(chunks), records, pk);
      KnownByProfileOrSighting(ctx.keys, records, pk);
    }
  }

  lemma {:induction false} AdmittedIsCounted(ctx: Context, c: Cache, log: seq<AcsRecord>, records: seq<AcsRecord>)
    requires KnownFits(ctx, c, log)
    ensures AdmittedOf(ctx, c, records) == CountedOf(ctx.keys, ctx.now, log, records)
  {
    if records != [] {
      AdmittedIsCounted(ctx, c, log, records[..|records| - 1]);
      assert Contains(c, ctx.keys.patron(records[|records| - 1].barcode))
        <==> Known(ctx.keys, log, ctx.keys.patron(records[|records| - 1].barcode));
    }
  }

  lemma CommitInv(ctx: Context, rows: seq<AcsEvent>, c: Cache, today: int, chunks: seq<Chunk>, items: seq<AcsRecord>)
    requires WorldInv(ctx, World(rows, c), chunks, items)
    ensures WorldInv(ctx, World(rows, Commit(c, today)), chunks, items)
  {
    hide IsHexKey, IsDestination, IsLineText, ItemInv, Winner, ProfileOutcome, LastRead, Known, AllKeyed, Commit, HoldGet,
      Lookup, Contains;
    CommitKeepsAnswers(c, today);
    var d := Commit(c, today);
    forall pk ensures Outcome(ctx, c, pk) == Outcome(ctx, d, pk) {}
    SameLedgerKeeps(ctx, rows, c, d, items);
    SameHoldsSourced(ctx.keys, items, rows, c, d);
  }

  /** A whole chunk keeps the world's invariant. */
  lemma ProcessKeeps(ctx: Context, world: World, chunks: seq<Chunk>, items: seq<AcsRecord>, chunk: Chunk)
    requires SoundKeys(ctx.keys) && ctx.now == chunk.now && WorldInv(ctx, world, chunks, items)
    requires Orderly(ctx.keys, items + CountedOf(ctx.keys, chunk.now, Log(chunks + [chunk]), chunk.records))
    ensures WorldInv(ctx, Process(ctx.keys, ctx.rules, world, chunk), chunks + [chunk],
                     items + CountedOf(ctx.keys, chunk.now, Log(chunks + [chunk]), chunk.records))
  {
    hide IsHexKey, IsDestination, IsLineText, SoundKeys, Inv, InsertAll, ProfileOutcome, LastRead, Known, Contains,
      Lookup, Orderly, AfterSightings, ItemPass, CountedOf, AdmittedOf, Commit, Log;
    var records, log := chunk.records, Log(chunks + [chunk]);
    FirstPassKeeps(ctx, world, chunks, items, chunk);
    var first := AfterSightings(ctx, world.cache, records);
    AdmittedIsCounted(ctx, first.cache, log, records);
    ItemPassKeeps(ctx, world.rows, first, items, records);
    var out := TransformChunk(ctx, world.cache, records);
    var all := items + CountedOf(ctx.keys, chunk.now, log, records);
    assert WorldInv(ctx, World(InsertAll(world.rows, out.events), out.cache), chunks + [chunk], all);
    CommitInv(ctx, InsertAll(world.rows, out.events), out.cache, chunk.today, chunks + [chunk], all);
    assert ctx == Context(ctx.keys, ctx.rules, chunk.now);
  }

  lemma WorldInvAnyTime(ctx: Context, now: int, world: World, chunks: seq<Chunk>, items: seq<AcsRecord>)
    requires WorldInv(ctx, world, chunks, items)
    ensures WorldInv(ctx.(now := now), world, chunks, items)
  {
    hide IsHexKey, IsDestination, IsLineText, ItemInv, Winner, LastRead, Known, AllKeyed, HoldGet, Lookup, Contains;
    var ctx' := ctx.(now := now);
    forall pk ensures Outcome(ctx', world.cache, pk) == Outcome(ctx, world.cache, pk) {}
    forall item ensures ItemHolds(ctx', world.rows, world.cache, items, item) {
      assert ItemHolds(ctx, world.rows, world.cache, items, item);
    }
  }

  lemma {:induction false} RunKeeps(keys: Keys, rules: Rules, now: int, chunks: seq<Chunk>)
    requires SoundKeys(keys) && Orderly(keys, Items(keys, chunks))
    ensures WorldInv(Context(keys, rules, now), Run(keys, rules, chunks), chunks, Items(keys, chunks))
    decreases |chunks|
  {
    hide IsHexKey, IsDestination, IsLineText, SoundKeys, Orderly, WorldInv, CountedOf, Process, LatestProfile;
    if chunks != [] {
      var init, last := chunks[..|chunks| - 1], chunks[|chunks| - 1];
      assert init + [last] == chunks;
      OrderlyInit(keys, Items(keys, init), CountedOf(keys, last.now, Log(chunks), last.records));
      RunKeeps(keys, rules, last.now, init);
      ProcessKeeps(Context(keys, rules, last.now), Run(keys, rules, init), init, Items(keys, init), last);
      WorldInvAnyTime(Context(keys, rules, last.now), now, Run(keys, rules, chunks), chunks, Items(keys, chunks));
    } else {
      EmptyWorld(keys, rules, now);
    }
  }

  lemma {:induction false} OrderlyInit(keys: Keys, a: seq<AcsRecord>, b: seq<AcsRecord>)
    requires Orderly(keys, a + b)
    ensures Orderly(keys, a)
  {
    if b == [] {
      assert a + b == a;
    } else {
      assert (a + b)[..|a + b| - 1] == a + b[..|b| - 1];
      OrderlyInit(keys, a, b[..|b| - 1]);
    }
  }

  lemma EmptyWorld(keys: Keys, rules: Rules, now: int)
    ensures WorldInv(Context(keys, rules, now), World([], EMPTY), [], Items(keys, []))
  {
  }

  // ----- the theorems -----

  /** The flags a profile gives the item's latest record, if it is a hold with a patron. */
  function ShownWith(keys: Keys, rules: Rules, w: Option<AcsRecord>, item: HexKey, p: Option<AcsRecord>): Option<Content> {
    Shown(item, w, if w.Some? && w.value.patron != "" then ProfileOutcome(ProfileOf(p), rules) else NO_OUTCOME)
  }

  function PatronKey(keys: Keys, w: Option<AcsRecord>): string {
    if w.Some? then keys.patron(w.value.patron) else ""
  }

  /** After any committed chunks a reader of the stream sees for every item its latest 101 record, and for a
      hold the flags of its patron's last read profile. Nothing is asked of the profiles' order. */
  lemma ReaderSeesLastRead(keys: Keys, rules: Rules, chunks: seq<Chunk>, item: HexKey)
    requires SoundKeys(keys) && Orderly(keys, Items(keys, chunks))
    ensures
      var w := Winner(keys, Items(keys, chunks), item);
      Server.Latest(Run(keys, rules, chunks).rows, item)
      == ShownWith(keys, rules, w, item, LastRead(keys, chunks, PatronKey(keys, w)))
  {
    var ctx := Context(keys, rules, 0);
    RunKeeps(keys, rules, 0, chunks);
    var world := Run(keys, rules, chunks);
    assert ItemHolds(ctx, world.rows, world.cache, Items(keys, chunks), item);
    var w := Winner(keys, Items(keys, chunks), item);
    if w.Some? && w.value.patron != "" {
      var pk := keys.patron(w.value.patron);
      assert Outcome(ctx, world.cache, pk) == ProfileOutcome(ProfileOf(LastRead(keys, chunks, pk)), rules);
    }
  }

  /** The item's latest record is a hold whose flags the two profiles would set differently. */
  predicate Distinguishes(rules: Rules, w: Option<AcsRecord>, p: Option<AcsRecord>, q: Option<AcsRecord>) {
    w.Some? && w.value.state == Hold && w.value.patron != ""
    && Combine(w.value.own, ProfileOutcome(ProfileOf(p), rules)) != Combine(w.value.own, ProfileOutcome(ProfileOf(q), rules))
  }

  /** The reader's view is the whole-log classification exactly when the patron's last read profile and its
      latest profile do not set the item's flags differently. */
  lemma RefinesBatchExactly(keys: Keys, rules: Rules, chunks: seq<Chunk>, item: HexKey)
    requires SoundKeys(keys) && Orderly(keys, Items(keys, chunks))
    ensures
      var w := Winner(keys, Items(keys, chunks), item);
      var pk := PatronKey(keys, w);
      Server.Latest(Run(keys, rules, chunks).rows, item) == BatchView(keys, rules, Items(keys, chunks), Log(chunks), item)
      <==> !Distinguishes(rules, w, LastRead(keys, chunks, pk), LatestProfile(keys, Log(chunks), pk))
  {
    ReaderSeesLastRead(keys, rules, chunks, item);
  }

  /** After any committed chunks, whatever the cutting, the reader's view of every item is the whole-log
      classification, as long as no chunk brings only older profiles of a patron. */
  lemma LedgerRefinesBatch(keys: Keys, rules: Rules, chunks: seq<Chunk>, item: HexKey)
    requires SoundKeys(keys) && ProfilesAdvance(keys, chunks) && Orderly(keys, Items(keys, chunks))
    ensures Server.Latest(Run(keys, rules, chunks).rows, item)
         == BatchView(keys, rules, Items(keys, chunks), Log(chunks), item)
  {
    RefinesBatchExactly(keys, rules, chunks, item);
    LastReadIsLatest(keys, chunks, PatronKey(keys, Winner(keys, Items(keys, chunks), item)));
  }

  /** The item's hold records of one second name one destination. */
  predicate OneDestination(keys: Keys, items: seq<AcsRecord>, item: HexKey, time: int, destination: Destination) {
    forall k :: 0 <= k < |items| && items[k].state == Hold && keys.item(items[k].barcode) == item && items[k].when == time ==>
      items[k].destination == destination
  }

  /** Every row of the item's hold at its second, whatever the destination. */
  ghost predicate AllRevisionsReached(keys: Keys, rows: seq<AcsEvent>, item: HexKey, h: LedgerHold) {
    forall k :: 0 <= k < |rows| && HoldOf(rows[k].content, item, h.time) ==> KeyedWithin(keys, rows[k], h.revision)
  }

  lemma OneDestinationReaches(keys: Keys, rows: seq<AcsEvent>, items: seq<AcsRecord>, item: HexKey, h: LedgerHold)
    requires RowsSourced(keys, items, rows) && RevisionsReached(keys, rows, item, h)
    requires OneDestination(keys, items, item, h.time, h.destination)
    ensures AllRevisionsReached(keys, rows, item, h)
  {
    hide IsHexKey, IsDestination, IsLineText, KeyedWithin;
    forall k | 0 <= k < |rows| && HoldOf(rows[k].content, item, h.time) ensures KeyedWithin(keys, rows[k], h.revision) {
      assert Sourced(keys, items, rows[k].content);
    }
  }

  /** In every reachable world, a hold that is its item's latest record has no row of its destination beyond its
      revision (and no row at all if the second has one destination), so a correction of it is a row the server
      does not have and becomes the item's latest row. */
  lemma NoCorrectionSwallowed(keys: Keys, rules: Rules, chunks: seq<Chunk>, item: HexKey, h: LedgerHold, flags: Flags)
    requires SoundKeys(keys) && Orderly(keys, Items(keys, chunks))
    requires HoldGet(Run(keys, rules, chunks).cache, item) == Some(h)
    requires Winner(keys, Items(keys, chunks), item).Some? ==> Winner(keys, Items(keys, chunks), item).value.when == h.time
    ensures
      var rows := Run(keys, rules, chunks).rows;
      var content := HoldContent(h.time, item, h.destination, flags);
      var correction := BuildAcsItem(keys, content, h.revision + 1);
      RevisionsReached(keys, rows, item, h)
      && (OneDestination(keys, Items(keys, chunks), item, h.time, h.destination) ==> AllRevisionsReached(keys, rows, item, h))
      && !HasKey(rows, correction.eventKey)
      && Server.Latest(Insert(rows, correction), item) == Some(content)
  {
    hide IsHexKey, IsDestination, IsLineText, EventKey, SoundKeys, Run, Items, AllRevisionsReached, OneDestination, Insert,
      Server.Latest, Orderly, LastRead;
    var ctx := Context(keys, rules, 0);
    RunKeeps(keys, rules, 0, chunks);
    var world := Run(keys, rules, chunks);
    var items := Items(keys, chunks);
    assert ItemHolds(ctx, world.rows, world.cache, items, item);
    CorrectionIsNew(keys, world.rows, item, Winner(keys, items, item), h, OutcomeOf(ctx, world.cache, Some(h)), flags);
    if OneDestination(keys, items, item, h.time, h.destination) { OneDestinationReaches(keys, world.rows, items, item, h); }
  }

  // ----- conditions on the log alone -----

  /** The message-64 records of each patron are in time order. */
  predicate ProfilesInOrder(keys: Keys, log: seq<AcsRecord>) {
    forall i, j :: 0 <= i < j < |log| && IsProfile(log[i]) && Quotes(keys, log[j], keys.patron(log[i].patron)) ==>
      IsProfile(log[j]) ==> log[i].when <= log[j].when
  }

  /** An item record that is not too old to become an event. */
  predicate IsItem(r: AcsRecord) {
    r.code == Item10 && r.barcode != "" && EARLIEST <= r.when
  }

  /** No item record was too far in the future when it was read. */
  predicate Timely(chunks: seq<Chunk>) {
    forall k, i :: 0 <= k < |chunks| && 0 <= i < |chunks[k].records| && IsItem(chunks[k].records[i]) ==>
      InWindow(chunks[k].now, chunks[k].records[i].when)
  }

  lemma {:induction false} LatestProfileIndex(keys: Keys, log: seq<AcsRecord>, pk: string) returns (i: int)
    requires LatestProfile(keys, log, pk).Some?
    ensures 0 <= i < |log| && log[i] == LatestProfile(keys, log, pk).value
    ensures IsProfile(log[i]) && keys.patron(log[i].patron) == pk
  {
    var n := |log| - 1;
    if LatestProfile(keys, log, pk) == LatestProfile(keys, log[..n], pk) {
      i := LatestProfileIndex(keys, log[..n], pk);
    } else {
      i := n;
    }
  }

  lemma AdvancesInOrder(keys: Keys, a: seq<AcsRecord>, b: seq<AcsRecord>)
    requires ProfilesInOrder(keys, a + b)
    ensures Advances(keys, a, b) && ProfilesInOrder(keys, a)
  {
    forall pk ensures NotOlder(LatestProfile(keys, a, pk), LatestProfile(keys, b, pk)) {
      if LatestProfile(keys, a, pk).Some? && LatestProfile(keys, b, pk).Some? {
        var i := LatestProfileIndex(keys, a, pk);
        var j := LatestProfileIndex(keys, b, pk);
        assert (a + b)[i] == a[i] && (a + b)[|a| + j] == b[j];
      }
    }
    forall i, j | 0 <= i < j < |a| && IsProfile(a[i]) && Quotes(keys, a[j], keys.patron(a[i].patron)) && IsProfile(a[j])
      ensures a[i].when <= a[j].when
    {
      assert (a + b)[i] == a[i] && (a + b)[j] == a[j];
    }
  }

  lemma {:induction false} InOrderAdvances(keys: Keys, chunks: seq<Chunk>)
    requires ProfilesInOrder(keys, Log(chunks))
    ensures ProfilesAdvance(keys, chunks)
  {
    if chunks != [] {
      AdvancesInOrder(keys, Log(chunks[..|chunks| - 1]), chunks[|chunks| - 1].records);
      InOrderAdvances(keys, chunks[..|chunks| - 1]);
    }
  }

  // ----- the patron-card guard and the cut -----

  /** The item records whose barcode the log nowhere quotes as a patron identifier. */
  function UnquotedItems(keys: Keys, log: seq<AcsRecord>, records: seq<AcsRecord>): seq<AcsRecord> {
    if records == [] then []
    else
      var earlier := UnquotedItems(keys, log, records[..|records| - 1]);
      var r := records[|records| - 1];
      if IsItem(r) && !Known(keys, log, keys.patron(r.barcode)) then earlier + [r] else earlier
  }

  /** A scanned barcode that the log quotes as a patron identifier is already quoted there, at the latest in the
      record that scans it. */
  predicate GuardStable(keys: Keys, log: seq<AcsRecord>) {
    forall i :: 0 <= i < |log| && IsItem(log[i]) && Known(keys, log, keys.patron(log[i].barcode)) ==>
      Known(keys, log[..i + 1], keys.patron(log[i].barcode))
  }

  lemma {:induction false} UnquotedConcat(keys: Keys, log: seq<AcsRecord>, a: seq<AcsRecord>, b: seq<AcsRecord>)
    ensures UnquotedItems(keys, log, a + b) == UnquotedItems(keys, log, a) + UnquotedItems(keys, log, b)
  {
    hide Known;
    if b == [] {
      assert a + b == a;
    } else {
      UnquotedConcat(keys, log, a, b[..|b| - 1]);
      assert (a + b)[..|a + b| - 1] == a + b[..|b| - 1];
    }
  }

  lemma KnownPrefix(keys: Keys, log: seq<AcsRecord>, m: nat, n: nat, pk: string)
    requires m <= n <= |log| && Known(keys, log[..m], pk)
    ensures Known(keys, log[..n], pk)
  {
    assert log[..n] == log[..m] + log[m..n];
    KnownConcat(keys, log[..m], log[m..n], pk);
  }

  /** Under a stable guard the records of log[m..n], read as the end of a chunk that reaches n, count exactly if
      the whole log does not quote them. */
  lemma {:induction false} CountedUnquoted(keys: Keys, now: int, log: seq<AcsRecord>, m: nat, k: nat, n: nat)
    requires m <= k <= n <= |log| && GuardStable(keys, log)
    requires forall i :: m <= i < k && IsItem(log[i]) ==> InWindow(now, log[i].when)
    ensures CountedOf(keys, now, log[..n], log[m..k]) == UnquotedItems(keys, log, log[m..k])
    decreases k
  {
    hide Known;
    if m < k {
      CountedUnquoted(keys, now, log, m, k - 1, n);
      assert log[m..k][..|log[m..k]| - 1] == log[m..k - 1];
      var r := log[k - 1];
      var pk := keys.patron(r.barcode);
      if IsItem(r) {
        if Known(keys, log, pk) { KnownPrefix(keys, log, k, n, pk); }
        if Known(keys, log[..n], pk) {
          assert log[..|log|] == log;
          KnownPrefix(keys, log, n, |log|, pk);
        }
      }
    }
  }

  lemma LogSplit(chunks: seq<Chunk>, log: seq<AcsRecord>)
    requires chunks != [] && Log(chunks) <= log
    ensures
      var init, last := chunks[..|chunks| - 1], chunks[|chunks| - 1];
      Log(init) <= log && |Log(init)| + |last.records| == |Log(chunks)|
      && log[..|Log(chunks)|] == Log(chunks) && log[|Log(init)|..|Log(chunks)|] == last.records
      && log[..|Log(init)|] == Log(init)
  {
    var init, last := chunks[..|chunks| - 1], chunks[|chunks| - 1];
    assert Log(chunks) == Log(init) + last.records;
    assert log[..|Log(chunks)|] == Log(chunks);
    assert log[..|Log(init)|] == Log(chunks)[..|Log(init)|] == Log(init);
    assert log[|Log(init)|..|Log(chunks)|] == Log(chunks)[|Log(init)|..] == last.records;
  }

  /** However a log with a stable guard is cut, the same item records become events. */
  lemma {:induction false} ItemsUnquoted(keys: Keys, chunks: seq<Chunk>, log: seq<AcsRecord>)
    requires GuardStable(keys, log) && Timely(chunks) && Log(chunks) <= log
    ensures Items(keys, chunks) == UnquotedItems(keys, log, Log(chunks))
  {
    hide GuardStable, CountedOf, UnquotedItems, InWindow;
    if chunks == [] {
      assert UnquotedItems(keys, log, []) == [] by { NothingUnquoted(keys, log); }
    } else {
      var init, last := chunks[..|chunks| - 1], chunks[|chunks| - 1];
      LogSplit(chunks, log);
      assert forall k :: 0 <= k < |init| ==> init[k] == chunks[k];
      ItemsUnquoted(keys, init, log);
      forall i | |Log(init)| <= i < |Log(chunks)| && IsItem(log[i]) ensures InWindow(last.now, log[i].when) {
        assert log[i] == last.records[i - |Log(init)|];
      }
      CountedUnquoted(keys, last.now, log, |Log(init)|, |Log(chunks)|, |Log(chunks)|);
      UnquotedConcat(keys, log, Log(init), last.records);
    }
  }

  lemma NothingUnquoted(keys: Keys, log: seq<AcsRecord>)
    ensures UnquotedItems(keys, log, []) == []
  {
  }

  lemma {:induction false} CountedLength(keys: Keys, now: int, more: seq<AcsRecord>, fewer: seq<AcsRecord>, records: seq<AcsRecord>)
    requires forall pk :: Known(keys, fewer, pk) ==> Known(keys, more, pk)
    ensures |CountedOf(keys, now, more, records)| <= |CountedOf(keys, now, fewer, records)|
    ensures records != [] && Counted(keys, now, fewer, records[|records| - 1]) && !Counted(keys, now, more, records[|records| - 1]) ==>
      |CountedOf(keys, now, more, records)| < |CountedOf(keys, now, fewer, records)|
  {
    hide Known, InWindow;
    if records != [] { CountedLength(keys, now, more, fewer, records[..|records| - 1]); }
  }

  lemma {:induction false} CountedConcat(keys: Keys, now: int, log: seq<AcsRecord>, a: seq<AcsRecord>, b: seq<AcsRecord>)
    ensures CountedOf(keys, now, log, a + b) == CountedOf(keys, now, log, a) + CountedOf(keys, now, log, b)
  {
    hide Counted;
    if b == [] {
      assert a + b == a;
    } else {
      CountedConcat(keys, now, log, a, b[..|b| - 1]);
      assert (a + b)[..|a + b| - 1] == a + b[..|b| - 1];
    }
  }

  /** A moment at which every record of the log has come. */
  function LatestTime(log: seq<AcsRecord>): (now: int)
    ensures forall i :: 0 <= i < |log| ==> log[i].when <= now
  {
    if log == [] then 0
    else
      var earlier := LatestTime(log[..|log| - 1]);
      if log[|log| - 1].when <= earlier then earlier else log[|log| - 1].when
  }

  function OneCut(log: seq<AcsRecord>): seq<Chunk> {
    [Chunk(LatestTime(log), 0, log)]
  }

  function TwoCut(log: seq<AcsRecord>, n: nat): seq<Chunk>
    requires n <= |log|
  {
    [Chunk(LatestTime(log), 0, log[..n]), Chunk(LatestTime(log), 0, log[n..])]
  }

  lemma OneChunkLog(keys: Keys, c: Chunk)
    ensures Log([c]) == c.records && [c][..0] == []
    ensures Items(keys, [c]) == CountedOf(keys, c.now, c.records, c.records)
  {
    hide CountedOf;
    assert [c][..0] == [] && Log([]) + c.records == c.records;
    assert Items(keys, []) + CountedOf(keys, c.now, c.records, c.records) == CountedOf(keys, c.now, c.records, c.records);
  }

  lemma TwoChunksLog(keys: Keys, c: Chunk, d: Chunk)
    ensures Log([c, d]) == c.records + d.records
    ensures Items(keys, [c, d]) == CountedOf(keys, c.now, c.records, c.records)
                                   + CountedOf(keys, d.now, c.records + d.records, d.records)
  {
    hide CountedOf;
    OneChunkLog(keys, c);
    assert [c, d][..1] == [c];
  }

  lemma CutsOf(keys: Keys, log: seq<AcsRecord>, n: nat)
    requires n <= |log|
    ensures
      var now := LatestTime(log);
      Log(OneCut(log)) == log == Log(TwoCut(log, n)) && Timely(OneCut(log)) && Timely(TwoCut(log, n))
      && Items(keys, OneCut(log)) == CountedOf(keys, now, log, log)
      && Items(keys, TwoCut(log, n)) == CountedOf(keys, now, log[..n], log[..n]) + CountedOf(keys, now, log, log[n..])
  {
    hide CountedOf, Items, Log;
    OneChunkLog(keys, OneCut(log)[0]);
    TwoChunksLog(keys, TwoCut(log, n)[0], TwoCut(log, n)[1]);
    assert log[..n] + log[n..] == log;
  }

  /** Which item records become events does not depend on the cut exactly when the guard is stable. */
  lemma CutsAgreeExactly(keys: Keys, log: seq<AcsRecord>)
    ensures
      (forall xs, ys :: Log(xs) == log && Log(ys) == log && Timely(xs) && Timely(ys) ==> Items(keys, xs) == Items(keys, ys))
      <==> GuardStable(keys, log)
  {
    hide Timely, Log, Items, CountedOf, UnquotedItems, InWindow;
    if GuardStable(keys, log) {
      forall xs, ys | Log(xs) == log && Log(ys) == log && Timely(xs) && Timely(ys) ensures Items(keys, xs) == Items(keys, ys) {
        ItemsUnquoted(keys, xs, log);
        ItemsUnquoted(keys, ys, log);
      }
    } else {
      var i :| 0 <= i < |log| && IsItem(log[i]) && Known(keys, log, keys.patron(log[i].barcode))
               && !Known(keys, log[..i + 1], keys.patron(log[i].barcode));
      UnstableCut(keys, log, i);
      CutsOf(keys, log, i + 1);
    }
  }

  /** A barcode quoted only after record i: a cut just past it turns the record into an event, no cut does not. */
  lemma UnstableCut(keys: Keys, log: seq<AcsRecord>, i: nat)
    requires i < |log| && IsItem(log[i])
    requires Known(keys, log, keys.patron(log[i].barcode)) && !Known(keys, log[..i + 1], keys.patron(log[i].barcode))
    ensures Items(keys, OneCut(log)) != Items(keys, TwoCut(log, i + 1))
  {
    hide Known, Timely, Items, Log;
    var now, a, b := LatestTime(log), log[..i + 1], log[i + 1..];
    CutsOf(keys, log, i + 1);
    assert a + b == log;
    CountedConcat(keys, now, log, a, b);
    forall pk | Known(keys, a, pk) ensures Known(keys, log, pk) { KnownConcat(keys, a, b, pk); }
    assert a[|a| - 1] == log[i];
    CountedLength(keys, now, log, a, a);
  }

  /** Any two ways of cutting one log into chunks show a reader the same, namely the whole-log answer over the
      item records the guard lets through. */
  lemma ChunkingDoesNotMatter(keys: Keys, rules: Rules, xs: seq<Chunk>, ys: seq<Chunk>, item: HexKey)
    requires SoundKeys(keys) && Log(xs) == Log(ys) && Timely(xs) && Timely(ys)
    requires GuardStable(keys, Log(xs)) && ProfilesInOrder(keys, Log(xs))
    requires Orderly(keys, UnquotedItems(keys, Log(xs), Log(xs)))
    ensures Server.Latest(Run(keys, rules, xs).rows, item) == Server.Latest(Run(keys, rules, ys).rows, item)
         == BatchView(keys, rules, UnquotedItems(keys, Log(xs), Log(xs)), Log(xs), item)
  {
    hide Run, BatchView, Server.Latest, GuardStable, Timely, Orderly, UnquotedItems, ProfilesInOrder, SoundKeys;
    InOrderAdvances(keys, xs);
    InOrderAdvances(keys, ys);
    ItemsUnquoted(keys, xs, Log(xs));
    ItemsUnquoted(keys, ys, Log(ys));
    LedgerRefinesBatch(keys, rules, xs, item);
    LedgerRefinesBatch(keys, rules, ys, item);
  }

  // ----- the order of the profiles and the cut -----

  /** The profile a collector goes by is the latest one of some end of the log. */
  lemma {:induction false} LastReadOfEnd(keys: Keys, chunks: seq<Chunk>, pk: string) returns (m: nat)
    ensures m <= |Log(chunks)| && LastRead(keys, chunks, pk) == LatestProfile(keys, Log(chunks)[m..], pk)
  {
    hide LatestProfile;
    if chunks == [] {
      m := 0;
      assert LatestProfile(keys, [], pk) == None by { NoProfileIn(keys, pk); }
    } else {
      var init, last := chunks[..|chunks| - 1], chunks[|chunks| - 1];
      if LatestProfile(keys, last.records, pk).Some? {
        m := |Log(init)|;
        assert Log(chunks)[m..] == last.records;
      } else {
        m := LastReadOfEnd(keys, init, pk);
        assert Log(chunks)[m..] == Log(init)[m..] + last.records;
        LatestConcat(keys, Log(init)[m..], last.records, pk);
      }
    }
  }

  lemma NoProfileIn(keys: Keys, pk: string)
    ensures LatestProfile(keys, [], pk) == None
  {
  }

  lemma LastReadOfCuts(keys: Keys, log: seq<AcsRecord>, m: nat, pk: string)
    requires m <= |log|
    ensures LastRead(keys, OneCut(log), pk) == LatestProfile(keys, log, pk)
    ensures LatestProfile(keys, log[m..], pk).Some? ==> LastRead(keys, TwoCut(log, m), pk) == LatestProfile(keys, log[m..], pk)
  {
    hide LatestProfile;
    assert OneCut(log)[..0] == [];
  }

  /** For the item's latest record, a hold with a patron, no end of the log has a latest profile of the patron that
      sets the hold's flags differently from the whole log's: an older profile that is read after a newer one, and
      after which no newer one is read, makes no difference. */
  predicate EndsAgree(keys: Keys, rules: Rules, log: seq<AcsRecord>, w: Option<AcsRecord>) {
    forall m :: 0 <= m <= |log| && LatestProfile(keys, log[m..], PatronKey(keys, w)).Some? ==>
      !Distinguishes(rules, w, LatestProfile(keys, log[m..], PatronKey(keys, w)), LatestProfile(keys, log, PatronKey(keys, w)))
  }

  function LetThrough(keys: Keys, log: seq<AcsRecord>): seq<AcsRecord> {
    UnquotedItems(keys, log, log)
  }

  /** What one cutting shows of an item, against the whole-log answer. */
  lemma CutShows(keys: Keys, rules: Rules, log: seq<AcsRecord>, xs: seq<Chunk>, item: HexKey)
    requires SoundKeys(keys) && GuardStable(keys, log) && Orderly(keys, LetThrough(keys, log)) && Log(xs) == log && Timely(xs)
    ensures
      var w := Winner(keys, LetThrough(keys, log), item);
      var pk := PatronKey(keys, w);
      Server.Latest(Run(keys, rules, xs).rows, item) == BatchView(keys, rules, LetThrough(keys, log), log, item)
      <==> !Distinguishes(rules, w, LastRead(keys, xs, pk), LatestProfile(keys, log, pk))
  {
    hide Run, BatchView, Server.Latest, GuardStable, Timely, Orderly, UnquotedItems, SoundKeys, Distinguishes, LastRead, LatestProfile;
    ItemsUnquoted(keys, xs, log);
    RefinesBatchExactly(keys, rules, xs, item);
  }

  /** All timely cuttings of a log show a reader the same of an item, and then the whole-log answer, exactly if the
      ends of the log agree on its patron's outcome. */
  lemma CutsShowAlikeExactly(keys: Keys, rules: Rules, log: seq<AcsRecord>, item: HexKey)
    requires SoundKeys(keys) && GuardStable(keys, log) && Orderly(keys, LetThrough(keys, log))
    ensures
      (forall xs, ys :: Log(xs) == log && Log(ys) == log && Timely(xs) && Timely(ys) ==>
         Server.Latest(Run(keys, rules, xs).rows, item) == Server.Latest(Run(keys, rules, ys).rows, item))
      <==> EndsAgree(keys, rules, log, Winner(keys, LetThrough(keys, log), item))
    ensures EndsAgree(keys, rules, log, Winner(keys, LetThrough(keys, log), item)) ==>
      forall xs :: Log(xs) == log && Timely(xs) ==>
        Server.Latest(Run(keys, rules, xs).rows, item) == BatchView(keys, rules, LetThrough(keys, log), log, item)
  {
    hide Run, BatchView, Server.Latest, GuardStable, Timely, Orderly, LetThrough, SoundKeys, Distinguishes, LastRead, LatestProfile,
      Log, Winner, OneCut, TwoCut, CountedOf, Items;
    var w := Winner(keys, LetThrough(keys, log), item);
    var pk := PatronKey(keys, w);
    if EndsAgree(keys, rules, log, w) {
      forall xs | Log(xs) == log && Timely(xs)
        ensures Server.Latest(Run(keys, rules, xs).rows, item) == BatchView(keys, rules, LetThrough(keys, log), log, item)
      {
        CutShows(keys, rules, log, xs, item);
        var m := LastReadOfEnd(keys, xs, pk);
        if LatestProfile(keys, log[m..], pk).None? { LaterOrNone(keys, xs, log, pk); }
        SameUndistinguished(rules, w, LatestProfile(keys, log, pk));
      }
    } else {
      var m :| 0 <= m <= |log| && LatestProfile(keys, log[m..], pk).Some?
               && Distinguishes(rules, w, LatestProfile(keys, log[m..], pk), LatestProfile(keys, log, pk));
      CutsOf(keys, log, m);
      LastReadOfCuts(keys, log, m, pk);
      CutShows(keys, rules, log, OneCut(log), item);
      CutShows(keys, rules, log, TwoCut(log, m), item);
      SameUndistinguished(rules, w, LatestProfile(keys, log, pk));
    }
  }

  lemma SameUndistinguished(rules: Rules, w: Option<AcsRecord>, p: Option<AcsRecord>)
    ensures !Distinguishes(rules, w, p, p)
  {
  }

  /** A patron without a last read profile has none in the log. */
  lemma {:induction false} LaterOrNone(keys: Keys, chunks: seq<Chunk>, log: seq<AcsRecord>, pk: string)
    requires Log(chunks) == log && LastRead(keys, chunks, pk).None?
    ensures LatestProfile(keys, log, pk).None?
    decreases |chunks|
  {
    hide LatestProfile;
    if chunks == [] {
      NoProfileIn(keys, pk);
    } else {
      var init, last := chunks[..|chunks| - 1], chunks[|chunks| - 1];
      LaterOrNone(keys, init, Log(init), pk);
      LatestConcat(keys, Log(init), last.records, pk);
    }
  }
}
