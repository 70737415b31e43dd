/** Crashes and retries when every attempt is a new run, at its own time and on its own day
    (collector/v2_run.py, `run_once_v2` reads the clock once a run), and whole runs of chunks that are each
    tried any number of times. Nothing a reader, the ledger, the classifier or the cursor can see depends on
    the stops; only the day a new patron was first seen is that of the first attempt that stored it. */
module Crashes {
  import opened Text
  import opened Identity
  import opened Classify
  import opened Patrons
  import opened Transform
  import opened Server
  import opened Ledger
  import opened Refinement
  import opened Runs
  import opened Retry

  // ----- what the days of the patron table and the clock can change in a chunk -----

  /** The same identifiers with the same profiles; the days may differ. */
  ghost predicate SamePatrons(p: map<string, PatronRow>, q: map<string, PatronRow>) {
    p.Keys == q.Keys && forall pk :: pk in p ==> p[pk].info == q[pk].info
  }

  lemma SamePatronsSymmetric(p: map<string, PatronRow>, q: map<string, PatronRow>)
    requires SamePatrons(p, q)
    ensures SamePatrons(q, p)
  {
  }

  ghost predicate Alike(a: Cache, b: Cache) {
    a.holds == b.holds && a.overlay == b.overlay && a.holdOverlay == b.holdOverlay && SamePatrons(a.patrons, b.patrons)
  }

  ghost predicate AccAlike(a: Acc, b: Acc) {
    a.events == b.events && Alike(a.cache, b.cache)
  }

  /** The two instants accept the same of the item records. */
  predicate WindowAgrees(records: seq<AcsRecord>, a: int, b: int) {
    forall k :: 0 <= k < |records| && records[k].code == Item10 && records[k].barcode != "" ==>
      (InWindow(a, records[k].when) <==> InWindow(b, records[k].when))
  }

  lemma AlikeAnswers(a: Cache, b: Cache)
    requires Alike(a, b)
    ensures forall pk :: Lookup(a, pk) == Lookup(b, pk)
    ensures forall pk :: Contains(a, pk) <==> Contains(b, pk)
    ensures forall item :: HoldGet(a, item) == HoldGet(b, item)
  {
  }

  lemma HoldsListedAlike(a: Cache, b: Cache, pk: string)
    requires Alike(a, b)
    ensures HoldsForPatron(a, pk) == HoldsForPatron(b, pk)
  {
    hide IsListing, HoldsForPatron, PatronHolds, IsHexKey, IsDestination;
    AlikeAnswers(a, b);
    PatronHoldsFollowHoldGet(a, b, pk);
    ListingUnique(HoldsForPatron(a, pk), HoldsForPatron(b, pk), PatronHolds(a, pk));
  }

  lemma {:induction false} CorrectionsAlike(ctx: Context, now: int, a: Acc, b: Acc, entries: seq<Entry>, after: Flags)
    requires AccAlike(a, b)
    ensures AccAlike(Corrections(ctx, a, entries, after), Corrections(ctx.(now := now), b, entries, after))
  {
    hide IsHexKey, IsDestination, IsLineText, EventKey, SamePatrons;
    if entries != [] { CorrectionsAlike(ctx, now, a, b, entries[..|entries| - 1], after); }
  }

  lemma ProfileStepAlike(ctx: Context, now: int, a: Acc, b: Acc, pk: string, info: PatronInfo)
    requires AccAlike(a, b)
    ensures AccAlike(ProfileStep(ctx, a, pk, info), ProfileStep(ctx.(now := now), b, pk, info))
  {
    hide IsHexKey, IsDestination, IsLineText, Corrections, HoldsForPatron, SamePatrons, ProfileOutcome, Lookup;
    AlikeAnswers(a.cache, b.cache);
    HoldsListedAlike(a.cache, b.cache, pk);
    CorrectionsAlike(ctx, now, a, b, HoldsForPatron(a.cache, pk), ProfileOutcome(Some(info), ctx.rules));
  }

  lemma {:induction false} ProfilePassAlike(ctx: Context, now: int, a: Acc, b: Acc, dict: Dict)
    requires AccAlike(a, b)
    ensures AccAlike(ProfilePass(ctx, a, dict), ProfilePass(ctx.(now := now), b, dict))
  {
    hide AccAlike, ProfileStep;
    if dict != [] {
      var n := |dict| - 1;
      ProfilePassAlike(ctx, now, a, b, dict[..n]);
      ProfileStepAlike(ctx, now, ProfilePass(ctx, a, dict[..n]), ProfilePass(ctx.(now := now), b, dict[..n]), dict[n].0, dict[n].1);
    }
  }

  lemma {:induction false} SightingsAlike(ctx: Context, now: int, a: Cache, b: Cache, records: seq<AcsRecord>)
    requires Alike(a, b)
    ensures Alike(Sightings(ctx, a, records), Sightings(ctx.(now := now), b, records))
  {
    hide SamePatrons;
    if records != [] { SightingsAlike(ctx, now, a, b, records[..|records| - 1]); }
  }

  lemma ItemStepAlike(ctx: Context, now: int, a: Acc, b: Acc, r: AcsRecord)
    requires AccAlike(a, b)
    requires r.code == Item10 && r.barcode != "" ==> (InWindow(ctx.now, r.when) <==> InWindow(now, r.when))
    ensures AccAlike(ItemStep(ctx, a, r), ItemStep(ctx.(now := now), b, r))
  {
    hide IsHexKey, IsDestination, IsLineText, EventKey, SamePatrons, InWindow, HoldGet, Lookup, Contains, ProfileOutcome, Combine;
    AlikeAnswers(a.cache, b.cache);
    var item := ctx.keys.item(r.barcode);
    assert HoldGet(a.cache, item) == HoldGet(b.cache, item);
    assert HoldFlags(ctx, a.cache, r) == HoldFlags(ctx.(now := now), b.cache, r);
  }

  lemma {:induction false} ItemPassAlike(ctx: Context, now: int, a: Acc, b: Acc, records: seq<AcsRecord>)
    requires AccAlike(a, b) && WindowAgrees(records, ctx.now, now)
    ensures AccAlike(ItemPass(ctx, a, records), ItemPass(ctx.(now := now), b, records))
  {
    hide AccAlike, ItemStep, InWindow;
    if records != [] {
      var n := |records| - 1;
      assert forall k :: 0 <= k < n ==> records[..n][k] == records[k];
      ItemPassAlike(ctx, now, a, b, records[..n]);
      ItemStepAlike(ctx, now, ItemPass(ctx, a, records[..n]), ItemPass(ctx.(now := now), b, records[..n]), records[n]);
    }
  }

  lemma StartAlike(ctx: Context, now: int, a: Cache, b: Cache, records: seq<AcsRecord>)
    requires Alike(a, b)
    ensures AccAlike(AfterSightings(ctx, a, records), AfterSightings(ctx.(now := now), b, records))
  {
    hide IsHexKey, IsDestination, IsLineText, SamePatrons, ProfilePass, Sightings, ProfileDict, SortByTime, ProfileRecords;
    var dict := DictOf(ctx, records);
    ProfilePassAlike(ctx, now, Acc(a, []), Acc(b, []), dict);
    var first, first' := AfterProfiles(ctx, a, records), AfterProfiles(ctx.(now := now), b, records);
    SightingsAlike(ctx, now, first.cache, first'.cache, records);
  }

  /** A chunk's events, ledger and staged patrons do not depend on the days in the patron table, nor on the
      clock as long as it accepts the same item records. */
  lemma ChunkAlike(ctx: Context, now: int, a: Cache, b: Cache, records: seq<AcsRecord>)
    requires Alike(a, b) && WindowAgrees(records, ctx.now, now)
    ensures AccAlike(TransformChunk(ctx, a, records), TransformChunk(ctx.(now := now), b, records))
  {
    hide AccAlike, ItemPass, AfterSightings, WindowAgrees;
    StartAlike(ctx, now, a, b, records);
    ItemPassAlike(ctx, now, AfterSightings(ctx, a, records), AfterSightings(ctx.(now := now), b, records), records);
  }

  // ----- a chunk leaves the stored tables to its commit -----

  lemma {:induction false} ProfilePassTables(ctx: Context, acc: Acc, dict: Dict)
    ensures ProfilePass(ctx, acc, dict).cache.patrons == acc.cache.patrons
  {
    hide CorrectPatron;
    if dict != [] {
      var n := |dict| - 1;
      ProfilePassTables(ctx, acc, dict[..n]);
      CorrectPatronTables(ctx, ProfilePass(ctx, acc, dict[..n]), dict[n].0, ProfileOutcome(Some(dict[n].1), ctx.rules));
    }
  }

  lemma {:induction false} ItemPassTables(ctx: Context, acc: Acc, records: seq<AcsRecord>)
    ensures ItemPass(ctx, acc, records).cache.patrons == acc.cache.patrons
  {
    hide ItemStep;
    if records != [] {
      var n := |records| - 1;
      ItemPassTables(ctx, acc, records[..n]);
      ItemStepTables(ctx, ItemPass(ctx, acc, records[..n]), records[n]);
    }
  }

  lemma ChunkTables(ctx: Context, c: Cache, records: seq<AcsRecord>)
    ensures TransformChunk(ctx, c, records).cache.patrons == c.patrons
  {
    hide ProfilePass, ItemPass, Sightings, SightedOverlay, ProfileDict, SortByTime, ProfileRecords;
    ProfilePassTables(ctx, Acc(c, []), DictOf(ctx, records));
    SightingsOverlay(ctx, AfterProfiles(ctx, c, records).cache, records);
    ItemPassTables(ctx, AfterSightings(ctx, c, records), records);
  }

  // ----- attempts at different times -----

  /** One attempt that stops: its clock reading, its day, and where it stops. */
  datatype Attempt = Attempt(now: int, today: int, stop: Stop)

  ghost function StoppedAll(ctx: Context, disk: Disk, records: seq<AcsRecord>, attempts: seq<Attempt>): Disk {
    if attempts == [] then disk
    else
      var last := attempts[|attempts| - 1];
      Stopped(ctx.(now := last.now), last.today, StoppedAll(ctx, disk, records, attempts[..|attempts| - 1]), records, last.stop)
  }

  /** Every attempt's clock accepts the item records that the finishing one accepts. */
  predicate SameWindow(ctx: Context, records: seq<AcsRecord>, attempts: seq<Attempt>) {
    forall k :: 0 <= k < |attempts| ==> WindowAgrees(records, ctx.now, attempts[k].now)
  }

  ghost predicate SameDisk(d: Disk, e: Disk) {
    d.rows == e.rows && d.holds == e.holds && d.cursor == e.cursor && SamePatrons(d.patrons, e.patrons)
  }

  lemma CommitAlike(a: Cache, b: Cache, s: int, t: int)
    requires Alike(a, b)
    ensures Commit(a, s).holds == Commit(b, t).holds && SamePatrons(Commit(a, s).patrons, Commit(b, t).patrons)
  {
    hide Deleted, Replaced;
    assert Commit(a, s).patrons.Keys == a.patrons.Keys + a.overlay.Keys;
    assert Commit(b, t).patrons.Keys == b.patrons.Keys + b.overlay.Keys;
  }

  lemma StoppedAlike(ctx: Context, now: int, s: int, t: int, d: Disk, e: Disk, records: seq<AcsRecord>, stop: Stop)
    requires SameDisk(d, e) && WindowAgrees(records, ctx.now, now)
    ensures SameDisk(Stopped(ctx, s, d, records, stop), Stopped(ctx.(now := now), t, e, records, stop))
  {
    hide TransformChunk, SamePatrons, CommitPatrons, InsertAll, WindowAgrees, Deleted, Replaced;
    ChunkAlike(ctx, now, Opened(d), Opened(e), records);
    CommitAlike(Out(ctx, d, records).cache, Out(ctx.(now := now), e, records).cache, s, t);
  }

  function Stops(attempts: seq<Attempt>): seq<Stop> {
    if attempts == [] then [] else Stops(attempts[..|attempts| - 1]) + [attempts[|attempts| - 1].stop]
  }

  /** Up to the days in the patron table, the attempts leave what they would leave all at once. */
  lemma {:induction false} StopsAlike(ctx: Context, today: int, disk: Disk, records: seq<AcsRecord>, attempts: seq<Attempt>)
    requires SameWindow(ctx, records, attempts)
    ensures SameDisk(StoppedAtOnce(ctx, today, disk, records, Stops(attempts)), StoppedAll(ctx, disk, records, attempts))
  {
    hide Stopped, WindowAgrees;
    if attempts != [] {
      var init, last := attempts[..|attempts| - 1], attempts[|attempts| - 1];
      assert forall k :: 0 <= k < |init| ==> init[k] == attempts[k];
      StopsAlike(ctx, today, disk, records, init);
      assert Stops(attempts)[..|Stops(init)|] == Stops(init);
      StoppedAlike(ctx, last.now, today, last.today, StoppedAtOnce(ctx, today, disk, records, Stops(init)),
                   StoppedAll(ctx, disk, records, init), records, last.stop);
    }
  }

  // ----- the chunk read again, at another time -----

  /** The ledger the chunk leaves, with the profiles of before or after it, on any days. */
  ghost predicate Left(ctx: Context, disk: Disk, records: seq<AcsRecord>, x: Disk) {
    var done := Commit(Out(ctx, disk, records).cache, 0);
    x.holds == done.holds && (SamePatrons(x.patrons, disk.patrons) || SamePatrons(x.patrons, done.patrons))
  }

  /** A later reading of the chunk, at any time that accepts the same records, sends only what the first one
      sent, and leaves the same ledger and the same staged patrons. */
  lemma RereadChunk(ctx: Context, now: int, disk: Disk, records: seq<AcsRecord>, x: Disk)
    requires Coherent(ctx, Opened(disk)) && Retryable(ctx, disk, records) && Left(ctx, disk, records, x)
    requires WindowAgrees(records, ctx.now, now)
    ensures
      var out, again := Out(ctx, disk, records), Out(ctx.(now := now), x, records);
      (forall k :: 0 <= k < |again.events| ==> again.events[k] in out.events)
      && (forall item :: HoldGet(again.cache, item) == HoldGet(out.cache, item))
      && again.cache.overlay == out.cache.overlay && again.cache.patrons == x.patrons
  {
    hide IsHexKey, IsDestination, IsLineText, TransformChunk, Retryable, Coherent, WindowAgrees, Commit, HoldGet, SamePatrons;
    var y := x.(patrons := if SamePatrons(x.patrons, disk.patrons) then disk.patrons
                           else Commit(Out(ctx, disk, records).cache, 0).patrons);
    SamePatronsSymmetric(x.patrons, y.patrons);
    RereadAtOnce(ctx, 0, disk, records, y);
    ChunkAlike(ctx, now, Opened(y), Opened(x), records);
    ChunkTables(ctx.(now := now), Opened(x), records);
    AlikeAnswers(Out(ctx, y, records).cache, Out(ctx.(now := now), x, records).cache);
  }

  // ----- any stopped attempts, then one that finishes -----

  /** The day of the first attempt that stored its patrons. */
  function FirstStored(attempts: seq<Attempt>): Option<int> {
    if attempts == [] then None
    else
      var earlier := FirstStored(attempts[..|attempts| - 1]);
      var last := attempts[|attempts| - 1];
      if earlier.Some? then earlier else if last.stop.AfterPatrons? then Some(last.today) else None
  }

  /** The table after the attempts: patrons the chunk does not touch are as they were, the others keep the day
      they were first seen, and new ones have the day of the first attempt that stored them. */
  ghost predicate Tracked(before: map<string, PatronRow>, overlay: map<string, Staged>, first: Option<int>,
                          p: map<string, PatronRow>) {
    (forall pk :: pk in before ==> pk in p && p[pk].firstSeen == before[pk].firstSeen)
    && (forall pk :: pk !in overlay ==> (pk in p <==> pk in before))
    && (forall pk :: pk !in overlay && pk in before && pk in p ==> p[pk] == before[pk])
    && (forall pk :: pk in overlay && pk !in before ==>
          (pk in p <==> first.Some?) && (pk in p && first.Some? ==> p[pk].firstSeen == first.value))
  }

  /** Every state on the way stages the same patrons. */
  lemma OnTheWayOverlay(ctx: Context, today: int, disk: Disk, records: seq<AcsRecord>, d: Disk)
    requires Coherent(ctx, Opened(disk)) && Retryable(ctx, disk, records) && OnTheWay(ctx, today, disk, records, d)
    ensures Out(ctx, d, records).cache.overlay == Out(ctx, disk, records).cache.overlay
  {
    hide IsHexKey, IsDestination, IsLineText, TransformChunk, Retryable, Coherent, InsertAll, HoldGet, LeftBy;
    if d.holds == disk.holds && d.patrons == disk.patrons {
      assert Opened(d) == Opened(disk);
    } else {
      RereadAtOnce(ctx, today, disk, records, d);
    }
  }

  lemma AttemptOverlay(ctx: Context, now: int, disk: Disk, records: seq<AcsRecord>, attempts: seq<Attempt>)
    requires Coherent(ctx, Opened(disk)) && Retryable(ctx, disk, records)
    requires SameWindow(ctx, records, attempts) && WindowAgrees(records, ctx.now, now)
    ensures
      var d := StoppedAll(ctx, disk, records, attempts);
      Out(ctx.(now := now), d, records).cache.overlay == Out(ctx, disk, records).cache.overlay
  {
    hide IsHexKey, IsDestination, IsLineText, TransformChunk, Retryable, Coherent, OnTheWay, SamePatrons, WindowAgrees;
    StopsAlike(ctx, 0, disk, records, attempts);
    StopsKeep(ctx, 0, disk, records, Stops(attempts));
    var e := StoppedAtOnce(ctx, 0, disk, records, Stops(attempts));
    OnTheWayOverlay(ctx, 0, disk, records, e);
    ChunkAlike(ctx, now, Opened(e), Opened(StoppedAll(ctx, disk, records, attempts)), records);
  }

  lemma TrackedCommit(before: map<string, PatronRow>, overlay: map<string, Staged>, first: Option<int>, c: Cache, today: int)
    requires Tracked(before, overlay, first, c.patrons) && c.overlay == overlay
    ensures Tracked(before, overlay, if first.Some? then first else Some(today), Commit(c, today).patrons)
  {
    hide Deleted, Replaced;
  }

  lemma {:induction false} AttemptsTracked(ctx: Context, disk: Disk, records: seq<AcsRecord>, attempts: seq<Attempt>)
    requires Coherent(ctx, Opened(disk)) && Retryable(ctx, disk, records) && SameWindow(ctx, records, attempts)
    ensures Tracked(disk.patrons, Out(ctx, disk, records).cache.overlay, FirstStored(attempts),
                    StoppedAll(ctx, disk, records, attempts).patrons)
  {
    hide IsHexKey, IsDestination, IsLineText, TransformChunk, Retryable, Coherent, WindowAgrees, Commit, InsertAll;
    if attempts != [] {
      var init, last := attempts[..|attempts| - 1], attempts[|attempts| - 1];
      assert forall k :: 0 <= k < |init| ==> init[k] == attempts[k];
      AttemptsTracked(ctx, disk, records, init);
      var d := StoppedAll(ctx, disk, records, init);
      AttemptOverlay(ctx, last.now, disk, records, init);
      ChunkTables(ctx.(now := last.now), Opened(d), records);
      TrackedCommit(disk.patrons, Out(ctx, disk, records).cache.overlay, FirstStored(init),
                    Out(ctx.(now := last.now), d, records).cache, last.today);
    }
  }

  /** The disk after a chunk, with the patrons that are new in it first seen on the given day. */
  function FirstSeenOn(before: Disk, after: Disk, day: int): Disk {
    after.(patrons := map pk | pk in after.patrons ::
      if pk in before.patrons then after.patrons[pk] else after.patrons[pk].(firstSeen := day))
  }

  function FirstDay(attempts: seq<Attempt>, today: int): int {
    match FirstStored(attempts) case Some(day) => day case None => today
  }

  /** A committed row: its days, and its profile where nothing is staged. */
  lemma CommittedRow(c: Cache, pk: string, today: int)
    ensures
      var p := Commit(c, today).patrons;
      (pk in p <==> pk in c.patrons || pk in c.overlay)
      && (pk in c.overlay ==>
            p[pk].lastSeen == today && p[pk].firstSeen == if pk in c.patrons then c.patrons[pk].firstSeen else today)
      && (pk in c.patrons && pk !in c.overlay ==> p[pk] == c.patrons[pk])
  {
    hide Deleted, Replaced;
  }

  lemma SameButFirst(before: Disk, a: Cache, b: Cache, attempts: seq<Attempt>, today: int)
    requires a.patrons == before.patrons && a.overlay == b.overlay
    requires Tracked(before.patrons, a.overlay, FirstStored(attempts), b.patrons)
    requires SamePatrons(Commit(a, today).patrons, Commit(b, today).patrons)
    ensures
      var clean := before.(patrons := Commit(a, today).patrons);
      Commit(b, today).patrons == FirstSeenOn(before, clean, FirstDay(attempts, today)).patrons
  {
    hide Commit, FirstStored;
    var p, q := Commit(a, today).patrons, Commit(b, today).patrons;
    var clean := before.(patrons := p);
    var r := FirstSeenOn(before, clean, FirstDay(attempts, today)).patrons;
    forall pk ensures (pk in q <==> pk in r) && (pk in q && pk in r ==> q[pk] == r[pk]) {
      CommittedRow(a, pk, today);
      CommittedRow(b, pk, today);
    }
  }

  /** Any attempts that stop anywhere, each at its own time and on its own day, followed by one that finishes,
      leave what the finishing one alone leaves: the same rows in the same order, the same ledger, the same
      profiles and last-seen days and the same cursor. A patron new in the chunk was first seen on the day of
      the first attempt that stored it. */
  lemma CrashesChangeNothing(ctx: Context, today: int, disk: Disk, records: seq<AcsRecord>, attempts: seq<Attempt>, end: int)
    requires Coherent(ctx, Opened(disk)) && Retryable(ctx, disk, records) && SameWindow(ctx, records, attempts)
    ensures Finished(ctx, today, StoppedAll(ctx, disk, records, attempts), records, end)
         == FirstSeenOn(disk, Finished(ctx, today, disk, records, end), FirstDay(attempts, today))
  {
    hide IsHexKey, IsDestination, IsLineText, TransformChunk, Retryable, Coherent, WindowAgrees, InsertAll, SamePatrons,
      Tracked, Commit, SameWindow, FirstStored;
    var e, d := StoppedAtOnce(ctx, today, disk, records, Stops(attempts)), StoppedAll(ctx, disk, records, attempts);
    StopsAlike(ctx, today, disk, records, attempts);
    CrashesAtOnce(ctx, today, disk, records, Stops(attempts), end);
    WindowReflexive(records, ctx.now);
    assert ctx.(now := ctx.now) == ctx;
    StoppedAlike(ctx, ctx.now, today, today, e, d, records, AfterPatrons);
    AttemptsTracked(ctx, disk, records, attempts);
    AttemptOverlay(ctx, ctx.now, disk, records, attempts);
    ChunkTables(ctx, Opened(d), records);
    ChunkTables(ctx, Opened(disk), records);
    SameButFirst(disk, Out(ctx, disk, records).cache, Out(ctx, d, records).cache, attempts, today);
  }

  lemma WindowReflexive(records: seq<AcsRecord>, now: int)
    ensures WindowAgrees(records, now, now)
  {
  }

  // ----- whole runs of chunks, each tried any number of times -----

  /** A chunk, the attempts at it that stopped before the one that finished, and where its cursor then is. */
  datatype Trial = Trial(chunk: Chunk, attempts: seq<Attempt>, end: int)

  ghost function Tried(keys: Keys, rules: Rules, disk: Disk, t: Trial): Disk {
    var ctx := Context(keys, rules, t.chunk.now);
    Finished(ctx, t.chunk.today, StoppedAll(ctx, disk, t.chunk.records, t.attempts), t.chunk.records, t.end)
  }

  ghost function CrashRun(keys: Keys, rules: Rules, trials: seq<Trial>): Disk {
    if trials == [] then Disk([], map[], map[], 0)
    else Tried(keys, rules, CrashRun(keys, rules, trials[..|trials| - 1]), trials[|trials| - 1])
  }

  function Chunks(trials: seq<Trial>): seq<Chunk> {
    if trials == [] then [] else Chunks(trials[..|trials| - 1]) + [trials[|trials| - 1].chunk]
  }

  function DiskOf(world: World): Disk {
    Disk(world.rows, world.cache.patrons, world.cache.holds, 0)
  }

  /** Each chunk is retryable over what the uninterrupted run of the earlier ones left, and its attempts' clocks
      accept the same of its item records. */
  ghost predicate AllRetryable(keys: Keys, rules: Rules, trials: seq<Trial>) {
    trials == []
    || (var init, last := trials[..|trials| - 1], trials[|trials| - 1];
        var ctx := Context(keys, rules, last.chunk.now);
        AllRetryable(keys, rules, init)
        && Retryable(ctx, DiskOf(Run(keys, rules, Chunks(init))), last.chunk.records)
        && SameWindow(ctx, last.chunk.records, last.attempts))
  }

  /** The same patrons but for the day they were first seen. */
  ghost predicate SameButFirstSeen(p: map<string, PatronRow>, q: map<string, PatronRow>) {
    SamePatrons(p, q) && forall pk :: pk in p ==> p[pk].lastSeen == q[pk].lastSeen
  }

  /** The disk holds what the world does, and the world is committed. */
  ghost predicate Agrees(d: Disk, world: World) {
    d.rows == world.rows && d.holds == world.cache.holds && SameButFirstSeen(d.patrons, world.cache.patrons)
    && world.cache == Opened(DiskOf(world))
  }

  lemma CoherentAnyTime(ctx: Context, now: int, c: Cache)
    requires Coherent(ctx, c)
    ensures Coherent(ctx.(now := now), c)
  {
    forall pk ensures Outcome(ctx.(now := now), c, pk) == Outcome(ctx, c, pk) {}
  }

  lemma ConditionsAlike(ctx: Context, d: Disk, e: Disk, records: seq<AcsRecord>)
    requires Alike(Opened(e), Opened(d))
    requires Coherent(ctx, Opened(e)) && Retryable(ctx, e, records)
    ensures Coherent(ctx, Opened(d)) && Retryable(ctx, d, records)
  {
    hide IsHexKey, IsDestination, IsLineText, AfterSightings, Agree, Apart, HoldGet, Lookup, SamePatrons, ProfileOutcome, Combine;
    AlikeAnswers(Opened(e), Opened(d));
    StartAlike(ctx, ctx.now, Opened(e), Opened(d), records);
    assert ctx.(now := ctx.now) == ctx;
    AlikeAnswers(Start(ctx, e, records).cache, Start(ctx, d, records).cache);
    AdmittedSame(ctx, Start(ctx, e, records).cache, Start(ctx, d, records).cache, records);
    forall pk ensures Outcome(ctx, Opened(e), pk) == Outcome(ctx, Opened(d), pk) {}
  }

  lemma CommitSameDays(a: Cache, b: Cache, today: int)
    requires Alike(a, b) && SameButFirstSeen(a.patrons, b.patrons)
    ensures SameButFirstSeen(Commit(a, today).patrons, Commit(b, today).patrons)
  {
    hide Commit;
    CommitAlike(a, b, today, today);
    forall pk | pk in Commit(a, today).patrons
      ensures Commit(a, today).patrons[pk].lastSeen == Commit(b, today).patrons[pk].lastSeen
    {
      CommittedRow(a, pk, today);
      CommittedRow(b, pk, today);
    }
  }

  lemma FirstSeenOnly(before: Disk, after: Disk, day: int)
    ensures SameButFirstSeen(FirstSeenOn(before, after, day).patrons, after.patrons)
  {
  }

  lemma SameButTransitive(p: map<string, PatronRow>, q: map<string, PatronRow>, r: map<string, PatronRow>)
    requires SameButFirstSeen(p, q) && SameButFirstSeen(q, r)
    ensures SameButFirstSeen(p, r)
  {
  }

  /** One trial leaves what processing its chunk leaves. */
  lemma TriedIsProcess(ctx: Context, d: Disk, world: World, t: Trial)
    requires ctx.now == t.chunk.now && Agrees(d, world) && Coherent(ctx, world.cache)
    requires Retryable(ctx, DiskOf(world), t.chunk.records) && SameWindow(ctx, t.chunk.records, t.attempts)
    ensures
      var next := Process(ctx.keys, ctx.rules, world, t.chunk);
      Agrees(Tried(ctx.keys, ctx.rules, d, t), next) && Coherent(ctx, next.cache)
  {
    hide IsHexKey, IsDestination, IsLineText, TransformChunk, Retryable, Coherent, WindowAgrees, InsertAll, SamePatrons, Commit,
      StoppedAll, SameWindow, FirstSeenOn, FirstDay, SameButFirstSeen;
    var records, today := t.chunk.records, t.chunk.today;
    var e := DiskOf(world);
    assert ctx == Context(ctx.keys, ctx.rules, t.chunk.now);
    SameButGivesSame(d.patrons, e.patrons);
    ConditionsAlike(ctx, d, e, records);
    CrashesChangeNothing(ctx, today, d, records, t.attempts, t.end);
    WindowReflexive(records, ctx.now);
    assert ctx.(now := ctx.now) == ctx;
    ChunkAlike(ctx, ctx.now, Opened(d), Opened(e), records);
    var out, out' := Out(ctx, d, records), Out(ctx, e, records);
    ChunkTables(ctx, Opened(d), records);
    ChunkTables(ctx, Opened(e), records);
    CommitAlike(out.cache, out'.cache, today, today);
    CommitSameDays(out.cache, out'.cache, today);
    FinishedCoherent(ctx, today, e, records, t.end);
    Committed(out'.cache, today);
    FirstSeenOnly(d, Finished(ctx, today, d, records, t.end), FirstDay(t.attempts, today));
    FirstSeenKeepsRest(d, Finished(ctx, today, d, records, t.end), FirstDay(t.attempts, today));
    SameButTransitive(FirstSeenOn(d, Finished(ctx, today, d, records, t.end), FirstDay(t.attempts, today)).patrons,
                      Commit(out.cache, today).patrons, Commit(out'.cache, today).patrons);
  }

  lemma SameButGivesSame(p: map<string, PatronRow>, q: map<string, PatronRow>)
    requires SameButFirstSeen(p, q)
    ensures SamePatrons(p, q) && SamePatrons(q, p)
  {
  }

  lemma Committed(c: Cache, today: int)
    ensures Commit(c, today).overlay == map[] && Commit(c, today).holdOverlay == map[]
  {
  }

  lemma FirstSeenKeepsRest(before: Disk, after: Disk, day: int)
    ensures
      var d := FirstSeenOn(before, after, day);
      d.rows == after.rows && d.holds == after.holds && d.cursor == after.cursor
  {
  }

  /** However often its chunks were tried, a run leaves the rows, the ledger, the profiles and the last-seen days
      of the run that never stopped. */
  lemma {:induction false} CrashRunIsRun(keys: Keys, rules: Rules, now: int, trials: seq<Trial>)
    requires AllRetryable(keys, rules, trials)
    ensures Agrees(CrashRun(keys, rules, trials), Run(keys, rules, Chunks(trials)))
    ensures Coherent(Context(keys, rules, now), Run(keys, rules, Chunks(trials)).cache)
    decreases |trials|
  {
    hide Tried, Process, Agrees, Retryable, Coherent, SameWindow;
    if trials == [] {
      NothingTried(keys, rules, now);
    } else {
      var init, last := trials[..|trials| - 1], trials[|trials| - 1];
      var ctx := Context(keys, rules, last.chunk.now);
      CrashRunIsRun(keys, rules, last.chunk.now, init);
      TriedIsProcess(ctx, CrashRun(keys, rules, init), Run(keys, rules, Chunks(init)), last);
      assert Chunks(trials)[..|Chunks(init)|] == Chunks(init);
      CoherentAnyTime(ctx, now, Run(keys, rules, Chunks(trials)).cache);
      assert ctx.(now := now) == Context(keys, rules, now);
    }
  }

  lemma NothingTried(keys: Keys, rules: Rules, now: int)
    ensures Agrees(CrashRun(keys, rules, []), Run(keys, rules, Chunks([])))
    ensures Coherent(Context(keys, rules, now), Run(keys, rules, Chunks([])).cache)
  {
  }

  /** Under crashes too, a reader sees the whole-log classification exactly when the patron's last read profile
      and its latest one do not set the item's flags differently. */
  lemma CrashesRefineBatchExactly(keys: Keys, rules: Rules, trials: seq<Trial>, item: HexKey)
    requires SoundKeys(keys) && AllRetryable(keys, rules, trials) && Orderly(keys, Items(keys, Chunks(trials)))
    ensures
      var chunks := Chunks(trials);
      var w := Winner(keys, Items(keys, chunks), item);
      var pk := PatronKey(keys, w);
      Server.Latest(CrashRun(keys, rules, trials).rows, item) == BatchView(keys, rules, Items(keys, chunks), Log(chunks), item)
      <==> !Distinguishes(rules, w, LastRead(keys, chunks, pk), LatestProfile(keys, Log(chunks), pk))
  {
    CrashRunIsRun(keys, rules, 0, trials);
    RefinesBatchExactly(keys, rules, Chunks(trials), item);
  }
}
