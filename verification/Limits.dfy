/** Where the refinement stops: for each condition of module Runs on the log one that breaks it, and what a reader then sees:
    when a hold that returns in one second is seen, and when one that lost its ledger row stays right. */
module Limits {
  import opened Text
  import opened Identity
  import opened Classify
  import opened Patrons
  import opened Transform
  import opened Server
  import opened Ledger
  import opened Provenance
  import opened Refinement
  import opened Runs
  import opened Retry
  import opened OneItem

  // ----- the order of the two transactions -----

  /** Why the ledger commits before the patrons. Were the patrons committed and the ledger not, reading the same
      profile again would find nothing changed: no correction is sent, and the ledger keeps a row whose flags are not
      those of the patron's stored profile, for good. */
  lemma PatronsFirstWouldStrand(ctx: Context, today: int, c: Cache, pk: string, info: PatronInfo, item: HexKey, h: LedgerHold)
    requires c.overlay == map[] && c.holdOverlay == map[] && item in c.holds && c.holds[item] == h && h.patron == pk
    requires h.flags != Combine(h.own, ProfileOutcome(Some(info), ctx.rules))
    ensures
      var first := ProfileStep(ctx, Acc(c, []), pk, info);
      var crashed := Discard(CommitPatrons(first.cache, today));
      var again := ProfileStep(ctx, Acc(crashed, []), pk, info);
      var left := Commit(again.cache, today);
      again.events == [] && HoldGet(left, item) == Some(h) && h.flags != Combine(h.own, Outcome(ctx, left, pk))
  {
    hide IsHexKey, IsDestination, IsLineText, ProfileOutcome, Combine, EventKey;
    var first := ProfileStep(ctx, Acc(c, []), pk, info);
    CorrectPatronTables(ctx, Acc(c, []), pk, ProfileOutcome(Some(info), ctx.rules));
    var crashed := Discard(CommitPatrons(first.cache, today));
    assert Lookup(crashed, pk) == Some(info);
    var again := ProfileStep(ctx, Acc(crashed, []), pk, info);
    assert again == Acc(Stage(crashed, pk, info, true), []);
    CommitKeepsAnswers(again.cache, today);
  }

  // ----- logs that break the conditions -----

  const PLAIN := Flags(false, false, false)

  const UNKNOWN: Destination := "unknown"

  function HoldRecordOf(when: int, barcode: string, patron: string): AcsRecord {
    AcsRecord(when, Item10, barcode, patron, Hold, PLAIN, UNKNOWN, NO_INFO)
  }

  function ProfileRecord(when: int, patron: string, ill: bool): AcsRecord {
    AcsRecord(when, Profile64, "", patron, OtherCode10, PLAIN, UNKNOWN, PatronInfo(None, ill, false))
  }

  function OtherRecord(when: int, patron: string): AcsRecord {
    AcsRecord(when, OtherCode, "", patron, OtherCode10, PLAIN, UNKNOWN, NO_INFO)
  }

  /** In one chunk the later record makes the barcode a patron identifier; in a chunk of its own it comes too late. */
  lemma GuardedItems(keys: Keys)
    ensures
      var a, b := HoldRecordOf(EARLIEST, "X", ""), OtherRecord(EARLIEST, "X");
      CountedOf(keys, EARLIEST, [a, b], [a, b]) == [] && CountedOf(keys, EARLIEST, [a], [a]) == [a]
      && CountedOf(keys, EARLIEST, [a, b], [b]) == []
  {
    hide IsHexKey, IsDestination, IsLineText;
    var a, b := HoldRecordOf(EARLIEST, "X", ""), OtherRecord(EARLIEST, "X");
    assert Known(keys, [a, b], keys.patron("X")) by { assert Quotes(keys, [a, b][1], keys.patron("X")); }
    assert !Known(keys, [a], keys.patron("X"));
    assert [a, b][..1] == [a] && [a][..0] == [] && [b][..0] == [];
    assert CountedOf(keys, EARLIEST, [a, b], [a]) == [];
  }

  lemma HoldAlone(keys: Keys, hold: AcsRecord)
    requires hold.state == Hold
    ensures Orderly(keys, []) && Orderly(keys, [hold])
    ensures Winner(keys, [], keys.item(hold.barcode)) == None && Winner(keys, [hold], keys.item(hold.barcode)) == Some(hold)
  {
    hide IsHexKey, IsDestination, IsLineText;
    assert [hold][..0] == [];
  }

  /** Whether the guard drops a barcode depends on the cut: a later record of the same chunk can make it a
      patron identifier, a later chunk cannot. */
  lemma GuardDependsOnTheCut(keys: Keys, rules: Rules)
    requires SoundKeys(keys)
    ensures
      var a, b := HoldRecordOf(EARLIEST, "X", ""), OtherRecord(EARLIEST, "X");
      var one := [Chunk(EARLIEST, 0, [a, b])];
      var two := [Chunk(EARLIEST, 0, [a]), Chunk(EARLIEST, 0, [b])];
      Log(one) == Log(two)
      && Server.Latest(Run(keys, rules, one).rows, keys.item("X")).None?
      && Server.Latest(Run(keys, rules, two).rows, keys.item("X")).Some?
  {
    hide IsHexKey, IsDestination, IsLineText, Run, Server.Latest, CountedOf, Winner, Orderly, LastRead, SoundKeys;
    var a, b := HoldRecordOf(EARLIEST, "X", ""), OtherRecord(EARLIEST, "X");
    var c1, c2, c := Chunk(EARLIEST, 0, [a]), Chunk(EARLIEST, 0, [b]), Chunk(EARLIEST, 0, [a, b]);
    var one, two := [c], [c1, c2];
    OneChunkLog(keys, c);
    OneChunkLog(keys, c1);
    assert two[..1] == [c1] && [a] + [b] == [a, b];
    GuardedItems(keys);
    assert Log(two) == [a, b] && Log(one) == [a, b];
    assert Items(keys, two) == [a] + [] == [a];
    HoldAlone(keys, a);
    ReaderSeesLastRead(keys, rules, one, keys.item("X"));
    ReaderSeesLastRead(keys, rules, two, keys.item("X"));
  }

  function OlderLast(): seq<Chunk> {
    [Chunk(EARLIEST, 0, [HoldRecordOf(EARLIEST, "X", "P"), ProfileRecord(EARLIEST + 10, "P", true)]),
     Chunk(EARLIEST, 0, [ProfileRecord(EARLIEST + 5, "P", false)])]
  }

  lemma OlderLastLog()
    ensures Log(OlderLast()) ==
      [HoldRecordOf(EARLIEST, "X", "P"), ProfileRecord(EARLIEST + 10, "P", true), ProfileRecord(EARLIEST + 5, "P", false)]
    ensures Log(OlderLast()[..1]) == [HoldRecordOf(EARLIEST, "X", "P"), ProfileRecord(EARLIEST + 10, "P", true)]
  {
    var chunks := OlderLast();
    assert chunks[..1] == [chunks[0]] && [chunks[0]][..0] == [];
    assert Log([]) + chunks[0].records == chunks[0].records;
  }

  lemma OlderLastItems(keys: Keys)
    requires SoundKeys(keys) && keys.patron("X") != keys.patron("P")
    ensures Items(keys, OlderLast()) == [HoldRecordOf(EARLIEST, "X", "P")]
  {
    hide IsHexKey, IsDestination, IsLineText, Log;
    var hold, ill, plain := HoldRecordOf(EARLIEST, "X", "P"), ProfileRecord(EARLIEST + 10, "P", true), ProfileRecord(EARLIEST + 5, "P", false);
    var chunks := OlderLast();
    OlderLastLog();
    assert chunks[..1][..0] == [] && chunks[..1][0] == chunks[0];
    assert !Known(keys, [hold, ill], keys.patron("X"));
    assert [hold, ill][..1] == [hold] && [hold][..0] == [] && [plain][..0] == [];
    assert CountedOf(keys, EARLIEST, [hold, ill], [hold]) == [hold];
    assert CountedOf(keys, EARLIEST, [hold, ill], [hold, ill]) == [hold];
    assert Items(keys, chunks[..1]) == [] + [hold];
    assert CountedOf(keys, EARLIEST, [hold, ill, plain], [plain]) == [];
  }

  lemma OlderLastProfiles(keys: Keys)
    ensures var hold, ill, plain := HoldRecordOf(EARLIEST, "X", "P"), ProfileRecord(EARLIEST + 10, "P", true), ProfileRecord(EARLIEST + 5, "P", false);
      LatestProfile(keys, [plain], keys.patron("P")) == Some(plain)
      && LatestProfile(keys, [hold, ill, plain], keys.patron("P")) == Some(ill)
  {
    hide IsHexKey, IsDestination, IsLineText;
    var hold, ill, plain := HoldRecordOf(EARLIEST, "X", "P"), ProfileRecord(EARLIEST + 10, "P", true), ProfileRecord(EARLIEST + 5, "P", false);
    var pk := keys.patron("P");
    assert [plain][..0] == [];
    assert [hold, ill, plain][..2] == [hold, ill] && [hold, ill][..1] == [hold] && [hold][..0] == [];
    assert LatestProfile(keys, [hold], pk) == None;
    assert LatestProfile(keys, [hold, ill], pk) == Some(ill);
  }

  /** A chunk that brings only an older profile of a patron takes the newer one's flags back. */
  lemma OlderProfileMisleads(keys: Keys, rules: Rules)
    requires SoundKeys(keys) && keys.patron("X") != keys.patron("P")
    ensures
      Server.Latest(Run(keys, rules, OlderLast()).rows, keys.item("X"))
      != BatchView(keys, rules, Items(keys, OlderLast()), Log(OlderLast()), keys.item("X"))
  {
    hide IsHexKey, IsDestination, IsLineText, Run, Server.Latest, BatchView, Items, Log, LatestProfile, SoundKeys;
    var hold := HoldRecordOf(EARLIEST, "X", "P");
    OlderLastLog();
    OlderLastItems(keys);
    OlderLastProfiles(keys);
    assert Winner(keys, [hold], keys.item("X")) == Some(hold) by { assert [hold][..0] == []; }
    assert Orderly(keys, [hold]) by { assert [hold][..0] == []; }
    RefinesBatchExactly(keys, rules, OlderLast(), keys.item("X"));
  }

  lemma SwallowedCounted(keys: Keys)
    ensures CountedOf(keys, EARLIEST, SwallowedLog(), SwallowedLog()) == SwallowedLog()
  {
    hide IsHexKey, IsDestination, IsLineText, Known;
    var hold := HoldRecordOf(EARLIEST, "X", "");
    var non := hold.(state := NonHold101);
    var records := [hold, non, hold];
    assert records[..2] == [hold, non] && [hold, non][..1] == [hold] && [hold][..0] == [];
    NobodyKnown(keys, records, keys.patron("X"));
    assert CountedOf(keys, EARLIEST, records, []) == [];
    assert CountedOf(keys, EARLIEST, records, [hold]) == [hold];
    assert CountedOf(keys, EARLIEST, records, [hold, non]) == [hold, non];
  }

  lemma NobodyKnown(keys: Keys, log: seq<AcsRecord>, pk: string)
    requires forall r :: r in log ==> r.patron == ""
    ensures !Known(keys, log, pk)
  {
  }

  /** The hold that returned is the item's latest record. */
  lemma SwallowedWinner(keys: Keys)
    ensures Winner(keys, SwallowedLog(), keys.item("X")) == Some(HoldRecordOf(EARLIEST, "X", ""))
  {
    hide IsHexKey, IsDestination, IsLineText;
    var hold := HoldRecordOf(EARLIEST, "X", "");
    var non := hold.(state := NonHold101);
    var records := [hold, non, hold];
    assert records[..2] == [hold, non] && [hold, non][..1] == [hold] && [hold][..0] == [];
    assert Winner(keys, [hold], keys.item("X")) == Some(hold);
    assert Winner(keys, [hold, non], keys.item("X")) == Some(non);
  }

  /** A hold that returns in the second of the non-hold that followed it is swallowed: its first event has
      the key the server already holds. */
  lemma ReturnInOneSecondIsSwallowed(keys: Keys, rules: Rules)
    requires SoundKeys(keys)
    ensures
      var chunks := [Chunk(EARLIEST, 0, SwallowedLog())];
      Server.Latest(Run(keys, rules, chunks).rows, keys.item("X"))
      != BatchView(keys, rules, Items(keys, chunks), Log(chunks), keys.item("X"))
  {
    hide IsHexKey, IsDestination, IsLineText, CountedOf, Winner, SoundKeys, Run, Server.Latest, SwallowedLog;
    var chunk := Chunk(EARLIEST, 0, SwallowedLog());
    OneChunkLog(keys, chunk);
    SwallowedCounted(keys);
    SwallowedWinner(keys);
    SwallowedRows(keys, rules);
  }

  // ----- an other-code-10 record in the second of a hold -----

  /** An item in no ledger row that a chunk is silent about: the reader sees what it saw. */
  lemma AbsentStays(keys: Keys, rules: Rules, world: World, chunk: Chunk, item: HexKey)
    requires SoundKeys(keys) && HoldGet(world.cache, item).None?
    requires Silent(Context(keys, rules, chunk.now), world.cache, chunk.records, item)
    ensures
      var next := Process(keys, rules, world, chunk);
      HoldGet(next.cache, item).None? && Server.Latest(next.rows, item) == Server.Latest(world.rows, item)
  {
    hide IsHexKey, IsDestination, IsLineText, EventKey, SoundKeys, Server.Latest, HoldGet, TransformChunk, InsertAll, HasKey,
      EventsAbout, Commit;
    var ctx := Context(keys, rules, chunk.now);
    var out := TransformChunk(ctx, world.cache, chunk.records);
    AbsentChunk(ctx, world.cache, chunk.records, item);
    ChunkKeyed(ctx, world.cache, chunk.records);
    AboutDecides(keys, world.rows, world.rows, item, out.events);
    assert InsertAll(world.rows, []) == world.rows by { NothingMore(world.rows); }
    CommitKeepsAnswers(out.cache, chunk.today);
  }

  lemma NothingMore(rows: seq<AcsEvent>)
    ensures InsertAll(rows, []) == rows
  {
  }

  /** None of the later chunks turns a record into an event about the item. */
  ghost predicate LaterSilent(keys: Keys, rules: Rules, run: seq<Chunk>, more: seq<Chunk>, item: HexKey) {
    more == []
    || (var init, last := more[..|more| - 1], more[|more| - 1];
        LaterSilent(keys, rules, run, init, item)
        && Silent(Context(keys, rules, last.now), Run(keys, rules, run + init).cache, last.records, item))
  }

  lemma {:induction false} AbsentThroughout(keys: Keys, rules: Rules, run: seq<Chunk>, more: seq<Chunk>, item: HexKey)
    requires SoundKeys(keys) && HoldGet(Run(keys, rules, run).cache, item).None? && LaterSilent(keys, rules, run, more, item)
    ensures
      var world := Run(keys, rules, run + more);
      HoldGet(world.cache, item).None? && Server.Latest(world.rows, item) == Server.Latest(Run(keys, rules, run).rows, item)
    decreases |more|
  {
    hide Process, HoldGet, Server.Latest, Silent, SoundKeys;
    if more == [] {
      assert run + more == run;
    } else {
      var init, last := more[..|more| - 1], more[|more| - 1];
      AbsentThroughout(keys, rules, run, init, item);
      assert (run + more)[..|run + more| - 1] == run + init;
      AbsentStays(keys, rules, Run(keys, rules, run + init), last, item);
    }
  }

  /** The chunk that ends with such a record deletes the hold's ledger row and changes nothing a reader sees. */
  lemma OtherCodeStep(keys: Keys, rules: Rules, chunks: seq<Chunk>, chunk: Chunk, records: seq<AcsRecord>, r: AcsRecord)
    requires SoundKeys(keys) && r.state == OtherCode10 && chunk.records == records + [r]
    requires Counted(keys, chunk.now, Log(chunks) + chunk.records, r)
    requires
      var items := Items(keys, chunks) + CountedOf(keys, chunk.now, Log(chunks) + chunk.records, records);
      var w := Winner(keys, items, keys.item(r.barcode));
      Orderly(keys, items) && w.Some? && w.value.state == Hold && w.value.patron != "" && w.value.when == r.when
    ensures
      var item := keys.item(r.barcode);
      var items := Items(keys, chunks) + CountedOf(keys, chunk.now, Log(chunks) + chunk.records, records);
      var w := Winner(keys, items, item);
      var out := TransformChunk(Context(keys, rules, chunk.now), Run(keys, rules, chunks).cache, chunk.records);
      HoldGet(out.cache, item).None?
      && Server.Latest(InsertAll(Run(keys, rules, chunks).rows, out.events), item)
         == ShownWith(keys, rules, w, item, LastRead(keys, chunks + [chunk], PatronKey(keys, w)))
  {
    hide IsHexKey, IsDestination, IsLineText, EventKey, SoundKeys, Server.Latest, HoldGet, Insert, InsertAll, AllKeyed,
      Orderly, Winner, Items, CountedOf, AfterSightings, AllSourced, HoldFlags, NextRevision, Contains, InWindow, Known,
      Puts, RevisionsReached, LastRead, ProfileOutcome, Lookup;
    var ctx := Context(keys, rules, chunk.now);
    var world := Run(keys, rules, chunks);
    var first := AfterSightings(ctx, world.cache, chunk.records);
    var acc := ItemPass(ctx, first, records);
    var item := keys.item(r.barcode);
    var items := Items(keys, chunks);
    OrderlyInit(keys, items, CountedOf(keys, chunk.now, Log(chunks) + chunk.records, records));
    RunKeeps(keys, rules, chunk.now, chunks);
    FirstPassKeeps(ctx, world, chunks, items, chunk);
    ChunksSnoc(keys, chunks, chunk, "");
    AdmittedIsCounted(ctx, first.cache, Log(chunks) + chunk.records, records);
    ItemPassKeeps(ctx, world.rows, first, items, records);
    var all := items + AdmittedOf(ctx, first.cache, records);
    assert ItemHolds(ctx, InsertAll(world.rows, acc.events), acc.cache, all, item);
    assert Contains(acc.cache, keys.patron(r.barcode)) <==> Contains(first.cache, keys.patron(r.barcode));
    assert chunk.records[..|records|] == records && chunk.records[|records|] == r;
    assert ItemPass(ctx, first, chunk.records) == ItemStep(ctx, acc, r);
    var h := HoldGet(acc.cache, item);
    var e := ItemEvent(ctx, acc.cache, r, h);
    StoreEntryGet(ctx, acc.cache, item, r);
    InsertAllSnoc(world.rows, acc.events, e);
    InsertLatest(InsertAll(world.rows, acc.events), e, item);
    var pk := keys.patron(Winner(keys, all, item).value.patron);
    assert Outcome(ctx, first.cache, pk) == Outcome(ctx, acc.cache, pk);
    assert Outcome(ctx, first.cache, pk) == ProfileOutcome(ProfileOf(LastRead(keys, chunks + [chunk], pk)), rules);
  }

  /** An other-code-10 record in the second of its item's latest record, a hold with a patron, deletes the hold's
      ledger row, and the hold stays the latest record. No later profile corrects it: whatever chunks follow without
      the item, a reader sees the flags of the profile of that time, so it is right exactly as long as the
      profiles read later do not set the flags differently. */
  lemma OtherCodeExactly(keys: Keys, rules: Rules, chunks: seq<Chunk>, chunk: Chunk, records: seq<AcsRecord>, r: AcsRecord,
                         more: seq<Chunk>)
    requires SoundKeys(keys) && r.state == OtherCode10 && chunk.records == records + [r]
    requires Counted(keys, chunk.now, Log(chunks) + chunk.records, r)
    requires
      var items := Items(keys, chunks) + CountedOf(keys, chunk.now, Log(chunks) + chunk.records, records);
      var w := Winner(keys, items, keys.item(r.barcode));
      Orderly(keys, items) && w.Some? && w.value.state == Hold && w.value.patron != "" && w.value.when == r.when
    requires LaterSilent(keys, rules, chunks + [chunk], more, keys.item(r.barcode))
    ensures
      var item := keys.item(r.barcode);
      var items := Items(keys, chunks) + CountedOf(keys, chunk.now, Log(chunks) + chunk.records, records);
      var w := Winner(keys, items, item);
      var run := chunks + [chunk];
      var pk := PatronKey(keys, w);
      var p, q := LastRead(keys, run, pk), LastRead(keys, run + more, pk);
      Server.Latest(Run(keys, rules, run + more).rows, item) == ShownWith(keys, rules, w, item, p)
      && (Server.Latest(Run(keys, rules, run + more).rows, item) == ShownWith(keys, rules, w, item, q)
          <==> !Distinguishes(rules, w, p, q))
  {
    hide IsHexKey, IsDestination, IsLineText, EventKey, SoundKeys, Server.Latest, HoldGet, InsertAll, TransformChunk, Orderly,
      Winner, Items, CountedOf, Counted, LastRead, ProfileOutcome, Commit, LaterSilent;
    var run, item := chunks + [chunk], keys.item(r.barcode);
    OtherCodeStep(keys, rules, chunks, chunk, records, r);
    assert run[..|chunks|] == chunks;
    var out := TransformChunk(Context(keys, rules, chunk.now), Run(keys, rules, chunks).cache, chunk.records);
    CommitKeepsAnswers(out.cache, chunk.today);
    AbsentThroughout(keys, rules, run, more, item);
  }

  function StrandedHold(): AcsRecord {
    HoldRecordOf(EARLIEST, "X", "P")
  }

  function StrandingRecord(): AcsRecord {
    StrandedHold().(state := OtherCode10)
  }

  lemma StrandedWinners(keys: Keys)
    ensures
      var hold, other := StrandedHold(), StrandingRecord();
      Winner(keys, [hold], keys.item("X")) == Some(hold) && Winner(keys, [hold, other], keys.item("X")) == Some(hold)
      && Orderly(keys, [hold])
  {
    hide IsHexKey, IsDestination, IsLineText;
    var hold, other := StrandedHold(), StrandingRecord();
    assert [hold][..0] == [] && [hold, other][..1] == [hold];
  }

  lemma StrandedCounted(keys: Keys)
    requires keys.patron("X") != keys.patron("P")
    ensures
      var hold, other := StrandedHold(), StrandingRecord();
      Counted(keys, EARLIEST, [hold, other], other) && CountedOf(keys, EARLIEST, [hold, other], [hold]) == [hold]
  {
    hide IsHexKey, IsDestination, IsLineText;
    var hold, other := StrandedHold(), StrandingRecord();
    assert !Known(keys, [hold, other], keys.patron("X"));
    assert [hold][..0] == [];
    assert CountedOf(keys, EARLIEST, [hold, other], []) == [];
  }

  lemma StrandedItems(keys: Keys)
    requires keys.patron("X") != keys.patron("P")
    ensures
      var hold, other := StrandedHold(), StrandingRecord();
      Items(keys, []) + CountedOf(keys, EARLIEST, Log([]) + [hold, other], [hold]) == [hold]
      && Counted(keys, EARLIEST, Log([]) + [hold, other], other)
  {
    hide IsHexKey, IsDestination, IsLineText, Counted, CountedOf;
    var hold, other := StrandedHold(), StrandingRecord();
    StrandedCounted(keys);
    assert Log([]) + [hold, other] == [hold, other];
    assert Items(keys, []) == [] && [] + [hold] == [hold];
  }

  lemma StrandedProfiles(keys: Keys)
    ensures
      var hold, other, ill := StrandedHold(), StrandingRecord(), ProfileRecord(EARLIEST + 10, "P", true);
      var run := [Chunk(EARLIEST, 0, [hold, other])];
      var more := [Chunk(EARLIEST, 0, [ill])];
      var pk := keys.patron("P");
      LastRead(keys, run, pk) == None && LastRead(keys, run + more, pk) == Some(ill)
      && LatestProfile(keys, [hold, other, ill], pk) == Some(ill)
  {
    hide IsHexKey, IsDestination, IsLineText;
    var hold, other, ill := StrandedHold(), StrandingRecord(), ProfileRecord(EARLIEST + 10, "P", true);
    var run, more := [Chunk(EARLIEST, 0, [hold, other])], [Chunk(EARLIEST, 0, [ill])];
    var pk := keys.patron("P");
    assert [hold, other][..1] == [hold] && [hold][..0] == [] && [hold, other, ill][..2] == [hold, other] && [ill][..0] == [];
    assert LatestProfile(keys, [hold], pk) == None && LatestProfile(keys, [hold, other], pk) == None;
    assert LatestProfile(keys, [ill], pk) == Some(ill);
    assert run[..0] == [] && (run + more)[..1] == run;
  }

  /** A hold, an other-code-10 record in its second, and later the profile that makes the hold ill: the whole log
      says ill, the reader keeps plain. */
  lemma OtherCodeStrands(keys: Keys, rules: Rules)
    requires SoundKeys(keys) && keys.patron("X") != keys.patron("P")
    ensures
      var hold, other, ill := StrandedHold(), StrandingRecord(), ProfileRecord(EARLIEST + 10, "P", true);
      var chunks := [Chunk(EARLIEST, 0, [hold, other])] + [Chunk(EARLIEST, 0, [ill])];
      var item := keys.item("X");
      Server.Latest(Run(keys, rules, chunks).rows, item) == Some(HoldContent(EARLIEST, item, UNKNOWN, PLAIN))
      && BatchView(keys, rules, [hold, other], [hold, other, ill], item)
         == Some(HoldContent(EARLIEST, item, UNKNOWN, Flags(true, false, false)))
  {
    hide IsHexKey, IsDestination, IsLineText, EventKey, SoundKeys, Server.Latest, Run, Items, CountedOf, Counted, LastRead,
      LatestProfile, Winner, Orderly, AfterSightings, Log;
    var hold, other, ill := StrandedHold(), StrandingRecord(), ProfileRecord(EARLIEST + 10, "P", true);
    var chunk, last, item := Chunk(EARLIEST, 0, [hold, other]), Chunk(EARLIEST, 0, [ill]), keys.item("X");
    StrandedItems(keys);
    StrandedWinners(keys);
    StrandedProfiles(keys);
    assert [hold] + [other] == [hold, other] && [] + [chunk] == [chunk];
    var ctx := Context(keys, rules, EARLIEST);
    NoItemsSilent(ctx, AfterSightings(ctx, Run(keys, rules, [chunk] + []).cache, [ill]).cache, [ill]);
    assert LaterSilent(keys, rules, [chunk], [last], item) by { assert [last][..0] == []; }
    OtherCodeExactly(keys, rules, [], chunk, [hold], other, [last]);
  }

  // ----- when a hold that returns in one second is seen -----

  /** Every event a run has sent, in order. */
  ghost function Sent(keys: Keys, rules: Rules, chunks: seq<Chunk>): seq<AcsEvent> {
    if chunks == [] then []
    else
      var init, last := chunks[..|chunks| - 1], chunks[|chunks| - 1];
      Sent(keys, rules, init) + TransformChunk(Context(keys, rules, last.now), Run(keys, rules, init).cache, last.records).events
  }

  lemma {:induction false} RowsAreSent(keys: Keys, rules: Rules, chunks: seq<Chunk>)
    ensures Run(keys, rules, chunks).rows == InsertAll([], Sent(keys, rules, chunks))
  {
    hide TransformChunk, InsertAll, Commit;
    if chunks != [] {
      var init, last := chunks[..|chunks| - 1], chunks[|chunks| - 1];
      RowsAreSent(keys, rules, init);
      InsertAllConcat([], Sent(keys, rules, init),
                      TransformChunk(Context(keys, rules, last.now), Run(keys, rules, init).cache, last.records).events);
    } else {
      assert InsertAll([], []) == [] by { NothingInserted(); }
    }
  }

  lemma NothingInserted()
    ensures InsertAll([], []) == []
  {
  }

  lemma {:induction false} RowsWereSent(events: seq<AcsEvent>, e: AcsEvent)
    requires e in InsertAll([], events)
    ensures e in events
  {
    if events != [] {
      var init := events[..|events| - 1];
      if e in InsertAll([], init) { RowsWereSent(init, e); }
    }
  }

  /** A row under the key of an event is that event. */
  lemma KeyIsRow(keys: Keys, rows: seq<AcsEvent>, content: Content, rev: nat)
    requires SoundKeys(keys) && AllKeyed(keys, rows)
    ensures HasKey(rows, EventKey(keys, content, rev)) <==> BuildAcsItem(keys, content, rev) in rows
  {
    hide IsHexKey, IsDestination, IsLineText, EventKey;
    if HasKey(rows, EventKey(keys, content, rev)) {
      var k :| 0 <= k < |rows| && rows[k].eventKey == EventKey(keys, content, rev);
      assert Ledger.Keyed(keys, rows[k]);
      var m: nat :| rows[k].eventKey == EventKey(keys, rows[k].content, m);
      EventKeyDetermines(keys, rows[k].content, m, content, rev);
      assert rows[k] == BuildAcsItem(keys, content, rev);
    }
  }

  lemma SentIsStored(keys: Keys, sent: seq<AcsEvent>, content: Content, rev: nat)
    requires SoundKeys(keys) && AllKeyed(keys, InsertAll([], sent))
    ensures BuildAcsItem(keys, content, rev) in sent <==> HasKey(InsertAll([], sent), EventKey(keys, content, rev))
  {
    hide IsHexKey, IsDestination, IsLineText, EventKey, AllKeyed, SoundKeys, InsertAll;
    KeyIsRow(keys, InsertAll([], sent), content, rev);
    var e := BuildAcsItem(keys, content, rev);
    if e in InsertAll([], sent) { RowsWereSent(sent, e); }
    InsertAllHas([], sent);
  }

  /** Any hold or non-hold in the second of its item's latest record is seen exactly if its event is new or the
      reader sees the same already. */
  lemma SameSecondExactly(ctx: Context, rows: seq<AcsEvent>, c: Cache, items: seq<AcsRecord>, r: AcsRecord)
    requires Inv(ctx, rows, c, items) && r.state != OtherCode10
    requires
      var w := Winner(ctx.keys, items, ctx.keys.item(r.barcode));
      w.Some? && w.value.when == r.when
    ensures
      var item := ctx.keys.item(r.barcode);
      var e := ItemEvent(ctx, c, r, HoldGet(c, item));
      Server.Latest(Insert(rows, e), item) == Some(e.content)
      <==> !HasKey(rows, e.eventKey) || Server.Latest(rows, item) == Some(e.content)
  {
    hide IsHexKey, IsDestination, IsLineText, EventKey, AllKeyed, Server.Latest, HoldGet, Outcome, Insert, HasKey;
    var item := ctx.keys.item(r.barcode);
    assert ItemHolds(ctx, rows, c, items, item);
    InsertLatest(rows, ItemEvent(ctx, c, r, HoldGet(c, item)), item);
  }

  /** A hold in the second of the non-hold that is its item's latest record starts again at revision 0, and a
      reader sees it exactly if the server does not have that event yet. */
  lemma ReturningHoldExactly(ctx: Context, rows: seq<AcsEvent>, c: Cache, items: seq<AcsRecord>, r: AcsRecord)
    requires SoundKeys(ctx.keys) && Inv(ctx, rows, c, items) && r.state == Hold
    requires
      var w := Winner(ctx.keys, items, ctx.keys.item(r.barcode));
      w.Some? && w.value.state == NonHold101 && w.value.when == r.when
    ensures
      var item := ctx.keys.item(r.barcode);
      var e := ItemEvent(ctx, c, r, HoldGet(c, item));
      e == BuildAcsItem(ctx.keys, ItemContent(ctx, c, r), 0)
      && (Server.Latest(Insert(rows, e), item) == Some(e.content) <==> !HasKey(rows, e.eventKey))
  {
    hide IsHexKey, IsDestination, IsLineText, EventKey, SoundKeys, AllKeyed, Server.Latest, HoldGet, Outcome, Insert;
    var item := ctx.keys.item(r.barcode);
    assert ItemHolds(ctx, rows, c, items, item);
    InsertLatest(rows, ItemEvent(ctx, c, r, HoldGet(c, item)), item);
  }

  /** The same of the events of a whole run that ends with that hold: a reader sees it exactly if the run has not
      sent its event before. */
  lemma ReturnSeenExactly(keys: Keys, rules: Rules, chunks: seq<Chunk>, now: int, today: int, records: seq<AcsRecord>, r: AcsRecord)
    requires SoundKeys(keys) && r.state == Hold && Counted(keys, now, Log(chunks) + (records + [r]), r)
    requires
      var items := Items(keys, chunks) + CountedOf(keys, now, Log(chunks) + (records + [r]), records);
      var w := Winner(keys, items, keys.item(r.barcode));
      Orderly(keys, items) && w.Some? && w.value.state == NonHold101 && w.value.when == r.when
    ensures
      var run := chunks + [Chunk(now, today, records + [r])];
      var sent := Sent(keys, rules, run);
      sent != []
      && (var e, before := sent[|sent| - 1], sent[..|sent| - 1];
          e.content.HoldContent? && e.content.item == keys.item(r.barcode) && e.content.time == r.when
          && e.content.destination == r.destination
          && (Server.Latest(Run(keys, rules, run).rows, keys.item(r.barcode)) == Some(e.content) <==> e !in before))
  {
    hide IsHexKey, IsDestination, IsLineText, EventKey, SoundKeys, Server.Latest, HoldGet, Outcome, Insert, InsertAll, Inv, ItemStep,
      Orderly, Winner, Items, CountedOf, AfterSightings, AllSourced, WorldInv, HasKey, HoldFlags, NextRevision, ItemPass, Commit,
      Contains, InWindow, Known;
    var ctx := Context(keys, rules, now);
    var all := records + [r];
    var chunk := Chunk(now, today, all);
    var run := chunks + [chunk];
    var item := keys.item(r.barcode);
    var e := ReturnStep(keys, rules, chunks, chunk, records, r);
    assert run[..|chunks|] == chunks;
    var before := Sent(keys, rules, chunks) + ItemPass(ctx, AfterSightings(ctx, Run(keys, rules, chunks).cache, all), records).events;
    var sent := Sent(keys, rules, run);
    assert sent == before + [e];
    RowsAreSent(keys, rules, run);
    InsertAllSnoc([], before, e);
    SentIsStored(keys, before, e.content, 0);
  }

  /** The last record of that chunk: its event, and when it changes what a reader sees. */
  lemma ReturnStep(keys: Keys, rules: Rules, chunks: seq<Chunk>, chunk: Chunk, records: seq<AcsRecord>, r: AcsRecord)
    returns (e: AcsEvent)
    requires SoundKeys(keys) && r.state == Hold && chunk.records == records + [r]
    requires Counted(keys, chunk.now, Log(chunks) + chunk.records, r)
    requires
      var items := Items(keys, chunks) + CountedOf(keys, chunk.now, Log(chunks) + chunk.records, records);
      var w := Winner(keys, items, keys.item(r.barcode));
      Orderly(keys, items) && w.Some? && w.value.state == NonHold101 && w.value.when == r.when
    ensures
      var ctx := Context(keys, rules, chunk.now);
      var world := Run(keys, rules, chunks);
      var acc := ItemPass(ctx, AfterSightings(ctx, world.cache, chunk.records), records);
      var rows := InsertAll([], Sent(keys, rules, chunks) + acc.events);
      var item := keys.item(r.barcode);
      TransformChunk(ctx, world.cache, chunk.records).events == acc.events + [e]
      && e == BuildAcsItem(keys, e.content, 0)
      && e.content.HoldContent? && e.content.item == item && e.content.time == r.when && e.content.destination == r.destination
      && AllKeyed(keys, rows)
      && (Server.Latest(Insert(rows, e), item) == Some(e.content) <==> !HasKey(rows, e.eventKey))
  {
    hide IsHexKey, IsDestination, IsLineText, EventKey, SoundKeys, Server.Latest, HoldGet, Outcome, Insert, InsertAll, AllKeyed,
      Orderly, Winner, Items, CountedOf, AfterSightings, AllSourced, HasKey, HoldFlags, NextRevision, Contains, InWindow, Known,
      OutcomesFit, LedgerAfter, Puts, StoreEntry;
    var ctx := Context(keys, rules, chunk.now);
    var world := Run(keys, rules, chunks);
    var first := AfterSightings(ctx, world.cache, chunk.records);
    var acc := ItemPass(ctx, first, records);
    var item := keys.item(r.barcode);
    var items := Items(keys, chunks);
    OrderlyInit(keys, items, CountedOf(keys, chunk.now, Log(chunks) + chunk.records, records));
    RunKeeps(keys, rules, chunk.now, chunks);
    FirstPassKeeps(ctx, world, chunks, items, chunk);
    ChunksSnoc(keys, chunks, chunk, "");
    AdmittedIsCounted(ctx, first.cache, Log(chunks) + chunk.records, records);
    ItemPassKeeps(ctx, world.rows, first, items, records);
    var h := HoldGet(acc.cache, item);
    e := ItemEvent(ctx, acc.cache, r, h);
    assert Contains(acc.cache, keys.patron(r.barcode)) <==> Contains(first.cache, keys.patron(r.barcode));
    assert chunk.records[..|records|] == records && chunk.records[|records|] == r;
    assert ItemPass(ctx, first, chunk.records) == ItemStep(ctx, acc, r);
    ReturningHoldExactly(ctx, InsertAll(world.rows, acc.events), acc.cache, items + AdmittedOf(ctx, first.cache, records), r);
    RowsAreSent(keys, rules, chunks);
    InsertAllConcat([], Sent(keys, rules, chunks), acc.events);
  }

  function SwallowedLog(): seq<AcsRecord> {
    var hold := HoldRecordOf(EARLIEST, "X", "");
    [hold, hold.(state := NonHold101), hold]
  }

  /** A record without a patron, over an empty cache, sends its event at revision 0 and leaves nothing. */
  lemma PatronlessStep(ctx: Context, events: seq<AcsEvent>, r: AcsRecord)
    requires r.code == Item10 && r.barcode != "" && r.patron == "" && InWindow(ctx.now, r.when)
    ensures ItemStep(ctx, Acc(EMPTY, events), r)
         == Acc(EMPTY, events + [BuildAcsItem(ctx.keys, ItemContent(ctx, EMPTY, r), 0)])
  {
  }

  lemma NoPatronsNoFirstPass(ctx: Context, records: seq<AcsRecord>)
    requires forall r :: r in records ==> r.patron == ""
    ensures AfterSightings(ctx, EMPTY, records) == Acc(EMPTY, [])
  {
    NoProfiles(records);
    NoSightings(ctx, records);
  }

  lemma {:induction false} NoProfiles(records: seq<AcsRecord>)
    requires forall r :: r in records ==> r.patron == ""
    ensures ProfileRecords(records) == []
  {
    if records != [] { NoProfiles(records[..|records| - 1]); }
  }

  lemma {:induction false} NoSightings(ctx: Context, records: seq<AcsRecord>)
    requires forall r :: r in records ==> r.patron == ""
    ensures Sightings(ctx, EMPTY, records) == EMPTY
  {
    if records != [] { NoSightings(ctx, records[..|records| - 1]); }
  }

  /** That chunk sends the hold, the non-hold, and the hold's event again. */
  lemma SwallowedEvents(keys: Keys, rules: Rules)
    ensures
      var e := BuildAcsItem(keys, HoldContent(EARLIEST, keys.item("X"), UNKNOWN, PLAIN), 0);
      var n := BuildAcsItem(keys, Non101Content(EARLIEST, keys.item("X")), 0);
      TransformChunk(Context(keys, rules, EARLIEST), EMPTY, SwallowedLog()).events == [e, n, e]
  {
    hide IsHexKey, IsDestination, IsLineText, EventKey, ItemStep, AfterSightings;
    var hold := HoldRecordOf(EARLIEST, "X", "");
    var non := hold.(state := NonHold101);
    var one := [hold];
    var two := one + [non];
    var records := two + [hold];
    var ctx := Context(keys, rules, EARLIEST);
    assert records[..2] == two && two[..1] == one && one[..0] == [] && records == SwallowedLog();
    NoPatronsNoFirstPass(ctx, records);
    var e := BuildAcsItem(keys, HoldContent(EARLIEST, keys.item("X"), UNKNOWN, PLAIN), 0);
    var n := BuildAcsItem(keys, Non101Content(EARLIEST, keys.item("X")), 0);
    var start := Acc(EMPTY, []);
    PatronlessStep(ctx, [], hold);
    assert ItemPass(ctx, start, one) == Acc(EMPTY, [e]);
    PatronlessStep(ctx, [e], non);
    assert ItemPass(ctx, start, two) == Acc(EMPTY, [e, n]);
    PatronlessStep(ctx, [e, n], hold);
    assert ItemPass(ctx, start, records) == Acc(EMPTY, [e, n, e]);
  }

  /** The rows of that chunk: the hold and the non-hold, and nothing for the hold that returned. */
  lemma SwallowedRows(keys: Keys, rules: Rules)
    requires SoundKeys(keys)
    ensures Server.Latest(Run(keys, rules, [Chunk(EARLIEST, 0, SwallowedLog())]).rows, keys.item("X"))
         == Some(Non101Content(EARLIEST, keys.item("X")))
  {
    hide IsHexKey, IsDestination, IsLineText, EventKey, TransformChunk, SwallowedLog, InsertAll, Server.Latest;
    var item := keys.item("X");
    var chunks := [Chunk(EARLIEST, 0, SwallowedLog())];
    var e := BuildAcsItem(keys, HoldContent(EARLIEST, item, UNKNOWN, PLAIN), 0);
    var n := BuildAcsItem(keys, Non101Content(EARLIEST, item), 0);
    SwallowedEvents(keys, rules);
    assert chunks[..0] == [];
    if e.eventKey == n.eventKey { EventKeyDetermines(keys, e.content, 0, n.content, 0); }
    AgainInserted(e, n, item);
  }

  /** Two events and the first again: the second stays the latest row. */
  lemma AgainInserted(e: AcsEvent, n: AcsEvent, item: HexKey)
    requires e.eventKey != n.eventKey && Counts(e.content, item) && Counts(n.content, item) && e.content.time == n.content.time
    ensures Server.Latest(InsertAll([], [e, n, e]), item) == Some(n.content)
  {
    hide IsHexKey, IsDestination, IsLineText;
    assert [e, n, e][..2] == [e, n] && [e, n][..1] == [e] && [e][..0] == [];
    assert InsertAll([], [e]) == [e];
    assert InsertAll([], [e, n]) == [e, n] by { assert [e] + [n] == [e, n]; }
    assert InsertAll([], [e, n, e]) == [e, n] by { assert HasKey([e, n], [e, n][0].eventKey); }
    assert Server.Latest([e], item) == Some(e.content);
    assert Server.Latest([e, n], item) == Some(n.content);
  }
}
