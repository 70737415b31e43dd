/** From the files to the reader: the runs of module Cursors, over a server that stores each event it is sent unless
    it has its key, are the runs of module Runs. A run reads chunks of three logs, delivers their events in slices,
    commits the patron cache and saves cursors; for the ACS log that is `Runs.Process` once for each saved chunk. */
module EndToEnd {
  import opened Text
  import opened Identity
  import opened Classify
  import opened P = Patrons
  import T = Transform
  import opened Server
  import opened Ledger
  import opened Runs
  import opened Crashes
  import Q = Quarantines
  import D = Delivery
  import opened Reading
  import C = Cursors

  /** One run's clock and day, its keys and rules, the parser, and what the server reads from an event's payload. */
  datatype Setup = Setup(keys: T.Keys, rules: Rules, now: int, today: int, parse: seq<Bytes> -> seq<T.AcsRecord>,
                         payload: Q.SafeEvent -> T.AcsEvent)

  function Safe(e: T.AcsEvent): Q.SafeEvent {
    Q.SafeEvent(Q.AcsItems, e.eventKey, e.content.time)
  }

  function Safes(events: seq<T.AcsEvent>): seq<Q.SafeEvent> {
    if events == [] then [] else Safes(events[..|events| - 1]) + [Safe(events[|events| - 1])]
  }

  function Payloads(payload: Q.SafeEvent -> T.AcsEvent, events: seq<Q.SafeEvent>): seq<T.AcsEvent> {
    if events == [] then [] else Payloads(payload, events[..|events| - 1]) + [payload(events[|events| - 1])]
  }

  /** The ACS rows of the server after the requests beyond the first `from`. */
  function ServerRows(payload: Q.SafeEvent -> T.AcsEvent, rows: seq<T.AcsEvent>, sent: seq<D.Batch>, from: nat): seq<T.AcsEvent> {
    InsertAll(rows, Payloads(payload, D.Carried(sent, from, Q.AcsItems)))
  }

  // ----- what a chunk of each log is -----

  /** A chunk of the ACS log is transformed over the cache as it then is, and its events' payloads are the events. */
  ghost predicate Transforms(env: C.Env, s: Setup, before: Cache, c: C.Commit) {
    var out := T.TransformChunk(T.Context(s.keys, s.rules, s.now), before, s.parse(c.lines));
    && env.transform(c.name, c.lines, c.read) == Safes(out.events)
    && ApplyAll(before, env.changes(c.name, c.lines, c.read)) == out.cache
    && forall e :: e in out.events ==> s.payload(Safe(e)) == e
  }

  predicate IsSighting(before: Cache, change: Change) {
    change.StageChange? && !change.profile && change.info == NO_INFO && change.pk in before.patrons
  }

  /** A chunk of another log sends no ACS event, and at most sights patrons that the cache knows. */
  ghost predicate OnlyGuards(env: C.Env, before: Cache, c: C.Commit) {
    (forall e :: e in env.transform(c.name, c.lines, c.read) ==> e.kind != Q.AcsItems)
    && forall change :: change in env.changes(c.name, c.lines, c.read) ==> IsSighting(before, change)
  }

  ghost predicate Fits(env: C.Env, s: Setup, before: Cache, c: C.Commit) {
    c.lines != [] ==> if c.name == C.AcsLog then Transforms(env, s, before, c) else OnlyGuards(env, before, c)
  }

  ghost predicate AllFit(env: C.Env, s: Setup, cache: Cache, journal: seq<C.Commit>) {
    journal == []
    || (AllFit(env, s, cache, journal[..|journal| - 1])
        && Fits(env, s, C.CacheAfter(env, cache, s.today, journal[..|journal| - 1]), journal[|journal| - 1]))
  }

  /** Every chunk was delivered with nothing refused, then or before. */
  ghost predicate Unrefused(env: C.Env, journal: seq<C.Commit>) {
    forall i :: 0 <= i < |journal| && journal[i].lines != [] ==>
      C.Delivered(env, journal[i]) && journal[i].listed == [] && D.RoundsOf(env.server, journal[i].sent, |journal[i].past|) == []
  }

  /** The ACS chunks of a run. */
  function AcsChunks(s: Setup, journal: seq<C.Commit>): seq<Chunk> {
    if journal == [] then []
    else
      var earlier, c := AcsChunks(s, journal[..|journal| - 1]), journal[|journal| - 1];
      if c.name == C.AcsLog && c.lines != [] then earlier + [Chunk(s.now, s.today, s.parse(c.lines))] else earlier
  }

  // ----- events and payloads -----

  lemma {:induction false} PayloadsOfSafes(payload: Q.SafeEvent -> T.AcsEvent, events: seq<T.AcsEvent>)
    requires forall e :: e in events ==> payload(Safe(e)) == e
    ensures Payloads(payload, Safes(events)) == events && |Safes(events)| == |events|
  {
    if events != [] {
      var init := events[..|events| - 1];
      PayloadsOfSafes(payload, init);
      assert events[|events| - 1] in events && events == init + [events[|events| - 1]];
    }
  }

  lemma {:induction false} SafesAreAcs(events: seq<T.AcsEvent>)
    ensures D.OfKind(Safes(events), Q.AcsItems) == Safes(events)
  {
    if events != [] {
      var safes := Safes(events);
      SafesAreAcs(events[..|events| - 1]);
      assert safes[..|safes| - 1] == Safes(events[..|events| - 1]);
    }
  }

  lemma {:induction false} NoneOfKind(events: seq<Q.SafeEvent>, kind: Q.Kind)
    requires forall e :: e in events ==> e.kind != kind
    ensures D.OfKind(events, kind) == []
  {
    if events != [] {
      assert events[|events| - 1] in events;
      NoneOfKind(events[..|events| - 1], kind);
    }
  }

  lemma {:induction false} NothingListed(events: seq<Q.SafeEvent>)
    ensures C.NotListed(events, []) == events
  {
    if events != [] {
      NothingListed(events[..|events| - 1]);
      assert events == events[..|events| - 1] + [events[|events| - 1]];
    }
  }

  lemma {:induction false} PayloadsConcat(payload: Q.SafeEvent -> T.AcsEvent, a: seq<Q.SafeEvent>, b: seq<Q.SafeEvent>)
    ensures Payloads(payload, a + b) == Payloads(payload, a) + Payloads(payload, b)
  {
    if b == [] {
      assert a + b == a;
    } else {
      PayloadsConcat(payload, a, b[..|b| - 1]);
      assert (a + b)[..|a + b| - 1] == a + b[..|b| - 1];
    }
  }

  /** More requests add the rows of what they carry. */
  lemma MoreRows(payload: Q.SafeEvent -> T.AcsEvent, rows: seq<T.AcsEvent>, past: seq<D.Batch>, sent: seq<D.Batch>, from: nat)
    requires D.Extends(sent, past) && from <= |past|
    ensures ServerRows(payload, rows, sent, from)
         == InsertAll(ServerRows(payload, rows, past, from), Payloads(payload, D.Carried(sent, |past|, Q.AcsItems)))
  {
    var a, b := D.Carried(past, from, Q.AcsItems), D.Carried(sent, |past|, Q.AcsItems);
    D.CarriedMore(past, sent, from, Q.AcsItems);
    PayloadsConcat(payload, a, b);
    InsertAllConcat(rows, Payloads(payload, a), Payloads(payload, b));
  }

  // ----- sightings of known patrons -----

  lemma {:induction false} SightingsStaged(before: Cache, changes: seq<Change>)
    requires C.NothingStaged(before) && forall change :: change in changes ==> IsSighting(before, change)
    ensures
      var c := ApplyAll(before, changes);
      c == before.(overlay := c.overlay)
      && forall pk :: pk in c.overlay ==> pk in before.patrons && !c.overlay[pk].profile
  {
    if changes != [] {
      assert changes[|changes| - 1] in changes;
      SightingsStaged(before, changes[..|changes| - 1]);
    }
  }

  /** Committing them changes nothing but last-seen days. */
  lemma SightingsCommitted(before: Cache, changes: seq<Change>, today: int)
    requires C.NothingStaged(before) && forall change :: change in changes ==> IsSighting(before, change)
    ensures Alike(P.Commit(ApplyAll(before, changes), today), before)
  {
    hide Deleted, Replaced;
    SightingsStaged(before, changes);
    var c := ApplyAll(before, changes);
    NothingStaged(c, today);
    Committed(c, today);
    assert P.Commit(c, today).patrons.Keys == before.patrons.Keys;
  }

  // ----- the runs are the runs -----

  lemma AlikeTransitive(a: Cache, b: Cache, c: Cache)
    requires Alike(a, b) && Alike(b, c)
    ensures Alike(a, c)
  {
  }

  /** One chunk of the ACS log is one step of a run. */
  lemma ChunkIsProcess(env: C.Env, s: Setup, before: Cache, c: C.Commit, world: World, rows: seq<T.AcsEvent>)
    requires c.lines != [] && C.Delivered(env, c) && c.listed == [] && D.RoundsOf(env.server, c.sent, |c.past|) == []
    requires Transforms(env, s, before, c) && Alike(before, world.cache) && rows == world.rows
    ensures
      var next := Process(s.keys, s.rules, world, Chunk(s.now, s.today, s.parse(c.lines)));
      InsertAll(rows, Payloads(s.payload, D.Carried(c.sent, |c.past|, Q.AcsItems))) == next.rows
      && Alike(P.Commit(ApplyAll(before, env.changes(c.name, c.lines, c.read)), s.today), next.cache)
  {
    hide T.TransformChunk, D.RoundsOf, D.Carried, D.Settled, InsertAll, P.Commit, ApplyAll, SamePatrons;
    var ctx := T.Context(s.keys, s.rules, s.now);
    var records := s.parse(c.lines);
    var out, theirs := T.TransformChunk(ctx, before, records), T.TransformChunk(ctx, world.cache, records);
    WindowReflexive(records, s.now);
    assert ctx.(now := s.now) == ctx;
    ChunkAlike(ctx, s.now, before, world.cache, records);
    CommitAlike(out.cache, theirs.cache, s.today, s.today);
    Committed(out.cache, s.today);
    Committed(theirs.cache, s.today);
    NothingListed(Safes(out.events));
    SafesAreAcs(out.events);
    PayloadsOfSafes(s.payload, out.events);
    assert D.Carried(c.sent, |c.past|, Q.AcsItems) == Safes(out.events);
  }

  /** A chunk of another log leaves the ACS rows and the cache's answers. */
  lemma OtherChunk(env: C.Env, s: Setup, before: Cache, c: C.Commit, rows: seq<T.AcsEvent>)
    requires c.lines != [] && C.Delivered(env, c) && c.listed == [] && D.RoundsOf(env.server, c.sent, |c.past|) == []
    requires OnlyGuards(env, before, c) && C.NothingStaged(before)
    ensures InsertAll(rows, Payloads(s.payload, D.Carried(c.sent, |c.past|, Q.AcsItems))) == rows
    ensures Alike(P.Commit(ApplyAll(before, env.changes(c.name, c.lines, c.read)), s.today), before)
  {
    hide D.RoundsOf, D.Carried, D.Settled, P.Commit, ApplyAll, SamePatrons, Alike;
    NothingListed(env.transform(c.name, c.lines, c.read));
    NoneOfKind(env.transform(c.name, c.lines, c.read), Q.AcsItems);
    assert D.Carried(c.sent, |c.past|, Q.AcsItems) == [];
    SightingsCommitted(before, env.changes(c.name, c.lines, c.read), s.today);
  }

  lemma CacheStaysCommitted(env: C.Env, cache: Cache, today: int, journal: seq<C.Commit>)
    requires C.NothingStaged(cache)
    ensures C.NothingStaged(C.CacheAfter(env, cache, today, journal))
  {
    hide ApplyAll;
    if journal != [] {
      var init, c := journal[..|journal| - 1], journal[|journal| - 1];
      CacheStaysCommitted(env, cache, today, init);
      Committed(ApplyAll(C.CacheAfter(env, cache, today, init), env.changes(c.name, c.lines, c.read)), today);
    }
  }

  /** One run over the three logs, with nothing refused, leaves on the server the ACS rows of the longer run of chunks,
      and in the patron cache its ledger, profiles and identifiers; the other logs only move last-seen days. */
  lemma {:induction false} RunIsRun(env: C.Env, s: Setup, cache: Cache, rows: seq<T.AcsEvent>, history: seq<D.Batch>,
                                    journal: seq<C.Commit>, earlier: seq<Chunk>)
    requires C.Chained(history, journal) && C.NothingStaged(cache) && AllFit(env, s, cache, journal) && Unrefused(env, journal)
    requires rows == Run(s.keys, s.rules, earlier).rows && Alike(cache, Run(s.keys, s.rules, earlier).cache)
    ensures
      var sent := C.SentUpTo(history, journal);
      var world := Run(s.keys, s.rules, earlier + AcsChunks(s, journal));
      D.Extends(sent, history)
      && ServerRows(s.payload, rows, sent, |history|) == world.rows
      && Alike(C.CacheAfter(env, cache, s.today, journal), world.cache)
    decreases |journal|
  {
    hide Run, Process, InsertAll, P.Commit, ApplyAll, D.Carried, D.RoundsOf, C.Delivered, C.NothingStaged, Alike, AllFit,
      Unrefused, C.Chained, ServerRows;
    if journal == [] {
      NothingYet(s.payload, rows, history);
      assert earlier + [] == earlier;
    } else {
      var init, c := journal[..|journal| - 1], journal[|journal| - 1];
      ShorterJournal(env, s, cache, history, journal);
      RunIsRun(env, s, cache, rows, history, init, earlier);
      CacheStaysCommitted(env, cache, s.today, init);
      JoinStep(env, s, cache, rows, history, journal, earlier);
    }
  }

  lemma ShorterJournal(env: C.Env, s: Setup, cache: Cache, history: seq<D.Batch>, journal: seq<C.Commit>)
    requires journal != [] && C.Chained(history, journal) && AllFit(env, s, cache, journal) && Unrefused(env, journal)
    ensures
      var init := journal[..|journal| - 1];
      C.Chained(history, init) && AllFit(env, s, cache, init) && Unrefused(env, init)
  {
    hide Fits, C.Delivered, D.RoundsOf, C.CacheAfter;
    var init := journal[..|journal| - 1];
    assert forall i :: 0 <= i < |init| ==> init[i] == journal[i] && init[..i] == journal[..i];
  }

  lemma NothingYet(payload: Q.SafeEvent -> T.AcsEvent, rows: seq<T.AcsEvent>, history: seq<D.Batch>)
    ensures ServerRows(payload, rows, history, |history|) == rows && D.Extends(history, history)
  {
  }

  /** The last chunk of the journal. */
  lemma JoinStep(env: C.Env, s: Setup, cache: Cache, rows: seq<T.AcsEvent>, history: seq<D.Batch>, journal: seq<C.Commit>,
                 earlier: seq<Chunk>)
    requires journal != [] && C.Chained(history, journal) && AllFit(env, s, cache, journal) && Unrefused(env, journal)
    requires
      var init := journal[..|journal| - 1];
      var past, before, world := C.SentUpTo(history, init), C.CacheAfter(env, cache, s.today, init),
                                 Run(s.keys, s.rules, earlier + AcsChunks(s, init));
      D.Extends(past, history) && C.NothingStaged(before)
      && ServerRows(s.payload, rows, past, |history|) == world.rows && Alike(before, world.cache)
    ensures
      var sent := C.SentUpTo(history, journal);
      var world := Run(s.keys, s.rules, earlier + AcsChunks(s, journal));
      D.Extends(sent, history)
      && ServerRows(s.payload, rows, sent, |history|) == world.rows
      && Alike(C.CacheAfter(env, cache, s.today, journal), world.cache)
  {
    hide Process, InsertAll, P.Commit, ApplyAll, D.Carried, D.RoundsOf, D.Settled, C.NothingStaged, Alike, Transforms, OnlyGuards,
      ServerRows;
    var init, c := journal[..|journal| - 1], journal[|journal| - 1];
    var past, before := C.SentUpTo(history, init), C.CacheAfter(env, cache, s.today, init);
    var chunks := earlier + AcsChunks(s, init);
    var world := Run(s.keys, s.rules, chunks);
    if c.lines != [] {
      MoreRows(s.payload, rows, past, c.sent, |history|);
      D.ExtendsMore(past, history, c.sent);
      if c.name == C.AcsLog {
        var chunk := Chunk(s.now, s.today, s.parse(c.lines));
        ChunkIsProcess(env, s, before, c, world, world.rows);
        assert earlier + AcsChunks(s, journal) == chunks + [chunk];
        assert (chunks + [chunk])[..|chunks|] == chunks;
      } else {
        OtherChunk(env, s, before, c, world.rows);
        AlikeTransitive(C.CacheAfter(env, cache, s.today, journal), before, world.cache);
      }
    }
  }

  /** So after any such runs a reader of the server sees the whole-log classification of the ACS chunks that the runs
      saved cursors for, exactly as far as module Runs says. */
  lemma RunRefinesBatchExactly(env: C.Env, s: Setup, cache: Cache, rows: seq<T.AcsEvent>, history: seq<D.Batch>,
                               journal: seq<C.Commit>, earlier: seq<Chunk>, item: HexKey)
    requires C.Chained(history, journal) && C.NothingStaged(cache) && AllFit(env, s, cache, journal) && Unrefused(env, journal)
    requires rows == Run(s.keys, s.rules, earlier).rows && Alike(cache, Run(s.keys, s.rules, earlier).cache)
    requires SoundKeys(s.keys) && Orderly(s.keys, Items(s.keys, earlier + AcsChunks(s, journal)))
    ensures
      var chunks := earlier + AcsChunks(s, journal);
      var w := Winner(s.keys, Items(s.keys, chunks), item);
      var pk := PatronKey(s.keys, w);
      Server.Latest(ServerRows(s.payload, rows, C.SentUpTo(history, journal), |history|), item)
      == BatchView(s.keys, s.rules, Items(s.keys, chunks), Log(chunks), item)
      <==> !Distinguishes(s.rules, w, LastRead(s.keys, chunks, pk), LatestProfile(s.keys, Log(chunks), pk))
  {
    hide Run, ServerRows, Orderly, Items, Log, Winner, BatchView, Server.Latest, Distinguishes, LastRead, LatestProfile, SoundKeys,
      Alike, AllFit, Unrefused, C.Chained;
    RunIsRun(env, s, cache, rows, history, journal, earlier);
    RefinesBatchExactly(s.keys, s.rules, earlier + AcsChunks(s, journal), item);
  }
}
