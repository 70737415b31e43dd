/** Which hold of an item the ledger keeps, told by the log alone.

    The ledger moves record by record. Here its row for an item is read off the item records as a whole: it is the
    item's latest 101 record if that is a hold with a patron and nothing has withdrawn it, and otherwise whatever
    the records read after that one leave by the same rule. A row therefore goes with the first later non-hold,
    hold without a patron or same-second other-code-10 record, and a chunk can correct no other hold. */
module Standing {
  import opened Text
  import opened Identity
  import opened Classify
  import opened Patrons
  import opened Transform
  import opened Server
  import opened Ledger
  import opened Refinement
  import opened Runs
  import opened Retry
  import opened OneItem
  import opened Limits

  // ----- the standing hold of a log -----

  predicate About(keys: Keys, r: AcsRecord, item: HexKey) {
    keys.item(r.barcode) == item
  }

  predicate PatronHold(r: AcsRecord) {
    r.state == Hold && r.patron != ""
  }

  /** The records read after the item's latest 101 record. */
  function AfterWinner(keys: Keys, items: seq<AcsRecord>, item: HexKey): (rest: seq<AcsRecord>)
    ensures |rest| <= |items| && (Winner(keys, items, item).Some? ==> |rest| < |items|)
  {
    if items == [] then []
    else
      var init, r := items[..|items| - 1], items[|items| - 1];
      var w := Winner(keys, init, item);
      if About(keys, r, item) && r.state != OtherCode10 && (w.None? || r.when >= w.value.when) then []
      else AfterWinner(keys, init, item) + [r]
  }

  /** The records read after the item's first other-code-10 record of that second, if there is one. */
  function AfterWithdrawal(keys: Keys, items: seq<AcsRecord>, item: HexKey, when: int): (rest: Option<seq<AcsRecord>>)
    ensures rest.Some? ==> |rest.value| < |items|
  {
    if items == [] then None
    else
      var r := items[|items| - 1];
      match AfterWithdrawal(keys, items[..|items| - 1], item, when)
      case Some(rest) => Some(rest + [r])
      case None => if About(keys, r, item) && r.state == OtherCode10 && r.when == when then Some([]) else None
  }

  /** The hold that stands for the item at the end of the records. */
  function Standing(keys: Keys, items: seq<AcsRecord>, item: HexKey): Option<AcsRecord>
    decreases |items|
  {
    var w := Winner(keys, items, item);
    if w.None? then None
    else
      var rest := AfterWinner(keys, items, item);
      if !PatronHold(w.value) then Standing(keys, rest, item)
      else
        match AfterWithdrawal(keys, rest, item, w.value.when)
        case None => w
        case Some(later) => Standing(keys, later, item)
  }

  // ----- one record more -----

  /** What one more record of the log does to the standing hold. */
  function Moved(keys: Keys, s: Option<AcsRecord>, item: HexKey, r: AcsRecord): Option<AcsRecord> {
    if !About(keys, r, item) then s
    else
      match r.state
      case Hold => if s.Some? && r.when < s.value.when then s else if r.patron != "" then Some(r) else None
      case NonHold101 => if s.Some? && r.when < s.value.when then s else None
      case OtherCode10 => if s.Some? && r.when == s.value.when then None else s
  }

  lemma {:induction false} WinnerBounds(keys: Keys, items: seq<AcsRecord>, item: HexKey, k: nat)
    requires k < |items| && About(keys, items[k], item) && items[k].state != OtherCode10
    ensures Winner(keys, items, item).Some? && items[k].when <= Winner(keys, items, item).value.when
  {
    var n := |items| - 1;
    if k < n { WinnerBounds(keys, items[..n], item, k); }
  }

  lemma {:induction false} AfterWinnerIsEnd(keys: Keys, items: seq<AcsRecord>, item: HexKey) returns (k: nat)
    ensures k <= |items| && AfterWinner(keys, items, item) == items[k..]
    ensures Winner(keys, items, item).Some? ==> k > 0 && items[k - 1] == Winner(keys, items, item).value
  {
    hide IsHexKey, IsDestination, IsLineText;
    if items == [] {
      k := 0;
    } else {
      var n := |items| - 1;
      k := AfterWinnerIsEnd(keys, items[..n], item);
      var r, w := items[n], Winner(keys, items[..n], item);
      if About(keys, r, item) && r.state != OtherCode10 && (w.None? || r.when >= w.value.when) {
        k := n + 1;
      } else {
        assert items[..n][k..] + [r] == items[k..];
      }
    }
  }

  lemma {:induction false} AfterWithdrawalIsEnd(keys: Keys, items: seq<AcsRecord>, item: HexKey, when: int) returns (k: nat)
    requires AfterWithdrawal(keys, items, item, when).Some?
    ensures k <= |items| && AfterWithdrawal(keys, items, item, when) == Some(items[k..])
  {
    var n := |items| - 1;
    if AfterWithdrawal(keys, items[..n], item, when).Some? {
      k := AfterWithdrawalIsEnd(keys, items[..n], item, when);
      assert items[..n][k..] + [items[n]] == items[k..];
    } else {
      k := n + 1;
      assert items[k..] == [];
    }
  }

  /** The standing hold is one of the item's holds with a patron. */
  lemma {:induction false} StandingIsRead(keys: Keys, items: seq<AcsRecord>, item: HexKey) returns (k: nat)
    requires Standing(keys, items, item).Some?
    ensures k < |items| && items[k] == Standing(keys, items, item).value
    ensures PatronHold(items[k]) && About(keys, items[k], item)
    decreases |items|
  {
    hide IsHexKey, IsDestination, IsLineText, AfterWithdrawal, Winner, AfterWinner;
    var w := Winner(keys, items, item);
    var m := AfterWinnerIsEnd(keys, items, item);
    var rest := items[m..];
    WinnerIsAbout(keys, items, item);
    if !PatronHold(w.value) {
      var j := StandingIsRead(keys, rest, item);
      k := m + j;
    } else if AfterWithdrawal(keys, rest, item, w.value.when).None? {
      k := m - 1;
    } else {
      var p := AfterWithdrawalIsEnd(keys, rest, item, w.value.when);
      assert rest[p..] == items[m + p..];
      var j := StandingIsRead(keys, rest[p..], item);
      k := m + p + j;
    }
  }

  lemma {:induction false} WinnerIsAbout(keys: Keys, items: seq<AcsRecord>, item: HexKey)
    ensures
      var w := Winner(keys, items, item);
      w.Some? ==> About(keys, w.value, item) && w.value.state != OtherCode10
  {
    if items != [] { WinnerIsAbout(keys, items[..|items| - 1], item); }
  }

  /** It is not later than the item's latest 101 record. */
  lemma StandingBounded(keys: Keys, items: seq<AcsRecord>, item: HexKey)
    requires Standing(keys, items, item).Some?
    ensures Winner(keys, items, item).Some? && Standing(keys, items, item).value.when <= Winner(keys, items, item).value.when
  {
    var k := StandingIsRead(keys, items, item);
    WinnerBounds(keys, items, item, k);
  }

  lemma AfterWinnerSnoc(keys: Keys, items: seq<AcsRecord>, item: HexKey, r: AcsRecord)
    ensures
      var w := Winner(keys, items, item);
      AfterWinner(keys, items + [r], item)
      == if About(keys, r, item) && r.state != OtherCode10 && (w.None? || r.when >= w.value.when) then []
         else AfterWinner(keys, items, item) + [r]
  {
    assert (items + [r])[..|items|] == items;
  }

  lemma AfterWithdrawalSnoc(keys: Keys, items: seq<AcsRecord>, item: HexKey, when: int, r: AcsRecord)
    ensures AfterWithdrawal(keys, items + [r], item, when) ==
      match AfterWithdrawal(keys, items, item, when)
      case Some(rest) => Some(rest + [r])
      case None => if About(keys, r, item) && r.state == OtherCode10 && r.when == when then Some([]) else None
  {
    assert (items + [r])[..|items|] == items;
  }

  lemma NoneStands(keys: Keys, item: HexKey)
    ensures Standing(keys, [], item) == None
  {
  }

  lemma {:induction false} StandingSnoc(keys: Keys, items: seq<AcsRecord>, item: HexKey, r: AcsRecord)
    ensures Standing(keys, items + [r], item) == Moved(keys, Standing(keys, items, item), item, r)
    decreases |items|
  {
    hide IsHexKey, IsDestination, IsLineText, Winner, AfterWinner, AfterWithdrawal;
    var w, rest := Winner(keys, items, item), AfterWinner(keys, items, item);
    WinnerSnoc(keys, items, r, item);
    AfterWinnerSnoc(keys, items, item, r);
    NoneStands(keys, item);
    if Standing(keys, items, item).Some? { StandingBounded(keys, items, item); }
    if About(keys, r, item) && r.state != OtherCode10 && (w.None? || r.when >= w.value.when) {
      assert Winner(keys, items + [r], item) == Some(r);
      assert AfterWithdrawal(keys, [], item, r.when) == None by { NothingWithdrawn(keys, item, r.when); }
    } else if w.Some? {
      assert Winner(keys, items + [r], item) == w;
      if !PatronHold(w.value) {
        StandingSnoc(keys, rest, item, r);
      } else {
        AfterWithdrawalSnoc(keys, rest, item, w.value.when, r);
        match AfterWithdrawal(keys, rest, item, w.value.when) {
          case None =>
          case Some(later) => StandingSnoc(keys, later, item, r);
        }
      }
    }
  }

  lemma NothingWithdrawn(keys: Keys, item: HexKey, when: int)
    ensures AfterWithdrawal(keys, [], item, when) == None
  {
  }

  // ----- the ledger's rows are the standing holds -----

  /** The row is that of the hold, and there is none where no hold stands. */
  predicate RowIs(keys: Keys, h: Option<LedgerHold>, s: Option<AcsRecord>) {
    (h.Some? <==> s.Some?) && (h.Some? && s.Some? ==> Matches(keys, h.value, s.value))
  }

  ghost predicate RowsStand(keys: Keys, c: Cache, items: seq<AcsRecord>) {
    forall item :: RowIs(keys, HoldGet(c, item), Standing(keys, items, item))
  }

  lemma SameHoldIsRow(keys: Keys, g: LedgerHold, h: LedgerHold, s: Option<AcsRecord>)
    requires RowIs(keys, Some(g), s) && SameHold(g, h)
    ensures RowIs(keys, Some(h), s)
  {
  }

  lemma CorrectedIsSame(h: LedgerHold, after: Flags)
    ensures SameHold(h, CorrectedHold(h, after))
  {
  }

  lemma ProfileStepStands(ctx: Context, acc: Acc, pk: string, info: PatronInfo, items: seq<AcsRecord>)
    requires RowsStand(ctx.keys, acc.cache, items)
    ensures RowsStand(ctx.keys, ProfileStep(ctx, acc, pk, info).cache, items)
    ensures forall p :: Contains(ProfileStep(ctx, acc, pk, info).cache, p) <==> p == pk || Contains(acc.cache, p)
  {
    hide IsHexKey, IsDestination, IsLineText, ProfileOutcome, CorrectPatron, HoldGet, CorrectedHold, SameHold, RowIs, Standing;
    var after := ProfileOutcome(Some(info), ctx.rules);
    var mid := CorrectPatron(ctx, acc, pk, after).cache;
    CorrectPatronTables(ctx, acc, pk, after);
    forall item ensures RowIs(ctx.keys, HoldGet(ProfileStep(ctx, acc, pk, info).cache, item), Standing(ctx.keys, items, item)) {
      assert RowIs(ctx.keys, HoldGet(acc.cache, item), Standing(ctx.keys, items, item));
      CorrectPatronEffect(ctx, acc, pk, after, item);
      StageKeepsHolds(mid, pk, info, item);
      var h := HoldGet(acc.cache, item);
      if h.Some? {
        CorrectedIsSame(h.value, after);
        if HoldGet(mid, item) != h {
          SameHoldIsRow(ctx.keys, h.value, CorrectedHold(h.value, after), Standing(ctx.keys, items, item));
        }
      }
    }
  }

  lemma {:induction false} ProfilePassStands(ctx: Context, c: Cache, dict: Dict, items: seq<AcsRecord>)
    requires RowsStand(ctx.keys, c, items)
    ensures RowsStand(ctx.keys, ProfilePass(ctx, Acc(c, []), dict).cache, items)
    ensures forall p :: Contains(ProfilePass(ctx, Acc(c, []), dict).cache, p) <==> Find(dict, p).Some? || Contains(c, p)
  {
    hide RowsStand, ProfileStep, Contains;
    if dict != [] {
      var n := |dict| - 1;
      ProfilePassStands(ctx, c, dict[..n], items);
      ProfileStepStands(ctx, ProfilePass(ctx, Acc(c, []), dict[..n]), dict[n].0, dict[n].1, items);
    }
  }

  /** Pass 1 and the sightings move no hold, and the cache then knows what the longer log quotes. */
  lemma FirstPassStands(ctx: Context, c: Cache, chunks: seq<Chunk>, chunk: Chunk, items: seq<AcsRecord>)
    requires RowsStand(ctx.keys, c, items) && KnownFits(ctx, c, Log(chunks))
    ensures RowsStand(ctx.keys, AfterSightings(ctx, c, chunk.records).cache, items)
    ensures KnownFits(ctx, AfterSightings(ctx, c, chunk.records).cache, Log(chunks + [chunk]))
  {
    hide IsHexKey, IsDestination, IsLineText, ProfilePass, Sightings, Find, ProfileDict, SortByTime, ProfileRecords,
      LatestProfile, Known, Sighted, Contains, Lookup, LastRead, Log, HoldGet, RowIs, Standing;
    var records := chunk.records;
    var dict := ProfileDict(ctx.keys, SortByTime(ProfileRecords(records)));
    ProfilePassStands(ctx, c, dict, items);
    var first := AfterProfiles(ctx, c, records);
    SightingsKeep(ctx, first.cache, records);
    var d := AfterSightings(ctx, c, records).cache;
    forall item ensures RowIs(ctx.keys, HoldGet(d, item), Standing(ctx.keys, items, item)) {
      assert RowIs(ctx.keys, HoldGet(first.cache, item), Standing(ctx.keys, items, item));
    }
    forall pk ensures Contains(d, pk) <==> Known(ctx.keys, Log(chunks + [chunk]), pk) {
      SortFindsLatest(ctx.keys, records, pk);
      DictFindsLast(ctx.keys, SortByTime(ProfileRecords(records)), pk);
      ChunksSnoc(ctx.keys, chunks, chunk, pk);
      KnownConcat(ctx.keys, Log(chunks), records, pk);
      KnownByProfileOrSighting(ctx.keys, records, pk);
    }
  }

  /** A record of pass 2 moves the item's row as it moves the item's standing hold. */
  lemma RowMoves(ctx: Context, c: Cache, r: AcsRecord, h: Option<LedgerHold>, s: Option<AcsRecord>)
    requires RowIs(ctx.keys, h, s)
    ensures RowIs(ctx.keys, LedgerAfter(ctx, c, r, h), Moved(ctx.keys, s, ctx.keys.item(r.barcode), r))
  {
    hide IsHexKey, IsDestination, IsLineText, HoldFlags, NextRevision;
  }

  lemma AdmittedStands(ctx: Context, acc: Acc, r: AcsRecord, items: seq<AcsRecord>)
    requires RowsStand(ctx.keys, acc.cache, items) && Admitted(ctx, acc.cache, r)
    ensures RowsStand(ctx.keys, ItemStep(ctx, acc, r).cache, items + [r])
    ensures SameKnown(acc.cache, ItemStep(ctx, acc, r).cache)
  {
    hide IsHexKey, IsDestination, IsLineText, EventKey, ItemContent, ItemRevision, LedgerAfter, Puts, HoldGet, RowIs, Standing,
      InWindow;
    var item := ctx.keys.item(r.barcode);
    var next := ItemStep(ctx, acc, r).cache;
    StoreEntryGet(ctx, acc.cache, item, r);
    forall i ensures RowIs(ctx.keys, HoldGet(next, i), Standing(ctx.keys, items + [r], i)) {
      assert RowIs(ctx.keys, HoldGet(acc.cache, i), Standing(ctx.keys, items, i));
      StandingSnoc(ctx.keys, items, i, r);
      if i == item { RowMoves(ctx, acc.cache, r, HoldGet(acc.cache, i), Standing(ctx.keys, items, i)); }
    }
  }

  lemma OtherStands(ctx: Context, acc: Acc, r: AcsRecord, items: seq<AcsRecord>)
    requires RowsStand(ctx.keys, acc.cache, items) && !Admitted(ctx, acc.cache, r)
    ensures RowsStand(ctx.keys, ItemStep(ctx, acc, r).cache, items)
    ensures SameKnown(acc.cache, ItemStep(ctx, acc, r).cache)
  {
    hide IsHexKey, IsDestination, IsLineText, EventKey, ItemContent, ItemRevision, LedgerAfter, Puts, RowIs, Standing, InWindow;
    if Guarded(ctx, acc.cache, r) {
      SightingKeeps(ctx, acc.cache, ctx.keys.patron(r.barcode));
      var next := ItemStep(ctx, acc, r).cache;
      forall i ensures RowIs(ctx.keys, HoldGet(next, i), Standing(ctx.keys, items, i)) {
        assert RowIs(ctx.keys, HoldGet(acc.cache, i), Standing(ctx.keys, items, i));
      }
    }
  }

  lemma {:induction false} ItemPassStands(ctx: Context, start: Acc, records: seq<AcsRecord>, items: seq<AcsRecord>)
    requires RowsStand(ctx.keys, start.cache, items)
    ensures RowsStand(ctx.keys, ItemPass(ctx, start, records).cache, items + AdmittedOf(ctx, start.cache, records))
    ensures SameKnown(start.cache, ItemPass(ctx, start, records).cache)
  {
    hide IsHexKey, IsDestination, IsLineText, RowsStand, ItemStep, Admitted, SameKnown;
    if records == [] {
      assert items + [] == items;
      assert SameKnown(start.cache, start.cache) by { AlwaysSameKnown(start.cache); }
    } else {
      var init, r := records[..|records| - 1], records[|records| - 1];
      ItemPassStands(ctx, start, init, items);
      var acc, earlier := ItemPass(ctx, start, init), AdmittedOf(ctx, start.cache, init);
      assert Admitted(ctx, acc.cache, r) <==> Admitted(ctx, start.cache, r) by { SameKnownAdmits(ctx, start.cache, acc.cache, r); }
      if Admitted(ctx, acc.cache, r) {
        AdmittedStands(ctx, acc, r, items + earlier);
        assert items + (earlier + [r]) == (items + earlier) + [r];
      } else {
        OtherStands(ctx, acc, r, items + earlier);
      }
      ThroughKnown(start.cache, acc.cache, ItemStep(ctx, acc, r).cache);
    }
  }

  lemma AlwaysSameKnown(c: Cache)
    ensures SameKnown(c, c)
  {
  }

  lemma CommitStands(ctx: Context, c: Cache, today: int, log: seq<AcsRecord>, items: seq<AcsRecord>)
    requires RowsStand(ctx.keys, c, items) && KnownFits(ctx, c, log)
    ensures RowsStand(ctx.keys, Commit(c, today), items) && KnownFits(ctx, Commit(c, today), log)
  {
    hide Commit, HoldGet, RowIs, Standing, Known, Contains;
    CommitKeepsAnswers(c, today);
    var d := Commit(c, today);
    forall item ensures RowIs(ctx.keys, HoldGet(d, item), Standing(ctx.keys, items, item)) {
      assert RowIs(ctx.keys, HoldGet(c, item), Standing(ctx.keys, items, item));
    }
  }

  lemma SameKnownFits(ctx: Context, a: Cache, b: Cache, log: seq<AcsRecord>)
    requires KnownFits(ctx, a, log) && SameKnown(a, b)
    ensures KnownFits(ctx, b, log)
  {
  }

  lemma ChunkStands(ctx: Context, c: Cache, chunks: seq<Chunk>, chunk: Chunk, items: seq<AcsRecord>)
    requires RowsStand(ctx.keys, c, items) && KnownFits(ctx, c, Log(chunks)) && ctx.now == chunk.now
    ensures
      var d := Commit(TransformChunk(ctx, c, chunk.records).cache, chunk.today);
      RowsStand(ctx.keys, d, items + CountedOf(ctx.keys, chunk.now, Log(chunks + [chunk]), chunk.records))
      && KnownFits(ctx, d, Log(chunks + [chunk]))
  {
    hide RowsStand, KnownFits, AfterSightings, ItemPass, Commit, Log, SameKnown;
    FirstPassStands(ctx, c, chunks, chunk, items);
    var first := AfterSightings(ctx, c, chunk.records);
    AdmittedIsCounted(ctx, first.cache, Log(chunks + [chunk]), chunk.records);
    ItemPassStands(ctx, first, chunk.records, items);
    var out := TransformChunk(ctx, c, chunk.records);
    assert SameKnown(first.cache, out.cache);
    SameKnownFits(ctx, first.cache, out.cache, Log(chunks + [chunk]));
    CommitStands(ctx, out.cache, chunk.today, Log(chunks + [chunk]),
                 items + CountedOf(ctx.keys, chunk.now, Log(chunks + [chunk]), chunk.records));
  }

  lemma {:induction false} RunStands(keys: Keys, rules: Rules, now: int, chunks: seq<Chunk>)
    ensures RowsStand(keys, Run(keys, rules, chunks).cache, Items(keys, chunks))
    ensures KnownFits(Context(keys, rules, now), Run(keys, rules, chunks).cache, Log(chunks))
    decreases |chunks|
  {
    hide TransformChunk, CountedOf, Commit;
    if chunks == [] {
      NothingStands(keys, rules, now);
    } else {
      hide RowsStand, Log;
      var init, last := chunks[..|chunks| - 1], chunks[|chunks| - 1];
      assert init + [last] == chunks;
      RunStands(keys, rules, last.now, init);
      ChunkStands(Context(keys, rules, last.now), Run(keys, rules, init).cache, init, last, Items(keys, init));
    }
  }

  lemma NothingStands(keys: Keys, rules: Rules, now: int)
    ensures RowsStand(keys, EMPTY, []) && KnownFits(Context(keys, rules, now), EMPTY, [])
  {
  }

  /** After any committed chunks the ledger has a row for an item exactly if a hold stands for it in the log, and
      the row is that hold's. Nothing is asked of the log. */
  lemma LedgerStandsExactly(keys: Keys, rules: Rules, chunks: seq<Chunk>, item: HexKey)
    ensures
      var h := HoldGet(Run(keys, rules, chunks).cache, item);
      var s := Standing(keys, Items(keys, chunks), item);
      (h.Some? <==> s.Some?) && (h.Some? ==> Matches(keys, h.value, s.value))
  {
    hide IsHexKey, IsDestination, IsLineText, Run, Items, HoldGet, Matches, Standing, KnownFits;
    RunStands(keys, rules, 0, chunks);
    assert RowIs(keys, HoldGet(Run(keys, rules, chunks).cache, item), Standing(keys, Items(keys, chunks), item));
  }

  // ----- the standing hold and the item's latest record -----

  predicate LatestIsPatronHold(w: Option<AcsRecord>) {
    w.Some? && PatronHold(w.value)
  }

  /** In an orderly log nothing withdraws the item's latest record. */
  lemma {:induction false} NotWithdrawn(keys: Keys, items: seq<AcsRecord>, item: HexKey)
    requires Orderly(keys, items) && LatestIsPatronHold(Winner(keys, items, item))
    ensures AfterWithdrawal(keys, AfterWinner(keys, items, item), item, Winner(keys, items, item).value.when) == None
  {
    hide IsHexKey, IsDestination, IsLineText, AfterWithdrawal, NewHold, NewNonHold, Repeats;
    var init, r := items[..|items| - 1], items[|items| - 1];
    var w := Winner(keys, init, item);
    if About(keys, r, item) && r.state != OtherCode10 && (w.None? || r.when >= w.value.when) {
      NothingWithdrawn(keys, item, r.when);
    } else {
      NotWithdrawn(keys, init, item);
      AfterWithdrawalSnoc(keys, AfterWinner(keys, init, item), item, w.value.when, r);
      assert About(keys, r, item) && r.state == OtherCode10 ==> r.when != w.value.when;
    }
  }

  /** No hold of the item with a patron is read after its latest 101 record. */
  predicate NoLateHold(keys: Keys, items: seq<AcsRecord>, item: HexKey) {
    forall r :: r in AfterWinner(keys, items, item) && About(keys, r, item) ==> !PatronHold(r)
  }

  lemma StandingIsMember(keys: Keys, items: seq<AcsRecord>, item: HexKey)
    requires Standing(keys, items, item).Some?
    ensures
      var s := Standing(keys, items, item).value;
      s in items && PatronHold(s) && About(keys, s, item)
  {
    var k := StandingIsRead(keys, items, item);
  }

  lemma NoHoldStands(keys: Keys, items: seq<AcsRecord>, item: HexKey)
    requires forall r :: r in items && About(keys, r, item) ==> !PatronHold(r)
    ensures Standing(keys, items, item) == None
  {
    if Standing(keys, items, item).Some? { StandingIsMember(keys, items, item); }
  }

  /** In an orderly log the latest record stands if it is a hold with a patron; if it is not, a hold stands only
      if one with a patron is read after it. */
  lemma StandingOfLatest(keys: Keys, items: seq<AcsRecord>, item: HexKey)
    requires Orderly(keys, items)
    ensures
      var w := Winner(keys, items, item);
      (LatestIsPatronHold(w) ==> Standing(keys, items, item) == w)
      && (w.Some? && !LatestIsPatronHold(w) ==> Standing(keys, items, item) == Standing(keys, AfterWinner(keys, items, item), item))
      && (!LatestIsPatronHold(w) && NoLateHold(keys, items, item) ==> Standing(keys, items, item) == None)
  {
    hide IsHexKey, IsDestination, IsLineText, Winner, AfterWinner, AfterWithdrawal, Orderly, About, PatronHold;
    var w := Winner(keys, items, item);
    if LatestIsPatronHold(w) {
      NotWithdrawn(keys, items, item);
    } else if w.Some? && NoLateHold(keys, items, item) {
      NoHoldStands(keys, AfterWinner(keys, items, item), item);
    }
  }

  /** The ledger has a row for the item exactly if its latest 101 record is a hold with a patron, and the row is
      then that record's, unless the latest record is no such hold and one read after it still stands. */
  lemma RowIsLatestExactly(keys: Keys, rules: Rules, chunks: seq<Chunk>, item: HexKey)
    requires Orderly(keys, Items(keys, chunks))
    ensures
      var items := Items(keys, chunks);
      var h := HoldGet(Run(keys, rules, chunks).cache, item);
      var w := Winner(keys, items, item);
      (LatestIsPatronHold(w) ==> h.Some? && Matches(keys, h.value, w.value))
      && ((h.Some? <==> LatestIsPatronHold(w))
          <==> LatestIsPatronHold(w) || Standing(keys, AfterWinner(keys, items, item), item).None?)
      && (NoLateHold(keys, items, item) ==> (h.Some? <==> LatestIsPatronHold(w)))
  {
    hide IsHexKey, IsDestination, IsLineText, Run, Items, HoldGet, Matches, Winner, AfterWinner, AfterWithdrawal, Orderly,
      NoLateHold;
    var items := Items(keys, chunks);
    LedgerStandsExactly(keys, rules, chunks, item);
    StandingOfLatest(keys, items, item);
    if Winner(keys, items, item).None? && Standing(keys, AfterWinner(keys, items, item), item).Some? {
      LateIsItem(keys, items, item);
    }
  }

  /** Without a 101 record of the item nothing stands among any of its records. */
  lemma LateIsItem(keys: Keys, items: seq<AcsRecord>, item: HexKey)
    requires Standing(keys, AfterWinner(keys, items, item), item).Some?
    ensures Winner(keys, items, item).Some?
  {
    hide IsHexKey, IsDestination, IsLineText, Standing, Winner, AfterWinner;
    var m := AfterWinnerIsEnd(keys, items, item);
    var k := StandingIsRead(keys, items[m..], item);
    assert items[m + k] == items[m..][k];
    WinnerBounds(keys, items, item, m + k);
  }

  // ----- what a chunk without the item can say of it -----

  function FlagsUnder(rules: Rules, s: AcsRecord, p: Option<AcsRecord>): Flags {
    Combine(s.own, ProfileOutcome(ProfileOf(p), rules))
  }

  /** The hold's correction is due: the records bring a profile of its patron that sets its flags otherwise than the
      profile the collector went by. */
  predicate Due(rules: Rules, s: AcsRecord, known: Option<AcsRecord>, brought: Option<AcsRecord>) {
    brought.Some? && FlagsUnder(rules, s, brought) != FlagsUnder(rules, s, known)
  }

  /** A chunk none of whose records is about the item says of it exactly one thing and only if it is due: the
      standing hold again, with the flags of the profile the chunk brings. */
  lemma SilentChunkSays(keys: Keys, rules: Rules, chunks: seq<Chunk>, chunk: Chunk, item: HexKey)
    requires SoundKeys(keys) && Orderly(keys, Items(keys, chunks))
    requires Silent(Context(keys, rules, chunk.now), Run(keys, rules, chunks).cache, chunk.records, item)
    ensures
      var out := TransformChunk(Context(keys, rules, chunk.now), Run(keys, rules, chunks).cache, chunk.records);
      var about := EventsAbout(out.events, item);
      match Standing(keys, Items(keys, chunks), item)
      case None => about == []
      case Some(s) =>
        var pk := keys.patron(s.patron);
        var known, brought := LastRead(keys, chunks, pk), LatestProfile(keys, chunk.records, pk);
        if Due(rules, s, known, brought)
        then |about| == 1 && about[0].content == HoldContent(s.when, item, s.destination, FlagsUnder(rules, s, brought))
        else about == []
  {
    hide IsHexKey, IsDestination, IsLineText, Run, Items, HoldGet, Winner, AfterWinner, Orderly, Standing, Silent, TransformChunk,
      LastRead, LatestProfile, EventsAbout, SoundKeys, EventKey, ProfileOutcome, Combine, Server.Latest, AllKeyed;
    var ctx := Context(keys, rules, chunk.now);
    var world := Run(keys, rules, chunks);
    LedgerStandsExactly(keys, rules, chunks, item);
    var h := HoldGet(world.cache, item);
    match Standing(keys, Items(keys, chunks), item) {
      case None => AbsentChunk(ctx, world.cache, chunk.records, item);
      case Some(s) =>
        AboutChunk(ctx, world.cache, chunk.records, item, h.value);
        RunKeeps(keys, rules, chunk.now, chunks);
        assert ItemHolds(ctx, world.rows, world.cache, Items(keys, chunks), item);
        var pk := keys.patron(s.patron);
        assert Outcome(ctx, world.cache, pk) == ProfileOutcome(ProfileOf(LastRead(keys, chunks, pk)), rules);
    }
  }

  /** So unless a hold with a patron is read late, a chunk without the item is silent about every item whose
      latest 101 record is no hold with a patron: a hold that was taken back is never sent again. */
  lemma TakenBackStaysSilent(keys: Keys, rules: Rules, chunks: seq<Chunk>, chunk: Chunk, item: HexKey)
    requires Orderly(keys, Items(keys, chunks)) && NoLateHold(keys, Items(keys, chunks), item)
    requires !LatestIsPatronHold(Winner(keys, Items(keys, chunks), item))
    requires Silent(Context(keys, rules, chunk.now), Run(keys, rules, chunks).cache, chunk.records, item)
    ensures
      var out := TransformChunk(Context(keys, rules, chunk.now), Run(keys, rules, chunks).cache, chunk.records);
      EventsAbout(out.events, item) == [] && HoldGet(out.cache, item).None?
  {
    hide IsHexKey, IsDestination, IsLineText, Run, Items, HoldGet, Winner, AfterWinner, Orderly, Standing, Silent, TransformChunk,
      EventsAbout, NoLateHold;
    RowIsLatestExactly(keys, rules, chunks, item);
    AbsentChunk(Context(keys, rules, chunk.now), Run(keys, rules, chunks).cache, chunk.records, item);
  }

  // ----- what a chunk says of its own item records -----

  /** The event's content is that of the record; a hold's flags are its own and its patron's. */
  predicate Says(keys: Keys, r: AcsRecord, outcome: Flags, content: Content) {
    match r.state
    case Hold =>
      content == HoldContent(r.when, keys.item(r.barcode), r.destination,
                             if r.patron == "" then r.own else Combine(r.own, outcome))
    case NonHold101 => content == Non101Content(r.when, keys.item(r.barcode))
    case OtherCode10 => content == Other10Content(r.when, keys.item(r.barcode))
  }

  /** The events are the earlier ones, then one for each of the records, in order. */
  ghost predicate SaidOnce(ctx: Context, c: Cache, before: seq<AcsEvent>, admitted: seq<AcsRecord>, events: seq<AcsEvent>) {
    |events| == |before| + |admitted| && before <= events
    && forall k :: 0 <= k < |admitted| ==>
         Says(ctx.keys, admitted[k], Outcome(ctx, c, ctx.keys.patron(admitted[k].patron)), events[|before| + k].content)
  }

  lemma RecordSays(ctx: Context, c: Cache, d: Cache, r: AcsRecord, h: Option<LedgerHold>)
    requires SameOutcomes(ctx, c, d)
    ensures Says(ctx.keys, r, Outcome(ctx, c, ctx.keys.patron(r.patron)), ItemEvent(ctx, d, r, h).content)
  {
    hide IsHexKey, IsDestination, IsLineText, EventKey, NextRevision;
    assert Outcome(ctx, c, ctx.keys.patron(r.patron)) == Outcome(ctx, d, ctx.keys.patron(r.patron));
  }

  lemma OutcomesKept(ctx: Context, acc: Acc, r: AcsRecord)
    ensures SameOutcomes(ctx, acc.cache, ItemStep(ctx, acc, r).cache) && SameKnown(acc.cache, ItemStep(ctx, acc, r).cache)
  {
    hide IsHexKey, IsDestination, IsLineText, EventKey, ItemRevision, LedgerAfter, Puts, HoldFlags, InWindow;
    ItemStepTables(ctx, acc, r);
    if Guarded(ctx, acc.cache, r) { SightingKeeps(ctx, acc.cache, ctx.keys.patron(r.barcode)); }
  }

  lemma OutcomesThrough(ctx: Context, a: Cache, b: Cache, c: Cache)
    requires SameOutcomes(ctx, a, b) && SameOutcomes(ctx, b, c)
    ensures SameOutcomes(ctx, a, c)
  {
    forall pk ensures Outcome(ctx, a, pk) == Outcome(ctx, c, pk) {
      assert Outcome(ctx, a, pk) == Outcome(ctx, b, pk) && Outcome(ctx, b, pk) == Outcome(ctx, c, pk);
    }
  }

  lemma AddedOnce(ctx: Context, c: Cache, before: seq<AcsEvent>, admitted: seq<AcsRecord>, events: seq<AcsEvent>, r: AcsRecord,
                  e: AcsEvent)
    requires SaidOnce(ctx, c, before, admitted, events)
    requires Says(ctx.keys, r, Outcome(ctx, c, ctx.keys.patron(r.patron)), e.content)
    ensures SaidOnce(ctx, c, before, admitted + [r], events + [e])
  {
    hide Says, Outcome;
  }

  /** Pass 2 says each admitted record once, in order. */
  lemma {:induction false} ItemPassSays(ctx: Context, start: Acc, records: seq<AcsRecord>)
    ensures
      var out := ItemPass(ctx, start, records);
      SaidOnce(ctx, start.cache, start.events, AdmittedOf(ctx, start.cache, records), out.events)
      && SameOutcomes(ctx, start.cache, out.cache) && SameKnown(start.cache, out.cache)
  {
    hide IsHexKey, IsDestination, IsLineText, SameOutcomes, SaidOnce, Admitted, SameKnown, ItemEvent, HoldGet, Puts, LedgerAfter,
      StoreEntry;
    if records == [] {
      NothingSaidYet(ctx, start);
    } else {
      var init, r := records[..|records| - 1], records[|records| - 1];
      ItemPassSays(ctx, start, init);
      var acc := ItemPass(ctx, start, init);
      assert Admitted(ctx, acc.cache, r) <==> Admitted(ctx, start.cache, r) by { SameKnownAdmits(ctx, start.cache, acc.cache, r); }
      OutcomesKept(ctx, acc, r);
      OutcomesThrough(ctx, start.cache, acc.cache, ItemStep(ctx, acc, r).cache);
      ThroughKnown(start.cache, acc.cache, ItemStep(ctx, acc, r).cache);
      var h := HoldGet(acc.cache, ctx.keys.item(r.barcode));
      StepSends(ctx, acc, r);
      RecordSays(ctx, start.cache, acc.cache, r, h);
      if Admitted(ctx, acc.cache, r) {
        AddedOnce(ctx, start.cache, start.events, AdmittedOf(ctx, start.cache, init), acc.events, r, ItemEvent(ctx, acc.cache, r, h));
      }
    }
  }

  lemma StepSends(ctx: Context, acc: Acc, r: AcsRecord)
    ensures ItemStep(ctx, acc, r).events
         == if Admitted(ctx, acc.cache, r) then acc.events + [ItemEvent(ctx, acc.cache, r, HoldGet(acc.cache, ctx.keys.item(r.barcode)))]
            else acc.events
  {
    hide IsHexKey, IsDestination, IsLineText, EventKey, ItemContent, ItemRevision, LedgerAfter, Puts, StoreEntry, InWindow;
  }

  lemma NothingSaidYet(ctx: Context, start: Acc)
    ensures SaidOnce(ctx, start.cache, start.events, [], start.events)
    ensures SameOutcomes(ctx, start.cache, start.cache) && SameKnown(start.cache, start.cache)
  {
  }

  /** A chunk ends with one event for each of its item records that counts, in order, and a hold's flags are those
      of its patron's last read profile, the chunk's own profiles included. */
  lemma ChunkSaysItsItems(keys: Keys, rules: Rules, chunks: seq<Chunk>, chunk: Chunk)
    requires SoundKeys(keys) && Orderly(keys, Items(keys, chunks))
    ensures
      var ctx := Context(keys, rules, chunk.now);
      var world := Run(keys, rules, chunks);
      var events := TransformChunk(ctx, world.cache, chunk.records).events;
      var counted := CountedOf(keys, chunk.now, Log(chunks + [chunk]), chunk.records);
      var first := |events| - |counted|;
      first >= 0
      && forall k :: 0 <= k < |counted| ==>
           Says(keys, counted[k],
                ProfileOutcome(ProfileOf(LastRead(keys, chunks + [chunk], keys.patron(counted[k].patron))), rules),
                events[first + k].content)
  {
    hide IsHexKey, IsDestination, IsLineText, Run, Items, HoldGet, Orderly, ItemPass, AfterSightings, SourcedInv, KnownFits,
      LastRead, Log, SoundKeys, ProfileOutcome, Says, CountedOf, AdmittedOf, InsertAll;
    var ctx := Context(keys, rules, chunk.now);
    var world := Run(keys, rules, chunks);
    RunKeeps(keys, rules, chunk.now, chunks);
    FirstPassKeeps(ctx, world, chunks, Items(keys, chunks), chunk);
    var first := AfterSightings(ctx, world.cache, chunk.records);
    AdmittedIsCounted(ctx, first.cache, Log(chunks + [chunk]), chunk.records);
    ItemPassSays(ctx, first, chunk.records);
    var counted := CountedOf(keys, chunk.now, Log(chunks + [chunk]), chunk.records);
    forall k | 0 <= k < |counted|
      ensures Outcome(ctx, first.cache, keys.patron(counted[k].patron))
           == ProfileOutcome(ProfileOf(LastRead(keys, chunks + [chunk], keys.patron(counted[k].patron))), rules)
    {
    }
  }

  // ----- a hold that is read after a later record of its item -----

  function LateHold(): AcsRecord {
    HoldRecordOf(EARLIEST, "X", "P")
  }

  function Return(): AcsRecord {
    HoldRecordOf(EARLIEST + 60, "X", "").(state := NonHold101)
  }

  lemma LateItems(keys: Keys)
    requires keys.patron("X") != keys.patron("P")
    ensures Items(keys, [Chunk(EARLIEST, 0, [Return(), LateHold()])]) == [Return(), LateHold()]
  {
    hide IsHexKey, IsDestination, IsLineText;
    var chunk := Chunk(EARLIEST, 0, [Return(), LateHold()]);
    OneChunkLog(keys, chunk);
    assert !Known(keys, chunk.records, keys.patron("X"));
    assert chunk.records[..1] == [Return()] && [Return()][..0] == [];
    assert CountedOf(keys, EARLIEST, chunk.records, [Return()]) == [Return()];
  }

  lemma LateStands(keys: Keys)
    ensures
      var items, item := [Return(), LateHold()], keys.item("X");
      Winner(keys, items, item) == Some(Return()) && Orderly(keys, items) && Standing(keys, items, item) == Some(LateHold())
  {
    hide IsHexKey, IsDestination, IsLineText, AfterWithdrawal;
    var n, h, item := Return(), LateHold(), keys.item("X");
    assert [n, h][..1] == [n] && [n][..0] == [] && [h][..0] == [];
    assert Winner(keys, [n], item) == Some(n) && Winner(keys, [h], item) == Some(h);
    assert Orderly(keys, []) && InOrder(keys, [], n) && InOrder(keys, [n], h);
    assert Orderly(keys, [n]);
    assert AfterWinner(keys, [n], item) == [] && AfterWinner(keys, [h], item) == [];
    assert AfterWinner(keys, [n, h], item) == [] + [h] == [h];
    NothingWithdrawn(keys, item, EARLIEST);
    assert Standing(keys, [h], item) == Some(h);
  }

  lemma LateProfiles(keys: Keys)
    ensures
      var chunks, ill := [Chunk(EARLIEST, 0, [Return(), LateHold()])], ProfileRecord(EARLIEST, "P", true);
      LastRead(keys, chunks, keys.patron("P")) == None && LatestProfile(keys, [ill], keys.patron("P")) == Some(ill)
  {
    hide IsHexKey, IsDestination, IsLineText;
    var n, h, ill := Return(), LateHold(), ProfileRecord(EARLIEST, "P", true);
    assert [n, h][..1] == [n] && [n][..0] == [] && [ill][..0] == [];
    assert LatestProfile(keys, [n], keys.patron("P")) == None && LatestProfile(keys, [n, h], keys.patron("P")) == None;
    assert [Chunk(EARLIEST, 0, [n, h])][..0] == [];
  }

  lemma LateFlags(rules: Rules)
    ensures
      var ill := ProfileRecord(EARLIEST, "P", true);
      FlagsUnder(rules, LateHold(), None) == PLAIN && FlagsUnder(rules, LateHold(), Some(ill)) == Flags(true, false, false)
  {
  }

  /** A return at one time, and after it in the log the hold it ended: the hold stands, and a later profile of its
      patron has it sent once more, though the item's latest record is the return. A reader keeps the return. */
  lemma LateHoldStands(keys: Keys, rules: Rules)
    requires SoundKeys(keys) && keys.patron("X") != keys.patron("P")
    ensures
      var chunks, item := [Chunk(EARLIEST, 0, [Return(), LateHold()])], keys.item("X");
      var world := Run(keys, rules, chunks);
      var out := TransformChunk(Context(keys, rules, EARLIEST), world.cache, [ProfileRecord(EARLIEST, "P", true)]);
      var about := EventsAbout(out.events, item);
      Winner(keys, Items(keys, chunks), item) == Some(Return())
      && HoldGet(world.cache, item).Some? && Matches(keys, HoldGet(world.cache, item).value, LateHold())
      && |about| == 1 && about[0].content == HoldContent(EARLIEST, item, UNKNOWN, Flags(true, false, false))
      && Server.Latest(world.rows, item) == Some(Non101Content(EARLIEST + 60, item))
  {
    hide IsHexKey, IsDestination, IsLineText, Run, Items, HoldGet, Matches, Winner, Orderly, Standing, TransformChunk,
      EventsAbout, SoundKeys, LastRead, LatestProfile, FlagsUnder, Server.Latest, AfterSightings;
    var chunk, ill, item := Chunk(EARLIEST, 0, [Return(), LateHold()]), ProfileRecord(EARLIEST, "P", true), keys.item("X");
    var ctx := Context(keys, rules, EARLIEST);
    LateItems(keys);
    LateStands(keys);
    LateProfiles(keys);
    LateFlags(rules);
    LedgerStandsExactly(keys, rules, [chunk], item);
    NoItemsSilent(ctx, AfterSightings(ctx, Run(keys, rules, [chunk]).cache, [ill]).cache, [ill]);
    SilentChunkSays(keys, rules, [chunk], Chunk(EARLIEST, 0, [ill]), item);
    ReaderSeesLastRead(keys, rules, [chunk], item);
  }
}
