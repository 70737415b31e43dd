/** The mutable patron cache: fields for the two SQLite tables and the two overlays, changed by the
    operations of collector/v2_patrons.py and proved against the functions of module Patrons. */
module PatronStore {
  import opened Text
  import opened Identity
  import opened Classify
  import P = Patrons
  import opened Patrons

  /** Python's `sorted(found.values(), key=(event_time, item_key))`. */
  method SortEntries(found: map<HexKey, LedgerHold>) returns (es: seq<Entry>)
    ensures IsListing(es, set i | i in found :: Entry(i, found[i]))
  {
    es := [];
    var todo := found.Keys;
    while todo != {}
      invariant todo <= found.Keys
      invariant IsListing(es, set i | i in found.Keys - todo :: Entry(i, found[i]))
    {
      var i :| i in todo;
      ghost var before := set j | j in found.Keys - todo :: Entry(j, found[j]);
      InsertedOrdered(es, Entry(i, found[i]));
      es := Inserted(es, Entry(i, found[i]));
      todo := todo - {i};
      assert (set j | j in found.Keys - todo :: Entry(j, found[j])) == before + {Entry(i, found[i])};
    }
    assert found.Keys - {} == found.Keys;
  }

  /** How many transactions a commit makes. */
  function Transactions(c: Cache): nat {
    (if c.holdOverlay == map[] then 0 else 1) + (if c.overlay == map[] then 0 else 1)
  }

  predicate Takes(writesLeft: Option<nat>, n: nat) {
    writesLeft.Some? ==> n <= writesLeft.value
  }

  /** The first transaction, that of the ledger, is made and fails. */
  predicate LedgerFails(c: Cache, writesLeft: Option<nat>) {
    c.holdOverlay != map[] && writesLeft == Some(0)
  }

  class PatronCache {
    var patrons: map<string, PatronRow>
    var holds: map<HexKey, LedgerHold>
    var overlay: map<string, Staged>
    var holdOverlay: map<HexKey, Option<LedgerHold>>
    const today: int       // whole days
    const ttlDays: nat
    const maxRows: nat
    const holdDays: nat
    const holdMaxRows: nat
    const readOnly: bool
    var writesLeft: Option<nat>   // how many transactions the file still takes; None: all of them

    ghost function View(): Cache
      reads this
    {
      Cache(patrons, holds, overlay, holdOverlay)
    }

    /** Opens the cache over what its file holds; a fresh overlay. */
    constructor (patrons: map<string, PatronRow>, holds: map<HexKey, LedgerHold>, today: int,
                 ttlDays: nat, maxRows: nat, holdDays: nat, holdMaxRows: nat, readOnly: bool, writesLeft: Option<nat>)
      ensures View() == Cache(patrons, holds, map[], map[])
      ensures this.today == today && this.readOnly == readOnly
      ensures this.ttlDays == ttlDays && this.maxRows == maxRows
      ensures this.holdDays == holdDays && this.holdMaxRows == holdMaxRows && this.writesLeft == writesLeft
    {
      this.patrons, this.holds := patrons, holds;
      overlay, holdOverlay := map[], map[];
      this.today, this.readOnly := today, readOnly;
      this.ttlDays, this.maxRows, this.holdDays, this.holdMaxRows := ttlDays, maxRows, holdDays, holdMaxRows;
      this.writesLeft := writesLeft;
    }

    method Lookup(pk: string) returns (info: Option<PatronInfo>)
      ensures info == P.Lookup(View(), pk)
    {
      var stored := None;
      if pk in patrons { stored := Some(patrons[pk].info); }
      if pk !in overlay { return stored; }
      if overlay[pk].profile { return Some(overlay[pk].info); }
      if stored.Some? { return stored; }
      return Some(NO_INFO);
    }

    method Contains(pk: string) returns (found: bool)
      ensures found <==> P.Contains(View(), pk)
    {
      found := pk in overlay || pk in patrons;
    }

    method HoldGet(item: HexKey) returns (hold: Option<LedgerHold>)
      ensures hold == P.HoldGet(View(), item)
    {
      if item in holdOverlay { return holdOverlay[item]; }
      if item in holds { return Some(holds[item]); }
      return None;
    }

    method Stage(pk: string, info: PatronInfo, profile: bool)
      modifies this`overlay
      ensures View() == P.Stage(old(View()), pk, info, profile)
    {
      if !profile && pk in overlay { return; }
      overlay := overlay[pk := Staged(info, profile)];
    }

    method HoldPut(item: HexKey, hold: LedgerHold)
      modifies this`holdOverlay
      ensures View() == P.HoldPut(old(View()), item, hold)
    {
      holdOverlay := holdOverlay[item := Some(hold)];
    }

    method HoldDelete(item: HexKey)
      modifies this`holdOverlay
      ensures View() == P.HoldDelete(old(View()), item)
    {
      holdOverlay := holdOverlay[item := None];
    }

    method Discard()
      modifies this`overlay, this`holdOverlay
      ensures View() == P.Discard(old(View()))
    {
      overlay, holdOverlay := map[], map[];
    }

    /** The rows of the table, corrected by the overlay, oldest first. */
    method HoldsForPatron(pk: string) returns (es: seq<Entry>)
      ensures es == P.HoldsForPatron(View(), pk)
      ensures forall i, j :: 0 <= i < j < |es| ==>
        es[i].hold.time < es[j].hold.time || (es[i].hold.time == es[j].hold.time && Less(es[i].item, es[j].item))
    {
      hide IsHexKey, IsDestination, IsLineText;
      var found := map i | i in holds && holds[i].patron == pk :: holds[i];
      var todo := holdOverlay.Keys;
      while todo != {}
        invariant todo <= holdOverlay.Keys
        invariant forall i :: i in holdOverlay.Keys - todo ==>
          (i in found <==> holdOverlay[i].Some? && holdOverlay[i].value.patron == pk)
          && (i in found ==> found[i] == holdOverlay[i].value)
        invariant forall i :: i !in holdOverlay.Keys - todo ==>
          (i in found <==> i in holds && holds[i].patron == pk) && (i in found ==> found[i] == holds[i])
      {
        var item :| item in todo;
        if holdOverlay[item].None? || holdOverlay[item].value.patron != pk {
          found := found - {item};
        } else {
          found := found[item := holdOverlay[item].value];
        }
        todo := todo - {item};
      }
      es := SortEntries(found);
      ghost var entries := set i | i in found :: Entry(i, found[i]);
      assert entries == PatronHolds(View(), pk) by {
        forall e: Entry ensures e in entries <==> e in PatronHolds(View(), pk) {
          assert e in entries <==> e.item in found && found[e.item] == e.hold;
          assert e in PatronHolds(View(), pk) <==> P.HoldGet(View(), e.item) == Some(e.hold) && e.hold.patron == pk;
        }
      }
      ListingUnique(es, P.HoldsForPatron(View(), pk), entries);
    }

    /** The first transaction of a commit: the staged ledger rows. */
    method CommitHolds()
      modifies this`holds, this`holdOverlay
      ensures View() == P.CommitHolds(old(View()))
    {
      hide IsHexKey, IsDestination, IsLineText;
      ghost var c := View();
      var todo := holdOverlay.Keys;
      while todo != {}
        invariant todo <= holdOverlay.Keys && holdOverlay == c.holdOverlay
        invariant forall i :: i in c.holdOverlay.Keys - todo ==>
          (i in holds <==> c.holdOverlay[i].Some?) && (i in holds ==> holds[i] == c.holdOverlay[i].value)
        invariant forall i :: i !in c.holdOverlay.Keys - todo ==>
          (i in holds <==> i in c.holds) && (i in holds ==> holds[i] == c.holds[i])
      {
        var item :| item in todo;
        if holdOverlay[item].None? {
          holds := holds - {item};
        } else {
          holds := holds[item := holdOverlay[item].value];
        }
        todo := todo - {item};
      }
      holdOverlay := map[];
      assert holds == (c.holds - Deleted(c.holdOverlay)) + Replaced(c.holdOverlay);
    }

    /** The second transaction: the staged patrons. */
    method CommitPatrons()
      modifies this`patrons, this`overlay
      ensures View() == P.CommitPatrons(old(View()), today)
    {
      hide IsHexKey, IsDestination, IsLineText;
      ghost var c := View();
      var todo := overlay.Keys;
      while todo != {}
        invariant todo <= overlay.Keys && overlay == c.overlay
        invariant forall pk :: pk in c.overlay.Keys - todo ==>
          pk in patrons && patrons[pk] == Upserted(c, pk, today)
        invariant forall pk :: pk !in c.overlay.Keys - todo ==>
          (pk in patrons <==> pk in c.patrons) && (pk in patrons ==> patrons[pk] == c.patrons[pk])
      {
        var pk :| pk in todo;
        var staged := overlay[pk];
        var first := if pk in patrons then patrons[pk].firstSeen else today;
        if staged.profile {
          patrons := patrons[pk := PatronRow(staged.info, first, today)];
        } else {
          var info := if pk in patrons then patrons[pk].info else NO_INFO;
          patrons := patrons[pk := PatronRow(info, first, today)];
        }
        todo := todo - {pk};
      }
      overlay := map[];
      assert patrons == c.patrons + Upserts(c, today);
    }

    /** Whether the file takes one more transaction. */
    method Begin() returns (ok: bool)
      modifies this`writesLeft
      ensures ok <==> old(writesLeft) != Some(0)
      ensures writesLeft == if old(writesLeft).Some? && ok then Some(old(writesLeft).value - 1) else old(writesLeft)
    {
      ok := writesLeft != Some(0);
      if ok && writesLeft.Some? { writesLeft := Some(writesLeft.value - 1); }
    }

    /** Holds first, patrons second, and no transaction for an empty overlay; a read-only cache drops its overlays
        instead. If the file fails, what is stored is what was stored before, or that with the ledger transaction
        alone, and never the patrons without the ledger. */
    method Commit() returns (ok: bool)
      modifies this`patrons, this`holds, this`overlay, this`holdOverlay, this`writesLeft
      ensures readOnly ==> ok && View() == P.Discard(old(View()))
      ensures !readOnly && ok ==> View() == P.Commit(old(View()), today)
      ensures !ok ==> View() == if LedgerFails(old(View()), old(writesLeft)) then old(View()) else P.CommitHolds(old(View()))
      ensures !readOnly ==> (ok <==> Takes(old(writesLeft), Transactions(old(View()))))
      ensures old(writesLeft).None? ==> writesLeft.None?
      ensures !readOnly && ok && old(writesLeft).Some? ==> writesLeft == Some(old(writesLeft).value - Transactions(old(View())))
    {
      if readOnly {
        overlay, holdOverlay := map[], map[];
        return true;
      }
      NothingStaged(View(), today);
      if holdOverlay != map[] {
        ok := Begin();
        if !ok { return; }
        CommitHolds();
      }
      NothingStaged(View(), today);
      if overlay != map[] {
        ok := Begin();
        if !ok { return; }
        CommitPatrons();
      }
      ok := true;
    }

    /** Deletes the rows not seen for ttlDays, then as many of the least recently seen as exceed maxRows; a read-only
        cache deletes nothing. */
    method Purge() returns (expired: nat, evicted: nat)
      modifies this`patrons
      ensures if readOnly then View() == old(View()) else PurgedTo(old(View()), View(), today, ttlDays, maxRows)
      ensures expired + evicted + |View().patrons| == old(|View().patrons|)
      ensures !readOnly ==> expired == |old(View()).patrons| - |LiveRows(old(View()), today, ttlDays)|
      ensures evicted > 0 ==> |View().patrons| == maxRows
    {
      hide IsHexKey, IsDestination, IsLineText;
      if readOnly { return 0, 0; }
      var cutoff := today - ttlDays;
      var live := map pk | pk in patrons && patrons[pk].lastSeen >= cutoff :: patrons[pk];
      FewerKeys(live, patrons);
      expired := |patrons| - |live|;
      patrons := EvictRows(live, maxRows);
      evicted := |live| - |patrons|;
    }

    /** Deletes the ledger holds of days before the last holdDays, then the oldest beyond holdMaxRows; a read-only
        cache deletes nothing. */
    method PurgeHolds() returns (removed: nat)
      modifies this`holds
      ensures if readOnly then View() == old(View()) else HoldsPurgedTo(old(View()), View(), today, holdDays, holdMaxRows)
      ensures removed + |View().holds| == old(|View().holds|)
      ensures !readOnly ==> NewestKept(old(View()).holds, View().holds, today, holdDays)
    {
      hide IsHexKey, IsDestination, IsLineText, NewestKept, HoldsPurgedTo, OlderHold, DayOf;
      ghost var c := View();
      if readOnly { return 0; }
      var cutoff := today - holdDays;
      var recent := map i | i in holds && DayOf(holds[i].time) >= cutoff :: holds[i];
      FewerKeys(recent, holds);
      removed := |holds|;
      holds := EvictHolds(recent, holdMaxRows);
      removed := removed - |holds|;
      assert recent == RecentHolds(c, today, holdDays);
      EvictedIsPurged(c, holds, today, holdDays, holdMaxRows);
      PurgedHoldsAreOldest(c, View(), today, holdDays, holdMaxRows);
    }
  }

  /** Drops the least recently seen rows beyond the cap. */
  method EvictRows(live: map<string, PatronRow>, maxRows: nat) returns (kept: map<string, PatronRow>)
    ensures kept.Keys <= live.Keys && (forall pk :: pk in kept ==> kept[pk] == live[pk])
    ensures |kept| == if |live| <= maxRows then |live| else maxRows
    ensures forall pk, gone :: pk in kept && gone in live && gone !in kept ==> live[gone].lastSeen <= live[pk].lastSeen
  {
    kept := live;
    while |kept| > maxRows
      invariant kept.Keys <= live.Keys && (forall pk :: pk in kept ==> kept[pk] == live[pk])
      invariant forall pk, gone :: pk in kept && gone in live && gone !in kept ==> live[gone].lastSeen <= live[pk].lastSeen
      invariant |kept| <= |live| && (|kept| < |live| ==> |kept| >= maxRows)
      decreases |kept|
    {
      var oldest := LeastRecentlySeen(kept);
      ghost var before := kept;
      kept := kept - {oldest};
      assert kept.Keys == before.Keys - {oldest};
    }
  }

  /** Drops the oldest holds beyond the cap. */
  method EvictHolds(recent: map<HexKey, LedgerHold>, maxRows: nat) returns (kept: map<HexKey, LedgerHold>)
    ensures kept.Keys <= recent.Keys && (forall i :: i in kept ==> kept[i] == recent[i])
    ensures |kept| == if |recent| <= maxRows then |recent| else maxRows
    ensures forall i, gone :: i in kept && gone in recent && gone !in kept ==> OlderHold(recent, gone, i)
  {
    hide IsHexKey, IsDestination, IsLineText;
    kept := recent;
    while |kept| > maxRows
      invariant kept.Keys <= recent.Keys && (forall i :: i in kept ==> kept[i] == recent[i])
      invariant forall i, gone :: i in kept && gone in recent && gone !in kept ==> OlderHold(recent, gone, i)
      invariant |kept| <= |recent| && (|kept| < |recent| ==> |kept| >= maxRows)
      decreases |kept|
    {
      var oldest := OldestHold(kept);
      forall i | i in kept && i != oldest ensures OlderHold(recent, oldest, i) {
        assert OlderHold(kept, oldest, i);
      }
      ghost var before := kept;
      kept := kept - {oldest};
      assert kept.Keys == before.Keys - {oldest};
    }
  }

  lemma FewerKeys<K, V>(a: map<K, V>, b: map<K, V>)
    requires a.Keys <= b.Keys
    ensures |a| <= |b|
  {
    SubsetSize(a.Keys, b.Keys);
  }

  method LeastRecentlySeen(rows: map<string, PatronRow>) returns (oldest: string)
    requires |rows| > 0
    ensures oldest in rows && forall pk :: pk in rows ==> rows[oldest].lastSeen <= rows[pk].lastSeen
  {
    oldest :| oldest in rows;
    var todo := rows.Keys;
    while todo != {}
      invariant todo <= rows.Keys && oldest in rows
      invariant forall pk :: pk in rows && pk !in todo ==> rows[oldest].lastSeen <= rows[pk].lastSeen
    {
      var pk :| pk in todo;
      if rows[pk].lastSeen < rows[oldest].lastSeen { oldest := pk; }
      todo := todo - {pk};
    }
  }

  method OldestHold(holds: map<HexKey, LedgerHold>) returns (oldest: HexKey)
    requires |holds| > 0
    ensures oldest in holds && forall i :: i in holds && i != oldest ==> OlderHold(holds, oldest, i)
  {
    var first: HexKey :| first in holds;
    oldest := first;
    var todo := holds.Keys - {first};
    while todo != {}
      invariant todo <= holds.Keys && oldest in holds && oldest !in todo
      invariant forall i :: i in holds && i !in todo && i != oldest ==> OlderHold(holds, oldest, i)
    {
      var i :| i in todo;
      OlderIsTotal(holds, i, oldest);
      if OlderHold(holds, i, oldest) {
        forall j | j in holds && j !in todo && j != oldest ensures OlderHold(holds, i, j) {
          OlderIsTransitive(holds, i, oldest, j);
        }
        oldest := i;
      }
      todo := todo - {i};
    }
  }

  lemma OlderIsTotal(holds: map<HexKey, LedgerHold>, a: HexKey, b: HexKey)
    requires a in holds && b in holds && a != b
    ensures OlderHold(holds, a, b) || OlderHold(holds, b, a)
  {
    LessTotal(a, b);
  }

  lemma OlderIsTransitive(holds: map<HexKey, LedgerHold>, a: HexKey, b: HexKey, c: HexKey)
    requires a in holds && b in holds && c in holds && OlderHold(holds, a, b) && OlderHold(holds, b, c)
    ensures OlderHold(holds, a, c)
  {
    var x, y, z := DayOf(holds[a].time), DayOf(holds[b].time), DayOf(holds[c].time);
    if x == y == z { LessTransitive(a, b, c); }
  }
}
