/** The local patron cache and hold ledger (collector/v2_patrons.py).

    `Cache` is the abstract value of a PatronCache: the two committed tables and the two overlays that
    stage a chunk's changes. Every operation has a function on that value; the class below changes its
    fields step by step and is proved against those functions. */
module Patrons {
  import opened Text
  import opened Identity
  import opened Classify

  /** The ledger's row for an item, whose key is the item: its latest hold, if a patron is named there. */
  datatype LedgerHold = LedgerHold(
    time: int, patron: string, destination: Destination,
    own: Flags,       // the flags its own message sets
    flags: Flags,     // those of the event sent last
    revision: nat)

  datatype Entry = Entry(item: HexKey, hold: LedgerHold)

  datatype PatronRow = PatronRow(info: PatronInfo, firstSeen: int, lastSeen: int)

  datatype Staged = Staged(info: PatronInfo, profile: bool)

  datatype Cache = Cache(
    patrons: map<string, PatronRow>, holds: map<HexKey, LedgerHold>,
    overlay: map<string, Staged>, holdOverlay: map<HexKey, Option<LedgerHold>>)

  const EMPTY := Cache(map[], map[], map[], map[])

  // ----- questions -----

  function Stored(c: Cache, pk: string): Option<PatronInfo> {
    if pk in c.patrons then Some(c.patrons[pk].info) else None
  }

  function Lookup(c: Cache, pk: string): Option<PatronInfo> {
    if pk !in c.overlay then Stored(c, pk)
    else if c.overlay[pk].profile then Some(c.overlay[pk].info)
    else if pk in c.patrons then Some(c.patrons[pk].info)
    else Some(NO_INFO)
  }

  predicate Contains(c: Cache, pk: string) {
    pk in c.overlay || pk in c.patrons
  }

  function HoldGet(c: Cache, item: HexKey): Option<LedgerHold> {
    if item in c.holdOverlay then c.holdOverlay[item]
    else if item in c.holds then Some(c.holds[item])
    else None
  }

  /** Every ledger hold of a patron, staged changes included. */
  function PatronHolds(c: Cache, pk: string): set<Entry> {
    set i | i in c.holds.Keys + c.holdOverlay.Keys && HoldGet(c, i).Some? && HoldGet(c, i).value.patron == pk
      :: Entry(i, HoldGet(c, i).value)
  }

  // ----- staged changes -----

  function Stage(c: Cache, pk: string, info: PatronInfo, profile: bool): Cache {
    if !profile && pk in c.overlay then c
    else c.(overlay := c.overlay[pk := Staged(info, profile)])
  }

  function HoldPut(c: Cache, item: HexKey, hold: LedgerHold): Cache {
    c.(holdOverlay := c.holdOverlay[item := Some(hold)])
  }

  function HoldDelete(c: Cache, item: HexKey): Cache {
    c.(holdOverlay := c.holdOverlay[item := None])
  }

  function Discard(c: Cache): Cache {
    c.(overlay := map[], holdOverlay := map[])
  }

  // ----- the two transactions of a commit -----

  function Deleted(overlay: map<HexKey, Option<LedgerHold>>): set<HexKey> {
    set i | i in overlay && overlay[i].None?
  }

  function Replaced(overlay: map<HexKey, Option<LedgerHold>>): map<HexKey, LedgerHold> {
    map i | i in overlay && overlay[i].Some? :: overlay[i].value
  }

  function CommitHolds(c: Cache): Cache {
    c.(holds := (c.holds - Deleted(c.holdOverlay)) + Replaced(c.holdOverlay), holdOverlay := map[])
  }

  /** The upsert of one staged patron: a profile replaces what is known, a sighting only moves last_seen. */
  function Upserted(c: Cache, pk: string, today: int): PatronRow
    requires pk in c.overlay
  {
    var staged := c.overlay[pk];
    var first := if pk in c.patrons then c.patrons[pk].firstSeen else today;
    if staged.profile then PatronRow(staged.info, first, today)
    else if pk in c.patrons then PatronRow(c.patrons[pk].info, first, today)
    else PatronRow(NO_INFO, first, today)
  }

  function Upserts(c: Cache, today: int): map<string, PatronRow> {
    map pk | pk in c.overlay :: Upserted(c, pk, today)
  }

  function CommitPatrons(c: Cache, today: int): Cache {
    c.(patrons := c.patrons + Upserts(c, today), overlay := map[])
  }

  function Commit(c: Cache, today: int): Cache {
    CommitPatrons(CommitHolds(c), today)
  }

  lemma NothingStaged(c: Cache, today: int)
    ensures c.overlay == map[] ==> CommitPatrons(c, today) == c
    ensures c.holdOverlay == map[] ==> CommitHolds(c) == c
  {
    if c.overlay == map[] {
      assert Upserts(c, today).Keys == c.overlay.Keys;
      assert c.patrons + Upserts(c, today) == c.patrons;
    }
    if c.holdOverlay == map[] {
      assert Replaced(c.holdOverlay).Keys == {} && Deleted(c.holdOverlay) == {};
      assert CommitHolds(c).holds == c.holds;
    }
  }

  // ----- overlay equals committed view -----

  /** Two caches answer every question alike. */
  ghost predicate SameAnswers(a: Cache, b: Cache) {
    && (forall pk :: Lookup(a, pk) == Lookup(b, pk))
    && (forall pk :: Contains(a, pk) <==> Contains(b, pk))
    && (forall i :: HoldGet(a, i) == HoldGet(b, i))
    && (forall pk :: PatronHolds(a, pk) == PatronHolds(b, pk))
  }

  lemma PatronHoldsFollowHoldGet(a: Cache, b: Cache, pk: string)
    requires forall i :: HoldGet(a, i) == HoldGet(b, i)
    ensures PatronHolds(a, pk) == PatronHolds(b, pk)
  {
    forall e: Entry ensures e in PatronHolds(a, pk) <==> e in PatronHolds(b, pk) {
      assert e in PatronHolds(a, pk) <==> HoldGet(a, e.item) == Some(e.hold) && e.hold.patron == pk;
      assert e in PatronHolds(b, pk) <==> HoldGet(b, e.item) == Some(e.hold) && e.hold.patron == pk;
    }
  }

  /** Committing changes no answer; each of its two transactions changes none either. */
  lemma CommitKeepsAnswers(c: Cache, today: int)
    ensures SameAnswers(c, CommitHolds(c)) && SameAnswers(c, Commit(c, today))
    ensures Commit(c, today).overlay == map[] && Commit(c, today).holdOverlay == map[]
  {
    var h := CommitHolds(c);
    forall i ensures HoldGet(c, i) == HoldGet(h, i) {}
    forall pk ensures PatronHolds(c, pk) == PatronHolds(h, pk) { PatronHoldsFollowHoldGet(c, h, pk); }
    var d := Commit(c, today);
    forall pk ensures Lookup(c, pk) == Lookup(d, pk) {}
    forall i ensures HoldGet(c, i) == HoldGet(d, i) {}
    forall pk ensures PatronHolds(c, pk) == PatronHolds(d, pk) { PatronHoldsFollowHoldGet(c, d, pk); }
  }

  /** One staged change. */
  datatype Change =
    | StageChange(pk: string, info: PatronInfo, profile: bool)
    | PutChange(item: HexKey, hold: LedgerHold)
    | DeleteChange(item: HexKey)

  function Apply(c: Cache, change: Change): Cache {
    match change
    case StageChange(pk, info, profile) => Stage(c, pk, info, profile)
    case PutChange(item, hold) => HoldPut(c, item, hold)
    case DeleteChange(item) => HoldDelete(c, item)
  }

  function ApplyAll(c: Cache, changes: seq<Change>): Cache {
    if changes == [] then c else Apply(ApplyAll(c, changes[..|changes| - 1]), changes[|changes| - 1])
  }

  lemma {:induction false} ChangesLeaveTables(c: Cache, changes: seq<Change>)
    ensures ApplyAll(c, changes).patrons == c.patrons && ApplyAll(c, changes).holds == c.holds
  {
    if changes != [] { ChangesLeaveTables(c, changes[..|changes| - 1]); }
  }

  /** After any changes, commit keeps every answer, and discard gives back the cache from before them. */
  lemma StagedChanges(c: Cache, changes: seq<Change>, today: int)
    requires c.overlay == map[] && c.holdOverlay == map[]
    ensures SameAnswers(ApplyAll(c, changes), Commit(ApplyAll(c, changes), today))
    ensures Discard(ApplyAll(c, changes)) == c
  {
    CommitKeepsAnswers(ApplyAll(c, changes), today);
    ChangesLeaveTables(c, changes);
  }

  // ----- the order holds_for_patron lists a patron's holds in -----

  predicate Before(a: Entry, b: Entry) {
    a.hold.time < b.hold.time || (a.hold.time == b.hold.time && Less(a.item, b.item))
  }

  predicate Ordered(es: seq<Entry>) {
    forall i, j :: 0 <= i < j < |es| ==> Before(es[i], es[j])
  }

  ghost predicate IsListing(es: seq<Entry>, s: set<Entry>) {
    Ordered(es) && (forall e :: e in es <==> e in s)
  }

  /** No two entries share an item. */
  ghost predicate Keyed(s: set<Entry>) {
    forall a, b :: a in s && b in s && a.item == b.item ==> a == b
  }

  function Inserted(es: seq<Entry>, e: Entry): seq<Entry> {
    if es == [] || Before(es[|es| - 1], e) then es + [e]
    else Inserted(es[..|es| - 1], e) + [es[|es| - 1]]
  }

  lemma {:induction false} BeforeTransitive(a: Entry, b: Entry, c: Entry)
    requires Before(a, b) && Before(b, c)
    ensures Before(a, c)
  {
    if a.hold.time == b.hold.time == c.hold.time { LessTransitive(a.item, b.item, c.item); }
  }

  lemma {:induction false} InsertedOrdered(es: seq<Entry>, e: Entry)
    requires Ordered(es) && forall x :: x in es ==> x.item != e.item
    ensures Ordered(Inserted(es, e))
    ensures forall x :: x in Inserted(es, e) <==> x in es || x == e
  {
    hide IsHexKey, IsDestination, Less;
    if es != [] {
      var n := |es| - 1;
      assert es == es[..n] + [es[n]];
      if Before(es[n], e) {
        forall i | 0 <= i < n ensures Before(es[i], e) { BeforeTransitive(es[i], es[n], e); }
      } else {
        InsertedOrdered(es[..n], e);
        LessTotal(es[n].item, e.item);
        var r := Inserted(es[..n], e);
        forall i | 0 <= i < |r| ensures Before(r[i], es[n]) {
          assert r[i] in r;
          if r[i] != e {
            var k :| 0 <= k < n && es[k] == r[i];
          }
        }
      }
    }
  }

  lemma {:induction false} ListingExists(s: set<Entry>) returns (es: seq<Entry>)
    requires Keyed(s)
    ensures IsListing(es, s)
  {
    if s == {} {
      es := [];
    } else {
      var e :| e in s;
      var rest := ListingExists(s - {e});
      InsertedOrdered(rest, e);
      es := Inserted(rest, e);
    }
  }

  lemma BeforeAsymmetric(a: Entry, b: Entry)
    ensures !(Before(a, b) && Before(b, a))
  {
    if Before(a, b) && Before(b, a) {
      LessTransitive(a.item, b.item, a.item);
      LessIrreflexive(a.item);
    }
  }

  /** The listing of a set is unique: the order is total on entries with distinct items. */
  lemma {:induction false} ListingUnique(a: seq<Entry>, b: seq<Entry>, s: set<Entry>)
    requires IsListing(a, s) && IsListing(b, s)
    ensures a == b
  {
    assert b != [] ==> b[0] in b;
    if a != [] {
      assert a[0] in s && a[0] in b;
      assert b[0] in s && b[0] in a;
      if a[0] != b[0] {
        var i :| 0 <= i < |a| && a[i] == b[0];
        var j :| 0 <= j < |b| && b[j] == a[0];
        BeforeAsymmetric(a[0], b[0]);
        assert false;
      }
      ListingTail(a, s);
      ListingTail(b, s);
      ListingUnique(a[1..], b[1..], s - {a[0]});
      assert a == [a[0]] + a[1..] && b == [b[0]] + b[1..];
    }
  }

  lemma ListingTail(a: seq<Entry>, s: set<Entry>)
    requires IsListing(a, s) && a != []
    ensures IsListing(a[1..], s - {a[0]})
  {
    forall e ensures e in a[1..] <==> e in s - {a[0]} {
      if e in a[1..] {
        var i :| 0 <= i < |a| - 1 && a[1..][i] == e;
        BeforeAsymmetric(a[0], a[i + 1]);
        assert a[i + 1] in a;
      }
      if e in s - {a[0]} {
        var i :| 0 <= i < |a| && a[i] == e;
        assert a[1..][i - 1] == e;
      }
    }
  }

  lemma PatronHoldsKeyed(c: Cache, pk: string)
    ensures Keyed(PatronHolds(c, pk))
  {
  }

  /** A patron's holds, oldest first, ties by item key. */
  ghost function HoldsForPatron(c: Cache, pk: string): (es: seq<Entry>)
    ensures IsListing(es, PatronHolds(c, pk))
  {
    PatronHoldsKeyed(c, pk);
    assert exists es :: IsListing(es, PatronHolds(c, pk)) by {
      var es := ListingExists(PatronHolds(c, pk));
    }
    var es :| IsListing(es, PatronHolds(c, pk));
    es
  }

  // ----- lifecycle -----

  const DAY := 86400

  /** The UTC day of an instant in seconds. */
  function DayOf(time: int): int {
    time / DAY
  }

  function LiveRows(c: Cache, today: int, ttlDays: nat): map<string, PatronRow> {
    map pk | pk in c.patrons && c.patrons[pk].lastSeen >= today - ttlDays :: c.patrons[pk]
  }

  /** What `purge` leaves: the rows seen within the time to live, or the cap's number of them, none less recently
      seen than an evicted one. Rows seen on one day are evicted in no particular order. */
  ghost predicate PurgedTo(c: Cache, d: Cache, today: int, ttlDays: nat, maxRows: nat) {
    var live := LiveRows(c, today, ttlDays);
    && d == c.(patrons := d.patrons)
    && d.patrons.Keys <= live.Keys && (forall pk :: pk in d.patrons ==> d.patrons[pk] == live[pk])
    && |d.patrons| == (if |live| <= maxRows then |live| else maxRows)
    && (forall pk, gone :: pk in d.patrons && gone in live && gone !in d.patrons ==> live[gone].lastSeen <= live[pk].lastSeen)
  }

  /** By event day, then by item key: the order `purge_holds` evicts in. */
  predicate OlderHold(holds: map<HexKey, LedgerHold>, a: HexKey, b: HexKey)
    requires a in holds && b in holds
  {
    DayOf(holds[a].time) < DayOf(holds[b].time) || (DayOf(holds[a].time) == DayOf(holds[b].time) && Less(a, b))
  }

  function RecentHolds(c: Cache, today: int, holdDays: nat): map<HexKey, LedgerHold> {
    map i | i in c.holds && DayOf(c.holds[i].time) >= today - holdDays :: c.holds[i]
  }

  /** What `purge_holds` leaves: the holds of the last days, or the cap's number of newest ones. */
  ghost predicate HoldsPurgedTo(c: Cache, d: Cache, today: int, holdDays: nat, holdMaxRows: nat) {
    var recent := RecentHolds(c, today, holdDays);
    && d == c.(holds := d.holds)
    && d.holds.Keys <= recent.Keys && (forall i :: i in d.holds ==> d.holds[i] == recent[i])
    && |d.holds| == (if |recent| <= holdMaxRows then |recent| else holdMaxRows)
    && (forall i, gone :: i in d.holds && gone in recent && gone !in d.holds ==> OlderHold(recent, gone, i))
  }

  lemma EvictedIsPurged(c: Cache, kept: map<HexKey, LedgerHold>, today: int, holdDays: nat, holdMaxRows: nat)
    requires
      var recent := RecentHolds(c, today, holdDays);
      && kept.Keys <= recent.Keys && (forall i :: i in kept ==> kept[i] == recent[i])
      && |kept| == (if |recent| <= holdMaxRows then |recent| else holdMaxRows)
      && (forall i, gone :: i in kept && gone in recent && gone !in kept ==> OlderHold(recent, gone, i))
    ensures HoldsPurgedTo(c, c.(holds := kept), today, holdDays, holdMaxRows)
  {
  }

  /** No hold is left that is of an earlier day than one that went, nor one of a day before the last holdDays. */
  ghost predicate NewestKept(before: map<HexKey, LedgerHold>, after: map<HexKey, LedgerHold>, today: int, holdDays: nat) {
    (forall i, gone :: i in after && gone in before && gone !in after ==> DayOf(before[gone].time) <= DayOf(after[i].time))
    && (forall i :: i in after ==> DayOf(after[i].time) >= today - holdDays)
  }

  lemma PurgedHoldsAreOldest(c: Cache, d: Cache, today: int, holdDays: nat, holdMaxRows: nat)
    requires HoldsPurgedTo(c, d, today, holdDays, holdMaxRows)
    ensures NewestKept(c.holds, d.holds, today, holdDays)
  {
    hide IsHexKey, IsDestination, IsLineText, DayOf, Less;
    var recent := RecentHolds(c, today, holdDays);
    forall i, gone | i in d.holds && gone in c.holds && gone !in d.holds
      ensures DayOf(c.holds[gone].time) <= DayOf(d.holds[i].time)
    {
      if gone in recent { assert OlderHold(recent, gone, i); }
    }
  }
}
