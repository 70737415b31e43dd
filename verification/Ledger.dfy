/** The hold ledger refines the batch classifier.

    The dashboard classifies a whole log at once: each item's latest 101 record, with its patron's latest
    message-64 profile. The collector sees the log in chunks and corrects holds it has already sent. The
    theorems here say that the two agree after every committed chunk, however the log was cut. */
module Ledger {
  import opened Text
  import opened Identity
  import opened Classify
  import opened Patrons
  import opened Transform
  import opened Server

  // ----- what the keyed functions must be -----

  ghost predicate SoundKeys(keys: Keys) {
    (forall a, b :: keys.event(a) == keys.event(b) ==> a == b)
    && (forall s, t :: keys.stamp(s) == keys.stamp(t) ==> s == t)
  }

  function SignedText(n: int): (text: LineText) {
    DecimalRoundTrip(if n < 0 then -n else n);
    if n < 0 then "-" + Decimal(-n) else Decimal(n)
  }

  /** Such keys exist: the assumption excludes no log. */
  lemma SoundKeysExist(item: string -> HexKey, patron: string -> string)
    ensures SoundKeys(Keys(text => text, item, patron, SignedText))
  {
    forall s, t | SignedText(s) == SignedText(t) ensures s == t {
      var a, b := if s < 0 then -s else s, if t < 0 then -t else t;
      DecimalRoundTrip(a);
      DecimalRoundTrip(b);
      assert (s < 0) == (t < 0) by { assert IsDigit(Decimal(a)[0]) && IsDigit(Decimal(b)[0]); }
      assert s < 0 ==> SignedText(s)[1..] == Decimal(a) && SignedText(t)[1..] == Decimal(b);
      DecimalInjective(a, b);
    }
  }

  /** An event key determines the event and, for a hold, its revision. */
  lemma EventKeyDetermines(keys: Keys, a: Content, m: nat, b: Content, n: nat)
    requires SoundKeys(keys)
    requires EventKey(keys, a, m) == EventKey(keys, b, n)
    ensures a == b && (a.HoldContent? ==> m == n)
  {
    var f, g := FormOf(keys, a, m), FormOf(keys, b, n);
    DecodeCanonical(f);
    DecodeCanonical(g);
    CanonicalInjective(f, g);
  }

  // ----- the batch classifier -----

  /** The item's latest record among holds and 101 non-holds, by time, ties to the one read last. */
  function Later(w: Option<AcsRecord>, r: AcsRecord): Option<AcsRecord> {
    if r.state == OtherCode10 then w
    else if w.None? || r.when >= w.value.when then Some(r)
    else w
  }

  function Winner(keys: Keys, items: seq<AcsRecord>, item: HexKey): Option<AcsRecord> {
    if items == [] then None
    else
      var r := items[|items| - 1];
      var w := Winner(keys, items[..|items| - 1], item);
      if keys.item(r.barcode) == item then Later(w, r) else w
  }

  /** A patron's latest message-64 record, by time, ties to the one read last. */
  function LatestProfile(keys: Keys, log: seq<AcsRecord>, pk: string): Option<AcsRecord> {
    if log == [] then None
    else
      var r := log[|log| - 1];
      var p := LatestProfile(keys, log[..|log| - 1], pk);
      if IsProfile(r) && keys.patron(r.patron) == pk && (p.None? || r.when >= p.value.when) then Some(r) else p
  }

  const NO_OUTCOME := Flags(false, false, false)

  function ProfileOf(p: Option<AcsRecord>): Option<PatronInfo> {
    match p case Some(r) => Some(r.profile) case None => None
  }

  function BatchOutcome(keys: Keys, rules: Rules, log: seq<AcsRecord>, r: AcsRecord): Flags {
    if r.patron == "" then NO_OUTCOME
    else ProfileOutcome(ProfileOf(LatestProfile(keys, log, keys.patron(r.patron))), rules)
  }

  /** What a reader must see of a latest record whose patron's outcome is o. */
  function Shown(item: HexKey, w: Option<AcsRecord>, o: Flags): Option<Content> {
    match w
    case None => None
    case Some(r) =>
      if r.state == Hold then Some(HoldContent(r.when, item, r.destination, Combine(r.own, o)))
      else Some(Non101Content(r.when, item))
  }

  function BatchView(keys: Keys, rules: Rules, items: seq<AcsRecord>, log: seq<AcsRecord>, item: HexKey): Option<Content> {
    var w := Winner(keys, items, item);
    Shown(item, w, if w.Some? then BatchOutcome(keys, rules, log, w.value) else NO_OUTCOME)
  }

  // ----- when same-second records can be told apart -----

  /** A hold read again: the same destination, and flags that come from a profile both times or are the same. */
  predicate Repeats(w: AcsRecord, r: AcsRecord) {
    w.state == Hold && w.destination == r.destination
    && ((w.patron != "" && r.patron != "") || (w.patron == r.patron == "" && w.own == r.own))
  }

  /** Two holds of one item and second whose events cannot have the same content. */
  predicate Distinct(a: AcsRecord, r: AcsRecord) {
    a.destination != r.destination || (a.patron == r.patron == "" && a.own != r.own)
  }

  predicate SameSecond(keys: Keys, a: AcsRecord, r: AcsRecord) {
    keys.item(a.barcode) == keys.item(r.barcode) && a.when == r.when
  }

  predicate NewHold(keys: Keys, items: seq<AcsRecord>, r: AcsRecord) {
    forall k :: 0 <= k < |items| && SameSecond(keys, items[k], r) && items[k].state == Hold ==> Distinct(items[k], r)
  }

  predicate NewNonHold(keys: Keys, items: seq<AcsRecord>, r: AcsRecord) {
    forall k :: 0 <= k < |items| && SameSecond(keys, items[k], r) ==> items[k].state != NonHold101
  }

  /** The record comes in a later second than every record of its item, or in an earlier one than the latest, or
      it can be told apart in the second of the latest: a hold or a non-hold repeats the latest record or is the
      first of its kind in the second, and an other-code-10 record does not follow a hold with a patron. */
  predicate InOrder(keys: Keys, items: seq<AcsRecord>, r: AcsRecord) {
    var w := Winner(keys, items, keys.item(r.barcode));
    w.None? || w.value.when != r.when
    || match r.state
       case Hold => Repeats(w.value, r) || NewHold(keys, items, r)
       case NonHold101 => w.value.state == NonHold101 || NewNonHold(keys, items, r)
       case OtherCode10 => w.value.state != Hold || w.value.patron == ""
  }

  predicate Orderly(keys: Keys, items: seq<AcsRecord>) {
    items == []
    || (Orderly(keys, items[..|items| - 1]) && InOrder(keys, items[..|items| - 1], items[|items| - 1]))
  }

  // ----- the invariant of one item -----

  predicate Matches(keys: Keys, h: LedgerHold, w: AcsRecord) {
    w.state == Hold && w.patron != "" && h.time == w.when && h.patron == keys.patron(w.patron)
    && h.destination == w.destination && h.own == w.own
  }

  /** The row's key is that of its content at some revision up to the bound. */
  ghost predicate KeyedWithin(keys: Keys, row: AcsEvent, bound: nat) {
    exists rev: nat :: rev <= bound && row.eventKey == EventKey(keys, row.content, rev)
  }

  ghost predicate Keyed(keys: Keys, row: AcsEvent) {
    exists rev: nat :: row.eventKey == EventKey(keys, row.content, rev)
  }

  ghost predicate AllKeyed(keys: Keys, rows: seq<AcsEvent>) {
    forall k :: 0 <= k < |rows| ==> Keyed(keys, rows[k])
  }

  predicate HoldOf(content: Content, item: HexKey, time: int) {
    content.HoldContent? && content.item == item && content.time == time
  }

  predicate HoldAt(content: Content, item: HexKey, time: int, destination: Destination) {
    HoldOf(content, item, time) && content.destination == destination
  }

  /** Every row of the item's hold at its second and destination has a revision the ledger has reached. */
  ghost predicate RevisionsReached(keys: Keys, rows: seq<AcsEvent>, item: HexKey, h: LedgerHold) {
    forall k :: 0 <= k < |rows| && HoldAt(rows[k].content, item, h.time, h.destination) ==>
      KeyedWithin(keys, rows[k], h.revision)
  }

  /** The ledger's row is the item's latest record, or an older hold that a later record has overtaken. */
  ghost predicate LedgerFits(keys: Keys, rows: seq<AcsEvent>, item: HexKey, w: Option<AcsRecord>,
                             h: Option<LedgerHold>, o: Flags) {
    (h.Some? ==>
      h.value.flags == Combine(h.value.own, o) && w.Some?
      && (h.value.time < w.value.when
          || (Matches(keys, h.value, w.value) && RevisionsReached(keys, rows, item, h.value))))
    && (w.Some? && w.value.state == Hold && w.value.patron != "" ==> h.Some? && Matches(keys, h.value, w.value))
  }

  /** The flags a latest record is shown with: the ledger's outcome if it has a patron. */
  function ShownOutcome(w: Option<AcsRecord>, o: Flags): Flags {
    if w.Some? && w.value.patron != "" then o else NO_OUTCOME
  }

  ghost predicate ItemInv(keys: Keys, rows: seq<AcsEvent>, item: HexKey, w: Option<AcsRecord>,
                          h: Option<LedgerHold>, o: Flags) {
    Server.Latest(rows, item) == Shown(item, w, ShownOutcome(w, o))
    && LedgerFits(keys, rows, item, w, h, o)
  }

  // ----- transitions of one item -----

  lemma InsertKeyed(keys: Keys, rows: seq<AcsEvent>, content: Content, rev: nat)
    requires AllKeyed(keys, rows)
    ensures AllKeyed(keys, Insert(rows, BuildAcsItem(keys, content, rev)))
  {
  }

  /** An event about another item changes nothing for this one. */
  lemma OtherItem(keys: Keys, rows: seq<AcsEvent>, e: AcsEvent, item: HexKey, w: Option<AcsRecord>,
                  h: Option<LedgerHold>, o: Flags)
    requires ItemInv(keys, rows, item, w, h, o) && e.content.item != item
    ensures ItemInv(keys, Insert(rows, e), item, w, h, o)
  {
    InsertLatest(rows, e, item);
  }

  /** A hold's event with a revision above every row of its second and destination is new. */
  lemma FreshHold(keys: Keys, rows: seq<AcsEvent>, content: Content, rev: nat, bound: nat)
    requires SoundKeys(keys) && AllKeyed(keys, rows) && content.HoldContent? && bound < rev
    requires forall k :: 0 <= k < |rows| && HoldAt(rows[k].content, content.item, content.time, content.destination) ==>
      KeyedWithin(keys, rows[k], bound)
    ensures !HasKey(rows, EventKey(keys, content, rev))
  {
    if HasKey(rows, EventKey(keys, content, rev)) {
      var k :| 0 <= k < |rows| && rows[k].eventKey == EventKey(keys, content, rev);
      assert Keyed(keys, rows[k]);
      var m: nat :| rows[k].eventKey == EventKey(keys, rows[k].content, m);
      EventKeyDetermines(keys, rows[k].content, m, content, rev);
      var n: nat :| n <= bound && rows[k].eventKey == EventKey(keys, rows[k].content, n);
      EventKeyDetermines(keys, rows[k].content, n, content, rev);
      assert false;
    }
  }

  /** An event whose content no row has is new. */
  lemma FreshContent(keys: Keys, rows: seq<AcsEvent>, content: Content, rev: nat)
    requires SoundKeys(keys) && AllKeyed(keys, rows)
    requires forall k :: 0 <= k < |rows| ==> rows[k].content != content
    ensures !HasKey(rows, EventKey(keys, content, rev))
  {
    if HasKey(rows, EventKey(keys, content, rev)) {
      var k :| 0 <= k < |rows| && rows[k].eventKey == EventKey(keys, content, rev);
      assert Keyed(keys, rows[k]);
      var m: nat :| rows[k].eventKey == EventKey(keys, rows[k].content, m);
      EventKeyDetermines(keys, rows[k].content, m, content, rev);
      assert false;
    }
  }

  /** The ledger reaches the revision of the hold event it sends. */
  lemma RevisionsAfterInsert(keys: Keys, rows: seq<AcsEvent>, item: HexKey, content: Content, rev: nat, bound: nat, h: LedgerHold)
    requires HoldAt(content, item, h.time, h.destination) && rev <= h.revision && bound <= h.revision
    requires forall k :: 0 <= k < |rows| && HoldAt(rows[k].content, item, h.time, h.destination) ==> KeyedWithin(keys, rows[k], bound)
    ensures RevisionsReached(keys, Insert(rows, BuildAcsItem(keys, content, rev)), item, h)
  {
    var e := BuildAcsItem(keys, content, rev);
    var after := Insert(rows, e);
    forall k | 0 <= k < |after| && HoldAt(after[k].content, item, h.time, h.destination)
      ensures KeyedWithin(keys, after[k], h.revision)
    {
      if k < |rows| {
        assert after[k] == rows[k];
        var n: nat :| n <= bound && rows[k].eventKey == EventKey(keys, rows[k].content, n);
        assert n <= h.revision;
      } else {
        assert after[k] == e;
      }
    }
  }

  /** The item's flags follow a changed outcome: the ledger's row moves on and its correction is sent. */
  lemma CorrectionTransition(keys: Keys, rows: seq<AcsEvent>, item: HexKey, w: Option<AcsRecord>,
                             h: LedgerHold, o: Flags, after: Flags)
    requires SoundKeys(keys) && AllKeyed(keys, rows) && ItemInv(keys, rows, item, w, Some(h), o)
    ensures
      var flags := Combine(h.own, after);
      var e := BuildAcsItem(keys, HoldContent(h.time, item, h.destination, flags), h.revision + 1);
      if flags == h.flags then ItemInv(keys, rows, item, w, Some(h), after)
      else ItemInv(keys, Insert(rows, e), item, w, Some(h.(flags := flags, revision := h.revision + 1)), after)
  {
    hide IsHexKey, IsDestination, IsLineText, EventKey;
    var flags := Combine(h.own, after);
    var content := HoldContent(h.time, item, h.destination, flags);
    if flags != h.flags {
      InsertLatest(rows, BuildAcsItem(keys, content, h.revision + 1), item);
      if h.time == w.value.when {
        FreshHold(keys, rows, content, h.revision + 1, h.revision);
        RevisionsAfterInsert(keys, rows, item, content, h.revision + 1, h.revision,
                             h.(flags := flags, revision := h.revision + 1));
      }
    }
  }

  /** A correction of an item's latest record is a row the server does not have, whatever earlier flips it
      has seen, and it becomes the item's latest row. */
  lemma CorrectionIsNew(keys: Keys, rows: seq<AcsEvent>, item: HexKey, w: Option<AcsRecord>,
                        h: LedgerHold, o: Flags, flags: Flags)
    requires SoundKeys(keys) && AllKeyed(keys, rows) && ItemInv(keys, rows, item, w, Some(h), o)
    requires h.time == w.value.when
    ensures
      var content := HoldContent(h.time, item, h.destination, flags);
      var e := BuildAcsItem(keys, content, h.revision + 1);
      !HasKey(rows, e.eventKey) && Server.Latest(Insert(rows, e), item) == Some(content)
  {
    hide IsHexKey, IsDestination, IsLineText, SoundKeys, EventKey, Combine, Winner, AllKeyed;
    var content := HoldContent(h.time, item, h.destination, flags);
    InsertLatest(rows, BuildAcsItem(keys, content, h.revision + 1), item);
    FreshHold(keys, rows, content, h.revision + 1, h.revision);
  }

  // ----- transitions of one item under a record of pass 2 -----

  function OutcomeOf(ctx: Context, c: Cache, h: Option<LedgerHold>): Flags {
    match h case Some(hold) => Outcome(ctx, c, hold.patron) case None => NO_OUTCOME
  }

  /** The event pass 2 sends for the record. */
  function ItemEvent(ctx: Context, c: Cache, r: AcsRecord, h: Option<LedgerHold>): AcsEvent {
    BuildAcsItem(ctx.keys, ItemContent(ctx, c, r), ItemRevision(ctx, c, r, h))
  }

  /** No row of the item's second has the content of the hold's event, whatever the profiles say. */
  predicate NovelHold(rows: seq<AcsEvent>, item: HexKey, r: AcsRecord) {
    forall k :: 0 <= k < |rows| && HoldAt(rows[k].content, item, r.when, r.destination) ==>
      r.patron == "" && rows[k].content.flags != r.own
  }

  /** What InOrder says of the log, said of the rows. */
  predicate ToldApart(rows: seq<AcsEvent>, item: HexKey, w: Option<AcsRecord>, r: AcsRecord) {
    w.None? || w.value.when != r.when
    || match r.state
       case Hold => Repeats(w.value, r) || NovelHold(rows, item, r)
       case NonHold101 => w.value.state == NonHold101 || forall k :: 0 <= k < |rows| ==> rows[k].content != Non101Content(r.when, item)
       case OtherCode10 => w.value.state != Hold || w.value.patron == ""
  }

  ghost predicate ReadyFor(ctx: Context, c: Cache, rows: seq<AcsEvent>, item: HexKey, w: Option<AcsRecord>,
                           h: Option<LedgerHold>, r: AcsRecord) {
    SoundKeys(ctx.keys) && AllKeyed(ctx.keys, rows) && item == ctx.keys.item(r.barcode)
    && ItemInv(ctx.keys, rows, item, w, h, OutcomeOf(ctx, c, h)) && ToldApart(rows, item, w, r)
  }

  ghost predicate Advanced(ctx: Context, c: Cache, rows: seq<AcsEvent>, item: HexKey, w: Option<AcsRecord>,
                           h: Option<LedgerHold>, r: AcsRecord) {
    var h' := LedgerAfter(ctx, c, r, h);
    ItemInv(ctx.keys, Insert(rows, ItemEvent(ctx, c, r, h)), item, Later(w, r), h', OutcomeOf(ctx, c, h'))
  }

  /** The latest row of an item has the time of its latest record, so no row is later. */
  lemma RowsNotLater(keys: Keys, rows: seq<AcsEvent>, item: HexKey, w: Option<AcsRecord>, o: Flags)
    requires Server.Latest(rows, item) == Shown(item, w, o)
    ensures forall k :: 0 <= k < |rows| && Counts(rows[k].content, item) ==>
      w.Some? && rows[k].content.time <= w.value.when
  {
    LatestBounds(rows, item);
  }

  lemma OtherCode10Transition(ctx: Context, c: Cache, rows: seq<AcsEvent>, item: HexKey, w: Option<AcsRecord>,
                              h: Option<LedgerHold>, r: AcsRecord)
    requires ReadyFor(ctx, c, rows, item, w, h, r) && r.state == OtherCode10
    ensures Advanced(ctx, c, rows, item, w, h, r)
  {
    hide IsHexKey, IsDestination, IsLineText, EventKey, ProfileOutcome, Combine, SoundKeys, AllKeyed, Server.Latest;
    InsertLatest(rows, ItemEvent(ctx, c, r, h), item);
  }

  lemma NonHold101Transition(ctx: Context, c: Cache, rows: seq<AcsEvent>, item: HexKey, w: Option<AcsRecord>,
                             h: Option<LedgerHold>, r: AcsRecord)
    requires ReadyFor(ctx, c, rows, item, w, h, r) && r.state == NonHold101
    ensures Advanced(ctx, c, rows, item, w, h, r)
  {
    hide IsHexKey, IsDestination, IsLineText, EventKey, ProfileOutcome, Combine;
    var content := Non101Content(r.when, item);
    InsertLatest(rows, ItemEvent(ctx, c, r, h), item);
    RowsNotLater(ctx.keys, rows, item, w, ShownOutcome(w, OutcomeOf(ctx, c, h)));
    if w.None? || w.value.when < r.when || (w.value.when == r.when && w.value.state == Hold) {
      FreshContent(ctx.keys, rows, content, 0);
    }
  }

  /** A hold later than every record of its item: its first event is new and becomes the latest row. */
  lemma LaterHoldTransition(ctx: Context, c: Cache, rows: seq<AcsEvent>, item: HexKey, w: Option<AcsRecord>,
                            h: Option<LedgerHold>, r: AcsRecord)
    requires ReadyFor(ctx, c, rows, item, w, h, r) && r.state == Hold
    requires w.None? || w.value.when < r.when
    ensures Advanced(ctx, c, rows, item, w, h, r)
  {
    hide IsHexKey, IsDestination, IsLineText, EventKey, SoundKeys, AllKeyed, Server.Latest;
    var content := ItemContent(ctx, c, r);
    InsertLatest(rows, ItemEvent(ctx, c, r, h), item);
    RowsNotLater(ctx.keys, rows, item, w, ShownOutcome(w, OutcomeOf(ctx, c, h)));
    FreshContent(ctx.keys, rows, content, 0);
    var h' := LedgerAfter(ctx, c, r, h);
    if h'.Some? {
      RevisionsAfterInsert(ctx.keys, rows, item, content, 0, 0, h'.value);
    }
  }

  /** A hold read again in the second of the item's latest record. */
  lemma RepeatedHoldTransition(ctx: Context, c: Cache, rows: seq<AcsEvent>, item: HexKey, w: Option<AcsRecord>,
                               h: Option<LedgerHold>, r: AcsRecord)
    requires ReadyFor(ctx, c, rows, item, w, h, r) && r.state == Hold
    requires w.Some? && w.value.when == r.when && Repeats(w.value, r)
    ensures Advanced(ctx, c, rows, item, w, h, r)
  {
    hide IsHexKey, IsDestination, IsLineText, EventKey, SoundKeys, AllKeyed, Server.Latest;
    var content := ItemContent(ctx, c, r);
    var rev := ItemRevision(ctx, c, r, h);
    InsertLatest(rows, ItemEvent(ctx, c, r, h), item);
    if r.patron != "" {
      if rev > h.value.revision { FreshHold(ctx.keys, rows, content, rev, h.value.revision); }
      RevisionsAfterInsert(ctx.keys, rows, item, content, rev, h.value.revision, LedgerAfter(ctx, c, r, h).value);
    }
  }

  /** A hold that is new in the second of the item's latest record, be that another hold or a non-hold. */
  lemma NovelHoldTransition(ctx: Context, c: Cache, rows: seq<AcsEvent>, item: HexKey, w: Option<AcsRecord>,
                            h: Option<LedgerHold>, r: AcsRecord)
    requires ReadyFor(ctx, c, rows, item, w, h, r) && r.state == Hold
    requires w.Some? && w.value.when == r.when && NovelHold(rows, item, r)
    ensures Advanced(ctx, c, rows, item, w, h, r)
  {
    hide IsHexKey, IsDestination, IsLineText, EventKey, SoundKeys, AllKeyed, Server.Latest;
    var content := ItemContent(ctx, c, r);
    var rev := ItemRevision(ctx, c, r, h);
    InsertLatest(rows, ItemEvent(ctx, c, r, h), item);
    FreshContent(ctx.keys, rows, content, rev);
    if r.patron != "" {
      RevisionsAfterInsert(ctx.keys, rows, item, content, rev, 0, LedgerAfter(ctx, c, r, h).value);
    }
  }

  /** A hold that arrives after a later record of its item changes nothing a reader sees. */
  lemma OvertakenHoldTransition(ctx: Context, c: Cache, rows: seq<AcsEvent>, item: HexKey, w: Option<AcsRecord>,
                                h: Option<LedgerHold>, r: AcsRecord)
    requires ReadyFor(ctx, c, rows, item, w, h, r) && r.state == Hold
    requires w.Some? && r.when < w.value.when
    ensures Advanced(ctx, c, rows, item, w, h, r)
  {
    hide IsHexKey, IsDestination, IsLineText, EventKey, ProfileOutcome, Combine;
    InsertLatest(rows, ItemEvent(ctx, c, r, h), item);
  }

  lemma ItemTransition(ctx: Context, c: Cache, rows: seq<AcsEvent>, item: HexKey, w: Option<AcsRecord>,
                       h: Option<LedgerHold>, r: AcsRecord)
    requires ReadyFor(ctx, c, rows, item, w, h, r)
    ensures Advanced(ctx, c, rows, item, w, h, r)
  {
    match r.state {
      case OtherCode10 => OtherCode10Transition(ctx, c, rows, item, w, h, r);
      case NonHold101 => NonHold101Transition(ctx, c, rows, item, w, h, r);
      case Hold =>
        if w.None? || w.value.when < r.when { LaterHoldTransition(ctx, c, rows, item, w, h, r); }
        else if r.when < w.value.when { OvertakenHoldTransition(ctx, c, rows, item, w, h, r); }
        else if Repeats(w.value, r) { RepeatedHoldTransition(ctx, c, rows, item, w, h, r); }
        else { NovelHoldTransition(ctx, c, rows, item, w, h, r); }
    }
  }
}
