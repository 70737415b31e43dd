/** The spool's file names (agent/spool.py): fixed-width generation and offsets, so that the order of the names is
    the order of the captured ranges. */
module Spooling {
  import opened Text

  const OFFSET_WIDTH := 20
  const GENERATION_WIDTH := 6
  const SUFFIX := ".ndjson"

  /** The byte range of one generation of a source that a batch was read from. */
  datatype Range = Range(generation: nat, start: nat, end: nat)

  /** What makes a name unique: a clock reading, a per-process counter and a random hex text. */
  datatype Tie = Tie(ns: nat, sequence: nat, random: string)

  predicate IsHex(s: string) {
    forall i :: 0 <= i < |s| ==> IsDigit(s[i]) || 'a' <= s[i] <= 'f'
  }

  function TieParts(tie: Tie): seq<string> {
    [Decimal(tie.ns), Padded(tie.sequence, 10), tie.random]
  }

  function Parts(range: Range, tie: Tie): seq<string> {
    ["batch", Padded(range.generation, GENERATION_WIDTH), Padded(range.start, OFFSET_WIDTH), Padded(range.end, OFFSET_WIDTH)]
    + TieParts(tie)
  }

  function FileName(range: Range, tie: Tie): string {
    Join(Parts(range, tie), '-') + SUFFIX
  }

  // ----- reading a name back -----

  predicate EndsWith(s: string, suffix: string) {
    |s| >= |suffix| && s[|s| - |suffix|..] == suffix
  }

  datatype Metadata = Metadata(range: Range, createdAt: string)

  /** Generation, offsets and creation time from a name, or None for any other name. `created` is the conversion of
      a clock reading to text, which may be out of the calendar's range. */
  function ParseFileName(name: string, created: nat -> Option<string>): Option<Metadata> {
    if !EndsWith(name, SUFFIX) then None
    else
      var parts := Split(name[..|name| - |SUFFIX|], '-');
      if |parts| < 5 || parts[0] != "batch" then None
      else
        match (ParseDecimal(parts[1]), ParseDecimal(parts[2]), ParseDecimal(parts[3]), ParseDecimal(parts[4]))
        case (Some(generation), Some(start), Some(end), Some(ns)) =>
          (match created(ns)
           case Some(at) => Some(Metadata(Range(generation, start, end), at))
           case None => None)
        case _ => None
  }

  lemma DigitsAreClean(s: string)
    requires IsHex(s)
    ensures '-' !in s
  {
  }

  lemma PartsAreClean(range: Range, tie: Tie)
    requires IsHex(tie.random)
    ensures Clean(Parts(range, tie), '-')
  {
    hide Padded, Decimal, Value;
    var parts := Parts(range, tie);
    PaddedRoundTrip(range.generation, GENERATION_WIDTH);
    PaddedRoundTrip(range.start, OFFSET_WIDTH);
    PaddedRoundTrip(range.end, OFFSET_WIDTH);
    DecimalRoundTrip(tie.ns);
    PaddedRoundTrip(tie.sequence, 10);
    forall i | 1 <= i < |parts| ensures '-' !in parts[i] {
      DigitsAreClean(parts[i]);
    }
  }

  /** Parsing a name gives back the range it was made from, whatever the tie-breakers. */
  lemma NameRoundTrip(range: Range, tie: Tie, created: nat -> Option<string>)
    requires IsHex(tie.random)
    ensures ParseFileName(FileName(range, tie), created)
         == match created(tie.ns) case Some(at) => Some(Metadata(range, at)) case None => None
  {
    hide Join, Split, Padded, Decimal, Value, AllDigits, Clean;
    var parts := Parts(range, tie);
    PaddedRoundTrip(range.generation, GENERATION_WIDTH);
    PaddedRoundTrip(range.start, OFFSET_WIDTH);
    PaddedRoundTrip(range.end, OFFSET_WIDTH);
    DecimalRoundTrip(tie.ns);
    PartsAreClean(range, tie);
    SplitJoin(parts, '-');
    var name := FileName(range, tie);
    assert name[..|name| - |SUFFIX|] == Join(parts, '-');
    assert name[|name| - |SUFFIX|..] == SUFFIX;
  }

  // ----- the order of names -----

  /** By generation, then start, then end. */
  predicate Before(a: Range, b: Range) {
    a.generation < b.generation
    || (a.generation == b.generation && (a.start < b.start || (a.start == b.start && a.end < b.end)))
  }

  predicate Fits(range: Range) {
    range.generation < Power10(GENERATION_WIDTH) && range.start < Power10(OFFSET_WIDTH) && range.end < Power10(OFFSET_WIDTH)
  }

  function Tail(tie: Tie): string {
    "-" + Join(TieParts(tie), '-') + SUFFIX
  }

  lemma NameInPieces(range: Range, tie: Tie)
    ensures FileName(range, tie) == "batch-" + (Padded(range.generation, GENERATION_WIDTH) + ("-" +
      (Padded(range.start, OFFSET_WIDTH) + ("-" + (Padded(range.end, OFFSET_WIDTH) + Tail(tie))))))
  {
    hide Padded, Decimal;
    var parts := Parts(range, tie);
    var two, three, four := parts[1..], parts[2..], parts[3..];
    assert two[1..] == three && three[1..] == four && four[1..] == TieParts(tie);
    assert Join(four, '-') == parts[3] + ['-'] + Join(TieParts(tie), '-');
    assert Join(three, '-') == parts[2] + ['-'] + Join(four, '-');
    assert Join(two, '-') == parts[1] + ['-'] + Join(three, '-');
    assert Join(parts, '-') == parts[0] + ['-'] + Join(two, '-');
  }

  lemma PaddedOrder(a: nat, x: string, b: nat, y: string, w: nat)
    requires w > 0 && a < Power10(w) && b < Power10(w)
    ensures Less(Padded(a, w) + x, Padded(b, w) + y) <==> a < b || (a == b && Less(x, y))
  {
    hide Padded, Less, Value;
    PaddedRoundTrip(a, w);
    PaddedRoundTrip(b, w);
    LessByHead(Padded(a, w), x, Padded(b, w), y);
    LessIsNumeric(Padded(a, w), Padded(b, w));
  }

  /** For generations below a million and offsets of at most twenty digits, names sort by (generation, start, end),
      and only equal ranges are left to the tie-breakers. */
  lemma NamesSortByRange(a: Range, s: Tie, b: Range, t: Tie)
    requires Fits(a) && Fits(b)
    ensures Less(FileName(a, s), FileName(b, t)) <==> Before(a, b) || (a == b && Less(Tail(s), Tail(t)))
  {
    hide Padded, Less, Tail, Power10, FileName;
    NameInPieces(a, s);
    NameInPieces(b, t);
    var a3, b3 := Padded(a.end, OFFSET_WIDTH) + Tail(s), Padded(b.end, OFFSET_WIDTH) + Tail(t);
    var a2, b2 := Padded(a.start, OFFSET_WIDTH) + ("-" + a3), Padded(b.start, OFFSET_WIDTH) + ("-" + b3);
    var a1, b1 := Padded(a.generation, GENERATION_WIDTH) + ("-" + a2), Padded(b.generation, GENERATION_WIDTH) + ("-" + b2);
    SameHead("batch-", a1, b1);
    PaddedOrder(a.generation, "-" + a2, b.generation, "-" + b2, GENERATION_WIDTH);
    SameHead("-", a2, b2);
    PaddedOrder(a.start, "-" + a3, b.start, "-" + b3, OFFSET_WIDTH);
    SameHead("-", a3, b3);
    PaddedOrder(a.end, Tail(s), b.end, Tail(t), OFFSET_WIDTH);
  }

  lemma SameHead(head: string, x: string, y: string)
    ensures Less(head + x, head + y) <==> Less(x, y)
  {
    LessIrreflexive(head);
    LessByHead(head, x, head, y);
  }

  /** The six digits are the exact limit: padded generations below a bound all sort numerically if and only if the
      bound is at most a million. */
  lemma GenerationLimit(bound: nat)
    ensures (forall a: nat, b: nat :: a < b < bound ==> Less(Padded(a, GENERATION_WIDTH), Padded(b, GENERATION_WIDTH)))
       <==> bound <= 1_000_000
  {
    hide Padded, Less;
    assert Power10(6) == 1_000_000 by { Million(); }
    if bound <= 1_000_000 {
      forall a: nat, b: nat | a < b < bound ensures Less(Padded(a, 6), Padded(b, 6)) {
        PaddedOrder(a, "", b, "", 6);
        assert Padded(a, 6) + "" == Padded(a, 6) && Padded(b, 6) + "" == Padded(b, 6);
      }
    } else {
      OneMillion();
      assert 999_999 < 1_000_000 < bound;
    }
  }

  lemma Million()
    ensures Power10(6) == 1_000_000
  {
    assert Power10(1) == 10 && Power10(2) == 100 && Power10(3) == 1_000;
    assert Power10(4) == 10_000 && Power10(5) == 100_000;
  }

  lemma OneMillion()
    ensures !Less(Padded(999_999, 6), Padded(1_000_000, 6))
  {
    hide Decimal;
    LargeNumerals();
  }

  lemma LargeNumerals()
    ensures Decimal(999_999) == "999999" && Decimal(1_000_000) == "1000000"
  {
    assert Decimal(9) == "9" && Decimal(1) == "1";
    assert Decimal(99) == "99" && Decimal(10) == "10";
    assert Decimal(999) == "999" && Decimal(100) == "100";
    assert Decimal(9_999) == "9999" && Decimal(1_000) == "1000";
    assert Decimal(99_999) == "99999" && Decimal(10_000) == "10000";
    assert Decimal(999_999) == "999999" && Decimal(100_000) == "100000";
    assert Decimal(1_000_000) == "1000000";
  }

  // ----- writing -----

  datatype WriteError = EmptyBatch | NegativeGeneration | NoProgress | OffsetTooLarge

  /** What `write_batch` refuses, in the order it checks. */
  function Refusal(records: nat, generation: int, start: int, end: int): (error: Option<WriteError>)
    ensures error.None? && start >= 0 ==>
      records > 0 && generation >= 0 && start < end && (generation < Power10(GENERATION_WIDTH) ==> Fits(Range(generation, start, end)))
  {
    if records == 0 then Some(EmptyBatch)
    else if generation < 0 then Some(NegativeGeneration)
    else if end <= start then Some(NoProgress)
    else if start > Power10(OFFSET_WIDTH) - 1 || end > Power10(OFFSET_WIDTH) - 1 then Some(OffsetTooLarge)
    else None
  }
}
