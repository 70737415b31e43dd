/** The canonical event forms (collector/v2_identity.py), the safe formats they are built from
    (collector/v2_events.py), and the agent's source-event identity string (agent/event_identity.py).

    An HMAC is a function the model is given. What has to be shown about the text below it is that the
    text determines every field, so two different events never ask the HMAC the same question. */
module Identity {
  import opened Text

  // ----- the safe formats -----

  predicate IsLowerHex(c: char) {
    '0' <= c <= '9' || 'a' <= c <= 'f'
  }

  /** 64 lower-case hexadecimal characters. */
  predicate IsHexKey(s: string) {
    |s| == 64 && forall i :: 0 <= i < |s| ==> IsLowerHex(s[i])
  }

  predicate IsSlugChar(c: char) {
    'a' <= c <= 'z' || '0' <= c <= '9' || c == '_'
  }

  predicate IsDestination(s: string) {
    1 <= |s| <= 32 && 'a' <= s[0] <= 'z' && forall i :: 0 <= i < |s| ==> IsSlugChar(s[i])
  }

  predicate IsBin(s: string) {
    1 <= |s| <= 16 && s[0] != '_' && forall i :: 0 <= i < |s| ==> IsSlugChar(s[i])
  }

  const ERROR_CLASSES: seq<string> := [
    "item_not_found", "ils_acs_failure", "rfid_collision", "configuration_error",
    "routing_error", "communication_error", "other", "unknown"]

  /** Text that fits on one line of an ASCII form. */
  predicate IsLineText(s: string) {
    forall i :: 0 <= i < |s| ==> s[i] != '\n' && s[i] != '\r' && s[i] < 128 as char
  }

  type HexKey = s: string | IsHexKey(s) witness seq(64, i => '0')
  type Destination = s: string | IsDestination(s) witness "unknown"
  type Bin = s: string | IsBin(s) witness "unknown"
  type ErrorClass = s: string | s in ERROR_CLASSES witness ERROR_CLASSES[6]
  type LineText = s: string | IsLineText(s) witness ""

  datatype Flags = Flags(ill: bool, branch: bool, collection: bool)

  datatype ItemState = Hold | NonHold101 | OtherCode10

  /** What an event_key is computed from. A correction of a hold has a revision above 0. */
  datatype Form =
    | CheckinForm(time: LineText, item: Option<HexKey>, destination: Destination, bin: Bin)
    | RejectForm(time: LineText, item: Option<HexKey>, errorClass: ErrorClass)
    | HoldForm(time: LineText, itemKey: HexKey, destination: Destination, flags: Flags, revision: nat)
    | NonHoldForm(time: LineText, itemKey: HexKey, state: ItemState)

  /** A non-hold ACS form carries one of the two non-hold states. */
  predicate WellFormed(f: Form) {
    f.NonHoldForm? ==> f.state != Hold
  }

  // ----- the text of a form -----

  const ABSENT := "~"

  function Header(kind: string): string {
    "sortview/v2/event/" + kind + "/1"
  }

  function FieldLine(field: (string, string)): string {
    field.0 + "=" + field.1
  }

  function FieldLines(fields: seq<(string, string)>): (lines: seq<string>)
    ensures |lines| == |fields|
    ensures forall i :: 0 <= i < |fields| ==> lines[i] == FieldLine(fields[i])
  {
    if fields == [] then [] else [FieldLine(fields[0])] + FieldLines(fields[1..])
  }

  /** Refuses a value with a line break, as the source does, and one that is not ASCII (the encoding fails). */
  function CanonicalText(kind: string, fields: seq<(string, string)>): Option<string> {
    if exists i :: 0 <= i < |fields| && !IsLineText(fields[i].1) then None
    else Some(Join([Header(kind)] + FieldLines(fields), '\n'))
  }

  function OrAbsent(value: Option<string>): string {
    match value
    case Some(v) => if v == "" then ABSENT else v
    case None => ABSENT
  }

  function FlagText(value: bool): string {
    if value then "1" else "0"
  }

  function StateText(state: ItemState): string {
    match state
    case Hold => "hold"
    case NonHold101 => "non_hold_101"
    case OtherCode10 => "other_code10"
  }

  function KindText(f: Form): string {
    match f
    case CheckinForm(_, _, _, _) => "checkin"
    case RejectForm(_, _, _) => "reject"
    case HoldForm(_, _, _, _, _) => "acs_item"
    case NonHoldForm(_, _, _) => "acs_item"
  }

  function FormFields(f: Form): seq<(string, string)> {
    match f
    case CheckinForm(time, item, destination, bin) =>
      [("event_time", time), ("item_key", OrAbsent(item)), ("destination", destination), ("bin", bin)]
    case RejectForm(time, item, errorClass) =>
      [("event_time", time), ("item_key", OrAbsent(item)), ("error_class", errorClass)]
    case HoldForm(time, itemKey, destination, flags, revision) =>
      [("event_time", time), ("item_key", itemKey), ("state", "hold"),
       ("destination", OrAbsent(Some(destination))), ("is_ill", FlagText(flags.ill)),
       ("is_branch_services", FlagText(flags.branch)), ("is_collection_services", FlagText(flags.collection))]
      + (if revision > 0 then [("revision", Decimal(revision))] else [])
    case NonHoldForm(time, itemKey, state) =>
      [("event_time", time), ("item_key", itemKey), ("state", StateText(state))]
  }

  function Canonical(f: Form): Option<string> {
    CanonicalText(KindText(f), FormFields(f))
  }

  // ----- reading a text back -----

  /** The value of a `name=value` line. */
  function FieldValue(line: string, name: string): Option<string> {
    var prefix := name + "=";
    if prefix <= line then Some(line[|prefix|..]) else None
  }

  /** The values of the lines under the given names, in order; None if a line has another name. */
  function FieldValues(lines: seq<string>, names: seq<string>): Option<seq<string>> {
    if |lines| != |names| then None
    else if lines == [] then Some([])
    else
      match (FieldValue(lines[0], names[0]), FieldValues(lines[1..], names[1..]))
      case (Some(v), Some(vs)) => Some([v] + vs)
      case _ => None
  }

  const CHECKIN_NAMES := ["event_time", "item_key", "destination", "bin"]
  const REJECT_NAMES := ["event_time", "item_key", "error_class"]
  const NON_HOLD_NAMES := ["event_time", "item_key", "state"]
  const HOLD_NAMES := ["event_time", "item_key", "state", "destination", "is_ill", "is_branch_services",
                       "is_collection_services"]

  function DecodeItem(value: string): Option<Option<HexKey>> {
    if value == ABSENT then Some(None) else if IsHexKey(value) then Some(Some(value)) else None
  }

  function DecodeHold(v: seq<string>, revision: nat): Option<Form>
    requires |v| >= 7
  {
    if IsLineText(v[0]) && IsHexKey(v[1]) && v[2] == "hold" && IsDestination(v[3]) then
      Some(HoldForm(v[0], v[1], v[3], Flags(v[4] == "1", v[5] == "1", v[6] == "1"), revision))
    else None
  }

  function DecodeNonHold(v: seq<string>): Option<Form>
    requires |v| >= 3
  {
    if !IsLineText(v[0]) || !IsHexKey(v[1]) then None
    else if v[2] == "non_hold_101" then Some(NonHoldForm(v[0], v[1], NonHold101))
    else if v[2] == "other_code10" then Some(NonHoldForm(v[0], v[1], OtherCode10))
    else None
  }

  function DecodeCheckin(v: seq<string>): Option<Form>
    requires |v| >= 4
  {
    match DecodeItem(v[1])
    case Some(item) =>
      if IsLineText(v[0]) && IsDestination(v[2]) && IsBin(v[3]) then Some(CheckinForm(v[0], item, v[2], v[3]))
      else None
    case None => None
  }

  function DecodeReject(v: seq<string>): Option<Form>
    requires |v| >= 3
  {
    match DecodeItem(v[1])
    case Some(item) => if IsLineText(v[0]) && v[2] in ERROR_CLASSES then Some(RejectForm(v[0], item, v[2])) else None
    case None => None
  }

  function DecodeCheckinLines(lines: seq<string>): Option<Form> {
    match FieldValues(lines, CHECKIN_NAMES)
    case Some(v) => if |v| == 4 then DecodeCheckin(v) else None
    case None => None
  }

  function DecodeRejectLines(lines: seq<string>): Option<Form> {
    match FieldValues(lines, REJECT_NAMES)
    case Some(v) => if |v| == 3 then DecodeReject(v) else None
    case None => None
  }

  function DecodeNonHoldLines(lines: seq<string>): Option<Form> {
    match FieldValues(lines, NON_HOLD_NAMES)
    case Some(v) => if |v| == 3 then DecodeNonHold(v) else None
    case None => None
  }

  function DecodeFirstHoldLines(lines: seq<string>): Option<Form> {
    match FieldValues(lines, HOLD_NAMES)
    case Some(v) => if |v| == 7 then DecodeHold(v, 0) else None
    case None => None
  }

  function DecodeCorrectedHoldLines(lines: seq<string>): Option<Form> {
    match FieldValues(lines, HOLD_NAMES + ["revision"])
    case Some(v) =>
      if |v| != 8 then None
      else (match ParseDecimal(v[7]) case Some(r) => DecodeHold(v, r) case None => None)
    case None => None
  }

  function DecodeAcsLines(lines: seq<string>): Option<Form> {
    if |lines| == 3 then DecodeNonHoldLines(lines)
    else if |lines| == 7 then DecodeFirstHoldLines(lines)
    else DecodeCorrectedHoldLines(lines)
  }

  /** The form a canonical text spells: header, field names and values are all read back. */
  function Decode(text: string): Option<Form> {
    var parts := Split(text, '\n');
    if parts[0] == Header("checkin") then DecodeCheckinLines(parts[1..])
    else if parts[0] == Header("reject") then DecodeRejectLines(parts[1..])
    else if parts[0] == Header("acs_item") then DecodeAcsLines(parts[1..])
    else None
  }

  // ----- decoding inverts encoding -----

  function Values(fields: seq<(string, string)>): (vs: seq<string>)
    ensures |vs| == |fields|
    ensures forall i :: 0 <= i < |fields| ==> vs[i] == fields[i].1
  {
    if fields == [] then [] else [fields[0].1] + Values(fields[1..])
  }

  predicate Named(fields: seq<(string, string)>, names: seq<string>) {
    |fields| == |names| && forall i :: 0 <= i < |fields| ==> fields[i].0 == names[i]
  }

  lemma {:induction false} FieldValuesOfLines(fields: seq<(string, string)>, names: seq<string>)
    requires Named(fields, names)
    ensures FieldValues(FieldLines(fields), names) == Some(Values(fields))
  {
    if fields != [] {
      FieldValuesOfLines(fields[1..], names[1..]);
      var line := FieldLine(fields[0]);
      assert (names[0] + "=") <= line;
      assert line[|names[0] + "="|..] == fields[0].1;
      assert FieldLines(fields)[1..] == FieldLines(fields[1..]);
    }
  }

  predicate SafeFields(fields: seq<(string, string)>) {
    forall i :: 0 <= i < |fields| ==> IsLineText(fields[i].1) && '\n' !in fields[i].0
  }

  /** The lines of a form come back from its text. */
  lemma SplitForm(kind: string, fields: seq<(string, string)>)
    requires SafeFields(fields) && '\n' !in Header(kind)
    ensures CanonicalText(kind, fields).Some?
    ensures Split(CanonicalText(kind, fields).value, '\n') == [Header(kind)] + FieldLines(fields)
  {
    var parts := [Header(kind)] + FieldLines(fields);
    forall i | 0 <= i < |parts| ensures '\n' !in parts[i] {
      if i > 0 {
        assert parts[i] == FieldLine(fields[i - 1]);
      }
    }
    SplitJoin(parts, '\n');
  }

  lemma HexAndSlugAreLineText(s: string)
    requires IsHexKey(s) || IsDestination(s) || IsBin(s) || s in ERROR_CLASSES || AllDigits(s)
    ensures IsLineText(s)
    ensures IsHexKey(s) || IsDestination(s) ==> s != "" && s != ABSENT
  {
    if IsHexKey(s) {
      assert forall i :: 0 <= i < |s| ==> IsLowerHex(s[i]);
    } else if IsDestination(s) || IsBin(s) {
      assert forall i :: 0 <= i < |s| ==> IsSlugChar(s[i]);
    } else if AllDigits(s) {
      assert forall i :: 0 <= i < |s| ==> IsDigit(s[i]);
    } else {
      ErrorClassesAreLineText(s);
    }
  }

  lemma ErrorClassesAreLineText(s: string)
    requires s in ERROR_CLASSES
    ensures IsLineText(s)
  {
    var k :| 0 <= k < |ERROR_CLASSES| && ERROR_CLASSES[k] == s;
    FirstClassesAreSlugs();
    LastClassesAreSlugs();
  }

  lemma FirstClassesAreSlugs()
    ensures IsSlugText("item_not_found") && IsSlugText("ils_acs_failure") && IsSlugText("rfid_collision")
    ensures IsSlugText("configuration_error")
  {
  }

  lemma LastClassesAreSlugs()
    ensures IsSlugText("routing_error") && IsSlugText("communication_error") && IsSlugText("other") && IsSlugText("unknown")
  {
  }

  /** Slug characters only. */
  predicate IsSlugText(s: string) {
    forall i :: 0 <= i < |s| ==> IsSlugChar(s[i])
  }

  lemma FieldNamesHaveNoBreak()
    ensures '\n' !in "event_time" && '\n' !in "item_key" && '\n' !in "destination" && '\n' !in "bin"
    ensures '\n' !in "error_class" && '\n' !in "state" && '\n' !in "is_ill" && '\n' !in "revision"
  {
  }

  lemma FlagNamesHaveNoBreak()
    ensures '\n' !in "is_branch_services" && '\n' !in "is_collection_services"
  {
  }

  lemma FixedValuesAreLineText()
    ensures IsLineText(ABSENT) && IsLineText("hold") && IsLineText("0") && IsLineText("1")
    ensures IsLineText("non_hold_101") && IsLineText("other_code10")
  {
  }

  lemma HeadersHaveNoBreak()
    ensures '\n' !in Header("checkin") && '\n' !in Header("reject") && '\n' !in Header("acs_item")
  {
    assert '\n' !in "checkin" && '\n' !in "reject" && '\n' !in "acs_item";
    assert '\n' !in "sortview/v2/event/";
  }

  lemma HeadersDiffer()
    ensures Header("checkin") != Header("reject") && Header("acs_item") != Header("reject")
    ensures Header("acs_item") != Header("checkin")
  {
    assert |Header("checkin")| != |Header("reject")|;
    assert |Header("acs_item")| != |Header("reject")|;
    assert |Header("acs_item")| != |Header("checkin")|;
  }

  lemma DecodeCheckinForm(f: Form)
    requires f.CheckinForm?
    ensures Canonical(f).Some? && Decode(Canonical(f).value) == Some(f)
  {
    var fields := FormFields(f);
    FieldNamesHaveNoBreak();
    FixedValuesAreLineText();
    HeadersHaveNoBreak();
    HexAndSlugAreLineText(f.destination);
    HexAndSlugAreLineText(f.bin);
    if f.item.Some? { HexAndSlugAreLineText(f.item.value); }
    SplitForm("checkin", fields);
    FieldValuesOfLines(fields, CHECKIN_NAMES);
    assert Split(Canonical(f).value, '\n')[1..] == FieldLines(fields);
    assert DecodeCheckin(Values(fields)) == Some(f);
  }

  lemma DecodeRejectForm(f: Form)
    requires f.RejectForm?
    ensures Canonical(f).Some? && Decode(Canonical(f).value) == Some(f)
  {
    var fields := FormFields(f);
    FieldNamesHaveNoBreak();
    FixedValuesAreLineText();
    HeadersHaveNoBreak();
    HeadersDiffer();
    HexAndSlugAreLineText(f.errorClass);
    if f.item.Some? { HexAndSlugAreLineText(f.item.value); }
    SplitForm("reject", fields);
    FieldValuesOfLines(fields, REJECT_NAMES);
    assert Split(Canonical(f).value, '\n')[1..] == FieldLines(fields);
    assert DecodeReject(Values(fields)) == Some(f);
  }

  /** Decoding the text of an ACS form is decoding its lines. */
  lemma DecodeAcsText(f: Form)
    requires f.HoldForm? || f.NonHoldForm?
    requires SafeFields(FormFields(f))
    ensures Canonical(f).Some? && Decode(Canonical(f).value) == DecodeAcsLines(FieldLines(FormFields(f)))
  {
    HeadersHaveNoBreak();
    HeadersDiffer();
    SplitForm("acs_item", FormFields(f));
    assert Split(Canonical(f).value, '\n')[1..] == FieldLines(FormFields(f));
  }

  lemma DecodeNonHoldForm(f: Form)
    requires f.NonHoldForm? && f.state != Hold
    ensures Canonical(f).Some? && Decode(Canonical(f).value) == Some(f)
  {
    var fields := FormFields(f);
    FieldNamesHaveNoBreak();
    FixedValuesAreLineText();
    HexAndSlugAreLineText(f.itemKey);
    DecodeAcsText(f);
    FieldValuesOfLines(fields, NON_HOLD_NAMES);
    assert DecodeNonHold(Values(fields)) == Some(f);
  }

  /** The seven fields every hold form has. */
  function HoldFields(f: Form): seq<(string, string)>
    requires f.HoldForm?
  {
    [("event_time", f.time), ("item_key", f.itemKey), ("state", "hold"),
     ("destination", OrAbsent(Some(f.destination))), ("is_ill", FlagText(f.flags.ill)),
     ("is_branch_services", FlagText(f.flags.branch)), ("is_collection_services", FlagText(f.flags.collection))]
  }

  lemma HoldFieldsAreSafe(f: Form)
    requires f.HoldForm?
    ensures SafeFields(HoldFields(f)) && Named(HoldFields(f), HOLD_NAMES)
    ensures HoldFields(f)[3].1 == f.destination
  {
    FieldNamesHaveNoBreak();
    FlagNamesHaveNoBreak();
    FixedValuesAreLineText();
    HexAndSlugAreLineText(f.itemKey);
    HexAndSlugAreLineText(f.destination);
  }

  /** The first seven values of a hold's form are enough to rebuild it, given its revision. */
  lemma DecodeHoldValues(f: Form, v: seq<string>)
    requires f.HoldForm? && |v| >= 7 && forall i :: 0 <= i < 7 ==> v[i] == HoldFields(f)[i].1
    ensures DecodeHold(v, f.revision) == Some(f)
  {
    HexAndSlugAreLineText(f.destination);
  }

  lemma DecodeFirstHold(f: Form)
    requires f.HoldForm? && f.revision == 0
    ensures Canonical(f).Some? && Decode(Canonical(f).value) == Some(f)
  {
    var fields := HoldFields(f);
    assert FormFields(f) == fields;
    HoldFieldsAreSafe(f);
    DecodeAcsText(f);
    FieldValuesOfLines(fields, HOLD_NAMES);
    DecodeHoldValues(f, Values(fields));
  }

  lemma CorrectedHoldFieldsAreSafe(f: Form)
    requires f.HoldForm? && f.revision > 0
    ensures SafeFields(FormFields(f)) && Named(FormFields(f), HOLD_NAMES + ["revision"])
    ensures FormFields(f) == HoldFields(f) + [("revision", Decimal(f.revision))]
  {
    HoldFieldsAreSafe(f);
    FieldNamesHaveNoBreak();
    DecimalRoundTrip(f.revision);
    HexAndSlugAreLineText(Decimal(f.revision));
    var fields := HoldFields(f) + [("revision", Decimal(f.revision))];
    assert FormFields(f) == fields;
    forall i | 0 <= i < |fields|
      ensures IsLineText(fields[i].1) && '\n' !in fields[i].0 && fields[i].0 == (HOLD_NAMES + ["revision"])[i]
    {
      if i < 7 { assert fields[i] == HoldFields(f)[i]; }
    }
  }

  lemma DecodeCorrectedHold(f: Form)
    requires f.HoldForm? && f.revision > 0
    ensures Canonical(f).Some? && Decode(Canonical(f).value) == Some(f)
  {
    var fields := FormFields(f);
    CorrectedHoldFieldsAreSafe(f);
    DecodeAcsText(f);
    FieldValuesOfLines(fields, HOLD_NAMES + ["revision"]);
    DecimalRoundTrip(f.revision);
    var v := Values(fields);
    forall i | 0 <= i < 7 ensures v[i] == HoldFields(f)[i].1 {
      assert fields[i] == HoldFields(f)[i];
    }
    assert v[7] == Decimal(f.revision);
    DecodeHoldValues(f, v);
  }

  /** The text of every well-formed event exists and determines its kind and every field. */
  lemma DecodeCanonical(f: Form)
    requires WellFormed(f)
    ensures Canonical(f).Some? && Decode(Canonical(f).value) == Some(f)
  {
    match f {
      case CheckinForm(_, _, _, _) => DecodeCheckinForm(f);
      case RejectForm(_, _, _) => DecodeRejectForm(f);
      case HoldForm(_, _, _, _, _) =>
        if f.revision > 0 { DecodeCorrectedHold(f); } else { DecodeFirstHold(f); }
      case NonHoldForm(_, _, _) => DecodeNonHoldForm(f);
    }
  }

  /** Equal canonical texts are texts of the same event. */
  lemma CanonicalInjective(f: Form, g: Form)
    requires WellFormed(f) && WellFormed(g)
    requires Canonical(f) == Canonical(g)
    ensures f == g
  {
    DecodeCanonical(f);
    DecodeCanonical(g);
  }

  // ----- the agent's source-event identity -----

  datatype SourceEvent = SourceEvent(agentId: string, source: string, generation: int, startOffset: int)

  predicate Accepted(e: SourceEvent) {
    e.agentId != "" && e.source != "" && '|' !in e.agentId && '|' !in e.source
    && e.generation >= 0 && e.startOffset >= 0
  }

  /** The pipe-joined string that is hashed; None where the source raises EventIdentityError. */
  function IdentityString(e: SourceEvent): Option<string> {
    if e.agentId == "" || e.source == "" then None
    else if '|' in e.agentId || '|' in e.source then None
    else if e.generation < 0 || e.startOffset < 0 then None
    else Some(Join([e.agentId, e.source, Decimal(e.generation), Decimal(e.startOffset)], '|'))
  }

  lemma NoPipeInDecimal(n: nat)
    ensures '|' !in Decimal(n)
  {
    DecimalRoundTrip(n);
    assert forall i :: 0 <= i < |Decimal(n)| ==> IsDigit(Decimal(n)[i]);
  }

  /** The identity string exists exactly for accepted inputs and determines all four of them. */
  lemma IdentityStringDetermines(e: SourceEvent, f: SourceEvent)
    ensures IdentityString(e).Some? <==> Accepted(e)
    ensures Accepted(e) && Accepted(f) && IdentityString(e) == IdentityString(f) ==> e == f
  {
    if Accepted(e) && Accepted(f) && IdentityString(e) == IdentityString(f) {
      NoPipeInDecimal(e.generation);
      NoPipeInDecimal(e.startOffset);
      NoPipeInDecimal(f.generation);
      NoPipeInDecimal(f.startOffset);
      var es := [e.agentId, e.source, Decimal(e.generation), Decimal(e.startOffset)];
      var fs := [f.agentId, f.source, Decimal(f.generation), Decimal(f.startOffset)];
      SplitJoin(es, '|');
      SplitJoin(fs, '|');
      assert es[0] == fs[0] && es[1] == fs[1] && es[2] == fs[2] && es[3] == fs[3];
      DecimalInjective(e.generation, f.generation);
      DecimalInjective(e.startOffset, f.startOffset);
    }
  }
}
