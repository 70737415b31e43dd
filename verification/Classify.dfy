/** The hold classifier (collector/v2_classify.py): a hold's flags come from its own message and from its
    patron's profile, each flag by OR. */
module Classify {
  import opened Text
  import opened Identity

  /** A patron's profile, reduced to the keyed name and what its type and name say of interlibrary loans. */
  datatype PatronInfo = PatronInfo(nameKey: Option<string>, typeIll: bool, nameIll: bool)

  /** The configured service accounts, as keyed names. */
  datatype Rules = Rules(branchNames: set<string>, collectionNames: set<string>)

  const NO_INFO := PatronInfo(None, false, false)

  function ProfileOutcome(patron: Option<PatronInfo>, rules: Rules): Flags {
    var known := match patron case Some(p) => p case None => NO_INFO;
    Flags(known.typeIll || known.nameIll,
          known.nameKey.Some? && known.nameKey.value in rules.branchNames,
          known.nameKey.Some? && known.nameKey.value in rules.collectionNames)
  }

  function Combine(own: Flags, outcome: Flags): Flags {
    Flags(own.ill || outcome.ill, own.branch || outcome.branch, own.collection || outcome.collection)
  }

  /** The flags of a hold whose message sets `own`, for a patron. */
  function HoldFlagsFor(own: Flags, p: PatronInfo, rules: Rules): Flags {
    Combine(own, ProfileOutcome(Some(p), rules))
  }

  /** A hold keeps its own flags, a patron of whom nothing is known or configured adds none, and each thing that can be
      known or configured of the patron sets its own flag and no other. */
  lemma EachSetsItsFlag(own: Flags, p: PatronInfo, name: string, rules: Rules)
    ensures HoldFlagsFor(own, NO_INFO, rules) == Combine(own, ProfileOutcome(None, rules)) == own
    ensures HoldFlagsFor(own, PatronInfo(Some(name), false, false), Rules({}, {})) == own
    ensures HoldFlagsFor(own, p.(typeIll := true), rules) == HoldFlagsFor(own, p, rules).(ill := true)
    ensures HoldFlagsFor(own, p.(nameIll := true), rules) == HoldFlagsFor(own, p, rules).(ill := true)
    ensures
      var more := rules.(branchNames := rules.branchNames + {name});
      HoldFlagsFor(own, p, more)
      == if p.nameKey == Some(name) then HoldFlagsFor(own, p, rules).(branch := true) else HoldFlagsFor(own, p, rules)
    ensures
      var more := rules.(collectionNames := rules.collectionNames + {name});
      HoldFlagsFor(own, p, more)
      == if p.nameKey == Some(name) then HoldFlagsFor(own, p, rules).(collection := true) else HoldFlagsFor(own, p, rules)
  {
  }
}
