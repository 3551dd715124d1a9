/**
 How one built snapshot and one Core reply become the counts shown in
 diagnostics. A reply timestamp the integration would not show is `None`.
 */
module SyncOutcome {
  import opened Basics
  import opened EnrichmentTypes

  datatype MatchState =
    | Unknown | NoCandidates | AllMatched | PartialUnmatched | PartialAmbiguous | NoMatches | NoMatchesAmbiguous

  datatype CoreResult = CoreResult(
    submitted: int, matched: int, unmatched: int, ambiguous: int, stored: int, lastPushAt: Option<string>)

  datatype Outcome = Outcome(
    submitted: nat, matched: nat, unmatched: nat, ambiguous: nat, stored: nat,
    matchState: MatchState, fullyConverged: bool)

  function MatchOf(submitted: nat, ambiguous: nat, stored: nat): MatchState {
    if submitted == 0 then NoCandidates
    else if stored == submitted then AllMatched
    else if stored == 0 then if ambiguous != 0 then NoMatchesAmbiguous else NoMatches
    else if ambiguous != 0 then PartialAmbiguous
    else PartialUnmatched
  }

  /** The checked aggregate, or nothing where the source raises. */
  function CompletedOutcome(build: Build, result: CoreResult): Option<Outcome> {
    var posted := |build.devices|;
    if result.submitted < 0 || result.matched < 0 || result.unmatched < 0 || result.ambiguous < 0 || result.stored < 0
    then None
    else if result.lastPushAt.None? then None
    else if
      result.submitted != posted || result.submitted != result.matched + result.unmatched + result.ambiguous ||
      result.stored != result.matched
    then None
    else
      var unmatched, ambiguous := build.unmatched + result.unmatched, build.ambiguous + result.ambiguous;
      if build.submittedCandidates != result.matched + unmatched + ambiguous then None
      else
        Some(Outcome(
          build.submittedCandidates, result.matched, unmatched, ambiguous, result.stored,
          MatchOf(build.submittedCandidates, ambiguous, result.stored),
          result.matched == result.submitted && result.unmatched == 0 && result.ambiguous == 0))
  }

  /** Every candidate of the build is a posted row, unmatched or ambiguous. */
  predicate Conserved(build: Build) {
    build.submittedCandidates == |build.devices| + build.unmatched + build.ambiguous
  }

  /** A reply whose own numbers add up for a post of `posted` rows. */
  predicate SelfConsistent(result: CoreResult, posted: nat) {
    && result.submitted == posted && result.lastPushAt.Some?
    && result.matched >= 0 && result.unmatched >= 0 && result.ambiguous >= 0
    && result.submitted == result.matched + result.unmatched + result.ambiguous
    && result.stored == result.matched
  }

  /** Core kept every posted row. */
  predicate KeptAll(result: CoreResult, posted: nat) {
    SelfConsistent(result, posted) && result.matched == posted
  }

  /** The numbers a finished snapshot shows always balance. */
  predicate Balanced(o: Outcome) {
    && o.submitted == o.matched + o.unmatched + o.ambiguous && o.stored == o.matched
    && o.matchState == MatchOf(o.submitted, o.ambiguous, o.stored)
  }

  /**
   For a conserved build the aggregate check adds nothing to the reply's own consistency: it fails on
   no self-consistent reply and passes no other.
   */
  lemma OutcomeExactlySelfConsistent(build: Build, result: CoreResult)
    requires Conserved(build)
    ensures CompletedOutcome(build, result).Some? <==> SelfConsistent(result, |build.devices|)
    ensures CompletedOutcome(build, result).Some? ==>
              var o := CompletedOutcome(build, result).value;
              && Balanced(o) && o.submitted == build.submittedCandidates
              && (o.fullyConverged <==> KeptAll(result, |build.devices|))
  {
  }

  /** What each match state says about a balanced outcome. */
  lemma MatchStateMeaning(o: Outcome)
    requires Balanced(o)
    ensures o.matchState == NoCandidates <==> o.submitted == 0
    ensures o.matchState == AllMatched <==> o.submitted > 0 && o.unmatched == 0 && o.ambiguous == 0
    ensures o.matchState == NoMatches <==> o.submitted > 0 && o.matched == 0 && o.ambiguous == 0
    ensures o.matchState == NoMatchesAmbiguous <==> o.matched == 0 && o.ambiguous > 0
    ensures o.matchState == PartialAmbiguous <==> o.matched > 0 && o.ambiguous > 0
    ensures o.matchState == PartialUnmatched <==> o.matched > 0 && o.unmatched > 0 && o.ambiguous == 0
    ensures o.matchState != Unknown
  {
  }
}
