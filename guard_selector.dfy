/** Guard selection: the group whose label the button asked for, falling back to a
    synthetic "default" group built from the top-level guards. */
module GuardSelector {
  import opened Wrappers
  import opened CandyTypes

  /** What the selection returns: a label and, unless no candy guard was fetched, a guard set. */
  datatype GuardChoice = GuardChoice(groupLabel: string, guards: Option<GuardSet>)

  /** Index of the first group carrying the label (the `find` of the selection). */
  function FindGroup(groups: seq<GuardGroup>, wanted: string): (r: Option<nat>)
    ensures r.Some? ==> r.value < |groups| && groups[r.value].groupLabel == wanted
    ensures r.Some? ==> forall j :: 0 <= j < r.value ==> groups[j].groupLabel != wanted
    ensures r.None? ==> forall j :: 0 <= j < |groups| ==> groups[j].groupLabel != wanted
  {
    if |groups| == 0 then None
    else if groups[0].groupLabel == wanted then Some(0)
    else match FindGroup(groups[1..], wanted)
      case None => None
      case Some(k) => Some(k + 1)
  }

  ghost predicate HasGroup(candyGuard: Option<CandyGuard>, wanted: string)
  {
    candyGuard.Some? && exists j :: 0 <= j < |candyGuard.value.groups| && candyGuard.value.groups[j].groupLabel == wanted
  }

  function ChooseGuardToUse(wanted: string, candyGuard: Option<CandyGuard>): (r: GuardChoice)
    // a matching group is returned as it is: the first one carrying the label
    ensures HasGroup(candyGuard, wanted) ==>
              exists j :: 0 <= j < |candyGuard.value.groups|
                && candyGuard.value.groups[j].groupLabel == wanted
                && (forall i :: 0 <= i < j ==> candyGuard.value.groups[i].groupLabel != wanted)
                && r == GuardChoice(wanted, Some(candyGuard.value.groups[j].guards))
    // otherwise the synthetic default group, with the top-level guards if there are any
    ensures candyGuard.Some? && !HasGroup(candyGuard, wanted) ==>
              r == GuardChoice("default", Some(candyGuard.value.guards))
    ensures candyGuard.None? ==> r == GuardChoice("default", None)
    ensures r.groupLabel == wanted || r.groupLabel == "default"
    ensures r.guards.None? <==> candyGuard.None?
  {
    var found := if candyGuard.Some? then FindGroup(candyGuard.value.groups, wanted) else None;
    if found.Some? then
      var group := candyGuard.value.groups[found.value];
      GuardChoice(group.groupLabel, Some(group.guards))
    else if candyGuard.Some? then
      GuardChoice("default", Some(candyGuard.value.guards))
    else
      // no candy guard: nothing can be minted
      GuardChoice("default", None)
  }
}
