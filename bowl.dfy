/**
 * Bowls and their display values (Components/Models/Bowl.cs).
 */
module Bowls {
  import opened Common

  const RegularBowl: string := "Regular Bowl"
  const MixingBowl: string := "Mixing Bowl"

  const Available: string := "Available"
  const InUse: string := "In Use"
  const Dirty: string := "Dirty"
  const Maintenance: string := "Maintenance"

  const Large: string := "Large"
  const Medium: string := "Medium"
  const Small: string := "Small"
  const NotApplicable: string := "N/A"

  /** Weights are kilograms; times are ticks. */
  datatype Bowl = Bowl(
    bowlId: string,
    bowlCode: string,
    category: string,
    bowlType: string,
    weight: real,
    status: string,
    currentLocation: string,
    lastUsedDate: Option<int>,
    remarks: string,
    createdDate: int,
    lastModifiedDate: int,
    lastModifiedBy: string)

  /** A bowl as `new Bowl()` builds it at time `now`. */
  function NewBowl(now: int): (b: Bowl)
    ensures b.category == RegularBowl && b.status == Available && b.weight == 0.0
    ensures b.bowlId == "" && b.bowlCode == "" && b.bowlType == "" && b.lastUsedDate.None?
    ensures b.createdDate == now && b.lastModifiedDate == now
  {
    Bowl("", "", RegularBowl, "", 0.0, Available, "", None, "", now, now, "")
  }

  function DisplayType(b: Bowl): string {
    if b.category == MixingBowl then "Mixing Bowl" else b.bowlType
  }

  /** A mixing bowl shows as such whatever its type; any other bowl shows its type. */
  lemma DisplayTypeSpec(b: Bowl, t: string)
    ensures DisplayType(b.(category := MixingBowl, bowlType := t)) == MixingBowl
    ensures b.category != MixingBowl ==> DisplayType(b.(bowlType := t)) == t
    ensures DisplayType(NewBowl(0).(bowlType := t)) == t
  {
  }

  function StatusColor(status: string): string {
    if status == Available then "success"
    else if status == InUse then "primary"
    else if status == Dirty then "warning"
    else if status == Maintenance then "danger"
    else "secondary"
  }

  function GetAllCategories(): (r: seq<string>)
    ensures |r| == 2 && r[0] != r[1]
    ensures forall c :: c in r <==> c == RegularBowl || c == MixingBowl
  {
    [RegularBowl, MixingBowl]
  }

  function GetAllStatuses(): (r: seq<string>)
    ensures |r| == 4 && forall i, j :: 0 <= i < j < |r| ==> r[i] != r[j]
    ensures forall s :: s in r <==> s == Available || s == InUse || s == Dirty || s == Maintenance
  {
    [Available, InUse, Dirty, Maintenance]
  }

  function GetAllTypes(): (r: seq<string>)
    ensures |r| == 4 && forall i, j :: 0 <= i < j < |r| ==> r[i] != r[j]
    ensures forall t :: t in r <==> t == Large || t == Medium || t == Small || t == NotApplicable
  {
    [Large, Medium, Small, NotApplicable]
  }

  /**
   * The listed statuses get four different colours, none of them the
   * fallback, and every other status gets the fallback; so the colour
   * tells the status back.
   */
  lemma StatusColorSpec(s: string, t: string)
    ensures forall i, j :: 0 <= i < j < |GetAllStatuses()| ==>
      StatusColor(GetAllStatuses()[i]) != StatusColor(GetAllStatuses()[j])
    ensures s in GetAllStatuses() <==> StatusColor(s) != "secondary"
    ensures s in GetAllStatuses() && StatusColor(s) == StatusColor(t) ==> s == t
  {
  }
}
