/**
 * Combat-style tags for drops: which style-granting prayer is active, and
 * whether that style applies to the skill a drop is for.
 */
module Styles {
  import opened Wrappers
  import opened Skills

  datatype XpDropStyle = Default | Melee | Range | Mage

  /** A host prayer identifier. */
  datatype Prayer = Prayer(id: nat)

  /** An entry of the plugin's style-granting prayer enumeration: the host
      prayer and the style it grants. */
  datatype XpPrayer = XpPrayer(prayer: Prayer, style: XpDropStyle)

  /** The style of the first prayer in `prayers` that is active, if any.
      Specifies the enumeration scan done by the plugin. */
  function FirstActiveStyle(prayers: seq<XpPrayer>, active: set<Prayer>): (r: Option<XpDropStyle>)
    decreases |prayers|
  {
    if prayers == [] then None
    else if prayers[0].prayer in active then Some(prayers[0].style)
    else FirstActiveStyle(prayers[1..], active)
  }

  /** Index of a prayer that is active while every earlier one is not. */
  ghost predicate IsFirstActive(prayers: seq<XpPrayer>, active: set<Prayer>, i: int)
  {
    0 <= i < |prayers| && prayers[i].prayer in active &&
    forall j :: 0 <= j < i ==> prayers[j].prayer !in active
  }

  /** The scan finds nothing exactly when no prayer is active, and otherwise
      yields the style of the first active prayer in enumeration order. */
  lemma {:induction false} FirstActiveStyleMeaning(prayers: seq<XpPrayer>, active: set<Prayer>)
    ensures FirstActiveStyle(prayers, active).None? <==>
            forall i :: 0 <= i < |prayers| ==> prayers[i].prayer !in active
    ensures FirstActiveStyle(prayers, active).Some? ==>
            exists i :: IsFirstActive(prayers, active, i) &&
                        FirstActiveStyle(prayers, active).value == prayers[i].style
    decreases |prayers|
  {
    if prayers != [] {
      FirstActiveStyleMeaning(prayers[1..], active);
      if prayers[0].prayer in active {
        assert IsFirstActive(prayers, active, 0);
      } else if FirstActiveStyle(prayers[1..], active).Some? {
        var i :| IsFirstActive(prayers[1..], active, i) &&
                 FirstActiveStyle(prayers[1..], active).value == prayers[1..][i].style;
        assert IsFirstActive(prayers, active, i + 1);
      } else {
        forall i | 0 <= i < |prayers| ensures prayers[i].prayer !in active {
          if i > 0 { assert prayers[i] == prayers[1..][i - 1]; }
        }
      }
    }
  }

  /** The style a drop for `skill` is shown with, given the active style:
      Magic takes MAGE, Ranged takes RANGE, Attack, Strength and Defence
      take MELEE; any other pairing is DEFAULT. */
  function StyleFor(skill: Skill, active: Option<XpDropStyle>): (r: XpDropStyle)
    ensures r != Default <==>
              (skill == Magic && active == Some(Mage)) ||
              (skill == Ranged && active == Some(Range)) ||
              ((skill == Attack || skill == Strength || skill == Defence) && active == Some(Melee))
    ensures r != Default ==> active == Some(r)
  {
    match skill
    case Magic => if active == Some(Mage) then Mage else Default
    case Ranged => if active == Some(Range) then Range else Default
    case Attack | Strength | Defence => if active == Some(Melee) then Melee else Default
    case _ => Default
  }
}
