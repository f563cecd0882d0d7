/**
 * The host client's skill enumeration, Java's 32-bit `int`, and the
 * lower-casing used to compare skill names with the user's filter.
 */
module Skills {

  /** The host's skills in declaration (ordinal) order; OVERALL comes last. */
  datatype Skill =
    | Attack | Defence | Strength | Hitpoints | Ranged | Prayer | Magic
    | Cooking | Woodcutting | Fletching | Fishing | Firemaking | Crafting
    | Smithing | Mining | Herblore | Agility | Thieving | Slayer | Farming
    | Runecraft | Hunter | Construction | Overall

  /** Number of entries in the plugin's last-known-experience table:
      every skill except OVERALL. */
  const TrackedSkills: nat := 23

  function Ordinal(s: Skill): (n: nat)
    ensures n < TrackedSkills <==> s != Overall
  {
    match s
    case Attack => 0       case Defence => 1     case Strength => 2
    case Hitpoints => 3    case Ranged => 4      case Prayer => 5
    case Magic => 6        case Cooking => 7     case Woodcutting => 8
    case Fletching => 9    case Fishing => 10    case Firemaking => 11
    case Crafting => 12    case Smithing => 13   case Mining => 14
    case Herblore => 15    case Agility => 16    case Thieving => 17
    case Slayer => 18      case Farming => 19    case Runecraft => 20
    case Hunter => 21      case Construction => 22
    case Overall => 23
  }

  /** Distinct skills have distinct ordinals, so distinct table entries. */
  lemma OrdinalInjective(s: Skill, t: Skill)
    requires Ordinal(s) == Ordinal(t)
    ensures s == t
  {
  }

  /** The display name the host reports for a skill (`Skill.getName`). */
  function Name(s: Skill): string
  {
    match s
    case Attack => "Attack"           case Defence => "Defence"
    case Strength => "Strength"       case Hitpoints => "Hitpoints"
    case Ranged => "Ranged"           case Prayer => "Prayer"
    case Magic => "Magic"             case Cooking => "Cooking"
    case Woodcutting => "Woodcutting" case Fletching => "Fletching"
    case Fishing => "Fishing"         case Firemaking => "Firemaking"
    case Crafting => "Crafting"       case Smithing => "Smithing"
    case Mining => "Mining"           case Herblore => "Herblore"
    case Agility => "Agility"         case Thieving => "Thieving"
    case Slayer => "Slayer"           case Farming => "Farming"
    case Runecraft => "Runecraft"     case Hunter => "Hunter"
    case Construction => "Construction"
    case Overall => "Overall"
  }

  /** Java's `int`. */
  type Int32 = x: int | -0x8000_0000 <= x < 0x8000_0000

  /** Two's-complement wrap-around of a mathematical integer into an `int`. */
  function Wrap32(v: int): (r: Int32)
    ensures (r - v) % 0x1_0000_0000 == 0
    ensures -0x8000_0000 <= v < 0x8000_0000 ==> r == v
  {
    (v + 0x8000_0000) % 0x1_0000_0000 - 0x8000_0000
  }

  function LowerChar(c: char): char
  {
    if 'A' <= c <= 'Z' then (c as int + 32) as char else c
  }

  /** `String.toLowerCase`, restricted to ASCII letters. */
  function Lower(s: string): (r: string)
    ensures |r| == |s|
  {
    seq(|s|, i requires 0 <= i < |s| => LowerChar(s[i]))
  }

  /** The key under which a skill is looked up in the filter set: its
      display name, lower-cased (see `FilterKeyIsLowerCasedName`). */
  function FilterKey(s: Skill): string
  {
    match s
    case Attack => "attack"           case Defence => "defence"
    case Strength => "strength"       case Hitpoints => "hitpoints"
    case Ranged => "ranged"           case Prayer => "prayer"
    case Magic => "magic"             case Cooking => "cooking"
    case Woodcutting => "woodcutting" case Fletching => "fletching"
    case Fishing => "fishing"         case Firemaking => "firemaking"
    case Crafting => "crafting"       case Smithing => "smithing"
    case Mining => "mining"           case Herblore => "herblore"
    case Agility => "agility"         case Thieving => "thieving"
    case Slayer => "slayer"           case Farming => "farming"
    case Runecraft => "runecraft"     case Hunter => "hunter"
    case Construction => "construction"
    case Overall => "overall"
  }

  /** The filter key is the host's display name lower-cased. */
  lemma FilterKeyIsLowerCasedName(s: Skill)
    ensures FilterKey(s) == Lower(Name(s))
  {
    var n := Ordinal(s);
    if n < 6 { LowerCasedNames0(s); }
    else if n < 12 { LowerCasedNames1(s); }
    else if n < 18 { LowerCasedNames2(s); }
    else { LowerCasedNames3(s); }
  }

  // The same fact for six skills at a time, which keeps each proof small.

  lemma LowerCasedNames0(s: Skill)
    requires 0 <= Ordinal(s) < 6
    ensures FilterKey(s) == Lower(Name(s))
  {
  }

  lemma LowerCasedNames1(s: Skill)
    requires 6 <= Ordinal(s) < 12
    ensures FilterKey(s) == Lower(Name(s))
  {
  }

  lemma LowerCasedNames2(s: Skill)
    requires 12 <= Ordinal(s) < 18
    ensures FilterKey(s) == Lower(Name(s))
  {
  }

  lemma LowerCasedNames3(s: Skill)
    requires 18 <= Ordinal(s) < 24
    ensures FilterKey(s) == Lower(Name(s))
  {
  }
}
