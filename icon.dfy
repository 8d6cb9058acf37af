/** The category icons: the table from icon names to glyphs, the list of
    available names, the validator with its fallback, the icon component and
    the emoji table. Lookups by name on the table are JavaScript property
    lookups, so they also see the names every object inherits. */
module Icon {

  import opened Wrappers
  import opened Collections
  import opened JsObject

  datatype Glyph =
    | UtensilsCrossed | Car | Gamepad2 | ShoppingBag | Heart | Home | GraduationCap | Plane
    | Coffee | Gift | Shirt | Smartphone | Book | Music | MoreHorizontal | DollarSign

  datatype IconEntry = IconEntry(name: string, glyph: Glyph)

  function EntryName(e: IconEntry): string { e.name }

  /** `iconMap`, in declaration order. */
  const IconMap: seq<IconEntry> := [
    IconEntry("UtensilsCrossed", UtensilsCrossed), IconEntry("Car", Car),
    IconEntry("Gamepad2", Gamepad2), IconEntry("ShoppingBag", ShoppingBag),
    IconEntry("Heart", Heart), IconEntry("Home", Home),
    IconEntry("GraduationCap", GraduationCap), IconEntry("Plane", Plane),
    IconEntry("Coffee", Coffee), IconEntry("Gift", Gift),
    IconEntry("Shirt", Shirt), IconEntry("Smartphone", Smartphone),
    IconEntry("Book", Book), IconEntry("Music", Music),
    IconEntry("MoreHorizontal", MoreHorizontal), IconEntry("DollarSign", DollarSign)]

  const Fallback: string := "DollarSign"

  /** `Object.keys(iconMap)`: the names in declaration order. */
  function AvailableIcons(): (r: seq<string>)
    ensures |r| == |IconMap|
    ensures forall i :: 0 <= i < |r| ==> r[i] == IconMap[i].name
  {
    KeysOf(IconMap, EntryName)
  }

  /** The own property of the table for `name`, if any. */
  function OwnGlyph(name: string): (r: Option<Glyph>)
    ensures r.Some? <==> name in AvailableIcons()
  {
    KeysOfIn(IconMap, EntryName, name);
    match FindKey(IconMap, EntryName, name)
    case None => None
    case Some(e) => Some(e.glyph)
  }

  /** The declared name of each glyph. */
  function NameOf(g: Glyph): string {
    match g
    case UtensilsCrossed => "UtensilsCrossed"
    case Car => "Car"
    case Gamepad2 => "Gamepad2"
    case ShoppingBag => "ShoppingBag"
    case Heart => "Heart"
    case Home => "Home"
    case GraduationCap => "GraduationCap"
    case Plane => "Plane"
    case Coffee => "Coffee"
    case Gift => "Gift"
    case Shirt => "Shirt"
    case Smartphone => "Smartphone"
    case Book => "Book"
    case Music => "Music"
    case MoreHorizontal => "MoreHorizontal"
    case DollarSign => "DollarSign"
  }

  lemma NameOfInjective()
    ensures forall g, h :: g != h ==> NameOf(g) != NameOf(h)
  {
  }

  /** The position of each glyph in the table. */
  function GlyphIndex(g: Glyph): nat {
    match g
    case UtensilsCrossed => 0
    case Car => 1
    case Gamepad2 => 2
    case ShoppingBag => 3
    case Heart => 4
    case Home => 5
    case GraduationCap => 6
    case Plane => 7
    case Coffee => 8
    case Gift => 9
    case Shirt => 10
    case Smartphone => 11
    case Book => 12
    case Music => 13
    case MoreHorizontal => 14
    case DollarSign => 15
  }

  /** Each entry is named after its glyph, and the glyphs sit at their positions. */
  lemma TableByGlyph()
    ensures |IconMap| == 16
    ensures forall i :: 0 <= i < 16 ==> IconMap[i].name == NameOf(IconMap[i].glyph)
    ensures forall i :: 0 <= i < 16 ==> GlyphIndex(IconMap[i].glyph) == i
  {
  }

  /** There are sixteen icons, one per glyph, each named once. */
  lemma AvailableIconsDistinct()
    ensures |AvailableIcons()| == 16
    ensures Distinct(AvailableIcons())
  {
    var names := AvailableIcons();
    TableByGlyph();
    NameOfInjective();
    forall i, j | 0 <= i < j < 16 ensures names[i] != names[j] {
      assert GlyphIndex(IconMap[i].glyph) != GlyphIndex(IconMap[j].glyph);
    }
  }

  /** Each name looks up the glyph declared with it. */
  lemma AvailableIconsExact()
    ensures forall i :: 0 <= i < |IconMap| ==> OwnGlyph(AvailableIcons()[i]) == Some(IconMap[i].glyph)
  {
    var names := AvailableIcons();
    AvailableIconsDistinct();
    forall i | 0 <= i < |IconMap| ensures OwnGlyph(names[i]) == Some(IconMap[i].glyph) {
      var k := FindIndex(IconMap, EntryName, names[i]).value;
      assert names[k] == names[i];
    }
  }

  /** The fallback is one of the icons. */
  lemma FallbackAvailable()
    ensures Fallback in AvailableIcons()
    ensures OwnGlyph(Fallback) == Some(DollarSign)
  {
    AvailableIconsExact();
    assert AvailableIcons()[15] == Fallback;
    assert IconMap[15].glyph == DollarSign;
  }

  // ---------------------------------------------------------------------
  // As written: `iconName in iconMap` and `iconMap[name]`.

  /** `isValidIcon`: `in` holds for the table's names and the inherited ones. */
  predicate IsValidIconAsWritten(name: string) {
    name in AvailableIcons() || IsInherited(name)
  }

  function GetValidIconNameAsWritten(name: string): (r: string)
    ensures IsValidIconAsWritten(name) ==> r == name
    ensures !IsValidIconAsWritten(name) ==> r == Fallback
  {
    if IsValidIconAsWritten(name) then name else Fallback
  }

  /** What the component draws: a glyph, or for an inherited name the
      inherited member itself, which is not an icon. */
  datatype Rendered = Drawn(glyph: Glyph) | PrototypeMember(name: string)

  /** `Icon` as written: `iconMap[name]` is truthy for the table's names and the
      inherited ones; only the rest fall back to DollarSign. */
  function IconAsWritten(name: string): (r: Rendered)
    ensures r.PrototypeMember? <==> name !in AvailableIcons() && IsInherited(name)
    ensures name in AvailableIcons() ==> r == Drawn(OwnGlyph(name).value)
    ensures !IsValidIconAsWritten(name) ==> r == Drawn(DollarSign)
  {
    match OwnGlyph(name)
    case Some(g) => Drawn(g)
    case None => if IsInherited(name) then PrototypeMember(name) else Drawn(DollarSign)
  }

  /** "toString" passes the validator although it is not an icon, and the
      component then draws no glyph for it. */
  lemma InheritedNameAccepted()
    ensures IsValidIconAsWritten("toString")
    ensures "toString" !in AvailableIcons()
    ensures GetValidIconNameAsWritten("toString") == "toString"
    ensures IconAsWritten(GetValidIconNameAsWritten("toString")) == PrototypeMember("toString")
  {
    assert IsInherited("toString");
    forall i | 0 <= i < 16 ensures AvailableIcons()[i] != "toString" {
      assert AvailableIcons()[i] == IconMap[i].name;
    }
  }

  // ---------------------------------------------------------------------
  // Own names only: what the validator is for.

  predicate IsValidIcon(name: string) {
    OwnGlyph(name).Some?
  }

  /** The name itself when it is an icon, DollarSign otherwise. */
  function GetValidIconName(name: string): (r: string)
    ensures r in AvailableIcons()
    ensures name in AvailableIcons() ==> r == name
    ensures name !in AvailableIcons() ==> r == Fallback
  {
    FallbackAvailable();
    if IsValidIcon(name) then name else Fallback
  }

  /** Validating a validated name changes nothing. */
  lemma GetValidIconNameIdempotent(name: string)
    ensures GetValidIconName(GetValidIconName(name)) == GetValidIconName(name)
  {
  }

  /** `Icon`: the glyph of the name, DollarSign when the table has none. */
  function IconOf(name: string): (g: Glyph)
    ensures name in AvailableIcons() ==> g == OwnGlyph(name).value
    ensures name !in AvailableIcons() ==> g == DollarSign
  {
    match OwnGlyph(name)
    case Some(g) => g
    case None => DollarSign
  }

  /** A validated name always draws its own glyph, and the two readings agree
      on every name that is not inherited. */
  lemma ValidatedNameDraws(name: string)
    ensures Drawn(IconOf(GetValidIconName(name))) == IconAsWritten(GetValidIconName(name))
    ensures !IsInherited(name) ==> IconAsWritten(name) == Drawn(IconOf(name))
    ensures !IsInherited(name) ==> GetValidIconNameAsWritten(name) == GetValidIconName(name)
  {
  }

  // ---------------------------------------------------------------------

  /** `iconToEmoji`. */
  function EmojiFor(g: Glyph): string {
    match g
    case UtensilsCrossed => "\U{1F37D}\U{FE0F}"
    case Car => "\U{1F697}"
    case Gamepad2 => "\U{1F3AE}"
    case ShoppingBag => "\U{1F6CD}\U{FE0F}"
    case Heart => "\U{2764}\U{FE0F}"
    case Home => "\U{1F3E0}"
    case GraduationCap => "\U{1F393}"
    case Plane => "\U{2708}\U{FE0F}"
    case Coffee => "\U{2615}"
    case Gift => "\U{1F381}"
    case Shirt => "\U{1F455}"
    case Smartphone => "\U{1F4F1}"
    case Book => "\U{1F4DA}"
    case Music => "\U{1F3B5}"
    case MoreHorizontal => "\U{22EF}"
    case DollarSign => "\U{1F4B0}"
  }

  /** Every icon has an emoji, and no two icons share one. */
  lemma EmojiForEveryIcon()
    ensures forall g :: EmojiFor(g) != ""
    ensures forall g, h :: g != h ==> EmojiFor(g) != EmojiFor(h)
  {
  }
}
