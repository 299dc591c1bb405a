/** The amenities section of the location drawer: six yes/no tiles in a
    fixed order and three labelled rows. */
module Amenities {
  import opened Js
  import opened Locations

  /** One yes/no amenity: its icon and the texts for each answer. */
  datatype AmenityKind = AmenityKind(icon: string, availableText: string, unavailableText: string)

  /** The six tiles, in the order they are laid out. */
  const Catalog: seq<AmenityKind> := [
    AmenityKind("wifi", "Wifi Available", "No Wifi"),
    AmenityKind("power", "Outlets Available", "No Outlets"),
    AmenityKind("fast-food-outline", "Food & Drink Allowed", "Food & Drink Not Allowed"),
    AmenityKind("pencil-outline", "Whiteboards Available", "No Whiteboards"),
    AmenityKind("people-outline", "Good for Group Work", "Not Good for Group Work"),
    AmenityKind("card-outline", "ID Required", "No ID Required")]

  /** The location's flags in the order of `Catalog`. */
  function Flags(loc: Location): (r: seq<bool>)
    ensures |r| == |Catalog|
  {
    [loc.wifi, loc.outlets, loc.foodDrink, loc.whiteboards, loc.groupWork, loc.idRequired]
  }

  /** A rendered tile. */
  datatype Tile = Tile(icon: string, isAvailable: bool, text: string)

  function TileFor(kind: AmenityKind, flag: bool): (t: Tile)
    ensures t.icon == kind.icon && t.isAvailable == flag
    ensures t.text == (if flag then kind.availableText else kind.unavailableText)
  {
    Tile(kind.icon, flag, if flag then kind.availableText else kind.unavailableText)
  }

  /** The six tiles of a location. */
  function Tiles(loc: Location): (r: seq<Tile>)
    ensures |r| == |Catalog|
    ensures forall i :: 0 <= i < |r| ==> r[i] == TileFor(Catalog[i], Flags(loc)[i])
  {
    seq(|Catalog|, i requires 0 <= i < |Catalog| => TileFor(Catalog[i], Flags(loc)[i]))
  }

  /** The two texts of every tile differ. */
  lemma TextsDiffer(i: nat)
    requires i < |Catalog|
    ensures Catalog[i].availableText != Catalog[i].unavailableText
  {
    var k := Catalog[i];
    assert |k.availableText| != |k.unavailableText|;
  }

  /** Reading the flags back from the texts shown. */
  function FlagsShown(tiles: seq<Tile>): (r: seq<bool>)
    requires |tiles| == |Catalog|
    ensures |r| == |tiles|
  {
    seq(|tiles|, i requires 0 <= i < |tiles| => tiles[i].text == Catalog[i].availableText)
  }

  /** The tiles say each of the six flags, in order: the location's flags
      can be read back from the texts alone. */
  lemma TilesShowFlags(loc: Location)
    ensures FlagsShown(Tiles(loc)) == Flags(loc)
  {
    forall i | 0 <= i < |Catalog|
      ensures FlagsShown(Tiles(loc))[i] == Flags(loc)[i]
    {
      TextsDiffer(i);
    }
  }

  /** A labelled row. */
  datatype LabeledRow = LabeledRow(caption: string, icon: string, value: Option<string>)

  const Mixed := "Mixed"
  const MixedShown := "Individual and Shared"

  /** The value shown for `tables`: "Mixed" is spelled out, anything else
      (also a missing value) is shown as it is. */
  function TablesLabel(tables: Option<string>): (r: Option<string>)
    ensures tables == Some(Mixed) ==> r == Some(MixedShown)
    ensures tables != Some(Mixed) ==> r == tables
  {
    if tables == Some(Mixed) then Some(MixedShown) else tables
  }

  /** "Mixed" is never displayed. */
  lemma MixedNeverShown(tables: Option<string>)
    ensures TablesLabel(tables) != Some(Mixed)
  {
    if tables == Some(Mixed) {
      assert MixedShown != Mixed by { assert |MixedShown| != |Mixed|; }
    }
  }

  /** The relabelling is one-to-one except that "Mixed" and
      "Individual and Shared" look the same. */
  lemma TablesLabelCollisions(a: Option<string>, b: Option<string>)
    requires a != b && TablesLabel(a) == TablesLabel(b)
    ensures {a, b} == {Some(Mixed), Some(MixedShown)}
  {
  }

  /** The section, or nothing for a missing location. */
  datatype Section = Section(tiles: seq<Tile>, rows: seq<LabeledRow>)

  function SectionFor(location: Option<Location>): (r: Option<Section>)
    ensures r.Some? <==> location.Some?
    ensures r.Some? ==> r.value.tiles == Tiles(location.value)
    ensures r.Some? ==> (
      && |r.value.rows| == 3
      && r.value.rows[0] == LabeledRow("Lighting", "sunny", Some("Bright"))
      && r.value.rows[1] == LabeledRow("Noise Level", "volume-low", Some("Moderate"))
      && r.value.rows[2] == LabeledRow("Tables", "grid-outline", TablesLabel(location.value.tables)))
  {
    match location
    case None => None
    case Some(loc) =>
      Some(Section(Tiles(loc), [
        LabeledRow("Lighting", "sunny", Some("Bright")),
        LabeledRow("Noise Level", "volume-low", Some("Moderate")),
        LabeledRow("Tables", "grid-outline", TablesLabel(loc.tables))]))
  }

  /** Lighting and noise do not depend on the location; two locations'
      sections differ only where their flags or tables differ. */
  lemma SectionDependsOnFlagsAndTables(a: Location, b: Location)
    requires Flags(a) == Flags(b) && TablesLabel(a.tables) == TablesLabel(b.tables)
    ensures SectionFor(Some(a)) == SectionFor(Some(b))
  {
  }
}
