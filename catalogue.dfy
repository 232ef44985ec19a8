/** The crystal record of types.ts and the fixed catalogue of constants.tsx. */
module Catalogue {
  import opened Wrappers

  /** One catalogue entry; the optional fields are `?:` members in the source. */
  datatype Crystal = Crystal(
    id: string,
    name: string,
    chemicalFormula: Option<string>,
    color: seq<string>,
    hardness: Option<string>,
    chakra: Option<seq<string>>,
    zodiac: Option<seq<string>>,
    element: Option<seq<string>>,
    healingProperties: seq<string>,
    description: string,
    origin: Option<string>,
    imageUrl: string)

  // The name and healing properties of each entry are constants of their own:
  // they are what the catalogue filter searches.
  const AmethystName := "Amethyst"
  const AmethystHealing := ["Clarity", "Peace", "Protection"]

  const Amethyst := Crystal(
    "1", AmethystName, None, ["Purple", "Violet"], Some("7"), Some(["Third Eye", "Crown"]), None, None,
    AmethystHealing,
    "A purple variety of quartz often used in jewelry and for its purported healing properties.",
    None, "https://picsum.photos/seed/amethyst/600/400")

  const RoseQuartzName := "Rose Quartz"
  const RoseQuartzHealing := ["Love", "Compassion", "Emotional Healing"]

  const RoseQuartz := Crystal(
    "2", RoseQuartzName, None, ["Pink"], Some("7"), Some(["Heart"]), None, None,
    RoseQuartzHealing,
    "The stone of universal love. It restores trust and harmony in relationships.",
    None, "https://picsum.photos/seed/rosequartz/600/400")

  const CitrineName := "Citrine"
  const CitrineHealing := ["Abundance", "Joy", "Manifestation"]

  const Citrine := Crystal(
    "3", CitrineName, None, ["Yellow", "Gold"], Some("7"), Some(["Solar Plexus", "Sacral"]), None, None,
    CitrineHealing,
    "Energizing and life-giving, Citrine is the stone of the summer.",
    None, "https://picsum.photos/seed/citrine/600/400")

  const ClearQuartzName := "Clear Quartz"
  const ClearQuartzHealing := ["Master Healer", "Energy Amplification"]

  const ClearQuartz := Crystal(
    "4", ClearQuartzName, None, ["Clear", "White"], Some("7"), Some(["All"]), None, None,
    ClearQuartzHealing,
    "Known as the \"master healer,\" it will amplify energy and thought.",
    None, "https://picsum.photos/seed/clearquartz/600/400")

  const BlackTourmalineName := "Black Tourmaline"
  const BlackTourmalineHealing := ["Protection", "Grounding", "Stress Relief"]

  const BlackTourmaline := Crystal(
    "5", BlackTourmalineName, None, ["Black"], Some("7-7.5"), Some(["Root"]), None, None,
    BlackTourmalineHealing,
    "A powerful grounding stone, providing a connection between Earth and the human spirit.",
    None, "https://picsum.photos/seed/blacktourmaline/600/400")

  const LapisLazuliName := "Lapis Lazuli"
  const LapisLazuliHealing := ["Wisdom", "Truth", "Intuition"]

  const LapisLazuli := Crystal(
    "6", LapisLazuliName, None, ["Deep Blue"], Some("5-5.5"), Some(["Third Eye", "Throat"]), None, None,
    LapisLazuliHealing,
    "A deep-blue metamorphic rock used as a semi-precious stone that has been prized since antiquity.",
    None, "https://picsum.photos/seed/lapis/600/400")

  /** `INITIAL_CRYSTALS`, in source order. */
  const InitialCrystals: seq<Crystal> :=
    [Amethyst, RoseQuartz, Citrine, ClearQuartz, BlackTourmaline, LapisLazuli]

  /** The fields every catalogue entry fills in. */
  predicate WellFormed(c: Crystal) {
    c.name != [] && c.color != [] && c.healingProperties != [] && c.chakra.Some? && c.hardness.Some?
  }

  /** Ids of a list of entries, in order. */
  function Ids(cs: seq<Crystal>): (r: seq<string>)
    ensures |r| == |cs|
    ensures forall i :: 0 <= i < |cs| ==> r[i] == cs[i].id
  {
    if cs == [] then [] else [cs[0].id] + Ids(cs[1..])
  }

  /** The catalogue holds six entries with ids "1" to "6", pairwise distinct,
      each with a name, colours, healing properties, a chakra list and a hardness. */
  lemma InitialCatalogueShape()
    ensures |InitialCrystals| == 6
    ensures Ids(InitialCrystals) == ["1", "2", "3", "4", "5", "6"]
    ensures forall i, j :: 0 <= i < j < |InitialCrystals| ==> InitialCrystals[i].id != InitialCrystals[j].id
    ensures forall c :: c in InitialCrystals ==> WellFormed(c)
  {
    CatalogueIds();
    CatalogueWellFormed();
  }

  /** The id half of InitialCatalogueShape. */
  lemma CatalogueIds()
    ensures |InitialCrystals| == 6
    ensures Ids(InitialCrystals) == ["1", "2", "3", "4", "5", "6"]
    ensures forall i, j :: 0 <= i < j < |InitialCrystals| ==> InitialCrystals[i].id != InitialCrystals[j].id
  {
    var ids := Ids(InitialCrystals);
    assert ids == [Amethyst.id, RoseQuartz.id, Citrine.id, ClearQuartz.id, BlackTourmaline.id, LapisLazuli.id];
    assert ids == ["1", "2", "3", "4", "5", "6"];
    forall i, j | 0 <= i < j < |ids|
      ensures ids[i] != ids[j]
    {
      assert ids[i][0] != ids[j][0];
    }
  }

  /** The field half of InitialCatalogueShape. */
  lemma CatalogueWellFormed()
    ensures forall c :: c in InitialCrystals ==> WellFormed(c)
  {
    assert WellFormed(Amethyst) && WellFormed(RoseQuartz) && WellFormed(Citrine);
    assert WellFormed(ClearQuartz) && WellFormed(BlackTourmaline) && WellFormed(LapisLazuli);
  }
}
