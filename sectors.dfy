/** The static sector configuration (`SECTORS_CONFIG`) and the per-sector readings record. */
module Sectors {
  import opened Text

  datatype SectorProfile = SectorProfile(id: int, name: string, lat: real, lon: real, trafficBase: real)

  /** The live readings kept for one sector (the `readings` dict). */
  datatype Readings = Readings(pm25: real, pm10: real, no2: real, co: real, trafficIndex: real, windSpeed: real)

  const Config: map<int, SectorProfile> := map[
    1 := SectorProfile(1, "South Delhi Commercial", 28.5245, 77.2066, 0.75),
    2 := SectorProfile(2, "Gurgaon Industrial Hub", 28.4595, 77.0266, 0.45),
    3 := SectorProfile(3, "Noida Residential Sector", 28.5355, 77.3910, 0.35)
  ]

  /** The configured sector ids, in the dictionary's insertion order. */
  const ConfigIds: seq<int> := [1, 2, 3]

  /**
   * `SECTORS_CONFIG.get(sector_id, {}).get("name", "")`: the name every keyword test of the
   * classifier and the selector runs on. Each category keyword picks out exactly one sector,
   * and an unknown id gives a name that matches none of them.
   */
  function SectorName(sectorId: int): (name: string)
    ensures name == "" <==> sectorId !in Config
    ensures Contains(name, "Commercial") <==> sectorId == 1
    ensures Contains(name, "Industrial") <==> sectorId == 2
    ensures Contains(name, "Residential") <==> sectorId == 3
  {
    if sectorId == 1 then CommercialSector(); Config[1].name
    else if sectorId == 2 then IndustrialSector(); Config[2].name
    else if sectorId == 3 then ResidentialSector(); Config[3].name
    else ""
  }

  lemma ConfigIdsAreTheKeys()
    ensures forall id :: id in Config <==> id in ConfigIds
    ensures forall id :: id in Config ==> Config[id].id == id
    ensures forall id :: id in Config ==> 0.0 <= Config[id].trafficBase <= 1.0
  {
  }

  /** The configured sector names. */
  lemma SectorNames()
    ensures Config[1].name == "South Delhi Commercial"
    ensures Config[2].name == "Gurgaon Industrial Hub"
    ensures Config[3].name == "Noida Residential Sector"
  {
  }

  /** A name holding `keyword` at `at`, and lacking the first letters of the two other keywords. */
  lemma OnlyKeyword(name: string, keyword: string, at: int, other1: string, other2: string)
    requires OccursAt(name, keyword, at)
    requires |other1| > 0 && other1[0] !in name && |other2| > 0 && other2[0] !in name
    ensures Contains(name, keyword) && !Contains(name, other1) && !Contains(name, other2)
  {
    NotContainsByHead(name, other1);
    NotContainsByHead(name, other2);
  }

  /** Each configured sector carries exactly one of the three category keywords. */
  lemma CommercialSector()
    ensures Contains(Config[1].name, "Commercial")
    ensures !Contains(Config[1].name, "Industrial") && !Contains(Config[1].name, "Residential")
  {
    var name := "South Delhi Commercial";
    assert name[12..22] == "Commercial";
    OnlyKeyword(name, "Commercial", 12, "Industrial", "Residential");
    SectorNames();
  }

  lemma IndustrialSector()
    ensures Contains(Config[2].name, "Industrial")
    ensures !Contains(Config[2].name, "Commercial") && !Contains(Config[2].name, "Residential")
  {
    var name := "Gurgaon Industrial Hub";
    assert name[8..18] == "Industrial";
    OnlyKeyword(name, "Industrial", 8, "Commercial", "Residential");
    SectorNames();
  }

  lemma ResidentialSector()
    ensures Contains(Config[3].name, "Residential")
    ensures !Contains(Config[3].name, "Industrial") && !Contains(Config[3].name, "Commercial")
  {
    var name := "Noida Residential Sector";
    assert name[6..17] == "Residential";
    OnlyKeyword(name, "Residential", 6, "Industrial", "Commercial");
    SectorNames();
  }
}
