/** The geography tables: which region each country code belongs to, and
    which countries each region lists (region.go). Both are package-level
    tables the package never writes, modelled here by their initial
    contents. Both lookups are total, falling back to the "global" region
    or to an empty list for codes the tables do not know. */
module Geography {
  import opened Sequences

  /** A region code such as "south-asia". */
  type Region = string

  /** A country code, ISO 3166-1 alpha-2, or the sentinel "GLOBAL". */
  type Country = string

  const RegionSouthAsia: Region := "south-asia"
  const RegionSoutheastAsia: Region := "southeast-asia"
  const RegionEastAsia: Region := "east-asia"
  const RegionNorthAmerica: Region := "north-america"
  const RegionEurope: Region := "europe"
  const RegionMiddleEast: Region := "middle-east"
  const RegionAfrica: Region := "africa"
  const RegionOceania: Region := "oceania"
  const RegionLatinAmerica: Region := "latin-america"
  const RegionGlobal: Region := "global"

  const CountryNepal: Country := "NP"
  const CountryIndia: Country := "IN"
  const CountryPakistan: Country := "PK"
  const CountryBangladesh: Country := "BD"
  const CountrySriLanka: Country := "LK"
  const CountrySingapore: Country := "SG"
  const CountryMalaysia: Country := "MY"
  const CountryIndonesia: Country := "ID"
  const CountryThailand: Country := "TH"
  const CountryPhilippines: Country := "PH"
  const CountryVietnam: Country := "VN"
  const CountryChina: Country := "CN"
  const CountryJapan: Country := "JP"
  const CountrySouthKorea: Country := "KR"
  const CountryUSA: Country := "US"
  const CountryCanada: Country := "CA"
  const CountryMexico: Country := "MX"
  const CountryUK: Country := "GB"
  const CountryGermany: Country := "DE"
  const CountryFrance: Country := "FR"
  const CountrySpain: Country := "ES"
  const CountryItaly: Country := "IT"
  const CountryUAE: Country := "AE"
  const CountrySaudiArabia: Country := "SA"
  const CountryNigeria: Country := "NG"
  const CountrySouthAfrica: Country := "ZA"
  const CountryKenya: Country := "KE"
  const CountryAustralia: Country := "AU"
  const CountryNewZealand: Country := "NZ"
  const CountryBrazil: Country := "BR"
  const CountryArgentina: Country := "AR"
  const CountryGlobal: Country := "GLOBAL"

  /** Region -> the countries it lists, in the table's order. */
  const RegionMap: map<Region, seq<Country>> := map[
    "south-asia" := ["NP", "IN", "PK", "BD", "LK"],
    "southeast-asia" := ["SG", "MY", "ID", "TH", "PH", "VN"],
    "east-asia" := ["CN", "JP", "KR"],
    "north-america" := ["US", "CA", "MX"],
    "europe" := ["GB", "DE", "FR", "ES", "IT"],
    "middle-east" := ["AE", "SA"],
    "africa" := ["NG", "ZA", "KE"],
    "oceania" := ["AU", "NZ"],
    "latin-america" := ["BR", "AR"]
  ]

  /** Country -> its region. */
  const CountryToRegion: map<Country, Region> := map[
    "NP" := "south-asia", "IN" := "south-asia", "PK" := "south-asia",
    "BD" := "south-asia", "LK" := "south-asia",
    "SG" := "southeast-asia", "MY" := "southeast-asia", "ID" := "southeast-asia",
    "TH" := "southeast-asia", "PH" := "southeast-asia", "VN" := "southeast-asia",
    "CN" := "east-asia", "JP" := "east-asia", "KR" := "east-asia",
    "US" := "north-america", "CA" := "north-america", "MX" := "north-america",
    "GB" := "europe", "DE" := "europe", "FR" := "europe", "ES" := "europe", "IT" := "europe",
    "AE" := "middle-east", "SA" := "middle-east",
    "NG" := "africa", "ZA" := "africa", "KE" := "africa",
    "AU" := "oceania", "NZ" := "oceania",
    "BR" := "latin-america", "AR" := "latin-america"
  ]

  /** The region of a country; every code the table does not list is "global". */
  function GetRegion(country: Country): (region: Region)
    ensures region == RegionGlobal || region in RegionMap
    ensures region != RegionGlobal <==> country in CountryToRegion
    ensures region != RegionGlobal ==> country in RegionMap[region]
  {
    if country in CountryToRegion then CountryToRegion[country] else RegionGlobal
  }

  /** The countries a region lists, each once; empty for an unknown region and for "global". */
  function GetCountriesInRegion(region: Region): (countries: seq<Country>)
    ensures forall c :: c in countries <==> region != RegionGlobal && GetRegion(c) == region
    ensures Distinct(countries)
  {
    ListedCountriesMapBack();
    if region in RegionMap then RegionListDistinct(region); RegionMap[region] else []
  }

  /** The two tables describe the same assignment: a region lists a country
      exactly when the country maps to that region. */
  lemma TablesAgree()
    ensures forall r, c :: r in RegionMap ==>
      (c in RegionMap[r] <==> c in CountryToRegion && CountryToRegion[c] == r)
    ensures forall c :: c in CountryToRegion ==> CountryToRegion[c] in RegionMap
  {
    ListedCountriesMapBack();
    forall c | c in CountryToRegion
      ensures CountryToRegion[c] in RegionMap && c in RegionMap[CountryToRegion[c]]
    {
      // GetRegion's contract names the region and its list for c.
      assert GetRegion(c) == CountryToRegion[c];
    }
  }

  /** No country is listed under two regions. */
  lemma RegionsDisjoint()
    ensures forall r1, r2, c :: r1 in RegionMap && r2 in RegionMap && c in RegionMap[r1] && c in RegionMap[r2] ==> r1 == r2
  {
    forall r1, r2, c | r1 in RegionMap && r2 in RegionMap && c in RegionMap[r1] && c in RegionMap[r2]
      ensures r1 == r2
    {
      RegionMapsBack(r1);
      RegionMapsBack(r2);
    }
  }

  /** No region lists a country twice. */
  lemma RegionListsDistinct()
    ensures forall r :: r in RegionMap ==> Distinct(RegionMap[r])
  {
    forall r | r in RegionMap
      ensures Distinct(RegionMap[r])
    {
      RegionListDistinct(r);
    }
  }

  lemma RegionListDistinct(r: Region)
    requires r in RegionMap
    ensures Distinct(RegionMap[r])
  {
    if r == RegionSouthAsia {
      assert RegionMap[r] == ["NP", "IN", "PK", "BD", "LK"];
    } else if r == RegionSoutheastAsia {
      assert RegionMap[r] == ["SG", "MY", "ID", "TH", "PH", "VN"];
    } else if r == RegionEastAsia {
      assert RegionMap[r] == ["CN", "JP", "KR"];
    } else if r == RegionNorthAmerica {
      assert RegionMap[r] == ["US", "CA", "MX"];
    } else if r == RegionEurope {
      assert RegionMap[r] == ["GB", "DE", "FR", "ES", "IT"];
    } else if r == RegionMiddleEast {
      assert RegionMap[r] == ["AE", "SA"];
    } else if r == RegionAfrica {
      assert RegionMap[r] == ["NG", "ZA", "KE"];
    } else if r == RegionOceania {
      assert RegionMap[r] == ["AU", "NZ"];
    } else {
      assert RegionMap[r] == ["BR", "AR"];
    }
  }

  /** The mappings the package's tests check. */
  lemma KnownRegions()
    ensures GetRegion(CountryNepal) == RegionSouthAsia
    ensures GetRegion(CountryIndia) == RegionSouthAsia
    ensures GetRegion(CountryUSA) == RegionNorthAmerica
    ensures GetRegion(CountrySingapore) == RegionSoutheastAsia
    ensures GetRegion(CountryUK) == RegionEurope
    ensures CountryNepal in GetCountriesInRegion(RegionSouthAsia)
  {
    assert CountryToRegion[CountryNepal] == RegionSouthAsia;
    assert CountryToRegion[CountryIndia] == RegionSouthAsia;
    assert CountryToRegion[CountryUSA] == RegionNorthAmerica;
    assert CountryToRegion[CountrySingapore] == RegionSoutheastAsia;
    assert CountryToRegion[CountryUK] == RegionEurope;
  }

  /** The "GLOBAL" code has no region of its own. */
  lemma GlobalCountryFallback()
    ensures GetRegion(CountryGlobal) == RegionGlobal
  {
    assert |CountryGlobal| == 6;
    assert CountryGlobal !in CountryToRegion;
  }

  /** The global region lists no country. */
  lemma GlobalRegionFallback()
    ensures GetCountriesInRegion(RegionGlobal) == []
  {
    assert forall r :: r in RegionMap ==> r[0] != 'g';
  }

  /** Every country listed under a region maps back to that region. */
  lemma ListedCountriesMapBack()
    ensures forall r, c :: r in RegionMap && c in RegionMap[r] ==> c in CountryToRegion && CountryToRegion[c] == r
  {
    forall r | r in RegionMap
      ensures forall c :: c in RegionMap[r] ==> c in CountryToRegion && CountryToRegion[c] == r
    {
      RegionMapsBack(r);
    }
  }

  /** One region at a time: its listed countries map back to it. */
  lemma RegionMapsBack(r: Region)
    requires r in RegionMap
    ensures forall c :: c in RegionMap[r] ==> c in CountryToRegion && CountryToRegion[c] == r
  {
    if r == RegionSouthAsia {
      SouthAsiaMapsBack();
    } else if r == RegionSoutheastAsia {
      SoutheastAsiaMapsBack();
    } else if r == RegionEastAsia {
      EastAsiaMapsBack();
    } else if r == RegionNorthAmerica {
      NorthAmericaMapsBack();
    } else if r == RegionEurope {
      EuropeMapsBack();
    } else if r == RegionMiddleEast {
      MiddleEastMapsBack();
    } else if r == RegionAfrica {
      AfricaMapsBack();
    } else if r == RegionOceania {
      OceaniaMapsBack();
    } else {
      LatinAmericaMapsBack();
    }
  }

  lemma SouthAsiaMapsBack()
    ensures forall c :: c in RegionMap[RegionSouthAsia] ==> c in CountryToRegion && CountryToRegion[c] == RegionSouthAsia
  {
  }

  lemma SoutheastAsiaMapsBack()
    ensures forall c :: c in RegionMap[RegionSoutheastAsia] ==> c in CountryToRegion && CountryToRegion[c] == RegionSoutheastAsia
  {
  }

  lemma EastAsiaMapsBack()
    ensures forall c :: c in RegionMap[RegionEastAsia] ==> c in CountryToRegion && CountryToRegion[c] == RegionEastAsia
  {
  }

  lemma NorthAmericaMapsBack()
    ensures forall c :: c in RegionMap[RegionNorthAmerica] ==> c in CountryToRegion && CountryToRegion[c] == RegionNorthAmerica
  {
  }

  lemma EuropeMapsBack()
    ensures forall c :: c in RegionMap[RegionEurope] ==> c in CountryToRegion && CountryToRegion[c] == RegionEurope
  {
  }

  lemma MiddleEastMapsBack()
    ensures forall c :: c in RegionMap[RegionMiddleEast] ==> c in CountryToRegion && CountryToRegion[c] == RegionMiddleEast
  {
  }

  lemma AfricaMapsBack()
    ensures forall c :: c in RegionMap[RegionAfrica] ==> c in CountryToRegion && CountryToRegion[c] == RegionAfrica
  {
  }

  lemma OceaniaMapsBack()
    ensures forall c :: c in RegionMap[RegionOceania] ==> c in CountryToRegion && CountryToRegion[c] == RegionOceania
  {
  }

  lemma LatinAmericaMapsBack()
    ensures forall c :: c in RegionMap[RegionLatinAmerica] ==> c in CountryToRegion && CountryToRegion[c] == RegionLatinAmerica
  {
  }
}
