/**
 * The static city table: 44 King County municipality names, each mapped to
 * the integer code that the trained model and the medians table were built
 * against.
 */
module CityCodes {

  import opened Wrappers

  /** The number of municipalities in the table. */
  const CityCount: nat := 44

  /**
   * The `city_mapping` dictionary read as a function: the code of `city`, or
   * None where indexing the dictionary with `city` raises KeyError.
   */
  function CityCode(city: string): (code: Option<int>)
    ensures code.Some? ==> 1 <= code.value <= CityCount
  {
    match city
    case "Shoreline" => Some(1)
    case "Kent" => Some(2)
    case "Bellevue" => Some(3)
    case "Redmond" => Some(4)
    case "Seattle" => Some(5)
    case "Maple Valley" => Some(6)
    case "North Bend" => Some(7)
    case "Lake Forest Park" => Some(8)
    case "Sammamish" => Some(9)
    case "Auburn" => Some(10)
    case "Des Moines" => Some(11)
    case "Bothell" => Some(12)
    case "Federal Way" => Some(13)
    case "Kirkland" => Some(14)
    case "Issaquah" => Some(15)
    case "Woodinville" => Some(16)
    case "Normandy Park" => Some(17)
    case "Fall City" => Some(18)
    case "Renton" => Some(19)
    case "Carnation" => Some(20)
    case "Snoqualmie" => Some(21)
    case "Duvall" => Some(22)
    case "Burien" => Some(23)
    case "Covington" => Some(24)
    case "Inglewood-Finn Hill" => Some(25)
    case "Kenmore" => Some(26)
    case "Newcastle" => Some(27)
    case "Black Diamond" => Some(28)
    case "Ravensdale" => Some(29)
    case "Clyde Hill" => Some(30)
    case "Algona" => Some(31)
    case "Mercer Island" => Some(32)
    case "Skykomish" => Some(33)
    case "Tukwila" => Some(34)
    case "Vashon" => Some(35)
    case "SeaTac" => Some(36)
    case "Enumclaw" => Some(37)
    case "Snoqualmie Pass" => Some(38)
    case "Pacific" => Some(39)
    case "Beaux Arts Village" => Some(40)
    case "Preston" => Some(41)
    case "Milton" => Some(42)
    case "Yarrow Point" => Some(43)
    case "Medina" => Some(44)
    case _ => None
  }

  /**
   * The inverse table: the name holding `code`, or None for a number that is
   * no city's code.
   */
  function CityName(code: int): Option<string>
  {
    match code
    case 1 => Some("Shoreline")
    case 2 => Some("Kent")
    case 3 => Some("Bellevue")
    case 4 => Some("Redmond")
    case 5 => Some("Seattle")
    case 6 => Some("Maple Valley")
    case 7 => Some("North Bend")
    case 8 => Some("Lake Forest Park")
    case 9 => Some("Sammamish")
    case 10 => Some("Auburn")
    case 11 => Some("Des Moines")
    case 12 => Some("Bothell")
    case 13 => Some("Federal Way")
    case 14 => Some("Kirkland")
    case 15 => Some("Issaquah")
    case 16 => Some("Woodinville")
    case 17 => Some("Normandy Park")
    case 18 => Some("Fall City")
    case 19 => Some("Renton")
    case 20 => Some("Carnation")
    case 21 => Some("Snoqualmie")
    case 22 => Some("Duvall")
    case 23 => Some("Burien")
    case 24 => Some("Covington")
    case 25 => Some("Inglewood-Finn Hill")
    case 26 => Some("Kenmore")
    case 27 => Some("Newcastle")
    case 28 => Some("Black Diamond")
    case 29 => Some("Ravensdale")
    case 30 => Some("Clyde Hill")
    case 31 => Some("Algona")
    case 32 => Some("Mercer Island")
    case 33 => Some("Skykomish")
    case 34 => Some("Tukwila")
    case 35 => Some("Vashon")
    case 36 => Some("SeaTac")
    case 37 => Some("Enumclaw")
    case 38 => Some("Snoqualmie Pass")
    case 39 => Some("Pacific")
    case 40 => Some("Beaux Arts Village")
    case 41 => Some("Preston")
    case 42 => Some("Milton")
    case 43 => Some("Yarrow Point")
    case 44 => Some("Medina")
    case _ => None
  }

  /** Decoding a code gives back the city that was encoded. */
  lemma CodeDecodesToCity(city: string)
    ensures CityCode(city).Some? ==> CityName(CityCode(city).value) == Some(city)
  {
  }

  /** Every number in 1..44, and no other, is some city's code. */
  lemma CodesAreOneToCityCount(code: int)
    ensures CityName(code).Some? <==> 1 <= code <= CityCount
  {
  }

  /** Encoding the city a code names gives the code back. */
  lemma CityEncodesToCode(code: int)
    ensures CityName(code).Some? ==> CityCode(CityName(code).value) == Some(code)
  {
    if code <= 22 {
      LowCitiesEncodeToCode(code);
    } else {
      HighCitiesEncodeToCode(code);
    }
  }

  /**
   * CityEncodesToCode for the codes up to 22. The range is split in two halves
   * only to keep each proof obligation small for the solver.
   */
  lemma LowCitiesEncodeToCode(code: int)
    requires code <= 22
    ensures CityName(code).Some? ==> CityCode(CityName(code).value) == Some(code)
  {
  }

  /** CityEncodesToCode for the codes above 22 (the other half of the split). */
  lemma HighCitiesEncodeToCode(code: int)
    requires code > 22
    ensures CityName(code).Some? ==> CityCode(CityName(code).value) == Some(code)
  {
  }

  /** No two cities share a code. */
  lemma CityCodeInjective(a: string, b: string)
    requires CityCode(a).Some? && CityCode(a) == CityCode(b)
    ensures a == b
  {
    CodeDecodesToCity(a);
    CodeDecodesToCity(b);
  }

  /** The values of `city_mapping` are exactly the numbers 1..44. */
  lemma CityMappingValues(code: int)
    ensures 1 <= code <= CityCount <==> exists city :: CityCode(city) == Some(code)
  {
    CodesAreOneToCityCount(code);
    CityEncodesToCode(code);
    if 1 <= code <= CityCount {
      assert CityCode(CityName(code).value) == Some(code);
    }
  }
}
