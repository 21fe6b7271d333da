/**
 * Image and flag lookups of the dashboard (`src/lib/images.ts`).
 *
 * The four tables are kept abstract: a lookup only depends on which keys a table
 * has and whether the value found is empty, so `ImageTables` carries the tables
 * and `ShippedTables` pins down the keys the dashboard ships with (grouped as in
 * the source) and that every value is non-empty.
 */
module Images {

  /** `toLowerCase` on one character; only ASCII letters change. */
  function LowerChar(c: char): char
  {
    if 'A' <= c <= 'Z' then (c as int + 32) as char else c
  }

  function Lower(s: string): (r: string)
    ensures |r| == |s|
  {
    if s == [] then [] else [LowerChar(s[0])] + Lower(s[1..])
  }

  predicate IsLowercase(s: string)
  {
    forall i :: 0 <= i < |s| ==> !('A' <= s[i] <= 'Z')
  }

  /** Lowercasing twice is lowercasing once. */
  lemma {:induction false} LowerIdempotent(s: string)
    ensures Lower(Lower(s)) == Lower(s)
  {
    if s != [] {
      LowerIdempotent(s[1..]);
      assert Lower(s)[1..] == Lower(s[1..]);
    }
  }

  /** A string with no upper-case letter is its own lower-case form. */
  lemma {:induction false} LowerKeepsLowercase(s: string)
    requires IsLowercase(s)
    ensures Lower(s) == s
  {
    if s != [] {
      LowerKeepsLowercase(s[1..]);
    }
  }

  datatype ImageTables = ImageTables(
    teamLogos: map<string, string>,
    driverPhotos: map<string, string>,
    driverHeadshots: map<string, string>,
    countryFlags: map<string, string>)

  const TeamLogoKeys: set<string> := {
    "mclaren", "mercedes", "ferrari", "red_bull", "williams", "rb", "aston_martin", "sauber", "haas", "alpine"
  }

  /* Driver ids, grouped by team. Both driver tables carry the surname and the full
     "first_last" form of every driver. */
  const McLarenDriverKeys: set<string> := {"norris", "lando_norris", "piastri", "oscar_piastri"}
  const RedBullDriverKeys: set<string> := {"max_verstappen"}
  const MercedesDriverKeys: set<string> := {"russell", "george_russell", "antonelli", "kimi_antonelli"}
  const FerrariDriverKeys: set<string> := {"leclerc", "charles_leclerc", "hamilton", "lewis_hamilton"}
  const WilliamsDriverKeys: set<string> := {"sainz", "carlos_sainz", "albon", "alexander_albon"}
  const AstonMartinDriverKeys: set<string> := {"alonso", "fernando_alonso", "stroll", "lance_stroll"}
  const RbDriverKeys: set<string> := {"tsunoda", "yuki_tsunoda", "lawson", "liam_lawson", "hadjar", "isack_hadjar"}
  const AlpineDriverKeys: set<string> := {"gasly", "pierre_gasly", "colapinto", "franco_colapinto"}
  const HaasDriverKeys: set<string> := {"ocon", "esteban_ocon", "bearman", "oliver_bearman"}
  const SauberDriverKeys: set<string> := {"hulkenberg", "nico_hulkenberg", "bortoleto", "gabriel_bortoleto"}

  const DriverPhotoKeys: set<string> :=
    McLarenDriverKeys + RedBullDriverKeys + MercedesDriverKeys + FerrariDriverKeys
    + WilliamsDriverKeys + AstonMartinDriverKeys + RbDriverKeys + AlpineDriverKeys
    + HaasDriverKeys + SauberDriverKeys

  /** The headshot table has every photo key and one more spelling of Antonelli's id. */
  const DriverHeadshotKeys: set<string> := DriverPhotoKeys + {"andrea_kimi_antonelli"}

  const EuropeanFlagKeys: set<string> := {
    "British", "Dutch", "Monegasque", "Spanish", "German", "French", "Finnish", "Danish", "Italian",
    "Austrian", "Belgian", "Swiss"
  }
  const AmericasFlagKeys: set<string> :=
    {"Mexican", "Canadian", "American", "Brazilian", "Argentine", "Argentinian", "Colombian"}
  const AsiaPacificFlagKeys: set<string> :=
    {"Australian", "Japanese", "Thai", "Chinese", "Indian", "New Zealander", "Singaporean"}
  const OtherFlagKeys: set<string> := {"South African", "Russian"}
  const VariantFlagKeys: set<string> := {
    "UK", "USA", "Netherlands", "Spain", "Germany", "France", "Finland", "Denmark", "Italy", "Austria",
    "Belgium", "Switzerland", "Mexico", "Canada", "Brazil", "Australia", "Japan", "Thailand", "China", "Monaco"
  }

  const CountryFlagKeys: set<string> :=
    EuropeanFlagKeys + AmericasFlagKeys + AsiaPacificFlagKeys + OtherFlagKeys + VariantFlagKeys

  predicate NonEmptyValues(table: map<string, string>)
  {
    forall k :: k in table ==> table[k] != ""
  }

  predicate LowercaseKeys(table: map<string, string>)
  {
    forall k :: k in table ==> IsLowercase(k)
  }

  /** The tables as shipped: exactly these keys, and a non-empty URL under each. */
  predicate ShippedTables(t: ImageTables)
  {
    && t.teamLogos.Keys == TeamLogoKeys
    && t.driverPhotos.Keys == DriverPhotoKeys
    && t.driverHeadshots.Keys == DriverHeadshotKeys
    && t.countryFlags.Keys == CountryFlagKeys
    && NonEmptyValues(t.teamLogos) && NonEmptyValues(t.driverPhotos)
    && NonEmptyValues(t.driverHeadshots) && NonEmptyValues(t.countryFlags)
  }

  const FallbackDriverImage: string := "https://i.pinimg.com/736x/80/68/99/806899178ea17ec910abc4b9de512af3.jpg"
  const FallbackTeamLogo: string := "https://ih1.redbubble.net/image.5573385567.0715/raf,360x360,075,t,fafafa:ca443f4786.jpg"
  const CheckeredFlag: string := "🏁"

  /** `table[key] || fallback`: a missing key and an empty string both give the fallback. */
  function LookupOr(table: map<string, string>, key: string, fallback: string): (r: string)
    ensures r == fallback || (key in table && r == table[key] && r != "")
    ensures key in table && table[key] != "" ==> r == table[key]
  {
    if key in table && table[key] != "" then table[key] else fallback
  }

  /** `getTeamLogo(constructorId)`. */
  function GetTeamLogo(t: ImageTables, constructorId: string): (r: string)
    ensures r != ""
    ensures r == FallbackTeamLogo || r in t.teamLogos.Values
    ensures !(Lower(constructorId) in t.teamLogos && t.teamLogos[Lower(constructorId)] != "") ==> r == FallbackTeamLogo
    ensures Lower(constructorId) in t.teamLogos && t.teamLogos[Lower(constructorId)] != "" ==>
              r == t.teamLogos[Lower(constructorId)]
  {
    LookupOr(t.teamLogos, Lower(constructorId), FallbackTeamLogo)
  }

  /** `getDriverPhoto(driverId)`. */
  function GetDriverPhoto(t: ImageTables, driverId: string): (r: string)
    ensures r != ""
    ensures r == FallbackDriverImage || r in t.driverPhotos.Values
    ensures !(Lower(driverId) in t.driverPhotos && t.driverPhotos[Lower(driverId)] != "") ==> r == FallbackDriverImage
    ensures Lower(driverId) in t.driverPhotos && t.driverPhotos[Lower(driverId)] != "" ==>
              r == t.driverPhotos[Lower(driverId)]
  {
    LookupOr(t.driverPhotos, Lower(driverId), FallbackDriverImage)
  }

  /** `getDriverHeadshot(driverId)`: the headshot, else the photo for the same id. */
  function GetDriverHeadshot(t: ImageTables, driverId: string): (r: string)
    ensures r != ""
    ensures !(Lower(driverId) in t.driverHeadshots && t.driverHeadshots[Lower(driverId)] != "") ==> r == GetDriverPhoto(t, driverId)
    ensures Lower(driverId) in t.driverHeadshots && t.driverHeadshots[Lower(driverId)] != "" ==>
              r == t.driverHeadshots[Lower(driverId)]
    ensures r in t.driverHeadshots.Values || r == GetDriverPhoto(t, driverId)
  {
    LookupOr(t.driverHeadshots, Lower(driverId), GetDriverPhoto(t, driverId))
  }

  /** `getCountryFlag(nationality)`: exact-case lookup, the chequered flag otherwise. */
  function GetCountryFlag(t: ImageTables, nationality: string): (r: string)
    ensures r != ""
    ensures r == CheckeredFlag || r in t.countryFlags.Values
    ensures !(nationality in t.countryFlags && t.countryFlags[nationality] != "") ==> r == CheckeredFlag
    ensures nationality in t.countryFlags && t.countryFlags[nationality] != "" ==> r == t.countryFlags[nationality]
  {
    LookupOr(t.countryFlags, nationality, CheckeredFlag)
  }

  /** The team-logo lookup ignores case. */
  lemma TeamLogoIgnoresCase(t: ImageTables, constructorId: string)
    ensures GetTeamLogo(t, constructorId) == GetTeamLogo(t, Lower(constructorId))
  {
    LowerIdempotent(constructorId);
  }

  /** The driver-photo lookup ignores case. */
  lemma DriverPhotoIgnoresCase(t: ImageTables, driverId: string)
    ensures GetDriverPhoto(t, driverId) == GetDriverPhoto(t, Lower(driverId))
  {
    LowerIdempotent(driverId);
  }

  /** The headshot lookup ignores case. */
  lemma DriverHeadshotIgnoresCase(t: ImageTables, driverId: string)
    ensures GetDriverHeadshot(t, driverId) == GetDriverHeadshot(t, Lower(driverId))
  {
    LowerIdempotent(driverId);
  }

  lemma McLarenKeysAreLowercase()
    ensures forall k :: k in McLarenDriverKeys ==> IsLowercase(k)
  {
  }

  lemma RedBullKeysAreLowercase()
    ensures forall k :: k in RedBullDriverKeys ==> IsLowercase(k)
  {
  }

  lemma MercedesKeysAreLowercase()
    ensures forall k :: k in MercedesDriverKeys ==> IsLowercase(k)
  {
  }

  lemma FerrariKeysAreLowercase()
    ensures forall k :: k in FerrariDriverKeys ==> IsLowercase(k)
  {
  }

  lemma WilliamsKeysAreLowercase()
    ensures forall k :: k in WilliamsDriverKeys ==> IsLowercase(k)
  {
  }

  lemma AstonMartinKeysAreLowercase()
    ensures forall k :: k in AstonMartinDriverKeys ==> IsLowercase(k)
  {
  }

  lemma RbKeysAreLowercase()
    ensures forall k :: k in RbDriverKeys ==> IsLowercase(k)
  {
  }

  lemma AlpineKeysAreLowercase()
    ensures forall k :: k in AlpineDriverKeys ==> IsLowercase(k)
  {
  }

  lemma HaasKeysAreLowercase()
    ensures forall k :: k in HaasDriverKeys ==> IsLowercase(k)
  {
  }

  lemma SauberKeysAreLowercase()
    ensures forall k :: k in SauberDriverKeys ==> IsLowercase(k)
  {
  }

  lemma TeamLogoKeysAreLowercase()
    ensures forall k :: k in TeamLogoKeys ==> IsLowercase(k)
  {
  }

  lemma DriverKeysAreLowercase()
    ensures forall k :: k in DriverHeadshotKeys ==> IsLowercase(k)
  {
    McLarenKeysAreLowercase();
    RedBullKeysAreLowercase();
    MercedesKeysAreLowercase();
    FerrariKeysAreLowercase();
    WilliamsKeysAreLowercase();
    AstonMartinKeysAreLowercase();
    RbKeysAreLowercase();
    AlpineKeysAreLowercase();
    HaasKeysAreLowercase();
    SauberKeysAreLowercase();
    assert IsLowercase("andrea_kimi_antonelli");
  }

  /** Every key of the shipped URL tables is lower case, so no entry is hidden by the
      lowercasing of the id. */
  lemma ShippedKeysAreLowercase(t: ImageTables)
    requires ShippedTables(t)
    ensures LowercaseKeys(t.teamLogos) && LowercaseKeys(t.driverPhotos) && LowercaseKeys(t.driverHeadshots)
  {
    TeamLogoKeysAreLowercase();
    DriverKeysAreLowercase();
  }

  predicate Capitalised(k: string)
  {
    |k| > 0 && 'A' <= k[0] <= 'Z'
  }

  lemma EuropeanKeysAreCapitalised()
    ensures forall k :: k in EuropeanFlagKeys ==> Capitalised(k)
  {
  }

  lemma AmericasKeysAreCapitalised()
    ensures forall k :: k in AmericasFlagKeys ==> Capitalised(k)
  {
  }

  lemma AsiaPacificKeysAreCapitalised()
    ensures forall k :: k in AsiaPacificFlagKeys ==> Capitalised(k)
  {
  }

  lemma OtherKeysAreCapitalised()
    ensures forall k :: k in OtherFlagKeys ==> Capitalised(k)
  {
  }

  lemma VariantKeysAreCapitalised()
    ensures forall k :: k in VariantFlagKeys ==> Capitalised(k)
  {
  }

  lemma FlagKeysAreCapitalised()
    ensures forall k :: k in CountryFlagKeys ==> Capitalised(k)
  {
    EuropeanKeysAreCapitalised();
    AmericasKeysAreCapitalised();
    AsiaPacificKeysAreCapitalised();
    OtherKeysAreCapitalised();
    VariantKeysAreCapitalised();
  }

  /** With lower-case keys and non-empty URLs every entry is what its key, in any case, returns. */
  lemma EveryEntryReachable(t: ImageTables, id: string)
    requires LowercaseKeys(t.teamLogos) && LowercaseKeys(t.driverPhotos) && LowercaseKeys(t.driverHeadshots)
    requires NonEmptyValues(t.teamLogos) && NonEmptyValues(t.driverPhotos) && NonEmptyValues(t.driverHeadshots)
    ensures Lower(id) in t.teamLogos ==> GetTeamLogo(t, id) == t.teamLogos[Lower(id)]
    ensures Lower(id) in t.driverPhotos ==> GetDriverPhoto(t, id) == t.driverPhotos[Lower(id)]
    ensures Lower(id) in t.driverHeadshots ==> GetDriverHeadshot(t, id) == t.driverHeadshots[Lower(id)]
    ensures id in t.teamLogos ==> GetTeamLogo(t, id) == t.teamLogos[id]
    ensures id in t.driverPhotos ==> GetDriverPhoto(t, id) == t.driverPhotos[id]
    ensures id in t.driverHeadshots ==> GetDriverHeadshot(t, id) == t.driverHeadshots[id]
  {
    if id in t.teamLogos || id in t.driverPhotos || id in t.driverHeadshots {
      LowerKeepsLowercase(id);
    }
  }

  /** The headshot falls back to the photo, and the photo to the default image. */
  lemma HeadshotFallbackChain(t: ImageTables, driverId: string)
    requires NonEmptyValues(t.driverPhotos) && NonEmptyValues(t.driverHeadshots)
    ensures var key := Lower(driverId);
            GetDriverHeadshot(t, driverId) ==
              if key in t.driverHeadshots then t.driverHeadshots[key]
              else if key in t.driverPhotos then t.driverPhotos[key]
              else FallbackDriverImage
  {
  }

  /** Flags are looked up by exact case: every shipped key is capitalised, so a nationality
      written in lower case gets the chequered flag, while "British" has a flag of its own. */
  lemma CountryFlagIsCaseSensitive(t: ImageTables, nationality: string)
    requires ShippedTables(t)
    requires |nationality| > 0 && 'a' <= nationality[0] <= 'z'
    ensures GetCountryFlag(t, nationality) == CheckeredFlag
    ensures GetCountryFlag(t, "British") == t.countryFlags["British"]
  {
    FlagKeysAreCapitalised();
    assert "British" in EuropeanFlagKeys;
  }
}
