/** The three per-channel projections that are `map` expressions over the incoming
    array (energy by region, energy by building type) or a single read (faulty meters). */
module Projections {
  import opened Telemetry

  /** `Math.round(v / 1000)` for an integer `v`: the nearest integer to v/1000,
      halves rounded towards positive infinity. */
  function MegawattHours(v: int): (r: int)
    ensures 1000 * r - 500 <= v < 1000 * r + 500
  {
    (v + 500) / 1000
  }

  /** A region chart entry: the region name, or "Unknown", and the energy in MWh. */
  function RegionEntry(it: Item): (e: Entry)
    requires it.Record?
    ensures it.region.Some? && it.region.value != "" ==> e.name == it.region.value
    ensures it.region.None? || it.region.value == "" ==> e.name == Unknown
    ensures 1000 * e.value - 500 <= OrZero(it.value) < 1000 * e.value + 500
    ensures it.value.None? ==> e.value == 0
  {
    Entry(OrElse(it.region, Unknown), MegawattHours(OrZero(it.value)))
  }

  /** The `energyByRegion` projection; `None` when an element is `null`, where the
      `map` throws and the aggregate is not replaced. */
  function EnergyByRegion(items: seq<Item>): (r: Option<seq<Entry>>)
    ensures r.Some? <==> NoNulls(items)
    ensures r.Some? ==> |r.value| == |items|
  {
    if NoNulls(items) then Some(seq(|items|, i requires 0 <= i < |items| => RegionEntry(items[i])))
    else None
  }

  /** Each region entry sits at its record's position, named after its region
      (or "Unknown" when that is missing or empty), and holds the rounded MWh. */
  lemma EnergyByRegionEntry(items: seq<Item>, i: nat)
    requires NoNulls(items) && i < |items|
    ensures EnergyByRegion(items).Some?
    ensures var e := EnergyByRegion(items).value[i];
      && (items[i].region.Some? && items[i].region.value != "" ==> e.name == items[i].region.value)
      && (items[i].region.None? || items[i].region.value == "" ==> e.name == Unknown)
      && 1000 * e.value - 500 <= OrZero(items[i].value) < 1000 * e.value + 500
      && (items[i].value.None? ==> e.value == 0)
  {
  }

  /** The projection works record by record: projecting two arrays one after the
      other is projecting their concatenation. */
  lemma EnergyByRegionAppend(a: seq<Item>, b: seq<Item>)
    requires NoNulls(a) && NoNulls(b)
    ensures NoNulls(a + b)
    ensures EnergyByRegion(a + b) == Some(EnergyByRegion(a).value + EnergyByRegion(b).value)
  {
    var ab := EnergyByRegion(a + b).value;
    var sep := EnergyByRegion(a).value + EnergyByRegion(b).value;
    assert |ab| == |sep|;
    forall i | 0 <= i < |ab| ensures ab[i] == sep[i] {
      if i < |a| {
        assert (a + b)[i] == a[i];
      } else {
        assert (a + b)[i] == b[i - |a|];
      }
    }
    assert ab == sep;
  }

  /** `data[0]?._value || 0` on a non-empty array; an empty array gives `None`,
      the count is then left as it was. */
  function FaultyCount(items: seq<Item>): (r: Option<int>)
    ensures r.None? <==> items == []
    ensures items != [] && items[0].NullItem? ==> r == Some(0)
  {
    if items == [] then None
    else match items[0]
      case NullItem => Some(0)
      case Record(_, _, v) => Some(OrZero(v))
  }

  /** Only the first element contributes: elements after it are ignored. */
  lemma FaultyCountIgnoresRest(first: Item, rest: seq<Item>)
    ensures FaultyCount([first] + rest) == FaultyCount([first])
    ensures first.Record? ==> FaultyCount([first] + rest) == Some(OrZero(first.value))
  {
  }

  /** `toUpperCase` on one character, for the ASCII letters. */
  function Upper(c: char): (u: char)
    ensures 'a' <= c <= 'z' ==> 'A' <= u <= 'Z' && u as int == c as int - 32
    ensures !('a' <= c <= 'z') ==> u == c
  {
    if 'a' <= c <= 'z' then (c as int - 32) as char else c
  }

  /** `s.charAt(0).toUpperCase() + s.slice(1)` on a non-empty string. */
  function Capitalize(s: string): (r: string)
    requires s != ""
    ensures |r| == |s| && r[1..] == s[1..]
    ensures !('a' <= r[0] <= 'z')
    ensures 'a' <= s[0] <= 'z' ==> 'A' <= r[0] <= 'Z' && r[0] as int == s[0] as int - 32
    ensures !('a' <= s[0] <= 'z') ==> r == s
  {
    [Upper(s[0])] + s[1..]
  }

  /** Capitalising a name that is already capitalised changes nothing. */
  lemma CapitalizeIdempotent(s: string)
    requires s != ""
    ensures Capitalize(Capitalize(s)) == Capitalize(s)
  {
  }

  /** The building-type name: the capitalised `building_type`, or "Unknown". */
  function BuildingName(it: Item): (name: string)
    requires it.Record?
    ensures name != "" && !('a' <= name[0] <= 'z')
  {
    Capitalize(OrElse(it.buildingType, Unknown))
  }

  /** The names of the `energyByBuildingType` projection; `None` when an element is `null`. */
  function BuildingTypeNames(items: seq<Item>): (r: Option<seq<string>>)
    ensures r.Some? <==> NoNulls(items)
    ensures r.Some? ==> |r.value| == |items|
  {
    if NoNulls(items) then Some(seq(|items|, i requires 0 <= i < |items| => BuildingName(items[i])))
    else None
  }

  /** Each name keeps the rest of `building_type` (or of "Unknown") and upper-cases
      only its first character. */
  lemma BuildingTypeName(items: seq<Item>, i: nat)
    requires NoNulls(items) && i < |items|
    ensures BuildingTypeNames(items).Some?
    ensures var name := BuildingTypeNames(items).value[i];
      var src := OrElse(items[i].buildingType, Unknown);
      && |name| == |src| && name[0] == Upper(src[0]) && name[1..] == src[1..]
      && (items[i].buildingType.None? || items[i].buildingType.value == "" ==> name == Unknown)
  {
  }

  /** The scenario of a region message with a missing value: "North" with 3 500 000 kWh
      and "South" with no value become 3500 and 0 MWh. */
  lemma RegionScenario()
    ensures EnergyByRegion([Record(Some("North"), None, Some(3500000)), Record(Some("South"), None, None)])
         == Some([Entry("North", 3500), Entry("South", 0)])
  {
    var items := [Record(Some("North"), None, Some(3500000)), Record(Some("South"), None, None)];
    assert NoNulls(items);
    assert MegawattHours(3500000) == 3500;
    assert MegawattHours(0) == 0;
    var r := EnergyByRegion(items).value;
    assert r[0] == Entry("North", 3500) && r[1] == Entry("South", 0);
    assert r == [Entry("North", 3500), Entry("South", 0)];
  }
}
