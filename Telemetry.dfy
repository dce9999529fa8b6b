/** The shapes of the live feed's decoded messages and of the display aggregates
    that the dashboard derives from them. */
module Telemetry {

  datatype Option<+T> = None | Some(value: T)

  /** One element of a message's `data` array. JSON `null` is kept apart because
      reading a field of it throws; any other value behaves as a record whose
      absent fields are `None` (a number or a string has no `region` either). */
  datatype Item =
    | NullItem
    | Record(region: Option<string>, buildingType: Option<string>, value: Option<int>)

  /** The `data` field of a message: an array, or anything else (absent, an object, a number). */
  datatype Payload = Array(items: seq<Item>) | NotArray

  /** The outcome of `JSON.parse` on one frame: a syntax error, the JSON value `null`,
      or any other value, seen through its `type` and `data` fields. A `type` that
      is absent or not a string is `None`. */
  datatype Decoded =
    | Malformed
    | Null
    | Msg(tag: Option<string>, data: Payload)

  /** A `{name, value}` pair as handed to the charts. */
  datatype Entry = Entry(name: string, value: int)

  const RegionTag := "energyByRegion"
  const FaultyTag := "faultyMeters"
  const BuildingTag := "energyByBuildingType"
  const PeakTag := "peakLoadMeters"

  const Unknown := "Unknown"

  /** JavaScript's `s || d` on an optional string: the default replaces both a
      missing field and the (falsy) empty string. */
  function OrElse(s: Option<string>, d: string): (r: string)
    ensures s.Some? && s.value != "" ==> r == s.value
    ensures s.None? || s.value == "" ==> r == d
  {
    match s
    case Some(v) => if v != "" then v else d
    case None => d
  }

  /** JavaScript's `v || 0` on an optional integer (0 is falsy, so it maps to itself). */
  function OrZero(v: Option<int>): (r: int)
    ensures v.Some? ==> r == v.value
    ensures v.None? ==> r == 0
  {
    match v
    case Some(x) => x
    case None => 0
  }

  /** No element of the array is JSON `null`, so every field read succeeds. */
  predicate NoNulls(items: seq<Item>) {
    forall i :: 0 <= i < |items| ==> items[i].Record?
  }

  /** The sum `es.reduce((sum, item) => sum + item.value, 0)`, folded from the left.
      When every entry counts at least one, the sum is at least the number of entries. */
  function SumValues(es: seq<Entry>): (r: int)
    ensures (forall i :: 0 <= i < |es| ==> es[i].value >= 1) ==> r >= |es|
  {
    if es == [] then 0 else SumValues(es[..|es| - 1]) + es[|es| - 1].value
  }
}
