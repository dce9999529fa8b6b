/** The dashboard's live-feed state: the four aggregates, the connection status and
    the time of the last update, changed only by the socket's event handlers. */
module ViewModel {
  import opened Telemetry
  import opened Projections
  import opened Grouping
  import opened Connection

  /** Which aggregate one message replaces, and with what. */
  datatype Update =
    | NoChange
    | SetRegion(regionEntries: seq<Entry>)
    | SetFaulty(count: int)
    | SetBuildingTypes(names: seq<string>)
    | SetPeakLoad(peakEntries: seq<Entry>)

  /** The message type whose case produces an update. */
  function TagOf(u: Update): (tag: string)
    requires u != NoChange
    ensures tag in {RegionTag, FaultyTag, BuildingTag, PeakTag}
  {
    match u
    case SetRegion(_) => RegionTag
    case SetFaulty(_) => FaultyTag
    case SetBuildingTypes(_) => BuildingTag
    case SetPeakLoad(_) => PeakTag
  }

  function Lift<T>(r: Option<T>, make: T -> Update): Update {
    match r
    case Some(v) => make(v)
    case None => NoChange
  }

  /** The `switch` on `message.type`: a recognised type with an array payload
      replaces its own aggregate with the projection of that array, unless the
      projection throws (or, for faulty meters, the array is empty). */
  function Route(d: Decoded): (u: Update)
    ensures u != NoChange ==> d.Msg? && d.data.Array? && d.tag == Some(TagOf(u))
    ensures u.SetRegion? ==> EnergyByRegion(d.data.items) == Some(u.regionEntries)
    ensures u.SetFaulty? ==> FaultyCount(d.data.items) == Some(u.count)
    ensures u.SetBuildingTypes? ==> BuildingTypeNames(d.data.items) == Some(u.names)
    ensures u.SetPeakLoad? ==> PeakLoad(d.data.items) == Some(u.peakEntries)
  {
    match d
    case Malformed => NoChange
    case Null => NoChange
    case Msg(tag, data) =>
      if !data.Array? then NoChange
      else if tag == Some(RegionTag) then Lift(EnergyByRegion(data.items), es => SetRegion(es))
      else if tag == Some(FaultyTag) then Lift(FaultyCount(data.items), n => SetFaulty(n))
      else if tag == Some(BuildingTag) then Lift(BuildingTypeNames(data.items), ns => SetBuildingTypes(ns))
      else if tag == Some(PeakTag) then Lift(PeakLoad(data.items), es => SetPeakLoad(es))
      else NoChange
  }

  /** An unknown or missing message type changes no aggregate. */
  lemma UnknownTagIsNoOp(d: Decoded)
    requires d.Msg? && (d.tag.None? || d.tag.value !in {RegionTag, FaultyTag, BuildingTag, PeakTag})
    ensures Route(d) == NoChange
  {
  }

  /** A payload that is not an array, a frame that does not parse, or a `null`
      message changes no aggregate. */
  lemma NoArrayIsNoOp(d: Decoded)
    requires !d.Msg? || !d.data.Array?
    ensures Route(d) == NoChange
  {
  }

  /** A recognised type with an array payload always replaces its aggregate when
      its projection cannot throw: for faulty meters, whenever the array is not
      empty (`data[0]?._value` never throws); for the other three, whenever no
      element is `null`. */
  lemma KnownTagUpdates(d: Decoded)
    requires d.Msg? && d.data.Array?
    requires d.tag.Some? && d.tag.value in {RegionTag, FaultyTag, BuildingTag, PeakTag}
    requires d.tag == Some(FaultyTag) ==> d.data.items != []
    requires d.tag != Some(FaultyTag) ==> NoNulls(d.data.items)
    ensures Route(d) != NoChange && TagOf(Route(d)) == d.tag.value
  {
  }

  /** A faulty-meters message with a non-empty array sets the count to the first
      element's `_value` (0 when it is missing or the element is `null`), whatever
      follows it, `null` elements included. */
  lemma FaultyUpdates(d: Decoded)
    requires d.Msg? && d.tag == Some(FaultyTag) && d.data.Array? && d.data.items != []
    ensures Route(d) == SetFaulty(if d.data.items[0].NullItem? then 0 else OrZero(d.data.items[0].value))
  {
  }

  /** `[{_value: 5}, null]` sets the count to 5 and `[null]` sets it to 0. */
  lemma FaultyScenario()
    ensures Route(Msg(Some(FaultyTag), Array([Record(None, None, Some(5)), NullItem]))) == SetFaulty(5)
    ensures Route(Msg(Some(FaultyTag), Array([NullItem]))) == SetFaulty(0)
  {
  }

  class Dashboard {
    var energyByRegion: seq<Entry>
    var faultyMeters: int
    /** The names of the building-type entries (their values are floating point). */
    var energyByBuildingType: seq<string>
    var peakLoadMeters: seq<Entry>
    var connectionStatus: Status
    /** The clock reading of the last message that parsed; `None` before the first. */
    var lastUpdate: Option<string>

    /** The peak-load aggregate simply groups meters by region. */
    ghost predicate Valid()
      reads this
    {
      WellGrouped(peakLoadMeters)
    }

    /** The state at mount. */
    constructor ()
      ensures Valid()
      ensures energyByRegion == [] && faultyMeters == 0 && energyByBuildingType == []
      ensures peakLoadMeters == [] && connectionStatus == Connecting && lastUpdate == None
    {
      energyByRegion := [];
      faultyMeters := 0;
      energyByBuildingType := [];
      peakLoadMeters := [];
      connectionStatus := Connecting;
      lastUpdate := None;
    }

    method OnOpen()
      modifies this
      ensures connectionStatus == Connected
      ensures energyByRegion == old(energyByRegion) && faultyMeters == old(faultyMeters)
      ensures energyByBuildingType == old(energyByBuildingType) && peakLoadMeters == old(peakLoadMeters)
      ensures lastUpdate == old(lastUpdate)
    {
      connectionStatus := Connected;
    }

    method OnClose()
      modifies this
      ensures connectionStatus == Disconnected
      ensures energyByRegion == old(energyByRegion) && faultyMeters == old(faultyMeters)
      ensures energyByBuildingType == old(energyByBuildingType) && peakLoadMeters == old(peakLoadMeters)
      ensures lastUpdate == old(lastUpdate)
    {
      connectionStatus := Disconnected;
    }

    method OnError()
      modifies this
      ensures connectionStatus == ErrorConnecting
      ensures energyByRegion == old(energyByRegion) && faultyMeters == old(faultyMeters)
      ensures energyByBuildingType == old(energyByBuildingType) && peakLoadMeters == old(peakLoadMeters)
      ensures lastUpdate == old(lastUpdate)
    {
      connectionStatus := ErrorConnecting;
    }

    /** `socket.onmessage` for one frame, decoded as `d`, arriving when the clock
        reads `now`. A frame that parses refreshes `lastUpdate` before anything can
        throw; the message then replaces at most the aggregate its type names. */
    method HandleMessage(d: Decoded, now: string)
      requires Valid()
      modifies this
      ensures Valid()
      ensures lastUpdate == if d.Malformed? then old(lastUpdate) else Some(now)
      ensures connectionStatus == old(connectionStatus)
      ensures energyByRegion == if Route(d).SetRegion? then Route(d).regionEntries else old(energyByRegion)
      ensures faultyMeters == if Route(d).SetFaulty? then Route(d).count else old(faultyMeters)
      ensures energyByBuildingType == if Route(d).SetBuildingTypes? then Route(d).names else old(energyByBuildingType)
      ensures peakLoadMeters == if Route(d).SetPeakLoad? then Route(d).peakEntries else old(peakLoadMeters)
      ensures Route(d).SetPeakLoad? ==> PeakTotal() == |d.data.items|
    {
      match d
      case Malformed =>
      case Null =>
        // reading `message.type` of `null` throws after the timestamp is set
        lastUpdate := Some(now);
      case Msg(tag, data) =>
        lastUpdate := Some(now);
        if tag == Some(RegionTag) {
          if data.Array? {
            var regionData := EnergyByRegion(data.items);
            if regionData.Some? {
              energyByRegion := regionData.value;
            }
          }
        } else if tag == Some(FaultyTag) {
          if data.Array? && |data.items| > 0 {
            faultyMeters := FaultyCount(data.items).value;
          }
        } else if tag == Some(BuildingTag) {
          if data.Array? {
            var buildingData := BuildingTypeNames(data.items);
            if buildingData.Some? {
              energyByBuildingType := buildingData.value;
            }
          }
        } else if tag == Some(PeakTag) {
          if data.Array? {
            var peakData := GroupByRegion(data.items);
            if peakData.Some? {
              PeakLoadProperties(data.items);
              PeakTotalIsMeterCount(d);
              peakLoadMeters := peakData.value;
            }
          }
        }
    }

    /** The total on the peak-load card. */
    function PeakTotal(): (total: int)
      reads this
      ensures Valid() ==> total >= |peakLoadMeters|
    {
      SumValues(peakLoadMeters)
    }
  }

  /** After a peak-load message, the card total is the number of meters in it. */
  lemma PeakTotalIsMeterCount(d: Decoded)
    requires Route(d).SetPeakLoad?
    ensures SumValues(Route(d).peakEntries) == |d.data.items|
  {
    PeakLoadProperties(d.data.items);
  }

  /** Mount, open, receive `d`, close, then receive a frame that fails to parse:
      the badge shows "Disconnected", and the aggregates and `lastUpdate` are those
      `d` left behind; neither the close nor the bad frame resets them. */
  method CloseScenario(d: Decoded, now: string) returns (board: Dashboard)
    ensures board.connectionStatus == Disconnected && !GreenBadge(board.connectionStatus)
    ensures board.lastUpdate == if d.Malformed? then None else Some(now)
    ensures board.energyByRegion == if Route(d).SetRegion? then Route(d).regionEntries else []
    ensures board.faultyMeters == if Route(d).SetFaulty? then Route(d).count else 0
    ensures board.energyByBuildingType == if Route(d).SetBuildingTypes? then Route(d).names else []
    ensures board.peakLoadMeters == if Route(d).SetPeakLoad? then Route(d).peakEntries else []
  {
    board := new Dashboard();
    board.OnOpen();
    board.HandleMessage(d, now);
    board.OnClose();
    board.HandleMessage(Malformed, now);
  }
}
