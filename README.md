# Smart-grid dashboard: live-feed view-model

This project models the live-feed logic of the `Dashboard` component of a smart-grid
monitoring frontend. The component holds six pieces of state: energy by region,
the faulty-meter count, energy by building type, meters at peak load, the
connection status and the time of the last update. A WebSocket feed changes them.
Each frame is parsed as JSON. A `switch` on its `type` replaces at most one of
the four aggregates with a projection of its `data` array. The socket's open,
close and error events set the status label. `formatNumber` puts thousands
separators into the numbers on the cards and tooltips.

Modules:

- `Telemetry`: the decoded message (`Decoded`), array elements (`Item`, which may be
  JSON `null`), chart entries (`Entry`), the four message-type tags and JavaScript's
  `||` defaulting.
- `Projections`: the `energyByRegion`, `faultyMeters` and `energyByBuildingType`
  projections.
- `Grouping`: the `peakLoadMeters` group-by-region. A specification function
  (`PeakLoad`) comes with its lemmas. A method with the accumulator loop
  (`GroupByRegion`) is proved equal to it.
- `Formatting`: `formatNumber` as the regular-expression replace
  `/\B(?=(\d{3})+(?!\d))/g` on `Number.prototype.toString()`. It is proved equal to
  the usual grouping of digits in threes from the right.
- `Connection`: the connection status values and their labels.
- `ViewModel`: the class `Dashboard` with the six fields, the three status handlers
  and `HandleMessage` (the `onmessage` handler). `Route` is a pure function that
  says which aggregate a message replaces.

Inputs the component gets from the browser are parameters here. `JSON.parse` is
represented by its result, a `Decoded` value. The wall-clock string from
`new Date().toLocaleTimeString()` is the `now` argument of `HandleMessage`.

Where the code and its design description differ, the model follows the code:

- An element of `data` that is `null` makes the region, building-type and
  peak-load projections throw. The `catch` at line 97 absorbs the error, so the
  aggregate is not replaced, but `lastUpdate` was already set at line 40.
- A frame whose JSON value is `null` has the same effect: `message.type` throws
  at line 41, after the timestamp is set.
- `faultyMeters` reads `data[0]?._value`, so a `null` first element gives 0 and
  never throws.
- `formatNumber` works for negative integers as well: the `-` is followed by a
  word boundary, so no comma comes right after it.

## Model

| member | source | states |
|---|---|---|
| Telemetry.OrElse | src/SmartGridDashboard.js:48 | defaulting a string field with a logical or yields the field when it is present and non-empty, and the default when it is missing or empty |
| Telemetry.OrZero | src/SmartGridDashboard.js:49 | defaulting a number field to 0 with a logical or yields the field when present and 0 when missing (0 is falsy but maps to itself) |
| Telemetry.SumValues | src/SmartGridDashboard.js:153 | the left fold of entry values is at least the number of entries when every entry counts at least one |
| Projections.RegionEntry | src/SmartGridDashboard.js:47-50 | a record's entry is named after its region, or "Unknown" when that is missing or empty, and holds its `_value` (0 when missing) rounded to MWh |
| Projections.MegawattHours | src/SmartGridDashboard.js:49 | `Math.round(v / 1000)` on an integer is the integer r with 1000r - 500 <= v < 1000r + 500: the nearest integer, halves rounded up |
| Projections.EnergyByRegion | src/SmartGridDashboard.js:46-51 | the region projection succeeds exactly when no element is `null`, and then has one entry per record |
| Projections.EnergyByRegionEntry | src/SmartGridDashboard.js:47-50 | entry i is named after record i's region, or "Unknown" when that is missing or empty; its value rounds the record's `_value` (0 when missing) divided by 1000 |
| Projections.EnergyByRegionAppend | src/SmartGridDashboard.js:47-50 | the projection keeps order record by record: projecting a concatenation is concatenating the projections |
| Projections.RegionScenario | src/SmartGridDashboard.js:47-50 | North with 3 500 000 and South with no value become North 3500 and South 0 |
| Projections.FaultyCount | src/SmartGridDashboard.js:56-57 | an empty array yields no new count; a `null` first element yields 0 |
| Projections.FaultyCountIgnoresRest | src/SmartGridDashboard.js:57 | only the first element matters: the count is its `_value` (0 when missing); all later elements are ignored |
| Projections.Upper | src/SmartGridDashboard.js:64 | `toUpperCase` maps a to z onto A to Z and leaves every other character alone |
| Projections.Capitalize | src/SmartGridDashboard.js:64 | capitalising keeps the length and every character after the first; a lower-case first letter becomes the upper-case letter 32 code points below it; a string that does not start with one is unchanged |
| Projections.CapitalizeIdempotent | src/SmartGridDashboard.js:64 | capitalising twice is capitalising once |
| Projections.BuildingName | src/SmartGridDashboard.js:64 | every building-type name is non-empty and does not start with a lower-case letter |
| Projections.BuildingTypeNames | src/SmartGridDashboard.js:62-67 | the building-type projection succeeds exactly when no element is `null`, and then has one name per record |
| Projections.BuildingTypeName | src/SmartGridDashboard.js:63-66 | name i is `building_type` (or "Unknown" when missing or empty) with its first character upper-cased and the rest unchanged |
| Grouping.Regions | src/SmartGridDashboard.js:75 | one defaulted region per meter |
| Grouping.Entries | src/SmartGridDashboard.js:84-87 | one chart entry per accumulator key |
| Grouping.PeakLoad | src/SmartGridDashboard.js:72-90 | the peak-load projection succeeds exactly when no element is `null` |
| Grouping.FirstSeen | src/SmartGridDashboard.js:74-87 | the accumulator's keys are exactly the regions that occur, and no region becomes a key twice |
| Grouping.FirstSeenOrder | src/SmartGridDashboard.js:76-84 | keys appear in the order of their regions' first occurrences |
| Grouping.TallySum | src/SmartGridDashboard.js:74-87 | the counts sum to the number of meters |
| Grouping.TallyCounts | src/SmartGridDashboard.js:74-87 | a region is a key exactly when it occurs; each count is that region's number of meters; names are distinct and counts at least 1 |
| Grouping.PeakLoadProperties | src/SmartGridDashboard.js:72-90 | for a `null`-free array the aggregate lists the distinct defaulted regions in first-seen order, each with its meter count (at least 1), and the counts sum to the number of meters |
| Grouping.GroupByRegion | src/SmartGridDashboard.js:74-89 | the accumulator loop (`acc[region]++`, keys in insertion order) computes exactly `PeakLoad`, and returns `None` where a `null` meter makes it throw |
| Grouping.PeakScenario | src/SmartGridDashboard.js:74-87 | North, North and a `null` region become North 2 and Unknown 1 |
| Formatting.Digits | src/SmartGridDashboard.js:112 | the decimal form of a natural number is a non-empty string of digits that denotes that number and has no leading zero |
| Formatting.IntToString | src/SmartGridDashboard.js:112 | `num.toString()` of an integer is its decimal digits without leading zeros, after a `-` exactly when it is negative; it holds no comma |
| Formatting.CommaAt | src/SmartGridDashboard.js:112 | a comma is inserted before a position exactly when `\B` holds there and the lookahead `(\d{3})+(?!\d)` succeeds there |
| Formatting.Scan | src/SmartGridDashboard.js:112 | the global replace only inserts commas: on a comma-free string, deleting them gives back the scanned text |
| Formatting.FormatNumber | src/SmartGridDashboard.js:111-113 | deleting the commas from `formatNumber(n)` gives back `n.toString()` |
| Formatting.LookaheadIsDigitRun | src/SmartGridDashboard.js:112 | the lookahead `(\d{3})+(?!\d)` succeeds at a position exactly when the run of digits starting there is a non-empty multiple of three |
| Formatting.ChunksShape | src/SmartGridDashboard.js:112 | the digit groups concatenate to the digits; the first has 1 to 3 digits, every other exactly 3 |
| Formatting.FormatNumberGroups | src/SmartGridDashboard.js:111-113 | `formatNumber(n)` is n's sign followed by its digit groups joined with commas |
| Formatting.NegativeScan | src/SmartGridDashboard.js:112 | no comma follows the minus sign of a negative number: the digits are grouped as if they started the string |
| Formatting.FormatNumberExample | src/SmartGridDashboard.js:111-113 | 1234567 is shown as "1,234,567" |
| Connection.LabelInjective | src/SmartGridDashboard.js:15-35 | the four status labels are pairwise different |
| Connection.GreenBadge | src/SmartGridDashboard.js:124 | the badge is green exactly when the status is Connected |
| ViewModel.TagOf | src/SmartGridDashboard.js:43-96 | every update belongs to one of the four recognised message types |
| ViewModel.Route | src/SmartGridDashboard.js:43-96 | a message changes an aggregate only if it parsed, has an array `data` and its type names that aggregate; the new value is that channel's projection |
| ViewModel.UnknownTagIsNoOp | src/SmartGridDashboard.js:93-95 | a missing or unrecognised type changes no aggregate |
| ViewModel.NoArrayIsNoOp | src/SmartGridDashboard.js:39-46 | a parse failure, a `null` message or a non-array `data` changes no aggregate |
| ViewModel.KnownTagUpdates | src/SmartGridDashboard.js:43-91 | a recognised type with an array always replaces its own aggregate when its projection cannot throw: any non-empty array for faulty meters, `null` elements included; a `null`-free array for the other three |
| ViewModel.FaultyUpdates | src/SmartGridDashboard.js:56-57 | a faulty-meters message with a non-empty array sets the count to the first element's `_value`, or 0 when it is missing or the element is `null`, whatever follows |
| ViewModel.FaultyScenario | src/SmartGridDashboard.js:56-57 | `[{_value: 5}, null]` sets the count to 5 and `[null]` sets it to 0 |
| ViewModel.Dashboard.constructor | src/SmartGridDashboard.js:11-16 | state at mount: empty aggregates, count 0, status Connecting, no last update |
| ViewModel.Dashboard.OnOpen | src/SmartGridDashboard.js:22-25 | open sets Connected from any state and changes nothing else |
| ViewModel.Dashboard.OnClose | src/SmartGridDashboard.js:27-30 | close sets Disconnected from any state and changes nothing else |
| ViewModel.Dashboard.OnError | src/SmartGridDashboard.js:32-35 | error sets Error connecting from any state and changes nothing else |
| ViewModel.Dashboard.HandleMessage | src/SmartGridDashboard.js:37-100 | a frame that parses sets `lastUpdate`; a parse failure leaves it; each aggregate becomes the routed value or keeps its own; the status is untouched; the peak-load aggregate stays well grouped; after a peak-load message the card total is the number of meters in it |
| ViewModel.Dashboard.PeakTotal | src/SmartGridDashboard.js:153 | the card total is at least the number of peak-load entries |
| ViewModel.PeakTotalIsMeterCount | src/SmartGridDashboard.js:153 | after a peak-load message the card total equals the number of meters in it |
| ViewModel.CloseScenario | src/SmartGridDashboard.js:22-40 | after mount, open, a message, close and a frame that fails to parse, the status is Disconnected (badge not green) while `lastUpdate` and the aggregates are what the message left; close and the bad frame reset nothing |

## Left out

- Opening the WebSocket, its address and `socket.close()` on unmount (lines 20, 102-104) are I/O. The open, close and error events are method calls on the model.
- `JSON.parse` is not modelled. Its outcome is the `Decoded` input: a syntax error, `null`, or a value seen through its `type` and `data` fields.
- `new Date().toLocaleTimeString()` is wall-clock and locale formatting. Its string is the `now` parameter.
- Building-type values `parseFloat((v || 0).toFixed(2))` (line 65) and the pie labels' percentages (line 168) are floating point. The building-type aggregate holds only the names.
- Projections.MegawattHours: `_value` is an integer, so floating-point division and rounding of very large or fractional values are not modelled.
- `region` and `building_type` that are present but not strings are not modelled (a number name; a number `building_type` whose `charAt` throws). Neither is a `_value` that is not a number.
- Projections.Upper: only ASCII letters are upper-cased. JavaScript's full Unicode case mapping (for example one character becoming two) is not modelled.
- Grouping.GroupByRegion: plain-object key quirks are not modelled. Integer-like region names would be listed by `Object.keys` in numeric order. Prototype names such as `constructor` would make `!acc[region]` false.
- Formatting.FormatNumberGroups: `Number.prototype.toString()` of magnitudes of 10^21 and above uses exponent notation, which is not modelled. Neither are non-integer numbers, whose fractional digits would also get commas.
- Markup, charts, styling, icons and `console.log`/`console.error` (lines 2-8, 108, 115-235) are presentation and logging. Only the status badge's colour test (line 124) and the peak-load total (line 153) are modelled.
- React's batching of state setters is not modelled. Each handler's updates are applied when it returns, one frame at a time, as in the single-threaded event loop.
