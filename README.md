# Solar irradiation and electrolyzer sizing: a Dafny model

The system is a small web tool for siting green-hydrogen production. It has
three parts:

- A React front end shows a map of sunny places. Clicking a place shows its
  monthly solar irradiation as a bar chart and a table.
- Clicking elsewhere on the map fetches a NASA POWER daily climatology and
  turns it into monthly totals. It also fetches OpenStreetMap coastlines and
  reports the distance to the nearest coastline vertex.
- A form sizes an electrolyzer for a solar farm. It uses the farm's capacity
  factor (CF): 1:2 of the peak power from an 18 % CF on, 1:4 below.

A Flask stub serves `/solar`. It returns a synthetic twelve-month profile and
the distance to the nearest of six fixed coastal points.

All numbers are Dafny `real`. Each module is named after the file it models:

- `Common` (common.dfy) holds the shared pieces:
  - `Option`/`Result`, the months and their day counts;
  - the left-to-right sum;
  - the two display roundings. `ToFixed` is JavaScript `toFixed`: ties go
    away from zero. `RoundHalfEven` is Python `round`: ties go to the even
    digit.
- `ElectrolyzerSizing` (sizing.dfy) models the sizing form:
  - the four parsed inputs and their checks in order;
  - the capacity factor and the two-bucket ratio;
  - the five output fields, as the class `SizingTool`. Its method
    `CalculateElectrolyzerPower` is proved against the function `Calculate`.
- `MapView` (map_view.dfy) models the map:
  - the site catalog and the annual total;
  - the climatology-to-monthly loop, as the method `MonthlyFromClimatology`;
  - the nested nearest-vertex loop, as the method `NearestVertexDistance`;
  - the click handler and the selected-site state, as the class
    `MapViewState`.
- `SolarChart` (solar_chart.dfy) models the chart and table of a site: the
  months, the totals and the per-day figures, and the tooltip.
- `Backend` (backend.dfy) models the `/solar` handler, its profile and its
  coast distance.

A JavaScript object is a list of (month, value) entries in insertion order.
Assigning to a property (`Put`) updates the entry in place or appends one.

The trigonometry is abstract:

- The haversine distance is a parameter `dist` of type
  `(real, real, real, real) -> real`.
- `cos(radians(|lat|)) ** 1.5` is a parameter `cosPow` of type
  `real -> real`.
- `parseFloat`/`float` results arrive as `Option<real>` (the front end), or
  through a parameter `parseFloat` of type `string -> Option<real>` (the
  back end). `None` stands for NaN, or for the `ValueError` Python raises.

Network answers are plain inputs:

- `Fetched<T>`: either `Rejected` or `Replied(ok, body)`.
- The climatology is a list of (key, daily value) entries.
- The Overpass answer is a list of elements, each with a kind and an
  optional geometry.

The two lookups of a click fail differently
(frontend/src/components/MapView.jsx:146-147, 190-209, 222-225). A climatology
answer without `ok` throws, and the click ends in the alert. A coastline
answer without `ok` only keeps the "More than 100" sentinel. Only a coastline
request that throws ends in the alert.

## Model

| member | source | states |
|---|---|---|
| Common.DaysInMonth | frontend/src/components/SolarChart.jsx:14-17 | every month has 28 to 31 days, and exactly February has 28 |
| Common.DaysInYear | frontend/src/components/MapView.jsx:151-155 | the day table covers the twelve months once each, in calendar order, and adds up to 365 |
| Common.ToFixed | frontend/src/components/MapView.jsx:124 | the `toFixed(d)` value lies within half a unit of the last decimal of x, and keeps the sign of x |
| Common.RoundHalfEven | backend/app.py:41 | `round(x, d)` lies within half a unit of the last decimal of x |
| Common.ToFixedOnGrid | frontend/src/components/MapView.jsx:167-169 | a value that already has d decimals comes back unchanged from `toFixed(d)` |
| ElectrolyzerSizing.Validate | frontend/src/components/ElectrolyzerSizingTool.jsx:37-57 | inputs are accepted iff peak > 0, battery >= 0, irradiation > 0 and 0 < PR <= 1; a rejection names a failing field, and every field checked before it passes |
| ElectrolyzerSizing.CapacityFactor | frontend/src/components/ElectrolyzerSizingTool.jsx:62 | CF times 8760 is irradiation times PR, with no clamp; CF is positive for positive inputs and at most irradiation/8760 when PR <= 1 |
| ElectrolyzerSizing.SizingRatio | frontend/src/components/ElectrolyzerSizingTool.jsx:69-78 | the ratio is 0.5 iff CF >= 0.18 and 0.25 iff CF < 0.18 |
| ElectrolyzerSizing.SizingRatioMonotone | frontend/src/components/ElectrolyzerSizingTool.jsx:69-77 | a larger CF never gets a smaller ratio |
| ElectrolyzerSizing.Calculate | frontend/src/components/ElectrolyzerSizingTool.jsx:28-89 | the error is empty iff all inputs pass; a power is suggested iff there is no error; after a rejection every other output is cleared |
| ElectrolyzerSizing.RejectedInputsLeaveOutputsEmpty | frontend/src/components/ElectrolyzerSizingTool.jsx:30-57 | a rejection reports the first failing field in check order, and leaves CF, ratio, power and reason empty |
| ElectrolyzerSizing.AcceptedInputsGiveRecommendation | frontend/src/components/ElectrolyzerSizingTool.jsx:59-83 | accepted inputs set CF = irradiation × PR / 8760 and the ratio by the 18 % rule; power = peak × ratio, strictly between 0 and peak; the reason matches the bucket and carries CF × 100 to one decimal, as `toFixed(1)` rounds it |
| ElectrolyzerSizing.SuggestedPowerIsHalfOrQuarter | frontend/src/components/ElectrolyzerSizingTool.jsx:81-82 | the suggested power is peak/2 or peak/4; the displayed `1:{1/ratio}` is 1:2 or 1:4, and power times it gives back the peak |
| ElectrolyzerSizing.BatteryCapacityIsAdvisoryOnly | frontend/src/components/ElectrolyzerSizingTool.jsx:46-49 | changing one admissible battery capacity for another changes no output |
| ElectrolyzerSizing.SuggestedPowerMonotoneInIrradiation | frontend/src/components/ElectrolyzerSizingTool.jsx:62-81 | more irradiation, all else equal, never lowers the suggested power |
| ElectrolyzerSizing.MunichExample | frontend/src/components/ElectrolyzerSizingTool.jsx:62-83 | the placeholder inputs (25 MW, 13.4 MWh, 1150 kWh/m², PR 0.80) give CF 920/8760, shown as 10.5 %, ratio 0.25 and 6.25 MW |
| ElectrolyzerSizing.ArandisExample | frontend/src/components/ElectrolyzerSizingTool.jsx:62-83 | with 2333 kWh/m² instead, CF 1866.4/8760 is shown as 21.3 %, with ratio 0.5 and 12.5 MW |
| ElectrolyzerSizing.BoundaryCases | frontend/src/components/ElectrolyzerSizingTool.jsx:54-77 | irradiation 8760 with PR 1 gives CF exactly 1; CF 0.18 takes the 0.5 branch; PR 1.5 is rejected and PR 1 accepted |
| ElectrolyzerSizing.SizingTool.constructor | frontend/src/components/ElectrolyzerSizingTool.jsx:7-17 | inputs start empty except PR 0.80; outputs start cleared |
| ElectrolyzerSizing.SizingTool.SetInput | frontend/src/components/ElectrolyzerSizingTool.jsx:120-185 | editing a field replaces that input only and leaves the outputs as they were |
| ElectrolyzerSizing.SizingTool.CalculateElectrolyzerPower | frontend/src/components/ElectrolyzerSizingTool.jsx:28-89 | after clearing, checking and setting the fields one by one, the outputs equal `Calculate` of the unchanged inputs; the results panel shows iff there is no error |
| ElectrolyzerSizing.CalculateTwice | frontend/src/components/ElectrolyzerSizingTool.jsx:28-34 | pressing Calculate twice leaves what one press leaves: the first clear erases any earlier result |
| MapView.Lookup | frontend/src/components/SolarChart.jsx:21 | a property read finds a value iff the month is a key, and the value is one stored under that key |
| MapView.Put | frontend/src/components/MapView.jsx:167-169 | after an assignment, the month reads the new value and every other month reads what it read before; the object grows only for a new key and its keys stay distinct; its key order is stated by `PutKeepsOrder` |
| MapView.PutKeepsOrder | frontend/src/components/MapView.jsx:167-169 | keys keep insertion order: assigning to an existing month leaves the key order as it was, and a new month goes after all the others |
| MapView.CatalogShape | frontend/src/components/MapView.jsx:20-119 | there are eight sites, each with the twelve months Jan..Dec in order, positive values and a positive coast distance; only the fourth and fifth, Aswan and Luxor, carry a Nile distance |
| MapView.YearlyTotal | frontend/src/components/MapView.jsx:121-125 | the value shown is within 0.05 of the sum of all monthly values, and non-negative when they all are |
| MapView.YearlyTotalBetween | frontend/src/components/MapView.jsx:121-125 | twelve months in [lo, hi] give a yearly figure in [12·lo − 0.05, 12·hi + 0.05]: a total, not an average |
| MapView.UpingtonYearlyTotal | frontend/src/components/MapView.jsx:21-29 | the first catalog site shows 2885.0 kWh/m² per year |
| MapView.MonthOfKey | frontend/src/components/MapView.jsx:157-161 | a key maps to a month only if it is that month's upper-case key; any other key maps to nothing |
| MapView.MonthOfKeyInverts | frontend/src/components/MapView.jsx:157-161 | every month's key maps back to that month |
| MapView.MonthlyTotal | frontend/src/components/MapView.jsx:167-169 | a month's total is within 0.05 of the daily value times the month's day count |
| MapView.MonthlyFromDaily | frontend/src/components/MapView.jsx:163-171 | the object the loop builds has distinct keys |
| MapView.MonthlyFromDailyLookup | frontend/src/components/MapView.jsx:163-171 | each month holds the day-weighted total of the last climatology value for its key, or is absent if the key is absent; other keys leave no trace |
| MapView.MonthlyFromDailySize | frontend/src/components/MapView.jsx:164-166 | the object has at most 12 entries, and exactly 12 when all month keys are present |
| MapView.MonthlyFromClimatology | frontend/src/components/MapView.jsx:163-171 | the loop builds exactly the object `MonthlyFromDaily` describes |
| MapView.Ways | frontend/src/components/MapView.jsx:194-196 | a vertex list is kept iff it belongs to an element of kind "way" that has a geometry |
| MapView.AllDistancesFromVertices | frontend/src/components/MapView.jsx:199-201 | every distance the nested loop compares comes from some vertex of some way |
| MapView.MinSoFarIsLeast | frontend/src/components/MapView.jsx:198-204 | the running minimum stays Infinity iff no distance was seen; otherwise it is one of the distances seen and no larger than any |
| MapView.NearestVertexDistance | frontend/src/components/MapView.jsx:198-204 | the nested loop ends with the least distance over all vertices of all ways, or Infinity when there are none |
| MapView.CoastDistanceIsNearestVertex | frontend/src/components/MapView.jsx:190-208 | the sentinel appears iff the answer is not ok or no way has a vertex; otherwise the value is the least vertex distance to one decimal, and that distance is reached by some vertex |
| MapView.CoastSentinelExactly | frontend/src/components/MapView.jsx:190-208 | the "More than 100" sentinel stays iff the answer is not ok or every way is empty |
| MapView.CoastValueIsNearest | frontend/src/components/MapView.jsx:198-207 | a numeric distance is the running minimum to one decimal; that minimum is no larger than any vertex's distance and is reached by one of them |
| MapView.DistanceToCoast | frontend/src/components/MapView.jsx:190-209 | the coastline step ends with the value `CoastDistanceOf` describes |
| MapView.HandleMapClick | frontend/src/components/MapView.jsx:141-225 | the click ends in the alert iff the climatology fails or is not ok, or the coastline query fails; otherwise it selects a site named by its coordinates to 3 decimals, with the converted monthly totals, the coast distance and no Nile distance |
| MapView.MapViewState.constructor | frontend/src/components/MapView.jsx:233 | nothing is selected at first |
| MapView.MapViewState.SelectPlace | frontend/src/components/MapView.jsx:243-248 | clicking a marker selects that catalog site |
| MapView.MapViewState.ClickMap | frontend/src/components/MapView.jsx:211-225 | a successful click selects the site named by its coordinates to 3 decimals, with the clicked coordinates, the converted monthly totals, the coast distance and no Nile distance; an alert keeps the previous selection |
| SolarChart.TableOf | frontend/src/components/SolarChart.jsx:20-24 | months, irradiation and per-day figures have the record's length; the months are its keys in order; each irradiation is the value read under its month; each per-day figure is that value over the month's days, to 2 decimals |
| SolarChart.TableAlignedWithRecord | frontend/src/components/SolarChart.jsx:20-21 | for an object with distinct keys, the irradiation column is the object's values in key order |
| SolarChart.PerDayRecoversMonthlyTotal | frontend/src/components/SolarChart.jsx:22-24 | the per-day figure times the day count is within days × 0.005 of the month's total |
| SolarChart.ChartDataOf | frontend/src/components/SolarChart.jsx:20-33 | the chart has one bar per property of the monthly record; its labels are the record's keys in order, and for an object with distinct keys its values are the record's values in the same order |
| SolarChart.TooltipMatchesRow | frontend/src/components/SolarChart.jsx:42-49 | hovering bar i shows the month, total and per-day figure of table row i |
| Backend.Attenuation | backend/app.py:13 | the attenuation is at least 0.2 and at least cos^1.5 of \|lat\|, and equals one of the two |
| Backend.IrradiationProfile | backend/app.py:12-16 | there are 12 monthly values, each 1000 × attenuation / 12, and the total is their sum |
| Backend.TotalIsAttenuatedBase | backend/app.py:12-15 | the annual total is 1000 × attenuation, hence at least 200 |
| Backend.AveragesOfFlatProfile | backend/app.py:60-61 | every month equals the monthly average total/12; the daily average total/365 is twelve months' value spread over 365 days, and never below 200/365 |
| Backend.ProfileSymmetric | backend/app.py:13 | a latitude and its mirror in the other hemisphere get the same profile |
| Backend.Minimum | backend/app.py:41 | `min` returns an element of the list that no element is below |
| Backend.DistanceToCoast | backend/app.py:22-45 | the result is the distance to some coastal point that is no farther than any other, rounded to 2 decimals half-to-even |
| Backend.CoastDistanceBound | backend/app.py:40-41 | the reported distance exceeds no coastal point's distance by more than 0.005 |
| Backend.SolarResponse | backend/app.py:47-78 | the status is 400 iff a parameter is missing, 500 iff both are present but one does not parse, and 200 iff both parse; a 200 echoes the parsed coordinates |
| Backend.MissingParameterIsBadRequest | backend/app.py:50-54 | a missing `lat` or `lon` gives 400 with the fixed Spanish message, whatever the other argument and the parser |
| Backend.UnparsableLatitudeIsServerError | backend/app.py:56-78 | an unparsable latitude gives 500 with "could not convert string to float: '…'" for the latitude text, checked before the longitude |
| Backend.SuccessfulResponse | backend/app.py:59-74 | with both coordinates parsed, the answer is 200 with the coordinates, an annual figure of round(1000 × attenuation, 2) (so at least 199.995), and the monthly and daily averages rounded to 2; it carries 12 monthly values equal to the monthly average, and the six-point coast distance |

## Left out

- Trigonometry: the haversine distances (frontend/src/components/MapView.jsx:127-137, backend/app.py:32-38) and `cos(radians(|lat|)) ** 1.5` are parameters. No property of sine, cosine or square root is assumed.
- Floating point: the model computes on exact reals. IEEE rounding of sums and products, and the binary representation behind `toFixed` and `round`, are not modelled. On doubles, a CF within rounding error of 0.18 may fall on the other side of the threshold than its exact value.
- Text parsing: `parseFloat` and Python `float` are inputs (`Option<real>`) or a parameter. Infinity, NaN passed through arithmetic, and numbers with trailing junk such as "0.8abc" are not modelled.
- Backend.SolarResponse: when `cos(radians(|lat|)) < 0`, for example when 90 < |lat| < 270, Python's `** 1.5` gives a complex number, so `max` raises and the answer is 500. The model lets `cosPow` return a real instead.
- Backend.ConversionError: uses single quotes around the text. Python's `repr` switches to double quotes, or escapes characters, for some strings.
- ElectrolyzerSizing.Calculate: the `catch` branch at frontend/src/components/ElectrolyzerSizingTool.jsx:85-88 is not modelled. Real arithmetic there cannot throw, and JavaScript arithmetic does not throw either.
- ElectrolyzerSizing.Calculate: keeps, of the reason texts, only the bucket and the percentage they print. The field messages are in `ErrorText`.
- MapView.HandleMapClick: keeps the fetches as inputs, and covers neither their URLs and query text, nor `async`, nor the timing of the two requests. The alert text and console logging are left out. A climatology body without the expected nesting would throw; this is not modelled, since the body is given already as a list of entries.
- MapView.MonthOfKey / MapView.MonthlyFromDaily: `monthMap[key]` (frontend/src/components/MapView.jsx:165) also finds members that every JavaScript object inherits, such as `"constructor"` or `"toString"`. A climatology key with such a name would add an entry with the value NaN, under a key that is not a month. The model recognises only the twelve month keys and skips every other key.
- MapView.DistanceToCoast: holds the number that the `toFixed(1)` string shows, not the string itself. The same goes for `YearlyTotal`, and for the per-day figures in `SolarChart`.
- Rendering: JSX markup, Tailwind classes, Leaflet markers and popups, and chart.js registration, colours and titles.
- The block at frontend/src/components/SolarChart.jsx:100-106 reads `total_annual`, `average_monthly` and `average_daily`. No site carries these fields, so the block is never shown, and it is not modelled.
- frontend/src/App.jsx is not part of this model: it only wires the components together.
- backend/test.py is not part of this model. It is an HTTP client, and it reads keys that app.py does not return.
- Flask plumbing: routing, CORS, `jsonify`, traceback printing and `app.run`.
