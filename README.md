# UK Air Quality Index banding (particulate monitor firmware)

This project models `calculateUkAqi` from the air-quality monitor firmware (`aqi.h`). The function takes the latest PM2.5 and PM10 readings and maps each one to a UK Daily Air Quality Index sub-index from 1 to 10, using a fixed ladder of inclusive upper bounds. It then writes the larger of the two sub-indices into the process-wide index `g_uk_aqi_value`.

The project has two modules:

- `BreakpointTable` (breakpoints.dfy) is a table-driven reference for a breakpoint ladder. The function `Band` gives the 1-based position of the first bound the reading does not exceed, or one past the last bound when the reading exceeds them all. Lemmas cover uniqueness, the exact interval of each band, monotonicity, saturation and boundary behaviour.
- `UkAqi` (aqi.dfy) models `aqi.h`:
  - the two ladders `Pm25Band` and `Pm10Band`, written branch for branch as in the source;
  - their bound tables, and lemmas that tie each ladder to `Band` over its table;
  - the max rule `CompositeAqi`;
  - the class `AirQualityState`, whose fields stand for the globals `g_pm2p5_ppd_value`, `g_pm10p0_ppd_value` and `g_uk_aqi_value`.

`AirQualityState.CalculateUkAqi` may change only `ukAqiValue` (``modifies this`ukAqiValue``). The two sub-indices are locals of the method, as they are in the source, and they start at 0 before the ladder assigns them.

The readings are modelled as `nat`. Their declared types are in a file that is not part of this model. Every property holds for any unsigned width. `CompositeExamples` also covers the 8-bit maximum, 255.

The constructor sets the index to 0, the "unset" value. This assumes the global is zero-initialised; its declaration is not part of this model.

`CompositeExamples` pins the band 8/9 edge: PM2.5 64 gives 8 and 65 gives 9, since 65 fails the `<= 64` test at aqi.h:22 and passes the `<= 70` test at aqi.h:24. So (PM2.5 65, PM10 10) gives a composite of 9. This matches the published UK Daily Air Quality Index bands for PM2.5: band 8 is 59–64 and band 9 is 65–70.

## Model

| member | source | states |
|---|---|---|
| `BreakpointTable.Band` | aqi.h:8-28 | the band is in 1..n+1; every bound before it is exceeded; the band's own bound, when there is one, is not exceeded (first bound not exceeded) |
| `BreakpointTable.BandUnique` | aqi.h:8-28 | any position that satisfies the "first bound not exceeded" rule is the band, so the band is determined uniquely |
| `BreakpointTable.BandIff` | aqi.h:8-28 | with strictly rising bounds, the band is k exactly when the reading lies in band k's interval (both directions) |
| `BreakpointTable.BandMonotone` | aqi.h:8-28 | a larger reading never gets a lower band |
| `BreakpointTable.BandSaturates` | aqi.h:26-27 | with rising bounds, any reading above the last bound gets the top band n+1 |
| `BreakpointTable.BandAtBoundary` | aqi.h:8-28 | each bound is in band k+1 and bound+1 is in band k+2 |
| `UkAqi.Pm25Band` | aqi.h:7-28 | the PM2.5 sub-index is always in 1..10, so the initial 0 is always overwritten |
| `UkAqi.Pm10Band` | aqi.h:30-51 | the PM10 sub-index is always in 1..10, so the initial 0 is always overwritten |
| `UkAqi.Breakpoints` | aqi.h:8-51 | each pollutant's ladder has nine strictly rising bounds: PM2.5 11,23,35,41,47,53,58,64,70 and PM10 16,33,50,58,66,75,83,91,100 |
| `UkAqi.SubIndexIsTableBand` | aqi.h:8-51 | each hand-written ladder equals the table reference `Band` over its bounds, for every reading |
| `UkAqi.SubIndexIff` | aqi.h:8-51 | the sub-index is k exactly when the reading is above bound k-1 and at most bound k, so every reading falls in exactly one band |
| `UkAqi.SubIndexAtBoundary` | aqi.h:8-51 | every listed bound gives its own band and bound+1 gives the next band (for example PM2.5 11 gives 1 and 12 gives 2; PM10 16 gives 1 and 17 gives 2) |
| `UkAqi.SubIndexMonotone` | aqi.h:8-51 | each sub-index is non-decreasing in its reading |
| `UkAqi.SubIndexSaturates` | aqi.h:24-51 | any reading above a pollutant's last bound gives 10 |
| `UkAqi.SaturationThresholds` | aqi.h:24-51 | PM2.5 readings of 71 or more, and PM10 readings of 101 or more, give 10 |
| `UkAqi.CompositeAqi` | aqi.h:53-58 | the composite is in 1..10, at least each sub-index, and equal to one of them, so it is their maximum |
| `UkAqi.TieBreakIrrelevant` | aqi.h:53-57 | PM10 is chosen only when strictly greater; preferring PM10 on ties would give the same index |
| `UkAqi.CompositeMonotone` | aqi.h:5-59 | raising either reading never lowers the composite index |
| `UkAqi.CompositeSaturates` | aqi.h:24-58 | one pollutant in its saturation range forces the composite to 10 |
| `UkAqi.CompositeExamples` | aqi.h:5-59 | (5, 90) gives sub-indices 1 and 8 and index 8; (64, 10) gives 8; (65, 10) gives 9; (0, 0) gives 1; (255, 255) gives 10 |
| `UkAqi.AirQualityState.CalculateUkAqi` | aqi.h:5-59 | afterwards the index global is the maximum of the two sub-indices of the current readings, in 1..10; the readings are unchanged and nothing else is written |
| `UkAqi.RecalculateTwice` | aqi.h:5-59 | two calls with unchanged readings report the same index (idempotence) |

## Left out

- config.h (WiFi credentials, MQTT broker and topics, report interval, button pin, baud rate): static configuration with no logic.
- The sensor driver, serial protocol, MQTT publishing, display, deep sleep and mode button: I/O and hardware, not in the modelled file.
- How the reading globals are updated, and any concurrency between sensor polling and this computation. The source does no synchronisation. The model takes the two readings as field values that the method only reads.
- Detecting "no reading yet". The source has no such check: a 0 reading falls into band 1 (see `CompositeExamples`), and the model has no error path either.
- The declared integer types of the globals. Readings and the index are `nat`. The sub-indices are `uint8_t` in the source, and their values 0..10 fit it, so no wrap-around can occur.
