# Cheapest charging window for an EV charger

This project models the scheduling logic of `evse_window.py` and proves properties of it. The script takes a day-ahead hourly price list. It picks the cheapest block of `CHARGE_HOURS` (4) consecutive hours, widens that block over neighbouring hours priced below a threshold, and turns hour-ending timestamps into a start and an end time. The end is never earlier than 09:30. The script then builds the `$ST` command that sets the charger's schedule.

The model has four modules:

- `Rates` (`rates.dfy`): a price point `RatePoint(time, price)`. Timestamps are whole minutes: the date is `t / 1440` and the time of day is `t % 1440`. The file also defines hour and minute fields, `datetime.combine`, and the "increasing" and "hourly" shapes of a series.
- `Horizon` (`horizon.dfy`): `fetch_rates`'s filter and concatenation. It keeps the first day's points at or after 18:00, then the second day's points before 18:00.
- `WindowFinder` (`window.dfy`): `find_optimal_window`.
  - `WindowCosts` fills a preallocated array of block costs in a `for` loop.
  - `FirstCheapest` is Python's `min` with a key: a linear scan with a strict `<`, so the lowest index wins a tie.
  - `FindOptimalWindow` runs the two widening `while` loops, the hour-ending shift and the awake floor, and states its result against the specification functions `Cost`, `WidenedStart`, `WidenedEnd` and `AwakeFloor`.
- `Charger` (`charger.dfy`): the padding and the `$ST h m h m` string of `update_charger`. A parser for that string serves as its inverse, and the round trip is proved.

Modelling choices:

- Prices are integers. The source multiplies the feed's decimal prices by 10 and keeps them as floats.
- The threshold `ALLOW_CHARGE_PRICE * 10` is the parameter `maxRate`.
- When there is no candidate block (`len(rates) <= CHARGE_HOURS`), Python's `min` over an empty range raises. Here that is the error value `Err(NoWindow)`.

Further modelling notes:

- The start is one hour before the timestamp at the widened start index, and the end is one hour before the timestamp at the widened end index, before the awake floor is applied.
- The last block that would fit, starting at `len(rates) - CHARGE_HOURS`, is never a candidate.
- For hourly input the padded window spans at least 236 minutes (`Charger.PaddedWindowOrdered`). For any input with strictly increasing timestamps it can be empty (start equal to end) but is never inverted (`Charger.PaddedWindowNotInverted`).

## Model

| member | source | states |
|---|---|---|
| Rates.TimeOfDay | evse_window.py:86 | the time of day of a timestamp lies in [0, 1440) minutes |
| Rates.Hour | evse_window.py:95 | the hour field of a timestamp is below 24 |
| Rates.Minute | evse_window.py:95 | the minute field of a timestamp is below 60 |
| Rates.DateOf | evse_window.py:87 | the calendar date of a timestamp (`end.date()`); with `Rates.Combine` it is pinned down by `Rates.CombineSplits`, and `WindowFinder.AwakeFloor` proves the floored end keeps it |
| Rates.Combine | evse_window.py:87 | `datetime.combine` of a date and a time of day; `Rates.CombineSplits` proves the result has exactly that date and time of day, and `WindowFinder.AwakeFloor` uses it for 09:30 of the end's date |
| Rates.CombineSplits | evse_window.py:87 | a date combined with a time of day has exactly that date and that time of day |
| Rates.HourlyDistance | evse_window.py:82-83 | in an hourly series, points k places apart are k hours apart |
| Rates.IncreasingDistance | evse_window.py:82-83 | in a strictly increasing series of whole-minute timestamps, points k places apart are at least k minutes apart |
| Rates.HourlyIsIncreasing | evse_window.py:82-83 | an hourly series has strictly increasing timestamps |
| Horizon.AtOrAfterCutoff | evse_window.py:58 | the first day's condition, time of day at or after 18:00; `Horizon.HorizonMember` and `Horizon.HorizonParts` state that the horizon's first part is exactly the first day's points meeting it |
| Horizon.BeforeCutoff | evse_window.py:59 | the second day's condition, time of day before 18:00; `Horizon.HorizonMember` and `Horizon.HorizonParts` state that the horizon's second part is exactly the second day's points meeting it |
| Horizon.Keep | evse_window.py:58-59 | a filtered list is no longer than its input, and every point in it satisfies the filter's condition |
| Horizon.KeepMember | evse_window.py:58-59 | a point is in the filtered list exactly when it is in the input and satisfies the condition |
| Horizon.KeepIsSubsequence | evse_window.py:58-59 | filtering keeps the input's order |
| Horizon.KeepCount | evse_window.py:58-59 | the filter keeps every copy of a point that satisfies the condition and no copy of one that does not |
| Horizon.SubsequenceIncreasing | evse_window.py:58-59 | an order-preserving selection from an increasing series is increasing |
| Horizon.AssembleHorizon | evse_window.py:57-60 | the horizon (`fetch_rates`'s two filters and the concatenation); what it holds is stated by `Horizon.HorizonMember` and `Horizon.HorizonParts` |
| Horizon.HorizonMember | evse_window.py:57-60 | a horizon point is a first-day point at or after 18:00 or a second-day point before 18:00, and every such point is in the horizon |
| Horizon.HorizonParts | evse_window.py:57-60 | the horizon is the first day's points from 18:00 on, in order and each as often as it occurs, followed by the second day's points before 18:00, in order and each as often as it occurs (stated as subsequences and as multisets) |
| Horizon.HorizonIncreasing | evse_window.py:57-60 | when both fetches are increasing and fall on consecutive dates, the horizon is increasing |
| WindowFinder.Sum | evse_window.py:69 | the total price of a run of points, the `sum` of line 69; used by `WindowFinder.Cost` |
| WindowFinder.Cost | evse_window.py:69 | the total price of the 4-hour block starting at an index; `WindowFinder.WindowCosts` fills the cost list with it and `WindowFinder.FindOptimalWindow` proves the chosen block cheapest under it |
| WindowFinder.CandidateCount | evse_window.py:67 | there are candidate starts exactly when the list is longer than `CHARGE_HOURS`; each candidate block fits in the list |
| WindowFinder.WindowCosts | evse_window.py:67-69 | one entry per candidate start in [0, len - CHARGE_HOURS), each the total price of the 4-hour block starting there |
| WindowFinder.FirstCheapest | evse_window.py:71 | the index returned holds the least cost, and every earlier index costs strictly more (earliest tie-break) |
| WindowFinder.WidenedStart | evse_window.py:76-77 | backward widening never passes the block start; every hour it adds is priced below the threshold; it stops at index 0 or just after an hour priced at or above the threshold |
| WindowFinder.WidenedEnd | evse_window.py:78-79 | forward widening never retreats and stays within the last index; every index it steps onto (its test is on `rates[end_idx + 1]`) is priced below the threshold; it stops at the last index or before an index priced at or above the threshold |
| WindowFinder.WidenedEndIntended | evse_window.py:78-79 | the corrected forward widening: every hour that joins the window is priced below the threshold, and it stops before the first one that is not |
| WindowFinder.ForwardWideningAdmitsExpensiveHour | evse_window.py:78-79 | with prices 1, 1, 1, 1, 100, 1 for the hours ending 19:00 to 24:00 and threshold 16, the loop as written widens the window over the hour priced 100, so the window ends at 23:00; the corrected loop ends it at 22:00 |
| WindowFinder.AwakeFloor | evse_window.py:86-87 | the final end keeps its date, is not earlier in the day than 09:30 and never moves earlier; an end before 09:30 becomes 09:30 of its date, and any other end is unchanged |
| WindowFinder.FindOptimalWindow | evse_window.py:64-89 | fails exactly when there is no candidate block; otherwise the chosen block is the earliest cheapest one. The widened indices satisfy `0 <= lo <= best` and `best + 4 <= hi <= len - 1`. start is one hour before `rates[lo]`'s timestamp, and end is the awake floor of one hour before `rates[hi]`'s timestamp. For increasing timestamps, start < end |
| Charger.PadWindow | evse_window.py:93-94 | the window moved 2 minutes inward at each end; its effect on the command is stated by `Charger.ChargerCommandMeaning`, and that it never inverts by `Charger.PaddedWindowOrdered` and `Charger.PaddedWindowNotInverted` |
| Charger.Dec | evse_window.py:95 | a number is written as one or more decimal digits with no leading zero |
| Charger.DecRoundTrip | evse_window.py:95 | reading back a number written in decimal gives that number |
| Charger.StCommandFields | evse_window.py:95 | a `$ST` command starts with `"$ST "` and splits at its spaces into the four decimal fields |
| Charger.ParseStCommand | evse_window.py:95 | parsing a `$ST` command gives back exactly the four fields it was built from |
| Charger.StCommand | evse_window.py:95 | the `$ST` f-string; its shape is stated by `Charger.StCommandFields` and its round trip by `Charger.ParseStCommand` |
| Charger.ChargerCommand | evse_window.py:91-95 | the command `update_charger` sends for a window; what it says is stated by `Charger.ChargerCommandMeaning` |
| Charger.ChargerCommandMeaning | evse_window.py:93-95 | the command names, as hour < 24 and minute < 60, the time of day 2 minutes after the window start and the time of day 2 minutes before its end |
| Charger.ChargerCommandExample | evse_window.py:93-95 | the window 18:00 to 09:30 the next day (an end the awake floor produces) is sent as `$ST 18 2 9 28` |
| Charger.PaddedWindowOrdered | evse_window.py:82-94 | for an hourly list and any widened block, the padded window still spans at least 4 hours less 4 minutes, so it never inverts |
| Charger.PaddedWindowNotInverted | evse_window.py:82-94 | for any list with strictly increasing timestamps and any widened block, the padded window's end is not before its start (it can be empty) |

## Left out

- HTTP through the module-wide `requests.Session` (`fetch_for_date`'s request and `update_charger`'s request and response text): network I/O. `ChargerCommand` gives the command that would be sent.
- The regular-expression scrape of the JavaScript feed and the float conversion `float(rate) * 10` in `fetch_for_date`: text I/O and floating point. The model starts from already parsed `RatePoint` lists.
- `sys.argv`, `date.today()`, `print` and `main`: environment and process I/O. The choice of dates to fetch is the caller's.
- Floating-point prices and `ALLOW_CHARGE_PRICE * 10`: prices are integers and the threshold is the parameter `maxRate`.
- Timestamps are naive minute counts. There are no time zones, no daylight-saving changes and no seconds (the feed gives whole hours).
- WindowFinder.FindOptimalWindow: it uses the forward widening as written (see Findings); the corrected `WidenedEndIntended` is stated and proved beside it and is not wired in, so that the model sends the command the script sends.
- WindowFinder.FindOptimalWindow: `start < end` is promised only for strictly increasing timestamps, because with arbitrary timestamps the source promises nothing.
- Charger.PaddedWindowOrdered: the 236-minute span is proved for hourly lists only; for arbitrary strictly increasing timestamps `Charger.PaddedWindowNotInverted` proves only that the padded window can be empty but is never inverted.

## Findings

| source | as written | input that shows it | evidently intended | confidence | as-written member | corrected member |
|---|---|---|---|---|---|---|
| evse_window.py:78-79 | the forward loop tests `rates[end_idx + 1]` and then includes hour `end_idx`. The window ends one hour before `rates[end_idx]`'s timestamp, so hour `end_idx` is the one that joins, and its price is never tested | hours ending 19:00, 20:00, 21:00, 22:00, 23:00 and 24:00 priced 1, 1, 1, 1, 100, 1, with threshold 16: the block is hours 0-3, end_idx moves from 4 to 5, and the window ends at 23:00, covering 22:00-23:00, priced 100; the corrected loop ends it at 22:00 | test `rates[end_idx]`, the hour being added, as the backward loop tests `rates[start_idx - 1]` | medium, not executed | WindowFinder.ForwardWideningAdmitsExpensiveHour | WindowFinder.WidenedEndIntended |
