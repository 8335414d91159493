# Water monitoring dashboard — verified model

`water.py` is a Streamlit dashboard for a set of water tanks. Under its
HTML it holds four small pieces of logic, and this project models each one
in Dafny and proves properties about it.

- **Tank carousel** (`carousel.dfy`). The selected tank index is kept in
  the session state and starts at 0. With three or more tanks, the Prev and
  Next buttons move the index by one, wrapping modulo the tank count. The
  selected tank is drawn in the middle and active. Its two neighbours, also
  taken modulo the tank count, are drawn dimmed on either side. With one or
  two tanks there are no buttons and every tank is drawn active.
  `TankCarousel` is a class that holds the session index. Its `Next`,
  `Prev` and `Render` methods are proved against the pure functions
  `Step`, `Neighbours` and `Layout`.
- **Tank gauge** (`tanks.dfy`). The fill percent is `level * 100`
  truncated to an integer. The percent picks one of three colour bands,
  with cut-offs at 30 and 60. The three configured tanks are part of the
  model as `SampleTanks`.
- **Alerts** (`alerts.dfy`). There are three independent rules:
  - a low-flow warning when the flow rate is below its threshold;
  - one critical alarm per tank below 25 %, in tank order;
  - a leak alarm when the latest consumption value is above 1.5 times the
    mean of the whole series, the latest value included.

  `Evaluate` is the pure rule set. `EvaluateAlerts` is the loop over the
  tanks, proved equal to it. Consumption values are integers, so the leak
  rule is stated exactly as `2 * n * latest > 3 * sum`. It is proved equal
  to the comparison with the mean. The consumption series `Evaluate`
  takes is the volumes of the same daily samples that `consumption.dfy`
  aggregates. It is the one `consumption` column of the data frame, and
  `SumOfVolumes` proves that the leak rule's total is the trends' total.
- **Consumption trends** (`consumption.dfy`, `calendar.dfy`). The Daily
  view is the series itself. The Weekly view sums each Monday-to-Sunday
  week and labels it with its Sunday. The Monthly view sums each calendar
  month and labels it with the month's last day. Days are day numbers from
  1970-01-01 in the proleptic Gregorian calendar. Month lengths follow the
  Gregorian leap-year rule.

Failures are modelled, not excluded (`failures.dfy`):

- With zero tanks the script takes the carousel branch and computes `% 0`,
  which raises ZeroDivisionError. `Neighbours` and `Layout` return
  `Error(ZeroDivision)` for it. `Next` and `Prev` report `ok == false` and
  leave the index alone.
- An empty consumption series makes `iloc[-1]` raise IndexError. The flow
  and level alerts have been raised by then, so `Evaluate` returns them
  together with the fault `IndexOutOfRange`.

Inputs that come from the outside become parameters:

- which button was pressed in a page run (`Command`);
- the flow rate and threshold;
- the tank list;
- the consumption series;
- which view is selected.

## Model

| member | source | states |
|---|---|---|
| Carousel.Step | water.py:117-125 | with three or more tanks a pressed button leaves the index in `[0, n)`; with fewer tanks, or no press, the index is unchanged |
| Carousel.Run | water.py:94-125 | the index after a sequence of page runs, starting from the initial 0; with one or two tanks it is always 0 (`RunStaysInRange` adds the range bound for three or more) |
| Carousel.NextWraps | water.py:124-125 | from a valid index Next moves one on, and from the last tank it wraps to 0 |
| Carousel.PrevWraps | water.py:121-122 | from a valid index Prev moves one back, and from tank 0 it wraps to the last tank |
| Carousel.PrevNextInverse | water.py:121-125 | Prev then Next, and Next then Prev, return the original index |
| Carousel.Neighbours | water.py:127-129 | fails with ZeroDivision exactly when there are no tanks; otherwise it keeps the center and gives left and right neighbours in `[0, n)` |
| Carousel.NeighboursAreSteps | water.py:121-129 | the left neighbour is the tank Prev would select and the right neighbour the tank Next would select |
| Carousel.WindowDistinct | water.py:127-129 | with three or more tanks, left, center and right are pairwise distinct |
| Carousel.Layout | water.py:99-143 | one or two tanks: each drawn once and active; three or more: three slots, the selection in the middle and active, tank `(idx - 1) % n` dimmed on the left and tank `(idx + 1) % n` dimmed on the right; zero tanks: ZeroDivision |
| Carousel.RunStaysInRange | water.py:94-125 | starting from 0, any sequence of page runs keeps the index in `[0, n)`; with one or two tanks it stays 0 |
| Carousel.FiveTanks | water.py:121-125 | with five tanks, Next from 0 gives 1, Prev from 0 gives 4, and Prev then Next gives 0 |
| Carousel.TankCarousel.constructor | water.py:94-95 | a new session starts with index 0 |
| Carousel.TankCarousel.Next | water.py:124-125 | updates the index as `Step` with Next, keeps it valid, and fails exactly when there are no tanks |
| Carousel.TankCarousel.Prev | water.py:121-122 | updates the index as `Step` with Prev, keeps it valid, and fails exactly when there are no tanks |
| Carousel.TankCarousel.CurrentWindow | water.py:127-129 | with three or more tanks the window is centered on the selection, its left is the tank Prev would select and its right the tank Next would select; every index in it names a tank |
| Carousel.TankCarousel.Render | water.py:97-143 | applies the press as `Step` would, then draws `Layout` of the new index; every drawn slot names an existing tank |
| Tanks.Truncate | water.py:40 | truncation toward zero: the result lies within one of the real number, on the side of zero |
| Tanks.Percent | water.py:40 | a level in `[0, 1]` gives a percent in `[0, 100]`, and the percent is the integer part of `level * 100` |
| Tanks.BandOf | water.py:46-50 | Low exactly below 30 %, Medium exactly from 30 % to below 60 %, High exactly from 60 % |
| Tanks.Colour | water.py:46-50 | each band has its own colour: light for Low, medium for Medium, dark for High, and no colour is shared |
| Tanks.TankColour | water.py:46-50 | the light colour exactly for levels below 0.3, the medium colour exactly for `[0.3, 0.6)`, the dark colour exactly from 0.6 |
| Tanks.BandByLevel | water.py:40-50 | the band chosen from the truncated percent is Low, Medium or High exactly when the level is below 0.3, in `[0.3, 0.6)`, or at least 0.6 |
| Tanks.SampleReadings | water.py:21-25 | the configured tanks read 100 %, 22 % and 56 %; the second is drawn light and the third medium |
| Tanks.SampleTanks | water.py:21-25 | three tanks with levels between 0 and 1; `SampleReadings` and `ConfiguredAlerts` state what they show |
| Alerts.Spike | water.py:197-198 | fails with IndexOutOfRange exactly when the series is empty |
| Alerts.Mean | water.py:197 | the mean times the number of values is the sum of the values |
| Alerts.SpikeMeansAboveMean | water.py:197-198 | on a non-empty series the integer rule holds exactly when the latest value exceeds 1.5 times the mean |
| Alerts.SingleSampleNoSpike | water.py:197-198 | a single non-negative sample never raises the leak alarm |
| Alerts.LevelAlertsSound | water.py:193-195 | every critical alarm names an existing tank below 25 %, with that tank's name |
| Alerts.LevelAlertsComplete | water.py:193-195 | every tank below 25 % has a critical alarm with its name |
| Alerts.LevelAlertsOrdered | water.py:193-195 | critical alarms follow strictly increasing tank order, so there is one per tank |
| Alerts.LevelAlerts | water.py:193-195 | the tank loop as a function; `LevelAlertsSound`, `LevelAlertsComplete` and `LevelAlertsOrdered` state what it raises |
| Alerts.FlowAlerts | water.py:190-191 | at most one warning, and it is the low-flow warning, raised exactly when the flow rate is below the threshold |
| Alerts.SpikeAlerts | water.py:197-198 | at most one alarm, and it is the leak alarm, raised exactly when the rule fires |
| Alerts.Evaluate | water.py:190-198 | low flow iff rate < threshold; a critical alarm for tank i with name m iff tank i exists, is below 25 % and is named m; a leak alarm iff the rule fires; fault IndexOutOfRange exactly for an empty series |
| Alerts.AlertOrder | water.py:190-198 | the low-flow warning can only come first and the leak alarm can only come last |
| Alerts.CriticalAlarmsAppend | water.py:193-195 | filtering the critical alarms out of two concatenated lists gives the concatenation of the filtered lists |
| Alerts.CriticalAlarmsOfLevels | water.py:193-195 | the output of the tank loop consists of critical alarms only |
| Alerts.ShownCriticalAlarms | water.py:190-198 | the critical alarms among all alerts shown are exactly the tank loop's, in tank order |
| Alerts.EvaluateAlerts | water.py:190-198 | the loop over the tanks, with the flow and leak checks around it, produces the same report as `Evaluate` |
| Alerts.Volumes | water.py:152 | the consumption column has one value per daily sample, that sample's volume |
| Alerts.SumOfVolumes | water.py:197-198 | the total behind the leak rule's mean equals the total volume of the samples, which every trend view conserves |
| Alerts.ConfiguredAlerts | water.py:21-28 | with the configured flow, threshold and tanks, the only alerts are the critical alarm for "Linked Tank" (tank 1) and, when the rule fires, the leak alarm |
| Calendar.WeekEnd | water.py:154 | the Sunday that closes a day's week is between that day and six days later |
| Calendar.WeekEndIdempotent | water.py:154 | a Sunday closes its own week |
| Calendar.WeekEndMonotone | water.py:154 | later days never close in an earlier week |
| Calendar.DaysIn | water.py:156 | every month has 28 to 31 days |
| Calendar.MonthStartMonotone | water.py:156 | months start in order of their month numbers, strictly for distinct months |
| Calendar.MonthOf | water.py:156 | the month found contains the day |
| Calendar.MonthOfUnique | water.py:156 | exactly one month contains a day |
| Calendar.MonthEnd | water.py:156 | the label is no earlier than the day and is the day before the next month starts |
| Calendar.MonthEndIdempotent | water.py:156 | a month's last day is labelled with itself |
| Calendar.MonthEndMonotone | water.py:156 | later days never fall in an earlier month |
| Calendar.KnownDates | water.py:154-156 | 1970-01-04 is a Sunday; March 1970 starts on day 59; February has 29 days in 2000 and 2024 and 28 in 1900 and 2100 |
| Consumption.PeriodEndBounds | water.py:151-156 | a period ends no earlier than any of its days, and its label lies in the same period |
| Consumption.PeriodEndMonotone | water.py:151-156 | later days never fall in an earlier period |
| Consumption.SamePeriod | water.py:153-156 | every day up to its period's end is in the same period |
| Consumption.PeriodEnd | water.py:152-156 | the period label of each view: the day itself, its week's Sunday, or its month's last day; `PeriodEndBounds`, `PeriodEndMonotone` and `SamePeriod` state its properties |
| Consumption.DailySeries | water.py:151-152 | one point per sample, with the sample's day and volume |
| Consumption.DailyIsIdentity | water.py:151-152 | the Daily trend is the series unchanged |
| Consumption.Aggregate | water.py:151-156 | the view switch: no more points than samples, none exactly when there are no samples, and one point per sample for Daily; `DailyIsIdentity`, `AggregateConserves` and `WeeklyExample` state the rest |
| Consumption.Group | water.py:153-156 | no more points than samples, none exactly when there are no samples; the last point is the last sample's period; neighbouring points have different periods |
| Consumption.AggregateConserves | water.py:151-156 | every view sums to the total volume of the series |
| Consumption.GroupConserves | water.py:153-156 | weekly and monthly regrouping preserve the total volume |
| Consumption.GroupIncreasing | water.py:153-156 | on a series with ascending dates the periods strictly increase |
| Consumption.GroupTotals | water.py:153-156 | on a series with ascending dates each point's total is the volume of the samples in its period |
| Consumption.GroupPeriods | water.py:153-156 | the trend has a point exactly for the periods that have samples |
| Consumption.GroupByPeriod | water.py:153-156 | on ascending dates the grouping is a calendar grouping: one point per period that has samples, in order, each holding that period's volume |
| Consumption.LabelsArePeriodEnds | water.py:154-156 | every label is the last day of its own period: a Sunday for Weekly, a month's last day for Monthly |
| Consumption.NoGaps | water.py:10-15 | on a series with a sample every day, each period is followed by the very next one, so no period without samples lies between two points |
| Consumption.WeeklyExample | water.py:154 | Saturday 1970-01-03 to Monday 1970-01-05 gives two weekly points: the weekend labelled Sunday day 3 and the Monday labelled Sunday day 10 |

## Left out

- Streamlit page layout, columns, buttons, `components.v1.html`, `line_chart` and `markdown`. These are rendering only. A button press is a `Command` parameter of a page run.
- The HTML and CSS of `render_tank` and `metric_card`, apart from the percent, the colour band and the active flag. The widget sizes, opacity and border colour are presentation only.
- The dummy data. It is drawn with numpy's random generator and dated from `datetime.today()`, so the consumption series is a parameter. The electricity hours and units, and their formatting, are floating-point display values with no invariant.
- The tank heights, widths and depths. They are carried in `Tank` but only displayed.
- Tanks.Percent: levels are exact reals. The float rounding of `level * 100` is not modelled: in binary floating point, 0.29 * 100 truncates to 28, where the exact value gives 29.
- Consumption.Group: the grouping is sparse, so a period with no samples gets no point, whereas pandas' resampling would give it a zero total. `NoGaps` proves that on a daily series, which is what the dashboard has, no such period occurs between two points.
- Timestamps and time of day. Samples carry whole day numbers, and pandas' handling of time zones and time of day is not modelled.
- Page runs that stop before the alert lines. On an empty frame, `df.iloc[-1]` at water.py:176 already raises while the electricity cards are built. With zero tanks, `% 0` at water.py:128 raises in the carousel. In both cases the alert lines never run. `Evaluate` treats the alert lines on their own, so for an empty series or an empty tank list it describes a report the script never shows.
- Alerts.SpikeMeansAboveMean: the mean and the factor 1.5 are taken as exact rationals. `Series.mean()` and `* 1.5` are floating point, and float rounding at or near a tie is not modelled.
