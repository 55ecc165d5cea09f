# Tube departure board — a Dafny model

The board shows the next London Underground arrivals at one station on a small OLED display. A
fetch worker downloads predictions from the TfL arrivals endpoint and selects the entries to show.
A render worker lays the two profiles' entries out as frames. The display loop in `main` shows the
frame of the profile picked by a toggle switch. It also pauses the workers when the Raspberry Pi
gets too hot. The stages hand data to each other through one-slot queues, where the newest value
wins.

This project models the logic of `src/main.py`:

- **Arrival selection** (`Arrivals`). This is `get_arrivals`. It filters by line and direction
  substring and drops records under the earliest-arrival threshold. It then sorts stably by
  `timeToStation` (a missing value counts as +infinity) and takes the slice `[:n]`. Last, it
  works out the destination and drops records whose timestamp does not parse.
- **Countdown text** (`Countdown`). This is `get_time_to_arrival`: " " when not shown,
  `"<minutes> min"` rounded half up, or `"due"`.
- **Row layout** (`Layout`). This is the loop of `draw_arrival_lines`, as a method proved equal to
  the function `Plan`.
- **The `query_TFL` retry loop** (`Query`).
- **Start-up resolution** (`Station`): `get_lines_filter`, `check_lines` and the choice of stop
  point in `get_station_id`.
- **The one-slot queue** (`Channel.Slot`): drain-then-put and `get_nowait`.
- **Thermal pause and resume** (`Thermal`). This is a two-state machine with a 3-degree
  hysteresis band, plus the cooling loop of `main` over a `PauseEvent`.
- **One cycle of each stage** (`Workers`): the fetch worker, the render worker and a display tick.

What is proved:

- the selected entries are exactly the parsed entries of the slice `[:n]` of the sorted
  candidates, and each comes from a record that passes the filter and the threshold;
- the selection is sorted, and the sort is a stable permutation; for every `timeToStation`, the
  selected entries with that value keep the API's order;
- the slice comes before timestamps are checked, so a bad timestamp shortens the selection
  instead of letting a later record move up;
- the countdown's minutes are rounded half up;
- counting shown entries from 0, the k-th one is drawn as row k+1 at
  `k * (fontSize + rowPadding) + yOffset`, and drawing stops at the first row at or below the
  bottom edge;
- the retry loop raises exactly when at least one attempt is allowed and every allowed attempt
  fails; with `max_retries <= 0` it returns `[]`; otherwise it returns the first success;
- the filter pairs are non-empty and lower case;
- the gate pauses above the limit and resumes only at or below the limit minus three;
- in a queue, a second publish replaces the first and an empty read keeps the previous value.

The HTTP replies, the timestamp parser (`strptime`), the font's text width and the clock are
parameters of the model.

Four behaviours of the code that a reader might expect to be otherwise, all modelled as the code
has them:

- A fetch whose retries all fail does not keep the previous selection. `get_arrivals` catches the
  error and returns `[]` (src/main.py:320-322). The fetch worker publishes that `[]`
  (src/main.py:512-532), so the board goes empty (`Workers.FailedFetchPublishesEmpty`).
- The temperature is checked only on display ticks that took a new frame. The sensor is read
  after the `get_nowait` inside the same `try` (src/main.py:744-766), so a tick that finds its
  frame queue empty skips the check (`Workers.DisplayTick`).
- The render worker reads the second profile's queue only when the first profile's queue held a
  value. Both reads are in one `try` (src/main.py:580-585), so an empty first queue skips the
  second one (`Workers.RenderCycle`).
- A failed sensor read is not treated as "still hot". The `open` and `float` at
  src/main.py:752-753 raise out of the display loop, which is not modelled (see below).

## Model

| member | source | states |
|---|---|---|
| `Query.QueryTfl` | src/main.py:109-131 | the loop's reply equals `QueryReply`; attempts made equal `Tries`; one pause follows each failed attempt except the last |
| `Query.RaisedIffAllFail` | src/main.py:116-129 | from any attempt on, the loop raises exactly when every remaining allowed attempt fails |
| `Query.QueryRaisedIffAllFail` | src/main.py:116-131 | `query_TFL` raises exactly when `max_retries > 0` and all `max_retries` attempts fail; with `max_retries <= 0` it returns `[]` |
| `Query.ReturnsFirstSuccess` | src/main.py:116-121 | a returned body is the first successful attempt's body, with a falsy body replaced by `[]`; every earlier attempt failed |
| `Query.TriesBounded` | src/main.py:116 | no more than `max_retries` attempts are made |
| `Query.RetryScenario` | src/main.py:116-130 | two failures then a success, with three attempts allowed, returns the third body after three attempts |
| `Arrivals.Candidates` | src/main.py:278-290 | a record is kept exactly when its lower-cased line id and platform are non-empty, its `timeToStation` is missing or at least the threshold, and some filter pair matches the line and occurs in the platform; a kept record appears as often as in the input |
| `Arrivals.CandidatesWithTime` | src/main.py:278-290 | filtering keeps API order: for every `timeToStation`, the kept records with that value are the filter of the input records with that value |
| `Arrivals.StableSort` | src/main.py:291-293 | the sorted list is a permutation of its input |
| `Arrivals.StableSortSorted` | src/main.py:291-293 | the sorted list ascends by `timeToStation`, with missing values last |
| `Arrivals.StableSortStable` | src/main.py:291-293 | for every key, the records with that key keep their API order |
| `Arrivals.Take` | src/main.py:295 | `s[:n]` is a prefix of length `min(n, len)` for `n >= 0`, and `len + n` (or 0) for negative `n` |
| `Arrivals.Destination` | src/main.py:296-297 | the destination is never empty |
| `Arrivals.SelectFromKept` | src/main.py:278-318 | an entry is selected exactly when it is the parsed entry of a record in the slice `[:n]` of the sorted candidates; each selected entry comes from an input record that passes the filter |
| `Arrivals.SelectStable` | src/main.py:278-318 | for every `timeToStation`, the selected entries with that value are, in order, the parsed entries of a prefix of the filtered records with that value in API order |
| `Arrivals.SelectAboveThreshold` | src/main.py:284 | no selected entry has `timeToStation` below `earliest_arrival * 60` |
| `Arrivals.SelectSorted` | src/main.py:291-318 | the selected entries ascend by `timeToStation`, with missing values last |
| `Arrivals.SelectLength` | src/main.py:295-318 | at most `n` entries; the selection is shorter than the slice exactly when a sliced record's timestamp is missing or unparsable |
| `Arrivals.FailedFetchEmpty` | src/main.py:262-322 | a raised query or a body that is not a list gives `[]` |
| `Text.Decimal` | src/main.py:91 | an integer is written as at least one decimal digit, with no leading zero |
| `Text.DecimalRoundTrip` | src/main.py:91 | reading the written digits back gives the number |
| `Text.LowerIsLower` | src/main.py:252 | lower-casing yields a lower-case string |
| `Countdown.RoundedMinutes` | src/main.py:85-91 | the minutes `m` satisfy `60m <= s + 30 < 60m + 60`, which is `floor(s / 60 + 0.5)` |
| `Countdown.TimeToArrivalMeaning` | src/main.py:83-103 | shown exactly at or above the threshold; above 60 s the text is the rounded minutes plus " min"; within 60 s it is "due"; when hidden it is " " with width 0 |
| `Countdown.TimeToArrivalExamples` | src/main.py:83-96 | 500 s gives "8 min", 61 s "1 min", 600 s "10 min", 50 s "due"; 50 s with a 1-minute threshold is hidden |
| `Layout.DrawArrivalLines` | src/main.py:432-488 | the loop draws exactly the rows of `Plan` |
| `Layout.PlanRows` | src/main.py:434-446 | the k-th shown entry is row k+1 at `k * (fontSize + row_padding) + yoffset`, above the bottom edge, with its destination and countdown; hidden entries take no row; drawing stops early only at a row at or below the edge |
| `Channel.Slot.constructor` | src/main.py:41-45 | a new queue is empty |
| `Channel.Slot.Publish` | src/main.py:526-532 | after drain-then-put the slot holds exactly the new value |
| `Channel.Slot.TryConsume` | src/main.py:580-585 | `get_nowait` returns the unread value, if any, and empties the slot |
| `Channel.Slot.ConsumeOrKeep` | src/main.py:580-585 | the consumer takes the unread value, or keeps its previous one when the slot is empty |
| `Channel.LatestWins` | src/main.py:526-532 | publishing v1 then v2 and reading gives v2; a second read keeps the previous value |
| `Thermal.StepHysteresis` | src/main.py:754-766 | running pauses exactly above the limit; paused resumes exactly at or below the limit minus 3; a reading that pauses never resumes |
| `Thermal.StaysPausedWhileWarm` | src/main.py:756-765 | while paused, readings above the limit minus 3 keep it paused |
| `Thermal.StaysRunningWhileCool` | src/main.py:754 | while running, readings at or below the limit keep it running |
| `Thermal.ResumeNeedsCoolReading` | src/main.py:756-766 | becoming running again requires a reading at or below the limit minus 3 |
| `Thermal.HysteresisExample` | src/main.py:754-766 | with limit 60: 61 pauses, 60 and 59 stay paused, 57 resumes |
| `Thermal.PauseEvent.constructor` | src/main.py:711-712 | the event starts set, so the workers run |
| `Thermal.PauseEvent.Set` | src/main.py:766 | setting the event lets the workers run |
| `Thermal.PauseEvent.Clear` | src/main.py:755 | clearing the event stops the workers at their next wait |
| `Thermal.CheckTemperature` | src/main.py:751-766 | above the limit the event is cleared and one cooldown screen is shown per reading; it is set again exactly when a reading at or below the limit minus 3 arrives, matching the state machine `Run` |
| `Station.GetLinesFilter` | src/main.py:230-253 | one search per entry; fails with the first entry whose search raised or found nothing; otherwise the filter holds exactly the lower-cased pairs of entries with a non-empty line id and direction, all non-empty and lower case |
| `Station.CheckLines` | src/main.py:214-227 | true exactly when every line named by either filter is among the served line ids |
| `Station.FirstQualifyingMeaning` | src/main.py:195-200 | the loop's choice is the first qualifying child, or none when no child qualifies |
| `Station.ChosenMeaning` | src/main.py:186-200 | the primary stop point wins when it qualifies; otherwise the first qualifying child; nothing only when none qualifies |
| `Station.ChooseStopPoint` | src/main.py:186-200 | the loop with `break` returns `Chosen` |
| `Station.GetStationId` | src/main.py:152-211 | each error case of the search and detail queries, `NotServed` when nothing qualifies, and otherwise the chosen stop point's name and id |
| `Workers.FetchCycle` | src/main.py:505-532 | with the event set, each profile's queue then holds exactly that profile's new selection; with it clear, nothing changes |
| `Workers.FailedFetchPublishesEmpty` | src/main.py:512-532 | when every attempt fails, the published selection is `[]` |
| `Workers.RenderCycle` | src/main.py:573-610 | the two-queue read in one `try`, with keep-previous; each frame queue then holds the layout of that profile's current list |
| `Workers.DisplayTick` | src/main.py:739-775 | the switch picks the queue; the temperature is checked only after a frame was taken; the frame is pasted unless cooling is still under way |
| `Workers.EndToEndExample` | src/main.py:278-318 | one Piccadilly eastbound record 600 s away, with an 8-minute threshold, is selected alone and drawn as row 1 reading "10 min" |

## Left out

- HTTP (`requests`, the session, URLs, parameters, timeouts) and JSON decoding are not modelled. Each query is given by what it returned: `Query.Attempt` for each attempt, or the replies `Station.LineLookup`, `Station.SearchReply` and `Station.DetailReply`.
- The model has only the exceptions `query_TFL` catches. A JSON field of an unexpected type (a null `lineId`, a non-numeric `timeToStation`) would raise inside `get_arrivals` and give `[]`. `Arrivals.Prediction` types such values out.
- A line-search reply that is a list, so that `.get` raises, is counted as `Station.LookupRaised`.
- `str.lower` is modelled for ASCII letters only; TfL ids and platform names are ASCII.
- `datetime.strptime` and `pytz` are not modelled: parsing is the parameter `parse: string -> Option<int>`.
- The clock is read once per frame, as whole seconds (`now`). The source calls `time.time()` for every entry and truncates a float difference with `int()`.
- Countdown minutes use exact integer arithmetic. This matches `math.floor(s / 60 + 0.5)` wherever floating point is exact.
- Drawing with PIL and luma and the fonts are not modelled: `make_Font`, `draw_centered_text_rows`, `draw_initial_display`, `draw_pause_display`, `draw_clock`. Text width is a parameter. A frame is the list of rows drawn, not pixels.
- Arrivals.Destination: its contract states only that the destination is non-empty. The choice of `towards`, then `destinationName`, then the placeholder is stated by its body alone.
- Layout.DrawArrivalLines: does not include the line-name column, which is drawn only when more than one line is configured. It also leaves out the x positions of the row number and destination. Only the countdown's x position is kept.
- The rectangle computations in `main`, which use floats, are not modelled. The bottom edge of the arrivals area is the parameter `maxY`.
- Threads, `threading.Event.wait`, the sleeps, frame budgeting and overrun warnings are not modelled. The same goes for the interleavings between workers and the `queue.Full` warning, which only a concurrent producer can trigger. Each stage is modelled as one sequential cycle.
- GPIO reads and the sysfs temperature file are not modelled; temperatures are given as real readings. A failed read raises out of the display loop into `main`'s cleanup and `sys.exit(1)`, which is not modelled either.
- Thermal.CheckTemperature: models the cooling loop over a finite list of later readings. When they run out while still hot, it reports `done == false`; the source would keep waiting.
- src/config.py holds only constants; they are parameters here. The model's constants are the defaults `n = 7` and `max_retries = 3`.
- src/test.py is an emulator smoke test and is not part of this model.
