# AWD compliance engine — a Dafny model

`App.py` is a dashboard for an alternate-wetting-and-drying (AWD) rice
irrigation study. Under its user interface is a small engine:

- it cleans an uploaded farm master table and a table of water-level
  readings taken at field pipes;
- it puts each reading into one of 18 season weeks (16 June to 15 October 2025);
- it rates every pipe in every farm-week as compliant or not;
- it turns the share of compliant pipes into a payment of 300 per
  eligible acre.

This project models that engine and proves what it promises.

Modules, in dependency order:

| module | file | what it models |
|---|---|---|
| `Wrappers` | wrappers.dfy | `Option` and `Result`, standing for `None` returns and raised errors |
| `Text` | text.dfy | `str.strip`, `upper`, `lower`, the `in` substring test, Python's string order |
| `Grouping` | grouping.dfy | the key order of a pandas `groupby`: distinct keys, ascending |
| `Columns` | columns.dfy | `find_column` |
| `Flags` | flags.dfy | `convert_to_binary` and `assign_group` |
| `Weeks` | weeks.dfy | `WEEK_PERIODS`, calendar day numbers, `assign_week` |
| `Cleaning` | cleaning.dfy | `clean_master_data`, `clean_water_data` |
| `Compliance` | compliance.dfy | the per-pipe rule and its failure reason |
| `Analysis` | analysis.dfy | week filter, inner join, farm-week groups, `analyze_compliance` |

## How the model maps the code

- **Tables.** A table is a header row plus rows of cells.
  - A `Cell` is `Missing` or `Present`.
  - A present cell carries the three readings the code takes of it:
    its `astype(str)` text, its `to_numeric(errors='coerce')` number and
    its `to_datetime(errors='coerce')` day number.
- **Dates** are day numbers counted from 1970-01-01 (`Weeks.CivilDay`).
- **Numbers** (levels, acres, rates, payments) are `real`.
- **`find_column` defaults.** A default column name that is not a header
  raises `KeyError` in the code. The model returns
  `Failure(MissingColumn(name))`.
  - The `else "Unknown_Farm"` style branches of the cleaning functions
    never run, because every default is a non-empty string.
- **Missing ids.** `astype(str)` turns a missing Farm_ID or Pipe_ID into
  the text "nan", never into NaN.
  - So `fillna("Unknown_Farm")` and the final `dropna(subset=['Farm_ID'])`
    of `clean_master_data` change nothing.
  - The Farm_ID part of the `dropna` in `clean_water_data` drops nothing.
  - The `pd.isna(pipe_id)` test in `analyze_compliance` is never true.
  - These steps read as if meant to drop or relabel missing ids; the model
    follows what the code does.
- **Water cleaning.** `clean_water_data` keeps exactly the rows whose
  date and water level parse.
- **Groups.** A `groupby` visits its keys in ascending order. The model
  builds this order by insertion (`Grouping.GroupKeys`) and proves it
  strictly ascending under Python's code-point order on strings.
- **`merge(how='inner')`** pairs each reading, in order, with each master
  row of the same Farm_ID, in order.
- **Farm details.** `farm_info` is the first row of its group. It carries
  the first master row with the group's Farm_ID.
- **No group gate.** Payment does not depend on the farm's group: every
  group, 'Unknown' included, is paid 300 per eligible acre.
- **"no <100mm reading"** is recorded when no reading is at or below
  100 mm. The test is `m <= 100`, whatever the message says.
- **The analysis loops are methods.**
  - `AnalyzePipes` counts pipes and compliant pipes and appends summaries
    and comments.
  - `AnalyzeGroups` appends one payment row and one monitoring row per
    group.
  - Each is proved equal to a specification function. The facts of the
    code are proved about those functions.

## Model

| member | source | states |
|---|---|---|
| Text.Strip | App.py:95 | the stripped text is the slice `s[a..b]` of the input with only whitespace before `a` and after `b`, and it neither starts nor ends with whitespace |
| Text.ContainsIff | App.py:87 | the substring test holds exactly when the keyword occurs at some offset of the column name |
| Columns.MatchingColumns | App.py:87 | the matching columns are exactly those columns whose lower-cased name contains a lower-cased keyword |
| Columns.FindColumn | App.py:85-90 | any result other than the default is a column of the table that matches a keyword |
| Columns.FindColumnFirstMatch | App.py:85-90 | the result is the matching column with the smallest index, or the default exactly when no column matches |
| Flags.TokenValue | App.py:95-104 | the value is 0 or 1; it is 1 exactly for "1", "1.0", "YES", "Y", "TRUE", "T", "X"; the listed negative tokens, blank, "NA", "NAN" and "NONE" give 0 |
| Flags.ConvertToBinary | App.py:92-104 | after trimming and upper-casing, a cell reads as 1 exactly when it is a positive token; each listed negative token reads as 0 |
| Flags.ConvertIgnoresCase | App.py:95 | a lower-cased spelling of a flag reads the same as the original |
| Flags.AssignGroup | App.py:172-179 | exactly one of A, B, C, Unknown; A when flag A is 1, else B when flag B is 1, else C when flag C is 1, else Unknown |
| Cleaning.ResolveColumn | App.py:116-119 | the column found is used; when no column matches and the default name is not a header, the result is that default's KeyError |
| Cleaning.ResolveOptionalColumn | App.py:122-124 | a group column is absent exactly when no header matches its keywords |
| Cleaning.ResolveMasterColumns | App.py:116-124 | succeeds exactly when Farm_ID, Farmer_Name, Village and Acres all resolve; then each field, the three group columns included, is the column `find_column` resolves for it; otherwise the error names one of those four defaults, which is not a header |
| Cleaning.CoerceAcres | App.py:146-150 | acres are never negative; a missing or unparsable value gives 0, a negative one is clipped to 0, and any other value is kept |
| Cleaning.FlagValue | App.py:153-169 | a flag is 0 or 1; an absent group column or a missing cell gives 0; a present cell gives `convert_to_binary` of its text |
| Cleaning.CleanMaster | App.py:109-184 | succeeds exactly when the columns resolve; then one cleaned farm per input row, every one with non-negative acres |
| Cleaning.CleanMasterRowMeaning | App.py:141-181 | farm i takes Farm_ID, Farmer_Name and Village as the text of row i's resolved cells, acres as row i's coerced acres, and group A exactly when flag A is 1, B exactly when A is 0 and B is 1, C exactly when A and B are 0 and C is 1, Unknown exactly when all three are 0 |
| Cleaning.ResolveWaterColumns | App.py:197-200 | succeeds exactly when Date, Farm_ID, Pipe_ID and Water_Level_mm all resolve; then each field is the column `find_column` resolves for it; otherwise the error names one of those defaults, which is not a header |
| Cleaning.CleanWaterRow | App.py:214-224 | a row yields a measurement exactly when its date and its water level parse, and that measurement carries the row's farm and pipe |
| Cleaning.KeptRowsCount | App.py:224 | the `dropna` keeps each measurement exactly as many times as there are input rows that read as it |
| Cleaning.CleanWater | App.py:191-226 | succeeds exactly when the columns resolve; then every kept measurement comes from an input row with a parsable date and level, every such row is kept, and each measurement occurs once per row that yields it |
| Weeks.CivilDayEpoch | App.py:240-241 | the day numbering starts at 1970-01-01 and puts 16 June 2025 at day 20255 |
| Weeks.WeekPeriodDates | App.py:19-38 | each week's first and last day number is the calendar day of the 2025 dates in the table |
| Weeks.WeekPeriodDays | App.py:19-38 | week k+1 starts on day 20255 + 7k; weeks 1 to 17 end 6 days after they start; week 18 ends on day 20376 |
| Weeks.WeekPeriodsShape | App.py:19-38 | weeks are numbered 1 to 18 and contiguous; weeks 1 to 17 last 7 days and week 18 lasts 3; the season runs 16 June to 15 October 2025 |
| Weeks.FindWeek | App.py:239-244 | a week returned is the number of a period whose range holds the day; no result means no period holds it |
| Weeks.FindWeekUnique | App.py:239-244 | in contiguous periods, week k+1 is returned exactly when the day is in its range |
| Weeks.FindWeekSpan | App.py:239-244 | in contiguous periods, a day has a week exactly when it lies between the first start and the last end |
| Weeks.AssignWeekUnique | App.py:232-244 | `assign_week` returns week k+1 exactly when the date lies in week k+1's inclusive range |
| Weeks.AssignWeekSeason | App.py:232-244 | a date has a week, numbered 1 to 18, exactly when it lies between 16 June and 15 October 2025 |
| Compliance.SortByDaySorted | App.py:278 | the readings of a pipe come out sorted by date |
| Compliance.SortByDayPermutes | App.py:278 | sorting keeps every reading, each as often |
| Compliance.SortedGap | App.py:290-292 | on sorted readings, last date minus first date is at least k exactly when some two readings are at least k days apart |
| Compliance.EvaluatePipeCompliant | App.py:297-304 | a pipe is compliant exactly when it has at least two readings, all at most 200 mm, one at most 100 mm, and two of them at least 3 days apart |
| Compliance.EvaluatePipeReason | App.py:305-317 | a non-compliant pipe gets one reason: ">200mm" when some reading is above 200, else "no <100mm" when none is at or below 100, else "insufficient gap"; one reading gives "only 1 measurement", none gives "no measurements" |
| Compliance.SamplePipes | App.py:53-59 | sample data: pipe 10028A1 (180 then 90 mm, 3 days apart) passes in either order; 10028B1 (250 then 120) fails on ">200mm"; 100001 (150 then 80, 3 days apart) passes |
| Analysis.WithWeeksCount | App.py:250-251 | each reading that has a week is kept once per copy, paired with that week; a pair with any other week, or a reading without one, occurs 0 times |
| Analysis.JoinOneCount | App.py:254 | one reading is joined to each master row with its Farm_ID once per copy of that master row, and to nothing else |
| Analysis.JoinCount | App.py:254 | a (reading, master row) pair with the same Farm_ID occurs as many times as the reading's count times the master row's count; a pair with different Farm_IDs occurs 0 times |
| Analysis.MergedCount | App.py:250-254 | the merged table holds a reading joined to a master row, under the reading's week, (copies of the reading) × (copies of the master row) times when the Farm_IDs agree, and never otherwise |
| Analysis.MergedRowIff | App.py:250-254 | a row is in the merged table exactly when its reading has that week and its master row has the reading's Farm_ID |
| Analysis.FarmWeeks | App.py:260 | the groups are exactly the (Farm_ID, week) keys present in the merged table |
| Analysis.FarmWeeksAscending | App.py:260 | the groups come in ascending (Farm_ID, week) order, and no key appears twice |
| Analysis.FarmWeeksIff | App.py:249-260 | a (Farm_ID, week) group exists exactly when some reading on that farm falls in that week and the farm is in the master table |
| Analysis.RowsOfCount | App.py:260 | a group holds each merged row with its key as many times as the merged table does, and no other row |
| Analysis.RowsOfFirst | App.py:261 | `farm_info`, the group's first row, is the first merged row in table order that has the group's key |
| Analysis.FarmInfoFirstMaster | App.py:254-261 | the master row in `farm_info` is the first master row, in table order, whose Farm_ID is the group's; so with a repeated Farm_ID, that row's acres, village, name and group are used |
| Analysis.PipeIds | App.py:273 | a group's pipe ids are exactly the Pipe_IDs of its rows |
| Analysis.PipeIdsAscending | App.py:273 | the pipes are visited in ascending id order, each once |
| Analysis.ReadingsOf | App.py:278-279 | a pipe's readings are exactly the (date, level) pairs of the group's rows with that Pipe_ID |
| Analysis.ReadingsOfCount | App.py:278-279 | `len(measurements)` is the number of the group's rows on that pipe |
| Analysis.ReadingsOfPositions | App.py:278-279 | reading k of a pipe is the (date, level) of the k-th row of the group on that pipe: positions ascend and every row on the pipe has one |
| Analysis.SummariesCover | App.py:273-277 | every summary is of a pipe id other than "Unknown_Pipe" and is that pipe's own sorted readings, gap and verdict; every such pipe id has its summary |
| Analysis.CountedPipes | App.py:273-275 | the pipes counted are exactly the pipe ids other than "Unknown_Pipe" |
| Analysis.SummariesOfCounted | App.py:273-277 | summary i is the summary of counted pipe i: one summary per counted pipe, in the loop's order |
| Analysis.TotalPipesCount | App.py:270-277 | `total_pipes` equals the number of distinct Pipe_IDs other than "Unknown_Pipe" among the group's rows: each such pipe is counted exactly once |
| Analysis.CommentsCount | App.py:296-317 | comments plus compliant pipes make up all counted pipes; each comment carries the id and failure reason of a non-compliant pipe, and every non-compliant pipe's comment is in the list |
| Analysis.CommentsOnce | App.py:296-317 | when no two summaries share a pipe id, each non-compliant pipe's comment occurs exactly once |
| Analysis.GroupCommentsOnce | App.py:273-317 | in a group, each failing pipe's comment occurs exactly once in the comment list |
| Analysis.PipeHasReadings | App.py:313-315 | a grouped pipe has at least one reading, so "no measurements" is never recorded |
| Analysis.NoPipesCounted | App.py:273-277 | a group counts no pipe exactly when every reading in it is on "Unknown_Pipe" |
| Analysis.PayoutFacts | App.py:329-336 | eligible acres = rate × acres, and payment = 300 × eligible acres; no pipes gives 0, 0, 0; rate × total = compliant; the rate is in [0, 1]; eligible acres lie in [0, acres] and equal the acres when every pipe passes |
| Analysis.PaymentOfInvariant | App.py:329-351 | every payment row has compliant ≤ total, a rate in [0, 1], eligible acres = rate × acres ≤ acres, payment = 300 × eligible acres, and zeros when no pipe is counted, whatever the farm's group |
| Analysis.FindDisplayFirst | App.py:265 | `next(...)` gives "<start> to <end>" of the first period with that week number |
| Analysis.FindDisplayNone | App.py:265 | with no period of that number, the label is "" |
| Analysis.WeekDisplayLabels | App.py:265 | week k is labelled with row k's start and end labels for 1 ≤ k ≤ 18, and "" outside 1..18 |
| Analysis.MakePaymentInvariant | App.py:329-351 | the payment arithmetic holds for any counts with compliant ≤ total |
| Analysis.PaymentWithinAcres | App.py:146-336 | with a master table as cleaned, each farm-week's acres are non-negative, its eligible acres lie in [0, acres] and its payment in [0, 300 × acres] |
| Analysis.AnalyzePipes | App.py:273-326 | the pipe loop's summaries, comments, pipe count and compliant count are those of the specification; compliant ≤ total |
| Analysis.AnalyzeFarmWeek | App.py:260-363 | one group's payment row and monitoring row are those of the specification, and the payment row keeps the payment arithmetic |
| Analysis.AnalyzeGroups | App.py:260-363 | the group loop emits, in key order, exactly the specification's payment row and monitoring row for each key |
| Analysis.AnalyzeCompliance | App.py:246-368 | one payment row and one monitoring row per (Farm_ID, week) group, in key order, each computed from that group's rows; every payment row keeps the payment arithmetic |

## Left out

- User interface: page setup, uploaders, previews, metrics, the week and
  group filters, tables, downloads and help text (App.py:9-16, 375-563).
  None of it is engine logic.
- File loading (`process_uploaded_file`) and the cached sample loader.
  Both are I/O. The sample readings appear as the scenario lemma
  `Compliance.SamplePipes`.
- pandas and `datetime` parsing.
  - `to_numeric`, `to_datetime` and `astype(str)` are given as the three
    pre-computed readings of a `Cell`.
  - Dates are whole day numbers, so no sub-day timestamps reach `.days`.
- Flags.ConvertToBinary: a token outside the table reads as 0. The code
  instead passes it to `astype(int)`, and any conversion error turns the
  whole column into zeros (App.py:104-107). Both are pandas behaviour
  that depends on the other cells of the column.
- Text.Upper and Text.Lower map ASCII letters only, and Text.Strip
  removes only whitespace among the first 256 code points. Full Unicode
  case mapping and whitespace tables are not modelled.
- Compliance.SortByDay is a stable insertion sort. `sort_values` does not
  promise an order among readings of the same date. No verdict, gap or
  count depends on that order; only the order of readings inside a
  summary does.
- String formatting: the `%m/%d` dates, the `"P{id}: ..."` texts and the
  `" | "` and `"; "` joins (App.py:280-285, 319-326).
  - A monitoring row carries the structured summaries and comments
    instead. An empty comment list stands for "All compliant".
  - The week label text of App.py:265 is modelled (`WeekDisplay`).
- The `int(m)` truncation inside the summary text, and the rounding done
  for display.
- Floating point: the model uses exact `real` arithmetic.
- The `try`/`except` handlers that show an error and return `None`
  (App.py:186-189, 228-230, 370-372). The only error they can catch that
  is modelled is a missing default column, which the model returns as a
  `Failure`.
- `analyze_compliance` also writes a `Week` column into the caller's
  `water_df` before rebinding it. That side effect on the caller's table
  is not modelled.
- Order of rows. KeptRowsCount, WithWeeksCount, JoinCount, MergedCount
  and RowsOfCount state how often each row occurs, not the order of rows.
  Order is stated only where a result depends on it:
  - which master row a group's `farm_info` carries (FarmInfoFirstMaster);
  - the order of a pipe's readings before sorting (ReadingsOfPositions);
  - the key order of groups and pipes;
  - the order of summaries (SummariesOfCounted).
- Two headers with the same name. The model takes the first one for a
  resolved name, where pandas would select both.
