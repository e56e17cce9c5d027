# Residential plot finder: filter and lookup engine

This project models the logic inside the Streamlit page `Residential_Plot.py` of the
Residential Plot Finder. The page lets a buyer browse a table of residential plots. It has
three parts:

- **Filtering.** Up to four range filters, each behind its own checkbox:
  - budget, compared with the `RATE (1500)*(900)` column;
  - total plot area in square metres;
  - total plot area in square yards;
  - total plot area in square feet.

  A checked filter is kept only when its maximum exceeds its minimum. Otherwise it is
  dropped with a warning, and the other filters still apply. The kept filters are ANDed
  onto a mask that hides every plot whose status, lower-cased, is `"sold out"`. The page
  then shows `df[mask]`.
- **Lookup.** An option list holds the distinct plot numbers. Choosing some of them selects
  every row carrying one of those numbers, in table order, duplicates included.
- **Detail view.** For each looked-up plot, the page shows its net, built-up and total area
  in square metres (ft² / 10.7639), square yards (ft² / 9.0) and square feet, and its rate
  and discounted rate.

Modules:

- `Wrappers`: `Option`. A missing cell (pandas NaN) is `None`.
- `Table`: `Select`, which is `df[mask]`. Lemmas prove that it keeps order, invents nothing
  and duplicates nothing.
- `Plots`: the row record, ASCII lower-casing, the sold-out test, `convert_area`, the
  `TOTAL_SQMT`/`TOTAL_SQYD` helper columns, and the per-plot detail values.
- `Filters`: collecting the filters, folding the mask, and the selection.
  - The imperative parts are methods: `CheckUnit`, `CollectFilters`, `ApplyFilters` and
    `FilterPlots`. `ApplyFilters` is a loop with the invariant "mask = status ∧ all ranges
    processed so far".
  - They are proved equal to a reference filter, `Matching`, which is built on the per-row
    predicate `Admitted`.
  - The properties of the page are proved as lemmas about `Matching`.
- `Lookup`: the option list, `df['NO'].dropna().unique()`, and the `isin` selection.

Numbers are Dafny `real` (exact rationals), so the unit conversions and their round trips
hold exactly. A missing rate or area fails every comparison, just as NaN does in pandas. So
such a row never passes an active range on that column, and it can still pass when no
range on that column is active.

Two facts about the source that the model keeps:

- Plot numbers are never checked for uniqueness. Line 124 selects every row with a chosen
  number, and so does `LookupPlots`.
- The m² and yd² columns are always derived from the ft² column (lines 5-7), never taken
  from the loaded table.

## Model

| member | source | states |
|---|---|---|
| `Table.Select` | Residential_Plot.py:97 | `df[mask]` is no longer than `df`, and every selected row is a row of `df` |
| `Table.SelectMember` | Residential_Plot.py:97 | a value is selected iff some row holding it has a true mask entry |
| `Table.SelectAppend` | Residential_Plot.py:97 | selection distributes over concatenation, so relative row order is preserved |
| `Table.SelectSubsequence` | Residential_Plot.py:97 | the selection is a subsequence of the table, and its multiset is contained in the table's: no row is duplicated |
| `Table.SelectCopies` | Residential_Plot.py:124 | a value whose every row is selected keeps all its copies; a value none of whose rows is selected has none |
| `Plots.Lower` | Residential_Plot.py:93 | `str.lower()` over ASCII keeps the length, changes only upper-case letters (each to its lower-case letter) and leaves no upper-case letter |
| `Plots.SoldOutIgnoresCase` | Residential_Plot.py:93 | lower-casing is idempotent, so the sold-out test gives the same answer for a status and its lower-cased form |
| `Plots.SoldOutSpellings` | Residential_Plot.py:93 | `IsSoldOut` is the test `Status.str.lower() == "sold out"`: "sold out", "Sold Out" and "SOLD OUT" are sold out; "Available", "Sold", "Reserved" and "sold out " (with a trailing space) are not |
| `Plots.ConvertArea` | Residential_Plot.py:135-138 | `convert_area` returns the input unchanged as its third part; square metres × 10.7639 and square yards × 9.0 give back the square feet exactly; for a non-negative area, 0 ≤ m² ≤ yd² ≤ ft² |
| `Plots.TotalSqmt` | Residential_Plot.py:6 | the square-metre helper column is missing exactly where the total area is, and × 10.7639 gives the total area back |
| `Plots.TotalSqyd` | Residential_Plot.py:7 | the square-yard helper column is missing exactly where the total area is, and × 9.0 gives the total area back |
| `Plots.Detail` | Residential_Plot.py:130-142 | built from `ConvertCell`, which applies `convert_area` to one cell and keeps a missing cell missing (lines 140-142): each of net, built-up and total area is converted to all three units with exact round trips; a missing area stays missing without affecting the others; number, rate and discounted rate pass through |
| `Filters.Column` | Residential_Plot.py:5-7 | the budget reads the rate column, not the discounted rate; the ft² range reads the total area; the m² and yd² ranges read the total area converted to that unit (round trip exact, missing where the total is missing) |
| `Filters.CheckUnit` | Residential_Plot.py:36-42 | one unit's block appends its range iff the checkbox is on and max > min, warns for that unit iff the checkbox is on and max ≤ min, and keeps the filters in page order |
| `Filters.CollectFilters` | Residential_Plot.py:25-90 | a range is collected iff its unit is checked with max > min and the range carries that unit's own min and max; ranges are in page order (budget, m², yd², ft²), so no unit appears twice; a warning is raised exactly for checked units with max ≤ min |
| `Filters.ApplyFilters` | Residential_Plot.py:93-95 | starting from `StatusMask` (line 93) and ANDing each filter's `RangeMask` (`Satisfies` row by row): after folding `mask &= f` over the filters, row i is true iff its status is not "sold out" and it satisfies every collected range |
| `Filters.FiltersAdmit` | Residential_Plot.py:36-90 | a row satisfies every collected range iff, for each of the four units, the unit is not accepted or the row is within that unit's range |
| `Filters.SelectIsMatching` | Residential_Plot.py:97 | `df[mask]`, where each mask entry is that row's admission, equals the reference filter `Matching` |
| `Filters.FilterPlots` | Residential_Plot.py:25-97 | the whole filter section returns exactly the reference result, and warns for exactly the checked units whose maximum does not exceed their minimum |
| `Filters.Matching` | Residential_Plot.py:93-97 | the reference result: the `Admitted` rows in table order; it is never longer than the table (its meaning is stated by the lemmas below) |
| `Filters.MatchingMember` | Residential_Plot.py:93-97 | for the reference filter `Matching`, which keeps the rows `Admitted` lets through (not sold out, and within each accepted unit's range): a plot is listed iff it is a row of the table, it is not sold out and it lies within every accepted range |
| `Filters.SoldOutNeverListed` | Residential_Plot.py:93-97 | no plot whose lower-cased status is "sold out" is ever listed, whatever filters are on or off |
| `Filters.RejectedRangeIsIgnored` | Residential_Plot.py:36-90 | a checked unit with max ≤ min changes nothing: the result equals the one with that checkbox off, so every other unit's range still applies |
| `Filters.NoRangeKeepsUnsold` | Residential_Plot.py:93-97 | when no range is accepted, the result is `df[StatusMask(df)]`: every plot not sold out, in table order |
| `Filters.ConjunctionIsIntersection` | Residential_Plot.py:94-95 | with ranges on different units, filtering by both equals filtering by one and then by the other, in either order; a plot is listed iff each filter alone lists it |
| `Filters.MatchingIsSubsequence` | Residential_Plot.py:97 | the filtered table is a subsequence of the table (original order) and repeats no row |
| `Filters.AdmissionReadsRateTotalStatus` | Residential_Plot.py:36-90 | whether a row passes depends only on its rate (lines 38-39), its total area (converted by the helper columns of lines 5-7, tested at lines 55, 71 and 87) and its status, never on its number, net or built-up area, or discounted rate |
| `Filters.RangeIsInclusive` | Residential_Plot.py:55 | `Satisfies`, one row of a range mask such as line 55's: a value equal to either bound passes the range; a missing value never does |
| `Filters.TwoPlotExample` | Residential_Plot.py:25-97 | with an available plot at 650000 and a sold-out one at 750000, a budget of 600000–700000 lists only the first; a budget of 0–0 is rejected and still lists only the first |
| `Lookup.FirstOccurrencesSelectFirst` | Residential_Plot.py:120 | `unique()` keeps exactly the positions of `FirstMask`, where a value occurs for the first time, in order |
| `Lookup.PlotNumbersMember` | Residential_Plot.py:120 | `PlotNumbers`, the `dropna()` of the number column, holds a number iff some row carries it |
| `Lookup.FirstOccurrencesSpec` | Residential_Plot.py:120 | `FirstOccurrences` (`unique()`) holds each value of its input that is not already seen, once, with none of the seen values; it is exactly the input restricted to the positions where an unseen value occurs for the first time, in input order |
| `Lookup.PlotOptionsSpec` | Residential_Plot.py:120 | the option list `PlotOptions` holds every plot number of the table and nothing else, without duplicates, and is exactly the first occurrence of each number, in table order |
| `Lookup.LookupSpec` | Residential_Plot.py:124 | `LookupPlots` selects by `IsinMask` (row by row, `Chosen`: the number is present and in the choice); the lookup lists a row iff the row's number is present and chosen; each such row appears as often as in the table, others never; table order is kept |
| `Lookup.LookupFindsChosen` | Residential_Plot.py:124 | every chosen number that some row carries brings at least one row with that number |
| `Lookup.LookupIgnoresUnknown` | Residential_Plot.py:124 | choosing a number that no row carries leaves the lookup unchanged |
| `Lookup.OptionsAreFound` | Residential_Plot.py:120-124 | looking up any offered option lists at least one row |

## Left out

- Streamlit widgets and display are not modelled: checkboxes, number inputs, columns,
  markdown, `st.success`, `st.dataframe` and `st.multiselect` (lines 12-23, 28-34, 44-51,
  60-67, 76-83, 100-111, 117-119, 121, 126-127, 145-173).
  - A checkbox and its two number inputs are one `Option<(real, real)>` in `Constraints`.
  - `st.warning` is the `warnings` set returned by `FilterPlots`.
  - The match count shown by `st.success` is the length of the result.
- The lower bounds and defaults of the number inputs (lines 30-34, 47-51, 63-67, 79-83:
  min budget ≥ 0, max budget ≥ 1, and so on) are widget settings. They are not modelled: any reals may be entered.
- Choosing which columns to display (lines 102-109) is not modelled. Nor is the
  `if selected_plots:` guard: the lookup of an empty choice is empty anyway.
- Formatting is not modelled: the `:.2f` area strings and the `₹{:,.0f}` prices (lines
  149-163, 171-172). `Detail` keeps full precision.
- IEEE floating point is not modelled. Areas and rates are exact reals, and NaN is `None`.
- Loading the table (CSV, Excel or URL) and coercing its columns to numbers happen before
  this page runs. They are not part of this model: `df` is a parameter.
- Letter case is folded for ASCII only. Unicode case folding by `str.lower()` is not
  modelled.
- A missing status cell is not modelled: status is always a string. In pandas, a NaN
  status is not equal to "sold out", so such a row would be kept.
- The filter list holds each filter as its range (unit, min, max), not as a computed boolean
  column. `ApplyFilters` computes each column when it folds the filter in. The result is the
  same, because the table does not change between the two steps.
- The mask is a sequence value reassigned by `mask &= f`. Pandas' in-place update of the
  Series object is not modelled.
- Plot numbers are modelled as integers. The `NO` column may hold other values, such as
  strings; the model only ever compares plot numbers for equality, so the type does not
  change any property stated here.
