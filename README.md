# SpaceX launch dashboard: filtering and aggregation core

The dashboard (`spacex-dash-app.py`) loads a table of SpaceX launches once.
Each row has a launch site, a payload mass in kg, an outcome `class` (1 for
success, 0 for failure) and a booster version category. From that fixed
table it derives:

- the options of the launch-site dropdown: "All Sites" (value `ALL`), then
  the distinct sites in ascending order;
- the payload bounds of the range slider (`min_payload`, `max_payload`);
- the table behind the success pie chart. For `ALL` this is the
  `groupby('Launch Site')` sum of `class`. For one site it is the
  `value_counts()` of that site's `class` column, relabelled
  "Success"/"Failure";
- the rows behind the payload/outcome scatter chart: the rows whose payload
  lies in the slider's range and, unless `ALL` is selected, whose site is the
  selected one;
- the titles of both charts.

This project models those derivations as pure Dafny functions over an
immutable `seq<Record>` and proves what they promise.

Modules, one per component:

- `StringOrder` (`string_order.dfy`): Python's `<` on `str`, which compares
  code points lexicographically, proved a strict total order. It also holds
  `sorted` on a list of strings, as an insertion sort.
- `Launches` (`launches.dfy`): the `Record` type and the boolean-mask row
  filter `Keep`, which models `df[mask]`. It also holds the `Launch Site` and
  `class` columns and the payload `min()`/`max()`.
- `SiteCatalog` (`site_catalog.dfy`): `unique()`, the site catalog and the
  dropdown option list.
- `Outcomes` (`outcomes.dfy`): the two pie tables, their dispatch on the
  dropdown value, and the pie title.
- `Scatter` (`scatter.dfy`): the scatter rows and the scatter title.

Behaviour at the edges:

- Inverted slider bounds (`low > high`) are not rejected. The two masks then
  select nothing and the scatter table is empty (`Scatter.ScatterInvertedRange`).
- For one site, `value_counts()` leaves out an outcome that never occurs. The
  model's table has no "Failure" entry when the site never failed, rather than
  an entry of 0. `Outcomes.CountOf` reads a missing entry as 0.
- A dropdown value that is not a site of the dataset gives an empty one-site
  table, not an error (`Outcomes.SiteOutcomesUnknownSite`).
- `groupby` sorts its keys by default. The `ALL` table is therefore a
  sequence of rows in ascending site order, and it is proved to list the same
  sites in the same order as the dropdown.
- The dropdown value is a plain string compared with `ALL`, as in the code.
  A site literally named `ALL` would be taken for the sentinel.
- On an empty table, pandas' `min()`/`max()` return NaN. The model returns
  `None` there.

## Model

| member | source | states |
|---|---|---|
| `StringOrder.Less` | spacex-dash-app.py:25 | Python's `<` on strings: a proper prefix sorts before the longer string; that it is a strict total order is stated by `LessIrreflexive`, `LessTransitive` and `LessTotal` |
| `StringOrder.LessIrreflexive` | spacex-dash-app.py:25 | no site name sorts before itself under Python's string order |
| `StringOrder.LessTransitive` | spacex-dash-app.py:25 | Python's string order is transitive |
| `StringOrder.LessTotal` | spacex-dash-app.py:25 | of two different strings one sorts before the other, so `sorted` has one answer |
| `StringOrder.Sort` | spacex-dash-app.py:25 | `sorted` returns its input reordered (same multiset) into non-decreasing order |
| `StringOrder.StrictlySortedUnique` | spacex-dash-app.py:25 | two ascending, repeat-free lists with the same members are equal |
| `SiteCatalog.Unique` | spacex-dash-app.py:25 | `unique()` holds every value of the column exactly once and nothing else |
| `SiteCatalog.Catalog` | spacex-dash-app.py:25 | the sorted unique sites are strictly ascending and are exactly the sites of the dataset |
| `SiteCatalog.CatalogIsDetermined` | spacex-dash-app.py:25 | any strictly ascending listing of the dataset's sites is the catalog |
| `SiteCatalog.OptionsFor` | spacex-dash-app.py:25 | the comprehension gives one option per site, in the same order, whose label and value are both that site |
| `SiteCatalog.SiteOptions` | spacex-dash-app.py:24-25 | the options are "All Sites"/`ALL` first, then each site once, labelled by itself, strictly ascending, with a site among them iff it occurs in the data |
| `Launches.Keep` | spacex-dash-app.py:68 | a boolean-mask filter returns a subsequence of the rows, and each row appears as often as in the data if it satisfies the mask, otherwise not at all |
| `Launches.OnSite` | spacex-dash-app.py:68 | one site's rows are a subsequence of the data; a row occurs as often as in the data if its site is the selected one, otherwise not at all |
| `Launches.KeepAppend` | spacex-dash-app.py:68 | filtering a concatenation of two tables is the concatenation of their filtered tables |
| `Launches.KeepMembership` | spacex-dash-app.py:83-86 | a row is kept iff it is in the data and satisfies the mask |
| `Launches.KeepEverything` | spacex-dash-app.py:83-84 | a mask that every row satisfies keeps the whole table unchanged |
| `Launches.KeepTwice` | spacex-dash-app.py:83-86 | filtering by one mask and then another equals filtering once by their conjunction |
| `Launches.OnUnknownSite` | spacex-dash-app.py:68 | the site mask selects no row for a site that is not in the data |
| `Launches.ClassSumCountsSuccesses` | spacex-dash-app.py:64 | summing the 0/1 `class` column gives the number of successful launches |
| `Launches.SuccessesAndFailures` | spacex-dash-app.py:69 | in the `class` column, the count of 1s is the class sum and the counts of 0s and 1s add up to the row count |
| `Launches.MaxPayload` | spacex-dash-app.py:10 | `max_payload` is present iff the table is non-empty, bounds every payload from above and is some row's payload |
| `Launches.MinPayload` | spacex-dash-app.py:11 | `min_payload` is present iff the table is non-empty, bounds every payload from below and is some row's payload |
| `Outcomes.AddOutcome` | spacex-dash-app.py:64 | adding one row to the grouped table keeps its sites ascending and distinct, adds the row's site, adds its class to that site's total only, and raises the grand total by the class |
| `Outcomes.GroupSuccesses` | spacex-dash-app.py:64 | the grouped table has strictly ascending sites, exactly the dataset's sites, each site's class sum, and a grand total equal to the dataset's class sum |
| `Outcomes.GroupSuccessesCorrect` | spacex-dash-app.py:62-64 | the `ALL` table lists the dropdown's sites in the same order, including sites with no success; each value is the number of successes at its site, and the values add up to all successes |
| `Outcomes.ValueCounts` | spacex-dash-app.py:69 | `value_counts()` has an entry exactly for the values that occur, each holding its number of occurrences |
| `Outcomes.Relabel` | spacex-dash-app.py:69 | the count of 1 goes under "Success", the count of 0 under "Failure", each label present iff its outcome is, and no other label |
| `Outcomes.SiteOutcomes` | spacex-dash-app.py:68-69 | the one-site table is empty exactly when the site has no rows; its labels and counts are stated by `SiteOutcomesCorrect` |
| `Outcomes.SiteOutcomesCorrect` | spacex-dash-app.py:68-70 | the one-site table has only "Success"/"Failure", and a label only when its count is positive; "Success" counts the site's successes, and the two counts add up to the site's launches |
| `Outcomes.SiteOutcomesOnlySite` | spacex-dash-app.py:68 | only rows of the selected site are counted: dropping every other site's rows first changes nothing |
| `Outcomes.SiteOutcomesIgnoreOtherSites` | spacex-dash-app.py:68-70 | appending rows of other sites leaves a site's table unchanged |
| `Outcomes.SiteOutcomesUnknownSite` | spacex-dash-app.py:68-70 | a site with no rows gives an empty table rather than an error |
| `Outcomes.PieData` | spacex-dash-app.py:61-73 | `ALL` gives the per-site table over the catalog, each row holding its site's number of successes and the rows summing to all successes; any other value gives a Success/Failure table with only positive counts, whose "Success" count is that site's successes and whose counts add up to that site's launches |
| `Outcomes.PieTitle` | spacex-dash-app.py:66-72 | the title for one site ends with that site's name |
| `Outcomes.PieTitleIdentifiesSelection` | spacex-dash-app.py:66-72 | different dropdown values give different pie titles |
| `Scatter.ScatterIsOnePass` | spacex-dash-app.py:83-86 | the range mask followed by the site mask equals one filter by "payload in [low, high] and (`ALL` or same site)" |
| `Scatter.ScatterData` | spacex-dash-app.py:83-86 | the scatter rows are a subsequence of the data; a row appears iff it is in the data, its payload is in range and its site matches, and it appears as often as in the data |
| `Scatter.ScatterWithinRange` | spacex-dash-app.py:83-84 | every scatter row has `low <= payload <= high` |
| `Scatter.ScatterSinglePayload` | spacex-dash-app.py:83-84 | with `low == high`, only rows of exactly that payload are plotted |
| `Scatter.ScatterInvertedRange` | spacex-dash-app.py:82-84 | with `low > high` the scatter table is empty; the bounds are neither rejected nor swapped |
| `Scatter.ScatterFullRange` | spacex-dash-app.py:83-86 | when the range covers every payload, `ALL` gives the whole table and a site gives all of its rows |
| `Scatter.InitialSliderKeepsEveryRow` | spacex-dash-app.py:44 | with the slider at its initial `[min_payload, max_payload]`, the range drops no row |
| `Scatter.ScatterTitle` | spacex-dash-app.py:92-94 | the title for one site ends with that site's name |
| `Scatter.ScatterTitleIdentifiesSelection` | spacex-dash-app.py:92-94 | different dropdown values give different scatter titles |

## Left out

- Reading `spacex_launch_dash.csv` (spacex-dash-app.py:9) is file I/O. The
  model takes the dataset as a parameter.
- The Dash app, layout, styling and `app.run` (spacex-dash-app.py:14-50,
  101-102) are UI and server plumbing.
- The `@app.callback` wiring (spacex-dash-app.py:57-60, 76-80) is framework
  dispatch. The model's functions take the dropdown and slider values
  directly.
- The Plotly figures (`px.pie`, `px.scatter`, axis labels, hover data) come
  from a rendering library that is not part of this model. Only the tables
  passed to them and their titles are modelled. The scatter rows are the
  filtered records themselves, and they carry the payload, class, booster
  category and site that the figure uses.
- The slider marks (spacex-dash-app.py:43) are display-only float
  arithmetic. The slider step of 1000 (spacex-dash-app.py:42) only limits
  which bounds a user can pick; the model accepts any real `low`/`high`, so
  every such pair is covered.
- NaN payloads and `class` values other than 0/1 are not modelled. `class` is
  a 0/1 subset type, and a payload is a real number that is only compared.
- The row order of `value_counts()` (descending count) is not modelled. The
  one-site table is a map, because a pie chart does not depend on row order.
- SiteCatalog.Unique: states distinctness and membership but not the
  first-appearance order of `unique()`, because `sorted` discards that order
  before anything uses it.
