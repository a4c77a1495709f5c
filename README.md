# appart-dashboard in Dafny

A model of the apartment-hunting dashboard: a browser application that keeps
a list of listings ("biens") for two modes, purchase (`achat`) and rental
(`location`). It filters, sorts and tabulates them, counts them by status
("état"), neighbourhood and energy label (DPE), and exports them as CSV. A
small Python script turns a spreadsheet of rentals into such listings.

The Dafny project follows the program's own structure, one module per
source file:

- `State` is the application state (`js/state.js`). It is a class whose
  fields the setters, `AddBien`, `UpdateBien` and `DeleteBien` reassign.
- `Data` covers persistence and export (`js/data.js`). Browser storage is a
  class holding a key → list map. `loadData` and `saveData` are methods
  specified by the functions `Load` and `Save`. The seed data and the CSV
  header, rows and text are values.
- `Mode` is the mode switch (`js/mode.js`).
- `Filters` holds the admission predicate, `applyFilters`/`clearFilters` on
  the state, the sorted neighbourhood list and the état checkboxes
  (`js/table/filters.js`).
- `Sort` holds the three-state click machine, the per-column keys and the
  stable sort (`js/table/sort.js`).
- `Form` holds `collectFormData`, `fillForm` and the submit dispatch
  (`js/modals/form.js`).
- `Render` holds the row projection, the charges display, the equipment
  icons and the empty/non-empty table decision (`js/table/render.js`).
- `Ui` holds the état defaulting and the charges labels (`js/ui.js`).
- `Format` holds the status and DPE lookup tables (`js/utils/format.js`).
- `Stats` holds the per-état counts and stat cards (`js/stats/index.js`).
- `Charts` holds the neighbourhood and DPE tallies (`js/stats/charts.js`).
- `Convert` is the spreadsheet row normaliser (`scripts/convert_xlsx.py`).
  It covers phone cleaning, equipment parsing, the type mapping and the row
  loop.
- `Config` holds the constant vocabularies of `js/config.js`.
- `Listing` holds the record and the mode projection of its price.
- The helper modules are `Wrappers` (`Option`), `Text` (strings, code-point
  order, case mapping, join/split) and `Seqs` (filter, count, stable
  insertion sort, numbering of kept elements).

JavaScript truthiness is explicit. A numeric field is `Option<real>`, where
`None` stands for undefined or NaN. `x || d` is "present and non-zero → x,
else d" (`Listing.OrElse`). Money is exact `real`. `Math.round` is exactly
`floor(x + 1/2)` (`Listing.Round`). `Date.now()` is a parameter.

Python's truthiness of a spreadsheet cell is `Convert.CellTruthy`. Python's
`float()`/`int()` on text, `str()` of a float and `round(x, 2)` are the
fields of the `Convert.Builtins` parameter.

Behaviours of the code that look accidental are reproduced, not corrected:

- A maximum of 0 in the filters means "no maximum".
- A deposit of 0 becomes twice the rent.
- The table's annual-charges fallback differs from the one used by the sort
  and the form. `Render.AnnualFallbacksDiffer` exhibits a listing on which
  they disagree.
- `switchMode` loads the new mode's list but never installs it.
- With all criteria cleared, the filter still hides a listing whose price
  is negative. `clearFilters` shows it.

## Model

| member | source | states |
|---|---|---|
| State.FindIndex | js/state.js:73 | -1 exactly when no listing has the id; otherwise the first index holding it |
| State.WithoutIdSpec | js/state.js:80-83 | deleting keeps exactly the listings with another id, in their original order; with the removed ones it is a permutation of the input; an absent id changes nothing |
| State.InitialMode | js/state.js:13 | the persisted mode unless it is missing or empty, then purchase |
| State.AppState.constructor | js/state.js:9-17 | empty lists, no edit in progress, initial mode from storage, monthly charges, no sort column, ascending |
| State.AppState.SetBiens | js/state.js:32-35 | both lists become the given list |
| State.AppState.SetFilteredBiens | js/state.js:37-39 | only the filtered list changes |
| State.AppState.SetEditingId | js/state.js:41-43 | only the edited id changes |
| State.AppState.SetMode | js/state.js:45-51 | succeeds iff the mode is achat or location; then the mode is set and persisted, otherwise neither changes |
| State.AppState.SetChargesMode | js/state.js:53-55 | only the charges display mode changes |
| State.AppState.SetSort | js/state.js:57-60 | sets exactly the sort column and direction |
| State.AppState.ResetSort | js/state.js:62-65 | no sort column, ascending |
| State.AppState.AddBien | js/state.js:67-70 | appends at the end, earlier listings unchanged, filtered list becomes a copy |
| State.AppState.UpdateBien | js/state.js:72-78 | replaces only the first listing with the id; an absent id leaves both lists untouched; length is kept |
| State.AppState.DeleteBien | js/state.js:80-83 | both lists lose every listing with the id |
| Mode.SwitchMode | js/mode.js:27-51 | same mode: nothing changes; an unknown mode: the outgoing list is saved and the switch refused; otherwise the outgoing list is saved under the outgoing key, the mode is set and persisted, the incoming key is loaded (seeded if needed), the in-memory list is kept and the filtered list becomes a copy of it |
| Mode.SwitchBackReadsSaved | js/mode.js:31-40 | after a switch, loading the outgoing mode gives back the list saved on leaving it |
| Data.BiensKey | js/data.js:189-191 | the rental key iff the mode is location, the purchase key for any other mode |
| Data.SampleDataAchat | js/data.js:9-178 | eight seed listings numbered 1..8 |
| Data.SampleIdsDistinct | js/data.js:9-178 | seed ids are pairwise distinct |
| Data.SampleVocabulary | js/data.js:9-178 | every seed état is a purchase état and every seed DPE a letter A..G |
| Data.LoadAfterSave | js/data.js:188-218 | a load after a save for the same mode returns the saved list and writes nothing |
| Data.LoadIdempotent | js/data.js:193-204 | a second load returns what the first returned, including a seed the first stored; in a mode other than purchase with nothing stored, both give [] and leave storage untouched |
| Data.LoadFallbacks | js/data.js:198-204 | an empty purchase key yields and stores the seed; an empty rental key yields [] and writes nothing |
| Data.SaveIsolation | js/data.js:212-218 | saving one mode leaves the other mode's list and every other key as they were |
| Data.LocalStorage.LoadData | js/data.js:188-205 | returns the stored list when there is one; otherwise the seed (written back) in purchase mode, [] in rental mode |
| Data.LocalStorage.SaveData | js/data.js:212-218 | writes only the mode's key |
| Data.NumberOrBlank | js/data.js:246 | `x \|\| ''`: the number when truthy, else the empty cell |
| Data.Columns | js/data.js:233-242 | 26 columns in rental mode, 25 in purchase mode; the deposit column exists iff rental |
| Data.AnnualChargesCell | js/data.js:251 | annual charges when truthy, else monthly × 12 when truthy, else empty |
| Data.Headers | js/data.js:233-242 | one header per column, named by the column and mode |
| Data.Row | js/data.js:244-263 | exactly as many cells as headers, each the listing's value for that column; a NaN surface or room count is written "NaN" |
| Data.HeaderShape | js/data.js:233-242 | 26 or 25 headers; the third is Loyer or Prix; "Dépôt de garantie" appears iff rental |
| Data.DepositHeaderOnlyForDeposit | js/data.js:238 | only the deposit column carries the deposit header |
| Data.HeaderNamesPlain | js/data.js:233-242 | no header contains a line break or a semicolon |
| Data.Quoted | js/data.js:266 | a cell's text wrapped in double quotes, inner quotes not doubled |
| Data.QuotedCells | js/data.js:266 | each cell quoted, in order |
| Data.RowLines | js/data.js:266 | one line per listing, in input order |
| Data.ExportCsv | js/data.js:225-229 | no CSV exactly when there are no listings |
| Data.ExportLines | js/data.js:265-266 | read back line by line, the text is the header line and then one line per listing |
| Data.RowLineHasNoBreak | js/data.js:266 | a row line has no line break when no cell text has one |
| Data.HeaderHasNoBreak | js/data.js:265 | the header line has no line break |
| Data.HeaderLineFields | js/data.js:265 | splitting the header line on ';' gives back the headers |
| Filters.UpperBound | js/table/filters.js:15-17 | a missing, NaN or zero maximum is no bound; any other value is the bound |
| Filters.ApplyFilterSpec | js/table/filters.js:24-34 | the result is a subsequence of the listings; a listing is kept iff its projected price, surface, rooms, neighbourhood, DPE and état pass every active criterion |
| Filters.ApplyFilterIdempotent | js/table/filters.js:24-34 | filtering the filtered list again changes nothing |
| Filters.NoCriteriaAdmitsAll | js/table/filters.js:42-53 | with cleared criteria every listing with non-negative price and surface is kept, so the filter agrees with `clearFilters` |
| Filters.NoCriteriaHidesNegativePrice | js/table/filters.js:14-26 | a negative price fails the default minimum of 0 |
| Filters.ZeroMaximumIsUnbounded | js/table/filters.js:15-17 | maxima of 0 filter exactly like absent maxima |
| Filters.PriceMaximumExample | js/table/filters.js:15-26 | with a maximum price of 150000, a listing at 125000 is kept and one at 185000 is dropped |
| Filters.ApplyFilters | js/table/filters.js:12-37 | the filtered list becomes the filter of the stored list under the current mode |
| Filters.ClearFilters | js/table/filters.js:42-54 | criteria are cleared and the filtered list becomes a copy of the list |
| Filters.InsertName | js/table/filters.js:63 | inserting into a strictly sorted list keeps it strictly sorted and adds exactly the name |
| Filters.SortedDistinct | js/table/filters.js:63 | strictly sorted, and holds exactly the given names |
| Filters.QuartierOptions | js/table/filters.js:59-73 | the "Tous" option first, then each neighbourhood of the listings exactly once, sorted |
| Filters.EtatCheckboxes | js/table/filters.js:78-110 | one checkbox per état of the mode's vocabulary, in order, with its label; a coloured indicator iff rental |
| Sort.NextSort | js/table/sort.js:12-24 | another column → ascending on it; same column ascending → descending; same column otherwise → unsorted |
| Sort.ThreeClicksReset | js/table/sort.js:12-24 | three clicks on a column from unsorted: ascending, descending, unsorted |
| Sort.OtherColumnRestarts | js/table/sort.js:21-23 | clicking X then another column Y gives ascending on Y |
| Sort.SortTable | js/table/sort.js:12-24 | the stored sort state advances by one click |
| Sort.ChargesKey | js/table/sort.js:79-88 | monthly mode: charges or 0; annual mode: annual charges when truthy, else charges × 12 |
| Sort.KeyOf | js/table/sort.js:56-110 | text keys exactly for quartier, type and dpe (the first two lower-cased); price by mode; price per m² rounded and 0 without surface; any other column gives 0 |
| Sort.BeforeIsWeakOrder | js/table/sort.js:37-45 | the comparator is irreflexive and asymmetric, and "not before" is transitive |
| Sort.BeforeInIsWeakOrder | js/table/sort.js:34-46 | the comparator is a strict weak order |
| Sort.ApplySortSpec | js/table/sort.js:31-47 | a permutation of the input; no column: the input itself; ascending: keys never decrease; descending: never increase |
| Sort.UnknownColumnKeepsOrder | js/table/sort.js:105-106 | a column without a key leaves the order as it is |
| Seqs.SortWithSorted | js/table/sort.js:34 | under a strict weak order the sort returns a sorted permutation |
| Seqs.SortWithPermutes | js/table/sort.js:34 | the sort is a permutation |
| Seqs.SortWithSortedIsIdentity | js/table/sort.js:34 | the sort is stable: an already sorted input comes back unchanged |
| Form.StoredCharges | js/modals/form.js:170-176 | annual charges are always twelve times monthly; the box feeds monthly or annual by mode; an empty box gives 0 |
| Form.Deposit | js/modals/form.js:164 | a truthy deposit is kept, otherwise twice the rent (NaN when the rent is) |
| Form.CollectFormData | js/modals/form.js:130-179 | id reused when editing, else the fresh one; rental sets rent and deposit, purchase sets only the price; both charge amounts stored; furnished iff "true" |
| Form.FillCharges | js/modals/form.js:85-88 | monthly mode shows the charges; annual mode shows the annual charges when truthy, else charges × 12; a zero or missing amount leaves the box empty |
| Form.FillPrice | js/modals/form.js:55-57 | rental shows rent, else price, else 0; purchase shows price or 0 |
| Form.FillForm | js/modals/form.js:54-100 | the price, charges, furnished and deposit boxes hold the projections above; the deposit box only in rental mode |
| Form.EditRoundTrip | js/modals/form.js:54-179 | filling the form from a submitted listing and submitting it again unchanged gives back the same listing |
| Form.ChargesRoundTrip | js/modals/form.js:85-88 | the charges box filled from stored charges yields the same stored pair |
| Form.PriceRoundTrip | js/modals/form.js:55-57 | the price box filled from a submitted listing shows the submitted price |
| Form.DepositRoundTrip | js/modals/form.js:97-99 | the deposit box filled from a submitted listing yields the same deposit |
| Form.HandleFormSubmit | js/modals/form.js:106-124 | editing: the first listing with the id is replaced; otherwise appended; then the list is saved under the current mode and the edit is closed |
| Format.StatusClass | js/utils/format.js:37-52 | the table's class for a known état, else "" |
| Format.PurchaseBadges | js/utils/format.js:44-49 | every purchase état has a badge class |
| Format.StatusClassesOnlyVocabularies | js/utils/format.js:38-50 | the table knows only états of the two vocabularies |
| Format.RentalBadgesMatchIndicators | js/utils/format.js:40-45 | each rental état's badge is "badge-" + its configured indicator class |
| Format.DpeColor | js/utils/format.js:59-61 | a letter's configured colour, else the grey default |
| Format.DpeColorsCoverLetters | js/utils/format.js:59-61 | colours are configured for exactly A..G, none of them the default |
| Config.EtatValues | js/config.js:19-34 | the six rental and four purchase état values, in order |
| Listing.OrElse | js/table/render.js:41 | `x \|\| d`: the value when truthy, else d |
| Listing.ProjectedPrice | js/table/render.js:41 | rent or 0 in rental mode, price or 0 in purchase mode |
| Listing.Round | js/table/render.js:43 | the nearest integer, halves rounded up |
| Render.GetChargesDisplay | js/table/render.js:83-98 | monthly: charges or 0 per month; annual: annual charges when defined (even 0), else charges × 12 per year; "-" iff the value is 0 |
| Render.AnnualFallbacksAgree | js/table/render.js:91-93 | except when annual charges are exactly 0, the table and the sort show the same charges |
| Render.AnnualFallbacksDiffer | js/table/render.js:91-93 | with annual charges 0 and monthly charges set, the table shows "-" while the sort uses charges × 12 |
| Render.EquippedSpec | js/table/render.js:105-122 | one entry per equipment the listing has, none for the others, in the fixed order |
| Render.EquipmentIcons | js/table/render.js:105-123 | the loop pushes one icon per equipment the listing has, in order, and joins them |
| Render.MeubleLabel | js/table/render.js:50-52 | Oui/Non in rental mode; empty iff unfurnished in purchase mode |
| Render.PricePerM2 | js/table/render.js:43 | defined iff the surface is truthy, then the rounded price per m² |
| Render.RenderRow | js/table/render.js:40-76 | the row shows the projected price, its per-m² value, the charges display, status and DPE classes, icons and furnished label |
| Render.RenderTable | js/table/render.js:13-32 | no rows iff the filtered list is empty; else one row per listing, in order |
| Ui.ValidListsMatchConfig | js/ui.js:67-75 | the hard-coded valid lists equal the configured vocabularies |
| Ui.DefaultEtat | js/ui.js:62-79 | a value in the mode's vocabulary is kept; anything else becomes its first value; the result is always in the vocabulary |
| Ui.DefaultEtatIdempotent | js/ui.js:62-79 | defaulting twice is defaulting once |
| Ui.OnlyRefuseSurvivesSwitch | js/ui.js:62-79 | a rental état survives a switch to purchase iff it is "Refusé" |
| Ui.ChargesFieldLabel | js/ui.js:45-49 | the monthly label iff the mode is mensuelles, else the annual one |
| Ui.ChargesHeader | js/ui.js:94-96 | "Charges/mois" iff mensuelles, else "Charges/an" |
| Ui.Controls.UpdateEtatFormOptions | js/ui.js:55-80 | the selected état is defaulted for the mode and the matching option group is shown |
| Ui.Controls.UpdateChargesLabel | js/ui.js:41-50 | the charges label follows the mode |
| Ui.Controls.UpdateChargesToggle | js/ui.js:86-97 | exactly the button of the given mode is active (none for an unknown mode); the header follows |
| Stats.CountByEtat | js/stats/index.js:69-71 | the number of listings with exactly that état, at most the total, positive iff one exists |
| Stats.RenderStats | js/stats/index.js:13-62 | the total is the number of listings; the four cards count the mode's four états |
| Stats.SumCountsIsCountIn | js/stats/index.js:69-71 | the counts of distinct états add up to the number of listings in any of them |
| Stats.AchatCardsPartition | js/stats/index.js:46-53 | with purchase états only, the four cards add up to the total |
| Stats.LocationEtatsSplit | js/stats/index.js:27-30 | the rental cards cover the first four rental états; "Il faut appeler" and "Refusé" are left out |
| Stats.LocationCardsShortfall | js/stats/index.js:24-31 | the rental cards never exceed the total and miss exactly the two uncounted états |
| Charts.Bump | js/stats/charts.js:62 | an existing key gains one in place; a new key is appended with 1; the total grows by one |
| Charts.BumpKeepsDistinct | js/stats/charts.js:62 | counting never duplicates a key |
| Charts.TalliedSpec | js/stats/charts.js:60-65 | initial keys first, new values once in order of first occurrence, each count is the initial one plus the occurrences, total grows by the number of values |
| Charts.TalliedDistinct | js/stats/charts.js:60-65 | keys stay distinct |
| Charts.TalliedPrefix | js/stats/charts.js:60-65 | the initial keys stay first, in order |
| Charts.TalliedMembers | js/stats/charts.js:60-65 | the keys are the initial keys and the counted values |
| Charts.TalliedCounts | js/stats/charts.js:60-65 | each key counts its occurrences; the total grows by the number of values |
| Charts.CountByProperty | js/stats/charts.js:60-65 | the reduce loop computes the tally of the property's values |
| Charts.QuartierChartSpec | js/stats/charts.js:21-31 | one bar per neighbourhood, each with its number of listings, summing to the number of listings |
| Charts.DpeHistogram | js/stats/charts.js:42-46 | the loop computes the tally of DPE values from A..G at 0 |
| Charts.DpeHistogramSpec | js/stats/charts.js:42-49 | keys start with A..G in order; another DPE gets its own key; counts are occurrences and sum to the number of listings |
| Charts.DpeZeroFacts | js/stats/charts.js:42 | the starting counter has keys A..G, distinct, all 0 |
| Charts.SliceColors | js/stats/charts.js:50 | each slice's colour is its letter's colour, else the default |
| Convert.Strip | scripts/convert_xlsx.py:15 | a contiguous middle part of the input with only whitespace removed before and after it; no whitespace left at either end; text without it at the ends is unchanged |
| Convert.WithoutEquals | scripts/convert_xlsx.py:18-19 | a leading "=" is dropped, nothing else |
| Convert.DigitsOf | scripts/convert_xlsx.py:22 | every digit of the input and nothing else, in the original order: only digits, each input digit present, as many characters as the input has digits |
| Convert.KeepDigits | scripts/convert_xlsx.py:22 | the loop keeps exactly the digits, in order |
| Convert.NationalForm | scripts/convert_xlsx.py:25-26 | "33" leading more than nine digits becomes "0"; otherwise unchanged |
| Convert.NationalFormDigits | scripts/convert_xlsx.py:25-26 | replacing "33" by "0" keeps a digit string a digit string |
| Convert.GroupedPositions | scripts/convert_xlsx.py:29-31 | ten digits become five pairs separated by single spaces, in order |
| Convert.CleanPhoneNumber | scripts/convert_xlsx.py:10-33 | the step-by-step cleaning computes the phone value |
| Convert.PhoneShape | scripts/convert_xlsx.py:12-33 | an empty cell gives ""; otherwise five space-separated digit pairs or digits only |
| Convert.PhoneDigitsShape | scripts/convert_xlsx.py:15-33 | after stripping: five space-separated digit pairs or digits only |
| Convert.PhoneExample | scripts/convert_xlsx.py:11 | 33467603160 becomes "04 67 60 31 60" |
| Convert.ClimatisationMentionsClim | scripts/convert_xlsx.py:46 | "climatisation" contains "clim", so the second test adds nothing |
| Convert.ParseEquipments | scripts/convert_xlsx.py:35-47 | all false for an empty cell; otherwise each flag iff its word occurs in the lower-cased text |
| Convert.TypeFormat | scripts/convert_xlsx.py:49-57 | 1 → Studio, 2 → T2, 3 → T3, 4 → T4, anything else → T5+, each iff |
| Convert.MonthlyCharges | scripts/convert_xlsx.py:126 | a twelfth of positive annual charges, else 0 |
| Convert.ConvertRow | scripts/convert_xlsx.py:76-204 | id and stripped neighbourhood; rent and deposit both the parsed price; annual and monthly charges rounded; surface and room count as parsed integers, type from the room count; furnished iff the type cell is "Meublé"; DPE stripped and upper-cased, "" for an empty cell; the four equipment flags as parsed; no lift or balcony; each date the ISO day of a date cell, otherwise the stripped text; heating, état, contact, address, website and notes stripped or ""; cleaned phone |
| Convert.ConvertedSpec | scripts/convert_xlsx.py:71-207 | the output is the kept rows, in sheet order, converted and numbered from 1 |
| Convert.ConvertedIds | scripts/convert_xlsx.py:71-207 | one record per kept row, ids 1, 2, 3, … without gaps, no blank neighbourhood |
| Convert.ConvertRows | scripts/convert_xlsx.py:71-207 | the row loop computes the converted list |
| Seqs.FilterMembers | js/table/filters.js:24-34 | an element is kept iff it occurs and passes |
| Seqs.FilterIsSubsequence | js/table/filters.js:24 | filtering keeps the original order |
| Seqs.FilterIdempotent | js/table/filters.js:24-34 | filtering twice is filtering once |
| Seqs.FilterSplits | js/state.js:81 | what a predicate keeps and what its complement keeps make up the input, with multiplicities |
| Seqs.CountIfIsFilterLength | js/stats/index.js:70 | the count is the length of the filtered list |
| Seqs.KeptNumberedSpec | scripts/convert_xlsx.py:71-207 | element i of the output is kept element i, numbered i + 1 |
| Text.LtTrichotomy | js/table/sort.js:39-40 | two texts are equal or one sorts before the other |
| Text.LtTransitive | js/table/sort.js:39-40 | text order is transitive |
| Text.NotLtTransitive | js/table/sort.js:39-40 | "not before" on texts is transitive |
| Text.Lower | js/table/sort.js:91-97 | same length, each character lower-cased |
| Text.LowerIdempotent | js/table/sort.js:91-97 | lower-casing twice is lower-casing once |
| Text.Upper | scripts/convert_xlsx.py:110 | same length, each character upper-cased |
| Text.SplitJoin | js/data.js:265-266 | joining on a character no part contains and splitting again gives back the parts |

## Left out

- The DOM and the canvas are not modelled. This covers element lookups, `innerHTML`, classes, placeholders, the labels and placeholders of `updateLabelsAndForm`, `updateModeUI`, `updateSortIcons`, the stat-card label text and `drawBarChart`/`drawPieChart`. Filter, form and état inputs are parameters instead.
- `formatPrice` and `escapeHtml` are not modelled. They depend on `Intl` and the DOM, so rows carry amounts and raw text.
- `localStorage` is a key → list map, and JSON encoding round-trips as the identity.
- The CSV download (Blob, object URL, link click, file name with the date) is not modelled, nor the alert on an empty export.
- IEEE doubles are replaced by exact `real`. `Infinity` is an absent bound and NaN is `None`. Python's `float()`/`int()` on text, `str()` of a float and `round(x, 2)` are opaque parameters, and no overflow is modelled.
- Data.Row: a surface or room count is written "NaN" when it is `None`. That is what the program writes for the NaN a form stores when the surface or rooms box is left empty. The seed data, the form and the converter always set these fields, so a record without them, which the program would write as "undefined", is not distinguished.
- `localeCompare` is code-point order. The default `sort()` of the neighbourhood list (js/table/filters.js:63) compares UTF-16 code units, which differs from code-point order only for characters outside the Basic Multilingual Plane; it is modelled as code-point order too.
- `toLowerCase`/`upper()` map only ASCII letters and the Latin-1 letters À–Þ/à–þ (× and ÷ excepted). Characters outside that range are left unchanged. For `upper()` this differs from Python on Latin-1 characters too: 'ß' (Python gives "SS", so the length changes), 'ÿ' (Python gives 'Ÿ', U+0178) and 'µ' (Python gives 'Μ', U+039C).
- `str.isdigit` accepts ASCII digits and ¹²³ only. Digits of other scripts are not recognised.
- JavaScript objects used as counters keep insertion order. Engines list integer-like keys first, which is not modelled.
- `Date.now()` is the parameter `now`. `strftime` of a spreadsheet date is the cell's ISO day, given with the cell.
- Reading the workbook is not modelled: openpyxl, the header lookup and its `KeyError` on a missing column, and writing the JSON file. Rows are given as records of cells.
- js/modals/view.js, js/events.js, js/actions.js, app.js, js/theme.js, js/utils/dom.js and the open/close of the form modal are not part of this model. `HandleFormSubmit` ends with the edit closed, as `closeModal` leaves it.
- Render.RenderRow: cells shown as text (surface, rooms, DPE, état, quartier, type) are not rendered to HTML; the row carries the values the template interpolates.
- Seqs.SortWith: stability is proved as "an already sorted input comes back unchanged", not as the relative order of every pair of equal keys.
