# Restaurant margin calculator — a Dafny model

The calculator helps a restaurant on a food-delivery marketplace work out what
the marketplace keeps. It takes four amounts for a period:
- gross sales (VBV);
- what the customer paid directly to the platform;
- the platform's net remittance (VRL);
- what the store received itself (VRLJ).

From these it derives five KPIs:
- real gross revenue (RBR);
- net operating revenue (ROL);
- net profitability;
- the platform's retention percentage;
- the amount the platform retained.

Saved snapshots ("analyses") live in browser storage, one list per tenant.
They can be listed, filtered by period, deleted and exported as CSV.

This project models that core as pure functions over immutable datatypes.
Money is `real`, text is `seq<char>`, and storage is a map from key to a
decoded blob. The modules follow the source files:

| module | file | models |
|---|---|---|
| `Normalize` | normalize.dfy | the pt-BR `normalizeNumber`: character filter, dot collapse, first-comma swap, and JavaScript's `parseFloat` prefix grammar |
| `AssetsUtils` | alt_normalize.dfy | the older `normalizeNumber` and the `formatCurrency` fallback in src/assets/lib/utils.ts |
| `Types` | types.dfy | the records of src/lib/types.ts |
| `Metrics` | metrics.dfy | `calculateMetrics`, `validateFormData`, `generateTestData` |
| `Detailed` | detailed.dfy | the debit breakdown computed in the detailed-analysis component |
| `Store` | store.dfy | `saveAnalysisData` and `getAnalysisDataByPeriod` over a storage map |
| `Csv` | csv.dfy | the text produced by `exportToCSV` |
| `Dashboard` | dashboard.dfy | the dashboard's handlers: load, input, additional value, calculate, save, delete, demo data, the two date inputs, clear |
| `Export` | export.dfy | the export row mapping, plus the invariant that no handler ever stores a detailed analysis |
| `Display` | display.dfy | the history list: the last ten analyses newest first, with day-first period text |
| `Seqs`, `Text`, `Wrappers` | seqs.dfy, text.dfy, wrappers.dfy | order-preserving filter, JavaScript-like `includes`/`indexOf`/`split`/`join`, `Option`/`Result` |

## Where the code departs from its own comments

- **Thousands separators.** The doc comment of `normalizeNumber` in
  src/lib/utils.ts:12 promises pt-BR input: thousands points and a decimal
  comma. The older copy in src/assets/lib/utils.ts:5-6 gives `"R$ 1.234,56"`
  → 1234.56 as its example. The current code only deletes a `.` that has a
  later `.`, so a lone thousands point survives the clean-up. The comma then
  becomes a second point and parsing stops there. The older copy deletes no
  point at all. As written:
  - `"1.234,56"` reads as 1.234 in both copies;
  - `"100.000,00"`, the placeholder of the VBV field, reads as 100;
  - `"2.500,00"`, the example in the breakdown inputs, reads as 2.5.

  With two or more thousands points, the earlier points are removed and the
  last one becomes the decimal point, so `"1.234.567,89"` reads as 1234.567.
- **Corrupt storage.** The library functions `saveAnalysisData` and
  `getAnalysisDataByPeriod` throw on text that is not JSON and on a parsed
  value that is not an array; the model returns `Err`. The dashboard's save
  and load handlers treat such a blob as the empty list. The delete handler
  never reads it and overwrites it with the list on screen.
- **Delete.** Every record carrying the id is removed, and the list
  currently shown is written over the stored one.
- **Ids.** Ids come from the clock, so they are not guaranteed unique. The
  model takes them as parameters and claims nothing about uniqueness.

## Model

| member | source | states |
|---|---|---|
| Normalize.NormalizeNumber | src/lib/utils.ts:13-15 | a number argument comes back unchanged; the empty text gives 0 |
| Normalize.FilteredAndCollapsed | src/lib/utils.ts:16-18 | after the filter and the dot collapse, the text holds only digits, `,`, `.`, `-`; it has at most one `.`, and a `.` is left exactly when the filtered text had one |
| Normalize.CollapseDotsSpec | src/lib/utils.ts:18 | the collapse leaves one `.` when there was any and none otherwise; all other characters are kept in order; nothing new is introduced |
| Normalize.CollapseKeepsLastDot | src/lib/utils.ts:18 | the `.` that survives is the last one: `a.b` with no `.` in `b` becomes `a` without its dots, then `.b` |
| Normalize.ReplaceFirstCommaSpec | src/lib/utils.ts:19 | text without a comma is unchanged; otherwise exactly the first comma becomes `.` |
| Normalize.ParseFloatSpec | src/lib/utils.ts:20 | `parseFloat` reads the longest prefix that is a decimal literal; it yields NaN exactly when no prefix is a literal |
| Normalize.NormalizeText | src/lib/utils.ts:16-21 | non-empty text gives the value of the longest literal prefix of its cleaned form, or 0 when there is none, so the result is never non-finite |
| Normalize.ParseNegative | src/lib/utils.ts:20 | a leading minus sign negates the parsed value and leaves NaN as NaN |
| Normalize.OneThousandsDotIsKept | src/lib/utils.ts:16-21 | `a.b,c` with digit groups reads as the decimal `a.b`: a lone thousands point survives |
| Normalize.TwoThousandsDotsMerge | src/lib/utils.ts:16-21 | `a.b.c,d` reads as `ab.c`: only the earlier points are removed |
| Normalize.DecimalCommaIsRead | src/lib/utils.ts:16-21 | `a,c` reads as `a.c` |
| Normalize.PlaceholderReadsAsHundred | src/components/Dashboard.tsx:365 | the VBV placeholder `"100.000,00"` reads as 100 |
| Normalize.ThousandsExampleReadsAsDecimal | src/lib/utils.ts:12-22 | `"1.234,56"` reads as 1.234 |
| Normalize.ExampleAmountReadsAsTwoAndAHalf | src/components/DetailedAnalysis.tsx:125 | the example amount `"2.500,00"` reads as 2.5 |
| Normalize.DecimalCommaExample | src/lib/utils.ts:12-22 | `"1234,56"` reads as 1234.56 |
| AssetsUtils.AltNormalizeNumber | src/assets/lib/utils.ts:8-9 | undefined and null give 0 |
| AssetsUtils.AltNeverNegative | src/assets/lib/utils.ts:12 | the filter drops the minus sign, so no input gives a negative result; this holds for any `toString` rendering of a number |
| AssetsUtils.ParseCleaned | src/assets/lib/utils.ts:15 | an empty cleaned text falls back to `'0'` and gives 0 |
| AssetsUtils.NothingKeptReadsAsZero | src/assets/lib/utils.ts:12-15 | text with no digit, comma or point gives 0 |
| AssetsUtils.AltNaNIffNoLiteral | src/assets/lib/utils.ts:15 | NaN exactly when the cleaned text is non-empty and none of its prefixes is a decimal literal |
| AssetsUtils.LonePointIsNaN | src/assets/lib/utils.ts:15 | `"."` gives NaN: there is no finiteness guard |
| AssetsUtils.PointThenCommaReadsFirstGroup | src/assets/lib/utils.ts:12-15 | no point is removed and the comma becomes a second point, so `a.b,c` reads as `a.b` |
| AssetsUtils.ThousandsReadAsDecimal | src/assets/lib/utils.ts:6-15 | `"1.234,56"` reads as 1.234, not the 1234.56 of the doc comment |
| AssetsUtils.MinusIsDropped | src/assets/lib/utils.ts:12 | `"-5"` reads as 5 |
| AssetsUtils.FormatCurrency | src/assets/lib/utils.ts:23-29 | a missing amount shows the literal `R$ 0,00`; a present one is handed to the locale formatter |
| Metrics.CalculateMetrics | src/lib/utils.ts:41-60 | rbr = vbv − paid and rol = vrl + vrlj; retained = rbr − rol; profitability + retention = 100; rbr ≤ 0 gives 0 and 100; otherwise profitability·rbr = rol·100 and retention·rbr = retained·100; no detailed analysis is set |
| Metrics.ValidateFormData | src/lib/utils.ts:63-81 | errors are only ever on the fields vbv, paid and base; they come in that order, each at most once, each present exactly when its condition holds, each with its fixed message; valid iff there are no errors iff vbv > 0, paid ≥ 0 and rbr > 0; the one warning appears iff rol > rbr |
| Metrics.WarningsNeverAffectValidity | src/lib/utils.ts:75-80 | two forms that agree on vbv and paid get the same verdict and the same errors, whatever vrl and vrlj are |
| Metrics.ValidFormHasProfitabilityRatio | src/lib/utils.ts:41-81 | on a valid form rbr > 0 and profitability is exactly rol/rbr·100 |
| Metrics.GenerateTestData | src/lib/utils.ts:113-123 | the demo form has vbv 100000, paid 4000, vrl 70000 and vrlj 5000, the chosen period, no additional values and the tenant `demo-tenant` |
| Metrics.TestDataScenario | src/lib/utils.ts:113-123 | the demo inputs give rbr 96000, rol 75000, 78.125 %, 21.875 % and 21000 retained; they validate with no error and no warning |
| Detailed.Category | src/components/DetailedAnalysis.tsx:64-67 | a missing category reads as 0 and a present one passes through unchanged |
| Detailed.Share | src/components/DetailedAnalysis.tsx:74-80 | with positive RBR a share times RBR is the amount times 100; otherwise the share is exactly 0, so there is no division by zero |
| Detailed.ComputeBreakdown | src/components/DetailedAnalysis.tsx:64-101 | debits are the sum of the four categories; post-debit RBR plus debits is RBR (not clamped); remittance is RBR − debits + VRLJ; each of the five shares is `Share` of its own amount (the total of the debits) against RBR; the two error flags hold iff RBR ≤ 0 and iff post-debit RBR < 0; the five bars are named RBR, Débitos, RBR Pós-Débitos, VRLJ, Repasse Real and carry RBR, the debits, post-debit RBR, VRLJ and the remittance, so they add up along the chart |
| Detailed.CategoriesReadTheirKeys | src/components/DetailedAnalysis.tsx:64-67 | each category is read from its own key, 0 when the key is absent |
| Detailed.SharesArePercentages | src/components/DetailedAnalysis.tsx:74-80 | with positive RBR each category share times RBR is that category times 100, and the total share times RBR is the debits times 100 |
| Detailed.SharesAddUp | src/components/DetailedAnalysis.tsx:69-80 | the total share is the sum of the four category shares; all shares are 0 when RBR ≤ 0 |
| Detailed.PieShowsPositiveShares | src/components/DetailedAnalysis.tsx:83-88 | the pie holds exactly the category slices with a positive share, and it is a subsequence of the four slices, so they keep category order; it is empty when RBR ≤ 0 |
| Detailed.PieAddsUpToTotal | src/components/DetailedAnalysis.tsx:69-88 | with positive RBR and no negative category, the visible slices add up to the total debit share |
| Detailed.BreakdownExample | src/components/DetailedAnalysis.tsx:64-101 | debits of 2500, 1200, 800 and 300 on RBR 96000 with VRLJ 5000 give 4800 of debits, 91200 left, 96200 remitted, 5 %, no error flag and four slices |
| Store.StorageKey | src/lib/utils.ts:128 | the key is `ifood-analyses-` followed by the tenant id |
| Store.StorageKeyInjective | src/lib/utils.ts:128 | different tenants never share a key |
| Store.ReadList | src/lib/utils.ts:129 | an absent key reads as the empty list, a parsed array as itself, and anything else throws |
| Store.SaveAnalysisData | src/lib/utils.ts:126-132 | succeeds iff the tenant's blob is absent or an array; on success the record is appended at the end and every other key is unchanged |
| Store.GetAnalysisDataByPeriod | src/lib/utils.ts:135-140 | fails exactly when reading fails; the result is never longer than the stored list |
| Store.QueryReturnsMatches | src/lib/utils.ts:139 | the result holds exactly the stored records whose period contains the query, each as often as it is stored, and it is a subsequence of the stored list, so stored order is kept |
| Seqs.FilterIsSubsequence | src/lib/utils.ts:139 | `filter` keeps the kept elements in their original order |
| Store.EmptyQueryReturnsAll | src/lib/utils.ts:139 | the empty query returns the whole stored list |
| Store.SaveThenQuery | src/lib/utils.ts:126-140 | a query after a save returns the earlier answer followed by the new record when its period matches |
| Store.SaveIsolatesTenants | src/lib/utils.ts:126-140 | saving for one tenant leaves every other tenant's query answers unchanged |
| Csv.CellText | src/lib/utils.ts:100 | a missing value is written as the empty text |
| Csv.Headers | src/lib/utils.ts:97 | the header is the first row's keys, or none when there is no row |
| Csv.Lines | src/lib/utils.ts:98-101 | one header line, then one line per row |
| Csv.ExportToCsv | src/lib/utils.ts:97-101 | no rows give the empty text |
| Csv.CsvRoundTrip | src/lib/utils.ts:97-101 | when no header or value holds `;` or a line break, the text splits on line breaks into the header line and one line per row, and each line splits on `;` into the header or the row's values in header order |
| Csv.SeparatorInValueShiftsColumns | src/lib/utils.ts:98-101 | values are never quoted: a value holding `;` adds a column |
| Dashboard.LoadAnalysisData | src/components/Dashboard.tsx:73-85 | an absent key leaves the shown list as it was; a parsed array replaces it; any other blob empties it; nothing else changes |
| Dashboard.Set | src/components/Dashboard.tsx:87-93 | replacing one numeric input leaves the other three, the additional values, the period and the tenant as they were |
| Dashboard.InputChangeSetsOnlyItsField | src/components/Dashboard.tsx:87-93 | the edited input holds the normalised text and every other input keeps its value |
| Dashboard.HandleInputChange | src/components/Dashboard.tsx:87-93 | only the form changes |
| Dashboard.AdditionalFieldName | src/components/Dashboard.tsx:97 | a name without the `additionalValues.` marker is used as it is |
| Dashboard.PrefixedFieldName | src/components/Dashboard.tsx:97 | `additionalValues.k` names the category `k` |
| Dashboard.HandleAdditionalValueChange | src/components/Dashboard.tsx:95-106 | the named entry gets the value; every other entry and every other form field stay the same |
| Dashboard.DetailedInputChange | src/components/DetailedAnalysis.tsx:57-61 | the normalised text lands under the name read from `additionalValues.<field>`; every other entry and everything outside the additional values stay the same |
| Dashboard.DetailedInputSetsCategory | src/components/DetailedAnalysis.tsx:57-61 | typed text for a category lands, normalised, under that category's own key; no other key changes |
| Dashboard.TypedThousandsAreShrunk | src/components/DetailedAnalysis.tsx:125 | the breakdown's example amount `"2.500,00"` is stored as 2.5 |
| Dashboard.HandleCalculate | src/components/Dashboard.tsx:108-117 | validation is always recorded; results are stored and shown only when the form is valid, otherwise they stay as they were |
| Dashboard.NewRecord | src/components/Dashboard.tsx:129-141 | the saved form is the current form with period `start até end`; the results are the current ones; the record carries the given id and timestamp; user and tenant ids come from the user |
| Dashboard.TolerantRead | src/components/Dashboard.tsx:144-159 | a readable blob gives its list; a blob that is not JSON or not an array gives the empty list |
| Dashboard.HandleSave | src/components/Dashboard.tsx:119-166 | without results or a passing validation nothing changes; otherwise the list becomes the old list plus the record, it is written under the tenant's key and shown, and every other key is unchanged |
| Dashboard.HandleSaveAgreesWithLibrary | src/components/Dashboard.tsx:143-163 | on readable storage the handler writes what the library append writes; on a corrupt blob it writes a one-record list where the library would throw |
| Dashboard.SaveAfterEditKeepsOldResults | src/components/Dashboard.tsx:119-141 | results are not recomputed at save time, so a form edited after calculating is saved with the earlier results |
| Dashboard.SaveOnto | src/components/Dashboard.tsx:143-166 | a save appends to the stored list and leaves the state ready for another save |
| Dashboard.HandleDeleteAnalysis | src/components/Dashboard.tsx:183-204 | an empty id does nothing; otherwise the list can only shrink, only the list changes, and the shown list is written under the tenant's key |
| Dashboard.DeleteRemovesExactlyTheId | src/components/Dashboard.tsx:186-189 | exactly the records with another id stay, each as often as before, and the kept list is a subsequence of the shown one, so their order is kept |
| Dashboard.DeleteAbsentIdKeepsList | src/components/Dashboard.tsx:186-189 | deleting an id that no shown record carries leaves the state unchanged |
| Dashboard.DeleteIsIdempotent | src/components/Dashboard.tsx:183-204 | a repeated delete, as when several of the button's handlers fire for one press, changes nothing further |
| Dashboard.DeleteFirstOfTwo | src/components/Dashboard.tsx:186 | deleting the first of two records with different ids keeps the second |
| Dashboard.SaveTwiceThenDeleteFirst | src/components/Dashboard.tsx:119-204 | two saves under different ids, then deleting the first, leave exactly the second record, shown and stored |
| Dashboard.SetStartDate | src/components/Dashboard.tsx:332 | the start date takes the picked value and nothing else changes |
| Dashboard.SetEndDate | src/components/Dashboard.tsx:341 | the end date takes the picked value and nothing else changes |
| Dashboard.HandleClear | src/components/Dashboard.tsx:434-446 | every numeric input is 0, there are no additional values, the period is the current month and the tenant the user's; results, validation and the result panel are cleared; both dates are today; the saved list is kept |
| Dashboard.ClearedFormCannotBeSaved | src/components/Dashboard.tsx:119-123 | a save right after clearing changes neither the state nor storage |
| Dashboard.LoadTestData | src/components/Dashboard.tsx:248-251 | the demo form takes the user's tenant |
| Dashboard.DemoFlow | src/components/Dashboard.tsx:248-251 | demo data, calculate, then save into empty storage gives one stored record with the demo results |
| Export.DetailCells | src/components/Dashboard.tsx:235-242 | without a detailed analysis all eight detail values are 0 |
| Export.RecordFields | src/components/Dashboard.tsx:220-229 | ten fields under the first ten export keys: the period, then vbv, paid, rbr, vrl, vrlj, rol, profitability, retention and the retained amount of the record |
| Export.CategoryFields | src/components/Dashboard.tsx:231-234 | the four category fields under their keys, each the stored value or 0 when the key is absent |
| Export.DetailFields | src/components/Dashboard.tsx:235-242 | the eight detail fields under the last eight export keys, each the matching detail value |
| Export.ExportRow | src/components/Dashboard.tsx:219-243 | 22 columns in the fixed key order; the period, the four inputs and the five KPIs in columns 0–9; each of the four categories in columns 10–13, 0 when the key is absent; the eight detail values in columns 14–21 |
| Export.ExportRows | src/components/Dashboard.tsx:218 | one row per saved analysis, in stored order |
| Export.HandleExport | src/components/Dashboard.tsx:216-246 | nothing is exported exactly when the list is empty |
| Export.ExportLayout | src/components/Dashboard.tsx:216-246 | the CSV header is the fixed key list, followed by one line per analysis |
| Export.ExportedDetailsAreZero | src/components/Dashboard.tsx:235-242 | for records without a detailed analysis every detail column exports 0 |
| Export.StepKeepsNoDetail | src/lib/utils.ts:53-59 | no handler ever puts a detailed analysis in the results, the shown list or storage |
| Export.RunKeepsNoDetail | src/lib/utils.ts:53-59 | the same holds after any sequence of the modelled user actions: input, category, additional value, calculate, save, delete, load, demo data, the two date inputs and clear |
| Export.ExportedAggregatesAreAlwaysZero | src/components/Dashboard.tsx:235-242 | starting from a fresh dashboard, after any sequence of the modelled user actions (those listed for Export.RunKeepsNoDetail), every exported row has 0 in all eight detail columns |
| Display.Part | src/components/Dashboard.tsx:634 | a missing date part is the text `undefined` |
| Display.DisplayPeriod | src/components/Dashboard.tsx:632-638 | a period without ` até ` is shown as stored |
| Display.DisplayIsoDate | src/components/Dashboard.tsx:633-635 | `y-m-d` is shown as `d/m/y` |
| Display.DisplayYearOnly | src/components/Dashboard.tsx:634-635 | `"2024"` is shown as `undefined/undefined/2024` |
| Display.DisplaySavedRange | src/components/Dashboard.tsx:632-638 | `y1-m1-d1 até y2-m2-d2` is shown as `d1/m1/y1 até d2/m2/y2` |
| Display.RangeSplits | src/components/Dashboard.tsx:631-632 | a range of two dates without spaces contains ` até ` and splits back into the two dates |
| Display.DisplayRange | src/components/Dashboard.tsx:631-635 | a range of two dates without spaces is shown as each date shown on its own, joined by ` até ` |
| Display.SavedRangeShowsDayFirst | src/components/Dashboard.tsx:129 | a record saved for two ISO dates is listed with both dates day-first |
| Display.RecentIsNewestFirst | src/components/Dashboard.tsx:629 | the history shows min(10, n) records, newest first, taken from the end of the list |

## Left out

- Locale formatting (`Intl.NumberFormat`): currency and percentage text, the result messages, and the display strings of the currency input. Where a formatted or stringified number is needed, it is a function parameter: `intl` in `FormatCurrency`, `show` in the CSV writer, and `render` for `toString` in the older normaliser.
- IEEE-754 behaviour: money is `real`. NaN does not propagate through `Number(x) || 0`, and `parseFloat` does not overflow to Infinity. A NaN from the older normaliser is `None`.
- JSON text and the storage API: storage is a map to an already-decoded `Blob`. A stored empty text reads as absent, as every reader in the source treats it. Records are typed, so a stored record without `formData` or `periodo` cannot be represented.
- The `typeof window` guards and the CSV download (Blob, object URL, anchor click): browser plumbing with no logic.
- Clock-derived values: ids, timestamps, the initial dates and the demo period are parameters.
- React state scheduling, effects, alerts, console output and the rendering of charts and inputs. `showResults` is kept where handlers set it.
- The `isSaving` flag: `handleSave` sets it to true and back to false around the write (src/components/Dashboard.tsx:125, 179). It only disables the button while the write runs, so it is not part of the state.
- Races between tabs that share storage: last writer wins, which is concurrency rather than logic.
- The login simulation, user persistence, routing and bootstrap code.
- The interfaces Tenant, TenantSettings, AdditionalField, ChartData and PieChartData, which the core does not use.
- Idempotence of the normaliser on its own re-stringified output: this needs JavaScript's number-to-text conversion, which is not modelled.
- HandleInputChange: takes only the four numeric inputs. The source's `keyof FormData` also admits the map, period and tenant fields, which the form never passes.
