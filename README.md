# CDP estimation page — a Dafny model of its quoting logic

The page prices support for CDP questionnaire answers. A sidebar collects the client name,
the support category (初回答支援 / 既回答支援), the plan type (フルパッケージ / 回数制限プラン),
the theme (気候変動, 水セキュリティ or the bundle 気候変動＋水セキュリティ), an optional narrower
scope, a number of extra reviews and an hourly rate. The page then:

- filters a spreadsheet catalogue of work items by those choices;
- shows each matching item with a checkbox, ticked by default;
- sums the hours of the ticked items;
- adds option hours for extra reviews, at a per-review rate that depends on the theme;
- subtracts a flat 25-hour discount for the bundle;
- clamps the total at zero and multiplies it by the hourly rate;
- for a positive total, offers the quote as a list of CSV rows.

The model follows `app.py` part by part:

| module | file | what it holds |
|---|---|---|
| `Text` | Text.dfy | Python's `str.strip()`; the full-width → half-width parenthesis rewrite; decimal spelling and reading of whole numbers |
| `Masks` | Masks.dfy | boolean-mask selection (`frame[mask]`), used both by the filter and by the checkbox tally |
| `Selection` | Selection.dfy | the sidebar's enumerations and labels; the scope default; the extra-review default; the review-count caption |
| `Catalogue` | Catalogue.dfy | catalogue rows; the loader's cell cleaning; the theme-keyed filter and its properties |
| `Quote` | Quote.dfy | the checkbox loop (a method with loop invariants); review rate, option hours, discount, grand total and price |
| `Export` | Export.dfy | the CSV row list, with the footer built by a method that appends; a reader for the layout and the round trip through it |
| `Estimate` | Estimate.dfy | one run of the page, from raw catalogue to quote and export |
| `Wrappers` | Wrappers.dfy | `Option` |

Hours are exact `real`s; option and discount hours are `nat`s, as they are Python `int`s in the
source. The three formatted cells of the export stay abstract as cell kinds that carry their
values: the hourly rate with thousands separators, the total hours with an " h" suffix, and the
yen price.

The export has 13 + n rows, plus one row when extra reviews were bought and one when a
discount applies. The 13 fixed rows are the 9 header rows, the blank row after the items, and
the closing blank row, total-hours row and total-price row.

## Model

| member | source | states |
|---|---|---|
| Text.TrimStart | app.py:110 | the leading-whitespace part of `str.strip()`: keeps a suffix that does not start with whitespace |
| Text.TrimStartDropsSpace | app.py:110 | every character the leading trim drops is whitespace |
| Text.TrimEnd | app.py:110 | the trailing-whitespace part of `str.strip()`: keeps a prefix that does not end with whitespace |
| Text.TrimEndDropsSpace | app.py:110 | every character the trailing trim drops is whitespace |
| Text.StripIsSlice | app.py:110 | `strip()` keeps one contiguous slice of its input and drops only whitespace before and after it |
| Text.StripIsTrimmed | app.py:110 | stripped text has no whitespace at either end |
| Text.Strip | app.py:110 | `str.strip()`: the leading trim followed by the trailing trim; its meaning is stated by StripIsSlice and StripIsTrimmed |
| Text.StripTrimmed | app.py:110 | stripping already-trimmed text changes nothing |
| Text.ReplaceChar | app.py:110 | `str.replace` with one character: every occurrence is replaced and every other character is kept in place |
| Text.HalfWidthParens | app.py:110 | the parenthesis rewrite keeps the length, maps each character to its half-width form, and leaves no `（` or `）` |
| Text.HalfWidthParensEqualIff | app.py:177-185 | two strings normalise equal exactly when they differ only in parenthesis width, so full- and half-width spellings of a scope compare equal and nothing else does |
| Text.HalfWidthParensIdempotent | app.py:110 | rewriting twice is rewriting once, so the filter-time rewrite of an already loaded cell is harmless |
| Text.HalfWidthParensKeeps | app.py:177 | text without full-width parentheses is unchanged by the rewrite |
| Text.HalfWidthParensKeepsTrimmed | app.py:110 | the parenthesis rewrite keeps stripped text stripped, since it neither creates nor removes whitespace |
| Text.CleanCell | app.py:108-110 | the loader's treatment of one text cell: strip first, then rewrite the parentheses to half width; CleanCellIsClean states what it yields |
| Text.CleanCellIsClean | app.py:108-110 | a cleaned cell is trimmed and free of full-width parentheses, and cleaning is idempotent |
| Text.NatToString | app.py:323 | the decimal spelling of the review count in the option label is non-empty, all digits and has no leading zero |
| Text.ParseNatToString | app.py:323 | reading the decimal spelling of a number back gives that number |
| Masks.Select | app.py:181-186 | boolean-mask selection returns at most as many rows as its input |
| Masks.TrueIndices | app.py:224-257 | the ticked positions are exactly the mask's true positions, in strictly increasing order |
| Masks.SelectAtTrueIndices | app.py:181-204 | a mask selection is the rows at the mask's true positions in increasing order: catalogue order is kept and no other row appears |
| Masks.SelectMembership | app.py:181-204 | a row is selected exactly when it stands at some position whose mask entry is true |
| Masks.SelectAppend | app.py:181-204 | selection distributes over concatenation, so rows of an earlier part come first |
| Masks.AllTrue | app.py:227 | the default checkbox mask is true at every position |
| Masks.SelectAllTrue | app.py:227 | with every checkbox at its default, every displayed row is selected |
| Masks.SelectAllFalse | app.py:257 | with no checkbox ticked, nothing is selected |
| Selection.OptionLabel | app.py:141-147 | `opt_label`: the review-count caption for each theme; OptionLabelStatesRate states that it names the rate charged |
| Selection.DefaultHourlyRateOffered | app.py:152 | the slider's starting rate of 40000 yen is one of the rates it offers, and every offered rate is positive |
| Selection.DefaultScopeIsNormal | app.py:133 | the default scope "全Module(気候変動)" is already in half-width form |
| Selection.Scope | app.py:130-135 | the scope is the default unless the toggle is shown (every theme but water security) and switched on, in which case it is the chosen narrower scope; for water security it is always the default |
| Selection.ExtraReviews | app.py:137-149 | extra reviews are zero unless the plan is 回数制限プラン, in which case they are the number entered |
| Catalogue.LoadRow | app.py:108-110 | one loaded row: every text column cleaned by CleanCell, the numeric `hours` untouched |
| Catalogue.Load | app.py:104-111 | loading keeps the rows and their order and cleans each row |
| Catalogue.LoadCleans | app.py:108-110 | every loaded text cell is clean, hours are untouched, and loading is idempotent |
| Catalogue.LoadedScopeIsNormal | app.py:185 | the filter-time rewrite leaves a loaded scope cell as it is |
| Catalogue.Keeps | app.py:179-204 | the row condition of each theme branch: theme, category, plan type and the normalised scope cell against the normalised chosen scope (climate, bundle) or the fixed "全Module(気候変動)" (water); the bundle accepts either theme |
| Catalogue.FilterMask | app.py:179-204 | the boolean mask of a branch, one entry per catalogue row, true where Keeps holds |
| Catalogue.Filter | app.py:179-204 | `df_display`: the catalogue rows selected by the branch mask, in catalogue order; FilterMembership and FilterKeepsOrder state what it keeps and in which order |
| Catalogue.FilterMembership | app.py:179-204 | a row is displayed exactly when it is in the catalogue and the theme's branch mask keeps it |
| Catalogue.FilterKeepsOrder | app.py:181-204 | filtering a catalogue split in two gives the first part's kept rows, then the second's |
| Catalogue.ClimateFilter | app.py:179-186 | for 気候変動, the displayed rows are exactly the rows of that theme, category and plan type whose normalised scope equals the normalised chosen scope |
| Catalogue.WaterFilter | app.py:188-195 | for 水セキュリティ, the rows of that theme, category and plan type in the fixed scope "全Module(気候変動)"; the scope argument has no effect |
| Catalogue.CombinedFilter | app.py:197-204 | for the bundle, the displayed rows are the climate rows plus the water rows that match category, plan type and the chosen scope |
| Catalogue.CombinedFilterAtDefaultScope | app.py:179-204 | at the default scope, the bundle shows precisely the rows either single theme shows |
| Catalogue.FilterIgnoresParenWidth | app.py:177 | a chosen scope spelled with full-width parentheses selects the same rows as its half-width spelling |
| Catalogue.KeepsIgnoresCellParenWidth | app.py:185 | a catalogue scope cell spelled with full-width parentheses is kept exactly when its half-width spelling would be |
| Catalogue.Displayed | app.py:130-204 | the displayed rows for a sidebar state: Filter applied with the sidebar's theme, category, plan type and derived scope |
| Catalogue.WaterIgnoresScopeWidgets | app.py:130-135 | for 水セキュリティ, neither the scope toggle nor the scope radio changes the displayed rows |
| Quote.SumHours | app.py:258 | the sum of the `hours` of a row list, the value `total_h` accumulates; SumHoursAppend and TallyChecked state its meaning |
| Quote.Checked | app.py:257 | the displayed rows whose checkbox is ticked, in display order |
| Quote.ItemsOf | app.py:259 | one selected-item entry per row, in order, carrying the row's item name and hours |
| Quote.TallyChecked | app.py:218-259 | the loop's `total_h` is the hours of the ticked displayed rows, and `selected_items` lists exactly those rows in display order |
| Quote.CheckedStep | app.py:257-259 | one more displayed row extends the checked rows, their hours and their item entries by that row exactly when it is ticked |
| Quote.SumHoursAppend | app.py:258 | hours add up over a row list split in two |
| Quote.UncheckingNeverAddsHours | app.py:257-258 | with non-negative hours, unticking rows never raises the base hours, which lie between 0 and the hours of all displayed rows |
| Quote.DefaultChecksSelectAll | app.py:221-227 | with the default ticks every displayed row is counted; with nothing displayed the base is 0 |
| Quote.CheckedAreTickedRowsInOrder | app.py:224-259 | the counted rows are the displayed rows at the ticked positions, in increasing order |
| Quote.ReviewRate | app.py:268-274 | the per-review rate is positive |
| Quote.OptionHours | app.py:276 | `option_h`: the number of extra reviews times the theme's per-review rate |
| Quote.DiscountHours | app.py:279 | the discount is positive exactly for the bundle theme |
| Quote.ComputeQuote | app.py:276-283 | the grand total is never negative; it equals base + option − discount when that is non-negative and is 0 otherwise; the price is the grand total times the hourly rate |
| Quote.OptionLabelStatesRate | app.py:141-147 | the review-count caption for each theme states the same hours per review (10, 5, 15) that the quote charges |
| Quote.BundleReviewCostsBoth | app.py:269-274 | a bundle review costs the climate rate plus the water rate |
| Quote.NoOptionOutsideLimitedPlan | app.py:137-149 | outside 回数制限プラン no option hours are charged, whatever the review input held |
| Quote.QuoteMonotone | app.py:276-283 | more base hours or more reviews never lower the grand total or the price |
| Quote.DiscountOnlyForBundle | app.py:279-282 | single themes total base + option hours; the bundle totals 25 hours less, clamped at zero |
| Quote.WorkedQuotes | app.py:268-283 | worked cases: 8 h + 12 h at 40000 yen gives 20 h and 800000 yen; a bundle of 50 h with 2 reviews gives 55 h; a bundle of 10 h gives 0 |
| Export.HeaderRows | app.py:305-315 | the header block has 9 rows |
| Export.BodyRows | app.py:318 | one row per selected item, in order, with its name and hours |
| Export.ItemRow | app.py:318 | one body row: the item name, then its hours |
| Export.OptionRowLabel | app.py:323 | the option label "追加レビューオプション(n回)" with the decimal review count; OptionLabelRoundTrip reads the count back |
| Export.OptionRow | app.py:323 | the option row: that label and the option hours |
| Export.DiscountRow | app.py:325 | the discount row: "セット割引" and minus the discount hours |
| Export.TotalRows | app.py:327-331 | a blank row, the total-hours row and the total-price row |
| Export.FooterRows | app.py:321-331 | the footer has 4 rows, plus one for the option and one for the discount |
| Export.BuildFooter | app.py:321-331 | the footer built by conditional appends and a final extend is the prescribed footer |
| Export.FooterLayout | app.py:321-331 | the footer's layout: a blank row, then the option row when there are extra reviews, the discount row (value −discount) fourth from the end when there is a discount, then a blank row and the two totals |
| Export.ExportRows | app.py:301-334 | `all_csv_rows`: header, items and footer when the grand total is positive, and no export otherwise; ExportLayout and ExportRoundTrip state its layout and what it reads back as |
| Export.BuildExport | app.py:301-334 | the export is header + items + footer when the grand total is positive, and absent otherwise |
| Export.ExportOnlyForPositiveTotal | app.py:301 | an export exists exactly when the grand total is positive |
| Export.ExportLayout | app.py:334 | the export has 13 + n rows plus one per optional row: the header, the items in order, then the footer |
| Export.ParseItemsBody | app.py:318 | item rows read back as the items they were written from |
| Export.OptionLabelRoundTrip | app.py:323 | the option row's label gives back its review count |
| Export.FooterRoundTrip | app.py:321-331 | the footer gives back the review count, the option hours, the discount and both totals |
| Export.ExportRoundTrip | app.py:301-334 | reading an export back recovers the header values, the selected items in order, the review count, the option hours, the discount and both totals |
| Estimate.MetaOf | app.py:304-311 | the header values of an export: the timestamp, the client, theme, category, plan type and hourly rate of the sidebar |
| Estimate.Run | app.py:116-334 | one run: the quote is computed from the ticked displayed rows of the loaded catalogue; the export is exactly ExportRows (header, items in order, footer) of that quote and those items, exists exactly for a positive total, and reads back as that quote and those items |
| Estimate.NothingTickedNoExport | app.py:221-301 | with nothing ticked and no extra reviews the total is 0 for every theme and no export is offered |

## Left out

- Streamlit widgets, page layout, CSS/HTML and markdown output (app.py:6-101, 119-173, 207-265, 286-299, 344-351). What the widgets return is an input (`Selection.Sidebar`, the checkbox sequence). Checkbox state kept across reruns under position keys is session state and is not modelled.
- Reading the spreadsheet through pandas/openpyxl, and the error-and-stop path (app.py:104-116). The raw catalogue is an input sequence of rows.
- The loader cleans only columns of object dtype, and `astype(str)` turns their values into strings. The model takes text cells as strings already and `hours` as numeric.
- The `description` column is not modelled; it is used only for display (app.py:230-247). The placeholder for a missing description is a display matter. Also, `astype(str)` turns a missing value in an object column into the text "nan", so the placeholder hardly ever appears.
- `csv.writer` quoting and escaping, and the `utf-8-sig` encoding (app.py:337-346). These are library behaviour; the model stops at the list of rows.
- The `datetime.now()` timestamp and the file name (app.py:304, 347). The timestamp is a parameter; the file name is not modelled.
- Thousands-separator formatting and `int(...)` truncation of the price (app.py:286, 311, 330). These stay abstract as the `Grouped`, `HoursTotal` and `Yen` cell kinds, which carry the unformatted values.
- The static module reference table (app.py:156-166). It is displayed and nothing else.
- The hourly-rate slider's options (app.py:152) are recorded as constants. The calculation accepts any natural rate, as the source's arithmetic does.
- Float arithmetic on hours (app.py:258, 282). Hours are exact reals in the model, so rounding in the Python float sum is not captured. Near a boundary this can change the outcome: a bundle whose float sum lands just above 25 gets an export from the program, while the exact sum of 25 gives none in the model.
