# Credit dossier model

A Dafny model of the core of a microfinance credit-dossier application. A
credit officer fills in a loan application over a series of pages: the
applicant's request, the entrepreneurs, the enterprise, the account history,
the income statement (compte de résultat), the balance sheet (bilan), the
twelve-month cash-flow plan (plan de trésorerie), the amortisation schedule
(échéancier), the guarantees, and some optional sales and margin tables. An
analyst then scores the dossier against a weighted table of risk factors,
and the weighted score proposes a credit decision. The application keeps
every dossier in one store, hands it from officer to analyst to director,
and logs every status change.

The model follows the program's structure, one module per page:

- `Base`: optional values, and what an input box hands to a handler
  (`parseFloat(value) || 0`).
- `Rows`: the table operations shared by every page (append a row, remove
  one by index, replace one) and column sums.
- `Records`: the rows of the editable tables. A handler decides at run time
  whether an edit is stored as a number or as text.
- `CompteDeResultat`, `Bilan`, `Tresorerie`, `Echeancier`, `Garanties`,
  `CalculsOptionnels`, `Historique`, `CreditApplication`, `Entreprise`,
  `Entrepreneurs`: the pages. Each has its change handlers and its computed
  figures.
- `AnalysisConfig`, `Analyse`, `Ponderation`: the risk-factor table, the
  analyst's selections and the weighted score with its decision. Only the
  entrepreneur's analysis page (`src/components/analyse/AnalyseEntrepreneurPage.tsx`)
  is available; the other four analysis pages are not part of this model.
  `Analyse.SectionPage` assumes they share the entrepreneur page's handler,
  with their own category.
- `Workflow`: dossier numbers, the dossier store and its transitions, and
  the analyst's tab sequence.

Pure computations (totals, ratios, schedules, scores) are functions. The
loops in the source are methods with invariants, proved against those
functions:

- the balance sheet's net-value loop and spreadsheet import;
- the cash-flow `calc`;
- the amortisation schedule and its totals;
- the score computation.

The objects the source updates in place are classes:

- the cash-flow sheet;
- the analysis page;
- the application store;
- the analyst's tab bar.

Amounts are `real`. Every handler of the collector's pages takes the
page's `isReadOnly` flag and leaves the state untouched when it is set.
The analyst's selection handler and the weighting page's reasons handler
check no such flag, and their models take none.

One place where the program's documentation and its code disagree; the
model follows the code: the risk-factor weights of the "entreprise"
category sum to 110, and those of the "cashFlow" category to 95, although
each category is documented as summing to 100
(`src/components/analyse/analysisConfig.ts`). `AnalysisConfig.WeightSums`
proves the sums as written.

The analysis pages share answers between dossiers (see Findings). A new
dossier is a shallow copy of the initial data, so every dossier created
since the application was loaded holds the same section objects, and a
selection writes into the section object itself. `Workflow.Session`
models that sharing as written; the rest of the model uses the intended
per-dossier selection, `Workflow.SelectAnswer`. Dossiers read back from
storage own their sections, so after a reload nothing is shared.

The balance-sheet import reads a line's reference from `row[1]`, the second
cell of a zero-based row, trimmed and upper-cased (`Bilan.RowRef`).

## Model

| member | source | states |
|---|---|---|
| Rows.Append | src/components/GarantiesPage.tsx:89-93 | a new row goes after the existing rows, which are kept in order |
| Rows.RemoveAt | src/components/GarantiesPage.tsx:97-106 | `filter((_, i) => i !== index)`: exactly the indexed row goes, the others keep their order, and an index outside the table removes nothing |
| Rows.UpdateAt | src/components/GarantiesPage.tsx:57-62 | replacing one row keeps the length and every other row |
| Rows.SumOfConcat | src/components/GarantiesPage.tsx:160-179 | a left-to-right column total over two tables joined is the sum of their totals |
| Rows.SumOfRemoveAt | src/components/GarantiesPage.tsx:97-106 | removing a row takes exactly its own contribution out of a column total; an index outside the table changes nothing |
| Rows.SumOfUpdateAt | src/components/GarantiesPage.tsx:54-72 | replacing a row changes a column total by the new row's value less the old one's |
| Rows.RemoveAppended | src/components/TresoreriePage.tsx:118-142 | removing the row just appended gives back the table |
| Rows.SumOfZero | src/components/GarantiesPage.tsx:160-179 | a total over rows that each contribute zero is zero |
| Rows.SumOfNonNegative | src/components/CalculsOptionnelsPage.tsx:93-121 | a total over rows that each contribute at least zero is at least zero |
| Rows.SumOfCongruent | src/components/GarantiesPage.tsx:160-179 | two column functions that agree on every row give the same total |
| Records.SetField | src/components/GarantiesPage.tsx:58-62 | an edit changes only the edited field of the row and may add it; every other field keeps its value |
| Records.SetFieldConforms | src/components/GarantiesPage.tsx:58-62 | `typeof` sniffing keeps a row of its declared shape: a number field receives `parseFloat(v) \|\| 0`, a text field the raw text |
| Records.AddRow | src/components/EntreprisePage.tsx:78-88 | `[...rows, {...template, id}]`: the old rows are kept, and the new row has the given id and the template's other fields |
| Records.EditRow | src/components/EntreprisePage.tsx:64-76 | one cell of one row edited; the length and the other rows are kept |
| Records.BlankRow | src/components/CreditApplicationPage.tsx:108-121 | the empty row of a schema: every declared field but `id`, at zero, empty text or unticked, of its declared kind |
| Records.FillKeepsFit | src/components/CreditApplicationPage.tsx:108-121 | giving a declared column of a template a value of its kind keeps it a template without an id |
| Records.WithIdConforms | src/components/EntreprisePage.tsx:78-80 | a template given its text `id` is a conforming row |
| Records.TableOperationsConform | src/components/EntreprisePage.tsx:64-99 | adding, editing and removing rows keeps every row of a table conforming to its declared shape |
| Records.SumFieldAfterOperations | src/components/GarantiesPage.tsx:160-179 | a new row adds its own value to a column total, a removed row takes its own value out, and an edit of another field leaves the column unchanged |
| CompteDeResultat.SetValue | src/components/CompteDeResultatPage.tsx:51-66 | the chosen year of the chosen cell takes the parsed number; the other year and every other cell are kept; a read-only page changes nothing |
| CompteDeResultat.AbsentValuesGiveZero | src/components/CompteDeResultatPage.tsx:88-94 | with no values, all fifteen totals are zero |
| CompteDeResultat.SumYearConcat | src/components/CompteDeResultatPage.tsx:97-100 | `calc` over two key lists joined is the sum of the two |
| CompteDeResultat.SumYearZero | src/components/CompteDeResultatPage.tsx:97-100 | with no cell entered, every `calc` sum is zero in both years |
| CompteDeResultat.SumYearDependsOnListedLeaves | src/components/CompteDeResultatPage.tsx:97-100 | a `calc` sum depends only on the listed cells, and only in its own year |
| CompteDeResultat.LayoutIdentities | src/components/CompteDeResultatPage.tsx:103-125 | the ordinary result UI is ordinary products UH less ordinary charges SH, and the net result UZ is UI plus the H.A.O. result UP less the taxes SQ and SR |
| CompteDeResultat.NetResultIsProductsMinusCharges | src/components/CompteDeResultatPage.tsx:103-125 | the net result UZ is all products less all charges, year by year |
| CompteDeResultat.NetResultOfYear | src/components/CompteDeResultatPage.tsx:103-125 | in either year, UZ is that year's products less that year's charges |
| CompteDeResultat.ProductsByGroup | src/components/CompteDeResultatPage.tsx:103-125 | the products are the exploitation, financial and H.A.O. products added |
| CompteDeResultat.ChargesByGroup | src/components/CompteDeResultatPage.tsx:103-125 | the charges are the exploitation, financial and H.A.O. charges and the two tax lines added |
| CompteDeResultat.YearsAreIndependent | src/components/CompteDeResultatPage.tsx:97-125 | the totals of one year depend on that year's cells alone |
| CompteDeResultat.UJEntersNoTotal | src/components/CompteDeResultatPage.tsx:103-125 | the displayed cell UJ enters no total |
| CompteDeResultat.EditTouchesOneYear | src/components/CompteDeResultatPage.tsx:51-66 | an edit of one year leaves the other year's results as they were |
| Bilan.ComputeActifNets | src/components/BilanPage.tsx:78-86 | the loop gives every asset line, and only those, a net value: gross less depreciation, for each year |
| Bilan.SetActif | src/components/BilanPage.tsx:57-65 | `handleActifChange`: the chosen year-N field of one asset line takes the parsed number (0 when unparsable) and its other fields are kept; the other asset lines and every liability are kept; a read-only page changes nothing |
| Bilan.SetPassif | src/components/BilanPage.tsx:67-75 | `handlePassifChange`: the chosen year of one liability line takes the parsed number and its other year is kept; the other liability lines and every asset are kept |
| Bilan.TrimStart | src/components/BilanPage.tsx:255 | the result is the input less a prefix made only of blanks, and does not start with a blank |
| Bilan.TrimEnd | src/components/BilanPage.tsx:255 | the result is the input less a suffix made only of blanks, and does not end with a blank |
| Bilan.Upper | src/components/BilanPage.tsx:255 | the result has the input's length; each letter `a`..`z` becomes the same letter in `A`..`Z`, every other character is kept; no lower-case letter remains |
| Bilan.RowRef | src/components/BilanPage.tsx:255-256 | a reference is read exactly when the row's second cell holds more than blanks; it has no surrounding blanks and no lower-case letter |
| Bilan.TrimStartSkipsBlanks | src/components/BilanPage.tsx:255 | blanks put before a text do not change what trimming its start keeps |
| Bilan.TrimEndSkipsBlanks | src/components/BilanPage.tsx:255 | blanks put after a text do not change what trimming its end keeps |
| Bilan.TrimStartOfAppend | src/components/BilanPage.tsx:255 | trimming the start of a joined text trims the first part, or the second when the first is all blanks |
| Bilan.TrimIgnoresSurroundingBlanks | src/components/BilanPage.tsx:255 | `trim()` gives the same result for a text and the text with blanks added around it |
| Bilan.UpperTrimStart | src/components/BilanPage.tsx:255 | upper-casing and trimming the start may be done in either order |
| Bilan.UpperTrimEnd | src/components/BilanPage.tsx:255 | upper-casing and trimming the end may be done in either order |
| Bilan.RowRefIgnoresSurroundingBlanks | src/components/BilanPage.tsx:255-256 | two second cells that differ only in blanks around their text name the same line |
| Bilan.RowRefIgnoresCase | src/components/BilanPage.tsx:255-256 | two second cells whose texts agree once upper-cased name the same line |
| Bilan.Import | src/components/BilanPage.tsx:250-282 | the import loop applies the sheet's rows in order; a read-only page imports nothing |
| Bilan.ImportKeepsLines | src/components/BilanPage.tsx:254-270 | the import never adds or removes a line, so the sheet stays keyed by line references |
| Bilan.ImportActifLastRowWins | src/components/BilanPage.tsx:258-265 | every asset line ends with the columns 2, 3, 5 and 6 of the last row naming it, or keeps its own values |
| Bilan.ImportPassifLastRowWins | src/components/BilanPage.tsx:266-270 | every liability line ends with the columns 10 and 11 of the last row naming it, or keeps its own values |
| Bilan.TotalAssetsIsSumOfLines | src/components/BilanPage.tsx:119-130 | total assets BZ is the net sum of every asset line except AW |
| Bilan.TotalLiabilitiesIsSumOfLines | src/components/BilanPage.tsx:132-137 | total liabilities DZ is the sum of every liability line plus the year's result |
| Bilan.ResultMatchesIncomeStatement | src/components/BilanPage.tsx:105-107 | the result the balance sheet recomputes equals the income statement's net result UZ |
| Bilan.GapIsAssetsLessLiabilitiesAndResult | src/components/BilanPage.tsx:139 | the gap is total assets less the liability lines less the year's result; nothing forces it to zero |
| Bilan.AssetLinesDistinct | src/components/BilanPage.tsx:119-130 | no asset line is counted twice in total assets |
| Bilan.SumNetsUpdate | src/components/BilanPage.tsx:109-112 | changing one line's net moves a total by the change if the line belongs to the total, and not at all otherwise |
| Bilan.GapFollowsAssetNet | src/components/BilanPage.tsx:139 | replacing one asset line's net moves the gap by the change in that net |
| Bilan.GrossEditMovesGap | src/components/BilanPage.tsx:57-65 | raising an asset line's gross value raises the gap by exactly that much |
| Bilan.AbsentIncomeStatementZeroes | src/components/BilanPage.tsx:88-98 | without an income statement, totals, result and gap are zero and no net is reported |
| Bilan.SumNetsIgnores | src/components/BilanPage.tsx:109-112 | a line outside a total's list does not move it |
| Bilan.AWEntersNoTotal | src/components/BilanPage.tsx:119-139 | the AW line moves neither total nor the gap |
| Bilan.PriorYearEditKeepsGap | src/components/BilanPage.tsx:67-75 | editing a liability's N-1 value never moves the gap, which is taken on year N |
| Bilan.PassifNIgnoresN1 | src/components/BilanPage.tsx:114-117 | liability totals for year N depend on the N values alone |
| Tresorerie.SumRowDataArrays | src/components/TresoreriePage.tsx:41-44 | always twelve months, the empty list included |
| Tresorerie.Calc | src/components/TresoreriePage.tsx:147-164 | the loop over fixed rows and whole sections yields `CalcSpec`: the collected months summed column by column and the reasoned averages added |
| Tresorerie.CalcTotals | src/components/TresoreriePage.tsx:147-164 | an aggregate's month is that month summed over its fixed rows and every row of its sections; its reasoned average is the sum of theirs |
| Tresorerie.ColumnSumConcat | src/components/TresoreriePage.tsx:41-44 | a column sum over two lists of rows joined is the sum of the two |
| Tresorerie.SectionColumn | src/components/TresoreriePage.tsx:150-154 | a section contributes each month the sum of its rows' months |
| Tresorerie.ValuesOfColumn | src/components/TresoreriePage.tsx:150-162 | the collected arrays sum, month by month, to the items' monthly totals |
| Tresorerie.MonthOfCongruent | src/components/TresoreriePage.tsx:147-164 | items that agree on a month give the same monthly total |
| Tresorerie.MrOfCongruent | src/components/TresoreriePage.tsx:147-164 | items that agree on their reasoned averages give the same reasoned total |
| Tresorerie.Resolve | src/components/TresoreriePage.tsx:166-179 | each group receives one item per row or section it names |
| Tresorerie.Fixeds | src/components/TresoreriePage.tsx:180 | the aggregates enter `calc` as fixed rows, one item each, in order |
| Tresorerie.FixedsSums | src/components/TresoreriePage.tsx:180 | `calc` over aggregates adds their months and their averages |
| Tresorerie.OperatingTotals | src/components/TresoreriePage.tsx:166-180 | operating receipts are sales plus other receipts, and operating expenses the eight expense groups together, month by month and on averages |
| Tresorerie.CashFlowIdentities | src/components/TresoreriePage.tsx:182-209 | every cash flow is inflows less outflows, and the total flow is the operating, non-operating and household flows together |
| Tresorerie.SoldeCumule | src/components/TresoreriePage.tsx:211-215 | the running balance has one entry per month |
| Tresorerie.SoldeCumuleIsRunningTotal | src/components/TresoreriePage.tsx:211-215 | the balance of month i is the initial balance plus every cash flow up to month i |
| Tresorerie.PrefixSumOfPrefix | src/components/TresoreriePage.tsx:211-215 | a running total over the first months does not look past them |
| Tresorerie.RowAverage | src/components/TresoreriePage.tsx:222-223 | the displayed average times the month count is the row total, and it is zero when no month count is set |
| Tresorerie.AggregateMonthFollowsRows | src/components/TresoreriePage.tsx:147-179 | an aggregate depends on the rows only through their months: plans that agree on a month agree on every aggregate's month |
| Tresorerie.AggregateAverageFollowsRows | src/components/TresoreriePage.tsx:147-179 | plans that agree on the reasoned averages agree on every aggregate's average |
| Tresorerie.SameFiguresSameResults | src/components/TresoreriePage.tsx:145-218 | plans with the same months and averages have the same aggregates, cash flows and running balance |
| Tresorerie.AddRowTo | src/components/TresoreriePage.tsx:118-132 | adding a row to a section puts the new blank row after that section's rows, which keep their order; every other section and every fixed row is unchanged, and every row still has twelve months |
| Tresorerie.AddedRowChangesNothing | src/components/TresoreriePage.tsx:118-132 | a new row of zeros changes no aggregate, cash flow or balance |
| Tresorerie.EditRowData | src/components/TresoreriePage.tsx:87-93 | the edited month, average or comment takes the entry (a number that does not parse as 0); every other month and field is kept |
| Tresorerie.EditDynamicRow | src/components/TresoreriePage.tsx:103-111 | a user row keeps its identifier; the label changes only for a label edit, the figures only through `EditRowData` |
| Tresorerie.EditStatic | src/components/TresoreriePage.tsx:82-96 | the plan stays complete, the edited fixed row becomes `EditRowData` of itself, every other fixed row and every section is kept |
| Tresorerie.EditDynamic | src/components/TresoreriePage.tsx:98-116 | the plan stays complete, the indexed row of the section becomes `EditDynamicRow` of itself, the section keeps its length and its other rows, every other section and every fixed row is kept |
| Tresorerie.EditsKeepTwelveMonths | src/components/TresoreriePage.tsx:82-96 | a fixed-row edit keeps every row at twelve months |
| Tresorerie.DynamicEditsKeepTwelveMonths | src/components/TresoreriePage.tsx:98-116 | a user-row edit keeps every row at twelve months |
| Tresorerie.SectionMonthUpdate | src/components/TresoreriePage.tsx:98-116 | replacing a user row by one with the same month keeps the section's month |
| Tresorerie.ReplacedRowKeeps | src/components/TresoreriePage.tsx:98-116 | replacing a user row keeps the plan's month i if the new row keeps it, and its averages if the new row keeps its average |
| Tresorerie.StaticCommentChangesNoFigure | src/components/TresoreriePage.tsx:82-96 | editing a fixed row's comment changes no figure |
| Tresorerie.DynamicTextChangesNoFigure | src/components/TresoreriePage.tsx:98-116 | editing a user row's label or comment changes no figure |
| Tresorerie.StaticMonthEditStaysInItsMonth | src/components/TresoreriePage.tsx:82-96 | editing one month of a fixed row changes no other month of any aggregate, and no reasoned average |
| Tresorerie.DynamicMonthEditStaysInItsMonth | src/components/TresoreriePage.tsx:98-116 | the same for one month of a user row |
| Tresorerie.CommentKeepsFigures | src/components/TresoreriePage.tsx:91-92 | a comment edit keeps every month and every reasoned average of the plan |
| Tresorerie.MonthOfShifts | src/components/TresoreriePage.tsx:147-164 | when only the items naming one row or section move their month by `delta`, the monthly total moves by `delta` once per time that row or section is named |
| Tresorerie.MonthOfMoves | src/components/TresoreriePage.tsx:166-179 | when one fixed row or section moves its month by `delta` and no other does, month `i` of an aggregate moves by `delta` times the number of times its definition names it |
| Tresorerie.AggregateMoves | src/components/TresoreriePage.tsx:147-179 | the same movement for the month as `calc` reports it |
| Tresorerie.SectionMonthReplace | src/components/TresoreriePage.tsx:98-116 | replacing one user row moves its section's month by the new row's month less the old row's |
| Tresorerie.StaticMonthEditShifts | src/components/TresoreriePage.tsx:87-88 | editing month `m` of a fixed row moves that row's month `m` by the new figure less the old one and no other row's or section's month `m` |
| Tresorerie.DynamicMonthEditShifts | src/components/TresoreriePage.tsx:105-106 | editing month `m` of a user row moves its section's month `m` by the new figure less the old one and no other row's or section's month `m` |
| Tresorerie.StaticMonthEditMovesItsMonth | src/components/TresoreriePage.tsx:82-96 | after entering a figure in month `m` of a fixed row, month `m` of every aggregate moves by the new figure less the old one, once per time the aggregate names the row |
| Tresorerie.DynamicMonthEditMovesItsMonth | src/components/TresoreriePage.tsx:98-116 | the same for month `m` of a user row, through the section that holds it |
| Tresorerie.AbsentNeverOccurs | src/components/TresoreriePage.tsx:166-179 | a row or section that a group does not name counts zero times in it |
| Tresorerie.NoRepeatsOccurOnce | src/components/TresoreriePage.tsx:166-179 | in a group naming nothing twice, a row or section counts at most once |
| Tresorerie.GroupsListEachRowOnce | src/components/TresoreriePage.tsx:166-179 | every group of the page names each fixed row and each section at most once, so an edit moves each aggregate by the change itself or not at all |
| Tresorerie.AddThenRemoveRestores | src/components/TresoreriePage.tsx:118-142 | removing the row just added gives back the section |
| Tresorerie.CashFlowSheet.constructor | src/components/TresoreriePage.tsx:48-50 | the sheet starts from the stored plan with no month count |
| Tresorerie.CashFlowSheet.SetSoldeDate | src/components/TresoreriePage.tsx:52-75 | the date text is stored, and the month count becomes twelve for a valid date and zero otherwise |
| Tresorerie.CashFlowSheet.SetNumMonths | src/components/TresoreriePage.tsx:306 | on an editable page the month count takes the typed whole number, 0 when it does not parse, whatever its sign; a read-only page keeps it, and the plan is never touched |
| Tresorerie.CashFlowSheet.SetSoldeInitial | src/components/TresoreriePage.tsx:77-80 | only the initial balance changes |
| Tresorerie.CashFlowSheet.SetJustification | src/components/TresoreriePage.tsx:77-80 | only the chosen justification text changes |
| Tresorerie.CashFlowSheet.SetStaticCell | src/components/TresoreriePage.tsx:82-96 | the plan becomes `EditStatic` of the old rows; every row keeps twelve months |
| Tresorerie.CashFlowSheet.SetDynamicCell | src/components/TresoreriePage.tsx:98-116 | the plan becomes `EditDynamic` of the old rows; every row keeps twelve months |
| Tresorerie.CashFlowSheet.AddDynamicRow | src/components/TresoreriePage.tsx:118-132 | the plan becomes `AddRowTo` of the old rows; every row keeps twelve months |
| Tresorerie.CashFlowSheet.RemoveDynamicRow | src/components/TresoreriePage.tsx:134-142 | the section loses exactly the indexed row; every row keeps twelve months |
| Garanties.NewGarantie | src/components/GarantiesPage.tsx:76-87 | the new guarantee has the declared shape and every amount at zero |
| Garanties.NetValueIsNotClamped | src/components/GarantiesPage.tsx:161-163 | a guarantee worth less than the credit outstanding on it counts negatively |
| Garanties.TotalsAreColumnSums | src/components/GarantiesPage.tsx:160-179 | each accumulator is its column's total; the net total is estimated less outstanding; the retained total is the calculated total |
| Garanties.Calculate | src/components/GarantiesPage.tsx:157-184 | with positive exposure, the coverage ratio times the exposure is the retained value; otherwise the ratio is zero |
| Garanties.RoundToWhole | src/components/GarantiesPage.tsx:188 | `toFixed(0)` gives a whole number within a half of its argument, and never negative for a non-negative one |
| Garanties.DisplayTauxCouverture | src/components/GarantiesPage.tsx:186-188 | a typed rate is shown as typed; otherwise the computed ratio as a whole percentage, within a half |
| Garanties.AddedGuaranteeMovesRate | src/components/GarantiesPage.tsx:157-184 | adding a guarantee moves the ratio by its retained value over the exposure |
| Garanties.GarantieChange | src/components/GarantiesPage.tsx:54-72 | one cell of one guarantee is edited as the row's field type says |
| Garanties.AddGarantieRow | src/components/GarantiesPage.tsx:74-95 | a zeroed guarantee is appended |
| Garanties.RemoveGarantieRow | src/components/GarantiesPage.tsx:97-106 | the indexed guarantee is filtered out |
| Garanties.GarantieHandlersKeepShape | src/components/GarantiesPage.tsx:54-106 | every guarantee handler keeps the rows of their declared shape, and a new row leaves every total unchanged |
| Garanties.RemovedGuaranteeLeavesTotals | src/components/GarantiesPage.tsx:97-106 | removing a guarantee takes exactly its own net and retained values out of the totals |
| Garanties.ConditionChange | src/components/GarantiesPage.tsx:108-121 | only the indexed condition's text changes |
| Garanties.AddConditionRow | src/components/GarantiesPage.tsx:123-133 | an empty condition is appended |
| Garanties.RemoveConditionRow | src/components/GarantiesPage.tsx:135-144 | the indexed condition is filtered out |
| Garanties.FieldChange | src/components/GarantiesPage.tsx:146-155 | the rates take the parsed number (0 when unparsable), the summary takes the text, and nothing else changes |
| Garanties.TypedRateOverridesComputed | src/components/GarantiesPage.tsx:186-188 | a typed rate is shown whatever the guarantees, and the minimum rate changes nothing shown |
| Echeancier.Schedule | src/components/EcheancierPage.tsx:44-77 | 84 rows numbered from 1; a row past the loan's duration, or of an inactive loan, is a zero row |
| Echeancier.CalculatedSchedule | src/components/EcheancierPage.tsx:44-77 | the table the loop fills, carrying the capital still owed, is `Schedule` of the parameters |
| Echeancier.PowGrows | src/components/EcheancierPage.tsx:56 | powers of a growth factor above one are at least one and grow strictly |
| Echeancier.PowMonotone | src/components/EcheancierPage.tsx:56 | a higher power of a growth factor above one is larger |
| Echeancier.InstallmentExceedsInterest | src/components/EcheancierPage.tsx:55-56 | the constant installment exceeds the first month's interest, so every month repays principal |
| Echeancier.BalanceTimesRate | src/components/EcheancierPage.tsx:58-73 | the capital owed after k months of the loop, for any amount, rate and installment, in closed form: `Cₖ·t = P·t·qᵏ − A·(qᵏ − 1)` |
| Echeancier.BalanceShare | src/components/EcheancierPage.tsx:55-73 | when the installment solves the annuity equation for n months, the capital owed after k months is the amount lent times `(qⁿ − qᵏ)/(qⁿ − 1)` |
| Echeancier.BalanceFalls | src/components/EcheancierPage.tsx:58-73 | under the annuity installment, the capital owed stays non-negative and falls every month before the n-th |
| Echeancier.OutstandingShare | src/components/EcheancierPage.tsx:58-73 | the capital owed after k months is the amount lent times `(qⁿ − qᵏ)/(qⁿ − 1)` |
| Echeancier.LoanIsRepaid | src/components/EcheancierPage.tsx:58-73 | after `duree` months nothing is owed |
| Echeancier.OutstandingFalls | src/components/EcheancierPage.tsx:58-73 | before the end, the capital owed is non-negative and falls every month |
| Echeancier.FilledRowsArePositive | src/components/EcheancierPage.tsx:62-70 | every filled row splits the installment into positive interest on the capital owed and a positive repayment of principal |
| Echeancier.ComputeTotals | src/components/EcheancierPage.tsx:82-91 | the reduce over the table sums the rows whose installment is positive |
| Echeancier.TotalsOfPrefix | src/components/EcheancierPage.tsx:82-91 | over the first m months, principal repaid is the capital no longer owed, the installments m constants, and interest the rest |
| Echeancier.PrincipalTelescopes | src/components/EcheancierPage.tsx:82-91 | rows that each repay the drop in the capital owed add up to the first balance less the last |
| Echeancier.InstallmentsAddUp | src/components/EcheancierPage.tsx:82-91 | n counted rows of the same installment add up to n installments |
| Echeancier.InterestIsTheRest | src/components/EcheancierPage.tsx:82-91 | when every row splits its installment into principal and interest, so do the totals |
| Echeancier.FittingLoanTotals | src/components/EcheancierPage.tsx:82-91 | over all the months of a loan, the principal repaid is the amount lent and the interest the installments less that amount |
| Echeancier.TotalsIgnoreZeroRows | src/components/EcheancierPage.tsx:84 | rows past the loan add nothing to the totals |
| Echeancier.TotalsRepayTheLoan | src/components/EcheancierPage.tsx:44-91 | for a loan that fits the table the principal column adds up to the amount lent, the installments to `duree` constants, and interest to their difference; a longer loan shows its first 84 months; an inactive loan shows zero totals |
| Echeancier.DisplayedInstallment | src/components/EcheancierPage.tsx:80 | the installment shown is the annuity constant for an active loan and zero otherwise |
| Echeancier.SetParam | src/components/EcheancierPage.tsx:33-42 | the chosen parameter takes the parsed number, or 0; the others are kept; a read-only page changes nothing |
| Echeancier.ClearedParamEmptiesSchedule | src/components/EcheancierPage.tsx:33-54 | clearing any parameter, or entering 0 or less, leaves every row of the schedule at zero |
| CalculsOptionnels.NewRow | src/components/CalculsOptionnelsPage.tsx:60-80 | the new line has its table's declared shape, the given id, a zero quantity and, on sales and purchase lines, an 18 % VAT rate |
| CalculsOptionnels.TableChange | src/components/CalculsOptionnelsPage.tsx:40-58 | one cell of one line of the chosen table is edited as the line's field type says; the other tables are kept |
| CalculsOptionnels.AddRow | src/components/CalculsOptionnelsPage.tsx:60-80 | the chosen table gains the new line at its end; the other tables are kept |
| CalculsOptionnels.RemoveRow | src/components/CalculsOptionnelsPage.tsx:82-91 | the indexed line is filtered out of the chosen table; the other tables are kept |
| CalculsOptionnels.HandlersKeepShape | src/components/CalculsOptionnelsPage.tsx:40-91 | every handler keeps each table in its declared shape |
| CalculsOptionnels.MargeTotaleIsUnitMarginTimesQuantity | src/components/CalculsOptionnelsPage.tsx:217-220 | a margin line's margin is its quantity times its unit margin |
| CalculsOptionnels.PctMargeUnitaire | src/components/CalculsOptionnelsPage.tsx:221 | with a positive sale price, the percentage times the price is the unit margin times 100; otherwise it is 0 |
| CalculsOptionnels.PctMargePonderee | src/components/CalculsOptionnelsPage.tsx:222 | with positive line sales, the percentage times the sales is the line margin times 100; otherwise it is 0 |
| CalculsOptionnels.LinePercentagesAgree | src/components/CalculsOptionnelsPage.tsx:221-222 | with a positive quantity and sale price, the two percentages of a line are equal |
| CalculsOptionnels.TotalsAreColumnSums | src/components/CalculsOptionnelsPage.tsx:93-116 | each accumulator is the column total of its line value, and the total margin is total sales less total purchases |
| CalculsOptionnels.UniformRateTotals | src/components/CalculsOptionnelsPage.tsx:93-99 | when every sales line has the same VAT rate, the total including VAT is the pre-tax total at that rate |
| CalculsOptionnels.MargeMoyenne | src/components/CalculsOptionnelsPage.tsx:118 | with positive sales, the average rate times the sales is the total margin times 100; otherwise it is 0 |
| CalculsOptionnels.MargeMoyenneBounds | src/components/CalculsOptionnelsPage.tsx:108-118 | when nothing is sold below its purchase price and sales are positive, the average margin rate lies between 0 and 100 % |
| CalculsOptionnels.NewLinesAddNothing | src/components/CalculsOptionnelsPage.tsx:60-121 | a freshly added line adds nothing to any total |
| Historique.SchemaOf | src/types.ts:263-306 | both account tables declare a text `id` and the ten numeric movement, balance and day-count columns |
| Historique.Template | src/components/HistoriquePage.tsx:95-96 | a new account has every declared column but `id`: empty text, and zero in every numeric column |
| Historique.Movements | src/components/HistoriquePage.tsx:98-128 | a column's movements are the column total over the internal and external accounts together |
| Historique.PartMvtsN1Pct | src/components/HistoriquePage.tsx:127 | with a positive declared turnover, the share times the turnover is the N-1 movements times 100; otherwise it is 0 |
| Historique.PartMvts12MPct | src/components/HistoriquePage.tsx:128 | with a positive actual turnover, the share times the turnover is the twelve-month movements times 100; otherwise it is 0 |
| Historique.Share | src/components/HistoriquePage.tsx:127-128 | with a positive base, the share times the base is the part times 100; otherwise it is 0 |
| Historique.Displayed | src/components/HistoriquePage.tsx:265 | a typed share is shown instead of the computed one; an unset share shows the computed one; a not-a-number shows no number, and only then |
| Historique.SharesAreBounded | src/components/HistoriquePage.tsx:127-128 | when the movements stay within the turnover, both shares lie between 0 and 100 % |
| Historique.TableChange | src/components/HistoriquePage.tsx:52-70 | one cell of one account is edited as the row's field type says; the other table and the scalar fields are kept |
| Historique.AddAccount | src/components/HistoriquePage.tsx:72-82 | the chosen table gains the template row with the given id |
| Historique.RemoveAccount | src/components/HistoriquePage.tsx:84-93 | the indexed account is filtered out of the chosen table |
| Historique.FieldChange | src/components/HistoriquePage.tsx:41-50 | as called from the page, the turnovers take `parseFloat(v) \|\| 0`, the shares take `parseFloat(v)` as it comes, the date and the comment take the text; nothing else changes |
| Historique.Parsed | src/components/HistoriquePage.tsx:265 | a parsed share is stored as a number exactly when `parseFloat` yields one, and never as unset |
| Historique.HandlersKeepShape | src/components/HistoriquePage.tsx:52-93 | every table handler keeps both account tables in their declared shape |
| Historique.TableOperationsKeepShape | src/components/HistoriquePage.tsx:52-96 | adding, editing and removing accounts keeps one table in its declared shape |
| Historique.TemplateConforms | src/components/HistoriquePage.tsx:72-96 | the template with any id conforms to its table's shape |
| Historique.MovementsFollowTheTables | src/components/HistoriquePage.tsx:52-128 | a new account adds no movements, a removed account takes out exactly its own, and editing a text cell changes none |
| Historique.TypedShareIsShown | src/components/HistoriquePage.tsx:262-265 | a typed share is shown whatever the accounts; with the share unset, an unparsable turnover shows a 0 share |
| CreditApplication.Change | src/components/CreditApplicationPage.tsx:56-76 | ticking one sex box ticks it and clears the other; any other event stores a checkbox's state, a number input's `parseFloat(v) \|\| 0` or the text under the field's name; the tables are never touched |
| CreditApplication.ChangeKeepsSexExclusive | src/components/CreditApplicationPage.tsx:56-76 | no change event leaves both sex boxes ticked; ticking one leaves exactly that one ticked, and unticking one leaves it clear |
| CreditApplication.BothMayBeClear | src/components/CreditApplicationPage.tsx:67-75 | unticking a box when neither is ticked leaves both clear: exclusivity does not force a choice |
| CreditApplication.Template | src/components/CreditApplicationPage.tsx:108-121 | each table's new row has every declared field but `id`, of its declared kind, with every number at 0 |
| CreditApplication.NestedChange | src/components/CreditApplicationPage.tsx:78-89 | one cell of one row is edited as the row's field type says; the other tables and the form fields are kept |
| CreditApplication.AddCredit | src/components/CreditApplicationPage.tsx:91-98 | the chosen table gains its template row with the given id |
| CreditApplication.RemoveCredit | src/components/CreditApplicationPage.tsx:100-106 | the indexed row is filtered out of the chosen table |
| CreditApplication.NewRowConforms | src/components/CreditApplicationPage.tsx:91-121 | the appended row conforms to its table's shape |
| CreditApplication.TableOperationsKeepShape | src/components/CreditApplicationPage.tsx:78-106 | adding, editing and removing rows keeps one table in its declared shape |
| CreditApplication.HandlersKeepShape | src/components/CreditApplicationPage.tsx:78-106 | every table handler keeps the three tables in their declared shape |
| CreditApplication.TotalEngagements | src/components/CreditApplicationPage.tsx:271-272 | the "Total Engagements" cell is the proposed-amount total of the new credits |
| CreditApplication.EngagementsAreNewCreditsOnly | src/components/CreditApplicationPage.tsx:122-127 | running credits and decisions never count towards the engagements, and each new credit adds its proposed amount |
| CreditApplication.TotalsFollowTheTables | src/components/CreditApplicationPage.tsx:78-127 | a new row adds nothing to a total, a removed row takes out exactly its own amount, a text edit changes no total, and the other tables never move |
| Entreprise.Template | src/components/EntreprisePage.tsx:101-104 | each table's new row has every declared field but `id`, of its declared kind, with every number at 0 |
| Entreprise.Change | src/components/EntreprisePage.tsx:49-62 | a number input stores `parseFloat(v) \|\| 0` under the field's name, any other input its text; the tables, staff grid and notes are kept |
| Entreprise.NestedChange | src/components/EntreprisePage.tsx:64-76 | one cell of one row is edited as the row's field type says; the other tables and fields are kept |
| Entreprise.AddEntry | src/components/EntreprisePage.tsx:78-88 | the chosen table gains its template row with the given id |
| Entreprise.RemoveEntry | src/components/EntreprisePage.tsx:90-99 | the indexed row is filtered out of the chosen table |
| Entreprise.OrgMgtChange | src/components/EntreprisePage.tsx:106-118 | one organisation note takes the text; nothing else changes |
| Entreprise.SetCount | src/components/EntreprisePage.tsx:123-126 | exactly the chosen count takes the new value |
| Entreprise.MoyensHumainsChange | src/components/EntreprisePage.tsx:120-139 | one count of one staff category changes; the other categories, the summary and the rest of the page are kept |
| Entreprise.MoyensHumainsTotalChange | src/components/EntreprisePage.tsx:141-156 | one field of the workforce summary takes the value; nothing else changes |
| Entreprise.StaffTotal | src/components/EntreprisePage.tsx:162 | with non-negative counts, a category's total is at least each of executives, supervisors and workers |
| Entreprise.StaffTotalsFollowEdits | src/components/EntreprisePage.tsx:120-165 | editing one count moves only that category's total, by the change in that count; the headcount and stored total never move it |
| Entreprise.MeansTotalsFollowTheTable | src/components/EntreprisePage.tsx:78-160 | a new economic means adds nothing to either total, a removed one takes out its own values, and editing its description changes neither |
| Entreprise.NewRowConforms | src/components/EntreprisePage.tsx:78-104 | the appended row conforms to its table's shape |
| Entreprise.TableOperationsKeepShape | src/components/EntreprisePage.tsx:64-104 | adding, editing and removing rows keeps one table in its declared shape |
| Entreprise.HandlersKeepShape | src/components/EntreprisePage.tsx:64-99 | every table handler keeps the four tables in their declared shape |
| Entrepreneurs.Replace | src/components/EntrepreneursPage.tsx:47-54 | one entrepreneur replaced; the length and the other entrepreneur are kept |
| Entrepreneurs.EntrepreneurChange | src/components/EntrepreneursPage.tsx:47-54 | one field of one entrepreneur takes the value; the other entrepreneur is kept; a read-only page changes nothing |
| Entrepreneurs.NewRelation | src/components/EntrepreneursPage.tsx:110-119 | the new bank relation has the declared shape, the given id and every amount at 0 |
| Entrepreneurs.WithRelations | src/components/EntrepreneursPage.tsx:73-91 | one entrepreneur's relations replaced; the other entrepreneur is kept |
| Entrepreneurs.RelationChange | src/components/EntrepreneursPage.tsx:73-91 | one cell of one relation is edited as the row's field type says, for one entrepreneur only |
| Entrepreneurs.AddRelation | src/components/EntrepreneursPage.tsx:110-119 | one entrepreneur gains a zeroed relation at the end of their list |
| Entrepreneurs.RemoveRelation | src/components/EntrepreneursPage.tsx:121-129 | the indexed relation is filtered out of one entrepreneur's list |
| Entrepreneurs.PairHandlersKeepPair | src/components/EntrepreneursPage.tsx:47-129 | every entrepreneur handler keeps exactly two entrepreneurs, leaves the other one as it was, and keeps the relations in their declared shape |
| Entrepreneurs.TotalsFollowTheRelations | src/components/EntrepreneursPage.tsx:110-129 | a new relation adds nothing to its entrepreneur's totals, a removed one takes out its own amount, and the other entrepreneur's totals never move |
| Entrepreneurs.Template | src/components/EntrepreneursPage.tsx:131-133 | each shared table's new row has every declared field but `id`, of its declared kind, with every number at 0 |
| Entrepreneurs.NestedChange | src/components/EntrepreneursPage.tsx:56-71 | one cell of one row of a shared table is edited as the row's field type says; the other tables are kept |
| Entrepreneurs.AddEntry | src/components/EntrepreneursPage.tsx:93-100 | the chosen table gains its template row with the given id |
| Entrepreneurs.RemoveEntry | src/components/EntrepreneursPage.tsx:102-108 | the indexed row is filtered out of the chosen table |
| Entrepreneurs.NewRowConforms | src/components/EntrepreneursPage.tsx:93-133 | the appended row conforms to its table's shape |
| Entrepreneurs.TableOperationsKeepShape | src/components/EntrepreneursPage.tsx:56-108 | adding, editing and removing rows keeps one table in its declared shape |
| Entrepreneurs.HandlersKeepShape | src/components/EntrepreneursPage.tsx:56-108 | every shared-table handler keeps the three tables in their declared shape |
| AnalysisConfig.InstitutionalWeight | src/components/analyse/analysisConfig.ts:84-90 | each category's weight in the final score is positive and at most 30 % |
| AnalysisConfig.FindFactor | src/components/analyse/analysisConfig.ts:9-82 | a factor is found exactly when its category lists its key, and the one found carries that key |
| AnalysisConfig.ScaleIsShared | src/components/analyse/analysisConfig.ts:2-7 | the scale has four options valued 0, 50, 75 and 100 in increasing order, and every factor offers that scale |
| AnalysisConfig.ValuesAndWeightsInRange | src/components/analyse/analysisConfig.ts:2-82 | option values lie between 0 and 100, and factor weights are never negative |
| AnalysisConfig.KeysAreDistinct | src/components/analyse/analysisConfig.ts:9-82 | no two factors of a category share a key |
| AnalysisConfig.PrefixStep | src/components/analyse/analysisConfig.ts:9-82 | extending a prefix of a factor list by one factor adds its weight |
| AnalysisConfig.WeightSums | src/components/analyse/analysisConfig.ts:9-82 | the entrepreneur, activity and banking-history weights sum to their declared 100; the business weights sum to 110 and the cash-flow weights to 95, not the declared 100 |
| AnalysisConfig.InstitutionalWeightsSumTo100 | src/components/analyse/analysisConfig.ts:84-90 | the five institutional weights sum to 100 |
| AnalysisConfig.EveryCategoryListed | src/components/analyse/PonderationPage.tsx:25-31 | the weighting page lists every category exactly once |
| Analyse.KeysOf | src/types.ts:552-558 | the keys of a section, one per entry, in entry order |
| Analyse.Lookup | src/components/analyse/AnalyseEntrepreneurPage.tsx:34 | a key is found exactly when the section has an entry for it |
| Analyse.Put | src/components/analyse/AnalyseEntrepreneurPage.tsx:25-28 | writing a factor's entry keeps the section's keys and their order, a new key being appended after the existing ones |
| Analyse.PutLookup | src/components/analyse/AnalyseEntrepreneurPage.tsx:25-28 | after writing a factor's entry, that key reads back the new answer and every other key reads as before |
| Analyse.PutKeepsKeysDistinct | src/components/analyse/AnalyseEntrepreneurPage.tsx:25-28 | writing an entry never creates a second entry for a key |
| Analyse.PutTotal | src/components/analyse/AnalyseEntrepreneurPage.tsx:25-34 | writing one factor's answer moves the section total by exactly that factor's change in score |
| Analyse.FactorScoreRange | src/components/analyse/AnalyseEntrepreneurPage.tsx:21-23 | a valid choice scores between 0 and the factor's weight, a higher option never scores less, the top option earns the whole weight, and an index outside the options scores 0 |
| Analyse.ConfiguredFactorsScore | src/components/analyse/analysisConfig.ts:9-82 | every configured factor offers the shared scale and has a weight of at least 0 |
| Analyse.ScaleProduct | src/components/analyse/AnalyseEntrepreneurPage.tsx:23 | an option value between 0 and 100 applied to a weight gives between 0 and the weight |
| Analyse.ScaleMonotone | src/components/analyse/AnalyseEntrepreneurPage.tsx:23 | a higher option value never gives a lower score |
| Analyse.InitialSection | src/App.tsx:315-335 | a fresh section has one entry per configured factor, in configuration order, unanswered (selection -1) and scoring 0 |
| Analyse.InitialAnalyse | src/App.tsx:315-336 | the initial analysis, as declared, holds all five categories, each fresh |
| Analyse.ZeroScoresTotalZero | src/App.tsx:315-336 | a section whose entries all score 0 totals 0 |
| Analyse.InitialSectionIsBlank | src/App.tsx:315-336 | a fresh section repeats no key, totals 0, finds every configured key unanswered and no other key |
| Analyse.LookupUniform | src/App.tsx:315-336 | in a section whose entries all carry the same answer, every present key finds that answer |
| Analyse.SectionPage.constructor | src/components/analyse/AnalyseEntrepreneurPage.tsx:13-16 | the page edits the section of its category as the dossier holds it |
| Analyse.SectionPage.SelectionChange | src/components/analyse/AnalyseEntrepreneurPage.tsx:18-34 | the chosen index and the score it earns are stored for that factor alone in the section the page edits, keys stay distinct, and the footer total moves by that factor's change in score; which dossiers hold that section is `Workflow.SelectionAsWritten` |
| Ponderation.Decide | src/components/analyse/PonderationPage.tsx:37-40 | totals up to 5 are granted, above 5 up to 15 granted with reservations, above 15 up to 25 adjourned, above 25 rejected |
| Ponderation.DecisionIsMonotone | src/components/analyse/PonderationPage.tsx:37-40 | a higher total never earns a milder decision |
| Ponderation.Set | src/components/analyse/PonderationPage.tsx:30-31 | setting one category's number changes that category alone |
| Ponderation.Tabulate | src/components/analyse/PonderationPage.tsx:17-24 | the per-category record holds, for each category, the value given for it |
| Ponderation.PerCategoryExtensional | src/components/analyse/PonderationPage.tsx:17-24 | two per-category records that agree on every category are equal |
| Ponderation.CalculatedScores | src/components/analyse/PonderationPage.tsx:16-43 | the scores, weighted scores, total and decision the page computes are the category sums, their weighted values, the weighted total and its decision band |
| Ponderation.CategoryScores | src/components/analyse/PonderationPage.tsx:26-33 | after the loop each listed category holds its section total and its weighted score, a missing section leaving 0 |
| Ponderation.SumWeighted | src/components/analyse/PonderationPage.tsx:35 | the total is the sum of the weighted scores of all five categories |
| Ponderation.WeightedTotalBounds | src/components/analyse/PonderationPage.tsx:26-35 | when every category score lies in 0..100, the weighted total lies between 0 and the sum of the listed weights |
| Ponderation.WeightedBound | src/components/analyse/PonderationPage.tsx:31 | a score in 0..100 weighted by w percent lies in 0..w |
| Ponderation.TotalIsWeightedAverage | src/components/analyse/PonderationPage.tsx:26-35 | when every category score lies in 0..100, so does the final total, the institutional weights summing to 100 |
| Ponderation.SelectionsAreNotRescored | src/components/analyse/PonderationPage.tsx:29 | two sections whose entries carry the same scores have the same total, whatever their selections |
| Ponderation.UnansweredAnalysisIsGranted | src/components/analyse/PonderationPage.tsx:16-43 | a dossier without analysis, and the initial analysis as declared, both total 0 and are granted |
| Ponderation.ZeroTotal | src/components/analyse/PonderationPage.tsx:35 | when every category scores 0 the weighted total is 0 |
| Ponderation.MotifsChange | src/components/analyse/PonderationPage.tsx:45-53 | editing the reasons changes the reasons alone |
| Workflow.StatusLabelsAreDistinct | src/types.ts:21-30 | every status has a non-empty label of its own |
| Workflow.UserNamesIdentifyRoles | src/App.tsx:562-570 | each role signs the audit trail under a different name |
| Workflow.NumberPart | src/App.tsx:601-603 | each random part of a dossier number is a whole number from 100 to 999 |
| Workflow.ThreeDigits | src/App.tsx:604 | a part is written as exactly three decimal digits |
| Workflow.DossierNumber | src/App.tsx:600-605 | a dossier number is eleven characters, with '-' at positions 3 and 7 |
| Workflow.ThreeDigitsRoundTrip | src/App.tsx:604 | reading the three digits written for a part gives the part back |
| Workflow.DossierNumberRoundTrip | src/App.tsx:600-605 | a dossier number gives back the three parts it was made from, so different parts make different numbers |
| Workflow.NewDossier | src/App.tsx:606-613 | a new dossier carries its number as id and dossier number, status new, one creation entry in its history, a fresh analysis and a blank scoring, as intended; in a session that has already scored a created dossier the program gives it the shared answers instead (`Workflow.NewDossierAsWritten`) |
| Workflow.SelectAnswer | src/components/analyse/AnalyseEntrepreneurPage.tsx:18-34 | the intended selection: the open dossier's section of the category reads back the answer, its other sections and its other fields are unchanged |
| Workflow.AnswerStaysInItsDossier | src/components/analyse/AnalyseEntrepreneurPage.tsx:18-34 | applied to the open dossier, a selection leaves every other dossier unchanged; in the open one the factor reads back the answer, the other factors read as before, and the section total moves by that factor's change in score |
| Workflow.AnswerStaysPut | src/components/analyse/AnalyseEntrepreneurPage.tsx:18-34 | with two new dossiers, "Elevé" for succession on the first scores 10 there while the second keeps 0 |
| Workflow.HighSuccessionScores | src/components/analyse/analysisConfig.ts:18 | "Elevé" (index 3) for succession, a configured entrepreneur factor, earns its full weight 10 |
| Workflow.SuccessionSectionScores | src/components/analyse/AnalyseEntrepreneurPage.tsx:20-28 | the blank entrepreneur section with that answer written in totals 10 |
| Workflow.EntrepreneurOnlyTotal | src/components/analyse/PonderationPage.tsx:26-35 | 10 on the entrepreneur and 0 elsewhere give a weighted total of 1.5 |
| Workflow.SuccessionAnswerScores | src/components/analyse/PonderationPage.tsx:16-43 | an analysis blank but for that answer scores 10 on the entrepreneur and 1.5 in total |
| Workflow.StartSession | src/App.tsx:517-540 | a loaded session holds the stored dossiers, each showing its own analysis, and the initial analysis as declared |
| Workflow.NewDossierAsWritten | src/App.tsx:606-613 | a created dossier is appended and shows the shared sections with the answers they hold by now; dossiers with other ids show what they showed |
| Workflow.SelectionAsWritten | src/components/analyse/AnalyseEntrepreneurPage.tsx:18-34 | a selection changes what no stored dossier with another id shows |
| Workflow.AnswerReachesEveryCreatedDossier | src/components/analyse/AnalyseEntrepreneurPage.tsx:18-34 | an answer given on a dossier created in the session shows, with the shared sections, in every dossier created in the session |
| Workflow.TwoNewDossiers | src/App.tsx:606-613 | two dossiers created after loading are both on the shared sections, which still hold the initial analysis |
| Workflow.SharedAnswerLeaks | src/components/analyse/AnalyseEntrepreneurPage.tsx:20-28 | two dossiers are created and "Elevé" is chosen for succession on the first: the second then scores 10 instead of 0 on the entrepreneur and 1.5 in total, and a third dossier created later starts with that answer |
| Workflow.UpdateStatus | src/App.tsx:586-597 | every dossier with the id takes the new status and gains exactly one audit entry, nothing else in it changes, and every other dossier is untouched |
| Workflow.ReplaceActive | src/App.tsx:576-584 | the update applies to the dossiers with the open id and to no other |
| Workflow.Filter | src/App.tsx:635 | a dossier is kept exactly when it is listed and its status passes the test |
| Workflow.FilterKeepsOrder | src/App.tsx:635 | filtering keeps the list order: from a joined list it keeps the dossiers kept from the first part, then those kept from the second |
| Workflow.FilterOne | src/App.tsx:635 | a single dossier is kept exactly when its status passes |
| Workflow.ListsAreDisjoint | src/App.tsx:635-697 | the collector sees new and returned-to-collector dossiers, the analyst those under analysis or returned by the director, no dossier is on both lists, and one awaiting the director is on neither |
| Workflow.SubmittedDossierChangesHands | src/App.tsx:619-622 | a dossier submitted for analysis is on the analyst's list and off the collector's |
| Workflow.InitialStateOf | src/App.tsx:517-540 | saved state is used only when it holds a list of dossiers, an empty id counting as none and a missing role as the collector; otherwise the store starts empty on the landing page |
| Workflow.Store.constructor | src/App.tsx:542-547 | the store starts from the loaded state |
| Workflow.Store.UpdateDossierStatus | src/App.tsx:586-597 | the list is updated as `UpdateStatus` says, signed by the current user; the open dossier, role and landing flag are kept |
| Workflow.Store.SetDossierData | src/App.tsx:576-584 | without an open dossier nothing changes; otherwise the open dossier alone is updated |
| Workflow.Store.NewDossierAction | src/App.tsx:599-617 | the new dossier, numbered from the three draws, is appended last and opened |
| Workflow.Store.SubmitForAnalysis | src/App.tsx:619-624 | without an open dossier nothing changes; otherwise it moves to analysis with an audit entry and is closed |
| Workflow.Store.SendBack | src/components/AnalystView.tsx:53-58 | once confirmed, the dossier returns to the collector with an audit entry and is closed; otherwise nothing changes |
| Workflow.Store.SubmitToDirector | src/components/analyse/PonderationPage.tsx:55-60 | once confirmed, the dossier goes to the director with an audit entry and is closed; otherwise nothing changes |
| Workflow.StatusChangesAreAudited | src/App.tsx:586-597 | a status change adds exactly one audit entry per dossier carrying the id, and no other entry |
| Workflow.TabIndex | src/components/AnalystView.tsx:38 | every analysis tab has its place in the tab order |
| Workflow.NextAnalysisTabSteps | src/components/AnalystView.tsx:60-65 | "next" moves one place along the tab order, stays on the weighting tab, which is last, and five steps reach it from any tab |
| Workflow.AnalystTabs.constructor | src/components/AnalystView.tsx:51 | the analyst view opens on the entrepreneur tab |
| Workflow.AnalystTabs.HandleNextAnalysis | src/components/AnalystView.tsx:60-65 | the tab moves to the next one in order, the last staying put |

## Left out

- Rendering: layout, printing, `window.confirm` and `alert`. A confirmed action is a boolean parameter (`Workflow.Store.SendBack`, `Workflow.Store.SubmitToDirector`).
- Floating point: amounts are exact `real`s. IEEE rounding and `NaN` are not modelled. The one exception is an unparsable share in the account history, kept apart as `Historique.Stored.Unparsable`. `toFixed` and `toLocaleString` formatting are not modelled either, nor the 0.01 colour threshold of the balance-sheet gap.
- Number parsing: `parseFloat`, `parseInt` and `Number` are JavaScript library behaviour. An input arrives already parsed as `Base.Input`. A text cell that `Number` would convert is read as 0 by `Records.NumOf`.
- Echeancier.SetParam: a fractional duration is stored truncated to whole months. The source keeps the fraction and raises `1 + t` to a fractional power, which the model's whole-number `Pow` does not cover.
- Echeancier.Schedule: the duration is a whole number of months, for the same reason.
- Entreprise.StaffTotal: its own contract only bounds the total by each count. How edits move it is stated by `Entreprise.StaffTotalsFollowEdits`.
- Ponderation.TotalIsWeightedAverage: the bound 0..100 on every category score is a premise, not a fact about every reachable analysis. The "entreprise" factor weights sum to 110 (`AnalysisConfig.WeightSums`), so a fully answered entreprise section can score above 100.
- Persistence: reading and writing the browser's storage, and JSON parsing, are I/O. `Workflow.InitialStateOf` takes the parsed result as a parameter, `None` standing for missing or unreadable data. The save on every change is not modelled.
- Nondeterminism: `Math.random`, `Date.now` and `new Date().toISOString()` are parameters. That covers the random draws of a dossier number, the ids of new rows and the audit timestamps.
- Spreadsheet import: file reading and XLSX decoding are foreign code. The model starts from the decoded rows as text cells. The page's own search for the two fiscal-year dates (`src/components/BilanPage.tsx:272-279`: the first `row[2]` and the first `row[5]` shaped like dd/dd/dddd become `bilanDateN` and `bilanDateN1`) is not modelled, because it only fills two displayed dates that no figure reads. Its upper-casing covers ASCII letters only.
- The cash-flow sheet's month labels (`src/components/TresoreriePage.tsx:52-75`): the model records the start date, but the labels depend on JavaScript `Date`, which is not modelled.
- Tresorerie.CashFlowSheet.SetStaticCell and Tresorerie.CashFlowSheet.SetDynamicCell: the source writes a cell into the row object that the previous state shares. For a dossier created since the application was loaded, the fixed rows and the first row of each section are the session-wide initial row objects (`src/App.tsx:186-215`), so such an edit shows in every dossier created in the session. The sheet holds its rows as values, so that sharing, the same leak as the one under Findings, is not captured.
- Analyse.SectionPage.SelectionChange: the page stands for one section object. Which dossiers share that object is modelled apart, by `Workflow.SelectionAsWritten` (see Findings).
- Workflow.NewDossier: gives the intended fresh analysis, which `Workflow.Store.NewDossierAction` uses. What the program does in a session that has already scored a created dossier is `Workflow.NewDossierAsWritten`.
- The income statement's `handleDateChange` and `handleNbMoisChange` (`src/components/CompteDeResultatPage.tsx:68-83`) store a date or a month count that no computed figure reads. They are not modelled.
- The collector's page sequence (`handleNext`, `src/App.tsx:626-631`) is not modelled. It is a fixed tab order like the analyst's, which `Workflow.NextAnalysisTabSteps` covers.
- The entrepreneurs page addresses its two people by index 0 and 1. The model keeps that pair as a two-element sequence.
- The director's and committee's transitions, and the statuses `EN_VALIDATION_COMITE`, `VALIDE` and `REJETE`: they are declared but no code sets them, so there is nothing to model beyond their labels.
- The analyst's read-only consultation of the collector's pages is covered by every handler's `readOnly` flag. The tab bar that switches to it is not modelled.
- The text-generation call in `src/lib/gemini.ts` and its prompt is a network service, so it is not part of this model. Neither is the guidance text shown for each risk factor.
- The activity, ratios and synthesis pages, the analyst dashboard and the risk-factor row widget are not part of this model. They copy a typed value into one field and compute nothing. The option lists in `src/constants.ts` only feed select widgets.

## Findings

| source | as written | input that shows it | evidently intended | confidence | as-written member | corrected member |
|---|---|---|---|---|---|---|
| src/components/analyse/AnalyseEntrepreneurPage.tsx:20-25 | the handler copies the analysis map shallowly and writes the answer into the section object itself; every dossier created in a session is a shallow copy of the initial data (`src/App.tsx:505`, `src/App.tsx:606-613`), so all of them hold the same section objects | create two dossiers and choose "Elevé" for succession on the first: the second, never opened, then scores 10 instead of 0 on the entrepreneur and 1.5 in total, and every dossier created afterwards starts with that answer | each dossier keeps its own answers: the answer goes into the open dossier's section and no other | high; not executed | Workflow.SharedAnswerLeaks | Workflow.AnswerStaysInItsDossier |
