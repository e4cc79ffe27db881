# Bokiccio: a verified model of the bookkeeping core

Bokiccio keeps a double-entry ledger. This project models its deterministic
core in Dafny and proves what its reports, its text format and its import
protocol are for.

* **Values and text** (`Texts`, `Decimals`, `Calendar`, `Ledger`, `EntryRules`,
  `Tackler`, `TacklerFaults`, `TacklerRoundTrip`). Decimals with a retained
  scale of at most 28 and a coefficient below 2^96, calendar dates, the balance
  rules of an entry, the inferred last amount, and the Tackler parser and
  printer.
* **Reports**. `Accumulators`, `Accounts`, `Configurations`,
  `ConfigurationRules`, `Movements`, `CarryForward` and `Bookkeeping` hold exact sums at mixed scales and fiscal
  carry-forward; `Rows`, `TrialBalances`, `Sections` and `Reports` the trial
  balance with account roll-ups; `StatementRows`, `Statements`, `Incomes` and
  `Trends` the closing balance sheet, the income statement and the one-pass
  balance trend; `Targets`, `Explanations`, `DrillDowns` and
  `IncomeDrillDowns` the drill-downs that rebuild a figure along a second path.
  `Provenance`, `Figures`, `StatementFigures` and `Listings` say what stands
  behind every figure and every listed posting; `Selections`, `Warnings`,
  `Printed`, `Stitching`, `Articulation`, `TrendRefinement`, `Permutations`,
  `Overflows` and `OverflowExamples` relate the reports to each other and to
  their inputs.
* **Imports** (`Framing`, `Records`, `Snapshots`, `Ingest`, `Builds`,
  `Publication`, `Imports`). Identities hashed from length-prefixed fields,
  deduplication, the crash-prone publication of runs on disk, and concurrent
  imports into the database.

## How the model is built

An accumulator is either without a value or an unbounded coefficient at the
largest scale added so far. Adding is proved to be a commutative monoid, so a
sum over a map does not depend on the order in which the map is visited; every
loop over a Go map takes its next key by an arbitrary choice. A report is
described twice: by a specification that says which contributions each figure
adds up (`TrialBalanceFor`, `ClosingBalanceSheetFor`, `IncomeStatementFor`,
`BalanceTrendFor`, `TrialDrillDownFor`, `IncomeDrillDownFor`), and by methods
that follow the loops, in-place updates and run-time checks of the source and
are proved to return that specification, error cases included. The checks that
the source makes at run time against itself (`ErrClosingUnbalanced`, the
rebuilt figure against the row, the balance of a trend point, the month that
would end after its year, the export of accepted records) are proved never to
fire. Everything the reports print and read back is a string, and the proofs go
through the real text: reading a printed total returns its value and its scale.

Runs on disk and imports into the database are state machines. A history is
any sequence of runs, each failing at any set of the named stages; an
interleaving is any sequence of load, prepare, finish and abandon steps of any
number of importers. SHA-256 is an arbitrary function assumed injective.

What is specified is also said in plain terms, without the specification
functions: which postings a report counts and that it counts none twice
(`Provenance`), which lines it prints and what each of their figures reads back
as, with the categories named (`Figures`, `StatementFigures`), which postings a
drill-down lists (`Listings`), and which entries and configurations are
accepted (`EntryRules`, `ConfigurationRules`).

### Where the code differs from its promise

* Parse and Export undo each other exactly for trimmed text and identifiers
  without U+1680, the one white-space character the identifier ranges admit
  (`internal/ledger/journal.go:249`). `TacklerRoundTrip.ParseInvertsExport`
  proves the condition in both directions and `TacklerRoundTrip.SpaceIsLost`
  gives a valid entry that is lost.
* The generation is a 64-bit counter. Equal generations mean equal identity
  sets exactly while fewer than 2^64 runs have committed
  (`Publication.EqualGenerationsIff`); `Publication.CounterStartsOver` is the
  step at which it fails.
* A drill-down can report an overflow although its report prints: the sum of
  one entry's contributions may leave the range while the whole figure does
  not. `Overflows.DrillDownOverflowsIff` and
  `Overflows.IncomeDrillDownOverflowsIff` prove exactly when, and
  `OverflowExamples` gives a ledger for each. In a trial balance only opening
  contributions can do it: the movements of one entry stay in range because the
  section's printed debit and credit turnover are in range and cancel.

## Model

| member | source | states |
|---|---|---|
| Decimals.ParseDecimalText | internal/ledger/decimal.go:32-88 | the digit-by-digit parser with its early size guard returns the grammar's value, its error kinds included |
| Decimals.AcceptanceIsRange | internal/ledger/decimal.go:32-88 | well-formed text is accepted exactly when it has at most 28 decimals and a coefficient below 2^96, and then denotes that coefficient and scale |
| Decimals.ParseInvertsFormat | internal/ledger/decimal.go:110-132 | parsing a printed decimal returns the same coefficient and the same scale |
| Decimals.FormatInjective | internal/ledger/decimal.go:114-132 | the printed text determines coefficient and scale, for any size |
| Decimals.CmpAtAnyScale | internal/ledger/decimal.go:135-144 | comparing at the larger scale is comparing values at any common scale |
| Decimals.CanonicalDecidesEqual | internal/ingest/identity.go:102-112 | two canonical texts are equal exactly when the decimals are numerically equal |
| Calendar.ParseInvertsFormatDate | internal/ledger/entry_time.go:33-40 | a formatted date has ten characters and parses back to itself |
| Calendar.FormatInvertsParseDate | internal/reporting/reporting.go:322-333 | an accepted date text is the format of the date it denotes |
| Calendar.DateTextOrder | internal/reporting/reporting.go:581-584 | comparing the ten-character texts is comparing the dates |
| Calendar.NextDayNumber | internal/reporting/reporting.go:236-258 | the next day has the next number of the Gregorian calendar, in closed form, leap days included |
| Calendar.AddDaysNumber | internal/reporting/reporting.go:236-258 | moving by n days moves the number by n and stays on a valid date |
| Ledger.ExactSumOf | internal/ledger/journal.go:179-191 | the rescaling loop computes the exact sum at the largest scale |
| Ledger.ValidateEntry | internal/ledger/journal.go:60-113 | the pass over comments and postings reports the first fault in source order, or none |
| Ledger.PostingAccepted | internal/ledger/journal.go:138-165 | a posting passes exactly when its account and commodities are names, its comment has no line break, and a price stands beside a stated amount of another commodity with both positive, both negative or both zero |
| EntryRules.AccountIff | internal/ledger/journal.go:193-233 | an account is valid exactly when, read from left to right, it starts with a letter, no part is empty and later parts start with a letter or digit |
| EntryRules.CommodityIff | internal/ledger/journal.go:212-233 | a commodity is valid exactly when it is such a name of one part |
| EntryRules.AsciiNames | internal/ledger/journal.go:235-262 | within ASCII names are written with letters and $, after the first character also digits, _ and - |
| EntryRules.EntryAccepted | internal/ledger/journal.go:60-113 | an entry is accepted exactly when its date, description and comments are in order, its postings pass, and they sum to zero or leave a difference the last amount can be |
| Ledger.InferFinal | internal/ledger/journal.go:117-136 | the final amount is the negated exact sum in the entry's commodity, with the three refusals |
| Ledger.GoodPostingsIff | internal/ledger/journal.go:75-101 | acceptance of the postings means, spelled out: at least two, only the last one omits its amount, each is well formed, and all balance in one commodity |
| Ledger.InferenceSucceeds | internal/ledger/journal.go:117-136 | for a valid entry inference succeeds exactly when an amount is omitted, so its own range error cannot occur |
| Ledger.Conservation | internal/ledger/journal.go:60-136 | the amounts of a valid entry, filled in, sum to exactly zero in one commodity; the filled entry is valid and filling again changes nothing |
| Tackler.ParseText | internal/tacklerfmt/parse.go:77-139 | the line loop with its current entry returns the specified entries or the first fault with its line |
| Tackler.ExportEntries | internal/tacklerfmt/export.go:29-76 | the writer emits exactly the document lines of the entries in either mode, or the first invalid entry |
| TacklerFaults.LineEnds | internal/tacklerfmt/parse.go:141-144 | a line feed, a carriage return, or both together end one line |
| TacklerFaults.MissingHeaderIff | internal/tacklerfmt/parse.go:77-139 | a missing header is reported at line n exactly when n is the first line that is not blank and it is no header |
| TacklerFaults.LineFaultIff | internal/tacklerfmt/parse.go:77-139 | any other fault of a line is reported exactly at the first line that cannot be parsed, as a fault of its header or of its posting |
| TacklerFaults.EmptyInputIff | internal/tacklerfmt/parse.go:77-139 | an input is empty exactly when all its lines are blank |
| TacklerFaults.ValidationIsFirstFault | internal/tacklerfmt/parse.go:77-139 | validating accepts exactly when every parsed entry is valid, and otherwise reports the first invalid entry with its number and fault, whatever follows it |
| Tackler.FillIsPreserveOfFilled | internal/tacklerfmt/export.go:29-76 | exporting with amounts filled in equals exporting the filled entries unchanged |
| TacklerRoundTrip.ParseRange | internal/tacklerfmt/parse.go:77-223 | whatever the parser returns is non-empty, valid and canonical |
| TacklerRoundTrip.ParseInvertsExport | internal/tacklerfmt/parse.go:77-223 | parsing an export gives the entries back exactly when there are some and all are canonical |
| TacklerRoundTrip.ReparseIsStable | internal/tacklerfmt/parse.go:66-139 | for every accepted input, parsing the export of its entries gives the same entries |
| TacklerRoundTrip.CanonicalIsCheckable | internal/ledger/journal.go:240-258 | canonical means trimmed texts, non-empty comments and no U+1680 in identifiers |
| TacklerRoundTrip.SpaceIsLost | internal/ledger/journal.go:249 | a valid entry with U+1680 as an account is not read back from its export |
| TacklerRoundTrip.SampleIsWritten | internal/tacklerfmt/export.go:49-76 | the exported lines of an entry with comment, price, posting comment and omitted amount, to the character |
| TacklerRoundTrip.BlankBetween | internal/tacklerfmt/export.go:49-53 | the export of two lists is the export of each with one blank line between |
| Accumulators.PlusAssociates | internal/reporting/reporting.go:417-450 | adding accumulators at mixed scales is associative, value and retained scale included |
| Accumulators.PlusCommutes | internal/reporting/reporting.go:417-450 | the order of two additions does not matter |
| Accumulators.SumOverRemove | internal/reporting/reporting.go:665-692 | the sum over a map does not depend on which key is taken first |
| Accumulators.ReparseAbsolute | internal/reporting/reporting.go:849-853 | the parse error that is discarded when totals are read back cannot occur on a printed figure |
| Accumulators.ReparseBalance | internal/reporting/reporting.go:824-847 | printing a balance and reading it back keeps value and scale |
| Accumulators.FitsIff | internal/reporting/reporting.go:466-475 | a figure is in range exactly with at most 28 decimals and a coefficient of magnitude below 2^96 |
| Accumulators.BalanceReads | internal/reporting/reporting.go:824-833 | zero or more is printed as debit and less as credit without its sign, the other side as 0 |
| Accumulators.BalanceTextInjective | internal/reporting/reporting.go:824-833 | equal printed balances have equal values and scales |
| Accounts.PrefixIffUnder | internal/reporting/drilldown.go:281-287 | the prefixes obtained by splitting and joining an account are exactly the ancestors the text-prefix test recognises |
| Accounts.Preorder | internal/reporting/statements.go:637-649 | in row order an account is followed at once by a contiguous block of exactly its descendants |
| Accounts.SplitAccount | internal/reporting/statements.go:614-624 | the colon scan yields the parts of the account |
| Accounts.JoinAccount | internal/reporting/statements.go:626-635 | the concatenation loop joins the parts with colons |
| Accounts.CompareAccounts | internal/reporting/statements.go:637-649 | the part-by-part comparison is the strict row order |
| Configurations.CheckClassifications | internal/reporting/reporting.go:180-195 | no fault is found exactly when every classification is well formed and no two cover a common account; a fault found is the first in sorted order, with its code, and is real |
| Configurations.MatchUnique | internal/reporting/reporting.go:224-234 | in an accepted configuration at most one classification matches an account |
| Configurations.SortedClassifierAgrees | internal/reporting/reporting.go:391-404 | the sorted classifier and the unsorted one give the same category |
| Configurations.ClassifyOrderIrrelevant | internal/reporting/reporting.go:224-234 | the order of the classifications does not matter |
| Configurations.CheckYears | internal/reporting/reporting.go:196-218 | no fault is found exactly when every sorted year parses, opens properly and starts the day after the one before; a fault found is the first in year order, with its code |
| Configurations.ValidateConfiguration | internal/reporting/reporting.go:170-220 | acceptance is exactly validity of the revision, start month, years and classifications, and a refusal carries the code of the first failing check |
| ConfigurationRules.ConfigurationAccepted | internal/reporting/reporting.go:170-220 | acceptance spelled out: revision, start month, account names of which none lies at or below another, one of five categories each, and years that follow each other, of twelve months from the start month |
| ConfigurationRules.ClassifiedIff | internal/reporting/reporting.go:391-404 | an account has a category exactly when a classification covers it with that category, and is unclassified exactly when none covers it |
| Configurations.FiscalPeriods | internal/reporting/reporting.go:236-258 | the month loop returns the year and its twelve months; its guard against a month ending late never fires |
| Configurations.MonthsTile | internal/reporting/reporting.go:236-258 | the months start and end with the year, follow each other without gap, and every day of the year lies in exactly one |
| ConfigurationRules.MonthIsCalendarMonth | internal/reporting/reporting.go:236-258 | month m of a year is the calendar month m - 1 months after the start, first to last day |
| ConfigurationRules.PeriodFields | internal/reporting/reporting.go:236-258 | the periods of a year are the whole of it, numbered 0, and its twelve months, with the year's bounds |
| Movements.PostSum | internal/reporting/reporting.go:505-511 | for any choice of accounts the running totals and the posted contributions have the same exact sum |
| Movements.KeyHasSum | internal/reporting/reporting.go:505-511 | a key is present exactly when something was posted to it, and holds the exact sum of what was posted |
| Movements.EntryBalanced | internal/reporting/reporting.go:523-545 | the contributions of a valid entry sum to exactly zero in every commodity |
| Movements.MovementsBalanced | internal/reporting/reporting.go:572-590 | so do the movements of any period with any exclusions |
| Movements.TallyPermute | internal/reporting/reporting.go:505-511 | totals depend only on the multiset of contributions |
| Movements.MovementsStitch | internal/reporting/reporting.go:572-590 | the movements of a period cut in two are those of its parts |
| Movements.PermanentCommutes | internal/reporting/reporting.go:558-566 | restricting the totals to permanent accounts is totalling the restricted contributions |
| Provenance.MovementMembers | internal/reporting/reporting.go:572-590 | a contribution is a movement exactly when it is a posting of a listed entry, dated in the period, whose identifier is not excluded, with its account as classified and its price, stated or inferred amount |
| Provenance.PeriodMembers | internal/reporting/reporting.go:623-650 | so the movements of a report are those dated in its period, without the opening entries of its year |
| Provenance.EntriesAccepted | internal/reporting/reporting.go:370-385 | a ledger is accepted exactly when identifiers are there and distinct and each entry is in order, spelled out |
| CarryForward.CarriedClosedForm | internal/reporting/reporting.go:285-315 | the opening of a year is the asset, liability and equity part of the opening entries of the last reset year followed by the movements of the years since; nothing earlier matters |
| Provenance.CarriedMembers | internal/reporting/reporting.go:285-315 | posting by posting: an opening counts exactly the asset, liability and equity postings of the last reset year's opening entries and of the movements since |
| Provenance.OpeningExistsIff | internal/reporting/reporting.go:285-315 | an opening can be built exactly when, up to that year, every listed opening entry exists, is dated on the first day of its year and posts to asset, liability and equity accounts only |
| Provenance.NothingCountedTwice | internal/reporting/reporting.go:285-315 | no posting occurs twice in the opening and movements of a report |
| CarryForward.OpeningBalancedIff | internal/reporting/reporting.go:285-315 | the opening balances in every commodity exactly when revenue, expense and unclassified movements since the last reset net to zero |
| CarryForward.ResetIsBalanced | internal/reporting/reporting.go:290-302 | a year that starts from opening entries always opens balanced |
| Bookkeeping.AmountMap.Add | internal/reporting/reporting.go:507-511 | one value is added to one key, and no other key changes |
| Bookkeeping.AmountMap.PermanentOnly | internal/reporting/reporting.go:558-566 | a fresh map keeps exactly the asset, liability and equity keys |
| Bookkeeping.ProvenanceCollector.PermanentOnly | internal/reporting/drilldown.go:107-118 | the items are filtered in place, in order, to those on asset, liability and equity accounts |
| Bookkeeping.AddEntryCollected | internal/reporting/drilldown.go:120-125 | totals and collector receive the same contributions, up to an account refused for being neither asset, liability nor equity |
| Bookkeeping.AddMovementsCollected | internal/reporting/reporting.go:572-590 | totals and collector receive exactly the movements dated in the period and not excluded |
| Bookkeeping.CollectMovementsCollected | internal/reporting/reporting.go:623-650 | debits and credits are the totals of the non-negative and of the negative movements, and the collector receives all of them |
| Bookkeeping.ValidateEntries | internal/reporting/reporting.go:370-385 | accepted exactly when identifiers are non-empty and distinct and every entry is valid |
| Bookkeeping.BuildFiscalOpeningCollected | internal/reporting/reporting.go:285-315 | the loop over the years succeeds exactly when the openings exist, and ends with the carried totals and the same contributions in the collector |
| Rows.DirectSum | internal/reporting/reporting.go:694-744 | the direct rows of any accounts add up to the figure those accounts have in the totals |
| Rows.ReparseRow | internal/reporting/reporting.go:804-847 | printing a row and reading it back keeps all four figures |
| Rows.PrintedRowReconciles | internal/reporting/reporting.go:804-822 | as printed, closing equals opening plus debit turnover minus credit turnover |
| TrialBalances.BuildNodes | internal/reporting/reporting.go:746-760 | every ancestor of a posted account gets the sum of the direct rows at or below it |
| TrialBalances.BuildCategoryGroup | internal/reporting/reporting.go:746-793 | rows in account order with direct and rolled-up figures; the total from the top-level rows is the sum of all direct rows; it fails exactly when a figure is out of range |
| Sections.CollectDirect | internal/reporting/reporting.go:699-725 | the three map loops gather the direct rows, in any visiting order |
| Sections.BuildCommodity | internal/reporting/reporting.go:694-744 | the section total added up from the printed and re-read group totals is the exact sum over the commodity |
| Sections.AssembleTrialBalance | internal/reporting/reporting.go:665-692 | the commodities in name order with all warnings; it fails exactly when a figure is out of range |
| Warnings.RowWarningsExact | internal/reporting/reporting.go:862-897 | an ancestor row has no warning, an unclassified one exactly its own, and any other row exactly one per printed opening or closing balance on the abnormal side |
| Warnings.StatementWarningsExact | internal/reporting/statements.go:651-664 | the same for a statement row and its printed direct balance |
| Warnings.ReportWarningsExact | internal/reporting/reporting.go:665-744 | the warning list of a trial balance holds exactly the unclassified posted accounts and the printed opening and closing balances on the abnormal side |
| Warnings.StatementsWarningsExact | internal/reporting/statements.go:515-569 | the same for the warning list of statement sections |
| Warnings.CompleteIff | internal/reporting/reporting.go:694-744 | a trial balance is complete exactly when nothing in it is unclassified |
| Reports.ChoosePeriod | internal/reporting/reporting.go:349-362 | the search returns the first year or month with the two date texts |
| Reports.BuildTrialBalance | internal/reporting/reporting.go:260-279 | the report of the carried opening, the earlier movements of the year and the movements of the period, or the exact error |
| Figures.TrialFigures | internal/reporting/reporting.go:665-822 | every trial balance built: the period asked for; one section, group and line for exactly the commodities, categories and accounts posted to or above one that is, in order, labelled and indented; and each direct, subtotal, group and section figure reads back as the exact sum of its contributions in the four columns |
| Reports.RollUp | internal/reporting/reporting.go:746-793 | a subtotal is the sum of everything posted at or below the account, a direct figure what is posted on it, a group total the whole category |
| Reports.TurnoverBalances | internal/reporting/reporting.go:623-650 | total debit and credit turnover cancel in every commodity |
| Printed.ReportReconciles | internal/reporting/reporting.go:665-822 | in every trial balance built, each direct amount, subtotal, group total and section total reconciles as printed: closing is opening plus debit minus credit turnover |
| Printed.ReportTurnoverBalances | internal/reporting/reporting.go:665-744 | in every trial balance built, each commodity prints equal total debit and credit turnover |
| Printed.TrialWarnings | internal/reporting/reporting.go:260-279 | the exact warnings of every trial balance built |
| Printed.ClosingWarnings | internal/reporting/statements.go:195-224 | the exact warnings of every closing balance sheet built |
| Printed.IncomeWarnings | internal/reporting/statements.go:288-324 | the exact warnings of every income statement built |
| Reports.TrialBalancePermutes | internal/reporting/reporting.go:260-279 | any order of the entries gives the same trial balance, text and warnings included |
| Reports.MonthsStitchOpening | internal/reporting/reporting.go:604-617 | for any accounts, what month m closes with is what month m+1 opens with |
| Reports.YearTurnover | internal/reporting/reporting.go:623-650 | full-year debit and credit turnover are the sums of the twelve monthly ones, for any accounts |
| Printed.PrintedYearTurnover | internal/reporting/reporting.go:604-663 | as printed, the debit and credit turnover of any account or subtree in the year's trial balance are the sums of those in the twelve monthly ones |
| Stitching.MonthsStitch | internal/reporting/reporting.go:604-617 | every balance printed as a month's closing is printed as the same account's opening of the next month |
| Stitching.YearsStitch | internal/reporting/reporting.go:285-315 | every asset, liability and equity balance printed as a year's closing is printed as the opening of the next automatic year; revenue, expense and unclassified accounts open with 0 |
| Selections.PeriodSelectable | internal/reporting/reporting.go:349-362 | in a valid configuration every year and month is selected by its own dates |
| Selections.YearToDateSelectable | internal/reporting/statements.go:397-423 | so is every year to date, for the income statement |
| StatementRows.BuildStatementGroup | internal/reporting/statements.go:571-612 | rows and total of a category as sums over the subtrees; it fails exactly when a figure is out of range |
| StatementRows.BuildStatementCommodity | internal/reporting/statements.go:540-569 | the section total read back from the printed group totals is the exact sum over the commodity |
| StatementRows.AssembleStatements | internal/reporting/statements.go:515-538 | all sections in commodity order with warnings and completeness |
| Statements.FilterAmounts | internal/reporting/statements.go:433-445 | exactly the keys of the allowed categories are kept |
| Statements.TotalsByCommodity | internal/reporting/statements.go:274-286 | each commodity of the categories gets its exact sum |
| Statements.AmountsBalanced | internal/reporting/statements.go:502-513 | true exactly when every commodity sums to zero |
| Statements.ClosingTotal | internal/reporting/statements.go:249-255 | the printed and re-read section total plus the earnings is the commodity's whole exact sum |
| Statements.AssembleClosing | internal/reporting/statements.go:226-272 | the sheet, or an overflow of the sections, or the first commodity's refusal: unbalanced when it does not sum to zero, overflow when a figure is out of range |
| Statements.UnbalancedIsRefused | internal/reporting/statements.go:249-258 | amounts that do not balance are always refused, and balanced ones never as unbalanced |
| Statements.BuildClosingBalanceSheet | internal/reporting/statements.go:195-224 | the sheet of the carried opening and the year's movements or the exact error; once the opening balances, the closing check cannot fail |
| StatementFigures.ClosingFigures | internal/reporting/statements.go:195-272 | every closing sheet built: asset, liability, equity and unclassified lines with their exact sums over the year's opening and movements, current earnings the exact sum of revenue and expense, and a total of zero |
| Incomes.ChooseIncomePeriod | internal/reporting/statements.go:397-423 | the search returns a year or month first, then a year to date through months 2 to 11 |
| Incomes.NetMovements | internal/reporting/statements.go:425-431 | key by key the sum of debit and credit turnover |
| Incomes.NetIsTally | internal/reporting/statements.go:425-431 | debit and credit turnover merged are the totals of the movement itself |
| Incomes.CategoryBalance | internal/reporting/statements.go:666-676 | adds exactly the re-read totals of the groups in the categories |
| Incomes.NetIncomeIsExact | internal/reporting/statements.go:666-676 | net income read off the printed group totals is the exact sum of all revenue and expense contributions |
| Incomes.BuildIncomeStatement | internal/reporting/statements.go:288-324 | the statement of the period's revenue, expense and unclassified movements, or the exact error |
| StatementFigures.IncomeFigures | internal/reporting/statements.go:288-324 | every income statement built: exactly the revenue, expense and unclassified lines the period posts to, with their exact sums, and net income the exact sum of revenue and expense |
| StatementFigures.IncomeGroups | internal/reporting/statements.go:301 | a group is listed exactly for a posted category among revenue, expense and unclassified, and the printed section total reads back as the exact sum over these three |
| StatementFigures.IncomePeriodIs | internal/reporting/statements.go:397-423 | its period is a year, a month, or a year to date through months 2 to 11 |
| Articulation.StatementsArticulate | internal/reporting/statements.go:226-324 | for every commodity of a year's income statement the closing sheet's current earnings equal the net income, to the character |
| Articulation.NetIncomeAddsUp | internal/reporting/statements.go:288-324 | year-to-date net income through month m, and the full year with m = 12, is the sum of the monthly ones as printed |
| Articulation.ToDateTwelveIsYear | internal/reporting/statements.go:397-423 | through month 12 is the fiscal year |
| Trends.MonthlyClosingAmounts | internal/reporting/statements.go:447-484 | point m of the single pass is the opening plus all non-excluded movements of the year through month m, for any entry order and any entries outside the year |
| Trends.AlignStatementAmounts | internal/reporting/statements.go:486-500 | every point receives every key in place, without changing a value |
| Trends.AlignedSum | internal/reporting/statements.go:486-500 | alignment changes no sum over any accounts |
| Trends.PointBalanced | internal/reporting/statements.go:354-357 | every point of a trend with a balanced opening balances |
| Trends.BuildPoints | internal/reporting/statements.go:354-370 | the point loop returns the specified points and dated warnings; its balance check never fires |
| Trends.BuildBalanceTrend | internal/reporting/statements.go:326-372 | the twelve aligned points of the year, or the exact error |
| StatementFigures.TrendFigures | internal/reporting/statements.go:326-372 | every trend built: twelve points for the months of the year asked for, all listing what is posted by the year's end, each showing the exact sums of what is posted by its month's end |
| StatementFigures.TrendWarnings | internal/reporting/statements.go:354-370 | its warnings are exactly those of its points, each dated with the last day of the month |
| TrendRefinement.TrendIsClosing | internal/reporting/statements.go:447-484 | for any accounts, point m is the closing figure of the trial balance of month m |
| TrendRefinement.TrendShowsClosing | internal/reporting/statements.go:326-372 | every closing balance a month's trial balance prints is printed at the same account of the trend's point |
| TrendRefinement.TrendRowsAreClosing | internal/reporting/statements.go:326-372 | conversely every balance a trend point prints is that closing balance, or a zero for an account the month's trial balance does not list |
| Permutations.ClosingSheetPermutes | internal/reporting/statements.go:195-224 | any order of the entries gives the same closing balance sheet |
| Permutations.IncomeStatementPermutes | internal/reporting/statements.go:288-324 | any order of the entries gives the same income statement |
| Permutations.BalanceTrendPermutes | internal/reporting/statements.go:326-372 | any order of the entries gives the same trend |
| Targets.FindTrialTarget | internal/reporting/drilldown.go:237-257 | the lookup finds exactly the direct or subtree figure of the account, and nothing when no such row exists |
| Targets.FindSectionTarget | internal/reporting/drilldown.go:259-279 | the same for statement sections |
| Explanations.MatchesExplainRow | internal/reporting/drilldown.go:296-345 | the matching contributions, added one by one in their roles, rebuild the four sums of the row |
| Explanations.GroupsAddUp | internal/reporting/drilldown.go:305-315 | grouping by entry loses and repeats nothing |
| DrillDowns.TrialContributionEntries | internal/reporting/drilldown.go:296-345 | the index map and growing lists produce one entry per role and identifier, in order of appearance, with its postings and sums |
| DrillDowns.RebuiltIsTarget | internal/reporting/drilldown.go:166-173 | the rebuilt amounts equal the report row character for character, and are in range when the report is |
| DrillDowns.BuildTrialBalanceDrillDown | internal/reporting/drilldown.go:127-178 | the row with its entries, or the exact error; the comparison with the rebuilt amounts never fails |
| DrillDowns.DrillDownAddsUp | internal/reporting/drilldown.go:296-345 | in all four columns the printed amounts of the listed entries add up to the printed amounts of the row |
| Listings.TrialListing | internal/reporting/drilldown.go:289-345 | every listed entry is a ledger entry, each listed line is a posting of it with its account, commodity and, read back, its price, stated or inferred amount, lies in the queried accounts, and the lines add up to the entry's printed closing |
| Listings.TrialListingComplete | internal/reporting/drilldown.go:296-345 | every posting behind the figure is listed, and none twice |
| Listings.TrialRefusedIff | internal/reporting/drilldown.go:127-178 | a query is refused as invalid exactly when it is malformed or nothing was posted at or below its account |
| IncomeDrillDowns.IncomeContributionEntries | internal/reporting/drilldown.go:347-382 | one entry per identifier, in order of appearance, with its postings and balance |
| IncomeDrillDowns.RebuiltIsBalance | internal/reporting/drilldown.go:207-213 | the rebuilt balance equals the statement row character for character |
| IncomeDrillDowns.BuildIncomeStatementDrillDown | internal/reporting/drilldown.go:180-218 | the row with its entries, or the exact error; the comparison with the rebuilt balance never fails |
| IncomeDrillDowns.IncomeDrillDownAddsUp | internal/reporting/drilldown.go:347-382 | the printed balances of the listed entries add up to the printed balance of the row |
| Listings.IncomeListing | internal/reporting/drilldown.go:347-382 | the same for the entries of an income statement row, whose lines add up to the entry's printed balance |
| Listings.IncomeListingComplete | internal/reporting/drilldown.go:347-382 | every posting behind the balance is listed, and none twice |
| Listings.IncomeRefusedIff | internal/reporting/drilldown.go:180-218 | a query is refused as invalid exactly when it is malformed or nothing was posted at or below its account on revenue, expense and unclassified accounts |
| Overflows.DrillDownOverflowsIff | internal/reporting/drilldown.go:336-345 | the drill-down into a row of a printed trial balance fails exactly when some entry's opening contributions leave the range; movements never do |
| Overflows.IncomeDrillDownOverflowsIff | internal/reporting/drilldown.go:372-382 | the drill-down into a row of a printed income statement fails exactly when some entry's net contribution leaves the range |
| OverflowExamples.TrialDrillDownCanOverflow | internal/reporting/drilldown.go:336-345 | a valid ledger whose trial balance prints and whose drill-down overflows |
| OverflowExamples.IncomeDrillDownCanOverflow | internal/reporting/drilldown.go:372-382 | the same ledger, with its income statement |
| Framing.CharDecodes | internal/ingest/identity.go:88-93 | the bytes of a character are its UTF-8 encoding as section 3 of RFC 3629 defines it |
| Framing.Utf8Injective | internal/ingest/identity.go:88-93 | texts with the same UTF-8 bytes are equal |
| Framing.StreamInjective | internal/ingest/identity.go:88-93 | a stream of length-prefixed fields determines its fields |
| Records.ResolveIdentity | internal/ingest/identity.go:34-86 | the field loop hashes exactly the specified fields under the right kind |
| Records.FieldsAgree | internal/ingest/identity.go:34-76 | the hashed fields of two records agree exactly when namespace and external identifier agree, or both have none and schema version, namespace, canonical time, trimmed description and postings up to numeric equality agree |
| Records.IdentityDecides | internal/ingest/identity.go:34-93 | so two records get the same identity exactly then |
| Records.PrecisionsDiffer | internal/ingest/identity.go:95-100 | a date and a timestamp never share a canonical time, and equal canonical dates are the same date |
| Snapshots.SnapshotIdentity | internal/webstore/trial_balance.go:74-115 | the nested loops stream exactly the specified fields |
| Snapshots.SnapshotDecides | internal/webstore/trial_balance.go:74-115 | equal snapshot identities mean the same revision and the same entries, retained decimals and comments included |
| Ingest.CanonicalIdentities | internal/ingest/artifact.go:412-431 | sorting a copy and compacting it in place behind a write index yields the distinct identities in order |
| Ingest.CanonicalCheck | internal/ingest/artifact.go:273-276 | the order check accepts exactly strictly increasing lists |
| Ingest.IdentityOrder | internal/ingest/artifact.go:437-451 | the comparison by kind, version and digest is a strict total order |
| Ingest.ProjectRecord | internal/ingest/processor.go:75-117 | warnings are written into the comment of the posting they name, otherwise into the entry's comments, in order; dates, accounts and amounts are untouched |
| Ingest.WarningsAreKept | internal/ingest/processor.go:93-115 | every warning is found in the comment of the posting it names or among the entry's comments, and accounts and amounts are taken over unchanged |
| Ingest.Process | internal/ingest/processor.go:27-73 | each record gets its specified outcome, and the entries are those of the accepted ones in order |
| Ingest.DuplicateIff | internal/ingest/processor.go:38-52 | an outcome is a duplicate exactly when its identity was committed or occurred earlier in the batch, whatever became of that occurrence |
| Ingest.StatusIff | internal/ingest/processor.go:27-73 | otherwise it fails exactly when its entry is invalid, with that fault last, and else succeeds, with a warning when the record has one; only then it has an entry |
| Builds.DecodeState | internal/ingest/artifact.go:257-278 | a state is accepted exactly with the known version, known kinds and strictly increasing identities |
| Builds.Build | internal/ingest/artifact.go:69-135 | the artifact of the specified outcomes, journal and next state, or the exact error; exporting the journal cannot fail |
| Builds.BuildRefusedIff | internal/ingest/artifact.go:69-100 | when a build is refused and with which error; the order of the given identities is irrelevant |
| Builds.BuildReports | internal/ingest/artifact.go:69-135 | the report names its input, run and starting generation; there are errors exactly when a record neither committed nor earlier in the batch projects to an invalid entry, and a journal exactly when one projects to a valid entry |
| Builds.RunIdentityDecides | internal/ingest/artifact.go:137-146 | a run's name determines its input, the generation it started from and its export mode |
| Builds.BuildAdds | internal/ingest/artifact.go:105-114 | the next state is strictly sorted, is exactly the old identities plus the disjoint newly accepted ones, and its generation moves exactly when something was accepted |
| Builds.RerunIsNoOp | internal/ingest/artifact.go:69-135 | the same input on the state it produced accepts nothing, yields no journal and leaves the state unchanged |
| Publication.OutputRoot.Run | internal/ingest/publication.go:49-146 | one run changes the disk as specified, for any set of failing stages |
| Publication.OutputRoot.VerifyExistingBundle | internal/ingest/publication.go:148-165 | passes exactly when the bundle on disk is the artifact's |
| Publication.HistoryConsistent | internal/ingest/publication.go:49-109 | over every history of failing and succeeding runs the manifest is a state of the commit sequence, every bundle on disk is self-written, and the bundle of every committed run is kept |
| Publication.EqualGenerations | internal/ingest/publication.go:100-107 | at any two moments of a history equal generations mean equal identities |
| Publication.EqualGenerationsIff | internal/ingest/artifact.go:112-114 | that holds exactly while fewer than 2^64 runs have committed |
| Publication.CounterStartsOver | internal/ingest/artifact.go:112-114 | after generation 2^64 - 1 a growing run carries the generation of the empty state |
| Publication.NeverConflicts | internal/ingest/publication.go:90-93 | no run finds its bundle name taken by different content |
| Publication.IdentitiesAreGained | internal/ingest/artifact.go:105-114 | the committed identities are exactly those the committed runs accepted |
| Publication.CommitsDisjoint | internal/ingest/publication.go:84-109 | runs whose manifest was replaced accept pairwise disjoint identities |
| Publication.ManifestIsExplained | internal/ingest/publication.go:84-109 | every identity in the manifest is accepted in some published bundle |
| Publication.RetryCompletes | internal/ingest/publication.go:84-146 | a run that failed at any stage, retried at once, completes with the same bundle and moves the manifest exactly when something was accepted |
| Publication.RunFailsIff | internal/ingest/publication.go:49-146 | a run completes exactly when it comes by no failing stage; otherwise the manifest stays, and the disk too unless only the manifest was missing |
| Imports.Database.LoadState | internal/webstore/store.go:99-127 | the state is read with its identities in order |
| Imports.Database.Commit | internal/webstore/store.go:55-82 | the run, the identities and the conditional generation update happen together, or nothing changes and the error says why |
| Imports.Database.Import | internal/webstore/store.go:27-97 | an import without interference, with its access checks and errors |
| Imports.ImportIsSteps | internal/webstore/store.go:27-97 | without upload or write access nothing is imported; otherwise an import on its own is the load, prepare and finish steps of one importer |
| Imports.AllInterleavingsSound | internal/webstore/store.go:27-97 | in every interleaving the store is the result of the growing imports in commit order, and every importer holds a state the store went through |
| Imports.CommittedDisjoint | internal/webstore/store.go:27-97 | committed imports accept pairwise disjoint identities |
| Imports.StoreIsUnion | internal/webstore/store.go:58-79 | the stored identities are the union of what committed imports accepted, and the generation counts the growing ones |
| Imports.OneWinnerPerGeneration | internal/webstore/store.go:66-78 | of imports that read the same generation and accepted something at most one commits |
| Imports.GrowingRunIsNew | internal/webstore/store.go:129-141 | in every interleaving, the run of an import that would grow the current generation is not stored yet |
| Imports.FirstWins | internal/webstore/store.go:55-82 | in every interleaving, of two imports that read the current generation and both accept something the first to finish commits; the second is refused without changing the store, as a repeated run exactly when the inputs are equal, otherwise as a conflict |
| Imports.RepeatedRunRefused | internal/webstore/store.go:129-141 | in every interleaving, the same input read at the generation of a committed import is refused as a repeated run without changing the store |

## Left out

- SQL text, migrations, transactions of the database engine, backup and restore: an import's commit is one atomic step; that a snapshot is read before it is the weakest isolation the proofs need.
- Revision and approval writes, search and pagination: each is a version check or slice arithmetic, so they would only add easy members.
- BuildBalanceSheet and BuildCurrentOverview: the same opening, movement and section builders in another combination.
- JSON decoding and encoding, hexadecimal text of digests: records and states are modelled after decoding; a digest is its hexadecimal text, whose order is the order of its bytes.
- SHA-256 itself: an arbitrary function, assumed injective where a statement needs it.
- Time of day and zones: the clock part of a timestamp is an opaque token without spaces, quotes or semicolons, its normalisation by the time package is not modelled, and its UTC form is a parameter of the identity functions.
- The zero value of an entry time, which only the decoder's callers could construct.
- File-system details: a rename is one atomic step, and temporary files leave no trace in the model.
- Sharing of big integers between maps: coefficients are values, so the copies the source makes against aliasing are not observable here.
- The sorting algorithms of Go's standard library: an insertion sort stands for them; the proofs use only that the result is ordered and has the same elements, except that where equal keys make a configuration faulty the fault reported is that of the stable order.
- Wording of errors and diagnostics, field paths of diagnostics and invalid UTF-8: errors are tags and texts are code-point sequences.
- The public Classify function's refusal of malformed account names: the reports classify only accounts of validated entries.
- Unknown category texts in a query: categories are an enumeration, so that refusal of a drill-down query has no counterpart.
- Articulation.NetIncomeAddsUp: speaks of statements that were built without overflow; a month whose figures are out of range has no statement to add.
