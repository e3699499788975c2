# Invoicing core of the Shopify ticketing app, in Dafny

This project models the part of the app that turns Shopify orders and refunds into numbered tickets and monthly accounting reports, and the small stateful services around it:

- **Two-decimal money arithmetic.** Covers `roundToTwoDecimals`, `parseAmount`, `safeAdd`, `safeMultiply` and `safeDivide`. They are modelled over exact reals in `Money`.
- **Ticket numbers.** `TicketNumbers` and `CounterStore` model the per-year counter document, its etag-guarded conditional replace, the three-attempt retry loop with exponential back-off, and the `T{yy}-{nnnn}` format.
- **Refund tax summary.** `RefundSummaries` covers grouping refund lines by the rate and title of their first tax line, extracting the base when taxes are included, and the one-cent rebalancing of the largest group. `TaxGrouping` models the insertion-ordered map both this summary and the monthly report use.
- **Summary-to-request mappers.** These are in `TicketRequests`.
- **The monthly report.** `MonthlyReports` folds the period's tickets into one group per rate, with refunds negated. It checks the running total against the groups and writes the header, the customer position, and the income and tax positions.
- **The report repository.** `ReportRepository` covers the single global counter, the batched "replace counter if etag matches + upsert report" write, the lookups and `updateStatus`.
- **The reporting module.** `Reporting` covers job registration, `generateMonthlyReport`, `sendReport` up to the hand-over to the sender, and the monthly job's choice of period.
- **The cron task scheduler.** `TaskScheduler` covers the job registry, start and stop, and the running-state bookkeeping of a triggered job.
- **The store-config cache and module.** `StoreConfigs` covers the TTL cache in front of the config container.
- **The in-memory session list.** `Sessions` models the session list in front of the session storage.

Amounts inside the summary and the report are whole cents, held as integers. Tax rates are integer millionths: a rate of 21 % is `210000`. The lemmas `Money.SafeAddCents`, `RefundSummaries.RefundTotalInCents`, `RefundSummaries.NetCentsIsSafeDivide` and `RefundSummaries.LineAmountsMatch` prove that the integer computation gives the same value as the source's rounded arithmetic on numbers.

Stores are classes holding maps or sequences; query order is taken to be the order of the sequence. Things outside the process are parameters:

- the clock (`now`);
- what a concurrent writer does between a read and a conditional write (`Rival`, `CounterRace`, `rivalIncrements`, `createRace`);
- whether a cron expression is valid (`validateCron`);
- whether a task run succeeded.

## Model

| member | source | states |
|---|---|---|
| Money.Round2 | app/modules/tickets/domain/utils/money-utils.ts:4-6 | the result is a whole number of cents, at most half a cent from the argument, with halves rounding up |
| Money.Round2Idempotent | app/modules/tickets/domain/utils/money-utils.ts:4-6 | rounding an already rounded value changes nothing |
| Money.Round2OfCents | app/modules/tickets/domain/utils/money-utils.ts:4-6 | rounding is the identity on whole cents |
| Money.Round2HalfUp | app/modules/tickets/domain/utils/money-utils.ts:4-6 | a value exactly half a cent below a whole cent rounds up to it |
| Money.ParseAmount | app/modules/tickets/domain/utils/money-utils.ts:11-13 | a parsed amount is whole cents within half a cent of the parsed number |
| Money.SafeAdd | app/modules/tickets/domain/utils/money-utils.ts:18-20 | the sum rounded to whole cents, within half a cent of a + b, and exactly a + b when both addends are whole cents |
| Money.SafeAddCommutes | app/modules/tickets/domain/utils/money-utils.ts:18-20 | safeAdd is commutative |
| Money.SafeAddCents | app/modules/tickets/domain/utils/money-utils.ts:18-20 | on amounts given in cents, safeAdd is integer addition of the cents |
| Money.SafeMultiply | app/modules/tickets/domain/utils/money-utils.ts:25-27 | the product is whole cents within half a cent of the exact product |
| Money.SafeMultiplyCommutes | app/modules/tickets/domain/utils/money-utils.ts:25-27 | safeMultiply is commutative |
| Money.SafeDivide | app/modules/tickets/domain/utils/money-utils.ts:32-34 | the quotient is whole cents within half a cent of the exact quotient |
| Decimal.FormatCentsRoundTrip | app/modules/reports/application/MonthlyReportGenerator.ts:44-46 | a `toFixed(2)` amount reads back as exactly the cents it was written from |
| Decimal.FormatCents | app/modules/reports/application/MonthlyReportGenerator.ts:44-46 | `toFixed(2)` text of an amount: a '-' exactly for a negative amount, and '.' followed by exactly two digits |
| Decimal.PaddedRoundTrip | app/modules/reports/ReportingModule.ts:96 | a zero-padded number is all digits and still stands for the number |
| Decimal.NatToStringInjective | app/modules/tickets/infrastructure/adapters/cosmosdb/CosmosTicketNumberGenerator.ts:67 | distinct numbers have distinct decimal strings |
| TicketNumbers.YearSuffix | app/modules/tickets/infrastructure/adapters/cosmosdb/CosmosTicketNumberGenerator.ts:62-64 | the year suffix is two digits standing for the full year modulo 100 |
| TicketNumbers.FormatTicketNumber | app/modules/tickets/infrastructure/adapters/cosmosdb/CosmosTicketNumberGenerator.ts:66-68 | "T" + year + "-" followed by at least four digits standing for the value; a longer value is written in full, never truncated |
| TicketNumbers.FormatTicketNumberInjective | app/modules/tickets/infrastructure/adapters/cosmosdb/CosmosTicketNumberGenerator.ts:66-68 | for a fixed year width, distinct (year, value) pairs give distinct ticket numbers |
| TicketNumbers.RetryDelays | app/modules/tickets/infrastructure/adapters/cosmosdb/CosmosTicketNumberGenerator.ts:70-72 | the waits after the first and second conflict are 200 ms and 400 ms |
| TicketNumbers.CalculateRetryDelay | app/modules/tickets/infrastructure/adapters/cosmosdb/CosmosTicketNumberGenerator.ts:70-72 | the delay is at least the 100 ms base and doubles with each further retry |
| CounterStore.CounterStore.QueryByYear | app/modules/tickets/infrastructure/adapters/cosmosdb/CosmosTicketNumberGenerator.ts:99-108 | returns the stored counter document of the year, or none |
| CounterStore.CounterStore.Create | app/modules/tickets/infrastructure/adapters/cosmosdb/CosmosTicketNumberGenerator.ts:87-89 | creating an existing id is a conflict and changes nothing; otherwise the document is added with a fresh etag |
| CounterStore.CounterStore.Replace | app/modules/tickets/infrastructure/adapters/cosmosdb/CosmosTicketNumberGenerator.ts:118-123 | the replace succeeds only when the stored etag equals the one given: it writes the value with a new etag; otherwise it fails with 404 or 412 and nothing changes |
| TicketNumbers.TicketNumberGenerator.GetOrCreateCounter | app/modules/tickets/infrastructure/adapters/cosmosdb/CosmosTicketNumberGenerator.ts:74-97 | returns the year's counter when it exists and changes nothing; otherwise creates `counter-{yy}` at 0; after a create conflict it re-reads, and "Counter not found after conflict" is returned exactly when the counter is still absent; documents of other years are left unchanged |
| TicketNumbers.TicketNumberGenerator.IncrementTicketNumber | app/modules/tickets/infrastructure/adapters/cosmosdb/CosmosTicketNumberGenerator.ts:110-136 | with no rival write it stores and returns currentValue + 1. After a rival increment it returns a concurrency error carrying the re-read counter, and our write is not applied. A deleted counter gives 404 or "Counter document not found"; documents of other years are left unchanged |
| TicketNumbers.TicketNumberGenerator.GenerateNext | app/modules/tickets/infrastructure/adapters/cosmosdb/CosmosTicketNumberGenerator.ts:34-60 | after k conflicts (k < 3), a quiet attempt returns the ticket number of start + k + 1 and stores that value; three conflicts fail with "max retries" leaving the counter at start + 3; a counter removed during an attempt gives 404 or "Counter document not found" without retry; a counter that cannot be obtained fails with nothing written; the waits taken are 100·2^i ms for i = 1, 2, …; documents of other years are unchanged |
| RefundSummaries.RefundTotalInCents | app/modules/tickets/application/RefundCreatedWebhookHandler.ts:73-81 | the source's safeAdd fold of the line subtotals equals the integer sum of their cents and is already rounded; tax is not added again |
| RefundSummaries.CalculateTotalRefundAmount | app/modules/tickets/application/RefundCreatedWebhookHandler.ts:73-81 | the refund total is the sum of the line subtotals: a single line's subtotal, non-negative when every subtotal is |
| RefundSummaries.RefundTotalAppend | app/modules/tickets/application/RefundCreatedWebhookHandler.ts:73-81 | the total of two runs of lines is the sum of their totals |
| RefundSummaries.NetCentsIsSafeDivide | app/modules/tickets/application/RefundCreatedWebhookHandler.ts:118 | the integer net-of-tax computation is exactly safeDivide(subtotal, 1 + rate) |
| RefundSummaries.LineAmountsMatch | app/modules/tickets/application/RefundCreatedWebhookHandler.ts:116-119 | with taxes included, base and tax in cents are safeDivide(subtotal, 1 + rate) and roundToTwoDecimals(subtotal − base) |
| RefundSummaries.LineTax | app/modules/tickets/application/RefundCreatedWebhookHandler.ts:116-124 | with taxes included base + tax equals the subtotal; otherwise the tax is the tax line's own amount |
| RefundSummaries.LineAmounts | app/modules/tickets/application/RefundCreatedWebhookHandler.ts:104-124 | the key is the first tax line's rate and title; base + tax is the subtotal when taxes are included, and the base is the subtotal when they are not |
| RefundSummaries.GroupRefundLineItemsByTaxRate | app/modules/tickets/application/RefundCreatedWebhookHandler.ts:87-139 | succeeds exactly when every line has a tax line, and then is the insertion-ordered grouping of the lines' (key, base, tax); a line without one is the TypeError case |
| TaxGrouping.GroupedKeys | app/modules/tickets/application/RefundCreatedWebhookHandler.ts:126-136 | the grouping has one group per distinct key, and no more groups than entries |
| TaxGrouping.GroupedAmounts | app/modules/tickets/application/RefundCreatedWebhookHandler.ts:126-136 | each group's price and tax are the sums over exactly the entries with its key |
| TaxGrouping.GroupedTotal | app/modules/reports/application/MonthlyReportGenerator.ts:74-95 | grouping loses nothing: the groups' price + tax total equals the entries' total |
| RefundSummaries.ToSummaryLines | app/modules/tickets/application/RefundCreatedWebhookHandler.ts:152-159 | one summary tax line per group, in map order, carrying the group's price, tax, rate, title and the summary currency |
| RefundSummaries.SummaryLinesTotal | app/modules/tickets/application/RefundCreatedWebhookHandler.ts:162-165 | the summary lines' Σ(price + tax) is the groups' total |
| RefundSummaries.IncludedBalance | app/modules/tickets/application/RefundCreatedWebhookHandler.ts:143-165 | with taxes included, the summary lines add up exactly to the refund total, so no rebalancing happens |
| RefundSummaries.LargestPriceIndex | app/modules/tickets/application/RefundCreatedWebhookHandler.ts:169-172 | picks a line whose price no line exceeds, and the earliest such line (strict >) |
| RefundSummaries.LinesTotalUpdate | app/modules/tickets/application/RefundCreatedWebhookHandler.ts:161-165 | replacing one line changes the lines' Σ(price + tax) by the new line's price + tax minus the old line's |
| RefundSummaries.MoveDiscrepancy | app/modules/tickets/application/RefundCreatedWebhookHandler.ts:169-173 | only the largest-price line changes: its price grows by the discrepancy and its other fields stay; the lines' total moves by exactly the discrepancy |
| RefundSummaries.Rebalance | app/modules/tickets/application/RefundCreatedWebhookHandler.ts:161-174 | within one cent nothing changes; otherwise every line but the largest-price one is unchanged and the lines then add up to the total exactly; either way the result is within a cent of the total |
| RefundSummaries.SummaryLines | app/modules/tickets/application/RefundCreatedWebhookHandler.ts:152-174 | the lines it builds and fixes up are the rebalanced per-group lines, and they add up to the refund total to within a cent |
| RefundSummaries.GenerateRefundSummary | app/modules/tickets/application/RefundCreatedWebhookHandler.ts:142-184 | fails on a line without tax lines or on no lines; otherwise copies id, order_id and created_at, takes the first line's currency, totals the subtotals and returns the rebalanced grouped lines, which add up to that total to within a cent |
| RefundSummaries.Handle | app/modules/tickets/application/RefundCreatedWebhookHandler.ts:29-58 | an empty refund is discarded; otherwise the ticket request is the refund variant of the shop-money summary, with the refund's ids and date, its total, and tax lines within a cent of it |
| TicketRequests.MapToRefundTicketCreateRequest | app/modules/tickets/domain/entities/RefundSummary.ts:13-23 | the refund variant: refund_id and order_id from the summary, created_at from its date text only, and currency, total and tax lines passed through |
| TicketRequests.MapToOrderTicketCreateRequest | app/modules/tickets/domain/entities/OrderSummary.ts:12-21 | the order variant, with no refund id: order_id is the summary id, and currency, total and tax lines are passed through |
| TicketRequests.UniqueKeysOfRequests | app/modules/tickets/TicketNumberingModule.ts:20-29 | under the unique keys (order_id, type) and (refund_id, type) that the tickets container's configuration declares (the database client shown does not apply them, see Findings), refund tickets from two summaries share the refund key exactly when the refund ids agree and the order key exactly when the order ids agree; order tickets share the order key exactly for the same order; an order ticket never shares either key with a refund ticket |
| MonthlyReports.ReportEntriesSum | app/modules/reports/application/MonthlyReportGenerator.ts:71-85 | the signed tax-line entries of the tickets add up to the signed tax-line total: refunds count −1, orders +1 |
| MonthlyReports.GroupsMatchLines | app/modules/reports/application/MonthlyReportGenerator.ts:92-95 | the groups' total is the signed sum of all tax lines |
| MonthlyReports.BalancedTicketsMatch | app/modules/reports/application/MonthlyReportGenerator.ts:92-99 | when every ticket's tax lines add up to its total, the total check passes |
| MonthlyReports.AddTicketLines | app/modules/reports/application/MonthlyReportGenerator.ts:74-85 | folding one ticket's lines into the map gives the grouping of all entries so far plus that ticket's signed entries |
| MonthlyReports.SumGroups | app/modules/reports/application/MonthlyReportGenerator.ts:92-95 | computes the groups' Σ(price + tax) |
| MonthlyReports.GroupTicketsAndTaxLines | app/modules/reports/application/MonthlyReportGenerator.ts:52-108 | no tickets gives "No tickets found"; the result is a success exactly when the signed running total equals the signed tax-line total, else "Report total and detail doesn't match"; a success holds the first and last tickets, the first currency, and the per-rate grouping |
| MonthlyReports.Percent | app/modules/reports/application/MonthlyReportGenerator.ts:48-50 | the whole percent nearest the rate, halves up |
| MonthlyReports.TaxRatePercent | app/modules/reports/application/MonthlyReportGenerator.ts:48-50 | a rate of exactly p % is shown as "p%" |
| MonthlyReports.FormatTaxRate | app/modules/reports/application/MonthlyReportGenerator.ts:48-50 | the VAT indicator is digits followed by "%", the digits reading back as the rate's percent rounded half up |
| MonthlyReports.ImporteOfAmount | app/modules/reports/application/MonthlyReportGenerator.ts:44-46 | an Importe written from an amount reads back as that amount |
| MonthlyReports.NonZeroGroups | app/modules/reports/application/MonthlyReportGenerator.ts:156-157 | keeps only groups with a non-zero price or tax, in map order |
| MonthlyReports.NonZeroTotals | app/modules/reports/application/MonthlyReportGenerator.ts:156-157 | skipping the all-zero groups does not change the price + tax total |
| MonthlyReports.IncomePositions | app/modules/reports/application/MonthlyReportGenerator.ts:156-170 | one income position per kept group, numbered on consecutively, with Importe −price |
| MonthlyReports.TaxPositions | app/modules/reports/application/MonthlyReportGenerator.ts:173-187 | one tax position per kept group, numbered on consecutively, with Importe −tax and base |price| |
| MonthlyReports.IncomeTotalIs | app/modules/reports/application/MonthlyReportGenerator.ts:156-170 | the income amounts add up to minus the prices |
| MonthlyReports.TaxTotalIs | app/modules/reports/application/MonthlyReportGenerator.ts:173-187 | the tax amounts add up to minus the taxes |
| MonthlyReports.PushIncomePositions | app/modules/reports/application/MonthlyReportGenerator.ts:155-170 | the income loop writes the income positions of the non-zero groups, numbered from the current index + 1, and advances the index by their number |
| MonthlyReports.PushTaxPositions | app/modules/reports/application/MonthlyReportGenerator.ts:172-187 | the tax loop writes the tax positions of the non-zero groups, numbered from the current index + 1, and advances the index by their number |
| MonthlyReports.WritePositions | app/modules/reports/application/MonthlyReportGenerator.ts:128-187 | income positions are numbered from 2 and tax positions from 2 + the number of income positions |
| MonthlyReports.PositionsBalance | app/modules/reports/application/MonthlyReportGenerator.ts:155-187 | income and tax amounts together cancel the groups' total |
| MonthlyReports.ReportBalances | app/modules/reports/application/MonthlyReportGenerator.ts:144-187 | double entry: the customer amount is minus the sum of all income and tax amounts |
| MonthlyReports.PositionsConsecutive | app/modules/reports/application/MonthlyReportGenerator.ts:128-187 | the positions are numbered "1", "2", … in order: customer, then income, then tax, with the two lists of equal length |
| MonthlyReports.NumberedDistinct | app/modules/reports/application/MonthlyReportGenerator.ts:128-187 | no two positions share a number |
| MonthlyReports.GenerateReport | app/modules/reports/application/MonthlyReportGenerator.ts:110-204 | fails as the grouping does. A success is the report whose header carries the period, the last-day dates, the last ticket as reference and "first_" as text. Its positions are the customer position "1" with the total, then the income and tax positions over the range "first_last", and it balances |
| ReportRepository.FirstInPeriod | app/modules/reports/infrastructure/adapters/cosmosdb/CosmosReportRepository.ts:136-147 | a stored report of that year and month, or none exactly when no stored report has them |
| ReportRepository.WithStatus | app/modules/reports/infrastructure/adapters/cosmosdb/CosmosReportRepository.ts:149-165 | exactly the stored reports with that status |
| ReportRepository.Upsert | app/modules/reports/infrastructure/adapters/cosmosdb/CosmosReportRepository.ts:20-22 | replaces the document with the same id in place, or appends it; the document is then stored |
| ReportRepository.UpsertKeeps | app/modules/reports/infrastructure/adapters/cosmosdb/CosmosReportRepository.ts:20-22 | an upsert keeps every document with another id |
| ReportRepository.UpsertUnique | app/modules/reports/infrastructure/adapters/cosmosdb/CosmosReportRepository.ts:20-22 | ids stay unique across upserts |
| ReportRepository.UpsertFound | app/modules/reports/infrastructure/adapters/cosmosdb/CosmosReportRepository.ts:24-58 | after storing the first report of a period, the period lookup finds it |
| ReportRepository.Numbered | app/modules/reports/infrastructure/adapters/cosmosdb/CosmosReportRepository.ts:37-45 | the identifier is n and the header Identificador is n's decimal string, with every other field kept |
| ReportRepository.WithStatusUpdate | app/modules/reports/infrastructure/adapters/cosmosdb/CosmosReportRepository.ts:173-182 | sets status, error and updatedAt; FAILURE adds exactly 1 to retryCount and stamps lastRetryDate; other statuses keep both; every other field is kept |
| ReportRepository.ReportStore.UpsertReport | app/modules/reports/infrastructure/adapters/cosmosdb/CosmosReportRepository.ts:20-22 | `save`: the container becomes the upsert of the document, and the counter is untouched |
| ReportRepository.ReportStore.Batch | app/modules/reports/infrastructure/adapters/cosmosdb/CosmosReportRepository.ts:47-75 | the counter replace and the report upsert happen together exactly when the counter's etag matches; otherwise neither happens |
| ReportRepository.CosmosReportRepository.GetOrCreateCounter | app/modules/reports/infrastructure/adapters/cosmosdb/CosmosReportRepository.ts:79-134 | returns the global counter unchanged when it exists; otherwise creates it at 0 or re-reads it after a conflict; it fails exactly when the counter is gone after the conflict |
| ReportRepository.CosmosReportRepository.SaveWithCounter | app/modules/reports/infrastructure/adapters/cosmosdb/CosmosReportRepository.ts:24-77 | a report for a stored period keeps that period's identifier and the counter is untouched. A new period is numbered counter + 1 and stored together with the counter write; the write fails with "Batch operation failed" after a rival increment |
| ReportRepository.ResaveKeepsIdentifier | app/modules/reports/infrastructure/adapters/cosmosdb/CosmosReportRepository.ts:25-35 | once a period is stored with identifier n, a later save for that period finds identifier n |
| ReportRepository.CosmosReportRepository.FindByYearAndMonth | app/modules/reports/infrastructure/adapters/cosmosdb/CosmosReportRepository.ts:136-147 | the first stored report of the period, or none |
| ReportRepository.CosmosReportRepository.FindByStatus | app/modules/reports/infrastructure/adapters/cosmosdb/CosmosReportRepository.ts:149-165 | yields exactly the stored reports with that status, in store order |
| ReportRepository.CosmosReportRepository.UpdateStatus | app/modules/reports/infrastructure/adapters/cosmosdb/CosmosReportRepository.ts:167-183 | an unknown id fails with "Report {id} not found" and changes nothing; otherwise only that document is updated as WithStatusUpdate says |
| Reporting.DocumentIdInjective | app/modules/reports/ReportingModule.ts:96 | two periods share a document id exactly when they are the same year and month |
| Reporting.DocumentId | app/modules/reports/ReportingModule.ts:96 | the id is the year's digits, a dash, and at least two digits reading back as the month; exactly two digits for a month below 100 |
| Reporting.ReportingModule.RegisterJobs | app/modules/reports/ReportingModule.ts:39-49 | a rejected first cron expression leaves the registry empty, a rejected second one leaves only "failed-reports-retries"; otherwise the registry is exactly the two jobs "failed-reports-retries" (every 4 hours, the retry task) and "monthly-report" (at 01:00 on the first day of each month, the send task), both scheduled, idle, never run, with run count 0 |
| Reporting.ReportingModule.GenerateMonthlyReport | app/modules/reports/ReportingModule.ts:92-106 | a failed generation writes nothing; for a period already stored the document is saved in its place with the stored identifier and the counter is unchanged; for a new period the save succeeds exactly when the counter can be obtained and no rival increments it, the document is numbered counter + 1, upserted by id, and the counter is left at counter + 1; on failure no report is written; every success is a PENDING document with no retries under id "{year}-{mm}" |
| Reporting.ReportingModule.SendReport | app/modules/reports/ReportingModule.ts:108-116 | a stored report for the period is returned and neither the reports nor the counter change; otherwise a failed generation is returned as such, and a generated report succeeds exactly when the counter can be obtained and no rival increments it, numbered counter + 1; a failure leaves the reports as they were and a success upserts exactly that document by id |
| Reporting.MonthlyJobPeriodJanuary | app/modules/reports/ReportingModule.ts:44-46 | as written, the job asks for the month just ended from February to December, for month 0 on the first of January, and differs from the month just ended exactly in January |
| Reporting.AsWrittenNeverDecember | app/modules/reports/ReportingModule.ts:44-46 | as written, the month the job asks for is never December |
| Reporting.MonthZeroIdUnused | app/modules/reports/ReportingModule.ts:44-46 | the document id `{year}-00` of January's request is the id of no month 1..12 of any year |
| Reporting.PreviousPeriod | app/modules/reports/ReportingModule.ts:44-46 | the month before the zero-based month of today: a month 1..12, one month earlier, with December of the previous year in January |
| Reporting.ReportingModule.RunMonthlyJob | app/modules/reports/ReportingModule.ts:44-49 | as written: the report of the year and zero-based month of today, so never December, and month 0 in January; a newly generated one is stored under `{year}-{mm}` of that month; a stored report leaves the reports unchanged, a failure writes no report, and a success upserts exactly the returned document |
| Reporting.ReportingModule.RunMonthlyJobCorrected | app/modules/reports/ReportingModule.ts:44-49 | the corrected job: the report of the month that has just ended, December of the previous year in January; a failure writes no report and a success upserts exactly the returned document |
| TaskScheduler.JobIndexFound | app/modules/reports/infrastructure/adapters/cron-jobs/CronTaskScheduler.ts:36 | the job lookup finds an entry exactly when the name is registered |
| TaskScheduler.CronTaskScheduler.AddJob | app/modules/reports/infrastructure/adapters/cron-jobs/CronTaskScheduler.ts:26-94 | a taken name fails with "Job {name} already exists" and an invalid expression with "Invalid cron expression", both leaving the registry unchanged; otherwise one job is appended, idle, never run, with runCount 0 and started |
| TaskScheduler.CronTaskScheduler.RemoveJob | app/modules/reports/infrastructure/adapters/cron-jobs/CronTaskScheduler.ts:96-108 | false and no change for an unknown name; otherwise true, and exactly that job is removed while the others keep their order |
| TaskScheduler.RemovedNames | app/modules/reports/infrastructure/adapters/cron-jobs/CronTaskScheduler.ts:96-108 | removing one job keeps names unique, drops that name and keeps every other |
| TaskScheduler.CronTaskScheduler.GetJob | app/modules/reports/infrastructure/adapters/cron-jobs/CronTaskScheduler.ts:110-112 | the job's definition exactly when the name is registered |
| TaskScheduler.CronTaskScheduler.GetAllJobs | app/modules/reports/infrastructure/adapters/cron-jobs/CronTaskScheduler.ts:114-116 | one definition per registered job, in registration order |
| TaskScheduler.CronTaskScheduler.StartJob | app/modules/reports/infrastructure/adapters/cron-jobs/CronTaskScheduler.ts:118-128 | false for an unknown name; otherwise true and only that job's timer is started; no definition changes |
| TaskScheduler.CronTaskScheduler.StopJob | app/modules/reports/infrastructure/adapters/cron-jobs/CronTaskScheduler.ts:130-141 | false for an unknown name; otherwise true and only that job's timer is stopped; no definition changes |
| TaskScheduler.CronTaskScheduler.BeginRun | app/modules/reports/infrastructure/adapters/cron-jobs/CronTaskScheduler.ts:35-40 | a missing or running job is left alone; otherwise it is marked running with lastRun now |
| TaskScheduler.CronTaskScheduler.FinishRun | app/modules/reports/infrastructure/adapters/cron-jobs/CronTaskScheduler.ts:47-65 | the job is no longer running; only a successful run adds one to runCount and sets nextRun |
| TaskScheduler.CronTaskScheduler.Trigger | app/modules/reports/infrastructure/adapters/cron-jobs/CronTaskScheduler.ts:35-66 | a trigger runs exactly when the job exists and is idle; afterwards only that job's definition has changed: idle, lastRun is now, and on success runCount + 1 and the new nextRun; on failure runCount and nextRun are kept; its timer, name, expression, task and every other job stay |
| TaskScheduler.CronTaskScheduler.Tick | app/modules/reports/infrastructure/adapters/cron-jobs/CronTaskScheduler.ts:68-72 | a stopped timer does not fire and nothing changes; a started one runs the job exactly when it exists and is idle, with the same new state as a trigger |
| StoreConfigs.Lookup | app/modules/store-config/domain/cache/StoreConfigCache.ts:24-39 | a shop is served from the cache exactly when it has an entry no older than the timeout |
| StoreConfigs.LookupAfterSet | app/modules/store-config/domain/cache/StoreConfigCache.ts:41-47 | a config cached at t is served for its shop until t + timeout and not after |
| StoreConfigs.LookupAfterInvalidate | app/modules/store-config/domain/cache/StoreConfigCache.ts:49-52 | after invalidation the shop is a miss |
| StoreConfigs.LookupOtherShop | app/modules/store-config/domain/cache/StoreConfigCache.ts:41-52 | setting or invalidating one shop does not change what another shop gets |
| StoreConfigs.StoreConfigCache.constructor | app/modules/store-config/domain/cache/StoreConfigCache.ts:14-22 | the cache starts empty with a timeout of minutes × 60 000 ms |
| StoreConfigs.StoreConfigCache.Get | app/modules/store-config/domain/cache/StoreConfigCache.ts:24-39 | a fresh entry's config is returned and the cache kept; an absent or expired entry gives none and the shop's entry is dropped |
| StoreConfigs.StoreConfigCache.Set | app/modules/store-config/domain/cache/StoreConfigCache.ts:41-47 | the config is cached under its shop with the current time, replacing any entry |
| StoreConfigs.StoreConfigCache.Invalidate | app/modules/store-config/domain/cache/StoreConfigCache.ts:49-52 | removes only that shop's entry |
| StoreConfigs.StoreConfigCache.Clear | app/modules/store-config/domain/cache/StoreConfigCache.ts:54-57 | removes every entry |
| StoreConfigs.FirstOfShop | app/modules/store-config/infrastructure/adapters/cosmos/CosmosStoreConfigRepository.ts:18-36 | a stored config of the shop, or none exactly when no config has that shop |
| StoreConfigs.ConfigStore.Save | app/modules/store-config/infrastructure/adapters/cosmos/CosmosStoreConfigRepository.ts:38-45 | the upsert by id under the unique key on the shop that the module declares for its container (see Findings): refused without change exactly when another document already holds the shop; otherwise the container becomes `UpsertById` of the config |
| StoreConfigs.UpsertById | app/modules/store-config/infrastructure/adapters/cosmos/CosmosStoreConfigRepository.ts:38-45 | the container's upsert: the saved config is stored, every other stored config is an old one, and every old config with another id stays |
| StoreConfigs.UnkeyedSaveDuplicatesShop | app/modules/shared/infrastructure/cosmosdb/CosmosDbClient.ts:24-34 | as written no unique key is applied: two configs of one shop under different ids are both kept, ids and shops are no longer unique, and the shop query answers with the first one |
| StoreConfigs.KeyedSaveKeepsKeysUnique | app/modules/store-config/StoreConfigModule.ts:8-20 | with the declared unique key on the shop, a save that is not refused keeps ids and shops unique, and the shop query then answers with the saved config |
| StoreConfigs.ShopIdSaveNeverTaken | app/routes/app._index.tsx:26-32 | the admin page saves every config under its shop as id, so the shop key never refuses its saves and the property is kept |
| StoreConfigs.StoreConfigModule.constructor | app/modules/store-config/StoreConfigModule.ts:32-37 | the module's cache starts empty with a 5-minute timeout |
| StoreConfigs.StoreConfigModule.GetStoreConfig | app/modules/store-config/StoreConfigModule.ts:48-60 | a cache hit is returned without asking the container; on a miss the container's answer is returned and cached only when there is one |
| StoreConfigs.StoreConfigModule.SaveStoreConfig | app/modules/store-config/StoreConfigModule.ts:62-65 | the save succeeds exactly when no other config holds the shop (the declared unique key, see Findings); a refused save leaves both container and cache as they were; a success makes the container `UpsertById` of the config, replacing the same id in place or appending, and then caches it under its shop with the current time, so it is served within the timeout |
| StoreConfigs.StoreConfigModule.InvalidateCache | app/modules/store-config/StoreConfigModule.ts:67-69 | drops only that shop from the cache |
| Sessions.WithoutIdsSnoc | app/utils/sessionStorage.ts:29-35 | filtering one id after others is filtering them all at once |
| Sessions.InMemorySessionStorageDecorator.StoreSession | app/utils/sessionStorage.ts:12-15 | appends the session, duplicates included, and forwards it to the storage |
| Sessions.InMemorySessionStorageDecorator.LoadSession | app/utils/sessionStorage.ts:16-24 | the first listed session with the id, without asking the storage; otherwise the storage's answer, appended only when found |
| Sessions.InMemorySessionStorageDecorator.DeleteSession | app/utils/sessionStorage.ts:25-28 | every listed session with the id goes, the others stay in order, and the storage deletes it |
| Sessions.InMemorySessionStorageDecorator.DeleteSessions | app/utils/sessionStorage.ts:29-35 | every listed session whose id is in the list goes, the others stay in order, and the storage deletes them all |
| Sessions.InMemorySessionStorageDecorator.FindSessionsByShop | app/utils/sessionStorage.ts:36-41 | exactly the listed sessions of the shop, in order; the storage is never asked |
| Sessions.CoherentLoadAgrees | app/utils/sessionStorage.ts:16-18 | while every listed session is the one stored under its id, a session answered from the list is the one the storage holds |
| Sessions.StaleLoadAfterRestore | app/utils/sessionStorage.ts:12-18 | as written, storing a newer session under a listed id breaks that agreement, and the load answers with the older session |
| Sessions.RestoreKeepsCoherent | app/utils/sessionStorage.ts:12-15 | dropping the listed sessions with the id before listing the new one keeps the list in agreement with the storage |
| Sessions.RestoredIsFirst | app/utils/sessionStorage.ts:16-18 | after that replacement the load answers with the session stored last |
| Sessions.InMemorySessionStorageDecorator.StoreSessionCorrected | app/utils/sessionStorage.ts:12-15 | the corrected store: the listed sessions with the id are replaced by the new one, which the storage also stores; agreement with the storage is kept and the load answers with the new session |
| Sessions.ShopLookupIgnoresStorage | app/utils/sessionStorage.ts:36-41 | as written, an empty list in front of a storage holding a session of the shop answers with no session, although the storage has exactly that one |
| Sessions.InMemorySessionStorageDecorator.FindSessionsByShopCorrected | app/utils/sessionStorage.ts:36-41 | the corrected lookup: the listed sessions of the shop when there are any, otherwise exactly the storage's sessions of the shop |
| Sessions.OfShop | app/utils/sessionStorage.ts:37 | a session is in the result exactly when it is listed and belongs to the shop |

## Left out

- **Floating point.** IEEE rounding error, `Number.EPSILON` and `parseFloat` are not modelled.
  - `Money` works on exact reals.
  - The summary and the report work on integer cents and integer millionths of a rate, linked to `Money` by the bridge lemmas above.
  - `toFixed` is modelled as decimal formatting of cents (`Decimal.FormatCents`).
- MonthlyReports.Percent: models `(rate * 100).toFixed(0)` as half-up rounding of the exact rate. The binary value of the rate, which `toFixed` actually rounds, is not modelled.
- Money.SafeDivide: requires a non-zero divisor. JavaScript would return Infinity or NaN there, which has no counterpart among reals. The refund summary only divides by 1 + rate with a rate ≥ 0.
- RefundSummaries.GroupRefundLineItemsByTaxRate: the group key is the pair (rate, title) instead of the string `${rate}-${title}`. The two agree, because the dash after a rate that is not negative is the first one. A line without tax lines is the source's TypeError, modelled as an error result.
- RefundSummaries.Handle: `taxesIncluded` is a parameter. The store-config lookup, `findOrGenerateTicket` (which is not part of this model) and the Shopify order update are not modelled, and neither is the presentment-money summary.
- **Cosmos DB specifics.**
  - Queries, paging, status-code plumbing and the batch API are modelled as in-memory store classes, with query order being store order.
  - Concurrent writers are the `Rival`/`CounterRace`/`rivalIncrements` parameters: one rival action per attempt, not an arbitrary interleaving.
  - The "create returned no resource" path of the report counter is merged with the successful create.
- ReportRepository.CosmosReportRepository.SaveWithCounter: the source sets the header `Identificador` on the caller's object before the batch, so a failed batch leaves it changed on the caller's side. The model has no shared objects, so that aliasing is not represented. A re-saved report keeps the `Identificador` it was given, as the source does.
- **Time.** `Date.now()`/`new Date()` are the `now` parameter. The `setTimeout` sleep is represented only by the delays it would wait. `TimezoneManager` and the date utilities are not part of this model: the formatted last day of the month is an input.
- **Inputs of the monthly report.** The ticket repository query is not modelled: the period's tickets are an input sequence. The group currency field of the report grouping is dropped; the source never reads it. The `Factura` wrapper of the report is flattened into `MonthlyReport`.
- **The report sender.** `ReportSender` (sending and `retryFailedReports`) is opaque. `SendReport` returns the document it would hand to the sender, and the retries job is registered with an opaque task.
- **Process hooks and wiring.** The SIGTERM/SIGINT hooks of the reporting module, `ReportingModule.create`, `StoreConfigModule.create` and module wiring are not modelled. Neither is logging.
- **The cron scheduler.**
  - node-cron timers and cron-parser are not modelled: `validateCron` is an uninterpreted predicate, and the next run time is a parameter of a successful run.
  - A run is split into its start (`BeginRun`) and its end (`FinishRun`), run back to back by `Trigger`. A job's body is not modelled, so other operations interleaving with a run in flight are not modelled either.
  - A job removed while its task runs is not updated by its `finally` block in the model; in the source it updates the detached definition object.
- TaskScheduler.CronTaskScheduler.GetJob: returns a snapshot of the definition. The source returns the live object, which later runs keep updating.
- **Session storage.** The storage behind the session list is a map that accepts every request; its failures are not modelled. Its shop query answers with the stored sessions of the shop in an unspecified order.
- TicketNumbers.TicketNumberGenerator.GetOrCreateCounter: the rival writer can only create the counter before our create. The race in which it creates the counter and deletes it again before our re-read is not modelled here (it is for the report counter); "Counter not found after conflict" is reached only when a document of another year holds `counter-{yy}`.
- StoreConfigs.ConfigStore.Save: the refusal models the unique key on the shop that the store-config module declares for its container. The database client shown does not apply that configuration (see Findings), and a container provisioned elsewhere is not modelled. Ids are keyed container-wide here, while Cosmos DB keeps ids unique only within a partition (per shop under the declared partition key); partitions are not modelled. The admin page saves every config with id = shop, so it never meets the refusal (`StoreConfigs.ShopIdSaveNeverTaken`).
- TicketRequests.UniqueKeysOfRequests: states which requests share a value of the unique keys declared for the tickets container. The database client shown does not apply them (see Findings), and the ticket repository whose writes they would refuse is not part of this model.
- **Ticket numbering.** The old-scheme order, transaction and refund handlers and their repositories are not modelled.

## Findings

| source | as written | input that shows it | evidently intended | confidence | as-written member | corrected member |
|---|---|---|---|---|---|---|
| app/modules/reports/ReportingModule.ts:44-46 | the monthly job, firing on the first day of each month, asks for `sendReport(getFullYear(), getMonth())`; `getMonth()` is zero-based, which names the month just ended only from February to December | firing on 1 January 2025 asks for year 2025, month 0, a period that does not exist, instead of December 2024. Separately, the job is scheduled for 01:00 Europe/Madrid (lines 78-81) while `getFullYear()`/`getMonth()` read the server's own time zone: on a UTC host under summer time it fires at 23:00 UTC on the last day of the previous month, so on 1 May it asks for month 3, March, the month before last. The model takes today's year and month as inputs, so it does not model time zones. | the report of the month that has just ended: December of the previous year in January | not executed | Reporting.MonthlyJobPeriodJanuary | Reporting.ReportingModule.RunMonthlyJobCorrected |
| app/modules/shared/infrastructure/cosmosdb/CosmosDbClient.ts:24-34 | `getContainer` takes only the container id and creates the container with `createIfNotExists({ id })`. The partition keys and unique keys that StoreConfigModule.ts:8-20 and TicketNumberingModule.ts:14-29 pass as a second argument are dropped, so this code applies no unique key on `/shop`, `(order_id, type)` or `(refund_id, type)` | saving `{ id: "a", shop: "s" }` and then `{ id: "b", shop: "s" }` keeps both documents, and the shop query answers with the first. The admin page always saves id = shop, so it does not produce this itself | containers created with the declared configuration, so a second config of a shop is refused | not executed | StoreConfigs.UnkeyedSaveDuplicatesShop | StoreConfigs.KeyedSaveKeepsKeysUnique |
| app/utils/sessionStorage.ts:12-18 | `storeSession` pushes the session even when one with the same id is already listed, and `loadSession` answers with the first listed match | store s1, then a refreshed s2 with the same id: the storage holds s2, but `loadSession` answers s1 | a stored session replaces the listed ones with its id | not executed | Sessions.StaleLoadAfterRestore | Sessions.InMemorySessionStorageDecorator.StoreSessionCorrected |
| app/utils/sessionStorage.ts:36-41 | `if (sessions)` tests an array, which is always truthy, so the fallback to the storage on line 40 is never reached | a new decorator, with an empty list, in front of a storage holding a session of shop s: `findSessionsByShop(s)` answers `[]` | fall back to the storage when no session of the shop is listed (`sessions.length > 0`) | not executed | Sessions.ShopLookupIgnoresStorage | Sessions.InMemorySessionStorageDecorator.FindSessionsByShopCorrected |
