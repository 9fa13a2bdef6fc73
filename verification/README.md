# Ledger and stock valuation of a restaurant ERP

This project models the two engines of the back end and the documents that feed them, and proves what
they keep.

* **The general ledger.** A request's lines are filtered, checked, split by tax and merged into a stored
  voucher; a balance index caches the per-account totals and can be rebuilt; vouchers are reversed;
  trial balances and account statements report on them. `VoucherLines`, `VoucherPipeline`,
  `GeneralLedger`, `Reversal`, `TrialBalance`, `AccountReport`, with `Ranges`.
* **Inventory valuation.** Weighted-average cost with unit conversion and clamping of negative stock,
  transfers, landed cost, production runs and physical counts. `Valuation`, `StockBooks`, `StockHull`,
  `Transfers`, `LandedCost`, `Production`, `InventoryCounts`.
* **What ties them together.** Validation of receipts against purchase orders, the builders of voucher
  lines, expenses, and the report aggregators. `PurchaseOrders`, `VoucherBuilders`, `VoucherAccounts`,
  `GoodsReceiptVouchers`, `TransferVouchers`, `Expenses`, `ReportTree`, `DateBuckets`, `BalanceSheet`,
  with `Taxation`.

Collections are sequences and maps held by a class; one service call is one step. Each loop of the
program is a method proved against a function of its input or of the old state, and the laws are lemmas
about those functions. Money and quantities are exact reals, rounded where the program calls
`roundOffNumber` (`Rounding`). A quotient by zero, for which the program stores no number, is `None`.
Conversion factors and tax rates are inputs.

Where the code does something other than its evident intention the model follows the code, a lemma
gives an input, and another lemma says exactly when the intended law holds:

* Posting to the balance index stops silently at the first line whose account has no row, never includes
  the tax lines of the split, and never happens for reversals, which carry no transaction status
  (`Reversal.TaxedRequestLeavesIndexShort`; `GeneralLedger.IndexRefinesLedger` gives the exact gap,
  `GeneralLedger.ExactIffAllPosted` when there is none).
* A reversal copies tax indications and is split again, so a taxed voucher need not be cancelled by its
  reversal (`Reversal.TaxedReversalLeavesResidue`; exactly when it is: `Reversal.ReversalCancelsIff`,
  `Reversal.ReversalExact`).
* A trial balance with a start period and no end period counts the opening balance twice
  (`TrialBalance.OpenEndedExample`, `TrialBalance.OpenEndedCountsOpeningTwice`).
* Additional cost on a receipt whose prices exclude tax is divided by the gross factor all the same, so
  it is not fully absorbed (`LandedCost.LandedCostAbsorbed`). A return with additional cost divides by a
  negated quantity, pays the landed value in again (`LandedCost.ReturnPays`) and is never posted
  (`GoodsReceiptVouchers.ReturnWithCostNeverPosts`). `LandedCost.UntaxedSpreadIsDiscounted` shows both.
* A receipt that lists a material twice can exceed the order (`PurchaseOrders.RepeatedMaterialOverReceives`);
  which receipts are safe for every order is `PurchaseOrders.SafeIffWithinLargest`.
* A counted quantity of zero is not written to stock (`InventoryCounts.EmptyCountIsNotWritten`,
  `InventoryCounts.ApplySetsTotalCount`), and small surpluses are marked as shortages
  (`InventoryCounts.SurplusMarkedBelow`, `InventoryCounts.MarkTellsSideIff`).
* The ledger's filter drops negative lines before it checks the balance, so balanced vouchers with
  negative amounts are refused (`VoucherBuilders.NegativePostingIsRefused`,
  `VoucherBuilders.NegativeReceiptIsRefused`, `Expenses.NegativeLineIsRefused`); exactly when they are not
  is `VoucherBuilders.PairVoucherAccepted`, `VoucherBuilders.ReceiptVoucherAccepted`,
  `Expenses.ExpensePostsIff`.
* A recipe that lists a component twice consumes it once (`Production.RepeatedComponentConsumedOnce`,
  `Production.ProductionResidual`).
* A goods-receipt account that is used on both sides can unbalance the voucher
  (`VoucherBuilders.MixedAccountsUnbalance`); exactly when is `VoucherBuilders.ReceiptVoucherAccepted`.
* Moving a material without a cost to a branch where it has one values the two vouchers differently,
  even in the base unit (`TransferVouchers.CostlessSourceBreaksMirror`,
  `TransferVouchers.TransferVouchersMirrorIff`, per item `TransferVouchers.RowsAgreeIff`).
* Separate taxes off the cent grid can add up to an expense that the ledger refuses
  (`Expenses.ExpensePostsIff`, `Expenses.OffGridTaxIsRefused`).
* A subtracting report row starts afresh whenever its running total hits zero
  (`ReportTree.SubtractionLaw`, `ReportTree.SubtractionRestarts`).
* Monthly and quarterly slices drop days of ranges that cross a year end (`DateBuckets.CoverageIff`,
  `DateBuckets.UncoveredLoses`).
* The two grand rows of the balance sheet take their date columns from one section and their total from
  two, and negated sections negate totals but not columns (`BalanceSheet.FixedAssetBreaksFooting`,
  `BalanceSheet.GrandRowsFootIff`, `BalanceSheet.SummaryTotal`).

## Model

| member | source | states |
|---|---|---|
| Rounding.RoundNear | src/core/Helpers/universal.helper.ts:27-29 | `roundOffNumber` lands on the decimal grid, at most half a step from its argument |
| Rounding.RoundUnique | src/core/Helpers/universal.helper.ts:27-29 | a grid point closer than half a step is the rounding |
| Rounding.RoundFixed | src/core/Helpers/universal.helper.ts:27-29 | amounts already on the grid are left alone |
| Rounding.RoundOdd | src/core/Helpers/universal.helper.ts:27-29 | rounding ignores the sign: ties go away from zero on both sides |
| Rounding.RoundTies | src/core/Helpers/universal.helper.ts:27-29 | a value half-way between two grid points, at half a cent or half a thousandth, goes to the one further from zero |
| Rounding.RoundShift | src/core/Helpers/universal.helper.ts:27-29 | adding a grid amount to a non-negative value adds it to the rounding |
| Rounding.RoundShiftIff | src/core/Helpers/universal.helper.ts:27-29 | adding a grid amount to any value adds it to the rounding if and only if the value is not half-way between grid points or keeps its sign |
| Rounding.RoundMonotone | src/core/Helpers/universal.helper.ts:27-29 | rounding keeps order |
| Rounding.RoundsAlike | src/accounting/gl-voucher.service.ts:167-172 | two side totals that pass the balance check differ by at most one cent |
| VoucherLines.RegroupMeets | src/accounting/gl-voucher.service.ts:214-235 | the merge yields one line per (account, side), in order of first appearance, with the fields of the first such line and the sum of all of them; said without reference to the algorithm |
| VoucherLines.RegroupKeys | src/accounting/gl-voucher.service.ts:214-222 | a key has a merged line exactly when some line carries it |
| VoucherLines.RegroupHasDistinctKeys | src/accounting/gl-voucher.service.ts:214-225 | no (account, side) occurs twice after the merge |
| VoucherLines.RegroupConserves | src/accounting/gl-voucher.service.ts:214-222 | the merge keeps every per-key sum and both side totals |
| VoucherLines.RegroupPositive | src/accounting/gl-voucher.service.ts:214-222 | positive lines merge into positive lines |
| VoucherLines.RegroupDistinct | src/accounting/gl-voucher.service.ts:214-222 | lines with distinct keys are left as they are: merging twice is merging once |
| VoucherPipeline.SplitTaxes | src/accounting/gl-voucher.service.ts:173-212 | the split loop rewrites the filtered lines to their net amounts in place and lists net and tax lines; it fails exactly when a look-up fails |
| VoucherPipeline.MergeLines | src/accounting/gl-voucher.service.ts:214-235 | the keyed accumulation computes the merge |
| VoucherPipeline.PositiveKeepsOrder | src/accounting/gl-voucher.service.ts:155-157 | the filter keeps exactly the lines with positive amount, in their order |
| VoucherPipeline.PrepareVoucher | src/accounting/gl-voucher.service.ts:154-268 | filter, balance checks, split and merge in this order, with the three refusals; yields the stored lines and the lines posted to the index |
| VoucherPipeline.TaxSplits | src/accounting/gl-voucher.service.ts:193-204 | net and tax add up to the gross amount, tax is the rate in percent of the net, and both are positive |
| VoucherPipeline.SplitTotals | src/accounting/gl-voucher.service.ts:180-209 | the split keeps both side totals; per key it books the net amounts plus the tax lines |
| VoucherPipeline.LineSplits | src/accounting/gl-voucher.service.ts:179-210 | a line with a positive rate and a mapped account becomes two lines that add up to it, the second on the mapped account and the rate in percent of the first; every other line stays as it is |
| VoucherPipeline.VatLineSplits | src/accounting/gl-voucher.service.ts:184-200 | 115.00 at 15 % become 100.00 and 15.00 of tax |
| VoucherPipeline.NettedLines | src/accounting/gl-voucher.service.ts:191-194 | the lines handed on to the index are what the split leaves on each line's own account |
| VoucherPipeline.StoredByKey | src/accounting/gl-voucher.service.ts:177-224 | every key of an accepted request is stored with what its positive lines, split one by one, bring to it |
| VoucherPipeline.RefusalsMean | src/accounting/gl-voucher.service.ts:167-187 | a side that rounds to zero, sides that round differently, an unknown indication or one with a positive rate and no mapping at all: each refusal exactly when the ones before it do not apply |
| VoucherPipeline.CreateKeepsMeaning | src/accounting/gl-voucher.service.ts:154-238 | a stored voucher has distinct keys in first-appearance order, positive amounts, the per-key sums of the split lines, the side totals of the submitted positive lines, and debit within a cent of credit |
| VoucherPipeline.CreateKeyTotals | src/accounting/gl-voucher.service.ts:193-268 | every account is stored with what was posted for it plus the tax lines booked to it |
| VoucherPipeline.BalancedAccepted | src/accounting/gl-voucher.service.ts:167-172 | exactly balanced, untaxed, non-negative lines are refused only when their total rounds to zero |
| GeneralLedger.PostedCountMeans | src/accounting/gl-voucher.service.ts:1313-1340 | posting reaches exactly the lines before the first one whose account has no balance row |
| GeneralLedger.PostAllAdds | src/accounting/gl-voucher.service.ts:1323-1334 | posting adds each line to the debit or credit of its own account and to nothing else |
| GeneralLedger.RebuildRestores | src/accounting/gl-voucher.service.ts:1215-1276 | after a rebuild every row holds the vouchers' totals, whatever the index held before |
| GeneralLedger.RebuildIdentity | src/accounting/gl-voucher.service.ts:1215-1276 | an exact index over the accounts of vouchers and chart is left unchanged by a rebuild |
| GeneralLedger.StepGap | src/accounting/gl-voucher.service.ts:154-289 | each step moves ledger and index apart by exactly the lines it books without posting |
| GeneralLedger.IndexRefinesLedger | src/accounting/gl-voucher.service.ts:266-268 | over every run of account creations, voucher creations, reversals and rebuilds the ledger totals of each key equal the index plus exactly what was left unposted since the last rebuild |
| GeneralLedger.OrderlyRunMissesTaxOnly | src/accounting/gl-voucher.service.ts:193-268 | when all requests are approved and on known accounts, only tax lines are missing, and the index is exact if and only if the run booked none |
| GeneralLedger.ExactIffAllPosted | src/accounting/gl-voucher.service.ts:266-268 | over every run the index is exact at the end if and only if nothing was left unposted since the last rebuild: no tax line, no line behind a missing row, no unapproved voucher, no reversal |
| GeneralLedger.ReverseSound | src/accounting/gl-voucher.service.ts:680-716 | a reversal keeps all vouchers well stored and is counted once for its original |
| GeneralLedger.StepSound | src/accounting/gl-voucher.service.ts:154-289 | every operation keeps the books sound |
| GeneralLedger.RunSound | src/accounting/gl-voucher.service.ts:154-289 | over every run each stored voucher has distinct keys, positive amounts and balances to the cent; a voucher has one reversal if it is marked reversed and none otherwise; each row's balance is debit less credit |
| GeneralLedger.NoBooksSound | src/accounting/gl-voucher.service.ts:154-289 | empty books are sound and their index exact |
| GeneralLedger.StoredUnder | src/accounting/gl-voucher.service.ts:680-716 | a voucher is stored at the end under its year and period; a reversal names its original, which is marked and otherwise kept like all others; reversals and unapproved vouchers leave the index alone |
| GeneralLedger.ApprovedIsPosted | src/accounting/gl-voucher.service.ts:266-268 | an approved creation on accounts with rows adds to the index what the split leaves of each positive line on its own account |
| GeneralLedger.OpeningMeans | src/gl-account/gl-account.service.ts:29-53 | an account is opened unless its number is in use; an index row it has is kept, and a new one holds nothing |
| GeneralLedger.StepKeepsChart | src/gl-account/gl-account.service.ts:29-53 | each step keeps account numbers unique and a row for every account of the chart |
| GeneralLedger.RunKeepsChart | src/gl-account/gl-account.service.ts:29-53 | so does every run |
| GeneralLedger.Ledger.UpdateAccountBalance | src/accounting/gl-voucher.service.ts:1313-1340 | the posting loop computes the index posted up to the first account without a row |
| GeneralLedger.Ledger.OpenAccount | src/gl-account/gl-account.service.ts:29-53 | opening an account refuses a number in use and adds a zero row unless the account has one |
| GeneralLedger.Ledger.Create | src/accounting/gl-voucher.service.ts:154-289 | the new state of books and index after a creation, and its reply |
| GeneralLedger.Ledger.Reverse | src/accounting/gl-voucher.service.ts:680-716 | sides are swapped line by line, the copy goes through creation, and the original is marked; refusals leave the books alone |
| GeneralLedger.Ledger.SetupAccountBalance | src/accounting/gl-voucher.service.ts:1215-1276 | rows for the accounts of the vouchers plus zero rows for the rest of the chart are the rebuilt index |
| Reversal.ReversalPassesChecks | src/accounting/gl-voucher.service.ts:680-716 | reversing a stored voucher never fails a balance check, and swaps the side totals |
| Reversal.ReversalResidual | src/accounting/gl-voucher.service.ts:680-716 | original plus reversal leave on each account exactly the tax the second split booked there less the tax it took out |
| Reversal.RegroupUnmoved | src/accounting/gl-voucher.service.ts:173-235 | lines whose tax goes back to their own account survive split and merge unchanged |
| Reversal.MovedIsLost | src/accounting/gl-voucher.service.ts:173-235 | lines of which some lose tax to another account are never restored by split and merge: the key that receives the first moved tax gains |
| Reversal.ReversalExact | src/accounting/gl-voucher.service.ts:680-716 | for every stored voucher the stored reversal is the swapped original if and only if no line of it loses tax to another account |
| Reversal.ReversalCancelsIff | src/accounting/gl-voucher.service.ts:680-716 | original plus reversal net to zero on every account if and only if, account by account, the split of the copied lines books as much tax as it takes out; so whenever none of them loses tax |
| Reversal.HalfTaxedAccepted | src/accounting/gl-voucher.service.ts:154-238 | what a request of one line taxed at 100 % against a plain one is stored as |
| Reversal.TaxedReversalLeavesResidue | src/accounting/gl-voucher.service.ts:680-716 | a stored request of x taxed at 100 % keeps a quarter of x on its account after reversal |
| Reversal.TaxedRequestLeavesIndexShort | src/accounting/gl-voucher.service.ts:193-268 | the same request, approved on exact books, leaves the index short of x / 2 on the tax account |
| TrialBalance.Report | src/accounting/gl-voucher.service.ts:718-840 | one entry per account of the chart with opening balance, movement and accumulated balance |
| TrialBalance.VoucherIsReported | src/accounting/gl-voucher.service.ts:718-840 | an entry over no vouchers is empty, and one more voucher counts in its debit or credit column when year and period are reported, in its opening balance when it comes before, and nowhere otherwise |
| TrialBalance.StoredIsReported | src/accounting/gl-voucher.service.ts:154-289 | a voucher created or reversed under a year and period moves exactly the trial balances that cover the period, by its stored lines |
| TrialBalance.BetweenSplits | src/accounting/gl-voucher.service.ts:719-790 | adjoining period ranges add up to the whole |
| TrialBalance.AccumulatedTelescopes | src/accounting/gl-voucher.service.ts:719-840 | `accumulated` is the balance up to the end period whatever the start, and the opening balance of a report starting right after |
| TrialBalance.OpenEndedCountsOpeningTwice | src/accounting/gl-voucher.service.ts:758-766 | with a start but no end the earlier periods are counted twice; the result is right if and only if they balance to zero |
| TrialBalance.OpenEndedExample | src/accounting/gl-voucher.service.ts:758-766 | one voucher of x in period 1 comes out as 2x when reported from period 2 with no end |
| TrialBalance.ChartBalanceBounded | src/accounting/gl-voucher.service.ts:167-172 | over a chart with all posted accounts the balances sum to at most one cent per voucher |
| TrialBalance.AccumulatedSumIsChart | src/accounting/gl-voucher.service.ts:813-838 | the accumulated column sums to the balances of the vouchers up to the end period |
| TrialBalance.TrialBalanceNearZero | src/accounting/gl-voucher.service.ts:719-840 | on books reached by any run the accumulated column sums to at most one cent per voucher of the year up to the end period |
| AccountReport.Report | src/accounting/gl-voucher.service.ts:1070-1192 | each posting is followed by the opening balance plus all movement so far; the closing balance is opening plus debits less credits, and the balance of the account over every voucher up to the end day |
| AccountReport.MovementIsBalance | src/accounting/gl-voucher.service.ts:1111-1152 | the rows of the statement move the account by exactly what its vouchers book to it |
| AccountReport.TotalsAreBooked | src/accounting/gl-voucher.service.ts:1111-1160 | the debit and credit totals of a statement are what the vouchers of its days book to either side |
| AccountReport.PostingsFollow | src/accounting/gl-voucher.service.ts:1111-1152 | the rows follow the days of their vouchers, each with what one voucher of its day books on its side |
| AccountReport.BalancesJoin | src/accounting/gl-voucher.service.ts:1070-1106 | balances over adjoining date ranges add up, so a closing balance is the next opening balance |
| Ranges.RangesAdjoin | src/accounting/gl-voucher.service.ts:719-763 | sums over adjoining ranges, of periods or of days, add up to the whole |
| Valuation.IntakeWorth | src/inventory/inventory-helper.service.ts:208-242 | an intake raises stock times average cost by exactly what is paid, over what the clamp left |
| Valuation.PaidIsPriceTimesQuantity | src/inventory/inventory-helper.service.ts:203-240 | what is paid in the document unit is the base-unit price times the base-unit quantity |
| Valuation.IntakeAverage | src/inventory/inventory-helper.service.ts:215-240 | a positive intake keeps the average between the old one and its own unit price |
| Valuation.IntakeIntoNothing | src/inventory/inventory-helper.service.ts:208-242 | with stock at or below zero the average becomes exactly the intake's unit price |
| Valuation.IntakeMeans | src/inventory/inventory-helper.service.ts:203-242 | a receipt pays its net price for the quantity received, a production its cost for the quantity made, a transfer its per-base-unit cost for the base units |
| Valuation.MovementMeans | src/inventory/inventory-helper.service.ts:207-271 | what each action does to stock, average and direction: which ones count up from zero, which go below, and that a zero count changes nothing |
| Valuation.HistoryMeans | src/inventory/inventory-helper.service.ts:276-286 | the history row carries the moved base units at the document's cost per base unit, or at the average when there is none |
| Valuation.StockAddsUp | src/inventory/inventory-helper.service.ts:207-258 | over every run without counts in which no clamp meets a row below zero the stock changes by what came in less what went out |
| Valuation.CountResets | src/inventory/inventory-helper.service.ts:259-262 | a count that is not zero sets the stock whatever happened before it |
| Valuation.AverageStaysInHull | src/inventory/inventory-helper.service.ts:207-275 | over every run of receipts, transfers, productions, sales, waste and counts the average stays between the extremes of the initial cost and the prices taken in |
| Valuation.StockValueRounded | src/inventory/inventory-helper.service.ts:273-275 | every proper movement yields a number, and its saved value is the rounding of saved stock times saved average |
| Valuation.RunValueRounded | src/inventory/inventory-helper.service.ts:1331-1335 | the same after any non-empty run |
| StockHull.WarehouseStaysInHull | src/inventory/inventory-helper.service.ts:207-275 | over every run of movements and transfers between branches all averages of a material, of rows created on the way too, stay within any bounds on its initial costs and the prices from outside |
| StockHull.SentWithin | src/inventory/inventory-helper.service.ts:294-381 | a transferred item keeps the averages of source and target within such bounds |
| Valuation.InventoryDocument.CalculateInventoryItem | src/inventory/inventory-helper.service.ts:172-289 | the calculated figures per action, with the document's own stock clamped in place |
| Valuation.InventoryDocument.SaveInventory | src/inventory/inventory-helper.service.ts:1323-1345 | stock and value become the calculated ones, the average too unless a positive final cost is given; virtual consumption is reset by a count and moved by a negative stock |
| StockBooks.TotalsUpdate | src/inventory/inventory-helper.service.ts:1331-1342 | saving one row changes total stock and total worth by that row's change only |
| StockBooks.OneMoreIntake | src/inventory/inventory-helper.service.ts:208-242 | an intake adds its stock and what it pays to the totals, and the clamp's write-up the first time it touches a row below zero |
| StockBooks.WriteUpZero | src/inventory/inventory-helper.service.ts:209-211 | write-ups are never negative, and nothing is written up if and only if no touched row is below zero |
| Transfers.TransferOneResidual | src/inventory/inventory-helper.service.ts:294-381 | one item moves exactly its quantity; total stock grows by what the clamps write up and total worth by that and what an override price charges above cost; other materials are untouched |
| Transfers.TransferPrices | src/inventory/inventory-helper.service.ts:325-381 | the target receives the item at the override price, rounded and converted, or else at the source's average cost, and takes over exactly that price when it is at or below zero; the source keeps its average |
| Transfers.EachMovesAlone | src/inventory/inventory-helper.service.ts:291-383 | in a list of distinct materials every item moves as if it were alone |
| Transfers.MissingSourceFails | src/inventory/inventory-helper.service.ts:294-336 | an item without a source row fails and moves nothing, nor does any item behind it |
| Transfers.TransferResidual | src/inventory/inventory-helper.service.ts:291-383 | the same, summed, for every list of items in any unit |
| Transfers.CoveredMoves | src/inventory/inventory-helper.service.ts:291-383 | when no item meets negative stock, source loses and target gains exactly what is sent |
| Transfers.StockConservedIffCovered | src/inventory/inventory-helper.service.ts:294-381 | a list conserves every material's stock over the two branches if and only if no item meets negative stock when its turn comes |
| Transfers.WorthConserved | src/inventory/inventory-helper.service.ts:294-381 | such a list without override prices conserves every material's stock times average cost |
| Transfers.ServiceGuard | src/inventory/inventory.service.ts:476-490 | the row count equals the list length exactly for distinct materials all stocked at the source, and such a list over rows not below zero meets no negative stock |
| Transfers.CountedAtMost | src/inventory/inventory.service.ts:478-490 | counting rows per material reaches the list length exactly for distinct, stocked materials |
| Transfers.ReceiveAllTotals | src/inventory/inventory-helper.service.ts:390-428 | the target loop raises stock by what the targets ask and worth by that at the source's cost, over what the clamps write up |
| Transfers.EachTargetReceives | src/inventory/inventory-helper.service.ts:385-449 | targets in different branches each receive what they ask at the source's cost, the source loses the transfer's quantity at an unchanged average, and no other row changes |
| Transfers.ManyConservesIffSumsAgree | src/inventory/inventory-helper.service.ts:385-449 | in the multi-target form total stock is off by what the targets ask beyond the sent quantity plus the write-ups; when they ask what is sent it is conserved if and only if no row of the transfer is below zero, and over such rows if and only if they ask what is sent; worth likewise at the source's cost |
| Transfers.Warehouse.TransferItemNew | src/inventory/inventory-helper.service.ts:294-381 | rows and history after one item; target saved first, then source |
| Transfers.Warehouse.ApplyTransferRequestNew | src/inventory/inventory-helper.service.ts:291-383 | rows and history after the list, or after the items before a missing source row |
| Transfers.Warehouse.ReceiveTarget | src/inventory/inventory-helper.service.ts:390-428 | one target's row and history row, or nothing when no average comes out |
| Transfers.Warehouse.ApplyTransferRequest | src/inventory/inventory-helper.service.ts:385-449 | rows and history after the targets and then the source loaded beforehand |
| LandedCost.CreateReceipt | src/goods-receipt/goods-receipt.service.ts:64-77 | line net price, tax and stock value, and the totals of the receipt |
| LandedCost.ReceiptStates | src/goods-receipt/goods-receipt.service.ts:64-77 | net and tax add up to the price of each line and to the total, with 15 % tax when prices include it and none otherwise; the total is the lines' quantity times cost and the additional cost |
| LandedCost.LandedWithShare | src/inventory/inventory-helper.service.ts:126-143 | a line with additional cost is taken in at its value plus its share, net of tax |
| LandedCost.TakeInRaises | src/inventory/inventory-helper.service.ts:104-157 | worth rises line by line by what is paid and what the clamps write up |
| LandedCost.SharesUpTo | src/inventory/inventory-helper.service.ts:126-143 | the shares of the first n lines are proportional to their value |
| LandedCost.NetUpTo | src/goods-receipt/goods-receipt.service.ts:64-71 | without a spread the lines land at their own value, net of tax when included |
| LandedCost.SpreadLands | src/inventory/inventory-helper.service.ts:126-143 | with a spread all value and all additional cost land, net of tax |
| LandedCost.PaidIsTaxable | src/inventory/inventory-helper.service.ts:97-143 | what the lines pay into stock is the receipt's total taxable amount if and only if there is no additional cost, or it is positive, has value to spread over, and prices include tax |
| LandedCost.LandedCostAbsorbed | src/inventory/inventory-helper.service.ts:97-157 | beyond the write-ups of rows below zero the rise in stock times average cost equals the total taxable amount under exactly that condition, and without such rows there is no write-up |
| LandedCost.EachLineLands | src/inventory/inventory-helper.service.ts:104-157 | the only line of its material raises its own row by its base units, and by its value and proportional share of the additional cost, net of tax, or by its quantity at its net price |
| LandedCost.UntaxedSpreadIsDiscounted | src/inventory/inventory-helper.service.ts:126-143 | one line of 1 at 1.00 excluding tax with 1.00 of additional cost lands at 2.00 / 1.15, and so much again on its return |
| LandedCost.ReturnPays | src/inventory/inventory-helper.service.ts:104-143 | a returned line takes out what the receipt paid in if and only if there is no spread or nothing landed; with a spread it pays the landed value in a second time |
| LandedCost.ReturnLineWorth | src/inventory/inventory-helper.service.ts:208-222 | a returned line changes its row's worth by what it pays, and fails exactly when it leaves no stock |
| LandedCost.ReturnUndoesIff | src/inventory/inventory-helper.service.ts:208-222 | returning a line at the price it was taken in at restores stock and average if and only if there was stock before |
| LandedCost.ReturnChangesWorth | src/inventory/inventory-helper.service.ts:95-167 | a return that goes through changes total worth by the write-ups and minus what the receipt paid, or plus as much again with a spread |
| LandedCost.DistinctReturn | src/inventory/inventory-helper.service.ts:95-167 | with distinct materials a return goes through if and only if no line takes its row to exactly zero, and the write-ups are those of the rows before |
| LandedCost.GoodsIn.TakeInLine | src/inventory/inventory-helper.service.ts:109-156 | one line is calculated and saved as a goods receipt, creating its row when missing; nothing changes when no average comes out |
| LandedCost.GoodsIn.ProcessInventoryChanges | src/inventory/inventory-helper.service.ts:95-167 | rows after all lines of a receipt, or of a return up to the first line that cannot be saved; net price and base-unit figures written back to each line |
| Production.ConsumeWorth | src/inventory/inventory-helper.service.ts:1099-1136 | a component's row loses exactly the quantity consumed at its average cost |
| Production.SavedRowWorth | src/inventory/inventory-helper.service.ts:1188-1203 | a row loses what the last component of its material consumes: all are calculated from the row before |
| Production.ComponentTaken | src/inventory/inventory-helper.service.ts:1099-1116 | the component of a material that is saved takes its quantity per recipe times the recipes made, in base units, at an unchanged average cost |
| Production.WholeRecipeTakesItsList | src/inventory/inventory-helper.service.ts:1099-1116 | a run that makes what the recipe makes takes what the recipe lists |
| Production.OthersUntouched | src/inventory/inventory-helper.service.ts:1078-1203 | materials of which no component takes part, and other branches, are left alone |
| Production.ProductMade | src/inventory/inventory-helper.service.ts:1263-1318 | the product's stock, counted up from zero when below, grows by what is made in base units and its worth by the whole cost of the run; no other row changes |
| Production.CostGrows | src/inventory/inventory-helper.service.ts:1136-1180 | each component that takes part adds what it takes at its average cost or, with an override price, that price for what it takes on a dine-in sale and for what the recipe lists otherwise |
| Production.SaveAllWorth | src/inventory/inventory-helper.service.ts:1188-1235 | saving all components calculated beforehand lowers total worth by all they lose, except for what a later component of the same material overwrites |
| Production.RepeatedComponentConsumedOnce | src/inventory/inventory-helper.service.ts:1188-1203 | of a component listed twice only one consumption is saved |
| Production.ProductionResidual | src/inventory/inventory-helper.service.ts:964-1318 | a run changes total worth by exactly what the product is charged less what the components lose, plus what is overwritten and what the clamp writes up on the product |
| Production.DistinctSaves | src/inventory/inventory-helper.service.ts:1188-1203 | with distinct components nothing is overwritten |
| Production.ChargesNearConsumed | src/inventory/inventory-helper.service.ts:1136-1180 | without override prices the charge is within half a thousandth per component of what is consumed |
| Production.ProductionConserves | src/inventory/inventory-helper.service.ts:964-1318 | without override prices a run conserves total worth to half a thousandth per component beyond what is overwritten and written up, which is nothing for distinct components and a product row not below zero |
| Production.Kitchen.HandleSemiFinishedMaterial | src/inventory/inventory-helper.service.ts:939-1318 | rows after calculating all components and saving all of them, and for a production event after receiving the product; the total charged, with the dine-in override formula |
| PurchaseOrders.AcceptedStaysWithin | src/goods-receipt/goods-receipt-helper.service.ts:82-118 | an accepted receipt on which no material comes to more than its largest line exceeds no line of the order and brings nothing else |
| PurchaseOrders.ValidIffEachLineFits | src/goods-receipt/goods-receipt-helper.service.ts:100-117 | a receipt is accepted if and only if every line names a material with an allowance and fits it on top of what was received before, whatever was |
| PurchaseOrders.RefusalNamesFirst | src/goods-receipt/goods-receipt-helper.service.ts:101-115 | the refusal names the first line that does not fit, as not allowed or as too much |
| PurchaseOrders.LastLineAllows | src/goods-receipt/goods-receipt-helper.service.ts:96-99 | of a material ordered more than once the last line is what is allowed |
| PurchaseOrders.RemainderCompletes | src/goods-receipt/goods-receipt-helper.service.ts:82-118 | a receipt of exactly what is open on every line is accepted and fills the order |
| PurchaseOrders.SecondDelivery | src/goods-receipt/goods-receipt-helper.service.ts:106-118 | of 10 ordered and 4 received a second delivery is taken up to 6 and fills the order at 6 |
| PurchaseOrders.CreationMeans | src/goods-receipt/goods-receipt-helper.service.ts:37-52 | a refused receipt changes nothing; an accepted one is stored and, when approved, sets the status by whether the order is full |
| PurchaseOrders.DistinctWithinLargest | src/goods-receipt/goods-receipt-helper.service.ts:82-118 | receipts of distinct materials are such |
| PurchaseOrders.LoadedFlagMeansFull | src/goods-receipt/goods-receipt-helper.service.ts:118 | the flag, which compares grand totals, is true exactly when every line is fully received |
| PurchaseOrders.NeverOverReceived | src/goods-receipt/goods-receipt-helper.service.ts:37-118 | over every run of such creations no material is over-received, and an approved creation leaves status Received exactly when the order is full |
| PurchaseOrders.FullOrderRefuses | src/goods-receipt/goods-receipt-helper.service.ts:99-115 | a fully received order refuses every receipt with a positive line |
| PurchaseOrders.RepeatedMaterialOverReceives | src/goods-receipt/goods-receipt-helper.service.ts:99-117 | a receipt listing a material twice is accepted beyond the order |
| PurchaseOrders.SafeIffWithinLargest | src/goods-receipt/goods-receipt-helper.service.ts:72-118 | a receipt of any lines stays within every order that accepts it if and only if no material comes to more than its largest line |
| PurchaseOrders.SafeIffDistinct | src/goods-receipt/goods-receipt-helper.service.ts:72-118 | for receipts of positive lines, if and only if it repeats no material |
| PurchaseOrders.TightestAccepts | src/goods-receipt/goods-receipt-helper.service.ts:95-117 | the order that allows each line of a receipt by itself accepts it |
| PurchaseOrders.Breached | src/goods-receipt/goods-receipt-helper.service.ts:99-117 | for every other receipt, an order that accepts it and is over-received |
| PurchaseOrders.PurchaseOrder.LoadItems | src/goods-receipt/goods-receipt-helper.service.ts:82-94 | per-material and grand totals of everything received |
| PurchaseOrders.PurchaseOrder.AllowItems | src/goods-receipt/goods-receipt-helper.service.ts:95-98 | per-material allowance, the last line of a material winning, and the grand total ordered |
| PurchaseOrders.PurchaseOrder.ValidateGoodsReceipt | src/goods-receipt/goods-receipt-helper.service.ts:72-119 | the verdict: first refused line in order, else the flag |
| PurchaseOrders.PurchaseOrder.CreateGoodsReceipt | src/goods-receipt/goods-receipt-helper.service.ts:37-52 | an accepted receipt is stored, and the order's status set when it is approved |
| InventoryCounts.AppliedAtMostOnce | src/inventory-count/inventory-count.service.ts:245-354 | over every run of edits, status changes and other stock movements the sheet has written stock once if its status is Applied and never otherwise |
| InventoryCounts.StepConsistent | src/inventory-count/inventory-count.service.ts:282-354 | each step keeps that, and rows needed to apply a sheet are always there |
| InventoryCounts.ClosedAbsorbs | src/inventory-count/inventory-count.service.ts:259-264 | Applied and Rejected are absorbing: status, lines and records stay, and the sheet no longer writes stock |
| InventoryCounts.LinesChangeOnlyWhenNew | src/inventory-count/inventory-count.service.ts:259-275 | lines change only by an edit while the status is none of Locked, Applied, Rejected |
| InventoryCounts.EditMeans | src/inventory-count/inventory-count.service.ts:245-280 | on a new sheet an edit prepares every line against the row as it is, creating missing ones, and changes no row there is; on any other it changes nothing |
| InventoryCounts.StatusMeans | src/inventory-count/inventory-count.service.ts:282-354 | on an open sheet the new status takes effect; only Applied touches stock and records, one record to an item |
| InventoryCounts.RowsCreated | src/inventory-count/inventory-count-helper.service.ts:41-64 | rows exist afterwards for exactly the old and the listed materials; old ones are kept, new ones are empty and in the base unit |
| InventoryCounts.ApplyItemStock | src/inventory/inventory-helper.service.ts:548-588 | applying an item sets stock to its entries in base units unless that is zero, and keeps the average |
| InventoryCounts.CountedIsMeasured | src/inventory-count/inventory-count-helper.service.ts:85-160 | with conversion factors that come from unit sizes, a line's counts in the base unit and in the unit bought in measure what its entries measure in theirs, and so does the stock on hand restated in the unit bought in |
| InventoryCounts.OneUnitCounts | src/inventory-count/inventory-count-helper.service.ts:85-129 | entries in one unit come to their sum times the factor from that unit, in both units |
| InventoryCounts.AppliedIsMeasured | src/inventory/inventory-helper.service.ts:551-563 | the stock left by applying measures, in the stored unit, what the entries of the last line of a material measure, unless that is nothing |
| InventoryCounts.BoxesOfTwelve | src/inventory-count/inventory-count-helper.service.ts:85-104 | n boxes of twelve are counted and applied as 12 n |
| InventoryCounts.PreparedMeans | src/inventory-count/inventory-count-helper.service.ts:136-190 | count, stock on hand and difference are valued at a positive override price or else at the average cost, and the variations are counts less stock on hand |
| InventoryCounts.EntryMarksMean | src/inventory-count/inventory-count-helper.service.ts:102-129 | each entry is converted and marked by itself: match, below twice the stock, above it, or not at all at exactly twice |
| InventoryCounts.ApplyAllSets | src/inventory/inventory-helper.service.ts:541-615 | with distinct materials every item's row is the one its own application gives |
| InventoryCounts.ApplyAllStock | src/inventory/inventory-helper.service.ts:541-615 | applying a sheet leaves on every row the last count of its material that is not zero, and keeps the average |
| InventoryCounts.ApplySetsTotalCount | src/inventory-count/inventory-count-helper.service.ts:85-178 | on the last line of a material the stock set equals the total counted at preparation, whatever moved in between, if and only if that total is not zero or the lines before leave zero; with no such lines they leave the stock itself |
| InventoryCounts.EmptyCountIsNotWritten | src/inventory/inventory-helper.service.ts:259-262 | a material counted as nothing where 5 are on hand keeps its 5 |
| InventoryCounts.MarksAddUp | src/inventory-count/inventory-count-helper.service.ts:89-136 | the entries' quantities add up to the line's counts in the base and in the purchase unit |
| InventoryCounts.MarkTellsSideIff | src/inventory-count/inventory-count-helper.service.ts:142-186 | the variation is compared with the stock on hand instead of zero; a line's mark tells the side of the count if and only if a surplus is at least the stock on hand and a shortage less than it |
| InventoryCounts.SurplusMarkedBelow | src/inventory-count/inventory-count-helper.service.ts:184-186 | 3 counted where 2 are on hand are marked as below |
| InventoryCounts.RecordMeans | src/inventory-count/inventory-count.service.ts:305-327 | gain less loss is counted less on hand, in quantity and in value, exactly one side is marked, and both are non-negative |
| InventoryCounts.CountSheet.MarkCounts | src/inventory-count/inventory-count-helper.service.ts:89-191 | variation and purchase figures of the entries and of the line |
| InventoryCounts.CountSheet.PrepareLine | src/inventory-count/inventory-count-helper.service.ts:85-191 | count, on-hand figures, differences and marks of one line |
| InventoryCounts.CountSheet.PrepareInventoryCountData | src/inventory-count/inventory-count-helper.service.ts:41-195 | missing rows are created, then every line is prepared against its row |
| InventoryCounts.CountSheet.CountEntries | src/inventory/inventory-helper.service.ts:548-570 | the counted entries of an item, summed in its base unit |
| InventoryCounts.CountSheet.Update | src/inventory-count/inventory-count.service.ts:245-280 | an edit is refused when closed or locked, and otherwise replaces the lines by the prepared ones |
| InventoryCounts.CountSheet.ApplyInventoryCount | src/inventory/inventory-helper.service.ts:541-615 | all items are written to their rows in order |
| InventoryCounts.CountSheet.RecordGainsAndLosses | src/inventory-count/inventory-count.service.ts:305-337 | one gain or loss record per item |
| InventoryCounts.CountSheet.SetStatus | src/inventory-count/inventory-count.service.ts:282-354 | the new status, and the effects of Applied, unless the sheet is closed |
| VoucherBuilders.LedgerKeepsNets | src/accounting/gl-voucher.service.ts:154-238 | balanced untaxed lines are refused only when the total rounds to zero, and keep every account's net |
| VoucherBuilders.GroupedAccepted | src/accounting/gl-voucher.service.ts:214-235 | lines grouped by a builder pass the ledger's second grouping unchanged |
| VoucherBuilders.EntriesAccepted | src/accounting/gl-voucher.service.ts:155-172 | entries one to a key are accepted exactly when what the filter leaves of the two totals rounds alike and not to zero |
| VoucherBuilders.PairVoucherAccepted | src/accounting/gl-voucher-helper.service.ts:1753-1799 | recipe goods issue and depreciation vouchers balance exactly for every item list; the ledger accepts them if and only if the totals, less the groups that are not positive, round alike and not to zero, and stores the rest as it is; without negative postings it refuses only when the total rounds to zero |
| VoucherBuilders.NegativePostingIsRefused | src/accounting/gl-voucher.service.ts:155-172 | x and -y on two debit accounts against one credit account, 0 < y < x, balance and are refused |
| VoucherBuilders.BuildPairs | src/accounting/gl-voucher-helper.service.ts:2811-2853 | two lines per document line, merged by account and side |
| VoucherAccounts.PairPosts | src/accounting/gl-voucher-helper.service.ts:2811-2853 | a paired voucher debits and credits every account with exactly the postings that name it on that side |
| VoucherBuilders.KeyedIsRegroup | src/accounting/gl-voucher-helper.service.ts:631-663 | keying by account alone groups like keying by account and side if and only if every account is used on one side |
| VoucherBuilders.KeyedOpens | src/accounting/gl-voucher-helper.service.ts:631-663 | an account has an entry exactly when a line used it, on the side of the first such line |
| VoucherBuilders.KeyedImbalance | src/accounting/gl-voucher-helper.service.ts:631-663 | the keyed entries are off the lines' own balance by exactly twice what strays to the other side of a shared account |
| VoucherBuilders.ReceiptVoucherAccepted | src/accounting/gl-voucher-helper.service.ts:616-665 | every receipt or return voucher balances if and only if nothing strays on balance; with amounts of any sign the ledger accepts it if and only if what strays makes up for the dropped entries and what is left is not zero, and stores that as it is |
| VoucherBuilders.NothingPositiveIsRefused | src/accounting/gl-voucher.service.ts:155-166 | a voucher without a positive amount is refused |
| VoucherBuilders.NegativeReceiptIsRefused | src/accounting/gl-voucher.service.ts:155-172 | x and -y received on two inventory accounts against one GRIR account, 0 < y < x, stray nowhere and are refused |
| VoucherBuilders.DisjointNothingStrays | src/accounting/gl-voucher-helper.service.ts:631-663 | nothing strays when no inventory account is also a GRIR account |
| VoucherBuilders.CentVoucherAccepted | src/accounting/gl-voucher.service.ts:155-172 | entries in whole cents, one to a key, are accepted exactly when the positive ones balance and do not sum to zero |
| VoucherBuilders.MixedAccountsUnbalance | src/accounting/gl-voucher-helper.service.ts:631-663 | with an account on both sides the voucher is off by 10 |
| VoucherBuilders.BuildReceipt | src/accounting/gl-voucher-helper.service.ts:631-663 | the dictionary loop over the received lines |
| VoucherAccounts.ReceiptPosts | src/accounting/gl-voucher-helper.service.ts:631-662 | when accounts do not mix, a receipt debits each inventory account and credits each GRIR account with the net value of its lines in cents; a return does the opposite |
| VoucherAccounts.EntryHoldsAll | src/accounting/gl-voucher-helper.service.ts:637-661 | the one entry of an account carries all that came to it, on either side |
| GoodsReceiptVouchers.VoucherTracksWorth | src/accounting/gl-voucher-helper.service.ts:631-662 | over a receipt the voucher lines debit inventory with what the worth of the stock rises by, beyond write-ups, to half a cent per line |
| GoodsReceiptVouchers.StoredTracksWorth | src/accounting/gl-voucher-helper.service.ts:631-690 | so does the stored voucher when accounts do not mix and no amount is negative |
| GoodsReceiptVouchers.ReturnWithCostNeverPosts | src/accounting/gl-voucher-helper.service.ts:631-690 | the voucher of a return with additional cost spread over it is always refused |
| VoucherBuilders.CountVoucherImbalance | src/accounting/gl-voucher-helper.service.ts:1551-1633 | the count voucher is off by exactly the rounding drift, plus the consumption total when no account takes it |
| VoucherBuilders.DriftBounded | src/accounting/gl-voucher-helper.service.ts:1551-1586 | the drift is at most half a thousandth per item, and zero on the three-decimal grid |
| VoucherBuilders.CountVoucherBalances | src/accounting/gl-voucher-helper.service.ts:1551-1633 | with the consumption account mapped where needed the count voucher is within half a thousandth per item of balance; on the grid it balances if and only if so mapped and is then refused only when its total rounds to zero |
| VoucherBuilders.ListGroups | src/accounting/gl-voucher-helper.service.ts:1604-1612 | the sign of a grouped amount becomes the side of its line |
| VoucherBuilders.HandleInventoryCount | src/accounting/gl-voucher-helper.service.ts:1525-1635 | signed amounts by account, then the gain-and-loss and consumption lines |
| VoucherAccounts.DifferenceMeans | src/accounting/gl-voucher-helper.service.ts:1562-1585 | the signed difference is what was counted less what was on hand, in value, whenever the two differ by a cent, and within a cent of it always |
| VoucherAccounts.CountVoucherNets | src/accounting/gl-voucher-helper.service.ts:1551-1633 | each inventory account is debited with its items' differences; against it the gain-and-loss account takes those that are not consumption, the consumption account those that are |
| VoucherAccounts.OneItemCounted | src/accounting/gl-voucher-helper.service.ts:1563-1632 | an item found to be worth x more puts x on its inventory account and -x on exactly one of the two others |
| TransferVouchers.RecordsEachItem | src/inventory/inventory-helper.service.ts:1365-1393 | each item of a transfer of distinct materials finds its own Sent and Received history rows, computed from the rows before the transfer |
| TransferVouchers.RowsAgreeIff | src/inventory/inventory-helper.service.ts:276-286 | without an override price the two history rows carry the same value if and only if the source has a cost and the item is in the base unit, or neither branch has a cost |
| TransferVouchers.AmountsForeseen | src/accounting/gl-voucher-helper.service.ts:1025-1044 | with distinct materials the history rows give each side the amounts foreseen from the rows before the transfer |
| TransferVouchers.AmountsMean | src/accounting/gl-voucher-helper.service.ts:1025-1044 | under an override price both sides carry that price for the quantity; otherwise the source carries the quantity at its average cost and the target the base units at that cost, or at its own where the source has none |
| TransferVouchers.ItemOnItsAccount | src/accounting/gl-voucher-helper.service.ts:1014-1152 | an item with an inventory account to itself credits it at the source and debits it at the target with its amount |
| TransferVouchers.MirrorResidual | src/accounting/gl-voucher-helper.service.ts:1014-1152 | the two vouchers together leave on each account exactly what the received amounts place there beyond the sent ones |
| TransferVouchers.TransferVouchersMirrorIff | src/accounting/gl-voucher-helper.service.ts:1014-1152 | source and target voucher net to zero on every account if and only if, account by account, the amounts foreseen for the two sides agree; so when every item is valued alike |
| TransferVouchers.CostlessSourceBreaksMirror | src/accounting/gl-voucher-helper.service.ts:1014-1152 | one base unit from a source without a cost leaves the target's cost on the inventory account |
| TransferVouchers.SideBalances | src/accounting/gl-voucher-helper.service.ts:1014-1063 | each of the two vouchers balances on its own |
| TransferVouchers.SidePosted | src/accounting/gl-voucher.service.ts:154-238 | the ledger drops items that are not positive as pairs, refuses the rest only when it rounds to zero in all, and keeps its nets |
| TransferVouchers.TransferVouchersPost | src/accounting/gl-voucher-helper.service.ts:1066-1178 | stored, the two vouchers leave the received amounts kept less the sent ones; when every item is valued alike they are accepted or refused together and cancel |
| TransferVouchers.HandleStockTransferNew | src/accounting/gl-voucher-helper.service.ts:993-1180 | the two vouchers, amounts from override prices or history rows, and the values written back to the items |
| TransferVouchers.PushLines | src/accounting/gl-voucher-helper.service.ts:1014-1063 | two lines per item on opposite sides, and the rounded amounts |
| Expenses.RemainderRounds | src/expense/expense.service.ts:57-69 | rounding what a nearest-cent net leaves of a gross amount gives the rounded gross less that net |
| Expenses.NetPlusTaxIsGross | src/expense/expense.service.ts:57-73 | net plus tax is the gross of each recorded line: always when tax is included or not relevant, and for separate tax if and only if it is in whole cents and the price is not half-way between cents or keeps its sign |
| Expenses.TotalsAddUp | src/expense/expense.service.ts:70-77 | the totals inherit it |
| Expenses.RecordedMeans | src/expense/expense.service.ts:57-69 | what net, tax, gross and purpose of a recorded line are for each tax indication, and which line cannot be recorded |
| Expenses.TotalsGrow | src/expense/expense.service.ts:70-77 | each total adds up its own column |
| Expenses.KeptDebits | src/accounting/gl-voucher-helper.service.ts:438-476 | the ledger keeps of the debits the gross total plus the drift of the positive ones, for lines of any sign |
| Expenses.ExpensePostsIff | src/accounting/gl-voucher-helper.service.ts:438-476 | the ledger accepts the voucher of every storable expense if and only if the gross total is positive and the kept debits are off it by less than half a cent; without negative amounts that is the rounding of separate taxes alone |
| Expenses.TidyExpensePosts | src/accounting/gl-voucher-helper.service.ts:438-476 | every such expense whose separate taxes are in whole cents posts, with net plus tax equal to gross in total |
| Expenses.NegativeLineIsRefused | src/accounting/gl-voucher.service.ts:155-172 | lines of 2.00 and -1.00 total 1.00 and are refused: the filter drops the negative debit |
| Expenses.OffGridTaxIsRefused | src/expense/expense.service.ts:57-69 | three lines with a separate tax of 0.004 are recorded and refused |
| Expenses.Create | src/expense/expense.service.ts:57-77 | lines rewritten in place and the three totals; fails exactly when a sum is not a number |
| Expenses.HandleExpense | src/accounting/gl-voucher-helper.service.ts:438-476 | a debit per net and per positive tax, and one credit of the gross total |
| Expenses.ExpenseAccounts | src/accounting/gl-voucher-helper.service.ts:438-476 | every purpose is debited with its net amounts, the input-tax account with the taxes, and the payment account alone is credited, with the gross total |
| Expenses.IncludedTaxIsSplit | src/accounting/gl-voucher-helper.service.ts:438-476 | 115.00 with tax included put 100.00 on the purpose and 15.00 on the input tax |
| ReportTree.CollectIsFilteredPreorder | src/accounting-report-template/accounting-report-template.service.ts:743-776 | the groups collected for an aggregate are the preorder flattening filtered by `order` |
| ReportTree.DressFlattens | src/accounting-report-template/accounting-report-template.service.ts:743-776 | the template tree carrying results flattens to those results |
| ReportTree.LiveCollection | src/accounting-report-template/accounting-report-template.service.ts:743-776 | what the collector finds on the tree as it stands are the rows and aggregates of the listed groups, in preorder |
| ReportTree.RowsAreColumns | src/accounting-report-template/accounting-report-template.service.ts:182-316 | row k of an aggregate is the k-th totals of the lists run through in order, and there are as many rows as the longest list has |
| ReportTree.AddingSumsByPosition | src/accounting-report-template/accounting-report-template.service.ts:184-202 | adding gives positional sums over ragged lists and keeps the grand total |
| ReportTree.SubtractionLaw | src/accounting-report-template/accounting-report-template.service.ts:203-210 | subtracting is off first-minus-rest by exactly twice the entries that met a zero running total; it is right if and only if those sum to zero |
| ReportTree.SubtractionRestarts | src/accounting-report-template/accounting-report-template.service.ts:203-210 | 5 - 5 - 3 comes out as 3 |
| ReportTree.WalkIsPreorder | src/accounting-report-template/accounting-report-template.service.ts:464-657 | the recursive walk over groups, children and siblings visits the preorder flattening |
| ReportTree.ExecuteAggregatesEarlierGroups | src/accounting-report-template/accounting-report-template.service.ts:111-347 | after a report each group holds its own rows and the aggregate of exactly the listed groups done before it, as the collector finds them on the tree at its turn; later groups add nothing |
| ReportTree.GroupHoldsItsRows | src/accounting-report-template/accounting-report-template.service.ts:142-330 | after a report a group holds exactly the rows fetched for it, and aggregated rows of the listed groups done before it and of itself when listed |
| ReportTree.AddingGroupTotals | src/accounting-report-template/accounting-report-template.service.ts:174-202 | the aggregated rows of an adding group that does not list itself total what the listed groups before it hold |
| ReportTree.RowsKeepFirstAccount | src/accounting-report-template/accounting-report-template.service.ts:188-196 | an aggregated row keeps the account of the first list that reaches its position |
| ReportTree.AddRows | src/accounting-report-template/accounting-report-template.service.ts:183-212 | the loop over one list adds its rows to the held ones by position |
| ReportTree.AggregateLists | src/accounting-report-template/accounting-report-template.service.ts:182-326 | the keyed accumulation, read back in insertion order, is the positional aggregate |
| ReportTree.ReportRun.TakeTurn | src/accounting-report-template/accounting-report-template.service.ts:174-330 | a group's turn collects over the tree as it stands and appends its rows and its aggregate |
| ReportTree.ReportRun.Process | src/accounting-report-template/accounting-report-template.service.ts:464-657 | the recursive processing of a list of groups |
| DateBuckets.CoarseResidual | src/balance-sheet-cal/balance-sheet.service.ts:390-489 | for any range the coarse output misses exactly the days outside its slice |
| DateBuckets.CoverageIff | src/balance-sheet-cal/balance-sheet.service.ts:437-489 | yearly slices cover every range; monthly and quarterly ones exactly the ranges inside one calendar year and those from the first bucket of a year to the last of a later one |
| DateBuckets.CoarseConserves | src/balance-sheet-cal/balance-sheet.service.ts:369-491 | over every covered range the summed debit, credit and total amount are the daily ones and no non-zero bucket is cut off |
| DateBuckets.UncoveredLoses | src/balance-sheet-cal/balance-sheet.service.ts:437-473 | on every other range some data loses money |
| DateBuckets.DaysContain | src/balance-sheet-cal/balance-sheet.service.ts:372-388 | the day loop leaves out no date of the range |
| DateBuckets.DaysAscend | src/balance-sheet-cal/balance-sheet.service.ts:372-374 | the days are listed in order, each once |
| DateBuckets.MonthsEnd | src/balance-sheet-cal/balance-sheet.service.ts:372 | the day after the last of a month, by month and leap year, is the first of the next |
| DateBuckets.YearHasItsDays | src/balance-sheet-cal/balance-sheet.service.ts:372 | a year lists 365 days, 366 with a 29th of February |
| DateBuckets.KeyMeans | src/balance-sheet-cal/balance-sheet.service.ts:394-404 | buckets are the month, the quarter of three months, and the year |
| DateBuckets.DayGrows | src/balance-sheet-cal/balance-sheet.service.ts:375-387 | an entry counts on its own day when its account is among the asked ones; the total amount is the difference of the day's debit and credit without its sign |
| DateBuckets.DailyIsLedger | src/balance-sheet-cal/balance-sheet.service.ts:369-388 | the daily rows hold in all what the ledger holds for the accounts in the period |
| DateBuckets.BucketIsLedger | src/balance-sheet-cal/balance-sheet.service.ts:390-489 | bucket i of the output holds what the ledger holds for the accounts on the days that fall into it |
| DateBuckets.DatewiseData | src/balance-sheet-cal/balance-sheet.service.ts:370-388 | one row per day with debit, credit and their absolute difference |
| DateBuckets.ReduceByKey | src/balance-sheet-cal/balance-sheet.service.ts:390-412 | each key holds the sums of its days, and absent keys have none |
| DateBuckets.AggregateAndSumByDate | src/balance-sheet-cal/balance-sheet.service.ts:369-491 | the buckets of the slice, in order |
| BalanceSheet.MergeConserves | src/balance-sheet-cal/balance-sheet.service.ts:148-161 | merging children's columns keeps what each bucket holds, and the sum |
| BalanceSheet.MergeDistinct | src/balance-sheet-cal/balance-sheet.service.ts:148-161 | a summary has at most one column per bucket |
| BalanceSheet.SummaryTotal | src/balance-sheet-cal/balance-sheet.service.ts:139-170 | a summary's total is the sum of its columns in a plain section and the opposite in a negated one; they agree if and only if the section is plain or the columns sum to zero |
| BalanceSheet.SectionTotals | src/balance-sheet-cal/balance-sheet.service.ts:139-170 | the same for all summaries of a section together |
| BalanceSheet.GrandTotals | src/balance-sheet-cal/balance-sheet.service.ts:211-326 | a grand row's columns sum to its first section, its total counts both with their signs |
| BalanceSheet.SectionLayout | src/balance-sheet-cal/balance-sheet.service.ts:128-170 | a section lists its top group with its own columns and children, then a summary that totals all the children's columns with the section's sign |
| BalanceSheet.GrandOfTwo | src/balance-sheet-cal/balance-sheet.service.ts:211-326 | the grand row totals the children of both top groups with their signs, over columns that sum to those of the first |
| BalanceSheet.GrandRowsFootIff | src/balance-sheet-cal/balance-sheet.service.ts:211-326 | total assets foot with their columns if and only if fixed assets sum to zero, total liabilities and equity if and only if equity is twice the liabilities |
| BalanceSheet.FixedAssetBreaksFooting | src/balance-sheet-cal/balance-sheet.service.ts:211-231 | x on one fixed asset makes total assets -x over no columns |
| BalanceSheet.SummaryColumns | src/balance-sheet-cal/balance-sheet.service.ts:339-367 | each column of a summary adds up the children's figures of that bucket |
| BalanceSheet.SummaryIsDaily | src/balance-sheet-cal/balance-sheet.service.ts:339-367 | over every range the grain covers, a summary's total is the daily amounts of its children, up to the section's sign |
| BalanceSheet.GetGroupData | src/balance-sheet-cal/balance-sheet.service.ts:339-367 | the recursion yields the tree of rows with columns and signed totals |
| BalanceSheet.MergeColumns | src/balance-sheet-cal/balance-sheet.service.ts:148-161 | the double loop with look-up by date computes the merge |
| BalanceSheet.ListSection | src/balance-sheet-cal/balance-sheet.service.ts:139-170 | every top group followed by its summary when it has children |
| BalanceSheet.CreateReport | src/balance-sheet-cal/balance-sheet.service.ts:128-336 | two sections and their grand row |

## Left out

- Controllers, permissions, pagination, population of references, mail, sockets, files and document
  numbers. The collections are those of one supplier and, where only one is concerned, one account,
  order, sheet or document.
- Floating point: amounts are exact reals. Saves that are not awaited happen in program order.
- Dates and time zones. A voucher's year and period and a posting's day are inputs; a day is a calendar
  date.
- Fields that only travel along: descriptions, cost centres, names and unit names.
- Sharing of line objects between a request and the filtered list: the in-place tax split is modelled on
  the filtered list only.
- Editing, deleting and late approval of vouchers; after them the balance index carries no promise.
- Vouchers of other kinds (sales, refunds, purchases, invoices, payroll, acquisitions and retirements of
  assets) and recurring vouchers.
- Account statement: one page, for vouchers given in the order of their days.
- Keyed voucher builders with unmapped accounts: the look-up of accounts is an input that succeeds,
  except for the consumption account of a count and the tax mapping of a split.
- Goods receipts: approval of a stored draft, and a purchase order that does not exist. A missing
  inventory row starts at zero stock and zero cost.
- Transfers: deletion of transfers, and the menu updates that follow one.
- Production: history and consumption records, and finished products sold from a menu.
- The daily inventory-control table; only the gain and loss figures a count sends to it are modelled.
  Virtual consumption lives on the loaded document and is not carried in the rows of the collection.
- Report templates: identity and names of an aggregated row beyond its first account, the comparison
  columns, which are computed by the same code as the reported ones, indentation numbers and the
  spreadsheet export.
- Date-bucketed reports: the annual report of a range without days, which is one zero row.
- TransferVouchers.HandleStockTransferNew: a missing history row counts as 0, where the code gets no
  number; the ledger drops either.
- Cashier reports, cost simulation, kitchen logs and plain create-read-update-delete services.
