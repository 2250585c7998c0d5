# The exchange's money protocols, in Dafny

The matching engine of this exchange is a separate, closed component. What the repository holds is the protocol around
it: who reserves, releases, debits and credits balances, and in which order. This project models that protocol and
proves what it keeps.

| file | component |
|---|---|
| `Ledger.dfy`, `Sums.dfy`, `Options.dfy`, `Decimals.dfy` | the balance table, the wallet service, sums over tables, shared datatypes |
| `Trading.dfy`, `TradingProofs.dfy`, `TradingFigures.dfy`, `TradingService.dfy` | place, settle, amend, cancel and cancel-all as functions of the state; what every run of them keeps; what each answers and leaves behind, said on fields and figures alone; the handlers as a class, each method proved to be its function |
| `Custody.dfy`, `CustodyProofs.dfy`, `CustodyFigures.dfy`, `CustodyService.dfy`, `CustodyExamples.dfy` | withdrawals and deposits as small steps that workers, watchers, users, admins and scanner instances interleave; what every interleaving keeps; what each routine does to rows and balances, in figures; the routines as a class; short runs that lose or strand funds |
| `Exchange.dfy` | trading and the daemons together, on one balance table |
| `UnknownTicks.dfy`, `DepositDrain.dfy` | the counter kept in `error_msg`; how fast the credit passes drain |
| `AssetTotals.dfy` | what the trading handlers do to an asset's total when the books do not balance |
| `CoinSelection.dfy` | Bitcoin coin selection and the amounts of a built transaction |
| `FifoPnl.dfy` | FIFO profit and loss over all pairs of a user |
| `RateLimit.dfy`, `Limiters.dfy` | the three sliding-window limiters |
| `ApiKeys.dfy`, `ApiKeyFigures.dfy`, `ApiKeyService.dfy` | the API-key nonce protocol and the layout of a full key; on which row a request is decided, and how |
| `HdPath.dfy` | the BIP-44 path printers and parser |

Money is an exact rational (`real`) in the ledger, trading and custody parts, whole satoshis in coin selection, whole
micro-units of quantity in profit and loss. Times are whole nanoseconds or milliseconds. Balances frozen on behalf of a
part that is not looked at (withdrawals while trading, orders while withdrawing) are a parameter `others`; `Exchange.dfy`
gives each part the other's holds and shows that they add up.

## How the code differs from its comments

The model follows the code. Each point below is a theorem.

- Price improvement is never refunded (the comment at `internal/trading/service.go:943-952` argues it away). A frozen
  balance is fully explained by open orders and other holds exactly when every purchase was made at the full limit:
  `FrozenIsExplainedIff`, with a two-order run that strands funds in `PriceImprovementStaysFrozen`.
- `rejectReviewWithdrawal` says it unlocks the balance (`cmd/wallet-api/main.go:1162-1164`). As written it removes the
  amount from frozen and returns nothing: `RejectReturnsFundsIff`, `RejectDropsFunds`; in `RejectionLosesSix` a user
  with ten ends with four.
- A withdrawal created as REJECTED commits its balance lock, although the comment at `cmd/wallet-api/main.go:890`
  expects a rollback; the amount stays frozen in every later run: `RejectedAtCreationKeepsHold`, with a run in
  `RejectionKeepsSixFrozen`.
- After a failed broadcast call both status updates name BROADCASTED as the state to leave, but the row is in SIGNING.
  It stays there with its funds on hold for ever: `BroadcastErrorStrands`, with a run in `TimeoutKeepsSixFrozen`.
- The unknown-transaction counter is read only up to its first comma, so it never passes 1 and the threshold of 12 is
  never met: `TicksNeverReachThreshold`; hence no row is ever demoted to BROADCAST_UNKNOWN: `AtMostOnce`.
- The order limiter's `retry` falls short by one tick, because its window includes its lower edge; only the rounding
  of the header makes it sufficient: `OrderRetryFallsShort`, and `WholeWindowIsTooShort` for a full burst of orders. Its
  sweep never removes anything: `SweepRemovesNothing`.
- `ValidateRequest` looks at `revoked` only when it reads the row. Exactly the calls in flight on the row with a nonce
  above the last accepted one can still be accepted after the revocation: `AcceptedAfterRevocationIff`, with a run in
  `RevokedYetAccepted`.
- `AmendOrder` moves the wallet difference outside its transaction and takes it back when the row update fails, but not
  when the commit fails. The books balance after an amend exactly when no compensation is lost that way or by a second
  failure: `AmendKeepsInv`, with a failing commit that leaves an order half covered in `LostCommitUncovers`.
- `PlaceOrder`, `CancelOrder` and `CancelAllOrders` drop or only log the error of a failing refund
  (`internal/trading/service.go:873-889`, `:368-374`, `:1532-1540`). The amount stays frozen for no order: `StepKeepsInv`
  says exactly when, `RunStrandsInv` exactly how much.
- `settleTrade` credits the taker before it debits the maker. When the maker's debit is refused, the taker's credit has
  come from nobody and its payment has gone to nobody. A settlement conserves every asset exactly when it is not cut short
  there (`SettlementConservesIff`), and in every run whatsoever totals change by exactly what such settlements make
  (`RunChanges`). `UncoveredTradeMakesOne` is a run: an amend that loses its compensation, then a trade.
- The path parser adds the hardening offset modulo 2^32, so an account of 2^31 or more silently derives an unhardened
  level: `StandardPathIff`.

## What is assumed of the matching engine

`Trading.TradeOk`, `TradesOk` and `ReplyOk` state it: a trade names a live order of the other side, of the same pair,
at a price within both limits and a quantity within the maker's remaining quantity; the reply's filled quantity is the
previous fill plus the sum of its trades, at most the order's quantity, and its status is OPEN, PARTIAL, or FILLED
exactly when all is filled.

## Model

| member | source | states |
|---|---|---|
| Ledger.Wallet.Credit | internal/wallet/service.go:36-45 | creates or increases the available balance by a positive amount and touches no other row; refuses other amounts |
| Ledger.Wallet.Freeze | internal/wallet/service.go:48-63 | moves a positive amount from available to frozen if it is there, otherwise changes nothing |
| Ledger.Wallet.Unfreeze | internal/wallet/service.go:66-75 | moves a positive amount from frozen back to available if it is there, otherwise changes nothing |
| Ledger.Wallet.DebitFrozen | internal/wallet/service.go:78-87 | removes a positive amount from frozen if it is there, otherwise changes nothing |
| Ledger.MovesInFigures | internal/wallet/repo.go:86-180 | which of the four moves go through, and the two amounts of the row each leaves |
| Ledger.FreezeConserves | internal/wallet/repo.go:108-133 | freezing keeps the table's CHECK constraints and the total of every asset |
| Ledger.UnfreezeConserves | internal/wallet/repo.go:136-159 | unfreezing keeps the table's CHECK constraints and the total of every asset |
| TradingProofs.SettlementMoves | internal/trading/service.go:988-1053 | with both sides' funds frozen all four wallet calls of a settlement succeed; the buyer pays notional and receives base, the seller the reverse, whichever side took; self-trades included; no asset is created or lost |
| TradingProofs.TradeKeepsBalance | internal/trading/service.go:899-936 | one turn of the settlement loop succeeds and re-establishes the exact frozen-balance equation with one trade less to come |
| TradingProofs.LoopKeepsBalance | internal/trading/service.go:899-936 | the whole loop, any number of trades: no settlement is cut short, every frozen balance is exactly reservations plus price improvement plus other holds, totals unchanged |
| TradingProofs.LoopIgnoresTakerFill | internal/trading/service.go:894-941 | the loop does the same whether the taker row already shows its final fill or not, so the early insert with the final fill is harmless |
| TradingProofs.PlaceSettles | internal/trading/service.go:894-941 | an accepted order with all its trades settles completely and ends in the exact invariant |
| TradingProofs.PlaceKeepsInv | internal/trading/service.go:789-974 | placing a limit order keeps all totals on every path: validation errors, refused freeze, engine error with unfreeze, acceptance; it keeps the invariant exactly unless the engine's error is followed by a failing unfreeze; a failed placing changes nothing but that |
| TradingProofs.AmendSettles | internal/trading/service.go:1277-1372 | an accepted amend moves exactly the difference of the reservations and settles all its trades |
| TradingProofs.AmendFailureRestores | internal/trading/service.go:1259-1322 | if an amend returns an error the order rows and trades are as before; the balances are as before exactly unless a wallet move is left uncompensated (row update and compensating call both fail, or the commit fails), and then they differ by exactly that move; the engine's terms are restored when the restoring call is made and succeeds |
| TradingProofs.AmendKeepsInv | internal/trading/service.go:1154-1391 | whatever fails, amending keeps all totals, and it keeps the invariant exactly when no wallet move is left uncompensated |
| TradingProofs.LostCommitUncovers | internal/trading/service.go:1277-1336 | an order for one unit is halved, the commit fails: the row still offers one unit with half a unit frozen, and the invariant is broken |
| TradingProofs.ClampNeverLowers | internal/trading/service.go:1474-1494 | in every state of the invariant the clamp to the actual frozen balance never lowers the refund |
| TradingProofs.CancelReleases | internal/trading/service.go:1407-1547 | cancelling a live order succeeds; its refund, unless the wallet call fails, goes through and releases exactly its reservation |
| TradingProofs.RefundsPay | internal/trading/service.go:345-377 | every refund of cancel-all whose wallet call does not fail goes through, and each balance gets back exactly the sum of those cancelled reservations |
| TradingProofs.CancelAllReleases | internal/trading/service.go:231-380 | cancel-all releases exactly the reservations of the rows it cancels, but for those whose wallet call fails, and keeps totals |
| TradingProofs.CancelAllIsCancelEach | internal/trading/service.go:231-380 | cancel-all ends in the same state as cancelling each selected order by itself, in any order, whichever refunds fail |
| TradingProofs.StepKeepsInv | internal/trading/service.go:789-1547 | one handler, with amend's failures and failing refunds of place, cancel and cancel-all, keeps every total, and keeps the invariant exactly when it makes up for every freeze and release it should |
| TradingProofs.RunKeepsInv | internal/trading/service.go:789-1547 | after any run of place, amend, cancel and cancel-all, by any users, in which every handler makes up for its freezes and releases, every frozen balance is exactly open reservations plus accumulated price improvement plus other holds, and every asset's total is unchanged |
| TradingProofs.StepIsOffBy | internal/trading/service.go:789-1547 | after one handler with any of those failures every frozen balance differs from what the books say by exactly the refund or compensation it lost |
| TradingProofs.RunStrandsInv | internal/trading/service.go:789-1547 | in a run with any failing refunds, and failing amends whose lost moves all froze funds, every frozen balance is off by exactly the sum of what was lost, later handlers still find their funds, and the totals stand |
| AssetTotals.SettlementChanges | internal/trading/service.go:988-1053 | from any balances a settlement changes an asset's total by the taker's credit less the taker's payment if the taker's debit passes and the maker's is refused, and otherwise not at all |
| AssetTotals.SettlementConservesIff | internal/trading/service.go:988-1053 | a settlement conserves every asset if and only if it is not cut short there (or exchanges an asset for itself at price 1) |
| AssetTotals.RunChanges | internal/trading/service.go:789-1547 | in every run, from any balances and with any failures of amends and refunds, each asset's total changes by exactly what the settlements cut short make of it |
| AssetTotals.UncoveredTradeMakesOne | internal/trading/service.go:1277-1322 | an amend whose row update and compensation both fail, then a trade on the order: one unit of base is created and eight of quote vanish |
| TradingProofs.ResidueZero | internal/trading/service.go:943-952 | the accumulated price improvement of a balance is zero exactly when each of its purchases was at the full limit |
| TradingProofs.FrozenIsExplainedIff | internal/trading/service.go:943-952 | nothing but open orders and other holds is frozen exactly when every purchase was at the full limit price |
| TradingProofs.PriceImprovementStaysFrozen | internal/trading/service.go:943-952 | a two-order run after which both orders are filled and two quote units of the buyer stay frozen |
| TradingFigures.SettledInFigures | internal/trading/service.go:988-1053 | a settlement takes notional from the buyer's frozen quote and quantity from the seller's frozen base, and adds them to the other's available balance, whichever side took |
| TradingFigures.LoopInFigures | internal/trading/service.go:899-936 | after the loop every other order is filled by the sum of the trades that name it, FILLED when that is all and PARTIAL when not, and each trade has its row |
| TradingFigures.LoopPays | internal/trading/service.go:899-936 | from balanced books the loop pays and receives, on every balance, the sums of all its trades |
| TradingFigures.PlaceAnswers | internal/trading/service.go:789-890 | which answer a placed order gets, in the source's order, by its fields and the available balance alone; a refused one changes nothing but a freeze that is not taken back |
| TradingFigures.PlacedInFigures | internal/trading/service.go:894-941 | an accepted order's row field by field, its freeze of quantity or quantity times price, and its trades paid |
| TradingFigures.AmendAnswers | internal/trading/service.go:1154-1327 | which answer an amend gets, in the source's order, by the input's fields, the row's and the balance alone |
| TradingFigures.InvalidQtyIff | internal/trading/service.go:1218-1221 | an amend is refused for its quantity exactly if it asks for less than is filled, and nothing before that refuses it |
| TradingFigures.AmendedInFigures | internal/trading/service.go:1202-1383 | after an Ok amend the row has the input's price and quantity where they are not zero, the reply's fill and status; the balance moved by (new quantity - filled) at the new price less the old reservation; its trades are paid |
| TradingFigures.CancelInFigures | internal/trading/service.go:1407-1547 | which answer a cancel gets, and from any balances the row and the balance it leaves: what the row ties up is released, or all that is frozen if less |
| TradingFigures.CancelAllInFigures | internal/trading/service.go:231-335 | cancel-all turns exactly the user's OPEN and PARTIAL rows, of the pair if one is given, into CANCELLED, and answers how many rows it changed |
| TradingFigures.NoneLeftOpen | internal/trading/service.go:231-335 | afterwards no such row is OPEN or PARTIAL |
| TradingFigures.CancelAllPays | internal/trading/service.go:345-377 | from balanced books each balance gets back exactly the remaining quantity, or quantity times price, of those rows |
| Trading.SelectedIdsAre | internal/trading/service.go:236-252 | the rows cancel-all selects are exactly the user's OPEN or PARTIAL rows of the filtered pair, in ascending order, each once |
| TradingService.Service.SettleTrade | internal/trading/service.go:988-1053 | the step-by-step settlement ends in the table and success flag of the model's four calls, stopping at the first refusal |
| TradingService.Service.SettleOne | internal/trading/service.go:899-936 | one turn of that loop: settlement, trade row, maker row |
| TradingService.Service.SettleAll | internal/trading/service.go:899-936 | the loop over trades with its maker updates is the model's loop |
| TradingService.Service.PlaceOrder | internal/trading/service.go:789-974 | the handler ends, for a limit order, in exactly the state and result that the run theorems are about |
| TradingService.Service.AmendOrder | internal/trading/service.go:1154-1391 | the same for amend, with failures of the wallet, the row update, the two compensations and the commit |
| TradingService.Service.ApplyAmend | internal/trading/service.go:1277-1383 | the part after the engine's acceptance: shift, row, compensation, commit, settlement |
| TradingService.Service.CancelOrder | internal/trading/service.go:1407-1547 | the same for cancel, with the clamp |
| TradingService.Service.CancelAllOrders | internal/trading/service.go:231-380 | the same for cancel-all: select, mark, refund |
| TradingService.Service.RefundRows | internal/trading/service.go:345-377 | the refund loop from the rows as they were read, skipping non-positive amounts |
| UnknownTicks.CountUnknownTicks | cmd/wallet-api/main.go:1482-1501 | the scan returns the number between the last prefix and the first comma after it, or 0 |
| UnknownTicks.TicksInFigures | cmd/wallet-api/main.go:1453-1460 | the column after one, two and n ticks, character by character |
| UnknownTicks.TicksNeverReachThreshold | cmd/wallet-api/main.go:1453-1477 | however many ticks are appended the count read back is at most 1, below the threshold |
| CustodyProofs.HoldIsFrozen | cmd/wallet-api/main.go:786-791 | an unreleased withdrawal always finds its whole amount frozen |
| CustodyProofs.ClampsNeverAct | cmd/wallet-api/main.go:2137-2165 | the LEAST and GREATEST clamps of unlock and burn never take effect in a reachable state |
| CustodyProofs.StepKeepsInv | cmd/wallet-api/main.go:1963-2165 | every single step of every actor keeps the invariant and every user's book |
| CustodyProofs.RunKeepsInv | cmd/wallet-api/main.go:675-2165 | in every interleaving, with workers dying anywhere, the invariant holds, all books balance, and each row only moves forward: its status changes at most as often as its rank rises |
| CustodyProofs.AtMostOnce | cmd/wallet-api/main.go:1963-2132 | each withdrawal is claimed, broadcast and released at most once, unlocked only if never broadcast, burned only if broadcast, changes status at most five times, and never becomes BROADCAST_UNKNOWN |
| CustodyProofs.FundsAreConserved | cmd/wallet-api/main.go:786-825 | frozen is exactly the unreleased withdrawals plus other holds; available + frozen + burned + dropped by rejection is the initial balance plus credited deposits |
| CustodyProofs.RejectReturnsFundsIff | cmd/wallet-api/main.go:1193-1199 | the rejection update returns the amount exactly when nothing was frozen, and keeps the user's funds exactly when the amount is twice what is frozen |
| CustodyProofs.RejectDropsFunds | cmd/wallet-api/main.go:1165-1222 | in every reachable state the rejected amount leaves frozen and arrives nowhere |
| CustodyExamples.RejectionLosesSix | cmd/wallet-api/main.go:1165-1222 | ten available, six requested with a score of 85, rejected by an admin: four available, nothing frozen |
| CustodyProofs.StuckForever | cmd/wallet-api/main.go:1963-2109 | a row in a state no statement leaves, with no worker on it, is unchanged in every later run |
| CustodyProofs.RejectedAtCreationKeepsHold | cmd/wallet-api/main.go:797-836 | a withdrawal scored 100 or more keeps its funds frozen in every later run |
| CustodyExamples.RejectionKeepsSixFrozen | cmd/wallet-api/main.go:797-836 | six requested with a score of 100 stay frozen whatever happens afterwards |
| CustodyProofs.BroadcastErrorStrands | cmd/wallet-api/main.go:2058-2067 | a withdrawal whose broadcast call failed stays in SIGNING with its funds on hold in every later run |
| CustodyExamples.TimeoutKeepsSixFrozen | cmd/wallet-api/main.go:2058-2067 | request, claim, signature and a broadcast call that fails: the row is in SIGNING with six frozen whatever happens afterwards |
| CustodyProofs.CommitCredits | cmd/tron-scanner/main.go:389-420 | committing a pass credits exactly the rows it had locked and no other |
| CustodyProofs.CreditedOnceAndDeep | cmd/tron-scanner/main.go:311-422 | under any interleaving and any aborts a deposit is credited at most once, and only after a head at least 19 above its block was read |
| DepositDrain.PassSize | cmd/tron-scanner/main.go:359-387 | a pass takes a hundred deposits, or all that are free if there are fewer |
| DepositDrain.PassesDrain | cmd/tron-scanner/main.go:311-422 | after n committed passes in a row exactly k - 100n of k free deposits are left, or none |
| DepositDrain.ScansDrain | cmd/tron-scanner/main.go:311-422 | in every run, with any number of instances opening, committing and aborting passes among all other actors, each pass opened leaves a hundred fewer free deposits or none, each aborted one gives back its own, each promotion adds its own, and nothing else counts |
| DepositDrain.BacklogIs | cmd/tron-scanner/main.go:311-422 | n passes leave at least the start plus additions less 100n, and exactly that if and only if no pass found fewer than a hundred |
| DepositDrain.RunDrains | cmd/tron-scanner/main.go:311-422 | in every such run the confirmed deposits are those before plus the promoted ones less the sizes of the committed passes, the credited ones grow by those sizes, and no pass credits more than a hundred |
| CustodyFigures.CreatedInFigures | cmd/wallet-api/main.go:720-866 | requests below 0.1, replayed, or beyond the available balance change nothing; any other moves its amount to frozen and gets a row that is PENDING below a score of 50, RISK_CHECK from 50, MANUAL_REVIEW from 80, REJECTED from 100 |
| CustodyFigures.DeskInFigures | cmd/wallet-api/main.go:992-1222 | confirming, approving and rejecting, each from its own status alone, with the balance update of a rejection as written |
| CustodyFigures.UnsentInFigures | cmd/wallet-api/main.go:1985-2014 | a build or signing error that is recorded and unlocked leaves the row FAILED with one unlock and the whole amount available again; each statement that does not get through leaves out its own part |
| CustodyFigures.DryRunInFigures | cmd/wallet-api/main.go:2020-2047 | a dry run leaves the row SIGNED and the balances as they are |
| CustodyFigures.BroadcastErrorInFigures | cmd/wallet-api/main.go:2056-2067 | a failed broadcast call leaves the row in SIGNING, sent once, its amount frozen, whatever reaches the database |
| CustodyFigures.BroadcastInFigures | cmd/wallet-api/main.go:2069-2109 | a broadcast that is recorded and burned leaves the row BROADCASTED with one burn, the amount gone from frozen and available unchanged |
| CustodyFigures.NotPending | cmd/wallet-api/main.go:1963-1976 | without a row in PENDING the routine changes nothing |
| CustodyFigures.InBlockInFigures | cmd/wallet-api/main.go:1397-1413 | a transaction in a block that is not final moves BROADCASTED to IN_BLOCK and nothing else |
| CustodyFigures.SuccessInFigures | cmd/wallet-api/main.go:1416-1433 | a final one completes the row from either status, balances untouched |
| CustodyFigures.RevertInFigures | cmd/wallet-api/main.go:1434-1441 | a reverted one fails it with its message, balances untouched |
| CustodyFigures.MissingInFigures | cmd/wallet-api/main.go:1454-1477 | in every reachable state a transaction that is not found adds one tick to the message and never changes the status |
| CustodyFigures.UpdatesInFigures | cmd/wallet-api/main.go:1426-1477 | each single update of a watcher from any state: the status it leaves, the status it writes |
| CustodyFigures.PromoteInFigures | cmd/tron-scanner/main.go:327-340 | exactly the detected deposits 19 or more blocks below the head become confirmed |
| CustodyFigures.CommitInFigures | cmd/tron-scanner/main.go:389-420 | a committed pass turns exactly its deposits CREDITED and adds each amount to its own balance |
| CustodyFigures.PassInFigures | cmd/tron-scanner/main.go:359-387 | a pass may take at most a hundred confirmed, unlocked deposits, each once, and fewer only if those are all |
| CustodyService.Database.UpdateWithdrawalStatus | cmd/wallet-api/main.go:2115-2132 | changes the row and reports success exactly when it is in the expected status |
| CustodyService.Database.CreateWithdrawal | cmd/wallet-api/main.go:675-866 | one transaction: replay of an idempotency key, refusal, or lock plus row; a returned id is the one stored under the key |
| CustodyService.Database.RejectReviewWithdrawal | cmd/wallet-api/main.go:1165-1222 | is the model's rejection step, and succeeds exactly on rows in MANUAL_REVIEW |
| CustodyService.Database.ProcessOneWithdrawal | cmd/wallet-api/main.go:1963-2109 | undisturbed, the routine is exactly the sequence of small steps for its outcome, failures of any of its database statements included; losing the claim changes nothing |
| CustodyService.Database.ConfirmOneWithdrawal | cmd/wallet-api/main.go:1378-1477 | the watcher's routine for one row is its small steps in a row, for each thing the chain can say |
| Exchange.BothSidesHold | internal/trading/service.go:789-1547 | in every state of the joint invariant each side's own invariant holds, with the other side's reservations or withdrawals as the other holds |
| Exchange.GuardsStayIdle | cmd/wallet-api/main.go:2137-2165 | with trading and withdrawals on one table, no cancel refund is clamped and every unlock and burn moves exactly the withdrawal's amount |
| Exchange.RunKeepsInv | internal/wallet/repo.go:108-205 | every run that mixes handlers and daemons, with any failing refunds, and in which no amend loses the call that would have frozen again what it released, keeps the joint invariant with the stranded amounts as further holds, and every asset's book |
| Exchange.EverythingIsAccountedFor | internal/wallet/repo.go:108-205 | in every such run frozen is exactly open reservations, price improvement, unreleased withdrawals, other holds and what handlers lost; all balances of an asset plus what was burned or dropped are the initial ones plus the credited deposits |
| CustodyService.Database.CreditRows | cmd/tron-scanner/main.go:389-416 | the credit loop upserts and marks as the model does and counts the rows |
| CustodyService.Database.ConfirmAndCredit | cmd/tron-scanner/main.go:311-422 | promotion plus one credit transaction is exactly three model steps, committed or not; both returned counts are right |
| CustodyService.Database.PromoteDeposits | cmd/tron-scanner/main.go:327-340 | promotes exactly the detected deposits deep enough under the head and counts them |
| CoinSelection.SortDescending | internal/chainwallet/btc_builder.go:144-150 | the in-place exchange sort leaves a descending rearrangement |
| CoinSelection.TopSum | internal/chainwallet/btc_builder.go:141-164 | no selection of k outputs is worth more than the k largest |
| CoinSelection.PrefixIsBest | internal/chainwallet/btc_builder.go:152-162 | the first paying prefix is a cheapest-size selection: nothing smaller pays and nothing of its size is worth more |
| CoinSelection.SelectUtxos | internal/chainwallet/btc_builder.go:141-164 | returns nothing exactly when no selection pays target plus its own fee; otherwise a selection of minimum cardinality, and of maximum value among those; the caller's list is untouched |
| CoinSelection.SizeInFigures | internal/chainwallet/btc_builder.go:166-168 | an empty transaction is 10 bytes, each input adds 148 and each output 34 |
| CoinSelection.SelectionInFigures | internal/chainwallet/btc_builder.go:141-164 | what paying, best and payable mean in figures: the sum of the inputs against target + (148 inputs + 78) rate |
| CoinSelection.PayableByAny | internal/chainwallet/btc_builder.go:141-164 | for a positive rate and no negative target, counting the empty selection makes no difference |
| CoinSelection.Build | internal/chainwallet/btc_builder.go:52-135 | each error exactly when it applies; inputs = amount + change + paid fee with estimate <= paid <= estimate + 546; the fee is (148 inputs + 78) times the rate, 20 if none is configured; change is an output exactly above 546; the reported fee is the paid one exactly when change is an output or zero |
| CoinSelection.NoOverflow | internal/chainwallet/btc_builder.go:96-101 | every intermediate value fits 64 bits for at most 2^24 outputs, the total coin supply and rates up to 10^9 |
| FifoPnl.PairState.Match | internal/analytics/pnl.go:151-168 | the lot loop takes exactly min(sold, queued) units off the front of the unit queue, with the profit of each unit; it ends |
| FifoPnl.PairState.Record | internal/analytics/pnl.go:135-170 | one trade takes the lot state from one unit-by-unit state to the next |
| FifoPnl.AfterSale | internal/analytics/pnl.go:151-168 | selling drops the first k queued units and adds k times the price less what those units cost |
| FifoPnl.GainIsDifference | internal/analytics/pnl.go:161 | the unit-by-unit profit is the matched revenue less the cost of the units matched |
| FifoPnl.ReplayInFigures | internal/analytics/pnl.go:135-170 | bought, sold, cost, revenue, volume and count are sums over the purchases and over the sales of the history |
| FifoPnl.BoughtInOrder | internal/analytics/pnl.go:144-168 | a purchase queues its units at its price behind the others; a sale matches at its price as many as are left |
| FifoPnl.FourOfFive | internal/analytics/pnl.go:151-168 | two units at 10 and three at 20 bought, four sold at 30: 60 earned and one unit at 20 left |
| FifoPnl.RealizedIdentity | internal/analytics/pnl.go:144-170 | for every history: cost = matched cost + queued cost, and realized = revenue - oversold revenue - cost + queued cost |
| FifoPnl.SimpleIdentityIff | internal/analytics/pnl.go:144-170 | realized = revenue - cost + queued cost exactly for histories that never sold what was not bought |
| FifoPnl.PairsPartition | internal/analytics/pnl.go:206-214 | the per-pair volumes and counts sum to those of all trades |
| FifoPnl.ComputeUserPnl | internal/analytics/pnl.go:135-214 | every traded pair is reported once with the result of its own trades, however interleaved; totals are over everything, in whatever order the pairs are walked |
| FifoPnl.ReportInFigures | internal/analytics/pnl.go:182-205 | a report's averages are money over units, its totals those of its own history |
| FifoPnl.Report | internal/analytics/pnl.go:182-205 | holdings plus matched units is what was bought; the averages times the units are the totals |
| RateLimit.LimiterRefinesLog | internal/api/ratelimit.go:43-106 | every run of calls, resets and cleanups is answered as by a log that forgets nothing |
| RateLimit.HousekeepingIsInvisible | internal/api/ratelimit.go:84-106 | removing all cleanups and sweeps from a run changes no answer |
| RateLimit.NeverMoreThanLimit | internal/api/ratelimit.go:41-74 | however a run goes, between two resets limit + 1 accepted requests of a key never fall within one window |
| RateLimit.RetrySucceedsIff | internal/api/ratelimit.go:183-189 | after a refusal a later call succeeds exactly when the oldest counted request has left the window |
| RateLimit.ApiKeyRetryIsEarliest | internal/api/ratelimit.go:164-194 | retryAfter is the earliest time that succeeds, and the header's seconds are enough |
| RateLimit.OrderRetryFallsShort | internal/api/trading_handlers.go:65-73 | waiting exactly retry succeeds if and only if the one-second floor raised it; the header's seconds always suffice |
| RateLimit.WholeWindowIsTooShort | internal/api/trading_handlers.go:53-77 | a full burst at once, then one more order: told to retry after the whole window, it is refused again after exactly that time and accepted after the header's seconds |
| RateLimit.AdmitsInFigures | internal/api/ratelimit.go:51-68 | a request is admitted exactly if fewer than the limit of stored requests are inside the window; for orders, 20 and sixty seconds |
| RateLimit.SinceInFigures | internal/api/ratelimit.go:57-62 | what is kept of a list is every recent entry as often as it was there |
| RateLimit.SweepRemovesNothing | internal/api/trading_handlers.go:81-95 | no stored entry is ever empty, so the sweep removes nothing and the map only grows |
| Limiters.Filter | internal/api/ratelimit.go:57-62 | keeps exactly the entries strictly after the cutoff, in order |
| Limiters.Prune | internal/api/ratelimit.go:91-103 | prunes every entry and drops exactly the keys left empty |
| Limiters.RateLimiter.Allow | internal/api/ratelimit.go:43-74 | accepts exactly when fewer than limit accepted requests are strictly inside the window |
| Limiters.RateLimiter.Reset | internal/api/ratelimit.go:77-81 | forgets the key and no other |
| Limiters.RateLimiter.Cleanup | internal/api/ratelimit.go:84-106 | is the model's pruning of all keys |
| Limiters.ApiKeyRateLimiter.Allow | internal/api/ratelimit.go:164-194 | the same with the retry time of the oldest counted request; indexing an empty list happens exactly for a non-positive limit with nothing stored |
| Limiters.OrderRateLimiter.Allow | internal/api/trading_handlers.go:53-77 | dropping a prefix finds the whole inclusive window because the hits are in order; the retry has a one-second floor |
| Limiters.OrderRateLimiter.Sweep | internal/api/trading_handlers.go:81-95 | drops exactly the keys without entries |
| ApiKeys.GeneratedKeyIsFound | internal/apikeys/service.go:83-85 | every generated full key is looked up under the id it was stored with |
| ApiKeys.LookedUpIff | internal/apikeys/service.go:250-257 | a string is looked up at all exactly when it is three underscore-free parts, the first "gk", followed by nothing or an underscore and anything |
| ApiKeys.RunKeepsInv | internal/apikeys/service.go:248-319 | every interleaving keeps the invariant; a key's last nonce and accepted list only grow |
| ApiKeys.NoNonceTwice | internal/apikeys/service.go:297-312 | accepted nonces of a key strictly increase in commit order, last_nonce is their maximum, and no two calls are accepted with the same nonce |
| ApiKeys.StaleCheckIsHarmless | internal/apikeys/service.go:285-288 | a nonce the check on the stale read rejects would be rejected by the guarded update too, now and after anything else |
| ApiKeys.ReplayNeverHits | internal/apikeys/service.go:297-312 | once a nonce is accepted, neither it nor an older one is ever accepted again |
| ApiKeys.RevocationHoldsForNewCalls | internal/apikeys/service.go:261-271 | after a revocation only calls that had already read the row, with a nonce above the last accepted one, can be accepted on it |
| ApiKeys.AcceptedAfterRevocationIff | internal/apikeys/service.go:261-312 | on a revoked key a call can still be accepted if and only if it has read the row and its nonce is above the last accepted one |
| ApiKeys.RevokedYetAccepted | internal/apikeys/service.go:301-306 | a run in which a call is accepted on a key already revoked |
| ApiKeyFigures.DecidedOnItsRow | internal/apikeys/service.go:261-312 | a request with the id of an unrevoked row is decided on that row, check by check in figures, and changes that row or none |
| ApiKeyFigures.UnknownIsNotFound | internal/apikeys/service.go:261-271 | a request whose id no unrevoked row has is not found and changes no row |
| ApiKeyFigures.GeneratedKeyIsItsRow | internal/apikeys/service.go:68-115 | the full key of a generated row leads to that row after any run, until it is revoked, and then to none |
| ApiKeyFigures.RevokeInFigures | internal/apikeys/service.go:147-159 | revoking marks the owner's row and no other |
| ApiKeyService.Service.Generate | internal/apikeys/service.go:68-115 | stores the public id with nonce 0 and returns the full key, unless the name is empty or the id taken |
| ApiKeyService.Service.Revoke | internal/apikeys/service.go:147-159 | revokes exactly the owner's row |
| ApiKeyService.Service.ValidateRequest | internal/apikeys/service.go:248-319 | accepts exactly when the id is known and not revoked, the key unexpired, the nonce in the clock window and above the last, and the credential right, on the unrevoked row that has the id, which alone changes; it is the three model steps in a row |
| ApiKeyService.ValidatedIsRun | internal/apikeys/service.go:248-319 | those three steps are a run of the interleaving model |
| HdPath.ParseBip32Path | internal/signing/hd_signer.go:53-92 | derives with the components' values modulo 2^32, the first three plus 2^31; fails exactly on a wrong start or a character that is neither digit nor slash, and names the first such position |
| HdPath.ComponentsOfJoined | internal/signing/hd_signer.go:64-90 | taking a joined path apart gives its components back |
| HdPath.PathReadsBack | internal/signing/hd_signer.go:127-131 | for all 32-bit arguments the printed path derives 44, coin type and account hardened modulo 2^32, then change and index |
| HdPath.EvmPathReadsBack | internal/signing/hd_signer.go:120-125 | the EVM path derives exactly [2^31+44, 2^31+60, 2^31+account, 0, index] for account < 2^31 and every 32-bit index |
| HdPath.StandardPathIff | internal/signing/hd_signer.go:79-82 | no level wraps, and the first three are hardened, exactly when coin type and account are below 2^31 |
| HdPath.PathsAreDistinct | internal/signing/hd_signer.go:127-131 | distinct arguments derive distinct index lists, wrapped or not |

## Left out

- The matching engine: only the contract above, so stale engine books, self-trade prevention that cancels a maker inside the engine, and the retries of a cancel call are not modelled.
- Concurrent handlers in trading: each handler is atomic. The refund of a cancel is computed before the engine is told, so with a fill in between the exact reservation equation does not hold.
- TradingProofs.PlaceKeepsInv: LIMIT orders whose row is inserted. A MARKET buy freezes a million quote units per unit and nothing refunds the rest; after a failed insert, which is only logged, the engine holds an order the table does not, which the assumptions above do not cover.
- TradingService.Service.PlaceOrder: the same restriction.
- TradingProofs.RunStrandsInv: once an amend has released frozen funds it still needed and not taken them back, only AssetTotals.RunChanges speaks of later handlers.
- TradingProofs.StepKeepsInv: wallet calls inside a settlement and updates of maker rows are refused for their guards only; a database error there is not modelled.
- Trades dropped by a failing amend: the first engine call may have produced trades, which the error paths discard; the order rows and balances are restored, the engine's book is not part of this model beyond an order's price and quantity.
- Parsing and upper-casing of pair and side, order ids (row numbers here), inserts of trades that fail.
- NUMERIC(38,18) rounding: amounts are exact rationals.
- Unknown assets and users as wallet errors: the model's wallet refuses only for amount or balance.
- The pair filter of cancel-all is one pair value; the SELECT compares a concatenation and the UPDATE splits at underscores, which differ for asset names that contain one.
- Sweeps: their claim ignores the affected-row count and IN_BLOCK rows are not polled again, so at-most-once does not hold.
- The second withdrawal service (internal/chainwatcher), whose held rows are never debited.
- Deposits lost because the scanner's cursor moves past a failed insert; the unique event index.
- The risk score (a parameter), one-time codes, address checks, float parsing of the amount.
- FifoPnl: `round8` and binary floating point; sub-micro quantities, which the trimmed lot's print would round.
- CoinSelection.Build: address decoding, transaction ids, scripts and serialization; the conversion of an amount beyond 64 bits.
- HdPath.ParseBip32Path: deriving a child key is opaque and taken to succeed.
- ApiKeys: bcrypt is a yes-or-no parameter; the refresh of last_used_at.
- HTTP, JSON, sessions, notifications, configuration, metrics, registries, migrations.
