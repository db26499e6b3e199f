# Pignus in Dafny

Pignus lends one asset against another on Sequentia, and against bitcoin across two chains. This
project models the parts whose correctness is not visible in any one function, and proves what they
are for:

- **The cross-chain loan** (`Timelocks`, `Protocol`, `LenderSafety`, `BorrowerSafety`, `Spending`): the
  check on a loan's four deadlines; the loan as a transition system of four coins on two chains, two
  secrets and a clock in seconds, where broadcasting and being mined are separate steps and everyone but
  the careful party is adversarial; and that the rules of that system are those of the scripts on Bitcoin.
- **The watcher** (`Scan`, `Node`, `Ends`, `Confluence`, `Polling`, `Ghosts`, `Runs`, `Backward`,
  `StaleFunding`, `Watcher`): a class that scans forward, notices reorgs, takes back what it read, asks
  about every vault and forgets what it can no longer rewind to, against what the chain itself says, over
  any run of whole polls; the rationed backward search; and when a vault is called a ghost.
- **Version 2 loans** (`Vault2`, `Compose2`, `Reconcile`): composing spends, reading a vault's hidden
  state back off a spend, and following the line of coins over reorgs.
- **Version 1 spends** (`Exits`, `Evidence`, `Explain`): the command line's and the browser's composers
  as one function, the attestations each takes, and what is said of an exit from its transaction alone.
- **Signatures, trees and encodings** (`Adaptor`, `Dlc`, `Taproot`, `Codec`, `TxBytes`, `Pset`,
  `PsetFields`): BIP 340 (section
  "Verification"), BIP 341 (section "Constructing and spending Taproot outputs") and BIP 370 (section
  "Specification"). Hashes are symbolic terms; a point is its discrete logarithm, with a predicate for
  the parity of its y coordinate.
- **Oracle evidence and economics** (`Terms`, `AttestationLog`) and **services** (`RateLimit`, `Book`).

Code that changes things step by step is a class or a method with loops, tied by its contract to a
function of its inputs or of the old state; what the code promises is then proved about that function.

## Where the code falls short of what is said of it

Each is a lemma with its exact condition, or with the input that shows it.

- One secret under both hashes loses the lender everything; only the last line of the deadline check
  forbids it (`LenderSafety.LenderIsWholeExactly`). A borrower is safe exactly with three habits that no
  leaf enforces (`BorrowerSafety.BorrowerIsWholeExactly`): to repay only a loan whose vault is there, to
  repay before the effective deadline, and to take the principal only with the claim margin before its
  refund. `cmd_btc_repay` in bin/pignus-cli checks neither of the first two, which the page does;
  `cmd_btc_claim_principal` and the page's `claimPrincipal` (web/btcborrow.js:667) check no height, and
  web/alerts.js:167-178 tells a borrower past the refund height that claiming still starts the loan. A
  careful lender has habits too: to claim before the effective deadline, and to pay only into a
  pre-vault that is confirmed and whose deadlines are judged again. On those bin/pignus-cli insists,
  short of `--force`.
- A comment in the rewind says that after one unanswered hash "the mismatch at the top is still there
  next poll" (pignus/watcher.py:541-546). It is so exactly when no block above was read
  (`Polling.SilenceKeeps`). Otherwise an offer that the replaced block ended, or moved to a coin the new
  chain does not spend, stays so for every later poll of that chain (`Runs.MissedForGood`), and a vault
  it closed stays closed unless its coin turns up unspent (`Runs.MissedCloseStays`).
- A backward search can close a vault in a block the forward scan has not reached. If that block is
  replaced and the last block scanned is not, nothing is taken back (`Polling.ClosedAheadStays`).
- A ghost is said to be an output the node does not know at all (pignus/watcher.py:1005-1009). The node
  also answers "not there" for a coin the mempool spends, so a funding that a reorg moved to another
  block is called a ghost while it is being spent (`Ghosts.GhostSound`, `Ghosts.MovedFundingGhosts`). And
  a funding recorded above a chain that was briefly shorter keeps its stale block
  (`Ends.FundingStandsExactly`), which later turns a vault spent in the chain into a ghost, with every
  question answered (`StaleFunding.SpentVaultIsGhost`).
- The browser passes over an attestation at another scale; the command line refuses the whole set for
  it, even when the others are enough (`Evidence.OtherScale`). They part exactly when the command line
  does not take every attestation served and what was served holds a choice for the browser
  (`Evidence.EvidenceAgrees`).
- Pruning credits the lots of old takes under the default lifetimes whatever lifetimes the lots are
  counted under (`Book.PruneVisible`).
- A set of one oracle is liquidated in the slot layout and read back in the layout of a loan that names
  its oracle by itself, so a proper seizure is reported as unverified (`Explain.SlotsReadBack`,
  `Explain.SeizureExplained`).

## What some functions promise only of the inputs they are given

Properties of a function alone: nothing in the repository builds the other inputs.

- The version 2 change does not notice a needed asset the wallet has no coin of
  (`Vault2.ChangeBalances`); coins are chosen to cover the need before it is called.
- Following a spend reads a closing repayment as a liquidation when another input reveals a beacon's
  recreate leaf (`Compose2.RepayReadBack`), and a payment beside a top-up as none
  (`Reconcile.DebtConserved`, `Reconcile.PaidBesideTopUp`); no composer here builds such a spend.
- A status the book does not know undoes the ratchet on a take (`Book.UnknownUnratchets`); every writer
  uses known ones.
- A serialised transaction with no input and one output is not read back (`Codec.MarkerMisread`);
  funding transactions have inputs.

## Model

| member | source | states |
|---|---|---|
| `Timelocks.TimelocksSane` | pignus/btc_collateral.py:485-588 | the list names exactly the problems the loan has at these tips, in the order they are looked for; a clock-valued deadline is reported with nothing but others; and it is empty exactly when, in blocks and seconds, every margin is left, the origination is whole or absent, the fee suffices and the secrets differ |
| `Timelocks.EachProblem` | pignus/btc_collateral.py:507-588 | each of the thirteen problems by the numbers that make it one |
| `Protocol.Gaps` | pignus/btc_collateral.py:444-475 | the gaps in seconds between the two chains that deadlines without a problem leave |
| `Protocol.PrincipalTaken` | pignus/btc_collateral.py:221-277 | every set of careful parties admits the opening in which the collateral waits and the principal is taken |
| `Spending.LeafRuns` | pignus/btcscript.py:265-294 | the scripts, run token by token, are satisfied by exactly one kind of witness each: the preimage and both signatures, the lender's and the oracle's, or one party's from its height on |
| `Spending.PrevaultSpends` | pignus/btc_collateral.py:250-280 | whatever script and path spends the pre-vault, it is the borrower's signature once it may be aborted, or both signatures and the preimage of `h_w` |
| `Spending.VaultSpends` | pignus/btc_collateral.py:150-175 | whatever spends the vault is the lender's signature from its timeout on, the lender's and the oracle's, or both parties' and the preimage of the payment hash |
| `Spending.ScriptsAreRules` | pignus/btc_collateral.py:150-280 | a party can witness a leaf of the protocol and have it mined if and only if it can make a transaction that the leaf's script accepts, final in the next block, from what it has |
| `LenderSafety.InvHolds` | pignus/btc_collateral.py:403-436 | an invariant of every run with a careful lender: `t` is shown only by a claim that cannot be beaten, the principal is spent soon after its deadline, and a claimed principal moves the collateral before an abort can be mined |
| `LenderSafety.NoLateAbort` | pignus/btc_collateral.py:425-441 | a lender who refunds and upgrades in time leaves no moment at which an abort of a claimed loan can be mined |
| `LenderSafety.LenderIsWhole` | pignus/btc_collateral.py:150-242 | in every run the borrower never ends with the principal and the aborted collateral, nor with the reclaimed collateral while the repayment is not the lender's |
| `LenderSafety.OneSecretLosesBoth` | pignus/btc_collateral.py:584-587 | with one secret under both hashes there is a run in which the lender loses principal and collateral |
| `LenderSafety.LenderIsWholeExactly` | pignus/btc_collateral.py:485-588 | over all runs a careful lender is whole if and only if the two hashes differ |
| `BorrowerSafety.InvHolds` | pignus/btc_collateral.py:343-362 | an invariant of every run with a careful borrower who has the three habits and no oracle co-signature: `w` is shown only by a claim that cannot be beaten, the vault opens only after it, and a claimed repayment releases the collateral before a sweep can be mined |
| `BorrowerSafety.NoLateSweep` | pignus/btc_collateral.py:617-627 | a borrower who reclaims within the margin always beats the lender's TIMEOUT |
| `BorrowerSafety.BorrowerIsWhole` | pignus/btc_collateral.py:150-215 | in every run of such a borrower the lender never ends with the repayment and the collateral, and collateral moves into the vault only for a principal that is the borrower's |
| `BorrowerSafety.RepayingEarlyLoses` | pignus/btc_collateral.py:1063-1070 | a borrower who repays before the vault exists can lose the repayment and the collateral |
| `BorrowerSafety.ClaimingLateLoses` | pignus/btc_collateral.py:221-277 | a borrower who takes the principal past its refund height can lose it after having shown `w` |
| `BorrowerSafety.RepayingLateLoses` | pignus/btc_collateral.py:617-627 | a borrower who repays when the sweep is open can lose the repayment and the collateral |
| `BorrowerSafety.BorrowerIsWholeExactly` | pignus/btc_collateral.py:485-588 | over all runs a borrower is whole if and only if the two hashes differ and the borrower waits for the vault, minds the claim margin and repays in time |
| `Confluence.MoveUndone` | pignus/watcher.py:568-612 | one more move of an offer is one more step of its descent, back to the same place |
| `Confluence.BranchReads` | pignus/watcher.py:626-711 | reading any branch gives each moved offer a trail of coins of its own, off which the index is untouched |
| `Confluence.BranchUndone` | pignus/watcher.py:568-612 | undoing a branch gives back every offer and the whole offer index |
| `Confluence.ReorgConfluence` | pignus/watcher.py:472-612 | reading branch A, undoing to the ancestor and reading branch B leaves every offer, the index and every vault's end in a block as reading B alone does |
| `Confluence.TwoOnOneCoin` | pignus/watcher.py:594-604 | one input's reading is taken back exactly, index and all, if and only if it does not move an offer to a coin the index has another on |
| `Confluence.VaultUndone` | pignus/watcher.py:568-593 | taking a branch back gives back a vault's end in a block, and a close seen only in the mempool exactly when the branch did not close the vault |
| `Confluence.TrimRestores` | pignus/watcher.py:614-624 | forgetting moves below a fork changes nothing of the descent to it |
| `Ends.FundingStandsExactly` | pignus/watcher.py:579-593 | after a rewind the record of a funding block is true if and only if it was not above the fork, or its height is still in the chain and its hash is given or unchanged |
| `Ends.EndsAgree` | pignus/watcher.py:626-645 | whoever knows the truth of one chain agrees on every end read from it |
| `Polling.DescentEnds` | pignus/watcher.py:522-548 | the descent over recorded heights ends on a block that both chains have |
| `Polling.RewindExactly` | pignus/watcher.py:502-553 | a watcher rewinds only if the block read last is known to be another or is above the tip, to the highest recorded block still there or as far as record and rescan depth go, unless the node is silent on the way |
| `Polling.RewoundFollows` | pignus/watcher.py:502-553 | after a rewind the watcher holds what the new chain says up to the fork, however long the chains are |
| `Polling.PollFollows` | pignus/watcher.py:472-494 | after a poll's scan the watcher holds what the node's chain says when the node said enough, and, tracking anything, only then |
| `Polling.SilenceKeeps` | pignus/watcher.py:535-546 | after an unanswered hash the mismatch is there for the next poll if and only if no block above was read, and then nothing changed |
| `Polling.ClosedAheadStays` | pignus/watcher.py:841-880 | a close found above the last block scanned outlives a reorg of its block that the scan does not notice |
| `Runs.FullPollHolds` | pignus/watcher.py:282-323 | a whole poll over any reorg, with any question about vaults unanswered, leaves the watcher holding what the chain says and able to rewind as far as its record goes |
| `Runs.FirstHolds` | pignus/watcher.py:472-479 | the first poll establishes it |
| `Runs.FallenBehind` | pignus/watcher.py:614-618 | a scan left further behind than the rescan depth forgets the block it stands on, and it is lost |
| `Runs.RunHolds` | pignus/watcher.py:282-323 | the same after any run of whole polls over any reorgs that fork above the lowest block on record |
| `Runs.HistoryIndependent` | pignus/watcher.py:282-323 | two watchers that stand at one height of one chain agree on every offer, the index and every end read from a block, whatever polls and branches each went through |
| `Runs.RunIsSound` | pignus/watcher.py:282-323 | after any such run a last poll that is fully answered leaves a vault seen unspent a ghost only if its funding is nowhere or the mempool spends it |
| `Runs.MissedForGood` | pignus/watcher.py:535-546 | one unanswered hash on the way down with a block readable above leaves an offer that is ended, or open on a coin the chain does not spend, where the replaced block took it, for every later poll of that chain by a watcher that tracks a vault |
| `Runs.MissedCloseStays` | pignus/watcher.py:968-1022 | a refresh leaves a vault closed by a replaced block as it is if and only if the close is as deep as the rescan, or the coin is spent and not by another transaction in the mempool |
| `Watcher.VaultWatcher.OfferSpent` | pignus/watcher.py:662-711 | an open offer's coin moves with its history and index entry, a closed one is left alone |
| `Scan.MovedExactly` | pignus/watcher.py:662-711 | a take with a remainder moves an open offer onto it at its value; one without ends it at nothing; the refund leaf withdraws it and any other spend ends it where it was |
| `Scan.LeafNamesExit` | pignus/watcher.py:647-658 | the leaf revealed names the exit of a vault with a leaf for each: repay, liquidate, default, recover, and nothing else |
| `Scan.SelectorNamesExit` | pignus/watcher.py:79-86 | the selector names the exit of a single-leaf vault: none repays, 01 liquidates, 02 defaults, and whatever else recovers |
| `Watcher.VaultWatcher.InspectTx` | pignus/watcher.py:626-645 | the inputs of a transaction are applied to the maps one after another |
| `Watcher.VaultWatcher.UndoAbove` | pignus/watcher.py:568-612 | the loops over vaults, offers and histories compute the undo of the whole state |
| `Watcher.VaultWatcher.RewindIfReorged` | pignus/watcher.py:502-553 | the whole state after the rewind, including when nothing is undone |
| `Watcher.VaultWatcher.ScanNewBlocks` | pignus/watcher.py:472-494 | the whole state after the forward half of a poll is the poll of the old state |
| `Watcher.VaultWatcher.RefreshVault` | pignus/watcher.py:968-1071 | one vault after its part of a poll, from what the node and the backward search said |
| `Ghosts.RefreshSeen` | pignus/watcher.py:987-1006 | a coin that is there opens its vault again, running once as deep as asked, with its block recorded |
| `Ghosts.RefreshClosed` | pignus/watcher.py:1016-1027 | a shallow close is changed only by another spend of the coin in the mempool |
| `Ghosts.RefreshMissing` | pignus/watcher.py:1029-1071 | a coin that is not there: closed by the mempool or the search, a ghost if its funding moved or was never deep, spent by what cannot be told if it was and the search is over, and else as it was |
| `Ghosts.RefreshLeaves` | pignus/watcher.py:979-1014 | a close as deep as the rescan, and a ghost whose coin is not there, are left |
| `Scan.VaultRestored` | pignus/watcher.py:569-593 | what taking a branch back does to one vault, and what it leaves |
| `Node.ReplacedExactly` | pignus/watcher.py:555-566 | a recorded block is given up only for an answer that names another, or when none was recorded |
| `Node.TxoutExactly` | pignus/watcher.py:412-428 | an output that is there is as deep as the block that made it; it is there exactly when it was made and neither chain nor mempool spends it |
| `Watcher.VaultWatcher.PollOnce` | pignus/watcher.py:282-323 | the whole state after a poll, the first or any later, is the full poll of the old state |
| `Watcher.VaultWatcher.ForgetBelow` | pignus/watcher.py:614-624 | the block hashes and the moves below a height are dropped, and nothing else |
| `Backward.Ration.WalkBack` | pignus/watcher.py:863-880 | what was read holds no spender but the one named; short of the floor the walk stopped only at a refused block; it reads something if anything is offered |
| `Backward.SearchAll` | pignus/watcher.py:327-346 | every open search goes on honestly within one ration, and with the blocks answered, unless all are over, the heights left to read strictly fall |
| `Backward.SearchesFall` | pignus/watcher.py:327-346 | over polls with rising tips each brings what is left to read down by at least one until nothing is |
| `Backward.SearchesEnd` | pignus/watcher.py:841-880 | after as many polls as there were blocks left to read every search has found its spender or read its window |
| `Backward.NeverTwice` | pignus/watcher.py:846-861 | over a whole search no height is read twice for a coin |
| `Backward.SearchExact` | pignus/watcher.py:841-880 | a finished search found nothing if and only if no block of the window spends the coin |
| `Ghosts.GhostSound` | pignus/watcher.py:968-1071 | a vault seen unspent and called a ghost has its funding nowhere if and only if no mempool transaction spends the coin; one newly called a ghost always has it nowhere |
| `Ghosts.RefreshKnows` | pignus/watcher.py:968-1071 | whatever goes unanswered, a refresh keeps what is known of a vault true of the chain |
| `Ghosts.SettledGhosts` | pignus/watcher.py:579-593 | a rewind makes a vault closed below the fork a ghost if and only if its funding record names a block above it that is not there |
| `StaleFunding.ARun` | pignus/watcher.py:282-323 | polls as `Runs.RunHolds` asks for them can be had |
| `StaleFunding.SpentVaultIsGhost` | pignus/watcher.py:555-593 | five fully answered polls, backward search included, after which a vault spent in the chain is a ghost |
| `Ghosts.MovedFundingGhosts` | pignus/watcher.py:579-593 | a funding moved to another block while the mempool spends the coin is called a ghost |
| `Vault2.Change` | pignus/vault2.py:590-601 | refuses exactly when a held asset runs short, else gives what is left of each asset in order |
| `Vault2.ChangeBalances` | pignus/vault2.py:590-601 | change and need are all the coins if and only if the wallet holds a coin of the needed asset or none is needed |
| `Vault2.FollowExactly` | pignus/vault2.py:907-947 | what each reading of a spend takes, output by output, and the debt and output that carry on from it |
| `Compose2.PlaceBeacons` | pignus/vault2.py:803-814 | the loop that puts each beacon at its place and fills between |
| `Compose2.WeaveLays` | pignus/vault2.py:803-814 | placing fails exactly for want of fillers |
| `Compose2.BeaconAt` | pignus/vault2.py:762-775 | the j-th beacon is two places after the one before, from the first on |
| `Compose2.FillerAt` | pignus/vault2.py:803-814 | every filler is used once and in order |
| `Compose2.RepayPays` | pignus/vault2.py:680-702 | when a repayment is composed; a closing one pays all the collateral to the borrower and another to the vault of the reduced debt, the lender gets what is repaid, and the rest is fee and change |
| `Compose2.TopUpPays` | pignus/vault2.py:705-718 | when a top-up is composed, and that the vault's script gets what it had and what is added |
| `Compose2.RecoverPays` | pignus/vault2.py:830-845 | when a recovery is composed, and that all the collateral goes to the lender |
| `Compose2.LiquidationComposed` | pignus/vault2.py:721-759 | when a liquidation under one oracle is composed |
| `Compose2.LiquidationPays` | pignus/vault2.py:721-759 | what is kept goes to the borrower if it closes and to the vault of what is owed if not, the seizure to the taker, what is repaid to the lender, the beacon where it was |
| `Compose2.ThresholdComposed` | pignus/vault2.py:762-827 | when a liquidation under several oracles is composed |
| `Compose2.ThresholdPays` | pignus/vault2.py:762-827 | it pays the same, and between the beacons only the taker, the change and the fee |
| `Compose2.RepayReadBack` | pignus/vault2.py:680-702 | following a composed repayment gives back its event and next state, a closing one exactly when no wallet input reveals a recreate leaf |
| `Compose2.TopUpReadBack` | pignus/vault2.py:705-718 | following a composed top-up gives back its event and state |
| `Compose2.RecoverReadBack` | pignus/vault2.py:830-845 | following a composed recovery gives back its event |
| `Compose2.LiquidationReadBack` | pignus/vault2.py:721-759 | following a composed liquidation or call gives back its event and next state exactly when it does not close paying the seizure to the vault's own script |
| `Compose2.ThresholdReadBack` | pignus/vault2.py:762-827 | the same for several oracles, and the j-th beacon coin is input j and output 2j |
| `Compose2.RepayBalances` | pignus/vault2.py:680-702 | a composed repayment balances in every asset if and only if the wallet has a coin of what it pays in |
| `Compose2.TopUpBalances` | pignus/vault2.py:705-718 | the same for a top-up |
| `Compose2.LiquidationBalances` | pignus/vault2.py:721-759 | the same for a liquidation |
| `Compose2.ThresholdBalances` | pignus/vault2.py:762-827 | the same however many beacons are woven in |
| `Reconcile.Chain.Where` | pignus/watcher2.py:91-118 | a transaction not mined again more than ten blocks below where it was seen is found exactly when it is in the view; any other is lost |
| `Reconcile.Chain.Spender` | pignus/watcher2.py:149-163 | finds a spend exactly when there is one from the height on or in the mempool |
| `Reconcile.PathUnique` | pignus/watcher2.py:185-252 | a view has one spend path from an opening coin |
| `Reconcile.BelowNewest` | pignus/watcher2.py:195-206 | the newest step in the view puts every step in it, though only that one is looked for |
| `Reconcile.Loan.Undo` | pignus/watcher2.py:195-206 | what is left is a line all of it in the view, and nothing exactly when no step of the line is found |
| `Reconcile.Loan.Advance` | pignus/watcher2.py:219-240 | the line grows to the end of the spend path, by sixty-four steps at most |
| `Reconcile.Loan.ReconcileLoan` | pignus/watcher2.py:185-252 | from any line read earlier and over any reorg, the line is the spend path of the view unless more than sixty-four steps long, and empty exactly when neither the opening nor any step is found |
| `Reconcile.StateExactly` | pignus/watcher2.py:186-247 | the state of a loan by its newest step: gone, open in a block or in the mempool, or ended by the event that closed it |
| `Reconcile.SearchedHeights` | pignus/watcher2.py:112-118 | a step is searched for from ten blocks below where it was last seen, or below the tip |
| `Reconcile.DebtConserved` | pignus/vault2.py:907-947 | along a line the opening debt is at most the debt now and everything paid to the lender, and equal if and only if no top-up pays the lender beside it |
| `Reconcile.PaidBesideTopUp` | pignus/vault2.py:930-932 | a top-up that pays the lender thirty leaves the debt as it was |
| `Reconcile.ClosedIsPaid` | pignus/vault2.py:938-944 | a loan closed as repaid or liquidated was paid at least what it owed |
| `Exits.ChangePy` | pignus/vault.py:452-487 | refuses exactly when a need is not covered, else change with the fee asset's dust folded into the fee |
| `Exits.ChangeJs` | web/flows.js:53-71 | the browser's change is the command line's |
| `Exits.ChangeAll` | pignus/vault.py:749-784 | change, the fee paid and what was needed are all the coins, in every asset, also when the fee is in an asset already needed |
| `Exits.FundedExactly` | pignus/vault.py:452-488 | enough was brought if it covers every need, the fee on top of that in its own asset |
| `Exits.ChangeGoes` | pignus/vault.py:452-488 | change goes to the change script, one output for an asset, none of them dust in the fee's asset, and no more than dust goes to the fee |
| `Exits.SeizurePy` | pignus/vault.py:313-377 | the command line's seizure at a given price, with its refusals |
| `Exits.SeizureJs` | web/flows.js:562-632 | from the same coins and price the browser's seizure has the same outputs and refusals |
| `Evidence.EvidencePy` | pignus/vault.py:203-296 | nothing if any attestation served is at another scale, at no price or of another feed; else the cheapest choice, if there is one |
| `Evidence.EvidenceJs` | web/flows.js:459-526 | the cheapest choice among those at the scale and signed under the loan's feed, if there is one at a price |
| `Evidence.EvidenceAgrees` | web/flows.js:459-526 | the two refuse together and choose one price if and only if the command line takes every attestation served, or no slots fit among those at the scale and signed under the loan's feed, or some that fit are all at a price of zero |
| `Evidence.ComposedExactly` | web/flows.js:459-526 | the browser composes if and only if what was served holds a choice: some slots fit, and none that fit are all at a price of zero |
| `Evidence.OtherScale` | pignus/vault.py:203-239 | two of three good attestations and a third at another scale: refused by one, composed by the other |
| `Evidence.SeizuresAgree` | web/flows.js:509-634 | from attestations the command line takes, and the same coins, both compose the same outputs and refuse alike |
| `Evidence.LiquidatePy` | pignus/vault.py:298-377 | evidence and seizure together, on the command line |
| `Evidence.LiquidateJs` | web/flows.js:509-634 | evidence and seizure together, in the browser |
| `Evidence.SinglesAgree` | pignus/vault.py:276-296 | for one oracle the two agree if and only if the attestation is labelled with the loan's feed and market, or it is at another scale, early, not under the strike for a liquidation, not signed under the loan's feed or at no price |
| `Exits.SeizureBalances` | pignus/vault.py:313-377 | every seizure balances in every asset, the fee included, whatever asset it is in |
| `Exits.SeizureFits` | pignus/vault.py:313-377 | the lender gets the debt at output 0, the borrower at output 1 what is not seized, raised to the dust limit only in the asset of the fee, and the taker the rest at output 2; under water the taker gets all of it and output 1 carries no collateral; the rest is change and the fee |
| `Exits.SeizureComposed` | pignus/vault.py:313-377 | when a seizure is composed: the vault holds its collateral, the debt and the fee were brought, nobody is left dust, and under water something is there for output 1 |
| `Exits.RepayFits` | pignus/vault.py:183-201 | when a repayment is composed; it balances, credits the lender and sends all the collateral home, and the rest is change and the fee |
| `Exits.TakeFits` | pignus/vault.py:833-882 | a take balances, opens the vault at output 0, leaves at output 1 the offer's rest or no debt asset, pays the borrower the principal at output 2, and the rest is change and the fee |
| `Exits.TakeComposed` | pignus/vault.py:833-882 | when a take is composed: a whole principal is there, collateral and fee were brought, and the last draw leaves something for output 1 |
| `Exits.ChangeTwice` | pignus/vault.py:749-784 | change left first and folded afterwards is change folded as it comes |
| `Exits.TakePy` | pignus/vault.py:833-882 | the command line's take, with its refusals |
| `Exits.TakeJs` | web/flows.js:309-358 | from the same coins the browser's take has the same outputs and refusals |
| `Exits.SweepFits` | pignus/vault.py:379-398 | when a recovery or a withdrawal is composed; it balances, pays the whole coin at output 0, and the rest is change and the fee |
| `Exits.LenderSweeps` | pignus/vault.py:885-902 | a recovery and a withdrawal both pay the lender, and only a recovery asks for the whole collateral |
| `Exits.RecoverPy` | pignus/vault.py:379-398 | the command line's recovery, with its refusals |
| `Exits.WithdrawPy` | pignus/vault.py:885-902 | the command line's withdrawal of an offer, with its refusals |
| `Explain.ThresholdData` | web/flows.js:496-507 | the witness data of the slots, the last key's first |
| `Explain.ReadAttestations` | pignus/watcher.py:1152-1192 | the rows read out of a witness, in either layout |
| `Explain.SlotsReadBack` | pignus/watcher.py:1182-1192 | slots read back as they were meant if and only if the set has more than one oracle |
| `Explain.ReadPayouts` | pignus/watcher.py:1194-1260 | what the outputs paid, what was expected and what is wrong, for every exit |
| `Explain.PayoutsSaid` | pignus/watcher.py:1194-1260 | what is reported as paid to the lender and the borrower is what outputs 2k and 2k+1 pay them, and the seizure is the rest of the collateral |
| `Explain.PayoutsExpected` | pignus/watcher.py:1194-1260 | a repayment is expected to return all the collateral, a seizure what its price does not take, and without a price nothing is |
| `Explain.PayoutProblems` | pignus/watcher.py:1194-1260 | which payout is called wrong, and when a sweep is |
| `Explain.ExplainExit` | pignus/watcher.py:1075-1150 | the whole explanation of an exit, with its problems in order |
| `Explain.EvidenceSaid` | pignus/watcher.py:1107-1150 | which evidence is called wrong: a signature that fails, one from too early, too few, no price, a price not under the strike |
| `Explain.NoProblemExactly` | pignus/watcher.py:1075-1260 | an exit has no problem if and only if enough signers verify, nothing presented fails or is early, a liquidation is under the strike, and lender and borrower got what the highest verified price buys |
| `Explain.ExitNamed` | pignus/watcher.py:647-658 | behind any evidence an exit taken by its leaf, or through a single leaf by its selector, is named and leaves the evidence |
| `Explain.SeizureExplained` | pignus/vault.py:313-377 | every composed seizure, from any qualifying choice of attestations, is named and explained without a problem at its price, except for a set of one oracle, where it never is |
| `Explain.RepayExplained` | pignus/vault.py:183-201 | a composed repayment is explained without a problem |
| `Explain.RecoverExplained` | pignus/vault.py:379-398 | a composed recovery is explained without a problem |
| `Adaptor.EncryptSign` | pignus/adaptor.py:165-212 | signs with the first usable nonce of 256, and fails exactly when none is |
| `Adaptor.SignedVerifies` | pignus/adaptor.py:215-243 | what is signed verifies, for keys of either parity |
| `Adaptor.DecryptVerifies` | pignus/adaptor.py:246-253 | an encrypted signature verifies if and only if its final nonce is even and the secret, of either parity, completes it to one that verifies |
| `Adaptor.ExtractFinds` | pignus/adaptor.py:256-271 | any verifying signature under that final nonce gives up the adaptor scalar |
| `Adaptor.RoundTrip` | pignus/adaptor.py:246-271 | extracting what was decrypted gives a scalar of the secret's point |
| `Adaptor.SignVerifies` | pignus/adaptor.py:274-293 | plain signatures verify, for keys and nonces of either parity |
| `Adaptor.VerifyExactly` | pignus/adaptor.py:274-293 | a signature is accepted if and only if key and nonce are coordinates, the scalar is below the order and it is the nonce and the challenge's share of the key |
| `Adaptor.EncryptVerifyExactly` | pignus/adaptor.py:215-243 | the same of an encrypted signature, under the challenge of the nonce with the point added |
| `Adaptor.DecryptRefuses` | pignus/adaptor.py:246-253 | what cannot be decrypted |
| `Dlc.AttestationOpens` | pignus/dlc.py:68-122 | the attestation of an announced outcome opens its announced point unless it is zero |
| `Dlc.VerifyCets` | pignus/dlc.py:248-283 | a set is accepted if and only if it is one's own set, outcome by outcome, every signature under its outcome's point |
| `Dlc.SetCompletes` | pignus/dlc.py:286-314 | once a set is accepted, the attestation of any outcome of one's own set completes that outcome's transaction to a settle witness that satisfies both checks, for either party |
| `Dlc.OnlyItsOutcome` | pignus/dlc.py:96-103 | a scalar that does not open the agreed point decrypts to a signature under another nonce; that verifies, if the nonce is even, exactly when the challenge is the one agreed to, and if not, exactly for one other challenge |
| `Dlc.PriceBuckets` | pignus/dlc.py:127-145 | the edges of the buckets |
| `Dlc.OneBucket` | pignus/dlc.py:148-152 | every price is in exactly one bucket: one that has its lower edge and not its upper, all as wide but the last |
| `Taproot.ScriptNumBytes` | pignus/btcscript.py:248-262 | the bytes of a script number |
| `Taproot.ScriptNumRead` | pignus/btcscript.py:248-262 | every integer is read back from its script form |
| `Taproot.ScriptRead` | pignus/btcscript.py:217-238 | a script reads back as the opcodes and pushes it was written from |
| `Taproot.BuildTree` | pignus/btcscript.py:138-155 | the root and the path of each leaf of a tree |
| `Taproot.PathFolds` | pignus/btcscript.py:161-165 | every leaf's path folds to the root, for any number of leaves |
| `Taproot.OnlyLeaves` | pignus/btcscript.py:126-155 | whatever folds to the root is one of the leaves, by its own path |
| `Taproot.PrevaultIsTerms` | pignus/btc_collateral.py:250-280 | two pre-vault scripts are equal if and only if hash, keys and abort height are |
| `Taproot.FundingIsTerms` | pignus/btc_collateral.py:150-175 | two vault scripts are equal if and only if payment hash, three keys and timeout are |
| `Codec.ParseTxOutputs` | web/btc.js:195-228 | the cursor reads what the bytes say, and stops where a length runs off the end |
| `Codec.CompactExactly` | web/btc.js:195-228 | which bytes give no length, and what the others give |
| `Codec.ParseUndoesSerialize` | web/btc.js:52-72 | the outputs are read back, with or without witnesses, unless there is no input and exactly one output |
| `Codec.MarkerMisread` | web/btc.js:195-198 | with no input and one output that pays any script, at any amount, the output is not what is read |
| `TxBytes.ReadUndoesSerialize` | web/btc.js:52-72 | a reader of the whole format gives back every field: version, inputs, outputs, witnesses and lock time |
| `Codec.FindOutput` | web/btc.js:236-243 | the first output paying a script an amount is found exactly when there is one |
| `Pset.BuildPset` | web/pset.js:149-196 | the bytes are the magic and one map for the transaction, each input and each output |
| `Pset.DumpMaps` | tests/_psetprobe.py:30-46 | the index reads what the bytes say |
| `Pset.DumpUndoesSer` | tests/_psetprobe.py:30-46 | whatever maps are written are read back |
| `Pset.DumpUndoesBuild` | web/pset.js:149-196 | reading a built PSET gives exactly one map each for the transaction, every input and every output, with the pairs written |
| `PsetFields.PsetRead` | web/pset.js:149-196 | read by the key types of the format, a built PSET says what it was built from: the transaction's fields, every input with its coin and witness, and every output |
| `Terms.SeizureSafe` | pignus/terms.py:95-123 | at every price a loan can close at the arithmetic stays in 64 bits, the seizure is the least that covers debt and bonus and is worth the debt, and the borrower keeps the rest |
| `Terms.SeizureFalls` | pignus/terms.py:232-238 | a higher price never seizes more |
| `Terms.SelectThreshold` | pignus/oracle.py:267-307 | selects exactly when enough attestations are usable, as many as the threshold, at the lowest price any choice can be presented at |
| `Terms.LiquidatableSlots` | pignus/oracle.py:310-323 | succeeds exactly when enough usable attestations are under the strike, at the least highest price of all choices |
| `AttestationLog.LogFile.Bisect` | pignus/oracle.py:904-930 | ends on a line start that is past no line of the time asked for, whatever lines do not parse |
| `AttestationLog.LogFile.ScanPage` | pignus/oracle.py:942-976 | one page of the window, and the byte where the next starts |
| `AttestationLog.CursorLands` | pignus/oracle.py:954-960 | the cursor a page hands on begins the next page at its own line, and no other |
| `AttestationLog.PagingExact` | pignus/oracle.py:932-976 | following the cursors yields exactly what the whole file holds, in order, once each, for every page size |
| `AttestationLog.WindowExactly` | pignus/oracle.py:932-976 | what the whole file holds for a query is the lines of the market and the times asked for, in order |
| `AttestationLog.HandsOn` | pignus/oracle.py:971-975 | a cursor is handed on exactly from a full page, to the line after its last |
| `RateLimit.WindowBound` | pignus/ratelimit.py:36-51 | in any window a key is allowed at most a burst and the window's refill |
| `RateLimit.AllowsExactly` | pignus/ratelimit.py:36-51 | a request is allowed if and only if a whole token is there, of those left and those gained since |
| `RateLimit.BurstExactly` | pignus/ratelimit.py:36-51 | of a new client's requests at one moment as many are allowed as there are whole tokens in a burst |
| `RateLimit.RateLimiter.Allow` | pignus/ratelimit.py:36-82 | answers as a limiter that never forgets until the cap is first exceeded, and holds at most the cap after every call |
| `RateLimit.RateLimiter.Evict` | pignus/ratelimit.py:53-82 | afterwards the map is within the cap, and none that went was seen later than one that stayed |
| `Book.CrossChainBook.LotsLeft` | pignus/book.py:662-677 | one offer's lots less those given up and those held |
| `Book.HoldsExactly` | pignus/book.py:81-100 | which takes hold a lot, and for how long |
| `Book.CrossChainBook.LotsLeftAll` | pignus/book.py:645-660 | the one pass over the takes gives every offer what its own scan gives |
| `Book.CrossChainBook.Prune` | pignus/book.py:927-1000 | which takes go and what each kept offer is credited; an offer goes if and only if it is dead, was last touched longer ago than the age, and no take that is kept names it |
| `Book.PrunableExactly` | pignus/book.py:961-974 | which takes are forgotten, by status and age |
| `Book.PruneInvisible` | pignus/book.py:961-980 | pruning leaves every kept offer's lots left unchanged under lifetimes it is harmless for |
| `Book.PruneVisible` | pignus/book.py:961-980 | under any other lifetimes some book shows it |
| `Book.CrossChainBook.ForwardOnly` | pignus/book.py:827-861 | which fields are kept |
| `Book.CrossChainBook.UpdateTake` | pignus/book.py:869-912 | when a report is refused, and the take after it when it is not |
| `Book.ForwardMoves` | pignus/book.py:827-912 | what is forwarded is never refused and keeps every fact |
| `Book.RankNeverFalls` | pignus/book.py:817-912 | over any run of reports an ended take stays ended, and with known statuses its rank never falls |
| `Book.MovesExactly` | pignus/book.py:817-912 | a status is refused if and only if it leaves an end or is an earlier step of the eight |
| `Book.LotStaysHeld` | pignus/book.py:803-816 | once the principal is paid no report with a known status frees the lot, unless the take ends |
| `Book.UnknownUnratchets` | pignus/book.py:863-867 | through an unknown status a take goes from any step to any other |

## Left out

- Chains in the loan protocol advance at exactly ten minutes and one minute a block and do not reorganise; fees, replacement, several payments to one address and origination without a pre-vault are left out.
- SEIZE is a leaf that needs the lender and the oracle; whether the oracle should sign is not modelled, and the borrower's theorem is for an oracle that does not.
- Protocol.Prompt: bounds a careful party's reactions and confirmations by the margins the deadlines leave.
- The watcher's offers leave out confirmation counts, the refresh of offers and moves seen only in the mempool; records are values in the class's maps, so aliasing of a record is not captured.
- Confluence.ReorgConfluence: for branches that move no offer to a coin another tracked offer rests on, and no two to one coin, as the runs of `Runs.RunHolds`, `Runs.HistoryIndependent` and `Runs.RunIsSound` are; `Confluence.TwoOnOneCoin` is what happens otherwise.
- Watcher.VaultWatcher.PollOnce: what the backward searches of a poll come back with is an input, honest as `Backward.SearchAll` has it; `Backward.Ration` starts a poll with nothing fetched, where the source also has the blocks the scan read. The refresh of offers is left out.
- Polling.PollFollows: the converse is for a watcher with something to track, and says nothing of the records of fundings and closes above the last block that stays, whose own conditions are `Ends.FundingStandsExactly` and `Polling.ClosedAheadStays`.
- Runs.FullPollHolds: every poll of a run hears what `Polling.PollFollows` says it must; chains fork above the lowest block on record, below which nothing can be rewound.
- Runs.HistoryIndependent: what is remembered of an offer's moves and a vault's display before its end are not compared. Tracking more vaults or offers between polls is not part of a run.
- Backward.SearchesEnd: for the searches open at the start, over tips that do not fall. The mempool, which is asked before the blocks, is not part of a search; what it answers is in `Ghosts`.
- Watcher rescans asked for by an operator and alerts are left out.
- Explain.SeizureExplained: for a spend whose vault is its first input, as every composer's is; whether a signature verifies is a parameter. Identifiers and terms that an explanation only repeats are left out.
- Reconcile.Loan.ReconcileLoan: steps are compared but for where they were last seen; a transaction identifier fixes the whole transaction, witness included. Offers of version 2 are left out.
- The version 2 covenant's own ruling on a liquidation is not part of this model; a liquidation is taken to repay something, seize no more than there is and be later than the vault's last. The largest liquidation the rule allows is left out with it.
- Compose2.RecoverReadBack: the fee output's empty script is taken not to be the lender's.
- Evidence.EvidenceAgrees: for attestations whose own feed and market labels agree, each at some scale, as both programs' records have them. Ties between equal prices may be broken differently.
- Exits.SeizureJs: takes the coins already gathered and the dust threshold as given; the page fails when the fee is in the collateral asset and no threshold is passed. Signing is left out.
- Adaptor.EncryptSign: a final nonce at infinity is not usable; the hash functions are arbitrary functions.
- Dlc.VerifyCets: is given one's own set; the form without it checks less. The split of the collateral at a price is left out.
- Taproot.FundingIsTerms: digests are the terms hashed, and the output key is the tree; collisions of hashes or of tweaked keys are outside the model. So is the covenant builder of the repayment and disbursement outputs.
- Spending.ScriptsAreRules: for the leaves on Bitcoin, with heights for lock times and three different keys; the evaluator knows the opcodes of these leaves, a signature is one of the transaction at hand, and sequence numbers are taken to leave the lock time in force.
- Codec.ParseUndoesSerialize: counts and lengths below 2^32. Pset: base64 and hexadecimal are left out.
- AttestationLog.LogFile.Bisect: a part of a line never parses. Following, rotation and digests of the log are left out.
- RateLimit: times and tokens are reals; rounding is left out.
- Terms.SelectThreshold: one attestation per slot; keys are matched and signatures judged before it.
- Book: locks, persistence, markets, version 1 and version 2 records, and the insertion of a take with its claims on a lot, a commitment and an outpoint are left out.
- RPC, HTTP, wallets, file locking and text for people are left out.
