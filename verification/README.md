# Token Hold'em: a verified model

The program lets two to six players play no-limit hold'em without a house. Each player's device keeps its own copy
of the hand, signs its own actions, checks everyone else's, and signs the final receipt. This project models three
parts of it in Dafny and proves what they promise.

**The hand** (`Stakes`, `Holdem`, `Books`, `Betting`, `Runs`, `SidePots`, `Showdowns`, `OrphanedHand`, `HoldemHand`).
Blinds, turns, full and short raises, run-outs, side pots and odd chips. In every run of attempted actions an action is
accepted exactly if it is legal, raise rights follow the re-opening rule, chips are conserved, and the hand ends within
a bounded number of actions. "Every showdown settles" is false of the program: two players can build a side pot behind
two all-in players and both fold, and the showdown is then refused. `Showdowns.ShowdownSettles` gives the exact
condition, and `OrphanedHand` plays such a hand from the deal.

**The replicated log and the receipt** (`Bytes`, `BettingBytes`, `Receipts`, `Consensus`, `ActionLog`, `LogInvariant`,
`Replication`, `Agreement`, `AgreedReceipts`, `ShownHands`, `Progress`, `SettledHands`, `ActiveHand`, `HandHandlers`,
`Encodings`, `Statistics`). Any set of seats follows the code; the others and the network do anything except sign with a
code-following device. `Agreement.After` is the state after any sequence of events, and the predicate `Holds`, which the
other results assume, is part of its contract. The steps of a handler are separate events, so that every run of the
program is a run of the model. An orphaned pot shows here too: `ShownHands.OrphanedNeverSettled` says that such a hand
stays open for good at every player who follows the code.

**The table between hands** (`Membership`, `HandRoster`, `Journal`, `Attach`). Seats and waiting list at a hand
boundary, the dealer button over runs of hands, and the event journal with clients that attach to it while events are
being published.

Amounts are 64-bit in the program. The model uses natural numbers and writes the checks out; a level whose full table
does not fit 64 bits is excluded by `FitsChips`, which all public levels satisfy. Player names and keys are 32-byte
strings compared as numbers. What the program changes in place is a class (`HoldemHand`, `ReceiptConsensus`,
`ActiveHand`, `EventJournal`) whose methods are proved equal to functions on values, and most results are about those
functions; `HandHandlers` states the invariant of a replica on the object itself. Lemmas switch automatic induction off
and hide definitions they do not need, which keeps each proof small.

`dafny verify dfyconfig.toml` checks the project.

## Model

| member | source | states |
|---|---|---|
| `Stakes.NewStakeLevel` | crates/token-holdem-domain/src/table.rs:101-134 | a level is accepted exactly if it is named and its blinds, buy-ins and player numbers are in order |
| `Stakes.PublicLevelsFit` | crates/token-holdem-domain/src/table.rs:67-88 | every public level is valid, seats six, and a full table of its stacks fits 64 bits |
| `Runs.DealAwaits` | crates/token-holdem-domain/src/holdem.rs:296-350 | a hand starts exactly for a proper number of distinct players with stacks in range and an existing dealer, and then awaits its first action with everyone holding raise rights |
| `Runs.BlindsPosted` | crates/token-holdem-domain/src/holdem.rs:323-350 | after the deal every seat has its buy-in less its blind, and the bet is the big blind |
| `Runs.BlindsInOrder` | crates/token-holdem-domain/src/holdem.rs:708-718 | small blind, big blind and first player sit in a row; heads-up the dealer posts the small blind |
| `Holdem.ClockwiseIsRemainder` | crates/token-holdem-domain/src/holdem.rs:758-762 | going round the table by wrapping once is the remainder the program computes |
| `Betting.ActSound` | crates/token-holdem-domain/src/holdem.rs:421-468 | in every awaiting hand an action is accepted exactly if it is legal; a refused one changes nothing and is never refused for an overflow or a broken invariant; an accepted one leads to an awaiting hand, a proper showdown or a settled hand |
| `Betting.PerformIffLegal` | crates/token-holdem-domain/src/holdem.rs:430-454 | each kind of action performs exactly if it is legal for the player whose turn it is |
| `Betting.PerformKeepsBetting` | crates/token-holdem-domain/src/holdem.rs:421-454 | chips, bets, pending players and raise rights stay consistent through every accepted action |
| `Betting.NextPendingIsNearest` | crates/token-holdem-domain/src/holdem.rs:758-762 | the next player is the nearest pending seat clockwise |
| `Betting.ActPassesClockwise` | crates/token-holdem-domain/src/holdem.rs:456-467 | the turn passes to the nearest player clockwise who still has to act |
| `Betting.AdvanceStreetRests` | crates/token-holdem-domain/src/holdem.rs:616-643 | a closed round comes to rest at a street where two can bet or at the showdown, without moving a chip |
| `Betting.ClosedRoundLevels` | crates/token-holdem-domain/src/holdem.rs:456-467 | when a round closes, every player who can still bet has committed the largest total of any seat |
| `Betting.UncontestedSettles` | crates/token-holdem-domain/src/holdem.rs:645-656 | the last contender takes the whole pot and the books balance, so the zero-sum check never fires |
| `Runs.ActKeepsRights` | crates/token-holdem-domain/src/holdem.rs:564-614 | an active player holds raise rights exactly if they have not acted since the street opened or the last full raise, or face at least a full raise |
| `Runs.ShortRaiseKeepsRights` | crates/token-holdem-domain/src/holdem.rs:601-612 | an all-in below a full raise reopens the betting only to players who now face a full raise in all |
| `Runs.FullRaiseResetsRights` | crates/token-holdem-domain/src/holdem.rs:595-600 | a full raise gives everyone else who can bet a new turn and the right to raise |
| `Runs.ActBurns` | crates/token-holdem-domain/src/holdem.rs:421-468 | every accepted action that keeps the hand open lowers a measure of pending players, re-openings and room to raise by a big blind |
| `Runs.Play` | crates/token-holdem-domain/src/holdem.rs:421-468 | every state of every run, whoever attempts whatever, satisfies the betting invariant, the raise-rights rule and the measure |
| `Runs.HandsEnd` | crates/token-holdem-domain/src/holdem.rs:421-468 | every hand takes a bounded number of accepted actions, with the bound in chips |
| `Runs.PublicHandsEnd` | crates/token-holdem-domain/src/holdem.rs:421-468 | at the public tables no hand takes more than 660 accepted actions |
| `Runs.TimeoutAccepted` | crates/token-holdem-sidecar/src/hand_runtime.rs:1199-1225 | folding is always accepted, and so is the action chosen from the amount to call when time runs out |
| `SidePots.LayerHolds` | crates/token-holdem-domain/src/holdem.rs:511-530 | what a layer takes from each contributor is exactly what the seats committed between its two thresholds |
| `SidePots.AwardSplitPays` | crates/token-holdem-domain/src/holdem.rs:658-674 | a split pays out exactly its pot, in equal shares, and the odd chips go one each to the winners nearest the dealer's left |
| `SidePots.OddChipsFromTheLeft` | crates/token-holdem-domain/src/holdem.rs:664-673 | no winner with an odd chip sits further round the table than one without |
| `SidePots.StrongestIsGreatest` | crates/token-holdem-domain/src/holdem.rs:549-558 | a layer goes to the eligible players with the greatest rank |
| `SidePots.ContestedLayerPays` | crates/token-holdem-domain/src/holdem.rs:549-558 | a contested layer pays its winners, and only them, exactly its chips |
| `SidePots.RefundedLayerPays` | crates/token-holdem-domain/src/holdem.rs:536-548 | a layer without an eligible player goes back to its only contributor |
| `SidePots.OrphanedLayerFails` | crates/token-holdem-domain/src/holdem.rs:536-545 | a layer without an eligible player and with several contributors is refused |
| `SidePots.LayersSettle` | crates/token-holdem-domain/src/holdem.rs:511-562 | layer after layer the whole pot is paid out, and each seat gets what its layers entitle it to |
| `SidePots.RankPaid` | crates/token-holdem-domain/src/holdem.rs:511-562 | contenders with equal hands together get exactly the layers they reach above the largest commitment of a contender who beats them |
| `SidePots.LayersFail` | crates/token-holdem-domain/src/holdem.rs:511-562 | with two folded seats ahead of every contender the layers always fail, after exactly the layers up to the largest commitment of a contender have been paid out |
| `Showdowns.ShowdownSettles` | crates/token-holdem-domain/src/holdem.rs:511-562 | a showdown settles if and only if no two folded seats committed more than every contender; then stacks sum to starting stacks, a strictly best hand gets the sum of min(own, other) over all seats, nobody gets more than that, equal hands together get exactly the layers above what beats them, a contender beaten by someone who committed as much gets nothing, and a folded seat is paid only its excess over the largest other commitment; a refused showdown keeps the layers already paid out |
| `Showdowns.ShowdownOfCards` | crates/token-holdem-domain/src/holdem.rs:470-510 | missing hole cards and duplicate cards are refused with the hand unchanged; otherwise the ranks of the cards decide as above |
| `Showdowns.ActiveContenderSettles` | crates/token-holdem-domain/src/holdem.rs:456-467 | with a contender who is not all-in every layer has an eligible winner |
| `OrphanedHand.ReachShowdown` | crates/token-holdem-domain/src/holdem.rs:421-468 | six legal actions lead to a showdown with two folded seats ahead of both contenders |
| `OrphanedHand.ShowdownCanFail` | crates/token-holdem-domain/src/holdem.rs:536-545 | that showdown cannot be settled, whatever the ranks |
| `Books.DeltasAreStackChanges` | crates/token-holdem-domain/src/holdem.rs:685-706 | the deltas of a settlement sum to the change of all stacks |
| `HoldemObject.HoldemHand.Start` | crates/token-holdem-domain/src/holdem.rs:296-350 | the object starts in the state the deal describes, or not at all with the same error |
| `HoldemObject.HoldemHand.Act` | crates/token-holdem-domain/src/holdem.rs:421-468 | the object after an action is the value the betting rules describe, and unchanged after a refusal |
| `HoldemObject.HoldemHand.Perform` | crates/token-holdem-domain/src/holdem.rs:430-454 | the four kinds of action on the seats in place |
| `HoldemObject.HoldemHand.RaiseTo` | crates/token-holdem-domain/src/holdem.rs:564-614 | a raise in place, with its refusals in the same order |
| `HoldemObject.HoldemHand.ReopenForShortRaise` | crates/token-holdem-domain/src/holdem.rs:602-611 | the loop over the seats reopens exactly the players behind the short raise |
| `HoldemObject.HoldemHand.PassTurn` | crates/token-holdem-domain/src/holdem.rs:456-467 | last contender, closed round or next player, in place |
| `HoldemObject.HoldemHand.AdvanceStreet` | crates/token-holdem-domain/src/holdem.rs:616-643 | the run-out to the next street with two who can bet, or to the showdown |
| `HoldemObject.HoldemHand.ClearStreetCommitments` | crates/token-holdem-domain/src/holdem.rs:628-630 | the loop clears every street commitment and nothing else |
| `HoldemObject.HoldemHand.Commit` | crates/token-holdem-domain/src/holdem.rs:720-738 | chips move from stack to pot, an empty stack is all-in |
| `HoldemObject.HoldemHand.ConsumeAction` | crates/token-holdem-domain/src/holdem.rs:745-748 | the player leaves both the pending set and the raise rights |
| `HoldemObject.HoldemHand.ResetPendingForStreet` | crates/token-holdem-domain/src/holdem.rs:740-743 | everyone who can bet is pending and may raise |
| `HoldemObject.HoldemHand.Award` | crates/token-holdem-domain/src/holdem.rs:676-683 | one award in place |
| `HoldemObject.HoldemHand.AwardEach` | crates/token-holdem-domain/src/holdem.rs:661-672 | the loop of equal awards |
| `HoldemObject.HoldemHand.AwardSplit` | crates/token-holdem-domain/src/holdem.rs:658-674 | shares and odd chips in place |
| `HoldemObject.HoldemHand.FinishUncontested` | crates/token-holdem-domain/src/holdem.rs:645-656 | the pot to the last contender in place |
| `HoldemObject.HoldemHand.SettleShowdown` | crates/token-holdem-domain/src/holdem.rs:470-510 | the checks on the cards, then the settlement |
| `HoldemObject.HoldemHand.SettleRanked` | crates/token-holdem-domain/src/holdem.rs:511-562 | the loop over the layers of the pot |
| `HoldemObject.HoldemHand.SettleLayer` | crates/token-holdem-domain/src/holdem.rs:517-559 | one layer in place |
| `BettingBytes.ReadsView` | crates/token-holdem-domain/src/holdem.rs:394-419 | the public bytes of a hand can be read back |
| `BettingBytes.SameBytesSameHand` | crates/token-holdem-domain/src/holdem.rs:394-419 | two hands with the same public bytes differ at most in the buy-in and player limits of their level |
| `BettingBytes.ActIgnoresLimits` | crates/token-holdem-domain/src/holdem.rs:421-468 | no action depends on those limits |
| `BettingBytes.SameBytesSameReplies` | crates/token-holdem-domain/src/holdem.rs:394-419 | two hands with the same public bytes accept the same actions with the same outcomes in every continuation |
| `BettingBytes.AwaitingInRange` | crates/token-holdem-domain/src/holdem.rs:394-419 | every hand in play is within the ranges the encoding needs |
| `Receipts.Validate` | crates/token-holdem-domain/src/receipt.rs:106-146 | the check accepts exactly the receipts of version 1 with a named level, two or more players in strict order, distinct devices and equal totals |
| `Receipts.CheckOrder` | crates/token-holdem-domain/src/receipt.rs:117-124 | neighbouring pairs decide strict order of the whole list |
| `Receipts.CheckBooks` | crates/token-holdem-domain/src/receipt.rs:125-145 | devices are distinct and the totals agree within 128 bits |
| `Receipts.FindOutcome` | crates/token-holdem-domain/src/receipt.rs:176-181 | halving a valid receipt finds the one outcome of a player or tells that there is none |
| `Receipts.DraftIsValid` | crates/token-holdem-domain/src/receipt.rs:76-104 | settling succeeds exactly if players and devices are distinct and chips are conserved, in whatever order the outcomes are listed |
| `Receipts.SortMembers` | crates/token-holdem-domain/src/receipt.rs:91 | sorting neither loses nor invents an outcome |
| `Consensus.Verify` | crates/token-holdem-identity/src/receipt_signature.rs:94-124 | a co-signed receipt is accepted exactly if it is valid and carries one good signature of each participant |
| `Consensus.EveryParticipantSigned` | crates/token-holdem-identity/src/receipt_signature.rs:94-124 | an accepted co-signed receipt has exactly one signature of every participant, with the device it names |
| `Consensus.Open` | crates/token-holdem-sidecar/src/receipt_runtime.rs:15-32 | signing the own receipt opens a tally that holds the own signature |
| `Consensus.AddKeepsCollected` | crates/token-holdem-sidecar/src/receipt_runtime.rs:34-55 | every stored signature is for the local receipt and under its signer |
| `Consensus.FinalizesWhenComplete` | crates/token-holdem-sidecar/src/receipt_runtime.rs:57-70 | a tally finalizes if and only if it holds the genuine signature of every participant |
| `Consensus.ReceiptConsensus.Start` | crates/token-holdem-sidecar/src/receipt_runtime.rs:15-32 | the object opens like the tally |
| `Consensus.ReceiptConsensus.Accept` | crates/token-holdem-sidecar/src/receipt_runtime.rs:34-55 | the object counts like the tally; a foreign receipt or a second signature of one player is refused |
| `Consensus.ReceiptConsensus.TryFinalize` | crates/token-holdem-sidecar/src/receipt_runtime.rs:57-70 | the object closes like the tally |
| `LogInvariant.CommitKeeps` | crates/token-holdem-sidecar/src/hand_runtime.rs:1525-1603 | committing keeps the log a chain of legal actions, each signed for the log before it, and the hand where the log leads |
| `LogInvariant.AcceptOrDeferKeeps` | crates/token-holdem-sidecar/src/hand_runtime.rs:1121-1168 | so does every action from the network |
| `LogInvariant.CommitDeferredKeeps` | crates/token-holdem-sidecar/src/hand_runtime.rs:1170-1197 | so does working off held-back actions |
| `LogInvariant.CommitLocalKeeps` | crates/token-holdem-sidecar/src/hand_runtime.rs:1245-1290 | an own action leaves a signature behind only if it is in the own log |
| `LogInvariant.ResolveKeeps` | crates/token-holdem-sidecar/src/hand_runtime.rs:1605-1655 | recorded evidence names two signed actions of one device for one place and state |
| `LogInvariant.UncoverKeeps` | crates/token-holdem-sidecar/src/hand_runtime.rs:1741-1831 | uncovered cards keep the log, its chain and the tally in order |
| `ShownHands.TurnedSettles` | crates/token-holdem-sidecar/src/hand_runtime.rs:1793-1831 | with all showdown cards known the showdown settles unless the pot is orphaned or a card repeats; only a repeated card leaves the hand as it was |
| `ShownHands.CommitTells` | crates/token-holdem-sidecar/src/hand_runtime.rs:1525-1603 | after every commitment the hand is the one the log leads to, exactly the cards of its street or showdown are asked for, and it is settled exactly if the betting has ended it |
| `ShownHands.UncoverTells` | crates/token-holdem-sidecar/src/hand_runtime.rs:1741-1831 | after uncovering the hand is the one the log leads to or, once the showdown cards are turned, the result of settling that hand with those cards, and it is settled exactly if that succeeded |
| `ShownHands.RunTells` | crates/token-holdem-sidecar/src/hand_runtime.rs:1121-1197 | in every run this holds of every code-following replica at every point |
| `LogInvariant.FinishTallies` | crates/token-holdem-sidecar/src/hand_runtime.rs:1833-1898 | settling opens a tally for the receipt of the own transcript |
| `LogInvariant.AcceptReceiptStepKeeps` | crates/token-holdem-sidecar/src/hand_runtime.rs:1939-1972 | counting signatures keeps the log and the receipt |
| `ActionLog.BuildReceipt` | crates/token-holdem-sidecar/src/hand_runtime.rs:1900-1937 | a built receipt is valid and bound to the transcript, the match and the hand |
| `Replication.NextHolds` | crates/token-holdem-sidecar/src/hand_runtime.rs:1121-1197 | one step of any player or of the network keeps every invariant of every code-following replica |
| `Agreement.Begin` | crates/token-holdem-sidecar/src/hand_runtime.rs:1510-1523 | every roster and every choice of code-following seats has a beginning for the runs |
| `Agreement.After` | crates/token-holdem-sidecar/src/hand_runtime.rs:1121-1197 | the invariant holds after every run of any events |
| `Agreement.HashChainAgreement` | crates/token-holdem-sidecar/src/hand_runtime.rs:1556-1585 | a committed action of a code-following player means the log before it equals that player's own log, and their own entry there says the same |
| `Agreement.ForkHasAnAuthor` | crates/token-holdem-sidecar/src/hand_runtime.rs:1605-1655 | where two logs come to say different things, a player who does not follow the code has signed both continuations |
| `Agreement.ForkedLogsShareNoSigner` | crates/token-holdem-sidecar/src/hand_runtime.rs:1556-1585 | the two sides of a fork never both go on with actions of a code-following player |
| `Agreement.OneActionPerPlace` | crates/token-holdem-sidecar/src/hand_runtime.rs:1245-1290 | a code-following player signs at most one payload for each place in the log |
| `Agreement.NoFalseAccusation` | crates/token-holdem-sidecar/src/hand_runtime.rs:1605-1655 | evidence never points at a code-following player |
| `ShownHands.LogAgreement` | crates/token-holdem-sidecar/src/hand_runtime.rs:1121-1197 | if all follow the code, in every run with one deck the logs say the same as far as both go, nobody records a conflict, and equally long logs mean the same hand and settlement if both or neither have turned the showdown cards; if only one has, it holds the settlement of the other hand, and the two differ exactly unless a card repeats |
| `ShownHands.OrphanedNeverSettled` | crates/token-holdem-sidecar/src/hand_runtime.rs:1741-1831 | a code-following replica whose log leads to an orphaned pot adds nothing to it, never settles and never has a final receipt, whatever happens in the rest of the run |
| `AgreedReceipts.ReceiptAgreement` | crates/token-holdem-sidecar/src/hand_runtime.rs:1833-1972 | if one code-following replica has a final receipt, every code-following player has settled with the same receipt, log and card transcript |
| `AgreedReceipts.ReceiptAgreementInRuns` | crates/token-holdem-sidecar/src/hand_runtime.rs:1833-2004 | in every run two final receipts are equal |
| `AgreedReceipts.FrozenForGood` | crates/token-holdem-sidecar/src/hand_runtime.rs:1539-1572 | after a conflict or settlement a log never grows again, and a final receipt stays |
| `AgreedReceipts.EquivocationRecorded` | crates/token-holdem-sidecar/src/hand_runtime.rs:1605-1655 | a second action for a committed place and state is recorded exactly if it is well signed and differs |
| `AgreedReceipts.CommittedExactly` | crates/token-holdem-sidecar/src/hand_runtime.rs:1525-1603 | the next action enters the log exactly if it is signed by the device of its seat for the present public state, nothing blocks the hand, and it is legal |
| `AgreedReceipts.LogsAreBounded` | crates/token-holdem-sidecar/src/hand_runtime.rs:1525-1603 | the length of every log is bounded by the betting |
| `AgreedReceipts.SequenceFits` | crates/token-holdem-sidecar/src/hand_runtime.rs:1542-1547 | the 64-bit sequence number never reaches its maximum |
| `Progress.TakenAtOnce` | crates/token-holdem-sidecar/src/hand_runtime.rs:1121-1168 | an action from the network enters the log at once exactly if it is due |
| `Progress.HeldBack` | crates/token-holdem-sidecar/src/hand_runtime.rs:1159-1166 | an action is held back exactly if it is properly signed by the player whose turn it is for a state not reached yet, or comes while cards are awaited |
| `Progress.HeldBackIsTaken` | crates/token-holdem-sidecar/src/hand_runtime.rs:1170-1197 | a held-back action enters the log once it is due |
| `Progress.NothingFitsAnyMore` | crates/token-holdem-sidecar/src/hand_runtime.rs:1170-1197 | working off stops only when no held-back action fits, or the hand waits for cards or is settled |
| `Progress.StreetCardsResume` | crates/token-holdem-sidecar/src/hand_runtime.rs:1741-1802 | street cards let betting go on exactly when all of them are known, and change nothing else |
| `Progress.LastSignatureFinalizes` | crates/token-holdem-sidecar/src/hand_runtime.rs:1939-2004 | the signature that completes the tally makes the receipt final |
| `SettledHands.ReplaySeatsTable` | crates/token-holdem-sidecar/src/hand_runtime.rs:1510-1523 | no action changes who sits where or with what starting stack |
| `SettledHands.UncontestedGetsReceipt` | crates/token-holdem-sidecar/src/hand_runtime.rs:1900-1937 | when the last action ends the hand, a receipt for this table can always be built |
| `SettledHands.ShowdownGetsReceipt` | crates/token-holdem-sidecar/src/hand_runtime.rs:1900-1937 | so it can when a showdown settles |
| `SettledHands.LastActionSettles` | crates/token-holdem-sidecar/src/hand_runtime.rs:1525-1603 | with a valid certificate, committing the action that ends the hand settles it at once with a receipt of the own log that matches the table |
| `SettledHands.ShownCardsSettle` | crates/token-holdem-sidecar/src/hand_runtime.rs:1741-1831 | so do the last showdown cards, exactly unless the pot is orphaned or a card repeats; then the call is refused, the log is as before and nothing is settled |
| `HandRuntime.ActiveHand.constructor` | crates/token-holdem-sidecar/src/hand_runtime.rs:823-866 | a new object is the fresh replica in which every run starts |
| `HandRuntime.ActiveHand.AcceptOrDefer` | crates/token-holdem-sidecar/src/hand_runtime.rs:1121-1168 | the object does to its fields what the replica does as a value |
| `HandRuntime.ActiveHand.CommitDeferred` | crates/token-holdem-sidecar/src/hand_runtime.rs:1170-1197 | the draining loop reaches the value of the recursive description |
| `HandRuntime.ActiveHand.CommitLocal` | crates/token-holdem-sidecar/src/hand_runtime.rs:1245-1290 | likewise for the own action |
| `HandRuntime.ActiveHand.CommitAction` | crates/token-holdem-sidecar/src/hand_runtime.rs:1525-1603 | likewise for committing |
| `HandRuntime.ActiveHand.ResolveReplayed` | crates/token-holdem-sidecar/src/hand_runtime.rs:1605-1655 | likewise for a replayed action |
| `HandRuntime.ActiveHand.HandleOutcome` | crates/token-holdem-sidecar/src/hand_runtime.rs:1657-1695 | likewise for the outcome of an action |
| `HandRuntime.ActiveHand.Deal` | crates/token-holdem-sidecar/src/hand_runtime.rs:1510-1523 | likewise for the start of the betting |
| `HandRuntime.ActiveHand.Uncover` | crates/token-holdem-sidecar/src/hand_runtime.rs:1741-1802 | likewise for uncovered cards |
| `HandRuntime.ActiveHand.SettleShown` | crates/token-holdem-sidecar/src/hand_runtime.rs:1793-1831 | likewise for the showdown |
| `HandRuntime.ActiveHand.FinishSettlement` | crates/token-holdem-sidecar/src/hand_runtime.rs:1833-1898 | likewise for the settlement, with the loop over early signatures |
| `HandRuntime.ActiveHand.AcceptReceipt` | crates/token-holdem-sidecar/src/hand_runtime.rs:1939-1972 | likewise for a receipt signature |
| `HandRuntime.ActiveHand.TryFinalize` | crates/token-holdem-sidecar/src/hand_runtime.rs:1974-2004 | likewise for finalizing |
| `HandHandlers.FreshSound` | crates/token-holdem-sidecar/src/hand_runtime.rs:823-866 | the replica invariant holds of a new hand |
| `HandHandlers.HandledSound` | crates/token-holdem-sidecar/src/hand_runtime.rs:1027-1119 | handling a message, to its end or to the first refusal, keeps the replica invariant: log, tally and hand stay in order and change only as a replica may change |
| `HandHandlers.HandledProgresses` | crates/token-holdem-sidecar/src/hand_runtime.rs:1027-1119 | an action that is due is in the log once its message is handled, and a message handled to its end leaves nothing held back that fits |
| `HandHandlers.HandleMessage` | crates/token-holdem-sidecar/src/hand_runtime.rs:1027-1119 | the object does what that handling describes, and the replica invariant holds of it again |
| `HandHandlers.DrivenKeeps` | crates/token-holdem-sidecar/src/hand_runtime.rs:1292-1396 | going on with uncovered cards never touches the log or the place at the table |
| `HandHandlers.Drive` | crates/token-holdem-sidecar/src/hand_runtime.rs:1367-1396 | the object starts the betting and turns cards as described |
| `HandHandlers.OwnActionExactly` | crates/token-holdem-sidecar/src/hand_runtime.rs:1245-1290 | the own action enters the log exactly if the table is connected and ready, nothing blocks the hand, it is the own turn, the own certificate is valid and the betting accepts it |
| `HandHandlers.SubmittedExactly` | crates/token-holdem-sidecar/src/hand_runtime.rs:553-579 | the own choice is signed and logged exactly if it is for the very state the player saw, the player is not leaving, and nothing stands in its way; the invariant is kept and nothing else is signed |
| `HandHandlers.SubmitAction` | crates/token-holdem-sidecar/src/hand_runtime.rs:553-579 | the object does so, and the replica invariant holds of it again |
| `HandHandlers.AutomaticMayAct` | crates/token-holdem-sidecar/src/hand_runtime.rs:1199-1225 | with a valid certificate nothing stands in the way of what the clock decides for the own player |
| `HandHandlers.DecidedExactly` | crates/token-holdem-sidecar/src/hand_runtime.rs:396-405 | what the clock decides is signed and logged exactly if the own certificate is valid |
| `HandHandlers.Tick` | crates/token-holdem-sidecar/src/hand_runtime.rs:373-407 | the object follows the clock, and the replica invariant holds of it again |
| `Encodings.CanonicalReceipt` | crates/token-holdem-domain/src/receipt.rs:185-203 | the buffer is the receipt field after field |
| `Encodings.AppendOutcomes` | crates/token-holdem-domain/src/receipt.rs:196-201 | the loop appends every outcome in order |
| `Encodings.ReadsReceipt` | crates/token-holdem-domain/src/receipt.rs:185-208 | reading undoes writing for lengths below 2^32 |
| `Encodings.SameBytesSameReceipt` | crates/token-holdem-domain/src/receipt.rs:185-208 | equal bytes mean equal receipts |
| `Encodings.CanonicalAction` | crates/token-holdem-network/src/hand.rs:312-345 | the buffer is the action field after field |
| `Encodings.ReadsAction` | crates/token-holdem-network/src/hand.rs:312-345 | reading undoes writing |
| `Encodings.SameBytesSameAction` | crates/token-holdem-network/src/hand.rs:312-345 | equal bytes mean equal actions |
| `Statistics.Derive` | crates/token-holdem-domain/src/statistics.rs:16-63 | the record is the player's totals and maxima, net is won minus lost, and it overflows exactly if a total does |
| `Statistics.AddHand` | crates/token-holdem-domain/src/statistics.rs:33-60 | one hand is added exactly if all counters still fit |
| `Statistics.OrderDoesNotMatter` | crates/token-holdem-domain/src/statistics.rs:16-63 | the record, or the overflow, is the same for every order of the receipts |
| `Statistics.NetsAddUpToZero` | crates/token-holdem-domain/src/statistics.rs:16-63 | over valid receipts the nets of all participants sum to zero |
| `Membership.New` | crates/token-holdem-domain/src/membership.rs:129-150 | a membership is built exactly if no seat, player or device is taken twice and at most six wait, and then everyone sits as listed |
| `Membership.SeatMapSeats` | crates/token-holdem-domain/src/membership.rs:136-143 | members can be seated exactly if no seat occurs twice |
| `Membership.CheckMembers` | crates/token-holdem-domain/src/membership.rs:262-291 | the check passes exactly the consistent tables |
| `Membership.CheckSeats` | crates/token-holdem-domain/src/membership.rs:271-281 | seats hold their own members, and nobody sits twice |
| `Membership.CheckQueue` | crates/token-holdem-domain/src/membership.rs:282-289 | nobody waits twice or beside their own seat |
| `Membership.QueueJoins` | crates/token-holdem-domain/src/membership.rs:168-182 | joining keeps the seats, orders the queue by claim, and fails only on the version number or more than six waiting |
| `Membership.Deduplicate` | crates/token-holdem-domain/src/membership.rs:241-260 | exactly the candidates that are unseated, first of their player, and with a device no kept one has, stay |
| `Membership.DroppedWithoutRival` | crates/token-holdem-domain/src/membership.rs:254-259 | a candidate can be dropped without sharing player or device with anyone kept or seated |
| `Membership.KeptIsConsistent` | crates/token-holdem-domain/src/membership.rs:241-260 | the kept queue has no duplicates and stays in claim order |
| `Membership.Reconcile` | crates/token-holdem-domain/src/membership.rs:184-239 | a valid table fails to reconcile only when the version number runs out, and becomes the described valid table otherwise |
| `Membership.Admission` | crates/token-holdem-domain/src/membership.rs:188-229 | the loop over the waiting list seats and keeps exactly the described candidates |
| `Membership.ReconcileSeats` | crates/token-holdem-domain/src/membership.rs:184-239 | stayers keep their seats, and newcomers take the lowest free seats in claim order |
| `Membership.NobodyWhoLeftIsSeated` | crates/token-holdem-domain/src/membership.rs:188-193 | no leaver is seated afterwards |
| `Membership.NobodyWaitsBesideAFreeSeat` | crates/token-holdem-domain/src/membership.rs:205-229 | everyone else still waits in claim order, and someone waits only if all six seats are taken |
| `Membership.ReconcileKeepsValid` | crates/token-holdem-domain/src/membership.rs:184-239 | the result is a valid table |
| `HandRoster.DealerIsNearest` | crates/token-holdem-domain/src/hand_roster.rs:204-217 | the button moves to the nearest occupied seat clockwise |
| `HandRoster.LowestExists` | crates/token-holdem-domain/src/hand_roster.rs:208-210 | the first dealer is the lowest occupied seat |
| `HandRoster.ButtonComesCloser` | crates/token-holdem-domain/src/hand_roster.rs:204-217 | an occupied seat without the button comes strictly closer to it |
| `HandRoster.RosterListsTable` | crates/token-holdem-domain/src/hand_roster.rs:53-98 | with two or more players there is a roster with everyone once, in seat order, numbered from zero, and a seated dealer |
| `HandRoster.StayersStay` | crates/token-holdem-domain/src/membership.rs:184-239 | a player who does not leave keeps the seat across every boundary |
| `HandRoster.ButtonIsFair` | crates/token-holdem-domain/src/hand_roster.rs:204-217 | through any arrivals and departures a player who stays is dealt the button in one of any six consecutive hands |
| `Journal.AppendFaithful` | crates/token-holdem-sidecar/src/runtime_protocol.rs:372-405 | the journal stays the unbroken end of the history within its limits, and the new event always stays |
| `Journal.EvictKeepsLongest` | crates/token-holdem-sidecar/src/runtime_protocol.rs:397-403 | eviction keeps the longest end that fits |
| `Journal.NumberIsNew` | crates/token-holdem-sidecar/src/runtime_protocol.rs:385 | a new event has a new number exactly as long as the counter has not saturated |
| `Journal.TruncationIsTold` | crates/token-holdem-sidecar/src/runtime_protocol.rs:419-444 | a snapshot reports truncation exactly if an event of its generation is gone, except for an empty journal restarted at the last number |
| `Journal.SnapshotIsHistory` | crates/token-holdem-sidecar/src/runtime_protocol.rs:419-444 | every replayed event is the event of the history with its number |
| `Journal.ResetFaithful` | crates/token-holdem-sidecar/src/runtime_protocol.rs:407-416 | a new generation keeps the numbering |
| `Journal.EventJournal.constructor` | crates/token-holdem-sidecar/src/runtime_protocol.rs:357-370 | a new journal is empty and starts numbering at one |
| `Journal.EventJournal.Append` | crates/token-holdem-sidecar/src/runtime_protocol.rs:372-405 | untyped and oversized events are refused without effect; any other is numbered, stored and published |
| `Journal.EventJournal.MakeRoom` | crates/token-holdem-sidecar/src/runtime_protocol.rs:397-403 | the eviction loop |
| `Journal.EventJournal.ResetGeneration` | crates/token-holdem-sidecar/src/runtime_protocol.rs:407-416 | generation and first number move on, the rest is cleared |
| `Journal.EventJournal.TakeSnapshot` | crates/token-holdem-sidecar/src/runtime_protocol.rs:419-444 | older slots in order, then the journal |
| `Attach.StepSound` | crates/token-holdem-sidecar/src/runtime_supervisor.rs:407-439 | every interleaving of publishing, broadcasting, subscribing, snapshot and receiving keeps the delivery invariant |
| `Attach.ReceiveFollows` | crates/token-holdem-sidecar/src/runtime_supervisor.rs:484-500 | the queue never starts behind a gap |
| `Attach.DeliveredExactlyOnce` | crates/token-holdem-sidecar/src/runtime_supervisor.rs:407-500 | in every run of up to 2^64 - 1 events an attached client has each event from the snapshot's earliest number on exactly once, in order and without gaps, until it is closed for lag |
| `Attach.OneTooManyIsLost` | crates/token-holdem-sidecar/src/runtime_protocol.rs:385 | one event more repeats the last number and is lost to a client that is up to date |

## Left out

- Networking (gossip, discovery, relays, leases) and clocks: a message may arrive at any time, any number of times or never; whether a certificate or signature checks out at the time of a call is an input.
- Cryptography: a hash stands for its input and a signature is a token nobody else can make. The device signature does not cover the certificate sent with it (crates/token-holdem-identity/src/attestation.rs:26-32), so anybody may send a signed payload on with another certificate of the same device, and logs agree in what they say.
- Shuffling, reveal shares and their proofs: which shares and cards become known, and when, is an input; failing to create an own share is not modelled.
- CBOR and JSON: an action enters a transcript as a value, an event enters the journal with its length.
- `evaluate_five` and `evaluate_seven`: settlement takes any ranking of the cards by integers.
- The projection of session events (crates/token-holdem-sidecar/src/runtime_protocol.rs:106-313): any projection that stores or forgets events is allowed, none is described. The busy flags are left out.
- Visible state, progress and warning events of a hand, and the relay of verified messages: they read the state or the network only. When the turn timer started is an input.
- Failures of the outbox: queueing the public message of an own action can fail after the action is in the log and before its outcome is handled (crates/token-holdem-sidecar/src/hand_runtime.rs:1586-1595); the model always goes on to the outcome.
- `TableStack`, archives, recovery, identity commands, table-pool ranking, and the user interface are outside the model.
- The wire form of the hand roster and its hash: like the other encodings.
- Membership.Reconcile: for a table that breaks the invariants only the consistency of the result is stated, since every constructor of a membership checks them.
- Attach.DeliveredExactlyOnce: stated for as many events as there are numbers; the counter then stands still and the next event is lost (Attach.OneTooManyIsLost).
- ShownHands.LogAgreement: that uncovered cards come from one deck is an assumption on the run; the shuffle and reveal proofs that ensure it are outside the model.
- Runs.HandsEnd: the bound is not the least one.
