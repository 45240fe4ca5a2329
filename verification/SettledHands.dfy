/** Every settled hand yields a valid receipt that matches the table. */
module SettledHands {
  import opened Chips
  import opened Stakes
  import opened Holdem
  import opened Books
  import opened Betting
  import opened Runs
  import opened SidePots
  import opened Showdowns
  import opened Receipts
  import Consensus
  import opened ActionLog
  import opened LogInvariant
  import opened Progress
  import opened ShownHands

  /** The same players with the same starting stacks, seat by seat. */
  ghost predicate SameRoster(a: seq<Seat>, b: seq<Seat>) {
    |a| == |b| && forall i :: 0 <= i < |a| ==> a[i].player == b[i].player && a[i].startingStack == b[i].startingStack
  }

  ghost predicate SeatsTable(t: Table, seats: seq<Seat>) {
    && |seats| == |t.players| == |t.buyIns|
    && forall i :: 0 <= i < |seats| ==> seats[i].player == t.players[i] && seats[i].startingStack == t.buyIns[i]
  }

  // ----- No action changes who sits where -----

  lemma {:induction false} PerformKeepsRoster(h: Hand, i: nat, action: PlayerAction)
    requires i < |h.seats|
    ensures SameRoster(h.seats, Perform(h, i, action).state.seats)
  {
    hide ActionablePlayers, Behind, Reopened, MinimumTarget;
  }

  lemma {:induction false} AdvanceStreetKeepsRoster(h: Hand)
    requires Playable(h)
    ensures SameRoster(h.seats, AdvanceStreet(h).state.seats)
    decreases StreetsLeft(h.street)
  {
    hide OpenStreet, ActionablePlayers;
    if NextStreet(h.street).Some? && !NextStreet(h.street).value.Showdown? {
      var street := NextStreet(h.street).value;
      var next := OpenStreet(h, street);
      AdvanceStreetUnfolds(h, street);
      if |next.pending| < 2 { AdvanceStreetKeepsRoster(next.(pending := {})); }
    }
  }

  lemma {:induction false} ActKeepsRoster(h: Hand, player: PlayerId, action: PlayerAction)
    requires Playable(h)
    ensures SameRoster(h.seats, Act(h, player, action).state.seats)
  {
    hide Perform, AdvanceStreet, Award, BuildSettlement, NextPendingFrom, Contenders;
    if h.nextToAct.Some? {
      PerformKeepsRoster(h, h.nextToAct.value, action);
      AdvanceStreetKeepsRoster(Perform(h, h.nextToAct.value, action).state);
    }
  }

  lemma {:induction false} PostBlindsKeepsRoster(level: StakeLevel, seats: seq<Seat>, dealer: nat)
    requires dealer < |seats| && 2 <= |seats| && PostBlinds(level, seats, dealer).Ok?
    ensures SameRoster(seats, PostBlinds(level, seats, dealer).value.seats)
  {
    hide ActionablePlayers, NextPendingFrom;
  }

  lemma {:induction false} DealtToTable(t: Table)
    requires Rostered(t)
    ensures SeatsTable(t, Opening(t).seats)
  {
    hide FitsChips, Awaiting, RightsFair, PostBlinds;
    assert Start(t.level, BuyIns(t), t.dealer) == Ok(Opening(t));
    StartPostsBlinds(t.level, BuyIns(t), t.dealer);
    PostBlindsKeepsRoster(t.level, Seated(BuyIns(t)), t.dealer);
  }

  lemma {:induction false} ReplaySeatsTable(t: Table, log: seq<SignedAction>)
    requires Rostered(t)
    ensures SeatsTable(t, Replay(t, log).seats)
  {
    hide Rostered, Opening, Act;
    if |log| == 0 {
      DealtToTable(t);
    } else {
      var last := log[|log| - 1];
      ReplaySeatsTable(t, log[..|log| - 1]);
      ActKeepsRoster(Replay(t, log[..|log| - 1]), last.player, last.action);
    }
  }

  // ----- From a settlement to a receipt -----

  ghost function OutcomeOf(t: Table, s: Seat, i: nat): HandOutcome
    requires i < |t.devices|
  {
    HandOutcome(s.player, t.devices[i], s.startingStack, s.stack)
  }

  lemma {:induction false} PlayerIndexFinds(t: Table, i: nat)
    requires i < |t.players| && forall k :: 0 <= k < i ==> t.players[k] != t.players[i]
    ensures PlayerIndex(t.players, t.players[i]) == Some(i)
  {
    var r := PlayerIndex(t.players, t.players[i]);
    IndexIsFirst(t.players, t.players[i], 0);
  }

  lemma {:induction false} IndexIsFirst(players: seq<PlayerId>, player: PlayerId, from: nat)
    requires from <= |players|
    ensures var r := PlayerIndex(players, player, from);
            r.Some? ==> forall k :: from <= k < r.value ==> players[k] != player
    decreases |players| - from
  {
    if from < |players| && players[from] != player { IndexIsFirst(players, player, from + 1); }
  }

  /** The outcomes list every seat with its device, in seat order. */
  lemma {:induction false} OutcomesOfSeats(t: Table, seats: seq<Seat>, n: nat)
    requires SeatsTable(t, seats) && |t.devices| == |t.players| && n <= |seats|
    requires forall i, j :: 0 <= i < j < |t.players| ==> t.players[i] != t.players[j]
    ensures var r := Outcomes(t, Settlements(seats)[..n]);
            r.Some? && |r.value| == n && forall i :: 0 <= i < n ==> r.value[i] == OutcomeOf(t, seats[i], i)
  {
    if n > 0 {
      OutcomesOfSeats(t, seats, n - 1);
      assert Settlements(seats)[..n][..n - 1] == Settlements(seats)[..n - 1];
      PlayerIndexFinds(t, n - 1);
    }
  }

  lemma {:induction false} TotalsOfOutcomes(t: Table, seats: seq<Seat>, outcomes: seq<HandOutcome>)
    requires |outcomes| == |seats| <= |t.devices| && forall i :: 0 <= i < |seats| ==> outcomes[i] == OutcomeOf(t, seats[i], i)
    ensures StartTotal(outcomes) == SumStarting(seats) && EndTotal(outcomes) == SumStacks(seats)
  {
    if |seats| > 0 { TotalsOfOutcomes(t, seats[..|seats| - 1], outcomes[..|outcomes| - 1]); }
  }

  lemma {:induction false} RosterDistinct(t: Table)
    requires Rostered(t)
    ensures 2 <= |t.players| == |t.devices| && !Blank(t.level.id)
    ensures forall i, j :: 0 <= i < j < |t.players| ==> t.players[i] != t.players[j]
    ensures forall i, j :: 0 <= i < j < |t.devices| ==> t.devices[i] != t.devices[j]
  {
    hide FitsChips;
    forall i, j | 0 <= i < j < |t.players| ensures t.players[i] != t.players[j] {
      assert BuyIns(t)[i].0 == t.players[i] && BuyIns(t)[j].0 == t.players[j];
    }
  }

  /** A settlement whose books balance becomes a receipt for this table; no check on the way can fail. */
  lemma {:induction false} SettlementGetsReceipt(r: Replica, seats: seq<Seat>)
    requires Rostered(r.table) && SeatsTable(r.table, seats) && r.lastActionAt.Some?
    requires SumStacks(seats) == SumStarting(seats) <= U64_MAX
    ensures BuildReceipt(r, Settlements(seats)).Some?
    ensures HeaderMatches(r.table, BuildReceipt(r, Settlements(seats)).value)
  {
    hide Rostered, Blank, SortOutcomes, StartTotal, EndTotal, SumStacks, SumStarting, Outcomes, HeaderMatches;
    var t := r.table;
    RosterDistinct(t);
    OutcomesOfSeats(t, seats, |seats|);
    assert Settlements(seats)[..|seats|] == Settlements(seats);
    var outcomes := Outcomes(t, Settlements(seats)).value;
    TotalsOfOutcomes(t, seats, outcomes);
    DraftIsValid(MatchId(t), t.scope.hand, t.level.id, Transcript(r.mental, r.log), r.lastActionAt.value, outcomes);
    ReceiptListsTable(r, seats, outcomes);
  }

  lemma {:induction false} ReceiptListsTable(r: Replica, seats: seq<Seat>, outcomes: seq<HandOutcome>)
    requires SeatsTable(r.table, seats) && |outcomes| == |seats| == |r.table.devices| && r.lastActionAt.Some?
    requires forall i :: 0 <= i < |seats| ==> outcomes[i] == OutcomeOf(r.table, seats[i], i)
    requires PlayersDistinct(outcomes)
    ensures HeaderMatches(r.table, DraftReceipt(MatchId(r.table), r.table.scope.hand, r.table.level.id,
                                                Transcript(r.mental, r.log), r.lastActionAt.value, outcomes))
  {
    var t := r.table;
    var receipt := DraftReceipt(MatchId(t), t.scope.hand, t.level.id, Transcript(r.mental, r.log), r.lastActionAt.value, outcomes);
    hide SortOutcomes;
    SortAscends(outcomes);
    forall i | 0 <= i < |t.players| ensures OutcomeFor(receipt, t.players[i]) == Some(outcomes[i]) {
      assert outcomes[i] in receipt.outcomes;
      var k :| 0 <= k < |receipt.outcomes| && receipt.outcomes[k] == outcomes[i];
      Consensus.OneOutcome(receipt, k);
    }
  }

  // ----- Both ways a hand can end -----

  lemma {:induction false} BooksOfRoster(before: Hand, seats: seq<Seat>)
    requires TableDealt(before) && Booked(before.seats) && SameRoster(before.seats, seats)
    requires forall i :: 0 <= i < |before.seats| ==> before.seats[i].startingStack <= before.level.maxBuyIn
    ensures SumStarting(seats) <= U64_MAX
  {
    hide ValidLevel, DistinctPlayers;
    BooksFit(before);
    SameRosterSum(before.seats, seats);
  }

  lemma {:induction false} SameRosterSum(a: seq<Seat>, b: seq<Seat>)
    requires SameRoster(a, b)
    ensures SumStarting(a) == SumStarting(b)
  {
    if |a| > 0 { SameRosterSum(a[..|a| - 1], b[..|b| - 1]); }
  }

  /** When the last action ends the hand, the receipt is there. */
  lemma {:induction false} UncontestedGetsReceipt(r: Replica, player: PlayerId, action: PlayerAction)
    requires Rostered(r.table) && r.lastActionAt.Some? && Awaiting(Replay(r.table, r.log))
    requires var a := Act(Replay(r.table, r.log), player, action); a.result.Ok? && a.result.value.HandComplete?
    ensures var settlement := Act(Replay(r.table, r.log), player, action).result.value.settlement;
            BuildReceipt(r, settlement).Some? && HeaderMatches(r.table, BuildReceipt(r, settlement).value)
  {
    hide Rostered, Replay, Act, BuildReceipt, HeaderMatches, Awaiting, Legal;
    var h := Replay(r.table, r.log);
    var a := Act(h, player, action);
    ActSound(h, player, action);
    ReplaySeatsTable(r.table, r.log);
    ActKeepsRoster(h, player, action);
    AwaitingBooks(h);
    BooksOfRoster(h, a.state.seats);
    SettlementGetsReceipt(r, a.state.seats);
  }

  lemma {:induction false} AwaitingBooks(h: Hand)
    requires Awaiting(h)
    ensures TableDealt(h) && Booked(h.seats)
    ensures forall i :: 0 <= i < |h.seats| ==> h.seats[i].startingStack <= h.level.maxBuyIn
  {
    BettingIsBooked(h);
    forall i | 0 <= i < |h.seats| ensures h.seats[i].startingStack <= h.level.maxBuyIn {
      assert SeatBooked(h.level, h.currentBet, h.seats[i]);
    }
  }

  /** When a showdown settles, the receipt is there. */
  lemma {:induction false} ShowdownGetsReceipt(r: Replica, board: seq<Card>, holes: map<PlayerId, (Card, Card)>,
      strength: seq<Card> -> int)
    requires Rostered(r.table) && r.lastActionAt.Some? && AtShowdown(Replay(r.table, r.log))
    requires SettleShowdown(Replay(r.table, r.log), board, holes, strength).result.Ok?
    ensures var settlement := SettleShowdown(Replay(r.table, r.log), board, holes, strength).result.value;
            BuildReceipt(r, settlement).Some? && HeaderMatches(r.table, BuildReceipt(r, settlement).value)
  {
    hide Rostered, Replay, BuildReceipt, HeaderMatches, SettleShowdown, SettleRanked, FairlyPaid, OrphanedPot;
    hide HasDuplicate, HoleCards, Ranks, RanksKnown, RanksPaid, PaidInPart;
    var h := Replay(r.table, r.log);
    ShowdownOfCards(h, board, holes, strength);
    ShowdownSettles(h, Ranks(Contenders(h.seats), board, holes, strength));
    var a := SettleShowdown(h, board, holes, strength);
    ReplaySeatsTable(r.table, r.log);
    BooksOfRoster(h, a.state.seats);
    SettlementGetsReceipt(r, a.state.seats);
  }

  // ----- The replica settles -----

  lemma {:induction false} OwnSignatureFits(r: Replica, receipt: Receipt<Transcript>)
    requires ValidReceipt(receipt) && HeaderMatches(r.table, receipt) && r.seat < |r.table.players|
    requires r.certificate.player == r.table.players[r.seat] && r.seat < |r.table.devices|
    requires r.certificate.device == r.table.devices[r.seat]
    ensures Consensus.Open(receipt, r.certificate, true).Accepted?
  {
    hide ValidReceipt;
    var o := OutcomeFor(receipt, r.table.players[r.seat]);
  }

  /** With a valid certificate, a replica that commits the action ending the hand settles at once: it opens the tally
      for a receipt of its own log that matches the table. */
  lemma {:induction false} LastActionSettles(r: Replica, a: SignedAction, env: Env, actions: set<SignedAction>,
      receipts: set<Consensus.Signature<Transcript>>)
    requires Keeps(r, actions, receipts) && Due(r, a, env) && env.actions <= actions && env.receipts <= receipts && env.certified
    requires Act(r.hand.value, r.table.players[a.seat - 1], a.action).result.Ok?
    requires Act(r.hand.value, r.table.players[a.seat - 1], a.action).result.value.HandComplete?
    ensures var s := CommitAction(r, r.sequence + 1, a, env).replica;
            && s.settled && s.log == r.log + [a] && s.tally.Some?
            && s.tally.value.receipt.transcript == Transcript(s.mental, s.log) && HeaderMatches(s.table, s.tally.value.receipt)
  {
    hide KeepsLog, Tallied, Act, Awaiting, Legal, PublicStateOf, FinishSettlement, HeaderMatches, Follows;
    hide OutcomeHonest, OwnReceipts, BuildReceipt, Replay, Rostered;
    var player := r.table.players[a.seat - 1];
    var acted := Act(r.hand.value, player, a.action);
    KeptFacts(r, actions);
    OnlyAwaitingHandsAct(r, actions, player, a.action);
    var r' := Appended(r, acted.state, a);
    UncontestedGetsReceipt(r'.(log := r.log), player, a.action);
    SameReceiptButLog(r', r'.(log := r.log), acted.result.value.settlement);
    OwnSignatureFits(r', BuildReceipt(r', acted.result.value.settlement).value);
    SettlingKeepsReceipt(r', acted.result.value.settlement);
    TalliedWhileOpen(r, r', receipts);
    FinishKeeps(r', acted.result.value.settlement, env);
    FinishTallies(r', acted.result.value.settlement, env, receipts);
  }

  lemma {:induction false} KeptFacts(r: Replica, actions: set<SignedAction>)
    requires KeepsLog(r, actions)
    ensures Rostered(r.table) && r.seat < |r.table.players| && r.seat < |r.table.devices|
    ensures r.certificate.player == r.table.players[r.seat] && r.certificate.device == r.table.devices[r.seat]
    ensures r.sequence + 1 !in r.committed
  {
    hide Chained, HandFollowsLog, ConflictProven, Dealable;
  }

  /** The header does not look at the transcript. */
  lemma {:induction false} HeaderButTranscript(t: Table, q: Receipt<Transcript>, x: Transcript)
    requires HeaderMatches(t, q)
    ensures HeaderMatches(t, q.(transcript := x))
  {
    forall i | 0 <= i < |t.players| ensures OutcomeFor(q.(transcript := x), t.players[i]) == OutcomeFor(q, t.players[i]) {}
  }

  lemma {:induction false} ValidButTranscript(q: Receipt<Transcript>, x: Transcript)
    requires ValidReceipt(q)
    ensures ValidReceipt(q.(transcript := x))
  {
  }

  /** Building a receipt looks at the log only for the transcript. */
  lemma {:induction false} SameReceiptButLog(r: Replica, s: Replica, settlement: seq<PlayerSettlement>)
    requires s == r.(log := s.log) && BuildReceipt(s, settlement).Some? && HeaderMatches(r.table, BuildReceipt(s, settlement).value)
    ensures BuildReceipt(r, settlement).Some? && HeaderMatches(r.table, BuildReceipt(r, settlement).value)
  {
    hide SortOutcomes, Outcomes, ValidReceipt, HeaderMatches;
    var (q, x) := (BuildReceipt(s, settlement).value, Transcript(r.mental, r.log));
    ValidButTranscript(q, x);
    HeaderButTranscript(r.table, q, x);
    assert BuildReceipt(r, settlement) == Some(q.(transcript := x));
  }

  lemma {:induction false} SettlingKeepsReceipt(r: Replica, settlement: seq<PlayerSettlement>)
    ensures BuildReceipt(r.(settled := true), settlement) == BuildReceipt(r, settlement)
  {
    hide DraftReceipt, Outcomes, ValidReceipt;
  }

  lemma {:induction false} TalliedWhileOpen(r: Replica, r': Replica, receipts: set<Consensus.Signature<Transcript>>)
    requires Tallied(r, receipts) && !r.settled && r.request.None?
    requires r' == r.(hand := r'.hand, sequence := r'.sequence, log := r'.log, committed := r'.committed, lastActionAt := r'.lastActionAt)
    ensures Tallied(r', receipts)
  {
    hide Consensus.CoSignedBy, Consensus.Collected, ValidReceipt, HeaderMatches;
  }

  /** A replica that has all showdown cards settles at once too, exactly unless the pot is orphaned or a card repeats. */
  lemma {:induction false} ShownCardsSettle(r: Replica, strength: seq<Card> -> int, env: Env,
      actions: set<SignedAction>, receipts: set<Consensus.Signature<Transcript>>)
    requires Keeps(r, actions, receipts) && env.receipts <= receipts && env.certified && |r.log| > 0
    requires r.conflict.None? && r.request.None? && !r.settled && r.hand.Some?
    requires r.hand.value == Replay(r.table, r.log) && AtShowdown(r.hand.value) && AllShown(r.hand.value, |r.table.players|, r.cards)
    ensures var s := SettleShown(r, strength, env);
            var blocked := OrphanedPot(r.hand.value.seats) || Repeats(r.hand.value, |r.table.players|, r.cards);
            && (blocked <==> s.refusal.Some? && s.refusal.value.Illegal?)
            && if blocked then !s.replica.settled && s.replica.log == r.log && s.replica.tally == r.tally
            else && s.replica.settled && s.replica.log == r.log && s.replica.tally.Some?
                 && s.replica.tally.value.receipt.transcript == Transcript(r.mental, r.log)
                 && HeaderMatches(r.table, s.replica.tally.value.receipt)
  {
    hide KeepsLog, Tallied, AtShowdown, FinishSettlement, HeaderMatches, Follows, OwnReceipts, BuildReceipt, Replay;
    hide Rostered, AllShown, SettleShowdown, Board, Holes, OrphanedPot, Repeats;
    var (h, n) := (r.hand.value, |r.table.players|);
    KeptFacts(r, actions);
    DatedByLog(r, actions);
    ShownHoles(h, n, r.cards);
    var (board, holes) := (Board(n, r.cards), Holes(h.seats, r.cards));
    var done := SettleShowdown(h, board, holes, strength);
    ShowdownStaysPlayable(h, board, holes, strength);
    TurnedSettles(h, n, r.cards, strength);
    if done.result.Ok? {
      ShowdownGetsReceipt(r, board, holes, strength);
      var r' := r.(hand := Some(done.state));
      SameReceiptButHand(r', r, done.result.value);
      OwnSignatureFits(r', BuildReceipt(r', done.result.value).value);
      SettlingKeepsReceipt(r', done.result.value);
      TalliedWhileOpen(r, r', receipts);
      FinishKeeps(r', done.result.value, env);
      FinishTallies(r', done.result.value, env, receipts);
      NotIllegal(r', done.result.value, env);
    }
  }

  lemma {:induction false} DatedByLog(r: Replica, actions: set<SignedAction>)
    requires KeepsLog(r, actions) && |r.log| > 0
    ensures r.lastActionAt.Some?
  {
    hide Chained, HandFollowsLog, ConflictProven, Rostered;
  }

  lemma {:induction false} SameReceiptButHand(r: Replica, s: Replica, settlement: seq<PlayerSettlement>)
    requires r == s.(hand := r.hand)
    ensures BuildReceipt(r, settlement) == BuildReceipt(s, settlement)
  {
    hide DraftReceipt, Outcomes, ValidReceipt;
  }

  lemma {:induction false} NotIllegal(r: Replica, settlement: seq<PlayerSettlement>, env: Env)
    ensures var s := FinishSettlement(r, settlement, env); s.refusal.Some? ==> !s.refusal.value.Illegal?
  {
    hide BuildReceipt, AcceptAll, InOrder, Consensus.CoSignedBy, Consensus.Bundle;
  }
}
