/** What every accepted action keeps, when an action is accepted, and how a street closes. */
module Betting {
  import opened Chips
  import opened Stakes
  import opened Holdem
  import opened Books

  // ----- The invariant -----

  /** Chips committed on earlier streets. */
  function Carried(s: Seat): int { s.totalCommitted - s.streetCommitted }

  ghost predicate SeatBooked(level: StakeLevel, bet: nat, s: Seat) {
    && level.minBuyIn <= s.startingStack <= level.maxBuyIn
    && s.stack + s.totalCommitted == s.startingStack
    && s.streetCommitted <= s.totalCommitted
    && s.streetCommitted <= bet
    && (s.status.Active? ==> s.stack > 0)
    && (s.status.AllIn? ==> s.stack == 0)
    && (s.status.Active? ==> Carried(s) + bet <= level.maxBuyIn)
  }

  /** What a table is dealt with and no action changes. */
  ghost predicate TableDealt(h: Hand) {
    && ValidLevel(h.level) && FitsChips(h.level)
    && h.level.minPlayers <= |h.seats| <= h.level.maxPlayers
    && Playable(h)
    && DistinctPlayers(h.seats)
  }

  /** Players who can still bet carried the largest amount of any seat into this street. */
  ghost predicate ActiveSeatsLead(seats: seq<Seat>) {
    forall i, j :: 0 <= i < |seats| && 0 <= j < |seats| && seats[i].status.Active? ==> Carried(seats[j]) <= Carried(seats[i])
  }

  /** Holds between the action of one player and the turn of the next. */
  ghost predicate MidRound(h: Hand) {
    && TableDealt(h)
    && StreetsLeft(h.street) > 0
    && (forall i :: 0 <= i < |h.seats| ==> SeatBooked(h.level, h.currentBet, h.seats[i]))
    && h.currentBet <= h.level.maxBuyIn
    && h.level.bigBlind <= h.lastFullRaise <= h.level.maxBuyIn
    && h.pending <= ActionablePlayers(h.seats, None)
    && h.raiseRights <= h.pending
    && (forall i :: 0 <= i < |h.seats| && h.seats[i].status.Active? && h.seats[i].player !in h.pending
          ==> h.seats[i].streetCommitted == h.currentBet)
    && ActiveSeatsLead(h.seats)
  }

  /** A hand that waits for the player at `nextToAct`. */
  ghost predicate Awaiting(h: Hand) {
    && MidRound(h)
    && |Contenders(h.seats)| >= 2
    && h.nextToAct.Some? && h.nextToAct.value < |h.seats|
    && h.seats[h.nextToAct.value].player in h.pending
  }

  /** A hand whose betting is over: nobody can be owed chips by a player who could still have paid them. */
  ghost predicate AtShowdown(h: Hand) {
    && TableDealt(h)
    && h.street.Showdown? && h.nextToAct.None?
    && |Contenders(h.seats)| >= 2
    && (forall i :: 0 <= i < |h.seats| ==>
          && h.seats[i].stack + h.seats[i].totalCommitted == h.seats[i].startingStack
          && h.level.minBuyIn <= h.seats[i].startingStack <= h.level.maxBuyIn
          && (h.seats[i].status.AllIn? ==> h.seats[i].stack == 0))
    && (forall i, j :: 0 <= i < |h.seats| && 0 <= j < |h.seats| && h.seats[i].status.Active?
          ==> h.seats[j].totalCommitted <= h.seats[i].totalCommitted)
  }

  // ----- Lists of players -----

  /** Replacing one seat changes the number of selected players by what happens at that seat. */
  lemma {:induction false} PlayersWhereUpdate(seats: seq<Seat>, f: Seat -> bool, i: nat, s: Seat)
    requires i < |seats|
    ensures |PlayersWhere(seats[i := s], f)| - |PlayersWhere(seats, f)|
            == (if f(s) then 1 else 0) - (if f(seats[i]) then 1 else 0)
  {
    var n := |seats| - 1;
    if i == n {
      assert seats[i := s][..n] == seats[..n];
    } else {
      PlayersWhereUpdate(seats[..n], f, i, s);
      assert seats[i := s][..n] == seats[..n][i := s];
    }
  }

  lemma {:induction false} PlayersWhereSame(a: seq<Seat>, b: seq<Seat>, f: Seat -> bool)
    requires |a| == |b| && forall i :: 0 <= i < |a| ==> f(a[i]) == f(b[i]) && a[i].player == b[i].player
    ensures PlayersWhere(a, f) == PlayersWhere(b, f)
  {
    if |a| > 0 { PlayersWhereSame(a[..|a| - 1], b[..|b| - 1], f); }
  }

  // ----- Turn order -----

  /** How many seats `i` lies clockwise of `start`. */
  function Distance(start: nat, i: nat, n: nat): nat
    requires start < n && i < n
  {
    if i >= start then i - start else i + n - start
  }

  /** The turn goes to the pending player nearest clockwise, if any is left. */
  lemma {:induction false} NextPendingIsNearest(seats: seq<Seat>, pending: set<PlayerId>, start: nat, offset: nat)
    requires start < |seats| && offset <= |seats|
    requires forall i :: 0 <= i < |seats| && Distance(start, i, |seats|) < offset ==> seats[i].player !in pending
    ensures var r := NextPendingFrom(seats, pending, start, offset);
            && (r.None? <==> forall i :: 0 <= i < |seats| ==> seats[i].player !in pending)
            && (r.Some? ==> forall i :: 0 <= i < |seats| && Distance(start, i, |seats|) < Distance(start, r.value, |seats|)
                                        ==> seats[i].player !in pending)
    decreases |seats| - offset
  {
    if offset < |seats| {
      var k := Clockwise(start, offset, |seats|);
      assert Distance(start, k, |seats|) == offset;
      if seats[k].player !in pending { NextPendingIsNearest(seats, pending, start, offset + 1); }
    }
  }

  // ----- One action -----

  /** The rules of the game: who may do what. */
  ghost predicate Legal(h: Hand, player: PlayerId, action: PlayerAction)
    requires Awaiting(h)
  {
    var s := h.seats[h.nextToAct.value];
    && player == s.player
    && match action
       case Fold => true
       case Check => s.streetCommitted == h.currentBet
       case Call => s.streetCommitted < h.currentBet
       case RaiseTo(target) =>
         && player in h.raiseRights
         && h.currentBet < target <= s.streetCommitted + s.stack
         && (target >= MinimumTarget(h) || target == s.streetCommitted + s.stack)
  }

  lemma {:induction false} MulMonotone(a: nat, b: nat, c: nat)
    requires a <= b
    ensures a * c <= b * c
  {}

  lemma {:induction false} TwoBuyInsFit(h: Hand)
    requires TableDealt(h)
    ensures 2 * h.level.maxBuyIn <= |h.seats| * h.level.maxBuyIn <= U64_MAX
  {
    MulMonotone(2, |h.seats|, h.level.maxBuyIn);
    MulMonotone(|h.seats|, h.level.maxPlayers, h.level.maxBuyIn);
  }

  lemma {:induction false} PendingSeatActive(h: Hand, i: nat)
    requires MidRound(h) && i < |h.seats| && h.seats[i].player in h.pending
    ensures h.seats[i].status.Active?
  {
    var j :| 0 <= j < |h.seats| && h.seats[j].status.Active? && h.seats[j].player == h.seats[i].player;
    assert i == j;
  }

  lemma {:induction false} OthersStayActionable(seats: seq<Seat>, i: nat, s: Seat, pending: set<PlayerId>)
    requires i < |seats| && pending <= ActionablePlayers(seats, None)
    ensures pending - {seats[i].player} <= ActionablePlayers(seats[i := s], None)
  {
    forall p | p in pending - {seats[i].player} ensures p in ActionablePlayers(seats[i := s], None) {
      var j :| 0 <= j < |seats| && seats[j].status.Active? && seats[j].player == p;
      assert seats[i := s][j] == seats[j];
    }
  }

  /** One active seat moved and the round re-opened accordingly: the books stay in order. */
  lemma {:induction false} SeatMoveKeepsBetting(h: Hand, h': Hand, i: nat)
    requires MidRound(h) && i < |h.seats| && h.seats[i].status.Active?
    requires h' == h.(seats := h'.seats, currentBet := h'.currentBet, lastFullRaise := h'.lastFullRaise,
                      pending := h'.pending, raiseRights := h'.raiseRights)
    requires |h'.seats| == |h.seats| && h'.seats == h.seats[i := h'.seats[i]]
    requires h'.seats[i].player == h.seats[i].player && Carried(h'.seats[i]) == Carried(h.seats[i])
    requires h.currentBet <= h'.currentBet <= h.level.maxBuyIn
    requires Carried(h.seats[i]) + h'.currentBet <= h.level.maxBuyIn
    requires h.level.bigBlind <= h'.lastFullRaise <= h.level.maxBuyIn
    requires SeatBooked(h.level, h'.currentBet, h'.seats[i])
    requires h'.pending <= ActionablePlayers(h'.seats, None) && h'.raiseRights <= h'.pending
    requires forall j :: 0 <= j < |h.seats| && h'.seats[j].status.Active? && h'.seats[j].player !in h'.pending
               ==> h'.seats[j].streetCommitted == h'.currentBet
    ensures MidRound(h')
  {
    forall j | 0 <= j < |h'.seats| ensures SeatBooked(h'.level, h'.currentBet, h'.seats[j]) {
      if j != i {
        assert SeatBooked(h.level, h.currentBet, h.seats[j]);
        assert Carried(h.seats[j]) <= Carried(h.seats[i]);
      }
    }
  }

  lemma {:induction false} PassiveKeepsBetting(h: Hand, action: PlayerAction)
    requires Awaiting(h) && !action.RaiseTo? && Perform(h, h.nextToAct.value, action).result.Ok?
    ensures MidRound(Perform(h, h.nextToAct.value, action).state)
  {
    var i := h.nextToAct.value;
    PendingSeatActive(h, i);
    var h' := Perform(h, i, action).state;
    assert SeatBooked(h.level, h.currentBet, h.seats[i]);
    assert h'.seats == h.seats[i := h'.seats[i]];
    OthersStayActionable(h.seats, i, h'.seats[i], h.pending);
    SeatMoveKeepsBetting(h, h', i);
  }

  lemma {:induction false} RaiseKeepsBetting(h: Hand, target: nat)
    requires Awaiting(h) && Raise(h, h.nextToAct.value, target).result.Ok?
    ensures MidRound(Raise(h, h.nextToAct.value, target).state)
  {
    var i := h.nextToAct.value;
    PendingSeatActive(h, i);
    var h' := Raise(h, i, target).state;
    assert SeatBooked(h.level, h.currentBet, h.seats[i]);
    assert h'.seats == h.seats[i := h'.seats[i]];
    OthersStayActionable(h.seats, i, h'.seats[i], h.pending);
    forall j | 0 <= j < |h.seats| && h'.seats[j].status.Active? && h'.seats[j].player !in h'.pending
      ensures h'.seats[j].streetCommitted == h'.currentBet
    {
      assert SeatBooked(h.level, h.currentBet, h.seats[j]);
    }
    SeatMoveKeepsBetting(h, h', i);
  }

  /** An action that performs leaves the books of every seat in order and does not empty the table. */
  lemma {:induction false} PerformKeepsBetting(h: Hand, action: PlayerAction)
    requires Awaiting(h) && Perform(h, h.nextToAct.value, action).result.Ok?
    ensures var a := Perform(h, h.nextToAct.value, action);
            MidRound(a.state) && |Contenders(a.state.seats)| >= 1
  {
    var i := h.nextToAct.value;
    var h' := Perform(h, i, action).state;
    if action.RaiseTo? { RaiseKeepsBetting(h, action.target); } else { PassiveKeepsBetting(h, action); }
    assert h'.seats == h.seats[i := h'.seats[i]];
    PlayersWhereUpdate(h.seats, IsContender, i, h'.seats[i]);
  }

  /** A legal action performs; any other leaves the hand untouched and is refused for a reason the player can mend. */
  lemma {:induction false} PerformIffLegal(h: Hand, action: PlayerAction)
    requires Awaiting(h)
    ensures var a := Perform(h, h.nextToAct.value, action);
            && (a.result.Ok? <==> Legal(h, h.seats[h.nextToAct.value].player, action))
            && (a.result.Err? ==> a.state == h && !a.result.error.StateInvariant? && !a.result.error.ChipOverflow?)
  {
    var i := h.nextToAct.value;
    PendingSeatActive(h, i);
    TwoBuyInsFit(h);
    assert SeatBooked(h.level, h.currentBet, h.seats[i]);
  }

  // ----- Closing a street -----

  /** Every player who can still bet has matched the bet. */
  ghost predicate RoundClosed(h: Hand) {
    && MidRound(h.(raiseRights := {})) && h.pending == {} && |Contenders(h.seats)| >= 2
  }

  ghost predicate SameSeatsNewStreet(a: seq<Seat>, b: seq<Seat>) {
    |a| == |b| && forall i :: 0 <= i < |a| ==> b[i] == a[i].(streetCommitted := b[i].streetCommitted)
  }

  lemma {:induction false} ClosedRoundLevels(h: Hand)
    requires RoundClosed(h)
    ensures forall i, j :: 0 <= i < |h.seats| && 0 <= j < |h.seats| && h.seats[i].status.Active?
              ==> h.seats[j].totalCommitted <= h.seats[i].totalCommitted
  {
    forall i, j | 0 <= i < |h.seats| && 0 <= j < |h.seats| && h.seats[i].status.Active?
      ensures h.seats[j].totalCommitted <= h.seats[i].totalCommitted
    {
      assert h.seats[i].streetCommitted == h.currentBet;
      assert SeatBooked(h.level, h.currentBet, h.seats[j]);
      assert Carried(h.seats[j]) <= Carried(h.seats[i]);
    }
  }

  lemma {:induction false} OpenStreetBets(h: Hand, street: Street)
    requires RoundClosed(h) && NextStreet(h.street) == Some(street) && !street.Showdown?
    ensures MidRound(OpenStreet(h, street))
  {
    var next := OpenStreet(h, street);
    ClosedRoundLevels(h);
    forall i | 0 <= i < |h.seats| ensures SeatBooked(h.level, 0, next.seats[i]) {
      assert SeatBooked(h.level, h.currentBet, h.seats[i]);
    }
  }

  lemma {:induction false} SomeoneIsNext(seats: seq<Seat>, pending: set<PlayerId>, start: nat)
    requires start < |seats| && pending != {} && pending <= ActionablePlayers(seats, None)
    ensures NextPendingFrom(seats, pending, start).Some?
  {
    var p :| p in pending;
    var i :| 0 <= i < |seats| && seats[i].status.Active? && seats[i].player == p;
    NextPendingIsNearest(seats, pending, start, 0);
    assert seats[i].player in pending;
  }

  lemma {:induction false} OpenStreetCloses(h: Hand, street: Street)
    requires RoundClosed(h) && NextStreet(h.street) == Some(street) && !street.Showdown?
    ensures RoundClosed(OpenStreet(h, street).(pending := {}))
  {
    hide MidRound, ActionablePlayers, NextPendingFrom, PlayersWhere;
    RoundClosedFacts(h);
    var next := OpenStreet(h, street);
    OpenStreetBets(h, street);
    PlayersWhereSame(h.seats, next.seats, IsContender);
    NobodyPending(next);
  }

  lemma {:induction false} NobodyPending(h: Hand)
    requires MidRound(h) && forall i :: 0 <= i < |h.seats| ==> h.seats[i].streetCommitted == h.currentBet
    ensures MidRound(h.(pending := {}, raiseRights := {}))
  {
    ghost var closed := h.(pending := {}, raiseRights := {});
    assert forall i :: 0 <= i < |h.seats| ==> SeatBooked(closed.level, closed.currentBet, closed.seats[i]);
  }

  lemma {:induction false} OpenStreetWaits(h: Hand, street: Street)
    requires RoundClosed(h) && NextStreet(h.street) == Some(street) && !street.Showdown?
    requires OpenStreet(h, street).pending != {}
    ensures Awaiting(OpenStreet(h, street))
  {
    var next := OpenStreet(h, street);
    OpenStreetBets(h, street);
    PlayersWhereSame(h.seats, next.seats, IsContender);
    SomeoneIsNext(next.seats, next.pending, Clockwise(h.dealer, 1, |next.seats|));
  }

  /** The two places where a closed round can come to rest. */
  ghost predicate Rests(h: Hand, a: Attempt<Hand, Outcome>) {
    && a.result.Ok?
    && a.state.level == h.level && SameSeatsNewStreet(h.seats, a.state.seats)
    && StreetsLeft(a.state.street) < StreetsLeft(h.street)
    && match a.result.value
       case StreetAdvanced(street, first) =>
         && Awaiting(a.state) && a.state.street == street && first == NextPlayer(a.state)
         && a.state.pending == a.state.raiseRights == ActionablePlayers(a.state.seats, None)
         && |a.state.pending| >= 2 && a.state.currentBet == 0
       case ShowdownReady => AtShowdown(a.state)
       case _ => false
  }

  lemma {:induction false} ShowdownRests(h: Hand)
    requires RoundClosed(h) && h.street.River?
    ensures Rests(h, AdvanceStreet(h))
  {
    ClosedRoundLevels(h);
    forall i | 0 <= i < |h.seats|
      ensures h.seats[i].stack + h.seats[i].totalCommitted == h.seats[i].startingStack
      ensures h.level.minBuyIn <= h.seats[i].startingStack <= h.level.maxBuyIn
      ensures h.seats[i].status.AllIn? ==> h.seats[i].stack == 0
    {
      assert SeatBooked(h.level, h.currentBet, h.seats[i]);
    }
  }

  lemma {:induction false} AdvanceStreetUnfolds(h: Hand, street: Street)
    requires Playable(h) && NextStreet(h.street) == Some(street) && !street.Showdown?
    ensures var next := OpenStreet(h, street);
            && AdvanceStreet(h) == (if |next.pending| < 2 then AdvanceStreet(next.(pending := {}))
                                    else Attempt(next, Ok(StreetAdvanced(street, NextPlayer(next)))))
            && SameSeatsNewStreet(h.seats, next.seats) && next.level == h.level && next.street == street && Playable(next)
            && next.pending == next.raiseRights == ActionablePlayers(next.seats, None) && next.currentBet == 0
  {
  }

  /** From a closed round the hand comes to rest at a street where two players can bet, or at the showdown;
      no chip moves on the way. */
  lemma {:induction false} AdvanceStreetRests(h: Hand)
    requires RoundClosed(h)
    ensures Rests(h, AdvanceStreet(h))
    decreases StreetsLeft(h.street)
  {
    hide AdvanceStreet, MidRound, RoundClosed, OpenStreet, ActionablePlayers, AtShowdown, Awaiting;
    RoundClosedFacts(h);
    if h.street.River? {
      ShowdownRests(h);
    } else {
      var street := NextStreet(h.street).value;
      var next := OpenStreet(h, street);
      AdvanceStreetUnfolds(h, street);
      if |next.pending| < 2 {
        OpenStreetCloses(h, street);
        AdvanceStreetRests(next.(pending := {}));
      } else {
        OpenStreetWaits(h, street);
      }
    }
  }

  lemma {:induction false} RoundClosedFacts(h: Hand)
    requires RoundClosed(h)
    ensures Playable(h) && StreetsLeft(h.street) > 0
  {
  }

  // ----- Ending without a showdown -----

  /** The only seat left takes every committed chip and no other stack moves. */
  ghost predicate LastContenderTakesPot(before: seq<Seat>, after: seq<Seat>) {
    exists i :: 0 <= i < |before| && IsContender(before[i])
             && (forall j :: 0 <= j < |before| && j != i ==> before[j].status.Folded?)
             && after == before[i := before[i].(stack := before[i].stack + SumTotals(before))]
  }

  /** A finished hand: the stacks hold exactly the chips the players sat down with. */
  ghost predicate Settled(h: Hand, settlement: seq<PlayerSettlement>) {
    && h.street.Complete?
    && SumStacks(h.seats) == SumStarting(h.seats)
    && settlement == Settlements(h.seats) && SumDeltas(settlement) == 0
  }

  lemma {:induction false} OnlyContender(seats: seq<Seat>, i: nat)
    requires |Contenders(seats)| == 1 && i < |seats| && IsContender(seats[i])
    ensures Contenders(seats)[0] == seats[i].player
    ensures forall j :: 0 <= j < |seats| && j != i ==> seats[j].status.Folded?
  {
    var n := |seats| - 1;
    PlayersWhereMembers(seats[..n], IsContender);
    if i == n {
      forall j | 0 <= j < n ensures seats[j].status.Folded? {
        assert seats[..n][j].player !in Contenders(seats[..n]);
      }
    } else {
      assert IsContender(seats[..n][i]);
      assert seats[i].player in Contenders(seats[..n]);
      OnlyContender(seats[..n], i);
    }
  }

  lemma {:induction false} BooksFit(h: Hand)
    requires TableDealt(h) && Booked(h.seats)
    requires forall i :: 0 <= i < |h.seats| ==> h.seats[i].startingStack <= h.level.maxBuyIn
    ensures SumStacks(h.seats) + SumTotals(h.seats) == SumStarting(h.seats) <= U64_MAX
  {
    BooksBalance(h.seats);
    StartingAtMost(h.seats, h.level.maxBuyIn);
    TwoBuyInsFit(h);
  }

  lemma {:induction false} BettingIsBooked(h: Hand)
    requires MidRound(h)
    ensures Booked(h.seats) && SumStacks(h.seats) + SumTotals(h.seats) == SumStarting(h.seats) <= U64_MAX
  {
    forall k | 0 <= k < |h.seats|
      ensures h.seats[k].stack + h.seats[k].totalCommitted == h.seats[k].startingStack <= h.level.maxBuyIn
    {
      assert SeatBooked(h.level, h.currentBet, h.seats[k]);
    }
    BooksFit(h);
  }

  lemma {:induction false} PotAwardBalances(seats: seq<Seat>, i: nat)
    requires DistinctPlayers(seats) && i < |seats|
    requires SumStacks(seats) + SumTotals(seats) == SumStarting(seats) <= U64_MAX
    ensures var a := Award(seats, seats[i].player, SumTotals(seats));
            && a == Attempt(seats[i := seats[i].(stack := seats[i].stack + SumTotals(seats))], Ok(Unit))
            && SumStacks(a.state) == SumStarting(a.state)
            && SumDeltas(Settlements(a.state)) == 0
  {
    hide SumStacks, SumTotals, SumStarting, SumDeltas, Settlements;
    AwardPays(seats, i, SumTotals(seats));
    var paid := Award(seats, seats[i].player, SumTotals(seats)).state;
    SameStarting(seats, paid);
    DeltasAreStackChanges(paid);
  }

  lemma {:induction false} FindOnlyContender(seats: seq<Seat>) returns (i: nat)
    requires |Contenders(seats)| == 1
    ensures i < |seats| && IsContender(seats[i]) && Contenders(seats)[0] == seats[i].player
    ensures forall j :: 0 <= j < |seats| && j != i ==> seats[j].status.Folded?
  {
    PlayersWhereMembers(seats, IsContender);
    assert Contenders(seats)[0] in Contenders(seats);
    i :| 0 <= i < |seats| && IsContender(seats[i]) && seats[i].player == Contenders(seats)[0];
    OnlyContender(seats, i);
  }

  lemma {:induction false} UncontestedPaid(seats: seq<Seat>)
    requires DistinctPlayers(seats) && |Contenders(seats)| == 1
    requires SumStacks(seats) + SumTotals(seats) == SumStarting(seats) <= U64_MAX
    ensures var a := Award(seats, Contenders(seats)[0], SumTotals(seats));
            && a.result.Ok? && LastContenderTakesPot(seats, a.state)
            && SumStacks(a.state) == SumStarting(a.state) && SumDeltas(Settlements(a.state)) == 0
  {
    hide SumStacks, SumTotals, SumStarting, SumDeltas, Settlements, PlayersWhere, Award;
    var i := FindOnlyContender(seats);
    PotAwardBalances(seats, i);
    assert LastContenderTakesPot(seats, Award(seats, seats[i].player, SumTotals(seats)).state);
  }

  lemma {:induction false} UncontestedSettles(h: Hand)
    requires MidRound(h) && |Contenders(h.seats)| == 1
    ensures var a := FinishUncontested(h, Contenders(h.seats)[0]);
            a.result.Ok? && Settled(a.state, a.result.value) && LastContenderTakesPot(h.seats, a.state.seats)
  {
    BettingIsBooked(h);
    hide SeatBooked, ActiveSeatsLead, SumStacks, SumTotals, SumStarting, SumDeltas, Settlements, PlayersWhere, Award;
    hide LastContenderTakesPot;
    UncontestedPaid(h.seats);
  }

  // ----- The main results about `act` -----

  ghost predicate OutcomeHonest(before: Hand, after: Hand, outcome: Outcome) {
    match outcome
    case WaitingFor(player) =>
      && Awaiting(after) && after.street == before.street && NextPlayer(after) == Some(player)
    case StreetAdvanced(street, first) =>
      && Awaiting(after) && StreetsLeft(street) < StreetsLeft(before.street) && after.street == street
      && first == NextPlayer(after) && |after.pending| >= 2 && after.currentBet == 0
      && after.pending == after.raiseRights == ActionablePlayers(after.seats, None)
    case ShowdownReady => AtShowdown(after)
    case HandComplete(settlement) => Settled(after, settlement)
  }

  lemma {:induction false} PassTurnHonest(h: Hand, i: nat)
    requires MidRound(h) && |Contenders(h.seats)| >= 1 && i < |h.seats|
    ensures var a := PassTurn(h, i);
            && a.result.Ok? && OutcomeHonest(h, a.state, a.result.value)
            && (a.result.value.HandComplete? ==> LastContenderTakesPot(h.seats, a.state.seats))
            && (!a.result.value.HandComplete? ==> SameSeatsNewStreet(h.seats, a.state.seats) && a.state.level == h.level)
            && (a.result.value.StreetAdvanced? ==> h.pending == {})
            && (a.result.value.WaitingFor? ==> a.state == h.(nextToAct := a.state.nextToAct))
  {
    if |Contenders(h.seats)| == 1 {
      UncontestedSettles(h);
    } else if h.pending == {} {
      assert h.(raiseRights := {}) == h;
      AdvanceStreetRests(h);
    } else {
      SomeoneIsNext(h.seats, h.pending, Clockwise(i, 1, |h.seats|));
    }
  }

  lemma {:induction false} ActIsPerformAndPass(h: Hand, player: PlayerId, action: PlayerAction)
    requires Awaiting(h) && Act(h, player, action).result.Ok?
    ensures var i := h.nextToAct.value;
            && player == h.seats[i].player && Perform(h, i, action).result.Ok?
            && Act(h, player, action) == PassTurn(Perform(h, i, action).state, i)
            && Perform(h, i, action).state.street == h.street && Perform(h, i, action).state.level == h.level
  {
    hide PassTurn;
  }

  lemma {:induction false} PerformKeepsStreet(h: Hand, action: PlayerAction)
    requires h.nextToAct.Some? && h.nextToAct.value < |h.seats| && Perform(h, h.nextToAct.value, action).result.Ok?
    ensures Perform(h, h.nextToAct.value, action).state.street == h.street
  {
  }

  /** In every state that awaits an action: exactly the legal actions are accepted, a refused action changes nothing,
      the internal errors never occur, and an accepted action leads to a state of the announced kind. */
  lemma {:induction false} ActSound(h: Hand, player: PlayerId, action: PlayerAction)
    requires Awaiting(h)
    ensures var a := Act(h, player, action);
            && (a.result.Ok? <==> Legal(h, player, action))
            && (a.result.Err? ==> a.state == h && !a.result.error.StateInvariant? && !a.result.error.ChipOverflow?)
            && (a.result.Ok? ==> OutcomeHonest(h, a.state, a.result.value))
  {
    hide Perform, PassTurn, TableDealt, MidRound, LastContenderTakesPot, AtShowdown, Settled;
    if player == h.seats[h.nextToAct.value].player {
      PerformIffLegal(h, action);
      var done := Perform(h, h.nextToAct.value, action);
      if done.result.Ok? {
        PerformKeepsBetting(h, action);
        PerformKeepsStreet(h, action);
        PassTurnHonest(done.state, h.nextToAct.value);
      }
    }
  }

  /** The turn goes clockwise: nobody between the player who acted and the next one still had to act. */
  lemma {:induction false} ActPassesClockwise(h: Hand, player: PlayerId, action: PlayerAction)
    requires Awaiting(h) && Act(h, player, action).result.Ok? && Act(h, player, action).result.value.WaitingFor?
    ensures var after := Act(h, player, action).state;
            var from := Clockwise(h.nextToAct.value, 1, |h.seats|);
            && Awaiting(after) && |after.seats| == |h.seats|
            && forall j :: 0 <= j < |h.seats| && Distance(from, j, |h.seats|) < Distance(from, after.nextToAct.value, |h.seats|)
                 ==> after.seats[j].player !in after.pending
  {
    hide Act, Perform, PassTurn, MidRound, NextPendingFrom, ActionablePlayers, TableDealt;
    ActSound(h, player, action);
    ActIsPerformAndPass(h, player, action);
    PerformKeepsBetting(h, action);
    var h' := Perform(h, h.nextToAct.value, action).state;
    PassTurnHonest(h', h.nextToAct.value);
    NextPendingIsNearest(h'.seats, h'.pending, Clockwise(h.nextToAct.value, 1, |h.seats|), 0);
    NextPendingEqual(h', h.nextToAct.value);
  }

  lemma {:induction false} NextPendingEqual(h: Hand, i: nat)
    requires MidRound(h) && |Contenders(h.seats)| >= 1 && i < |h.seats| && Playable(h)
    requires PassTurn(h, i).result.Ok? && PassTurn(h, i).result.value.WaitingFor?
    ensures PassTurn(h, i).state == h.(nextToAct := NextPendingFrom(h.seats, h.pending, Clockwise(i, 1, |h.seats|)))
  {
    if |Contenders(h.seats)| != 1 && h.pending == {} {
      assert h.(raiseRights := {}) == h;
      AdvanceStreetRests(h);
    }
  }
}
