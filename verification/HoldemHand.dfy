/** The hand as the program keeps it: one object whose fields and seats are updated in place. Each method does to the
    object what the function of the same name in `Holdem` does to a value. */
module HoldemObject {
  import opened Chips
  import opened Stakes
  import H = Holdem
  import opened Betting
  import opened SidePots
  import Showdowns

  class HoldemHand {
    const level: StakeLevel
    const dealerIndex: nat
    var street: H.Street
    var seats: seq<H.Seat>
    var pending: set<H.PlayerId>
    var raiseRights: set<H.PlayerId>
    var currentBet: nat
    var lastFullRaise: nat
    var nextToAct: Option<nat>

    ghost function Value(): H.Hand
      reads this
    {
      H.Hand(level, dealerIndex, street, seats, pending, raiseRights, currentBet, lastFullRaise, nextToAct)
    }

    constructor (level: StakeLevel, seats: seq<H.Seat>, dealerIndex: nat)
      ensures Value() == H.Hand(level, dealerIndex, H.Preflop, seats, {}, {}, level.bigBlind, level.bigBlind, None)
    {
      this.level, this.dealerIndex, this.seats := level, dealerIndex, seats;
      street, pending, raiseRights, nextToAct := H.Preflop, {}, {}, None;
      currentBet, lastFullRaise := level.bigBlind, level.bigBlind;
    }

    /** Posts the blinds and hands the turn to the first player. */
    static method Start(level: StakeLevel, buyIns: seq<(H.PlayerId, nat)>,
        dealerIndex: nat) returns (r: H.Result<HoldemHand>)
      requires ValidLevel(level)
      ensures r.Ok? ==> fresh(r.value) && H.Start(level, buyIns, dealerIndex) == H.Ok(r.value.Value())
      ensures r.Err? ==> H.Start(level, buyIns, dealerIndex) == H.Err(r.error)
    {
      if |buyIns| < level.minPlayers || |buyIns| > level.maxPlayers { return H.Err(H.InvalidSeatCount); }
      if dealerIndex >= |buyIns| { return H.Err(H.InvalidDealerIndex); }
      if exists i, j :: 0 <= i < j < |buyIns| && buyIns[i].0 == buyIns[j].0 { return H.Err(H.DuplicatePlayer); }
      if exists i :: 0 <= i < |buyIns| && !(level.minBuyIn <= buyIns[i].1 <= level.maxBuyIn) {
        return H.Err(H.StackOutsideBuyInRange);
      }
      var hand := new HoldemHand(level, H.Seated(buyIns), dealerIndex);
      var (small, big, first) := H.BlindPositions(dealerIndex, |buyIns|);
      var posted := hand.Commit(small, level.smallBlind);
      if posted.Err? { return H.Err(posted.error); }
      posted := hand.Commit(big, level.bigBlind);
      if posted.Err? { return H.Err(posted.error); }
      hand.ResetPendingForStreet();
      hand.nextToAct := H.NextPendingFrom(hand.seats, hand.pending, first);
      r := H.Ok(hand);
    }

    method Commit(i: nat, requested: nat) returns (r: H.Result<Unit>)
      requires i < |seats|
      modifies this`seats
      ensures H.Attempt(seats, r) == H.CommitAt(old(seats), i, requested)
    {
      var amount := Min(requested, seats[i].stack);
      seats := seats[i := seats[i].(stack := seats[i].stack - amount)];
      if seats[i].totalCommitted + amount > U64_MAX { return H.Err(H.ChipOverflow); }
      seats := seats[i := seats[i].(totalCommitted := seats[i].totalCommitted + amount)];
      assert seats == old(seats)[i := seats[i]];
      if seats[i].streetCommitted + amount > U64_MAX { return H.Err(H.ChipOverflow); }
      seats := seats[i := seats[i].(streetCommitted := seats[i].streetCommitted + amount)];
      if seats[i].stack == 0 {
        seats := seats[i := seats[i].(status := H.AllIn)];
      }
      assert seats == old(seats)[i := seats[i]];
      r := H.Ok(Unit);
    }

    method ResetPendingForStreet()
      modifies this`pending, this`raiseRights
      ensures pending == raiseRights == H.ActionablePlayers(seats, None)
    {
      pending := H.ActionablePlayers(seats, None);
      raiseRights := pending;
    }

    method ConsumeAction(player: H.PlayerId)
      modifies this`pending, this`raiseRights
      ensures Value() == H.ConsumeAction(old(Value()), player)
    {
      pending := pending - {player};
      raiseRights := raiseRights - {player};
    }

    /** A player's action. In a state that awaits one, the legal actions are exactly those accepted. */
    method Act(player: H.PlayerId, action: H.PlayerAction) returns (r: H.Result<H.Outcome>)
      requires H.Playable(Value())
      modifies this
      ensures H.Attempt(Value(), r) == H.Act(old(Value()), player, action)
      ensures old(Awaiting(Value())) ==> (r.Ok? <==> old(Awaiting(Value()) && Legal(Value(), player, action)))
      ensures old(Awaiting(Value())) && r.Err? ==> Value() == old(Value())
    {
      if Awaiting(Value()) { ActSound(Value(), player, action); }
      if nextToAct.None? { return H.Err(H.NoActionExpected); }
      var i := nextToAct.value;
      if seats[i].player != player { return H.Err(H.OutOfTurn); }
      var done := Perform(i, action);
      if done.Err? { return H.Err(done.error); }
      r := PassTurn(i);
    }

    method Perform(i: nat, action: H.PlayerAction) returns (r: H.Result<Unit>)
      requires i < |seats|
      modifies this`seats, this`pending, this`raiseRights, this`currentBet, this`lastFullRaise
      ensures H.Attempt(Value(), r) == H.Perform(old(Value()), i, action)
    {
      var player := seats[i].player;
      match action
      case Fold =>
        seats := seats[i := seats[i].(status := H.Folded)];
        ConsumeAction(player);
        r := H.Ok(Unit);
      case Check =>
        if seats[i].streetCommitted != currentBet { return H.Err(H.CannotCheck); }
        ConsumeAction(player);
        r := H.Ok(Unit);
      case Call =>
        var needed := if currentBet >= seats[i].streetCommitted then currentBet - seats[i].streetCommitted else 0;
        if needed == 0 { return H.Err(H.NothingToCall); }
        r := Commit(i, Min(needed, seats[i].stack));
        if r.Ok? { ConsumeAction(player); }
      case RaiseTo(target) =>
        r := RaiseTo(i, target);
    }

    method RaiseTo(i: nat, target: nat) returns (r: H.Result<Unit>)
      requires i < |seats|
      modifies this`seats, this`pending, this`raiseRights, this`currentBet, this`lastFullRaise
      ensures H.Attempt(Value(), r) == H.Raise(old(Value()), i, target)
    {
      var player := seats[i].player;
      if player !in raiseRights { return H.Err(H.RaiseNotReopened); }
      if target <= currentBet || target <= seats[i].streetCommitted { return H.Err(H.RaiseMustIncreaseBet); }
      var additional := target - seats[i].streetCommitted;
      if additional > seats[i].stack { return H.Err(H.InsufficientStack); }
      if currentBet != 0 && currentBet + lastFullRaise > U64_MAX { return H.Err(H.ChipOverflow); }
      var minimumTarget := if currentBet == 0 then level.bigBlind else currentBet + lastFullRaise;
      var isAllIn := additional == seats[i].stack;
      if target < minimumTarget && !isAllIn { return H.Err(H.RaiseBelowMinimum(minimumTarget)); }
      var previousBet := currentBet;
      r := Commit(i, additional);
      if r.Err? { return; }
      currentBet := target;
      pending := pending - {player};
      raiseRights := raiseRights - {player};
      if target >= minimumTarget {
        lastFullRaise := target - previousBet;
        pending := H.ActionablePlayers(seats, Some(player));
        raiseRights := pending;
      } else {
        ReopenForShortRaise();
      }
    }

    /** After a short all-in: everyone behind must act again, but may raise only against a full raise. */
    method ReopenForShortRaise()
      modifies this`pending, this`raiseRights
      ensures pending == old(pending) + H.Behind(seats, currentBet)
      ensures raiseRights == old(raiseRights) + H.Reopened(seats, currentBet, lastFullRaise)
    {
      for k := 0 to |seats|
        invariant pending == old(pending) + H.Behind(seats[..k], currentBet)
        invariant raiseRights == old(raiseRights) + H.Reopened(seats[..k], currentBet, lastFullRaise)
      {
        var seat := seats[k];
        ghost var front := seats[..k];
        assert seats[..k + 1] == front + [seat];
        BehindGrows(front, seat, currentBet, lastFullRaise);
        if seat.status.Active? && seat.streetCommitted < currentBet {
          pending := pending + {seat.player};
          if currentBet - seat.streetCommitted >= lastFullRaise {
            raiseRights := raiseRights + {seat.player};
          }
        }
      }
      assert seats[..|seats|] == seats;
    }

    method PassTurn(i: nat) returns (r: H.Result<H.Outcome>)
      requires H.Playable(Value()) && i < |seats|
      modifies this
      ensures H.Attempt(Value(), r) == H.PassTurn(old(Value()), i)
    {
      var contenders := H.Contenders(seats);
      if |contenders| == 1 {
        var settled := FinishUncontested(contenders[0]);
        return if settled.Ok? then H.Ok(H.HandComplete(settled.value)) else H.Err(settled.error);
      }
      if pending == {} {
        r := AdvanceStreet();
        return;
      }
      nextToAct := H.NextPendingFrom(seats, pending, H.Clockwise(i, 1, |seats|));
      if nextToAct.None? { return H.Err(H.StateInvariant); }
      r := H.Ok(H.WaitingFor(seats[nextToAct.value].player));
    }

    method AdvanceStreet() returns (r: H.Result<H.Outcome>)
      requires H.Playable(Value())
      modifies this
      ensures H.Attempt(Value(), r) == H.AdvanceStreet(old(Value()))
      decreases H.StreetsLeft(street)
    {
      match H.NextStreet(street)
      case None => return H.Err(H.StateInvariant);
      case Some(next) =>
        if next.Showdown? {
          street := next;
          nextToAct := None;
          return H.Ok(H.ShowdownReady);
        }
        OpenStreet(next);
        hide H.OpenStreet;
        if |pending| < 2 {
          pending := {};
          r := AdvanceStreet();
          return;
        }
        r := H.Ok(H.StreetAdvanced(street, if nextToAct.Some? then Some(seats[nextToAct.value].player) else None));
    }

    method OpenStreet(next: H.Street)
      requires H.Playable(Value())
      modifies this
      ensures Value() == H.OpenStreet(old(Value()), next) && H.Playable(Value())
    {
      hide H.ClearStreet, H.NextPendingFrom, H.ActionablePlayers;
      street := next;
      ClearStreetCommitments();
      currentBet := 0;
      lastFullRaise := level.bigBlind;
      ResetPendingForStreet();
      nextToAct := H.NextPendingFrom(seats, pending, H.Clockwise(dealerIndex, 1, |seats|));
    }

    method ClearStreetCommitments()
      modifies this`seats
      ensures seats == H.ClearStreet(old(seats))
    {
      for k := 0 to |seats|
        invariant |seats| == |old(seats)|
        invariant forall i :: 0 <= i < |seats| ==> seats[i] == if i < k then old(seats)[i].(streetCommitted := 0) else old(seats)[i]
      {
        seats := seats[k := seats[k].(streetCommitted := 0)];
      }
    }

    // ----- Settling -----

    method Award(player: H.PlayerId, amount: nat) returns (r: H.Result<Unit>)
      modifies this`seats
      ensures H.Attempt(seats, r) == H.Award(old(seats), player, amount)
    {
      var i := H.SeatIndex(seats, player);
      if i.None? { return H.Err(H.UnknownPlayer); }
      if seats[i.value].stack + amount > U64_MAX { return H.Err(H.ChipOverflow); }
      seats := seats[i.value := seats[i.value].(stack := seats[i.value].stack + amount)];
      r := H.Ok(Unit);
    }

    method AwardEach(players: seq<H.PlayerId>, amount: nat) returns (r: H.Result<Unit>)
      modifies this`seats
      ensures H.Attempt(seats, r) == H.AwardEach(old(seats), players, amount)
    {
      r := H.Ok(Unit);
      for k := 0 to |players|
        invariant r == H.Ok(Unit) && |seats| == |old(seats)|
        invariant H.AwardEach(old(seats), players, amount) == H.AwardEach(seats, players[k..], amount)
      {
        assert players[k..][0] == players[k] && players[k..][1..] == players[k + 1..];
        r := Award(players[k], amount);
        if r.Err? { return; }
      }
      assert players[|players|..] == [];
    }

    method AwardSplit(pot: nat, winners: seq<H.PlayerId>) returns (r: H.Result<Unit>)
      requires dealerIndex < |seats| && |winners| > 0
      modifies this`seats
      ensures H.Attempt(seats, r) == H.AwardSplit(old(seats), dealerIndex, pot, winners)
    {
      r := AwardEach(winners, H.Share(pot, |winners|));
      if r.Err? { return; }
      var ordered := H.FromDealersLeft(seats, dealerIndex, H.PlayerSet(winners));
      r := AwardEach(H.Take(ordered, H.OddChips(pot, |winners|)), 1);
    }

    method FinishUncontested(winner: H.PlayerId) returns (r: H.Result<seq<H.PlayerSettlement>>)
      modifies this`seats, this`street
      ensures H.Attempt(Value(), r) == H.FinishUncontested(old(Value()), winner)
    {
      var pot := H.SumTotals(seats);
      if pot > U64_MAX { return H.Err(H.ChipOverflow); }
      var paid := Award(winner, pot);
      if paid.Err? { return H.Err(paid.error); }
      street := H.Complete;
      r := H.BuildSettlement(seats);
    }

    /** Pays out layer by layer, from the smallest commitment upwards. At a showdown it succeeds exactly
        if no pot is orphaned. */
    method SettleShowdown(board: seq<H.Card>, holes: map<H.PlayerId, (H.Card, H.Card)>, strength: seq<H.Card> -> int)
      returns (r: H.Result<seq<H.PlayerSettlement>>)
      requires dealerIndex < |seats|
      modifies this`seats, this`street
      ensures H.Attempt(Value(), r) == H.SettleShowdown(old(Value()), board, holes, strength)
    {
      if !street.Showdown? { return H.Err(H.ShowdownNotReady); }
      var contenders := H.Contenders(seats);
      if exists p :: p in contenders && p !in holes { return H.Err(H.MissingHoleCards); }
      if H.HasDuplicate(board + H.HoleCards(contenders, holes)) { return H.Err(H.DuplicateCard); }
      H.PlayersWhereMembers(seats, H.IsContender);
      r := SettleRanked(H.Ranks(contenders, board, holes, strength));
    }

    method SettleRanked(ranks: map<H.PlayerId, int>) returns (r: H.Result<seq<H.PlayerSettlement>>)
      requires dealerIndex < |seats| && H.RanksKnown(seats, ranks)
      modifies this`seats, this`street
      ensures H.Attempt(Value(), r) == H.SettleRanked(old(Value()), ranks)
    {
      var thresholds := H.Thresholds(seats);
      var previous := 0;
      for k := 0 to |thresholds|
        invariant dealerIndex < |seats| && street == old(street) && H.RanksKnown(seats, ranks)
        invariant H.AscendingAbove(previous, thresholds[k..])
        invariant H.SettleLayers(old(seats), dealerIndex, ranks, 0, thresholds)
                  == H.SettleLayers(seats, dealerIndex, ranks, previous, thresholds[k..])
      {
        assert thresholds[k..][0] == thresholds[k] && thresholds[k..][1..] == thresholds[k + 1..];
        var paid := SettleLayer(ranks, previous, thresholds[k]);
        if paid.Err? { return H.Err(paid.error); }
        previous := thresholds[k];
      }
      street := H.Complete;
      r := H.BuildSettlement(seats);
    }

    method SettleLayer(ranks: map<H.PlayerId, int>, previous: nat, threshold: nat) returns (r: H.Result<Unit>)
      requires dealerIndex < |seats| && previous < threshold && H.RanksKnown(seats, ranks)
      modifies this`seats
      ensures H.Attempt(seats, r) == H.SettleLayer(old(seats), dealerIndex, ranks, previous, threshold)
    {
      var contributors := H.PlayersWhere(seats, H.Covers(threshold));
      var pot := H.LayerPot(previous, threshold, |contributors|);
      if pot > U64_MAX { return H.Err(H.ChipOverflow); }
      var eligible := H.PlayersWhere(seats, H.EligibleFor(threshold));
      if |eligible| == 0 {
        if |contributors| != 1 { return H.Err(H.StateInvariant); }
        r := Award(contributors[0], pot);
        return;
      }
      var best := H.Strongest(eligible, ranks);
      var winners := H.WithRank(eligible, ranks, best);
      r := AwardSplit(pot, winners);
    }
  }

  lemma {:induction false} BehindGrows(front: seq<H.Seat>, s: H.Seat, bet: nat, fullRaise: nat)
    ensures H.Behind(front + [s], bet) == H.Behind(front, bet) + (if s.status.Active? && s.streetCommitted < bet then {s.player} else {})
    ensures H.Reopened(front + [s], bet, fullRaise)
            == H.Reopened(front, bet, fullRaise)
               + (if s.status.Active? && s.streetCommitted < bet && bet - s.streetCommitted >= fullRaise then {s.player} else {})
  {
    var all := front + [s];
    assert all[|front|] == s;
    forall i | 0 <= i < |front| ensures all[i] == front[i] {}
  }
}
