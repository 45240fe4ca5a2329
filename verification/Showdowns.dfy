/** What a showdown pays, and exactly when it can be settled. */
module Showdowns {
  import opened Chips
  import opened Stakes
  import opened Holdem
  import opened Books
  import opened Betting
  import opened SidePots

  /** The result for seat `w`: what it kept, plus what its side pots pay. */
  ghost predicate FairlyPaid(before: seq<Seat>, after: seq<Seat>, ranks: map<PlayerId, int>, w: nat)
    requires w < |before| == |after| && RanksKnown(before, ranks)
  {
    var total := before[w].totalCommitted;
    var paid := after[w].stack - before[w].stack;
    && 0 <= paid <= Entitlement(before, w)
    && (BeatsAll(before, ranks, w) ==> paid == Entitlement(before, w))
    && (Outranked(before, ranks, w) ==> paid == 0)
    && (before[w].status.Folded? ==> paid == Surplus(total, Lead(before)))
    && (before[w].status.Folded? && paid > 0 ==>
          forall j :: 0 <= j < |before| && j != w ==> before[j].totalCommitted <= Lead(before))
  }

  lemma {:induction false} ShowdownReadyToSettle(h: Hand, ranks: map<PlayerId, int>)
    requires AtShowdown(h) && RanksKnown(h.seats, ranks)
    ensures LayersReady(h.seats, h.dealer, ranks, 0, Thresholds(h.seats)) && PotUpTo(h.seats, 0) == 0
    ensures SumStacks(h.seats) + SumTotals(h.seats) == SumStarting(h.seats) <= U64_MAX
  {
    BooksFit(h);
    PotGrows(h.seats, 0, 0);
  }

  lemma {:induction false} SomeoneContends(h: Hand)
    requires AtShowdown(h)
    ensures exists i :: 0 <= i < |h.seats| && IsContender(h.seats[i])
  {
    PlayersWhereMembers(h.seats, IsContender);
    assert Contenders(h.seats)[0] in Contenders(h.seats);
  }

  lemma {:induction false} SurplusIsOverOthers(seats: seq<Seat>, w: nat)
    requires w < |seats| && !OrphanedPot(seats) && seats[w].status.Folded? && seats[w].totalCommitted > Lead(seats)
    ensures forall j :: 0 <= j < |seats| && j != w ==> seats[j].totalCommitted <= Lead(seats)
  {
    LeadIsGreatest(seats);
    assert FoldedAhead(seats, w);
    forall j | 0 <= j < |seats| && j != w ensures seats[j].totalCommitted <= Lead(seats) {
      if seats[j].status.Folded? && seats[j].totalCommitted > Lead(seats) {
        assert FoldedAhead(seats, j);
      }
    }
  }

  lemma {:induction false} SeatFairlyPaid(h: Hand, ranks: map<PlayerId, int>, w: nat)
    requires AtShowdown(h) && RanksKnown(h.seats, ranks) && !OrphanedPot(h.seats) && w < |h.seats|
    ensures var a := SettleLayers(h.seats, h.dealer, ranks, 0, Thresholds(h.seats));
            && a.result.Ok? && SameButStacks(h.seats, a.state)
            && SumStacks(a.state) == SumStarting(h.seats)
            && FairlyPaid(h.seats, a.state, ranks, w)
  {
    hide LayersReady, OrphanedPot, Thresholds, SumStacks, SumTotals, SumStarting, PotUpTo, SettleLayers, BeatsAll, Outranked;
    AtShowdownIsDealt(h);
    hide AtShowdown;
    ShowdownReadyToSettle(h, ranks);
    LayersSettle(h.seats, h.dealer, ranks, 0, Thresholds(h.seats), w);
    if h.seats[w].status.Folded? && h.seats[w].totalCommitted > Lead(h.seats) { SurplusIsOverOthers(h.seats, w); }
  }

  /** Before an orphaned pot stops it, a showdown has paid out chips: every contender is all-in. */
  lemma {:induction false} OrphanedPaysSome(h: Hand)
    requires AtShowdown(h) && OrphanedPot(h.seats)
    ensures PotUpTo(h.seats, Lead(h.seats)) > 0
  {
    SomeoneContends(h);
    var i :| 0 <= i < |h.seats| && IsContender(h.seats[i]);
    if h.seats[i].status.Active? { ActiveContenderSettles(h, i); }
    LeadIsGreatest(h.seats);
    PotHolds(h.seats, Lead(h.seats), i);
  }

  lemma {:induction false} PotHolds(seats: seq<Seat>, t: nat, i: nat)
    requires i < |seats|
    ensures PotUpTo(seats, t) >= Min(seats[i].totalCommitted, t)
  {
    if i < |seats| - 1 { PotHolds(seats[..|seats| - 1], t, i); }
  }

  /** A showdown that stops has given the contenders exactly the layers they reached, and is not undone. */
  ghost predicate PaidInPart(h: Hand, after: Hand) {
    && after == h.(seats := after.seats) && SameButStacks(h.seats, after.seats)
    && SumStacks(after.seats) == SumStacks(h.seats) + PotUpTo(h.seats, Lead(h.seats))
  }

  lemma {:induction false} ShowdownStops(h: Hand, ranks: map<PlayerId, int>)
    requires AtShowdown(h) && RanksKnown(h.seats, ranks) && OrphanedPot(h.seats)
    ensures var a := SettleRanked(h, ranks);
            && a.result == Err(StateInvariant) && PaidInPart(h, a.state) && a.state != h
  {
    hide SettleLayers, OrphanedPot, Thresholds, SumStacks, SumStarting, BuildSettlement, AtShowdown;
    ShowdownReadyToSettle(h, ranks);
    SomeoneContends(h);
    LayersFail(h.seats, h.dealer, ranks, 0, Thresholds(h.seats));
    OrphanedPaysSome(h);
    assert TableDealt(h) by { AtShowdownIsDealt(h); }
  }

  lemma {:induction false} AtShowdownIsDealt(h: Hand)
    requires AtShowdown(h)
    ensures TableDealt(h)
  {}

  /** What equal hands are paid: together, exactly the layers they reach above the largest commitment among the
      contenders that beat them. */
  ghost predicate RanksPaid(before: seq<Seat>, after: seq<Seat>, ranks: map<PlayerId, int>) {
    forall r :: RankStacks(after, ranks, r) == RankStacks(before, ranks, r) + RankShare(before, ranks, 0, r)
  }

  /** Every showdown: it settles exactly if no two folded seats put in more than every contender. A settled showdown
      returns the players' chips to the last one, and pays every seat what its side pots entitle it to. */
  lemma {:induction false} ShowdownSettles(h: Hand, ranks: map<PlayerId, int>)
    requires AtShowdown(h) && RanksKnown(h.seats, ranks)
    ensures var a := SettleRanked(h, ranks);
            && (a.result.Ok? <==> !OrphanedPot(h.seats))
            && (a.result.Err? ==> a.result.error.StateInvariant? && PaidInPart(h, a.state))
            && a.state != h
            && (a.result.Ok? ==> Settled(a.state, a.result.value) && SameButStacks(h.seats, a.state.seats)
                                 && RanksPaid(h.seats, a.state.seats, ranks)
                                 && forall w :: 0 <= w < |h.seats| ==> FairlyPaid(h.seats, a.state.seats, ranks, w))
  {
    hide SettleLayers, OrphanedPot, FairlyPaid, Thresholds, SumStacks, SumStarting, Settled, BuildSettlement;
    hide RankStacks, RankShare, PaidInPart;
    if OrphanedPot(h.seats) {
      ShowdownStops(h, ranks);
    } else {
      var paid := SettleLayers(h.seats, h.dealer, ranks, 0, Thresholds(h.seats)).state;
      forall w | 0 <= w < |h.seats|
        ensures SettleLayers(h.seats, h.dealer, ranks, 0, Thresholds(h.seats)).result.Ok?
        ensures SameButStacks(h.seats, paid) && SumStacks(paid) == SumStarting(h.seats) && FairlyPaid(h.seats, paid, ranks, w)
      {
        SeatFairlyPaid(h, ranks, w);
      }
      SeatFairlyPaid(h, ranks, 0);
      PaidIsSettled(h, paid);
      ShowdownReadyToSettle(h, ranks);
      forall r ensures RankStacks(paid, ranks, r) == RankStacks(h.seats, ranks, r) + RankShare(h.seats, ranks, 0, r) {
        RankPaid(h.seats, h.dealer, ranks, 0, Thresholds(h.seats), r);
      }
    }
  }

  lemma {:induction false} PaidIsSettled(h: Hand, paid: seq<Seat>)
    requires SameButStacks(h.seats, paid) && SumStacks(paid) == SumStarting(h.seats)
    ensures BuildSettlement(paid).Ok? && Settled(h.(seats := paid, street := Complete), BuildSettlement(paid).value)
  {
    hide SumStacks, SumStarting, Settlements, SumDeltas;
    SameStarting(h.seats, paid);
    DeltasAreStackChanges(paid);
  }

  /** With a contender who is not all-in every layer has a winner. */
  lemma {:induction false} ActiveContenderSettles(h: Hand, i: nat)
    requires AtShowdown(h) && i < |h.seats| && h.seats[i].status.Active?
    ensures !OrphanedPot(h.seats)
  {}

  /** The same with cards on the table: a showdown with complete and distinct cards settles exactly as above,
      whatever the evaluator; otherwise the hand is left alone. */
  lemma {:induction false} ShowdownOfCards(h: Hand, board: seq<Card>, holes: map<PlayerId, (Card, Card)>,
      strength: seq<Card> -> int)
    requires AtShowdown(h)
    ensures var a := SettleShowdown(h, board, holes, strength);
            var contenders := Contenders(h.seats);
            if exists i :: 0 <= i < |h.seats| && IsContender(h.seats[i]) && h.seats[i].player !in holes then
              a == Attempt(h, Err(MissingHoleCards))
            else
              && (forall p :: p in contenders ==> p in holes)
              && if HasDuplicate(board + HoleCards(contenders, holes)) then a == Attempt(h, Err(DuplicateCard))
                 else
                   var ranks := Ranks(contenders, board, holes, strength);
                   && RanksKnown(h.seats, ranks)
                   && a == SettleRanked(h, ranks)
                   && (a.result.Ok? <==> !OrphanedPot(h.seats))
  {
    hide SettleRanked, OrphanedPot, HoleCards;
    var contenders := Contenders(h.seats);
    PlayersWhereMembers(h.seats, IsContender);
    if forall i :: 0 <= i < |h.seats| && IsContender(h.seats[i]) ==> h.seats[i].player in holes {
      var ranks := Ranks(contenders, board, holes, strength);
      assert RanksKnown(h.seats, ranks);
      ShowdownSettles(h, ranks);
    }
  }
}
