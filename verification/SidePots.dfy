/** Side pots: how a showdown divides the committed chips into layers and pays each of them out. */
module SidePots {
  import opened Chips
  import opened Holdem
  import opened Books
  import opened Betting

  // ----- Lists without repetition -----

  ghost predicate NoRepeat(players: seq<PlayerId>) {
    forall i, j :: 0 <= i < j < |players| ==> players[i] != players[j]
  }

  ghost predicate Seats(seats: seq<Seat>, players: seq<PlayerId>) {
    forall p :: p in players ==> exists i :: 0 <= i < |seats| && seats[i].player == p
  }

  lemma {:induction false} NoRepeatSize(players: seq<PlayerId>)
    requires NoRepeat(players)
    ensures |PlayerSet(players)| == |players|
  {
    if |players| > 0 {
      var rest := players[1..];
      NoRepeatSize(rest);
      assert players[0] !in rest;
      assert PlayerSet(players) == PlayerSet(rest) + {players[0]};
    } else {
      assert PlayerSet(players) == {};
    }
  }

  lemma {:induction false} SameMembersSameSize(a: seq<PlayerId>, b: seq<PlayerId>)
    requires NoRepeat(a) && NoRepeat(b) && forall p :: p in a <==> p in b
    ensures |a| == |b|
  {
    NoRepeatSize(a);
    NoRepeatSize(b);
    assert PlayerSet(a) == PlayerSet(b);
  }

  lemma {:induction false} PlayersWhereNoRepeat(seats: seq<Seat>, f: Seat -> bool)
    requires DistinctPlayers(seats)
    ensures NoRepeat(PlayersWhere(seats, f)) && Seats(seats, PlayersWhere(seats, f))
  {
    PlayersWhereMembers(seats, f);
    if |seats| > 0 {
      var n := |seats| - 1;
      PlayersWhereNoRepeat(seats[..n], f);
      PlayersWhereMembers(seats[..n], f);
      assert seats[n].player !in PlayersWhere(seats[..n], f);
    }
  }

  lemma {:induction false} PlayersWhereAt(seats: seq<Seat>, f: Seat -> bool, i: nat)
    requires DistinctPlayers(seats) && i < |seats|
    ensures seats[i].player in PlayersWhere(seats, f) <==> f(seats[i])
  {
    PlayersWhereMembers(seats, f);
  }

  // ----- Awards -----

  /** `count` awards of `amount`. */
  ghost function Times(count: nat, amount: nat): nat {
    if count == 0 then 0 else amount + Times(count - 1, amount)
  }

  lemma {:induction false} TimesIsProduct(count: nat, amount: nat)
    ensures Times(count, amount) == count * amount
  {
    if count > 0 { TimesIsProduct(count - 1, amount); }
  }

  lemma {:induction false} AwardEachPays(seats: seq<Seat>, players: seq<PlayerId>, amount: nat)
    requires DistinctPlayers(seats) && NoRepeat(players) && Seats(seats, players)
    requires SumStacks(seats) + Times(|players|, amount) <= U64_MAX
    ensures var a := AwardEach(seats, players, amount);
            && a.result.Ok? && SameButStacks(seats, a.state)
            && SumStacks(a.state) == SumStacks(seats) + Times(|players|, amount)
            && forall i :: 0 <= i < |seats| ==>
                 a.state[i].stack == seats[i].stack + (if seats[i].player in players then amount else 0)
    decreases |players|
  {
    hide Award, SumStacks;
    if |players| > 0 {
      assert players[0] in players;
      var k :| 0 <= k < |seats| && seats[k].player == players[0];
      var rest := players[1..];
      AwardPays(seats, k, amount);
      var next := Award(seats, players[0], amount).state;
      forall p | p in rest ensures exists i :: 0 <= i < |next| && next[i].player == p {
        assert p in players;
        var i :| 0 <= i < |seats| && seats[i].player == p;
        assert next[i].player == p;
      }
      AwardEachPays(next, rest, amount);
    }
  }

  // ----- Splitting one layer -----

  /** How many seats `i` sits left of the dealer, the dealer's own seat last. */
  function LeftOf(dealer: nat, i: nat, n: nat): nat
    requires dealer < n && i < n
  {
    if i > dealer then i - dealer else i + n - dealer
  }

  /** The walk to the dealer's left, one seat at a time. */
  lemma {:induction false} FromDealersLeftSteps(seats: seq<Seat>, dealer: nat, players: set<PlayerId>, offset: nat)
    requires dealer < |seats| && 1 <= offset <= |seats| + 1
    ensures offset == |seats| + 1 ==> FromDealersLeft(seats, dealer, players, offset) == []
    ensures offset <= |seats| ==>
              var k := Clockwise(dealer, offset, |seats|);
              && k < |seats| && LeftOf(dealer, k, |seats|) == offset
              && FromDealersLeft(seats, dealer, players, offset)
                 == (if seats[k].player in players then [seats[k].player] else []) + FromDealersLeft(seats, dealer, players, offset + 1)
  {
  }

  lemma {:induction false} FromDealersLeftLists(seats: seq<Seat>, dealer: nat, players: set<PlayerId>, offset: nat)
    requires dealer < |seats| && 1 <= offset <= |seats| + 1 && DistinctPlayers(seats)
    ensures var r := FromDealersLeft(seats, dealer, players, offset);
            && NoRepeat(r) && Seats(seats, r)
            && forall i :: 0 <= i < |seats| ==>
                 (seats[i].player in r <==> seats[i].player in players && LeftOf(dealer, i, |seats|) >= offset)
    decreases |seats| + 1 - offset
  {
    hide FromDealersLeft;
    FromDealersLeftSteps(seats, dealer, players, offset);
    if offset <= |seats| {
      FromDealersLeftLists(seats, dealer, players, offset + 1);
      assert seats[Clockwise(dealer, offset, |seats|)].player !in FromDealersLeft(seats, dealer, players, offset + 1);
    }
  }

  lemma {:induction false} FromDealersLeftSorted(seats: seq<Seat>, dealer: nat, players: set<PlayerId>, offset: nat,
      a: nat, b: nat, i: nat, j: nat)
    requires dealer < |seats| && 1 <= offset <= |seats| + 1 && DistinctPlayers(seats)
    requires a < b < |FromDealersLeft(seats, dealer, players, offset)|
    requires i < |seats| && seats[i].player == FromDealersLeft(seats, dealer, players, offset)[a]
    requires j < |seats| && seats[j].player == FromDealersLeft(seats, dealer, players, offset)[b]
    ensures LeftOf(dealer, i, |seats|) < LeftOf(dealer, j, |seats|)
    decreases |seats| + 1 - offset
  {
    hide FromDealersLeft, LeftOf, Clockwise, NoRepeat, Seats;
    FromDealersLeftSteps(seats, dealer, players, offset);
    FromDealersLeftLists(seats, dealer, players, offset + 1);
    var k := Clockwise(dealer, offset, |seats|);
    if seats[k].player !in players {
      FromDealersLeftSorted(seats, dealer, players, offset + 1, a, b, i, j);
    } else if a == 0 {
      assert i == k;
      assert seats[j].player == FromDealersLeft(seats, dealer, players, offset + 1)[b - 1];
    } else {
      FromDealersLeftSorted(seats, dealer, players, offset + 1, a - 1, b - 1, i, j);
    }
  }

  /** A winner who gets an odd chip never sits further round the table than a winner who gets none. */
  lemma {:induction false} OddChipsFromTheLeft(seats: seq<Seat>, dealer: nat, players: set<PlayerId>, count: nat,
      i: nat, j: nat)
    requires dealer < |seats| && DistinctPlayers(seats)
    requires i < |seats| && j < |seats| && seats[j].player in players
    requires LeftOf(dealer, j, |seats|) <= LeftOf(dealer, i, |seats|)
    requires seats[i].player in Take(FromDealersLeft(seats, dealer, players), count)
    ensures seats[j].player in Take(FromDealersLeft(seats, dealer, players), count)
  {
    var all := FromDealersLeft(seats, dealer, players);
    FromDealersLeftLists(seats, dealer, players, 1);
    var a :| 0 <= a < |Take(all, count)| && all[a] == seats[i].player;
    assert seats[j].player in all;
    var b :| 0 <= b < |all| && all[b] == seats[j].player;
    if a < b { FromDealersLeftSorted(seats, dealer, players, 1, a, b, i, j); }
    assert Take(all, count)[b] == seats[j].player;
  }

  /** Each winner gets `share` or one chip more; nobody further from the dealer's left gets more. */
  ghost predicate ShareOut(before: seq<Seat>, after: seq<Seat>, dealer: nat, share: nat, winners: seq<PlayerId>)
    requires dealer < |before| == |after|
  {
    && (forall i :: 0 <= i < |before| && before[i].player !in winners ==> after[i].stack == before[i].stack)
    && (forall i :: 0 <= i < |before| && before[i].player in winners ==>
          before[i].stack + share <= after[i].stack <= before[i].stack + share + 1)
    && (forall i, j :: 0 <= i < |before| && 0 <= j < |before| && before[i].player in winners && before[j].player in winners
          && LeftOf(dealer, i, |before|) <= LeftOf(dealer, j, |before|)
          ==> after[j].stack - before[j].stack <= after[i].stack - before[i].stack)
  }

  /** What splitting `pot` does: the winners share it evenly, to the chip. */
  ghost predicate SplitEvenly(before: seq<Seat>, after: seq<Seat>, dealer: nat, pot: nat, winners: seq<PlayerId>)
    requires |winners| > 0 && dealer < |before|
  {
    && SameButStacks(before, after)
    && SumStacks(after) == SumStacks(before) + pot
    && ShareOut(before, after, dealer, Share(pot, |winners|), winners)
  }

  lemma {:induction false} OddWinners(seats: seq<Seat>, dealer: nat, winners: seq<PlayerId>, count: nat)
    requires DistinctPlayers(seats) && dealer < |seats| && NoRepeat(winners) && Seats(seats, winners) && count <= |winners|
    ensures var odd := Take(FromDealersLeft(seats, dealer, PlayerSet(winners)), count);
            && |odd| == count && NoRepeat(odd) && Seats(seats, odd)
            && (forall i :: 0 <= i < |seats| && seats[i].player in odd ==> seats[i].player in winners)
  {
    var ordered := FromDealersLeft(seats, dealer, PlayerSet(winners));
    FromDealersLeftLists(seats, dealer, PlayerSet(winners), 1);
    forall p ensures p in ordered <==> p in winners {
      if p in ordered || p in winners {
        var i :| 0 <= i < |seats| && seats[i].player == p;
        assert LeftOf(dealer, i, |seats|) >= 1;
      }
    }
    SameMembersSameSize(ordered, winners);
    assert forall p :: p in ordered[..count] ==> p in ordered;
  }

  lemma {:induction false} SplitAmounts(pot: nat, n: nat)
    requires n > 0
    ensures Times(n, Share(pot, n)) + Times(OddChips(pot, n), 1) == pot && OddChips(pot, n) < n
  {
    TimesIsProduct(n, Share(pot, n));
    TimesIsProduct(OddChips(pot, n), 1);
  }

  /** Everyone's award in a split: an equal share for each winner and an odd chip for some of them. */
  lemma {:induction false} AwardSplitShares(seats: seq<Seat>, dealer: nat, pot: nat, winners: seq<PlayerId>)
    requires DistinctPlayers(seats) && dealer < |seats|
    requires |winners| > 0 && NoRepeat(winners) && Seats(seats, winners)
    requires SumStacks(seats) + pot <= U64_MAX
    ensures var a := AwardSplit(seats, dealer, pot, winners);
            var shared := AwardEach(seats, winners, Share(pot, |winners|)).state;
            && |shared| == |seats|
            && var odd := Take(FromDealersLeft(shared, dealer, PlayerSet(winners)), OddChips(pot, |winners|));
            && a.result.Ok? && SameButStacks(seats, shared) && SameButStacks(seats, a.state)
            && SumStacks(a.state) == SumStacks(seats) + pot
            && (forall i :: 0 <= i < |seats| && seats[i].player in odd ==> seats[i].player in winners)
            && (forall i :: 0 <= i < |seats| ==>
                  a.state[i].stack == seats[i].stack
                    + (if seats[i].player in winners then Share(pot, |winners|) else 0) + (if seats[i].player in odd then 1 else 0))
  {
    var n := |winners|;
    SplitAmounts(pot, n);
    AwardEachPays(seats, winners, Share(pot, n));
    var shared := AwardEach(seats, winners, Share(pot, n)).state;
    forall p | p in winners ensures exists i :: 0 <= i < |shared| && shared[i].player == p {
      var i :| 0 <= i < |seats| && seats[i].player == p;
      assert shared[i].player == p;
    }
    OddWinners(shared, dealer, winners, OddChips(pot, n));
    var odd := Take(FromDealersLeft(shared, dealer, PlayerSet(winners)), OddChips(pot, n));
    AwardEachPays(shared, odd, 1);
    hide SumStacks, AwardEach, FromDealersLeft, Share, OddChips;
  }

  lemma {:induction false} SharesAreFair(before: seq<Seat>, shared: seq<Seat>, after: seq<Seat>, dealer: nat,
      share: nat, winners: seq<PlayerId>, count: nat)
    requires DistinctPlayers(before) && dealer < |before| && SameButStacks(before, shared) && SameButStacks(before, after)
    requires var odd := Take(FromDealersLeft(shared, dealer, PlayerSet(winners)), count);
             && (forall i :: 0 <= i < |before| && before[i].player in odd ==> before[i].player in winners)
             && (forall i :: 0 <= i < |before| ==>
                   after[i].stack == before[i].stack
                     + (if before[i].player in winners then share else 0) + (if before[i].player in odd then 1 else 0))
    ensures ShareOut(before, after, dealer, share, winners)
  {
    hide FromDealersLeft, Take;
    var odd := Take(FromDealersLeft(shared, dealer, PlayerSet(winners)), count);
    forall i, j | 0 <= i < |before| && 0 <= j < |before| && before[i].player in winners && before[j].player in winners
                  && LeftOf(dealer, i, |before|) <= LeftOf(dealer, j, |before|)
      ensures after[j].stack - before[j].stack <= after[i].stack - before[i].stack
    {
      if shared[j].player in odd { OddChipsFromTheLeft(shared, dealer, PlayerSet(winners), count, j, i); }
    }
  }

  lemma {:induction false} AwardSplitPays(seats: seq<Seat>, dealer: nat, pot: nat, winners: seq<PlayerId>)
    requires DistinctPlayers(seats) && dealer < |seats|
    requires |winners| > 0 && NoRepeat(winners) && Seats(seats, winners)
    requires SumStacks(seats) + pot <= U64_MAX
    ensures var a := AwardSplit(seats, dealer, pot, winners);
            a.result.Ok? && SplitEvenly(seats, a.state, dealer, pot, winners)
  {
    AwardSplitShares(seats, dealer, pot, winners);
    hide SumStacks, AwardEach, FromDealersLeft, AwardSplit, Take, Share, OddChips;
    var shared := AwardEach(seats, winners, Share(pot, |winners|)).state;
    SharesAreFair(seats, shared, AwardSplit(seats, dealer, pot, winners).state, dealer, Share(pot, |winners|), winners, OddChips(pot, |winners|));
  }

  // ----- Choosing the winners of a layer -----

  lemma {:induction false} StrongestIsGreatest(players: seq<PlayerId>, ranks: map<PlayerId, int>)
    requires |players| > 0 && forall p :: p in players ==> p in ranks
    ensures exists p :: p in players && ranks[p] == Strongest(players, ranks)
    ensures forall p :: p in players ==> ranks[p] <= Strongest(players, ranks)
  {
    if |players| > 1 { StrongestIsGreatest(players[1..], ranks); }
    assert players[0] in players;
  }

  lemma {:induction false} WithRankSelects(players: seq<PlayerId>, ranks: map<PlayerId, int>, rank: int)
    requires forall p :: p in players ==> p in ranks
    ensures forall p :: p in WithRank(players, ranks, rank) <==> p in players && ranks[p] == rank
    ensures NoRepeat(players) ==> NoRepeat(WithRank(players, ranks, rank))
  {
    if |players| > 0 {
      var rest := players[1..];
      WithRankSelects(rest, ranks, rank);
      assert forall p :: p in players <==> p == players[0] || p in rest;
    }
  }

  // ----- One layer -----

  /** What all seats together put in up to the level `t`. */
  ghost function PotUpTo(seats: seq<Seat>, t: nat): nat {
    if |seats| == 0 then 0 else PotUpTo(seats[..|seats| - 1], t) + Min(seats[|seats| - 1].totalCommitted, t)
  }

  ghost predicate NothingBetween(seats: seq<Seat>, previous: nat, threshold: nat) {
    forall i :: 0 <= i < |seats| ==> seats[i].totalCommitted <= previous || seats[i].totalCommitted >= threshold
  }

  lemma {:induction false} LayerPotSteps(previous: nat, threshold: nat, k: nat)
    requires previous <= threshold
    ensures LayerPot(previous, threshold, 0) == 0
    ensures LayerPot(previous, threshold, k + 1) == LayerPot(previous, threshold, k) + (threshold - previous)
  {}

  /** The layers add up: a layer holds exactly what the seats put in between its two levels. */
  lemma {:induction false} LayerHolds(seats: seq<Seat>, previous: nat, threshold: nat)
    requires previous <= threshold && NothingBetween(seats, previous, threshold)
    ensures PotUpTo(seats, threshold)
            == PotUpTo(seats, previous) + LayerPot(previous, threshold, |PlayersWhere(seats, Covers(threshold))|)
  {
    LayerPotSteps(previous, threshold, 0);
    hide LayerPot;
    if |seats| > 0 {
      var front := seats[..|seats| - 1];
      LayerHolds(front, previous, threshold);
      LayerPotSteps(previous, threshold, |PlayersWhere(front, Covers(threshold))|);
    }
  }

  lemma {:induction false} SamePotUpTo(a: seq<Seat>, b: seq<Seat>, t: nat)
    requires SameButStacks(a, b)
    ensures PotUpTo(a, t) == PotUpTo(b, t)
  {
    if |a| > 0 { SamePotUpTo(a[..|a| - 1], b[..|b| - 1], t); }
  }

  lemma {:induction false} WholePot(seats: seq<Seat>, t: nat)
    requires forall i :: 0 <= i < |seats| ==> seats[i].totalCommitted <= t
    ensures PotUpTo(seats, t) == SumTotals(seats)
  {
    if |seats| > 0 { WholePot(seats[..|seats| - 1], t); }
  }

  lemma {:induction false} PotGrows(seats: seq<Seat>, s: nat, t: nat)
    requires s <= t
    ensures PotUpTo(seats, s) <= PotUpTo(seats, t) <= SumTotals(seats)
    ensures s == 0 ==> PotUpTo(seats, s) == 0
  {
    if |seats| > 0 { PotGrows(seats[..|seats| - 1], s, t); }
  }

  /** Nobody's award exceeds what was awarded in all. */
  lemma {:induction false} AwardWithinTotal(before: seq<Seat>, after: seq<Seat>, i: nat)
    requires SameButStacks(before, after) && i < |before|
    requires forall j :: 0 <= j < |before| ==> before[j].stack <= after[j].stack
    ensures SumStacks(before) <= SumStacks(after)
    ensures after[i].stack - before[i].stack <= SumStacks(after) - SumStacks(before)
  {
    var n := |before| - 1;
    StacksGrow(before[..n], after[..n]);
    if i < n { AwardWithinTotal(before[..n], after[..n], i); }
  }

  lemma {:induction false} StacksGrow(before: seq<Seat>, after: seq<Seat>)
    requires SameButStacks(before, after) && forall j :: 0 <= j < |before| ==> before[j].stack <= after[j].stack
    ensures SumStacks(before) <= SumStacks(after)
  {
    if |before| > 0 { StacksGrow(before[..|before| - 1], after[..|after| - 1]); }
  }

  ghost predicate SomeEligible(seats: seq<Seat>, threshold: nat) {
    exists i :: 0 <= i < |seats| && IsContender(seats[i]) && seats[i].totalCommitted >= threshold
  }

  /** Seat `i` contends for every layer it reached and beats all others there. */
  ghost predicate BeatsAll(seats: seq<Seat>, ranks: map<PlayerId, int>, i: nat)
    requires i < |seats| && forall j :: 0 <= j < |seats| && IsContender(seats[j]) ==> seats[j].player in ranks
  {
    && IsContender(seats[i])
    && forall j :: 0 <= j < |seats| && j != i && IsContender(seats[j]) ==> ranks[seats[j].player] < ranks[seats[i].player]
  }

  /** How one layer is paid. */
  ghost predicate LayerPaid(before: seq<Seat>, after: seq<Seat>, ranks: map<PlayerId, int>, threshold: nat, pot: nat)
    requires forall j :: 0 <= j < |before| && IsContender(before[j]) ==> before[j].player in ranks
  {
    && SameButStacks(before, after)
    && SumStacks(after) == SumStacks(before) + pot
    && (forall i :: 0 <= i < |before| ==> before[i].stack <= after[i].stack)
    && (forall i :: 0 <= i < |before| && before[i].totalCommitted < threshold ==> after[i].stack == before[i].stack)
    && (forall i :: 0 <= i < |before| && before[i].totalCommitted >= threshold && BeatsAll(before, ranks, i)
          ==> after[i].stack == before[i].stack + pot)
    && (forall i :: 0 <= i < |before| && before[i].status.Folded? ==>
          after[i].stack == before[i].stack + (if before[i].totalCommitted >= threshold && !SomeEligible(before, threshold) then pot else 0))
  }

  /** The contenders who reached a layer. */
  lemma {:induction false} EligibleAre(seats: seq<Seat>, ranks: map<PlayerId, int>, threshold: nat)
    requires DistinctPlayers(seats) && RanksKnown(seats, ranks) && SomeEligible(seats, threshold)
    ensures var eligible := PlayersWhere(seats, EligibleFor(threshold));
            && |eligible| > 0 && NoRepeat(eligible) && (forall p :: p in eligible ==> p in ranks)
            && (forall i :: 0 <= i < |seats| ==> (seats[i].player in eligible <==> IsContender(seats[i]) && seats[i].totalCommitted >= threshold))
            && (forall p :: p in eligible ==> exists i :: 0 <= i < |seats| && seats[i].player == p)
  {
    hide PlayersWhere;
    var f := EligibleFor(threshold);
    var eligible := PlayersWhere(seats, f);
    PlayersWhereMembers(seats, f);
    PlayersWhereNoRepeat(seats, f);
    forall i | 0 <= i < |seats| ensures seats[i].player in eligible <==> IsContender(seats[i]) && seats[i].totalCommitted >= threshold {
      if seats[i].player in eligible {
        var j :| 0 <= j < |seats| && f(seats[j]) && seats[j].player == seats[i].player;
        assert i == j by { assert !(i < j) && !(j < i); }
      }
    }
  }

  /** The winners of a layer: the eligible players whom nobody eligible beats. */
  lemma {:induction false} WinnersAre(seats: seq<Seat>, ranks: map<PlayerId, int>, threshold: nat)
    requires DistinctPlayers(seats) && RanksKnown(seats, ranks) && SomeEligible(seats, threshold)
    ensures var eligible := PlayersWhere(seats, EligibleFor(threshold));
            && |eligible| > 0 && (forall p :: p in eligible ==> p in ranks)
            && var winners := WithRank(eligible, ranks, Strongest(eligible, ranks));
            && |winners| > 0 && NoRepeat(winners)
            && (forall p :: p in winners <==> p in eligible && forall q :: q in eligible ==> ranks[q] <= ranks[p])
  {
    hide PlayersWhere, WithRank, Strongest, EligibleFor, NoRepeat;
    var eligible := PlayersWhere(seats, EligibleFor(threshold));
    EligibleAre(seats, ranks, threshold);
    StrongestIsGreatest(eligible, ranks);
    WithRankSelects(eligible, ranks, Strongest(eligible, ranks));
  }

  lemma {:induction false} EligibleWinners(seats: seq<Seat>, ranks: map<PlayerId, int>, threshold: nat)
    requires DistinctPlayers(seats) && RanksKnown(seats, ranks) && SomeEligible(seats, threshold)
    ensures var eligible := PlayersWhere(seats, EligibleFor(threshold));
            && |eligible| > 0 && (forall p :: p in eligible ==> p in ranks)
            && var winners := WithRank(eligible, ranks, Strongest(eligible, ranks));
            && NoRepeat(winners) && Seats(seats, winners) && LayerWinners(seats, ranks, threshold, winners)
  {
    hide PlayersWhere, WithRank, Strongest, EligibleFor, NoRepeat;
    EligibleAre(seats, ranks, threshold);
    WinnersAre(seats, ranks, threshold);
    var eligible := PlayersWhere(seats, EligibleFor(threshold));
    var winners := WithRank(eligible, ranks, Strongest(eligible, ranks));
    forall i | 0 <= i < |seats| && seats[i].totalCommitted >= threshold && BeatsAll(seats, ranks, i)
      ensures winners == [seats[i].player]
    {
      forall p | p in winners ensures p == seats[i].player {
        var j :| 0 <= j < |seats| && seats[j].player == p;
        assert ranks[seats[i].player] <= ranks[p];
      }
      SingleOut(winners, seats[i].player);
    }
  }

  lemma {:induction false} SingleOut(players: seq<PlayerId>, p: PlayerId)
    requires NoRepeat(players) && |players| > 0 && forall q :: q in players ==> q == p
    ensures players == [p]
  {
    assert players[0] in players;
    assert PlayerSet(players) == {p};
    NoRepeatSize(players);
  }

  ghost predicate LayerReady(seats: seq<Seat>, dealer: nat, ranks: map<PlayerId, int>, previous: nat, threshold: nat) {
    && DistinctPlayers(seats) && dealer < |seats| && RanksKnown(seats, ranks)
    && previous < threshold && NothingBetween(seats, previous, threshold)
    && SumStacks(seats) + SumTotals(seats) - PotUpTo(seats, previous) <= U64_MAX
  }

  ghost function LayerChips(seats: seq<Seat>, previous: nat, threshold: nat): nat
    requires previous <= threshold
  {
    PotGrows(seats, previous, threshold);
    PotUpTo(seats, threshold) - PotUpTo(seats, previous)
  }

  lemma {:induction false} LayerFits(seats: seq<Seat>, dealer: nat, ranks: map<PlayerId, int>, previous: nat,
      threshold: nat)
    requires LayerReady(seats, dealer, ranks, previous, threshold)
    ensures LayerPot(previous, threshold, |PlayersWhere(seats, Covers(threshold))|) == LayerChips(seats, previous, threshold)
    ensures SumStacks(seats) + LayerChips(seats, previous, threshold) <= U64_MAX
  {
    LayerHolds(seats, previous, threshold);
    PotGrows(seats, threshold, threshold);
  }

  ghost predicate LayerWinners(seats: seq<Seat>, ranks: map<PlayerId, int>, threshold: nat, winners: seq<PlayerId>)
    requires RanksKnown(seats, ranks)
  {
    && |winners| > 0
    && (forall i :: 0 <= i < |seats| && seats[i].player in winners ==> IsContender(seats[i]) && seats[i].totalCommitted >= threshold)
    && (forall i, j :: 0 <= i < |seats| && 0 <= j < |seats| && seats[i].player in winners
                       && IsContender(seats[j]) && seats[j].totalCommitted >= threshold
          ==> ranks[seats[j].player] <= ranks[seats[i].player])
    && (forall i :: 0 <= i < |seats| && seats[i].totalCommitted >= threshold && BeatsAll(seats, ranks, i)
          ==> winners == [seats[i].player])
  }

  /** Of the contenders only those whom nobody eligible beats get anything from the layer. */
  ghost predicate OnlyBestPaid(before: seq<Seat>, after: seq<Seat>, ranks: map<PlayerId, int>, threshold: nat)
    requires |before| == |after| && RanksKnown(before, ranks)
  {
    forall i, j :: 0 <= i < |before| && 0 <= j < |before| && IsContender(before[i]) && after[i].stack != before[i].stack
                   && IsContender(before[j]) && before[j].totalCommitted >= threshold
      ==> ranks[before[j].player] <= ranks[before[i].player]
  }

  lemma {:induction false} SplitPaysLayer(seats: seq<Seat>, after: seq<Seat>, dealer: nat, ranks: map<PlayerId, int>,
      threshold: nat, pot: nat, winners: seq<PlayerId>)
    requires dealer < |seats| && RanksKnown(seats, ranks) && SomeEligible(seats, threshold)
    requires LayerWinners(seats, ranks, threshold, winners) && SplitEvenly(seats, after, dealer, pot, winners)
    ensures LayerPaid(seats, after, ranks, threshold, pot) && OnlyBestPaid(seats, after, ranks, threshold)
  {
    hide SumStacks;
    forall i | 0 <= i < |seats| && seats[i].totalCommitted >= threshold && BeatsAll(seats, ranks, i)
      ensures after[i].stack == seats[i].stack + pot
    {
      assert winners == [seats[i].player];
      assert Share(pot, 1) == pot;
      AwardWithinTotal(seats, after, i);
    }
  }

  lemma {:induction false} ContestedLayerPays(seats: seq<Seat>, dealer: nat, ranks: map<PlayerId, int>, previous: nat,
      threshold: nat)
    requires LayerReady(seats, dealer, ranks, previous, threshold) && SomeEligible(seats, threshold)
    ensures var a := SettleLayer(seats, dealer, ranks, previous, threshold);
            && a.result.Ok? && LayerPaid(seats, a.state, ranks, threshold, LayerChips(seats, previous, threshold))
            && OnlyBestPaid(seats, a.state, ranks, threshold)
  {
    hide SumStacks, AwardSplit, PlayersWhere, WithRank, Strongest, LayerPot, LayerPaid, SplitEvenly;
    LayerFits(seats, dealer, ranks, previous, threshold);
    EligibleWinners(seats, ranks, threshold);
    var pot := LayerChips(seats, previous, threshold);
    var eligible := PlayersWhere(seats, EligibleFor(threshold));
    var winners := WithRank(eligible, ranks, Strongest(eligible, ranks));
    AwardSplitPays(seats, dealer, pot, winners);
    SplitPaysLayer(seats, AwardSplit(seats, dealer, pot, winners).state, dealer, ranks, threshold, pot, winners);
  }

  lemma {:induction false} RefundedLayerPays(seats: seq<Seat>, dealer: nat, ranks: map<PlayerId, int>, previous: nat,
      threshold: nat)
    requires LayerReady(seats, dealer, ranks, previous, threshold) && !SomeEligible(seats, threshold)
    requires |PlayersWhere(seats, Covers(threshold))| == 1
    ensures var a := SettleLayer(seats, dealer, ranks, previous, threshold);
            && a.result.Ok? && LayerPaid(seats, a.state, ranks, threshold, LayerChips(seats, previous, threshold))
            && OnlyBestPaid(seats, a.state, ranks, threshold)
  {
    LayerFits(seats, dealer, ranks, previous, threshold);
    NoneEligible(seats, threshold);
    var k := SoleContributor(seats, threshold);
    AwardPays(seats, k, LayerChips(seats, previous, threshold));
    hide SumStacks, PlayersWhere, LayerPot, LayerChips;
  }

  lemma {:induction false} NoneWhere(seats: seq<Seat>, f: Seat -> bool)
    requires forall i :: 0 <= i < |seats| ==> !f(seats[i])
    ensures PlayersWhere(seats, f) == []
  {
    if |seats| > 0 { NoneWhere(seats[..|seats| - 1], f); }
  }

  lemma {:induction false} NoneEligible(seats: seq<Seat>, threshold: nat)
    requires !SomeEligible(seats, threshold)
    ensures PlayersWhere(seats, EligibleFor(threshold)) == []
  {
    NoneWhere(seats, EligibleFor(threshold));
  }

  lemma {:induction false} SoleContributor(seats: seq<Seat>, threshold: nat) returns (k: nat)
    requires DistinctPlayers(seats) && |PlayersWhere(seats, Covers(threshold))| == 1
    ensures k < |seats| && PlayersWhere(seats, Covers(threshold)) == [seats[k].player]
    ensures forall j :: 0 <= j < |seats| ==> (seats[j].totalCommitted >= threshold <==> j == k)
  {
    var contributors := PlayersWhere(seats, Covers(threshold));
    PlayersWhereMembers(seats, Covers(threshold));
    assert contributors[0] in contributors;
    k :| 0 <= k < |seats| && Covers(threshold)(seats[k]) && seats[k].player == contributors[0];
    forall j | 0 <= j < |seats| ensures seats[j].totalCommitted >= threshold <==> j == k {
      PlayersWhereAt(seats, Covers(threshold), j);
    }
  }

  /** A layer that nobody contends for and several seats paid into cannot be settled. */
  lemma {:induction false} OrphanedLayerFails(seats: seq<Seat>, dealer: nat, ranks: map<PlayerId, int>, previous: nat,
      threshold: nat)
    requires LayerReady(seats, dealer, ranks, previous, threshold) && !SomeEligible(seats, threshold)
    requires |PlayersWhere(seats, Covers(threshold))| != 1
    ensures SettleLayer(seats, dealer, ranks, previous, threshold) == Attempt(seats, Err(StateInvariant))
  {
    LayerFits(seats, dealer, ranks, previous, threshold);
    NoneEligible(seats, threshold);
  }

  // ----- All layers -----

  /** A folded seat that put in more than every contender. */
  ghost predicate FoldedAhead(seats: seq<Seat>, i: nat)
    requires i < |seats|
  {
    seats[i].status.Folded? && forall j :: 0 <= j < |seats| && IsContender(seats[j]) ==> seats[j].totalCommitted < seats[i].totalCommitted
  }

  /** Two folded seats put in more than every contender: their surplus belongs to nobody at the showdown. */
  ghost predicate OrphanedPot(seats: seq<Seat>) {
    exists i, j :: 0 <= i < j < |seats| && FoldedAhead(seats, i) && FoldedAhead(seats, j)
  }

  lemma {:induction false} OrphanedLayer(seats: seq<Seat>, threshold: nat)
    requires DistinctPlayers(seats) && !SomeEligible(seats, threshold)
    requires exists i :: 0 <= i < |seats| && seats[i].totalCommitted == threshold
    requires |PlayersWhere(seats, Covers(threshold))| != 1
    ensures OrphanedPot(seats)
  {
    var contributors := PlayersWhere(seats, Covers(threshold));
    PlayersWhereMembers(seats, Covers(threshold));
    PlayersWhereNoRepeat(seats, Covers(threshold));
    var k :| 0 <= k < |seats| && seats[k].totalCommitted == threshold;
    assert Covers(threshold)(seats[k]) && seats[k].player in contributors;
    assert contributors[0] in contributors && contributors[1] in contributors;
    var i :| 0 <= i < |seats| && Covers(threshold)(seats[i]) && seats[i].player == contributors[0];
    var j :| 0 <= j < |seats| && Covers(threshold)(seats[j]) && seats[j].player == contributors[1];
    assert FoldedAhead(seats, i) && FoldedAhead(seats, j);
    if i < j { assert OrphanedPot(seats); } else { assert j < i && FoldedAhead(seats, j); }
  }

  lemma {:induction false} SeveralContributors(seats: seq<Seat>, threshold: nat, i: nat, j: nat)
    requires DistinctPlayers(seats) && i < j < |seats|
    requires seats[i].totalCommitted >= threshold && seats[j].totalCommitted >= threshold
    ensures |PlayersWhere(seats, Covers(threshold))| != 1
  {
    PlayersWhereAt(seats, Covers(threshold), i);
    PlayersWhereAt(seats, Covers(threshold), j);
  }

  ghost predicate LayersReady(seats: seq<Seat>, dealer: nat, ranks: map<PlayerId, int>, previous: nat, thresholds: seq<nat>) {
    && DistinctPlayers(seats) && dealer < |seats| && RanksKnown(seats, ranks)
    && AscendingAbove(previous, thresholds)
    && (forall i :: 0 <= i < |seats| ==> seats[i].totalCommitted <= previous || seats[i].totalCommitted in thresholds)
    && (forall t :: t in thresholds ==> exists i :: 0 <= i < |seats| && seats[i].totalCommitted == t)
    && SumStacks(seats) + SumTotals(seats) - PotUpTo(seats, previous) <= U64_MAX
  }

  lemma {:induction false} AllAbove(bound: nat, xs: seq<nat>)
    requires AscendingAbove(bound, xs)
    ensures forall x :: x in xs ==> bound < x
    decreases |xs|
  {
    if |xs| > 0 {
      AllAbove(xs[0], xs[1..]);
      assert xs == [xs[0]] + xs[1..];
    }
  }

  lemma {:induction false} FirstLayerReady(seats: seq<Seat>, dealer: nat, ranks: map<PlayerId, int>, previous: nat,
      thresholds: seq<nat>)
    requires LayersReady(seats, dealer, ranks, previous, thresholds) && |thresholds| > 0
    ensures LayerReady(seats, dealer, ranks, previous, thresholds[0])
  {
    AllAbove(thresholds[0], thresholds[1..]);
    assert thresholds == [thresholds[0]] + thresholds[1..];
  }

  lemma {:induction false} SameTotals(a: seq<Seat>, b: seq<Seat>)
    requires SameButStacks(a, b)
    ensures SumTotals(a) == SumTotals(b)
  {
    if |a| > 0 { SameTotals(a[..|a| - 1], b[..|b| - 1]); }
  }

  lemma {:induction false} OtherLayersReady(seats: seq<Seat>, dealer: nat, ranks: map<PlayerId, int>, previous: nat,
      thresholds: seq<nat>, after: seq<Seat>)
    requires LayersReady(seats, dealer, ranks, previous, thresholds) && |thresholds| > 0
    requires SameButStacks(seats, after)
    requires SumStacks(after) == SumStacks(seats) + LayerChips(seats, previous, thresholds[0])
    ensures LayersReady(after, dealer, ranks, thresholds[0], thresholds[1..])
  {
    SamePotUpTo(seats, after, thresholds[0]);
    SameTotals(seats, after);
    hide SumStacks, SumTotals, PotUpTo;
    assert forall t :: t in thresholds <==> t == thresholds[0] || t in thresholds[1..];
    forall t | t in thresholds[1..] ensures exists i :: 0 <= i < |after| && after[i].totalCommitted == t {
      var i :| 0 <= i < |seats| && seats[i].totalCommitted == t;
      assert after[i].totalCommitted == t;
    }
  }

  lemma {:induction false} OrphanedSame(a: seq<Seat>, b: seq<Seat>)
    requires SameButStacks(a, b) && OrphanedPot(a)
    ensures OrphanedPot(b)
  {
    var i, j :| 0 <= i < j < |a| && FoldedAhead(a, i) && FoldedAhead(a, j);
    assert FoldedAhead(b, i) && FoldedAhead(b, j);
  }

  /** One step of the settlement loop, when no pot is orphaned. */
  lemma {:induction false} NextLayerPays(seats: seq<Seat>, dealer: nat, ranks: map<PlayerId, int>, previous: nat,
      thresholds: seq<nat>)
    requires LayersReady(seats, dealer, ranks, previous, thresholds) && |thresholds| > 0 && !OrphanedPot(seats)
    ensures var a := SettleLayer(seats, dealer, ranks, previous, thresholds[0]);
            && a.result.Ok?
            && LayerPaid(seats, a.state, ranks, thresholds[0], LayerChips(seats, previous, thresholds[0]))
            && OnlyBestPaid(seats, a.state, ranks, thresholds[0])
            && LayersReady(a.state, dealer, ranks, thresholds[0], thresholds[1..]) && !OrphanedPot(a.state)
  {
    hide SettleLayer, SumStacks, SumTotals, PotUpTo, PlayersWhere, OrphanedPot, OnlyBestPaid, BeatsAll;
    var t := thresholds[0];
    FirstLayerReady(seats, dealer, ranks, previous, thresholds);
    NobodyButOne(seats, dealer, ranks, previous, thresholds);
    if SomeEligible(seats, t) {
      ContestedLayerPays(seats, dealer, ranks, previous, t);
    } else {
      RefundedLayerPays(seats, dealer, ranks, previous, t);
    }
    var after := SettleLayer(seats, dealer, ranks, previous, t).state;
    OtherLayersReady(seats, dealer, ranks, previous, thresholds, after);
    if OrphanedPot(after) { OrphanedSame(after, seats); }
  }

  /** The largest commitment of any contender. */
  ghost function Lead(seats: seq<Seat>): nat {
    if |seats| == 0 then 0
    else
      var front := Lead(seats[..|seats| - 1]);
      var last := seats[|seats| - 1];
      if IsContender(last) && last.totalCommitted > front then last.totalCommitted else front
  }

  lemma {:induction false} LeadIsGreatest(seats: seq<Seat>)
    ensures forall i :: 0 <= i < |seats| && IsContender(seats[i]) ==> seats[i].totalCommitted <= Lead(seats)
    ensures Lead(seats) > 0 ==> exists i :: 0 <= i < |seats| && IsContender(seats[i]) && seats[i].totalCommitted == Lead(seats)
  {
    if |seats| > 0 {
      var n := |seats| - 1;
      LeadIsGreatest(seats[..n]);
      forall i | 0 <= i < |seats| && IsContender(seats[i]) ensures seats[i].totalCommitted <= Lead(seats) {
        if i < n { assert seats[..n][i] == seats[i]; }
      }
      if Lead(seats[..n]) > 0 && Lead(seats) == Lead(seats[..n]) {
        var i :| 0 <= i < n && IsContender(seats[..n][i]) && seats[..n][i].totalCommitted == Lead(seats[..n]);
        assert IsContender(seats[i]) && seats[i].totalCommitted == Lead(seats);
      }
    }
  }

  lemma {:induction false} SameLead(a: seq<Seat>, b: seq<Seat>)
    requires SameButStacks(a, b)
    ensures Lead(a) == Lead(b)
  {
    if |a| > 0 { SameLead(a[..|a| - 1], b[..|b| - 1]); }
  }

  /** All that seat `i` can ever win: from every seat, at most what seat `i` put in itself. */
  ghost function Entitlement(seats: seq<Seat>, i: nat): nat
    requires i < |seats|
  {
    PotUpTo(seats, seats[i].totalCommitted)
  }

  function Max(a: nat, b: nat): nat { if a >= b then a else b }

  /** What a folded seat gets back of its commitment above `level`. */
  function Surplus(total: nat, level: nat): nat { if total > level then total - level else 0 }

  /** A contender with a better hand committed at least as much as the contender at `w`. */
  ghost predicate Outranked(seats: seq<Seat>, ranks: map<PlayerId, int>, w: nat)
    requires w < |seats| && RanksKnown(seats, ranks)
  {
    && IsContender(seats[w])
    && exists j :: 0 <= j < |seats| && IsContender(seats[j]) && ranks[seats[j].player] > ranks[seats[w].player]
                   && seats[j].totalCommitted >= seats[w].totalCommitted
  }

  /** What the layers above `previous` pay to seat `w`. */
  ghost predicate PaidFrom(seats: seq<Seat>, after: seq<Seat>, ranks: map<PlayerId, int>, previous: nat, w: nat)
    requires w < |seats| == |after| && RanksKnown(seats, ranks)
  {
    var total := seats[w].totalCommitted;
    var paid := after[w].stack - seats[w].stack;
    && 0 <= paid <= PotUpTo(seats, total) - PotUpTo(seats, Min(previous, total))
    && (BeatsAll(seats, ranks, w) ==> paid == PotUpTo(seats, total) - PotUpTo(seats, Min(previous, total)))
    && (Outranked(seats, ranks, w) ==> paid == 0)
    && (seats[w].status.Folded? ==> paid == Surplus(total, Max(previous, Lead(seats))))
  }

  lemma {:induction false} FirstLayerPaid(seats: seq<Seat>, mid: seq<Seat>, ranks: map<PlayerId, int>, previous: nat,
      threshold: nat, w: nat)
    requires w < |seats| && RanksKnown(seats, ranks) && previous < threshold && NothingBetween(seats, previous, threshold)
    requires LayerPaid(seats, mid, ranks, threshold, LayerChips(seats, previous, threshold))
    requires OnlyBestPaid(seats, mid, ranks, threshold)
    requires !SomeEligible(seats, threshold) ==> |PlayersWhere(seats, Covers(threshold))| == 1
    ensures var total := seats[w].totalCommitted;
            var paid := mid[w].stack - seats[w].stack;
            var room := PotUpTo(seats, Min(threshold, total)) - PotUpTo(seats, Min(previous, total));
            && 0 <= paid <= room
            && (BeatsAll(seats, ranks, w) ==> paid == room)
            && (Outranked(seats, ranks, w) ==> paid == 0)
            && (seats[w].status.Folded? ==> paid == Surplus(total, Max(previous, Lead(seats))) - Surplus(total, Max(threshold, Lead(seats))))
  {
    hide BeatsAll, Outranked, PotUpTo, Lead, SumStacks, PlayersWhere, OnlyBestPaid;
    AwardWithinTotal(seats, mid, w);
    OutrankedUnpaid(seats, mid, ranks, threshold, LayerChips(seats, previous, threshold), w);
    FoldedLayerPaid(seats, mid, ranks, previous, threshold, w);
  }

  lemma {:induction false} OutrankedUnpaid(seats: seq<Seat>, mid: seq<Seat>, ranks: map<PlayerId, int>, threshold: nat,
      pot: nat, w: nat)
    requires w < |seats| && RanksKnown(seats, ranks)
    requires LayerPaid(seats, mid, ranks, threshold, pot) && OnlyBestPaid(seats, mid, ranks, threshold)
    ensures Outranked(seats, ranks, w) ==> mid[w].stack == seats[w].stack
  {
    hide BeatsAll, SumStacks;
    if Outranked(seats, ranks, w) && seats[w].totalCommitted >= threshold {
      var j :| 0 <= j < |seats| && IsContender(seats[j]) && ranks[seats[j].player] > ranks[seats[w].player]
               && seats[j].totalCommitted >= seats[w].totalCommitted;
    }
  }

  lemma {:induction false} FoldedLayerPaid(seats: seq<Seat>, mid: seq<Seat>, ranks: map<PlayerId, int>, previous: nat,
      threshold: nat, w: nat)
    requires w < |seats| && RanksKnown(seats, ranks) && previous < threshold && NothingBetween(seats, previous, threshold)
    requires LayerPaid(seats, mid, ranks, threshold, LayerChips(seats, previous, threshold))
    requires !SomeEligible(seats, threshold) ==> |PlayersWhere(seats, Covers(threshold))| == 1
    ensures var total := seats[w].totalCommitted;
            seats[w].status.Folded? ==>
              mid[w].stack - seats[w].stack == Surplus(total, Max(previous, Lead(seats))) - Surplus(total, Max(threshold, Lead(seats)))
  {
    hide BeatsAll, PotUpTo, Lead, SumStacks, PlayersWhere;
    LeadIsGreatest(seats);
    LayerHolds(seats, previous, threshold);
    LayerPotSteps(previous, threshold, 0);
  }

  lemma {:induction false} StillOutranked(seats: seq<Seat>, mid: seq<Seat>, ranks: map<PlayerId, int>, w: nat)
    requires w < |seats| && RanksKnown(seats, ranks) && SameButStacks(seats, mid)
    ensures Outranked(seats, ranks, w) ==> Outranked(mid, ranks, w)
  {
    if Outranked(seats, ranks, w) {
      var j :| 0 <= j < |seats| && IsContender(seats[j]) && ranks[seats[j].player] > ranks[seats[w].player]
               && seats[j].totalCommitted >= seats[w].totalCommitted;
      assert IsContender(mid[j]) && mid[j].totalCommitted == seats[j].totalCommitted;
    }
  }

  lemma {:induction false} PaidInTurn(seats: seq<Seat>, mid: seq<Seat>, after: seq<Seat>, ranks: map<PlayerId, int>,
      previous: nat, threshold: nat, w: nat)
    requires w < |seats| && RanksKnown(seats, ranks) && previous < threshold && NothingBetween(seats, previous, threshold)
    requires LayerPaid(seats, mid, ranks, threshold, LayerChips(seats, previous, threshold))
    requires OnlyBestPaid(seats, mid, ranks, threshold)
    requires !SomeEligible(seats, threshold) ==> |PlayersWhere(seats, Covers(threshold))| == 1
    requires SameButStacks(mid, after) && PaidFrom(mid, after, ranks, threshold, w)
    ensures PaidFrom(seats, after, ranks, previous, w)
  {
    FirstLayerPaid(seats, mid, ranks, previous, threshold, w);
    var total := seats[w].totalCommitted;
    SamePotUpTo(seats, mid, total);
    SamePotUpTo(seats, mid, Min(threshold, total));
    SameLead(seats, mid);
    hide PotUpTo, Lead, PlayersWhere;
    assert BeatsAll(seats, ranks, w) ==> BeatsAll(mid, ranks, w);
    StillOutranked(seats, mid, ranks, w);
  }

  lemma {:induction false} LayersUnfold(seats: seq<Seat>, dealer: nat, ranks: map<PlayerId, int>, previous: nat,
      thresholds: seq<nat>)
    requires LayersReady(seats, dealer, ranks, previous, thresholds)
    ensures dealer < |seats| && RanksKnown(seats, ranks) && AscendingAbove(previous, thresholds)
    ensures |thresholds| > 0 ==>
              var layer := SettleLayer(seats, dealer, ranks, previous, thresholds[0]);
              SettleLayers(seats, dealer, ranks, previous, thresholds)
              == if layer.result.Err? then layer else SettleLayers(layer.state, dealer, ranks, thresholds[0], thresholds[1..])
  {
    hide SettleLayer, SumStacks, SumTotals, PotUpTo;
  }

  /** A layer no contender reached belongs to a single folded player. */
  lemma {:induction false} NobodyButOne(seats: seq<Seat>, dealer: nat, ranks: map<PlayerId, int>, previous: nat,
      thresholds: seq<nat>)
    requires LayersReady(seats, dealer, ranks, previous, thresholds) && |thresholds| > 0 && !OrphanedPot(seats)
    ensures !SomeEligible(seats, thresholds[0]) ==> |PlayersWhere(seats, Covers(thresholds[0]))| == 1
  {
    hide PlayersWhere, OrphanedPot, SumStacks, SumTotals, PotUpTo;
    var t := thresholds[0];
    assert t in thresholds;
    if !SomeEligible(seats, t) && |PlayersWhere(seats, Covers(t))| != 1 { OrphanedLayer(seats, t); }
  }

  lemma {:induction false} LayersSettle(seats: seq<Seat>, dealer: nat, ranks: map<PlayerId, int>, previous: nat,
      thresholds: seq<nat>, w: nat)
    requires LayersReady(seats, dealer, ranks, previous, thresholds) && !OrphanedPot(seats) && w < |seats|
    ensures var a := SettleLayers(seats, dealer, ranks, previous, thresholds);
            && a.result.Ok? && SameButStacks(seats, a.state)
            && SumStacks(a.state) == SumStacks(seats) + SumTotals(seats) - PotUpTo(seats, previous)
            && PaidFrom(seats, a.state, ranks, previous, w)
    decreases |thresholds|
  {
    hide SettleLayer, SumStacks, SumTotals, PotUpTo, LayersReady, PlayersWhere, OrphanedPot, PaidFrom, BeatsAll;
    LayersUnfold(seats, dealer, ranks, previous, thresholds);
    if |thresholds| == 0 {
      NothingAbove(seats, dealer, ranks, previous, w);
    } else {
      var t := thresholds[0];
      NextLayerPays(seats, dealer, ranks, previous, thresholds);
      FirstLayerReady(seats, dealer, ranks, previous, thresholds);
      NobodyButOne(seats, dealer, ranks, previous, thresholds);
      var mid := SettleLayer(seats, dealer, ranks, previous, t).state;
      LayersSettle(mid, dealer, ranks, t, thresholds[1..], w);
      SamePotUpTo(seats, mid, t);
      SameTotals(seats, mid);
      PaidInTurn(seats, mid, SettleLayers(mid, dealer, ranks, t, thresholds[1..]).state, ranks, previous, t, w);
    }
  }

  lemma {:induction false} NothingAbove(seats: seq<Seat>, dealer: nat, ranks: map<PlayerId, int>, previous: nat, w: nat)
    requires LayersReady(seats, dealer, ranks, previous, []) && w < |seats|
    ensures forall i :: 0 <= i < |seats| ==> seats[i].totalCommitted <= previous
    ensures SettleLayers(seats, dealer, ranks, previous, []) == Attempt(seats, Ok(Unit))
    ensures PaidFrom(seats, seats, ranks, previous, w) && PotUpTo(seats, previous) == SumTotals(seats)
  {
    hide SumStacks, SumTotals, PotUpTo;
    NothingLeft(seats, ranks, previous, w);
  }

  lemma {:induction false} NothingLeft(seats: seq<Seat>, ranks: map<PlayerId, int>, previous: nat, w: nat)
    requires w < |seats| && RanksKnown(seats, ranks) && forall i :: 0 <= i < |seats| ==> seats[i].totalCommitted <= previous
    ensures PaidFrom(seats, seats, ranks, previous, w) && PotUpTo(seats, previous) == SumTotals(seats)
  {
    WholePot(seats, previous);
  }

  lemma {:induction false} ContestedStep(seats: seq<Seat>, dealer: nat, ranks: map<PlayerId, int>, previous: nat,
      thresholds: seq<nat>)
    requires LayersReady(seats, dealer, ranks, previous, thresholds) && |thresholds| > 0
    requires OrphanedPot(seats) && SomeEligible(seats, thresholds[0])
    ensures var a := SettleLayer(seats, dealer, ranks, previous, thresholds[0]);
            && a.result.Ok? && SameButStacks(seats, a.state)
            && LayersReady(a.state, dealer, ranks, thresholds[0], thresholds[1..])
            && OrphanedPot(a.state) && SomeEligible(a.state, thresholds[0])
            && SumStacks(a.state) == SumStacks(seats) + LayerChips(seats, previous, thresholds[0])
  {
    var t := thresholds[0];
    FirstLayerReady(seats, dealer, ranks, previous, thresholds);
    ContestedLayerPays(seats, dealer, ranks, previous, t);
    hide SettleLayer;
    var mid := SettleLayer(seats, dealer, ranks, previous, t).state;
    OtherLayersReady(seats, dealer, ranks, previous, thresholds, mid);
    OrphanedSame(seats, mid);
    var k :| 0 <= k < |seats| && IsContender(seats[k]) && seats[k].totalCommitted >= t;
    assert IsContender(mid[k]) && mid[k].totalCommitted >= t;
  }

  lemma {:induction false} OrphanedStop(seats: seq<Seat>, dealer: nat, ranks: map<PlayerId, int>, previous: nat,
      thresholds: seq<nat>)
    requires LayersReady(seats, dealer, ranks, previous, thresholds) && OrphanedPot(seats)
    requires previous == 0 || SomeEligible(seats, previous)
    requires exists i :: 0 <= i < |seats| && IsContender(seats[i])
    ensures |thresholds| > 0
    ensures !SomeEligible(seats, thresholds[0])
            ==> SettleLayer(seats, dealer, ranks, previous, thresholds[0]) == Attempt(seats, Err(StateInvariant))
  {
    var i, j :| 0 <= i < j < |seats| && FoldedAhead(seats, i) && FoldedAhead(seats, j);
    assert seats[i].totalCommitted > previous && seats[j].totalCommitted > previous;
    assert seats[i].totalCommitted in thresholds;
    FirstLayerReady(seats, dealer, ranks, previous, thresholds);
    if !SomeEligible(seats, thresholds[0]) {
      SeveralContributors(seats, thresholds[0], i, j);
      OrphanedLayerFails(seats, dealer, ranks, previous, thresholds[0]);
    }
  }

  /** Nothing was put in between the last layer that could be settled and the one that cannot. */
  lemma {:induction false} OrphanedAtLead(seats: seq<Seat>, dealer: nat, ranks: map<PlayerId, int>, previous: nat,
      thresholds: seq<nat>)
    requires LayersReady(seats, dealer, ranks, previous, thresholds) && |thresholds| > 0
    requires !SomeEligible(seats, thresholds[0]) && (previous == 0 || SomeEligible(seats, previous))
    ensures Lead(seats) == previous
  {
    hide SumStacks, SumTotals, PotUpTo;
    LeadIsGreatest(seats);
    FirstLayerReady(seats, dealer, ranks, previous, thresholds);
    if Lead(seats) > 0 {
      var i :| 0 <= i < |seats| && IsContender(seats[i]) && seats[i].totalCommitted == Lead(seats);
      assert seats[i].totalCommitted < thresholds[0];
    }
  }

  /** An orphaned pot stops the settlement with `StateInvariant`; exactly the layers up to the largest commitment of a
      contender have been paid out by then. */
  lemma {:induction false} LayersFail(seats: seq<Seat>, dealer: nat, ranks: map<PlayerId, int>, previous: nat,
      thresholds: seq<nat>)
    requires LayersReady(seats, dealer, ranks, previous, thresholds) && OrphanedPot(seats)
    requires previous == 0 || SomeEligible(seats, previous)
    requires exists i :: 0 <= i < |seats| && IsContender(seats[i])
    ensures var a := SettleLayers(seats, dealer, ranks, previous, thresholds);
            && a.result == Err(StateInvariant) && SameButStacks(seats, a.state)
            && SumStacks(a.state) == SumStacks(seats) + PotUpTo(seats, Lead(seats)) - PotUpTo(seats, previous)
    decreases |thresholds|
  {
    hide SettleLayer, SumStacks, SumTotals, PotUpTo, Lead, OrphanedPot, LayersReady;
    LayersUnfold(seats, dealer, ranks, previous, thresholds);
    OrphanedStop(seats, dealer, ranks, previous, thresholds);
    if SomeEligible(seats, thresholds[0]) {
      ContestedStep(seats, dealer, ranks, previous, thresholds);
      var mid := SettleLayer(seats, dealer, ranks, previous, thresholds[0]).state;
      StillContended(seats, mid);
      LayersFail(mid, dealer, ranks, thresholds[0], thresholds[1..]);
      FirstLayerReady(seats, dealer, ranks, previous, thresholds);
      SameLead(seats, mid);
      SamePotUpTo(seats, mid, thresholds[0]);
      SamePotUpTo(seats, mid, Lead(seats));
    } else {
      OrphanedAtLead(seats, dealer, ranks, previous, thresholds);
    }
  }

  lemma {:induction false} StillContended(a: seq<Seat>, b: seq<Seat>)
    requires SameButStacks(a, b) && exists i :: 0 <= i < |a| && IsContender(a[i])
    ensures exists i :: 0 <= i < |b| && IsContender(b[i])
  {
    var i :| 0 <= i < |a| && IsContender(a[i]);
    assert IsContender(b[i]);
  }

  // ----- Equal hands together -----

  ghost predicate Ranked(s: Seat, ranks: map<PlayerId, int>, r: int) {
    IsContender(s) && s.player in ranks && ranks[s.player] == r
  }

  ghost predicate RankedOver(s: Seat, ranks: map<PlayerId, int>, r: int) {
    IsContender(s) && s.player in ranks && ranks[s.player] > r
  }

  /** The stacks of the contenders with rank `r`. */
  ghost function RankStacks(seats: seq<Seat>, ranks: map<PlayerId, int>, r: int): nat {
    if |seats| == 0 then 0
    else
      var last := seats[|seats| - 1];
      RankStacks(seats[..|seats| - 1], ranks, r) + (if Ranked(last, ranks, r) then last.stack else 0)
  }

  /** The largest commitment of a seat that satisfies `f`. */
  ghost function Top(seats: seq<Seat>, f: Seat -> bool): nat {
    if |seats| == 0 then 0
    else
      var (front, last) := (Top(seats[..|seats| - 1], f), seats[|seats| - 1]);
      if f(last) && last.totalCommitted > front then last.totalCommitted else front
  }

  lemma {:induction false} TopIsGreatest(seats: seq<Seat>, f: Seat -> bool)
    ensures forall i :: 0 <= i < |seats| && f(seats[i]) ==> seats[i].totalCommitted <= Top(seats, f)
    ensures Top(seats, f) > 0 ==> exists i :: 0 <= i < |seats| && f(seats[i]) && seats[i].totalCommitted == Top(seats, f)
  {
    if |seats| > 0 {
      var n := |seats| - 1;
      TopIsGreatest(seats[..n], f);
      assert forall i :: 0 <= i < n ==> seats[..n][i] == seats[i];
    }
  }

  lemma {:induction false} SameTop(a: seq<Seat>, b: seq<Seat>, f: Seat -> bool)
    requires SameButStacks(a, b) && forall i :: 0 <= i < |a| ==> f(a[i]) == f(b[i])
    ensures Top(a, f) == Top(b, f)
  {
    if |a| > 0 { SameTop(a[..|a| - 1], b[..|b| - 1], f); }
  }

  /** What moves only stacks of one rank moves them by the whole amount; what moves none of them leaves them. */
  lemma {:induction false} RankTakesAll(a: seq<Seat>, b: seq<Seat>, ranks: map<PlayerId, int>, r: int)
    requires SameButStacks(a, b)
    ensures (forall i :: 0 <= i < |a| && !Ranked(a[i], ranks, r) ==> b[i].stack == a[i].stack)
            ==> RankStacks(b, ranks, r) - RankStacks(a, ranks, r) == SumStacks(b) - SumStacks(a)
    ensures (forall i :: 0 <= i < |a| && Ranked(a[i], ranks, r) ==> b[i].stack == a[i].stack)
            ==> RankStacks(b, ranks, r) == RankStacks(a, ranks, r)
  {
    if |a| > 0 {
      var n := |a| - 1;
      RankTakesAll(a[..n], b[..n], ranks, r);
      assert forall i :: 0 <= i < n ==> a[..n][i] == a[i] && b[..n][i] == b[i];
    }
  }

  ghost function AtRank(ranks: map<PlayerId, int>, r: int): Seat -> bool { (s: Seat) => Ranked(s, ranks, r) }

  ghost function OverRank(ranks: map<PlayerId, int>, r: int): Seat -> bool { (s: Seat) => RankedOver(s, ranks, r) }

  /** One layer and one rank: the rank takes the layer if it reaches it and no better contender does, and nothing otherwise. */
  lemma {:induction false} RankInLayer(seats: seq<Seat>, after: seq<Seat>, ranks: map<PlayerId, int>, threshold: nat, pot: nat, r: int)
    requires RanksKnown(seats, ranks) && threshold > 0
    requires LayerPaid(seats, after, ranks, threshold, pot) && OnlyBestPaid(seats, after, ranks, threshold)
    ensures RankStacks(after, ranks, r) == RankStacks(seats, ranks, r)
              + (if Top(seats, OverRank(ranks, r)) < threshold <= Top(seats, AtRank(ranks, r)) then pot else 0)
  {
    hide SumStacks, RankStacks, Top, BeatsAll;
    TopIsGreatest(seats, OverRank(ranks, r));
    TopIsGreatest(seats, AtRank(ranks, r));
    RankTakesAll(seats, after, ranks, r);
    if Top(seats, OverRank(ranks, r)) < threshold <= Top(seats, AtRank(ranks, r)) {
      var k :| 0 <= k < |seats| && AtRank(ranks, r)(seats[k]) && seats[k].totalCommitted == Top(seats, AtRank(ranks, r));
      assert SomeEligible(seats, threshold);
      forall i | 0 <= i < |seats| && !Ranked(seats[i], ranks, r) ensures after[i].stack == seats[i].stack {
        assert RankedOver(seats[i], ranks, r) ==> OverRank(ranks, r)(seats[i]);
      }
    } else {
      forall i | 0 <= i < |seats| && Ranked(seats[i], ranks, r) ensures after[i].stack == seats[i].stack {
        assert AtRank(ranks, r)(seats[i]);
        if threshold <= Top(seats, OverRank(ranks, r)) {
          var k :| 0 <= k < |seats| && OverRank(ranks, r)(seats[k]) && seats[k].totalCommitted == Top(seats, OverRank(ranks, r));
        }
      }
    }
  }

  /** What the contenders with rank `r` take together once the layers up to `previous` are settled. */
  ghost function RankShare(seats: seq<Seat>, ranks: map<PlayerId, int>, previous: nat, r: int): int {
    var (top, over) := (Top(seats, AtRank(ranks, r)), Top(seats, OverRank(ranks, r)));
    PotUpTo(seats, top) - PotUpTo(seats, Min(Max(previous, over), top))
  }

  lemma {:induction false} ShareOfRest(seats: seq<Seat>, mid: seq<Seat>, ranks: map<PlayerId, int>, previous: nat,
      threshold: nat, r: int)
    requires SameButStacks(seats, mid) && previous < threshold && NothingBetween(seats, previous, threshold)
    ensures var (top, over) := (Top(seats, AtRank(ranks, r)), Top(seats, OverRank(ranks, r)));
            RankShare(seats, ranks, previous, r) == RankShare(mid, ranks, threshold, r)
            + (if over < threshold <= top then PotUpTo(seats, threshold) - PotUpTo(seats, previous) else 0)
  {
    hide Top, PotUpTo;
    var (top, over) := (Top(seats, AtRank(ranks, r)), Top(seats, OverRank(ranks, r)));
    TopIsGreatest(seats, AtRank(ranks, r));
    TopIsGreatest(seats, OverRank(ranks, r));
    SameTop(seats, mid, AtRank(ranks, r));
    SameTop(seats, mid, OverRank(ranks, r));
    SamePotUpTo(seats, mid, top);
    SamePotUpTo(seats, mid, Min(Max(threshold, over), top));
  }

  /** Equal hands together are paid exactly the layers they reach above the best commitment that beats them. */
  lemma {:induction false} RankPaid(seats: seq<Seat>, dealer: nat, ranks: map<PlayerId, int>, previous: nat,
      thresholds: seq<nat>, r: int)
    requires LayersReady(seats, dealer, ranks, previous, thresholds) && !OrphanedPot(seats)
    ensures RankStacks(SettleLayers(seats, dealer, ranks, previous, thresholds).state, ranks, r)
            == RankStacks(seats, ranks, r) + RankShare(seats, ranks, previous, r)
    decreases |thresholds|
  {
    hide SettleLayer, SumStacks, SumTotals, PotUpTo, LayersReady, OrphanedPot, BeatsAll, RankStacks, Top, OnlyBestPaid;
    LayersUnfold(seats, dealer, ranks, previous, thresholds);
    if |thresholds| == 0 {
      NothingAbove(seats, dealer, ranks, previous, 0);
      TopIsGreatest(seats, AtRank(ranks, r));
    } else {
      var t := thresholds[0];
      NextLayerPays(seats, dealer, ranks, previous, thresholds);
      FirstLayerReady(seats, dealer, ranks, previous, thresholds);
      var mid := SettleLayer(seats, dealer, ranks, previous, t).state;
      RankInLayer(seats, mid, ranks, t, LayerChips(seats, previous, t), r);
      RankPaid(mid, dealer, ranks, t, thresholds[1..], r);
      ShareOfRest(seats, mid, ranks, previous, t, r);
    }
  }
}
