/** A player's record over a list of receipts. */
module Statistics {
  import opened Chips
  import opened Holdem
  import opened Receipts

  datatype PlayerStatistics = PlayerStatistics(
    completedHands: nat, grossWon: nat, grossLost: nat, netChips: int, largestWin: nat, largestLoss: nat)

  datatype Derived = Derived(statistics: PlayerStatistics) | Overflowed

  const I128_MAX: int := 0x7FFF_FFFF_FFFF_FFFF_FFFF_FFFF_FFFF_FFFF

  // ----- The totals a record stands for -----

  function Sum<T>(f: T -> int, xs: seq<T>): int {
    if |xs| == 0 then 0 else Sum(f, xs[..|xs| - 1]) + f(xs[|xs| - 1])
  }

  function Maximum<T>(f: T -> nat, xs: seq<T>): nat {
    if |xs| == 0 then 0
    else
      var front := Maximum(f, xs[..|xs| - 1]);
      if front < f(xs[|xs| - 1]) then f(xs[|xs| - 1]) else front
  }

  function Won(delta: int): nat { if delta >= 0 then delta else 0 }

  function Lost(delta: int): nat { if delta < 0 then -delta else 0 }

  function DeltaOf<H>(player: PlayerId, r: Receipt<H>): Option<int> {
    match OutcomeFor(r, player)
    case None => None
    case Some(o) => Some(Delta(o))
  }

  function Played<H>(player: PlayerId): Receipt<H> -> int { (r: Receipt<H>) => if DeltaOf(player, r).Some? then 1 else 0 }

  function WonIn<H>(player: PlayerId): Receipt<H> -> nat {
    (r: Receipt<H>) => if DeltaOf(player, r).Some? then Won(DeltaOf(player, r).value) else 0
  }

  function LostIn<H>(player: PlayerId): Receipt<H> -> nat {
    (r: Receipt<H>) => if DeltaOf(player, r).Some? then Lost(DeltaOf(player, r).value) else 0
  }

  function NetIn<H>(player: PlayerId): Receipt<H> -> int {
    (r: Receipt<H>) => if DeltaOf(player, r).Some? then DeltaOf(player, r).value else 0
  }

  ghost predicate Totals<H>(player: PlayerId, receipts: seq<Receipt<H>>, s: PlayerStatistics) {
    && s.completedHands == Sum(Played(player), receipts)
    && s.grossWon == Sum(WonIn(player), receipts) && s.grossLost == Sum(LostIn(player), receipts)
    && s.netChips == Sum(NetIn(player), receipts)
    && s.largestWin == Maximum(WonIn(player), receipts) && s.largestLoss == Maximum(LostIn(player), receipts)
  }

  /** The counters are 64-bit. */
  ghost predicate Fits<H>(player: PlayerId, receipts: seq<Receipt<H>>) {
    Sum(Played(player), receipts) <= U64_MAX && Sum(WonIn(player), receipts) <= U64_MAX && Sum(LostIn(player), receipts) <= U64_MAX
  }

  // ----- Sums -----

  lemma {:induction false} SumGrows<T>(f: T -> int, xs: seq<T>, k: nat)
    requires k <= |xs| && forall x :: f(x) >= 0
    ensures 0 <= Sum(f, xs[..k]) <= Sum(f, xs)
  {
    if k == |xs| {
      assert xs[..k] == xs;
      if k > 0 { SumGrows(f, xs[..k - 1], k - 1); assert xs[..k - 1][..k - 1] == xs[..k - 1]; }
    } else {
      SumGrows(f, xs[..|xs| - 1], k);
      assert xs[..|xs| - 1][..k] == xs[..k];
    }
  }

  lemma {:induction false} NetIsWonMinusLost<H>(player: PlayerId, receipts: seq<Receipt<H>>)
    ensures Sum(NetIn(player), receipts) == Sum(WonIn(player), receipts) - Sum(LostIn(player), receipts)
  {
    if |receipts| > 0 { NetIsWonMinusLost(player, receipts[..|receipts| - 1]); }
  }

  // ----- The program -----

  /** Stacks are 64-bit. */
  ghost predicate StacksFit<H>(r: Receipt<H>) {
    forall i :: 0 <= i < |r.outcomes| ==> r.outcomes[i].startingStack <= U64_MAX && r.outcomes[i].endingStack <= U64_MAX
  }

  /** The record with one more hand, and whether its counters can hold it. */
  function Counted(s: PlayerStatistics, delta: int): PlayerStatistics {
    PlayerStatistics(s.completedHands + 1, s.grossWon + Won(delta), s.grossLost + Lost(delta), s.netChips + delta,
                     if s.largestWin < Won(delta) then Won(delta) else s.largestWin,
                     if s.largestLoss < Lost(delta) then Lost(delta) else s.largestLoss)
  }

  predicate Countable(s: PlayerStatistics, delta: int) {
    s.completedHands + 1 <= U64_MAX && s.grossWon + Won(delta) <= U64_MAX && s.grossLost + Lost(delta) <= U64_MAX
  }

  lemma {:induction false} OneMore<H>(player: PlayerId, receipts: seq<Receipt<H>>, r: Receipt<H>, s: PlayerStatistics)
    requires Totals(player, receipts, s) && Fits(player, receipts)
    ensures match DeltaOf(player, r)
            case None => Totals(player, receipts + [r], s) && Fits(player, receipts + [r])
            case Some(delta) => && Totals(player, receipts + [r], Counted(s, delta))
                                && (Fits(player, receipts + [r]) <==> Countable(s, delta))
  {
    hide DeltaOf;
    assert (receipts + [r])[..|receipts|] == receipts;
  }

  lemma {:induction false} RecordBalances<H>(player: PlayerId, receipts: seq<Receipt<H>>, s: PlayerStatistics)
    requires Totals(player, receipts, s) && Fits(player, receipts)
    ensures s.netChips == s.grossWon - s.grossLost && s.grossWon <= U64_MAX && s.grossLost <= U64_MAX
  {
    hide Sum, Maximum;
    NetIsWonMinusLost(player, receipts);
  }

  /** One more hand of the player, or an overflow of one of the counters. */
  method AddHand(s: PlayerStatistics, delta: int) returns (r: Derived)
    requires -(U64_MAX as int) <= delta <= U64_MAX && s.netChips == s.grossWon - s.grossLost
    requires s.grossWon <= U64_MAX && s.grossLost <= U64_MAX
    ensures r.Derived? <==> Countable(s, delta)
    ensures r.Derived? ==> r.statistics == Counted(s, delta)
  {
    var t := s;
    if t.completedHands + 1 > U64_MAX { return Overflowed; }
    t := t.(completedHands := t.completedHands + 1);
    if !(-I128_MAX - 1 <= t.netChips + delta <= I128_MAX) { return Overflowed; }
    t := t.(netChips := t.netChips + delta);
    if delta >= 0 {
      if t.grossWon + delta > U64_MAX { return Overflowed; }
      t := t.(grossWon := t.grossWon + delta, largestWin := if t.largestWin < delta then delta else t.largestWin);
    } else {
      if t.grossLost - delta > U64_MAX { return Overflowed; }
      t := t.(grossLost := t.grossLost - delta, largestLoss := if t.largestLoss < -delta then -delta else t.largestLoss);
    }
    return Derived(t);
  }

  /** Adds up a player's receipts in the order given. It overflows exactly when a total does, whatever the order. */
  method Derive<H>(player: PlayerId, receipts: seq<Receipt<H>>) returns (r: Derived)
    requires forall i :: 0 <= i < |receipts| ==> StacksFit(receipts[i])
    ensures r.Derived? <==> Fits(player, receipts)
    ensures r.Derived? ==> Totals(player, receipts, r.statistics) && r.statistics.netChips == r.statistics.grossWon - r.statistics.grossLost
  {
    hide StacksFit, Totals, Fits, Counted, Countable, OutcomeFor;
    var s := PlayerStatistics(0, 0, 0, 0, 0, 0);
    NothingPlayed<H>(player);
    for i := 0 to |receipts|
      invariant Totals(player, receipts[..i], s) && Fits(player, receipts[..i])
    {
      assert receipts[..i + 1] == receipts[..i] + [receipts[i]];
      FitsWhole(player, receipts, i + 1);
      RecordBalances(player, receipts[..i], s);
      OneMore(player, receipts[..i], receipts[i], s);
      var outcome := OutcomeFor(receipts[i], player);
      if outcome.Some? {
        DeltaFits(receipts[i], player);
        var added := AddHand(s, Delta(outcome.value));
        if added.Overflowed? { return Overflowed; }
        s := added.statistics;
      }
    }
    assert receipts[..|receipts|] == receipts;
    RecordBalances(player, receipts, s);
    return Derived(s);
  }

  lemma {:induction false} NothingPlayed<H>(player: PlayerId)
    ensures Totals<H>(player, [], PlayerStatistics(0, 0, 0, 0, 0, 0)) && Fits<H>(player, [])
  {
  }

  lemma {:induction false} DeltaFits<H>(r: Receipt<H>, player: PlayerId)
    requires StacksFit(r) && OutcomeFor(r, player).Some?
    ensures -(U64_MAX as int) <= Delta(OutcomeFor(r, player).value) <= U64_MAX
  {
  }

  lemma {:induction false} FitsWhole<H>(player: PlayerId, receipts: seq<Receipt<H>>, k: nat)
    requires k <= |receipts|
    ensures Fits(player, receipts) ==> Fits(player, receipts[..k])
  {
    SumGrows(Played(player), receipts, k);
    SumGrows(WonIn(player), receipts, k);
    SumGrows(LostIn(player), receipts, k);
  }

  // ----- Order does not matter -----

  lemma {:induction false} SumWithout<T>(f: T -> int, xs: seq<T>, i: nat)
    requires i < |xs|
    ensures Sum(f, xs) == Sum(f, xs[..i] + xs[i + 1..]) + f(xs[i])
  {
    var n := |xs| - 1;
    var rest := xs[..i] + xs[i + 1..];
    if i == n {
      assert rest == xs[..n];
    } else {
      SumWithout(f, xs[..n], i);
      assert rest[..n - 1] == xs[..n][..i] + xs[..n][i + 1..];
    }
  }

  lemma {:induction false} MaximumIsGreatest<T>(f: T -> nat, xs: seq<T>)
    ensures forall x :: x in xs ==> f(x) <= Maximum(f, xs)
    ensures Maximum(f, xs) == 0 || exists x :: x in xs && f(x) == Maximum(f, xs)
  {
    if |xs| > 0 {
      var n := |xs| - 1;
      MaximumIsGreatest(f, xs[..n]);
      assert xs == xs[..n] + [xs[n]];
    }
  }

  lemma {:induction false} SameMembersSameMaximum<T>(f: T -> nat, xs: seq<T>, ys: seq<T>)
    requires forall x :: x in xs <==> x in ys
    ensures Maximum(f, xs) == Maximum(f, ys)
  {
    MaximumIsGreatest(f, xs);
    MaximumIsGreatest(f, ys);
  }

  lemma {:induction false} Removed<T>(xs: seq<T>, i: nat)
    requires i < |xs|
    ensures multiset(xs) == multiset(xs[..i] + xs[i + 1..]) + multiset{xs[i]}
  {
    assert xs == xs[..i] + [xs[i]] + xs[i + 1..];
  }

  /** The last element of one order, found in the other and taken out of both. */
  lemma {:induction false} LastMatched<T>(xs: seq<T>, ys: seq<T>) returns (i: nat)
    requires multiset(xs) == multiset(ys) && |xs| > 0
    ensures i < |ys| && ys[i] == xs[|xs| - 1] && multiset(xs[..|xs| - 1]) == multiset(ys[..i] + ys[i + 1..])
  {
    var n := |xs| - 1;
    Removed(xs, n);
    assert xs[..n] + xs[n + 1..] == xs[..n];
    assert xs[n] in multiset(ys);
    i :| 0 <= i < |ys| && ys[i] == xs[n];
    Removed(ys, i);
    assert multiset(xs[..n]) == multiset(xs) - multiset{xs[n]};
    assert multiset(ys[..i] + ys[i + 1..]) == multiset(ys) - multiset{xs[n]};
  }

  lemma {:induction false} SumOfPermutation<T>(f: T -> int, xs: seq<T>, ys: seq<T>)
    requires multiset(xs) == multiset(ys)
    ensures Sum(f, xs) == Sum(f, ys)
  {
    if |xs| == 0 {
      assert |multiset(ys)| == 0;
    } else {
      var i := LastMatched(xs, ys);
      SumWithout(f, ys, i);
      SumOfPermutation(f, xs[..|xs| - 1], ys[..i] + ys[i + 1..]);
    }
  }

  /** The record of a player is the same for every order of the receipts, and so is an overflow. */
  lemma {:induction false} OrderDoesNotMatter<H>(player: PlayerId, xs: seq<Receipt<H>>, ys: seq<Receipt<H>>)
    requires multiset(xs) == multiset(ys)
    ensures Fits(player, xs) <==> Fits(player, ys)
    ensures forall s :: Totals(player, xs, s) <==> Totals(player, ys, s)
  {
    hide Sum, Maximum;
    SumOfPermutation(Played(player), xs, ys);
    SumOfPermutation(WonIn(player), xs, ys);
    SumOfPermutation(LostIn(player), xs, ys);
    SumOfPermutation(NetIn(player), xs, ys);
    assert forall x :: x in xs <==> x in multiset(xs);
    assert forall x :: x in ys <==> x in multiset(ys);
    SameMembersSameMaximum(WonIn(player), xs, ys);
    SameMembersSameMaximum(LostIn(player), xs, ys);
  }

  // ----- What one wins another loses -----

  /** The change of a player's stack among these outcomes. */
  function DeltaAmong(outcomes: seq<HandOutcome>): PlayerId -> int {
    (p: PlayerId) => var i := OutcomeIndex(outcomes, p); if i.Some? then Delta(outcomes[i.value]) else 0
  }

  ghost predicate NoRepeat(players: seq<PlayerId>) { forall i, j :: 0 <= i < j < |players| ==> players[i] != players[j] }

  lemma {:induction false} SumChangesOnce(f: PlayerId -> int, g: PlayerId -> int, players: seq<PlayerId>, p: PlayerId)
    requires NoRepeat(players) && forall q :: q != p ==> f(q) == g(q)
    ensures Sum(g, players) == Sum(f, players) + (if p in players then g(p) - f(p) else 0)
  {
    if |players| > 0 {
      var n := |players| - 1;
      SumChangesOnce(f, g, players[..n], p);
      assert players == players[..n] + [players[n]];
      if players[n] == p { assert p !in players[..n]; }
    }
  }

  lemma {:induction false} LastOutcome(outcomes: seq<HandOutcome>, q: PlayerId)
    requires |outcomes| > 0 && PlayersAscend(outcomes)
    ensures var last := outcomes[|outcomes| - 1];
            DeltaAmong(outcomes)(q) == if q == last.player then Delta(last) else DeltaAmong(outcomes[..|outcomes| - 1])(q)
    ensures DeltaAmong(outcomes[..|outcomes| - 1])(outcomes[|outcomes| - 1].player) == 0
  {
    var n := |outcomes| - 1;
    var (i, j) := (OutcomeIndex(outcomes, q), OutcomeIndex(outcomes[..n], q));
    assert forall k :: 0 <= k < n ==> outcomes[..n][k] == outcomes[k];
    if j.Some? { assert i.Some? && !(i.value < j.value) && !(j.value < i.value); }
    var k := OutcomeIndex(outcomes[..n], outcomes[n].player);
  }

  lemma {:induction false} ReceiptNets(outcomes: seq<HandOutcome>, players: seq<PlayerId>)
    requires PlayersAscend(outcomes) && NoRepeat(players)
    requires forall i :: 0 <= i < |outcomes| ==> outcomes[i].player in players
    ensures Sum(DeltaAmong(outcomes), players) == EndTotal(outcomes) - StartTotal(outcomes)
  {
    if |outcomes| == 0 {
      SumOfZeros(DeltaAmong(outcomes), players);
    } else {
      var n := |outcomes| - 1;
      ReceiptNets(outcomes[..n], players);
      forall q ensures DeltaAmong(outcomes)(q) == if q == outcomes[n].player then Delta(outcomes[n]) else DeltaAmong(outcomes[..n])(q) {
        LastOutcome(outcomes, q);
      }
      LastOutcome(outcomes, outcomes[n].player);
      SumChangesOnce(DeltaAmong(outcomes[..n]), DeltaAmong(outcomes), players, outcomes[n].player);
    }
  }

  lemma {:induction false} SumOfZeros(f: PlayerId -> int, players: seq<PlayerId>)
    requires forall p :: f(p) == 0
    ensures Sum(f, players) == 0
  {
    if |players| > 0 { SumOfZeros(f, players[..|players| - 1]); }
  }

  /** The net result of a player over a list of receipts. */
  function NetOver<H>(receipts: seq<Receipt<H>>): PlayerId -> int { (p: PlayerId) => Sum(NetIn(p), receipts) }

  lemma {:induction false} SumAdds(f: PlayerId -> int, g: PlayerId -> int, h: PlayerId -> int, players: seq<PlayerId>)
    requires forall p :: h(p) == f(p) + g(p)
    ensures Sum(h, players) == Sum(f, players) + Sum(g, players)
  {
    if |players| > 0 { SumAdds(f, g, h, players[..|players| - 1]); }
  }

  /** Over any valid receipts the nets of all participants add up to zero. */
  lemma {:induction false} NetsAddUpToZero<H>(receipts: seq<Receipt<H>>, players: seq<PlayerId>)
    requires NoRepeat(players)
    requires forall k :: 0 <= k < |receipts| ==> ValidReceipt(receipts[k])
    requires forall k, i :: 0 <= k < |receipts| && 0 <= i < |receipts[k].outcomes| ==> receipts[k].outcomes[i].player in players
    ensures Sum(NetOver(receipts), players) == 0
  {
    if |receipts| == 0 {
      SumOfZeros(NetOver(receipts), players);
    } else {
      var n := |receipts| - 1;
      NetsAddUpToZero(receipts[..n], players);
      ReceiptNets(receipts[n].outcomes, players);
      SumAdds(NetOver(receipts[..n]), DeltaAmong(receipts[n].outcomes), NetOver(receipts), players);
    }
  }
}
