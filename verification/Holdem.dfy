/** One hand of no-limit hold'em as a value: blinds, betting, street advance, side pots and settlement.
    Every operation returns the hand it leaves behind together with its result, so that what
    a failed operation has already changed stays visible. */
module Holdem {
  import opened Chips
  import opened Stakes

  /** 32 bytes compared in order: a number below 2^256, big-endian. */
  type PlayerId = nat

  datatype Street = Preflop | Flop | Turn | River | Showdown | Complete

  datatype SeatStatus = Active | Folded | AllIn

  datatype PlayerAction = Fold | Check | Call | RaiseTo(target: nat)

  datatype Seat = Seat(
    player: PlayerId, startingStack: nat, stack: nat,
    totalCommitted: nat, streetCommitted: nat, status: SeatStatus)

  datatype Hand = Hand(
    level: StakeLevel, dealer: nat, street: Street, seats: seq<Seat>,
    pending: set<PlayerId>, raiseRights: set<PlayerId>,
    currentBet: nat, lastFullRaise: nat, nextToAct: Option<nat>)

  datatype PlayerSettlement = PlayerSettlement(
    player: PlayerId, startingStack: nat, endingStack: nat, delta: int)

  datatype Outcome =
    | WaitingFor(player: PlayerId)
    | StreetAdvanced(street: Street, first: Option<PlayerId>)
    | ShowdownReady
    | HandComplete(settlement: seq<PlayerSettlement>)

  datatype HoldemError =
    | InvalidSeatCount | InvalidDealerIndex | DuplicatePlayer | StackOutsideBuyInRange
    | NoActionExpected | OutOfTurn | CannotCheck | NothingToCall
    | RaiseMustIncreaseBet | RaiseNotReopened | InsufficientStack | RaiseBelowMinimum(minimumTarget: nat)
    | ShowdownNotReady | MissingHoleCards | DuplicateCard
    | UnknownPlayer | ChipOverflow | StateInvariant

  datatype Result<+T> = Ok(value: T) | Err(error: HoldemError)

  /** The state an operation leaves behind, and what it returned. */
  datatype Attempt<+S, +T> = Attempt(state: S, result: Result<T>)

  // ----- Seats -----

  /** The seat `offset` places clockwise of `start`. */
  function Clockwise(start: nat, offset: nat, n: nat): (i: nat)
    requires start < n && offset <= n
    ensures i < n
  {
    if start + offset < n then start + offset else start + offset - n
  }

  /** The program computes the same seat with a remainder. */
  lemma {:induction false} ClockwiseIsRemainder(start: nat, offset: nat, n: nat)
    requires start < n && offset <= n
    ensures Clockwise(start, offset, n) == (start + offset) % n
  {
    var x := start + offset;
    var q := x / n;
    assert x == q * n + x % n;
    assert q >= 2 ==> q * n >= 2 * n;
    assert q == 0 || q == 1;
  }

  predicate IsContender(s: Seat) { !s.status.Folded? }

  function Covers(threshold: nat): Seat -> bool { (s: Seat) => s.totalCommitted >= threshold }

  function EligibleFor(threshold: nat): Seat -> bool { (s: Seat) => IsContender(s) && s.totalCommitted >= threshold }

  /** The players of the seats that satisfy `f`, in seat order. */
  function PlayersWhere(seats: seq<Seat>, f: Seat -> bool): (r: seq<PlayerId>)
    ensures forall p :: p in r ==> exists i :: 0 <= i < |seats| && f(seats[i]) && seats[i].player == p
  {
    if |seats| == 0 then []
    else
      var front := PlayersWhere(seats[..|seats| - 1], f);
      if f(seats[|seats| - 1]) then front + [seats[|seats| - 1].player] else front
  }

  function Contenders(seats: seq<Seat>): seq<PlayerId> { PlayersWhere(seats, IsContender) }

  lemma {:induction false} PlayersWhereMembers(seats: seq<Seat>, f: Seat -> bool)
    ensures forall p :: p in PlayersWhere(seats, f) <==> exists i :: 0 <= i < |seats| && f(seats[i]) && seats[i].player == p
    ensures |PlayersWhere(seats, f)| <= |seats|
  {
    if |seats| > 0 {
      var n := |seats| - 1;
      PlayersWhereMembers(seats[..n], f);
      forall p ensures p in PlayersWhere(seats, f) <==> exists i :: 0 <= i < |seats| && f(seats[i]) && seats[i].player == p {
        if i :| 0 <= i < |seats| && f(seats[i]) && seats[i].player == p {
          if i < n { assert seats[..n][i] == seats[i]; }
        }
      }
    }
  }

  function ActionablePlayers(seats: seq<Seat>, excluded: Option<PlayerId>): set<PlayerId> {
    set i | 0 <= i < |seats| && seats[i].status.Active? && Some(seats[i].player) != excluded :: seats[i].player
  }

  /** The first seat at or after `start`, clockwise, whose player still has to act. */
  function NextPendingFrom(seats: seq<Seat>, pending: set<PlayerId>, start: nat, offset: nat := 0): (r: Option<nat>)
    requires start < |seats| && offset <= |seats|
    ensures r.Some? ==> r.value < |seats| && seats[r.value].player in pending
    decreases |seats| - offset
  {
    if offset == |seats| then None
    else
      var i := Clockwise(start, offset, |seats|);
      if seats[i].player in pending then Some(i)
      else NextPendingFrom(seats, pending, start, offset + 1)
  }

  function SeatIndex(seats: seq<Seat>, player: PlayerId, from: nat := 0): (r: Option<nat>)
    requires from <= |seats|
    ensures r.Some? ==> r.value < |seats| && seats[r.value].player == player
    ensures r.None? ==> forall i :: from <= i < |seats| ==> seats[i].player != player
    decreases |seats| - from
  {
    if from == |seats| then None
    else if seats[from].player == player then Some(from)
    else SeatIndex(seats, player, from + 1)
  }

  function SumTotals(seats: seq<Seat>): nat {
    if |seats| == 0 then 0 else SumTotals(seats[..|seats| - 1]) + seats[|seats| - 1].totalCommitted
  }

  // ----- Starting a hand -----

  predicate DistinctPlayers(seats: seq<Seat>) {
    forall i, j :: 0 <= i < j < |seats| ==> seats[i].player != seats[j].player
  }

  function BlindPositions(dealer: nat, n: nat): (nat, nat, nat)
    requires dealer < n && 2 <= n
  {
    if n == 2 then (dealer, Clockwise(dealer, 1, 2), dealer)
    else (Clockwise(dealer, 1, n), Clockwise(dealer, 2, n), Clockwise(dealer, 3, n))
  }

  function NewSeat(buyIn: (PlayerId, nat)): Seat { Seat(buyIn.0, buyIn.1, buyIn.1, 0, 0, Active) }

  function Seated(buyIns: seq<(PlayerId, nat)>): (r: seq<Seat>)
    ensures |r| == |buyIns| && forall i :: 0 <= i < |r| ==> r[i] == NewSeat(buyIns[i])
  {
    if |buyIns| == 0 then [] else Seated(buyIns[..|buyIns| - 1]) + [NewSeat(buyIns[|buyIns| - 1])]
  }

  function Start(level: StakeLevel, buyIns: seq<(PlayerId, nat)>, dealer: nat): Result<Hand>
    requires ValidLevel(level)
  {
    if |buyIns| < level.minPlayers || |buyIns| > level.maxPlayers then Err(InvalidSeatCount)
    else if dealer >= |buyIns| then Err(InvalidDealerIndex)
    else if exists i, j :: 0 <= i < j < |buyIns| && buyIns[i].0 == buyIns[j].0 then Err(DuplicatePlayer)
    else if exists i :: 0 <= i < |buyIns| && !(level.minBuyIn <= buyIns[i].1 <= level.maxBuyIn) then Err(StackOutsideBuyInRange)
    else PostBlinds(level, Seated(buyIns), dealer)
  }

  function PostBlinds(level: StakeLevel, seats: seq<Seat>, dealer: nat): Result<Hand>
    requires dealer < |seats| && 2 <= |seats|
  {
    var (small, big, first) := BlindPositions(dealer, |seats|);
    var afterSmall := CommitAt(seats, small, level.smallBlind);
    if afterSmall.result.Err? then Err(afterSmall.result.error)
    else
      var afterBig := CommitAt(afterSmall.state, big, level.bigBlind);
      if afterBig.result.Err? then Err(afterBig.result.error)
      else Ok(OpenPreflop(level, afterBig.state, dealer))
  }

  function OpenPreflop(level: StakeLevel, seats: seq<Seat>, dealer: nat): (h: Hand)
    requires dealer < |seats| && 2 <= |seats|
    ensures h.level == level && h.seats == seats && h.dealer == dealer
  {
    var pending := ActionablePlayers(seats, None);
    Hand(level, dealer, Preflop, seats, pending, pending, level.bigBlind, level.bigBlind,
         NextPendingFrom(seats, pending, BlindPositions(dealer, |seats|).2))
  }

  /** Moves up to `requested` chips from the stack into the pot; an empty stack is all-in. */
  function CommitSeat(s: Seat, requested: nat): Attempt<Seat, Unit> {
    var amount := Min(requested, s.stack);
    var s1 := s.(stack := s.stack - amount);
    if s.totalCommitted + amount > U64_MAX then Attempt(s1, Err(ChipOverflow))
    else
      var s2 := s1.(totalCommitted := s.totalCommitted + amount);
      if s.streetCommitted + amount > U64_MAX then Attempt(s2, Err(ChipOverflow))
      else
        var s3 := s2.(streetCommitted := s.streetCommitted + amount);
        Attempt(if s3.stack == 0 then s3.(status := AllIn) else s3, Ok(Unit))
  }

  function CommitAt(seats: seq<Seat>, i: nat, requested: nat): (a: Attempt<seq<Seat>, Unit>)
    requires i < |seats|
    ensures |a.state| == |seats|
  {
    var c := CommitSeat(seats[i], requested);
    Attempt(seats[i := c.state], c.result)
  }

  // ----- Acting -----

  function NextPlayer(h: Hand): Option<PlayerId>
    requires h.nextToAct.Some? ==> h.nextToAct.value < |h.seats|
  {
    if h.nextToAct.Some? then Some(h.seats[h.nextToAct.value].player) else None
  }

  function AmountToCall(h: Hand, player: PlayerId): Result<nat> {
    var i := SeatIndex(h.seats, player);
    if i.None? then Err(UnknownPlayer)
    else
      var committed := h.seats[i.value].streetCommitted;
      Ok(if h.currentBet >= committed then h.currentBet - committed else 0)
  }

  function ConsumeAction(h: Hand, player: PlayerId): Hand {
    h.(pending := h.pending - {player}, raiseRights := h.raiseRights - {player})
  }

  /** The smallest target of a full raise. */
  function MinimumTarget(h: Hand): nat {
    if h.currentBet == 0 then h.level.bigBlind else h.currentBet + h.lastFullRaise
  }

  /** Players left behind by a bet of `bet` who still have chips. */
  function Behind(seats: seq<Seat>, bet: nat): set<PlayerId> {
    set i | 0 <= i < |seats| && seats[i].status.Active? && seats[i].streetCommitted < bet :: seats[i].player
  }

  /** Players left behind by `bet` for whom the amount they face adds up to a full raise. */
  function Reopened(seats: seq<Seat>, bet: nat, fullRaise: nat): set<PlayerId> {
    set i | 0 <= i < |seats| && seats[i].status.Active? && seats[i].streetCommitted < bet
            && bet - seats[i].streetCommitted >= fullRaise :: seats[i].player
  }

  function Raise(h: Hand, i: nat, target: nat): (a: Attempt<Hand, Unit>)
    requires i < |h.seats|
    ensures |a.state.seats| == |h.seats| && a.state.dealer == h.dealer && a.state.nextToAct == h.nextToAct
  {
    var s := h.seats[i];
    if s.player !in h.raiseRights then Attempt(h, Err(RaiseNotReopened))
    else if target <= h.currentBet || target <= s.streetCommitted then Attempt(h, Err(RaiseMustIncreaseBet))
    else
      var additional := target - s.streetCommitted;
      if additional > s.stack then Attempt(h, Err(InsufficientStack))
      else if h.currentBet != 0 && h.currentBet + h.lastFullRaise > U64_MAX then Attempt(h, Err(ChipOverflow))
      else if target < MinimumTarget(h) && additional != s.stack then Attempt(h, Err(RaiseBelowMinimum(MinimumTarget(h))))
      else
        var c := CommitAt(h.seats, i, additional);
        if c.result.Err? then Attempt(h.(seats := c.state), c.result)
        else Attempt(AfterRaise(h, c.state, s.player, target), Ok(Unit))
  }

  /** A full raise reopens the betting to everyone else; a short all-in only to players who now face a full raise. */
  function AfterRaise(h: Hand, seats: seq<Seat>, raiser: PlayerId, target: nat): Hand
    requires target > h.currentBet
  {
    if target >= MinimumTarget(h) then
      var others := ActionablePlayers(seats, Some(raiser));
      h.(seats := seats, currentBet := target, pending := others, raiseRights := others,
         lastFullRaise := target - h.currentBet)
    else
      h.(seats := seats, currentBet := target,
         pending := h.pending - {raiser} + Behind(seats, target),
         raiseRights := h.raiseRights - {raiser} + Reopened(seats, target, h.lastFullRaise))
  }

  /** What the chosen action does to the seats and to who still has to act. */
  function Perform(h: Hand, i: nat, action: PlayerAction): (a: Attempt<Hand, Unit>)
    requires i < |h.seats|
    ensures |a.state.seats| == |h.seats| && a.state.dealer == h.dealer && a.state.nextToAct == h.nextToAct
  {
    var s := h.seats[i];
    match action
    case Fold => Attempt(ConsumeAction(h.(seats := h.seats[i := s.(status := Folded)]), s.player), Ok(Unit))
    case Check =>
      if s.streetCommitted != h.currentBet then Attempt(h, Err(CannotCheck))
      else Attempt(ConsumeAction(h, s.player), Ok(Unit))
    case Call =>
      if h.currentBet <= s.streetCommitted then Attempt(h, Err(NothingToCall))
      else
        var c := CommitAt(h.seats, i, Min(h.currentBet - s.streetCommitted, s.stack));
        if c.result.Err? then Attempt(h.(seats := c.state), c.result)
        else Attempt(ConsumeAction(h.(seats := c.state), s.player), Ok(Unit))
    case RaiseTo(target) => Raise(h, i, target)
  }

  /** The seat numbers a hand refers to exist. */
  predicate Playable(h: Hand) {
    h.dealer < |h.seats| && (h.nextToAct.Some? ==> h.nextToAct.value < |h.seats|)
  }

  function Act(h: Hand, player: PlayerId, action: PlayerAction): (a: Attempt<Hand, Outcome>)
    requires Playable(h)
    ensures Playable(a.state)
  {
    if h.nextToAct.None? then Attempt(h, Err(NoActionExpected))
    else if h.seats[h.nextToAct.value].player != player then Attempt(h, Err(OutOfTurn))
    else
      var done := Perform(h, h.nextToAct.value, action);
      if done.result.Err? then Attempt(done.state, Err(done.result.error))
      else PassTurn(done.state, h.nextToAct.value)
  }

  /** After an accepted action by seat `i`: the last contender wins, a closed round opens the next street,
      or the turn passes on. */
  function PassTurn(h: Hand, i: nat): (a: Attempt<Hand, Outcome>)
    requires Playable(h) && i < |h.seats|
    ensures Playable(a.state)
  {
    var contenders := Contenders(h.seats);
    if |contenders| == 1 then
      var finished := FinishUncontested(h, contenders[0]);
      Attempt(finished.state, if finished.result.Ok? then Ok(HandComplete(finished.result.value)) else Err(finished.result.error))
    else if h.pending == {} then AdvanceStreet(h)
    else
      var next := NextPendingFrom(h.seats, h.pending, Clockwise(i, 1, |h.seats|));
      var h' := h.(nextToAct := next);
      if next.None? then Attempt(h', Err(StateInvariant))
      else Attempt(h', Ok(WaitingFor(h.seats[next.value].player)))
  }

  function StreetsLeft(street: Street): nat {
    match street
    case Preflop => 4 case Flop => 3 case Turn => 2 case River => 1 case _ => 0
  }

  function NextStreet(street: Street): Option<Street> {
    match street
    case Preflop => Some(Flop) case Flop => Some(Turn) case Turn => Some(River) case River => Some(Showdown)
    case _ => None
  }

  function ClearStreet(seats: seq<Seat>): (r: seq<Seat>)
    ensures |r| == |seats| && forall i :: 0 <= i < |r| ==> r[i] == seats[i].(streetCommitted := 0)
  {
    if |seats| == 0 then [] else ClearStreet(seats[..|seats| - 1]) + [seats[|seats| - 1].(streetCommitted := 0)]
  }

  /** The hand as it stands when the next betting street opens. */
  function OpenStreet(h: Hand, street: Street): Hand
    requires h.dealer < |h.seats|
  {
    var seats := ClearStreet(h.seats);
    var pending := ActionablePlayers(seats, None);
    h.(street := street, seats := seats, currentBet := 0, lastFullRaise := h.level.bigBlind,
       pending := pending, raiseRights := pending,
       nextToAct := NextPendingFrom(seats, pending, Clockwise(h.dealer, 1, |seats|)))
  }

  /** Opens the next street; with fewer than two players able to bet it runs on to the showdown. */
  function AdvanceStreet(h: Hand): (a: Attempt<Hand, Outcome>)
    requires Playable(h)
    ensures Playable(a.state)
    decreases StreetsLeft(h.street)
  {
    match NextStreet(h.street)
    case None => Attempt(h, Err(StateInvariant))
    case Some(street) =>
      if street.Showdown? then Attempt(h.(street := street, nextToAct := None), Ok(ShowdownReady))
      else
        var next := OpenStreet(h, street);
        if |next.pending| < 2 then AdvanceStreet(next.(pending := {}))
        else Attempt(next, Ok(StreetAdvanced(street, NextPlayer(next))))
  }

  // ----- Settling -----

  /** Two views of the same seats that differ in their stacks only. */
  ghost predicate SameButStacks(a: seq<Seat>, b: seq<Seat>) {
    |a| == |b| && forall i :: 0 <= i < |a| ==> b[i] == a[i].(stack := b[i].stack)
  }

  /** Every player who reaches the showdown has a rank. */
  ghost predicate RanksKnown(seats: seq<Seat>, ranks: map<PlayerId, int>) {
    forall j :: 0 <= j < |seats| && IsContender(seats[j]) ==> seats[j].player in ranks
  }

  function Award(seats: seq<Seat>, player: PlayerId, amount: nat): (a: Attempt<seq<Seat>, Unit>)
    ensures SameButStacks(seats, a.state)
  {
    var i := SeatIndex(seats, player);
    if i.None? then Attempt(seats, Err(UnknownPlayer))
    else if seats[i.value].stack + amount > U64_MAX then Attempt(seats, Err(ChipOverflow))
    else Attempt(seats[i.value := seats[i.value].(stack := seats[i.value].stack + amount)], Ok(Unit))
  }

  function AwardEach(seats: seq<Seat>, players: seq<PlayerId>, amount: nat): (a: Attempt<seq<Seat>, Unit>)
    ensures SameButStacks(seats, a.state)
    decreases |players|
  {
    if |players| == 0 then Attempt(seats, Ok(Unit))
    else
      var first := Award(seats, players[0], amount);
      if first.result.Err? then first else AwardEach(first.state, players[1..], amount)
  }

  /** The members of `players` in seat order, starting left of the dealer. */
  function FromDealersLeft(seats: seq<Seat>, dealer: nat, players: set<PlayerId>, offset: nat := 1): seq<PlayerId>
    requires dealer < |seats| && 1 <= offset <= |seats| + 1
    decreases |seats| + 1 - offset
  {
    if offset == |seats| + 1 then []
    else
      var p := seats[Clockwise(dealer, offset, |seats|)].player;
      (if p in players then [p] else []) + FromDealersLeft(seats, dealer, players, offset + 1)
  }

  function Take(players: seq<PlayerId>, n: nat): seq<PlayerId> {
    if n <= |players| then players[..n] else players
  }

  function PlayerSet(players: seq<PlayerId>): set<PlayerId> { set p | p in players }

  function Share(pot: nat, winners: nat): nat
    requires winners > 0
  {
    pot / winners
  }

  function OddChips(pot: nat, winners: nat): nat
    requires winners > 0
  {
    pot % winners
  }

  /** Equal shares, then one odd chip each to the first winners left of the dealer. */
  function AwardSplit(seats: seq<Seat>, dealer: nat, pot: nat, winners: seq<PlayerId>): (a: Attempt<seq<Seat>, Unit>)
    requires dealer < |seats| && |winners| > 0
    ensures SameButStacks(seats, a.state)
  {
    var shared := AwardEach(seats, winners, Share(pot, |winners|));
    if shared.result.Err? then shared
    else
      var ordered := FromDealersLeft(shared.state, dealer, PlayerSet(winners));
      AwardEach(shared.state, Take(ordered, OddChips(pot, |winners|)), 1)
  }

  predicate AscendingAbove(bound: nat, xs: seq<nat>)
    decreases |xs|
  {
    |xs| > 0 ==> bound < xs[0] && AscendingAbove(xs[0], xs[1..])
  }

  /** A set of amounts in ascending order, each once. */
  function InsertAscending(xs: seq<nat>, v: nat): (r: seq<nat>)
    ensures forall x :: x in r <==> x in xs || x == v
    ensures forall bound: nat :: bound < v && AscendingAbove(bound, xs) ==> AscendingAbove(bound, r)
  {
    if |xs| == 0 then [v]
    else if v < xs[0] then [v] + xs
    else if v == xs[0] then xs
    else [xs[0]] + InsertAscending(xs[1..], v)
  }

  function Thresholds(seats: seq<Seat>): (r: seq<nat>)
    ensures AscendingAbove(0, r)
    ensures forall x :: x in r <==> x > 0 && exists i :: 0 <= i < |seats| && seats[i].totalCommitted == x
  {
    if |seats| == 0 then []
    else
      var front := Thresholds(seats[..|seats| - 1]);
      var total := seats[|seats| - 1].totalCommitted;
      if total > 0 then InsertAscending(front, total) else front
  }

  function Strongest(players: seq<PlayerId>, ranks: map<PlayerId, int>): (r: int)
    requires |players| > 0 && forall p :: p in players ==> p in ranks
    ensures exists p :: p in players && ranks[p] == r
    ensures forall p :: p in players ==> ranks[p] <= r
  {
    if |players| == 1 then ranks[players[0]]
    else
      var rest := Strongest(players[1..], ranks);
      if ranks[players[0]] >= rest then ranks[players[0]] else rest
  }

  function WithRank(players: seq<PlayerId>, ranks: map<PlayerId, int>, rank: int): (r: seq<PlayerId>)
    requires forall p :: p in players ==> p in ranks
    ensures forall p :: p in r <==> p in players && ranks[p] == rank
  {
    if |players| == 0 then []
    else (if ranks[players[0]] == rank then [players[0]] else []) + WithRank(players[1..], ranks, rank)
  }

  function LayerPot(previous: nat, threshold: nat, contributors: nat): nat
    requires previous <= threshold
  {
    (threshold - previous) * contributors
  }

  /** The layer between two neighbouring thresholds: every seat that reached `threshold` put in the difference. */
  function SettleLayer(seats: seq<Seat>, dealer: nat, ranks: map<PlayerId, int>, previous: nat, threshold: nat)
    : (a: Attempt<seq<Seat>, Unit>)
    requires dealer < |seats| && previous < threshold && RanksKnown(seats, ranks)
    ensures SameButStacks(seats, a.state)
  {
    var contributors := PlayersWhere(seats, Covers(threshold));
    var pot := LayerPot(previous, threshold, |contributors|);
    var eligible := PlayersWhere(seats, EligibleFor(threshold));
    if pot > U64_MAX then Attempt(seats, Err(ChipOverflow))
    else if |eligible| == 0 then
      if |contributors| != 1 then Attempt(seats, Err(StateInvariant))
      else Award(seats, contributors[0], pot)
    else
      var best := Strongest(eligible, ranks);
      AwardSplit(seats, dealer, pot, WithRank(eligible, ranks, best))
  }

  function SettleLayers(seats: seq<Seat>, dealer: nat, ranks: map<PlayerId, int>, previous: nat, thresholds: seq<nat>)
    : (a: Attempt<seq<Seat>, Unit>)
    requires dealer < |seats| && AscendingAbove(previous, thresholds) && RanksKnown(seats, ranks)
    ensures SameButStacks(seats, a.state)
    decreases |thresholds|
  {
    if |thresholds| == 0 then Attempt(seats, Ok(Unit))
    else
      var layer := SettleLayer(seats, dealer, ranks, previous, thresholds[0]);
      if layer.result.Err? then layer
      else SettleLayers(layer.state, dealer, ranks, thresholds[0], thresholds[1..])
  }

  function SumDeltas(players: seq<PlayerSettlement>): int {
    if |players| == 0 then 0 else SumDeltas(players[..|players| - 1]) + players[|players| - 1].delta
  }

  function SettlementOf(s: Seat): PlayerSettlement {
    PlayerSettlement(s.player, s.startingStack, s.stack, s.stack - s.startingStack)
  }

  function Settlements(seats: seq<Seat>): (r: seq<PlayerSettlement>)
    ensures |r| == |seats| && forall i :: 0 <= i < |r| ==> r[i] == SettlementOf(seats[i])
  {
    if |seats| == 0 then [] else Settlements(seats[..|seats| - 1]) + [SettlementOf(seats[|seats| - 1])]
  }

  function BuildSettlement(seats: seq<Seat>): Result<seq<PlayerSettlement>> {
    if SumDeltas(Settlements(seats)) != 0 then Err(StateInvariant) else Ok(Settlements(seats))
  }

  function FinishUncontested(h: Hand, winner: PlayerId): Attempt<Hand, seq<PlayerSettlement>> {
    if SumTotals(h.seats) > U64_MAX then Attempt(h, Err(ChipOverflow))
    else
      var paid := Award(h.seats, winner, SumTotals(h.seats));
      if paid.result.Err? then Attempt(h.(seats := paid.state), Err(paid.result.error))
      else Attempt(h.(seats := paid.state, street := Complete), BuildSettlement(paid.state))
  }

  datatype Card = Card(rank: nat, suit: nat)

  function HoleCards(players: seq<PlayerId>, holes: map<PlayerId, (Card, Card)>): seq<Card>
    requires forall p :: p in players ==> p in holes
  {
    if |players| == 0 then []
    else
      var last := players[|players| - 1];
      HoleCards(players[..|players| - 1], holes) + [holes[last].0, holes[last].1]
  }

  predicate HasDuplicate(cards: seq<Card>) {
    exists i, j :: 0 <= i < j < |cards| && cards[i] == cards[j]
  }

  /** `strength` stands for the seven-card evaluator; settlement only compares its values. */
  function Ranks(players: seq<PlayerId>, board: seq<Card>, holes: map<PlayerId, (Card, Card)>,
      strength: seq<Card> -> int)
    : map<PlayerId, int>
    requires forall p :: p in players ==> p in holes
  {
    map p | p in players :: strength([holes[p].0, holes[p].1] + board)
  }

  function SettleShowdown(h: Hand, board: seq<Card>, holes: map<PlayerId, (Card, Card)>, strength: seq<Card> -> int)
    : Attempt<Hand, seq<PlayerSettlement>>
    requires h.dealer < |h.seats|
  {
    var contenders := Contenders(h.seats);
    if !h.street.Showdown? then Attempt(h, Err(ShowdownNotReady))
    else if exists p :: p in contenders && p !in holes then Attempt(h, Err(MissingHoleCards))
    else if HasDuplicate(board + HoleCards(contenders, holes)) then Attempt(h, Err(DuplicateCard))
    else
      PlayersWhereMembers(h.seats, IsContender);
      SettleRanked(h, Ranks(contenders, board, holes, strength))
  }

  function SettleRanked(h: Hand, ranks: map<PlayerId, int>): Attempt<Hand, seq<PlayerSettlement>>
    requires h.dealer < |h.seats| && RanksKnown(h.seats, ranks)
  {
    var paid := SettleLayers(h.seats, h.dealer, ranks, 0, Thresholds(h.seats));
    if paid.result.Err? then Attempt(h.(seats := paid.state), Err(paid.result.error))
    else Attempt(h.(seats := paid.state, street := Complete), BuildSettlement(paid.state))
  }
}
