/** Whole hands: every sequence of attempted actions, from the deal to the end. */
module Runs {
  import opened Chips
  import opened Stakes
  import opened Holdem
  import opened Books
  import opened Betting

  // ----- Dealing -----

  /** A deal is accepted exactly for a full table of distinct players with stacks in range. */
  ghost predicate Dealable(level: StakeLevel, buyIns: seq<(PlayerId, nat)>, dealer: nat) {
    && level.minPlayers <= |buyIns| <= level.maxPlayers && dealer < |buyIns|
    && (forall i, j :: 0 <= i < j < |buyIns| ==> buyIns[i].0 != buyIns[j].0)
    && (forall i :: 0 <= i < |buyIns| ==> level.minBuyIn <= buyIns[i].1 <= level.maxBuyIn)
  }

  /** Blinds and first turn go round the table in order; heads-up the dealer posts the small blind. */
  lemma {:induction false} BlindsInOrder(dealer: nat, n: nat)
    requires dealer < n && 2 <= n
    ensures var (small, big, first) := BlindPositions(dealer, n);
            && big == Clockwise(small, 1, n) && first == Clockwise(big, 1, n)
            && small == if n == 2 then dealer else Clockwise(dealer, 1, n)
  {}

  function Blind(level: StakeLevel, dealer: nat, n: nat, i: nat): nat
    requires dealer < n && 2 <= n
  {
    var (small, big, first) := BlindPositions(dealer, n);
    if i == small then level.smallBlind else if i == big then level.bigBlind else 0
  }

  /** The seat of a player with stack `buyIn` once `blind` is posted. */
  function DealtSeat(player: PlayerId, buyIn: nat, blind: nat): Seat
    requires blind <= buyIn
  {
    Seat(player, buyIn, buyIn - blind, blind, blind, if blind == buyIn && blind > 0 then AllIn else Active)
  }

  lemma {:induction false} BlindPosted(seats: seq<Seat>, i: nat, blind: nat)
    requires i < |seats| && 0 < blind <= seats[i].startingStack <= U64_MAX
    requires seats[i] == DealtSeat(seats[i].player, seats[i].startingStack, 0)
    ensures CommitAt(seats, i, blind) == Attempt(seats[i := DealtSeat(seats[i].player, seats[i].startingStack, blind)], Ok(Unit))
  {}

  lemma {:induction false} BlindsPosted(level: StakeLevel, buyIns: seq<(PlayerId, nat)>, dealer: nat)
    requires ValidLevel(level) && FitsChips(level) && Dealable(level, buyIns, dealer)
    ensures var r := PostBlinds(level, Seated(buyIns), dealer);
            && r.Ok? && |r.value.seats| == |buyIns| && r.value == OpenPreflop(level, r.value.seats, dealer)
            && (forall i :: 0 <= i < |buyIns| ==>
                  && Blind(level, dealer, |buyIns|, i) <= level.bigBlind <= buyIns[i].1
                  && r.value.seats[i] == DealtSeat(buyIns[i].0, buyIns[i].1, Blind(level, dealer, |buyIns|, i)))
  {
    hide Seated, OpenPreflop;
    MulMonotone(1, level.maxPlayers, level.maxBuyIn);
    var (small, big, first) := BlindPositions(dealer, |buyIns|);
    assert small != big;
    var seats := Seated(buyIns);
    BlindPosted(seats, small, level.smallBlind);
    BlindPosted(CommitAt(seats, small, level.smallBlind).state, big, level.bigBlind);
    hide CommitAt, BlindPositions;
  }

  lemma {:induction false} NobodyFolded(seats: seq<Seat>)
    requires forall i :: 0 <= i < |seats| ==> IsContender(seats[i])
    ensures |Contenders(seats)| == |seats|
  {
    if |seats| > 0 { NobodyFolded(seats[..|seats| - 1]); }
  }

  lemma {:induction false} DealBets(level: StakeLevel, buyIns: seq<(PlayerId, nat)>, dealer: nat)
    requires ValidLevel(level) && FitsChips(level) && Dealable(level, buyIns, dealer)
    ensures var r := PostBlinds(level, Seated(buyIns), dealer);
            r.Ok? && MidRound(r.value) && RightsFair(r.value, {})
  {
    hide PostBlinds, Seated, Blind;
    BlindsPosted(level, buyIns, dealer);
    var h := PostBlinds(level, Seated(buyIns), dealer).value;
    forall i | 0 <= i < |h.seats| ensures SeatBooked(h.level, h.currentBet, h.seats[i]) {}
  }

  lemma {:induction false} SmallBlindCanBet(level: StakeLevel, buyIns: seq<(PlayerId, nat)>, dealer: nat)
    requires ValidLevel(level) && FitsChips(level) && Dealable(level, buyIns, dealer)
    ensures PostBlinds(level, Seated(buyIns), dealer).Ok? && PostBlinds(level, Seated(buyIns), dealer).value.pending != {}
  {
    BlindsPosted(level, buyIns, dealer);
    var h := PostBlinds(level, Seated(buyIns), dealer).value;
    var (small, big, first) := BlindPositions(dealer, |buyIns|);
    assert h.seats[small].player in h.pending;
  }

  lemma {:induction false} StartPostsBlinds(level: StakeLevel, buyIns: seq<(PlayerId, nat)>, dealer: nat)
    requires ValidLevel(level)
    ensures Dealable(level, buyIns, dealer) ==> Start(level, buyIns, dealer) == PostBlinds(level, Seated(buyIns), dealer)
    ensures !Dealable(level, buyIns, dealer) ==> Start(level, buyIns, dealer).Err?
  {
    hide PostBlinds, Seated;
  }

  /** A deal is accepted exactly for a proper table, and then awaits its first action. */
  lemma {:induction false} DealAwaits(level: StakeLevel, buyIns: seq<(PlayerId, nat)>, dealer: nat)
    requires ValidLevel(level) && FitsChips(level)
    ensures var r := Start(level, buyIns, dealer);
            && (r.Ok? <==> Dealable(level, buyIns, dealer))
            && (r.Ok? ==> Awaiting(r.value) && RightsFair(r.value, {}))
  {
    StartPostsBlinds(level, buyIns, dealer);
    hide Start;
    if Dealable(level, buyIns, dealer) {
      DealBets(level, buyIns, dealer);
      BlindsPosted(level, buyIns, dealer);
      SmallBlindCanBet(level, buyIns, dealer);
      hide PostBlinds, Seated;
      var h := PostBlinds(level, Seated(buyIns), dealer).value;
      NobodyFolded(h.seats);
      SomeoneIsNext(h.seats, h.pending, BlindPositions(dealer, |buyIns|).2);
    }
  }

  // ----- Raise rights -----

  /** `acted`: who has acted since the street opened or since the last full raise.
      A player who can bet may raise exactly if they have not acted since, or face a full raise again. */
  ghost predicate RightsFair(h: Hand, acted: set<PlayerId>) {
    forall i :: 0 <= i < |h.seats| && h.seats[i].status.Active? ==>
      var s := h.seats[i];
      && (s.player in h.raiseRights <==> s.player !in acted || h.currentBet - s.streetCommitted >= h.lastFullRaise)
      && (s.player !in acted ==> s.player in h.pending)
  }

  predicate IsFullRaise(h: Hand, action: PlayerAction) {
    action.RaiseTo? && action.target >= MinimumTarget(h)
  }

  function ActedAfter(h: Hand, player: PlayerId, action: PlayerAction, after: Hand,
      acted: set<PlayerId>): set<PlayerId> {
    if after.street != h.street then {}
    else if IsFullRaise(h, action) then {player}
    else acted + {player}
  }

  lemma {:induction false} PassiveKeepsRights(h: Hand, action: PlayerAction, acted: set<PlayerId>)
    requires Awaiting(h) && RightsFair(h, acted) && !action.RaiseTo? && Perform(h, h.nextToAct.value, action).result.Ok?
    ensures RightsFair(Perform(h, h.nextToAct.value, action).state, acted + {h.seats[h.nextToAct.value].player})
  {
    var i := h.nextToAct.value;
    PendingSeatActive(h, i);
    var h' := Perform(h, i, action).state;
    assert SeatBooked(h.level, h.currentBet, h.seats[i]);
    assert h'.seats == h.seats[i := h'.seats[i]];
  }

  lemma {:induction false} FullRaiseResetsRights(h: Hand, target: nat)
    requires Awaiting(h) && Raise(h, h.nextToAct.value, target).result.Ok? && target >= MinimumTarget(h)
    ensures RightsFair(Raise(h, h.nextToAct.value, target).state, {h.seats[h.nextToAct.value].player})
  {
    var i := h.nextToAct.value;
    PendingSeatActive(h, i);
    var h' := Raise(h, i, target).state;
    assert SeatBooked(h.level, h.currentBet, h.seats[i]);
    assert h'.seats == h.seats[i := h'.seats[i]];
  }

  /** A raise below the minimum puts the raiser all in. */
  lemma {:induction false} ShortRaiseIsAllIn(h: Hand, target: nat)
    requires Awaiting(h) && Raise(h, h.nextToAct.value, target).result.Ok? && target < MinimumTarget(h)
    ensures var (i, h') := (h.nextToAct.value, Raise(h, h.nextToAct.value, target).state);
            && h.currentBet < target
            && h' == h.(seats := h.seats[i := h'.seats[i]], currentBet := target,
                        pending := h.pending - {h.seats[i].player} + Behind(h'.seats, target),
                        raiseRights := h.raiseRights - {h.seats[i].player} + Reopened(h'.seats, target, h.lastFullRaise))
            && h'.seats[i].status.AllIn? && h'.seats[i].player == h.seats[i].player
  {
    hide Behind, Reopened, ActionablePlayers, PlayersWhere, ActiveSeatsLead;
    var i := h.nextToAct.value;
    assert SeatBooked(h.level, h.currentBet, h.seats[i]);
  }

  lemma {:induction false} ShortRaiseKeepsRights(h: Hand, target: nat, acted: set<PlayerId>)
    requires Awaiting(h) && RightsFair(h, acted)
    requires Raise(h, h.nextToAct.value, target).result.Ok? && target < MinimumTarget(h)
    ensures RightsFair(Raise(h, h.nextToAct.value, target).state, acted + {h.seats[h.nextToAct.value].player})
  {
    hide Raise, MinimumTarget, Behind, Reopened, ActiveSeatsLead, ActionablePlayers;
    var i := h.nextToAct.value;
    PendingSeatActive(h, i);
    var h' := Raise(h, i, target).state;
    ShortRaiseIsAllIn(h, target);
    forall j | 0 <= j < |h'.seats| && h'.seats[j].status.Active?
      ensures var s := h'.seats[j];
        && (s.player in h'.raiseRights <==> s.player !in acted + {h.seats[i].player} || h'.currentBet - s.streetCommitted >= h'.lastFullRaise)
        && (s.player !in acted + {h.seats[i].player} ==> s.player in h'.pending)
    {
      assert SeatBooked(h.level, h.currentBet, h.seats[j]);
      if h.seats[j].player !in h.pending { assert h.seats[j].streetCommitted == h.currentBet; }
      BehindAt(h'.seats, target, h.lastFullRaise, j);
    }
  }

  lemma {:induction false} BehindAt(seats: seq<Seat>, bet: nat, fullRaise: nat, j: nat)
    requires DistinctPlayers(seats) && j < |seats| && seats[j].status.Active?
    ensures seats[j].player in Behind(seats, bet) <==> seats[j].streetCommitted < bet
    ensures seats[j].player in Reopened(seats, bet, fullRaise)
            <==> seats[j].streetCommitted < bet && bet - seats[j].streetCommitted >= fullRaise
  {
  }

  lemma {:induction false} PerformKeepsRights(h: Hand, action: PlayerAction, acted: set<PlayerId>)
    requires Awaiting(h) && RightsFair(h, acted) && Perform(h, h.nextToAct.value, action).result.Ok?
    ensures var h' := Perform(h, h.nextToAct.value, action).state;
            RightsFair(h', ActedAfter(h, h.seats[h.nextToAct.value].player, action, h', acted))
  {
    if !action.RaiseTo? {
      PassiveKeepsRights(h, action, acted);
    } else if action.target >= MinimumTarget(h) {
      FullRaiseResetsRights(h, action.target);
    } else {
      ShortRaiseKeepsRights(h, action.target, acted);
    }
  }

  lemma {:induction false} AllFresh(h: Hand)
    requires h.pending == h.raiseRights == ActionablePlayers(h.seats, None)
    ensures RightsFair(h, {})
  {}

  /** Raise rights stay fair through every accepted action. */
  lemma {:induction false} ActKeepsRights(h: Hand, player: PlayerId, action: PlayerAction, acted: set<PlayerId>)
    requires Awaiting(h) && RightsFair(h, acted)
    ensures var a := Act(h, player, action);
            (a.result.Ok? && (a.result.value.WaitingFor? || a.result.value.StreetAdvanced?))
            ==> RightsFair(a.state, ActedAfter(h, player, action, a.state, acted))
  {
    hide Act, Perform, PassTurn, SeatBooked, ActiveSeatsLead;
    var i := h.nextToAct.value;
    var a := Act(h, player, action);
    if a.result.Ok? {
      ActIsPerformAndPass(h, player, action);
      var h' := Perform(h, i, action).state;
      PerformKeepsBetting(h, action);
      PerformKeepsRights(h, action, acted);
      PassTurnHonest(h', i);
      if a.result.value.StreetAdvanced? { AllFresh(a.state); }
    }
  }

  // ----- Every hand ends -----

  predicate IsActive(s: Seat) { s.status.Active? }

  /** All-ins and streets that can still re-open the betting. */
  ghost function Reopenings(h: Hand): nat { |PlayersWhere(h.seats, IsActive)| + StreetsLeft(h.street) }

  ghost function Cost(n: nat, unit: nat, pending: nat, reopenings: nat, room: int): int {
    unit * (pending + n * reopenings) + n * room
  }

  /** In units of the big blind: pending players, then re-openings and room to raise weighted by the number of seats.
      `carried` is what the active players brought into this street. */
  ghost function CostOf(h: Hand, carried: int): int {
    Cost(|h.seats|, h.level.bigBlind, |h.pending|, Reopenings(h), h.level.maxBuyIn - carried - h.currentBet)
  }

  ghost function Measure(h: Hand): int
    requires Awaiting(h)
  {
    CostOf(h, Carried(h.seats[h.nextToAct.value]))
  }

  lemma {:induction false} PlayersAtMostSeats(seats: seq<Seat>, players: set<PlayerId>)
    requires forall p :: p in players ==> exists i :: 0 <= i < |seats| && seats[i].player == p
    ensures |players| <= |seats|
  {
    if |seats| > 0 {
      var n := |seats| - 1;
      var rest := players - {seats[n].player};
      forall p | p in rest ensures exists i :: 0 <= i < n && seats[..n][i].player == p {
        var i :| 0 <= i < |seats| && seats[i].player == p;
        assert seats[..n][i].player == p;
      }
      PlayersAtMostSeats(seats[..n], rest);
      assert players <= rest + {seats[n].player};
    } else {
      assert players == {};
    }
  }

  lemma {:induction false} Scale(a: nat, b: int, c: int)
    requires b <= c
    ensures a * b <= a * c
  {}

  lemma {:induction false} Distribute(a: int, b: int, c: int)
    ensures a * (b - c) == a * b - a * c
  {}

  lemma {:induction false} CostDifference(n: nat, unit: nat, p: nat, r: nat, g: int, p': nat, r': nat, g': int)
    ensures Cost(n, unit, p, r, g) - Cost(n, unit, p', r', g') == unit * ((p - p') + n * (r - r')) + n * (g - g')
  {
    Distribute(n, r, r');
    Distribute(n, g, g');
    Distribute(unit, p + n * r, p' + n * r');
  }

  lemma {:induction false} CostDrops(n: nat, unit: nat, p: nat, r: nat, g: int, p': nat, r': nat, g': int)
    requires g' <= g && r' <= r
    requires p' < p || (p' < p + n && (r' < r || g' + unit <= g))
    ensures Cost(n, unit, p', r', g') + unit <= Cost(n, unit, p, r, g)
  {
    CostDifference(n, unit, p, r, g, p', r', g');
    Scale(n, 0, r - r');
    Scale(n, 0, g - g');
    if p' < p || r' < r {
      if r' < r { Scale(n, 1, r - r'); }
      Scale(unit, 1, (p - p') + n * (r - r'));
    } else {
      Scale(n, unit, g - g');
      Scale(unit, 1 - n, (p - p') + n * (r - r'));
      Distribute(unit, 1, n);
    }
  }

  lemma {:induction false} PassiveBurns(h: Hand, action: PlayerAction)
    requires Awaiting(h) && !action.RaiseTo? && Perform(h, h.nextToAct.value, action).result.Ok?
    ensures var h' := Perform(h, h.nextToAct.value, action).state;
            |h'.pending| < |h.pending| && Reopenings(h') <= Reopenings(h) && h'.currentBet == h.currentBet
  {
    var i := h.nextToAct.value;
    PendingSeatActive(h, i);
    var h' := Perform(h, i, action).state;
    assert h'.seats == h.seats[i := h'.seats[i]];
    PlayersWhereUpdate(h.seats, IsActive, i, h'.seats[i]);
  }

  /** A raise leaves all but the raiser to act; it uses up an all-in or at least a big blind of room. */
  lemma {:induction false} RaiseBurns(h: Hand, target: nat)
    requires Awaiting(h) && Raise(h, h.nextToAct.value, target).result.Ok?
    ensures var h' := Raise(h, h.nextToAct.value, target).state;
            && |h'.pending| < |h.seats| && Reopenings(h') <= Reopenings(h) && h.currentBet < h'.currentBet
            && (Reopenings(h') < Reopenings(h) || h.currentBet + h.level.bigBlind <= h'.currentBet)
  {
    var i := h.nextToAct.value;
    PendingSeatActive(h, i);
    RaiseKeepsBetting(h, target);
    var h' := Raise(h, i, target).state;
    assert h'.seats == h.seats[i := h'.seats[i]];
    PlayersWhereUpdate(h.seats, IsActive, i, h'.seats[i]);
    var raiser := h.seats[i].player;
    RaiserHasActed(h, target);
    assert h'.seats[i].player == raiser;
    PlayersAtMostSeats(h'.seats, h'.pending + {raiser});
  }

  lemma {:induction false} RaiserHasActed(h: Hand, target: nat)
    requires Awaiting(h) && Raise(h, h.nextToAct.value, target).result.Ok?
    ensures h.seats[h.nextToAct.value].player !in Raise(h, h.nextToAct.value, target).state.pending
  {
    var i := h.nextToAct.value;
    var h' := Raise(h, i, target).state;
    assert forall j :: 0 <= j < |h'.seats| && j != i ==> h'.seats[j].player != h.seats[i].player;
    assert h'.seats[i].streetCommitted == target;
  }

  lemma {:induction false} WaitingBurns(h: Hand, h': Hand, carried: int)
    requires Awaiting(h') && h'.level == h.level && |h'.seats| == |h.seats| && Carried(h'.seats[h'.nextToAct.value]) == carried
    requires h.currentBet <= h'.currentBet && Reopenings(h') <= Reopenings(h)
    requires || |h'.pending| < |h.pending|
             || (|h'.pending| < |h.pending| + |h.seats|
                 && (Reopenings(h') < Reopenings(h) || h.currentBet + h.level.bigBlind <= h'.currentBet))
    ensures Measure(h') + h.level.bigBlind <= CostOf(h, carried)
  {
    CostDrops(|h.seats|, h.level.bigBlind, |h.pending|, Reopenings(h), h.level.maxBuyIn - carried - h.currentBet,
              |h'.pending|, Reopenings(h'), h.level.maxBuyIn - carried - h'.currentBet);
  }

  lemma {:induction false} NewStreetCarries(h: Hand, after: Hand)
    requires MidRound(h) && h.pending == {} && Awaiting(after) && after.currentBet == 0
    requires SameSeatsNewStreet(h.seats, after.seats)
    ensures var k := after.nextToAct.value;
            h.seats[k].status.Active? && Carried(after.seats[k]) == Carried(h.seats[k]) + h.currentBet
  {
    var k := after.nextToAct.value;
    PendingSeatActive(after, k);
    assert SeatBooked(after.level, after.currentBet, after.seats[k]);
  }

  lemma {:induction false} NewStreetReopens(h: Hand, after: Hand)
    requires Awaiting(after) && SameSeatsNewStreet(h.seats, after.seats)
    requires StreetsLeft(after.street) < StreetsLeft(h.street)
    ensures Reopenings(after) < Reopenings(h) && |after.pending| <= |h.seats|
  {
    PlayersWhereSame(h.seats, after.seats, IsActive);
    PlayersAtMostSeats(after.seats, after.pending);
  }

  lemma {:induction false} NewStreetBurns(h: Hand, h': Hand, after: Hand, carried: int)
    requires MidRound(h') && h'.pending == {} && Awaiting(after) && after.currentBet == 0
    requires h'.level == after.level == h.level && |h'.seats| == |h.seats| && SameSeatsNewStreet(h'.seats, after.seats)
    requires StreetsLeft(after.street) < StreetsLeft(h'.street) && Reopenings(h') <= Reopenings(h)
    requires h.currentBet <= h'.currentBet && 0 < |h.pending|
    requires forall i :: 0 <= i < |h'.seats| && h'.seats[i].status.Active? ==> Carried(h'.seats[i]) == carried
    ensures Measure(after) + h.level.bigBlind <= CostOf(h, carried)
  {
    NewStreetCarries(h', after);
    NewStreetReopens(h', after);
    CostDrops(|h.seats|, h.level.bigBlind, |h.pending|, Reopenings(h), h.level.maxBuyIn - carried - h.currentBet,
              |after.pending|, Reopenings(after), h.level.maxBuyIn - Carried(after.seats[after.nextToAct.value]));
  }

  lemma {:induction false} ActiveCarriedAlike(h: Hand, action: PlayerAction)
    requires Awaiting(h) && Perform(h, h.nextToAct.value, action).result.Ok?
    ensures var h' := Perform(h, h.nextToAct.value, action).state;
            forall j :: 0 <= j < |h'.seats| && h'.seats[j].status.Active?
              ==> Carried(h'.seats[j]) == Carried(h.seats[h.nextToAct.value])
  {
    var i := h.nextToAct.value;
    PendingSeatActive(h, i);
    assert SeatBooked(h.level, h.currentBet, h.seats[i]);
    var h' := Perform(h, i, action).state;
    assert h'.seats == h.seats[i := h'.seats[i]];
    forall j | 0 <= j < |h'.seats| && h'.seats[j].status.Active?
      ensures Carried(h'.seats[j]) == Carried(h.seats[i])
    {
      if j != i { assert Carried(h.seats[j]) <= Carried(h.seats[i]) && Carried(h.seats[i]) <= Carried(h.seats[j]); }
    }
  }

  lemma {:induction false} PerformBurns(h: Hand, action: PlayerAction)
    requires Awaiting(h) && Perform(h, h.nextToAct.value, action).result.Ok?
    ensures var h' := Perform(h, h.nextToAct.value, action).state;
            && h'.level == h.level && h'.street == h.street && |h'.seats| == |h.seats|
            && h.currentBet <= h'.currentBet && Reopenings(h') <= Reopenings(h)
            && (|| |h'.pending| < |h.pending|
                || (|h'.pending| < |h.pending| + |h.seats|
                    && (Reopenings(h') < Reopenings(h) || h.currentBet + h.level.bigBlind <= h'.currentBet)))
  {
    if action.RaiseTo? { RaiseBurns(h, action.target); } else { PassiveBurns(h, action); }
  }

  /** Every accepted action that leaves the hand open costs at least one unit of the measure. */
  lemma {:induction false} ActBurns(h: Hand, player: PlayerId, action: PlayerAction)
    requires Awaiting(h)
    requires var a := Act(h, player, action); a.result.Ok? && (a.result.value.WaitingFor? || a.result.value.StreetAdvanced?)
    ensures var a := Act(h, player, action);
            Awaiting(a.state) && a.state.level == h.level && Measure(a.state) + h.level.bigBlind <= Measure(h)
  {
    var i := h.nextToAct.value;
    var a := Act(h, player, action);
    var h' := Perform(h, i, action).state;
    PerformKeepsBetting(h, action);
    PerformBurns(h, action);
    ActiveCarriedAlike(h, action);
    PassTurnHonest(h', i);
    if a.result.value.WaitingFor? {
      PendingSeatActive(a.state, a.state.nextToAct.value);
      WaitingBurns(h, a.state, Carried(h.seats[i]));
    } else {
      NewStreetBurns(h, h', a.state, Carried(h.seats[i]));
    }
  }

  // ----- Runs -----

  /** A hand in play, or the hand and outcome it ended with; `accepted` counts the accepted actions. */
  datatype Run =
    | Running(hand: Hand, acted: set<PlayerId>, accepted: nat)
    | Ended(hand: Hand, outcome: Outcome, accepted: nat)

  /** One attempted action; after the end nothing more is submitted. */
  ghost function Attempted(r: Run, player: PlayerId, action: PlayerAction): Run
    requires r.Running? ==> Awaiting(r.hand)
  {
    if r.Ended? then r
    else
      var a := Act(r.hand, player, action);
      if a.result.Err? then Running(a.state, r.acted, r.accepted)
      else if a.result.value.WaitingFor? || a.result.value.StreetAdvanced? then
        Running(a.state, ActedAfter(r.hand, player, action, a.state, r.acted), r.accepted + 1)
      else Ended(a.state, a.result.value, r.accepted + 1)
  }

  ghost predicate SoundRun(start: Hand, r: Run)
    requires Awaiting(start)
  {
    match r
    case Running(h, acted, accepted) =>
      && Awaiting(h) && RightsFair(h, acted) && h.level == start.level
      && Measure(h) + accepted * start.level.bigBlind <= Measure(start)
    case Ended(h, outcome, accepted) =>
      && accepted * start.level.bigBlind <= Measure(start)
      && match outcome
         case ShowdownReady => AtShowdown(h)
         case HandComplete(settlement) => Settled(h, settlement)
         case _ => false
  }

  lemma {:induction false} MeasurePaysForAction(h: Hand)
    requires Awaiting(h)
    ensures h.level.bigBlind <= Measure(h)
  {
    var i := h.nextToAct.value;
    PendingSeatActive(h, i);
    assert SeatBooked(h.level, h.currentBet, h.seats[i]);
    Scale(|h.seats|, 0, Reopenings(h));
    Scale(|h.seats|, 0, h.level.maxBuyIn - Carried(h.seats[i]) - h.currentBet);
    assert |h.pending| >= 1 by { assert h.seats[i].player in h.pending; }
    Scale(h.level.bigBlind, 1, |h.pending| + |h.seats| * Reopenings(h));
  }

  lemma {:induction false} AcceptedStaysSound(start: Hand, r: Run, a: Attempt<Hand, Outcome>, acted: set<PlayerId>)
    requires Awaiting(start) && SoundRun(start, r) && r.Running? && a.result.Ok?
    requires OutcomeHonest(r.hand, a.state, a.result.value) && r.hand.level.bigBlind <= Measure(r.hand)
    requires a.result.value.WaitingFor? || a.result.value.StreetAdvanced? ==>
               && a.state.level == r.hand.level && RightsFair(a.state, acted)
               && Measure(a.state) + r.hand.level.bigBlind <= Measure(r.hand)
    ensures if a.result.value.WaitingFor? || a.result.value.StreetAdvanced?
            then SoundRun(start, Running(a.state, acted, r.accepted + 1))
            else SoundRun(start, Ended(a.state, a.result.value, r.accepted + 1))
  {
    hide Cost, RightsFair, Awaiting, AtShowdown;
    assert (r.accepted + 1) * start.level.bigBlind == r.accepted * start.level.bigBlind + start.level.bigBlind;
  }

  lemma {:induction false} AttemptedStaysSound(start: Hand, r: Run, player: PlayerId, action: PlayerAction)
    requires Awaiting(start) && SoundRun(start, r)
    ensures SoundRun(start, Attempted(r, player, action))
  {
    hide Act, Cost, RightsFair, AtShowdown;
    if r.Running? {
      var a := Act(r.hand, player, action);
      ActSound(r.hand, player, action);
      MeasurePaysForAction(r.hand);
      if a.result.Ok? {
        if a.result.value.WaitingFor? || a.result.value.StreetAdvanced? {
          ActKeepsRights(r.hand, player, action, r.acted);
          ActBurns(r.hand, player, action);
        }
        AcceptedStaysSound(start, r, a, ActedAfter(r.hand, player, action, a.state, r.acted));
      }
    }
  }

  /** The first `k` attempts of a run, whoever makes them and whatever they try. Every state passed on the way is sound. */
  ghost function Play(start: Hand, attempts: seq<(PlayerId, PlayerAction)>, k: nat): (r: Run)
    requires Awaiting(start) && RightsFair(start, {}) && k <= |attempts|
    ensures SoundRun(start, r)
  {
    if k == 0 then Running(start, {}, 0)
    else
      var before := Play(start, attempts, k - 1);
      AttemptedStaysSound(start, before, attempts[k - 1].0, attempts[k - 1].1);
      Attempted(before, attempts[k - 1].0, attempts[k - 1].1)
  }

  lemma {:induction false} DealFacts(level: StakeLevel, buyIns: seq<(PlayerId, nat)>, dealer: nat)
    requires ValidLevel(level) && FitsChips(level) && Start(level, buyIns, dealer).Ok?
    ensures var h := Start(level, buyIns, dealer).value;
            && Awaiting(h) && h.level == level && |h.seats| == |buyIns| && h.currentBet == level.bigBlind && h.street.Preflop?
            && forall i :: 0 <= i < |h.seats| ==> Carried(h.seats[i]) == 0
  {
    hide Start, PostBlinds, Seated, Awaiting, RightsFair, Blind, Dealable, ValidLevel, FitsChips;
    DealAwaits(level, buyIns, dealer);
    StartPostsBlinds(level, buyIns, dealer);
    BlindsPosted(level, buyIns, dealer);
  }

  /** Each accepted action uses up a big blind of this amount. */
  ghost function ChipsForActions(n: nat, level: StakeLevel): nat {
    n * ((n + 4) * level.bigBlind + level.maxBuyIn)
  }

  lemma {:induction false} OpeningMeasure(h: Hand)
    requires Awaiting(h) && h.street.Preflop? && h.currentBet == h.level.bigBlind && Carried(h.seats[h.nextToAct.value]) == 0
    ensures Measure(h) <= ChipsForActions(|h.seats|, h.level)
  {
    PlayersWhereMembers(h.seats, IsActive);
    PlayersAtMostSeats(h.seats, h.pending);
    hide PlayersWhere, Cost, Awaiting;
    CostAtMost(|h.seats|, h.level.bigBlind, |h.pending|, Reopenings(h), h.level.maxBuyIn);
  }

  lemma {:induction false} CostAtMost(n: nat, unit: nat, pending: nat, reopenings: nat, most: nat)
    requires pending <= n && reopenings <= n + 4 && unit <= most
    ensures Cost(n, unit, pending, reopenings, most - unit) <= n * ((n + 4) * unit + most)
  {
    Scale(n, reopenings, n + 4);
    Scale(unit, pending + n * reopenings, n + n * (n + 4));
    calc {
      unit * (n + n * (n + 4)) + n * (most - unit);
      == { Distribute(n, most, unit); }
      unit * (n + n * (n + 4)) + n * most - n * unit;
      == { Distribute(unit, n * (n + 4), 0 - n); }
      unit * (n * (n + 4)) + n * most;
      == { assert unit * (n * (n + 4)) == n * ((n + 4) * unit); }
      n * ((n + 4) * unit) + n * most;
      == { Distribute(n, (n + 4) * unit, 0 - most); }
      n * ((n + 4) * unit + most);
    }
  }

  lemma {:induction false} RunWithinMeasure(start: Hand, r: Run)
    requires Awaiting(start) && SoundRun(start, r)
    ensures r.accepted * start.level.bigBlind <= Measure(start)
  {
    hide Cost, RightsFair, AtShowdown;
    if r.Running? { MeasurePaysForAction(r.hand); }
  }

  /** Every hand is over after a bounded number of accepted actions, whatever is attempted in between. */
  lemma {:induction false} HandsEnd(level: StakeLevel, buyIns: seq<(PlayerId, nat)>, dealer: nat, start: Hand,
      attempts: seq<(PlayerId, PlayerAction)>, k: nat)
    requires ValidLevel(level) && FitsChips(level) && Start(level, buyIns, dealer) == Ok(start) && k <= |attempts|
    ensures Awaiting(start) && RightsFair(start, {})
    ensures Play(start, attempts, k).accepted * level.bigBlind <= ChipsForActions(|buyIns|, level)
  {
    DealAwaits(level, buyIns, dealer);
    DealFacts(level, buyIns, dealer);
    hide Start, Cost, RightsFair, Play, ChipsForActions, MidRound;
    OpeningMeasure(start);
    RunWithinMeasure(start, Play(start, attempts, k));
  }

  lemma {:induction false} BoundInUnits(n: nat, level: StakeLevel, r: nat)
    requires n <= 6 && level.bigBlind > 0 && level.maxBuyIn == 100 * level.bigBlind
    requires r * level.bigBlind <= ChipsForActions(n, level)
    ensures r <= 660
  {
    var unit := level.bigBlind;
    Scale(unit, n + 104, 110);
    Scale(n, (n + 4) * unit + 100 * unit, 110 * unit);
    assert r * unit <= n * (110 * unit) <= 660 * unit;
    if r >= 661 { Scale(unit, 661, r); }
  }

  lemma {:induction false} TableOfSix(level: StakeLevel, buyIns: seq<(PlayerId, nat)>, dealer: nat, start: Hand,
      attempts: seq<(PlayerId, PlayerAction)>, k: nat)
    requires ValidLevel(level) && FitsChips(level) && level.maxPlayers == 6 && level.maxBuyIn == 100 * level.bigBlind
    requires Start(level, buyIns, dealer) == Ok(start) && k <= |attempts|
    ensures Awaiting(start) && RightsFair(start, {}) && Play(start, attempts, k).accepted <= 660
  {
    HandsEnd(level, buyIns, dealer, start, attempts, k);
    DealAwaits(level, buyIns, dealer);
    hide Start, Play, RightsFair, Awaiting, ChipsForActions;
    BoundInUnits(|buyIns|, level, Play(start, attempts, k).accepted);
  }

  /** At the public tables no hand takes more than 660 accepted actions. */
  lemma {:induction false} PublicHandsEnd(i: nat, buyIns: seq<(PlayerId, nat)>, dealer: nat, start: Hand,
      attempts: seq<(PlayerId, PlayerAction)>, k: nat)
    requires i < |PUBLIC_STAKE_LEVELS| && ValidLevel(PUBLIC_STAKE_LEVELS[i])
    requires Start(PUBLIC_STAKE_LEVELS[i], buyIns, dealer) == Ok(start) && k <= |attempts|
    ensures Awaiting(start) && RightsFair(start, {}) && Play(start, attempts, k).accepted <= 660
  {
    PublicLevelsFit(i);
    hide Start;
    TableOfSix(PUBLIC_STAKE_LEVELS[i], buyIns, dealer, start, attempts, k);
  }

  // ----- The player who does nothing -----

  /** What the client plays when a player's time runs out. */
  function TimeoutAction(toCall: nat): PlayerAction { if toCall == 0 then Check else Fold }

  /** Folding is always possible, and so is the action chosen when time runs out. */
  lemma {:induction false} TimeoutAccepted(h: Hand)
    requires Awaiting(h)
    ensures var player := h.seats[h.nextToAct.value].player;
            && Act(h, player, Fold).result.Ok?
            && AmountToCall(h, player).Ok? && Act(h, player, TimeoutAction(AmountToCall(h, player).value)).result.Ok?
  {
    var i := h.nextToAct.value;
    SeatIndexFinds(h.seats, i);
    assert SeatBooked(h.level, h.currentBet, h.seats[i]);
    ActSound(h, h.seats[i].player, Fold);
    ActSound(h, h.seats[i].player, TimeoutAction(AmountToCall(h, h.seats[i].player).value));
    hide Act;
  }
}
