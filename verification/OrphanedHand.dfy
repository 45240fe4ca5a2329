/** A hand anyone can play whose showdown cannot be settled: two players build a side pot behind two all-in
    players and then fold in turn. */
module OrphanedHand {
  import opened Chips
  import opened Stakes
  import opened Holdem
  import opened Books
  import opened Betting
  import opened Runs
  import opened SidePots
  import opened Showdowns

  const LEVEL := StakeLevel("1-2", 1, 2, 40, 200, 2, 6)

  function At(stack: nat, total: nat, street: nat, status: SeatStatus, player: PlayerId): Seat {
    Seat(player, stack + total, stack, total, street, status)
  }

  /** The hand after 0..6 actions. */
  function After(k: nat): Hand
    requires k <= 6
  {
    match k
    case 0 => Hand(LEVEL, 0, Preflop,
                   [At(40, 0, 0, Active, 1), At(199, 1, 1, Active, 2), At(198, 2, 2, Active, 3), At(40, 0, 0, Active, 4)],
                   {1, 2, 3, 4}, {1, 2, 3, 4}, 2, 2, Some(3))
    case 1 => Hand(LEVEL, 0, Preflop,
                   [At(40, 0, 0, Active, 1), At(199, 1, 1, Active, 2), At(198, 2, 2, Active, 3), At(0, 40, 40, AllIn, 4)],
                   {1, 2, 3}, {1, 2, 3}, 40, 38, Some(0))
    case 2 => Hand(LEVEL, 0, Preflop,
                   [At(0, 40, 40, AllIn, 1), At(199, 1, 1, Active, 2), At(198, 2, 2, Active, 3), At(0, 40, 40, AllIn, 4)],
                   {2, 3}, {2, 3}, 40, 38, Some(1))
    case 3 => Hand(LEVEL, 0, Preflop,
                   [At(0, 40, 40, AllIn, 1), At(100, 100, 100, Active, 2), At(198, 2, 2, Active, 3), At(0, 40, 40, AllIn, 4)],
                   {3}, {3}, 100, 60, Some(2))
    case 4 => Hand(LEVEL, 0, Flop,
                   [At(0, 40, 0, AllIn, 1), At(100, 100, 0, Active, 2), At(100, 100, 0, Active, 3), At(0, 40, 0, AllIn, 4)],
                   {2, 3}, {2, 3}, 0, 2, Some(1))
    case 5 => Hand(LEVEL, 0, Flop,
                   [At(0, 40, 0, AllIn, 1), At(100, 100, 0, Folded, 2), At(100, 100, 0, Active, 3), At(0, 40, 0, AllIn, 4)],
                   {3}, {3}, 0, 2, Some(2))
    case 6 => Hand(LEVEL, 0, Showdown,
                   [At(0, 40, 0, AllIn, 1), At(100, 100, 0, Folded, 2), At(100, 100, 0, Folded, 3), At(0, 40, 0, AllIn, 4)],
                   {}, {}, 0, 2, None)
  }

  function OnlyIf(yes: bool, p: PlayerId): seq<PlayerId> { if yes then [p] else [] }

  lemma {:induction false} FourWhere(s: seq<Seat>, f: Seat -> bool)
    requires |s| == 4
    ensures PlayersWhere(s, f)
            == OnlyIf(f(s[0]), s[0].player) + OnlyIf(f(s[1]), s[1].player) + OnlyIf(f(s[2]), s[2].player) + OnlyIf(f(s[3]), s[3].player)
  {
    assert s[..3][..2][..1][..0] == [];
    assert PlayersWhere(s[..3][..2][..1], f) == OnlyIf(f(s[0]), s[0].player);
    assert PlayersWhere(s[..3][..2], f) == OnlyIf(f(s[0]), s[0].player) + OnlyIf(f(s[1]), s[1].player);
    assert PlayersWhere(s[..3], f) == OnlyIf(f(s[0]), s[0].player) + OnlyIf(f(s[1]), s[1].player) + OnlyIf(f(s[2]), s[2].player);
  }

  function Able(s: Seat, excluded: Option<PlayerId>): set<PlayerId> {
    if s.status.Active? && Some(s.player) != excluded then {s.player} else {}
  }

  lemma {:induction false} FourActionable(s: seq<Seat>, excluded: Option<PlayerId>)
    requires |s| == 4
    ensures ActionablePlayers(s, excluded)
            == Able(s[0], excluded) + Able(s[1], excluded) + Able(s[2], excluded) + Able(s[3], excluded)
  {
    forall p | p in ActionablePlayers(s, excluded)
      ensures p in Able(s[0], excluded) + Able(s[1], excluded) + Able(s[2], excluded) + Able(s[3], excluded)
    {
      var i :| 0 <= i < 4 && s[i].status.Active? && Some(s[i].player) != excluded && s[i].player == p;
      assert i == 0 || i == 1 || i == 2 || i == 3;
    }
  }

  lemma {:induction false} LevelFits()
    ensures ValidLevel(LEVEL) && FitsChips(LEVEL)
  {
    assert !IsWhitespace(LEVEL.id[0]);
  }

  const BUY_INS: seq<(PlayerId, nat)> := [(1, 40), (2, 200), (3, 200), (4, 40)]

  lemma {:induction false} DealSeats(seats: seq<Seat>)
    requires |seats| == 4
    requires forall i :: 0 <= i < 4 ==>
               Blind(LEVEL, 0, 4, i) <= BUY_INS[i].1 && seats[i] == DealtSeat(BUY_INS[i].0, BUY_INS[i].1, Blind(LEVEL, 0, 4, i))
    ensures seats == After(0).seats
  {
    assert Blind(LEVEL, 0, 4, 0) == 0 && Blind(LEVEL, 0, 4, 1) == 1 && Blind(LEVEL, 0, 4, 2) == 2 && Blind(LEVEL, 0, 4, 3) == 0;
    assert seats[0] == After(0).seats[0] && seats[1] == After(0).seats[1];
    assert seats[2] == After(0).seats[2] && seats[3] == After(0).seats[3];
  }

  lemma {:induction false} DealtHand()
    ensures OpenPreflop(LEVEL, After(0).seats, 0) == After(0)
  {
    FourActionable(After(0).seats, None);
    hide ActionablePlayers;
    assert ActionablePlayers(After(0).seats, None) == {1, 2, 3, 4};
    assert NextPendingFrom(After(0).seats, {1, 2, 3, 4}, 3) == Some(3);
  }

  lemma {:induction false} DealableHere()
    ensures Dealable(LEVEL, BUY_INS, 0)
  {
  }

  lemma {:induction false} Deal()
    ensures ValidLevel(LEVEL)
    ensures Start(LEVEL, BUY_INS, 0) == Ok(After(0))
  {
    hide PostBlinds, OpenPreflop, Seated, ValidLevel, FitsChips, After, DealtSeat, Blind;
    LevelFits();
    DealableHere();
    StartPostsBlinds(LEVEL, BUY_INS, 0);
    BlindsPosted(LEVEL, BUY_INS, 0);
    DealSeats(PostBlinds(LEVEL, Seated(BUY_INS), 0).value.seats);
    DealtHand();
  }

  lemma {:induction false} Act1()
    ensures Act(After(0), 4, RaiseTo(40)) == Attempt(After(1), Ok(WaitingFor(1)))
  {
    var h := After(0);
    var seats := After(1).seats;
    assert CommitSeat(h.seats[3], 40) == Attempt(seats[3], Ok(Unit));
    assert h.seats[3 := seats[3]] == seats;
    assert CommitAt(h.seats, 3, 40) == Attempt(seats, Ok(Unit));
    FourActionable(seats, Some(4));
    FourWhere(seats, IsContender);
    hide ActionablePlayers, CommitAt, PlayersWhere;
    assert ActionablePlayers(seats, Some(4)) == {1, 2, 3};
    assert Raise(h, 3, 40) == Attempt(After(1).(nextToAct := Some(3)), Ok(Unit));
    assert NextPendingFrom(seats, {1, 2, 3}, 0) == Some(0);
  }

  lemma {:induction false} Act2()
    ensures Act(After(1), 1, Call) == Attempt(After(2), Ok(WaitingFor(2)))
  {
    var h := After(1);
    var seats := After(2).seats;
    assert CommitSeat(h.seats[0], 40) == Attempt(seats[0], Ok(Unit));
    assert h.seats[0 := seats[0]] == seats;
    FourWhere(seats, IsContender);
    hide PlayersWhere;
    assert {1, 2, 3} - {1} == {2, 3};
    assert Perform(h, 0, Call) == Attempt(After(2).(nextToAct := Some(0)), Ok(Unit));
    assert NextPendingFrom(seats, {2, 3}, 1) == Some(1);
  }

  lemma {:induction false} Act3()
    ensures Act(After(2), 2, RaiseTo(100)) == Attempt(After(3), Ok(WaitingFor(3)))
  {
    var h := After(2);
    var seats := After(3).seats;
    assert CommitSeat(h.seats[1], 99) == Attempt(seats[1], Ok(Unit));
    assert h.seats[1 := seats[1]] == seats;
    assert CommitAt(h.seats, 1, 99) == Attempt(seats, Ok(Unit));
    FourActionable(seats, Some(2));
    FourWhere(seats, IsContender);
    hide ActionablePlayers, CommitAt, PlayersWhere;
    assert ActionablePlayers(seats, Some(2)) == {3};
    assert Raise(h, 1, 100) == Attempt(After(3).(nextToAct := Some(1)), Ok(Unit));
    assert NextPendingFrom(seats, {3}, 2) == Some(2);
  }

  lemma {:induction false} Act4()
    ensures Act(After(3), 3, Call) == Attempt(After(4), Ok(StreetAdvanced(Flop, Some(2))))
  {
    var h := After(3);
    var seats := h.seats[2 := At(100, 100, 100, Active, 3)];
    var mid := h.(seats := seats, pending := {}, raiseRights := {});
    assert CommitSeat(h.seats[2], 98) == Attempt(seats[2], Ok(Unit));
    FourWhere(seats, IsContender);
    hide PlayersWhere;
    assert {3} - {3} == {};
    assert Perform(h, 2, Call) == Attempt(mid, Ok(Unit));
    assert ClearStreet(seats) == After(4).seats;
    FourActionable(After(4).seats, None);
    hide ActionablePlayers, ClearStreet;
    assert ActionablePlayers(After(4).seats, None) == {2, 3};
    assert NextPendingFrom(After(4).seats, {2, 3}, 1) == Some(1);
    assert |{2, 3}| == 2;
    assert AdvanceStreet(mid) == Attempt(After(4), Ok(StreetAdvanced(Flop, Some(2))));
  }

  lemma {:induction false} Act5()
    ensures Act(After(4), 2, Fold) == Attempt(After(5), Ok(WaitingFor(3)))
  {
    var h := After(4);
    var seats := After(5).seats;
    assert h.seats[1 := h.seats[1].(status := Folded)] == seats;
    FourWhere(seats, IsContender);
    hide PlayersWhere;
    assert {2, 3} - {2} == {3};
    assert Perform(h, 1, Fold) == Attempt(After(5).(nextToAct := Some(1)), Ok(Unit));
    assert NextPendingFrom(seats, {3}, 2) == Some(2);
  }

  lemma {:induction false} RunsOut(h: Hand, street: Street)
    requires h == After(6).(street := street, nextToAct := h.nextToAct) && StreetsLeft(street) > 0 && Playable(h)
    ensures AdvanceStreet(h) == Attempt(After(6), Ok(ShowdownReady))
    decreases StreetsLeft(street)
  {
    hide OpenStreet;
    if !street.River? {
      var next := OpenStreet(h, NextStreet(street).value);
      NobodyBets(h, NextStreet(street).value);
      RunsOut(next, next.street);
    }
  }

  lemma {:induction false} NobodyBets(h: Hand, street: Street)
    requires h == After(6).(street := h.street, nextToAct := h.nextToAct) && Playable(h) && StreetsLeft(street) > 0
    ensures var next := OpenStreet(h, street);
            next == After(6).(street := street, nextToAct := next.nextToAct) && next.pending == {} && Playable(next)
  {
    hide ActionablePlayers, NextPendingFrom;
    assert ClearStreet(h.seats) == h.seats;
    NobodyActionable(h.seats);
  }

  lemma {:induction false} NobodyActionable(seats: seq<Seat>)
    requires |seats| == 4 && forall i :: 0 <= i < 4 ==> !seats[i].status.Active?
    ensures ActionablePlayers(seats, None) == {}
  {
  }

  lemma {:induction false} Act6()
    ensures Act(After(5), 3, Fold) == Attempt(After(6), Ok(ShowdownReady))
  {
    var h := After(5);
    var seats := After(6).seats;
    assert h.seats[2 := h.seats[2].(status := Folded)] == seats;
    FourWhere(seats, IsContender);
    hide PlayersWhere;
    var mid := After(6).(street := Flop, nextToAct := Some(2));
    assert {3} - {3} == {};
    assert Perform(h, 2, Fold) == Attempt(mid, Ok(Unit));
    RunsOut(mid, Flop);
  }

  const ATTEMPTS: seq<(PlayerId, PlayerAction)> := [
    (4, RaiseTo(40)), (1, Call), (2, RaiseTo(100)), (3, Call), (2, Fold), (3, Fold)]

  lemma {:induction false} ActK(k: nat)
    requires k < 6
    ensures Act(After(k), ATTEMPTS[k].0, ATTEMPTS[k].1).state == After(k + 1)
    ensures var r := Act(After(k), ATTEMPTS[k].0, ATTEMPTS[k].1).result;
            r.Ok? && if k < 5 then r.value.WaitingFor? || r.value.StreetAdvanced? else r.value.ShowdownReady?
  {
    Act1(); Act2(); Act3(); Act4(); Act5(); Act6();
    hide Act;
    assert k == 0 || k == 1 || k == 2 || k == 3 || k == 4 || k == 5;
  }

  lemma {:induction false} Opening()
    ensures Awaiting(After(0)) && RightsFair(After(0), {})
  {
    LevelFits();
    Deal();
    hide Start, After;
    DealAwaits(LEVEL, BUY_INS, 0);
  }

  lemma {:induction false} PlayedTo(k: nat)
    requires k <= 6 && Awaiting(After(0)) && RightsFair(After(0), {})
    ensures var r := Play(After(0), ATTEMPTS, k);
            && r.hand == After(k) && r.accepted == k
            && if k < 6 then r.Running? else r.Ended? && r.outcome.ShowdownReady?
  {
    hide After, Awaiting, RightsFair, Act;
    if k > 0 {
      PlayedTo(k - 1);
      ActK(k - 1);
    }
  }

  /** Six legal actions lead to a showdown ... */
  lemma {:induction false} ReachShowdown()
    ensures Awaiting(After(0)) && RightsFair(After(0), {})
    ensures Play(After(0), ATTEMPTS, 6) == Ended(After(6), ShowdownReady, 6) && AtShowdown(After(6))
  {
    Opening();
    PlayedTo(6);
    hide After, Play, Awaiting, RightsFair, Measure, AtShowdown;
    var r := Play(After(0), ATTEMPTS, 6);
    assert SoundRun(After(0), r);
  }

  lemma {:induction false} Orphans()
    ensures OrphanedPot(After(6).seats)
  {
    var seats := After(6).seats;
    assert FoldedAhead(seats, 1) && FoldedAhead(seats, 2);
  }

  /** ... that cannot be settled, whatever the cards. */
  lemma {:induction false} ShowdownCanFail(ranks: map<PlayerId, int>)
    requires RanksKnown(After(6).seats, ranks)
    ensures SettleRanked(After(6), ranks).result == Err(StateInvariant)
  {
    hide SettleRanked, After, OrphanedPot, AtShowdown, RanksKnown;
    ReachShowdown();
    Orphans();
    ShowdownSettles(After(6), ranks);
  }
}
