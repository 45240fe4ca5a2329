/** The roster of each hand and the way of the dealer button from hand to hand. */
module HandRoster {
  import opened Chips
  import opened Holdem
  import opened Receipts
  import opened Membership

  // ----- The button -----

  /** The seat `offset` places clockwise of `s`. */
  function SeatAfter(s: PhysicalSeat, offset: nat): (t: PhysicalSeat)
    requires offset <= TABLE_CAPACITY
  {
    (s - 1 + offset) % TABLE_CAPACITY + 1
  }

  /** How far `t` sits clockwise of `s`, from 0 to 5. */
  function Gap(s: PhysicalSeat, t: PhysicalSeat): (d: nat)
    ensures d < TABLE_CAPACITY && SeatAfter(s, d) == t
  {
    if t >= s then t - s else t + TABLE_CAPACITY - s
  }

  function FindDealer(previous: PhysicalSeat, occupied: set<PhysicalSeat>, offset: nat): Option<PhysicalSeat>
    requires 1 <= offset <= TABLE_CAPACITY + 1
    decreases TABLE_CAPACITY + 1 - offset
  {
    if offset > TABLE_CAPACITY then None
    else if SeatAfter(previous, offset) in occupied then Some(SeatAfter(previous, offset))
    else FindDealer(previous, occupied, offset + 1)
  }

  function LowestSeat(occupied: set<PhysicalSeat>, s: nat): Option<PhysicalSeat>
    requires 1 <= s <= TABLE_CAPACITY + 1
    decreases TABLE_CAPACITY + 1 - s
  {
    if s > TABLE_CAPACITY then None
    else if s in occupied then Some(s)
    else LowestSeat(occupied, s + 1)
  }

  /** The first dealer is the lowest seat; then the button moves to the next occupied seat. */
  function NextDealer(previous: Option<PhysicalSeat>, occupied: set<PhysicalSeat>): Option<PhysicalSeat> {
    if previous.None? then LowestSeat(occupied, 1) else FindDealer(previous.value, occupied, 1)
  }

  lemma {:induction false} DealerIsNearest(previous: PhysicalSeat, occupied: set<PhysicalSeat>, offset: nat, d: nat)
    requires 1 <= offset <= d <= TABLE_CAPACITY && SeatAfter(previous, d) in occupied
    ensures var dealer := FindDealer(previous, occupied, offset);
            dealer.Some? && dealer.value in occupied && exists e :: offset <= e <= d && dealer.value == SeatAfter(previous, e)
    decreases d - offset
  {
    if SeatAfter(previous, offset) !in occupied { DealerIsNearest(previous, occupied, offset + 1, d); }
  }

  lemma {:induction false} LowestExists(occupied: set<PhysicalSeat>, s: nat, t: PhysicalSeat)
    requires 1 <= s <= t && t in occupied
    ensures var r := LowestSeat(occupied, s); r.Some? && r.value in occupied && r.value <= t
    decreases t - s
  {
    if s !in occupied { LowestExists(occupied, s + 1, t); }
  }

  /** An occupied seat that does not get the button comes strictly closer to it: the button never jumps over it. */
  lemma {:induction false} ButtonComesCloser(previous: PhysicalSeat, occupied: set<PhysicalSeat>, s: PhysicalSeat)
    requires s in occupied && s != previous
    ensures var dealer := NextDealer(Some(previous), occupied);
            dealer.Some? && dealer.value in occupied && Gap(dealer.value, s) < Gap(previous, s)
  {
    DealerIsNearest(previous, occupied, 1, Gap(previous, s));
  }

  lemma {:induction false} SomeoneDeals(previous: Option<PhysicalSeat>, occupied: set<PhysicalSeat>, s: PhysicalSeat)
    requires s in occupied
    ensures NextDealer(previous, occupied).Some? && NextDealer(previous, occupied).value in occupied
  {
    if previous.None? {
      LowestExists(occupied, 1, s);
    } else if previous.value == s {
      assert SeatAfter(s, TABLE_CAPACITY) == s;
      DealerIsNearest(s, occupied, 1, TABLE_CAPACITY);
    } else {
      ButtonComesCloser(previous.value, occupied, s);
    }
  }

  // ----- Rosters -----

  datatype RosterSeat = RosterSeat(seat: PhysicalSeat, handIndex: nat, player: PlayerId, device: Key, buyIn: nat)

  datatype Roster = Roster(
    table: nat, handNumber: nat, version: nat, previousReceipt: Option<nat>, dealer: PhysicalSeat, seats: seq<RosterSeat>)

  datatype RosterAnswer = Roll(roster: Roster) | InvalidHandNumber | InvalidPlayerCount | DealerSeatMissing

  /** The members in seat order, numbered from zero. */
  function Numbered(members: seq<Member>): (r: seq<RosterSeat>)
    ensures |r| == |members|
    ensures forall i :: 0 <= i < |r| ==> r[i] == RosterSeat(members[i].seat, i, members[i].player, members[i].device, members[i].buyIn)
  {
    if |members| == 0 then []
    else
      var n := |members| - 1;
      Numbered(members[..n]) + [RosterSeat(members[n].seat, n, members[n].player, members[n].device, members[n].buyIn)]
  }

  function FromMembership(m: Members, handNumber: nat, previousReceipt: Option<nat>,
      previous: Option<PhysicalSeat>): RosterAnswer {
    var members := InSeatOrder(m.seats);
    var dealer := NextDealer(previous, m.seats.Keys);
    if handNumber == 0 then InvalidHandNumber
    else if !(2 <= |members| <= 6) then InvalidPlayerCount
    else if dealer.None? then DealerSeatMissing
    else Roll(Roster(m.table, handNumber, m.version, previousReceipt, dealer.value, Numbered(members)))
  }

  lemma {:induction false} SeatOrderListsSeats(seats: map<PhysicalSeat, Member>, n: nat)
    requires SeatsKeyed(seats) && n <= TABLE_CAPACITY
    ensures var r := InSeatOrder(seats, n);
            && |r| <= n
            && (forall i :: 0 <= i < |r| ==> r[i].seat in seats && seats[r[i].seat] == r[i] && r[i].seat <= n)
            && (forall i, j :: 0 <= i < j < |r| ==> r[i].seat < r[j].seat)
            && (forall s :: s in seats && s <= n ==> seats[s] in r)
  {
    if n > 0 { SeatOrderListsSeats(seats, n - 1); }
  }

  /** Everyone at the table once, in seat order, numbered from zero. */
  ghost predicate ListsTable(m: Members, seats: seq<RosterSeat>) {
    && (forall i :: 0 <= i < |seats| ==>
          var x := seats[i];
          x.handIndex == i && x.seat in m.seats && m.seats[x.seat] == Member(x.player, x.device, x.buyIn, x.seat))
    && (forall i, j :: 0 <= i < j < |seats| ==>
          seats[i].seat < seats[j].seat && seats[i].player != seats[j].player && seats[i].device != seats[j].device)
    && (forall s :: s in m.seats ==> exists i :: 0 <= i < |seats| && seats[i].seat == s)
  }

  lemma {:induction false} NumberedListsTable(m: Members)
    requires SeatsKeyed(m.seats) && SeatsApart(m.seats)
    ensures ListsTable(m, Numbered(InSeatOrder(m.seats))) && |InSeatOrder(m.seats)| <= 6
  {
    hide InSeatOrder, Numbered;
    SeatOrderListsSeats(m.seats, TABLE_CAPACITY);
    var members := InSeatOrder(m.seats);
    var seats := Numbered(members);
    forall s | s in m.seats ensures exists i :: 0 <= i < |seats| && seats[i].seat == s {
      var i :| 0 <= i < |members| && members[i] == m.seats[s];
      assert seats[i].seat == s;
    }
  }

  /** With at least two players there is always a roster: everyone once, in seat order, with a seated dealer. */
  lemma {:induction false} RosterListsTable(m: Members, handNumber: nat, previousReceipt: Option<nat>,
      previous: Option<PhysicalSeat>)
    requires Valid(m) && handNumber > 0
    ensures var answer := FromMembership(m, handNumber, previousReceipt, previous);
            && (answer.Roll? <==> |InSeatOrder(m.seats)| >= 2)
            && (answer.Roll? ==> answer.roster.dealer in m.seats && ListsTable(m, answer.roster.seats))
  {
    hide InSeatOrder, NextDealer, QueueApart, NotSeated, ByClaim, ListsTable, Numbered;
    SeatOrderListsSeats(m.seats, TABLE_CAPACITY);
    NumberedListsTable(m);
    if |InSeatOrder(m.seats)| >= 2 { SomeoneDeals(previous, m.seats.Keys, InSeatOrder(m.seats)[0].seat); }
  }

  // ----- Runs of hands -----

  /** What happens between two hands: arrivals, then departures. */
  datatype Boundary = Boundary(joins: seq<Candidate>, leaving: set<PlayerId>)

  /** A table between hands; `hands` counts the hands dealt. */
  datatype Session = Session(members: Members, dealer: Option<PhysicalSeat>, hands: nat)

  ghost function Joined(m: Members, joins: seq<Candidate>): (r: Members)
    requires Valid(m)
    ensures Valid(r) && r.seats == m.seats
  {
    var sorted := SortClaims(m.waiting + joins);
    var queue := KeptOf(m.seats, sorted, |sorted|);
    SortByClaim(m.waiting + joins);
    KeptIsConsistent(m.seats, sorted);
    if m.version < U64_MAX && |queue| <= WAITING_CAPACITY then m.(version := m.version + 1, waiting := queue) else m
  }

  ghost function Settled(m: Members, leaving: set<PlayerId>): (r: Members)
    requires Valid(m)
    ensures Valid(r)
  {
    ReconcileKeepsValid(m, leaving);
    if m.version < U64_MAX then Reconciled(m, leaving) else m
  }

  /** One boundary and, if two or more are seated, the next hand. */
  ghost function NextHand(s: Session, b: Boundary): (r: Session)
    requires Valid(s.members)
    ensures Valid(r.members)
  {
    var m := Settled(Joined(s.members, b.joins), b.leaving);
    var answer := FromMembership(m, s.hands + 1, None, s.dealer);
    if answer.Roll? then Session(m, Some(answer.roster.dealer), s.hands + 1) else Session(m, s.dealer, s.hands)
  }

  ghost function Played(s: Session, boundaries: seq<Boundary>, k: nat): (r: Session)
    requires Valid(s.members) && k <= |boundaries|
    ensures Valid(r.members)
  {
    if k == 0 then s else NextHand(Played(s, boundaries, k - 1), boundaries[k - 1])
  }

  ghost predicate SitsAt(s: Session, player: PlayerId, seat: PhysicalSeat) {
    seat in s.members.seats && s.members.seats[seat].player == player
  }

  lemma {:induction false} StayersStay(s: Session, b: Boundary, player: PlayerId, seat: PhysicalSeat)
    requires Valid(s.members) && SitsAt(s, player, seat) && player !in b.leaving
    ensures SitsAt(NextHand(s, b), player, seat)
  {
    hide FromMembership, Reconciled, Valid;
    var m := Joined(s.members, b.joins);
    ReconcileSeats(m, b.leaving);
  }

  /** Each hand brings the button strictly closer to a seated player who does not get it. */
  lemma {:induction false} HandBringsButton(s: Session, b: Boundary, player: PlayerId, seat: PhysicalSeat)
    requires Valid(s.members) && SitsAt(s, player, seat) && player !in b.leaving && s.dealer.Some? && s.dealer != Some(seat)
    ensures var r := NextHand(s, b);
            && r.dealer.Some? && (r.hands == s.hands || r.hands == s.hands + 1)
            && (r.hands == s.hands ==> r.dealer == s.dealer)
            && (r.hands == s.hands + 1 ==> Gap(r.dealer.value, seat) < Gap(s.dealer.value, seat))
  {
    hide NextDealer, Numbered, InSeatOrder, Gap;
    StayersStay(s, b, player, seat);
    var m := Settled(Joined(s.members, b.joins), b.leaving);
    ButtonComesCloser(s.dealer.value, m.seats.Keys, seat);
  }

  /** Until the button arrives, the hands dealt use up the distance. */
  lemma {:induction false} ButtonArrives(s: Session, boundaries: seq<Boundary>, k: nat, l: nat, player: PlayerId,
      seat: PhysicalSeat)
    requires Valid(s.members) && k <= l <= |boundaries| && Played(s, boundaries, k).dealer.Some?
    requires SitsAt(Played(s, boundaries, k), player, seat)
    requires forall i :: k <= i < l ==> player !in boundaries[i].leaving
    requires forall i :: k <= i < l ==> Played(s, boundaries, i).dealer != Some(seat)
    ensures var (a, z) := (Played(s, boundaries, k), Played(s, boundaries, l));
            && SitsAt(z, player, seat) && z.dealer.Some? && a.hands <= z.hands
            && z.hands + Gap(z.dealer.value, seat) <= a.hands + Gap(a.dealer.value, seat)
  {
    hide NextHand, SitsAt, Gap, Valid;
    if k < l {
      ButtonArrives(s, boundaries, k, l - 1, player, seat);
      var before := Played(s, boundaries, l - 1);
      StayersStay(before, boundaries[l - 1], player, seat);
      HandBringsButton(before, boundaries[l - 1], player, seat);
    }
  }

  /** A hand was dealt at boundary `k`. */
  ghost predicate DealtAt(s: Session, boundaries: seq<Boundary>, k: nat)
    requires Valid(s.members) && k <= |boundaries|
  {
    k > 0 && Played(s, boundaries, k).hands == Played(s, boundaries, k - 1).hands + 1
  }

  /** The dealer is the one of the last hand dealt. */
  lemma {:induction false} ButtonWasDealt(s: Session, boundaries: seq<Boundary>, k: nat, l: nat)
    requires Valid(s.members) && k <= l <= |boundaries| && DealtAt(s, boundaries, k)
    ensures Played(s, boundaries, l).dealer.Some?
    ensures exists i :: k <= i <= l && DealtAt(s, boundaries, i) && Played(s, boundaries, i).dealer == Played(s, boundaries, l).dealer
  {
    hide Valid, FromMembership, Joined, Settled;
    if k < l && !DealtAt(s, boundaries, l) {
      ButtonWasDealt(s, boundaries, k, l - 1);
      var i :| k <= i <= l - 1 && DealtAt(s, boundaries, i) && Played(s, boundaries, i).dealer == Played(s, boundaries, l - 1).dealer;
      assert Played(s, boundaries, l).dealer == Played(s, boundaries, l - 1).dealer;
    }
  }

  /** Whoever comes and goes: a player who stays seated has the button in at least one of any six hands in a row.
      A hand is dealt at boundary `k`, and five more by boundary `l`. */
  lemma {:induction false} ButtonIsFair(s: Session, boundaries: seq<Boundary>, k: nat, l: nat, player: PlayerId,
      seat: PhysicalSeat)
    requires Valid(s.members) && k <= l <= |boundaries|
    requires DealtAt(s, boundaries, k) && SitsAt(Played(s, boundaries, k), player, seat)
    requires forall i :: k <= i < l ==> player !in boundaries[i].leaving
    requires Played(s, boundaries, l).hands >= Played(s, boundaries, k).hands + 5
    ensures exists i :: k <= i <= l && DealtAt(s, boundaries, i) && Played(s, boundaries, i).dealer == Some(seat)
  {
    hide Played, SitsAt, Valid, DealtAt;
    ButtonWasDealt(s, boundaries, k, k);
    if forall i :: k <= i < l ==> Played(s, boundaries, i).dealer != Some(seat) {
      ButtonArrives(s, boundaries, k, l, player, seat);
      assert Gap(Played(s, boundaries, l).dealer.value, seat) == 0;
    }
    var i :| k <= i <= l && Played(s, boundaries, i).dealer == Some(seat);
    ButtonWasDealt(s, boundaries, k, i);
  }
}
