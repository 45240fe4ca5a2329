/** Who sits at a table and who waits for a seat, and what happens to both between hands. */
module Membership {
  import opened Chips
  import opened Holdem
  import opened Receipts

  const TABLE_CAPACITY := 6
  const WAITING_CAPACITY := 6

  type PhysicalSeat = s: nat | 1 <= s <= TABLE_CAPACITY witness 1

  datatype Member = Member(player: PlayerId, device: Key, buyIn: nat, seat: PhysicalSeat)

  datatype Candidate = Candidate(claim: nat, player: PlayerId, device: Key, buyIn: nat)

  datatype Members = Members(table: nat, version: nat, seats: map<PhysicalSeat, Member>, waiting: seq<Candidate>)

  datatype MembersError =
    | TooManyMembers | WaitingListFull | DuplicatePhysicalSeat | SeatKeyMismatch | TakenPlayer | TakenDevice | VersionOverflow

  datatype Answer = Ready(members: Members) | Failed(error: MembersError)

  // ----- Valid tables -----

  ghost predicate SeatsKeyed(seats: map<PhysicalSeat, Member>) {
    forall s :: s in seats ==> seats[s].seat == s
  }

  ghost predicate SeatsApart(seats: map<PhysicalSeat, Member>) {
    forall s, t :: s in seats && t in seats && s != t ==> seats[s].player != seats[t].player && seats[s].device != seats[t].device
  }

  ghost predicate QueueApart(waiting: seq<Candidate>) {
    forall i, j :: 0 <= i < j < |waiting| ==> waiting[i].player != waiting[j].player && waiting[i].device != waiting[j].device
  }

  ghost predicate NotSeated(seats: map<PhysicalSeat, Member>, waiting: seq<Candidate>) {
    forall s, i :: s in seats && 0 <= i < |waiting| ==> seats[s].player != waiting[i].player && seats[s].device != waiting[i].device
  }

  /** No player or device appears twice, seated or waiting, and the waiting list is not too long. */
  ghost predicate Consistent(seats: map<PhysicalSeat, Member>, waiting: seq<Candidate>) {
    && SeatsKeyed(seats) && |waiting| <= WAITING_CAPACITY
    && SeatsApart(seats) && QueueApart(waiting) && NotSeated(seats, waiting)
  }

  ghost predicate ByClaim(waiting: seq<Candidate>) {
    forall i, j :: 0 <= i < j < |waiting| ==> waiting[i].claim <= waiting[j].claim
  }

  ghost predicate Valid(m: Members) { Consistent(m.seats, m.waiting) && ByClaim(m.waiting) && m.version <= U64_MAX }

  // ----- Ordering claims -----

  function InsertClaim(c: Candidate, sorted: seq<Candidate>): (r: seq<Candidate>)
    ensures |r| == |sorted| + 1
  {
    if |sorted| == 0 || sorted[|sorted| - 1].claim <= c.claim then sorted + [c]
    else InsertClaim(c, sorted[..|sorted| - 1]) + [sorted[|sorted| - 1]]
  }

  /** Stable order by claim. */
  function SortClaims(waiting: seq<Candidate>): (r: seq<Candidate>)
    ensures |r| == |waiting|
  {
    if |waiting| == 0 then [] else InsertClaim(waiting[|waiting| - 1], SortClaims(waiting[..|waiting| - 1]))
  }

  lemma {:induction false} SortedStays(waiting: seq<Candidate>)
    requires ByClaim(waiting)
    ensures SortClaims(waiting) == waiting
  {
    if |waiting| > 0 {
      var n := |waiting| - 1;
      SortedStays(waiting[..n]);
      assert waiting == waiting[..n] + [waiting[n]];
    }
  }

  // ----- The hand boundary, as a value -----

  function Staying(seats: map<PhysicalSeat, Member>, leaving: set<PlayerId>): map<PhysicalSeat, Member> {
    map s | s in seats && seats[s].player !in leaving :: seats[s]
  }

  /** The seats from `s` up that nobody holds, lowest first. */
  function FreeFrom(seats: map<PhysicalSeat, Member>, s: nat): (r: seq<PhysicalSeat>)
    requires 1 <= s <= TABLE_CAPACITY + 1
    ensures forall k :: 0 <= k < |r| ==> s <= r[k] && r[k] !in seats
    decreases TABLE_CAPACITY + 1 - s
  {
    if s > TABLE_CAPACITY then []
    else if s in seats then FreeFrom(seats, s + 1)
    else [s] + FreeFrom(seats, s + 1)
  }

  /** The candidates who have not left, in their order. */
  function StillWaiting(waiting: seq<Candidate>, leaving: set<PlayerId>): seq<Candidate> {
    if |waiting| == 0 then []
    else if waiting[0].player in leaving then StillWaiting(waiting[1..], leaving)
    else [waiting[0]] + StillWaiting(waiting[1..], leaving)
  }

  function Seat(c: Candidate, s: PhysicalSeat): Member { Member(c.player, c.device, c.buyIn, s) }

  /** First come, first served: one free seat after the other. */
  function Admitted(seats: map<PhysicalSeat, Member>, free: seq<PhysicalSeat>,
      queue: seq<Candidate>): map<PhysicalSeat, Member>
    decreases |queue|
  {
    if |free| == 0 || |queue| == 0 then seats
    else Admitted(seats[free[0] := Seat(queue[0], free[0])], free[1..], queue[1..])
  }

  function Overflow(free: seq<PhysicalSeat>, queue: seq<Candidate>): seq<Candidate> {
    if |free| >= |queue| then [] else queue[|free|..]
  }

  function Reconciled(m: Members, leaving: set<PlayerId>): Members {
    var kept := Staying(m.seats, leaving);
    var free := FreeFrom(kept, 1);
    var queue := StillWaiting(m.waiting, leaving);
    Members(m.table, m.version + 1, Admitted(kept, free, queue), Overflow(free, queue))
  }

  // ----- What it does, seat by seat -----

  lemma {:induction false} FreeAscend(seats: map<PhysicalSeat, Member>, s: nat)
    requires 1 <= s <= TABLE_CAPACITY + 1
    ensures forall i, j :: 0 <= i < j < |FreeFrom(seats, s)| ==> FreeFrom(seats, s)[i] < FreeFrom(seats, s)[j]
    decreases TABLE_CAPACITY + 1 - s
  {
    if s <= TABLE_CAPACITY { FreeAscend(seats, s + 1); }
  }

  lemma {:induction false} FreeFound(seats: map<PhysicalSeat, Member>, s: nat, t: PhysicalSeat)
    requires 1 <= s <= t && t !in seats
    ensures t in FreeFrom(seats, s)
    decreases t - s
  {
    if s < t { FreeFound(seats, s + 1, t); }
  }

  /** The free seats, lowest first: all of them and no other. */
  lemma {:induction false} FreeSeats(seats: map<PhysicalSeat, Member>)
    ensures var r := FreeFrom(seats, 1);
            && (forall i, j :: 0 <= i < j < |r| ==> r[i] < r[j])
            && (forall t: PhysicalSeat :: t in r <==> t !in seats)
  {
    hide FreeFrom;
    FreeAscend(seats, 1);
    forall t: PhysicalSeat | t !in seats ensures t in FreeFrom(seats, 1) { FreeFound(seats, 1, t); }
  }

  /** Who sits where after admission: nobody moves, and the first in the queue have the free seats in order. */
  lemma {:induction false} AdmittedSeats(seats: map<PhysicalSeat, Member>, free: seq<PhysicalSeat>,
      queue: seq<Candidate>)
    requires forall i, j :: 0 <= i < j < |free| ==> free[i] != free[j]
    requires forall k :: 0 <= k < |free| ==> free[k] !in seats
    ensures var r := Admitted(seats, free, queue);
            && (forall s :: s in seats ==> s in r && r[s] == seats[s])
            && (forall k :: 0 <= k < |free| && k < |queue| ==> free[k] in r && r[free[k]] == Seat(queue[k], free[k]))
            && (forall s :: s in r ==> s in seats || exists k :: 0 <= k < |free| && k < |queue| && free[k] == s)
    decreases |queue|
  {
    if |free| > 0 && |queue| > 0 {
      var next := seats[free[0] := Seat(queue[0], free[0])];
      AdmittedSeats(next, free[1..], queue[1..]);
      var r := Admitted(seats, free, queue);
      assert r == Admitted(next, free[1..], queue[1..]);
      forall k | 0 <= k < |free| && k < |queue| ensures free[k] in r && r[free[k]] == Seat(queue[k], free[k]) {
        if k > 0 { assert free[1..][k - 1] == free[k] && queue[1..][k - 1] == queue[k]; }
      }
      forall s | s in r ensures s in seats || exists k :: 0 <= k < |free| && k < |queue| && free[k] == s {
        if s !in next {
          var k :| 0 <= k < |free| - 1 && k < |queue| - 1 && free[1..][k] == s;
          assert free[k + 1] == s;
        }
      }
    }
  }

  lemma {:induction false} WaitingAre(waiting: seq<Candidate>, leaving: set<PlayerId>)
    ensures |StillWaiting(waiting, leaving)| <= |waiting|
    ensures forall c :: c in StillWaiting(waiting, leaving) <==> c in waiting && c.player !in leaving
  {
    if |waiting| > 0 {
      WaitingAre(waiting[1..], leaving);
      assert waiting == [waiting[0]] + waiting[1..];
    }
  }

  lemma {:induction false} WaitingApart(waiting: seq<Candidate>, leaving: set<PlayerId>)
    requires QueueApart(waiting)
    ensures QueueApart(StillWaiting(waiting, leaving))
  {
    if |waiting| > 0 {
      WaitingApart(waiting[1..], leaving);
      WaitingAre(waiting[1..], leaving);
      var rest := StillWaiting(waiting[1..], leaving);
      forall k | 0 <= k < |rest| ensures rest[k].player != waiting[0].player && rest[k].device != waiting[0].device {
        assert rest[k] in rest;
      }
    }
  }

  lemma {:induction false} WaitingInOrder(waiting: seq<Candidate>, leaving: set<PlayerId>)
    requires ByClaim(waiting)
    ensures ByClaim(StillWaiting(waiting, leaving))
  {
    if |waiting| > 0 {
      WaitingInOrder(waiting[1..], leaving);
      WaitingAre(waiting[1..], leaving);
      var rest := StillWaiting(waiting[1..], leaving);
      forall k | 0 <= k < |rest| ensures waiting[0].claim <= rest[k].claim { assert rest[k] in rest; }
    }
  }

  lemma {:induction false} WaitingMembers(waiting: seq<Candidate>, leaving: set<PlayerId>)
    ensures var r := StillWaiting(waiting, leaving);
            && |r| <= |waiting|
            && (forall c :: c in r <==> c in waiting && c.player !in leaving)
            && (QueueApart(waiting) ==> QueueApart(r)) && (ByClaim(waiting) ==> ByClaim(r))
  {
    hide StillWaiting, QueueApart, ByClaim;
    WaitingAre(waiting, leaving);
    if QueueApart(waiting) { WaitingApart(waiting, leaving); }
    if ByClaim(waiting) { WaitingInOrder(waiting, leaving); }
  }

  /** Every seat after the boundary: stayers keep theirs, leavers are gone, newcomers have the lowest free seats in claim order. */
  lemma {:induction false} ReconcileSeats(m: Members, leaving: set<PlayerId>)
    requires Valid(m)
    ensures var r := Reconciled(m, leaving);
            var queue := StillWaiting(m.waiting, leaving);
            var free := FreeFrom(Staying(m.seats, leaving), 1);
            && (forall s :: s in m.seats && m.seats[s].player !in leaving ==> s in r.seats && r.seats[s] == m.seats[s])
            && (forall k :: 0 <= k < |free| && k < |queue| ==> free[k] in r.seats && r.seats[free[k]] == Seat(queue[k], free[k]))
            && (forall s :: s in r.seats ==>
                  || (s in m.seats && m.seats[s].player !in leaving)
                  || exists k :: 0 <= k < |free| && k < |queue| && free[k] == s)
  {
    hide FreeFrom, StillWaiting, Admitted;
    var kept := Staying(m.seats, leaving);
    FreeSeats(kept);
    AdmittedSeats(kept, FreeFrom(kept, 1), StillWaiting(m.waiting, leaving));
  }

  lemma {:induction false} NobodyWhoLeftIsSeated(m: Members, leaving: set<PlayerId>, s: PhysicalSeat)
    requires Valid(m) && s in Reconciled(m, leaving).seats
    ensures Reconciled(m, leaving).seats[s].player !in leaving && Reconciled(m, leaving).seats[s].seat == s
  {
    hide FreeFrom, StillWaiting, Reconciled;
    ReconcileSeats(m, leaving);
    WaitingMembers(m.waiting, leaving);
    var queue := StillWaiting(m.waiting, leaving);
    if !(s in m.seats && m.seats[s].player !in leaving) {
      var free := FreeFrom(Staying(m.seats, leaving), 1);
      var k :| 0 <= k < |free| && k < |queue| && free[k] == s;
      assert queue[k] in queue;
    }
  }

  /** Everybody who neither left nor was seated still waits, in claim order; nobody waits beside a free seat. */
  lemma {:induction false} NobodyWaitsBesideAFreeSeat(m: Members, leaving: set<PlayerId>)
    requires Valid(m)
    ensures var r := Reconciled(m, leaving);
            var queue := StillWaiting(m.waiting, leaving);
            && |r.waiting| <= |queue| && queue == queue[..|queue| - |r.waiting|] + r.waiting
            && (r.waiting != [] ==> forall s: PhysicalSeat :: s in r.seats)
  {
    hide FreeFrom, StillWaiting, Admitted;
    var kept := Staying(m.seats, leaving);
    var free := FreeFrom(kept, 1);
    FreeSeats(kept);
    ReconcileSeats(m, leaving);
    var r := Reconciled(m, leaving);
    if r.waiting != [] {
      forall s: PhysicalSeat ensures s in r.seats {
        if s !in kept {
          assert s in free;
          var k :| 0 <= k < |free| && free[k] == s;
        }
      }
    }
  }

  // ----- The result is valid again -----

  /** Two people are told apart by player and by device. */
  ghost predicate Apart(a: PlayerId, b: Key, c: PlayerId, d: Key) { a != c && b != d }

  /** Where a seated player came from: their own seat before, or place `k` of the queue. */
  ghost predicate Came(m: Members, queue: seq<Candidate>, free: seq<PhysicalSeat>, x: Member, s: PhysicalSeat, k: nat) {
    if k == |queue| then s in m.seats && x == m.seats[s]
    else k < |queue| && k < |free| && free[k] == s && x == Seat(queue[k], s)
  }

  lemma {:induction false} WhereFrom(m: Members, leaving: set<PlayerId>, s: PhysicalSeat) returns (k: nat)
    requires Valid(m) && s in Reconciled(m, leaving).seats
    ensures Came(m, StillWaiting(m.waiting, leaving), FreeFrom(Staying(m.seats, leaving), 1), Reconciled(m, leaving).seats[s], s, k)
  {
    hide FreeFrom, StillWaiting, Reconciled, Valid;
    ReconcileSeats(m, leaving);
    var queue := StillWaiting(m.waiting, leaving);
    var free := FreeFrom(Staying(m.seats, leaving), 1);
    if s in m.seats && m.seats[s].player !in leaving {
      k := |queue|;
    } else {
      k :| 0 <= k < |free| && k < |queue| && free[k] == s;
    }
  }

  lemma {:induction false} QueueNotSeated(m: Members, leaving: set<PlayerId>, s: PhysicalSeat, k: nat)
    requires Valid(m) && s in m.seats && k < |StillWaiting(m.waiting, leaving)|
    ensures var c := StillWaiting(m.waiting, leaving)[k]; Apart(m.seats[s].player, m.seats[s].device, c.player, c.device)
  {
    hide StillWaiting;
    WaitingMembers(m.waiting, leaving);
    var c := StillWaiting(m.waiting, leaving)[k];
    assert c in m.waiting;
    var i :| 0 <= i < |m.waiting| && m.waiting[i] == c;
  }

  lemma {:induction false} SeatedApart(m: Members, leaving: set<PlayerId>, s: PhysicalSeat, t: PhysicalSeat)
    requires Valid(m) && s in Reconciled(m, leaving).seats && t in Reconciled(m, leaving).seats && s != t
    ensures var r := Reconciled(m, leaving).seats; Apart(r[s].player, r[s].device, r[t].player, r[t].device)
  {
    hide FreeFrom, StillWaiting, Reconciled;
    var k := WhereFrom(m, leaving, s);
    var l := WhereFrom(m, leaving, t);
    WaitingMembers(m.waiting, leaving);
    var queue := StillWaiting(m.waiting, leaving);
    if k == |queue| {
      if l < |queue| { QueueNotSeated(m, leaving, s, l); }
    } else if l == |queue| {
      QueueNotSeated(m, leaving, t, k);
    } else {
      assert k < l || l < k;
    }
  }

  lemma {:induction false} WaitersNotSeated(m: Members, leaving: set<PlayerId>, s: PhysicalSeat, i: nat)
    requires Valid(m) && s in Reconciled(m, leaving).seats && i < |Reconciled(m, leaving).waiting|
    ensures var r := Reconciled(m, leaving); Apart(r.seats[s].player, r.seats[s].device, r.waiting[i].player, r.waiting[i].device)
  {
    hide FreeFrom, StillWaiting, Admitted;
    var k := WhereFrom(m, leaving, s);
    WaitingMembers(m.waiting, leaving);
    var queue := StillWaiting(m.waiting, leaving);
    var free := FreeFrom(Staying(m.seats, leaving), 1);
    assert Reconciled(m, leaving).waiting[i] == queue[|free| + i];
    if k == |queue| { QueueNotSeated(m, leaving, s, |free| + i); } else { assert k < |free| + i; }
  }

  /** The hand boundary turns a valid table into a valid table. */
  lemma {:induction false} ReconcileKeepsValid(m: Members, leaving: set<PlayerId>)
    requires Valid(m)
    ensures Consistent(Reconciled(m, leaving).seats, Reconciled(m, leaving).waiting) && ByClaim(Reconciled(m, leaving).waiting)
  {
    var r := Reconciled(m, leaving);
    hide FreeFrom, StillWaiting, Admitted, Staying;
    WaitingMembers(m.waiting, leaving);
    forall s | s in r.seats ensures r.seats[s].seat == s { NobodyWhoLeftIsSeated(m, leaving, s); }
    forall s, t | s in r.seats && t in r.seats && s != t
      ensures r.seats[s].player != r.seats[t].player && r.seats[s].device != r.seats[t].device { SeatedApart(m, leaving, s, t); }
    forall s, i | s in r.seats && 0 <= i < |r.waiting|
      ensures r.seats[s].player != r.waiting[i].player && r.seats[s].device != r.waiting[i].device { WaitersNotSeated(m, leaving, s, i); }
  }

  // ----- The program -----

  function PlayersBelow(seats: map<PhysicalSeat, Member>, s: nat): set<PlayerId> {
    set t | t in seats && t < s :: seats[t].player
  }

  function DevicesBelow(seats: map<PhysicalSeat, Member>, s: nat): set<Key> {
    set t | t in seats && t < s :: seats[t].device
  }

  ghost predicate SeatsFine(seats: map<PhysicalSeat, Member>, n: nat) {
    && (forall s :: s in seats && s < n ==> seats[s].seat == s)
    && forall s, t :: s in seats && t in seats && s < t < n ==> seats[s].player != seats[t].player && seats[s].device != seats[t].device
  }

  lemma {:induction false} OneMoreSeat(seats: map<PhysicalSeat, Member>, n: nat)
    ensures SeatsFine(seats, n + 1) <==>
              && SeatsFine(seats, n)
              && (1 <= n <= TABLE_CAPACITY && n in seats ==>
                    seats[n].seat == n && seats[n].player !in PlayersBelow(seats, n) && seats[n].device !in DevicesBelow(seats, n))
  {
  }

  /** The seats, lowest first, until one holds the wrong member or a player or device a second time. */
  method CheckSeats(seats: map<PhysicalSeat, Member>) returns (error: Option<MembersError>)
    ensures error.None? <==> SeatsKeyed(seats) && SeatsApart(seats)
  {
    var players: set<PlayerId> := {};
    var devices: set<Key> := {};
    for s := 1 to TABLE_CAPACITY + 1
      invariant SeatsFine(seats, s)
      invariant players == PlayersBelow(seats, s) && devices == DevicesBelow(seats, s)
    {
      OneMoreSeat(seats, s);
      if s in seats {
        if seats[s].seat != s { return Some(SeatKeyMismatch); }
        if seats[s].player in players { SeatsFineIffApart(seats, s + 1); return Some(TakenPlayer); }
        players := players + {seats[s].player};
        if seats[s].device in devices { SeatsFineIffApart(seats, s + 1); return Some(TakenDevice); }
        devices := devices + {seats[s].device};
      }
    }
    SeatsFineIffApart(seats, TABLE_CAPACITY + 1);
    return None;
  }

  lemma {:induction false} SeatsFineIffApart(seats: map<PhysicalSeat, Member>, n: nat)
    ensures SeatsKeyed(seats) && SeatsApart(seats) ==> SeatsFine(seats, n)
    ensures SeatsFine(seats, TABLE_CAPACITY + 1) ==> SeatsKeyed(seats) && SeatsApart(seats)
  {
    if SeatsFine(seats, TABLE_CAPACITY + 1) {
      forall s, t | s in seats && t in seats && s != t
        ensures seats[s].player != seats[t].player && seats[s].device != seats[t].device
      {
        assert s < t || t < s;
      }
    }
  }

  function TakenPlayers(seats: map<PhysicalSeat, Member>, waiting: seq<Candidate>, n: nat): set<PlayerId>
    requires n <= |waiting|
  {
    (set s | s in seats :: seats[s].player) + (set k | 0 <= k < n :: waiting[k].player)
  }

  function TakenDevices(seats: map<PhysicalSeat, Member>, waiting: seq<Candidate>, n: nat): set<Key>
    requires n <= |waiting|
  {
    (set s | s in seats :: seats[s].device) + (set k | 0 <= k < n :: waiting[k].device)
  }

  lemma {:induction false} OneMoreTaken(seats: map<PhysicalSeat, Member>, waiting: seq<Candidate>, n: nat)
    requires n < |waiting|
    ensures TakenPlayers(seats, waiting, n + 1) == TakenPlayers(seats, waiting, n) + {waiting[n].player}
    ensures TakenDevices(seats, waiting, n + 1) == TakenDevices(seats, waiting, n) + {waiting[n].device}
  {
  }

  /** The first `n` waiting have a player and a device that nobody before them has. */
  ghost predicate QueueFine(seats: map<PhysicalSeat, Member>, waiting: seq<Candidate>, n: nat)
    requires n <= |waiting|
  {
    forall k :: 0 <= k < n ==> waiting[k].player !in TakenPlayers(seats, waiting, k) && waiting[k].device !in TakenDevices(seats, waiting, k)
  }

  lemma {:induction false} QueueFineIffApart(seats: map<PhysicalSeat, Member>, waiting: seq<Candidate>)
    ensures QueueFine(seats, waiting, |waiting|) <==> QueueApart(waiting) && NotSeated(seats, waiting)
  {
    if QueueFine(seats, waiting, |waiting|) {
      forall i, j | 0 <= i < j < |waiting| ensures waiting[i].player != waiting[j].player && waiting[i].device != waiting[j].device {
        assert waiting[i].player in TakenPlayers(seats, waiting, j) && waiting[i].device in TakenDevices(seats, waiting, j);
      }
      forall s, i | s in seats && 0 <= i < |waiting| ensures seats[s].player != waiting[i].player && seats[s].device != waiting[i].device {
        assert seats[s].player in TakenPlayers(seats, waiting, i) && seats[s].device in TakenDevices(seats, waiting, i);
      }
    }
  }

  /** Then the waiting list, against everybody seated and everybody earlier in it. */
  method CheckQueue(seats: map<PhysicalSeat, Member>, waiting: seq<Candidate>) returns (error: Option<MembersError>)
    ensures error.None? <==> QueueApart(waiting) && NotSeated(seats, waiting)
  {
    hide QueueApart, NotSeated, TakenPlayers, TakenDevices;
    QueueFineIffApart(seats, waiting);
    var players := TakenPlayers(seats, waiting, 0);
    var devices := TakenDevices(seats, waiting, 0);
    for i := 0 to |waiting|
      invariant QueueFine(seats, waiting, i)
      invariant players == TakenPlayers(seats, waiting, i) && devices == TakenDevices(seats, waiting, i)
    {
      OneMoreTaken(seats, waiting, i);
      if waiting[i].player in players { return Some(TakenPlayer); }
      players := players + {waiting[i].player};
      if waiting[i].device in devices { return Some(TakenDevice); }
      devices := devices + {waiting[i].device};
    }
    return None;
  }

  method CheckMembers(seats: map<PhysicalSeat, Member>, waiting: seq<Candidate>) returns (error: Option<MembersError>)
    ensures error.None? <==> Consistent(seats, waiting)
  {
    SeatsAtMostSix(seats);
    if |seats| > TABLE_CAPACITY { return Some(TooManyMembers); }
    if |waiting| > WAITING_CAPACITY { return Some(WaitingListFull); }
    error := CheckSeats(seats);
    if error.Some? { return; }
    error := CheckQueue(seats, waiting);
  }

  lemma {:induction false} SeatsAtMostSix(seats: map<PhysicalSeat, Member>)
    ensures |seats| <= TABLE_CAPACITY
  {
    var all: set<PhysicalSeat> := {1, 2, 3, 4, 5, 6};
    assert forall s: PhysicalSeat :: s in all;
    assert seats.Keys <= all;
    assert |seats| == |seats.Keys|;
    assert |all - seats.Keys| == |all| - |seats.Keys|;
  }

  function SeatMap(members: seq<Member>): Option<map<PhysicalSeat, Member>> {
    if |members| == 0 then Some(map[])
    else
      var last := members[|members| - 1];
      var front := SeatMap(members[..|members| - 1]);
      if front.None? || last.seat in front.value then None else Some(front.value[last.seat := last])
  }

  lemma {:induction false} SeatMapStops(members: seq<Member>, n: nat)
    requires n <= |members| && SeatMap(members[..n]).None?
    ensures SeatMap(members).None?
  {
    if n == |members| {
      assert members[..n] == members;
    } else {
      assert members[..|members| - 1][..n] == members[..n];
      SeatMapStops(members[..|members| - 1], n);
    }
  }

  ghost predicate SeatsOnce(members: seq<Member>) {
    forall i, j :: 0 <= i < j < |members| ==> members[i].seat != members[j].seat
  }

  /** Each listed member, and nobody else, sits in their seat. */
  ghost predicate SeatsListed(members: seq<Member>, seats: map<PhysicalSeat, Member>) {
    && (forall i :: 0 <= i < |members| ==> members[i].seat in seats && seats[members[i].seat] == members[i])
    && (forall s :: s in seats ==> exists i :: 0 <= i < |members| && members[i].seat == s)
  }

  lemma {:induction false} OneMoreListed(members: seq<Member>, seats: map<PhysicalSeat, Member>, m: Member)
    requires SeatsOnce(members) && SeatsListed(members, seats)
    ensures SeatsOnce(members + [m]) <==> m.seat !in seats
    ensures m.seat !in seats ==> SeatsListed(members + [m], seats[m.seat := m])
  {
    var (all, more) := (members + [m], seats[m.seat := m]);
    if m.seat in seats {
      var i :| 0 <= i < |members| && members[i].seat == m.seat;
      assert all[i].seat == all[|members|].seat;
    } else {
      forall s | s in more ensures exists i :: 0 <= i < |all| && all[i].seat == s {
        if s == m.seat {
          assert all[|members|].seat == s;
        } else {
          var i :| 0 <= i < |members| && members[i].seat == s;
          assert all[i].seat == s;
        }
      }
    }
  }

  /** A list of members can be seated exactly if no seat occurs twice, and then they sit as listed. */
  lemma {:induction false} SeatMapSeats(members: seq<Member>)
    ensures SeatMap(members).Some? <==> SeatsOnce(members)
    ensures SeatMap(members).Some? ==> SeatsListed(members, SeatMap(members).value)
  {
    hide SeatsListed;
    if |members| == 0 {
      NobodyListed();
    } else {
      var (front, last) := (members[..|members| - 1], members[|members| - 1]);
      SeatMapSeats(front);
      assert members == front + [last];
      if SeatMap(front).Some? {
        OneMoreListed(front, SeatMap(front).value, last);
      } else {
        var i, j :| 0 <= i < j < |front| && front[i].seat == front[j].seat;
        assert members[i].seat == members[j].seat;
      }
    }
  }

  lemma {:induction false} NobodyListed()
    ensures SeatsListed([], map[])
  {
  }

  /** Builds a membership; it is refused exactly when a seat, player or device is taken twice or too many wait. */
  method New(table: nat, version: nat, members: seq<Member>, waiting: seq<Candidate>) returns (r: Answer)
    ensures SeatMap(members).Some? <==> SeatsOnce(members)
    ensures r.Ready? <==> SeatMap(members).Some? && Consistent(SeatMap(members).value, SortClaims(waiting))
    ensures r.Ready? ==> r.members == Members(table, version, SeatMap(members).value, SortClaims(waiting))
    ensures r.Ready? ==> SeatsListed(members, r.members.seats)
  {
    SeatMapSeats(members);
    var seats: map<PhysicalSeat, Member> := map[];
    for i := 0 to |members|
      invariant SeatMap(members[..i]) == Some(seats)
    {
      assert members[..i + 1][..i] == members[..i];
      if members[i].seat in seats {
        SeatMapStops(members, i + 1);
        return Failed(DuplicatePhysicalSeat);
      }
      seats := seats[members[i].seat := members[i]];
    }
    assert members[..|members|] == members;
    var error := CheckMembers(seats, SortClaims(waiting));
    if error.Some? { return Failed(error.value); }
    r := Ready(Members(table, version, seats, SortClaims(waiting)));
  }

  /** The members in the order of their seats, up to seat `n`. */
  function InSeatOrder(seats: map<PhysicalSeat, Member>, n: nat := TABLE_CAPACITY): seq<Member>
    requires n <= TABLE_CAPACITY
  {
    if n == 0 then [] else if n in seats then InSeatOrder(seats, n - 1) + [seats[n]] else InSeatOrder(seats, n - 1)
  }

  function UpTo(seats: map<PhysicalSeat, Member>, n: nat): map<PhysicalSeat, Member> {
    map s | s in seats && s <= n :: seats[s]
  }

  lemma {:induction false} SeatMapInOrder(seats: map<PhysicalSeat, Member>, n: nat)
    requires SeatsKeyed(seats) && n <= TABLE_CAPACITY
    ensures SeatMap(InSeatOrder(seats, n)) == Some(UpTo(seats, n))
  {
    hide UpTo, SeatMap;
    UpToSteps(seats, n);
    if n == 0 {
      NobodySeated();
    } else {
      SeatMapInOrder(seats, n - 1);
      if n in seats { SeatMapAppends(InSeatOrder(seats, n - 1), seats[n]); }
    }
  }

  lemma {:induction false} UpToSteps(seats: map<PhysicalSeat, Member>, n: nat)
    requires n <= TABLE_CAPACITY
    ensures n == 0 ==> UpTo(seats, n) == map[]
    ensures n > 0 && n in seats ==> UpTo(seats, n) == UpTo(seats, n - 1)[n := seats[n]] && n !in UpTo(seats, n - 1)
    ensures n > 0 && n !in seats ==> UpTo(seats, n) == UpTo(seats, n - 1)
  {
  }

  lemma {:induction false} NobodySeated()
    ensures SeatMap([]) == Some(map[])
  {
  }

  lemma {:induction false} SeatMapAppends(front: seq<Member>, m: Member)
    requires SeatMap(front).Some? && m.seat !in SeatMap(front).value
    ensures SeatMap(front + [m]) == Some(SeatMap(front).value[m.seat := m])
  {
    assert (front + [m])[..|front|] == front;
  }

  lemma {:induction false} NextWaiting(waiting: seq<Candidate>, leaving: set<PlayerId>, i: nat)
    requires i < |waiting|
    ensures var rest := StillWaiting(waiting[i + 1..], leaving);
            StillWaiting(waiting[i..], leaving) == if waiting[i].player in leaving then rest else [waiting[i]] + rest
  {
    assert waiting[i..][1..] == waiting[i + 1..];
  }

  /** What the loop over the waiting list has done so far leads to the same table. */
  ghost predicate OnTheWay(seats: map<PhysicalSeat, Member>, free: seq<PhysicalSeat>, queue: seq<Candidate>,
                           next: map<PhysicalSeat, Member>, left: seq<PhysicalSeat>, ahead: seq<Candidate>, remaining: seq<Candidate>)
  {
    && Admitted(next, left, ahead) == Admitted(seats, free, queue)
    && remaining + Overflow(left, ahead) == Overflow(free, queue)
    && (remaining != [] ==> left == [])
  }

  lemma {:induction false} OneAdmitted(seats: map<PhysicalSeat, Member>, free: seq<PhysicalSeat>, queue: seq<Candidate>,
      next: map<PhysicalSeat, Member>, left: seq<PhysicalSeat>, ahead: seq<Candidate>, remaining: seq<Candidate>)
    requires OnTheWay(seats, free, queue, next, left, ahead, remaining) && |ahead| > 0
    ensures if |left| > 0 then OnTheWay(seats, free, queue, next[left[0] := Seat(ahead[0], left[0])], left[1..], ahead[1..], remaining)
            else OnTheWay(seats, free, queue, next, left, ahead[1..], remaining + [ahead[0]])
  {
    if |left| > 0 {
      assert remaining == [];
      assert Overflow(left, ahead) == Overflow(left[1..], ahead[1..]);
    } else {
      assert Overflow(left, ahead) == ahead;
      assert remaining + ahead == remaining + [ahead[0]] + ahead[1..];
      if |ahead| > 1 { assert Overflow(left, ahead[1..]) == ahead[1..]; }
    }
  }

  /** Leavers go, stayers keep their seats, and waiting players take the free seats. For a valid table this fails
      only when the version number runs out. */
  method Reconcile(m: Members, leaving: set<PlayerId>) returns (r: Answer)
    ensures Valid(m) ==> (r.Ready? <==> m.version < U64_MAX) && (r.Failed? ==> r.error == VersionOverflow)
    ensures Valid(m) && r.Ready? ==> r.members == Reconciled(m, leaving) && Valid(r.members)
    ensures r.Ready? ==> Consistent(r.members.seats, r.members.waiting)
  {
    hide Staying, Reconciled, SeatMap, InSeatOrder, SortClaims, UpTo, SeatsApart, QueueApart, NotSeated, SeatsKeyed;
    hide ByClaim;
    var kept := Staying(m.seats, leaving);
    var next, remaining := Admission(m, leaving, kept);
    if m.version >= U64_MAX { return Failed(VersionOverflow); }
    r := New(m.table, m.version + 1, InSeatOrder(next), remaining);
    if Valid(m) {
      ReconcileKeepsValid(m, leaving);
      SameTableNextVersion(m, leaving);
      SortedStays(remaining);
      SeatMapInOrder(next, TABLE_CAPACITY);
      AllSeatsUpTo(next);
    }
  }

  lemma {:induction false} SameTableNextVersion(m: Members, leaving: set<PlayerId>)
    ensures Reconciled(m, leaving).table == m.table && Reconciled(m, leaving).version == m.version + 1
  {
  }

  lemma {:induction false} AllSeatsUpTo(seats: map<PhysicalSeat, Member>)
    ensures UpTo(seats, TABLE_CAPACITY) == seats
  {
  }

  /** Nobody from place `i` of the queue on is among these players or has one of these devices. */
  ghost predicate Clear(waiting: seq<Candidate>, i: nat, players: set<PlayerId>, devices: set<Key>) {
    forall k :: i <= k < |waiting| ==> waiting[k].player !in players && waiting[k].device !in devices
  }

  lemma {:induction false} ClearOfStayers(m: Members, leaving: set<PlayerId>)
    requires Valid(m)
    ensures var kept := Staying(m.seats, leaving);
            Clear(m.waiting, 0, set s | s in kept :: kept[s].player, set s | s in kept :: kept[s].device)
    ensures |m.waiting| <= WAITING_CAPACITY
  {
  }

  lemma {:induction false} ClearOfNext(m: Members, i: nat, players: set<PlayerId>, devices: set<Key>)
    requires Valid(m) && i < |m.waiting| && Clear(m.waiting, i, players, devices)
    ensures m.waiting[i].player !in players && m.waiting[i].device !in devices
    ensures Clear(m.waiting, i + 1, players, devices)
    ensures Clear(m.waiting, i + 1, players + {m.waiting[i].player}, devices + {m.waiting[i].device})
  {
  }

  method Admission(m: Members, leaving: set<PlayerId>, kept: map<PhysicalSeat, Member>)
    returns (next: map<PhysicalSeat, Member>, remaining: seq<Candidate>)
    requires kept == Staying(m.seats, leaving)
    ensures Valid(m) ==> next == Reconciled(m, leaving).seats && remaining == Reconciled(m, leaving).waiting
  {
    hide FreeFrom, StillWaiting, Admitted, Overflow, Valid, Clear, Staying;
    next := kept;
    remaining := [];
    var players := set s | s in next :: next[s].player;
    var devices := set s | s in next :: next[s].device;
    var available := FreeFrom(next, 1);
    ghost var free := available;
    ghost var queue := StillWaiting(m.waiting, leaving);
    if Valid(m) { ClearOfStayers(m, leaving); }
    assert m.waiting[0..] == m.waiting;
    for i := 0 to |m.waiting|
      invariant Valid(m) ==> |remaining| <= i && Clear(m.waiting, i, players, devices)
      invariant Valid(m) ==> OnTheWay(kept, free, queue, next, available, StillWaiting(m.waiting[i..], leaving), remaining)
    {
      var c := m.waiting[i];
      NextWaiting(m.waiting, leaving, i);
      if Valid(m) { ClearOfNext(m, i, players, devices); }
      if c.player in leaving || c.player in players || c.device in devices { continue; }
      if Valid(m) { OneAdmitted(kept, free, queue, next, available, StillWaiting(m.waiting[i..], leaving), remaining); }
      if |available| > 0 {
        players := players + {c.player};
        devices := devices + {c.device};
        next := next[available[0] := Seat(c, available[0])];
        available := available[1..];
      } else if |remaining| < WAITING_CAPACITY {
        remaining := remaining + [c];
      }
    }
    NobodyLeft(m, leaving, kept, free, queue, next, available, remaining);
  }

  lemma {:induction false} NobodyLeft(m: Members, leaving: set<PlayerId>, kept: map<PhysicalSeat, Member>,
      free: seq<PhysicalSeat>, queue: seq<Candidate>,
      next: map<PhysicalSeat, Member>, left: seq<PhysicalSeat>, remaining: seq<Candidate>)
    requires kept == Staying(m.seats, leaving) && free == FreeFrom(kept, 1) && queue == StillWaiting(m.waiting, leaving)
    ensures OnTheWay(kept, free, queue, next, left, StillWaiting(m.waiting[|m.waiting|..], leaving), remaining)
            ==> next == Reconciled(m, leaving).seats && remaining == Reconciled(m, leaving).waiting
  {
    assert StillWaiting(m.waiting[|m.waiting|..], leaving) == [];
    hide FreeFrom, StillWaiting;
  }

  // ----- Joining the queue -----

  ghost predicate Unseated(seats: map<PhysicalSeat, Member>, c: Candidate) {
    forall s :: s in seats ==> seats[s].player != c.player && seats[s].device != c.device
  }

  /** Candidate `i` stays in the queue: not seated, first of all unseated candidates of that player, and with a
      device that no candidate kept before has. */
  ghost predicate Kept(seats: map<PhysicalSeat, Member>, waiting: seq<Candidate>, i: nat)
    requires i < |waiting|
  {
    && Unseated(seats, waiting[i])
    && (forall j :: 0 <= j < i && Unseated(seats, waiting[j]) ==> waiting[j].player != waiting[i].player)
    && (forall j :: 0 <= j < i && Kept(seats, waiting, j) ==> waiting[j].device != waiting[i].device)
  }

  ghost function KeptOf(seats: map<PhysicalSeat, Member>, waiting: seq<Candidate>, n: nat): seq<Candidate>
    requires n <= |waiting|
  {
    if n == 0 then []
    else if Kept(seats, waiting, n - 1) then KeptOf(seats, waiting, n - 1) + [waiting[n - 1]]
    else KeptOf(seats, waiting, n - 1)
  }

  /** What the loop has recorded after `n` candidates. */
  ghost predicate Recorded(seats: map<PhysicalSeat, Member>, waiting: seq<Candidate>, n: nat, players: set<PlayerId>, devices: set<Key>)
    requires n <= |waiting|
  {
    && (forall p :: p in players <==> exists j :: 0 <= j < n && Unseated(seats, waiting[j]) && waiting[j].player == p)
    && (forall d :: d in devices <==> exists j :: 0 <= j < n && Kept(seats, waiting, j) && waiting[j].device == d)
  }

  lemma {:induction false} RecordOne(seats: map<PhysicalSeat, Member>, waiting: seq<Candidate>, n: nat,
      players: set<PlayerId>, devices: set<Key>)
    requires n < |waiting| && Recorded(seats, waiting, n, players, devices)
    ensures var c := waiting[n];
            && (Kept(seats, waiting, n) <==> Unseated(seats, c) && c.player !in players && c.device !in devices)
            && Recorded(seats, waiting, n + 1, if Unseated(seats, c) then players + {c.player} else players,
                        if Kept(seats, waiting, n) then devices + {c.device} else devices)
  {
    hide Unseated, Kept, Recorded;
    KeptByRecord(seats, waiting, n, players, devices);
    RecordGrows(seats, waiting, n, players, devices);
  }

  lemma {:induction false} KeptByRecord(seats: map<PhysicalSeat, Member>, waiting: seq<Candidate>, n: nat,
      players: set<PlayerId>, devices: set<Key>)
    requires n < |waiting| && Recorded(seats, waiting, n, players, devices)
    ensures var c := waiting[n]; Kept(seats, waiting, n) <==> Unseated(seats, c) && c.player !in players && c.device !in devices
  {
    hide Unseated;
  }

  lemma {:induction false} RecordGrows(seats: map<PhysicalSeat, Member>, waiting: seq<Candidate>, n: nat,
      players: set<PlayerId>, devices: set<Key>)
    requires n < |waiting| && Recorded(seats, waiting, n, players, devices)
    ensures var c := waiting[n];
            Recorded(seats, waiting, n + 1, if Unseated(seats, c) then players + {c.player} else players,
                     if Kept(seats, waiting, n) then devices + {c.device} else devices)
  {
    hide Unseated, Kept;
  }

  method Deduplicate(seats: map<PhysicalSeat, Member>, waiting: seq<Candidate>) returns (kept: seq<Candidate>)
    ensures kept == KeptOf(seats, waiting, |waiting|)
  {
    hide Kept, Recorded;
    var players, devices := {}, {};
    kept := [];
    assert Recorded(seats, waiting, 0, players, devices) by { NothingRecorded(seats, waiting); }
    for i := 0 to |waiting|
      invariant kept == KeptOf(seats, waiting, i) && Recorded(seats, waiting, i, players, devices)
    {
      var c := waiting[i];
      RecordOne(seats, waiting, i, players, devices);
      if exists s :: s in seats && (seats[s].player == c.player || seats[s].device == c.device) { continue; }
      assert Unseated(seats, c);
      var known := c.player in players;
      players := players + {c.player};
      if known || c.device in devices { continue; }
      devices := devices + {c.device};
      kept := kept + [c];
    }
  }

  lemma {:induction false} NothingRecorded(seats: map<PhysicalSeat, Member>, waiting: seq<Candidate>)
    ensures Recorded(seats, waiting, 0, {}, {})
  {
  }

  /** Each kept candidate has its place in the list; places of the kept list are in order. */
  lemma {:induction false} KeptPlace(seats: map<PhysicalSeat, Member>, waiting: seq<Candidate>, n: nat,
      k: nat) returns (i: nat)
    requires n <= |waiting| && k < |KeptOf(seats, waiting, n)|
    ensures i < n && Kept(seats, waiting, i) && waiting[i] == KeptOf(seats, waiting, n)[k] && |KeptOf(seats, waiting, i)| == k
  {
    hide Kept;
    if Kept(seats, waiting, n - 1) && k == |KeptOf(seats, waiting, n - 1)| {
      i := n - 1;
    } else {
      i := KeptPlace(seats, waiting, n - 1, k);
    }
  }

  lemma {:induction false} KeptGrows(seats: map<PhysicalSeat, Member>, waiting: seq<Candidate>, i: nat, j: nat)
    requires i <= j <= |waiting|
    ensures |KeptOf(seats, waiting, i)| <= |KeptOf(seats, waiting, j)|
    decreases j
  {
    hide Kept;
    if i < j { KeptGrows(seats, waiting, i, j - 1); }
  }

  /** The kept candidates are apart from one another and from everybody seated, and stay in claim order. */
  lemma {:induction false} KeptIsConsistent(seats: map<PhysicalSeat, Member>, waiting: seq<Candidate>)
    requires ByClaim(waiting)
    ensures var r := KeptOf(seats, waiting, |waiting|); QueueApart(r) && NotSeated(seats, r) && ByClaim(r)
  {
    hide KeptOf;
    var n := |waiting|;
    var r := KeptOf(seats, waiting, n);
    forall k, l | 0 <= k < l < |r|
      ensures r[k].player != r[l].player && r[k].device != r[l].device && r[k].claim <= r[l].claim
    {
      var i := KeptPlace(seats, waiting, n, k);
      var j := KeptPlace(seats, waiting, n, l);
      if j <= i { KeptGrows(seats, waiting, j, i); }
      assert Kept(seats, waiting, i) && Kept(seats, waiting, j);
    }
    forall s, k | s in seats && 0 <= k < |r| ensures seats[s].player != r[k].player && seats[s].device != r[k].device {
      var i := KeptPlace(seats, waiting, n, k);
    }
  }

  lemma {:induction false} InsertByClaim(c: Candidate, sorted: seq<Candidate>)
    requires ByClaim(sorted)
    ensures ByClaim(InsertClaim(c, sorted)) && forall x :: x in InsertClaim(c, sorted) <==> x == c || x in sorted
  {
    if |sorted| > 0 && sorted[|sorted| - 1].claim > c.claim {
      var n := |sorted| - 1;
      InsertByClaim(c, sorted[..n]);
      var front := InsertClaim(c, sorted[..n]);
      forall i | 0 <= i < |front| ensures front[i].claim <= sorted[n].claim { assert front[i] in front; }
    }
  }

  lemma {:induction false} SortByClaim(waiting: seq<Candidate>)
    ensures ByClaim(SortClaims(waiting)) && forall x :: x in SortClaims(waiting) <==> x in waiting
  {
    hide InsertClaim;
    if |waiting| > 0 {
      SortByClaim(waiting[..|waiting| - 1]);
      InsertByClaim(waiting[|waiting| - 1], SortClaims(waiting[..|waiting| - 1]));
    }
  }

  /** New candidates join the queue in claim order. With proper seats this fails only when the version number runs
      out or more than six would wait. */
  method QueueJoins(m: Members, joins: seq<Candidate>) returns (r: Answer)
    ensures var queue := KeptOf(m.seats, SortClaims(m.waiting + joins), |SortClaims(m.waiting + joins)|);
            && (r.Ready? <==> m.version < U64_MAX && SeatsKeyed(m.seats) && SeatsApart(m.seats) && |queue| <= WAITING_CAPACITY)
            && (r.Ready? ==> r.members == m.(version := m.version + 1, waiting := queue) && Valid(r.members))
  {
    hide KeptOf;
    if m.version >= U64_MAX { return Failed(VersionOverflow); }
    var sorted := SortClaims(m.waiting + joins);
    SortByClaim(m.waiting + joins);
    var queue := Deduplicate(m.seats, sorted);
    KeptIsConsistent(m.seats, sorted);
    var error := CheckMembers(m.seats, queue);
    if error.Some? { return Failed(error.value); }
    r := Ready(m.(version := m.version + 1, waiting := queue));
  }

  /** A candidate can lose the place in the queue without sharing player or device with anybody seated or kept: the
      second of these three is refused for the first one's device, and still blocks the third. */
  lemma {:induction false} DroppedWithoutRival()
    ensures var queue := [Candidate(1, 10, 100, 0), Candidate(2, 20, 100, 0), Candidate(3, 20, 300, 0)];
            KeptOf(map[], queue, 3) == [queue[0]]
  {
    var queue := [Candidate(1, 10, 100, 0), Candidate(2, 20, 100, 0), Candidate(3, 20, 300, 0)];
    var seats: map<PhysicalSeat, Member> := map[];
    assert forall c :: Unseated(seats, c);
    assert Kept(seats, queue, 0);
    assert !Kept(seats, queue, 1);
    assert !Kept(seats, queue, 2);
    assert KeptOf(seats, queue, 0) == [];
    assert KeptOf(seats, queue, 1) == [queue[0]];
    assert KeptOf(seats, queue, 2) == [queue[0]];
  }
}
