/** Sums over the seats of a table, and what an award does to them. */
module Books {
  import opened Chips
  import opened Holdem

  function SumStacks(seats: seq<Seat>): nat {
    if |seats| == 0 then 0 else SumStacks(seats[..|seats| - 1]) + seats[|seats| - 1].stack
  }

  function SumStarting(seats: seq<Seat>): nat {
    if |seats| == 0 then 0 else SumStarting(seats[..|seats| - 1]) + seats[|seats| - 1].startingStack
  }

  ghost predicate Booked(seats: seq<Seat>) {
    forall i :: 0 <= i < |seats| ==> seats[i].stack + seats[i].totalCommitted == seats[i].startingStack
  }

  lemma {:induction false} BooksBalance(seats: seq<Seat>)
    requires Booked(seats)
    ensures SumStacks(seats) + SumTotals(seats) == SumStarting(seats)
  {
    if |seats| > 0 { BooksBalance(seats[..|seats| - 1]); }
  }

  lemma {:induction false} StartingAtMost(seats: seq<Seat>, bound: nat)
    requires forall i :: 0 <= i < |seats| ==> seats[i].startingStack <= bound
    ensures SumStarting(seats) <= |seats| * bound
  {
    if |seats| > 0 { StartingAtMost(seats[..|seats| - 1], bound); }
  }

  lemma {:induction false} StackWithinSum(seats: seq<Seat>, i: nat)
    requires i < |seats|
    ensures seats[i].stack <= SumStacks(seats)
  {
    if i < |seats| - 1 { StackWithinSum(seats[..|seats| - 1], i); }
  }

  lemma {:induction false} StackUpdate(seats: seq<Seat>, i: nat, s: Seat)
    requires i < |seats|
    ensures SumStacks(seats[i := s]) == SumStacks(seats) - seats[i].stack + s.stack
  {
    var n := |seats| - 1;
    if i == n {
      assert seats[i := s][..n] == seats[..n];
    } else {
      StackUpdate(seats[..n], i, s);
      assert seats[i := s][..n] == seats[..n][i := s];
    }
  }

  lemma {:induction false} SameStarting(a: seq<Seat>, b: seq<Seat>)
    requires SameButStacks(a, b)
    ensures SumStarting(a) == SumStarting(b)
  {
    if |a| > 0 { SameStarting(a[..|a| - 1], b[..|b| - 1]); }
  }

  lemma {:induction false} DeltasAreStackChanges(seats: seq<Seat>)
    ensures SumDeltas(Settlements(seats)) == SumStacks(seats) - SumStarting(seats)
  {
    if |seats| > 0 {
      var n := |seats| - 1;
      DeltasAreStackChanges(seats[..n]);
      assert Settlements(seats)[..n] == Settlements(seats[..n]);
    }
  }

  lemma {:induction false} SeatIndexFinds(seats: seq<Seat>, i: nat)
    requires DistinctPlayers(seats) && i < |seats|
    ensures SeatIndex(seats, seats[i].player) == Some(i)
  {}

  lemma {:induction false} AwardReaches(seats: seq<Seat>, i: nat, amount: nat)
    requires DistinctPlayers(seats) && i < |seats| && seats[i].stack + amount <= U64_MAX
    ensures Award(seats, seats[i].player, amount) == Attempt(seats[i := seats[i].(stack := seats[i].stack + amount)], Ok(Unit))
  {
    SeatIndexFinds(seats, i);
  }

  /** An award moves exactly its amount to one player, provided the table's chips fit `u64`. */
  lemma {:induction false} AwardPays(seats: seq<Seat>, i: nat, amount: nat)
    requires DistinctPlayers(seats) && i < |seats|
    requires SumStacks(seats) + amount <= U64_MAX
    ensures var a := Award(seats, seats[i].player, amount);
            && a == Attempt(seats[i := seats[i].(stack := seats[i].stack + amount)], Ok(Unit))
            && SumStacks(a.state) == SumStacks(seats) + amount
  {
    StackWithinSum(seats, i);
    AwardReaches(seats, i, amount);
    StackUpdate(seats, i, seats[i].(stack := seats[i].stack + amount));
  }
}
