/** Settlement receipts: when one is well formed, and who has signed it. `H` is the transcript digest. */
module Receipts {
  import opened Chips
  import opened Stakes
  import opened Holdem
  import opened Bytes

  /** A device public key. */
  type Key = nat

  /** A player's statement that a device acts for them; `serial` stands for the fields nothing here reads. */
  datatype Certificate = Certificate(player: PlayerId, device: Key, serial: nat)

  datatype HandOutcome = HandOutcome(player: PlayerId, device: Key, startingStack: nat, endingStack: nat)

  function Delta(o: HandOutcome): int { o.endingStack - o.startingStack }

  datatype Receipt<H> = Receipt(
    version: nat, matchId: nat, handNumber: nat, levelId: string, transcript: H, settledAt: nat, outcomes: seq<HandOutcome>)

  datatype ReceiptError =
    | UnsupportedVersion | EmptyStakeLevelId | NotEnoughPlayers | DuplicatePlayer(player: PlayerId)
    | NonCanonicalPlayerOrder | DuplicateDevice(device: Key) | NotZeroSum(totalStart: nat, totalEnd: nat) | Overflow

  const U128_MAX: nat := 0xFFFF_FFFF_FFFF_FFFF_FFFF_FFFF_FFFF_FFFF

  function StartTotal(outcomes: seq<HandOutcome>): nat {
    if |outcomes| == 0 then 0 else StartTotal(outcomes[..|outcomes| - 1]) + outcomes[|outcomes| - 1].startingStack
  }

  function EndTotal(outcomes: seq<HandOutcome>): nat {
    if |outcomes| == 0 then 0 else EndTotal(outcomes[..|outcomes| - 1]) + outcomes[|outcomes| - 1].endingStack
  }

  // ----- Well-formed receipts -----

  predicate PlayersAscend(outcomes: seq<HandOutcome>) {
    forall i, j :: 0 <= i < j < |outcomes| ==> outcomes[i].player < outcomes[j].player
  }

  predicate DevicesDistinct(outcomes: seq<HandOutcome>) {
    forall i, j :: 0 <= i < j < |outcomes| ==> outcomes[i].device != outcomes[j].device
  }

  predicate ValidReceipt<H>(r: Receipt<H>) {
    && r.version == 1 && !Blank(r.levelId) && |r.outcomes| >= 2
    && PlayersAscend(r.outcomes) && DevicesDistinct(r.outcomes)
    && StartTotal(r.outcomes) == EndTotal(r.outcomes) <= U128_MAX
  }

  lemma {:induction false} TotalsGrow(outcomes: seq<HandOutcome>, k: nat)
    requires k <= |outcomes|
    ensures StartTotal(outcomes[..k]) <= StartTotal(outcomes) && EndTotal(outcomes[..k]) <= EndTotal(outcomes)
  {
    if k == |outcomes| {
      assert outcomes[..k] == outcomes;
    } else {
      TotalsGrow(outcomes[..|outcomes| - 1], k);
      assert outcomes[..|outcomes| - 1][..k] == outcomes[..k];
    }
  }

  method CheckOrder(outcomes: seq<HandOutcome>) returns (error: Option<ReceiptError>)
    requires |outcomes| > 0
    ensures error.None? <==> PlayersAscend(outcomes)
    ensures error.Some? ==> error.value.DuplicatePlayer? || error.value.NonCanonicalPlayerOrder?
  {
    for i := 1 to |outcomes|
      invariant PlayersAscend(outcomes[..i])
    {
      if outcomes[i - 1].player == outcomes[i].player { return Some(ReceiptError.DuplicatePlayer(outcomes[i].player)); }
      if outcomes[i - 1].player > outcomes[i].player { return Some(NonCanonicalPlayerOrder); }
    }
    assert outcomes[..|outcomes|] == outcomes;
    return None;
  }

  method CheckBooks(outcomes: seq<HandOutcome>) returns (error: Option<ReceiptError>)
    ensures error.None? <==> DevicesDistinct(outcomes) && StartTotal(outcomes) == EndTotal(outcomes) <= U128_MAX
    ensures error.Some? && error.value.NotZeroSum? ==> StartTotal(outcomes) != EndTotal(outcomes)
    ensures error.Some? && error.value.Overflow? ==> StartTotal(outcomes) > U128_MAX || EndTotal(outcomes) > U128_MAX
  {
    var devices: set<Key> := {};
    var totalStart, totalEnd := 0, 0;
    for i := 0 to |outcomes|
      invariant devices == set k | 0 <= k < i :: outcomes[k].device
      invariant DevicesDistinct(outcomes[..i])
      invariant totalStart == StartTotal(outcomes[..i]) <= U128_MAX && totalEnd == EndTotal(outcomes[..i]) <= U128_MAX
    {
      var o := outcomes[i];
      if o.device in devices { return Some(DuplicateDevice(o.device)); }
      devices := devices + {o.device};
      assert outcomes[..i + 1][..i] == outcomes[..i];
      TotalsGrow(outcomes, i + 1);
      if totalStart + o.startingStack > U128_MAX { return Some(Overflow); }
      totalStart := totalStart + o.startingStack;
      if totalEnd + o.endingStack > U128_MAX { return Some(Overflow); }
      totalEnd := totalEnd + o.endingStack;
    }
    assert outcomes[..|outcomes|] == outcomes;
    if totalStart != totalEnd { return Some(NotZeroSum(totalStart, totalEnd)); }
    return None;
  }

  /** The check every receipt passes before it is signed or believed. It accepts exactly the well-formed ones. */
  method Validate<H>(r: Receipt<H>) returns (error: Option<ReceiptError>)
    ensures error.None? <==> ValidReceipt(r)
    ensures error.Some? && error.value.NotZeroSum? ==> StartTotal(r.outcomes) != EndTotal(r.outcomes)
    ensures error.Some? && error.value.Overflow? ==> StartTotal(r.outcomes) > U128_MAX || EndTotal(r.outcomes) > U128_MAX
  {
    if r.version != 1 { return Some(UnsupportedVersion); }
    if Blank(r.levelId) { return Some(EmptyStakeLevelId); }
    if |r.outcomes| < 2 { return Some(NotEnoughPlayers); }
    error := CheckOrder(r.outcomes);
    if error.Some? { return; }
    error := CheckBooks(r.outcomes);
  }

  // ----- Finding a player -----

  function OutcomeIndex(outcomes: seq<HandOutcome>, player: PlayerId, from: nat := 0): (r: Option<nat>)
    requires from <= |outcomes|
    ensures r.Some? ==> from <= r.value < |outcomes| && outcomes[r.value].player == player
    ensures r.None? ==> forall i :: from <= i < |outcomes| ==> outcomes[i].player != player
    decreases |outcomes| - from
  {
    if from == |outcomes| then None
    else if outcomes[from].player == player then Some(from)
    else OutcomeIndex(outcomes, player, from + 1)
  }

  function OutcomeFor<H>(r: Receipt<H>, player: PlayerId): (o: Option<HandOutcome>)
    ensures o.Some? ==> o.value in r.outcomes && o.value.player == player
    ensures o.None? <==> forall i :: 0 <= i < |r.outcomes| ==> r.outcomes[i].player != player
  {
    var i := OutcomeIndex(r.outcomes, player);
    if i.Some? then Some(r.outcomes[i.value]) else None
  }

  /** The program looks the player up by halving, which needs the canonical order and then finds the one outcome there is. */
  method FindOutcome<H>(r: Receipt<H>, player: PlayerId) returns (o: Option<HandOutcome>)
    requires PlayersAscend(r.outcomes)
    ensures o == OutcomeFor(r, player)
  {
    var low, high := 0, |r.outcomes|;
    while low < high
      invariant 0 <= low <= high <= |r.outcomes|
      invariant forall i :: 0 <= i < low ==> r.outcomes[i].player < player
      invariant forall i :: high <= i < |r.outcomes| ==> player < r.outcomes[i].player
    {
      var middle := low + (high - low) / 2;
      if r.outcomes[middle].player == player { return Some(r.outcomes[middle]); }
      if r.outcomes[middle].player < player { low := middle + 1; } else { high := middle; }
    }
    return None;
  }

  // ----- Building a receipt -----

  function InsertOutcome(o: HandOutcome, sorted: seq<HandOutcome>): (r: seq<HandOutcome>)
    ensures |r| == |sorted| + 1
  {
    if |sorted| == 0 then [o]
    else if o.player < sorted[|sorted| - 1].player then
      InsertOutcome(o, sorted[..|sorted| - 1]) + [sorted[|sorted| - 1]]
    else sorted + [o]
  }

  /** The outcomes by player; equal players stay in their order. */
  function SortOutcomes(outcomes: seq<HandOutcome>): (r: seq<HandOutcome>)
    ensures |r| == |outcomes|
  {
    if |outcomes| == 0 then []
    else InsertOutcome(outcomes[|outcomes| - 1], SortOutcomes(outcomes[..|outcomes| - 1]))
  }

  lemma {:induction false} InsertMembers(o: HandOutcome, sorted: seq<HandOutcome>)
    ensures multiset(InsertOutcome(o, sorted)) == multiset(sorted) + multiset{o}
  {
    if |sorted| > 0 && o.player < sorted[|sorted| - 1].player {
      var n := |sorted| - 1;
      InsertMembers(o, sorted[..n]);
      assert sorted == sorted[..n] + [sorted[n]];
    }
  }

  /** Sorting neither loses nor invents an outcome. */
  lemma {:induction false} SortMembers(outcomes: seq<HandOutcome>)
    ensures multiset(SortOutcomes(outcomes)) == multiset(outcomes)
  {
    hide InsertOutcome;
    if |outcomes| > 0 {
      var n := |outcomes| - 1;
      SortMembers(outcomes[..n]);
      InsertMembers(outcomes[n], SortOutcomes(outcomes[..n]));
      assert outcomes == outcomes[..n] + [outcomes[n]];
    }
  }

  ghost predicate PlayersDistinct(outcomes: seq<HandOutcome>) {
    forall i, j :: 0 <= i < j < |outcomes| ==> outcomes[i].player != outcomes[j].player
  }

  lemma {:induction false} InsertKeepsOrder(o: HandOutcome, sorted: seq<HandOutcome>)
    requires PlayersAscend(sorted) && forall k :: 0 <= k < |sorted| ==> sorted[k].player != o.player
    ensures PlayersAscend(InsertOutcome(o, sorted))
    ensures forall x :: x in InsertOutcome(o, sorted) <==> x in sorted || x == o
  {
    if |sorted| > 0 && o.player < sorted[|sorted| - 1].player {
      var n := |sorted| - 1;
      InsertKeepsOrder(o, sorted[..n]);
      var front := InsertOutcome(o, sorted[..n]);
      forall i | 0 <= i < |front| ensures front[i].player < sorted[n].player {
        assert front[i] in front;
      }
    }
  }

  lemma {:induction false} SortAscends(outcomes: seq<HandOutcome>)
    requires PlayersDistinct(outcomes)
    ensures PlayersAscend(SortOutcomes(outcomes))
    ensures forall x :: x in SortOutcomes(outcomes) <==> x in outcomes
  {
    hide InsertOutcome;
    if |outcomes| > 0 {
      var n := |outcomes| - 1;
      SortAscends(outcomes[..n]);
      var front := SortOutcomes(outcomes[..n]);
      forall k | 0 <= k < |front| ensures front[k].player != outcomes[n].player {
        assert front[k] in outcomes[..n];
      }
      InsertKeepsOrder(outcomes[n], front);
    }
  }

  lemma {:induction false} InsertTotals(o: HandOutcome, sorted: seq<HandOutcome>)
    ensures StartTotal(InsertOutcome(o, sorted)) == StartTotal(sorted) + o.startingStack
    ensures EndTotal(InsertOutcome(o, sorted)) == EndTotal(sorted) + o.endingStack
  {
    var r := InsertOutcome(o, sorted);
    var n := |sorted|;
    if n > 0 && o.player < sorted[n - 1].player {
      InsertTotals(o, sorted[..n - 1]);
      assert r[..n] == InsertOutcome(o, sorted[..n - 1]);
    } else {
      assert r[..n] == sorted;
    }
  }

  lemma {:induction false} SortTotals(outcomes: seq<HandOutcome>)
    ensures StartTotal(SortOutcomes(outcomes)) == StartTotal(outcomes) && EndTotal(SortOutcomes(outcomes)) == EndTotal(outcomes)
  {
    hide InsertOutcome;
    if |outcomes| > 0 {
      var n := |outcomes| - 1;
      SortTotals(outcomes[..n]);
      InsertTotals(outcomes[n], SortOutcomes(outcomes[..n]));
    }
  }

  function DraftReceipt<H>(matchId: nat, handNumber: nat, levelId: string, transcript: H, settledAt: nat,
      outcomes: seq<HandOutcome>)
    : Receipt<H>
  {
    Receipt(1, matchId, handNumber, levelId, transcript, settledAt, SortOutcomes(outcomes))
  }

  /** A draft is a valid receipt exactly when the level is named, and at least two players with distinct names and
      devices end with the chips they started with, in whatever order they are listed. */
  lemma {:induction false} DraftIsValid<H>(matchId: nat, handNumber: nat, levelId: string, transcript: H,
      settledAt: nat, outcomes: seq<HandOutcome>)
    ensures ValidReceipt(DraftReceipt(matchId, handNumber, levelId, transcript, settledAt, outcomes))
            <==> (&& !Blank(levelId) && |outcomes| >= 2 && PlayersDistinct(outcomes) && DevicesDistinct(outcomes)
                  && StartTotal(outcomes) == EndTotal(outcomes) <= U128_MAX)
  {
    hide SortOutcomes, StartTotal, EndTotal, Blank;
    var sorted := SortOutcomes(outcomes);
    SortTotals(outcomes);
    SortMembers(outcomes);
    SortedDistinct(outcomes, sorted);
    if PlayersDistinct(outcomes) { SortAscends(outcomes); }
  }

  lemma {:induction false} SortedDistinct(outcomes: seq<HandOutcome>, sorted: seq<HandOutcome>)
    requires multiset(sorted) == multiset(outcomes)
    ensures PlayersAscend(sorted) ==> PlayersDistinct(outcomes)
    ensures DevicesDistinct(sorted) <==> DevicesDistinct(outcomes)
  {
    if PlayersAscend(sorted) { SameMembersDistinct(sorted, outcomes, (o: HandOutcome) => o.player); }
    if DevicesDistinct(sorted) { SameMembersDistinct(sorted, outcomes, (o: HandOutcome) => o.device); }
    if DevicesDistinct(outcomes) { SameMembersDistinct(outcomes, sorted, (o: HandOutcome) => o.device); }
  }

  /** Distinctness of a field does not depend on the order. */
  lemma {:induction false} SameMembersDistinct(a: seq<HandOutcome>, b: seq<HandOutcome>, f: HandOutcome -> nat)
    requires multiset(a) == multiset(b)
    requires forall i, j :: 0 <= i < j < |a| ==> f(a[i]) != f(a[j])
    ensures forall i, j :: 0 <= i < j < |b| ==> f(b[i]) != f(b[j])
  {
    forall i, j | 0 <= i < j < |b| ensures f(b[i]) != f(b[j]) {
      assert b[i] in multiset(b) && b[j] in multiset(b);
      assert b[i] in a && b[j] in a;
      if b[i] == b[j] {
        Twice(b, i, j);
        OnceEach(a, b[i], f);
      } else {
        var k :| 0 <= k < |a| && a[k] == b[i];
        var l :| 0 <= l < |a| && a[l] == b[j];
        assert k < l || l < k;
      }
    }
  }

  lemma {:induction false} Twice(b: seq<HandOutcome>, i: nat, j: nat)
    requires i < j < |b| && b[i] == b[j]
    ensures multiset(b)[b[i]] >= 2
  {
    assert b == b[..j] + b[j..];
    assert b[i] in multiset(b[..j]) by { assert b[..j][i] == b[i]; }
    assert b[i] in multiset(b[j..]) by { assert b[j..][0] == b[i]; }
  }

  lemma {:induction false} OnceEach(a: seq<HandOutcome>, x: HandOutcome, f: HandOutcome -> nat)
    requires forall i, j :: 0 <= i < j < |a| ==> f(a[i]) != f(a[j])
    ensures multiset(a)[x] <= 1
  {
    if |a| > 0 {
      var n := |a| - 1;
      OnceEach(a[..n], x, f);
      assert a == a[..n] + [a[n]];
      if a[n] == x {
        assert forall k :: 0 <= k < n ==> a[..n][k] == a[k] && f(a[k]) != f(a[n]);
        assert x !in a[..n];
      }
    }
  }
}
