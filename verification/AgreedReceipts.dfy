/** Settlement across replicas: a final receipt is everyone's receipt, equivocation stops a hand, and the
    sequence numbers of a hand are bounded. */
module AgreedReceipts {
  import opened Chips
  import opened Stakes
  import opened Holdem
  import opened Betting
  import opened Runs
  import opened Receipts
  import opened Consensus
  import opened ActionLog
  import opened LogInvariant
  import opened Replication
  import opened Agreement

  // ----- Receipts -----

  lemma {:induction false} FinalFacts(r: Replica, receipts: set<Signature<Transcript>>)
    requires Tallied(r, receipts) && r.final.Some?
    ensures CoSignedBy(r.final.value, receipts) && HeaderMatches(r.table, r.final.value.receipt)
    ensures r.tally.Some? && r.final.value.receipt == r.tally.value.receipt
  {
    hide CoSignedBy, HeaderMatches, Collected, ValidReceipt;
  }

  lemma {:induction false} TallyFacts(r: Replica, receipts: set<Signature<Transcript>>)
    requires Tallied(r, receipts) && r.tally.Some?
    ensures r.settled && r.tally.value.receipt.transcript == Transcript(r.mental, r.log)
  {
    hide CoSignedBy, HeaderMatches, Collected, ValidReceipt;
  }

  /** Whoever sits at the table has signed a receipt that is final for it. */
  lemma {:induction false} SeatSigned(t: Table, c: CoSigned<Transcript>, receipts: set<Signature<Transcript>>, j: nat)
    requires CoSignedBy(c, receipts) && HeaderMatches(t, c.receipt) && j < |t.players|
    ensures exists s :: s in receipts && s.signed == c.receipt && j < |t.devices| && s.certificate.device == t.devices[j]
  {
    var o := OutcomeFor(c.receipt, t.players[j]);
    hide SignersDistinct, VerifiesFor;
    var k := OutcomeIndex(c.receipt.outcomes, t.players[j]).value;
    EveryParticipantSigned(c, receipts, k);
  }

  /** If one code-following replica has a final receipt, every code-following player has settled with that receipt,
      after the same actions and the same cards; and a second final receipt is the same. */
  lemma {:induction false} ReceiptAgreement(sys: System, i: nat, j: nat)
    requires Holds(sys) && i in sys.honest && j in sys.honest && sys.replicas[i].final.Some?
    ensures var (r, q) := (sys.replicas[i], sys.replicas[j]);
            && q.settled && q.log == r.log && q.mental == r.mental
            && q.tally.Some? && q.tally.value.receipt == r.final.value.receipt
            && r.final.value.receipt.transcript == Transcript(r.mental, r.log)
            && (q.final.Some? ==> q.final.value.receipt == r.final.value.receipt)
            && CoSignedBy(r.final.value, sys.receipts)
  {
    hide Rostered, ActionOf, InOwnLog, KeepsLog, Tallied, CoSignedBy;
    assert HoldsAt(sys, i) && HoldsAt(sys, j);
    var (r, q) := (sys.replicas[i], sys.replicas[j]);
    FinalFacts(r, sys.receipts);
    TallyFacts(r, sys.receipts);
    SeatSigned(sys.table, r.final.value, sys.receipts, j);
    var s :| s in sys.receipts && s.signed == r.final.value.receipt && j < |sys.table.devices| && s.certificate.device == sys.table.devices[j];
    assert ReceiptOf(sys, j, s);
    assert OwnReceipt(sys, j, s);
    TallyFacts(q, sys.receipts);
    if q.final.Some? { FinalFacts(q, sys.receipts); }
  }

  /** The same in every run. */
  lemma {:induction false} ReceiptAgreementInRuns(sys: System, events: seq<Event>, k: nat, strength: seq<Card> -> int,
      i: nat, j: nat)
    requires Initial(sys) && k <= |events| && i in sys.honest && j in sys.honest
    ensures var s := After(sys, events, k, strength);
            && i in s.replicas && j in s.replicas
            && (s.replicas[i].final.Some? && s.replicas[j].final.Some? ==> s.replicas[i].final.value.receipt == s.replicas[j].final.value.receipt)
            && (s.replicas[i].final.Some? ==> s.replicas[j].settled && s.replicas[j].log == s.replicas[i].log)
  {
    hide HoldsAt, Rostered, ActionOf, InOwnLog, ReceiptOf, OwnReceipt, After, Initial;
    var s := After(sys, events, k, strength);
    if s.replicas[i].final.Some? { ReceiptAgreement(s, i, j); }
  }

  // ----- Progress of a replica over a run -----

  lemma {:induction false} RunFollows(sys: System, events: seq<Event>, k: nat, l: nat, strength: seq<Card> -> int,
      i: nat)
    requires Initial(sys) && k <= l <= |events| && i in sys.honest
    ensures var (s, t) := (After(sys, events, k, strength), After(sys, events, l, strength));
            i in s.replicas && i in t.replicas && Follows(s.replicas[i], t.replicas[i])
    decreases l
  {
    hide HoldsAt, Rostered, ActionOf, InOwnLog, ReceiptOf, OwnReceipt, Initial, Follows, After, Advance;
    var s := After(sys, events, k, strength);
    if k == l {
      FollowsItself(s.replicas[i]);
    } else {
      RunFollows(sys, events, k, l - 1, strength, i);
      LastEvent(sys, events, l, strength, i);
      FollowsOn(s.replicas[i], After(sys, events, l - 1, strength).replicas[i], After(sys, events, l, strength).replicas[i]);
    }
  }

  lemma {:induction false} LastEvent(sys: System, events: seq<Event>, l: nat, strength: seq<Card> -> int, i: nat)
    requires Initial(sys) && 0 < l <= |events| && i in sys.honest
    ensures var (s, t) := (After(sys, events, l - 1, strength), After(sys, events, l, strength));
            i in s.replicas && i in t.replicas && Follows(s.replicas[i], t.replicas[i])
  {
    hide HoldsAt, Rostered, ActionOf, InOwnLog, ReceiptOf, OwnReceipt, Initial, Follows, Advance;
  }

  /** A replica that has seen an equivocation, or has settled, never adds another action, whatever reaches it. */
  lemma {:induction false} FrozenForGood(sys: System, events: seq<Event>, k: nat, l: nat, strength: seq<Card> -> int,
      i: nat)
    requires Initial(sys) && k <= l <= |events| && i in sys.honest
    ensures var (s, t) := (After(sys, events, k, strength), After(sys, events, l, strength));
            && i in s.replicas && i in t.replicas && s.replicas[i].log <= t.replicas[i].log
            && (s.replicas[i].conflict.Some? || s.replicas[i].settled ==> t.replicas[i].log == s.replicas[i].log)
            && (s.replicas[i].final.Some? ==> t.replicas[i].final == s.replicas[i].final)
  {
    hide HoldsAt, Rostered, ActionOf, InOwnLog, ReceiptOf, OwnReceipt, Initial, After;
    RunFollows(sys, events, k, l, strength, i);
  }

  // ----- What a replica does with an action -----

  /** A second action for a committed place, bound to the same state by the same seat, is recorded exactly if its
      signature is good and it says something else. */
  lemma {:induction false} EquivocationRecorded(r: Replica, b: SignedAction, env: Env, actions: set<SignedAction>)
    requires KeepsLog(r, actions) && 1 <= b.sequence <= |r.log| && r.conflict.None?
    requires var a := r.log[b.sequence - 1]; b.seat == a.seat && b.player == a.player && b.expected == a.expected
    ensures var a := r.log[b.sequence - 1];
            AcceptOrDefer(r, b.sequence, b, env).replica.conflict.Some?
            <==> (&& KnownSeat(r.table, a.seat) && VerifiesAction(b, r.table, b.sequence, a.expected, a.seat, env)
                  && Payload(b) != Payload(a))
  {
    hide Rostered, Chained, HandFollowsLog, ConflictProven, Act, HandleOutcome, PublicStateOf;
    assert r.committed[b.sequence - 1 + 1] == r.log[b.sequence - 1];
  }

  /** The next action enters the log exactly if it is signed for the present public state by the device of a seat,
      nothing blocks the hand, and the player at the table may take it. */
  lemma {:induction false} CommittedExactly(r: Replica, a: SignedAction, env: Env, actions: set<SignedAction>)
    requires KeepsLog(r, actions)
    ensures CommitAction(r, r.sequence + 1, a, env).replica.log == r.log + [a]
            <==> (&& r.conflict.None? && r.request.None? && !r.settled && r.hand.Some? && KnownSeat(r.table, a.seat)
                  && VerifiesAction(a, r.table, r.sequence + 1, PublicStateOf(r), a.seat, env)
                  && Awaiting(r.hand.value) && Legal(r.hand.value, r.table.players[a.seat - 1], a.action))
  {
    hide Rostered, Chained, ConflictProven, Act, FinishSettlement, VerifiesAction, PublicStateOf, StreetIndices;
    hide ShowdownIndices, HandFollowsLog, Awaiting, Legal, OutcomeHonest, Replay;
    assert r.sequence + 1 !in r.committed;
    assert r.log + [a] != r.log;
    if r.hand.Some? && KnownSeat(r.table, a.seat) && !r.settled {
      var player := r.table.players[a.seat - 1];
      var acted := Act(r.hand.value, player, a.action);
      OnlyAwaitingHandsAct(r, actions, player, a.action);
      if Awaiting(r.hand.value) { ActSound(r.hand.value, player, a.action); }
      if acted.result.Ok? && acted.result.value.HandComplete? {
        FinishKeeps(Appended(r, acted.state, a), acted.result.value.settlement, env);
      }
    }
  }

  // ----- The length of a log -----

  ghost function Attempts(log: seq<SignedAction>): (r: seq<(PlayerId, PlayerAction)>)
    ensures |r| == |log| && forall k :: 0 <= k < |log| ==> r[k] == (log[k].player, log[k].action)
  {
    if |log| == 0 then [] else Attempts(log[..|log| - 1]) + [(log[|log| - 1].player, log[|log| - 1].action)]
  }

  lemma {:induction false} EndedHandsDoNotWait(start: Hand, r: Run)
    requires Awaiting(start) && SoundRun(start, r) && Awaiting(r.hand)
    ensures r.Running?
  {
    hide RightsFair, Cost;
  }

  /** One accepted attempt of a run. */
  lemma {:induction false} AcceptedAttempt(h: Hand, acted: set<PlayerId>, accepted: nat, player: PlayerId,
      action: PlayerAction)
    requires Awaiting(h) && Act(h, player, action).result.Ok?
    ensures var r := Attempted(Running(h, acted, accepted), player, action);
            r.hand == Act(h, player, action).state && r.accepted == accepted + 1
  {
    hide Act, Awaiting, ActedAfter;
  }

  /** A log is a run of the betting in which every attempt was accepted. */
  lemma {:induction false} LogIsRun(t: Table, log: seq<SignedAction>, k: nat)
    requires Rostered(t) && Chained(t, log) && k <= |log|
    ensures var run := Play(Opening(t), Attempts(log), k); run.hand == Replay(t, log[..k]) && run.accepted == k
  {
    hide Rostered, Awaiting, Act, RightsFair, SoundRun, Opening, ActedAfter, Attempted, Attempts, KnownSeat;
    if k > 0 {
      LogIsRun(t, log, k - 1);
      assert Linked(t, log, k - 1);
      var before := Play(Opening(t), Attempts(log), k - 1);
      EndedHandsDoNotWait(Opening(t), before);
      AcceptedAttempt(before.hand, before.acted, before.accepted, log[k - 1].player, log[k - 1].action);
      assert log[..k][..k - 1] == log[..k - 1];
    }
  }

  lemma {:induction false} LogIsBounded(r: Replica, actions: set<SignedAction>)
    requires KeepsLog(r, actions)
    ensures r.sequence * r.table.level.bigBlind <= ChipsForActions(|r.table.players|, r.table.level)
  {
    hide Rostered, Chained, HandFollowsLog, ConflictProven, Replay, Play, RightsFair, ChipsForActions;
    var (t, log) := (r.table, r.log);
    LogIsRun(t, log, |log|);
    RosterFacts(t);
    HandsEnd(t.level, BuyIns(t), t.dealer, Opening(t), Attempts(log), |log|);
  }

  lemma {:induction false} SequenceBelowWord(r: Replica, actions: set<SignedAction>)
    requires KeepsLog(r, actions)
    ensures r.sequence < U64_MAX
  {
    hide Chained, HandFollowsLog, ConflictProven, Numbered;
    LogIsBounded(r, actions);
    RosterFacts(r.table);
    ChipsBelowWord(|r.table.players|, r.table.level, r.sequence);
  }

  /** No log outgrows the betting: each entry uses up a big blind of a fixed amount. */
  lemma {:induction false} LogsAreBounded(sys: System, i: nat)
    requires Holds(sys) && i in sys.honest
    ensures sys.replicas[i].sequence * sys.table.level.bigBlind <= ChipsForActions(|sys.table.players|, sys.table.level)
  {
    hide Rostered, ReceiptOf, OwnReceipt, ActionOf, InOwnLog, KeepsLog, Tallied, ChipsForActions;
    assert HoldsAt(sys, i);
    LogIsBounded(sys.replicas[i], sys.actions);
  }

  lemma {:induction false} RosterFacts(t: Table)
    requires Rostered(t)
    ensures ValidLevel(t.level) && FitsChips(t.level) && |BuyIns(t)| == |t.players| <= 9
  {
  }

  lemma {:induction false} ChipsBelowWord(n: nat, level: StakeLevel, sequence: nat)
    requires ValidLevel(level) && FitsChips(level) && n <= level.maxPlayers
    requires sequence * level.bigBlind <= n * ((n + 4) * level.bigBlind + level.maxBuyIn)
    ensures sequence < U64_MAX
  {
    MulMonotone(n, level.maxPlayers, level.maxBuyIn);
    ChipsAtMost(n, level.bigBlind, level.maxBuyIn);
    if sequence >= U64_MAX { TooLong(sequence, level.bigBlind); }
  }

  lemma {:induction false} ChipsAtMost(n: nat, unit: nat, most: nat)
    requires n <= 9
    ensures n * ((n + 4) * unit + most) <= 117 * unit + n * most
  {
    MulMonotone(n, 9, n + 4);
    MulMonotone(n * (n + 4), 117, unit);
    Distribute(n, (n + 4) * unit, 0 - most);
    Regroup(n, n + 4, unit);
  }

  lemma {:induction false} Regroup(a: nat, b: nat, c: nat)
    ensures a * (b * c) == (a * b) * c
  {
  }

  lemma {:induction false} TooLong(sequence: nat, unit: nat)
    requires sequence >= U64_MAX && unit >= 2
    ensures sequence * unit > 117 * unit + U64_MAX
  {
    MulMonotone(U64_MAX, sequence, unit);
  }

  /** The 64-bit sequence number never runs out, so its additions neither saturate nor wrap. */
  lemma {:induction false} SequenceFits(sys: System, i: nat)
    requires Holds(sys) && i in sys.honest
    ensures sys.replicas[i].sequence < U64_MAX
  {
    hide Rostered, ReceiptOf, OwnReceipt, ActionOf, InOwnLog, KeepsLog, Tallied;
    assert HoldsAt(sys, i);
    SequenceBelowWord(sys.replicas[i], sys.actions);
  }
}
