/** What every replica that follows the protocol keeps, whatever reaches it and in whatever order. */
module LogInvariant {
  import opened Chips
  import opened Stakes
  import opened Holdem
  import opened Betting
  import opened Runs
  import opened Receipts
  import Bytes
  import BettingBytes
  import opened Consensus
  import opened ActionLog

  // ----- The hand a log leads to -----

  /** A roster that a hand can be dealt to. */
  ghost predicate Rostered(t: Table) {
    && ValidLevel(t.level) && FitsChips(t.level)
    && |t.players| == |t.devices| == |t.buyIns|
    && Dealable(t.level, BuyIns(t), t.dealer)
    && (forall i, j :: 0 <= i < j < |t.devices| ==> t.devices[i] != t.devices[j])
  }

  ghost function Opening(t: Table): (h: Hand)
    requires Rostered(t)
    ensures Awaiting(h) && Playable(h) && RightsFair(h, {}) && Start(t.level, BuyIns(t), t.dealer) == Ok(h)
  {
    DealAwaits(t.level, BuyIns(t), t.dealer);
    Start(t.level, BuyIns(t), t.dealer).value
  }

  /** The hand after the actions of a log. */
  ghost function Replay(t: Table, log: seq<SignedAction>): (h: Hand)
    requires Rostered(t)
    ensures Playable(h)
  {
    if |log| == 0 then Opening(t)
    else
      var last := log[|log| - 1];
      Act(Replay(t, log[..|log| - 1]), last.player, last.action).state
  }

  /** Entry `k` was signed by the device of its seat for the log before it, and was legal there. */
  ghost predicate Linked(t: Table, log: seq<SignedAction>, k: nat)
    requires Rostered(t) && k < |log|
  {
    var a := log[k];
    && a.version == 3 && a.scope == t.scope && a.sequence == k + 1
    && KnownSeat(t, a.seat) && a.player == t.players[a.seat - 1]
    && a.certificate.player == a.player && a.certificate.device == t.devices[a.seat - 1]
    && a.expected.log == log[..k]
    && Awaiting(Replay(t, log[..k])) && Act(Replay(t, log[..k]), a.player, a.action).result.Ok?
  }

  ghost predicate Chained(t: Table, log: seq<SignedAction>)
    requires Rostered(t)
  {
    forall k :: 0 <= k < |log| ==> Linked(t, log, k)
  }

  lemma {:induction false} LinkedInLonger(t: Table, log: seq<SignedAction>, a: SignedAction, k: nat)
    requires Rostered(t) && k < |log| && Linked(t, log, k)
    ensures Linked(t, log + [a], k)
  {
    assert (log + [a])[..k] == log[..k];
  }

  lemma {:induction false} ChainGrows(t: Table, log: seq<SignedAction>, a: SignedAction)
    requires Rostered(t) && Chained(t, log) && Linked(t, log + [a], |log|)
    ensures Chained(t, log + [a])
  {
    hide Linked;
    forall k | 0 <= k < |log| ensures Linked(t, log + [a], k) { LinkedInLonger(t, log, a, k); }
  }

  // ----- The invariant of a replica -----

  /** The committed actions are the log, numbered from one; the last one dates the hand. */
  ghost predicate Numbered(r: Replica) {
    && r.sequence == |r.log|
    && (|r.log| > 0 ==> r.lastActionAt == Some(r.log[|r.log| - 1].issuedAt))
    && (forall k :: k in r.committed <==> 1 <= k <= |r.log|)
    && (forall k :: 0 <= k < |r.log| ==> k + 1 in r.committed && r.committed[k + 1] == r.log[k])
  }

  /** Before the showdown cards are turned the hand is the one the log leads to; after, nobody has a turn. What the hand
      is then depends on the cards (`ShownHands.Told`). */
  ghost predicate HandFollowsLog(r: Replica)
    requires Rostered(r.table)
  {
    if r.hand.None? then r.log == [] && r.request.None? && !r.settled
    else
      var h := Replay(r.table, r.log);
      || (r.hand.value == h && (Awaiting(h) || AtShowdown(h) || r.settled))
      || (AtShowdown(h) && r.hand.value.nextToAct.None? && r.request.None?)
  }

  /** The evidence names two signed actions that one device bound to the same place in the log. */
  ghost predicate Proves(t: Table, e: Evidence, a: SignedAction, b: SignedAction) {
    && e == Evidence(a.sequence, Payload(a), Payload(b)) && Payload(a) != Payload(b)
    && a.sequence == b.sequence && a.expected == b.expected && a.scope == b.scope == t.scope
    && KnownSeat(t, a.seat) && a.seat == b.seat
    && a.certificate.device == b.certificate.device == t.devices[a.seat - 1]
  }

  ghost predicate ConflictProven(r: Replica, actions: set<SignedAction>) {
    r.conflict.Some? ==> exists a, b :: a in actions && b in actions && Proves(r.table, r.conflict.value, a, b)
  }

  /** A tally is for the receipt of the own transcript; what it holds was signed by those it names. */
  ghost predicate Tallied(r: Replica, receipts: set<Signature<Transcript>>) {
    && (r.settled ==> r.request.None?)
    && (r.tally.Some? ==>
          && r.settled && Collected(r.tally.value) && ValidReceipt(r.tally.value.receipt)
          && r.tally.value.receipt.transcript == Transcript(r.mental, r.log)
          && (forall p :: p in r.tally.value.signatures ==>
                && r.tally.value.signatures[p] in receipts
                && (p != r.certificate.player ==> HeaderMatches(r.table, r.tally.value.receipt))))
    && (r.final.Some? ==>
          && r.tally.Some? && r.tally.value.finalized && r.final.value.receipt == r.tally.value.receipt
          && CoSignedBy(r.final.value, receipts) && HeaderMatches(r.table, r.final.value.receipt))
  }

  /** How a replica may change: the log grows, and stops growing on a conflict or settlement; a receipt stays. */
  ghost predicate Follows(r: Replica, r': Replica) {
    && r'.table == r.table && r'.seat == r.seat && r'.certificate == r.certificate
    && r.log <= r'.log
    && (r.conflict.Some? ==> r'.conflict.Some? && r'.log == r.log && r'.hand == r.hand)
    && (r.settled ==> r'.settled && r'.log == r.log && r'.mental == r.mental)
    && (r.tally.Some? ==> r'.tally.Some? && r'.tally.value.receipt == r.tally.value.receipt)
    && (r.final.Some? ==> r'.final == r.final)
  }

  lemma {:induction false} FollowsOn(r: Replica, s: Replica, t: Replica)
    requires Follows(r, s) && Follows(s, t)
    ensures Follows(r, t)
  {
  }

  // ----- Receipts -----

  /** What a replica has put its name to once it has settled. */
  ghost function OwnReceipts(r: Replica): set<Signature<Transcript>> {
    if r.tally.Some? then {Signature(r.certificate, r.tally.value.receipt)} else {}
  }

  lemma {:induction false} CoSignedByMore(c: CoSigned<Transcript>, few: set<Signature<Transcript>>,
      many: set<Signature<Transcript>>)
    requires CoSignedBy(c, few) && few <= many
    ensures CoSignedBy(c, many)
  {
    hide SignersDistinct, ValidReceipt, Fits;
    forall i | 0 <= i < |c.signatures| ensures VerifiesFor(c.signatures[i], c.receipt, many) {
      assert VerifiesFor(c.signatures[i], c.receipt, few);
    }
  }

  lemma {:induction false} TalliedByMore(r: Replica, few: set<Signature<Transcript>>, many: set<Signature<Transcript>>)
    requires Tallied(r, few) && few <= many
    ensures Tallied(r, many)
  {
    hide CoSignedBy, Collected, ValidReceipt, HeaderMatches;
    if r.final.Some? { CoSignedByMore(r.final.value, few, many); }
  }

  lemma {:induction false} FinalizeTallies(r: Replica, env: Env, receipts: set<Signature<Transcript>>)
    requires Tallied(r, receipts) && env.receipts <= receipts
    ensures var r' := TryFinalize(r, env).replica;
            Tallied(r', receipts) && Follows(r, r') && r' == r.(tally := r'.tally, final := r'.final)
  {
    hide CoSignedBy, Collected, ValidReceipt, Fits, Bundle, HeaderMatches;
    if r.tally.Some? {
      FinalizedIsCollected(r.tally.value);
      if CoSignedBy(Bundle(r.tally.value), env.receipts) {
        CoSignedByMore(Bundle(r.tally.value), env.receipts, receipts);
        BundleReceipt(r.tally.value);
        if |r.tally.value.signatures| == |r.tally.value.receipt.outcomes| {
          TwoSigners(r.tally.value, r.certificate.player);
        }
      }
    }
  }

  lemma {:induction false} FinalizedIsCollected(t: Tally<Transcript>)
    ensures Collected(t) ==> Collected(t.(finalized := true))
  {
  }

  /** A full tally holds the signature of somebody else. */
  lemma {:induction false} TwoSigners(t: Tally<Transcript>, own: PlayerId)
    requires ValidReceipt(t.receipt) && |t.signatures| == |t.receipt.outcomes|
    ensures exists p :: p in t.signatures && p != own
  {
    assert |t.signatures| == |t.signatures.Keys|;
    if t.signatures.Keys <= {own} { SubsetSize(t.signatures.Keys, {own}); }
  }

  lemma {:induction false} SubsetSize(a: set<nat>, b: set<nat>)
    requires a <= b
    ensures |a| <= |b|
  {
    assert |b - a| == |b| - |a| by { assert b == a + (b - a); }
  }

  lemma {:induction false} BundleReceipt(t: Tally<Transcript>)
    ensures Bundle(t).receipt == t.receipt
  {
  }

  lemma {:induction false} AddTallies(
      r: Replica, receipt: Receipt<Transcript>, s: Signature<Transcript>, env: Env, receipts: set<Signature<Transcript>>)
    requires Tallied(r, receipts) && env.receipts <= receipts && r.tally.Some? && HeaderMatches(r.table, receipt)
    ensures var added := r.(tally := Some(AddSignature(r.tally.value, receipt, s, env.receipts).0));
            Tallied(added, receipts) && Follows(r, added)
  {
    hide CoSignedBy, Collected, ValidReceipt, Fits, HeaderMatches;
    AddKeepsCollected(r.tally.value, receipt, s, env.receipts);
  }

  lemma {:induction false} AcceptTallies(
      r: Replica, receipt: Receipt<Transcript>, s: Signature<Transcript>, env: Env, receipts: set<Signature<Transcript>>)
    requires Tallied(r, receipts) && env.receipts <= receipts
    ensures var r' := AcceptReceipt(r, receipt, s, env).replica;
            Tallied(r', receipts) && Follows(r, r') && r' == r.(tally := r'.tally, final := r'.final, waiting := r'.waiting)
  {
    AcceptReceiptKeeps(r, receipt, s, env);
    hide AddSignature, TryFinalize, CoSignedBy, Collected, ValidReceipt, HeaderMatches, VerifiesFor;
    if r.tally.Some? && HeaderMatches(r.table, receipt) {
      AddTallies(r, receipt, s, env, receipts);
      var added := r.(tally := Some(AddSignature(r.tally.value, receipt, s, env.receipts).0));
      FinalizeTallies(added, env, receipts);
      FollowsOn(r, added, TryFinalize(added, env).replica);
      hide Tallied, Follows;
    }
  }

  lemma {:induction false} AcceptAllTallies(
      r: Replica, received: seq<(Receipt<Transcript>, Signature<Transcript>)>, env: Env, receipts: set<Signature<Transcript>>)
    requires Tallied(r, receipts) && env.receipts <= receipts
    ensures var r' := AcceptAll(r, received, env); Tallied(r', receipts) && Follows(r, r')
    decreases |received|
  {
    if |received| > 0 {
      AcceptTallies(r, received[0].0, received[0].1, env, receipts);
      hide AcceptReceipt, Tallied, Follows;
      var next := AcceptReceipt(r, received[0].0, received[0].1, env).replica;
      AcceptAllTallies(next, received[1..], env, receipts);
      FollowsOn(r, next, AcceptAll(r, received, env));
    }
  }

  /** Settling opens a tally for the receipt of the own transcript. */
  lemma {:induction false} FinishTallies(r: Replica, settlement: seq<PlayerSettlement>, env: Env,
      receipts: set<Signature<Transcript>>)
    requires Tallied(r, receipts) && env.receipts <= receipts && !r.settled && r.conflict.None? && r.request.None?
    ensures var r' := FinishSettlement(r, settlement, env).replica;
            Tallied(r', receipts + OwnReceipts(r')) && Follows(r, r')
    ensures var receipt := BuildReceipt(r.(settled := true), settlement);
            var r' := FinishSettlement(r, settlement, env).replica;
            receipt.Some? && Open(receipt.value, r.certificate, env.certified).Accepted? ==>
              r'.tally.Some? && r'.tally.value.receipt == receipt.value
  {
    var s := r.(settled := true);
    var receipt := BuildReceipt(s, settlement);
    hide BuildReceipt, TryFinalize, AcceptAll, InOrder, CoSignedBy, Collected, ValidReceipt, HeaderMatches;
    if receipt.Some? {
      var opening := Open(receipt.value, r.certificate, env.certified);
      if opening.Accepted? {
        var tallied := s.(tally := Some(opening.value), waiting := map[]);
        var all := receipts + {Signature(r.certificate, receipt.value)};
        assert Tallied(tallied, all);
        OpenedTallies(r, tallied, InOrder(s.waiting, Bytes.Ascending(s.waiting.Keys)), env, all);
      }
    }
  }

  lemma {:induction false} OpenedTallies(r: Replica, tallied: Replica,
      received: seq<(Receipt<Transcript>, Signature<Transcript>)>, env: Env, all: set<Signature<Transcript>>)
    requires Tallied(tallied, all) && Follows(r, tallied) && env.receipts <= all && tallied.tally.Some?
    ensures var r' := TryFinalize(AcceptAll(tallied, received, env), env).replica;
            Tallied(r', all) && Follows(r, r') && r'.tally.Some? && r'.tally.value.receipt == tallied.tally.value.receipt
            && r'.certificate == tallied.certificate
  {
    AcceptAllTallies(tallied, received, env, all);
    var accepted := AcceptAll(tallied, received, env);
    FinalizeTallies(accepted, env, all);
    hide TryFinalize, AcceptAll, Tallied;
  }

  // ----- Actions -----

  /** The part of the invariant that settling and counting signatures do not touch. */
  ghost predicate KeepsLog(r: Replica, actions: set<SignedAction>) {
    && Rostered(r.table) && r.seat < |r.table.players|
    && r.certificate.player == r.table.players[r.seat] && r.certificate.device == r.table.devices[r.seat]
    && Numbered(r) && Chained(r.table, r.log) && (forall a :: a in r.log ==> a in actions)
    && HandFollowsLog(r) && ConflictProven(r, actions)
  }

  lemma {:induction false} KeptByMore(r: Replica, few: set<SignedAction>, many: set<SignedAction>)
    requires KeepsLog(r, few) && few <= many
    ensures KeepsLog(r, many)
  {
    hide Rostered, Numbered, Chained, HandFollowsLog, Proves;
  }

  lemma {:induction false} OnlyAwaitingHandsAct(r: Replica, actions: set<SignedAction>, player: PlayerId,
      action: PlayerAction)
    requires KeepsLog(r, actions) && r.hand.Some? && !r.settled
    ensures var acted := Act(r.hand.value, player, action);
            if acted.result.Err? then acted.state == r.hand.value
            else Awaiting(r.hand.value) && r.hand.value == Replay(r.table, r.log)
                 && OutcomeHonest(r.hand.value, acted.state, acted.result.value)
  {
    var h := r.hand.value;
    if h.nextToAct.Some? {
      assert h == Replay(r.table, r.log) && Awaiting(h);
      ActSound(h, player, action);
    }
  }

  lemma {:induction false} NextEntryLinked(t: Table, log: seq<SignedAction>, a: SignedAction, expected: PublicState,
      env: Env)
    requires Rostered(t) && Awaiting(Replay(t, log)) && KnownSeat(t, a.seat) && expected.log == log
    requires VerifiesAction(a, t, |log| + 1, expected, a.seat, env)
    requires Act(Replay(t, log), t.players[a.seat - 1], a.action).result.Ok?
    ensures Linked(t, log + [a], |log|) && Replay(t, log + [a]) == Act(Replay(t, log), t.players[a.seat - 1], a.action).state
  {
    hide Act, Awaiting, Rostered;
    assert (log + [a])[..|log|] == log;
  }

  lemma {:induction false} NumberedOn(r: Replica, hand: PlayableHand, a: SignedAction)
    requires Numbered(r) && a.sequence == |r.log| + 1
    ensures Numbered(Appended(r, hand, a))
  {
  }

  lemma {:induction false} NumberedLength(r: Replica)
    requires Numbered(r)
    ensures r.sequence == |r.log|
  {
  }

  /** What one more entry does to the log. */
  lemma {:induction false} AppendKeeps(r: Replica, a: SignedAction, env: Env, actions: set<SignedAction>)
    requires KeepsLog(r, actions) && r.hand.Some? && Awaiting(r.hand.value) && r.hand.value == Replay(r.table, r.log)
    requires KnownSeat(r.table, a.seat) && VerifiesAction(a, r.table, r.sequence + 1, PublicStateOf(r), a.seat, env)
    requires env.actions <= actions && Act(r.hand.value, r.table.players[a.seat - 1], a.action).result.Ok?
    ensures Advanced(r, Appended(r, Act(r.hand.value, r.table.players[a.seat - 1], a.action).state, a), actions)
  {
    hide Act, Awaiting, Rostered, Linked, Chained, Numbered, Replay, ConflictProven, HandFollowsLog;
    hide BettingBytes.PublicBytes;
    NumberedLength(r);
    NextEntryLinked(r.table, r.log, a, PublicStateOf(r), env);
    NumberedOn(r, Act(r.hand.value, r.table.players[a.seat - 1], a.action).state, a);
    ChainGrows(r.table, r.log, a);
  }

  /** The log is one entry longer and the hand is where it leads. */
  ghost predicate Advanced(r: Replica, r': Replica, actions: set<SignedAction>)
    requires Rostered(r.table)
  {
    && r' == r.(hand := r'.hand, sequence := r'.sequence, log := r'.log, committed := r'.committed, lastActionAt := r'.lastActionAt)
    && Numbered(r') && Chained(r'.table, r'.log) && (forall b :: b in r'.log ==> b in actions) && r.log <= r'.log
    && r'.hand.Some? && r'.hand.value == Replay(r'.table, r'.log)
  }

  lemma {:induction false} AdvancedKeeps(r: Replica, r': Replica, actions: set<SignedAction>)
    requires KeepsLog(r, actions) && Advanced(r, r', actions) && r.conflict.None?
    requires Awaiting(r'.hand.value) || AtShowdown(r'.hand.value) || r'.settled
    ensures KeepsLog(r', actions)
  {
    hide Awaiting, AtShowdown, Numbered, Chained, Rostered, Replay;
  }

  lemma {:induction false} RequestKeeps(r: Replica, request: CardRequest, actions: set<SignedAction>,
      receipts: set<Signature<Transcript>>)
    requires KeepsLog(r, actions) && r.hand.Some? && r.hand.value == Replay(r.table, r.log) && !r.settled
    requires Awaiting(r.hand.value) || AtShowdown(r.hand.value)
    requires Tallied(r, receipts)
    ensures KeepsLog(r.(request := Some(request)), actions) && Tallied(r.(request := Some(request)), receipts)
  {
    hide Awaiting, AtShowdown, Chained, Rostered, Replay, CoSignedBy, Collected, ValidReceipt, HeaderMatches;
  }

  lemma {:induction false} AdvancedTallies(r: Replica, r': Replica, actions: set<SignedAction>,
      receipts: set<Signature<Transcript>>)
    requires Rostered(r.table) && Advanced(r, r', actions) && Tallied(r, receipts) && !r.settled
    ensures Tallied(r', receipts) && r'.tally.None? && r'.final.None?
  {
    hide CoSignedBy, Collected, ValidReceipt, Rostered, Numbered, Chained, Replay;
  }

  lemma {:induction false} CompletionKeeps(r: Replica, r': Replica, settlement: seq<PlayerSettlement>, env: Env,
      actions: set<SignedAction>, receipts: set<Signature<Transcript>>)
    requires KeepsLog(r, actions) && Tallied(r, receipts) && env.receipts <= receipts
    requires !r.settled && r.conflict.None? && r.request.None? && Advanced(r, r', actions)
    ensures var s := FinishSettlement(r', settlement, env).replica;
            KeepsLog(s, actions) && Tallied(s, receipts + OwnReceipts(s)) && Follows(r, s)
  {
    hide FinishSettlement, Tallied, Replay, Chained, Numbered, ConflictProven, HandFollowsLog, Rostered;
    var s := FinishSettlement(r', settlement, env).replica;
    AdvancedTallies(r, r', actions, receipts);
    FinishKeeps(r', settlement, env);
    FinishTallies(r', settlement, env, receipts);
    AdvancedOnSettling(r, r', s, actions);
    FollowsAdvance(r, r', s);
  }

  lemma {:induction false} AdvancedOnSettling(r: Replica, r': Replica, s: Replica, actions: set<SignedAction>)
    requires KeepsLog(r, actions) && Advanced(r, r', actions) && r.conflict.None? && r.request.None?
    requires s == r'.(settled := true, tally := s.tally, final := s.final, waiting := s.waiting)
    ensures KeepsLog(s, actions)
  {
    hide Awaiting, AtShowdown, Chained, Rostered, Replay;
  }

  lemma {:induction false} OutcomeKeeps(r: Replica, r': Replica, outcome: Outcome, env: Env,
      actions: set<SignedAction>, receipts: set<Signature<Transcript>>)
    requires KeepsLog(r, actions) && Tallied(r, receipts) && env.receipts <= receipts
    requires !r.settled && r.conflict.None? && r.request.None? && Advanced(r, r', actions) && r.hand.Some?
    requires OutcomeHonest(r.hand.value, r'.hand.value, outcome)
    ensures var s := HandleOutcome(r', outcome, env).replica;
            KeepsLog(s, actions) && Tallied(s, receipts + OwnReceipts(s)) && Follows(r, s)
  {
    hide FinishSettlement, StreetIndices, ShowdownIndices, Settled, Awaiting, AtShowdown, Tallied, Replay, Chained;
    hide Numbered, Rostered, ConflictProven, HandFollowsLog;
    if outcome.HandComplete? {
      CompletionKeeps(r, r', outcome.settlement, env, actions, receipts);
    } else {
      AdvancedKeeps(r, r', actions);
      AdvancedTallies(r, r', actions, receipts);
      var s := HandleOutcome(r', outcome, env).replica;
      if s.request.Some? { RequestKeeps(r', s.request.value, actions, receipts); }
      assert receipts + OwnReceipts(s) == receipts;
    }
  }

  lemma {:induction false} FollowsAdvance(r: Replica, s: Replica, t: Replica)
    requires r.log <= s.log && s == r.(hand := s.hand, sequence := s.sequence, log := s.log, committed := s.committed, lastActionAt := s.lastActionAt)
    requires Follows(s, t) && !r.settled && r.conflict.None?
    ensures Follows(r, t)
  {
  }

  // ----- Every step -----

  /** Everything a replica keeps, given what has been signed so far. */
  ghost predicate Keeps(r: Replica, actions: set<SignedAction>, receipts: set<Signature<Transcript>>) {
    KeepsLog(r, actions) && Tallied(r, receipts)
  }

  ghost predicate StepKeeps(r: Replica, s: Replica, actions: set<SignedAction>, receipts: set<Signature<Transcript>>) {
    Keeps(s, actions, receipts + OwnReceipts(s)) && Follows(r, s)
  }

  lemma {:induction false} NothingDone(r: Replica, actions: set<SignedAction>, receipts: set<Signature<Transcript>>)
    requires Keeps(r, actions, receipts)
    ensures StepKeeps(r, r, actions, receipts)
  {
    hide KeepsLog, Tallied;
    TalliedByMore(r, receipts, receipts + OwnReceipts(r));
  }

  /** An entry of the log was signed by the device of its seat, for its number. */
  lemma {:induction false} EntrySigned(r: Replica, actions: set<SignedAction>, k: nat)
    requires KeepsLog(r, actions) && 1 <= k <= |r.log|
    ensures k in r.committed && r.committed[k] in actions && r.committed[k].sequence == k && r.committed[k].scope == r.table.scope
    ensures KnownSeat(r.table, r.committed[k].seat) && r.committed[k].certificate.device == r.table.devices[r.committed[k].seat - 1]
  {
    hide Rostered, Replay, Awaiting, Act, HandFollowsLog, ConflictProven;
    assert Linked(r.table, r.log, k - 1);
    assert r.committed[k - 1 + 1] == r.log[k - 1];
  }

  lemma {:induction false} ResolveKeeps(r: Replica, sequence: nat, other: SignedAction, env: Env,
      actions: set<SignedAction>, receipts: set<Signature<Transcript>>)
    requires Keeps(r, actions, receipts) && env.actions <= actions && sequence in r.committed
    ensures StepKeeps(r, ResolveReplayed(r, sequence, r.committed[sequence], other, env).replica, actions, receipts)
  {
    NothingDone(r, actions, receipts);
    hide Rostered, Chained, HandFollowsLog, Tallied;
    assert 1 <= sequence <= |r.log|;
    EntrySigned(r, actions, sequence);
    var s := ResolveReplayed(r, sequence, r.committed[sequence], other, env).replica;
    if s != r {
      assert Proves(r.table, s.conflict.value, r.committed[sequence], other);
      ConflictKeeps(r, s, actions, receipts);
    }
  }

  lemma {:induction false} ConflictKeeps(r: Replica, s: Replica, actions: set<SignedAction>,
      receipts: set<Signature<Transcript>>)
    requires Keeps(r, actions, receipts) && s == r.(conflict := s.conflict) && s.conflict.Some? && ConflictProven(s, actions)
    ensures StepKeeps(r, s, actions, receipts)
  {
    hide Rostered, Chained, Awaiting, AtShowdown, Replay, CoSignedBy, Collected, ValidReceipt, ConflictProven;
    hide OwnReceipts, HeaderMatches;
    NothingDone(r, actions, receipts);
    assert OwnReceipts(s) == OwnReceipts(r) by { SameOwnReceipts(r, s); }
  }

  lemma {:induction false} SameOwnReceipts(r: Replica, s: Replica)
    requires r.tally == s.tally && r.certificate == s.certificate
    ensures OwnReceipts(s) == OwnReceipts(r)
  {
  }

  /** Committing an action keeps the log a chain and the hand where it leads. */
  lemma {:induction false} CommitKeeps(r: Replica, sequence: nat, a: SignedAction, env: Env,
      actions: set<SignedAction>, receipts: set<Signature<Transcript>>)
    requires Keeps(r, actions, receipts) && env.actions <= actions && env.receipts <= receipts
    ensures StepKeeps(r, CommitAction(r, sequence, a, env).replica, actions, receipts)
  {
    hide KeepsLog, Tallied, Act, PublicStateOf, VerifiesAction, ResolveReplayed, HandleOutcome, Awaiting;
    hide OutcomeHonest, Replay, Rostered, StepKeeps, Appended;
    NothingDone(r, actions, receipts);
    if sequence in r.committed {
      ResolveKeeps(r, sequence, a, env, actions, receipts);
    } else if r.conflict.None? && sequence == r.sequence + 1 && KnownSeat(r.table, a.seat) && r.hand.Some?
              && VerifiesAction(a, r.table, sequence, PublicStateOf(r), a.seat, env) && r.request.None? && !r.settled {
      var player := r.table.players[a.seat - 1];
      var acted := Act(r.hand.value, player, a.action);
      OnlyAwaitingHandsAct(r, actions, player, a.action);
      if acted.result.Ok? {
        NextCommitKeeps(r, a, env, actions, receipts);
      }
    }
  }

  /** The replica once an accepted action is in the log and its outcome handled. */
  ghost function AfterCommit(r: Replica, a: SignedAction, env: Env): Replica
    requires r.hand.Some? && KnownSeat(r.table, a.seat)
    requires Act(r.hand.value, r.table.players[a.seat - 1], a.action).result.Ok?
  {
    var acted := Act(r.hand.value, r.table.players[a.seat - 1], a.action);
    HandleOutcome(Appended(r, acted.state, a), acted.result.value, env).replica
  }

  lemma {:induction false} NextCommitKeeps(r: Replica, a: SignedAction, env: Env,
      actions: set<SignedAction>, receipts: set<Signature<Transcript>>)
    requires Keeps(r, actions, receipts) && env.actions <= actions && env.receipts <= receipts
    requires r.hand.Some? && r.conflict.None? && r.request.None? && !r.settled && KnownSeat(r.table, a.seat)
    requires VerifiesAction(a, r.table, r.sequence + 1, PublicStateOf(r), a.seat, env)
    requires Act(r.hand.value, r.table.players[a.seat - 1], a.action).result.Ok?
    ensures StepKeeps(r, AfterCommit(r, a, env), actions, receipts)
  {
    hide Tallied, Act, PublicStateOf, VerifiesAction, HandleOutcome, Awaiting, OutcomeHonest, Follows, Chained;
    hide Numbered, HandFollowsLog, ConflictProven;
    var player := r.table.players[a.seat - 1];
    var acted := Act(r.hand.value, player, a.action);
    OnlyAwaitingHandsAct(r, actions, player, a.action);
    AppendKeeps(r, a, env, actions);
    OutcomeKeeps(r, Appended(r, acted.state, a), acted.result.value, env, actions, receipts);
  }

  lemma {:induction false} AcceptOrDeferKeeps(r: Replica, sequence: nat, a: SignedAction, env: Env,
      actions: set<SignedAction>, receipts: set<Signature<Transcript>>)
    requires Keeps(r, actions, receipts) && env.actions <= actions && env.receipts <= receipts
    ensures StepKeeps(r, AcceptOrDefer(r, sequence, a, env).replica, actions, receipts)
  {
    hide CommitAction, StepKeeps, Keeps, PublicStateOf, VerifiesAction;
    NothingDone(r, actions, receipts);
    CommitKeeps(r, sequence, a, env, actions, receipts);
    DeferKeeps(r, r.deferred[sequence := a], actions, receipts);
  }

  lemma {:induction false} DeferKeepsLog(r: Replica, deferred: map<nat, SignedAction>, actions: set<SignedAction>)
    requires KeepsLog(r, actions)
    ensures KeepsLog(r.(deferred := deferred), actions)
  {
    hide Rostered, Chained, Awaiting, AtShowdown, Replay, Proves;
  }

  lemma {:induction false} DeferTallies(r: Replica, deferred: map<nat, SignedAction>,
      receipts: set<Signature<Transcript>>)
    requires Tallied(r, receipts)
    ensures Tallied(r.(deferred := deferred), receipts) && Follows(r, r.(deferred := deferred))
  {
    hide CoSignedBy, Collected, ValidReceipt, HeaderMatches;
  }

  lemma {:induction false} DeferKeeps(r: Replica, deferred: map<nat, SignedAction>,
      actions: set<SignedAction>, receipts: set<Signature<Transcript>>)
    requires Keeps(r, actions, receipts)
    ensures Keeps(r.(deferred := deferred), actions, receipts) && StepKeeps(r, r.(deferred := deferred), actions, receipts)
  {
    hide KeepsLog, Tallied, Follows, OwnReceipts;
    DeferKeepsLog(r, deferred, actions);
    DeferTallies(r, deferred, receipts);
    NothingDone(r.(deferred := deferred), actions, receipts);
  }

  lemma {:induction false} StepsCompose(r: Replica, s: Replica, t: Replica, actions: set<SignedAction>,
      receipts: set<Signature<Transcript>>)
    requires StepKeeps(r, s, actions, receipts) && StepKeeps(s, t, actions, receipts + OwnReceipts(s))
    ensures StepKeeps(r, t, actions, receipts)
  {
    hide KeepsLog, Tallied;
    FollowsOn(r, s, t);
    if s.tally.Some? { assert receipts + OwnReceipts(s) + OwnReceipts(t) == receipts + OwnReceipts(t); }
    else { assert receipts + OwnReceipts(s) == receipts; }
  }

  lemma {:induction false} CommitDeferredKeeps(r: Replica, env: Env, actions: set<SignedAction>,
      receipts: set<Signature<Transcript>>)
    requires Keeps(r, actions, receipts) && env.actions <= actions && env.receipts <= receipts
    ensures StepKeeps(r, CommitDeferred(r, env).replica, actions, receipts)
    decreases |r.deferred|
  {
    hide CommitAction, Keeps, PublicStateOf, Follows, OwnReceipts;
    NothingDone(r, actions, receipts);
    var next := r.sequence + 1;
    if !r.request.Some? && !r.settled && next in r.deferred && r.hand.Some? && PublicStateOf(r) == r.deferred[next].expected {
      var taken := r.(deferred := r.deferred - {next});
      TakeOne(r.deferred, next);
      DeferKeeps(r, taken.deferred, actions, receipts);
      CommitKeeps(taken, next, r.deferred[next], env, actions, receipts);
      CommitKeepsDeferred(taken, next, r.deferred[next], env);
      var step := CommitAction(taken, next, r.deferred[next], env);
      TakenFirst(r, taken, step.replica, actions, receipts);
      if step.refusal.None? {
        var all := receipts + OwnReceipts(step.replica);
        CommitDeferredKeeps(step.replica, env, actions, all);
        StepsCompose(r, step.replica, CommitDeferred(step.replica, env).replica, actions, receipts);
      }
    }
  }

  lemma {:induction false} TakenFirst(r: Replica, taken: Replica, s: Replica, actions: set<SignedAction>,
      receipts: set<Signature<Transcript>>)
    requires taken == r.(deferred := taken.deferred) && StepKeeps(taken, s, actions, receipts)
    ensures StepKeeps(r, s, actions, receipts)
  {
    hide Keeps;
  }

  /** Committing the next action either changes nothing or appends it. */
  lemma {:induction false} CommitNextAppends(r: Replica, a: SignedAction, env: Env, actions: set<SignedAction>)
    requires KeepsLog(r, actions)
    ensures var s := CommitAction(r, r.sequence + 1, a, env).replica; s == r || s.log == r.log + [a]
  {
    hide Act, PublicStateOf, VerifiesAction, FinishSettlement, Awaiting, OutcomeHonest, Replay, Rostered;
    hide StreetIndices, ShowdownIndices, Chained, HandFollowsLog, ConflictProven;
    assert r.sequence + 1 !in r.committed;
    if r.hand.Some? && KnownSeat(r.table, a.seat) && !r.settled {
      var player := r.table.players[a.seat - 1];
      var acted := Act(r.hand.value, player, a.action);
      OnlyAwaitingHandsAct(r, actions, player, a.action);
      if acted.result.Ok? && acted.result.value.HandComplete? {
        FinishKeeps(Appended(r, acted.state, a), acted.result.value.settlement, env);
      }
    }
  }

  /** A player who acts leaves no signature behind unless the action is in their own log. */
  lemma {:induction false} CommitLocalKeeps(r: Replica, action: PlayerAction, connected: bool, ready: bool, env: Env,
      actions: set<SignedAction>, receipts: set<Signature<Transcript>>)
    requires Keeps(r, actions, receipts) && env.actions <= actions && env.receipts <= receipts
    ensures var s := CommitLocal(r, action, connected, ready, env).replica;
            || (s.log == r.log && StepKeeps(r, s, actions, receipts))
            || (&& r.hand.Some? && s.log == r.log + [OwnAction(r, action, env)]
                && StepKeeps(r, s, actions + {OwnAction(r, action, env)}, receipts))
  {
    hide KeepsLog, Tallied, PublicStateOf, StepKeeps, CommitAction, OwnAction;
    NothingDone(r, actions, receipts);
    if r.hand.Some? {
      var signed := OwnAction(r, action, env);
      var env' := env.(actions := env.actions + {signed});
      KeptByMore(r, actions, actions + {signed});
      CommitKeeps(r, r.sequence + 1, signed, env', actions + {signed}, receipts);
      CommitNextAppends(r, signed, env', actions);
    }
  }

  lemma {:induction false} DealKeeps(r: Replica, shares: seq<nat>, actions: set<SignedAction>,
      receipts: set<Signature<Transcript>>)
    requires Keeps(r, actions, receipts)
    ensures StepKeeps(r, Deal(r, shares).replica, actions, receipts)
  {
    hide Awaiting, AtShowdown, Chained, Rostered, CoSignedBy, Collected, ValidReceipt, OutcomeFor, Fits, Start;
    hide Dealable;
    NothingDone(r, actions, receipts);
    if r.hand.None? && r.conflict.None? {
      var opening := Opening(r.table);
      assert r.tally.None? && r.final.None?;
      assert Replay(r.table, []) == opening;
    }
  }

  lemma {:induction false} SettledKeeps(r: Replica, s: Replica, actions: set<SignedAction>)
    requires KeepsLog(r, actions) && r.hand.Some? && r.request.None?
    requires s == r.(settled := true, tally := s.tally, final := s.final, waiting := s.waiting)
    ensures KeepsLog(s, actions)
  {
    hide Awaiting, AtShowdown, Chained, Rostered, Replay;
  }

  /** Shown cards change the transcript of the cards but not the log. */
  lemma {:induction false} ShowKeeps(r: Replica, s: Replica, actions: set<SignedAction>,
      receipts: set<Signature<Transcript>>)
    requires Keeps(r, actions, receipts) && r.request.Some?
    requires s == r.(mental := s.mental, cards := s.cards, request := s.request) && (s.request == r.request || s.request.None?)
    ensures Keeps(s, actions, receipts) && !s.settled && s.tally.None? && s.final.None? && (r.conflict.None? ==> Follows(r, s))
  {
    hide Awaiting, AtShowdown, Chained, Rostered, Replay, CoSignedBy, Collected, ValidReceipt, HeaderMatches;
  }

  /** Who holds the cards at the showdown has no turn left. */
  lemma {:induction false} ShownHandRests(r: Replica, s: Replica, actions: set<SignedAction>,
      receipts: set<Signature<Transcript>>)
    requires Keeps(r, actions, receipts) && r.request.Some? && r.hand.Some? && r.hand.value.street.Showdown?
    requires s == r.(mental := s.mental, cards := s.cards, request := None, hand := s.hand)
    requires s.hand.Some? && s.hand.value.nextToAct == r.hand.value.nextToAct
    ensures Keeps(s, actions, receipts) && !s.settled && s.tally.None? && s.final.None? && (r.conflict.None? ==> Follows(r, s))
  {
    hide Chained, Rostered, Replay, CoSignedBy, Collected, ValidReceipt, HeaderMatches;
  }

  lemma {:induction false} SettleShownKeeps(r: Replica, s: Replica, strength: seq<Card> -> int, env: Env,
      actions: set<SignedAction>, receipts: set<Signature<Transcript>>)
    requires Keeps(r, actions, receipts) && r.request.Some? && r.conflict.None? && env.receipts <= receipts
    requires s == r.(mental := s.mental, cards := s.cards, request := None)
    ensures StepKeeps(r, SettleShown(s, strength, env).replica, actions, receipts)
  {
    hide KeepsLog, Tallied, FinishSettlement, AllShown, SettleShowdown, Holes, Board, Follows, OwnReceipts;
    ShowKeeps(r, s, actions, receipts);
    NothingDone(s, actions, receipts);
    StepFrom(r, s, s, actions, receipts);
    var n := |s.table.players|;
    if s.hand.Some? && AllShown(s.hand.value, n, s.cards) {
      var h := s.hand.value;
      ShownHoles(h, n, s.cards);
      var board := Board(n, s.cards);
      var holes := Holes(h.seats, s.cards);
      var settled := SettleShowdown(h, board, holes, strength);
      ShowdownStaysPlayable(h, board, holes, strength);
      if h.street.Showdown? {
        SettlementKeeps(r, s.(hand := Some(settled.state)), if settled.result.Ok? then settled.result.value else [], env, actions, receipts);
      } else {
        NotAtShowdown(h, board, holes, strength);
      }
    }
  }

  lemma {:induction false} NotAtShowdown(h: PlayableHand, board: seq<Card>, holes: map<PlayerId, (Card, Card)>,
      strength: seq<Card> -> int)
    requires !h.street.Showdown?
    ensures SettleShowdown(h, board, holes, strength) == Attempt(h, Err(ShowdownNotReady))
  {
  }

  lemma {:induction false} StepFrom(r: Replica, s: Replica, t: Replica, actions: set<SignedAction>,
      receipts: set<Signature<Transcript>>)
    requires Follows(r, s) && StepKeeps(s, t, actions, receipts)
    ensures StepKeeps(r, t, actions, receipts)
  {
    hide Keeps;
    FollowsOn(r, s, t);
  }

  lemma {:induction false} SettlementKeeps(r: Replica, s: Replica, settlement: seq<PlayerSettlement>, env: Env,
      actions: set<SignedAction>, receipts: set<Signature<Transcript>>)
    requires Keeps(r, actions, receipts) && r.request.Some? && r.conflict.None? && env.receipts <= receipts
    requires r.hand.Some? && r.hand.value.street.Showdown?
    requires s == r.(mental := s.mental, cards := s.cards, request := None, hand := s.hand)
    requires s.hand.Some? && s.hand.value.nextToAct == r.hand.value.nextToAct
    ensures StepKeeps(r, s, actions, receipts) && StepKeeps(r, FinishSettlement(s, settlement, env).replica, actions, receipts)
  {
    hide KeepsLog, Tallied, FinishSettlement, Follows, OwnReceipts;
    ShownHandRests(r, s, actions, receipts);
    NothingDone(s, actions, receipts);
    StepFrom(r, s, s, actions, receipts);
    FinishKeeps(s, settlement, env);
    FinishTallies(s, settlement, env, receipts);
    SettledKeeps(s, FinishSettlement(s, settlement, env).replica, actions);
    StepFrom(r, s, FinishSettlement(s, settlement, env).replica, actions, receipts);
  }

  lemma {:induction false} UncoverKeeps(r: Replica, shares: seq<nat>, found: map<nat, Card>,
      strength: seq<Card> -> int, env: Env,
      actions: set<SignedAction>, receipts: set<Signature<Transcript>>)
    requires Keeps(r, actions, receipts) && env.receipts <= receipts
    ensures StepKeeps(r, Uncover(r, shares, found, strength, env).replica, actions, receipts)
  {
    hide Keeps, SettleShown, Follows;
    NothingDone(r, actions, receipts);
    if r.conflict.None? && r.request.Some? {
      var wanted := r.request.value;
      var shown := r.(mental := r.mental + shares,
                      cards := r.cards + (map k | k in found && k in wanted.indices && k !in r.cards :: found[k]));
      ShowKeeps(r, shown, actions, receipts);
      NothingDone(shown, actions, receipts);
      StepFrom(r, shown, shown, actions, receipts);
      var done := shown.(request := None);
      ShowKeeps(r, done, actions, receipts);
      NothingDone(done, actions, receipts);
      StepFrom(r, done, done, actions, receipts);
      SettleShownKeeps(r, done, strength, env, actions, receipts);
    }
  }

  lemma {:induction false} AcceptReceiptStepKeeps(r: Replica, receipt: Receipt<Transcript>, s: Signature<Transcript>,
      env: Env,
      actions: set<SignedAction>, receipts: set<Signature<Transcript>>)
    requires Keeps(r, actions, receipts) && env.receipts <= receipts
    ensures StepKeeps(r, AcceptReceipt(r, receipt, s, env).replica, actions, receipts)
  {
    hide AcceptReceipt, Tallied;
    AcceptTallies(r, receipt, s, env, receipts);
    var t := AcceptReceipt(r, receipt, s, env).replica;
    CountedKeeps(r, t, actions);
    TalliedByMore(t, receipts, receipts + OwnReceipts(t));
  }

  lemma {:induction false} CountedKeeps(r: Replica, s: Replica, actions: set<SignedAction>)
    requires KeepsLog(r, actions) && s == r.(tally := s.tally, final := s.final, waiting := s.waiting)
    ensures KeepsLog(s, actions)
  {
    hide Awaiting, AtShowdown, Chained, Rostered, Replay;
  }
}
