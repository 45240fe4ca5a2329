/** What the players of a hand agree on, in every run. */
module Agreement {
  import opened Chips
  import opened Stakes
  import opened Holdem
  import opened Betting
  import opened Runs
  import opened Receipts
  import opened Consensus
  import opened ActionLog
  import opened LogInvariant
  import opened Replication

  // ----- Runs -----

  /** Before the deal: every code-following seat has a fresh replica and has signed nothing for this hand. */
  ghost predicate Initial(sys: System) {
    && Rostered(sys.table) && sys.replicas.Keys == sys.honest
    && (forall i :: i in sys.honest ==>
          && i < |sys.table.players|
          && sys.replicas[i] == FreshReplica(sys.table, i, sys.replicas[i].certificate)
          && sys.replicas[i].certificate.player == sys.table.players[i]
          && sys.replicas[i].certificate.device == sys.table.devices[i])
    && (forall i, a :: a in sys.actions ==> !ActionOf(sys, i, a))
    && (forall i, s :: s in sys.receipts ==> !ReceiptOf(sys, i, s))
  }

  /** Every roster and every choice of code-following seats has such a beginning. */
  ghost function Begin(table: Table, honest: set<nat>): (sys: System)
    requires Rostered(table) && forall i :: i in honest ==> i < |table.players|
    ensures Initial(sys) && sys.table == table && sys.honest == honest
  {
    var replicas := map i | i in honest :: FreshReplica(table, i, Certificate(table.players[i], table.devices[i], 0));
    System(table, honest, replicas, {}, {})
  }

  /** There are rosters: two players at the lowest public level. */
  lemma {:induction false} RosterExists()
    ensures exists t :: Rostered(t)
  {
    PublicLevelsFit(0);
    var level := PUBLIC_STAKE_LEVELS[0];
    var t := Table(Scope(0, 1, 0), [1, 2], [3, 4], [level.minBuyIn, level.minBuyIn], level, 0);
    assert BuyIns(t) == [(1, level.minBuyIn), (2, level.minBuyIn)];
    assert Rostered(t);
  }

  lemma {:induction false} FreshKeeps(table: Table, seat: nat, certificate: Certificate,
      actions: set<SignedAction>, receipts: set<Signature<Transcript>>)
    requires Rostered(table) && seat < |table.players|
    requires certificate.player == table.players[seat] && certificate.device == table.devices[seat]
    ensures Keeps(FreshReplica(table, seat, certificate), actions, receipts)
  {
    hide Dealable;
  }

  lemma {:induction false} InitialHolds(sys: System)
    requires Initial(sys)
    ensures Holds(sys)
  {
    hide Rostered, Keeps, ActionOf, ReceiptOf;
    forall i | i in sys.honest ensures HoldsAt(sys, i) {
      FreshKeeps(sys.table, i, sys.replicas[i].certificate, sys.actions, sys.receipts);
    }
  }

  /** The system after the first `k` events of a run. */
  ghost function After(sys: System, events: seq<Event>, k: nat, strength: seq<Card> -> int): (s: System)
    requires Initial(sys) && k <= |events|
    ensures Holds(s) && s.table == sys.table && s.honest == sys.honest
  {
    if k == 0 then Prepared(sys) else Advance(After(sys, events, k - 1, strength), events[k - 1], strength)
  }

  ghost function Prepared(sys: System): (s: System)
    requires Initial(sys)
    ensures Holds(s) && s == sys
  {
    InitialHolds(sys);
    sys
  }

  /** One event, after which the invariant holds again. */
  ghost function Advance(sys: System, e: Event, strength: seq<Card> -> int): (s: System)
    requires Holds(sys)
    ensures Holds(s) && s.table == sys.table && s.honest == sys.honest
    ensures forall i :: i in sys.honest ==> i in sys.replicas && i in s.replicas && Follows(sys.replicas[i], s.replicas[i])
  {
    NextHolds(sys, e, strength);
    Next(sys, e, strength)
  }

  // ----- One chain of entries -----

  lemma {:induction false} EntryLinked(sys: System, j: nat, k: nat)
    requires Holds(sys) && j in sys.honest && k < |sys.replicas[j].log|
    ensures Linked(sys.table, sys.replicas[j].log, k) && sys.replicas[j].log[k] in sys.actions
  {
    hide Linked, Rostered, ActionOf, ReceiptOf, InOwnLog, OwnReceipt, HandFollowsLog, ConflictProven, Tallied, Numbered;
    assert HoldsAt(sys, j);
    assert sys.replicas[j].log[k] in sys.replicas[j].log;
  }

  lemma {:induction false} LinkedFacts(t: Table, log: seq<SignedAction>, k: nat)
    requires Rostered(t) && k < |log| && Linked(t, log, k)
    ensures var a := log[k];
            && a.scope == t.scope && a.sequence == k + 1 && KnownSeat(t, a.seat)
            && a.certificate.device == t.devices[a.seat - 1] && a.player == t.players[a.seat - 1]
            && a.expected.log == log[..k] && NextPlayer(Replay(t, log[..k])) == Some(a.player)
  {
    hide Rostered, Perform, PassTurn;
  }

  /** A committed action of a code-following player ties the log before it to that player's own log. */
  lemma {:induction false} HashChainAgreement(sys: System, j: nat, k: nat)
    requires Holds(sys) && j in sys.honest && k < |sys.replicas[j].log|
    requires sys.replicas[j].log[k].seat >= 1 && sys.replicas[j].log[k].seat - 1 in sys.honest
    ensures var i := sys.replicas[j].log[k].seat - 1;
            && i in sys.replicas && k < |sys.replicas[i].log| && sys.replicas[i].log[..k] == sys.replicas[j].log[..k]
            && Payload(sys.replicas[i].log[k]) == Payload(sys.replicas[j].log[k])
  {
    hide Linked, Rostered, HoldsAt, ReceiptOf, OwnReceipt, Replay;
    var (log, a, i) := (sys.replicas[j].log, sys.replicas[j].log[k], sys.replicas[j].log[k].seat - 1);
    EntryLinked(sys, j, k);
    LinkedFacts(sys.table, log, k);
    assert ActionOf(sys, i, a);
    assert InOwnLog(sys, i, a);
    EntryLinked(sys, i, k);
    LinkedFacts(sys.table, sys.replicas[i].log, k);
    SamePayloadSameState(sys.replicas[i].log[k], a);
  }

  lemma {:induction false} SamePayloadSameState(a: SignedAction, b: SignedAction)
    requires Payload(a) == Payload(b)
    ensures a.expected == b.expected && a.player == b.player && a.action == b.action && a.seat == b.seat
  {
  }

  /** The first `k` entries say the same; their certificates may differ. */
  ghost predicate SamePayloads(a: seq<SignedAction>, b: seq<SignedAction>, k: nat) {
    k <= |a| && k <= |b| && forall d :: 0 <= d < k ==> Payload(a[d]) == Payload(b[d])
  }

  /** The hand does not depend on the certificates. */
  lemma {:induction false} SamePayloadsSameHand(t: Table, a: seq<SignedAction>, b: seq<SignedAction>)
    requires Rostered(t) && |a| == |b| && SamePayloads(a, b, |a|)
    ensures Replay(t, a) == Replay(t, b)
  {
    hide Rostered, Act;
    if |a| > 0 {
      var n := |a| - 1;
      SamePayloadsSameHand(t, a[..n], b[..n]);
      SamePayloadSameState(a[n], b[n]);
    }
  }

  lemma {:induction false} PlayersTellSeats(t: Table, i: nat, j: nat)
    requires Rostered(t) && i < |t.players| && j < |t.players| && t.players[i] == t.players[j]
    ensures i == j
  {
    hide ValidLevel, FitsChips;
    assert BuyIns(t)[i].0 == t.players[i] && BuyIns(t)[j].0 == t.players[j];
    assert !(i < j) && !(j < i);
  }

  /** After the same log everybody expects the same signer. */
  lemma {:induction false} SameSigner(sys: System, i: nat, j: nat, k: nat)
    requires Holds(sys) && i in sys.honest && j in sys.honest && k < |sys.replicas[i].log| && k < |sys.replicas[j].log|
    requires SamePayloads(sys.replicas[i].log, sys.replicas[j].log, k)
    ensures sys.replicas[i].log[k].seat == sys.replicas[j].log[k].seat
  {
    hide Linked, Rostered, HoldsAt, ReceiptOf, OwnReceipt, ActionOf, InOwnLog, Replay, Payload;
    EntryLinked(sys, i, k);
    EntryLinked(sys, j, k);
    LinkedFacts(sys.table, sys.replicas[i].log, k);
    LinkedFacts(sys.table, sys.replicas[j].log, k);
    SamePayloadsSameHand(sys.table, sys.replicas[i].log[..k], sys.replicas[j].log[..k]);
    PlayersTellSeats(sys.table, sys.replicas[i].log[k].seat - 1, sys.replicas[j].log[k].seat - 1);
  }

  /** Two logs with later actions of one code-following player agree on all entries before the earlier of them, and
      on what that entry says. */
  lemma {:induction false} SharedSignerAgrees(sys: System, i: nat, j: nat, k: nat, l: nat, d: nat)
    requires Holds(sys) && i in sys.honest && j in sys.honest
    requires d <= k < |sys.replicas[i].log| && d <= l < |sys.replicas[j].log|
    requires sys.replicas[i].log[k].seat == sys.replicas[j].log[l].seat >= 1 && sys.replicas[i].log[k].seat - 1 in sys.honest
    ensures Payload(sys.replicas[i].log[d]) == Payload(sys.replicas[j].log[d])
    ensures d < k && d < l ==> sys.replicas[i].log[d] == sys.replicas[j].log[d]
  {
    hide HoldsAt, Rostered, ReceiptOf, OwnReceipt, ActionOf, InOwnLog, Payload;
    var s := sys.replicas[i].log[k].seat - 1;
    HashChainAgreement(sys, i, k);
    HashChainAgreement(sys, j, l);
    assert d < k ==> sys.replicas[i].log[..k][d] == sys.replicas[s].log[..k][d];
    assert d < l ==> sys.replicas[j].log[..l][d] == sys.replicas[s].log[..l][d];
  }

  /** Two logs come to say different things only where a player who does not follow the code has signed both. */
  lemma {:induction false} ForkHasAnAuthor(sys: System, i: nat, j: nat, k: nat)
    requires Holds(sys) && i in sys.honest && j in sys.honest && k < |sys.replicas[i].log| && k < |sys.replicas[j].log|
    requires SamePayloads(sys.replicas[i].log, sys.replicas[j].log, k)
    requires Payload(sys.replicas[i].log[k]) != Payload(sys.replicas[j].log[k])
    ensures var (a, b) := (sys.replicas[i].log[k], sys.replicas[j].log[k]);
            && KnownSeat(sys.table, a.seat) && a.seat == b.seat && a.seat - 1 !in sys.honest
            && a in sys.actions && b in sys.actions && a.sequence == b.sequence == k + 1
            && SamePayloads(a.expected.log, b.expected.log, k)
            && a.certificate.device == b.certificate.device == sys.table.devices[a.seat - 1]
  {
    hide Linked, Rostered, HoldsAt, ReceiptOf, OwnReceipt, ActionOf, InOwnLog, Replay, Payload;
    SameSigner(sys, i, j, k);
    EntryLinked(sys, i, k);
    EntryLinked(sys, j, k);
    LinkedFacts(sys.table, sys.replicas[i].log, k);
    LinkedFacts(sys.table, sys.replicas[j].log, k);
    if sys.replicas[i].log[k].seat - 1 in sys.honest { SharedSignerAgrees(sys, i, j, k, k, k); }
  }

  /** The two sides of a fork never both go on with a code-following player's actions. */
  lemma {:induction false} ForkedLogsShareNoSigner(sys: System, i: nat, j: nat, d: nat, k: nat, l: nat)
    requires Holds(sys) && i in sys.honest && j in sys.honest
    requires d <= k < |sys.replicas[i].log| && d <= l < |sys.replicas[j].log|
    requires || (d < k && d < l && sys.replicas[i].log[d] != sys.replicas[j].log[d])
             || Payload(sys.replicas[i].log[d]) != Payload(sys.replicas[j].log[d])
    requires sys.replicas[i].log[k].seat == sys.replicas[j].log[l].seat >= 1
    ensures sys.replicas[i].log[k].seat - 1 !in sys.honest
  {
    hide HoldsAt, Rostered, ReceiptOf, OwnReceipt, ActionOf, InOwnLog, Payload;
    if sys.replicas[i].log[k].seat - 1 in sys.honest { SharedSignerAgrees(sys, i, j, k, l, d); }
  }

  ghost predicate AllFollow(sys: System) { forall i :: 0 <= i < |sys.table.players| ==> i in sys.honest }

  lemma {:induction false} SamePrefix(sys: System, i: nat, j: nat, k: nat)
    requires Holds(sys) && AllFollow(sys) && i in sys.honest && j in sys.honest
    requires k <= |sys.replicas[i].log| && k <= |sys.replicas[j].log|
    ensures SamePayloads(sys.replicas[i].log, sys.replicas[j].log, k)
    ensures k > 0 ==> sys.replicas[i].log[..k - 1] == sys.replicas[j].log[..k - 1]
  {
    hide HoldsAt, Rostered, ReceiptOf, OwnReceipt, ActionOf, InOwnLog, Linked, Replay, Payload;
    if k > 0 {
      SamePrefix(sys, i, j, k - 1);
      SameSigner(sys, i, j, k - 1);
      EntryLinked(sys, i, k - 1);
      LinkedFacts(sys.table, sys.replicas[i].log, k - 1);
      SharedSignerAgrees(sys, i, j, k - 1, k - 1, k - 1);
      HashChainAgreement(sys, i, k - 1);
      HashChainAgreement(sys, j, k - 1);
    }
  }

  // ----- Conflicts -----

  /** A code-following player signs one action for each place in the log. */
  lemma {:induction false} OneActionPerPlace(sys: System, i: nat, a: SignedAction, b: SignedAction)
    requires Holds(sys) && a in sys.actions && b in sys.actions && ActionOf(sys, i, a) && ActionOf(sys, i, b)
    requires a.sequence == b.sequence
    ensures Payload(a) == Payload(b)
  {
    hide Rostered, HoldsAt, ReceiptOf, OwnReceipt;
    assert InOwnLog(sys, i, a) && InOwnLog(sys, i, b);
  }

  /** Evidence never points at a player who follows the code. */
  lemma {:induction false} NoFalseAccusation(sys: System, i: nat)
    requires Holds(sys) && i in sys.honest && sys.replicas[i].conflict.Some?
    ensures var e := sys.replicas[i].conflict.value;
            && e.accepted != e.conflicting && e.accepted.seat == e.conflicting.seat && KnownSeat(sys.table, e.accepted.seat)
            && e.accepted.seat - 1 !in sys.honest
  {
    hide Rostered, ReceiptOf, OwnReceipt, InOwnLog, Chained, Numbered, HandFollowsLog, Tallied;
    assert HoldsAt(sys, i);
    var e := sys.replicas[i].conflict.value;
    var a, b :| a in sys.actions && b in sys.actions && Proves(sys.table, e, a, b);
    if ActionOf(sys, a.seat - 1, a) && ActionOf(sys, a.seat - 1, b) { OneActionPerPlace(sys, a.seat - 1, a, b); }
  }

  // ----- The main results -----

  /** Every signed payload is about with one certificate only. */
  ghost predicate OneCertificate(sys: System) {
    forall a, b :: a in sys.actions && b in sys.actions && Payload(a) == Payload(b) ==> a == b
  }

  /** One log says what the other one says, and goes on; all entries but the last common one have to be identical. */
  ghost predicate Comparable(a: seq<SignedAction>, b: seq<SignedAction>) {
    var m := Min(|a|, |b|);
    SamePayloads(a, b, m) && (m > 0 ==> a[..m - 1] == b[..m - 1])
  }

  lemma {:induction false} SameLogs(sys: System, i: nat, j: nat)
    requires Holds(sys) && AllFollow(sys) && i in sys.honest && j in sys.honest
    ensures Comparable(sys.replicas[i].log, sys.replicas[j].log)
    ensures OneCertificate(sys) ==> sys.replicas[i].log <= sys.replicas[j].log || sys.replicas[j].log <= sys.replicas[i].log
  {
    hide Rostered, ReceiptOf, OwnReceipt, ActionOf, InOwnLog, HoldsAt, Payload, Linked;
    var (a, b) := (sys.replicas[i].log, sys.replicas[j].log);
    var m := Min(|a|, |b|);
    SamePrefix(sys, i, j, m);
    if m > 0 && OneCertificate(sys) {
      EntryLinked(sys, i, m - 1);
      EntryLinked(sys, j, m - 1);
      assert a[m - 1] == b[m - 1];
      assert a[..m] == a[..m - 1] + [a[m - 1]] && b[..m] == b[..m - 1] + [b[m - 1]];
    }
  }

  lemma {:induction false} SequenceIsLength(sys: System, i: nat)
    requires Holds(sys) && i in sys.honest
    ensures sys.replicas[i].sequence == |sys.replicas[i].log|
  {
    hide Rostered, ReceiptOf, OwnReceipt, ActionOf, InOwnLog, Keeps;
    assert HoldsAt(sys, i);
    ReplicaShape(sys.replicas[i], sys.actions, sys.receipts);
  }
}
