/** The players of one hand together. Code-following seats run a replica; anyone else, and the network, may do
    anything except sign with a code-following player's device: lose, repeat, reorder, relay or invent messages, and
    send on a signature with another certificate of the same device, which the signature does not cover. */
module Replication {
  import opened Chips
  import opened Stakes
  import opened Holdem
  import opened Betting
  import opened Runs
  import opened Receipts
  import opened Consensus
  import opened ActionLog
  import opened LogInvariant

  datatype System = System(
    table: Table, honest: set<nat>, replicas: map<nat, Replica>,
    actions: set<SignedAction>, receipts: set<Signature<Transcript>>)

  /** Handlers of the program are runs of these steps; splitting them up only allows more runs. */
  datatype Event =
    | Deals(seat: nat, shares: seq<nat>)
    | Acts(seat: nat, action: PlayerAction, connected: bool, ready: bool, env: Env)
    | Receives(seat: nat, sequence: nat, signed: SignedAction, env: Env)
    | Drains(seat: nat, env: Env)
    | Shows(seat: nat, shares: seq<nat>, found: map<nat, Card>, env: Env)
    | ReceivesReceipt(seat: nat, receipt: Receipt<Transcript>, signature: Signature<Transcript>, env: Env)
    | SignedElsewhere(others: set<SignedAction>, otherReceipts: set<Signature<Transcript>>)

  ghost predicate OwnDevice(sys: System, i: nat, device: Key) {
    i in sys.honest && i < |sys.table.devices| && device == sys.table.devices[i]
  }

  ghost predicate ActionOf(sys: System, i: nat, a: SignedAction) {
    OwnDevice(sys, i, a.certificate.device) && a.scope == sys.table.scope
  }

  ghost predicate ReceiptOf(sys: System, i: nat, s: Signature<Transcript>) {
    && OwnDevice(sys, i, s.certificate.device)
    && s.signed.matchId == MatchId(sys.table) && s.signed.handNumber == sys.table.scope.hand
  }

  /** Only what exists can check out. */
  function Existing(sys: System, env: Env): Env {
    env.(actions := env.actions * sys.actions, receipts := env.receipts * sys.receipts)
  }

  ghost function Stepped(sys: System, e: Event, strength: seq<Card> -> int): Replica
    requires !e.SignedElsewhere? && e.seat in sys.replicas
    requires var r := sys.replicas[e.seat]; ValidLevel(r.table.level) && r.seat < |r.table.players|
  {
    var r := sys.replicas[e.seat];
    match e
    case Deals(_, shares) => Deal(r, shares).replica
    case Acts(_, action, connected, ready, env) => CommitLocal(r, action, connected, ready, Existing(sys, env)).replica
    case Receives(_, sequence, signed, env) => AcceptOrDefer(r, sequence, signed, Existing(sys, env)).replica
    case Drains(_, env) => CommitDeferred(r, Existing(sys, env)).replica
    case Shows(_, shares, found, env) => Uncover(r, shares, found, strength, Existing(sys, env)).replica
    case ReceivesReceipt(_, receipt, signature, env) => AcceptReceipt(r, receipt, signature, Existing(sys, env)).replica
  }

  /** The one action a player can have signed in a step is the one that entered their log. */
  ghost function NewActions(sys: System, e: Event, r': Replica): set<SignedAction>
    requires !e.SignedElsewhere? && e.seat in sys.replicas
  {
    var r := sys.replicas[e.seat];
    if e.Acts? && r.hand.Some? && r'.log != r.log then {OwnAction(r, e.action, Existing(sys, e.env))} else {}
  }

  /** Anybody can come up with this action: no code-following device has to sign it, or one has signed its payload. */
  ghost predicate Available(sys: System, a: SignedAction) {
    || (forall i :: !ActionOf(sys, i, a))
    || exists b :: b in sys.actions && Payload(b) == Payload(a) && b.certificate.device == a.certificate.device
  }

  ghost predicate AvailableReceipt(sys: System, s: Signature<Transcript>) {
    || (forall i :: !ReceiptOf(sys, i, s))
    || exists t :: t in sys.receipts && t.signed == s.signed && t.certificate.device == s.certificate.device
  }

  ghost function Next(sys: System, e: Event, strength: seq<Card> -> int): System
    requires Holds(sys)
  {
    if e.SignedElsewhere? then
      sys.(actions := sys.actions + (set a | a in e.others && Available(sys, a)),
           receipts := sys.receipts + (set s | s in e.otherReceipts && AvailableReceipt(sys, s)))
    else if e.seat !in sys.honest then sys
    else
      assert HoldsAt(sys, e.seat);
      var r' := Stepped(sys, e, strength);
      sys.(replicas := sys.replicas[e.seat := r'],
           actions := sys.actions + NewActions(sys, e, r'), receipts := sys.receipts + OwnReceipts(r'))
  }

  // ----- The invariant -----

  ghost predicate HoldsAt(sys: System, i: nat) {
    && i < |sys.table.players| && i in sys.replicas
    && sys.replicas[i].table == sys.table && sys.replicas[i].seat == i
    && Keeps(sys.replicas[i], sys.actions, sys.receipts)
  }

  /** Whatever an honest device signed for this hand stands in its own log, under its number. */
  ghost predicate InOwnLog(sys: System, i: nat, a: SignedAction)
    requires i in sys.replicas
  {
    1 <= a.sequence <= |sys.replicas[i].log| && Payload(sys.replicas[i].log[a.sequence - 1]) == Payload(a)
  }

  ghost predicate OwnReceipt(sys: System, i: nat, s: Signature<Transcript>)
    requires i in sys.replicas
  {
    sys.replicas[i].tally.Some? && sys.replicas[i].tally.value.receipt == s.signed
  }

  ghost predicate Holds(sys: System) {
    && Rostered(sys.table) && sys.replicas.Keys == sys.honest
    && (forall i :: i in sys.honest ==> HoldsAt(sys, i))
    && (forall i, a :: a in sys.actions && ActionOf(sys, i, a) ==> InOwnLog(sys, i, a))
    && (forall i, s :: s in sys.receipts && ReceiptOf(sys, i, s) ==> OwnReceipt(sys, i, s))
  }

  lemma {:induction false} SteppedKeeps(sys: System, e: Event, strength: seq<Card> -> int)
    requires Holds(sys) && !e.SignedElsewhere? && e.seat in sys.honest
    ensures HoldsAt(sys, e.seat)
    ensures var (r, r') := (sys.replicas[e.seat], Stepped(sys, e, strength));
            && StepKeeps(r, r', sys.actions + NewActions(sys, e, r'), sys.receipts)
            && (NewActions(sys, e, r') != {} ==> r'.log == r.log + [OwnAction(r, e.action, Existing(sys, e.env))])
  {
    hide Keeps, Rostered, StepKeeps, CommitLocal, AcceptOrDefer, CommitDeferred, Uncover, AcceptReceipt, Deal;
    hide OwnAction;
    assert HoldsAt(sys, e.seat);
    var r := sys.replicas[e.seat];
    ReplicaShape(r, sys.actions, sys.receipts);
    assert sys.actions + {} == sys.actions;
    match e
    case Deals(_, shares) => DealKeeps(r, shares, sys.actions, sys.receipts);
    case Acts(_, action, connected, ready, env) =>
      CommitLocalKeeps(r, action, connected, ready, Existing(sys, env), sys.actions, sys.receipts);
      OwnIsNew(r, action, Existing(sys, env));
    case Receives(_, sequence, signed, env) => AcceptOrDeferKeeps(r, sequence, signed, Existing(sys, env), sys.actions, sys.receipts);
    case Drains(_, env) => CommitDeferredKeeps(r, Existing(sys, env), sys.actions, sys.receipts);
    case Shows(_, shares, found, env) => UncoverKeeps(r, shares, found, strength, Existing(sys, env), sys.actions, sys.receipts);
    case ReceivesReceipt(_, receipt, signature, env) =>
      AcceptReceiptStepKeeps(r, receipt, signature, Existing(sys, env), sys.actions, sys.receipts);
  }

  lemma {:induction false} ReplicaShape(r: Replica, actions: set<SignedAction>, receipts: set<Signature<Transcript>>)
    requires Keeps(r, actions, receipts)
    ensures ValidLevel(r.table.level) && r.seat < |r.table.players| == |r.table.devices|
    ensures r.sequence == |r.log| && r.certificate.device == r.table.devices[r.seat]
  {
    hide Chained, HandFollowsLog, ConflictProven, Tallied;
  }

  lemma {:induction false} OwnIsNew(r: Replica, action: PlayerAction, env: Env)
    ensures r.hand.Some? ==> r.log + [OwnAction(r, action, env)] != r.log
  {
  }

  // ----- Every step keeps it -----

  lemma {:induction false} KeptByMoreSigned(r: Replica, few: set<SignedAction>, many: set<SignedAction>,
      fewReceipts: set<Signature<Transcript>>, manyReceipts: set<Signature<Transcript>>)
    requires Keeps(r, few, fewReceipts) && few <= many && fewReceipts <= manyReceipts
    ensures Keeps(r, many, manyReceipts)
  {
    hide KeepsLog, Tallied;
    KeptByMore(r, few, many);
    TalliedByMore(r, fewReceipts, manyReceipts);
  }

  lemma {:induction false} DevicesTellSeats(sys: System, i: nat, j: nat, device: Key)
    requires Rostered(sys.table) && OwnDevice(sys, i, device) && OwnDevice(sys, j, device)
    ensures i == j
  {
    hide Dealable, ValidLevel;
    assert !(i < j) && !(j < i);
  }

  lemma {:induction false} CopyInOwnLog(sys: System, i: nat, a: SignedAction)
    requires Holds(sys) && ActionOf(sys, i, a) && (a in sys.actions || Available(sys, a))
    ensures InOwnLog(sys, i, a)
  {
    hide Rostered, HoldsAt, ReceiptOf, OwnReceipt;
    if a !in sys.actions {
      var b :| b in sys.actions && Payload(b) == Payload(a) && b.certificate.device == a.certificate.device;
      assert ActionOf(sys, i, b);
      assert InOwnLog(sys, i, b);
    }
  }

  lemma {:induction false} CopyOfOwnReceipt(sys: System, i: nat, s: Signature<Transcript>)
    requires Holds(sys) && ReceiptOf(sys, i, s) && (s in sys.receipts || AvailableReceipt(sys, s))
    ensures OwnReceipt(sys, i, s)
  {
    hide Rostered, HoldsAt, ActionOf, InOwnLog;
    if s !in sys.receipts {
      var t :| t in sys.receipts && t.signed == s.signed && t.certificate.device == s.certificate.device;
      assert ReceiptOf(sys, i, t);
      assert OwnReceipt(sys, i, t);
    }
  }

  /** New signatures by others break nothing. */
  lemma {:induction false} ElsewhereHolds(sys: System, e: Event, strength: seq<Card> -> int)
    requires Holds(sys) && e.SignedElsewhere?
    ensures Holds(Next(sys, e, strength))
  {
    hide Keeps, Rostered;
    var sys' := Next(sys, e, strength);
    forall i | i in sys.honest ensures HoldsAt(sys', i) {
      assert HoldsAt(sys, i);
      KeptByMoreSigned(sys.replicas[i], sys.actions, sys'.actions, sys.receipts, sys'.receipts);
    }
    forall i, a | a in sys'.actions && ActionOf(sys', i, a) ensures InOwnLog(sys', i, a) {
      assert ActionOf(sys, i, a);
      CopyInOwnLog(sys, i, a);
    }
    forall i, s | s in sys'.receipts && ReceiptOf(sys', i, s) ensures OwnReceipt(sys', i, s) {
      assert ReceiptOf(sys, i, s);
      CopyOfOwnReceipt(sys, i, s);
    }
  }

  lemma {:induction false} OthersHold(sys: System, e: Event, strength: seq<Card> -> int, i: nat)
    requires Holds(sys) && !e.SignedElsewhere? && e.seat in sys.honest && i in sys.honest
    ensures HoldsAt(Next(sys, e, strength), i)
    ensures i in sys.replicas && Follows(sys.replicas[i], Next(sys, e, strength).replicas[i])
  {
    hide Keeps, Rostered, Stepped, NewActions, OwnReceipts, ActionOf, ReceiptOf, InOwnLog, OwnReceipt;
    SteppedKeeps(sys, e, strength);
    assert HoldsAt(sys, i);
    var sys' := Next(sys, e, strength);
    if i != e.seat { KeptByMoreSigned(sys.replicas[i], sys.actions, sys'.actions, sys.receipts, sys'.receipts); }
  }

  lemma {:induction false} NewActionIsOwn(sys: System, e: Event, r': Replica, a: SignedAction)
    requires Holds(sys) && !e.SignedElsewhere? && e.seat in sys.honest && a in NewActions(sys, e, r')
    requires r'.log == sys.replicas[e.seat].log + [a]
    ensures OwnDevice(sys, e.seat, a.certificate.device) && 1 <= a.sequence <= |r'.log| && r'.log[a.sequence - 1] == a
  {
    hide Keeps, Rostered, PublicStateOf;
    assert HoldsAt(sys, e.seat);
    ReplicaShape(sys.replicas[e.seat], sys.actions, sys.receipts);
  }

  lemma {:induction false} ActionsStayOwn(sys: System, e: Event, strength: seq<Card> -> int, i: nat, a: SignedAction)
    requires Holds(sys) && !e.SignedElsewhere? && e.seat in sys.honest
    requires a in Next(sys, e, strength).actions && ActionOf(Next(sys, e, strength), i, a)
    ensures i in sys.replicas && InOwnLog(Next(sys, e, strength), i, a)
  {
    hide Keeps, Rostered, Stepped, NewActions, OwnReceipts, StepKeeps, ReceiptOf, OwnReceipt, OwnAction;
    var sys' := Next(sys, e, strength);
    OthersHold(sys, e, strength, i);
    assert ActionOf(sys, i, a);
    if a in sys.actions {
      assert InOwnLog(sys, i, a);
    } else {
      SteppedKeeps(sys, e, strength);
      ReplicaShape(sys.replicas[e.seat], sys.actions, sys.receipts);
      OnlyNewAction(sys, e, Stepped(sys, e, strength), a);
      NewActionIsOwn(sys, e, Stepped(sys, e, strength), a);
      DevicesTellSeats(sys, i, e.seat, a.certificate.device);
    }
  }

  lemma {:induction false} OnlyNewAction(sys: System, e: Event, r': Replica, a: SignedAction)
    requires !e.SignedElsewhere? && e.seat in sys.replicas && a in NewActions(sys, e, r')
    ensures e.Acts? && sys.replicas[e.seat].hand.Some? && a == OwnAction(sys.replicas[e.seat], e.action, Existing(sys, e.env))
  {
  }

  lemma {:induction false} ReceiptsStayOwn(sys: System, e: Event, strength: seq<Card> -> int, i: nat,
      s: Signature<Transcript>)
    requires Holds(sys) && !e.SignedElsewhere? && e.seat in sys.honest
    requires s in Next(sys, e, strength).receipts && ReceiptOf(Next(sys, e, strength), i, s)
    ensures i in sys.replicas && OwnReceipt(Next(sys, e, strength), i, s)
  {
    hide Keeps, Rostered, Stepped, NewActions, StepKeeps, ActionOf, InOwnLog, OwnAction;
    var sys' := Next(sys, e, strength);
    OthersHold(sys, e, strength, i);
    assert ReceiptOf(sys, i, s);
    if s in sys.receipts {
      assert OwnReceipt(sys, i, s);
    } else {
      OthersHold(sys, e, strength, e.seat);
      assert HoldsAt(sys, e.seat);
      ReplicaShape(sys.replicas[e.seat], sys.actions, sys.receipts);
      var r' := Stepped(sys, e, strength);
      assert r' == sys'.replicas[e.seat] && s in OwnReceipts(r');
      ReplicaShape(r', sys'.actions, sys'.receipts);
      DevicesTellSeats(sys, i, e.seat, s.certificate.device);
    }
  }

  /** Whatever happens next, every code-following replica keeps its invariant and what it has signed. */
  lemma {:induction false} NextHolds(sys: System, e: Event, strength: seq<Card> -> int)
    requires Holds(sys)
    ensures Holds(Next(sys, e, strength)) && Next(sys, e, strength).table == sys.table && Next(sys, e, strength).honest == sys.honest
    ensures forall i :: i in sys.honest ==> i in sys.replicas && Follows(sys.replicas[i], Next(sys, e, strength).replicas[i])
  {
    hide HoldsAt, Rostered, Stepped, NewActions, OwnReceipts, ActionOf, ReceiptOf, InOwnLog, OwnReceipt, Follows;
    var sys' := Next(sys, e, strength);
    if e.SignedElsewhere? {
      ElsewhereHolds(sys, e, strength);
      forall i | i in sys.honest ensures Follows(sys.replicas[i], sys'.replicas[i]) { FollowsItself(sys.replicas[i]); }
    } else if e.seat in sys.honest {
      forall i | i in sys.honest ensures HoldsAt(sys', i) && Follows(sys.replicas[i], sys'.replicas[i]) { OthersHold(sys, e, strength, i); }
      forall i, a | a in sys'.actions && ActionOf(sys', i, a) ensures i in sys.replicas && InOwnLog(sys', i, a) { ActionsStayOwn(sys, e, strength, i, a); }
      forall i, s | s in sys'.receipts && ReceiptOf(sys', i, s) ensures i in sys.replicas && OwnReceipt(sys', i, s) { ReceiptsStayOwn(sys, e, strength, i, s); }
    } else {
      forall i | i in sys.honest ensures Follows(sys.replicas[i], sys'.replicas[i]) { FollowsItself(sys.replicas[i]); }
    }
  }

  lemma {:induction false} FollowsItself(r: Replica)
    ensures Follows(r, r)
  {
  }
}
