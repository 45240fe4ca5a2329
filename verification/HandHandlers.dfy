/** What reaches a hand from outside: messages of the other players, the own player's choice, and the clock. Each is
    handled by several steps of the hand's object; the invariant of a replica holds of the object before and after. */
module HandHandlers {
  import opened Chips
  import opened Stakes
  import opened Holdem
  import opened Betting
  import opened Runs
  import opened Receipts
  import opened Consensus
  import opened ActionLog
  import opened LogInvariant
  import opened Agreement
  import opened AgreedReceipts
  import opened Progress
  import opened ShownHands
  import opened HandRuntime

  // ----- The invariant -----

  /** The log, the tally and the hand are in order, with these signatures about. */
  ghost predicate Sound(r: Replica, actions: set<SignedAction>, receipts: set<Signature<Transcript>>,
      strength: seq<Card> -> int) {
    Keeps(r, actions, receipts) && Told(r, strength)
  }

  /** A change after which everything is in order again, the own receipt now being among those signed. */
  ghost predicate SoundStep(r: Replica, s: Replica, actions: set<SignedAction>, receipts: set<Signature<Transcript>>,
      strength: seq<Card> -> int) {
    Follows(r, s) && Sound(s, actions, receipts + OwnReceipts(s), strength)
  }

  lemma {:induction false} OwnReceiptsStay(r: Replica, s: Replica)
    requires Follows(r, s)
    ensures OwnReceipts(r) <= OwnReceipts(s)
  {
  }

  lemma {:induction false} SoundOn(r: Replica, s: Replica, t: Replica, actions: set<SignedAction>,
      receipts: set<Signature<Transcript>>, strength: seq<Card> -> int)
    requires SoundStep(r, s, actions, receipts, strength) && SoundStep(s, t, actions, receipts + OwnReceipts(s), strength)
    ensures SoundStep(r, t, actions, receipts, strength)
  {
    hide Follows, Keeps, Told, OwnReceipts;
    FollowsOn(r, s, t);
    OwnReceiptsStay(s, t);
    assert receipts + OwnReceipts(s) + OwnReceipts(t) == receipts + OwnReceipts(t);
  }

  lemma {:induction false} NothingChanged(r: Replica, actions: set<SignedAction>, receipts: set<Signature<Transcript>>,
      strength: seq<Card> -> int)
    requires Sound(r, actions, receipts, strength)
    ensures SoundStep(r, r, actions, receipts, strength)
  {
    hide Keeps, Told, Follows, OwnReceipts;
    NothingDone(r, actions, receipts);
  }

  lemma {:induction false} SoundShape(r: Replica, actions: set<SignedAction>, receipts: set<Signature<Transcript>>,
      strength: seq<Card> -> int)
    requires Sound(r, actions, receipts, strength)
    ensures Keeps(r, actions, receipts) && KeepsLog(r, actions) && Told(r, strength)
    ensures r.seat < |r.table.players| && ValidLevel(r.table.level)
  {
    hide Chained, HandFollowsLog, ConflictProven, Tallied, Numbered, Told;
  }

  // ----- The steps -----

  lemma {:induction false} FreshSound(table: Table, seat: nat, certificate: Certificate, actions: set<SignedAction>,
      receipts: set<Signature<Transcript>>, strength: seq<Card> -> int)
    requires Rostered(table) && seat < |table.players|
    requires certificate.player == table.players[seat] && certificate.device == table.devices[seat]
    ensures Sound(FreshReplica(table, seat, certificate), actions, receipts, strength)
  {
    hide Rostered, Keeps, ToldWaiting, ToldReady;
    FreshKeeps(table, seat, certificate, actions, receipts);
  }

  lemma {:induction false} AcceptOrDeferSound(r: Replica, sequence: nat, a: SignedAction, env: Env,
      actions: set<SignedAction>, receipts: set<Signature<Transcript>>, strength: seq<Card> -> int)
    requires Sound(r, actions, receipts, strength) && env.actions <= actions && env.receipts <= receipts
    ensures SoundStep(r, AcceptOrDefer(r, sequence, a, env).replica, actions, receipts, strength)
  {
    hide AcceptOrDefer, Keeps, KeepsLog, Told, Follows, OwnReceipts;
    SoundShape(r, actions, receipts, strength);
    AcceptOrDeferKeeps(r, sequence, a, env, actions, receipts);
    AcceptOrDeferTells(r, sequence, a, env, actions, strength);
  }

  lemma {:induction false} CommitDeferredSound(r: Replica, env: Env, actions: set<SignedAction>,
      receipts: set<Signature<Transcript>>, strength: seq<Card> -> int)
    requires Sound(r, actions, receipts, strength) && env.actions <= actions && env.receipts <= receipts
    ensures SoundStep(r, CommitDeferred(r, env).replica, actions, receipts, strength)
  {
    hide CommitDeferred, Keeps, KeepsLog, Told, Follows, OwnReceipts;
    CommitDeferredKeeps(r, env, actions, receipts);
    CommitDeferredTells(r, env, actions, receipts, strength);
  }

  lemma {:induction false} AcceptReceiptSound(r: Replica, receipt: Receipt<Transcript>, s: Signature<Transcript>, env: Env,
      actions: set<SignedAction>, receipts: set<Signature<Transcript>>, strength: seq<Card> -> int)
    requires Sound(r, actions, receipts, strength) && env.receipts <= receipts
    ensures SoundStep(r, AcceptReceipt(r, receipt, s, env).replica, actions, receipts, strength)
  {
    hide AcceptReceipt, Keeps, KeepsLog, Told, Follows, OwnReceipts;
    AcceptReceiptStepKeeps(r, receipt, s, env, actions, receipts);
    AcceptReceiptTells(r, receipt, s, env, strength);
  }

  lemma {:induction false} DealSound(r: Replica, shares: seq<nat>, actions: set<SignedAction>,
      receipts: set<Signature<Transcript>>, strength: seq<Card> -> int)
    requires Sound(r, actions, receipts, strength) && ValidLevel(r.table.level)
    ensures SoundStep(r, Deal(r, shares).replica, actions, receipts, strength)
  {
    hide Deal, Keeps, KeepsLog, Told, Follows, OwnReceipts;
    DealKeeps(r, shares, actions, receipts);
    DealTells(r, shares, strength);
  }

  lemma {:induction false} UncoverSound(r: Replica, shares: seq<nat>, found: map<nat, Card>, strength: seq<Card> -> int,
      env: Env, actions: set<SignedAction>, receipts: set<Signature<Transcript>>)
    requires Sound(r, actions, receipts, strength) && env.receipts <= receipts
    ensures SoundStep(r, Uncover(r, shares, found, strength, env).replica, actions, receipts, strength)
  {
    hide Uncover, Keeps, KeepsLog, Told, Follows, OwnReceipts;
    UncoverKeeps(r, shares, found, strength, env, actions, receipts);
    UncoverTells(r, shares, found, strength, env);
  }

  /** What the own player has signed is what was added to the log. */
  ghost function Added(before: seq<SignedAction>, after: seq<SignedAction>): set<SignedAction> {
    if |after| == |before| + 1 then {after[|before|]} else {}
  }

  lemma {:induction false} CommitLocalSound(r: Replica, action: PlayerAction, connected: bool, ready: bool, env: Env,
      actions: set<SignedAction>, receipts: set<Signature<Transcript>>, strength: seq<Card> -> int)
    requires Sound(r, actions, receipts, strength) && env.actions <= actions && env.receipts <= receipts
    requires r.seat < |r.table.players|
    ensures var s := CommitLocal(r, action, connected, ready, env).replica;
            && SoundStep(r, s, actions + Added(r.log, s.log), receipts, strength)
            && (s.log == r.log || (r.hand.Some? && s.log == r.log + [OwnAction(r, action, env)]))
  {
    hide CommitLocal, Keeps, KeepsLog, Told, Follows, OwnReceipts, OwnAction;
    SoundShape(r, actions, receipts, strength);
    CommitLocalKeeps(r, action, connected, ready, env, actions, receipts);
    CommitLocalTells(r, action, connected, ready, env, actions, strength);
    var s := CommitLocal(r, action, connected, ready, env).replica;
    if s.log == r.log { assert actions + Added(r.log, s.log) == actions; }
  }

  // ----- Going on -----

  /** What the decryption shares at hand uncover by now: the own hole cards, and table cards. */
  datatype Uncovered = Uncovered(holes: Option<seq<nat>>, shares: seq<nat>, found: map<nat, Card>)

  /** Starts the betting once the own hole cards are known, then turns what is asked for. */
  ghost function Driven(r: Replica, cards: Uncovered, strength: seq<Card> -> int, env: Env): Step
    requires ValidLevel(r.table.level)
  {
    if r.conflict.Some? then Done(r)
    else
      var dealt := if cards.holes.Some? then Deal(r, cards.holes.value) else Done(r);
      if dealt.refusal.Some? then dealt else Uncover(dealt.replica, cards.shares, cards.found, strength, env)
  }

  /** Cards never touch the log or the place at the table. */
  lemma {:induction false} DrivenKeeps(r: Replica, cards: Uncovered, strength: seq<Card> -> int, env: Env)
    requires ValidLevel(r.table.level)
    ensures var s := Driven(r, cards, strength, env).replica;
            s.log == r.log && s.table == r.table && s.seat == r.seat && s.certificate == r.certificate
  {
    hide Uncover, Deal, ValidLevel;
    UncoverKeepsPlace(r, cards, strength, env);
    if cards.holes.Some? {
      DealKeepsPlace(r, cards.holes.value);
      UncoverKeepsPlace(Deal(r, cards.holes.value).replica, cards, strength, env);
    }
  }

  lemma {:induction false} DealKeepsPlace(r: Replica, shares: seq<nat>)
    requires ValidLevel(r.table.level)
    ensures var s := Deal(r, shares).replica;
            s.log == r.log && s.table == r.table && s.seat == r.seat && s.certificate == r.certificate
  {
    hide Start, ValidLevel;
  }

  lemma {:induction false} UncoverKeepsPlace(r: Replica, cards: Uncovered, strength: seq<Card> -> int, env: Env)
    ensures var s := Uncover(r, cards.shares, cards.found, strength, env).replica;
            s.log == r.log && s.table == r.table && s.seat == r.seat && s.certificate == r.certificate
  {
    hide SettleShown;
    if r.request.Some? {
      var shown := r.(mental := r.mental + cards.shares, request := None,
                      cards := r.cards + (map k | k in cards.found && k in r.request.value.indices && k !in r.cards :: cards.found[k]));
      SettleShownKeepsPlace(shown, strength, env);
    }
  }

  lemma {:induction false} DrivenSound(r: Replica, cards: Uncovered, strength: seq<Card> -> int, env: Env,
      actions: set<SignedAction>, receipts: set<Signature<Transcript>>)
    requires Sound(r, actions, receipts, strength) && env.receipts <= receipts && ValidLevel(r.table.level)
    ensures SoundStep(r, Driven(r, cards, strength, env).replica, actions, receipts, strength)
  {
    hide Sound, Follows, OwnReceipts, Deal, Uncover;
    NothingChanged(r, actions, receipts, strength);
    if r.conflict.None? {
      var dealt := if cards.holes.Some? then Deal(r, cards.holes.value) else Done(r);
      if cards.holes.Some? { DealSound(r, cards.holes.value, actions, receipts, strength); }
      var s := dealt.replica;
      UncoverSound(s, cards.shares, cards.found, strength, env, actions, receipts + OwnReceipts(s));
      SoundOn(r, s, Uncover(s, cards.shares, cards.found, strength, env).replica, actions, receipts, strength);
    }
  }

  method Drive(hand: ActiveHand, cards: Uncovered, strength: seq<Card> -> int, env: Env) returns (refusal: Option<Refusal>)
    requires ValidLevel(hand.table.level)
    modifies hand
    ensures Step(hand.Value(), refusal) == Driven(old(hand.Value()), cards, strength, env)
  {
    hide Deal, Uncover, ValidLevel;
    if hand.conflict.Some? { return None; }
    if cards.holes.Some? {
      refusal := hand.Deal(cards.holes.value);
      if refusal.Some? { return; }
    }
    refusal := hand.Uncover(cards.shares, cards.found, strength, env);
  }

  // ----- Messages -----

  datatype Message =
    | ReceiptSignature(receipt: Receipt<Transcript>, signature: Signature<Transcript>)
    | ActionCommitted(sequence: nat, action: SignedAction)
    | OtherMessage

  ghost function Taken(r: Replica, message: Message, env: Env): Step {
    match message
    case ReceiptSignature(receipt, signature) => AcceptReceipt(r, receipt, signature, env)
    case ActionCommitted(sequence, action) => AcceptOrDefer(r, sequence, action, env)
    case OtherMessage => Done(r)
  }

  /** A message of another player is taken in, then the hand goes on as far as the cards allow, and then with what was
      held back. A refusal ends the handling. */
  ghost function Handled(r: Replica, message: Message, cards: Uncovered, strength: seq<Card> -> int, env: Env): Step
    requires ValidLevel(r.table.level)
  {
    var taken := Taken(r, message, env);
    TakenKeeps(r, message, env);
    if taken.refusal.Some? then taken
    else
      var driven := Driven(taken.replica, cards, strength, env);
      if driven.refusal.Some? then driven else CommitDeferred(driven.replica, env)
  }

  lemma {:induction false} TakenKeeps(r: Replica, message: Message, env: Env)
    ensures Taken(r, message, env).replica.table == r.table
  {
    hide CommitAction, AcceptReceipt, VerifiesAction, PublicStateOf;
    match message
    case ReceiptSignature(receipt, signature) => AcceptReceiptKeeps(r, receipt, signature, env);
    case ActionCommitted(sequence, action) => CommitKeepsDeferred(r, sequence, action, env);
    case OtherMessage =>
  }

  lemma {:induction false} TakenSound(r: Replica, message: Message, env: Env, actions: set<SignedAction>,
      receipts: set<Signature<Transcript>>, strength: seq<Card> -> int)
    requires Sound(r, actions, receipts, strength) && env.actions <= actions && env.receipts <= receipts
    ensures SoundStep(r, Taken(r, message, env).replica, actions, receipts, strength)
  {
    hide Sound, Follows, OwnReceipts, AcceptReceipt, AcceptOrDefer;
    match message
    case ReceiptSignature(receipt, signature) => AcceptReceiptSound(r, receipt, signature, env, actions, receipts, strength);
    case ActionCommitted(sequence, action) => AcceptOrDeferSound(r, sequence, action, env, actions, receipts, strength);
    case OtherMessage => NothingChanged(r, actions, receipts, strength);
  }

  /** Handling a message, to its end or to the first refusal, keeps everything in order. */
  lemma {:induction false} HandledSound(r: Replica, message: Message, cards: Uncovered, strength: seq<Card> -> int, env: Env,
      actions: set<SignedAction>, receipts: set<Signature<Transcript>>)
    requires Sound(r, actions, receipts, strength) && env.actions <= actions && env.receipts <= receipts && ValidLevel(r.table.level)
    ensures SoundStep(r, Handled(r, message, cards, strength, env).replica, actions, receipts, strength)
    ensures Follows(Taken(r, message, env).replica, Handled(r, message, cards, strength, env).replica)
  {
    hide Sound, Follows, OwnReceipts, Taken, Driven, CommitDeferred, ValidLevel;
    TakenKeeps(r, message, env);
    TakenSound(r, message, env, actions, receipts, strength);
    var s := Taken(r, message, env).replica;
    NothingChanged(s, actions, receipts + OwnReceipts(s), strength);
    DrivenSound(s, cards, strength, env, actions, receipts + OwnReceipts(s));
    var t := Driven(s, cards, strength, env).replica;
    SoundOn(r, s, t, actions, receipts, strength);
    CommitDeferredSound(t, env, actions, receipts + OwnReceipts(t), strength);
    var u := CommitDeferred(t, env).replica;
    SoundOn(r, t, u, actions, receipts, strength);
    FollowsOn(s, t, u);
  }

  /** An action that is due is in the log once its message is handled, and a message that is handled to its end leaves
      nothing held back that fits. */
  lemma {:induction false} HandledProgresses(r: Replica, message: Message, cards: Uncovered, strength: seq<Card> -> int,
      env: Env, actions: set<SignedAction>, receipts: set<Signature<Transcript>>)
    requires Sound(r, actions, receipts, strength) && env.actions <= actions && env.receipts <= receipts && ValidLevel(r.table.level)
    ensures var s := Handled(r, message, cards, strength, env);
            && (message.ActionCommitted? && message.sequence == r.sequence + 1 && Due(r, message.action, env)
                ==> r.log + [message.action] <= s.replica.log)
            && (s.refusal.None? ==> Drained(s.replica))
  {
    hide Sound, Keeps, KeepsLog, Told, Driven, CommitDeferred, AcceptOrDefer, AcceptReceipt, Drained, ValidLevel, Due;
    SoundShape(r, actions, receipts, strength);
    HandledSound(r, message, cards, strength, env, actions, receipts);
    TakenKeeps(r, message, env);
    if message.ActionCommitted? && message.sequence == r.sequence + 1 { TakenAtOnce(r, message.action, env, actions); }
    var driven := Driven(Taken(r, message, env).replica, cards, strength, env).replica;
    if CommitDeferred(driven, env).refusal.None? { NothingFitsAnyMore(driven, env); }
  }

  method HandleMessage(hand: ActiveHand, message: Message, cards: Uncovered, strength: seq<Card> -> int, env: Env,
      ghost actions: set<SignedAction>, ghost receipts: set<Signature<Transcript>>) returns (refusal: Option<Refusal>)
    requires Sound(hand.Value(), actions, receipts, strength) && env.actions <= actions && env.receipts <= receipts
    requires ValidLevel(hand.table.level)
    modifies hand
    ensures Step(hand.Value(), refusal) == Handled(old(hand.Value()), message, cards, strength, env)
    ensures SoundStep(old(hand.Value()), hand.Value(), actions, receipts, strength)
  {
    hide Sound, SoundStep, AcceptReceipt, AcceptOrDefer, Driven, CommitDeferred, ValidLevel;
    HandledSound(hand.Value(), message, cards, strength, env, actions, receipts);
    TakenKeeps(hand.Value(), message, env);
    match message {
      case ReceiptSignature(receipt, signature) =>
        refusal := hand.AcceptReceipt(receipt, signature, env);
        if refusal.Some? { return; }
      case ActionCommitted(sequence, action) =>
        refusal := hand.AcceptOrDefer(sequence, action, env);
        if refusal.Some? { return; }
      case OtherMessage =>
    }
    refusal := Drive(hand, cards, strength, env);
    if refusal.Some? { return; }
    refusal := hand.CommitDeferred(env);
  }

  // ----- The own player -----

  /** Nothing stands in the way of the own player's action. */
  ghost predicate MayAct(r: Replica, action: PlayerAction, connected: bool, ready: bool, env: Env) {
    && connected && ready && env.certified && Progress.Open(r) && r.seat < |r.table.players|
    && NextPlayer(r.hand.value) == Some(r.table.players[r.seat])
    && Act(r.hand.value, r.table.players[r.seat], action).result.Ok?
  }

  /** The own action enters the log exactly if nothing stands in its way. */
  lemma {:induction false} OwnActionExactly(r: Replica, action: PlayerAction, connected: bool, ready: bool, env: Env,
      actions: set<SignedAction>)
    requires KeepsLog(r, actions) && r.seat < |r.table.players| && r.hand.Some?
    ensures CommitLocal(r, action, connected, ready, env).replica.log == r.log + [OwnAction(r, action, env)]
            <==> MayAct(r, action, connected, ready, env)
  {
    hide CommitAction, Act, PublicStateOf, Rostered, Chained, HandFollowsLog, ConflictProven, Numbered, Awaiting, Legal, Replay;
    var signed := OwnAction(r, action, env);
    assert r.log + [signed] != r.log by { assert |r.log + [signed]| == |r.log| + 1; }
    SequenceBelowWord(r, actions);
    if !r.settled {
      OnlyAwaitingHandsAct(r, actions, r.table.players[r.seat], action);
      if Awaiting(r.hand.value) { ActSound(r.hand.value, r.table.players[r.seat], action); }
    }
    OwnSeatKnown(r, actions);
    CommittedExactly(r, signed, env.(actions := env.actions + {signed}), actions);
  }

  lemma {:induction false} OwnSeatKnown(r: Replica, actions: set<SignedAction>)
    requires KeepsLog(r, actions)
    ensures r.seat < |r.table.players| && KnownSeat(r.table, r.seat + 1)
    ensures r.certificate.player == r.table.players[r.seat] && r.certificate.device == r.table.devices[r.seat]
  {
    hide Chained, HandFollowsLog, ConflictProven, Dealable;
  }

  lemma {:induction false} CommitLocalKeepsTable(r: Replica, action: PlayerAction, connected: bool, ready: bool, env: Env)
    requires r.seat < |r.table.players|
    ensures CommitLocal(r, action, connected, ready, env).replica.table == r.table
  {
    hide CommitAction, OwnAction;
    if r.hand.Some? {
      var signed := OwnAction(r, action, env);
      CommitKeepsDeferred(r, r.sequence + 1, signed, env.(actions := env.actions + {signed}));
    }
  }

  /** An own action, and then as far as the cards allow. */
  ghost function Acted(r: Replica, action: PlayerAction, connected: bool, ready: bool, cards: Uncovered,
      strength: seq<Card> -> int, env: Env): Step
    requires ValidLevel(r.table.level) && r.seat < |r.table.players|
  {
    var acted := CommitLocal(r, action, connected, ready, env);
    CommitLocalKeepsTable(r, action, connected, ready, env);
    if acted.refusal.Some? then acted else Driven(acted.replica, cards, strength, env)
  }

  lemma {:induction false} ActedSound(r: Replica, action: PlayerAction, connected: bool, ready: bool, cards: Uncovered,
      strength: seq<Card> -> int, env: Env, actions: set<SignedAction>, receipts: set<Signature<Transcript>>)
    requires Sound(r, actions, receipts, strength) && env.actions <= actions && env.receipts <= receipts
    requires ValidLevel(r.table.level) && r.seat < |r.table.players|
    ensures var s := Acted(r, action, connected, ready, cards, strength, env).replica;
            && SoundStep(r, s, actions + Added(r.log, s.log), receipts, strength)
            && (s.log == r.log || (r.hand.Some? && s.log == r.log + [OwnAction(r, action, env)]))
            && (r.hand.Some? && s.log == r.log + [OwnAction(r, action, env)] <==> MayAct(r, action, connected, ready, env))
  {
    hide Sound, Keeps, KeepsLog, Told, Follows, OwnReceipts, CommitLocal, Driven, OwnAction, ValidLevel, Act;
    SoundShape(r, actions, receipts, strength);
    CommitLocalKeepsTable(r, action, connected, ready, env);
    CommitLocalSound(r, action, connected, ready, env, actions, receipts, strength);
    if r.hand.Some? { OwnActionExactly(r, action, connected, ready, env, actions); }
    var s := CommitLocal(r, action, connected, ready, env).replica;
    var signed := actions + Added(r.log, s.log);
    DrivenKeeps(s, cards, strength, env);
    DrivenSound(s, cards, strength, env, signed, receipts + OwnReceipts(s));
    SoundOn(r, s, Driven(s, cards, strength, env).replica, signed, receipts, strength);
  }

  /** What the player saw when choosing an action. */
  datatype Precondition = Precondition(table: nat, hand: nat, sequence: nat, state: PublicState)

  function SeenAt(r: Replica): Precondition
    requires r.hand.Some?
  {
    Precondition(r.table.scope.table, r.table.scope.hand, r.sequence, PublicStateOf(r))
  }

  /** The own player's choice, refused unless it is for the present state. */
  ghost function Submitted(r: Replica, expected: Precondition, action: PlayerAction, leaving: bool, connected: bool,
      ready: bool, cards: Uncovered, strength: seq<Card> -> int, env: Env): Step
    requires ValidLevel(r.table.level) && r.seat < |r.table.players|
  {
    if r.hand.None? then Refuse(r, HandMissing)
    else if expected != SeenAt(r) then Refuse(r, Unbound)
    else if leaving then Refuse(r, CannotActNow)
    else Acted(r, action, connected, ready, cards, strength, env)
  }

  /** A choice is signed and logged exactly if it is for the state the player saw, the player is not leaving, and nothing
      stands in its way; nothing else is ever signed for the player. */
  lemma {:induction false} SubmittedExactly(r: Replica, expected: Precondition, action: PlayerAction, leaving: bool,
      connected: bool, ready: bool, cards: Uncovered, strength: seq<Card> -> int, env: Env,
      actions: set<SignedAction>, receipts: set<Signature<Transcript>>)
    requires Sound(r, actions, receipts, strength) && env.actions <= actions && env.receipts <= receipts
    requires ValidLevel(r.table.level) && r.seat < |r.table.players|
    ensures var s := Submitted(r, expected, action, leaving, connected, ready, cards, strength, env).replica;
            && SoundStep(r, s, actions + Added(r.log, s.log), receipts, strength)
            && (s.log == r.log || (r.hand.Some? && s.log == r.log + [OwnAction(r, action, env)]))
            && (r.hand.Some? && s.log == r.log + [OwnAction(r, action, env)]
                <==> r.hand.Some? && expected == SeenAt(r) && !leaving && MayAct(r, action, connected, ready, env))
  {
    hide Sound, Follows, OwnReceipts, Acted, OwnAction, SeenAt, MayAct, ValidLevel;
    NothingChanged(r, actions, receipts, strength);
    assert actions + {} == actions;
    if r.hand.Some? { assert |r.log + [OwnAction(r, action, env)]| == |r.log| + 1; }
    ActedSound(r, action, connected, ready, cards, strength, env, actions, receipts);
  }

  method SubmitAction(hand: ActiveHand, expected: Precondition, action: PlayerAction, leaving: bool, connected: bool,
      ready: bool, cards: Uncovered, strength: seq<Card> -> int, env: Env,
      ghost actions: set<SignedAction>, ghost receipts: set<Signature<Transcript>>) returns (refusal: Option<Refusal>)
    requires Sound(hand.Value(), actions, receipts, strength) && env.actions <= actions && env.receipts <= receipts
    requires ValidLevel(hand.table.level) && hand.seat < |hand.table.players|
    modifies hand
    ensures Step(hand.Value(), refusal)
            == Submitted(old(hand.Value()), expected, action, leaving, connected, ready, cards, strength, env)
    ensures SoundStep(old(hand.Value()), hand.Value(), actions + Added(old(hand.log), hand.log), receipts, strength)
  {
    hide Sound, SoundStep, CommitLocal, Driven, OwnAction, SeenAt, MayAct, ValidLevel, Added;
    SubmittedExactly(hand.Value(), expected, action, leaving, connected, ready, cards, strength, env, actions, receipts);
    if hand.hand.None? { return Some(HandMissing); }
    if expected != SeenAt(hand.Value()) { return Some(Unbound); }
    if leaving { return Some(CannotActNow); }
    CommitLocalKeepsTable(hand.Value(), action, connected, ready, env);
    refusal := hand.CommitLocal(action, connected, ready, env);
    if refusal.Some? { return; }
    refusal := Drive(hand, cards, strength, env);
  }

  // ----- The clock -----

  const TURN_ACTION_TIMEOUT_MS := 30_000

  datatype Automatic = Nothing | Missing | Take(action: PlayerAction)

  /** What the clock decides for the own player: a leaving player folds, and one whose time is up checks or folds. */
  function AutomaticAction(r: Replica, turnStarted: Option<nat>, leaving: bool, connected: bool, ready: bool, now: nat): Automatic
    requires r.seat < |r.table.players|
  {
    if !connected || r.conflict.Some? || r.request.Some? || r.settled || !ready then Nothing
    else if r.hand.None? then Missing
    else if NextPlayer(r.hand.value) != Some(r.table.players[r.seat]) then Nothing
    else if leaving then Take(Fold)
    else if turnStarted.None? || now < Min(turnStarted.value + TURN_ACTION_TIMEOUT_MS, U64_MAX) then Nothing
    else
      var toCall := AmountToCall(r.hand.value, r.table.players[r.seat]);
      if toCall.Err? then Missing else Take(TimeoutAction(toCall.value))
  }

  /** The betting never refuses what the clock decides: with a valid certificate nothing stands in its way. */
  lemma {:induction false} AutomaticMayAct(r: Replica, turnStarted: Option<nat>, leaving: bool, connected: bool, ready: bool,
      env: Env, actions: set<SignedAction>)
    requires KeepsLog(r, actions) && r.seat < |r.table.players|
    requires AutomaticAction(r, turnStarted, leaving, connected, ready, env.now).Take?
    ensures MayAct(r, AutomaticAction(r, turnStarted, leaving, connected, ready, env.now).action, connected, ready, env) <==> env.certified
  {
    hide KeepsLog, Act, AmountToCall;
    TurnMeansAwaiting(r, actions);
    TimeoutAccepted(r.hand.value);
  }

  lemma {:induction false} TurnMeansAwaiting(r: Replica, actions: set<SignedAction>)
    requires KeepsLog(r, actions) && r.hand.Some? && !r.settled && NextPlayer(r.hand.value).Some?
    ensures Awaiting(r.hand.value) && NextPlayer(r.hand.value) == Some(r.hand.value.seats[r.hand.value.nextToAct.value].player)
  {
    hide Rostered, Chained, ConflictProven, Replay, Numbered;
  }

  /** One beat of the clock, after what the cards allow. */
  ghost function Decided(r: Replica, turnStarted: Option<nat>, leaving: bool, connected: bool, ready: bool, more: Uncovered,
      strength: seq<Card> -> int, env: Env): Step
    requires ValidLevel(r.table.level) && r.seat < |r.table.players|
  {
    match AutomaticAction(r, turnStarted, leaving, connected, ready, env.now)
    case Nothing => Done(r)
    case Missing => Refuse(r, HandMissing)
    case Take(action) => Acted(r, action, connected, ready, more, strength, env)
  }

  ghost function Ticked(r: Replica, turnStarted: Option<nat>, leaving: bool, connected: bool, ready: bool, cards: Uncovered,
      more: Uncovered, strength: seq<Card> -> int, env: Env): Step
    requires ValidLevel(r.table.level) && r.seat < |r.table.players|
  {
    var driven := Driven(r, cards, strength, env);
    DrivenKeeps(r, cards, strength, env);
    if driven.refusal.Some? then driven
    else Decided(driven.replica, turnStarted, leaving, connected, ready, more, strength, env)
  }

  /** What the clock decides for the own player is signed and logged exactly if the own certificate is valid. */
  lemma {:induction false} DecidedExactly(r: Replica, turnStarted: Option<nat>, leaving: bool, connected: bool, ready: bool,
      more: Uncovered, strength: seq<Card> -> int, env: Env, actions: set<SignedAction>, receipts: set<Signature<Transcript>>)
    requires Sound(r, actions, receipts, strength) && env.actions <= actions && env.receipts <= receipts
    requires ValidLevel(r.table.level) && r.seat < |r.table.players|
    ensures var s := Decided(r, turnStarted, leaving, connected, ready, more, strength, env).replica;
            var decided := AutomaticAction(r, turnStarted, leaving, connected, ready, env.now);
            && SoundStep(r, s, actions + Added(r.log, s.log), receipts, strength)
            && (s.log == r.log || (r.hand.Some? && decided.Take? && s.log == r.log + [OwnAction(r, decided.action, env)]))
            && (s.log != r.log <==> decided.Take? && env.certified)
  {
    hide Sound, Keeps, KeepsLog, Told, Follows, OwnReceipts, Acted, OwnAction, MayAct, ValidLevel, AutomaticAction;
    SoundShape(r, actions, receipts, strength);
    NothingChanged(r, actions, receipts, strength);
    assert actions + {} == actions;
    var decided := AutomaticAction(r, turnStarted, leaving, connected, ready, env.now);
    if decided.Take? {
      if r.hand.Some? { assert |r.log + [OwnAction(r, decided.action, env)]| == |r.log| + 1; }
      ActedSound(r, decided.action, connected, ready, more, strength, env, actions, receipts);
      AutomaticMayAct(r, turnStarted, leaving, connected, ready, env, actions);
    }
  }

  lemma {:induction false} TickedSound(r: Replica, turnStarted: Option<nat>, leaving: bool, connected: bool, ready: bool,
      cards: Uncovered, more: Uncovered, strength: seq<Card> -> int, env: Env,
      actions: set<SignedAction>, receipts: set<Signature<Transcript>>)
    requires Sound(r, actions, receipts, strength) && env.actions <= actions && env.receipts <= receipts
    requires ValidLevel(r.table.level) && r.seat < |r.table.players|
    ensures var s := Ticked(r, turnStarted, leaving, connected, ready, cards, more, strength, env).replica;
            SoundStep(r, s, actions + Added(r.log, s.log), receipts, strength)
  {
    hide Sound, Follows, OwnReceipts, Driven, Decided, OwnAction, ValidLevel, AutomaticAction;
    DrivenKeeps(r, cards, strength, env);
    DrivenSound(r, cards, strength, env, actions, receipts);
    var s := Driven(r, cards, strength, env).replica;
    assert actions + {} == actions;
    if Driven(r, cards, strength, env).refusal.None? {
      DecidedExactly(s, turnStarted, leaving, connected, ready, more, strength, env, actions, receipts + OwnReceipts(s));
      var t := Decided(s, turnStarted, leaving, connected, ready, more, strength, env).replica;
      var signed := actions + Added(s.log, t.log);
      SoundByMore(r, s, actions, signed, receipts, strength);
      SoundOn(r, s, t, signed, receipts, strength);
    }
  }

  lemma {:induction false} SoundByMore(r: Replica, s: Replica, few: set<SignedAction>, many: set<SignedAction>,
      receipts: set<Signature<Transcript>>, strength: seq<Card> -> int)
    requires SoundStep(r, s, few, receipts, strength) && few <= many
    ensures SoundStep(r, s, many, receipts, strength)
  {
    hide KeepsLog, Tallied, Told, Follows, OwnReceipts;
    KeptByMore(s, few, many);
  }

  method Tick(hand: ActiveHand, turnStarted: Option<nat>, leaving: bool, connected: bool, ready: bool, cards: Uncovered,
      more: Uncovered, strength: seq<Card> -> int, env: Env,
      ghost actions: set<SignedAction>, ghost receipts: set<Signature<Transcript>>) returns (refusal: Option<Refusal>)
    requires Sound(hand.Value(), actions, receipts, strength) && env.actions <= actions && env.receipts <= receipts
    requires ValidLevel(hand.table.level) && hand.seat < |hand.table.players|
    modifies hand
    ensures Step(hand.Value(), refusal)
            == Ticked(old(hand.Value()), turnStarted, leaving, connected, ready, cards, more, strength, env)
    ensures SoundStep(old(hand.Value()), hand.Value(), actions + Added(old(hand.log), hand.log), receipts, strength)
  {
    hide Sound, SoundStep, CommitLocal, Driven, OwnAction, ValidLevel, AutomaticAction, Added;
    TickedSound(hand.Value(), turnStarted, leaving, connected, ready, cards, more, strength, env, actions, receipts);
    DrivenKeeps(hand.Value(), cards, strength, env);
    refusal := Drive(hand, cards, strength, env);
    if refusal.Some? { return; }
    match AutomaticAction(hand.Value(), turnStarted, leaving, connected, ready, env.now) {
      case Nothing => return None;
      case Missing => return Some(HandMissing);
      case Take(action) =>
        CommitLocalKeepsTable(hand.Value(), action, connected, ready, env);
        refusal := hand.CommitLocal(action, connected, ready, env);
        if refusal.Some? { return; }
        refusal := Drive(hand, more, strength, env);
    }
  }
}
