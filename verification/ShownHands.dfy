/** The hand of a replica is told by its log, its cards and what it waits for: in every run, to the end of the hand
    and beyond a showdown that cannot be settled. */
module ShownHands {
  import opened Chips
  import opened Stakes
  import opened Holdem
  import opened Betting
  import opened Runs
  import opened SidePots
  import opened Showdowns
  import opened Receipts
  import opened Consensus
  import opened ActionLog
  import opened LogInvariant
  import opened Replication
  import opened Agreement
  import opened AgreedReceipts

  // ----- What is told -----

  /** The settlement of a showdown with these cards. */
  ghost function Turned(h: PlayableHand, n: nat, cards: map<nat, Card>, strength: seq<Card> -> int): Attempt<Hand, seq<PlayerSettlement>>
    requires AllShown(h, n, cards)
  {
    ShownHoles(h, n, cards);
    SettleShowdown(h, Board(n, cards), Holes(h.seats, cards), strength)
  }

  lemma {:induction false} HolesCover(seats: seq<Seat>, cards: map<nat, Card>)
    requires forall i :: 0 <= i < |seats| && IsContender(seats[i]) ==> 2 * i in cards && 2 * i + 1 in cards
    ensures forall i :: 0 <= i < |seats| && IsContender(seats[i]) ==> seats[i].player in Holes(seats, cards)
  {
    if |seats| > 0 { HolesCover(seats[..|seats| - 1], cards); }
  }

  lemma {:induction false} ContendersHaveHoles(h: Hand, n: nat, cards: map<nat, Card>)
    requires AllShown(h, n, cards)
    ensures forall k :: k in BoardIndices(n) ==> k in cards
    ensures forall i :: 0 <= i < |h.seats| && IsContender(h.seats[i]) ==> 2 * i in cards && 2 * i + 1 in cards
    ensures forall p :: p in Contenders(h.seats) ==> p in Holes(h.seats, cards)
    ensures forall i :: 0 <= i < |h.seats| && IsContender(h.seats[i]) ==> h.seats[i].player in Holes(h.seats, cards)
  {
    hide AllShown, BoardIndices;
    ShownHoles(h, n, cards);
    HolesCover(h.seats, cards);
    PlayersWhereMembers(h.seats, IsContender);
  }

  /** Some card is on the board or in a contender's hand twice. */
  ghost predicate Repeats(h: Hand, n: nat, cards: map<nat, Card>)
    requires AllShown(h, n, cards)
  {
    ContendersHaveHoles(h, n, cards);
    HasDuplicate(Board(n, cards) + HoleCards(Contenders(h.seats), Holes(h.seats, cards)))
  }

  /** With all cards of a showdown known, it settles unless the pot is orphaned or a card repeats; only a repeated card
      leaves the hand as it was. */
  lemma {:induction false} TurnedSettles(h: PlayableHand, n: nat, cards: map<nat, Card>, strength: seq<Card> -> int)
    requires AtShowdown(h) && AllShown(h, n, cards)
    ensures var a := Turned(h, n, cards, strength);
            && (a.result.Ok? <==> !OrphanedPot(h.seats) && !Repeats(h, n, cards))
            && (a.state == h <==> Repeats(h, n, cards))
  {
    hide AllShown, AtShowdown, OrphanedPot, SettleShowdown, SettleRanked, HasDuplicate, HoleCards, Board, Holes;
    hide RanksPaid, FairlyPaid, PaidInPart, Ranks, RanksKnown, Settled;
    ContendersHaveHoles(h, n, cards);
    var (board, holes) := (Board(n, cards), Holes(h.seats, cards));
    ShowdownOfCards(h, board, holes, strength);
    if !Repeats(h, n, cards) { ShowdownSettles(h, Ranks(Contenders(h.seats), board, holes, strength)); }
  }

  /** While cards are awaited the hand is where the log leads, and exactly the cards of the street or of the showdown
      are asked for. */
  ghost predicate ToldWaiting(r: Replica)
    requires Rostered(r.table) && r.hand.Some? && r.request.Some?
  {
    var h := Replay(r.table, r.log);
    && r.hand.value == h && !r.settled
    && if r.request.value.reason.StreetCards? then Awaiting(h) && Some(r.request.value.indices) == StreetIndices(h.street, |r.table.players|)
       else AtShowdown(h) && r.request.value.indices == ShowdownIndices(h.seats, |r.table.players|)
  }

  /** Otherwise the hand is where the log leads, and at a showdown what the cards make of it; it is settled exactly
      when the betting has ended it or the showdown could be settled. */
  ghost predicate ToldReady(r: Replica, strength: seq<Card> -> int)
    requires Rostered(r.table) && r.hand.Some? && r.request.None?
  {
    var (h, n) := (Replay(r.table, r.log), |r.table.players|);
    if AtShowdown(h) then
      && AllShown(h, n, r.cards) && r.hand.value == Turned(h, n, r.cards, strength).state
      && (r.settled <==> Turned(h, n, r.cards, strength).result.Ok?)
    else r.hand.value == h && (r.settled <==> !Awaiting(h))
  }

  ghost predicate Told(r: Replica, strength: seq<Card> -> int) {
    && Rostered(r.table)
    && if r.hand.None? then r.log == [] && r.request.None? && !r.settled
       else if r.request.Some? then ToldWaiting(r)
       else ToldReady(r, strength)
  }

  /** Only these fields tell. */
  lemma {:induction false} SameTold(r: Replica, s: Replica, strength: seq<Card> -> int)
    requires Told(r, strength) && s.table == r.table
    requires s.hand == r.hand && s.log == r.log && s.cards == r.cards && s.request == r.request && s.settled == r.settled
    ensures Told(s, strength)
  {
    hide Rostered, Awaiting, AtShowdown, Turned, AllShown, Replay;
  }

  // ----- Committing -----

  lemma {:induction false} StreetIsKnown(before: Hand, street: Street, n: nat)
    requires StreetsLeft(street) > 0 && StreetsLeft(street) < StreetsLeft(before.street)
    ensures StreetIndices(street, n).Some?
  {
  }

  lemma {:induction false} NoShowdownYet(h: Hand)
    requires Awaiting(h) || h.street.Complete?
    ensures !AtShowdown(h) && (h.street.Complete? ==> !Awaiting(h)) && (Awaiting(h) ==> StreetsLeft(h.street) > 0)
  {
  }

  lemma {:induction false} OutcomeTells(r: Replica, r': Replica, outcome: Outcome, env: Env, actions: set<SignedAction>, strength: seq<Card> -> int)
    requires Rostered(r.table) && Advanced(r, r', actions) && r.hand.Some? && r.request.None? && !r.settled
    requires OutcomeHonest(r.hand.value, r'.hand.value, outcome)
    ensures Told(HandleOutcome(r', outcome, env).replica, strength)
  {
    hide FinishSettlement, StreetIndices, ShowdownIndices, Awaiting, AtShowdown, Replay, Chained, Numbered, Rostered, Turned, AllShown;
    var h := r'.hand.value;
    if outcome.HandComplete? {
      NoShowdownYet(h);
      FinishKeeps(r', outcome.settlement, env);
    } else if outcome.StreetAdvanced? {
      NoShowdownYet(h);
      StreetIsKnown(r.hand.value, outcome.street, |r.table.players|);
    } else if outcome.WaitingFor? {
      NoShowdownYet(h);
    }
  }

  /** Committing an action keeps the hand told. */
  lemma {:induction false} CommitTells(r: Replica, sequence: nat, a: SignedAction, env: Env,
      actions: set<SignedAction>, strength: seq<Card> -> int)
    requires KeepsLog(r, actions) && env.actions <= actions && Told(r, strength)
    ensures Told(CommitAction(r, sequence, a, env).replica, strength)
  {
    hide Told, Act, PublicStateOf, VerifiesAction, HandleOutcome, Awaiting, OutcomeHonest, Replay, Rostered, Advanced;
    hide Chained, Numbered, HandFollowsLog, ConflictProven;
    if sequence in r.committed {
      SameTold(r, ResolveReplayed(r, sequence, r.committed[sequence], a, env).replica, strength);
    } else if r.conflict.None? && sequence == r.sequence + 1 && KnownSeat(r.table, a.seat) && r.hand.Some?
              && VerifiesAction(a, r.table, sequence, PublicStateOf(r), a.seat, env) && r.request.None? && !r.settled {
      var player := r.table.players[a.seat - 1];
      var acted := Act(r.hand.value, player, a.action);
      OnlyAwaitingHandsAct(r, actions, player, a.action);
      if acted.result.Ok? {
        AppendKeeps(r, a, env, actions);
        OutcomeTells(r, Appended(r, acted.state, a), acted.result.value, env, actions, strength);
      }
    }
  }

  lemma {:induction false} AcceptOrDeferTells(r: Replica, sequence: nat, a: SignedAction, env: Env,
      actions: set<SignedAction>, strength: seq<Card> -> int)
    requires KeepsLog(r, actions) && env.actions <= actions && Told(r, strength)
    ensures Told(AcceptOrDefer(r, sequence, a, env).replica, strength)
  {
    hide CommitAction, PublicStateOf, VerifiesAction, Told, Rostered, Chained, Numbered, HandFollowsLog, ConflictProven;
    CommitTells(r, sequence, a, env, actions, strength);
    SameTold(r, r.(deferred := r.deferred[sequence := a]), strength);
  }

  lemma {:induction false} CommitDeferredTells(r: Replica, env: Env, actions: set<SignedAction>, receipts: set<Signature<Transcript>>, strength: seq<Card> -> int)
    requires Keeps(r, actions, receipts) && env.actions <= actions && env.receipts <= receipts
    requires Told(r, strength)
    ensures Told(CommitDeferred(r, env).replica, strength)
    decreases |r.deferred|
  {
    hide CommitAction, PublicStateOf, Told, Rostered, KeepsLog, Tallied, OwnReceipts;
    var next := r.sequence + 1;
    if r.request.None? && !r.settled && next in r.deferred && r.hand.Some? && PublicStateOf(r) == r.deferred[next].expected {
      var taken := r.(deferred := r.deferred - {next});
      TakeOne(r.deferred, next);
      DeferKeeps(r, taken.deferred, actions, receipts);
      SameTold(r, taken, strength);
      CommitTells(taken, next, r.deferred[next], env, actions, strength);
      CommitKeeps(taken, next, r.deferred[next], env, actions, receipts);
      CommitKeepsDeferred(taken, next, r.deferred[next], env);
      var step := CommitAction(taken, next, r.deferred[next], env);
      if step.refusal.None? {
        CommitDeferredTells(step.replica, env, actions, receipts + OwnReceipts(step.replica), strength);
      }
    }
  }

  lemma {:induction false} CommitLocalTells(r: Replica, action: PlayerAction, connected: bool, ready: bool, env: Env,
      actions: set<SignedAction>, strength: seq<Card> -> int)
    requires KeepsLog(r, actions) && env.actions <= actions && Told(r, strength) && r.seat < |r.table.players|
    ensures Told(CommitLocal(r, action, connected, ready, env).replica, strength)
  {
    hide KeepsLog, CommitAction, OwnAction, Told, Rostered;
    if r.hand.Some? {
      var signed := OwnAction(r, action, env);
      KeptByMore(r, actions, actions + {signed});
      CommitTells(r, r.sequence + 1, signed, env.(actions := env.actions + {signed}), actions + {signed}, strength);
    }
  }

  // ----- Cards -----

  lemma {:induction false} DealTells(r: Replica, shares: seq<nat>, strength: seq<Card> -> int)
    requires Told(r, strength)
    ensures Told(Deal(r, shares).replica, strength)
  {
    hide Rostered, Start, AllShown, Turned, Awaiting, AtShowdown;
    if r.hand.Some? || r.conflict.Some? {
    } else {
      var opening := Opening(r.table);
      assert Replay(r.table, []) == opening;
      NoShowdownYet(opening);
    }
  }

  lemma {:induction false} SettleShownTells(r: Replica, strength: seq<Card> -> int, env: Env)
    requires Rostered(r.table) && r.hand.Some? && r.request.None? && !r.settled && r.hand.value == Replay(r.table, r.log)
    requires AtShowdown(r.hand.value) && AllShown(r.hand.value, |r.table.players|, r.cards)
    ensures Told(SettleShown(r, strength, env).replica, strength)
  {
    hide Rostered, Awaiting, AtShowdown, FinishSettlement, SettleShowdown, Board, Holes, AllShown, Replay;
    var (h, n) := (r.hand.value, |r.table.players|);
    ShownHoles(h, n, r.cards);
    ShowdownStaysPlayable(h, Board(n, r.cards), Holes(h.seats, r.cards), strength);
    var done := Turned(h, n, r.cards, strength);
    if done.result.Ok? { FinishKeeps(r.(hand := Some(done.state)), done.result.value, env); }
  }

  /** Uncovered cards keep the hand told: street cards let it go on, showdown cards settle it or show that they cannot. */
  lemma {:induction false} UncoverTells(r: Replica, shares: seq<nat>, found: map<nat, Card>, strength: seq<Card> -> int, env: Env)
    requires Told(r, strength)
    ensures Told(Uncover(r, shares, found, strength, env).replica, strength)
  {
    hide Rostered, Told, SettleShown, Turned, Replay;
    if r.conflict.None? && r.request.Some? {
      var wanted := r.request.value;
      var shown := r.(mental := r.mental + shares,
                      cards := r.cards + (map k | k in found && k in wanted.indices && k !in r.cards :: found[k]));
      CardsTell(r, shown, strength);
      if wanted.indices <= shown.cards.Keys { AllCardsTell(shown, strength, env); }
    }
  }

  /** More cards tell nothing while others are awaited. */
  lemma {:induction false} CardsTell(r: Replica, s: Replica, strength: seq<Card> -> int)
    requires Told(r, strength) && r.request.Some? && s == r.(mental := s.mental, cards := s.cards)
    ensures Told(s, strength)
  {
    hide Rostered, Awaiting, AtShowdown, Turned, Replay, StreetIndices, ShowdownIndices;
  }

  lemma {:induction false} AllCardsTell(r: Replica, strength: seq<Card> -> int, env: Env)
    requires Told(r, strength) && r.request.Some? && r.request.value.indices <= r.cards.Keys
    ensures var done := r.(request := None);
            Told(if r.request.value.reason.StreetCards? then done else SettleShown(done, strength, env).replica, strength)
  {
    hide Rostered, Awaiting, AtShowdown, SettleShown, Turned, Replay, StreetIndices, ShowdownIndices;
    var done := r.(request := None);
    if r.request.value.reason.StreetCards? {
      NoShowdownYet(r.hand.value);
    } else {
      SettleShownTells(done, strength, env);
    }
  }

  lemma {:induction false} AcceptReceiptTells(r: Replica, receipt: Receipt<Transcript>, s: Signature<Transcript>, env: Env, strength: seq<Card> -> int)
    requires Told(r, strength)
    ensures Told(AcceptReceipt(r, receipt, s, env).replica, strength)
  {
    hide AcceptReceipt, Told, Rostered;
    AcceptReceiptKeeps(r, receipt, s, env);
    SameTold(r, AcceptReceipt(r, receipt, s, env).replica, strength);
  }

  // ----- Runs -----

  lemma {:induction false} SteppedTells(sys: System, e: Event, strength: seq<Card> -> int)
    requires Holds(sys) && !e.SignedElsewhere? && e.seat in sys.honest
    requires HoldsAt(sys, e.seat) && Told(sys.replicas[e.seat], strength)
    ensures e.seat in Next(sys, e, strength).replicas && Told(Next(sys, e, strength).replicas[e.seat], strength)
  {
    hide Rostered, Told, KeepsLog, CommitLocal, AcceptOrDefer, CommitDeferred, Uncover, AcceptReceipt, Deal;
    hide NewActions, OwnReceipts, ActionOf, ReceiptOf, InOwnLog, OwnReceipt, Tallied;
    var r := sys.replicas[e.seat];
    ReplicaShape(r, sys.actions, sys.receipts);
    match e
    case Deals(_, shares) => DealTells(r, shares, strength);
    case Acts(_, action, connected, ready, env) =>
      CommitLocalTells(r, action, connected, ready, Existing(sys, env), sys.actions, strength);
    case Receives(_, sequence, signed, env) => AcceptOrDeferTells(r, sequence, signed, Existing(sys, env), sys.actions, strength);
    case Drains(_, env) => CommitDeferredTells(r, Existing(sys, env), sys.actions, sys.receipts, strength);
    case Shows(_, shares, found, env) => UncoverTells(r, shares, found, strength, Existing(sys, env));
    case ReceivesReceipt(_, receipt, signature, env) => AcceptReceiptTells(r, receipt, signature, Existing(sys, env), strength);
  }

  lemma {:induction false} OthersUnmoved(sys: System, e: Event, strength: seq<Card> -> int, i: nat)
    requires Holds(sys) && i in sys.honest && (e.SignedElsewhere? || e.seat != i)
    ensures i in sys.replicas && i in Next(sys, e, strength).replicas && Next(sys, e, strength).replicas[i] == sys.replicas[i]
  {
    hide HoldsAt, Rostered, Stepped, NewActions, OwnReceipts, ActionOf, ReceiptOf, InOwnLog, OwnReceipt;
  }

  lemma {:induction false} LastStep(sys: System, events: seq<Event>, k: nat, strength: seq<Card> -> int)
    requires Initial(sys) && k <= |events|
    ensures k == 0 ==> After(sys, events, k, strength) == sys
    ensures k > 0 ==> After(sys, events, k, strength) == Next(After(sys, events, k - 1, strength), events[k - 1], strength)
  {
    hide Initial, Holds, Next, Follows;
  }

  lemma {:induction false} FreshIsTold(sys: System, strength: seq<Card> -> int, i: nat)
    requires Initial(sys) && i in sys.honest
    ensures i in sys.replicas && Told(sys.replicas[i], strength)
  {
    hide Rostered, ActionOf, ReceiptOf, ToldWaiting, ToldReady;
  }

  /** In every run the hand of every code-following replica is told. */
  lemma {:induction false} RunTells(sys: System, events: seq<Event>, k: nat, strength: seq<Card> -> int, i: nat)
    requires Initial(sys) && k <= |events| && i in sys.honest
    ensures i in After(sys, events, k, strength).replicas && Told(After(sys, events, k, strength).replicas[i], strength)
  {
    hide Rostered, Told, HoldsAt, ActionOf, ReceiptOf, InOwnLog, OwnReceipt, Next, Initial, After;
    LastStep(sys, events, k, strength);
    if k == 0 {
      FreshIsTold(sys, strength, i);
    } else {
      RunTells(sys, events, k - 1, strength, i);
      var (before, e) := (After(sys, events, k - 1, strength), events[k - 1]);
      if e.SignedElsewhere? || e.seat != i {
        OthersUnmoved(before, e, strength, i);
      } else {
        SteppedTells(before, e, strength);
      }
    }
  }

  // ----- One deck -----

  ghost predicate FromDeck(cards: map<nat, Card>, deck: nat -> Card) {
    forall k :: k in cards ==> cards[k] == deck(k)
  }

  /** Whatever is uncovered in a run comes from one deck. */
  ghost predicate DealtFrom(events: seq<Event>, deck: nat -> Card) {
    forall k :: 0 <= k < |events| && events[k].Shows? ==> FromDeck(events[k].found, deck)
  }

  lemma {:induction false} AcceptOrDeferKeepsCards(r: Replica, sequence: nat, a: SignedAction, env: Env)
    ensures AcceptOrDefer(r, sequence, a, env).replica.cards == r.cards
  {
    hide CommitAction, PublicStateOf, VerifiesAction;
    CommitKeepsDeferred(r, sequence, a, env);
  }

  lemma {:induction false} CommitDeferredKeepsCards(r: Replica, env: Env)
    ensures CommitDeferred(r, env).replica.cards == r.cards
    decreases |r.deferred|
  {
    hide CommitAction, PublicStateOf;
    var next := r.sequence + 1;
    if next in r.deferred {
      var taken := r.(deferred := r.deferred - {next});
      TakeOne(r.deferred, next);
      CommitKeepsDeferred(taken, next, r.deferred[next], env);
      CommitDeferredKeepsCards(CommitAction(taken, next, r.deferred[next], env).replica, env);
    }
  }

  lemma {:induction false} CommitLocalKeepsCards(r: Replica, action: PlayerAction, connected: bool, ready: bool, env: Env)
    requires r.seat < |r.table.players|
    ensures CommitLocal(r, action, connected, ready, env).replica.cards == r.cards
  {
    hide CommitAction, OwnAction;
    if r.hand.Some? {
      var signed := OwnAction(r, action, env);
      CommitKeepsDeferred(r, r.sequence + 1, signed, env.(actions := env.actions + {signed}));
    }
  }

  lemma {:induction false} SettleShownKeepsPlace(r: Replica, strength: seq<Card> -> int, env: Env)
    ensures var r' := SettleShown(r, strength, env).replica;
            r' == r.(hand := r'.hand, settled := r'.settled, tally := r'.tally, final := r'.final, waiting := r'.waiting)
  {
    hide FinishSettlement, SettleShowdown, Board, Holes, AllShown;
    var n := |r.table.players|;
    if r.hand.Some? && AllShown(r.hand.value, n, r.cards) {
      var h := r.hand.value;
      ShownHoles(h, n, r.cards);
      var (board, holes) := (Board(n, r.cards), Holes(h.seats, r.cards));
      ShowdownStaysPlayable(h, board, holes, strength);
      var done := SettleShowdown(h, board, holes, strength);
      if done.result.Ok? { FinishKeeps(r.(hand := Some(done.state)), done.result.value, env); }
    }
  }

  lemma {:induction false} MoreFromDeck(cards: map<nat, Card>, found: map<nat, Card>, wanted: set<nat>, deck: nat -> Card)
    requires FromDeck(cards, deck) && FromDeck(found, deck)
    ensures FromDeck(cards + (map k | k in found && k in wanted && k !in cards :: found[k]), deck)
  {
  }

  lemma {:induction false} UncoverFromDeck(r: Replica, shares: seq<nat>, found: map<nat, Card>, strength: seq<Card> -> int,
      env: Env, deck: nat -> Card)
    requires FromDeck(r.cards, deck) && FromDeck(found, deck)
    ensures FromDeck(Uncover(r, shares, found, strength, env).replica.cards, deck)
  {
    hide SettleShown, FromDeck;
    if r.request.Some? {
      var wanted := r.request.value;
      MoreFromDeck(r.cards, found, wanted.indices, deck);
      var shown := r.(mental := r.mental + shares, request := None,
                      cards := r.cards + (map k | k in found && k in wanted.indices && k !in r.cards :: found[k]));
      SettleShownKeepsPlace(shown, strength, env);
    }
  }

  lemma {:induction false} SteppedFromDeck(sys: System, e: Event, strength: seq<Card> -> int, deck: nat -> Card)
    requires Holds(sys) && !e.SignedElsewhere? && e.seat in sys.honest && HoldsAt(sys, e.seat)
    requires FromDeck(sys.replicas[e.seat].cards, deck) && (e.Shows? ==> FromDeck(e.found, deck))
    ensures e.seat in Next(sys, e, strength).replicas && FromDeck(Next(sys, e, strength).replicas[e.seat].cards, deck)
  {
    hide Rostered, FromDeck, Keeps, CommitLocal, AcceptOrDefer, CommitDeferred, Uncover, AcceptReceipt, Start;
    hide NewActions, OwnReceipts, ActionOf, ReceiptOf, InOwnLog, OwnReceipt;
    var r := sys.replicas[e.seat];
    ReplicaShape(r, sys.actions, sys.receipts);
    match e
    case Deals(_, shares) =>
    case Acts(_, action, connected, ready, env) => CommitLocalKeepsCards(r, action, connected, ready, Existing(sys, env));
    case Receives(_, sequence, signed, env) => AcceptOrDeferKeepsCards(r, sequence, signed, Existing(sys, env));
    case Drains(_, env) => CommitDeferredKeepsCards(r, Existing(sys, env));
    case Shows(_, shares, found, env) => UncoverFromDeck(r, shares, found, strength, Existing(sys, env), deck);
    case ReceivesReceipt(_, receipt, signature, env) => AcceptReceiptKeeps(r, receipt, signature, Existing(sys, env));
  }

  lemma {:induction false} RunFromDeck(sys: System, events: seq<Event>, k: nat, strength: seq<Card> -> int,
      deck: nat -> Card, i: nat)
    requires Initial(sys) && k <= |events| && i in sys.honest && DealtFrom(events, deck)
    ensures i in After(sys, events, k, strength).replicas && FromDeck(After(sys, events, k, strength).replicas[i].cards, deck)
  {
    hide Rostered, FromDeck, DealtFrom, HoldsAt, ActionOf, ReceiptOf, InOwnLog, OwnReceipt, Next, Initial, After;
    LastStep(sys, events, k, strength);
    if k == 0 {
      NothingFromDeck(sys, i, deck);
    } else {
      EventFromDeck(events, deck, k - 1);
      RunFromDeck(sys, events, k - 1, strength, deck, i);
      var (before, e) := (After(sys, events, k - 1, strength), events[k - 1]);
      if e.SignedElsewhere? || e.seat != i {
        OthersUnmoved(before, e, strength, i);
      } else {
        SteppedFromDeck(before, e, strength, deck);
      }
    }
  }

  lemma {:induction false} NothingFromDeck(sys: System, i: nat, deck: nat -> Card)
    requires Initial(sys) && i in sys.honest
    ensures i in sys.replicas && FromDeck(sys.replicas[i].cards, deck)
  {
    hide Rostered, ActionOf, ReceiptOf;
  }

  lemma {:induction false} EventFromDeck(events: seq<Event>, deck: nat -> Card, k: nat)
    requires k < |events| && DealtFrom(events, deck)
    ensures events[k].Shows? ==> FromDeck(events[k].found, deck)
  {
  }

  lemma {:induction false} SameHoles(seats: seq<Seat>, a: map<nat, Card>, b: map<nat, Card>, deck: nat -> Card)
    requires FromDeck(a, deck) && FromDeck(b, deck)
    requires forall i :: 0 <= i < |seats| && IsContender(seats[i]) ==> 2 * i in a && 2 * i + 1 in a && 2 * i in b && 2 * i + 1 in b
    ensures Holes(seats, a) == Holes(seats, b)
  {
    if |seats| > 0 { SameHoles(seats[..|seats| - 1], a, b, deck); }
  }

  /** The showdown cards of one deck are the same for everybody. */
  lemma {:induction false} TurnedSame(h: PlayableHand, n: nat, a: map<nat, Card>, b: map<nat, Card>, deck: nat -> Card,
      strength: seq<Card> -> int)
    requires AllShown(h, n, a) && AllShown(h, n, b) && FromDeck(a, deck) && FromDeck(b, deck)
    ensures Turned(h, n, a, strength) == Turned(h, n, b, strength) && Repeats(h, n, a) == Repeats(h, n, b)
  {
    hide AllShown, SettleShowdown, Holes, HasDuplicate, HoleCards;
    ContendersHaveHoles(h, n, a);
    ContendersHaveHoles(h, n, b);
    SameHoles(h.seats, a, b, deck);
    assert Board(n, a) == Board(n, b);
  }

  // ----- The main results -----

  /** The showdown cards of the hand are on the table. */
  ghost predicate Shown(r: Replica) {
    Rostered(r.table) && r.hand.Some? && r.request.None? && AtShowdown(Replay(r.table, r.log))
  }

  /** Two replicas with equally long logs have the same hand and agree on whether it is settled if both have turned the
      showdown cards or neither has. If only `q` has, `q` has the outcome of the showdown `r` still holds; the hands are
      then the same exactly if a card repeats. */
  ghost predicate SameHands(r: Replica, q: Replica, strength: seq<Card> -> int) {
    var n := |r.table.players|;
    && (Shown(r) == Shown(q) ==> r.hand == q.hand && r.settled == q.settled)
    && (!Shown(r) && Shown(q) ==>
          && r.hand.Some? && !r.settled && AllShown(r.hand.value, n, q.cards)
          && q.hand == Some(Turned(r.hand.value, n, q.cards, strength).state)
          && (q.settled <==> Turned(r.hand.value, n, q.cards, strength).result.Ok?)
          && (r.hand == q.hand <==> Repeats(r.hand.value, n, q.cards)))
  }

  lemma {:induction false} ToldAlike(r: Replica, q: Replica, strength: seq<Card> -> int, deck: nat -> Card)
    requires Told(r, strength) && Told(q, strength) && r.table == q.table && r.hand.Some? && q.hand.Some?
    requires Replay(r.table, r.log) == Replay(q.table, q.log) && FromDeck(r.cards, deck) && FromDeck(q.cards, deck)
    ensures SameHands(r, q, strength)
  {
    hide Rostered, Awaiting, AtShowdown, Turned, Replay, AllShown, FromDeck, Repeats, StreetIndices, ShowdownIndices;
    var (h, n) := (Replay(r.table, r.log), |r.table.players|);
    if Shown(r) && Shown(q) { TurnedSame(h, n, r.cards, q.cards, deck, strength); }
    if !Shown(r) && Shown(q) { TurnedSettles(h, n, q.cards, strength); }
    if Awaiting(h) { NoShowdownYet(h); }
  }

  /** If everybody follows the code, then in every run with one deck the logs say the same as far as both go, nobody
      sees a conflict, and equally long logs mean the same hand. */
  lemma {:induction false} LogAgreement(sys: System, events: seq<Event>, k: nat, strength: seq<Card> -> int,
      deck: nat -> Card, i: nat, j: nat)
    requires Initial(sys) && AllFollow(sys) && k <= |events| && DealtFrom(events, deck) && i in sys.honest && j in sys.honest
    ensures var now := After(sys, events, k, strength);
            && i in now.replicas && j in now.replicas
            && var (r, q) := (now.replicas[i], now.replicas[j]);
               && Comparable(r.log, q.log) && (OneCertificate(now) ==> r.log <= q.log || q.log <= r.log)
               && r.conflict.None?
               && (r.hand.None? ==> r.sequence == 0)
               && (r.sequence == q.sequence && r.hand.Some? && q.hand.Some? ==> SameHands(r, q, strength))
  {
    hide Rostered, HoldsAt, ActionOf, ReceiptOf, InOwnLog, OwnReceipt, Told, FromDeck, Replay, SameHands, After, Initial;
    var now := After(sys, events, k, strength);
    var (r, q) := (now.replicas[i], now.replicas[j]);
    SameLogs(now, i, j);
    SequenceIsLength(now, i);
    SequenceIsLength(now, j);
    NobodyAccused(now, i);
    RunTells(sys, events, k, strength, i);
    RunTells(sys, events, k, strength, j);
    RunFromDeck(sys, events, k, strength, deck, i);
    RunFromDeck(sys, events, k, strength, deck, j);
    SameTables(now, i, j);
    UndealtIsEmpty(r, strength);
    if r.sequence == q.sequence && r.hand.Some? && q.hand.Some? {
      SamePayloadsSameHand(now.table, r.log, q.log);
      ToldAlike(r, q, strength, deck);
    }
  }

  lemma {:induction false} UndealtIsEmpty(r: Replica, strength: seq<Card> -> int)
    requires Told(r, strength)
    ensures r.hand.None? ==> r.log == []
  {
    hide Rostered, ToldWaiting, ToldReady;
  }

  lemma {:induction false} SameTables(sys: System, i: nat, j: nat)
    requires Holds(sys) && i in sys.honest && j in sys.honest
    ensures Rostered(sys.table) && sys.replicas[i].table == sys.replicas[j].table == sys.table
  {
    hide Rostered, ActionOf, ReceiptOf, InOwnLog, OwnReceipt, Keeps;
    assert HoldsAt(sys, i) && HoldsAt(sys, j);
  }

  lemma {:induction false} NobodyAccused(sys: System, i: nat)
    requires Holds(sys) && AllFollow(sys) && i in sys.honest
    ensures i in sys.replicas && sys.replicas[i].conflict.None?
  {
    hide Rostered, HoldsAt, ActionOf, ReceiptOf, InOwnLog, OwnReceipt;
    if sys.replicas[i].conflict.Some? { NoFalseAccusation(sys, i); }
  }

  // ----- Showdowns that cannot be settled -----

  /** Nothing is added to a log that has led to a showdown. */
  lemma {:induction false} ShowdownEndsLog(sys: System, i: nat, n: nat)
    requires Holds(sys) && i in sys.honest && i in sys.replicas && n < |sys.replicas[i].log|
    ensures !AtShowdown(Replay(sys.table, sys.replicas[i].log[..n]))
  {
    hide Linked, Rostered, HoldsAt, ActionOf, ReceiptOf, InOwnLog, OwnReceipt, Replay, TableDealt;
    EntryLinked(sys, i, n);
    LinkedFacts(sys.table, sys.replicas[i].log, n);
  }

  lemma {:induction false} OrphanedUnsettled(r: Replica, strength: seq<Card> -> int)
    requires Told(r, strength) && AtShowdown(Replay(r.table, r.log)) && OrphanedPot(Replay(r.table, r.log).seats)
    ensures !r.settled
  {
    hide Rostered, AtShowdown, Turned, Replay, AllShown, OrphanedPot, Repeats;
    if r.hand.Some? && r.request.None? { TurnedSettles(Replay(r.table, r.log), |r.table.players|, r.cards, strength); }
  }

  lemma {:induction false} UnsettledHasNoReceipt(sys: System, i: nat)
    requires Holds(sys) && i in sys.honest && i in sys.replicas && !sys.replicas[i].settled
    ensures sys.replicas[i].tally.None? && sys.replicas[i].final.None?
  {
    hide Rostered, ActionOf, ReceiptOf, InOwnLog, OwnReceipt, KeepsLog, HeaderMatches, ValidReceipt, Collected, CoSignedBy;
    assert HoldsAt(sys, i);
  }

  /** Whoever follows the code and holds a log that leads to an orphaned pot adds nothing to it, never settles the hand
      and never has a final receipt, whatever happens in the rest of the run. */
  lemma {:induction false} OrphanedNeverSettled(sys: System, events: seq<Event>, k: nat, l: nat, strength: seq<Card> -> int, i: nat)
    requires Initial(sys) && k <= l <= |events| && i in sys.honest && i in After(sys, events, k, strength).replicas
    requires var h := Replay(sys.table, After(sys, events, k, strength).replicas[i].log); AtShowdown(h) && OrphanedPot(h.seats)
    ensures i in After(sys, events, l, strength).replicas
    ensures var (r, s) := (After(sys, events, k, strength).replicas[i], After(sys, events, l, strength).replicas[i]);
            s.log == r.log && !s.settled && s.tally.None? && s.final.None?
  {
    hide Rostered, HoldsAt, ActionOf, ReceiptOf, InOwnLog, OwnReceipt, Told, Replay, After, Initial, AtShowdown, OrphanedPot;
    FrozenForGood(sys, events, k, l, strength, i);
    var (r, now) := (After(sys, events, k, strength).replicas[i], After(sys, events, l, strength));
    var s := now.replicas[i];
    RunTells(sys, events, l, strength, i);
    SameTables(now, i, i);
    assert s.log[..|r.log|] == r.log;
    if |r.log| < |s.log| { ShowdownEndsLog(now, i, |r.log|); }
    assert s.log == r.log;
    OrphanedUnsettled(s, strength);
    UnsettledHasNoReceipt(now, i);
  }
}
