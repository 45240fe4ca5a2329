/** What a replica does with what it is given: when an action waits, when it enters the log, when the cards let the
    hand go on, and when a receipt becomes final. */
module Progress {
  import opened Chips
  import opened Stakes
  import opened Holdem
  import opened Betting
  import opened Receipts
  import opened Consensus
  import opened ActionLog
  import opened LogInvariant
  import opened AgreedReceipts

  /** Nothing stands in the way of the next action. */
  predicate Open(r: Replica) { r.conflict.None? && r.request.None? && !r.settled && r.hand.Some? }

  /** The next action, signed for the present public state by the device of the player whose turn it is. */
  ghost predicate Due(r: Replica, a: SignedAction, env: Env) {
    && Open(r) && KnownSeat(r.table, a.seat) && VerifiesAction(a, r.table, r.sequence + 1, PublicStateOf(r), a.seat, env)
    && Awaiting(r.hand.value) && Legal(r.hand.value, r.table.players[a.seat - 1], a.action)
  }

  lemma {:induction false} LegalIsNext(h: Hand, player: PlayerId, action: PlayerAction)
    requires Awaiting(h) && Legal(h, player, action)
    ensures NextPlayer(h) == Some(player)
  {
  }

  /** An action from the network enters the log at once exactly if it is due. */
  lemma {:induction false} TakenAtOnce(r: Replica, a: SignedAction, env: Env, actions: set<SignedAction>)
    requires KeepsLog(r, actions)
    ensures AcceptOrDefer(r, r.sequence + 1, a, env).replica.log == r.log + [a] <==> Due(r, a, env)
  {
    hide CommitAction, PublicStateOf, Awaiting, Legal, KeepsLog;
    CommittedExactly(r, a, env, actions);
    assert r.log + [a] != r.log by { assert |r.log + [a]| == |r.log| + 1; }
    if Due(r, a, env) { LegalIsNext(r.hand.value, r.table.players[a.seat - 1], a.action); }
  }

  /** An action is held back exactly if it is properly signed for another public state, or comes while cards are
      awaited, by the player whose turn it is, and none is held back for that place yet. */
  lemma {:induction false} HeldBack(r: Replica, a: SignedAction, env: Env)
    requires r.sequence + 1 !in r.deferred
    ensures r.sequence + 1 in AcceptOrDefer(r, r.sequence + 1, a, env).replica.deferred
            <==> (&& KnownSeat(r.table, a.seat) && VerifiesAction(a, r.table, r.sequence + 1, a.expected, a.seat, env)
                  && r.hand.Some? && NextPlayer(r.hand.value) == Some(r.table.players[a.seat - 1])
                  && (r.request.Some? || PublicStateOf(r) != a.expected))
    ensures r.sequence + 1 in AcceptOrDefer(r, r.sequence + 1, a, env).replica.deferred
            ==> AcceptOrDefer(r, r.sequence + 1, a, env) == Done(r.(deferred := r.deferred[r.sequence + 1 := a]))
  {
    hide CommitAction, PublicStateOf, VerifiesAction;
    CommitKeepsDeferred(r, r.sequence + 1, a, env);
  }

  lemma {:induction false} DrainUnfolds(r: Replica, env: Env)
    requires r.request.None? && !r.settled && r.hand.Some? && r.sequence + 1 in r.deferred
    requires PublicStateOf(r) == r.deferred[r.sequence + 1].expected
    ensures var step := CommitAction(r.(deferred := r.deferred - {r.sequence + 1}), r.sequence + 1, r.deferred[r.sequence + 1], env);
            CommitDeferred(r, env) == if step.refusal.Some? then step else CommitDeferred(step.replica, env)
  {
    hide CommitAction, PublicStateOf;
    TakeOne(r.deferred, r.sequence + 1);
    CommitKeepsDeferred(r.(deferred := r.deferred - {r.sequence + 1}), r.sequence + 1, r.deferred[r.sequence + 1], env);
  }

  lemma {:induction false} DueWithoutHeldBack(r: Replica, taken: Replica, a: SignedAction, env: Env)
    requires taken == r.(deferred := taken.deferred) && Due(r, a, env)
    ensures Due(taken, a, env)
  {
    hide Awaiting, Legal, PublicStateOf, VerifiesAction;
    SamePublicState(r, taken);
  }

  lemma {:induction false} DueIsCommitted(r: Replica, a: SignedAction, env: Env, actions: set<SignedAction>)
    requires KeepsLog(r, actions) && Due(r, a, env)
    ensures CommitAction(r, r.sequence + 1, a, env).replica.log == r.log + [a]
  {
    hide CommitAction, KeepsLog, Awaiting, Legal, PublicStateOf, VerifiesAction;
    CommittedExactly(r, a, env, actions);
  }

  /** Going on with what is held back only adds to the log. */
  lemma {:induction false} DrainGoesOn(taken: Replica, next: nat, a: SignedAction, env: Env, actions: set<SignedAction>,
      receipts: set<Signature<Transcript>>)
    requires Keeps(taken, actions, receipts) && env.actions <= actions && env.receipts <= receipts
    ensures var s := CommitAction(taken, next, a, env).replica; s.log <= CommitDeferred(s, env).replica.log
  {
    hide CommitAction, CommitDeferred, Keeps, StepKeeps, OwnReceipts;
    var s := CommitAction(taken, next, a, env).replica;
    CommitKeeps(taken, next, a, env, actions, receipts);
    StepKept(taken, s, actions, receipts);
    CommitDeferredKeeps(s, env, actions, receipts + OwnReceipts(s));
    LogOnly(s, CommitDeferred(s, env).replica, actions, receipts + OwnReceipts(s));
  }

  /** A held-back action enters the log once it is due. */
  lemma {:induction false} HeldBackIsTaken(r: Replica, env: Env, actions: set<SignedAction>,
      receipts: set<Signature<Transcript>>)
    requires Keeps(r, actions, receipts) && env.actions <= actions && env.receipts <= receipts
    requires r.sequence + 1 in r.deferred && Due(r, r.deferred[r.sequence + 1], env)
    ensures r.log + [r.deferred[r.sequence + 1]] <= CommitDeferred(r, env).replica.log
  {
    hide *;
    var (next, a) := (r.sequence + 1, r.deferred[r.sequence + 1]);
    var taken := r.(deferred := r.deferred - {next});
    DueExpected(r, a, env);
    DrainUnfolds(r, env);
    DeferKeeps(r, taken.deferred, actions, receipts);
    KeepsIsLog(taken, actions, receipts);
    DueWithoutHeldBack(r, taken, a, env);
    DueIsCommitted(taken, a, env, actions);
    DrainGoesOn(taken, next, a, env, actions, receipts);
  }

  lemma {:induction false} StepKept(r: Replica, s: Replica, actions: set<SignedAction>,
      receipts: set<Signature<Transcript>>)
    requires StepKeeps(r, s, actions, receipts)
    ensures Keeps(s, actions, receipts + OwnReceipts(s))
  {
    hide Keeps, OwnReceipts;
  }

  lemma {:induction false} DueExpected(r: Replica, a: SignedAction, env: Env)
    requires Due(r, a, env)
    ensures Open(r) && r.request.None? && !r.settled && r.hand.Some? && PublicStateOf(r) == a.expected
  {
    hide Awaiting, Legal, PublicStateOf;
  }

  lemma {:induction false} KeepsIsLog(r: Replica, actions: set<SignedAction>, receipts: set<Signature<Transcript>>)
    requires Keeps(r, actions, receipts)
    ensures KeepsLog(r, actions)
  {
    hide KeepsLog, Tallied;
  }

  lemma {:induction false} SamePublicState(r: Replica, s: Replica)
    requires r.hand.Some? && s == r.(deferred := s.deferred)
    ensures PublicStateOf(s) == PublicStateOf(r)
  {
  }

  lemma {:induction false} LogOnly(r: Replica, s: Replica, actions: set<SignedAction>,
      receipts: set<Signature<Transcript>>)
    requires StepKeeps(r, s, actions, receipts)
    ensures r.log <= s.log
  {
    hide Keeps;
  }

  /** The hand waits for cards, is settled, or holds back no action that fits the next place. */
  ghost predicate Drained(r: Replica) {
    || r.request.Some? || r.settled || r.sequence + 1 !in r.deferred
    || (r.hand.Some? && PublicStateOf(r) != r.deferred[r.sequence + 1].expected)
  }

  /** When the held-back actions have been gone through without a refusal, the next place has none that fits. */
  lemma {:induction false} NothingFitsAnyMore(r: Replica, env: Env)
    requires CommitDeferred(r, env).refusal.None?
    ensures Drained(CommitDeferred(r, env).replica)
    decreases |r.deferred|
  {
    hide CommitAction, PublicStateOf;
    var next := r.sequence + 1;
    if r.request.None? && !r.settled && next in r.deferred && r.hand.Some? && PublicStateOf(r) == r.deferred[next].expected {
      var taken := r.(deferred := r.deferred - {next});
      TakeOne(r.deferred, next);
      CommitKeepsDeferred(taken, next, r.deferred[next], env);
      NothingFitsAnyMore(CommitAction(taken, next, r.deferred[next], env).replica, env);
    }
  }

  /** Cards of a street let the betting go on as soon as all of them are known, and change nothing else. */
  lemma {:induction false} StreetCardsResume(r: Replica, shares: seq<nat>, found: map<nat, Card>,
      strength: seq<Card> -> int, env: Env)
    requires r.conflict.None? && r.request.Some? && r.request.value.reason.StreetCards?
    ensures var s := Uncover(r, shares, found, strength, env).replica;
            && (s.request.None? <==> forall k :: k in r.request.value.indices ==> k in r.cards || k in found)
            && s == r.(mental := r.mental + shares, cards := s.cards, request := s.request)
            && (forall k :: k in s.cards <==> k in r.cards || (k in found && k in r.request.value.indices))
            && (forall k :: k in s.cards ==> s.cards[k] == if k in r.cards then r.cards[k] else found[k])
  {
  }

  /** The signature that completes the tally makes the receipt final. */
  lemma {:induction false} LastSignatureFinalizes(r: Replica, s: Signature<Transcript>, env: Env,
      receipts: set<Signature<Transcript>>)
    requires Tallied(r, receipts) && r.tally.Some? && !r.tally.value.finalized
    requires HeaderMatches(r.table, r.tally.value.receipt) && VerifiesFor(s, r.tally.value.receipt, env.receipts)
    requires s.certificate.player !in r.tally.value.signatures
    requires r.tally.value.signatures.Keys + {s.certificate.player} == Participants(r.tally.value.receipt)
    requires forall p :: p in r.tally.value.signatures ==> r.tally.value.signatures[p] in env.receipts
    requires OutcomeFor(r.tally.value.receipt, r.certificate.player).Some?
    ensures AcceptReceipt(r, r.tally.value.receipt, s, env).replica.final.Some?
    ensures AcceptReceipt(r, r.tally.value.receipt, s, env).replica.final.value.receipt == r.tally.value.receipt
  {
    hide HeaderMatches, CoSignedBy, Collected, Participants, ValidReceipt, Bundle;
    var t := r.tally.value;
    AddKeepsCollected(t, t.receipt, s, env.receipts);
    var next := t.(signatures := t.signatures[s.certificate.player := s]);
    assert AddSignature(t, t.receipt, s, env.receipts) == (next, Accepted(true)) by { hide VerifiesFor; }
    assert next.signatures.Keys == t.signatures.Keys + {s.certificate.player};
    assert VerifiesFor(s, t.receipt, env.receipts) ==> s in env.receipts;
    FinalizesWhenComplete(next, env.receipts);
    BundleReceipt(next);
  }
}
