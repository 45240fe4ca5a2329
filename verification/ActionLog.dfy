/** One replica of a hand: the log of signed actions it has committed, the actions it holds back, and its settlement.
    A hash stands for what it is taken of, so two hashes are equal exactly when their inputs are. A signature is a
    token: `Env` says which signed values check out, and whether the own certificate is valid, at the time of a call. */
module ActionLog {
  import opened Chips
  import opened Stakes
  import opened Holdem
  import opened Bytes
  import opened BettingBytes
  import opened Receipts
  import opened Consensus

  // ----- What is signed -----

  datatype Scope = Scope(table: nat, hand: nat, roster: nat)

  /** The public state a player sees before acting, with the whole log behind it. */
  datatype PublicState = PublicState(
    scope: Scope, sequence: nat, betting: seq<byte>, mental: seq<nat>, log: seq<SignedAction>, cards: map<nat, Card>)

  datatype SignedAction = SignedAction(
    version: nat, scope: Scope, sequence: nat, expected: PublicState, seat: nat, player: PlayerId,
    action: PlayerAction, issuedAt: nat, certificate: Certificate)

  datatype Transcript = Transcript(mental: seq<nat>, log: seq<SignedAction>)

  /** The signed part of an action: all but the certificate that comes with it. */
  function Payload(a: SignedAction): SignedAction { a.(certificate := Certificate(0, 0, 0)) }

  // ----- State -----

  /** The frozen roster of a hand; seat numbers in messages count from one. */
  datatype Table = Table(
    scope: Scope, players: seq<PlayerId>, devices: seq<Key>, buyIns: seq<nat>, level: StakeLevel, dealer: nat)

  const EMPTY_HAND := Hand(
    StakeLevel("", 0, 0, 0, 0, 0, 0), 0, Preflop, [Seat(0, 0, 0, 0, 0, Active)], {}, {}, 0, 0, None)

  type PlayableHand = h: Hand | Playable(h) witness EMPTY_HAND

  datatype RequestReason = StreetCards | ShowdownCards

  datatype CardRequest = CardRequest(reason: RequestReason, indices: set<nat>)

  /** Two payloads signed by one device for the same place in the log. */
  datatype Evidence = Evidence(sequence: nat, accepted: SignedAction, conflicting: SignedAction)

  datatype Replica = Replica(
    table: Table, seat: nat, certificate: Certificate,
    hand: Option<PlayableHand>, sequence: nat, log: seq<SignedAction>,
    committed: map<nat, SignedAction>, deferred: map<nat, SignedAction>, conflict: Option<Evidence>,
    mental: seq<nat>, cards: map<nat, Card>, request: Option<CardRequest>,
    settled: bool, lastActionAt: Option<nat>,
    tally: Option<Tally<Transcript>>,
    waiting: map<PlayerId, (Receipt<Transcript>, Signature<Transcript>)>,
    final: Option<CoSigned<Transcript>>)

  datatype Env = Env(now: nat, certified: bool, actions: set<SignedAction>, receipts: set<Signature<Transcript>>)

  datatype Refusal =
    | Disconnected | Frozen | CannotActNow | NotReady | NotYourTurn | SequenceGap | UnknownSeat | BadSignature
    | HandMissing | Unbound | Illegal(error: HoldemError) | Inconsistent | CardsMissing | NoReceipt | ReceiptRefused

  datatype Step = Step(replica: Replica, refusal: Option<Refusal>)

  /** Before the deal. */
  function FreshReplica(table: Table, seat: nat, certificate: Certificate): Replica {
    Replica(table, seat, certificate, None, 0, [], map[], map[], None, [], map[], None, false, None, None, map[], None)
  }

  function Done(r: Replica): Step { Step(r, None) }

  function Refuse(r: Replica, why: Refusal): Step { Step(r, Some(why)) }

  // ----- Reading the state -----

  function PublicStateOf(r: Replica): PublicState
    requires r.hand.Some?
  {
    PublicState(r.table.scope, r.sequence, PublicBytes(r.hand.value), r.mental, r.log, r.cards)
  }

  predicate KnownSeat(t: Table, seat: nat) { 1 <= seat <= |t.players| && seat <= |t.devices| }

  /** The signature is by the device of the seat, for this hand, this place in the log and this public state. */
  predicate VerifiesAction(a: SignedAction, t: Table, sequence: nat, expected: PublicState, seat: nat, env: Env)
    requires KnownSeat(t, seat)
  {
    && a.version == 3 && a.scope == t.scope && a.sequence == sequence && a.expected == expected && a.seat == seat
    && a.player == t.players[seat - 1] && a.certificate.player == a.player && a.certificate.device == t.devices[seat - 1]
    && a in env.actions
  }

  function BoardIndices(n: nat): seq<nat> { [2 * n + 1, 2 * n + 2, 2 * n + 3, 2 * n + 5, 2 * n + 7] }

  function StreetIndices(street: Street, n: nat): Option<set<nat>> {
    var board := BoardIndices(n);
    match street
    case Flop => Some({board[0], board[1], board[2]})
    case Turn => Some({board[3]})
    case River => Some({board[4]})
    case _ => None
  }

  function ShowdownIndices(seats: seq<Seat>, n: nat): set<nat> {
    (set k | k in BoardIndices(n))
    + (set i | 0 <= i < |seats| && IsContender(seats[i]) :: 2 * i)
    + (set i | 0 <= i < |seats| && IsContender(seats[i]) :: 2 * i + 1)
  }

  // ----- Receipts -----

  /** The first half of the 32-byte table name. */
  function MatchId(t: Table): nat { t.scope.table / 0x1_0000_0000_0000_0000_0000_0000_0000_0000 }

  function PlayerIndex(players: seq<PlayerId>, player: PlayerId, from: nat := 0): (r: Option<nat>)
    requires from <= |players|
    ensures r.Some? ==> from <= r.value < |players| && players[r.value] == player
    ensures r.None? ==> forall i :: from <= i < |players| ==> players[i] != player
    decreases |players| - from
  {
    if from == |players| then None
    else if players[from] == player then Some(from)
    else PlayerIndex(players, player, from + 1)
  }

  /** The settlement with the device of each player, or nothing if a player is not at the table. */
  function Outcomes(t: Table, settlement: seq<PlayerSettlement>): Option<seq<HandOutcome>> {
    if |settlement| == 0 then Some([])
    else
      var last := settlement[|settlement| - 1];
      var front := Outcomes(t, settlement[..|settlement| - 1]);
      var i := PlayerIndex(t.players, last.player);
      if front.None? || i.None? || i.value >= |t.devices| then None
      else Some(front.value + [HandOutcome(last.player, t.devices[i.value], last.startingStack, last.endingStack)])
  }

  function BuildReceipt(r: Replica, settlement: seq<PlayerSettlement>): (receipt: Option<Receipt<Transcript>>)
    ensures receipt.Some? ==> ValidReceipt(receipt.value) && receipt.value.transcript == Transcript(r.mental, r.log)
                              && receipt.value.handNumber == r.table.scope.hand && receipt.value.matchId == MatchId(r.table)
  {
    var outcomes := Outcomes(r.table, settlement);
    if r.lastActionAt.None? || outcomes.None? then None
    else
      var draft := DraftReceipt(MatchId(r.table), r.table.scope.hand, r.table.level.id,
                                Transcript(r.mental, r.log), r.lastActionAt.value, outcomes.value);
      if ValidReceipt(draft) then Some(draft) else None
  }

  predicate HeaderMatches(t: Table, receipt: Receipt<Transcript>) {
    && receipt.matchId == MatchId(t) && receipt.handNumber == t.scope.hand && receipt.levelId == t.level.id
    && |receipt.outcomes| == |t.players|
    && forall i :: 0 <= i < |t.players| ==>
         var o := OutcomeFor(receipt, t.players[i]);
         && o.Some? && i < |t.devices| && o.value.device == t.devices[i]
         && i < |t.buyIns| && o.value.startingStack == t.buyIns[i]
  }

  ghost function TryFinalize(r: Replica, env: Env): Step {
    if r.tally.None? || r.tally.value.finalized then Done(r)
    else
      var (tally, reply) := CloseTally(r.tally.value, env.receipts);
      var r' := r.(tally := Some(tally));
      match reply
      case Refused => Refuse(r', ReceiptRefused)
      case Accepted(None) => Done(r')
      case Accepted(Some(bundle)) =>
        if OutcomeFor(bundle.receipt, r.certificate.player).None? then Refuse(r', NoReceipt)
        else Done(r'.(final := Some(bundle)))
  }

  ghost function AcceptReceipt(r: Replica, receipt: Receipt<Transcript>, s: Signature<Transcript>, env: Env): Step {
    if !HeaderMatches(r.table, receipt) || !VerifiesFor(s, receipt, env.receipts) then Refuse(r, ReceiptRefused)
    else if r.tally.None? then
      var player := s.certificate.player;
      if player in r.waiting then (if r.waiting[player] == (receipt, s) then Done(r) else Refuse(r, Inconsistent))
      else Done(r.(waiting := r.waiting[player := (receipt, s)]))
    else
      var (tally, reply) := AddSignature(r.tally.value, receipt, s, env.receipts);
      var r' := r.(tally := Some(tally));
      if reply.Refused? then Refuse(r', ReceiptRefused) else TryFinalize(r', env)
  }

  /** Signatures that came before the own settlement; one that does not fit it is passed over. */
  ghost function AcceptAll(r: Replica, received: seq<(Receipt<Transcript>, Signature<Transcript>)>, env: Env): Replica
    decreases |received|
  {
    if |received| == 0 then r
    else AcceptAll(AcceptReceipt(r, received[0].0, received[0].1, env).replica, received[1..], env)
  }

  function InOrder(waiting: map<PlayerId, (Receipt<Transcript>, Signature<Transcript>)>, players: seq<PlayerId>)
    : seq<(Receipt<Transcript>, Signature<Transcript>)>
    requires forall p :: p in players ==> p in waiting
  {
    if |players| == 0 then [] else [waiting[players[0]]] + InOrder(waiting, players[1..])
  }

  ghost function FinishSettlement(r: Replica, settlement: seq<PlayerSettlement>, env: Env): Step {
    var s := r.(settled := true);
    var receipt := BuildReceipt(s, settlement);
    if receipt.None? then Refuse(s, NoReceipt)
    else
      match Open(receipt.value, r.certificate, env.certified)
      case Refused => Refuse(s, NoReceipt)
      case Accepted(tally) =>
        var tallied := s.(tally := Some(tally), waiting := map[]);
        TryFinalize(AcceptAll(tallied, InOrder(s.waiting, Ascending(s.waiting.Keys)), env), env)
  }

  // ----- Committing actions -----

  function Appended(r: Replica, hand: PlayableHand, a: SignedAction): Replica {
    r.(hand := Some(hand), sequence := a.sequence, lastActionAt := Some(a.issuedAt),
       log := r.log + [a], committed := r.committed[a.sequence := a])
  }

  ghost function HandleOutcome(r: Replica, outcome: Outcome, env: Env): Step
    requires r.hand.Some?
  {
    match outcome
    case WaitingFor(_) => Done(r)
    case StreetAdvanced(street, _) =>
      var indices := StreetIndices(street, |r.table.players|);
      if indices.None? then Refuse(r, CardsMissing)
      else Done(r.(request := Some(CardRequest(StreetCards, indices.value))))
    case ShowdownReady =>
      Done(r.(request := Some(CardRequest(ShowdownCards, ShowdownIndices(r.hand.value.seats, |r.table.players|)))))
    case HandComplete(settlement) => FinishSettlement(r, settlement, env)
  }

  /** A second, different action for a place in the log: harmless if it is not bound to what was accepted there or
      says the same, and proof against its signer if it is bound and differs. */
  function ResolveReplayed(r: Replica, sequence: nat, accepted: SignedAction, other: SignedAction, env: Env): Step {
    if other.seat != accepted.seat || other.player != accepted.player || other.expected != accepted.expected then Refuse(r, Unbound)
    else if !KnownSeat(r.table, accepted.seat) then Refuse(r, UnknownSeat)
    else if !VerifiesAction(other, r.table, sequence, accepted.expected, accepted.seat, env) then Refuse(r, BadSignature)
    else if Payload(other) == Payload(accepted) then Done(r)
    else Done(r.(conflict := Some(Evidence(sequence, Payload(accepted), Payload(other)))))
  }

  ghost function CommitAction(r: Replica, sequence: nat, a: SignedAction, env: Env): Step {
    if sequence in r.committed then
      if r.committed[sequence] == a then Done(r)
      else ResolveReplayed(r, sequence, r.committed[sequence], a, env)
    else if r.conflict.Some? then Refuse(r, Frozen)
    else if sequence != r.sequence + 1 then Refuse(r, SequenceGap)
    else if !KnownSeat(r.table, a.seat) then Refuse(r, UnknownSeat)
    else if r.hand.None? then Refuse(r, HandMissing)
    else if !VerifiesAction(a, r.table, sequence, PublicStateOf(r), a.seat, env) then Refuse(r, BadSignature)
    else if r.request.Some? || r.settled then Refuse(r, CannotActNow)
    else
      var acted := Act(r.hand.value, r.table.players[a.seat - 1], a.action);
      if acted.result.Err? then Refuse(r.(hand := Some(acted.state)), Illegal(acted.result.error))
      else HandleOutcome(Appended(r, acted.state, a), acted.result.value, env)
  }

  /** An action from the network: an old one is compared, the next one is committed or, until the public state it
      was signed for is reached, held back. */
  ghost function AcceptOrDefer(r: Replica, sequence: nat, a: SignedAction, env: Env): Step {
    if sequence <= r.sequence then CommitAction(r, sequence, a, env)
    else if sequence != r.sequence + 1 then Refuse(r, SequenceGap)
    else if !KnownSeat(r.table, a.seat) then Refuse(r, UnknownSeat)
    else if !VerifiesAction(a, r.table, sequence, a.expected, a.seat, env) then Refuse(r, BadSignature)
    else if r.hand.None? then Refuse(r, HandMissing)
    else if NextPlayer(r.hand.value) != Some(r.table.players[a.seat - 1]) then Refuse(r, NotYourTurn)
    else if r.request.Some? || PublicStateOf(r) != a.expected then
      if sequence in r.deferred then (if r.deferred[sequence] == a then Done(r) else Refuse(r, Inconsistent))
      else Done(r.(deferred := r.deferred[sequence := a]))
    else CommitAction(r, sequence, a, env)
  }

  lemma {:induction false} TakeOne(m: map<nat, SignedAction>, k: nat)
    requires k in m
    ensures |m - {k}| < |m|
  {
    assert (m - {k}).Keys == m.Keys - {k};
    assert |m - {k}| == |(m - {k}).Keys| && |m| == |m.Keys|;
  }

  /** Commits what was held back, as long as it continues the log. */
  ghost function CommitDeferred(r: Replica, env: Env): Step
    decreases |r.deferred|
  {
    var next := r.sequence + 1;
    if r.request.Some? || r.settled || next !in r.deferred then Done(r)
    else if r.hand.None? then Refuse(r, HandMissing)
    else if PublicStateOf(r) != r.deferred[next].expected then Done(r)
    else
      var taken := r.(deferred := r.deferred - {next});
      TakeOne(r.deferred, next);
      CommitKeepsDeferred(taken, next, r.deferred[next], env);
      var step := CommitAction(taken, next, r.deferred[next], env);
      if step.refusal.Some? then step else CommitDeferred(step.replica, env)
  }

  /** The own next action, as it is signed. */
  function OwnAction(r: Replica, action: PlayerAction, env: Env): SignedAction
    requires r.hand.Some?
  {
    SignedAction(3, r.table.scope, r.sequence + 1, PublicStateOf(r), r.seat + 1, r.certificate.player, action, env.now, r.certificate)
  }

  ghost function CommitLocal(r: Replica, action: PlayerAction, connected: bool, ready: bool, env: Env): Step
    requires r.seat < |r.table.players|
  {
    if !connected then Refuse(r, Disconnected)
    else if r.conflict.Some? then Refuse(r, Frozen)
    else if r.request.Some? || r.settled then Refuse(r, CannotActNow)
    else if !ready then Refuse(r, NotReady)
    else if r.hand.None? then Refuse(r, HandMissing)
    else if NextPlayer(r.hand.value) != Some(r.table.players[r.seat]) then Refuse(r, NotYourTurn)
    else if r.sequence >= U64_MAX then Refuse(r, SequenceGap)
    else if !env.certified then Refuse(r, BadSignature)
    else
      var signed := OwnAction(r, action, env);
      CommitAction(r, r.sequence + 1, signed, env.(actions := env.actions + {signed}))
  }

  // ----- Cards -----

  /** The hole cards are known and the betting hand starts. */
  ghost function Deal(r: Replica, shares: seq<nat>): Step
    requires ValidLevel(r.table.level)
  {
    if r.hand.Some? || r.conflict.Some? then Done(r)
    else
      var r' := r.(mental := r.mental + shares);
      var start := Start(r.table.level, BuyIns(r.table), r.table.dealer);
      if start.Err? || !Playable(start.value) then Refuse(r', HandMissing) else Done(r'.(hand := Some(start.value)))
  }

  function BuyIns(t: Table): (r: seq<(PlayerId, nat)>)
    ensures |r| == Min(|t.players|, |t.buyIns|) && forall i :: 0 <= i < |r| ==> r[i] == (t.players[i], t.buyIns[i])
  {
    Zip(t.players, t.buyIns)
  }

  function Zip(players: seq<PlayerId>, buyIns: seq<nat>): (r: seq<(PlayerId, nat)>)
    ensures |r| == Min(|players|, |buyIns|) && forall i :: 0 <= i < |r| ==> r[i] == (players[i], buyIns[i])
  {
    if |players| == 0 || |buyIns| == 0 then []
    else [(players[0], buyIns[0])] + Zip(players[1..], buyIns[1..])
  }

  function Holes(seats: seq<Seat>, cards: map<nat, Card>): map<PlayerId, (Card, Card)>
    requires forall i :: 0 <= i < |seats| && IsContender(seats[i]) ==> 2 * i in cards && 2 * i + 1 in cards
  {
    if |seats| == 0 then map[]
    else
      var n := |seats| - 1;
      var front := Holes(seats[..n], cards);
      if IsContender(seats[n]) then front[seats[n].player := (cards[2 * n], cards[2 * n + 1])] else front
  }

  function Board(n: nat, cards: map<nat, Card>): seq<Card>
    requires forall k :: k in BoardIndices(n) ==> k in cards
  {
    var b := BoardIndices(n);
    assert forall k :: 0 <= k < 5 ==> b[k] in b;
    [cards[b[0]], cards[b[1]], cards[b[2]], cards[b[3]], cards[b[4]]]
  }

  predicate AllShown(h: Hand, n: nat, cards: map<nat, Card>) {
    ShowdownIndices(h.seats, n) <= cards.Keys
  }

  lemma {:induction false} ShownHoles(h: Hand, n: nat, cards: map<nat, Card>)
    requires AllShown(h, n, cards)
    ensures forall k :: k in BoardIndices(n) ==> k in cards
    ensures forall i :: 0 <= i < |h.seats| && IsContender(h.seats[i]) ==> 2 * i in cards && 2 * i + 1 in cards
  {
    forall k | k in BoardIndices(n) ensures k in cards { assert k in ShowdownIndices(h.seats, n); }
    forall i | 0 <= i < |h.seats| && IsContender(h.seats[i]) ensures 2 * i in cards && 2 * i + 1 in cards {
      assert 2 * i in ShowdownIndices(h.seats, n) && 2 * i + 1 in ShowdownIndices(h.seats, n);
    }
  }

  /** Shares that complete requested cards. When all requested cards are known, betting goes on or the hand is settled. */
  ghost function Uncover(r: Replica, shares: seq<nat>, found: map<nat, Card>, strength: seq<Card> -> int,
      env: Env): Step {
    if r.conflict.Some? || r.request.None? then Done(r)
    else
      var wanted := r.request.value;
      var r' := r.(mental := r.mental + shares,
                   cards := r.cards + (map k | k in found && k in wanted.indices && k !in r.cards :: found[k]));
      if !(wanted.indices <= r'.cards.Keys) then Done(r')
      else if wanted.reason.StreetCards? then Done(r'.(request := None))
      else SettleShown(r'.(request := None), strength, env)
  }

  ghost function SettleShown(r: Replica, strength: seq<Card> -> int, env: Env): Step {
    var n := |r.table.players|;
    if r.hand.None? then Refuse(r, HandMissing)
    else if !AllShown(r.hand.value, n, r.cards) then Refuse(r, CardsMissing)
    else
      var h := r.hand.value;
      ShownHoles(h, n, r.cards);
      var board := Board(n, r.cards);
      var settled := SettleShowdown(h, board, Holes(h.seats, r.cards), strength);
      ShowdownStaysPlayable(h, board, Holes(h.seats, r.cards), strength);
      var r' := r.(hand := Some(settled.state));
      if settled.result.Err? then Refuse(r', Illegal(settled.result.error))
      else FinishSettlement(r', settled.result.value, env)
  }

  lemma {:induction false} ShowdownStaysPlayable(h: PlayableHand, board: seq<Card>,
      holes: map<PlayerId, (Card, Card)>, strength: seq<Card> -> int)
    ensures var h' := SettleShowdown(h, board, holes, strength).state;
            Playable(h') && h'.nextToAct == h.nextToAct
  {
    var contenders := Contenders(h.seats);
    if h.street.Showdown? && !(exists p :: p in contenders && p !in holes) {
      PlayersWhereMembers(h.seats, IsContender);
      hide SettleLayers, HasDuplicate, Ranks;
    }
  }

  // ----- Which fields a step touches -----

  lemma {:induction false} FinalizeKeeps(r: Replica, env: Env)
    ensures var r' := TryFinalize(r, env).replica; r' == r.(tally := r'.tally, final := r'.final)
  {
    hide CoSignedBy, Bundle;
  }

  lemma {:induction false} AcceptReceiptKeeps(r: Replica, receipt: Receipt<Transcript>, s: Signature<Transcript>,
      env: Env)
    ensures var r' := AcceptReceipt(r, receipt, s, env).replica; r' == r.(tally := r'.tally, final := r'.final, waiting := r'.waiting)
  {
    hide HeaderMatches, VerifiesFor, AddSignature, TryFinalize;
    if r.tally.Some? { FinalizeKeeps(r.(tally := Some(AddSignature(r.tally.value, receipt, s, env.receipts).0)), env); }
  }

  lemma {:induction false} AcceptAllKeeps(r: Replica, received: seq<(Receipt<Transcript>, Signature<Transcript>)>,
      env: Env)
    ensures var r' := AcceptAll(r, received, env); r' == r.(tally := r'.tally, final := r'.final, waiting := r'.waiting)
    decreases |received|
  {
    if |received| > 0 {
      AcceptReceiptKeeps(r, received[0].0, received[0].1, env);
      hide AcceptReceipt;
      AcceptAllKeeps(AcceptReceipt(r, received[0].0, received[0].1, env).replica, received[1..], env);
    }
  }

  lemma {:induction false} FinishKeeps(r: Replica, settlement: seq<PlayerSettlement>, env: Env)
    ensures var r' := FinishSettlement(r, settlement, env).replica;
            r'.settled && r' == r.(settled := true, tally := r'.tally, final := r'.final, waiting := r'.waiting)
  {
    hide BuildReceipt, AcceptAll, TryFinalize, InOrder;
    var s := r.(settled := true);
    var receipt := BuildReceipt(s, settlement);
    if receipt.Some? {
      var opening := Open(receipt.value, r.certificate, env.certified);
      if opening.Accepted? {
        var tallied := s.(tally := Some(opening.value), waiting := map[]);
        var received := InOrder(s.waiting, Ascending(s.waiting.Keys));
        AcceptAllKeeps(tallied, received, env);
        FinalizeKeeps(AcceptAll(tallied, received, env), env);
      }
    }
  }

  lemma {:induction false} CommitKeepsDeferred(r: Replica, sequence: nat, a: SignedAction, env: Env)
    ensures var r' := CommitAction(r, sequence, a, env).replica;
            r'.deferred == r.deferred && r'.cards == r.cards && r'.table == r.table
  {
    hide Act, PublicStateOf, VerifiesAction, FinishSettlement, StreetIndices, ShowdownIndices;
    if r.hand.Some? && KnownSeat(r.table, a.seat) {
      var acted := Act(r.hand.value, r.table.players[a.seat - 1], a.action);
      if acted.result.Ok? && acted.result.value.HandComplete? {
        FinishKeeps(Appended(r, acted.state, a), acted.result.value.settlement, env);
      }
    }
  }
}
