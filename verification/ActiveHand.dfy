/** A hand in progress as the object the runtime updates: every method does to the fields what the function of the
    same name does to the value of the replica. */
module HandRuntime {
  import opened Chips
  import opened Stakes
  import opened Holdem
  import opened Bytes
  import opened Receipts
  import opened Consensus
  import L = ActionLog

  class ActiveHand {
    const table: L.Table
    const seat: nat
    const certificate: Certificate
    var hand: Option<L.PlayableHand>
    var sequence: nat
    var log: seq<L.SignedAction>
    var committed: map<nat, L.SignedAction>
    var deferred: map<nat, L.SignedAction>
    var conflict: Option<L.Evidence>
    var mental: seq<nat>
    var cards: map<nat, Card>
    var request: Option<L.CardRequest>
    var settled: bool
    var lastActionAt: Option<nat>
    var tally: Option<Tally<L.Transcript>>
    var waiting: map<PlayerId, (Receipt<L.Transcript>, Signature<L.Transcript>)>
    var final: Option<CoSigned<L.Transcript>>

    function Value(): L.Replica
      reads this
    {
      L.Replica(table, seat, certificate, hand, sequence, log, committed, deferred, conflict, mental, cards, request,
                settled, lastActionAt, tally, waiting, final)
    }

    constructor (table: L.Table, seat: nat, certificate: Certificate)
      ensures Value() == L.FreshReplica(table, seat, certificate)
    {
      this.table, this.seat, this.certificate := table, seat, certificate;
      hand, sequence, log, committed, deferred, conflict := None, 0, [], map[], map[], None;
      mental, cards, request, settled, lastActionAt := [], map[], None, false, None;
      tally, waiting, final := None, map[], None;
    }

    // ----- Receipts -----

    method TryFinalize(env: L.Env) returns (refusal: Option<L.Refusal>)
      modifies this`tally, this`final
      ensures L.Step(Value(), refusal) == L.TryFinalize(old(Value()), env)
    {
      hide CoSignedBy;
      if tally.None? || tally.value.finalized { return None; }
      var t := tally.value;
      if |t.signatures| != |t.receipt.outcomes| { return None; }
      var bundle := Bundle(t);
      var ok := Verify(bundle, env.receipts);
      if !ok { return Some(L.ReceiptRefused); }
      tally := Some(t.(finalized := true));
      if OutcomeFor(bundle.receipt, certificate.player).None? { return Some(L.NoReceipt); }
      final := Some(bundle);
      return None;
    }

    method AcceptReceipt(receipt: Receipt<L.Transcript>, s: Signature<L.Transcript>,
        env: L.Env) returns (refusal: Option<L.Refusal>)
      modifies this`tally, this`final, this`waiting
      ensures L.Step(Value(), refusal) == L.AcceptReceipt(old(Value()), receipt, s, env)
    {
      hide L.TryFinalize, L.HeaderMatches, VerifiesFor, AddSignature;
      if !L.HeaderMatches(table, receipt) || !VerifiesFor(s, receipt, env.receipts) { return Some(L.ReceiptRefused); }
      if tally.None? {
        var player := s.certificate.player;
        if player in waiting {
          if waiting[player] == (receipt, s) { return None; }
          return Some(L.Inconsistent);
        }
        waiting := waiting[player := (receipt, s)];
        return None;
      }
      var (next, reply) := AddSignature(tally.value, receipt, s, env.receipts);
      tally := Some(next);
      if reply.Refused? { return Some(L.ReceiptRefused); }
      refusal := TryFinalize(env);
    }

    /** Takes in the signatures that came early; one that is refused is passed over. */
    method AcceptAll(received: seq<(Receipt<L.Transcript>, Signature<L.Transcript>)>, env: L.Env)
      modifies this`tally, this`final, this`waiting
      ensures Value() == L.AcceptAll(old(Value()), received, env)
    {
      hide L.AcceptReceipt;
      assert received[0..] == received;
      for i := 0 to |received|
        invariant L.AcceptAll(Value(), received[i..], env) == L.AcceptAll(old(Value()), received, env)
      {
        assert received[i..][0] == received[i] && received[i..][1..] == received[i + 1..];
        var ignored := AcceptReceipt(received[i].0, received[i].1, env);
      }
      assert received[|received|..] == [];
    }

    /** Closes the books: builds and signs the receipt, then takes in the signatures that came early. */
    method FinishSettlement(settlement: seq<PlayerSettlement>, env: L.Env) returns (refusal: Option<L.Refusal>)
      modifies this`settled, this`tally, this`final, this`waiting
      ensures L.Step(Value(), refusal) == L.FinishSettlement(old(Value()), settlement, env)
    {
      hide L.BuildReceipt, L.TryFinalize, L.AcceptAll, L.InOrder, Ascending, Open;
      settled := true;
      var receipt := L.BuildReceipt(Value(), settlement);
      if receipt.None? { return Some(L.NoReceipt); }
      var opening := Open(receipt.value, certificate, env.certified);
      if opening.Refused? { return Some(L.NoReceipt); }
      var received := L.InOrder(waiting, Ascending(waiting.Keys));
      tally := Some(opening.value);
      waiting := map[];
      AcceptAll(received, env);
      refusal := TryFinalize(env);
    }

    // ----- Actions -----

    method ResolveReplayed(at: nat, accepted: L.SignedAction, other: L.SignedAction,
        env: L.Env) returns (refusal: Option<L.Refusal>)
      modifies this`conflict
      ensures L.Step(Value(), refusal) == L.ResolveReplayed(old(Value()), at, accepted, other, env)
    {
      if other.seat != accepted.seat || other.player != accepted.player || other.expected != accepted.expected { return Some(L.Unbound); }
      if !L.KnownSeat(table, accepted.seat) { return Some(L.UnknownSeat); }
      if !L.VerifiesAction(other, table, at, accepted.expected, accepted.seat, env) { return Some(L.BadSignature); }
      if L.Payload(other) == L.Payload(accepted) { return None; }
      conflict := Some(L.Evidence(at, L.Payload(accepted), L.Payload(other)));
      return None;
    }

    method HandleOutcome(outcome: Outcome, env: L.Env) returns (refusal: Option<L.Refusal>)
      requires hand.Some?
      modifies this`request, this`settled, this`tally, this`final, this`waiting
      ensures L.Step(Value(), refusal) == L.HandleOutcome(old(Value()), outcome, env)
    {
      hide L.FinishSettlement, L.StreetIndices, L.ShowdownIndices;
      match outcome
      case WaitingFor(_) => return None;
      case StreetAdvanced(street, _) =>
        var indices := L.StreetIndices(street, |table.players|);
        if indices.None? { return Some(L.CardsMissing); }
        request := Some(L.CardRequest(L.StreetCards, indices.value));
        return None;
      case ShowdownReady =>
        request := Some(L.CardRequest(L.ShowdownCards, L.ShowdownIndices(hand.value.seats, |table.players|)));
        return None;
      case HandComplete(settlement) => refusal := FinishSettlement(settlement, env);
    }

    /** Puts an accepted action into the log. */
    method Record(h: L.PlayableHand, a: L.SignedAction)
      modifies this`hand, this`sequence, this`lastActionAt, this`log, this`committed
      ensures Value() == L.Appended(old(Value()), h, a) && hand == Some(h)
    {
      hand := Some(h);
      sequence := a.sequence;
      lastActionAt := Some(a.issuedAt);
      log := log + [a];
      committed := committed[a.sequence := a];
    }

    method CommitAction(at: nat, a: L.SignedAction, env: L.Env) returns (refusal: Option<L.Refusal>)
      modifies this
      ensures L.Step(Value(), refusal) == L.CommitAction(old(Value()), at, a, env)
    {
      hide L.HandleOutcome, L.ResolveReplayed, L.VerifiesAction, L.PublicStateOf, L.Appended, Act;
      if at in committed {
        if committed[at] == a { return None; }
        refusal := ResolveReplayed(at, committed[at], a, env);
        return;
      }
      if conflict.Some? { return Some(L.Frozen); }
      if at != sequence + 1 { return Some(L.SequenceGap); }
      if !L.KnownSeat(table, a.seat) { return Some(L.UnknownSeat); }
      if hand.None? { return Some(L.HandMissing); }
      if !L.VerifiesAction(a, table, at, L.PublicStateOf(Value()), a.seat, env) { return Some(L.BadSignature); }
      if request.Some? || settled { return Some(L.CannotActNow); }
      var acted := Act(hand.value, table.players[a.seat - 1], a.action);
      if acted.result.Err? {
        hand := Some(acted.state);
        return Some(L.Illegal(acted.result.error));
      }
      Record(acted.state, a);
      refusal := HandleOutcome(acted.result.value, env);
    }

    method AcceptOrDefer(at: nat, a: L.SignedAction, env: L.Env) returns (refusal: Option<L.Refusal>)
      modifies this
      ensures L.Step(Value(), refusal) == L.AcceptOrDefer(old(Value()), at, a, env)
    {
      hide L.CommitAction, L.VerifiesAction, L.PublicStateOf;
      if at <= sequence {
        refusal := CommitAction(at, a, env);
        return;
      }
      if at != sequence + 1 { return Some(L.SequenceGap); }
      if !L.KnownSeat(table, a.seat) { return Some(L.UnknownSeat); }
      if !L.VerifiesAction(a, table, at, a.expected, a.seat, env) { return Some(L.BadSignature); }
      if hand.None? { return Some(L.HandMissing); }
      if NextPlayer(hand.value) != Some(table.players[a.seat - 1]) { return Some(L.NotYourTurn); }
      if request.Some? || L.PublicStateOf(Value()) != a.expected {
        if at in deferred {
          if deferred[at] == a { return None; }
          return Some(L.Inconsistent);
        }
        deferred := deferred[at := a];
        return None;
      }
      refusal := CommitAction(at, a, env);
    }

    /** Commits held-back actions one after the other, as long as each continues the log. */
    method CommitDeferred(env: L.Env) returns (refusal: Option<L.Refusal>)
      modifies this
      ensures L.Step(Value(), refusal) == L.CommitDeferred(old(Value()), env)
    {
      hide L.CommitAction, L.PublicStateOf;
      while true
        invariant L.CommitDeferred(Value(), env) == L.CommitDeferred(old(Value()), env)
        decreases |deferred|
      {
        if request.Some? || settled { return None; }
        var next := sequence + 1;
        if next !in deferred { return None; }
        if hand.None? { return Some(L.HandMissing); }
        var a := deferred[next];
        if L.PublicStateOf(Value()) != a.expected { return None; }
        L.TakeOne(deferred, next);
        deferred := deferred - {next};
        L.CommitKeepsDeferred(Value(), next, a, env);
        refusal := CommitAction(next, a, env);
        if refusal.Some? { return; }
      }
    }

    /** Signs the own action for the present state and commits it. */
    method CommitLocal(action: PlayerAction, connected: bool, ready: bool,
        env: L.Env) returns (refusal: Option<L.Refusal>)
      requires seat < |table.players|
      modifies this
      ensures L.Step(Value(), refusal) == L.CommitLocal(old(Value()), action, connected, ready, env)
    {
      hide L.CommitAction, L.OwnAction;
      if !connected { return Some(L.Disconnected); }
      if conflict.Some? { return Some(L.Frozen); }
      if request.Some? || settled { return Some(L.CannotActNow); }
      if !ready { return Some(L.NotReady); }
      if hand.None? { return Some(L.HandMissing); }
      if NextPlayer(hand.value) != Some(table.players[seat]) { return Some(L.NotYourTurn); }
      if sequence >= U64_MAX { return Some(L.SequenceGap); }
      if !env.certified { return Some(L.BadSignature); }
      var signed := L.OwnAction(Value(), action, env);
      refusal := CommitAction(sequence + 1, signed, env.(actions := env.actions + {signed}));
    }

    // ----- Cards -----

    method Deal(shares: seq<nat>) returns (refusal: Option<L.Refusal>)
      requires ValidLevel(table.level)
      modifies this`mental, this`hand
      ensures L.Step(Value(), refusal) == L.Deal(old(Value()), shares)
    {
      hide Start;
      if hand.Some? || conflict.Some? { return None; }
      mental := mental + shares;
      var start := Start(table.level, L.BuyIns(table), table.dealer);
      if start.Err? || !Playable(start.value) { return Some(L.HandMissing); }
      hand := Some(start.value);
      return None;
    }

    method Uncover(shares: seq<nat>, found: map<nat, Card>, strength: seq<Card> -> int,
        env: L.Env) returns (refusal: Option<L.Refusal>)
      modifies this
      ensures L.Step(Value(), refusal) == L.Uncover(old(Value()), shares, found, strength, env)
    {
      hide L.SettleShown;
      if conflict.Some? || request.None? { return None; }
      var wanted := request.value;
      mental := mental + shares;
      cards := cards + (map k | k in found && k in wanted.indices && k !in cards :: found[k]);
      if !(wanted.indices <= cards.Keys) { return None; }
      request := None;
      if wanted.reason.StreetCards? { return None; }
      refusal := SettleShown(strength, env);
    }

    method SettleShown(strength: seq<Card> -> int, env: L.Env) returns (refusal: Option<L.Refusal>)
      modifies this
      ensures L.Step(Value(), refusal) == L.SettleShown(old(Value()), strength, env)
    {
      hide L.FinishSettlement, L.AllShown, SettleShowdown, L.Board, L.Holes;
      if hand.None? { return Some(L.HandMissing); }
      var (h, n) := (hand.value, |table.players|);
      if !L.AllShown(h, n, cards) { return Some(L.CardsMissing); }
      L.ShownHoles(h, n, cards);
      var (board, holes) := (L.Board(n, cards), L.Holes(h.seats, cards));
      var done := SettleShowdown(h, board, holes, strength);
      L.ShowdownStaysPlayable(h, board, holes, strength);
      hand := Some(done.state);
      if done.result.Err? { return Some(L.Illegal(done.result.error)); }
      refusal := FinishSettlement(done.result.value, env);
    }
  }
}
