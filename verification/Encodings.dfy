/** The bytes that are signed: receipts and actions. Both can be read back, so what is signed is unambiguous. */
module Encodings {
  import opened Chips
  import opened Holdem
  import opened Bytes
  import opened Receipts

  // ----- Receipts -----

  const RECEIPT_DOMAIN: seq<byte> := Utf8("token-holdem/hand-receipt/v1\0")

  function OutcomeBytes(o: HandOutcome, rest: seq<byte>): seq<byte> {
    BigEndian(o.player, KEY) + (BigEndian(o.device, KEY) + (BigEndian(o.startingStack, WORD) + (BigEndian(o.endingStack, WORD) + rest)))
  }

  function OutcomesBytes(outcomes: seq<HandOutcome>, rest: seq<byte>): seq<byte> {
    if |outcomes| == 0 then rest else OutcomeBytes(outcomes[0], OutcomesBytes(outcomes[1..], rest))
  }

  /** The receipt with a 32-byte transcript hash, field after field. */
  function ReceiptBytes(r: Receipt<nat>): seq<byte> {
    RECEIPT_DOMAIN + (BigEndian(r.version, 1) + (BigEndian(r.matchId, 16) + (BigEndian(r.handNumber, WORD)
    + (Prefixed(Utf8(r.levelId), 4) + ReceiptTail(r)))))
  }

  function ReceiptTail(r: Receipt<nat>): seq<byte> {
    BigEndian(r.transcript, KEY) + (BigEndian(r.settledAt, WORD) + (BigEndian(|r.outcomes|, 4) + OutcomesBytes(r.outcomes, [])))
  }

  method AppendOutcomes(bytes: seq<byte>, outcomes: seq<HandOutcome>) returns (r: seq<byte>)
    ensures r == bytes + OutcomesBytes(outcomes, [])
  {
    hide BigEndian;
    r := bytes;
    for i := 0 to |outcomes|
      invariant r + OutcomesBytes(outcomes[i..], []) == bytes + OutcomesBytes(outcomes[0..], [])
    {
      var o := outcomes[i];
      assert outcomes[i..][0] == o && outcomes[i..][1..] == outcomes[i + 1..];
      ghost var rest := OutcomesBytes(outcomes[i + 1..], []);
      ghost var before := r;
      r := r + BigEndian(o.player, KEY);
      r := r + BigEndian(o.device, KEY);
      r := r + BigEndian(o.startingStack, WORD);
      r := r + BigEndian(o.endingStack, WORD);
      assert r + rest == before + OutcomeBytes(o, rest);
    }
    assert outcomes[0..] == outcomes;
  }

  /** The program appends field after field to one buffer. */
  method CanonicalReceipt(r: Receipt<nat>) returns (bytes: seq<byte>)
    ensures bytes == ReceiptBytes(r)
  {
    hide BigEndian, Utf8, OutcomesBytes;
    bytes := RECEIPT_DOMAIN;
    bytes := bytes + BigEndian(r.version, 1);
    bytes := bytes + BigEndian(r.matchId, 16);
    bytes := bytes + BigEndian(r.handNumber, WORD);
    bytes := bytes + BigEndian(|Utf8(r.levelId)|, 4);
    bytes := bytes + Utf8(r.levelId);
    bytes := bytes + BigEndian(r.transcript, KEY);
    bytes := bytes + BigEndian(r.settledAt, WORD);
    bytes := bytes + BigEndian(|r.outcomes|, 4);
    bytes := AppendOutcomes(bytes, r.outcomes);
  }

  /** A receipt as read: the level by the bytes of its name. */
  datatype WireReceipt = WireReceipt(
    version: nat, matchId: nat, handNumber: nat, levelId: seq<byte>, transcript: nat, settledAt: nat, outcomes: seq<HandOutcome>)

  function Wire(r: Receipt<nat>): WireReceipt {
    WireReceipt(r.version, r.matchId, r.handNumber, Utf8(r.levelId), r.transcript, r.settledAt, r.outcomes)
  }

  function ReadOutcome(b0: seq<byte>): Read<HandOutcome> {
    var (player, b1) :- ReadNumber(b0, KEY);
    var (device, b2) :- ReadNumber(b1, KEY);
    var (starting, b3) :- ReadNumber(b2, WORD);
    var (ending, b4) :- ReadNumber(b3, WORD);
    Read(HandOutcome(player, device, starting, ending), b4)
  }

  function ReadOutcomes(bytes: seq<byte>, n: nat): Read<seq<HandOutcome>> {
    if n == 0 then Read([], bytes)
    else
      var (o, rest) :- ReadOutcome(bytes);
      var (outcomes, tail) :- ReadOutcomes(rest, n - 1);
      Read([o] + outcomes, tail)
  }

  function ReadTail(bytes: seq<byte>): Read<(nat, nat, seq<HandOutcome>)> {
    var (transcript, b1) :- ReadNumber(bytes, KEY);
    var (settledAt, b2) :- ReadNumber(b1, WORD);
    var (n, b3) :- ReadNumber(b2, 4);
    var (outcomes, b4) :- ReadOutcomes(b3, n);
    Read((transcript, settledAt, outcomes), b4)
  }

  function ReadReceipt(bytes: seq<byte>): Read<WireReceipt> {
    var (_, b1) :- ReadExactly(bytes, RECEIPT_DOMAIN);
    var (version, b2) :- ReadNumber(b1, 1);
    var (matchId, b3) :- ReadNumber(b2, 16);
    var (handNumber, b4) :- ReadNumber(b3, WORD);
    var (levelId, b5) :- ReadPrefixed(b4, 4);
    var (tail, b6) :- ReadTail(b5);
    Read(WireReceipt(version, matchId, handNumber, levelId, tail.0, tail.1, tail.2), b6)
  }

  /** The ranges of the program's types, and lengths below 2^32. */
  ghost predicate OutcomeInRange(o: HandOutcome) {
    o.player < Pow256(KEY) && o.device < Pow256(KEY) && o.startingStack <= U64_MAX && o.endingStack <= U64_MAX
  }

  ghost predicate ReceiptInRange(r: Receipt<nat>) {
    && r.version < 256 && r.matchId < Pow256(16) && r.handNumber <= U64_MAX && r.transcript < Pow256(KEY) && r.settledAt <= U64_MAX
    && |Utf8(r.levelId)| < 0x1_0000_0000 && |r.outcomes| < 0x1_0000_0000
    && forall i :: 0 <= i < |r.outcomes| ==> OutcomeInRange(r.outcomes[i])
  }

  lemma {:induction false} ReadsOutcome(o: HandOutcome, rest: seq<byte>)
    requires OutcomeInRange(o)
    ensures ReadOutcome(OutcomeBytes(o, rest)) == Read(o, rest)
  {
    hide BigEndian, ReadNumber, Pow256;
    Widths();
    var b3 := BigEndian(o.endingStack, WORD) + rest;
    var b2 := BigEndian(o.startingStack, WORD) + b3;
    ReadsNumber(o.player, KEY, BigEndian(o.device, KEY) + b2);
    ReadsNumber(o.device, KEY, b2);
    ReadsNumber(o.startingStack, WORD, b3);
    ReadsNumber(o.endingStack, WORD, rest);
  }

  lemma {:induction false} ReadsOutcomes(outcomes: seq<HandOutcome>, rest: seq<byte>)
    requires forall i :: 0 <= i < |outcomes| ==> OutcomeInRange(outcomes[i])
    ensures ReadOutcomes(OutcomesBytes(outcomes, rest), |outcomes|) == Read(outcomes, rest)
  {
    hide ReadOutcome, OutcomeBytes, OutcomeInRange;
    if |outcomes| > 0 {
      ReadsOutcome(outcomes[0], OutcomesBytes(outcomes[1..], rest));
      ReadsOutcomes(outcomes[1..], rest);
      assert [outcomes[0]] + outcomes[1..] == outcomes;
    }
  }

  lemma {:induction false} ReadsTail(r: Receipt<nat>)
    requires ReceiptInRange(r)
    ensures ReadTail(ReceiptTail(r)) == Read((r.transcript, r.settledAt, r.outcomes), [])
  {
    hide BigEndian, ReadNumber, Pow256, ReadOutcomes, OutcomesBytes, OutcomeInRange, Utf8;
    Widths();
    ReadsOutcomes(r.outcomes, []);
    var b2 := BigEndian(|r.outcomes|, 4) + OutcomesBytes(r.outcomes, []);
    ReadsNumber(|r.outcomes|, 4, OutcomesBytes(r.outcomes, []));
    ReadsNumber(r.settledAt, WORD, b2);
    ReadsNumber(r.transcript, KEY, BigEndian(r.settledAt, WORD) + b2);
  }

  /** Reading undoes writing. */
  lemma {:induction false} ReadsReceipt(r: Receipt<nat>)
    requires ReceiptInRange(r)
    ensures ReadReceipt(ReceiptBytes(r)) == Read(Wire(r), [])
  {
    hide BigEndian, ReadNumber, Pow256, Prefixed, ReadPrefixed, ReadExactly, Utf8, ReadTail, ReceiptTail;
    hide OutcomeInRange;
    Widths();
    ReadsTail(r);
    var b4 := Prefixed(Utf8(r.levelId), 4) + ReceiptTail(r);
    ReadsPrefixed(Utf8(r.levelId), 4, ReceiptTail(r));
    var b3 := BigEndian(r.handNumber, WORD) + b4;
    ReadsNumber(r.handNumber, WORD, b4);
    var b2 := BigEndian(r.matchId, 16) + b3;
    ReadsNumber(r.matchId, 16, b3);
    ReadsNumber(r.version, 1, b2);
    ReadsExactly(RECEIPT_DOMAIN, BigEndian(r.version, 1) + b2);
  }

  /** Equal signed bytes mean equal receipts. */
  lemma {:induction false} SameBytesSameReceipt(r: Receipt<nat>, q: Receipt<nat>)
    requires ReceiptInRange(r) && ReceiptInRange(q) && ReceiptBytes(r) == ReceiptBytes(q)
    ensures r == q
  {
    hide ReceiptBytes, ReadReceipt, ReceiptInRange;
    ReadsReceipt(r);
    ReadsReceipt(q);
    Utf8Injective(r.levelId, q.levelId);
  }

  // ----- Actions -----

  const ACTION_DOMAIN: seq<byte> := Utf8("token-holdem/hand-action/v3\0")

  /** The signed fields of an action; the public state by its 32-byte hash. */
  datatype WireAction = WireAction(
    version: nat, table: nat, hand: nat, roster: nat, sequence: nat, state: nat, seat: nat, player: PlayerId,
    action: PlayerAction, issuedAt: nat)

  function ChoiceBytes(action: PlayerAction, rest: seq<byte>): seq<byte> {
    match action
    case Fold => [0] + rest
    case Check => [1] + rest
    case Call => [2] + rest
    case RaiseTo(target) => [3] + (BigEndian(target, WORD) + rest)
  }

  function ReadChoice(bytes: seq<byte>): Read<PlayerAction> {
    var (tag, b1) :- ReadTag(bytes);
    if tag == 0 then Read(Fold, b1)
    else if tag == 1 then Read(Check, b1)
    else if tag == 2 then Read(Call, b1)
    else if tag == 3 then var (target, b2) :- ReadNumber(b1, WORD); Read(RaiseTo(target), b2)
    else Malformed
  }

  function ActionBytes(a: WireAction): seq<byte> {
    ACTION_DOMAIN + (BigEndian(a.version, 1) + (BigEndian(a.table, KEY) + (BigEndian(a.hand, WORD) + (BigEndian(a.roster, KEY) + PlaceBytes(a)))))
  }

  function PlaceBytes(a: WireAction): seq<byte> {
    BigEndian(a.sequence, WORD) + (BigEndian(a.state, KEY) + (BigEndian(a.seat, 1) + (BigEndian(a.player, KEY)
    + ChoiceBytes(a.action, BigEndian(a.issuedAt, WORD)))))
  }

  /** The program appends field after field to one buffer; only a raise has an amount. */
  method CanonicalAction(a: WireAction) returns (bytes: seq<byte>)
    ensures bytes == ActionBytes(a)
  {
    hide BigEndian, Utf8;
    bytes := ACTION_DOMAIN;
    bytes := bytes + BigEndian(a.version, 1);
    bytes := bytes + BigEndian(a.table, KEY);
    bytes := bytes + BigEndian(a.hand, WORD);
    bytes := bytes + BigEndian(a.roster, KEY);
    ghost var head := bytes;
    var place := BigEndian(a.sequence, WORD);
    place := place + BigEndian(a.state, KEY);
    place := place + BigEndian(a.seat, 1);
    place := place + BigEndian(a.player, KEY);
    match a.action {
      case Fold => place := place + [0];
      case Check => place := place + [1];
      case Call => place := place + [2];
      case RaiseTo(target) =>
        place := place + [3];
        place := place + BigEndian(target, WORD);
    }
    place := place + BigEndian(a.issuedAt, WORD);
    assert place == PlaceBytes(a);
    bytes := bytes + place;
  }

  function ReadPlace(bytes: seq<byte>): Read<(nat, nat, nat, PlayerId, PlayerAction, nat)> {
    var (sequence, b1) :- ReadNumber(bytes, WORD);
    var (state, b2) :- ReadNumber(b1, KEY);
    var (seat, b3) :- ReadNumber(b2, 1);
    var (player, b4) :- ReadNumber(b3, KEY);
    var (action, b5) :- ReadChoice(b4);
    var (issuedAt, b6) :- ReadNumber(b5, WORD);
    Read((sequence, state, seat, player, action, issuedAt), b6)
  }

  function ReadAction(bytes: seq<byte>): Read<WireAction> {
    var (_, b1) :- ReadExactly(bytes, ACTION_DOMAIN);
    var (version, b2) :- ReadNumber(b1, 1);
    var (table, b3) :- ReadNumber(b2, KEY);
    var (hand, b4) :- ReadNumber(b3, WORD);
    var (roster, b5) :- ReadNumber(b4, KEY);
    var (p, b6) :- ReadPlace(b5);
    Read(WireAction(version, table, hand, roster, p.0, p.1, p.2, p.3, p.4, p.5), b6)
  }

  ghost predicate ActionInRange(a: WireAction) {
    && a.version < 256 && a.table < Pow256(KEY) && a.hand <= U64_MAX && a.roster < Pow256(KEY) && a.sequence <= U64_MAX
    && a.state < Pow256(KEY) && a.seat < 256 && a.player < Pow256(KEY) && a.issuedAt <= U64_MAX
    && (a.action.RaiseTo? ==> a.action.target <= U64_MAX)
  }

  lemma {:induction false} ReadsChoice(action: PlayerAction, rest: seq<byte>)
    requires action.RaiseTo? ==> action.target <= U64_MAX
    ensures ReadChoice(ChoiceBytes(action, rest)) == Read(action, rest)
  {
    hide BigEndian, ReadNumber, Pow256, ReadTag;
    Widths();
    match action
    case Fold => ReadsTag(0, rest);
    case Check => ReadsTag(1, rest);
    case Call => ReadsTag(2, rest);
    case RaiseTo(target) =>
      ReadsTag(3, BigEndian(target, WORD) + rest);
      ReadsNumber(target, WORD, rest);
  }

  lemma {:induction false} ReadsPlace(a: WireAction)
    requires ActionInRange(a)
    ensures ReadPlace(PlaceBytes(a)) == Read((a.sequence, a.state, a.seat, a.player, a.action, a.issuedAt), [])
  {
    hide BigEndian, ReadNumber, Pow256, ReadChoice, ChoiceBytes;
    Widths();
    var b5 := BigEndian(a.issuedAt, WORD);
    assert b5 == b5 + [];
    ReadsNumber(a.issuedAt, WORD, []);
    var b4 := ChoiceBytes(a.action, b5);
    ReadsChoice(a.action, b5);
    var b3 := BigEndian(a.player, KEY) + b4;
    ReadsNumber(a.player, KEY, b4);
    var b2 := BigEndian(a.seat, 1) + b3;
    ReadsNumber(a.seat, 1, b3);
    ReadsNumber(a.state, KEY, b2);
    ReadsNumber(a.sequence, WORD, BigEndian(a.state, KEY) + b2);
  }

  /** Reading undoes writing. */
  lemma {:induction false} ReadsAction(a: WireAction)
    requires ActionInRange(a)
    ensures ReadAction(ActionBytes(a)) == Read(a, [])
  {
    hide BigEndian, ReadNumber, Pow256, ReadExactly, ReadPlace, PlaceBytes, Utf8;
    Widths();
    ReadsPlace(a);
    var b4 := BigEndian(a.roster, KEY) + PlaceBytes(a);
    ReadsNumber(a.roster, KEY, PlaceBytes(a));
    var b3 := BigEndian(a.hand, WORD) + b4;
    ReadsNumber(a.hand, WORD, b4);
    var b2 := BigEndian(a.table, KEY) + b3;
    ReadsNumber(a.table, KEY, b3);
    ReadsNumber(a.version, 1, b2);
    ReadsExactly(ACTION_DOMAIN, BigEndian(a.version, 1) + b2);
  }

  /** Equal signed bytes mean equal actions. */
  lemma {:induction false} SameBytesSameAction(a: WireAction, b: WireAction)
    requires ActionInRange(a) && ActionInRange(b) && ActionBytes(a) == ActionBytes(b)
    ensures a == b
  {
    hide ActionBytes, ReadAction, ActionInRange;
    ReadsAction(a);
    ReadsAction(b);
  }
}
