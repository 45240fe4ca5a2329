/** The bytes behind the public hash of a betting state, and what two hands with the same bytes share. */
module BettingBytes {
  import opened Chips
  import opened Stakes
  import opened Holdem
  import opened Books
  import opened Betting
  import opened Runs
  import opened Bytes

  const BETTING_DOMAIN: seq<byte> := Utf8("token-holdem/public-betting-state/v1\0")

  function StreetTag(street: Street): byte {
    match street
    case Preflop => 0
    case Flop => 1
    case Turn => 2
    case River => 3
    case Showdown => 4
    case Complete => 5
  }

  function ReadStreet(bytes: seq<byte>): Read<Street> {
    var (tag, rest) :- ReadTag(bytes);
    if tag == 0 then Read(Preflop, rest)
    else if tag == 1 then Read(Flop, rest)
    else if tag == 2 then Read(Turn, rest)
    else if tag == 3 then Read(River, rest)
    else if tag == 4 then Read(Street.Showdown, rest)
    else if tag == 5 then Read(Complete, rest)
    else Malformed
  }

  function StatusTag(status: SeatStatus): byte {
    match status
    case Active => 0
    case Folded => 1
    case AllIn => 2
  }

  function ReadStatus(bytes: seq<byte>): Read<SeatStatus> {
    var (tag, rest) :- ReadTag(bytes);
    if tag == 0 then Read(Active, rest)
    else if tag == 1 then Read(Folded, rest)
    else if tag == 2 then Read(AllIn, rest)
    else Malformed
  }

  // ----- Seats -----

  function SeatsBytes(seats: seq<Seat>, rest: seq<byte>): seq<byte> {
    if |seats| == 0 then rest
    else
      var s := seats[0];
      BigEndian(s.player, KEY) + (BigEndian(s.startingStack, WORD) + (BigEndian(s.stack, WORD)
      + (BigEndian(s.totalCommitted, WORD) + (BigEndian(s.streetCommitted, WORD)
      + ([StatusTag(s.status)] + SeatsBytes(seats[1..], rest))))))
  }

  function ReadSeat(b0: seq<byte>): Read<Seat> {
    var (player, b1) :- ReadNumber(b0, KEY);
    var (starting, b2) :- ReadNumber(b1, WORD);
    var (stack, b3) :- ReadNumber(b2, WORD);
    var (total, b4) :- ReadNumber(b3, WORD);
    var (street, b5) :- ReadNumber(b4, WORD);
    var (status, b6) :- ReadStatus(b5);
    Read(Seat(player, starting, stack, total, street, status), b6)
  }

  function ReadSeats(bytes: seq<byte>, n: nat): Read<seq<Seat>> {
    if n == 0 then Read([], bytes)
    else
      var (seat, rest) :- ReadSeat(bytes);
      var (seats, tail) :- ReadSeats(rest, n - 1);
      Read([seat] + seats, tail)
  }

  /** The ranges of the program's types: 64-bit amounts and 32-byte player names. */
  ghost predicate SeatInRange(s: Seat) {
    && s.player < Pow256(KEY) && s.startingStack <= U64_MAX && s.stack <= U64_MAX
    && s.totalCommitted <= U64_MAX && s.streetCommitted <= U64_MAX
  }

  lemma {:induction false} ReadsSeat(s: Seat, rest: seq<byte>)
    requires SeatInRange(s)
    ensures ReadSeat(BigEndian(s.player, KEY) + (BigEndian(s.startingStack, WORD) + (BigEndian(s.stack, WORD)
                     + (BigEndian(s.totalCommitted, WORD) + (BigEndian(s.streetCommitted, WORD)
                     + ([StatusTag(s.status)] + rest)))))) == Read(s, rest)
  {
    Widths();
    hide BigEndian, ReadNumber, Pow256;
    var b5 := [StatusTag(s.status)] + rest;
    var b4 := BigEndian(s.streetCommitted, WORD) + b5;
    var b3 := BigEndian(s.totalCommitted, WORD) + b4;
    var b2 := BigEndian(s.stack, WORD) + b3;
    var b1 := BigEndian(s.startingStack, WORD) + b2;
    ReadsNumber(s.player, KEY, b1);
    ReadsNumber(s.startingStack, WORD, b2);
    ReadsNumber(s.stack, WORD, b3);
    ReadsNumber(s.totalCommitted, WORD, b4);
    ReadsNumber(s.streetCommitted, WORD, b5);
    ReadsTag(StatusTag(s.status), rest);
  }

  lemma {:induction false} ReadsSeats(seats: seq<Seat>, rest: seq<byte>)
    requires forall i :: 0 <= i < |seats| ==> SeatInRange(seats[i])
    ensures ReadSeats(SeatsBytes(seats, rest), |seats|) == Read(seats, rest)
  {
    hide ReadSeat, BigEndian;
    if |seats| > 0 {
      ReadsSeat(seats[0], SeatsBytes(seats[1..], rest));
      ReadsSeats(seats[1..], rest);
      assert [seats[0]] + seats[1..] == seats;
    }
  }

  // ----- The whole state -----

  function PlayerSetBytes(players: set<PlayerId>, rest: seq<byte>): seq<byte> {
    [(|players| % 256) as byte] + (Keys(Ascending(players)) + rest)
  }

  function ReadPlayerList(bytes: seq<byte>): Read<seq<PlayerId>> {
    var (n, rest) :- ReadTag(bytes);
    ReadKeys(rest, n as nat)
  }

  lemma {:induction false} ReadsPlayerSet(players: set<PlayerId>, rest: seq<byte>)
    requires |players| < 256 && forall p :: p in players ==> p < Pow256(KEY)
    ensures ReadPlayerList(PlayerSetBytes(players, rest)) == Read(Ascending(players), rest)
  {
    hide Keys, ReadKeys, Ascending, Pow256;
    ReadsTag(|players| as byte, Keys(Ascending(players)) + rest);
    forall i | 0 <= i < |Ascending(players)| ensures Ascending(players)[i] < Pow256(KEY) {
      assert Ascending(players)[i] in players;
    }
    ReadsKeys(Ascending(players), rest);
  }

  function NextBytes(next: Option<nat>): seq<byte> {
    match next
    case Some(i) => [1, (i % 256) as byte]
    case None => [0, 0]
  }

  function ReadNext(bytes: seq<byte>): Read<Option<nat>> {
    var (tag, b1) :- ReadTag(bytes);
    var (i, b2) :- ReadTag(b1);
    Read(if tag == 1 then Some(i as nat) else None, b2)
  }

  lemma {:induction false} ReadsNext(next: Option<nat>)
    requires next.Some? ==> next.value < 256
    ensures ReadNext(NextBytes(next)) == Read(next, [])
  {
    var bytes := NextBytes(next);
    assert bytes[1..] == [bytes[1]];
  }

  lemma {:induction false} ReadsStreet(street: Street, rest: seq<byte>)
    ensures ReadStreet([StreetTag(street)] + rest) == Read(street, rest)
  {
    ReadsTag(StreetTag(street), rest);
  }

  /** Everything that goes into the hash, in order. */
  function PublicBytes(h: Hand): seq<byte> {
    BETTING_DOMAIN + (Prefixed(Utf8(h.level.id), WORD)
    + (BigEndian(h.level.smallBlind, WORD) + (BigEndian(h.level.bigBlind, WORD) + TableBytes(h))))
  }

  function TableBytes(h: Hand): seq<byte> {
    BigEndian(h.dealer, 1) + ([StreetTag(h.street)] + (BigEndian(|h.seats|, 1) + SeatsBytes(h.seats, BetsBytes(h))))
  }

  function BetsBytes(h: Hand): seq<byte> {
    PlayerSetBytes(h.pending, PlayerSetBytes(h.raiseRights,
      BigEndian(h.currentBet, WORD) + (BigEndian(h.lastFullRaise, WORD) + NextBytes(h.nextToAct))))
  }

  /** What the bytes tell: all of the hand except the buy-in and player limits of its level. */
  datatype View = View(
    levelId: seq<byte>, smallBlind: nat, bigBlind: nat, dealer: nat, street: Street, seats: seq<Seat>,
    pending: seq<PlayerId>, raiseRights: seq<PlayerId>, currentBet: nat, lastFullRaise: nat, nextToAct: Option<nat>)

  function ViewOf(h: Hand): View {
    View(Utf8(h.level.id), h.level.smallBlind, h.level.bigBlind, h.dealer, h.street, h.seats,
         Ascending(h.pending), Ascending(h.raiseRights), h.currentBet, h.lastFullRaise, h.nextToAct)
  }

  function ReadBets(bytes: seq<byte>): Read<(seq<PlayerId>, seq<PlayerId>, nat, nat, Option<nat>)> {
    var (pending, b1) :- ReadPlayerList(bytes);
    var (rights, b2) :- ReadPlayerList(b1);
    var (currentBet, b3) :- ReadNumber(b2, WORD);
    var (lastFullRaise, b4) :- ReadNumber(b3, WORD);
    var (next, b5) :- ReadNext(b4);
    Read((pending, rights, currentBet, lastFullRaise, next), b5)
  }

  function ReadTable(bytes: seq<byte>): Read<(nat, Street, seq<Seat>)> {
    var (dealer, b1) :- ReadNumber(bytes, 1);
    var (street, b2) :- ReadStreet(b1);
    var (n, b3) :- ReadNumber(b2, 1);
    var (seats, b4) :- ReadSeats(b3, n);
    Read((dealer, street, seats), b4)
  }

  function ReadView(bytes: seq<byte>): Read<View> {
    var (_, b1) :- ReadExactly(bytes, BETTING_DOMAIN);
    var (id, b2) :- ReadPrefixed(b1, WORD);
    var (small, b3) :- ReadNumber(b2, WORD);
    var (big, b4) :- ReadNumber(b3, WORD);
    var (table, b5) :- ReadTable(b4);
    var (bets, b6) :- ReadBets(b5);
    Read(View(id, small, big, table.0, table.1, table.2, bets.0, bets.1, bets.2, bets.3, bets.4), b6)
  }

  /** The ranges of the program's types, and the number of seats and seat indices that fit a byte. */
  ghost predicate InRange(h: Hand) {
    && |Utf8(h.level.id)| <= U64_MAX && h.level.smallBlind <= U64_MAX && h.level.bigBlind <= U64_MAX
    && h.dealer < 256 && |h.seats| < 256 && |h.pending| < 256 && |h.raiseRights| < 256
    && h.currentBet <= U64_MAX && h.lastFullRaise <= U64_MAX
    && (h.nextToAct.Some? ==> h.nextToAct.value < 256)
    && (forall i :: 0 <= i < |h.seats| ==> SeatInRange(h.seats[i]))
    && (forall p :: p in h.pending || p in h.raiseRights ==> p < Pow256(KEY))
  }

  lemma {:induction false} ReadsBets(h: Hand)
    requires InRange(h)
    ensures ReadBets(BetsBytes(h))
            == Read((Ascending(h.pending), Ascending(h.raiseRights), h.currentBet, h.lastFullRaise, h.nextToAct), [])
  {
    hide BigEndian, ReadNumber, ReadPlayerList, PlayerSetBytes, ReadNext, NextBytes, Ascending, Pow256, SeatInRange;
    hide Utf8;
    Widths();
    var b4 := NextBytes(h.nextToAct);
    var b3 := BigEndian(h.lastFullRaise, WORD) + b4;
    var b2 := BigEndian(h.currentBet, WORD) + b3;
    ReadsPlayerSet(h.pending, PlayerSetBytes(h.raiseRights, b2));
    ReadsPlayerSet(h.raiseRights, b2);
    ReadsNumber(h.currentBet, WORD, b3);
    ReadsNumber(h.lastFullRaise, WORD, b4);
    ReadsNext(h.nextToAct);
  }

  lemma {:induction false} ReadsTable(h: Hand)
    requires InRange(h)
    ensures ReadTable(TableBytes(h)) == Read((h.dealer, h.street, h.seats), BetsBytes(h))
  {
    hide BigEndian, ReadNumber, ReadStreet, StreetTag, ReadSeats, SeatsBytes, BetsBytes, SeatInRange, Pow256, Utf8;
    Widths();
    var b3 := SeatsBytes(h.seats, BetsBytes(h));
    ReadsSeats(h.seats, BetsBytes(h));
    var b2 := BigEndian(|h.seats|, 1) + b3;
    ReadsNumber(|h.seats|, 1, b3);
    ReadsStreet(h.street, b2);
    ReadsNumber(h.dealer, 1, [StreetTag(h.street)] + b2);
  }

  /** The public bytes can be read back: they determine the view. */
  lemma {:induction false} ReadsView(h: Hand)
    requires InRange(h)
    ensures ReadView(PublicBytes(h)) == Read(ViewOf(h), [])
  {
    hide BigEndian, ReadNumber, ReadPrefixed, Prefixed, Utf8, ReadExactly, Ascending, ReadBets, BetsBytes, ReadTable;
    hide TableBytes, SeatInRange, Pow256;
    Widths();
    ReadsBets(h);
    ReadsTable(h);
    var b3 := BigEndian(h.level.bigBlind, WORD) + TableBytes(h);
    ReadsNumber(h.level.bigBlind, WORD, TableBytes(h));
    var b2 := BigEndian(h.level.smallBlind, WORD) + b3;
    ReadsNumber(h.level.smallBlind, WORD, b3);
    ReadsPrefixed(Utf8(h.level.id), WORD, b2);
    ReadsExactly(BETTING_DOMAIN, Prefixed(Utf8(h.level.id), WORD) + b2);
  }

  /** Same bytes, same hand: two hands with one hash differ at most in the limits of their level. */
  lemma {:induction false} SameBytesSameHand(g: Hand, h: Hand)
    requires InRange(g) && InRange(h) && PublicBytes(g) == PublicBytes(h)
    ensures g == h.(level := g.level)
    ensures g.level.id == h.level.id && g.level.smallBlind == h.level.smallBlind && g.level.bigBlind == h.level.bigBlind
  {
    ReadsView(g);
    ReadsView(h);
    hide PublicBytes, ReadView, InRange;
    AscendingInjective(g.pending, h.pending);
    AscendingInjective(g.raiseRights, h.raiseRights);
    Utf8Injective(g.level.id, h.level.id);
  }

  // ----- Same bytes, same future -----

  function Relevelled(a: Attempt<Hand, Outcome>, level: StakeLevel): Attempt<Hand, Outcome> {
    Attempt(a.state.(level := level), a.result)
  }

  lemma {:induction false} OpenStreetIgnoresLimits(h: Hand, level: StakeLevel, street: Street)
    requires Playable(h) && level.bigBlind == h.level.bigBlind
    ensures OpenStreet(h.(level := level), street) == OpenStreet(h, street).(level := level)
  {
    hide ActionablePlayers, NextPendingFrom, ClearStreet;
  }

  lemma {:induction false} AdvanceStreetIgnoresLimits(h: Hand, level: StakeLevel)
    requires Playable(h) && level.bigBlind == h.level.bigBlind
    ensures AdvanceStreet(h.(level := level)) == Relevelled(AdvanceStreet(h), level)
    decreases StreetsLeft(h.street)
  {
    hide OpenStreet, ActionablePlayers;
    if NextStreet(h.street).Some? && !NextStreet(h.street).value.Showdown? {
      var street := NextStreet(h.street).value;
      var next := OpenStreet(h, street);
      AdvanceStreetUnfolds(h, street);
      AdvanceStreetUnfolds(h.(level := level), street);
      OpenStreetIgnoresLimits(h, level, street);
      if |next.pending| < 2 { AdvanceStreetIgnoresLimits(next.(pending := {}), level); }
    }
  }

  lemma {:induction false} PerformIgnoresLimits(h: Hand, i: nat, action: PlayerAction, level: StakeLevel)
    requires i < |h.seats| && level.bigBlind == h.level.bigBlind
    ensures Perform(h.(level := level), i, action).state == Perform(h, i, action).state.(level := level)
    ensures Perform(h.(level := level), i, action).result == Perform(h, i, action).result
    ensures Perform(h, i, action).state.level == h.level
  {
    hide CommitAt, ActionablePlayers, Behind, Reopened;
  }

  lemma {:induction false} PassTurnIgnoresLimits(h: Hand, i: nat, level: StakeLevel)
    requires Playable(h) && i < |h.seats| && level.bigBlind == h.level.bigBlind
    ensures PassTurn(h.(level := level), i) == Relevelled(PassTurn(h, i), level)
  {
    AdvanceStreetIgnoresLimits(h, level);
    hide AdvanceStreet, Award, BuildSettlement, NextPendingFrom;
  }

  /** Nothing an action does depends on the limits the bytes leave out. */
  lemma {:induction false} ActIgnoresLimits(h: Hand, player: PlayerId, action: PlayerAction, level: StakeLevel)
    requires Playable(h) && level.bigBlind == h.level.bigBlind
    ensures Act(h.(level := level), player, action) == Relevelled(Act(h, player, action), level)
  {
    hide Perform, PassTurn;
    if h.nextToAct.Some? {
      PerformIgnoresLimits(h, h.nextToAct.value, action, level);
      PassTurnIgnoresLimits(Perform(h, h.nextToAct.value, action).state, h.nextToAct.value, level);
    }
  }

  /** The replies a hand gives to a series of attempted actions. */
  function Replies(h: Hand, attempts: seq<(PlayerId, PlayerAction)>): seq<Result<Outcome>>
    requires Playable(h)
    decreases |attempts|
  {
    if |attempts| == 0 then []
    else
      var a := Act(h, attempts[0].0, attempts[0].1);
      [a.result] + Replies(a.state, attempts[1..])
  }

  lemma {:induction false} RepliesIgnoreLimits(h: Hand, level: StakeLevel, attempts: seq<(PlayerId, PlayerAction)>)
    requires Playable(h) && level.bigBlind == h.level.bigBlind
    ensures Replies(h, attempts) == Replies(h.(level := level), attempts)
    decreases |attempts|
  {
    if |attempts| > 0 {
      ActIgnoresLimits(h, attempts[0].0, attempts[0].1, level);
      ActIgnoresLimits(h, attempts[0].0, attempts[0].1, h.level);
      assert h.(level := h.level) == h;
      hide Act;
      RepliesIgnoreLimits(Act(h, attempts[0].0, attempts[0].1).state, level, attempts[1..]);
    }
  }

  /** Two hands with the same hash accept the same actions with the same outcomes, however play goes on. */
  lemma {:induction false} SameBytesSameReplies(g: Hand, h: Hand, attempts: seq<(PlayerId, PlayerAction)>)
    requires InRange(g) && InRange(h) && PublicBytes(g) == PublicBytes(h) && Playable(h)
    ensures Playable(g) && Replies(g, attempts) == Replies(h, attempts)
  {
    SameBytesSameHand(g, h);
    RepliesIgnoreLimits(h, g.level, attempts);
  }

  /** A hand in play is in range: only the names of its players and level are not bounded by the betting itself. */
  lemma {:induction false} AwaitingInRange(h: Hand)
    requires Awaiting(h) && |Utf8(h.level.id)| <= U64_MAX
    requires forall i :: 0 <= i < |h.seats| ==> h.seats[i].player < Pow256(KEY)
    ensures InRange(h)
  {
    hide Pow256, Utf8;
    MulMonotone(1, h.level.maxPlayers, h.level.maxBuyIn);
    forall i | 0 <= i < |h.seats| ensures SeatInRange(h.seats[i]) {
      assert SeatBooked(h.level, h.currentBet, h.seats[i]);
    }
    forall p | p in h.pending || p in h.raiseRights ensures p < Pow256(KEY) {
      assert p in ActionablePlayers(h.seats, None);
    }
    PlayersAtMostSeats(h.seats, h.pending);
    PlayersAtMostSeats(h.seats, h.raiseRights);
  }
}
