/** The stake levels of a table: blinds, buy-in range and number of players. */
module Stakes {
  import opened Chips

  datatype StakeLevel = StakeLevel(
    id: string, smallBlind: nat, bigBlind: nat,
    minBuyIn: nat, maxBuyIn: nat, minPlayers: nat, maxPlayers: nat)

  datatype StakeLevelError = EmptyId | InvalidBlinds | InvalidBuyInRange | InvalidPlayerRange

  datatype NewLevel = Level(level: StakeLevel) | Refused(error: StakeLevelError)

  /** The characters that `str::trim` removes. */
  predicate IsWhitespace(c: char) {
    || 9 as char <= c <= 13 as char
    || c in {' ', '\U{85}', '\U{A0}', '\U{1680}', '\U{2028}', '\U{2029}', '\U{202F}', '\U{205F}', '\U{3000}'}
    || '\U{2000}' <= c <= '\U{200A}'
  }

  predicate Blank(s: string) {
    forall i :: 0 <= i < |s| ==> IsWhitespace(s[i])
  }

  function NewStakeLevel(level: StakeLevel): (r: NewLevel)
    ensures r.Level? <==> ValidLevel(level)
    ensures r.Level? ==> r.level == level
  {
    if Blank(level.id) then Refused(EmptyId)
    else if level.smallBlind == 0 || level.bigBlind <= level.smallBlind then Refused(InvalidBlinds)
    else if level.minBuyIn < level.bigBlind || level.maxBuyIn < level.minBuyIn then Refused(InvalidBuyInRange)
    else if !(2 <= level.minPlayers <= 9) || !(level.minPlayers <= level.maxPlayers <= 9) then Refused(InvalidPlayerRange)
    else Level(level)
  }

  /** What every stake level in use satisfies. */
  ghost predicate ValidLevel(level: StakeLevel) {
    && !Blank(level.id)
    && 0 < level.smallBlind < level.bigBlind <= level.minBuyIn <= level.maxBuyIn
    && 2 <= level.minPlayers <= level.maxPlayers <= 9
  }

  /** No sum of stacks at a full table of this level leaves the range of `u64`. */
  ghost predicate FitsChips(level: StakeLevel) {
    level.maxPlayers * level.maxBuyIn <= U64_MAX
  }

  const PUBLIC_STAKE_LEVELS: seq<StakeLevel> := [
    StakeLevel("100k-200k", 100_000, 200_000, 8_000_000, 20_000_000, 2, 6),
    StakeLevel("1m-2m", 1_000_000, 2_000_000, 80_000_000, 200_000_000, 2, 6),
    StakeLevel("10m-20m", 10_000_000, 20_000_000, 800_000_000, 2_000_000_000, 2, 6),
    StakeLevel("100m-200m", 100_000_000, 200_000_000, 8_000_000_000, 20_000_000_000, 2, 6)
  ]

  lemma {:induction false} PublicLevelsFit(i: nat)
    requires i < |PUBLIC_STAKE_LEVELS|
    ensures var level := PUBLIC_STAKE_LEVELS[i];
            ValidLevel(level) && FitsChips(level) && level.maxPlayers == 6 && level.maxBuyIn == 100 * level.bigBlind
  {
    assert !IsWhitespace(PUBLIC_STAKE_LEVELS[i].id[0]);
  }
}
