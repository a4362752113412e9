/** Seed epochs and the choice between the two cache slots (src/qrandomx/rx-slow-hash.c:111-136, 191-214). */
module SeedEpochs {
  import opened Basics

  const EPOCH_BLOCKS: nat := 2048
  const EPOCH_LAG: nat := 64

  // ---------------------------------------------------------------------------------------------
  // Bitwise conjunction on machine words
  // ---------------------------------------------------------------------------------------------

  function BitAnd(x: nat, y: nat): nat {
    if x == 0 then 0 else 2 * BitAnd(x / 2, y / 2) + (x % 2) * (y % 2)
  }

  /** An int converted to uint64_t is sign-extended, that is reduced modulo 2^64. */
  function ToUint64(x: int): Uint64 {
    x % TWO_64
  }

  /** `~x` on a two's-complement int. */
  function Complement(x: int): int {
    -x - 1
  }

  function ShiftLeft(x: nat, n: nat): nat
    decreases n
  {
    if n == 0 then x else 2 * ShiftLeft(x, n - 1)
  }

  function ShiftRight(x: nat, n: nat): nat
    decreases n
  {
    if n == 0 then x else ShiftRight(x / 2, n - 1)
  }

  /** The number whose n low bits are set. */
  function Ones(n: nat): nat {
    if n == 0 then 0 else 2 * Ones(n - 1) + 1
  }

  /** A mask with n low zero bits only looks at the bits above them. */
  lemma {:induction false} AndDropsLowBits(x: nat, y: nat, n: nat)
    ensures BitAnd(x, ShiftLeft(y, n)) == ShiftLeft(BitAnd(ShiftRight(x, n), y), n)
    decreases n
  {
    if n > 0 {
      AndDropsLowBits(x / 2, y, n - 1);
      if x == 0 {
        ZeroStaysZero(n);
      }
    }
  }

  lemma {:induction false} ZeroStaysZero(n: nat)
    ensures ShiftRight(0, n) == 0 && ShiftLeft(0, n) == 0
  {
    if n > 0 {
      ZeroStaysZero(n - 1);
    }
  }

  /** A mask of n ones keeps every number of at most n bits. */
  lemma {:induction false} AndWithOnes(x: nat, n: nat)
    requires ShiftRight(x, n) == 0
    ensures BitAnd(x, Ones(n)) == x
    decreases n
  {
    if x > 0 {
      AndWithOnes(x / 2, n - 1);
    }
  }

  lemma {:induction false} ShiftsCompose(x: nat, m: nat, n: nat)
    ensures ShiftRight(x, m + n) == ShiftRight(ShiftRight(x, m), n)
    decreases m
  {
    if m > 0 {
      ShiftsCompose(x / 2, m - 1, n);
    }
  }

  lemma {:induction false} AndWithZero(x: nat)
    ensures BitAnd(x, 0) == 0
  {
    if x > 0 {
      AndWithZero(x / 2);
    }
  }

  lemma ShiftBy11(x: nat)
    ensures ShiftRight(x, 11) == x / EPOCH_BLOCKS
    ensures ShiftLeft(x, 11) == x * EPOCH_BLOCKS
  {
    assert ShiftRight(x, 11) == x / 2 / 2 / 2 / 2 / 2 / 2 / 2 / 2 / 2 / 2 / 2;
  }

  /** A 64-bit number without its 11 low bits has at most 53 bits. */
  lemma EpochsFit(x: Uint64)
    ensures ShiftRight(x / EPOCH_BLOCKS, 53) == 0
  {
    var e := x / EPOCH_BLOCKS;
    ShiftsCompose(e, 11, 42);
    ShiftsCompose(e / EPOCH_BLOCKS, 11, 31);
    ShiftsCompose(e / EPOCH_BLOCKS / EPOCH_BLOCKS, 11, 20);
    ShiftBy11(e);
    ShiftBy11(e / EPOCH_BLOCKS);
    ShiftBy11(e / EPOCH_BLOCKS / EPOCH_BLOCKS);
    var top := e / EPOCH_BLOCKS / EPOCH_BLOCKS / EPOCH_BLOCKS;
    ShiftsCompose(top, 11, 9);
    ShiftBy11(top);
    assert top / EPOCH_BLOCKS < 512;
    assert ShiftRight(top / EPOCH_BLOCKS, 9) == 0;
  }

  lemma MaskOfOnes(x: nat, n: nat)
    requires ShiftRight(x / EPOCH_BLOCKS, n) == 0
    ensures BitAnd(x, ShiftLeft(Ones(n), 11)) == x / EPOCH_BLOCKS * EPOCH_BLOCKS
  {
    ShiftBy11(x);
    ShiftBy11(x / EPOCH_BLOCKS);
    AndDropsLowBits(x, Ones(n), 11);
    AndWithOnes(x / EPOCH_BLOCKS, n);
  }

  lemma FourMoreOnes(n: nat)
    ensures Ones(n + 4) == 16 * Ones(n) + 15
  {
    assert Ones(n + 2) == 4 * Ones(n) + 3;
  }

  lemma ThirteenMoreOnes(n: nat)
    ensures Ones(n + 13) == 8192 * Ones(n) + 8191
  {
    FourMoreOnes(n);
    FourMoreOnes(n + 4);
    FourMoreOnes(n + 8);
  }

  lemma FiftyThreeOnes(n: nat)
    requires n == 53
    ensures Ones(n) == 0x1F_FFFF_FFFF_FFFF
  {
    assert Ones(n - 52) == 1;
    ThirteenMoreOnes(n - 52);
    ThirteenMoreOnes(n - 39);
    ThirteenMoreOnes(n - 26);
    ThirteenMoreOnes(n - 13);
  }

  /** The sign-extended mask has 53 ones above 11 zeros. */
  lemma MaskValue(n: nat)
    requires n == 53
    ensures ToUint64(Complement(EPOCH_BLOCKS - 1)) == ShiftLeft(Ones(n), 11)
  {
    FiftyThreeOnes(n);
    ShiftBy11(Ones(n));
  }

  lemma MaskRoundsDownWith(x: Uint64, n: nat)
    requires n == 53
    ensures BitAnd(x, ToUint64(Complement(EPOCH_BLOCKS - 1))) == x / EPOCH_BLOCKS * EPOCH_BLOCKS
  {
    MaskValue(n);
    EpochsFit(x);
    MaskOfOnes(x, n);
  }

  /** The epoch mask rounds a 64-bit number down to a multiple of 2048. */
  lemma MaskRoundsDown(x: Uint64)
    ensures BitAnd(x, ToUint64(Complement(EPOCH_BLOCKS - 1))) == x / EPOCH_BLOCKS * EPOCH_BLOCKS
  {
    MaskRoundsDownWith(x, 53);
  }

  /** The toggle bit of a 64-bit number is the parity of its epoch. */
  lemma ToggleBitIsParity(x: Uint64)
    ensures BitAnd(x, EPOCH_BLOCKS) != 0 <==> x / EPOCH_BLOCKS % 2 == 1
  {
    var e := x / EPOCH_BLOCKS;
    ShiftBy11(x);
    ShiftBy11(1);
    ShiftBy11(BitAnd(e, 1));
    AndDropsLowBits(x, 1, 11);
    AndWithZero(e / 2);
  }

  // ---------------------------------------------------------------------------------------------
  // Seed heights
  // ---------------------------------------------------------------------------------------------

  function SeedHeight(height: Uint64): Uint64 {
    if height <= EPOCH_BLOCKS + EPOCH_LAG then 0
    else
      MaskRoundsDown(height - EPOCH_LAG - 1);
      BitAnd(height - EPOCH_LAG - 1, ToUint64(Complement(EPOCH_BLOCKS - 1)))
  }

  /** The current and the next seed height; the addition wraps at 2^64. */
  function SeedHeights(height: Uint64): (Uint64, Uint64) {
    (SeedHeight(height), SeedHeight(ToUint64(height + EPOCH_LAG)))
  }

  /** Division form: the epoch start of the block 65 below, and 0 near genesis. */
  lemma SeedHeightByDivision(height: Uint64)
    ensures SeedHeight(height) ==
      if height < EPOCH_LAG + 1 then 0 else (height - EPOCH_LAG - 1) / EPOCH_BLOCKS * EPOCH_BLOCKS
  {
    if height > EPOCH_BLOCKS + EPOCH_LAG {
      MaskRoundsDown(height - EPOCH_LAG - 1);
    }
  }

  lemma SeedHeightLaws(height: Uint64)
    ensures SeedHeight(height) % EPOCH_BLOCKS == 0
    ensures height > 2112 ==> 65 <= height - SeedHeight(height) <= 2112
    ensures height <= 2112 <==> SeedHeight(height) == 0
  {
    SeedHeightByDivision(height);
  }

  /** One more block either keeps the seed height or raises it by exactly one epoch, on the lag boundary. */
  lemma SeedHeightJumps(height: Uint64)
    requires height + 1 < TWO_64
    ensures SeedHeight(height + 1) - SeedHeight(height) ==
      if height > EPOCH_LAG && (height - EPOCH_LAG) % EPOCH_BLOCKS == 0 then EPOCH_BLOCKS else 0
  {
    SeedHeightByDivision(height);
    SeedHeightByDivision(height + 1);
  }

  lemma SeedHeightMonotone(a: Uint64, b: Uint64)
    requires a <= b
    ensures SeedHeight(a) <= SeedHeight(b)
  {
    SeedHeightByDivision(a);
    SeedHeightByDivision(b);
  }

  /** The announced next seed is the current one or the next epoch, exactly when the sum does not wrap. */
  lemma NextSeedHeight(height: Uint64)
    ensures SeedHeights(height).1 - SeedHeights(height).0 in {0, EPOCH_BLOCKS} <==>
      height + EPOCH_LAG < TWO_64
  {
    var next := ToUint64(height + EPOCH_LAG);
    SeedHeightByDivision(height);
    SeedHeightByDivision(next);
    if height + EPOCH_LAG < TWO_64 {
      assert next == height + EPOCH_LAG;
      assert (height - 1) / EPOCH_BLOCKS - (height - 65) / EPOCH_BLOCKS in {0, 1};
    } else {
      assert next == height + EPOCH_LAG - TWO_64;
      assert SeedHeight(next) == 0;
    }
  }

  // ---------------------------------------------------------------------------------------------
  // Slot choice
  // ---------------------------------------------------------------------------------------------

  /** What a call decides under the global mutex: the slot, and whether it stays an alt caller. */
  datatype Choice = Choice(slot: nat, alt: bool)

  function Toggle(height: Uint64): (slot: nat)
    ensures slot < 2
  {
    if BitAnd(SeedHeight(height), EPOCH_BLOCKS) != 0 then 1 else 0
  }

  /** `mainSlotHash` is the seed hash recorded in the slot the toggle bit points to. */
  function ChooseSlot(mainHeight: Uint64, seedHeight: Uint64, seedHash: Bytes,
                      isAlt: bool, mainSlotHash: Bytes): (c: Choice)
    ensures c.slot < 2
  {
    var current := SeedHeight(mainHeight);
    var toggle := Toggle(mainHeight);
    var alt :=
      if isAlt then !(current == seedHeight && mainSlotHash == seedHash)
      else current > seedHeight;
    var ahead := !isAlt && current < seedHeight;
    var slot := if ahead then 1 - toggle else toggle;
    Choice(if alt then 1 - slot else slot, alt)
  }

  function EpochSlot(seedHeight: Uint64): nat {
    seedHeight / EPOCH_BLOCKS % 2
  }

  /** The choice by the fields of the call. An alt call keeps out of the slot of the current epoch unless it
      asks for exactly what is recorded there; a main-chain call keeps out of it when it is for another epoch,
      and counts as an alt call when that epoch has passed. */
  lemma ChoiceByFields(mainHeight: Uint64, seedHeight: Uint64, seedHash: Bytes, isAlt: bool, mainSlotHash: Bytes)
    ensures
      var current := SeedHeight(mainHeight);
      var home := current / EPOCH_BLOCKS % 2;
      ChooseSlot(mainHeight, seedHeight, seedHash, isAlt, mainSlotHash) ==
        if seedHeight == current then
          (if isAlt && mainSlotHash != seedHash then Choice(1 - home, true) else Choice(home, false))
        else Choice(1 - home, isAlt || seedHeight < current)
  {
    ToggleBitIsParity(SeedHeight(mainHeight));
  }

  /** A main-chain call for an epoch seed uses the slot of that epoch's parity exactly when the
      requested epoch is the current one or an odd number of epochs away. */
  lemma MainCallSlot(mainHeight: Uint64, seedHeight: Uint64, seedHash: Bytes, mainSlotHash: Bytes)
    requires seedHeight % EPOCH_BLOCKS == 0
    ensures
      var c := ChooseSlot(mainHeight, seedHeight, seedHash, false, mainSlotHash);
      var distance := (SeedHeight(mainHeight) - seedHeight) / EPOCH_BLOCKS;
      c.slot == EpochSlot(seedHeight) <==> distance == 0 || distance % 2 == 1
  {
    var current := SeedHeight(mainHeight);
    ToggleBitIsParity(current);
    SeedHeightLaws(mainHeight);
    var mine, theirs := seedHeight / EPOCH_BLOCKS, current / EPOCH_BLOCKS;
    assert seedHeight == mine * EPOCH_BLOCKS && current == theirs * EPOCH_BLOCKS;
    assert (current - seedHeight) / EPOCH_BLOCKS == theirs - mine;
    ParityOfDistance(mine, theirs);
  }

  lemma ParityOfDistance(a: nat, b: nat)
    ensures (b - a) % 2 == 1 <==> a % 2 != b % 2
  {
  }

  /** Within one epoch of the current seed height the slot is a function of the seed height alone. */
  lemma NeighbouringEpochSlot(mainHeight: Uint64, seedHeight: Uint64, seedHash: Bytes, mainSlotHash: Bytes)
    requires seedHeight % EPOCH_BLOCKS == 0
    requires Abs(SeedHeight(mainHeight) - seedHeight) <= EPOCH_BLOCKS
    ensures ChooseSlot(mainHeight, seedHeight, seedHash, false, mainSlotHash).slot == EpochSlot(seedHeight)
  {
    SeedHeightLaws(mainHeight);
    MainCallSlot(mainHeight, seedHeight, seedHash, mainSlotHash);
  }

  /** Different epochs at most one apart never share a slot. */
  lemma AdjacentEpochsUseDifferentSlots(a: Uint64, b: Uint64)
    requires a % EPOCH_BLOCKS == 0 && b % EPOCH_BLOCKS == 0
    requires Abs(a - b) <= EPOCH_BLOCKS
    ensures EpochSlot(a) == EpochSlot(b) <==> a == b
  {
  }
}
