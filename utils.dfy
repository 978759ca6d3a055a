/**
 * Shared helpers of src/utils.ts: the deterministic id builders, account
 * lookup by index, program-id comparison and the in-place base-pool update.
 *
 * An account that the source reads as `undefined` or as an empty string is
 * the empty string here, so JavaScript's `!account` is `!Present(account)`.
 */
module Utils {
  import opened Wrappers
  import opened Entities

  /** The SPL token program, as written in the transfer decoders. */
  const TOKEN_PROGRAM_ID: string := "TokenkegQfeZyiNwAJbNbGKPFXCWuBvf9Ss623VQ5DA"

  /** The system program, as written in the create-account decoder. */
  const SYSTEM_PROGRAM_ID: string := "11111111111111111111111111111111"

  /** JavaScript truthiness of an account string. */
  predicate Present(account: string) {
    account != ""
  }

  // ---------------------------------------------------------------------
  // Decimal rendering of indices (JavaScript template literals on numbers)
  // ---------------------------------------------------------------------

  predicate IsDigit(c: char) {
    '0' <= c <= '9'
  }

  predicate AllDigits(s: string) {
    forall i :: 0 <= i < |s| ==> IsDigit(s[i])
  }

  function DigitChar(d: nat): (c: char)
    requires d < 10
    ensures IsDigit(c) && c as int - '0' as int == d
  {
    (d + '0' as int) as char
  }

  /** `${n}` for a non-negative integer: its decimal digits, no sign, no padding. */
  function NatToString(n: nat): (s: string)
    ensures |s| >= 1 && AllDigits(s)
    ensures s[0] == '0' ==> n == 0
    decreases n
  {
    if n < 10 then [DigitChar(n)] else NatToString(n / 10) + [DigitChar(n % 10)]
  }

  /** The value of a non-empty string of decimal digits. */
  function DigitsValue(s: string): nat
    requires |s| >= 1 && AllDigits(s)
    decreases |s|
  {
    var d := s[|s| - 1] as int - '0' as int;
    if |s| == 1 then d else DigitsValue(s[..|s| - 1]) * 10 + d
  }

  /** Reads back a rendered index; anything but a non-empty digit string is rejected. */
  function ParseNat(s: string): (r: Option<nat>)
    ensures r.Some? <==> |s| >= 1 && AllDigits(s)
  {
    if |s| >= 1 && AllDigits(s) then Some(DigitsValue(s)) else None
  }

  lemma {:induction false} ParseNatToString(n: nat)
    ensures ParseNat(NatToString(n)) == Some(n)
    decreases n
  {
    if n >= 10 {
      var s := NatToString(n);
      var p := NatToString(n / 10);
      ParseNatToString(n / 10);
      assert s[..|s| - 1] == p;
      assert DigitsValue(s) == DigitsValue(p) * 10 + n % 10;
    }
  }

  /** Rendering distinct indices gives distinct strings. */
  lemma NatToStringInjective(m: nat, n: nat)
    requires m != n
    ensures NatToString(m) != NatToString(n)
  {
    ParseNatToString(m);
    ParseNatToString(n);
  }

  // ---------------------------------------------------------------------
  // Splitting a dash-joined id back into its parts
  // ---------------------------------------------------------------------

  /** The position of the last '-' in `s`, if any. */
  function LastDash(s: string): (r: Option<nat>)
    ensures r.Some? ==> r.value < |s| && s[r.value] == '-'
                        && forall j :: r.value < j < |s| ==> s[j] != '-'
    ensures r.None? ==> forall j :: 0 <= j < |s| ==> s[j] != '-'
    decreases |s|
  {
    if |s| == 0 then None
    else if s[|s| - 1] == '-' then Some(|s| - 1)
    else LastDash(s[..|s| - 1])
  }

  /** The parts before and after the last '-'. */
  function SplitAtLastDash(s: string): Option<(string, string)> {
    match LastDash(s)
    case None => None
    case Some(k) => Some((s[..k], s[k + 1..]))
  }

  /** Joining with '-' is undone by splitting at the last '-' when the right part has none. */
  lemma SplitJoin(a: string, b: string)
    requires '-' !in b
    ensures SplitAtLastDash(a + "-" + b) == Some((a, b))
  {
    var s := a + "-" + b;
    assert s[|a|] == '-';
    match LastDash(s)
    case None =>
      assert false;
    case Some(k) =>
      assert s[..|a|] == a;
      assert s[|a| + 1..] == b;
  }

  /** A string "<prefix>-<index>" read back into its prefix and index. */
  function ParseIndexedId(id: string): Option<(string, nat)> {
    match SplitAtLastDash(id)
    case None => None
    case Some((prefix, digits)) =>
      match ParseNat(digits)
      case None => None
      case Some(n) => Some((prefix, n))
  }

  lemma IndexedIdRoundTrip(prefix: string, n: nat)
    ensures ParseIndexedId(prefix + "-" + NatToString(n)) == Some((prefix, n))
  {
    var digits := NatToString(n);
    SplitJoin(prefix, digits);
    ParseNatToString(n);
  }

  // ---------------------------------------------------------------------
  // Id builders
  // ---------------------------------------------------------------------

  /** `${txId}-${logIndex}`. */
  function CreateSwapId(txId: string, logIndex: nat): string {
    txId + "-" + NatToString(logIndex)
  }

  /** `${txId}-${logIndex}`, the same shape as a swap id. */
  function CreateFeeId(txId: string, logIndex: nat): string {
    txId + "-" + NatToString(logIndex)
  }

  /** `${poolId}-${rewardIndex}`. */
  function CreateRewardId(poolId: string, rewardIndex: nat): string {
    poolId + "-" + NatToString(rewardIndex)
  }

  /** `${poolAddress}-${owner}`. */
  function CreatePositionId(poolAddress: string, owner: string): string {
    poolAddress + "-" + owner
  }

  /** `${poolAddress}-${owner}`, the same shape as a position id. */
  function CreateLockId(poolAddress: string, owner: string): string {
    poolAddress + "-" + owner
  }

  /** A swap id reads back to exactly its transaction and index. */
  lemma SwapIdRoundTrip(txId: string, logIndex: nat)
    ensures ParseIndexedId(CreateSwapId(txId, logIndex)) == Some((txId, logIndex))
  {
    IndexedIdRoundTrip(txId, logIndex);
  }

  /** A fee id reads back to exactly its transaction and index. */
  lemma FeeIdRoundTrip(txId: string, logIndex: nat)
    ensures ParseIndexedId(CreateFeeId(txId, logIndex)) == Some((txId, logIndex))
  {
    IndexedIdRoundTrip(txId, logIndex);
  }

  /** A reward id reads back to exactly its pool and reward index. */
  lemma RewardIdRoundTrip(poolId: string, rewardIndex: nat)
    ensures ParseIndexedId(CreateRewardId(poolId, rewardIndex)) == Some((poolId, rewardIndex))
  {
    IndexedIdRoundTrip(poolId, rewardIndex);
  }

  /** A position id splits back into its pool and owner when the owner has no '-'. */
  lemma PositionIdRoundTrip(poolAddress: string, owner: string)
    requires '-' !in owner
    ensures SplitAtLastDash(CreatePositionId(poolAddress, owner)) == Some((poolAddress, owner))
  {
    SplitJoin(poolAddress, owner);
  }

  /** A lock id splits back into its pool and owner when the owner has no '-'. */
  lemma LockIdRoundTrip(poolAddress: string, owner: string)
    requires '-' !in owner
    ensures SplitAtLastDash(CreateLockId(poolAddress, owner)) == Some((poolAddress, owner))
  {
    SplitJoin(poolAddress, owner);
  }

  /** Two swaps of one transaction with different indices never share an id. */
  lemma SwapIdsDistinct(txA: string, idxA: nat, txB: string, idxB: nat)
    requires txA != txB || idxA != idxB
    ensures CreateSwapId(txA, idxA) != CreateSwapId(txB, idxB)
  {
    SwapIdRoundTrip(txA, idxA);
    SwapIdRoundTrip(txB, idxB);
  }

  /** Base58 account addresses never contain '-', so position ids are injective on them. */
  lemma PositionIdsDistinct(poolA: string, ownerA: string, poolB: string, ownerB: string)
    requires '-' !in ownerA && '-' !in ownerB
    requires poolA != poolB || ownerA != ownerB
    ensures CreatePositionId(poolA, ownerA) != CreatePositionId(poolB, ownerB)
  {
    PositionIdRoundTrip(poolA, ownerA);
    PositionIdRoundTrip(poolB, ownerB);
  }

  /** The dash-free side matters: these two different (pool, owner) pairs collide. */
  lemma PositionIdCollidesWithDashedOwner()
    ensures CreatePositionId("a", "b-c") == CreatePositionId("a-b", "c")
  {
  }

  // ---------------------------------------------------------------------
  // Account lookup and program ids
  // ---------------------------------------------------------------------

  /** The account at `index`, or the out-of-bounds error the source throws. */
  function GetAccountByIndex(accounts: seq<string>, index: nat): (r: Result<string>)
    ensures r.Ok? <==> index < |accounts|
    ensures r.Ok? ==> r.value == accounts[index]
  {
    if index >= |accounts| then Err("Account index " + NatToString(index) + " out of bounds")
    else Ok(accounts[index])
  }

  /** ASCII `toLowerCase` on one character. */
  function LowerChar(c: char): (r: char)
    ensures 'A' <= c <= 'Z' ==> 'a' <= r <= 'z'
    ensures !('A' <= c <= 'Z') ==> r == c
  {
    if 'A' <= c <= 'Z' then (c as int - 'A' as int + 'a' as int) as char else c
  }

  function ToLower(s: string): (r: string)
    ensures |r| == |s|
    ensures forall i :: 0 <= i < |s| ==> r[i] == LowerChar(s[i])
    decreases |s|
  {
    if |s| == 0 then [] else ToLower(s[..|s| - 1]) + [LowerChar(s[|s| - 1])]
  }

  /** `a.toLowerCase() === b.toLowerCase()`. */
  predicate SameIgnoringCase(a: string, b: string) {
    ToLower(a) == ToLower(b)
  }

  predicate IsTokenProgram(programId: string) {
    SameIgnoringCase(programId, TOKEN_PROGRAM_ID)
  }

  predicate IsSystemProgram(programId: string) {
    SameIgnoringCase(programId, SYSTEM_PROGRAM_ID)
  }

  /** Lower-casing a program id first does not change whether it matches. */
  lemma ProgramMatchIgnoresCase(programId: string, expected: string)
    ensures SameIgnoringCase(programId, expected) <==> SameIgnoringCase(ToLower(programId), expected)
  {
    var once := ToLower(programId);
    assert ToLower(once) == once by {
      forall i | 0 <= i < |once|
        ensures ToLower(once)[i] == once[i]
      {
        assert LowerChar(LowerChar(programId[i])) == LowerChar(programId[i]);
      }
    }
  }

  /** The two program ids the decoders filter on are told apart. */
  lemma TokenAndSystemProgramsDiffer()
    ensures IsTokenProgram(TOKEN_PROGRAM_ID) && !IsTokenProgram(SYSTEM_PROGRAM_ID)
    ensures IsSystemProgram(SYSTEM_PROGRAM_ID) && !IsSystemProgram(TOKEN_PROGRAM_ID)
  {
    assert SYSTEM_PROGRAM_ID[0] == '1' && TOKEN_PROGRAM_ID[0] == 'T';
    assert ToLower(SYSTEM_PROGRAM_ID)[0] == '1';
    assert ToLower(TOKEN_PROGRAM_ID)[0] == LowerChar('T');
  }

  /**
   * utils.ts `updateBasePool`: sets reserves, liquidity and `updatedAt`
   * (the timestamp is used as milliseconds, with no scaling) and nothing else.
   */
  function UpdateBasePool(pool: BasePool, reserveX: int, reserveY: int, totalLiquidity: int, timestamp: int): (p: BasePool)
    ensures p.reserveX == reserveX && p.reserveY == reserveY && p.totalLiquidity == totalLiquidity
    ensures p.updatedAt == timestamp
    ensures p.id == pool.id && p.tokenX == pool.tokenX && p.tokenY == pool.tokenY
    ensures p.tokenXVault == pool.tokenXVault && p.tokenYVault == pool.tokenYVault
    ensures p.status == pool.status && p.createdAt == pool.createdAt
  {
    pool.(reserveX := reserveX, reserveY := reserveY, totalLiquidity := totalLiquidity, updatedAt := timestamp)
  }
}
