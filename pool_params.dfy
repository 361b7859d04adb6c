/**
 * The pure part of `setupPool`: the fixed pool constants, the permutation of
 * tokens and desired amounts under one ordering flag, the deadline, and the
 * parameter record passed to the position manager's `mint`.
 */
module PoolParams {
  import opened PairOrder

  datatype Option<T> = None | Some(value: T)

  /** Fee tier of the pool (0.3%). */
  const FEE: int := 3000

  /** Starting price of the pool: Uniswap V3's `MIN_SQRT_RATIO`. */
  const INITIAL_SQRT_PRICE_X96: int := 4295128739

  const TICK_LOWER: int := -120
  const TICK_UPPER: int := 120

  /** The `params` record handed to `positionManager.mint`. */
  datatype MintParams = MintParams(
    token0: Address,
    token1: Address,
    fee: int,
    tickLower: int,
    tickUpper: int,
    amount0Desired: int,
    amount1Desired: int,
    amount0Min: int,
    amount1Min: int,
    recipient: Address,
    deadline: int)

  /** `token0` and `token1`: the DAI and WETH addresses, swapped when `revert` holds. */
  function OrderedPair(revert: bool, daiAddr: Address, wethAddr: Address): (Address, Address)
  {
    (if revert then wethAddr else daiAddr, if revert then daiAddr else wethAddr)
  }

  /** `amount0Desired` and `amount1Desired`: the DAI and ether amounts, swapped when `revert` holds. */
  function DesiredAmounts(revert: bool, daiAmount: int, ethAmount: int): (int, int)
  {
    (if revert then ethAmount else daiAmount, if revert then daiAmount else ethAmount)
  }

  /**
   * The mint deadline: the latest block's timestamp (0 when there is no
   * block) times 1000, plus 600.
   */
  function Deadline(latestTimestamp: Option<nat>): int
  {
    (match latestTimestamp case Some(ts) => ts case None => 0) * 1000 + 600
  }

  /** The `params` record built from the ordered pair and the ordered amounts. */
  function MintParamsFor(token0: Address, token1: Address, amount0Desired: int, amount1Desired: int,
                         owner: Address, latestTimestamp: Option<nat>): MintParams
  {
    MintParams(token0, token1, FEE, TICK_LOWER, TICK_UPPER, amount0Desired, amount1Desired,
               0, 0, owner, Deadline(latestTimestamp))
  }

  /** The pair the script actually uses: ordered by `shouldRevertOrder` on the two addresses. */
  function CanonicalPair(daiAddr: Address, wethAddr: Address): (Address, Address)
  {
    OrderedPair(ShouldRevertOrder(daiAddr, wethAddr), daiAddr, wethAddr)
  }

  /**
   * `token0`/`token1` is a permutation of the two addresses; `token0` is the
   * one whose lower-cased form is not above the other's, strictly below when
   * they differ up to case; and the pair does not depend on which token is
   * passed first.
   */
  lemma CanonicalPairIsSorted(daiAddr: Address, wethAddr: Address)
    ensures var (token0, token1) := CanonicalPair(daiAddr, wethAddr);
      && multiset{token0, token1} == multiset{daiAddr, wethAddr}
      && (daiAddr != wethAddr ==> token0 != token1)
      && !Less(ToLower(token1), ToLower(token0))
      && (ToLower(daiAddr) != ToLower(wethAddr) ==>
            Less(ToLower(token0), ToLower(token1)) && CanonicalPair(wethAddr, daiAddr) == (token0, token1))
  {
    LessTrichotomous(ToLower(daiAddr), ToLower(wethAddr));
    LessIrreflexive(ToLower(daiAddr));
  }

  /**
   * For well-formed and numerically distinct addresses, `token0` is the
   * smaller 160-bit number: the position manager's `token0 < token1`.
   */
  lemma CanonicalPairIsNumericallySorted(daiAddr: Address, wethAddr: Address)
    requires IsAddress(daiAddr) && IsAddress(wethAddr) && AddressValue(daiAddr) != AddressValue(wethAddr)
    ensures var (token0, token1) := CanonicalPair(daiAddr, wethAddr);
      AddressValue(token0) < AddressValue(token1)
  {
    ShouldRevertOrderIsNumericOrder(daiAddr, wethAddr);
  }

  /**
   * The amounts follow the tokens: whatever the flag, the desired amount at
   * index 0 belongs to the token at index 0, and likewise at index 1.
   */
  lemma AmountsFollowTokens(revert: bool, daiAddr: Address, wethAddr: Address, daiAmount: int, ethAmount: int)
    requires daiAddr != wethAddr
    ensures var (token0, token1) := OrderedPair(revert, daiAddr, wethAddr);
      var (amount0, amount1) := DesiredAmounts(revert, daiAmount, ethAmount);
      && amount0 == (if token0 == daiAddr then daiAmount else ethAmount)
      && amount1 == (if token1 == wethAddr then ethAmount else daiAmount)
      && (token0 == daiAddr <==> token1 == wethAddr)
  {
  }

  /** The fields of the mint parameters: the given ones, the fixed ones and the deadline. */
  lemma MintParamsFixedFields(token0: Address, token1: Address, amount0Desired: int, amount1Desired: int,
                              owner: Address, latestTimestamp: Option<nat>)
    ensures var p := MintParamsFor(token0, token1, amount0Desired, amount1Desired, owner, latestTimestamp);
      && p.token0 == token0 && p.token1 == token1 && p.fee == 3000
      && p.tickLower == -120 && p.tickUpper == 120 && p.tickLower < p.tickUpper
      && p.amount0Desired == amount0Desired && p.amount1Desired == amount1Desired
      && p.amount0Min == 0 && p.amount1Min == 0
      && p.recipient == owner && p.deadline == Deadline(latestTimestamp)
  {
  }

  /**
   * The deadline as written: 600 without a block; otherwise the timestamp in
   * seconds scaled by 1000 plus 600, which for any block after the epoch lies
   * further ahead than the timestamp plus 600 seconds.
   */
  lemma DeadlineValue(latestTimestamp: Option<nat>)
    ensures latestTimestamp.None? ==> Deadline(latestTimestamp) == 600
    ensures latestTimestamp.Some? ==> Deadline(latestTimestamp) == latestTimestamp.value * 1000 + 600
    ensures latestTimestamp.Some? && latestTimestamp.value > 0 ==>
      Deadline(latestTimestamp) > latestTimestamp.value + 600
  {
  }
}
