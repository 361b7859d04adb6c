/**
 * The unit converter `getAmount(amount) = ethers.parseUnits(amount, 18)`.
 * The library's decimal parser is not part of this model: it is a parameter,
 * and only the two conversions the setup script relies on are pinned.
 */
module Units {

  /** `ethers.parseUnits(decimal, decimals)`: a decimal string to integer base units. */
  type ParseUnits = (string, nat) -> int

  /** Every token of the setup has 18 decimals. */
  const DECIMALS: nat := 18

  /** Literal of the wrapped-ether amount (deposit and WETH approval). */
  const ETH_LITERAL: string := "0.01"

  /** Literal of the DAI amount (DAI approval). */
  const DAI_LITERAL: string := "500"

  function Pow10(n: nat): (r: nat)
    ensures r > 0
  {
    if n == 0 then 1 else 10 * Pow10(n - 1)
  }

  /** `getAmount(amount)`: the amount in base units of an 18-decimal token. */
  function GetAmount(parseUnits: ParseUnits, amount: string): int
  {
    parseUnits(amount, DECIMALS)
  }

  /**
   * The converter scales the two literals as decimal numbers: one hundredth
   * of a whole token, and five hundred whole tokens.
   */
  predicate ScalesLiterals(parseUnits: ParseUnits)
  {
    && 100 * parseUnits(ETH_LITERAL, DECIMALS) == Pow10(DECIMALS)
    && parseUnits(DAI_LITERAL, DECIMALS) == 500 * Pow10(DECIMALS)
  }

  lemma Pow10Of18()
    ensures Pow10(18) == 1_000_000_000_000_000_000
  {
    assert Pow10(6) == 1_000_000;
    assert Pow10(12) == 1_000_000 * Pow10(6);
    assert Pow10(18) == 1_000_000 * Pow10(12);
  }

  /** The amounts the script uses: 0.01 token is 10^16 base units and 500 tokens are 5 * 10^23. */
  lemma SourceAmounts(parseUnits: ParseUnits)
    requires ScalesLiterals(parseUnits)
    ensures GetAmount(parseUnits, ETH_LITERAL) == 10_000_000_000_000_000
    ensures GetAmount(parseUnits, DAI_LITERAL) == 500_000_000_000_000_000_000
  {
    Pow10Of18();
  }
}
