/**
 * Canonical ordering of a token pair: the `shouldRevertOrder` helper of the
 * Uniswap setup script, together with the two JavaScript string operations it
 * relies on (`toLowerCase` and `<`), and the link between that string order
 * and the numeric order in which the Uniswap V3 contracts compare addresses.
 */
module PairOrder {

  /** A chain address as the script handles it: a JavaScript string. */
  type Address = string

  // ---------------------------------------------------------------------------
  // toLowerCase
  // ---------------------------------------------------------------------------

  /** Lower-casing of one character, for the ASCII letters A-Z. */
  function LowerChar(c: char): char
  {
    if 'A' <= c <= 'Z' then (c as int + 32) as char else c
  }

  /** Upper-casing of one character, for the ASCII letters a-z. */
  function UpperChar(c: char): char
  {
    if 'a' <= c <= 'z' then (c as int - 32) as char else c
  }

  /** `s.toLowerCase()`: every character lower-cased, length kept. */
  function ToLower(s: string): (r: string)
    ensures |r| == |s|
    ensures forall i :: 0 <= i < |s| ==> r[i] == LowerChar(s[i])
  {
    if s == [] then [] else [LowerChar(s[0])] + ToLower(s[1..])
  }

  /** `s.toUpperCase()`, used only to state that the order ignores case. */
  function ToUpper(s: string): (r: string)
    ensures |r| == |s|
    ensures forall i :: 0 <= i < |s| ==> r[i] == UpperChar(s[i])
  {
    if s == [] then [] else [UpperChar(s[0])] + ToUpper(s[1..])
  }

  lemma ToLowerIdempotent(s: string)
    ensures ToLower(ToLower(s)) == ToLower(s)
  {
    assert forall i :: 0 <= i < |s| ==> ToLower(ToLower(s))[i] == ToLower(s)[i];
  }

  /** Lower-casing an upper-cased string gives the lower-cased original. */
  lemma ToLowerOfToUpper(s: string)
    ensures ToLower(ToUpper(s)) == ToLower(s)
  {
    assert forall i :: 0 <= i < |s| ==> ToLower(ToUpper(s))[i] == ToLower(s)[i];
  }

  // ---------------------------------------------------------------------------
  // String comparison `<`
  // ---------------------------------------------------------------------------

  /**
   * JavaScript's `a < b` on strings: the first differing character decides,
   * and a proper prefix is smaller than the longer string.
   */
  predicate Less(a: string, b: string)
  {
    if b == [] then false
    else if a == [] then true
    else if a[0] != b[0] then a[0] < b[0]
    else Less(a[1..], b[1..])
  }

  /**
   * The textbook reading of lexicographic order: the strings agree on their
   * first `k` characters, and `a` either ends there while `b` goes on, or has
   * the smaller character at position `k`.
   */
  ghost predicate LexBelowAt(a: string, b: string, k: nat)
  {
    k <= |a| && k < |b| && a[..k] == b[..k] && (k == |a| || a[k] < b[k])
  }

  lemma {:induction false} LessHasWitness(a: string, b: string)
    requires Less(a, b)
    ensures exists k: nat :: LexBelowAt(a, b, k)
  {
    if a == [] {
      assert LexBelowAt(a, b, 0);
    } else if a[0] != b[0] {
      assert LexBelowAt(a, b, 0);
    } else {
      LessHasWitness(a[1..], b[1..]);
      var k: nat :| LexBelowAt(a[1..], b[1..], k);
      assert a[..k + 1] == [a[0]] + a[1..][..k];
      assert b[..k + 1] == [b[0]] + b[1..][..k];
      assert LexBelowAt(a, b, k + 1);
    }
  }

  lemma {:induction false} WitnessGivesLess(a: string, b: string, k: nat)
    requires LexBelowAt(a, b, k)
    ensures Less(a, b)
    decreases k
  {
    if k > 0 {
      assert a[0] == a[..k][0] == b[..k][0] == b[0];
      assert a[1..][..k - 1] == a[..k][1..];
      assert b[1..][..k - 1] == b[..k][1..];
      WitnessGivesLess(a[1..], b[1..], k - 1);
    }
  }

  /** `Less` is exactly lexicographic order, in both directions. */
  lemma LessIsLexicographic(a: string, b: string)
    ensures Less(a, b) <==> exists k: nat :: LexBelowAt(a, b, k)
  {
    if Less(a, b) {
      LessHasWitness(a, b);
    }
    if exists k: nat :: LexBelowAt(a, b, k) {
      var k: nat :| LexBelowAt(a, b, k);
      WitnessGivesLess(a, b, k);
    }
  }

  lemma {:induction false} LessIrreflexive(a: string)
    ensures !Less(a, a)
  {
    if a != [] {
      LessIrreflexive(a[1..]);
    }
  }

  /** Any two different strings are ordered one way, and never both ways. */
  lemma {:induction false} LessTrichotomous(a: string, b: string)
    ensures a == b || Less(a, b) || Less(b, a)
    ensures !(Less(a, b) && Less(b, a))
  {
    if a != [] && b != [] && a[0] == b[0] {
      LessTrichotomous(a[1..], b[1..]);
      if a[1..] == b[1..] {
        assert a == [a[0]] + a[1..] && b == [b[0]] + b[1..];
      }
    }
  }

  lemma {:induction false} LessTransitive(a: string, b: string, c: string)
    requires Less(a, b) && Less(b, c)
    ensures Less(a, c)
  {
    if a != [] && a[0] == b[0] && b[0] == c[0] {
      LessTransitive(a[1..], b[1..], c[1..]);
    }
  }

  // ---------------------------------------------------------------------------
  // shouldRevertOrder
  // ---------------------------------------------------------------------------

  /**
   * `shouldRevertOrder(tokenA, tokenB)`: false when the lower-cased `tokenA`
   * sorts strictly before the lower-cased `tokenB`, true otherwise (equal
   * addresses included).
   */
  function ShouldRevertOrder(tokenA: Address, tokenB: Address): bool
  {
    var tokenAAddress := ToLower(tokenA);
    var tokenBAddress := ToLower(tokenB);
    if Less(tokenAAddress, tokenBAddress) then false else true
  }

  /** The order is kept exactly when the lower-cased first address is lexicographically smaller. */
  lemma ShouldRevertOrderIsLexicographic(tokenA: Address, tokenB: Address)
    ensures !ShouldRevertOrder(tokenA, tokenB) <==> exists k: nat :: LexBelowAt(ToLower(tokenA), ToLower(tokenB), k)
  {
    LessIsLexicographic(ToLower(tokenA), ToLower(tokenB));
    assert !ShouldRevertOrder(tokenA, tokenB) == Less(ToLower(tokenA), ToLower(tokenB));
  }

  /** Addresses that are equal up to case are reversed both ways; no error is raised. */
  lemma ShouldRevertOrderSameAddress(tokenA: Address, tokenB: Address)
    requires ToLower(tokenA) == ToLower(tokenB)
    ensures ShouldRevertOrder(tokenA, tokenB) && ShouldRevertOrder(tokenB, tokenA)
  {
    LessIrreflexive(ToLower(tokenA));
  }

  /** For addresses that differ up to case, swapping the arguments flips the answer. */
  lemma ShouldRevertOrderAntisymmetric(tokenA: Address, tokenB: Address)
    requires ToLower(tokenA) != ToLower(tokenB)
    ensures ShouldRevertOrder(tokenA, tokenB) == !ShouldRevertOrder(tokenB, tokenA)
  {
    LessTrichotomous(ToLower(tokenA), ToLower(tokenB));
  }

  /** The answer depends only on the lower-cased inputs: lower- or upper-casing them first changes nothing. */
  lemma ShouldRevertOrderIgnoresCase(tokenA: Address, tokenB: Address)
    ensures ShouldRevertOrder(ToLower(tokenA), ToLower(tokenB)) == ShouldRevertOrder(tokenA, tokenB)
    ensures ShouldRevertOrder(ToUpper(tokenA), ToUpper(tokenB)) == ShouldRevertOrder(tokenA, tokenB)
  {
    ToLowerIdempotent(tokenA);
    ToLowerIdempotent(tokenB);
    ToLowerOfToUpper(tokenA);
    ToLowerOfToUpper(tokenB);
  }

  // ---------------------------------------------------------------------------
  // Addresses as 160-bit numbers
  // ---------------------------------------------------------------------------

  predicate IsHexDigit(c: char)
  {
    '0' <= c <= '9' || 'a' <= c <= 'f' || 'A' <= c <= 'F'
  }

  predicate IsLowerHexDigit(c: char)
  {
    '0' <= c <= '9' || 'a' <= c <= 'f'
  }

  predicate AllHex(s: string)
  {
    forall i :: 0 <= i < |s| ==> IsHexDigit(s[i])
  }

  predicate AllLowerHex(s: string)
  {
    forall i :: 0 <= i < |s| ==> IsLowerHexDigit(s[i])
  }

  /** An address as ethers prints it: `0x` followed by 40 hexadecimal digits of either case. */
  predicate IsAddress(s: string)
  {
    |s| == 42 && s[0] == '0' && s[1] == 'x' && AllHex(s[2..])
  }

  function DigitValue(c: char): (v: nat)
    requires IsHexDigit(c)
    ensures v < 16
  {
    if '0' <= c <= '9' then c as int - '0' as int
    else if 'a' <= c <= 'f' then c as int - 'a' as int + 10
    else c as int - 'A' as int + 10
  }

  function Pow16(n: nat): (r: nat)
    ensures r > 0
  {
    if n == 0 then 1 else 16 * Pow16(n - 1)
  }

  /** The number a string of hexadecimal digits denotes, most significant digit first. */
  function HexValue(s: string): nat
    requires AllHex(s)
  {
    if s == [] then 0 else DigitValue(s[0]) * Pow16(|s| - 1) + HexValue(s[1..])
  }

  /** The 160-bit number an address stands for, the value the Uniswap V3 contracts compare. */
  function AddressValue(a: Address): nat
    requires IsAddress(a)
  {
    HexValue(a[2..])
  }

  lemma MulMonotone(x: nat, y: nat, p: nat)
    requires x <= y
    ensures x * p <= y * p
  {
  }

  lemma {:induction false} HexValueBound(s: string)
    requires AllHex(s)
    ensures HexValue(s) < Pow16(|s|)
  {
    if s != [] {
      HexValueBound(s[1..]);
      MulMonotone(DigitValue(s[0]), 15, Pow16(|s| - 1));
    }
  }

  lemma {:induction false} HexValueIgnoresCase(s: string)
    requires AllHex(s)
    ensures AllLowerHex(ToLower(s)) && HexValue(ToLower(s)) == HexValue(s)
  {
    if s != [] {
      HexValueIgnoresCase(s[1..]);
      assert ToLower(s)[1..] == ToLower(s[1..]);
    }
  }

  /** On lower-case hexadecimal digits, character order is the order of their values. */
  lemma DigitValueMonotone(c: char, d: char)
    requires IsLowerHexDigit(c) && IsLowerHexDigit(d) && c < d
    ensures DigitValue(c) < DigitValue(d)
  {
  }

  /** A smaller leading digit decides, whatever the remaining digits are. */
  lemma LeadingDigitBound(da: nat, db: nat, ra: nat, rb: nat, p: nat)
    requires da < db && ra < p
    ensures da * p + ra < db * p + rb
  {
    MulMonotone(da + 1, db, p);
    assert (da + 1) * p == da * p + p;
  }

  /** Two hexadecimal numbers of one length whose leading digits differ compare as those digits do. */
  lemma LeadingDigitDecides(a: string, b: string)
    requires |a| == |b| && a != [] && AllLowerHex(a) && AllLowerHex(b) && a[0] < b[0]
    ensures HexValue(a) < HexValue(b)
  {
    DigitValueMonotone(a[0], b[0]);
    HexValueBound(a[1..]);
    LeadingDigitBound(DigitValue(a[0]), DigitValue(b[0]), HexValue(a[1..]), HexValue(b[1..]), Pow16(|a| - 1));
  }

  /** On lower-case hexadecimal strings of one length, string order is numeric order. */
  lemma {:induction false} LessIsNumericOrder(a: string, b: string)
    requires |a| == |b| && AllLowerHex(a) && AllLowerHex(b)
    ensures Less(a, b) <==> HexValue(a) < HexValue(b)
  {
    if a != [] {
      if a[0] < b[0] {
        LeadingDigitDecides(a, b);
      } else if b[0] < a[0] {
        LeadingDigitDecides(b, a);
      } else {
        LessIsNumericOrder(a[1..], b[1..]);
        assert HexValue(a) - HexValue(a[1..]) == HexValue(b) - HexValue(b[1..]);
      }
    }
  }

  lemma ToLowerSuffix(s: string, k: nat)
    requires k <= |s|
    ensures ToLower(s)[k..] == ToLower(s[k..])
  {
  }

  /**
   * For well-formed addresses, `shouldRevertOrder` keeps the order exactly when
   * the first address is the smaller 160-bit number: the rule by which the
   * Uniswap V3 factory and position manager name `token0` and `token1`.
   */
  lemma ShouldRevertOrderIsNumericOrder(tokenA: Address, tokenB: Address)
    requires IsAddress(tokenA) && IsAddress(tokenB)
    ensures !ShouldRevertOrder(tokenA, tokenB) <==> AddressValue(tokenA) < AddressValue(tokenB)
  {
    var la, lb := ToLower(tokenA), ToLower(tokenB);
    ToLowerSuffix(tokenA, 2);
    ToLowerSuffix(tokenB, 2);
    HexValueIgnoresCase(tokenA[2..]);
    HexValueIgnoresCase(tokenB[2..]);
    LessIsNumericOrder(la[2..], lb[2..]);
    assert la[1..][1..] == la[2..] && lb[1..][1..] == lb[2..];
    assert Less(la, lb) == Less(la[2..], lb[2..]);
  }
}
