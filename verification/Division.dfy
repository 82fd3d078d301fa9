/** Sixty-four by thirty-two bit division, as the kernel does it to turn the time
    stamp counter into ticks (utils.c): two 32-bit divisions, the second one a
    `divl` whose 64-bit dividend carries the remainder of the first. */
module Division {

  const WORD: nat := 0x1_0000_0000

  type Word = w: int | 0 <= w < WORD

  /** `divl` raises the divide error exactly when its quotient needs more than 32 bits. */
  predicate DivlFits(hi: Word, lo: Word, divisor: Word)
    requires divisor != 0
  {
    (hi * WORD + lo) / divisor < WORD
  }

  /** The quotient fits exactly when the upper half of the dividend is below the divisor. */
  lemma DivlFitsIff(hi: Word, lo: Word, divisor: Word)
    requires divisor != 0
    ensures DivlFits(hi, lo, divisor) <==> hi < divisor
  {
    var n := hi * WORD + lo;
    if hi < divisor {
      if n / divisor >= WORD {
        ProductMonotone(WORD, n / divisor, divisor);
        assert false;
      }
    } else {
      if n / divisor < WORD {
        ProductMonotone(n / divisor + 1, WORD, divisor);
        ProductMonotone(divisor, hi, WORD);
        assert false;
      }
    }
  }

  lemma ProductMonotone(a: int, b: int, c: int)
    requires a <= b && 0 <= c
    ensures a * c <= b * c
  {
  }

  /** Quotient and remainder are determined by the division identity. */
  lemma DivModUnique(n: int, base: int, q: int, r: int)
    requires 0 < base && 0 <= r < base
    requires n == q * base + r
    ensures n / base == q && n % base == r
  {
    var q', r' := n / base, n % base;
    assert (q - q') * base == r' - r;
    if q - q' > 0 {
      ProductMonotone(1, q - q', base);
    } else if q - q' < 0 {
      ProductMonotone(q - q', -1, base);
    }
  }

  /** The recombination step: dividing the upper half first and carrying its
      remainder into the lower half divides the whole. */
  lemma TwoStepDivision(hi: nat, lo: nat, base: nat)
    requires 0 < base
    ensures var carry := (hi % base) * WORD + lo;
      && (hi * WORD + lo) / base == hi / base * WORD + carry / base
      && (hi * WORD + lo) % base == carry % base
  {
    var carry := (hi % base) * WORD + lo;
    var qh, ql := hi / base, carry / base;
    calc {
      hi * WORD + lo;
      (qh * base + hi % base) * WORD + lo;
      qh * base * WORD + carry;
      qh * base * WORD + (ql * base + carry % base);
      (qh * WORD + ql) * base + carry % base;
    }
    DivModUnique(hi * WORD + lo, base, qh * WORD + ql, carry % base);
  }

  method Divl(hi: Word, lo: Word, divisor: Word) returns (quotient: Word, remainder: Word)
    requires divisor != 0
    requires DivlFits(hi, lo, divisor)
    ensures quotient == (hi * WORD + lo) / divisor
    ensures remainder == (hi * WORD + lo) % divisor
  {
    var n: nat := hi * WORD + lo;
    ghost var fits := DivlFits(hi, lo, divisor);
    quotient, remainder := n / divisor, n % divisor;
  }

  /** A 64-bit variable, held as the register pair edx:eax. */
  class Dividend {
    var low: Word
    var high: Word

    constructor (low: Word, high: Word)
      ensures this.low == low && this.high == high
    {
      this.low, this.high := low, high;
    }

    function Value(): nat
      reads this
    {
      high * WORD + low
    }

    /** Leaves the quotient in place and returns the remainder, for every 64-bit
        dividend and every non-zero 32-bit base; `divl` never faults. */
    method DoDiv(base: Word) returns (mod: Word)
      requires base != 0
      modifies this
      ensures Value() == old(Value()) / base
      ensures mod == old(Value()) % base
    {
      TwoStepDivision(high, low, base);
      var upper := high;
      if high != 0 {
        upper := high % base;
        high := high / base;
      }
      DivlFitsIff(upper, low, base);
      low, mod := Divl(upper, low, base);
    }
  }
}
