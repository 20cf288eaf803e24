/** `Number.prototype.toString(radix)` for non-negative integers: lower-case
    digits `0-9a-z`, no leading zeros. */
module Radix {

  predicate IsRadixSymbol(c: char) {
    ('0' <= c <= '9') || ('a' <= c <= 'z')
  }

  function Symbol(d: nat): (c: char)
    requires d < 36
    ensures IsRadixSymbol(c)
  {
    if d < 10 then ('0' as int + d) as char else ('a' as int + (d - 10)) as char
  }

  function SymbolValue(c: char): (d: nat)
    requires IsRadixSymbol(c)
    ensures d < 36
  {
    if c <= '9' then c as int - '0' as int else c as int - 'a' as int + 10
  }

  /** One step of positional notation: the quotient is a smaller positive
      number and the remainder a digit. */
  lemma DivStep(n: nat, base: nat)
    requires 2 <= base <= n
    ensures 1 <= n / base < n && n % base < base
    ensures n == (n / base) * base + n % base
  {
  }

  /** `n.toString(base)`. */
  function ToRadix(n: nat, base: nat): (s: string)
    requires 2 <= base <= 36
    ensures |s| >= 1
    ensures forall i :: 0 <= i < |s| ==> IsRadixSymbol(s[i]) && SymbolValue(s[i]) < base
    ensures |s| > 1 ==> s[0] != '0'
    decreases n
  {
    if n < base then [Symbol(n)]
    else
      DivStep(n, base);
      ToRadix(n / base, base) + [Symbol(n % base)]
  }

  /** Reads a string of radix symbols back as a number (most significant
      symbol first). */
  function FromRadix(s: string, base: nat): nat
    requires forall i :: 0 <= i < |s| ==> IsRadixSymbol(s[i])
  {
    if s == [] then 0 else FromRadix(s[..|s| - 1], base) * base + SymbolValue(s[|s| - 1])
  }

  /** The rendering loses nothing: reading it back gives the number. */
  lemma {:induction false} RadixRoundTrip(n: nat, base: nat)
    requires 2 <= base <= 36
    ensures FromRadix(ToRadix(n, base), base) == n
    decreases n
  {
    var s := ToRadix(n, base);
    if n < base {
      assert s[..0] == [];
    } else {
      DivStep(n, base);
      RadixRoundTrip(n / base, base);
      assert s[..|s| - 1] == ToRadix(n / base, base);
      assert SymbolValue(s[|s| - 1]) == n % base;
    }
  }
}
