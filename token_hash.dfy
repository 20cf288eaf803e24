/** `hashToken`: the key under which calls of one device token are counted,
    so that the token itself is not stored. A 32-bit string hash rendered
    in base 36 behind the prefix `token_`. */
module TokenHash {
  import opened RealMath
  import Radix

  const Two31: int := 0x8000_0000
  const Two32: int := 0x1_0000_0000

  /** ECMAScript's ToInt32: the integer congruent to `x` modulo 2^32 in
      [-2^31, 2^31). */
  function ToInt32(x: int): (r: int)
    ensures -Two31 <= r < Two31
    ensures (x - r) % Two32 == 0
  {
    var m := x % Two32;
    if m >= Two31 then m - Two32 else m
  }

  /** ToInt32 depends only on the residue modulo 2^32. */
  lemma ToInt32Congruent(a: int, b: int)
    requires (a - b) % Two32 == 0
    ensures ToInt32(a) == ToInt32(b)
  {
    var k := (a - b) / Two32;
    assert a == b + k * Two32;
    var qa, qb := a / Two32, b / Two32;
    assert a == qa * Two32 + a % Two32;
    assert b == qb * Two32 + b % Two32;
    assert a % Two32 - b % Two32 == (k + qb - qa) * Two32;
  }

  /** A value already in 32-bit range is its own ToInt32: `hash & hash`
      changes nothing. */
  lemma ToInt32InRange(x: int)
    requires -Two31 <= x < Two31
    ensures ToInt32(x) == x
  {
    if x < 0 {
      DivisionUnique(x, Two32, -1, x + Two32);
    } else {
      DivisionUnique(x, Two32, 0, x);
    }
  }

  /** One step of the loop: `hash = ((hash << 5) - hash) + char` (the shift
      works on 32 bits), then `hash = hash & hash`, which wraps to 32 bits. */
  function HashStep(hash: int, code: int): int {
    ToInt32(ToInt32(ToInt32(hash) * 32) - hash + code)
  }

  /** The step is the classic `31 * hash + char`, wrapped to 32 bits. */
  lemma HashStepIsTimes31(hash: int, code: int)
    ensures HashStep(hash, code) == ToInt32(31 * hash + code)
  {
    var h0 := ToInt32(hash);
    var shifted := ToInt32(h0 * 32);
    var k1 := (h0 * 32 - shifted) / Two32;
    var k2 := (hash - h0) / Two32;
    assert h0 * 32 - shifted == k1 * Two32;
    assert hash - h0 == k2 * Two32;
    assert shifted - 32 * hash == (-k1 - 32 * k2) * Two32;
    DivisionUnique(shifted - 32 * hash, Two32, -k1 - 32 * k2, 0);
    ToInt32Congruent(shifted - hash + code, 31 * hash + code);
  }

  /** The hash of a string: the step applied to each UTF-16 code unit in
      turn, from 0. */
  function HashFold(s: string): (h: int)
    ensures -Two31 <= h < Two31
    decreases |s|
  {
    if s == [] then 0 else HashStep(HashFold(s[..|s| - 1]), s[|s| - 1] as int)
  }

  /** The rendered key: `token_` and the absolute hash in base 36. */
  function TokenKey(token: string): string {
    "token_" + Radix.ToRadix(Abs(HashFold(token)), 36)
  }

  /** `hashToken`: folds the characters one by one, then renders the key. */
  method HashToken(token: string) returns (key: string)
    ensures key == TokenKey(token)
  {
    var hash := 0;
    var i := 0;
    while i < |token|
      invariant 0 <= i <= |token|
      invariant hash == HashFold(token[..i])
    {
      var code := token[i] as int;
      assert token[..i + 1][..i] == token[..i];
      assert HashFold(token[..i + 1]) == HashStep(hash, code);
      hash := ToInt32(ToInt32(hash) * 32) - hash + code;
      hash := ToInt32(hash);
      i := i + 1;
    }
    assert token[..|token|] == token;
    key := "token_" + Radix.ToRadix(Abs(hash), 36);
  }

  /** Every key starts with `token_`, followed by at least one base-36
      symbol with no leading zero; and the symbols read back as the absolute
      hash. */
  lemma TokenKeyShape(token: string)
    ensures var key := TokenKey(token);
      && |key| > 6 && key[..6] == "token_"
      && (forall i :: 6 <= i < |key| ==> Radix.IsRadixSymbol(key[i]))
      && (|key| > 7 ==> key[6] != '0')
      && Radix.FromRadix(key[6..], 36) == Abs(HashFold(token))
  {
    var digits := Radix.ToRadix(Abs(HashFold(token)), 36);
    var key := TokenKey(token);
    assert key[6..] == digits;
    forall i | 6 <= i < |key|
      ensures Radix.IsRadixSymbol(key[i])
    {
      assert key[i] == digits[i - 6];
    }
    Radix.RadixRoundTrip(Abs(HashFold(token)), 36);
  }

  /** Examples: the empty token hashes to `token_0`, `a` (code 97) to
      `token_2p` and `ab` (31 * 97 + 98 = 3105) to `token_2e9`. */
  lemma TokenKeyExamples()
    ensures TokenKey("") == "token_0"
    ensures TokenKey("a") == "token_2p"
    ensures TokenKey("ab") == "token_2e9"
  {
    HashStepIsTimes31(0, 97);
    ToInt32InRange(97);
    assert HashFold("a") == 97 by {
      assert "a"[..0] == "";
    }
    HashStepIsTimes31(97, 98);
    ToInt32InRange(3105);
    assert HashFold("ab") == 3105 by {
      assert "ab"[..1] == "a";
    }
  }
}
