/** Machine-level pieces the two-factor handlers rely on: bytes, the `i32` to
    `u64` cast applied to the token, ASCII upper-casing of the key, and the
    token's wire form. */
module Primitives {

  const TWO_31: int := 0x8000_0000
  const TWO_64: int := 0x1_0000_0000_0000_0000

  /** Number of random bytes behind a TOTP secret and behind a recovery code. */
  const KEY_BYTES: nat := 20

  type byte = x: int | 0 <= x < 256
  type i32 = x: int | -TWO_31 <= x < TWO_31
  type u64 = x: int | 0 <= x < TWO_64

  /** The output of `crypto::get_random(vec![0u8; 20])`: always twenty bytes. */
  type Random20 = s: seq<byte> | |s| == KEY_BYTES witness seq(20, i => 0)

  /** A request field that may arrive as a JSON number or as a string. */
  datatype NumberOrString = Number(n: int) | Text(s: string)

  /** Rust's `n as u64` on an `i32`: sign-extend, then reinterpret the bits,
      so a negative value wraps modulo 2^64. */
  function AsU64(n: i32): (r: u64)
    ensures r == n % TWO_64
    ensures n < 0 <==> r >= TWO_64 - TWO_31
  {
    if n < 0 then n + TWO_64 else n
  }

  /** Distinct tokens stay distinct after the cast. */
  lemma AsU64Injective(a: i32, b: i32)
    ensures AsU64(a) == AsU64(b) <==> a == b
  {
  }

  predicate IsLowerAscii(c: char) {
    'a' <= c <= 'z'
  }

  function UpperChar(c: char): char {
    if IsLowerAscii(c) then (c as int - 32) as char else c
  }

  /** `str::to_uppercase` restricted to ASCII letters. */
  function Uppercase(s: string): (r: string)
    ensures |r| == |s|
    ensures forall i :: 0 <= i < |s| ==> r[i] == UpperChar(s[i])
  {
    if s == [] then [] else [UpperChar(s[0])] + Uppercase(s[1..])
  }

  predicate HasLowerAscii(s: string) {
    exists i :: 0 <= i < |s| && IsLowerAscii(s[i])
  }

  /** Upper-casing leaves no lower-case letter behind and is idempotent. */
  lemma UppercaseIdempotent(s: string)
    ensures !HasLowerAscii(Uppercase(s))
    ensures Uppercase(Uppercase(s)) == Uppercase(s)
  {
  }

  /** A string is its own upper-case form exactly when it holds no lower-case
      ASCII letter. */
  lemma UppercaseFixedIff(s: string)
    ensures Uppercase(s) == s <==> !HasLowerAscii(s)
  {
  }
}
