/**
 * The time codec: conversion between a binary byte and packed binary-coded
 * decimal, where the tens digit occupies the high nibble and the units digit
 * the low nibble. Both conversions are byte arithmetic: `byte2bcd` computes in
 * `int` and its result is truncated to a byte on return, which `bv8`
 * arithmetic models exactly.
 */
module Bcd {

  /** The high nibble of `b`. */
  function High(b: bv8): bv8 { b >> 4 }

  /** The low nibble of `b`. */
  function Low(b: bv8): bv8 { b & 0x0F }

  /** Both nibbles of `b` are decimal digits. */
  predicate IsBcd(b: bv8)
  {
    High(b) <= 9 && Low(b) <= 9
  }

  /** `byte2bcd`: the two decimal digits of `n` packed into one byte. */
  function ByteToBcd(n: bv8): (r: bv8)
    ensures n <= 99 ==> IsBcd(r) && High(r) == n / 10 && Low(r) == n % 10
    ensures 100 <= n <= 159 ==> !IsBcd(r)
    ensures 160 <= n ==> r == ByteToBcd(n - 160)
  {
    (n / 10) * 16 + n % 10
  }

  /** `bcd2byte`: the value of a packed decimal byte. The low nibble is not checked to be below 10. */
  function BcdToByte(b: bv8): (r: bv8)
    ensures r as int == High(b) as int * 10 + Low(b) as int
    ensures IsBcd(b) ==> r <= 99 && ByteToBcd(r) == b
  {
    (b / 16) * 10 + b % 16
  }

  /** Decoding undoes encoding on the two-digit range 0..99. */
  lemma BcdRoundTrip(n: bv8)
    requires n <= 99
    ensures BcdToByte(ByteToBcd(n)) == n
  {
  }

  /** Encoding is one-to-one on 0..99: distinct values give distinct register bytes. */
  lemma ByteToBcdInjective(m: bv8, n: bv8)
    requires m <= 99 && n <= 99 && ByteToBcd(m) == ByteToBcd(n)
    ensures m == n
  {
    BcdRoundTrip(m);
    BcdRoundTrip(n);
  }
}
