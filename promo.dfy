/**
 * Promo-code lookup as the order summary and the cart drawer both do it:
 * upper-case the typed code, index the code table, and accept only a truthy
 * (non-zero) entry.
 */
module Promo {
  import Constants
  import opened Wrappers

  /** `toUpperCase` on one character, for the ASCII letters. */
  function UpperChar(c: char): char {
    if 'a' <= c <= 'z' then (c as int - 32) as char else c
  }

  function ToUpper(s: string): (r: string)
    ensures |r| == |s|
  {
    seq(|s|, i requires 0 <= i < |s| => UpperChar(s[i]))
  }

  /** `codes[code.toUpperCase()]` when truthy, else nothing. */
  function Lookup(table: map<string, real>, typed: string): Option<real> {
    var code := ToUpper(typed);
    if code in table && table[code] != 0.0 then Some(table[code]) else None
  }

  /** Upper-casing twice is upper-casing once. */
  lemma ToUpperIdempotent(s: string)
    ensures ToUpper(ToUpper(s)) == ToUpper(s)
  {
  }

  /** Lookup ignores letter case: two codes that upper-case alike find the same entry. */
  lemma LookupIgnoresCase(table: map<string, real>, s: string, t: string)
    requires ToUpper(s) == ToUpper(t)
    ensures Lookup(table, s) == Lookup(table, t)
    ensures Lookup(table, ToUpper(s)) == Lookup(table, s)
  {
    ToUpperIdempotent(s);
  }

  /**
   * With the shipped table, a code is accepted exactly when it upper-cases to one
   * of the three codes, and then yields that code's percentage.
   */
  lemma LookupShippedTable(s: string)
    ensures Lookup(Constants.PROMO_CODES, s) ==
      if ToUpper(s) == "WELCOME10" then Some(10.0)
      else if ToUpper(s) == "FOODY25" then Some(25.0)
      else if ToUpper(s) == "SIS50" then Some(50.0)
      else None
    ensures Lookup(Constants.PROMO_CODES, s).Some? ==> 0.0 < Lookup(Constants.PROMO_CODES, s).value <= 100.0
  {
    Constants.PromoCodesTable();
  }

  /** Lower case is accepted; surrounding blanks are not trimmed, so " FOODY25" misses. */
  lemma LookupExamples()
    ensures Lookup(Constants.PROMO_CODES, "foody25") == Some(25.0)
    ensures Lookup(Constants.PROMO_CODES, "WeLcOmE10") == Some(10.0)
    ensures Lookup(Constants.PROMO_CODES, " FOODY25") == None
    ensures Lookup(Constants.PROMO_CODES, "SIS5") == None
  {
    assert ToUpper("foody25") == "FOODY25";
    assert ToUpper("WeLcOmE10") == "WELCOME10";
    assert ToUpper(" FOODY25") == " FOODY25";
    assert ToUpper("SIS5") == "SIS5";
  }
}
