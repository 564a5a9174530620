/** The Luhn checksum (ISO/IEC 7812-1, annex B), as both services compute it. */
module Luhn {
  import opened Common

  type Digit = x: int | 0 <= x < 10

  /** The value of a doubled digit. */
  function Doubled(d: Digit): (r: Digit) {
    if 2 * d > 9 then 2 * d - 9 else 2 * d
  }

  function Weight(d: Digit, double: bool): Digit { if double then Doubled(d) else d }

  /** The checksum by position: every second digit from the right, the last excluded, is doubled. */
  function Sum(digits: seq<Digit>): nat {
    if digits == [] then 0
    else Weight(digits[0], |digits| % 2 == 0) + Sum(digits[1..])
  }

  predicate Valid(digits: seq<Digit>) { digits != [] && Sum(digits) % 10 == 0 }

  /** The right-to-left loop with a toggling flag. */
  method LuhnValid(digits: seq<Digit>) returns (ok: bool)
    ensures ok == Valid(digits)
  {
    if digits == [] {
      return false;
    }
    var sum, double := 0, false;
    var i := |digits| - 1;
    while i >= 0
      invariant -1 <= i < |digits|
      invariant sum == Sum(digits[i + 1..])
      invariant double == ((|digits| - 1 - i) % 2 == 1)
      decreases i
    {
      var d: int := digits[i];
      if double {
        d := d * 2;
        if d > 9 {
          d := d - 9;
        }
      }
      assert digits[i..][1..] == digits[i + 1..];
      sum := sum + d;
      double := !double;
      i := i - 1;
    }
    assert digits[0..] == digits;
    return sum % 10 == 0;
  }

  lemma {:induction false} SumUpdate(digits: seq<Digit>, i: nat, d: Digit)
    requires i < |digits|
    ensures Sum(digits[i := d])
         == Sum(digits) - Weight(digits[i], (|digits| - i) % 2 == 0) + Weight(d, (|digits| - i) % 2 == 0)
  {
    if i == 0 {
      assert digits[0 := d][1..] == digits[1..];
    } else {
      assert digits[i := d][1..] == digits[1..][i - 1 := d];
      SumUpdate(digits[1..], i - 1, d);
    }
  }

  /** Any single wrong digit is caught. */
  lemma CatchesSingleError(digits: seq<Digit>, i: nat, d: Digit)
    requires i < |digits| && Valid(digits) && d != digits[i]
    ensures !Valid(digits[i := d])
  {
    SumUpdate(digits, i, d);
    var double := (|digits| - i) % 2 == 0;
    assert Weight(digits[i], double) != Weight(d, double);
    SameRemainder(Sum(digits), Weight(d, double) - Weight(digits[i], double));
  }

  lemma SameRemainder(s: nat, k: int)
    requires s % 10 == 0 && -10 < k < 10 && k != 0 && s + k >= 0
    ensures (s + k) % 10 != 0
  {}

  function Swapped(digits: seq<Digit>, i: nat): seq<Digit>
    requires i + 1 < |digits|
  {
    digits[i := digits[i + 1]][i + 1 := digits[i]]
  }

  /** Swapping two different neighbours is caught unless they are 0 and 9. */
  lemma CatchesSwapIff(digits: seq<Digit>, i: nat)
    requires i + 1 < |digits| && Valid(digits) && digits[i] != digits[i + 1]
    ensures !Valid(Swapped(digits, i)) <==> {digits[i], digits[i + 1]} != {0, 9}
  {
    var (a, b) := (digits[i], digits[i + 1]);
    SumUpdate(digits, i, b);
    SumUpdate(digits[i := b], i + 1, a);
    var k := if (|digits| - i) % 2 == 0 then Doubled(b) - b - Doubled(a) + a else Doubled(a) - a - Doubled(b) + b;
    assert Sum(Swapped(digits, i)) == Sum(digits) + k;
    assert -10 < k < 10;
    assert k == 0 <==> (a == 0 && b == 9) || (a == 9 && b == 0);
    if k != 0 { SameRemainder(Sum(digits), k); }
    NineAndZero(a, b);
    hide Sum, Doubled;
  }

  lemma NineAndZero(a: int, b: int)
    ensures {a, b} == {0, 9} <==> (a == 0 && b == 9) || (a == 9 && b == 0)
  {
    if {a, b} == {0, 9} { assert 0 in {a, b} && 9 in {a, b} && a in {0, 9} && b in {0, 9}; }
  }

  /** Every number has exactly one valid check digit. */
  lemma CheckDigitExists(digits: seq<Digit>) returns (d: Digit)
    ensures Valid(digits + [d])
    ensures forall e: Digit :: Valid(digits + [e]) ==> e == d
  {
    var s := Sum(digits + [0]);
    d := (10 - s % 10) % 10;
    assert (digits + [0])[|digits| := d] == digits + [d];
    SumUpdate(digits + [0], |digits|, d);
    forall e: Digit | Valid(digits + [e]) ensures e == d {
      if e != d {
        assert (digits + [d])[|digits| := e] == digits + [e];
        CatchesSingleError(digits + [d], |digits|, e);
      }
    }
  }
}
