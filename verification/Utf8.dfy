/** UTF-8 well-formedness (section 4 of RFC 3629) as a finite automaton.

    Text is a sequence of code units carried by `char`; a unit above 0xFF is no byte
    and is rejected like any other ill-formed unit. */
module Utf8 {

  /** What the automaton still needs before the current character is complete. */
  datatype Need = Done | One | Two | Three | AfterE0 | AfterED | AfterF0 | AfterF4 | Broken

  function Next(n: Need, c: char): Need {
    var u := c as int;
    match n
    case Done =>
      if u < 0x80 then Done
      else if 0xC2 <= u <= 0xDF then One
      else if u == 0xE0 then AfterE0
      else if u == 0xED then AfterED
      else if 0xE1 <= u <= 0xEF then Two
      else if u == 0xF0 then AfterF0
      else if 0xF1 <= u <= 0xF3 then Three
      else if u == 0xF4 then AfterF4
      else Broken
    case One => if 0x80 <= u <= 0xBF then Done else Broken
    case Two => if 0x80 <= u <= 0xBF then One else Broken
    case Three => if 0x80 <= u <= 0xBF then Two else Broken
    case AfterE0 => if 0xA0 <= u <= 0xBF then One else Broken
    case AfterED => if 0x80 <= u <= 0x9F then One else Broken
    case AfterF0 => if 0x90 <= u <= 0xBF then Two else Broken
    case AfterF4 => if 0x80 <= u <= 0x8F then Two else Broken
    case Broken => Broken
  }

  function Run(n: Need, s: string): Need
    decreases |s|
  {
    if s == "" then n else Run(Next(n, s[0]), s[1..])
  }

  predicate WellFormed(s: string) { Run(Done, s) == Done }

  predicate IsAscii(s: string) { forall i :: 0 <= i < |s| ==> s[i] as int < 0x80 }

  lemma {:induction false} RunConcat(n: Need, a: string, b: string)
    ensures Run(n, a + b) == Run(Run(n, a), b)
    decreases |a|
  {
    if a == "" {
      assert a + b == b;
    } else {
      assert (a + b)[1..] == a[1..] + b;
      RunConcat(Next(n, a[0]), a[1..], b);
    }
  }

  lemma {:induction false} RunBroken(s: string)
    ensures Run(Broken, s) == Broken
  {
    if s != "" { RunBroken(s[1..]); }
  }

  /** An ASCII character is complete in itself and can never finish another one. */
  lemma {:induction false} RunAscii(n: Need, s: string)
    requires IsAscii(s)
    ensures Run(n, s) == (if n == Done || s == "" then n else Broken)
    decreases |s|
  {
    if s != "" {
      RunAscii(Next(n, s[0]), s[1..]);
    }
  }
}
