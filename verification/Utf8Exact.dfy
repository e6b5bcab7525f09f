/** The automaton of `Utf8` accepts exactly the encodings of sequences of code points
    (section 3 of RFC 3629), surrogates excluded. */
module Utf8Exact {
  import opened Utf8
  import opened Json

  predicate IsScalar(cp: nat) { cp < 0xD800 || 0xE000 <= cp < 0x11_0000 }

  predicate AllScalar(cps: seq<nat>) { forall i :: 0 <= i < |cps| ==> IsScalar(cps[i]) }

  function EncodeAll(cps: seq<nat>): string
    requires AllScalar(cps)
  {
    if cps == [] then "" else Encode(cps[0]) + EncodeAll(cps[1..])
  }

  // ---- encodings are accepted ----

  lemma RunTwo(n: Need, a: char, b: char)
    ensures Run(n, [a, b]) == Next(Next(n, a), b)
  {
    assert [a, b][1..] == [b] && [b][1..] == "";
    assert Run(Next(n, a), [b]) == Next(Next(n, a), b);
  }

  lemma RunThree(n: Need, a: char, b: char, c: char)
    ensures Run(n, [a, b, c]) == Next(Next(Next(n, a), b), c)
  {
    assert [a, b, c][1..] == [b, c];
    RunTwo(Next(n, a), b, c);
  }

  lemma RunFour(n: Need, a: char, b: char, c: char, d: char)
    ensures Run(n, [a, b, c, d]) == Next(Next(Next(Next(n, a), b), c), d)
  {
    assert [a, b, c, d][1..] == [b, c, d];
    RunThree(Next(n, a), b, c, d);
  }

  /** Digits of base 64. */
  lemma DigitsThree(cp: nat)
    ensures cp == cp / 0x1000 * 0x1000 + cp / 0x40 % 0x40 * 0x40 + cp % 0x40
  {
    var q := cp / 0x40;
    assert cp == q * 0x40 + cp % 0x40 && q == q / 0x40 * 0x40 + q % 0x40 && q / 0x40 == cp / 0x1000;
  }

  lemma DigitsFour(cp: nat)
    ensures cp == cp / 0x4_0000 * 0x4_0000 + cp / 0x1000 % 0x40 * 0x1000 + cp / 0x40 % 0x40 * 0x40 + cp % 0x40
  {
    DigitsThree(cp);
    var q := cp / 0x1000;
    assert q == q / 0x40 * 0x40 + q % 0x40 && q / 0x40 == cp / 0x4_0000;
  }

  lemma AcceptThree(x: nat, y: nat, z: nat)
    requires x < 0x10 && y < 0x40 && z < 0x40 && (x == 0 ==> y >= 0x20) && (x == 0xD ==> y < 0x20)
    ensures Run(Done, [(0xE0 + x) as char, (0x80 + y) as char, (0x80 + z) as char]) == Done
  {
    RunThree(Done, (0xE0 + x) as char, (0x80 + y) as char, (0x80 + z) as char);
  }

  lemma AcceptFour(w: nat, x: nat, y: nat, z: nat)
    requires w <= 4 && x < 0x40 && y < 0x40 && z < 0x40 && (w == 0 ==> x >= 0x10) && (w == 4 ==> x < 0x10)
    ensures Run(Done, [(0xF0 + w) as char, (0x80 + x) as char, (0x80 + y) as char, (0x80 + z) as char]) == Done
  {
    RunFour(Done, (0xF0 + w) as char, (0x80 + x) as char, (0x80 + y) as char, (0x80 + z) as char);
  }

  lemma EncodeAccepted(cp: nat)
    requires IsScalar(cp)
    ensures Run(Done, Encode(cp)) == Done
  {
    var s := Encode(cp);
    if cp < 0x80 {
      assert s[1..] == "";
    } else if cp < 0x800 {
      RunTwo(Done, s[0], s[1]);
    } else if cp < 0x1_0000 {
      DigitsThree(cp);
      AcceptThree(cp / 0x1000, cp / 0x40 % 0x40, cp % 0x40);
    } else {
      DigitsFour(cp);
      AcceptFour(cp / 0x4_0000, cp / 0x1000 % 0x40, cp / 0x40 % 0x40, cp % 0x40);
    }
  }

  lemma {:induction false} EncodingsAccepted(cps: seq<nat>)
    requires AllScalar(cps)
    ensures WellFormed(EncodeAll(cps))
  {
    if cps != [] {
      EncodeAccepted(cps[0]);
      EncodingsAccepted(cps[1..]);
      RunConcat(Done, Encode(cps[0]), EncodeAll(cps[1..]));
    }
  }

  // ---- what is accepted is an encoding ----

  /** An unfinished character goes on. */
  lemma GoesOn(n: Need, s: string)
    requires n != Done && Run(n, s) == Done
    ensures s != "" && Next(n, s[0]) != Broken && Run(Next(n, s[0]), s[1..]) == Done
  {
    if s != "" { RunBroken(s[1..]); }
  }

  lemma SplitTwo(x: nat, y: nat)
    requires y < 0x40
    ensures (x * 0x40 + y) / 0x40 == x && (x * 0x40 + y) % 0x40 == y
  {
  }

  /** The code point at the front of an accepted text and its length there. */
  lemma FirstPoint(s: string) returns (cp: nat, n: nat)
    requires s != "" && WellFormed(s)
    ensures IsScalar(cp) && 1 <= n <= |s| && Encode(cp) == s[..n] && WellFormed(s[n..])
  {
    var a := s[0] as int;
    if a < 0x80 {
      cp, n := a, 1;
    } else {
      if Next(Done, s[0]) == Broken { RunBroken(s[1..]); }
      GoesOn(Next(Done, s[0]), s[1..]);
      if Next(Done, s[0]) == One {
        n := 2;
        cp := FirstTwo(s);
      } else if Next(Done, s[0]) in {Two, AfterE0, AfterED} {
        n := 3;
        cp := FirstThree(s);
      } else {
        n := 4;
        cp := FirstFour(s);
      }
    }
  }

  lemma FirstTwo(s: string) returns (cp: nat)
    requires |s| >= 2 && Next(Done, s[0]) == One && Run(One, s[1..]) == Done
    ensures IsScalar(cp) && Encode(cp) == s[..2] && WellFormed(s[2..])
  {
    GoesOn(One, s[1..]);
    assert s[1..][1..] == s[2..];
    var x, y := s[0] as int - 0xC0, s[1] as int - 0x80;
    SplitTwo(x, y);
    cp := x * 0x40 + y;
  }

  lemma FirstThree(s: string) returns (cp: nat)
    requires |s| >= 2 && Next(Done, s[0]) in {Two, AfterE0, AfterED} && Run(Next(Done, s[0]), s[1..]) == Done
    ensures IsScalar(cp) && |s| >= 3 && Encode(cp) == s[..3] && WellFormed(s[3..])
  {
    GoesOn(Next(Done, s[0]), s[1..]);
    assert s[1..][1..] == s[2..];
    GoesOn(One, s[2..]);
    assert s[2..][1..] == s[3..];
    var x, y, z := s[0] as int - 0xE0, s[1] as int - 0x80, s[2] as int - 0x80;
    cp := ThreeUnits(x, y, z);
  }

  lemma ThreeUnits(x: nat, y: nat, z: nat) returns (cp: nat)
    requires x < 0x10 && y < 0x40 && z < 0x40 && (x == 0 ==> y >= 0x20) && (x == 0xD ==> y < 0x20)
    ensures IsScalar(cp) && Encode(cp) == [(0xE0 + x) as char, (0x80 + y) as char, (0x80 + z) as char]
  {
    cp := x * 0x1000 + y * 0x40 + z;
    SplitTwo(x * 0x40 + y, z);
    SplitTwo(x, y);
    assert cp / 0x1000 == x;
  }

  lemma FirstFour(s: string) returns (cp: nat)
    requires |s| >= 2 && Next(Done, s[0]) in {Three, AfterF0, AfterF4} && Run(Next(Done, s[0]), s[1..]) == Done
    ensures IsScalar(cp) && |s| >= 4 && Encode(cp) == s[..4] && WellFormed(s[4..])
  {
    GoesOn(Next(Done, s[0]), s[1..]);
    assert s[1..][1..] == s[2..];
    GoesOn(Two, s[2..]);
    assert s[2..][1..] == s[3..];
    GoesOn(One, s[3..]);
    assert s[3..][1..] == s[4..];
    var w, x, y, z := s[0] as int - 0xF0, s[1] as int - 0x80, s[2] as int - 0x80, s[3] as int - 0x80;
    cp := FourUnits(w, x, y, z);
  }

  lemma FourUnits(w: nat, x: nat, y: nat, z: nat) returns (cp: nat)
    requires w <= 4 && x < 0x40 && y < 0x40 && z < 0x40 && (w == 0 ==> x >= 0x10) && (w == 4 ==> x < 0x10)
    ensures IsScalar(cp)
    ensures Encode(cp) == [(0xF0 + w) as char, (0x80 + x) as char, (0x80 + y) as char, (0x80 + z) as char]
  {
    cp := w * 0x4_0000 + x * 0x1000 + y * 0x40 + z;
    SplitTwo(w * 0x1000 + x * 0x40 + y, z);
    SplitTwo(w * 0x40 + x, y);
    SplitTwo(w, x);
    assert cp / 0x1000 == w * 0x40 + x && cp / 0x4_0000 == w;
  }

  lemma {:induction false} AcceptedIsEncoding(s: string) returns (cps: seq<nat>)
    requires WellFormed(s)
    ensures AllScalar(cps) && EncodeAll(cps) == s
    decreases |s|
  {
    if s == "" {
      cps := [];
    } else {
      var cp, n := FirstPoint(s);
      var rest := AcceptedIsEncoding(s[n..]);
      cps := [cp] + rest;
      assert cps[1..] == rest;
      assert s == s[..n] + s[n..];
    }
  }

  ghost predicate IsEncoding(s: string) { exists cps :: AllScalar(cps) && EncodeAll(cps) == s }

  /** A text is accepted if and only if it encodes some sequence of code points. */
  lemma AcceptedExactly(s: string)
    ensures WellFormed(s) <==> IsEncoding(s)
  {
    if WellFormed(s) {
      var cps := AcceptedIsEncoding(s);
    }
    if cps :| AllScalar(cps) && EncodeAll(cps) == s {
      EncodingsAccepted(cps);
    }
  }

  /** The code point that one encoded character stands for, digit by digit of base 64. */
  function Decode(s: string): int {
    if |s| == 1 then s[0] as int
    else if |s| == 2 then (s[0] as int - 0xC0) * 0x40 + (s[1] as int - 0x80)
    else if |s| == 3 then (s[0] as int - 0xE0) * 0x1000 + (s[1] as int - 0x80) * 0x40 + (s[2] as int - 0x80)
    else if |s| == 4 then
      (s[0] as int - 0xF0) * 0x4_0000 + (s[1] as int - 0x80) * 0x1000 + (s[2] as int - 0x80) * 0x40 + (s[3] as int - 0x80)
    else -1
  }

  lemma DecodeEncode(cp: nat)
    requires IsScalar(cp)
    ensures Decode(Encode(cp)) == cp
    ensures |Encode(cp)| == if cp < 0x80 then 1 else if cp < 0x800 then 2 else if cp < 0x1_0000 then 3 else 4
  {
    if cp >= 0x1_0000 { DigitsFour(cp); } else if cp >= 0x800 { DigitsThree(cp); }
  }
}
