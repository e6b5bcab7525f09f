/** The grammar of JSON as a relation between texts and values (sections 2 to 7 of RFC 8259),
    and that the reader takes nothing else: what it reads is a text of the value it returns. */
module JsonGrammar {
  import opened Wrappers
  import opened Decimal
  import opened Json
  import opened JsonText

  // ---- strings ----

  predicate IsHexDigit(c: char, d: nat) { d < 16 && (c == "0123456789abcdef"[d] || c == "0123456789ABCDEF"[d]) }

  ghost predicate IsHex(t: string, n: nat) {
    exists h: Hex :: n == HexValue(h) && |t| == 4
                     && IsHexDigit(t[0], h.a) && IsHexDigit(t[1], h.b) && IsHexDigit(t[2], h.c) && IsHexDigit(t[3], h.d)
  }

  /** The characters after a backslash and what they stand for. */
  const ShortLetters := "\"\\/bfnrt"
  const ShortMeanings := ['"', '\\', '/', 8 as char, 12 as char, '\n', '\r', '\t']

  predicate IsShortEscape(t: string, p: string) {
    exists i :: 0 <= i < 8 && t == ['\\', ShortLetters[i]] && p == [ShortMeanings[i]]
  }

  ghost predicate IsUnitEscape(t: string, p: string) {
    exists h, n: nat :: t == "\\u" + h && IsHex(h, n) && (n < 0xD800 || 0xE000 <= n < 0x1_0000) && p == Encode(n)
  }

  ghost predicate IsPairEscape(t: string, p: string) {
    exists h, hi: nat, l, lo: nat :: && t == "\\u" + (h + ("\\u" + l)) && IsHex(h, hi) && IsHex(l, lo)
                                     && 0xD800 <= hi < 0xDC00 <= lo < 0xE000
                                     && p == Encode(0x1_0000 + (hi - 0xD800) * 0x400 + (lo - 0xDC00))
  }

  /** One character of a string as written. */
  ghost predicate IsPiece(t: string, p: string) {
    || (|t| == 1 && t[0] >= ' ' && t[0] != '"' && t[0] != '\\' && p == t)
    || IsShortEscape(t, p) || IsUnitEscape(t, p) || IsPairEscape(t, p)
  }

  /** The text between the quotes of a string. */
  ghost predicate IsBody(t: string, s: string)
    decreases |t|
  {
    if t == "" then s == ""
    else exists a, b, p, q :: t == a + b && a != "" && s == p + q && IsPiece(a, p) && IsBody(b, q)
  }

  ghost predicate IsQuoted(t: string, s: string) {
    exists b :: t == "\"" + (b + "\"") && IsBody(b, s)
  }

  // ---- values ----

  ghost predicate IsInteger(t: string, n: int) {
    exists minus, digits :: && t == minus + digits && minus in ["", "-"]
                            && digits != "" && AllDigits(digits) && (digits[0] == '0' ==> digits == "0")
                            && n == (if minus == "-" then 0 - NatValue(digits) else NatValue(digits))
                            && -0x8000_0000_0000_0000 <= n <= 0xFFFF_FFFF_FFFF_FFFF
  }

  /** The text is one of the value, with white space allowed in front. */
  ghost predicate Denotes(t: string, v: Value)
    decreases v
  {
    exists a, b :: t == a + b && IsBlank(a) && IsBare(b, v)
  }

  ghost predicate IsBare(t: string, v: Value)
    decreases v, 2, 0
  {
    match v
    case Null => t == "null"
    case Bool(b) => t == (if b then "true" else "false")
    case Int(n) => IsInteger(t, n)
    case Float(l) => t == l && IsFloat(l)
    case Str(s) => IsQuoted(t, s)
    case Arr(items) => t != "" && t[0] == '[' && (if items == [] then Closes(t[1..], "]") else IsItems(t[1..], v, 0))
    case Obj(members) => t != "" && t[0] == '{' && (if members == [] then Closes(t[1..], "}") else IsMembers(t[1..], v, 0))
  }

  ghost predicate Closes(t: string, bracket: string) { exists a :: t == a + bracket && IsBlank(a) }

  predicate ItemParts(t: string, x: string, a: string, y: string) { t == x + (a + y) && IsBlank(a) }

  /** The items from the i-th on, separated by commas, and the closing bracket. */
  ghost predicate IsItems(t: string, v: Value, i: nat)
    requires v.Arr? && i < |v.items|
    decreases v, 1, |v.items| - i
  {
    exists x, a, y :: ItemParts(t, x, a, y) && Denotes(x, v.items[i]) && IsItemsEnd(y, v, i)
  }

  ghost predicate IsItemsEnd(y: string, v: Value, i: nat)
    requires v.Arr? && i < |v.items|
    decreases v, 1, |v.items| - i, 0
  {
    if i + 1 == |v.items| then y == "]" else y != "" && y[0] == ',' && IsItems(y[1..], v, i + 1)
  }

  predicate MemberParts(t: string, a: string, k: string, b: string, x: string, c: string, y: string) {
    t == a + (k + (b + (":" + (x + (c + y))))) && IsBlank(a) && IsBlank(b) && IsBlank(c)
  }

  /** The members from the i-th on, separated by commas, and the closing brace. */
  ghost predicate IsMembers(t: string, v: Value, i: nat)
    requires v.Obj? && i < |v.members|
    decreases v, 1, |v.members| - i
  {
    exists a, k, b, x, c, y ::
      && MemberParts(t, a, k, b, x, c, y)
      && IsQuoted(k, v.members[i].key) && Denotes(x, v.members[i].value) && IsMembersEnd(y, v, i)
  }

  ghost predicate IsMembersEnd(y: string, v: Value, i: nat)
    requires v.Obj? && i < |v.members|
    decreases v, 1, |v.members| - i, 0
  {
    if i + 1 == |v.members| then y == "}" else y != "" && y[0] == ',' && IsMembers(y[1..], v, i + 1)
  }

  // ---- strings are read as the grammar says ----

  lemma {:induction false} Skipped(s: string) returns (a: string)
    ensures s == a + SkipSpace(s) && IsBlank(a)
  {
    if s != "" && IsSpace(s[0]) {
      var b := Skipped(s[1..]);
      a := [s[0]] + b;
      assert s == [s[0]] + s[1..];
      Assoc([s[0]], b, SkipSpace(s));
      BlankCons(s[0], b);
    } else {
      a := "";
    }
  }

  lemma BlankCons(c: char, b: string)
    requires IsSpace(c) && IsBlank(b)
    ensures IsBlank([c] + b)
  {
  }

  lemma HexDigitSound(c: char)
    ensures HexDigit(c).Some? ==> IsHexDigit(c, HexDigit(c).value)
  {
  }

  lemma HexSound(s: string)
    requires Hex4(s).Good?
    ensures |s| >= 4 && IsHex(s[..4], Hex4(s).value)
  {
    var a, b, c, d := HexDigit(s[0]).value, HexDigit(s[1]).value, HexDigit(s[2]).value, HexDigit(s[3]).value;
    HexDigitSound(s[0]);
    HexDigitSound(s[1]);
    HexDigitSound(s[2]);
    HexDigitSound(s[3]);
    assert Hex4(s).value == HexValue(Hex(a, b, c, d));
  }

  lemma UnitSound(s: string)
    requires Hex4(s).Good? && (Hex4(s).value < 0xD800 || 0xE000 <= Hex4(s).value)
    ensures |s| >= 4 && UnicodeEscape(s) == Good(Encode(Hex4(s).value), s[4..])
    ensures IsPiece("\\u" + s[..4], Encode(Hex4(s).value))
  {
    HexSound(s);
    assert IsUnitEscape("\\u" + s[..4], Encode(Hex4(s).value));
  }

  lemma PairPiece(h: string, l: string, hi: nat, lo: nat, cp: nat)
    requires IsHex(h, hi) && IsHex(l, lo) && 0xD800 <= hi < 0xDC00 <= lo < 0xE000
    requires cp == 0x1_0000 + (hi - 0xD800) * 0x400 + (lo - 0xDC00)
    ensures IsPiece("\\u" + (h + ("\\u" + l)), Encode(cp))
  {
    assert IsPairEscape("\\u" + (h + ("\\u" + l)), Encode(cp));
  }

  /** What reading a surrogate pair has found. */
  lemma PairRead(s: string) returns (hi: nat, lo: nat, cp: nat)
    requires UnicodeEscape(s).Good? && Hex4(s).Good? && 0xD800 <= Hex4(s).value < 0xE000
    ensures |s| >= 10 && s[4..6] == "\\u" && IsHex(s[..4], hi) && IsHex(s[6..10], lo)
    ensures 0xD800 <= hi < 0xDC00 <= lo < 0xE000 && cp == 0x1_0000 + (hi - 0xD800) * 0x400 + (lo - 0xDC00)
    ensures UnicodeEscape(s) == Good(Encode(cp), s[10..])
  {
    HexSound(s);
    var r := s[4..];
    assert r[..2] == s[4..6] && r[2..] == s[6..];
    HexSound(s[6..]);
    assert s[6..][..4] == s[6..10] && s[6..][4..] == s[10..];
    hi, lo := Hex4(s).value, Hex4(s[6..]).value;
    cp := 0x1_0000 + (hi - 0xD800) * 0x400 + (lo - 0xDC00);
  }

  lemma SplitTen(s: string)
    requires |s| >= 10
    ensures s[..10] == s[..4] + (s[4..6] + s[6..10])
  {
  }

  lemma PairSound(s: string)
    requires UnicodeEscape(s).Good? && Hex4(s).Good? && 0xD800 <= Hex4(s).value < 0xE000
    ensures |s| >= 10 && UnicodeEscape(s).rest == s[10..] && IsPiece("\\u" + s[..10], UnicodeEscape(s).value)
  {
    var hi, lo, cp := PairRead(s);
    PairPiece(s[..4], s[6..10], hi, lo, cp);
    SplitTen(s);
  }

  lemma UnicodeSound(t: string) returns (n: nat)
    requires UnicodeEscape(t).Good?
    ensures n <= |t| && UnicodeEscape(t).rest == t[n..] && IsPiece("\\u" + t[..n], UnicodeEscape(t).value)
  {
    if Hex4(t).value < 0xD800 || 0xE000 <= Hex4(t).value {
      UnitSound(t);
      n := 4;
    } else {
      PairSound(t);
      n := 10;
    }
  }

  lemma OpensUnicode(s: string)
    requires s != "" && s[0] == 'u'
    ensures EscapeBody(s) == UnicodeEscape(s[1..])
  {
  }

  /** An escape, with its backslash, is one piece. */
  lemma EscapeSound(s: string) returns (n: nat)
    requires EscapeBody(s).Good?
    ensures 1 <= n <= |s| && EscapeBody(s).rest == s[n..] && IsPiece("\\" + s[..n], EscapeBody(s).value)
  {
    if s[0] == 'u' {
      OpensUnicode(s);
      var m := UnicodeSound(s[1..]);
      n := m + 1;
      SliceOne(s, m);
      Assoc("\\", "u", s[1..][..m]);
    } else {
      n := 1;
      ShortSound(s);
    }
  }

  lemma ShortSound(s: string)
    requires EscapeBody(s).Good? && s[0] != 'u'
    ensures EscapeBody(s).rest == s[1..] && IsPiece("\\" + s[..1], EscapeBody(s).value)
  {
    var t, p := "\\" + s[..1], EscapeBody(s).value;
    assert t == ['\\', s[0]];
    var i :=
      if s[0] == '"' then 0 else if s[0] == '\\' then 1 else if s[0] == '/' then 2 else if s[0] == 'b' then 3
      else if s[0] == 'f' then 4 else if s[0] == 'n' then 5 else if s[0] == 'r' then 6 else 7;
    assert t == ['\\', ShortLetters[i]] && p == [ShortMeanings[i]];
    assert IsShortEscape(t, p);
  }

  lemma EscapedHead(s: string)
    requires StringBody(s).Good? && s[0] == '\\'
    ensures EscapeBody(s[1..]).Good? && StringBody(EscapeBody(s[1..]).rest).Good?
    ensures var r := StringBody(EscapeBody(s[1..]).rest); StringBody(s) == Good(EscapeBody(s[1..]).value + r.value, r.rest)
  {
  }

  lemma PlainHead(s: string)
    requires StringBody(s).Good? && s[0] != '"' && s[0] != '\\'
    ensures s[0] >= ' ' && StringBody(s[1..]).Good?
    ensures StringBody(s) == Good([s[0]] + StringBody(s[1..]).value, StringBody(s[1..]).rest)
  {
  }

  /** The first character of a string that is read. */
  lemma HeadSound(s: string) returns (n: nat, p: string)
    requires StringBody(s).Good? && s[0] != '"'
    ensures 1 <= n <= |s| && IsPiece(s[..n], p) && StringBody(s[n..]).Good?
    ensures StringBody(s) == Good(p + StringBody(s[n..]).value, StringBody(s[n..]).rest)
  {
    if s[0] == '\\' {
      EscapedHead(s);
      var m := EscapeSound(s[1..]);
      n, p := m + 1, EscapeBody(s[1..]).value;
      SliceOne(s, m);
    } else {
      PlainHead(s);
      n, p := 1, [s[0]];
      assert s[..1] == p;
    }
  }

  lemma SliceOne(s: string, m: nat)
    requires s != "" && m + 1 <= |s|
    ensures s[..m + 1] == [s[0]] + s[1..][..m] && s[m + 1..] == s[1..][m..]
  {
  }

  /** A string that is read ends at a quote, and what is before it is a body of the result. */
  lemma {:induction false} BodySound(s: string) returns (b: string)
    requires StringBody(s).Good?
    ensures s == b + ("\"" + StringBody(s).rest) && IsBody(b, StringBody(s).value)
    decreases |s|
  {
    if s[0] == '"' {
      b := "";
      assert s == "\"" + s[1..];
    } else {
      var n, p := HeadSound(s);
      var c := BodySound(s[n..]);
      b := s[..n] + c;
      BodyJoin(s[..n], p, c, StringBody(s[n..]).value);
      Assoc(s[..n], c, "\"" + StringBody(s).rest);
      assert s == s[..n] + s[n..];
    }
  }

  lemma BodyJoin(a: string, p: string, b: string, q: string)
    requires a != "" && IsPiece(a, p) && IsBody(b, q)
    ensures IsBody(a + b, p + q)
  {
  }

  lemma QuotedSound(s: string) returns (t: string)
    requires s != "" && s[0] == '"' && StringBody(s[1..]).Good?
    ensures s == t + StringBody(s[1..]).rest && IsQuoted(t, StringBody(s[1..]).value)
  {
    var b := BodySound(s[1..]);
    t := "\"" + (b + "\"");
    assert s == [s[0]] + s[1..];
  }

  // ---- numbers ----

  lemma ExponentSound(s: string)
    requires Exponent(s).Good?
    ensures s == Exponent(s).value + Exponent(s).rest && (Exponent(s).value == "" || IsExponent(Exponent(s).value))
  {
    if s != "" && s[0] in "eE" {
      var k := if |s| > 1 && (s[1] == '+' || s[1] == '-') then 2 else 1;
      var n := Span(s[k..]);
      var e := s[..k + n];
      assert e[..k] == s[..k] && e[k..] == s[k..][..n];
      assert k == 1 ==> s[..k] == [s[0]];
      assert k == 2 ==> s[..k] == [s[0], s[1]];
      assert e[..k] in ExponentSigns;
    }
  }

  lemma FractionSound(s: string)
    requires Fraction(s).Good?
    ensures s == Fraction(s).value + Fraction(s).rest && (Fraction(s).value == "" || IsFraction(Fraction(s).value))
  {
    if s != "" && s[0] == '.' {
      var n := Span(s[1..]);
      assert s[..1 + n][1..] == s[1..][..n];
    }
  }

  ghost predicate IsNumeral(t: string, v: Value) {
    || (v.Int? && IsInteger(t, v.n))
    || (v.Float? && t == v.lexeme && IsFloat(t))
  }

  lemma UnsignedRead(negative: bool, s: string) returns (n: nat, f: Parsed<string>, e: Parsed<string>)
    requires Unsigned(negative, s).Good?
    ensures 0 < n <= |s| && AllDigits(s[..n]) && (s[0] == '0' ==> n == 1)
    ensures f == Fraction(s[n..]) && f.Good? && e == Exponent(f.rest) && e.Good?
    ensures NumberOf(negative, s[..n], f.value, e.value) == Some(Unsigned(negative, s).value) && e.rest == Unsigned(negative, s).rest
  {
    n := Span(s);
    f := Fraction(s[n..]);
    e := Exponent(f.rest);
  }

  lemma TailParts(r: string)
    requires Fraction(r).Good? && Exponent(Fraction(r).rest).Good?
    ensures var f := Fraction(r); var e := Exponent(f.rest); r == f.value + (e.value + e.rest)
    ensures var f := Fraction(r); f.value == "" || IsFraction(f.value)
    ensures var e := Exponent(Fraction(r).rest); e.value == "" || IsExponent(e.value)
  {
    FractionSound(r);
    ExponentSound(Fraction(r).rest);
  }

  lemma LeadingZero(s: string, n: nat)
    requires 0 < n <= |s| && (s[0] == '0' ==> n == 1)
    ensures s[..n][0] == '0' ==> s[..n] == "0"
    ensures s == s[..n] + s[n..]
  {
  }

  /** The parts of a number that is read. */
  lemma UnsignedParts(negative: bool, s: string) returns (digits: string, frac: string, exp: string)
    requires Unsigned(negative, s).Good?
    ensures s == digits + (frac + (exp + Unsigned(negative, s).rest))
    ensures digits != "" && AllDigits(digits) && (digits[0] == '0' ==> digits == "0")
    ensures (frac == "" || IsFraction(frac)) && (exp == "" || IsExponent(exp))
    ensures NumberOf(negative, digits, frac, exp) == Some(Unsigned(negative, s).value)
  {
    var n, f, e := UnsignedRead(negative, s);
    TailParts(s[n..]);
    LeadingZero(s, n);
    digits, frac, exp := s[..n], f.value, e.value;
  }

  lemma IntegerNumeral(minus: string, digits: string)
    requires minus in ["", "-"] && digits != "" && AllDigits(digits) && (digits[0] == '0' ==> digits == "0")
    requires NumberOf(minus == "-", digits, "", "").Some?
    ensures IsNumeral(minus + digits, NumberOf(minus == "-", digits, "", "").value)
  {
  }

  lemma FloatNumeral(minus: string, digits: string, frac: string, exp: string)
    requires FloatParts(minus + (digits + (frac + exp)), minus, digits, frac, exp)
    ensures NumberOf(minus == "-", digits, frac, exp) == Some(Float(minus + (digits + (frac + exp))))
    ensures IsFloat(minus + (digits + (frac + exp)))
  {
    Assoc(minus, digits, frac);
    Assoc(minus, digits + frac, exp);
    Assoc(digits, frac, exp);
  }

  lemma NumeralOf(minus: string, digits: string, frac: string, exp: string)
    requires minus in ["", "-"] && digits != "" && AllDigits(digits) && (digits[0] == '0' ==> digits == "0")
    requires (frac == "" || IsFraction(frac)) && (exp == "" || IsExponent(exp))
    requires NumberOf(minus == "-", digits, frac, exp).Some?
    ensures IsNumeral(minus + (digits + (frac + exp)), NumberOf(minus == "-", digits, frac, exp).value)
  {
    if frac == "" && exp == "" {
      IntegerNumeral(minus, digits);
      assert digits + (frac + exp) == digits;
    } else {
      FloatNumeral(minus, digits, frac, exp);
    }
  }

  lemma UnsignedSound(negative: bool, s: string) returns (t: string)
    requires Unsigned(negative, s).Good?
    ensures s == t + Unsigned(negative, s).rest && IsNumeral((if negative then "-" else "") + t, Unsigned(negative, s).value)
  {
    var digits, frac, exp := UnsignedParts(negative, s);
    t := digits + (frac + exp);
    Assoc(frac, exp, Unsigned(negative, s).rest);
    Assoc(digits, frac + exp, Unsigned(negative, s).rest);
    NumeralOf(if negative then "-" else "", digits, frac, exp);
  }

  lemma NumberSound(s: string) returns (t: string)
    requires Number(s).Good?
    ensures s == t + Number(s).rest && IsNumeral(t, Number(s).value)
  {
    if s[0] == '-' {
      var d := UnsignedSound(true, s[1..]);
      t := "-" + d;
      assert s == "-" + s[1..];
      Assoc("-", d, Number(s).rest);
    } else {
      t := UnsignedSound(false, s);
      assert "" + t == t;
    }
  }

  // ---- values ----

  lemma LiteralSound(s: string, word: string, v: Value)
    requires word != "" && Literal(s, word, v).Good?
    ensures s == word + Literal(s, word, v).rest && Literal(s, word, v).value == v
  {
  }

  lemma ScalarSound(s: string) returns (t: string)
    requires ReadScalar(s).Good?
    ensures s == t + ReadScalar(s).rest && IsBare(t, ReadScalar(s).value)
  {
    if s[0] == '"' {
      t := QuotedSound(s);
    } else if s[0] == 't' {
      LiteralSound(s, "true", Bool(true));
      t := "true";
    } else if s[0] == 'f' {
      LiteralSound(s, "false", Bool(false));
      t := "false";
    } else if s[0] == 'n' {
      LiteralSound(s, "null", Null);
      t := "null";
    } else {
      t := NumberSound(s);
    }
  }

  /** What is read as a value is a text of that value. */
  lemma {:induction false} ReadValueSound(s: string) returns (t: string)
    requires ReadValue(s).Good?
    ensures s == t + ReadValue(s).rest && Denotes(t, ReadValue(s).value)
    decreases |s|, 2
  {
    var a := Skipped(s);
    var r := SkipSpace(s);
    var b;
    if r[0] == '{' {
      b := ReadObjectSound(r);
    } else if r[0] == '[' {
      b := ReadArraySound(r);
    } else {
      b := ScalarSound(r);
    }
    t := a + b;
    Assoc(a, b, ReadValue(s).rest);
  }

  lemma BareArray(t: string, v: Value)
    requires v.Arr? && (if v.items == [] then Closes(t, "]") else IsItems(t, v, 0))
    ensures IsBare("[" + t, v)
  {
    assert ("[" + t)[1..] == t;
  }

  lemma BareObject(t: string, v: Value)
    requires v.Obj? && (if v.members == [] then Closes(t, "}") else IsMembers(t, v, 0))
    ensures IsBare("{" + t, v)
  {
    assert ("{" + t)[1..] == t;
  }

  lemma ArrayRead(s: string)
    requires ReadArray(s).Good?
    ensures s != ""
    ensures ReadArray(s) == (if s[0] == ']' then Good(Arr([]), s[1..]) else Good(Arr(ReadItems(s).value), ReadItems(s).rest))
    ensures s[0] != ']' ==> ReadItems(s).Good? && ReadItems(s).value != []
  {
    if s == "" || s[0] != ']' { ItemsRead(s); }
  }

  lemma ObjectRead(s: string)
    requires ReadObject(s).Good?
    ensures s != ""
    ensures ReadObject(s) == (if s[0] == '}' then Good(Obj([]), s[1..]) else Good(Obj(ReadMembers(s).value), ReadMembers(s).rest))
    ensures s[0] != '}' ==> ReadMembers(s).Good? && ReadMembers(s).value != []
  {
    if s == "" || s[0] != '}' { MembersRead(s); }
  }

  lemma {:induction false} ReadArraySound(r: string) returns (b: string)
    requires r != "" && r[0] == '[' && ReadArray(SkipSpace(r[1..])).Good?
    ensures var x := ReadArray(SkipSpace(r[1..])); r == b + x.rest && IsBare(b, x.value)
    decreases |r|, 1
  {
    var a := Skipped(r[1..]);
    var s := SkipSpace(r[1..]);
    var x := ReadArray(s);
    ArrayRead(s);
    var t;
    if s[0] == ']' {
      t := a + "]";
      assert s == "]" + x.rest;
      Assoc(a, "]", x.rest);
      assert Closes(t, "]");
    } else {
      t := ReadItemsSound(s, x.value, 0, a);
    }
    b := "[" + t;
    BareArray(t, x.value);
    assert r == "[" + r[1..];
    Assoc("[", t, x.rest);
  }

  lemma {:induction false} ReadObjectSound(r: string) returns (b: string)
    requires r != "" && r[0] == '{' && ReadObject(SkipSpace(r[1..])).Good?
    ensures var x := ReadObject(SkipSpace(r[1..])); r == b + x.rest && IsBare(b, x.value)
    decreases |r|, 1
  {
    var a := Skipped(r[1..]);
    var s := SkipSpace(r[1..]);
    var x := ReadObject(s);
    ObjectRead(s);
    var t;
    if s[0] == '}' {
      t := a + "}";
      assert s == "}" + x.rest;
      Assoc(a, "}", x.rest);
      assert Closes(t, "}");
    } else {
      t := ReadMembersSound(s, x.value, 0, a);
    }
    b := "{" + t;
    BareObject(t, x.value);
    assert r == "{" + r[1..];
    Assoc("{", t, x.rest);
  }

  lemma RestOf<T>(xs: seq<T>, i: nat, x: T, rest: seq<T>)
    requires i < |xs| && xs[i..] == [x] + rest
    ensures xs[i] == x && xs[i + 1..] == rest
  {
    assert xs[i..][0] == x && xs[i..][1..] == rest;
  }

  lemma ItemsJoin(v: Value, i: nat, x: string, a: string, y: string)
    requires v.Arr? && i < |v.items| && Denotes(x, v.items[i]) && IsBlank(a) && IsItemsEnd(y, v, i)
    ensures IsItems(x + (a + y), v, i)
  {
    assert ItemParts(x + (a + y), x, a, y);
  }

  lemma ItemsRead(s: string)
    requires ReadItems(s).Good?
    ensures ReadValue(s).Good? && ReadMoreItems(SkipSpace(ReadValue(s).rest)).Good?
    ensures var more := ReadMoreItems(SkipSpace(ReadValue(s).rest));
            ReadItems(s) == Good([ReadValue(s).value] + more.value, more.rest)
  {
  }

  lemma NextItems(z: string, v: Value, i: nat)
    requires v.Arr? && i + 1 < |v.items| && IsItems(z, v, i + 1)
    ensures IsItemsEnd("," + z, v, i)
  {
    assert ("," + z)[1..] == z;
  }

  lemma MoreItemsRead(r: string)
    requires ReadMoreItems(r).Good?
    ensures r == [r[0]] + r[1..]
    ensures r[0] == ']' || r[0] == ','
    ensures ReadMoreItems(r) == if r[0] == ']' then Good([], r[1..]) else ReadItems(r[1..])
  {
  }

  /** What follows an item. */
  lemma {:induction false} MoreItemsSound(r: string, v: Value, i: nat) returns (y: string)
    requires v.Arr? && i < |v.items| && ReadMoreItems(r).Good? && ReadMoreItems(r).value == v.items[i + 1..]
    ensures r == y + ReadMoreItems(r).rest && IsItemsEnd(y, v, i)
    decreases |r|, 4
  {
    MoreItemsRead(r);
    if r[0] == ']' {
      y := "]";
    } else {
      ItemsRead(r[1..]);
      assert |v.items[i + 1..]| > 0;
      var z := ReadItemsSound(r[1..], v, i + 1, "");
      assert "" + r[1..] == r[1..];
      NextItems(z, v, i);
      y := "," + z;
      Assoc(",", z, ReadMoreItems(r).rest);
    }
  }

  /** The items read are the rest of an array; white space that was skipped belongs to the
      first of them. */
  lemma {:induction false} ReadItemsSound(s: string, v: Value, i: nat, a: string) returns (t: string)
    requires v.Arr? && i < |v.items| && ReadItems(s).Good? && ReadItems(s).value == v.items[i..] && IsBlank(a)
    ensures a + s == t + ReadItems(s).rest && IsItems(t, v, i)
    decreases |s|, 3
  {
    ItemsRead(s);
    var x := ReadValueSound(s);
    var b := Skipped(ReadValue(s).rest);
    var r := SkipSpace(ReadValue(s).rest);
    RestOf(v.items, i, ReadValue(s).value, ReadMoreItems(r).value);
    var y := MoreItemsSound(r, v, i);
    BlankFirst(a, x, v.items[i]);
    t := (a + x) + (b + y);
    ItemsJoin(v, i, a + x, b, y);
    RejoinItems(a, x, b, y, ReadItems(s).rest);
  }

  lemma RejoinItems(a: string, x: string, b: string, y: string, rest: string)
    ensures a + (x + (b + (y + rest))) == (a + x) + (b + y) + rest
  {
    Assoc(b, y, rest);
    Assoc(a + x, b + y, rest);
    Assoc(a, x, b + y + rest);
  }

  lemma BlankFirst(a: string, x: string, v: Value)
    requires IsBlank(a) && Denotes(x, v)
    ensures Denotes(a + x, v)
  {
    var b, c :| x == b + c && IsBlank(b) && IsBare(c, v);
    Assoc(a, b, c);
    assert IsBlank(a + b);
  }

  lemma MembersOf(v: Value, i: nat, a: string, k: string, b: string, x: string, c: string, y: string)
    requires v.Obj? && i < |v.members| && IsQuoted(k, v.members[i].key) && Denotes(x, v.members[i].value)
    requires IsBlank(a) && IsBlank(b) && IsBlank(c) && IsMembersEnd(y, v, i)
    ensures IsMembers(a + (k + (b + (":" + (x + (c + y))))), v, i)
  {
    assert MemberParts(a + (k + (b + (":" + (x + (c + y))))), a, k, b, x, c, y);
  }

  lemma MembersRead(s: string)
    requires ReadMembers(s).Good?
    ensures ReadMember(s).Good? && ReadMoreMembers(SkipSpace(ReadMember(s).rest)).Good?
    ensures var more := ReadMoreMembers(SkipSpace(ReadMember(s).rest));
            ReadMembers(s) == Good([ReadMember(s).value] + more.value, more.rest)
  {
  }

  lemma NextMembers(z: string, v: Value, i: nat)
    requires v.Obj? && i + 1 < |v.members| && IsMembers(z, v, i + 1)
    ensures IsMembersEnd("," + z, v, i)
  {
    assert ("," + z)[1..] == z;
  }

  lemma MoreMembersRead(r: string)
    requires ReadMoreMembers(r).Good?
    ensures r == [r[0]] + r[1..]
    ensures r[0] == '}' || r[0] == ','
    ensures ReadMoreMembers(r) == if r[0] == '}' then Good([], r[1..]) else ReadMembers(SkipSpace(r[1..]))
  {
  }

  lemma {:induction false} MoreMembersSound(r: string, v: Value, i: nat) returns (y: string)
    requires v.Obj? && i < |v.members| && ReadMoreMembers(r).Good? && ReadMoreMembers(r).value == v.members[i + 1..]
    ensures r == y + ReadMoreMembers(r).rest && IsMembersEnd(y, v, i)
    decreases |r|, 4
  {
    MoreMembersRead(r);
    if r[0] == '}' {
      y := "}";
    } else {
      var d := Skipped(r[1..]);
      MembersRead(SkipSpace(r[1..]));
      assert |v.members[i + 1..]| > 0;
      var z := ReadMembersSound(SkipSpace(r[1..]), v, i + 1, d);
      NextMembers(z, v, i);
      y := "," + z;
      Assoc(",", z, ReadMoreMembers(r).rest);
    }
  }

  lemma {:induction false} ReadMembersSound(s: string, v: Value, i: nat, a: string) returns (t: string)
    requires v.Obj? && i < |v.members| && ReadMembers(s).Good? && ReadMembers(s).value == v.members[i..] && IsBlank(a)
    ensures a + s == t + ReadMembers(s).rest && IsMembers(t, v, i)
    decreases |s|, 3
  {
    MembersRead(s);
    var k, b, x := ReadMemberSound(s);
    var c := Skipped(ReadMember(s).rest);
    var r := SkipSpace(ReadMember(s).rest);
    RestOf(v.members, i, ReadMember(s).value, ReadMoreMembers(r).value);
    var y := MoreMembersSound(r, v, i);
    t := MembersStep(v, i, a, k, b, x, c, y, ReadMembers(s).rest, s, ReadMember(s).rest, r);
  }

  lemma MembersJoin(a: string, k: string, b: string, x: string, c: string, y: string, rest: string, s: string, after: string, r: string)
    requires s == k + (b + (":" + (x + after))) && after == c + r && r == y + rest
    ensures a + s == a + (k + (b + (":" + (x + (c + y))))) + rest
  {
    Assoc(c, y, rest);
    Assoc(x, c + y, rest);
    Assoc(":", x + (c + y), rest);
    Assoc(b, ":" + (x + (c + y)), rest);
    Assoc(k, b + (":" + (x + (c + y))), rest);
    Assoc(a, k + (b + (":" + (x + (c + y)))), rest);
  }

  lemma MembersStep(v: Value, i: nat, a: string, k: string, b: string, x: string, c: string, y: string,
                    rest: string, s: string, after: string, r: string) returns (t: string)
    requires v.Obj? && i < |v.members| && IsQuoted(k, v.members[i].key) && Denotes(x, v.members[i].value)
    requires IsBlank(a) && IsBlank(b) && IsBlank(c) && IsMembersEnd(y, v, i)
    requires s == k + (b + (":" + (x + after))) && after == c + r && r == y + rest
    ensures a + s == t + rest && IsMembers(t, v, i)
  {
    t := a + (k + (b + (":" + (x + (c + y)))));
    MembersOf(v, i, a, k, b, x, c, y);
    MembersJoin(a, k, b, x, c, y, rest, s, after, r);
  }

  lemma {:induction false} ReadMemberSound(s: string) returns (k: string, b: string, x: string)
    requires ReadMember(s).Good?
    ensures var m := ReadMember(s);
            && s == k + (b + (":" + (x + m.rest))) && IsBlank(b)
            && IsQuoted(k, m.value.key) && Denotes(x, m.value.value)
    decreases |s|, 1
  {
    k := QuotedSound(s);
    var after := StringBody(s[1..]).rest;
    b := Skipped(after);
    var colon := SkipSpace(after);
    assert colon == ":" + colon[1..];
    x := ReadValueSound(colon[1..]);
  }

  /** A document that is accepted is a text of its value and white space. */
  lemma DocumentSound(s: string) returns (t: string, a: string)
    requires Document(s).Some?
    ensures s == t + a && IsBlank(a) && Denotes(t, Document(s).value)
  {
    t := ReadValueSound(s);
    a := Skipped(ReadValue(s).rest);
    assert a + "" == a;
  }
}
