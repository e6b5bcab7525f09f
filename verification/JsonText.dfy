/** The text of every JSON value, and that reading it gives the value back.

    `Text` writes a value with a chosen run of white space between the tokens. Strings
    may hold any character: control characters without a short escape are written as
    \u escapes. The reader must undo all of it, at every depth and before any text. */
module JsonText {
  import opened Wrappers
  import opened Decimal
  import opened Json
  import opened Escaping

  predicate IsBlank(p: string) { forall i :: 0 <= i < |p| ==> p[i] in " \t\n\r" }

  lemma {:induction false} SkipBlank(p: string, t: string)
    requires IsBlank(p) && t != "" && t[0] !in " \t\n\r"
    ensures SkipSpace(p + t) == t
  {
    if p == "" {
      assert p + t == t;
    } else {
      assert (p + t)[1..] == p[1..] + t;
      SkipBlank(p[1..], t);
    }
  }

  // ---- strings ----

  type Nibble = n: nat | n < 16

  /** Four hexadecimal digits. */
  datatype Hex = Hex(a: Nibble, b: Nibble, c: Nibble, d: Nibble)

  function HexValue(h: Hex): nat { 4096 * h.a + 256 * h.b + 16 * h.c + h.d }

  function HexChar(d: Nibble, upper: bool): char {
    if upper then "0123456789ABCDEF"[d] else "0123456789abcdef"[d]
  }

  function HexText(h: Hex, upper: bool): string {
    [HexChar(h.a, upper), HexChar(h.b, upper), HexChar(h.c, upper), HexChar(h.d, upper)]
  }

  lemma HexDigitOfChar(d: Nibble, upper: bool)
    ensures HexDigit(HexChar(d, upper)) == Some(d)
  {
  }

  lemma ReadHexText(h: Hex, upper: bool, rest: string)
    ensures Hex4(HexText(h, upper) + rest) == Good(HexValue(h), rest)
  {
    HexDigitOfChar(h.a, upper);
    HexDigitOfChar(h.b, upper);
    HexDigitOfChar(h.c, upper);
    HexDigitOfChar(h.d, upper);
    assert (HexText(h, upper) + rest)[4..] == rest;
  }

  lemma EscapedUnit(t: string)
    ensures EscapeBody("u" + t) == UnicodeEscape(t)
  {
    assert ("u" + t)[1..] == t;
  }

  lemma UnitEscape(s: string, n: nat, rest: string)
    requires Hex4(s) == Good(n, rest) && (n < 0xD800 || 0xE000 <= n < 0x1_0000)
    ensures UnicodeEscape(s) == Good(Encode(n), rest)
  {
  }

  /** Any four digits that name no surrogate are read as the UTF-8 form of their value. */
  lemma ReadUnit(h: Hex, n: nat, upper: bool, rest: string)
    requires n == HexValue(h) && (n < 0xD800 || 0xE000 <= n)
    ensures EscapeBody("u" + (HexText(h, upper) + rest)) == Good(Encode(n), rest)
  {
    var s := HexText(h, upper) + rest;
    EscapedUnit(s);
    ReadHexText(h, upper, rest);
    UnitEscape(s, n, rest);
  }

  lemma PairEscape(s: string, hi: nat, lo: nat, cp: nat, t: string, rest: string)
    requires 0xD800 <= hi < 0xDC00 <= lo < 0xE000
    requires cp == 0x1_0000 + (hi - 0xD800) * 0x400 + (lo - 0xDC00)
    requires Hex4(s) == Good(hi, "\\u" + t) && Hex4(t) == Good(lo, rest)
    ensures UnicodeEscape(s) == Good(Encode(cp), rest)
  {
    var tail := "\\u" + t;
    assert tail[..2] == "\\u" && tail[2..] == t;
  }

  /** A high and a low surrogate together are read as the one code point they stand for. */
  lemma ReadPair(h: Hex, l: Hex, cp: nat, upper: bool, rest: string)
    requires 0xD800 <= HexValue(h) < 0xDC00 <= HexValue(l) < 0xE000
    requires cp == 0x1_0000 + (HexValue(h) - 0xD800) * 0x400 + (HexValue(l) - 0xDC00)
    ensures EscapeBody("u" + (HexText(h, upper) + ("\\u" + (HexText(l, upper) + rest)))) == Good(Encode(cp), rest)
  {
    var low := HexText(l, upper) + rest;
    var s := HexText(h, upper) + ("\\u" + low);
    EscapedUnit(s);
    ReadHexText(h, upper, "\\u" + low);
    ReadHexText(l, upper, rest);
    PairEscape(s, HexValue(h), HexValue(l), cp, low, rest);
  }

  /** One character inside quotes; a control character without a short escape as a \u escape. */
  function Spelled(c: char): string {
    if IsRawControl(c) then "\\" + ("u" + HexText(ControlHex(c), false)) else EscapeChar(c)
  }

  function ControlHex(c: char): Hex
    requires c < ' '
  {
    Hex(0, 0, c as int / 16, c as int % 16)
  }

  function Spelling(s: string): string {
    if s == "" then "" else Spelled(s[0]) + Spelling(s[1..])
  }

  function Quoted(s: string): string { "\"" + Spelling(s) + "\"" }

  lemma AsciiEscape(s: string, c: char, t: string)
    requires c < ' ' && EscapeBody(s) == Good(Encode(c as int), t)
    ensures StringBody("\\" + s) == PrependParsed(c, StringBody(t))
  {
    assert ("\\" + s)[1..] == s;
    assert Encode(c as int) == [c];
  }

  lemma StringBodyOfSpelled(c: char, t: string)
    ensures StringBody(Spelled(c) + t) == PrependParsed(c, StringBody(t))
  {
    if IsRawControl(c) {
      var escape := "u" + HexText(ControlHex(c), false);
      Assoc("u", HexText(ControlHex(c), false), t);
      ReadUnit(ControlHex(c), c as int, false, t);
      AsciiEscape(escape + t, c, t);
      Assoc("\\", escape, t);
    } else {
      StringBodyStep(c, t);
    }
  }

  /** Every string can be written and is read back, whatever comes after the closing quote. */
  lemma {:induction false} StringBodyOfSpelling(s: string, rest: string)
    ensures StringBody(Spelling(s) + ("\"" + rest)) == Good(s, rest)
  {
    if s == "" {
      assert Spelling(s) + ("\"" + rest) == "\"" + rest;
      assert ("\"" + rest)[1..] == rest;
    } else {
      StringBodyOfSpelling(s[1..], rest);
      StringBodyOfSpelled(s[0], Spelling(s[1..]) + ("\"" + rest));
      Assoc(Spelled(s[0]), Spelling(s[1..]), "\"" + rest);
      assert s == [s[0]] + s[1..];
    }
  }

  // ---- numbers ----

  /** Text that cannot continue a number. */
  predicate EndsNumber(rest: string) { rest == "" || (!IsDigit(rest[0]) && rest[0] !in ".eE") }

  /** Digits, fraction and exponent, one read after the other. */
  lemma ReadParts(negative: bool, digits: string, frac: string, exp: string, tail: string, rest: string, end: string)
    requires digits != "" && AllDigits(digits) && (digits[0] == '0' ==> digits == "0")
    requires Span(digits + tail) == |digits|
    requires Fraction(tail) == Good(frac, rest) && Exponent(rest) == Good(exp, end)
    ensures var v := NumberOf(negative, digits, frac, exp);
            Unsigned(negative, digits + tail) == (if v.Some? then Good(v.value, end) else Bad)
  {
    assert (digits + tail)[..|digits|] == digits;
    assert (digits + tail)[|digits|..] == tail;
  }

  lemma ReadNatText(n: nat, negative: bool, rest: string)
    requires EndsNumber(rest) && MinInt64 <= (if negative then 0 - n else n) <= MaxUint64
    ensures Unsigned(negative, NatText(n) + rest) == Good(Int(if negative then 0 - n else n), rest)
  {
    SpanOfDigits(NatText(n), rest);
    NatValueOfText(n);
    ReadParts(negative, NatText(n), "", "", rest, rest, rest);
  }

  lemma NegativeNumber(d: string, rest: string)
    ensures Number("-" + d + rest) == Unsigned(true, d + rest)
    ensures ("-" + d + rest)[0] == '-'
  {
    assert ("-" + d + rest)[1..] == d + rest;
  }

  predicate StartsNumber(s: string) { s != "" && (IsDigit(s[0]) || s[0] == '-') }

  /** Integers of the whole 64-bit range, signed or unsigned. */
  lemma ReadIntText(n: int, rest: string)
    requires -0x8000_0000_0000_0000 <= n <= 0xFFFF_FFFF_FFFF_FFFF && EndsNumber(rest)
    ensures Number(IntText(n) + rest) == Good(Int(n), rest)
    ensures StartsNumber(IntText(n) + rest)
  {
    if n < 0 {
      ReadNatText(-n, true, rest);
      NegativeNumber(NatText(-n), rest);
    } else {
      ReadNatText(n, false, rest);
      assert IsDigit(NatText(n)[0]);
    }
  }

  /** The parts of a number with a fraction or an exponent. */
  predicate FloatParts(l: string, minus: string, digits: string, frac: string, exp: string) {
    && l == minus + (digits + (frac + exp))
    && minus in ["", "-"]
    && digits != "" && AllDigits(digits) && (digits[0] == '0' ==> digits == "0")
    && (frac == "" || IsFraction(frac))
    && (exp == "" || IsExponent(exp))
    && (frac != "" || exp != "")
  }

  predicate IsFraction(f: string) { |f| > 1 && f[0] == '.' && AllDigits(f[1..]) }

  /** The exponent letter and its sign. */
  const ExponentSigns := ["e", "E", "e+", "E+", "e-", "E-"]

  predicate IsExponent(e: string) {
    exists k: nat :: k < |e| && e[..k] in ExponentSigns && AllDigits(e[k..])
  }

  ghost predicate IsFloat(l: string) {
    exists minus, digits, frac, exp :: FloatParts(l, minus, digits, frac, exp)
  }

  lemma ReadFraction(f: string, rest: string)
    requires f == "" || IsFraction(f)
    requires rest == "" || (!IsDigit(rest[0]) && rest[0] != '.')
    ensures Fraction(f + rest) == Good(f, rest)
  {
    if f == "" {
      assert f + rest == rest;
    } else {
      assert (f + rest)[1..] == f[1..] + rest;
      SpanOfDigits(f[1..], rest);
      assert (f + rest)[..|f|] == f && (f + rest)[|f|..] == rest;
    }
  }

  lemma ReadExponentDigits(e: string, k: nat, rest: string)
    requires k < |e| && e[..k] in ExponentSigns && AllDigits(e[k..]) && EndsNumber(rest)
    ensures Exponent(e + rest) == Good(e, rest)
  {
    var s := e + rest;
    assert e[..k][0] == e[0] && IsDigit(e[k..][0]);
    if k == 2 { assert e[..k][1] == e[1]; }
    assert s[k..] == e[k..] + rest;
    SpanOfDigits(e[k..], rest);
    assert s[..|e|] == e && s[|e|..] == rest;
  }

  lemma ReadExponent(e: string, rest: string)
    requires (e == "" || IsExponent(e)) && EndsNumber(rest)
    ensures Exponent(e + rest) == Good(e, rest)
    ensures e + rest == "" || (!IsDigit((e + rest)[0]) && (e + rest)[0] != '.')
  {
    if e == "" {
      assert e + rest == rest;
    } else {
      var k: nat :| k < |e| && e[..k] in ExponentSigns && AllDigits(e[k..]);
      assert e[..k][0] == e[0];
      ReadExponentDigits(e, k, rest);
    }
  }

  lemma ReadFloatBody(negative: bool, digits: string, frac: string, exp: string, rest: string)
    requires FloatParts((if negative then "-" else "") + (digits + (frac + exp)),
                        if negative then "-" else "", digits, frac, exp)
    requires EndsNumber(rest)
    ensures Unsigned(negative, digits + (frac + (exp + rest))) ==
            Good(Float((if negative then "-" else "") + (digits + (frac + exp))), rest)
  {
    ReadExponent(exp, rest);
    ReadFraction(frac, exp + rest);
    var tail := frac + (exp + rest);
    assert frac != "" ==> tail[0] == '.';
    assert frac == "" ==> tail == exp + rest;
    SpanOfDigits(digits, tail);
    ReadParts(negative, digits, frac, exp, tail, exp + rest, rest);
    var sign := if negative then "-" else "";
    Assoc(sign, digits, frac);
    Assoc(sign, digits + frac, exp);
    Assoc(digits, frac, exp);
  }

  lemma ReadFloatText(l: string, rest: string)
    requires IsFloat(l) && EndsNumber(rest)
    ensures Number(l + rest) == Good(Float(l), rest)
    ensures StartsNumber(l + rest)
  {
    var minus, digits, frac, exp :| FloatParts(l, minus, digits, frac, exp);
    var body := digits + (frac + (exp + rest));
    ReadFloatBody(minus == "-", digits, frac, exp, rest);
    assert l + rest == minus + body by {
      Assoc(frac, exp, rest);
      Assoc(digits, frac + exp, rest);
      Assoc(minus, digits + (frac + exp), rest);
    }
    SignedNumber(minus, digits, frac + (exp + rest));
  }

  lemma SignedNumber(minus: string, digits: string, tail: string)
    requires minus in ["", "-"] && digits != "" && AllDigits(digits)
    ensures Number(minus + (digits + tail)) == Unsigned(minus == "-", digits + tail)
    ensures StartsNumber(minus + (digits + tail))
  {
    assert IsDigit((digits + tail)[0]);
    if minus == "-" {
      assert (minus + (digits + tail))[1..] == digits + tail;
    } else {
      assert minus + (digits + tail) == digits + tail;
    }
  }

  // ---- values ----

  /** Values that have a text: integers of 64 bits and well-formed other numbers. */
  ghost predicate HasText(v: Value) {
    match v
    case Int(n) => -0x8000_0000_0000_0000 <= n <= 0xFFFF_FFFF_FFFF_FFFF
    case Float(l) => IsFloat(l)
    case Arr(items) => forall i :: 0 <= i < |items| ==> HasText(items[i])
    case Obj(members) => forall i :: 0 <= i < |members| ==> HasText(members[i].value)
    case _ => true
  }

  /** The text of a value, with the white space `p` between its tokens. */
  function Text(v: Value, p: string): string
    decreases v
  {
    match v
    case Null => "null"
    case Bool(b) => if b then "true" else "false"
    case Int(n) => IntText(n)
    case Float(l) => l
    case Str(s) => Quoted(s)
    case Arr(items) => "[" + (p + (if items == [] then "]" else ItemsText(v, 0, p)))
    case Obj(members) => "{" + (p + (if members == [] then "}" else MembersText(v, 0, p)))
  }

  /** The items from the i-th on, and the closing bracket. */
  function ItemsText(v: Value, i: nat, p: string): string
    requires v.Arr? && i < |v.items|
    decreases v, |v.items| - i, 1
  {
    Text(v.items[i], p) + (p + ItemsTail(v, i, p))
  }

  function ItemsTail(v: Value, i: nat, p: string): string
    requires v.Arr? && i < |v.items|
    decreases v, |v.items| - i, 0
  {
    if i + 1 == |v.items| then "]" else "," + (p + ItemsText(v, i + 1, p))
  }

  /** The members from the i-th on, and the closing brace. */
  function MembersText(v: Value, i: nat, p: string): string
    requires v.Obj? && i < |v.members|
    decreases v, |v.members| - i, 1
  {
    Quoted(v.members[i].key) + (p + (":" + (p + (Text(v.members[i].value, p) + (p + MembersTail(v, i, p))))))
  }

  function MembersTail(v: Value, i: nat, p: string): string
    requires v.Obj? && i < |v.members|
    decreases v, |v.members| - i, 0
  {
    if i + 1 == |v.members| then "}" else "," + (p + MembersText(v, i + 1, p))
  }

  /** What may follow a value: anything, except that a number must end there. */
  predicate MayFollow(v: Value, rest: string) { v.Int? || v.Float? ==> EndsNumber(rest) }

  lemma BlankThen(p: string, s: string)
    requires IsBlank(p) && s != "" && s[0] in ",]}:"
    ensures SkipSpace(p + s) == s
    ensures EndsNumber(p + s)
  {
    SkipBlank(p, s);
    assert (p + s)[0] == if p == "" then s[0] else p[0];
  }

  lemma ReadWord(v: Value, word: string, rest: string)
    requires (v == Null && word == "null") || (v == Bool(true) && word == "true") || (v == Bool(false) && word == "false")
    ensures ReadScalar(word + rest) == Good(v, rest)
  {
    assert (word + rest)[..|word|] == word;
    assert (word + rest)[|word|..] == rest;
  }

  lemma ReadQuoted(s: string, rest: string)
    ensures ReadScalar(Quoted(s) + rest) == Good(Str(s), rest)
    ensures (Quoted(s) + rest)[0] == '"' && StringBody((Quoted(s) + rest)[1..]) == Good(s, rest)
  {
    StringBodyOfSpelling(s, rest);
    assert (Quoted(s) + rest)[1..] == Spelling(s) + ("\"" + rest);
  }

  lemma ScalarNumber(s: string)
    requires StartsNumber(s)
    ensures ReadScalar(s) == Number(s) && s[0] !in " \t\n\r{["
  {
    assert s[0] !in "\"tfn";
  }

  lemma ReadScalarText(v: Value, p: string, rest: string)
    requires !v.Arr? && !v.Obj? && HasText(v) && MayFollow(v, rest)
    ensures ReadScalar(Text(v, p) + rest) == Good(v, rest)
    ensures Text(v, p) + rest != "" && (Text(v, p) + rest)[0] !in " \t\n\r{["
  {
    match v
    case Int(n) => ReadIntText(n, rest); ScalarNumber(IntText(n) + rest);
    case Float(l) => ReadFloatText(l, rest); ScalarNumber(l + rest);
    case Str(s) => ReadQuoted(s, rest);
    case Bool(b) => ReadWord(v, if b then "true" else "false", rest);
    case Null => ReadWord(v, "null", rest);
  }

  /** Reading what was written gives the value back, at every depth, with any white space
      between the tokens and any text behind. */
  lemma {:induction false} ReadTextBack(v: Value, p: string, rest: string)
    requires HasText(v) && IsBlank(p) && MayFollow(v, rest)
    ensures ReadValue(Text(v, p) + rest) == Good(v, rest)
    ensures Text(v, p) != "" && Text(v, p)[0] !in " \t\n\r],:}"
    decreases v
  {
    if v.Arr? {
      ReadArrayText(v, p, rest);
    } else if v.Obj? {
      ReadObjectText(v, p, rest);
    } else {
      ReadScalarText(v, p, rest);
      FirstChar(v, p);
      assert (Text(v, p) + rest)[0] == Text(v, p)[0];
    }
  }

  lemma FirstChar(v: Value, p: string)
    requires HasText(v)
    ensures Text(v, p) != "" && Text(v, p)[0] !in " \t\n\r],:}"
  {
    match v
    case Int(n) =>
      ReadIntText(n, "");
      assert IntText(n) + "" == IntText(n);
      StartOfNumber(IntText(n));
    case Float(l) =>
      ReadFloatText(l, "");
      assert l + "" == l;
      StartOfNumber(l);
    case _ =>
  }

  lemma StartOfNumber(s: string)
    requires StartsNumber(s)
    ensures s[0] !in " \t\n\r],:}"
  {
  }

  lemma {:induction false} ReadArrayText(v: Value, p: string, rest: string)
    requires v.Arr? && HasText(v) && IsBlank(p)
    ensures ReadValue(Text(v, p) + rest) == Good(v, rest)
    decreases v, |v.items| + 1
  {
    var body := if v.items == [] then "]" else ItemsText(v, 0, p);
    Assoc("[", p + body, rest);
    Assoc(p, body, rest);
    OpenArray(p + (body + rest));
    if v.items == [] {
      BlankThen(p, "]" + rest);
      assert ("]" + rest)[1..] == rest;
    } else {
      ReadItemsText(v, 0, p, rest);
      SkipBlank(p, body + rest);
      assert v.items[0..] == v.items;
    }
  }

  lemma OpenArray(t: string)
    ensures ReadValue("[" + t) == ReadArray(SkipSpace(t))
  {
    assert ("[" + t)[1..] == t;
  }

  lemma MoreItems(t: string)
    ensures ReadMoreItems("," + t) == ReadItems(t)
  {
    assert ("," + t)[1..] == t;
  }

  lemma NoMoreItems(t: string)
    ensures ReadMoreItems("]" + t) == Good([], t)
  {
    assert ("]" + t)[1..] == t;
  }

  lemma OpenObject(t: string)
    ensures ReadValue("{" + t) == ReadObject(SkipSpace(t))
  {
    assert ("{" + t)[1..] == t;
  }

  lemma MoreMembers(t: string)
    ensures ReadMoreMembers("," + t) == ReadMembers(SkipSpace(t))
  {
    assert ("," + t)[1..] == t;
  }

  lemma NoMoreMembers(t: string)
    ensures ReadMoreMembers("}" + t) == Good([], t)
  {
    assert ("}" + t)[1..] == t;
  }

  lemma {:induction false} ReadItemsText(v: Value, i: nat, p: string, rest: string)
    requires v.Arr? && i < |v.items| && HasText(v) && IsBlank(p)
    ensures ReadItems(ItemsText(v, i, p) + rest) == Good(v.items[i..], rest)
    ensures (ItemsText(v, i, p) + rest)[0] !in " \t\n\r],:}"
    decreases v, |v.items| - i, 1
  {
    var tail := ItemsTail(v, i, p) + rest;
    ReadItemsTail(v, i, p, rest);
    BlankThen(p, tail);
    ReadTextBack(v.items[i], p, p + tail);
    Assoc(p, ItemsTail(v, i, p), rest);
    Assoc(Text(v.items[i], p), p + ItemsTail(v, i, p), rest);
    ReadItemsJoin(v.items[i], v.items[i + 1..], Text(v.items[i], p) + (p + tail), p + tail, rest);
    assert v.items[i..] == [v.items[i]] + v.items[i + 1..];
  }

  lemma ReadItemsJoin(x: Value, xs: seq<Value>, s: string, tail: string, rest: string)
    requires ReadValue(s) == Good(x, tail) && ReadMoreItems(SkipSpace(tail)) == Good(xs, rest)
    ensures ReadItems(s) == Good([x] + xs, rest)
  {
  }

  /** What follows an item: the closing bracket, or a comma and the items after it. */
  lemma {:induction false} ReadItemsTail(v: Value, i: nat, p: string, rest: string)
    requires v.Arr? && i < |v.items| && HasText(v) && IsBlank(p)
    ensures ReadMoreItems(ItemsTail(v, i, p) + rest) == Good(v.items[i + 1..], rest)
    ensures (ItemsTail(v, i, p) + rest)[0] in ",]"
    decreases v, |v.items| - i, 0
  {
    if i + 1 == |v.items| {
      NoMoreItems(rest);
      assert v.items[i + 1..] == [];
    } else {
      var next := ItemsText(v, i + 1, p) + rest;
      ReadItemsText(v, i + 1, p, rest);
      Assoc(",", p + ItemsText(v, i + 1, p), rest);
      Assoc(p, ItemsText(v, i + 1, p), rest);
      MoreItems(p + next);
      SkipBlank(p, next);
      ReadItemsSkips(p + next, next);
    }
  }

  lemma ReadItemsSkips(s: string, t: string)
    requires SkipSpace(s) == t && SkipSpace(t) == t
    ensures ReadItems(s) == ReadItems(t)
  {
  }

  lemma {:induction false} ReadObjectText(v: Value, p: string, rest: string)
    requires v.Obj? && HasText(v) && IsBlank(p)
    ensures ReadValue(Text(v, p) + rest) == Good(v, rest)
    decreases v, |v.members| + 1
  {
    var body := if v.members == [] then "}" else MembersText(v, 0, p);
    Assoc("{", p + body, rest);
    Assoc(p, body, rest);
    OpenObject(p + (body + rest));
    if v.members == [] {
      BlankThen(p, "}" + rest);
      assert ("}" + rest)[1..] == rest;
    } else {
      ReadMembersText(v, 0, p, rest);
      SkipBlank(p, body + rest);
      assert v.members[0..] == v.members;
    }
  }

  lemma {:induction false} ReadMembersText(v: Value, i: nat, p: string, rest: string)
    requires v.Obj? && i < |v.members| && HasText(v) && IsBlank(p)
    ensures ReadMembers(MembersText(v, i, p) + rest) == Good(v.members[i..], rest)
    ensures (MembersText(v, i, p) + rest)[0] == '"'
    decreases v, |v.members| - i, 1
  {
    var m, text, tail := v.members[i], Text(v.members[i].value, p), MembersTail(v, i, p) + rest;
    ReadMembersTail(v, i, p, rest);
    BlankThen(p, tail);
    ReadTextBack(m.value, p, p + tail);
    ReadMembersOf(m, v.members[i + 1..], text, p, MembersTail(v, i, p), rest);
    assert v.members[i..] == [m] + v.members[i + 1..];
  }

  lemma ReadMembersOf(m: Member, ms: seq<Member>, text: string, p: string, tail: string, rest: string)
    requires IsBlank(p) && text != "" && text[0] !in " \t\n\r"
    requires ReadValue(text + (p + (tail + rest))) == Good(m.value, p + (tail + rest))
    requires SkipSpace(p + (tail + rest)) == tail + rest && ReadMoreMembers(tail + rest) == Good(ms, rest)
    ensures ReadMembers(Quoted(m.key) + (p + (":" + (p + (text + (p + tail))))) + rest) == Good([m] + ms, rest)
  {
    ReadMemberText(m, text, p, p + (tail + rest));
    JoinMember(Quoted(m.key), p, text, tail, rest);
  }

  lemma MoreMembersOf(ms: seq<Member>, text: string, p: string, rest: string)
    requires IsBlank(p) && text + rest != "" && (text + rest)[0] == '"' && ReadMembers(text + rest) == Good(ms, rest)
    ensures ReadMoreMembers("," + (p + text) + rest) == Good(ms, rest)
  {
    Assoc(",", p + text, rest);
    Assoc(p, text, rest);
    MoreMembers(p + (text + rest));
    SkipBlank(p, text + rest);
  }

  /** What follows a member: the closing brace, or a comma and the members after it. */
  lemma {:induction false} ReadMembersTail(v: Value, i: nat, p: string, rest: string)
    requires v.Obj? && i < |v.members| && HasText(v) && IsBlank(p)
    ensures ReadMoreMembers(MembersTail(v, i, p) + rest) == Good(v.members[i + 1..], rest)
    ensures (MembersTail(v, i, p) + rest)[0] in ",}"
    decreases v, |v.members| - i, 0
  {
    if i + 1 == |v.members| {
      NoMoreMembers(rest);
      assert v.members[i + 1..] == [];
    } else {
      ReadMembersText(v, i + 1, p, rest);
      MoreMembersOf(v.members[i + 1..], MembersText(v, i + 1, p), p, rest);
    }
  }

  lemma JoinMember(key: string, p: string, value: string, tail: string, rest: string)
    ensures key + (p + (":" + (p + (value + (p + tail))))) + rest ==
            key + (p + (":" + (p + (value + (p + (tail + rest))))))
  {
    Assoc(p, tail, rest);
    Assoc(value, p + tail, rest);
    Assoc(p, value + (p + tail), rest);
    Assoc(":", p + (value + (p + tail)), rest);
    Assoc(p, ":" + (p + (value + (p + tail))), rest);
    Assoc(key, p + (":" + (p + (value + (p + tail)))), rest);
  }

  lemma ReadMemberText(m: Member, text: string, p: string, tail: string)
    requires IsBlank(p) && ReadValue(text + tail) == Good(m.value, tail)
    requires text != "" && text[0] !in " \t\n\r"
    ensures ReadMember(Quoted(m.key) + (p + (":" + (p + (text + tail))))) == Good(m, tail)
  {
    var value := p + (text + tail);
    ReadKeyText(m.key, p, value);
    SkipBlank(p, text + tail);
    ReadValueSkips(value, text + tail);
  }

  lemma ReadValueSkips(s: string, t: string)
    requires SkipSpace(s) == t && SkipSpace(t) == t
    ensures ReadValue(s) == ReadValue(t)
  {
  }

  lemma ReadKeyText(key: string, p: string, rest: string)
    requires IsBlank(p)
    ensures ReadKey(Quoted(key) + (p + (":" + rest))) == Good(key, rest)
  {
    ReadQuoted(key, p + (":" + rest));
    BlankThen(p, ":" + rest);
    assert (":" + rest)[1..] == rest;
  }

  /** A document is its value, with white space before, inside and after it. */
  lemma DocumentOfText(v: Value, p: string)
    requires HasText(v) && IsBlank(p)
    ensures Document(p + Text(v, p) + p) == Some(v)
  {
    BlankEndsNumber(p);
    ReadTextBack(v, p, p);
    var t := Text(v, p) + p;
    Assoc(p, Text(v, p), p);
    SkipBlank(p, t);
    ReadValueSkips(p + t, t);
    SkipAllBlank(p);
  }

  lemma BlankEndsNumber(p: string)
    requires IsBlank(p)
    ensures EndsNumber(p)
  {
  }

  lemma {:induction false} SkipAllBlank(p: string)
    requires IsBlank(p)
    ensures SkipSpace(p) == ""
  {
    if p != "" { SkipAllBlank(p[1..]); }
  }
}
