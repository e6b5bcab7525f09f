/** JSON documents and a character-level reader for them (RFC 8259, sections 2 to 7).

    Readers take the text that is left and return a value with the text after it.
    As in the library the runtime uses, integers outside the 64-bit ranges make the
    whole document unreadable and object members keep their order and duplicates. */
module Json {
  import opened Wrappers
  import opened Decimal

  datatype Value =
    | Null
    | Bool(flag: bool)
    | Int(n: int)
    | Float(lexeme: string)
    | Str(s: string)
    | Arr(items: seq<Value>)
    | Obj(members: seq<Member>)

  datatype Member = Member(key: string, value: Value)

  const MinInt64: int := -0x8000_0000_0000_0000
  const MaxUint64: int := 0xFFFF_FFFF_FFFF_FFFF

  datatype Parsed<+T> = Bad | Good(value: T, rest: string)

  predicate IsSpace(c: char) { c == ' ' || c == '\t' || c == '\n' || c == '\r' }

  function SkipSpace(s: string): (r: string)
    ensures |r| <= |s|
    ensures r != "" ==> !IsSpace(r[0])
  {
    if s != "" && IsSpace(s[0]) then SkipSpace(s[1..]) else s
  }

  // ---- strings (section 7) ----

  function HexDigit(c: char): Option<nat> {
    if '0' <= c <= '9' then Some(c as int - '0' as int)
    else if 'a' <= c <= 'f' then Some(c as int - 'a' as int + 10)
    else if 'A' <= c <= 'F' then Some(c as int - 'A' as int + 10)
    else None
  }

  function Hex4(s: string): (r: Parsed<nat>)
    ensures r.Good? ==> r.value < 0x1_0000 && |s| >= 4 && r.rest == s[4..]
  {
    if |s| < 4 then Bad else
    match (HexDigit(s[0]), HexDigit(s[1]), HexDigit(s[2]), HexDigit(s[3]))
    case (Some(a), Some(b), Some(c), Some(d)) =>
      if a < 16 && b < 16 && c < 16 && d < 16 then Good(4096 * a + 256 * b + 16 * c + d, s[4..]) else Bad
    case _ => Bad
  }

  /** The UTF-8 code units of a code point. */
  function Encode(cp: nat): string
    requires cp < 0x11_0000
  {
    if cp < 0x80 then [cp as char]
    else if cp < 0x800 then [(0xC0 + cp / 0x40) as char, (0x80 + cp % 0x40) as char]
    else if cp < 0x1_0000 then
      [(0xE0 + cp / 0x1000) as char, (0x80 + cp / 0x40 % 0x40) as char, (0x80 + cp % 0x40) as char]
    else
      [(0xF0 + cp / 0x4_0000) as char, (0x80 + cp / 0x1000 % 0x40) as char,
       (0x80 + cp / 0x40 % 0x40) as char, (0x80 + cp % 0x40) as char]
  }

  /** A \u escape after the letter u; surrogates must come as a pair. */
  function UnicodeEscape(s: string): (r: Parsed<string>)
    ensures r.Good? ==> |r.rest| < |s|
  {
    var hi := Hex4(s);
    if hi.Bad? then Bad
    else if hi.value < 0xD800 || 0xE000 <= hi.value then Good(Encode(hi.value), hi.rest)
    else if hi.value >= 0xDC00 then Bad
    else if |hi.rest| < 2 || hi.rest[..2] != "\\u" then Bad
    else
      var lo := Hex4(hi.rest[2..]);
      if lo.Bad? || lo.value < 0xDC00 || 0xE000 <= lo.value then Bad
      else Good(Encode(0x1_0000 + (hi.value - 0xD800) * 0x400 + (lo.value - 0xDC00)), lo.rest)
  }

  /** An escape after its backslash. */
  function EscapeBody(s: string): (r: Parsed<string>)
    ensures r.Good? ==> |r.rest| < |s|
  {
    if s == "" then Bad
    else if s[0] == '"' || s[0] == '\\' || s[0] == '/' then Good([s[0]], s[1..])
    else if s[0] == 'b' then Good([8 as char], s[1..])
    else if s[0] == 'f' then Good([12 as char], s[1..])
    else if s[0] == 'n' then Good("\n", s[1..])
    else if s[0] == 'r' then Good("\r", s[1..])
    else if s[0] == 't' then Good("\t", s[1..])
    else if s[0] == 'u' then UnicodeEscape(s[1..])
    else Bad
  }

  /** A string after its opening quote. */
  function StringBody(s: string): (r: Parsed<string>)
    ensures r.Good? ==> |r.rest| < |s|
    decreases |s|
  {
    if s == "" then Bad
    else if s[0] == '"' then Good("", s[1..])
    else if s[0] < ' ' then Bad
    else
      var head := if s[0] == '\\' then EscapeBody(s[1..]) else Good([s[0]], s[1..]);
      if head.Bad? then Bad else
      var tail := StringBody(head.rest);
      if tail.Bad? then Bad else Good(head.value + tail.value, tail.rest)
  }

  // ---- numbers (section 6) ----

  function Exponent(s: string): (r: Parsed<string>)
    ensures r.Good? ==> |r.rest| <= |s|
  {
    if s == "" || (s[0] != 'e' && s[0] != 'E') then Good("", s)
    else
      var sign := if |s| > 1 && (s[1] == '+' || s[1] == '-') then 2 else 1;
      var n := Span(s[sign..]);
      if n == 0 then Bad else Good(s[..sign + n], s[sign + n..])
  }

  function Fraction(s: string): (r: Parsed<string>)
    ensures r.Good? ==> |r.rest| <= |s|
  {
    if s == "" || s[0] != '.' then Good("", s)
    else
      var n := Span(s[1..]);
      if n == 0 then Bad else Good(s[..1 + n], s[1 + n..])
  }

  /** A number without its sign. */
  function Unsigned(negative: bool, s: string): (r: Parsed<Value>)
    ensures r.Good? ==> |r.rest| < |s| && (r.value.Int? || r.value.Float?)
  {
    var n := Span(s);
    if n == 0 || (n > 1 && s[0] == '0') then Bad else
    var frac := Fraction(s[n..]);
    if frac.Bad? then Bad else
    var exp := Exponent(frac.rest);
    if exp.Bad? then Bad
    else
      match NumberOf(negative, s[..n], frac.value, exp.value)
      case None => Bad
      case Some(v) => Good(v, exp.rest)
  }

  /** The number that digits, fraction and exponent stand for; an integer must fit 64 bits. */
  function NumberOf(negative: bool, digits: string, frac: string, exp: string): (r: Option<Value>)
    requires AllDigits(digits)
    ensures r.Some? ==> r.value.Int? || r.value.Float?
  {
    if frac != "" || exp != "" then Some(Float((if negative then "-" else "") + digits + frac + exp))
    else
      var magnitude: int := NatValue(digits);
      var v := if negative then -magnitude else magnitude;
      if MinInt64 <= v <= MaxUint64 then Some(Int(v)) else None
  }

  function Number(s: string): (r: Parsed<Value>)
    ensures r.Good? ==> |r.rest| < |s| && (r.value.Int? || r.value.Float?)
  {
    if s != "" && s[0] == '-' then Unsigned(true, s[1..]) else Unsigned(false, s)
  }

  // ---- values (sections 3 to 5) ----

  function Literal(s: string, word: string, v: Value): (r: Parsed<Value>)
    requires word != ""
    ensures r.Good? ==> |r.rest| < |s| && r.value == v
  {
    if |word| <= |s| && s[..|word|] == word then Good(v, s[|word|..]) else Bad
  }

  /** A string, a literal name or a number; the text starts with its first character. */
  function ReadScalar(s: string): (r: Parsed<Value>)
    ensures r.Good? ==> |r.rest| < |s| && !r.value.Obj? && !r.value.Arr?
  {
    if s == "" then Bad
    else if s[0] == '"' then
      var t := StringBody(s[1..]);
      if t.Bad? then Bad else Good(Str(t.value), t.rest)
    else if s[0] == 't' then Literal(s, "true", Bool(true))
    else if s[0] == 'f' then Literal(s, "false", Bool(false))
    else if s[0] == 'n' then Literal(s, "null", Null)
    else Number(s)
  }

  function ReadValue(s0: string): (r: Parsed<Value>)
    ensures r.Good? ==> |r.rest| < |s0|
    decreases |s0|, 2
  {
    var s := SkipSpace(s0);
    if s != "" && s[0] == '{' then ReadObject(SkipSpace(s[1..]))
    else if s != "" && s[0] == '[' then ReadArray(SkipSpace(s[1..]))
    else ReadScalar(s)
  }

  /** An object after its opening brace. */
  function ReadObject(s: string): (r: Parsed<Value>)
    ensures r.Good? ==> |r.rest| < |s|
    decreases |s|, 5
  {
    if s != "" && s[0] == '}' then Good(Obj([]), s[1..])
    else
      var ms := ReadMembers(s);
      if ms.Bad? then Bad else Good(Obj(ms.value), ms.rest)
  }

  /** An array after its opening bracket. */
  function ReadArray(s: string): (r: Parsed<Value>)
    ensures r.Good? ==> |r.rest| < |s|
    decreases |s|, 5
  {
    if s != "" && s[0] == ']' then Good(Arr([]), s[1..])
    else
      var xs := ReadItems(s);
      if xs.Bad? then Bad else Good(Arr(xs.value), xs.rest)
  }

  /** A member's key and the colon after it. */
  function ReadKey(s: string): (r: Parsed<string>)
    ensures r.Good? ==> |r.rest| < |s|
  {
    if s == "" || s[0] != '"' then Bad else
    var key := StringBody(s[1..]);
    if key.Bad? then Bad else
    var colon := SkipSpace(key.rest);
    if colon == "" || colon[0] != ':' then Bad else Good(key.value, colon[1..])
  }

  function ReadMember(s: string): (r: Parsed<Member>)
    ensures r.Good? ==> |r.rest| < |s|
    decreases |s|, 1
  {
    var key := ReadKey(s);
    if key.Bad? then Bad else
    var v := ReadValue(key.rest);
    if v.Bad? then Bad else Good(Member(key.value, v.value), v.rest)
  }

  /** One or more members and the closing brace. */
  function ReadMembers(s: string): (r: Parsed<seq<Member>>)
    ensures r.Good? ==> |r.rest| < |s|
    decreases |s|, 3
  {
    var m := ReadMember(s);
    if m.Bad? then Bad else
    var more := ReadMoreMembers(SkipSpace(m.rest));
    if more.Bad? then Bad else Good([m.value] + more.value, more.rest)
  }

  /** What follows a member: the closing brace, or a comma and more members. */
  function ReadMoreMembers(s: string): (r: Parsed<seq<Member>>)
    ensures r.Good? ==> |r.rest| < |s|
    decreases |s|, 4
  {
    if s == "" then Bad
    else if s[0] == '}' then Good([], s[1..])
    else if s[0] == ',' then ReadMembers(SkipSpace(s[1..]))
    else Bad
  }

  /** One or more array items and the closing bracket. */
  function ReadItems(s: string): (r: Parsed<seq<Value>>)
    ensures r.Good? ==> |r.rest| < |s|
    decreases |s|, 3
  {
    var v := ReadValue(s);
    if v.Bad? then Bad else
    var more := ReadMoreItems(SkipSpace(v.rest));
    if more.Bad? then Bad else Good([v.value] + more.value, more.rest)
  }

  /** What follows an item: the closing bracket, or a comma and more items. */
  function ReadMoreItems(s: string): (r: Parsed<seq<Value>>)
    ensures r.Good? ==> |r.rest| < |s|
    decreases |s|, 4
  {
    if s == "" then Bad
    else if s[0] == ']' then Good([], s[1..])
    else if s[0] == ',' then ReadItems(s[1..])
    else Bad
  }

  /** A whole document: one value with nothing but white space after it. */
  function Document(s: string): Option<Value> {
    var v := ReadValue(s);
    if v.Bad? || SkipSpace(v.rest) != "" then None else Some(v.value)
  }

  /** The first member with the given key, as key lookup finds it. */
  function Find(ms: seq<Member>, key: string): Option<Value> {
    if ms == [] then None
    else if ms[0].key == key then Some(ms[0].value)
    else Find(ms[1..], key)
  }

  lemma Assoc(a: string, b: string, c: string)
    ensures a + b + c == a + (b + c)
  {
  }

  // ---- reading is stable under more text ----

  lemma {:induction false} SkipSpaceExtend(s: string, q: string)
    requires SkipSpace(s) != ""
    ensures SkipSpace(s + q) == SkipSpace(s) + q
  {
    if IsSpace(s[0]) {
      assert (s + q)[1..] == s[1..] + q;
      SkipSpaceExtend(s[1..], q);
    }
  }

  lemma Hex4Extend(s: string, q: string)
    requires Hex4(s).Good?
    ensures Hex4(s + q) == Good(Hex4(s).value, Hex4(s).rest + q)
  {
    assert (s + q)[4..] == s[4..] + q;
  }

  lemma UnicodeEscapeExtend(s: string, q: string)
    requires UnicodeEscape(s).Good?
    ensures UnicodeEscape(s + q) == Good(UnicodeEscape(s).value, UnicodeEscape(s).rest + q)
  {
    Hex4Extend(s, q);
    var hi := Hex4(s);
    if 0xD800 <= hi.value < 0xDC00 {
      assert (hi.rest + q)[..2] == hi.rest[..2];
      assert (hi.rest + q)[2..] == hi.rest[2..] + q;
      Hex4Extend(hi.rest[2..], q);
    }
  }

  lemma EscapeBodyExtend(s: string, q: string)
    requires EscapeBody(s).Good?
    ensures EscapeBody(s + q) == Good(EscapeBody(s).value, EscapeBody(s).rest + q)
  {
    if s[0] == 'u' {
      UnicodeBody(s, s[1..], EscapeBody(s));
      UnicodeEscapeExtend(s[1..], q);
      UnicodeBody(s + q, s[1..] + q, Good(EscapeBody(s).value, EscapeBody(s).rest + q));
    } else {
      ShortBodyExtend(s, q);
    }
  }

  lemma UnicodeBody(s: string, t: string, r: Parsed<string>)
    requires s == "u" + t
    ensures EscapeBody(s) == r <==> UnicodeEscape(t) == r
  {
    assert s[1..] == t;
  }

  lemma ShortBodyExtend(s: string, q: string)
    requires EscapeBody(s).Good? && s[0] != 'u'
    ensures EscapeBody(s + q) == Good(EscapeBody(s).value, EscapeBody(s).rest + q)
  {
    assert (s + q)[1..] == s[1..] + q;
  }

  lemma {:induction false} StringBodyExtend(s: string, q: string)
    requires StringBody(s).Good?
    ensures StringBody(s + q) == Good(StringBody(s).value, StringBody(s).rest + q)
    decreases |s|
  {
    assert (s + q)[1..] == s[1..] + q;
    if s[0] != '"' {
      if s[0] == '\\' {
        EscapeBodyExtend(s[1..], q);
        StringBodyExtend(EscapeBody(s[1..]).rest, q);
      } else {
        StringBodyExtend(s[1..], q);
      }
    }
  }

  lemma TakeDrop(s: string, q: string, n: nat)
    requires n <= |s|
    ensures (s + q)[..n] == s[..n] && (s + q)[n..] == s[n..] + q
  {
  }

  lemma ExponentExtend(s: string, q: string)
    requires Exponent(s).Good? && Exponent(s).rest != ""
    ensures Exponent(s + q) == Good(Exponent(s).value, Exponent(s).rest + q)
  {
    if s[0] == 'e' || s[0] == 'E' {
      var sign := if |s| > 1 && (s[1] == '+' || s[1] == '-') then 2 else 1;
      var n := Span(s[sign..]);
      TakeDrop(s, q, sign);
      SpanExtend(s[sign..], q);
      TakeDrop(s, q, sign + n);
    }
  }

  lemma FractionExtend(s: string, q: string)
    requires Fraction(s).Good? && Fraction(s).rest != ""
    ensures Fraction(s + q) == Good(Fraction(s).value, Fraction(s).rest + q)
  {
    if s[0] == '.' {
      var n := Span(s[1..]);
      TakeDrop(s, q, 1);
      SpanExtend(s[1..], q);
      TakeDrop(s, q, 1 + n);
    }
  }

  lemma UnsignedExtend(negative: bool, s: string, q: string)
    requires Unsigned(negative, s).Good? && Unsigned(negative, s).rest != ""
    ensures Unsigned(negative, s + q) == Good(Unsigned(negative, s).value, Unsigned(negative, s).rest + q)
  {
    var n := Span(s);
    var frac := Fraction(s[n..]);
    SpanExtend(s, q);
    TakeDrop(s, q, n);
    FractionExtend(s[n..], q);
    ExponentExtend(frac.rest, q);
  }

  lemma NumberExtend(s: string, q: string)
    requires Number(s).Good? && Number(s).rest != ""
    ensures Number(s + q) == Good(Number(s).value, Number(s).rest + q)
  {
    assert (s + q)[1..] == s[1..] + q;
    UnsignedExtend(s[0] == '-', if s[0] == '-' then s[1..] else s, q);
  }

  lemma LiteralExtend(s: string, q: string, word: string, v: Value)
    requires word != "" && Literal(s, word, v).Good?
    ensures Literal(s + q, word, v) == Good(v, Literal(s, word, v).rest + q)
  {
    assert (s + q)[..|word|] == s[..|word|];
    assert (s + q)[|word|..] == s[|word|..] + q;
  }

  lemma ReadKeyExtend(s: string, q: string)
    requires ReadKey(s).Good?
    ensures ReadKey(s + q) == Good(ReadKey(s).value, ReadKey(s).rest + q)
  {
    assert (s + q)[1..] == s[1..] + q;
    StringBodyExtend(s[1..], q);
    var key := StringBody(s[1..]);
    var colon := SkipSpace(key.rest);
    SkipSpaceExtend(key.rest, q);
    assert (colon + q)[1..] == colon[1..] + q;
  }

  predicate SelfDelimiting(v: Value) { !v.Int? && !v.Float? }

  lemma ReadScalarExtend(s: string, q: string)
    requires ReadScalar(s).Good?
    requires ReadScalar(s).rest != "" || SelfDelimiting(ReadScalar(s).value)
    ensures ReadScalar(s + q) == Good(ReadScalar(s).value, ReadScalar(s).rest + q)
  {
    assert (s + q)[1..] == s[1..] + q;
    if s[0] == '"' {
      StringBodyExtend(s[1..], q);
    } else if s[0] == 't' {
      LiteralExtend(s, q, "true", Bool(true));
    } else if s[0] == 'f' {
      LiteralExtend(s, q, "false", Bool(false));
    } else if s[0] == 'n' {
      LiteralExtend(s, q, "null", Null);
    } else {
      NumberExtend(s, q);
    }
  }

  /** A value that was read, and is known to be complete, is read the same way when
      more text follows. Only a number at the very end of the text can still grow. */
  lemma {:induction false} ReadValueExtend(s0: string, q: string)
    requires ReadValue(s0).Good?
    requires ReadValue(s0).rest != "" || SelfDelimiting(ReadValue(s0).value)
    ensures ReadValue(s0 + q) == Good(ReadValue(s0).value, ReadValue(s0).rest + q)
    decreases |s0|, 2
  {
    var s := SkipSpace(s0);
    SkipSpaceExtend(s0, q);
    assert (s + q)[1..] == s[1..] + q;
    if s[0] == '{' {
      SkipSpaceExtend(s[1..], q);
      ReadObjectExtend(SkipSpace(s[1..]), q);
    } else if s[0] == '[' {
      SkipSpaceExtend(s[1..], q);
      ReadArrayExtend(SkipSpace(s[1..]), q);
    } else {
      ReadScalarExtend(s, q);
    }
  }

  lemma {:induction false} ReadObjectExtend(s: string, q: string)
    requires ReadObject(s).Good?
    ensures ReadObject(s + q) == Good(ReadObject(s).value, ReadObject(s).rest + q)
    decreases |s|, 5
  {
    assert (s + q)[1..] == s[1..] + q;
    if s[0] != '}' { ReadMembersExtend(s, q); }
  }

  lemma {:induction false} ReadArrayExtend(s: string, q: string)
    requires ReadArray(s).Good?
    ensures ReadArray(s + q) == Good(ReadArray(s).value, ReadArray(s).rest + q)
    decreases |s|, 5
  {
    assert (s + q)[1..] == s[1..] + q;
    if s[0] != ']' { ReadItemsExtend(s, q); }
  }

  lemma {:induction false} ReadMemberExtend(s: string, q: string)
    requires ReadMember(s).Good? && ReadMember(s).rest != ""
    ensures ReadMember(s + q) == Good(ReadMember(s).value, ReadMember(s).rest + q)
    decreases |s|, 1
  {
    ReadKeyExtend(s, q);
    ReadValueExtend(ReadKey(s).rest, q);
  }

  lemma {:induction false} ReadMembersExtend(s: string, q: string)
    requires ReadMembers(s).Good?
    ensures ReadMembers(s + q) == Good(ReadMembers(s).value, ReadMembers(s).rest + q)
    decreases |s|, 3
  {
    var m := ReadMember(s);
    ReadMemberExtend(s, q);
    SkipSpaceExtend(m.rest, q);
    ReadMoreMembersExtend(SkipSpace(m.rest), q);
  }

  lemma {:induction false} ReadMoreMembersExtend(s: string, q: string)
    requires ReadMoreMembers(s).Good?
    ensures ReadMoreMembers(s + q) == Good(ReadMoreMembers(s).value, ReadMoreMembers(s).rest + q)
    decreases |s|, 4
  {
    assert (s + q)[1..] == s[1..] + q;
    if s[0] == ',' {
      SkipSpaceExtend(s[1..], q);
      ReadMembersExtend(SkipSpace(s[1..]), q);
    }
  }

  lemma {:induction false} ReadItemsExtend(s: string, q: string)
    requires ReadItems(s).Good?
    ensures ReadItems(s + q) == Good(ReadItems(s).value, ReadItems(s).rest + q)
    decreases |s|, 3
  {
    var v := ReadValue(s);
    ReadValueExtend(s, q);
    SkipSpaceExtend(v.rest, q);
    ReadMoreItemsExtend(SkipSpace(v.rest), q);
  }

  lemma {:induction false} ReadMoreItemsExtend(s: string, q: string)
    requires ReadMoreItems(s).Good?
    ensures ReadMoreItems(s + q) == Good(ReadMoreItems(s).value, ReadMoreItems(s).rest + q)
    decreases |s|, 4
  {
    assert (s + q)[1..] == s[1..] + q;
    if s[0] == ',' {
      ReadItemsExtend(s[1..], q);
    }
  }
}
