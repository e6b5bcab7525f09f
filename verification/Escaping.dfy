/** `jsonEscape` (src/state.cpp) and what it guarantees for every byte string. */
module Escaping {
  import opened Wrappers
  import opened Utf8
  import opened Json

  const Backspace: char := 8 as char
  const FormFeed: char := 12 as char

  /** The letter written after the backslash for a character that is escaped. */
  function Letter(c: char): Option<char> {
    if c == Backspace then Some('b')
    else if c == FormFeed then Some('f')
    else if c == '\n' then Some('n')
    else if c == '\r' then Some('r')
    else if c == '\t' then Some('t')
    else if c == '"' || c == '\\' then Some(c)
    else None
  }

  function EscapeChar(c: char): string {
    match Letter(c)
    case Some(l) => ['\\', l]
    case None => [c]
  }

  /** Specification of `JsonEscape`: character by character. */
  function Escaped(s: string): string {
    if s == "" then "" else EscapeChar(s[0]) + Escaped(s[1..])
  }

  lemma {:induction false} EscapedConcat(a: string, b: string)
    ensures Escaped(a + b) == Escaped(a) + Escaped(b)
  {
    if a == "" {
      assert a + b == b;
    } else {
      assert (a + b)[1..] == a[1..] + b;
      EscapedConcat(a[1..], b);
    }
  }

  lemma {:induction false} EscapedLength(s: string)
    ensures |s| <= |Escaped(s)| <= 2 * |s|
  {
    if s != "" { EscapedLength(s[1..]); }
  }

  /** The loop of `jsonEscape`: the buffer never outgrows the space reserved for it. */
  method JsonEscape(s: string) returns (buffer: string)
    ensures buffer == Escaped(s)
    ensures |s| <= |buffer| <= 2 * |s|
  {
    buffer := "";
    for i := 0 to |s|
      invariant buffer == Escaped(s[..i])
    {
      assert s[..i + 1] == s[..i] + [s[i]];
      EscapedConcat(s[..i], [s[i]]);
      var c := s[i];
      if c == Backspace {
        buffer := buffer + "\\"; buffer := buffer + "b";
      } else if c == FormFeed {
        buffer := buffer + "\\"; buffer := buffer + "f";
      } else if c == '\n' {
        buffer := buffer + "\\"; buffer := buffer + "n";
      } else if c == '\r' {
        buffer := buffer + "\\"; buffer := buffer + "r";
      } else if c == '\t' {
        buffer := buffer + "\\"; buffer := buffer + "t";
      } else if c == '"' {
        buffer := buffer + "\\"; buffer := buffer + "\"";
      } else if c == '\\' {
        buffer := buffer + "\\"; buffer := buffer + "\\";
      } else {
        buffer := buffer + [c];
      }
    }
    assert s[..|s|] == s;
    EscapedLength(s);
  }

  function Meaning(letter: char): Option<char> {
    if letter == 'b' then Some(Backspace)
    else if letter == 'f' then Some(FormFeed)
    else if letter == 'n' then Some('\n')
    else if letter == 'r' then Some('\r')
    else if letter == 't' then Some('\t')
    else if letter == '"' || letter == '\\' then Some(letter)
    else None
  }

  function Prepend(c: char, s: Option<string>): Option<string> {
    match s
    case None => None
    case Some(t) => Some([c] + t)
  }

  /** Undo the seven two-character escapes; a quote or a lone backslash cannot be undone. */
  function Unescaped(s: string): Option<string>
    decreases |s|
  {
    if s == "" then Some("")
    else if s[0] == '"' then None
    else if s[0] != '\\' then Prepend(s[0], Unescaped(s[1..]))
    else if |s| == 1 || Meaning(s[1]) == None then None
    else Prepend(Meaning(s[1]).value, Unescaped(s[2..]))
  }

  lemma MeaningOfLetter(c: char)
    requires Letter(c).Some?
    ensures Meaning(Letter(c).value) == Some(c)
  {
  }

  lemma UnescapedLetter(l: char, t: string)
    requires Meaning(l).Some?
    ensures Unescaped(['\\', l] + t) == Prepend(Meaning(l).value, Unescaped(t))
  {
    assert (['\\', l] + t)[2..] == t;
  }

  lemma UnescapedPlain(c: char, t: string)
    requires c != '"' && c != '\\'
    ensures Unescaped([c] + t) == Prepend(c, Unescaped(t))
  {
    assert ([c] + t)[1..] == t;
  }

  lemma UnescapedStep(c: char, t: string)
    ensures Unescaped(EscapeChar(c) + t) == Prepend(c, Unescaped(t))
  {
    if Letter(c).Some? {
      MeaningOfLetter(c);
      UnescapedLetter(Letter(c).value, t);
    } else {
      UnescapedPlain(c, t);
    }
  }

  /** For every byte string the escaped form is closed (no bare quote, no dangling
      backslash) and undoing it gives the string back. */
  lemma {:induction false} UnescapedEscaped(s: string)
    ensures Unescaped(Escaped(s)) == Some(s)
  {
    if s != "" {
      UnescapedEscaped(s[1..]);
      UnescapedStep(s[0], Escaped(s[1..]));
      assert [s[0]] + s[1..] == s;
    }
  }

  /** Different strings never print alike. */
  lemma EscapedInjective(a: string, b: string)
    requires Escaped(a) == Escaped(b)
    ensures a == b
  {
    UnescapedEscaped(a);
    UnescapedEscaped(b);
  }

  /** A control character that the printer copies through and a JSON reader refuses. */
  predicate IsRawControl(c: char) { c < ' ' && EscapeChar(c) == [c] }

  predicate NoRawControl(s: string) { forall c :: c in s ==> !IsRawControl(c) }

  function PrependParsed(c: char, r: Parsed<string>): Parsed<string> {
    match r
    case Bad => Bad
    case Good(t, rest) => Good([c] + t, rest)
  }

  lemma EscapeBodyOfLetter(c: char, t: string)
    requires Letter(c).Some?
    ensures EscapeBody([Letter(c).value] + t) == Good([c], t)
  {
    assert ([Letter(c).value] + t)[1..] == t;
  }

  lemma StringBodyOfLetter(c: char, t: string)
    requires Letter(c).Some?
    ensures StringBody(['\\', Letter(c).value] + t) == PrependParsed(c, StringBody(t))
  {
    var s := ['\\', Letter(c).value] + t;
    assert s[1..] == [Letter(c).value] + t;
    EscapeBodyOfLetter(c, t);
  }

  lemma StringBodyOfPlain(c: char, t: string)
    requires Letter(c).None?
    ensures StringBody([c] + t) == if c < ' ' then Bad else PrependParsed(c, StringBody(t))
  {
    assert ([c] + t)[1..] == t;
  }

  lemma StringBodyStep(c: char, t: string)
    ensures StringBody(EscapeChar(c) + t) ==
            (if IsRawControl(c) then Bad else PrependParsed(c, StringBody(t)))
  {
    if Letter(c).Some? {
      StringBodyOfLetter(c, t);
    } else {
      StringBodyOfPlain(c, t);
    }
  }

  /** The JSON reader takes the escaped text back exactly when it holds no raw control
      character, whatever comes after the closing quote. */
  lemma {:induction false} StringBodyOfEscaped(s: string, rest: string)
    ensures StringBody(Escaped(s) + "\"" + rest) == (if NoRawControl(s) then Good(s, rest) else Bad)
  {
    if s == "" {
      assert Escaped(s) + "\"" + rest == "\"" + rest;
      assert ("\"" + rest)[1..] == rest;
    } else {
      var tail := Escaped(s[1..]) + "\"" + rest;
      StringBodyOfEscaped(s[1..], rest);
      StringBodyStep(s[0], tail);
      assert Escaped(s) + "\"" + rest == EscapeChar(s[0]) + tail;
      assert s == [s[0]] + s[1..];
    }
  }

  /** Escaping touches only ASCII, so it neither makes nor breaks UTF-8. */
  lemma {:induction false} RunEscaped(n: Need, s: string)
    ensures Run(n, Escaped(s)) == Run(n, s)
    decreases |s|
  {
    if s != "" {
      var e := EscapeChar(s[0]);
      RunConcat(n, e, Escaped(s[1..]));
      assert s[..1] + s[1..] == s;
      RunEscaped(Next(n, s[0]), s[1..]);
      if e == [s[0]] {
        assert Run(n, e) == Next(n, s[0]);
      } else {
        RunAscii(n, e);
        assert Next(n, s[0]) == (if n == Done then Done else Broken);
      }
    }
  }
}
