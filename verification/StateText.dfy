/** The text of `state.json` (src/state.cpp): how it is printed and what loading it gives. */
module StateText {
  import opened Wrappers
  import opened Utf8
  import opened Decimal
  import opened Json
  import opened Escaping
  import JsonText

  datatype Status = Unknown | Creating | Created | Running | Stopped

  type Int32 = n: int | -0x8000_0000 <= n <= 0x7FFF_FFFF

  /** The values of a State object's own fields. */
  datatype View = View(
    id: string,
    bundle: string,
    cgroup: bool,
    status: Status,
    pid: Int32,
    created: string,
    started: string,
    finished: string,
    exitCode: Int32)

  /** A default-constructed State. */
  const Fresh := View("", "", false, Unknown, -1, "", "", "", 0)

  /** Printable ASCII without quote and backslash: what the clock format produces. */
  predicate IsPlain(s: string) { forall i :: 0 <= i < |s| ==> IsPlainChar(s[i]) }

  predicate IsPlainChar(c: char) { ' ' <= c < 127 as char && c != '"' && c != '\\' }

  type Timestamp = s: string | IsPlain(s)

  predicate PlainTimes(v: View) { IsPlain(v.created) && IsPlain(v.started) && IsPlain(v.finished) }

  // ---- the status setters; the clock and the process id come from outside ----

  function MarkCreating(v: View): View { v.(status := Creating) }

  function MarkCreated(v: View, now: Timestamp, pid: Int32): View {
    v.(status := Created, created := now, pid := pid)
  }

  function MarkRunning(v: View, now: Timestamp): View { v.(status := Running, started := now) }

  function MarkStopped(v: View, now: Timestamp, code: Int32): View {
    v.(status := Stopped, exitCode := code, finished := now)
  }

  // ---- status names ----

  function StatusName(s: Status): string {
    match s
    case Creating => "creating"
    case Created => "created"
    case Running => "running"
    case Stopped => "stopped"
    case Unknown => "unknown"
  }

  /** A code unit as the signed `char` that the sum below adds up. */
  function Signed(c: char): int {
    if c as int < 0x80 then c as int else c as int - 0x100
  }

  function ParseStatus(s: string): Status {
    if |s| < 6 then Unknown
    else
      var sum := Signed(s[0]) + Signed(s[5]);
      if sum == Signed('c') + Signed('i') then (if s == "creating" then Creating else Unknown)
      else if sum == Signed('c') + Signed('e') then (if s == "created" then Created else Unknown)
      else if sum == Signed('r') + Signed('n') then (if s == "running" then Running else Unknown)
      else if sum == Signed('s') + Signed('e') then (if s == "stopped" then Stopped else Unknown)
      else Unknown
  }

  /** The dispatch on the sum of two characters decides like plain string comparison:
      on every string the result is the status of that name, and Unknown otherwise. */
  lemma ParseStatusExact(s: string, k: Status)
    requires k != Unknown
    ensures ParseStatus(s) == k <==> s == StatusName(k)
  {
    assert "creating"[0] == 'c' && "creating"[5] == 'i';
    assert "created"[0] == 'c' && "created"[5] == 'e';
    assert "running"[0] == 'r' && "running"[5] == 'n';
    assert "stopped"[0] == 's' && "stopped"[5] == 'e';
  }

  // ---- printing ----

  predicate HasPid(s: Status) { s == Created || s == Running }
  predicate HasCreated(s: Status) { s == Created || s == Running || s == Stopped }
  predicate HasStarted(s: Status) { s == Running || s == Stopped }

  function KeyText(key: string): string { "\"" + key + "\":" }

  /** The close of one string member and the start of the next. */
  function NextKey(key: string): string { "\"" + "," + (KeyText(key) + "\"") }

  function HeadText(v: View): string {
    "{\"ociVersion\":\"" + "1.0.2" + NextKey("id") + Escaped(v.id)
    + NextKey("status") + StatusName(v.status) + NextKey("bundle") + Escaped(v.bundle)
    + ("\"" + "," + KeyText("systemd-cgroup")) + (if v.cgroup then "true" else "false")
  }

  function PidText(v: View): string {
    if HasPid(v.status) then ",\"pid\":" + IntText(v.pid) else ""
  }

  function CreatedText(v: View): string {
    if HasCreated(v.status) then ",\"created\":\"" + v.created + "\"" else ""
  }

  function StartedText(v: View): string {
    if HasStarted(v.status) then ",\"started\":\"" + v.started + "\"" else ""
  }

  function StoppedText(v: View): string {
    if v.status == Stopped then
      ",\"exitCode\":" + IntText(v.exitCode) + ",\"finished\":\"" + v.finished + "\""
    else ""
  }

  /** Everything `State::print` writes. */
  function PrintText(v: View): string {
    HeadText(v) + PidText(v) + CreatedText(v) + StartedText(v) + StoppedText(v) + "}\n"
  }

  // ---- loading ----

  datatype Loaded = Loaded(ok: bool, view: View)

  /** The document a text holds: the reader checks UTF-8 before it parses. */
  function ReadText(text: string): Option<Value> {
    if WellFormed(text) then Document(text) else None
  }

  function Field(doc: Value, key: string): Option<Value> {
    if doc.Obj? then Find(doc.members, key) else None
  }

  function StringField(doc: Value, key: string): Option<string> {
    match Field(doc, key)
    case Some(Str(s)) => Some(s)
    case _ => None
  }

  function IntField(doc: Value, key: string): Option<int> {
    match Field(doc, key)
    case Some(Int(n)) => if n <= 0x7FFF_FFFF_FFFF_FFFF then Some(n) else None
    case _ => None
  }

  /** Assignment of a 64-bit integer to a 32-bit field. */
  function Narrow(n: int): Int32 {
    (n + 0x8000_0000) % 0x1_0000_0000 - 0x8000_0000
  }

  function LoadStopped(v: View, doc: Value): Loaded {
    if v.status != Stopped then Loaded(true, v)
    else match IntField(doc, "exitCode")
      case None => Loaded(false, v)
      case Some(n) =>
        var v := v.(exitCode := Narrow(n));
        match StringField(doc, "finished")
        case None => Loaded(false, v)
        case Some(s) => Loaded(true, v.(finished := s))
  }

  function LoadStarted(v: View, doc: Value): Loaded {
    if !HasStarted(v.status) then LoadStopped(v, doc)
    else match StringField(doc, "started")
      case None => Loaded(false, v)
      case Some(s) => LoadStopped(v.(started := s), doc)
  }

  function LoadCreated(v: View, doc: Value): Loaded {
    if !HasCreated(v.status) then LoadStarted(v, doc)
    else match StringField(doc, "created")
      case None => Loaded(false, v)
      case Some(s) => LoadStarted(v.(created := s), doc)
  }

  function LoadPid(v: View, doc: Value): Loaded {
    if !HasPid(v.status) then LoadCreated(v, doc)
    else match IntField(doc, "pid")
      case None => Loaded(false, v)
      case Some(n) => LoadCreated(v.(pid := Narrow(n)), doc)
  }

  function LoadIdentity(v: View, doc: Value): Loaded {
    match StringField(doc, "id")
    case None => Loaded(false, v)
    case Some(id) =>
      var v := v.(id := id);
      match StringField(doc, "bundle")
      case None => Loaded(false, v)
      case Some(bundle) =>
        var v := v.(bundle := bundle);
        match Field(doc, "systemd-cgroup")
        case Some(Bool(b)) => LoadPid(v.(cgroup := b), doc)
        case _ => Loaded(false, v)
  }

  /** `State::load` on a document, up to the bundle: fields are assigned one after the
      other and those assigned before a failure stay. */
  function LoadDocument(v: View, doc: Value): Loaded {
    if StringField(doc, "ociVersion") != Some("1.0.2") then Loaded(false, v)
    else match StringField(doc, "status")
      case None => Loaded(false, v)
      case Some(name) =>
        var v := v.(status := ParseStatus(name));
        if v.status == Unknown then Loaded(false, v) else LoadIdentity(v, doc)
  }

  function LoadText(v: View, text: string): Loaded {
    match ReadText(text)
    case None => Loaded(false, v)
    case Some(doc) => LoadDocument(v, doc)
  }

  // ---- the printed text as a list of members ----

  function HeadMembers(v: View): seq<Member> {
    [Member("ociVersion", Str("1.0.2")), Member("id", Str(v.id)),
     Member("status", Str(StatusName(v.status))), Member("bundle", Str(v.bundle)),
     Member("systemd-cgroup", Bool(v.cgroup))]
  }

  function PidMembers(v: View): seq<Member> {
    if HasPid(v.status) then [Member("pid", Int(v.pid))] else []
  }

  function CreatedMembers(v: View): seq<Member> {
    if HasCreated(v.status) then [Member("created", Str(v.created))] else []
  }

  function StartedMembers(v: View): seq<Member> {
    if HasStarted(v.status) then [Member("started", Str(v.started))] else []
  }

  function StoppedMembers(v: View): seq<Member> {
    if v.status == Stopped then [Member("exitCode", Int(v.exitCode)), Member("finished", Str(v.finished))] else []
  }

  /** The members of the printed document, in order. */
  function Members(v: View): seq<Member> {
    HeadMembers(v) + PidMembers(v) + CreatedMembers(v) + StartedMembers(v) + StoppedMembers(v)
  }

  predicate IsFlat(m: Member) {
    IsPlain(m.key) && (m.value.Str? || m.value.Bool? || (m.value.Int? && -0x8000_0000 <= m.value.n <= 0x7FFF_FFFF))
  }

  function ValueText(x: Value): string {
    match x
    case Str(s) => "\"" + Escaped(s) + "\""
    case Bool(b) => if b then "true" else "false"
    case Int(n) => IntText(n)
    case _ => "null"
  }

  function MemberText(m: Member): string { KeyText(m.key) + ValueText(m.value) }

  /** Members that follow others: each with its comma in front. */
  function Pieces(ms: seq<Member>): string {
    if ms == [] then "" else "," + MemberText(ms[0]) + Pieces(ms[1..])
  }

  function MembersText(ms: seq<Member>): string {
    if ms == [] then "" else MemberText(ms[0]) + Pieces(ms[1..])
  }

  lemma {:induction false} PiecesConcat(a: seq<Member>, b: seq<Member>)
    ensures Pieces(a + b) == Pieces(a) + Pieces(b)
  {
    if a == [] {
      assert a + b == b;
      assert "" + Pieces(b) == Pieces(b);
    } else {
      assert (a + b)[1..] == a[1..] + b;
      PiecesConcat(a[1..], b);
      Assoc("," + MemberText(a[0]), Pieces(a[1..]), Pieces(b));
    }
  }

  lemma MembersTextConcat(a: seq<Member>, b: seq<Member>)
    requires a != []
    ensures MembersText(a + b) == MembersText(a) + Pieces(b)
  {
    assert (a + b)[1..] == a[1..] + b;
    PiecesConcat(a[1..], b);
    Assoc(MemberText(a[0]), Pieces(a[1..]), Pieces(b));
  }

  lemma PiecesOne(m: Member)
    ensures Pieces([m]) == "," + MemberText(m)
  {
    assert [m][1..] == [];
    assert "," + MemberText(m) + "" == "," + MemberText(m);
  }

  lemma MembersTextAppend(ms: seq<Member>, m: Member)
    requires ms != []
    ensures MembersText(ms + [m]) == MembersText(ms) + "," + MemberText(m)
  {
    MembersTextConcat(ms, [m]);
    PiecesOne(m);
    Assoc(MembersText(ms), ",", MemberText(m));
  }

  lemma {:induction false} EscapedPlain(s: string)
    requires IsPlain(s)
    ensures Escaped(s) == s && NoRawControl(s)
  {
    if s != "" {
      EscapedPlain(s[1..]);
      assert IsPlainChar(s[0]);
      assert EscapeChar(s[0]) == [s[0]];
      assert [s[0]] + s[1..] == s;
    }
  }

  /** Extending an open string member: the closing quote, the comma and the next key
      arrive together as one literal. */
  lemma NextStringMember(open: string, ms: seq<Member>, key: string, s: string, literal: string)
    requires ms != [] && open + "\"" == "{" + MembersText(ms)
    requires literal == "\"" + "," + (KeyText(key) + "\"")
    ensures open + literal + Escaped(s) + "\"" == "{" + MembersText(ms + [Member(key, Str(s))])
  {
    var m, front, k, e := Member(key, Str(s)), "{" + MembersText(ms), KeyText(key) + "\"", Escaped(s);
    calc {
      open + literal + e + "\"";
      { Assoc(open, "\"" + ",", k); Assoc(open, "\"", ","); }
      front + "," + k + e + "\"";
      { Assoc(front + ",", k, e); Assoc(front + ",", k + e, "\""); }
      front + "," + (k + e + "\"");
      { Assoc(KeyText(key), "\"", e); Assoc(KeyText(key), "\"" + e, "\""); }
      front + "," + MemberText(m);
      { Assoc("{", MembersText(ms), ","); Assoc("{", MembersText(ms) + ",", MemberText(m)); MembersTextAppend(ms, m); }
      "{" + MembersText(ms + [m]);
    }
  }

  /** A later member is printed with its comma in front. */
  lemma NextMember(front: string, ms: seq<Member>, m: Member, piece: string)
    requires ms != [] && front == "{" + MembersText(ms)
    requires piece == "," + MemberText(m)
    ensures front + piece == "{" + MembersText(ms + [m])
  {
    MembersTextAppend(ms, m);
    Assoc("{", MembersText(ms), piece);
    Assoc(MembersText(ms), ",", MemberText(m));
  }

  lemma StatusNamePlain(s: Status)
    ensures IsPlain(StatusName(s))
  {
  }

  lemma VersionPlain()
    ensures IsPlain("1.0.2")
  {
  }

  lemma VersionLiteral()
    ensures "{\"ociVersion\":\"" + "1.0.2" + "\"" == "{" + MembersText([Member("ociVersion", Str("1.0.2"))])
  {
    VersionPlain();
    EscapedPlain("1.0.2");
    assert "{\"ociVersion\":\"" == "{" + (KeyText("ociVersion") + "\"");
    Assoc("{", KeyText("ociVersion") + "\"", "1.0.2");
    Assoc("{", KeyText("ociVersion") + "\"" + "1.0.2", "\"");
    Assoc(KeyText("ociVersion"), "\"", "1.0.2");
    Assoc(KeyText("ociVersion"), "\"" + "1.0.2", "\"");
  }

  lemma MoreKeyLiterals()
    ensures ",\"pid\":" == "," + KeyText("pid")
    ensures ",\"created\":\"" == "," + (KeyText("created") + "\"")
    ensures ",\"started\":\"" == "," + (KeyText("started") + "\"")
    ensures ",\"exitCode\":" == "," + KeyText("exitCode")
    ensures ",\"finished\":\"" == "," + (KeyText("finished") + "\"")
  {
  }

  /** Four more members after the first, with the literals as given. */
  lemma FourMembers(ms: seq<Member>, h0: string, idKey: string, statusKey: string, bundleKey: string, flagKey: string)
    requires |ms| >= 5 && h0 + "\"" == "{" + MembersText([ms[0]])
    requires ms[1].value.Str? && idKey == "\"" + "," + (KeyText(ms[1].key) + "\"")
    requires ms[2].value.Str? && statusKey == "\"" + "," + (KeyText(ms[2].key) + "\"")
    requires ms[3].value.Str? && bundleKey == "\"" + "," + (KeyText(ms[3].key) + "\"")
    requires flagKey == "\"" + "," + KeyText(ms[4].key)
    ensures h0 + idKey + Escaped(ms[1].value.s) + statusKey + Escaped(ms[2].value.s)
            + bundleKey + Escaped(ms[3].value.s) + flagKey + ValueText(ms[4].value)
            == "{" + MembersText(ms[..5])
  {
    assert [ms[0]] + [ms[1]] == ms[..2] && ms[..2] + [ms[2]] == ms[..3];
    assert ms[..3] + [ms[3]] == ms[..4] && ms[..4] + [ms[4]] == ms[..5];
    NextStringMember(h0, [ms[0]], ms[1].key, ms[1].value.s, idKey);
    var h1 := h0 + idKey + Escaped(ms[1].value.s);
    NextStringMember(h1, ms[..2], ms[2].key, ms[2].value.s, statusKey);
    var h2 := h1 + statusKey + Escaped(ms[2].value.s);
    NextStringMember(h2, ms[..3], ms[3].key, ms[3].value.s, bundleKey);
    var h3 := h2 + bundleKey + Escaped(ms[3].value.s);
    FlagMember(h3, ms[..4], ms[4], flagKey);
  }

  lemma FlagMember(open: string, ms: seq<Member>, m: Member, literal: string)
    requires ms != [] && open + "\"" == "{" + MembersText(ms)
    requires literal == "\"" + "," + KeyText(m.key)
    ensures open + literal + ValueText(m.value) == "{" + MembersText(ms + [m])
  {
    var key, flag := KeyText(m.key), ValueText(m.value);
    calc {
      open + literal + flag;
      { Assoc(open, "\"" + ",", key); Assoc(open, "\"", ","); }
      open + "\"" + "," + key + flag;
      { Assoc(open + "\"" + ",", key, flag); Assoc(open + "\"", ",", MemberText(m)); }
      open + "\"" + ("," + MemberText(m));
      { NextMember(open + "\"", ms, m, "," + MemberText(m)); }
      "{" + MembersText(ms + [m]);
    }
  }

  lemma HeadAsMembers(v: View)
    ensures HeadText(v) == "{" + MembersText(HeadMembers(v))
  {
    VersionLiteral();
    StatusNamePlain(v.status);
    EscapedPlain(StatusName(v.status));
    var ms := HeadMembers(v);
    FourMembers(ms, "{\"ociVersion\":\"" + "1.0.2",
                NextKey("id"), NextKey("status"), NextKey("bundle"), "\"" + "," + KeyText("systemd-cgroup"));
    assert ms[..5] == ms;
  }

  lemma QuotedPiece(key: string, s: string)
    requires IsPlain(s)
    ensures "," + (KeyText(key) + "\"") + s + "\"" == "," + MemberText(Member(key, Str(s)))
  {
    EscapedPlain(s);
    var k := KeyText(key);
    Assoc(",", k + "\"", s);
    Assoc(",", k + "\"" + s, "\"");
    Assoc(k, "\"", s);
    Assoc(k, "\"" + s, "\"");
  }

  lemma NumberPiece(key: string, n: int)
    ensures "," + KeyText(key) + IntText(n) == "," + MemberText(Member(key, Int(n)))
  {
    Assoc(",", KeyText(key), IntText(n));
  }

  /** The status-dependent pieces are exactly the status-dependent members. */
  lemma PiecesAsMembers(v: View)
    requires PlainTimes(v)
    ensures PidText(v) == Pieces(PidMembers(v))
    ensures CreatedText(v) == Pieces(CreatedMembers(v))
    ensures StartedText(v) == Pieces(StartedMembers(v))
  {
    MoreKeyLiterals();
    NumberPiece("pid", v.pid);
    PiecesOne(Member("pid", Int(v.pid)));
    QuotedPiece("created", v.created);
    PiecesOne(Member("created", Str(v.created)));
    QuotedPiece("started", v.started);
    PiecesOne(Member("started", Str(v.started)));
  }

  lemma StoppedAsMembers(v: View)
    requires PlainTimes(v)
    ensures StoppedText(v) == Pieces(StoppedMembers(v))
  {
    if v.status == Stopped {
      MoreKeyLiterals();
      NumberPiece("exitCode", v.exitCode);
      QuotedPiece("finished", v.finished);
      var a, b := Member("exitCode", Int(v.exitCode)), Member("finished", Str(v.finished));
      var exit, k := "," + KeyText("exitCode") + IntText(v.exitCode), "," + (KeyText("finished") + "\"");
      Assoc(exit, k, v.finished);
      Assoc(exit, k + v.finished, "\"");
      PiecesOne(a);
      PiecesOne(b);
      PiecesConcat([a], [b]);
      assert StoppedMembers(v) == [a] + [b];
    }
  }

  /** Text made of a head and four runs of pieces. */
  lemma JoinPieces(head: string, h: seq<Member>, a: seq<Member>, b: seq<Member>, c: seq<Member>, d: seq<Member>)
    requires h != [] && head == "{" + MembersText(h)
    ensures head + Pieces(a) + Pieces(b) + Pieces(c) + Pieces(d) == "{" + MembersText(h + a + b + c + d)
  {
    MembersTextConcat(h, a);
    Assoc("{", MembersText(h), Pieces(a));
    MembersTextConcat(h + a, b);
    Assoc("{", MembersText(h + a), Pieces(b));
    MembersTextConcat(h + a + b, c);
    Assoc("{", MembersText(h + a + b), Pieces(c));
    MembersTextConcat(h + a + b + c, d);
    Assoc("{", MembersText(h + a + b + c), Pieces(d));
  }

  /** The printed text is an object of exactly those members. */
  lemma PrintAsMembers(v: View)
    requires PlainTimes(v)
    ensures PrintText(v) == "{" + MembersText(Members(v)) + "}" + "\n"
  {
    HeadAsMembers(v);
    PiecesAsMembers(v);
    StoppedAsMembers(v);
    JoinPieces(HeadText(v), HeadMembers(v), PidMembers(v), CreatedMembers(v), StartedMembers(v), StoppedMembers(v));
    var t := "{" + MembersText(Members(v));
    assert "}\n" == "}" + "\n";
    Assoc(t, "}", "\n");
  }

  // ---- reading the printed text back ----

  predicate CleanValue(x: Value) { x.Str? ==> NoRawControl(x.s) }

  predicate CleanMembers(ms: seq<Member>) { forall i :: 0 <= i < |ms| ==> CleanValue(ms[i].value) }

  predicate FlatMembers(ms: seq<Member>) { forall i :: 0 <= i < |ms| ==> IsFlat(ms[i]) }

  /** A separator that ends a number and is no white space. */
  predicate AtSeparator(rest: string) { rest != "" && (rest[0] == ',' || rest[0] == '}') }

  lemma ReadQuotedText(s: string, rest: string)
    ensures ReadScalar("\"" + Escaped(s) + "\"" + rest) == (if NoRawControl(s) then Good(Str(s), rest) else Bad)
  {
    var text := "\"" + Escaped(s) + "\"" + rest;
    StringBodyOfEscaped(s, rest);
    assert text[1..] == Escaped(s) + "\"" + rest;
  }

  lemma ReadScalarText(x: Value, rest: string)
    requires x.Str? || x.Bool? || (x.Int? && -0x8000_0000 <= x.n <= 0x7FFF_FFFF)
    requires AtSeparator(rest)
    ensures ReadScalar(ValueText(x) + rest) == (if CleanValue(x) then Good(x, rest) else Bad)
    ensures var c := (ValueText(x) + rest)[0]; !IsSpace(c) && c != '{' && c != '['
  {
    if x.Str? {
      ReadQuotedText(x.s, rest);
    } else if x.Bool? {
      JsonText.ReadWord(x, if x.flag then "true" else "false", rest);
    } else {
      JsonText.ReadIntText(x.n, rest);
      JsonText.ScalarNumber(IntText(x.n) + rest);
    }
  }

  lemma ReadValueText(x: Value, rest: string)
    requires x.Str? || x.Bool? || (x.Int? && -0x8000_0000 <= x.n <= 0x7FFF_FFFF)
    requires AtSeparator(rest)
    ensures ReadValue(ValueText(x) + rest) == (if CleanValue(x) then Good(x, rest) else Bad)
  {
    ReadScalarText(x, rest);
  }

  lemma ReadKeyText(key: string, rest: string)
    requires IsPlain(key)
    ensures ReadKey(KeyText(key) + rest) == Good(key, rest)
  {
    EscapedPlain(key);
    var s := KeyText(key) + rest;
    assert s[1..] == Escaped(key) + "\"" + (":" + rest);
    StringBodyOfEscaped(key, ":" + rest);
    assert (":" + rest)[1..] == rest;
  }

  lemma ReadMemberText(m: Member, rest: string)
    requires IsFlat(m) && AtSeparator(rest)
    ensures ReadMember(MemberText(m) + rest) == (if CleanValue(m.value) then Good(m, rest) else Bad)
  {
    Assoc(KeyText(m.key), ValueText(m.value), rest);
    ReadKeyText(m.key, ValueText(m.value) + rest);
    ReadValueText(m.value, rest);
  }

  lemma {:induction false} ReadPieces(ms: seq<Member>, rest: string)
    requires FlatMembers(ms)
    ensures ReadMoreMembers(Pieces(ms) + "}" + rest) == (if CleanMembers(ms) then Good(ms, rest) else Bad)
    ensures AtSeparator(Pieces(ms) + "}" + rest)
  {
    var s := Pieces(ms) + "}" + rest;
    if ms == [] {
      assert s == "}" + rest;
      assert s[1..] == rest;
    } else {
      var tail := Pieces(ms[1..]) + "}" + rest;
      assert s == "," + (MemberText(ms[0]) + tail) by {
        Assoc("," + MemberText(ms[0]), Pieces(ms[1..]), "}");
        Assoc("," + MemberText(ms[0]), Pieces(ms[1..]) + "}", rest);
        Assoc(",", MemberText(ms[0]), tail);
      }
      assert s[1..] == MemberText(ms[0]) + tail;
      ReadPieces(ms[1..], rest);
      ReadMembersCons(ms, tail, rest);
    }
  }

  /** Reading one printed member and then the pieces after it. */
  lemma ReadMembersCons(ms: seq<Member>, tail: string, rest: string)
    requires ms != [] && FlatMembers(ms) && AtSeparator(tail)
    requires ReadMoreMembers(tail) == (if CleanMembers(ms[1..]) then Good(ms[1..], rest) else Bad)
    ensures SkipSpace(MemberText(ms[0]) + tail) == MemberText(ms[0]) + tail
    ensures ReadMembers(MemberText(ms[0]) + tail) == (if CleanMembers(ms) then Good(ms, rest) else Bad)
  {
    assert (MemberText(ms[0]) + tail)[0] == '"';
    ReadMemberText(ms[0], tail);
    assert [ms[0]] + ms[1..] == ms;
    assert CleanMembers(ms) <==> CleanValue(ms[0].value) && CleanMembers(ms[1..]) by {
      if CleanMembers(ms[1..]) && CleanValue(ms[0].value) {
        forall i | 0 <= i < |ms| ensures CleanValue(ms[i].value) {
          if i > 0 { assert ms[i] == ms[1..][i - 1]; }
        }
      }
    }
  }

  lemma ReadObjectText(ms: seq<Member>, rest: string)
    requires ms != [] && FlatMembers(ms)
    ensures ReadValue("{" + MembersText(ms) + "}" + rest) == (if CleanMembers(ms) then Good(Obj(ms), rest) else Bad)
  {
    var tail := Pieces(ms[1..]) + "}" + rest;
    ReadPieces(ms[1..], rest);
    ReadMembersCons(ms, tail, rest);
    var s := "{" + MembersText(ms) + "}" + rest;
    assert s == "{" + (MemberText(ms[0]) + tail) by {
      Assoc("{", MemberText(ms[0]), Pieces(ms[1..]));
      Assoc("{" + MemberText(ms[0]), Pieces(ms[1..]), "}");
      Assoc("{" + MemberText(ms[0]), Pieces(ms[1..]) + "}", rest);
      Assoc("{", MemberText(ms[0]), tail);
    }
    assert s[1..] == MemberText(ms[0]) + tail;
  }
}
