/** What printing and loading `state.json` guarantee together. */
module StateLaws {
  import opened Wrappers
  import opened Utf8
  import opened Decimal
  import opened Json
  import opened Escaping
  import opened StateText

  // ---- the printed members are readable ----

  lemma KeysPlain()
    ensures IsPlain("ociVersion") && IsPlain("id") && IsPlain("status") && IsPlain("bundle")
    ensures IsPlain("systemd-cgroup") && IsPlain("pid") && IsPlain("created") && IsPlain("started")
    ensures IsPlain("exitCode") && IsPlain("finished")
  {
  }

  lemma FlatAppend(a: seq<Member>, b: seq<Member>)
    ensures FlatMembers(a + b) <==> FlatMembers(a) && FlatMembers(b)
    ensures CleanMembers(a + b) <==> CleanMembers(a) && CleanMembers(b)
  {
    if FlatMembers(a + b) || CleanMembers(a + b) {
      assert forall i :: 0 <= i < |a| ==> (a + b)[i] == a[i];
      assert forall i :: 0 <= i < |b| ==> (a + b)[|a| + i] == b[i];
    }
  }

  lemma HeadFlat(v: View)
    ensures FlatMembers(HeadMembers(v))
    ensures CleanMembers(HeadMembers(v)) <==> NoRawControl(v.id) && NoRawControl(v.bundle)
  {
    KeysPlain();
    VersionPlain();
    EscapedPlain("1.0.2");
    StatusNamePlain(v.status);
    EscapedPlain(StatusName(v.status));
    var ms := HeadMembers(v);
    assert ms[1].value == Str(v.id) && ms[3].value == Str(v.bundle);
  }

  lemma OptionalFlat(v: View)
    requires PlainTimes(v)
    ensures FlatMembers(PidMembers(v)) && CleanMembers(PidMembers(v))
    ensures FlatMembers(CreatedMembers(v)) && CleanMembers(CreatedMembers(v))
    ensures FlatMembers(StartedMembers(v)) && CleanMembers(StartedMembers(v))
  {
    KeysPlain();
    EscapedPlain(v.created);
    EscapedPlain(v.started);
  }

  lemma StoppedFlat(v: View)
    requires PlainTimes(v)
    ensures FlatMembers(StoppedMembers(v)) && CleanMembers(StoppedMembers(v))
  {
    KeysPlain();
    EscapedPlain(v.finished);
  }

  lemma FlatAppendFour(h: seq<Member>, a: seq<Member>, b: seq<Member>, c: seq<Member>, d: seq<Member>)
    requires FlatMembers(h) && FlatMembers(a) && FlatMembers(b) && FlatMembers(c) && FlatMembers(d)
    requires CleanMembers(a) && CleanMembers(b) && CleanMembers(c) && CleanMembers(d)
    ensures FlatMembers(h + a + b + c + d)
    ensures CleanMembers(h + a + b + c + d) <==> CleanMembers(h)
  {
    FlatAppend(h, a);
    FlatAppend(h + a, b);
    FlatAppend(h + a + b, c);
    FlatAppend(h + a + b + c, d);
  }

  /** Only the id and the bundle path can make the printed text unreadable. */
  lemma PrintedMembers(v: View)
    requires PlainTimes(v)
    ensures FlatMembers(Members(v))
    ensures CleanMembers(Members(v)) <==> NoRawControl(v.id) && NoRawControl(v.bundle)
  {
    HeadFlat(v);
    OptionalFlat(v);
    StoppedFlat(v);
    FlatAppendFour(HeadMembers(v), PidMembers(v), CreatedMembers(v), StartedMembers(v), StoppedMembers(v));
  }

  /** Character by character, the printed text reads back as exactly its members. */
  lemma ReadPrinted(v: View)
    requires PlainTimes(v)
    ensures ReadValue(PrintText(v)) ==
            (if NoRawControl(v.id) && NoRawControl(v.bundle) then Good(Obj(Members(v)), "\n") else Bad)
  {
    PrintAsMembers(v);
    PrintedMembers(v);
    ReadObjectText(Members(v), "\n");
  }

  // ---- UTF-8 of the printed text ----

  lemma AsciiConcat(a: string, b: string)
    requires IsAscii(a) && IsAscii(b)
    ensures IsAscii(a + b)
  {
  }

  lemma {:induction false} NatTextAscii(n: nat)
    ensures IsAscii(NatText(n))
  {
    var s := NatText(n);
    forall i | 0 <= i < |s| ensures s[i] as int < 0x80 { assert IsDigit(s[i]); }
  }

  lemma IntTextAscii(n: int)
    ensures IsAscii(IntText(n))
  {
    NatTextAscii(if n < 0 then -n else n);
    if n < 0 { AsciiConcat("-", NatText(-n)); }
  }

  lemma PlainAscii(s: string)
    requires IsPlain(s)
    ensures IsAscii(s)
  {
    forall i | 0 <= i < |s| ensures s[i] as int < 0x80 { assert IsPlainChar(s[i]); }
  }

  lemma KeyAscii(key: string)
    requires IsPlain(key)
    ensures IsAscii(KeyText(key)) && IsAscii(NextKey(key)) && IsAscii("\"" + "," + KeyText(key))
    ensures NextKey(key) != ""
  {
    PlainAscii(key);
    AsciiConcat("\"", key);
    AsciiConcat("\"" + key, "\":");
    AsciiConcat("\"", ",");
    AsciiConcat("\"" + ",", KeyText(key));
    AsciiConcat(KeyText(key), "\"");
    AsciiConcat("\"" + ",", KeyText(key) + "\"");
  }

  lemma FrontAscii()
    ensures IsAscii("{\"ociVersion\":\"" + "1.0.2" + NextKey("id"))
  {
    KeysPlain();
    KeyAscii("id");
    AsciiConcat("{\"ociVersion\":\"", "1.0.2");
    AsciiConcat("{\"ociVersion\":\"" + "1.0.2", NextKey("id"));
  }

  lemma MiddleAscii(v: View)
    ensures IsAscii(NextKey("status") + StatusName(v.status) + NextKey("bundle"))
    ensures NextKey("status") + StatusName(v.status) + NextKey("bundle") != ""
  {
    KeysPlain();
    KeyAscii("status");
    KeyAscii("bundle");
    StatusNamePlain(v.status);
    PlainAscii(StatusName(v.status));
    AsciiConcat(NextKey("status"), StatusName(v.status));
    AsciiConcat(NextKey("status") + StatusName(v.status), NextKey("bundle"));
  }

  /** Everything after the bundle path. */
  function BackText(v: View): string {
    ("\"" + "," + KeyText("systemd-cgroup")) + (if v.cgroup then "true" else "false")
    + PidText(v) + CreatedText(v) + StartedText(v) + StoppedText(v) + "}\n"
  }

  lemma OptionalAscii(v: View)
    requires PlainTimes(v)
    ensures IsAscii(PidText(v)) && IsAscii(CreatedText(v)) && IsAscii(StartedText(v))
  {
    IntTextAscii(v.pid);
    PlainAscii(v.created);
    PlainAscii(v.started);
    AsciiConcat(",\"pid\":", IntText(v.pid));
    AsciiConcat(",\"created\":\"", v.created);
    AsciiConcat(",\"created\":\"" + v.created, "\"");
    AsciiConcat(",\"started\":\"", v.started);
    AsciiConcat(",\"started\":\"" + v.started, "\"");
  }

  lemma StoppedAscii(v: View)
    requires PlainTimes(v)
    ensures IsAscii(StoppedText(v))
  {
    IntTextAscii(v.exitCode);
    PlainAscii(v.finished);
    var a := ",\"exitCode\":" + IntText(v.exitCode);
    AsciiConcat(",\"exitCode\":", IntText(v.exitCode));
    AsciiConcat(a, ",\"finished\":\"");
    AsciiConcat(a + ",\"finished\":\"", v.finished);
    AsciiConcat(a + ",\"finished\":\"" + v.finished, "\"");
  }

  lemma BackAscii(v: View)
    requires PlainTimes(v)
    ensures IsAscii(BackText(v)) && BackText(v) != ""
  {
    KeysPlain();
    KeyAscii("systemd-cgroup");
    OptionalAscii(v);
    StoppedAscii(v);
    var a, flag := "\"" + "," + KeyText("systemd-cgroup"), if v.cgroup then "true" else "false";
    AsciiConcat(a, flag);
    AsciiConcat(a + flag, PidText(v));
    AsciiConcat(a + flag + PidText(v), CreatedText(v));
    AsciiConcat(a + flag + PidText(v) + CreatedText(v), StartedText(v));
    AsciiConcat(a + flag + PidText(v) + CreatedText(v) + StartedText(v), StoppedText(v));
    AsciiConcat(a + flag + PidText(v) + CreatedText(v) + StartedText(v) + StoppedText(v), "}\n");
  }

  lemma SixAssoc(x: string, a: string, b: string, c: string, d: string, e: string, f: string, g: string)
    ensures x + a + b + c + d + e + f + g == x + (a + b + c + d + e + f + g)
  {
    Assoc(x, a, b);
    Assoc(x, a + b, c);
    Assoc(x, a + b + c, d);
    Assoc(x, a + b + c + d, e);
    Assoc(x, a + b + c + d + e, f);
    Assoc(x, a + b + c + d + e + f, g);
  }

  /** The text is ASCII around the escaped id and the escaped bundle path. */
  lemma PrintAround(v: View)
    ensures PrintText(v) ==
            ("{\"ociVersion\":\"" + "1.0.2" + NextKey("id")) + Escaped(v.id)
            + (NextKey("status") + StatusName(v.status) + NextKey("bundle")) + Escaped(v.bundle) + BackText(v)
  {
    var front := "{\"ociVersion\":\"" + "1.0.2" + NextKey("id") + Escaped(v.id);
    var status := NextKey("status") + StatusName(v.status);
    Assoc(front, NextKey("status"), StatusName(v.status));
    Assoc(front, status, NextKey("bundle"));
    var upTo := front + (status + NextKey("bundle")) + Escaped(v.bundle);
    SixAssoc(upTo, "\"" + "," + KeyText("systemd-cgroup"), if v.cgroup then "true" else "false",
             PidText(v), CreatedText(v), StartedText(v), StoppedText(v), "}\n");
  }

  lemma AsciiPassesThrough(front: string, id: string, middle: string, bundle: string, back: string)
    requires IsAscii(front) && IsAscii(middle) && IsAscii(back) && middle != "" && back != ""
    ensures WellFormed(front + Escaped(id) + middle + Escaped(bundle) + back) <==> WellFormed(id) && WellFormed(bundle)
  {
    var a := front + Escaped(id);
    RunConcat(Done, front, Escaped(id));
    RunAscii(Done, front);
    RunEscaped(Done, id);
    RunConcat(Done, a, middle);
    RunAscii(Run(Done, a), middle);
    RunConcat(Done, a + middle, Escaped(bundle));
    RunBroken(Escaped(bundle));
    RunEscaped(Done, bundle);
    RunConcat(Done, a + middle + Escaped(bundle), back);
    RunAscii(Run(Done, a + middle + Escaped(bundle)), back);
  }

  /** The printed text is UTF-8 exactly when the id and the bundle path are. */
  lemma PrintedUtf8(v: View)
    requires PlainTimes(v)
    ensures WellFormed(PrintText(v)) <==> WellFormed(v.id) && WellFormed(v.bundle)
  {
    FrontAscii();
    MiddleAscii(v);
    BackAscii(v);
    PrintAround(v);
    AsciiPassesThrough("{\"ociVersion\":\"" + "1.0.2" + NextKey("id"), v.id,
                       NextKey("status") + StatusName(v.status) + NextKey("bundle"), v.bundle, BackText(v));
  }

  // ---- looking up the printed members ----

  lemma {:induction false} FindConcat(a: seq<Member>, b: seq<Member>, key: string)
    ensures Find(a + b, key) == (if Find(a, key).Some? then Find(a, key) else Find(b, key))
  {
    if a == [] {
      assert a + b == b;
    } else {
      assert (a + b)[1..] == a[1..] + b;
      FindConcat(a[1..], b, key);
    }
  }

  lemma FindTwo(m: Member, rest: seq<Member>, key: string)
    ensures Find([m] + rest, key) == (if m.key == key then Some(m.value) else Find(rest, key))
  {
    assert ([m] + rest)[1..] == rest;
  }

  lemma FindOne(m: Member, key: string)
    ensures Find([m], key) == (if m.key == key then Some(m.value) else None)
  {
    assert [m][1..] == [];
  }

  lemma FindFive(a: Member, b: Member, c: Member, d: Member, e: Member, key: string)
    ensures Find([a, b, c, d, e], key) ==
            (if a.key == key then Some(a.value) else if b.key == key then Some(b.value)
             else if c.key == key then Some(c.value) else if d.key == key then Some(d.value)
             else if e.key == key then Some(e.value) else None)
  {
    assert [a, b, c, d, e] == [a] + [b, c, d, e];
    FindTwo(a, [b, c, d, e], key);
    assert [b, c, d, e] == [b] + [c, d, e];
    FindTwo(b, [c, d, e], key);
    assert [c, d, e] == [c] + [d, e];
    FindTwo(c, [d, e], key);
    assert [d, e] == [d] + [e];
    FindTwo(d, [e], key);
    FindOne(e, key);
  }

  lemma FindHead(v: View, key: string)
    ensures Find(HeadMembers(v), key) ==
            (if key == "ociVersion" then Some(Str("1.0.2")) else if key == "id" then Some(Str(v.id))
             else if key == "status" then Some(Str(StatusName(v.status)))
             else if key == "bundle" then Some(Str(v.bundle))
             else if key == "systemd-cgroup" then Some(Bool(v.cgroup)) else None)
  {
    var ms := HeadMembers(v);
    FindFive(ms[0], ms[1], ms[2], ms[3], ms[4], key);
    assert ms == [ms[0], ms[1], ms[2], ms[3], ms[4]];
  }

  lemma FindOptional(v: View, key: string)
    ensures Find(PidMembers(v), key) == (if HasPid(v.status) && key == "pid" then Some(Int(v.pid)) else None)
    ensures Find(CreatedMembers(v), key) ==
            (if HasCreated(v.status) && key == "created" then Some(Str(v.created)) else None)
    ensures Find(StartedMembers(v), key) ==
            (if HasStarted(v.status) && key == "started" then Some(Str(v.started)) else None)
    ensures Find(StoppedMembers(v), key) ==
            (if v.status != Stopped then None else if key == "exitCode" then Some(Int(v.exitCode))
             else if key == "finished" then Some(Str(v.finished)) else None)
  {
    FindOne(Member("pid", Int(v.pid)), key);
    FindOne(Member("created", Str(v.created)), key);
    FindOne(Member("started", Str(v.started)), key);
    var a, b := Member("exitCode", Int(v.exitCode)), Member("finished", Str(v.finished));
    assert [a, b] == [a] + [b];
    FindTwo(a, [b], key);
    FindOne(b, key);
  }

  lemma FindPrinted(v: View, key: string)
    ensures Find(Members(v), key) ==
            (if Find(HeadMembers(v), key).Some? then Find(HeadMembers(v), key)
             else if Find(PidMembers(v), key).Some? then Find(PidMembers(v), key)
             else if Find(CreatedMembers(v), key).Some? then Find(CreatedMembers(v), key)
             else if Find(StartedMembers(v), key).Some? then Find(StartedMembers(v), key)
             else Find(StoppedMembers(v), key))
  {
    var h, a, b, c, d := HeadMembers(v), PidMembers(v), CreatedMembers(v), StartedMembers(v), StoppedMembers(v);
    FindConcat(h, a, key);
    FindConcat(h + a, b, key);
    FindConcat(h + a + b, c, key);
    FindConcat(h + a + b + c, d, key);
  }

  lemma FindIdentity(v: View)
    ensures Find(Members(v), "ociVersion") == Some(Str("1.0.2"))
    ensures Find(Members(v), "status") == Some(Str(StatusName(v.status)))
    ensures Find(Members(v), "id") == Some(Str(v.id))
    ensures Find(Members(v), "bundle") == Some(Str(v.bundle))
    ensures Find(Members(v), "systemd-cgroup") == Some(Bool(v.cgroup))
  {
    FindPrinted(v, "ociVersion"); FindHead(v, "ociVersion");
    FindPrinted(v, "status"); FindHead(v, "status");
    FindPrinted(v, "id"); FindHead(v, "id");
    FindPrinted(v, "bundle"); FindHead(v, "bundle");
    FindPrinted(v, "systemd-cgroup"); FindHead(v, "systemd-cgroup");
  }

  lemma FindByStatus(v: View)
    ensures Find(Members(v), "pid") == (if HasPid(v.status) then Some(Int(v.pid)) else None)
    ensures Find(Members(v), "created") == (if HasCreated(v.status) then Some(Str(v.created)) else None)
    ensures Find(Members(v), "started") == (if HasStarted(v.status) then Some(Str(v.started)) else None)
    ensures Find(Members(v), "exitCode") == (if v.status == Stopped then Some(Int(v.exitCode)) else None)
    ensures Find(Members(v), "finished") == (if v.status == Stopped then Some(Str(v.finished)) else None)
  {
    FindPrinted(v, "pid"); FindHead(v, "pid"); FindOptional(v, "pid");
    FindPrinted(v, "created"); FindHead(v, "created"); FindOptional(v, "created");
    FindPrinted(v, "started"); FindHead(v, "started"); FindOptional(v, "started");
    FindPrinted(v, "exitCode"); FindHead(v, "exitCode"); FindOptional(v, "exitCode");
    FindPrinted(v, "finished"); FindHead(v, "finished"); FindOptional(v, "finished");
  }

  /** The keys of the printed document, status by status: identity and status always, and
      pid, times and exit code for exactly the statuses that have them. */
  lemma KeysByStatus(v: View)
    ensures Find(Members(v), "ociVersion") == Some(Str("1.0.2"))
    ensures Find(Members(v), "id") == Some(Str(v.id)) && Find(Members(v), "bundle") == Some(Str(v.bundle))
    ensures Find(Members(v), "systemd-cgroup") == Some(Bool(v.cgroup))
    ensures v.status == Creating ==> Find(Members(v), "status") == Some(Str("creating"))
    ensures v.status == Created ==> Find(Members(v), "status") == Some(Str("created"))
    ensures v.status == Running ==> Find(Members(v), "status") == Some(Str("running"))
    ensures v.status == Stopped ==> Find(Members(v), "status") == Some(Str("stopped"))
    ensures Find(Members(v), "pid") == (if v.status in {Created, Running} then Some(Int(v.pid)) else None)
    ensures Find(Members(v), "created") == (if v.status in {Created, Running, Stopped} then Some(Str(v.created)) else None)
    ensures Find(Members(v), "started") == (if v.status in {Running, Stopped} then Some(Str(v.started)) else None)
    ensures Find(Members(v), "exitCode") == (if v.status in {Stopped} then Some(Int(v.exitCode)) else None)
    ensures Find(Members(v), "finished") == (if v.status in {Stopped} then Some(Str(v.finished)) else None)
  {
    FindIdentity(v);
    FindByStatus(v);
  }

  /** No other key is printed. */
  lemma NoOtherKey(v: View, key: string)
    requires key !in ["ociVersion", "id", "status", "bundle", "systemd-cgroup", "pid", "created", "started", "exitCode", "finished"]
    ensures Find(Members(v), key) == None
  {
    FindPrinted(v, key);
    FindHead(v, key);
    FindOptional(v, key);
  }

  // ---- which documents load ----

  predicate HasString(ms: seq<Member>, key: string) { Find(ms, key).Some? && Find(ms, key).value.Str? }

  /** An integer that fits 64 signed bits. */
  predicate HasInteger(ms: seq<Member>, key: string) {
    Find(ms, key).Some? && Find(ms, key).value.Int? && Find(ms, key).value.n <= 0x7FFF_FFFF_FFFF_FFFF
  }

  /** What a document must hold, by the name its status member gives. */
  predicate IsStateDocument(doc: Value) {
    && doc.Obj?
    && var ms := doc.members;
    && Find(ms, "ociVersion") == Some(Str("1.0.2"))
    && HasString(ms, "status")
    && HasString(ms, "id") && HasString(ms, "bundle")
    && (exists flag :: Find(ms, "systemd-cgroup") == Some(Bool(flag)))
    && var name := Find(ms, "status").value.s;
    && name in ["creating", "created", "running", "stopped"]
    && (name in ["created", "running"] ==> HasInteger(ms, "pid"))
    && (name in ["created", "running", "stopped"] ==> HasString(ms, "created"))
    && (name in ["running", "stopped"] ==> HasString(ms, "started"))
    && (name == "stopped" ==> HasInteger(ms, "exitCode") && HasString(ms, "finished"))
  }

  lemma StatusNames(s: string)
    ensures ParseStatus(s) == Creating <==> s == "creating"
    ensures ParseStatus(s) == Created <==> s == "created"
    ensures ParseStatus(s) == Running <==> s == "running"
    ensures ParseStatus(s) == Stopped <==> s == "stopped"
  {
    ParseStatusExact(s, Creating);
    ParseStatusExact(s, Created);
    ParseStatusExact(s, Running);
    ParseStatusExact(s, Stopped);
  }

  /** A document loads exactly when it holds every member its status asks for. */
  lemma LoadsExactly(v: View, doc: Value)
    ensures LoadDocument(v, doc).ok <==> IsStateDocument(doc)
  {
    match StringField(doc, "status")
    case None =>
    case Some(name) =>
      StatusNames(name);
      IdentityExactly(v.(status := ParseStatus(name)), doc);
  }

  /** The members a status asks for. */
  predicate HasDetails(ms: seq<Member>, status: Status) {
    && (status in {Created, Running} ==> HasInteger(ms, "pid"))
    && (status in {Created, Running, Stopped} ==> HasString(ms, "created"))
    && (status in {Running, Stopped} ==> HasString(ms, "started"))
    && (status == Stopped ==> HasInteger(ms, "exitCode") && HasString(ms, "finished"))
  }

  lemma IdentityExactly(v: View, doc: Value)
    ensures LoadIdentity(v, doc).ok <==>
            && doc.Obj? && HasString(doc.members, "id") && HasString(doc.members, "bundle")
            && (exists flag :: Find(doc.members, "systemd-cgroup") == Some(Bool(flag)))
            && HasDetails(doc.members, v.status)
  {
    if doc.Obj? && HasString(doc.members, "id") && HasString(doc.members, "bundle") {
      var u := v.(id := Find(doc.members, "id").value.s, bundle := Find(doc.members, "bundle").value.s);
      match Find(doc.members, "systemd-cgroup")
      case Some(Bool(b)) =>
        DetailsExactly(u.(cgroup := b), doc);
        assert Find(doc.members, "systemd-cgroup") == Some(Bool(b));
      case _ =>
    }
  }

  lemma DetailsExactly(v: View, doc: Value)
    requires doc.Obj?
    ensures LoadPid(v, doc).ok <==> HasDetails(doc.members, v.status)
  {
  }

  /** A 64-bit integer assigned to a 32-bit field keeps its low 32 bits. */
  predicate Keeps32Bits(field: Int32, n: int) { (field - n) % 0x1_0000_0000 == 0 }

  lemma NarrowExact(n: int)
    ensures Keeps32Bits(Narrow(n), n)
    ensures -0x8000_0000 <= n <= 0x7FFF_FFFF ==> Narrow(n) == n
  {
    var q := (n + 0x8000_0000) / 0x1_0000_0000;
    assert Narrow(n) - n == 0x1_0000_0000 * -q;
    MultipleOf(-q);
  }

  lemma MultipleOf(q: int)
    ensures (0x1_0000_0000 * q) % 0x1_0000_0000 == 0
  {
  }

  /** What the fields are after a load, and which are left as they were. */
  predicate FieldsOf(ms: seq<Member>, v: View, u: View) {
    && Find(ms, "id") == Some(Str(u.id)) && Find(ms, "bundle") == Some(Str(u.bundle))
    && Find(ms, "systemd-cgroup") == Some(Bool(u.cgroup))
    && Find(ms, "status") in {Some(Str("creating")), Some(Str("created")), Some(Str("running")), Some(Str("stopped"))}
    && (u.status == Creating <==> Find(ms, "status") == Some(Str("creating")))
    && (u.status == Created <==> Find(ms, "status") == Some(Str("created")))
    && (u.status == Running <==> Find(ms, "status") == Some(Str("running")))
    && (u.status == Stopped <==> Find(ms, "status") == Some(Str("stopped")))
    && DetailsOf(ms, v, u)
  }

  predicate DetailsOf(ms: seq<Member>, v: View, u: View) {
    && (if u.status in {Created, Running} then HasInteger(ms, "pid") && Keeps32Bits(u.pid, Find(ms, "pid").value.n) else u.pid == v.pid)
    && (if u.status in {Created, Running, Stopped} then Find(ms, "created") == Some(Str(u.created)) else u.created == v.created)
    && (if u.status in {Running, Stopped} then Find(ms, "started") == Some(Str(u.started)) else u.started == v.started)
    && (if u.status == Stopped then HasInteger(ms, "exitCode") && Keeps32Bits(u.exitCode, Find(ms, "exitCode").value.n)
        else u.exitCode == v.exitCode)
    && (if u.status == Stopped then Find(ms, "finished") == Some(Str(u.finished)) else u.finished == v.finished)
  }

  /** A load that succeeds takes every field its status has from the document and leaves the
      others alone. */
  lemma LoadedFields(v: View, doc: Value)
    requires LoadDocument(v, doc).ok
    ensures doc.Obj? && FieldsOf(doc.members, v, LoadDocument(v, doc).view)
  {
    var name := StringField(doc, "status").value;
    StatusNames(name);
    IdentityLoaded(v.(status := ParseStatus(name)), doc);
  }

  lemma IdentityLoaded(v: View, doc: Value)
    requires doc.Obj? && LoadIdentity(v, doc).ok
    ensures var u := LoadIdentity(v, doc).view;
            && Find(doc.members, "id") == Some(Str(u.id)) && Find(doc.members, "bundle") == Some(Str(u.bundle))
            && Find(doc.members, "systemd-cgroup") == Some(Bool(u.cgroup)) && u.status == v.status
            && DetailsOf(doc.members, v, u)
  {
    var id, bundle, flag := Find(doc.members, "id").value.s, Find(doc.members, "bundle").value.s, Find(doc.members, "systemd-cgroup").value.flag;
    DetailsLoaded(v.(id := id, bundle := bundle, cgroup := flag), doc);
  }

  lemma DetailsLoaded(v: View, doc: Value)
    requires doc.Obj? && LoadPid(v, doc).ok
    ensures var u := LoadPid(v, doc).view;
            DetailsOf(doc.members, v, u) && u.id == v.id && u.bundle == v.bundle && u.cgroup == v.cgroup && u.status == v.status
  {
    if v.status in {Created, Running} { NarrowExact(Find(doc.members, "pid").value.n); }
    if v.status == Stopped { NarrowExact(Find(doc.members, "exitCode").value.n); }
  }

  // ---- round trip ----

  /** What a status lets through: the fields that are printed for it, defaults elsewhere. */
  function Visible(v: View): View {
    View(v.id, v.bundle, v.cgroup, v.status,
         if v.status == Created || v.status == Running then v.pid else -1,
         if v.status == Created || v.status == Running || v.status == Stopped then v.created else "",
         if v.status == Running || v.status == Stopped then v.started else "",
         if v.status == Stopped then v.finished else "",
         if v.status == Stopped then v.exitCode else 0)
  }

  /** A string that survives printing and loading. */
  predicate Survives(s: string) { WellFormed(s) && NoRawControl(s) }

  lemma LoadPrintedDocument(v: View)
    ensures LoadDocument(Fresh, Obj(Members(v))).ok <==> v.status != Unknown
    ensures v.status != Unknown ==> LoadDocument(Fresh, Obj(Members(v))).view == Visible(v)
  {
    FindIdentity(v);
    if v.status == Unknown {
      var k := ParseStatus("unknown");
      if k != Unknown { ParseStatusExact("unknown", k); }
    } else {
      ParseStatusExact(StatusName(v.status), v.status);
      LoadPrintedDetails(v);
    }
  }

  lemma LoadPrintedDetails(v: View)
    ensures LoadPid(Fresh.(status := v.status, id := v.id, bundle := v.bundle, cgroup := v.cgroup), Obj(Members(v))) ==
            Loaded(true, Visible(v))
  {
    FindByStatus(v);
  }

  lemma PrintVisible(v: View)
    ensures PrintText(Visible(v)) == PrintText(v)
  {
    var u := Visible(v);
    assert HeadText(u) == HeadText(v) && PidText(u) == PidText(v) && CreatedText(u) == CreatedText(v);
    assert StartedText(u) == StartedText(v) && StoppedText(u) == StoppedText(v);
  }

  /** Loading the printed text into a fresh State succeeds exactly when the status is a
      real one and the id and the bundle path survive; it then restores the identity, the
      status and exactly the fields that belong to the status, and prints the same again. */
  lemma RoundTrip(v: View)
    requires PlainTimes(v)
    ensures LoadText(Fresh, PrintText(v)).ok <==> v.status != Unknown && Survives(v.id) && Survives(v.bundle)
    ensures LoadText(Fresh, PrintText(v)).ok ==> LoadText(Fresh, PrintText(v)).view == Visible(v)
    ensures PrintText(Visible(v)) == PrintText(v)
  {
    ReadPrinted(v);
    PrintedUtf8(v);
    LoadPrintedDocument(v);
    PrintVisible(v);
    assert SkipSpace("\n") == "" by { assert "\n"[1..] == ""; }
  }

  /** What loading a printed state into a fresh State comes to. */
  function Reloaded(v: View): Loaded {
    if v.status != Unknown && Survives(v.id) && Survives(v.bundle) then Loaded(true, Visible(v)) else Loaded(false, v)
  }

  lemma ReloadedFromText(v: View)
    requires PlainTimes(v)
    ensures Reloaded(v).ok == LoadText(Fresh, PrintText(v)).ok
    ensures Reloaded(v).ok ==> Reloaded(v).view == LoadText(Fresh, PrintText(v)).view
  {
    RoundTrip(v);
  }

  /** The pid a reader gets: the recorded one under created and running, -1 otherwise. */
  lemma LoadedPid(v: View)
    requires PlainTimes(v) && LoadText(Fresh, PrintText(v)).ok
    ensures LoadText(Fresh, PrintText(v)).view.pid == (if v.status == Created || v.status == Running then v.pid else -1)
    ensures LoadText(Fresh, PrintText(v)).view.status == v.status
  {
    RoundTrip(v);
  }

  // ---- truncation ----

  lemma PrintStarts(v: View)
    ensures |PrintText(v)| >= 2 && PrintText(v)[0] == '{'
  {
    PrintAround(v);
  }

  /** No prefix that stops before the closing brace is accepted, whatever quotes, braces
      or backslashes the id and the bundle path contain. */
  lemma TruncationRejected(v: View, n: nat)
    requires PlainTimes(v)
    requires n < |PrintText(v)| - 1
    ensures !LoadText(Fresh, PrintText(v)[..n]).ok
  {
    PrintStarts(v);
    var text, p, q := PrintText(v), PrintText(v)[..n], PrintText(v)[n..];
    assert text == p + q;
    ReadPrinted(v);
    if n > 0 { LeavesTheRest(p, q); }
  }

  /** An object that can be read from a text ends there, whatever follows. */
  lemma LeavesTheRest(p: string, q: string)
    requires p != "" && p[0] == '{'
    ensures ReadValue(p).Good? && ReadValue(p + q).Good? ==> |ReadValue(p + q).rest| >= |q|
    ensures ReadValue(p).Good? ==> ReadValue(p + q).Good?
  {
    if ReadValue(p).Good? {
      OpensObject(p);
      ReadValueExtend(p, q);
    }
  }

  lemma OpensObject(p: string)
    requires p != "" && p[0] == '{' && ReadValue(p).Good?
    ensures ReadValue(p).value.Obj?
  {
    assert SkipSpace(p) == p;
  }
}
