/** Which configurations are accepted: the loader's verdict is conformance to a schema. */
module BundleSchema {
  import opened Json
  import opened BundleModel

  /** Every occurrence of a key must conform, or only the first one if there is any, or the
      first one and there must be one. */
  datatype Rule = Every | First | Required

  datatype Kind =
    | AString
    | AFlag
    | AnInt(width: Width)
    | AList(item: Kind)
    | ARecord(fields: seq<Field>)

  datatype Field = Field(key: string, kind: Kind, rule: Rule)

  predicate Conforms(v: Value, k: Kind)
    decreases k
  {
    match k
    case AString => v.Str?
    case AFlag => v.Bool?
    case AnInt(w) => v.Int? && Fits(v.n, w)
    case AList(item) => v.Arr? && forall i :: 0 <= i < |v.items| ==> Conforms(v.items[i], item)
    case ARecord(fields) => v.Obj? && forall i :: 0 <= i < |fields| ==> FieldConforms(v.members, fields[i])
  }

  predicate FieldConforms(ms: seq<Member>, f: Field)
    decreases f
  {
    match f.rule
    case Every => forall j :: 0 <= j < |ms| && ms[j].key == f.key ==> Conforms(ms[j].value, f.kind)
    case First => Find(ms, f.key).Some? ==> Conforms(Find(ms, f.key).value, f.kind)
    case Required => Find(ms, f.key).Some? && Conforms(Find(ms, f.key).value, f.kind)
  }

  // ---- the schema, as far as the loader looks ----

  const Strings := AList(AString)

  const ConsoleFields := [Field("height", AnInt(U32), Every), Field("width", AnInt(U32), Every)]

  const CapabilityFields := [
    Field("effective", Strings, First), Field("bounding", Strings, First), Field("inheritable", Strings, First),
    Field("permitted", Strings, First), Field("ambient", Strings, First)]

  const RLimitFields := [
    Field("type", AString, Required), Field("soft", AnInt(I64), Required), Field("hard", AnInt(I64), Required)]

  const UserFields := [
    Field("uid", AnInt(I32), Every), Field("umask", AnInt(I32), Every), Field("gid", AnInt(I32), Every),
    Field("additionalGids", AList(AnInt(I32)), Every)]

  const RLimitsField := Field("rlimits", AList(ARecord(RLimitFields)), First)

  /** The members of a process that are checked wherever they occur. */
  const PlainProcessFields := [
    Field("args", Strings, Every), Field("consoleSize", ARecord(ConsoleFields), Every), Field("cwd", AString, Every),
    Field("capabilities", ARecord(CapabilityFields), Every), Field("env", Strings, Every),
    Field("noNewPrivileges", AFlag, Every), Field("oomScoreAdj", AnInt(I32), Every), Field("terminal", AFlag, Every),
    Field("user", ARecord(UserFields), Every)]

  const ProcessFields := PlainProcessFields + [RLimitsField]

  const RootFields := [Field("path", AString, Every), Field("readonly", AFlag, Every)]

  const MountFields := [
    Field("destination", AString, Every), Field("options", Strings, Every), Field("source", AString, Every),
    Field("type", AString, Every)]

  const NamespaceFields := [Field("path", AString, Every), Field("type", AString, Every)]

  const MappingFields := [
    Field("containerID", AnInt(U32), Every), Field("hostID", AnInt(U32), Every), Field("size", AnInt(U32), Every)]

  const DeviceFields := [
    Field("type", AString, Every), Field("path", AString, Every), Field("major", AnInt(I64), Every),
    Field("minor", AnInt(I64), Every), Field("fileMode", AnInt(U32), Every), Field("uid", AnInt(U32), Every),
    Field("gid", AnInt(U32), Every)]

  const MemoryFields := [Field("limit", AnInt(U64), Every), Field("reservation", AnInt(U64), Every)]

  const ResourcesFields := [Field("memory", ARecord(MemoryFields), Every)]

  const LinuxFields := [
    Field("namespaces", AList(ARecord(NamespaceFields)), Every), Field("uidMappings", AList(ARecord(MappingFields)), Every),
    Field("gidMappings", AList(ARecord(MappingFields)), Every), Field("devices", AList(ARecord(DeviceFields)), Every),
    Field("cgroupsPath", AString, Every), Field("resources", ARecord(ResourcesFields), Every)]

  const AnnotationFields := [Field("org.wasmedge.exec.allow_commands", Strings, Every)]

  const ConfigFields := [
    Field("annotations", ARecord(AnnotationFields), Every), Field("mounts", AList(ARecord(MountFields)), Every),
    Field("ociVersion", AString, Every), Field("process", ARecord(ProcessFields), Every),
    Field("root", ARecord(RootFields), Every), Field("linux", ARecord(LinuxFields), Every)]

  const ConfigKind := ARecord(ConfigFields)

  // ---- folds succeed exactly when every member or item does ----

  /** What a table of checked-everywhere fields asks of one member. */
  predicate MemberOk(m: Member, fields: seq<Field>) {
    forall i :: 0 <= i < |fields| && fields[i].key == m.key ==> Conforms(m.value, fields[i].kind)
  }

  predicate AllEvery(fields: seq<Field>) { forall i :: 0 <= i < |fields| ==> fields[i].rule == Every }

  lemma RecordByMember(ms: seq<Member>, fields: seq<Field>)
    requires AllEvery(fields)
    ensures Conforms(Obj(ms), ARecord(fields)) <==> forall j :: 0 <= j < |ms| ==> MemberOk(ms[j], fields)
  {
    if forall j :: 0 <= j < |ms| ==> MemberOk(ms[j], fields) {
      forall i | 0 <= i < |fields| ensures FieldConforms(ms, fields[i]) {
        forall j | 0 <= j < |ms| && ms[j].key == fields[i].key ensures Conforms(ms[j].value, fields[i].kind) {
          assert MemberOk(ms[j], fields);
        }
      }
    }
    if Conforms(Obj(ms), ARecord(fields)) {
      forall i, j | 0 <= i < |fields| && 0 <= j < |ms| && fields[i].key == ms[j].key
        ensures Conforms(ms[j].value, fields[i].kind) { assert FieldConforms(ms, fields[i]); }
    }
  }

  lemma {:induction false} FoldOk<E, A(!new)>(f: (E, A, Member) -> Out<A>, e: E, ms: seq<Member>, a: A, p: Member -> bool)
    requires forall a: A, m: Member :: f(e, a, m).ok <==> p(m)
    ensures Fold(f, e, ms, a).ok <==> forall j :: 0 <= j < |ms| ==> p(ms[j])
  {
    if ms != [] {
      var r := f(e, a, ms[0]);
      assert r.ok <==> p(ms[0]);
      if r.ok {
        FoldOk(f, e, ms[1..], r.acc, p);
        assert forall j :: 0 <= j < |ms[1..]| ==> ms[1..][j] == ms[j + 1];
        if forall j :: 0 <= j < |ms[1..]| ==> p(ms[1..][j]) {
          forall j | 0 <= j < |ms| ensures p(ms[j]) { if j > 0 { assert ms[j] == ms[1..][j - 1]; } }
        }
      }
    }
  }

  lemma {:induction false} FoldItemsOk<A(!new)>(f: (A, Value) -> Out<A>, xs: seq<Value>, a: A, p: Value -> bool)
    requires forall a: A, v: Value :: f(a, v).ok <==> p(v)
    ensures FoldItems(f, xs, a).ok <==> forall j :: 0 <= j < |xs| ==> p(xs[j])
  {
    if xs != [] {
      var r := f(a, xs[0]);
      assert r.ok <==> p(xs[0]);
      if r.ok {
        FoldItemsOk(f, xs[1..], r.acc, p);
        assert forall j :: 0 <= j < |xs[1..]| ==> xs[1..][j] == xs[j + 1];
        if forall j :: 0 <= j < |xs[1..]| ==> p(xs[1..][j]) {
          forall j | 0 <= j < |xs| ensures p(xs[j]) { if j > 0 { assert xs[j] == xs[1..][j - 1]; } }
        }
      }
    }
  }

  /** A loader over a table of checked-everywhere fields accepts exactly the objects that conform. */
  lemma FoldConforms<E, A(!new)>(f: (E, A, Member) -> Out<A>, e: E, ms: seq<Member>, a: A, fields: seq<Field>)
    requires AllEvery(fields)
    requires forall a: A, m: Member :: f(e, a, m).ok <==> MemberOk(m, fields)
    ensures Fold(f, e, ms, a).ok <==> Conforms(Obj(ms), ARecord(fields))
  {
    FoldOk(f, e, ms, a, m => MemberOk(m, fields));
    RecordByMember(ms, fields);
  }

  lemma ItemsConform<A(!new)>(f: (A, Value) -> Out<A>, xs: seq<Value>, a: A, k: Kind)
    requires forall a: A, v: Value :: f(a, v).ok <==> Conforms(v, k)
    ensures FoldItems(f, xs, a).ok <==> Conforms(Arr(xs), AList(k))
  {
    FoldItemsOk(f, xs, a, v => Conforms(v, k));
  }

  // ---- level by level ----

  lemma StringsConform(v: Value, acc: seq<string>)
    ensures LoadStrings(v, acc).ok <==> Conforms(v, Strings)
  {
    if v.Arr? { ItemsConform(StringItem, v.items, acc, AString); }
  }

  lemma GidsConform(v: Value, acc: seq<int>)
    ensures LoadGids(v, acc).ok <==> Conforms(v, AList(AnInt(I32)))
  {
    if v.Arr? { ItemsConform(GidItem, v.items, acc, AnInt(I32)); }
  }

  lemma ConsoleConforms(v: Value, c: Console)
    ensures LoadConsole(v, c).ok <==> Conforms(v, ARecord(ConsoleFields))
  {
    var t := ConsoleFields;
    forall c, m ensures ConsoleMember((), c, m).ok <==> MemberOk(m, t) {
      assert t[0].key == "height" && t[1].key == "width";
    }
    if v.Obj? { FoldConforms(ConsoleMember, (), v.members, c, t); }
  }

  lemma CapabilityConforms(ms: seq<Member>, f: Field, acc: seq<string>)
    requires f.kind == Strings && f.rule == First
    ensures LoadCapability(ms, f.key, acc).ok <==> FieldConforms(ms, f)
  {
    if Find(ms, f.key).Some? { StringsConform(Find(ms, f.key).value, acc); }
  }

  lemma CapabilitiesConform(v: Value, c: Capabilities)
    ensures LoadCapabilities(v, c).ok <==> Conforms(v, ARecord(CapabilityFields))
  {
    if v.Obj? {
      var t := CapabilityFields;
      CapabilityConforms(v.members, t[0], c.effective);
      CapabilityConforms(v.members, t[1], c.bounding);
      CapabilityConforms(v.members, t[2], c.inheritable);
      CapabilityConforms(v.members, t[3], c.permitted);
      CapabilityConforms(v.members, t[4], c.ambient);
    }
  }

  lemma RLimitConforms(v: Value)
    ensures RLimitOf(v).Some? <==> Conforms(v, ARecord(RLimitFields))
  {
    if v.Obj? {
      var t := RLimitFields;
      assert FieldConforms(v.members, t[0]) <==> Find(v.members, "type").Some? && Find(v.members, "type").value.Str?;
      assert FieldConforms(v.members, t[1]) <==> Find(v.members, "soft").Some? && GetInt(Find(v.members, "soft").value, I64).Some?;
      assert FieldConforms(v.members, t[2]) <==> Find(v.members, "hard").Some? && GetInt(Find(v.members, "hard").value, I64).Some?;
    }
  }

  lemma RLimitsConform(v: Value, acc: seq<RLimit>)
    ensures LoadRLimits(v, acc).ok <==> Conforms(v, AList(ARecord(RLimitFields)))
  {
    forall v ensures RLimitOf(v).Some? <==> Conforms(v, ARecord(RLimitFields)) { RLimitConforms(v); }
    if v.Arr? { ItemsConform(RLimitItem, v.items, acc, ARecord(RLimitFields)); }
  }

  lemma UserConforms(v: Value, u: User)
    ensures LoadUser(v, u).ok <==> Conforms(v, ARecord(UserFields))
  {
    var t := UserFields;
    forall u, m ensures UserMember((), u, m).ok <==> MemberOk(m, t) {
      assert t[0].key == "uid" && t[1].key == "umask" && t[2].key == "gid" && t[3].key == "additionalGids";
      GidsConform(m.value, u.additionalGids);
    }
    if v.Obj? { FoldConforms(UserMember, (), v.members, u, t); }
  }

  /** In a table of distinct keys one entry decides. */
  lemma OneEntryDecides(m: Member, fields: seq<Field>, k: nat)
    requires k < |fields| && fields[k].key == m.key
    requires forall i :: 0 <= i < |fields| && i != k ==> fields[i].key != m.key
    ensures MemberOk(m, fields) <==> Conforms(m.value, fields[k].kind)
  {
  }

  lemma ProcessKeysDistinct(i: nat, j: nat)
    requires i < j < |PlainProcessFields|
    ensures PlainProcessFields[i].key != PlainProcessFields[j].key
    ensures PlainProcessFields[i].key != "rlimits" && PlainProcessFields[j].key != "rlimits"
  {
  }

  /** One member of a process, its limits apart. */
  lemma ProcessMemberOk(whole: seq<Member>, p: Process, m: Member)
    ensures ProcessMember(whole, p, m).ok <==> ProcessOk(whole, m)
  {
    var t := PlainProcessFields;
    forall i, j | 0 <= i < j < |t| ensures t[i].key != t[j].key && t[i].key != "rlimits" && t[j].key != "rlimits" {
      ProcessKeysDistinct(i, j);
    }
    assert t[0].key == "args" && t[1].key == "consoleSize" && t[2].key == "cwd" && t[3].key == "capabilities";
    assert t[4].key == "env" && t[5].key == "noNewPrivileges" && t[6].key == "oomScoreAdj";
    assert t[7].key == "terminal" && t[8].key == "user";
    if k :| 0 <= k < |t| && t[k].key == m.key {
      OneEntryDecides(m, t, k);
      PlainProcessMemberOk(whole, p, m, k);
    } else {
      if Find(whole, "rlimits").Some? { RLimitsConform(Find(whole, "rlimits").value, p.rlimits); }
      assert MemberOk(m, t);
    }
  }

  lemma PlainProcessMemberOk(whole: seq<Member>, p: Process, m: Member, k: nat)
    requires k < |PlainProcessFields| && PlainProcessFields[k].key == m.key
    ensures ProcessMember(whole, p, m).ok <==> Conforms(m.value, PlainProcessFields[k].kind)
  {
    if k == 0 {
      StringsConform(m.value, p.args);
    } else if k == 1 {
      ConsoleConforms(m.value, p.console);
    } else if k == 3 {
      CapabilitiesConform(m.value, p.caps);
    } else if k == 4 {
      StringsConform(m.value, p.envs);
    } else if k == 8 {
      UserConforms(m.value, p.user);
    }
  }

  lemma {:induction false} FindIffPresent(ms: seq<Member>, key: string)
    ensures Find(ms, key).Some? <==> exists j :: 0 <= j < |ms| && ms[j].key == key
  {
    if ms != [] {
      FindIffPresent(ms[1..], key);
      if j :| 0 <= j < |ms| && ms[j].key == key {
        if j > 0 { assert ms[1..][j - 1].key == key; }
      }
      if Find(ms[1..], key).Some? {
        var j :| 0 <= j < |ms[1..]| && ms[1..][j].key == key;
        assert ms[j + 1].key == key;
      }
    }
  }

  lemma RecordAppend(ms: seq<Member>, fields: seq<Field>, f: Field)
    ensures Conforms(Obj(ms), ARecord(fields + [f])) <==> Conforms(Obj(ms), ARecord(fields)) && FieldConforms(ms, f)
  {
    var t := fields + [f];
    assert t[|fields|] == f;
    assert forall i :: 0 <= i < |fields| ==> t[i] == fields[i];
  }

  lemma ProcessConforms(v: Value, p: Process)
    ensures LoadProcess(v, p).ok <==> Conforms(v, ARecord(ProcessFields))
  {
    if v.Obj? {
      var ms := v.members;
      forall p, m ensures ProcessMember(ms, p, m).ok <==> ProcessOk(ms, m) { ProcessMemberOk(ms, p, m); }
      FoldOk(ProcessMember, ms, ms, p, m => ProcessOk(ms, m));
      RecordByMember(ms, PlainProcessFields);
      RecordAppend(ms, PlainProcessFields, RLimitsField);
      FindIffPresent(ms, "rlimits");
    }
  }

  predicate ProcessOk(whole: seq<Member>, m: Member) {
    MemberOk(m, PlainProcessFields) && (m.key == "rlimits" ==> Find(whole, "rlimits").Some? && FieldConforms(whole, RLimitsField))
  }

  lemma RootConforms(v: Value, r: Root)
    ensures LoadRoot(v, r).ok <==> Conforms(v, ARecord(RootFields))
  {
    var t := RootFields;
    forall r, m ensures RootMember((), r, m).ok <==> MemberOk(m, t) { assert t[0].key == "path" && t[1].key == "readonly"; }
    if v.Obj? { FoldConforms(RootMember, (), v.members, r, t); }
  }

  lemma MountConforms(ms: seq<Member>)
    ensures Fold(MountMember, (), ms, NewMount).ok <==> Conforms(Obj(ms), ARecord(MountFields))
  {
    var t := MountFields;
    forall d, m ensures MountMember((), d, m).ok <==> MemberOk(m, t) {
      assert t[0].key == "destination" && t[1].key == "options" && t[2].key == "source" && t[3].key == "type";
      StringsConform(m.value, d.options);
    }
    FoldConforms(MountMember, (), ms, NewMount, t);
  }

  lemma MountsConform(v: Value, acc: seq<Mount>)
    ensures LoadMounts(v, acc).ok <==> Conforms(v, AList(ARecord(MountFields)))
  {
    forall acc, v ensures MountItem(acc, v).ok <==> Conforms(v, ARecord(MountFields)) {
      if v.Obj? { MountConforms(v.members); assert v == Obj(v.members); }
    }
    if v.Arr? { ItemsConform(MountItem, v.items, acc, ARecord(MountFields)); }
  }

  lemma NamespacesConform(v: Value, acc: seq<Namespace>)
    ensures LoadNamespaces(v, acc).ok <==> Conforms(v, AList(ARecord(NamespaceFields)))
  {
    var t := NamespaceFields;
    forall d, m ensures NamespaceMember((), d, m).ok <==> MemberOk(m, t) { assert t[0].key == "path" && t[1].key == "type"; }
    forall acc, v ensures NamespaceItem(acc, v).ok <==> Conforms(v, ARecord(t)) {
      if v.Obj? { FoldConforms(NamespaceMember, (), v.members, NewNamespace, t); }
    }
    if v.Arr? { ItemsConform(NamespaceItem, v.items, acc, ARecord(t)); }
  }

  lemma MappingsConform(v: Value, acc: seq<IdMapping>)
    ensures LoadMappings(v, acc).ok <==> Conforms(v, AList(ARecord(MappingFields)))
  {
    var t := MappingFields;
    forall d, m ensures MappingMember((), d, m).ok <==> MemberOk(m, t) {
      assert t[0].key == "containerID" && t[1].key == "hostID" && t[2].key == "size";
    }
    forall acc, v ensures MappingItem(acc, v).ok <==> Conforms(v, ARecord(t)) {
      if v.Obj? { FoldConforms(MappingMember, (), v.members, NewMapping, t); }
    }
    if v.Arr? { ItemsConform(MappingItem, v.items, acc, ARecord(t)); }
  }

  lemma DevicesConform(v: Value, acc: seq<Device>)
    ensures LoadDevices(v, acc).ok <==> Conforms(v, AList(ARecord(DeviceFields)))
  {
    var t := DeviceFields;
    forall d, m ensures DeviceMember((), d, m).ok <==> MemberOk(m, t) {
      assert t[0].key == "type" && t[1].key == "path" && t[2].key == "major" && t[3].key == "minor";
      assert t[4].key == "fileMode" && t[5].key == "uid" && t[6].key == "gid";
    }
    forall acc, v ensures DeviceItem(acc, v).ok <==> Conforms(v, ARecord(t)) {
      if v.Obj? { FoldConforms(DeviceMember, (), v.members, NewDevice, t); }
    }
    if v.Arr? { ItemsConform(DeviceItem, v.items, acc, ARecord(t)); }
  }

  lemma ResourcesConform(v: Value, x: Memory)
    ensures LoadResources(v, x).ok <==> Conforms(v, ARecord(ResourcesFields))
  {
    var t, u := MemoryFields, ResourcesFields;
    forall x, m ensures MemoryMember((), x, m).ok <==> MemberOk(m, t) { assert t[0].key == "limit" && t[1].key == "reservation"; }
    forall x, m ensures ResourcesMember((), x, m).ok <==> MemberOk(m, u) {
      assert u[0].key == "memory";
      if m.value.Obj? { FoldConforms(MemoryMember, (), m.value.members, x, t); }
    }
    if v.Obj? { FoldConforms(ResourcesMember, (), v.members, x, u); }
  }

  lemma LinuxEntryOk(x: Linux, m: Member, k: nat)
    requires k < |LinuxFields| && LinuxFields[k].key == m.key
    ensures LinuxMember((), x, m).ok <==> Conforms(m.value, LinuxFields[k].kind)
  {
    if k == 0 {
      NamespacesConform(m.value, x.namespaces);
    } else if k == 1 || k == 2 {
      MappingsConform(m.value, x.uidMappings);
    } else if k == 3 {
      DevicesConform(m.value, x.devices);
    } else if k == 5 {
      ResourcesConform(m.value, x.memory);
    }
  }

  lemma LinuxKeysDistinct(i: nat, j: nat)
    requires i < j < |LinuxFields|
    ensures LinuxFields[i].key != LinuxFields[j].key
  {
  }

  lemma LinuxMemberOk(x: Linux, m: Member)
    ensures LinuxMember((), x, m).ok <==> MemberOk(m, LinuxFields)
  {
    var t := LinuxFields;
    forall i, j | 0 <= i < j < |t| ensures t[i].key != t[j].key { LinuxKeysDistinct(i, j); }
    assert t[0].key == "namespaces" && t[1].key == "uidMappings" && t[2].key == "gidMappings";
    assert t[3].key == "devices" && t[4].key == "cgroupsPath" && t[5].key == "resources";
    if k :| 0 <= k < |t| && t[k].key == m.key {
      OneEntryDecides(m, t, k);
      LinuxEntryOk(x, m, k);
    } else {
      assert MemberOk(m, t);
    }
  }

  lemma LinuxConforms(v: Value, x: Linux)
    ensures LoadLinux(v, x).ok <==> Conforms(v, ARecord(LinuxFields))
  {
    forall x, m ensures LinuxMember((), x, m).ok <==> MemberOk(m, LinuxFields) { LinuxMemberOk(x, m); }
    if v.Obj? { FoldConforms(LinuxMember, (), v.members, x, LinuxFields); }
  }

  lemma AnnotationsConform(v: Value, cmds: seq<string>)
    ensures LoadAnnotations(v, cmds).ok <==> Conforms(v, ARecord(AnnotationFields))
  {
    var t := AnnotationFields;
    forall cmds, m ensures AnnotationMember((), cmds, m).ok <==> MemberOk(m, t) {
      assert t[0].key == AllowCommands;
      StringsConform(m.value, cmds);
    }
    if v.Obj? { FoldConforms(AnnotationMember, (), v.members, cmds, t); }
  }

  lemma ConfigMemberOk(b: Config, m: Member)
    ensures ConfigMember((), b, m).ok <==> MemberOk(m, ConfigFields)
  {
    var t := ConfigFields;
    assert t[0].key == "annotations" && t[1].key == "mounts" && t[2].key == "ociVersion";
    assert t[3].key == "process" && t[4].key == "root" && t[5].key == "linux";
    AnnotationsConform(m.value, b.cmds);
    MountsConform(m.value, b.mounts);
    ProcessConforms(m.value, b.process);
    RootConforms(m.value, b.root);
    LinuxConforms(m.value, b.linux);
  }

  /** Loading succeeds if and only if the document conforms to the schema: the recognised
      members at every level have the right type and range, of those looked up by name the
      first, and nothing else is asked. */
  lemma AcceptedIffConforms(v: Value, b: Config)
    ensures LoadConfig(v, b).ok <==> Conforms(v, ConfigKind)
  {
    if v.Obj? {
      forall b, m ensures ConfigMember((), b, m).ok <==> MemberOk(m, ConfigFields) { ConfigMemberOk(b, m); }
      FoldConforms(ConfigMember, (), v.members, b, ConfigFields);
    }
  }
}
