/** When two configurations load the same. Two documents are alike if, under every key the
    loader looks at, they hold the same values in the same order, at every level. Where the
    keys stand among each other and what else an object holds plays no part. */
module BundleAlike {
  import opened Wrappers
  import opened Json
  import opened BundleModel
  import opened BundleSchema
  import opened BundleMeaning
  import opened BundleValues

  predicate Alike(v: Value, w: Value, k: Kind)
    decreases k, 0
  {
    v == w ||
    match k
    case AList(item) => v.Arr? && w.Arr? && AlikeSeq(v.items, w.items, item)
    case ARecord(fields) => v.Obj? && w.Obj? && forall i :: 0 <= i < |fields| ==> FieldAlike(v.members, w.members, fields[i])
    case _ => false
  }

  predicate FieldAlike(ms: seq<Member>, ns: seq<Member>, f: Field)
    decreases f
  {
    AlikeSeq(At(ms, f.key), At(ns, f.key), f.kind)
  }

  predicate AlikeSeq(vs: seq<Value>, ws: seq<Value>, k: Kind)
    decreases k, 1
  {
    |vs| == |ws| && forall i :: 0 <= i < |vs| ==> Alike(vs[i], ws[i], k)
  }

  predicate RecordAlike(ms: seq<Member>, ns: seq<Member>, fields: seq<Field>) {
    forall i :: 0 <= i < |fields| ==> FieldAlike(ms, ns, fields[i])
  }

  lemma ListParts(v: Value, w: Value, item: Kind)
    requires Alike(v, w, AList(item)) && v != w
    ensures v.Arr? && w.Arr? && |v.items| == |w.items| && forall i :: 0 <= i < |v.items| ==> Alike(v.items[i], w.items[i], item)
  {
    assert AlikeSeq(v.items, w.items, item);
  }

  lemma RecordParts(v: Value, w: Value, fields: seq<Field>)
    requires Alike(v, w, ARecord(fields)) && v != w
    ensures v.Obj? && w.Obj? && RecordAlike(v.members, w.members, fields)
  {
  }

  lemma FieldParts(ms: seq<Member>, ns: seq<Member>, f: Field)
    requires FieldAlike(ms, ns, f)
    ensures |At(ms, f.key)| == |At(ns, f.key)|
    ensures forall i :: 0 <= i < |At(ms, f.key)| ==> Alike(At(ms, f.key)[i], At(ns, f.key)[i], f.kind)
    ensures AlikeSeq(At(ms, f.key), At(ns, f.key), f.kind)
  {
    assert AlikeSeq(At(ms, f.key), At(ns, f.key), f.kind);
  }

  // ---- the verdict ----

  lemma AllCons(v: Value, rest: seq<Value>, k: Kind)
    ensures (forall i :: 0 <= i < |[v] + rest| ==> Conforms(([v] + rest)[i], k))
            <==> Conforms(v, k) && forall i :: 0 <= i < |rest| ==> Conforms(rest[i], k)
  {
    var all := [v] + rest;
    if forall i :: 0 <= i < |all| ==> Conforms(all[i], k) {
      assert all[0] == v;
      forall i | 0 <= i < |rest| ensures Conforms(rest[i], k) { assert rest[i] == all[i + 1]; }
    }
  }

  lemma {:induction false} EveryAt(ms: seq<Member>, key: string, k: Kind)
    ensures (forall j :: 0 <= j < |ms| && ms[j].key == key ==> Conforms(ms[j].value, k))
            <==> forall i :: 0 <= i < |At(ms, key)| ==> Conforms(At(ms, key)[i], k)
  {
    if ms != [] {
      EveryAt(ms[1..], key, k);
      var rest := At(ms[1..], key);
      assert At(ms, key) == (if ms[0].key == key then [ms[0].value] + rest else rest);
      AllCons(ms[0].value, rest, k);
      assert forall j :: 0 < j < |ms| ==> ms[j] == ms[1..][j - 1];
      assert forall j :: 0 <= j < |ms[1..]| ==> ms[1..][j] == ms[j + 1];
    }
  }

  lemma {:induction false} FindAt(ms: seq<Member>, key: string)
    ensures Find(ms, key) == if At(ms, key) == [] then None else Some(At(ms, key)[0])
  {
    if ms != [] { FindAt(ms[1..], key); }
  }

  lemma {:induction false} AlikeConforms(v: Value, w: Value, k: Kind)
    requires Alike(v, w, k)
    ensures Conforms(v, k) <==> Conforms(w, k)
    decreases k, 0
  {
    if v != w {
      match k
      case AList(item) => AlikeSeqConforms(v.items, w.items, item);
      case ARecord(fields) =>
        forall i | 0 <= i < |fields| ensures FieldConforms(v.members, fields[i]) <==> FieldConforms(w.members, fields[i]) {
          FieldAlikeConforms(v.members, w.members, fields[i]);
        }
      case _ =>
    }
  }

  lemma {:induction false} AlikeSeqConforms(vs: seq<Value>, ws: seq<Value>, k: Kind)
    requires AlikeSeq(vs, ws, k)
    ensures forall i :: 0 <= i < |vs| ==> (Conforms(vs[i], k) <==> Conforms(ws[i], k))
    decreases k, 1
  {
    forall i | 0 <= i < |vs| ensures Conforms(vs[i], k) <==> Conforms(ws[i], k) { AlikeConforms(vs[i], ws[i], k); }
  }

  lemma {:induction false} FieldAlikeConforms(ms: seq<Member>, ns: seq<Member>, f: Field)
    requires FieldAlike(ms, ns, f)
    ensures FieldConforms(ms, f) <==> FieldConforms(ns, f)
    decreases f
  {
    AlikeSeqConforms(At(ms, f.key), At(ns, f.key), f.kind);
    EveryAt(ms, f.key, f.kind);
    EveryAt(ns, f.key, f.kind);
    FindAt(ms, f.key);
    FindAt(ns, f.key);
  }

  // ---- parts of alike objects ----

  predicate Leaf(k: Kind) { k.AString? || k.AFlag? || k.AnInt? }

  lemma SameScalars(ms: seq<Member>, ns: seq<Member>, fields: seq<Field>, i: nat)
    requires RecordAlike(ms, ns, fields) && i < |fields| && Leaf(fields[i].kind)
    ensures At(ms, fields[i].key) == At(ns, fields[i].key)
  {
    FieldParts(ms, ns, fields[i]);
  }

  lemma {:induction false} GatherSame<T>(f: Value -> seq<T>, vs: seq<Value>, ws: seq<Value>)
    requires |vs| == |ws| && forall i :: 0 <= i < |vs| ==> f(vs[i]) == f(ws[i])
    ensures Gather(f, vs) == Gather(f, ws)
  {
    if vs != [] { GatherSame(f, vs[1..], ws[1..]); }
  }

  /** The function takes alike values to one and the same list. */
  ghost predicate Blind<T(!new)>(f: Value -> seq<T>, k: Kind) {
    forall v, w :: Alike(v, w, k) ==> f(v) == f(w)
  }

  lemma SameLists<T(!new)>(f: Value -> seq<T>, ms: seq<Member>, ns: seq<Member>, fields: seq<Field>, i: nat)
    requires RecordAlike(ms, ns, fields) && i < |fields| && Blind(f, fields[i].kind)
    ensures Gather(f, At(ms, fields[i].key)) == Gather(f, At(ns, fields[i].key))
  {
    FieldParts(ms, ns, fields[i]);
    GatherSame(f, At(ms, fields[i].key), At(ns, fields[i].key));
  }

  lemma JoinedField(a: seq<Member>, b: seq<Member>, c: seq<Member>, d: seq<Member>, f: Field)
    requires FieldAlike(a, b, f) && FieldAlike(c, d, f)
    ensures FieldAlike(a + c, b + d, f)
  {
    FieldParts(a, b, f);
    FieldParts(c, d, f);
    AtConcat(a, c, f.key);
    AtConcat(b, d, f.key);
    assert AlikeSeq(At(a + c, f.key), At(b + d, f.key), f.kind);
  }

  lemma {:induction false} InsideAlike(vs: seq<Value>, ws: seq<Value>, fields: seq<Field>)
    requires AlikeSeq(vs, ws, ARecord(fields))
    ensures RecordAlike(Inside(vs), Inside(ws), fields)
  {
    if vs == [] {
      forall i | 0 <= i < |fields| ensures FieldAlike(Inside(vs), Inside(ws), fields[i]) { SameField([], fields[i]); }
    } else {
      InsideAlike(vs[1..], ws[1..], fields);
      assert Alike(vs[0], ws[0], ARecord(fields));
      var a := if vs[0].Obj? then vs[0].members else [];
      var b := if ws[0].Obj? then ws[0].members else [];
      if vs[0] != ws[0] { RecordParts(vs[0], ws[0], fields); }
      forall i | 0 <= i < |fields| ensures FieldAlike(Inside(vs), Inside(ws), fields[i]) {
        if vs[0] == ws[0] { SameField(a, fields[i]); }
        JoinedField(a, b, Inside(vs[1..]), Inside(ws[1..]), fields[i]);
      }
    }
  }

  lemma SameField(ms: seq<Member>, f: Field)
    ensures FieldAlike(ms, ms, f)
  {
    SameAlike(At(ms, f.key), f.kind);
  }

  lemma SameAlike(vs: seq<Value>, k: Kind)
    ensures AlikeSeq(vs, vs, k)
  {
  }

  lemma SameObjects(ms: seq<Member>, ns: seq<Member>, fields: seq<Field>, i: nat, inner: seq<Field>)
    requires RecordAlike(ms, ns, fields) && i < |fields| && fields[i].kind == ARecord(inner)
    ensures RecordAlike(Inside(At(ms, fields[i].key)), Inside(At(ns, fields[i].key)), inner)
  {
    FieldParts(ms, ns, fields[i]);
    InsideAlike(At(ms, fields[i].key), At(ns, fields[i].key), inner);
  }

  lemma SameFind(ms: seq<Member>, ns: seq<Member>, f: Field)
    requires FieldAlike(ms, ns, f)
    ensures Find(ms, f.key).Some? == Find(ns, f.key).Some?
    ensures Find(ms, f.key).Some? ==> Alike(Find(ms, f.key).value, Find(ns, f.key).value, f.kind)
  {
    FieldParts(ms, ns, f);
    FindAt(ms, f.key);
    FindAt(ns, f.key);
  }

  // ---- the meaning, level by level ----

  lemma BlindStrings()
    ensures Blind(StringsIn, Strings)
  {
    forall v, w | Alike(v, w, Strings) ensures StringsIn(v) == StringsIn(w) {
      if v != w {
        ListParts(v, w, AString);
        GatherSame(StringIn, v.items, w.items);
      }
    }
  }

  lemma BlindGids()
    ensures Blind(GidsIn, AList(AnInt(I32)))
  {
    forall v, w | Alike(v, w, AList(AnInt(I32))) ensures GidsIn(v) == GidsIn(w) {
      if v != w {
        ListParts(v, w, AnInt(I32));
        GatherSame(GidIn, v.items, w.items);
      }
    }
  }

  lemma BlindRLimits()
    ensures Blind(RLimitsIn, AList(ARecord(RLimitFields)))
  {
    forall v, w | Alike(v, w, AList(ARecord(RLimitFields))) ensures RLimitsIn(v) == RLimitsIn(w) {
      if v != w {
        ListParts(v, w, ARecord(RLimitFields));
        forall i | 0 <= i < |v.items| ensures RLimitIn(v.items[i]) == RLimitIn(w.items[i]) {
          SameRLimit(v.items[i], w.items[i]);
        }
        GatherSame(RLimitIn, v.items, w.items);
      }
    }
  }

  lemma SameRLimit(v: Value, w: Value)
    requires Alike(v, w, ARecord(RLimitFields))
    ensures RLimitIn(v) == RLimitIn(w)
  {
    if v != w {
      RecordParts(v, w, RLimitFields);
      SameFind(v.members, w.members, RLimitFields[0]);
      SameFind(v.members, w.members, RLimitFields[1]);
      SameFind(v.members, w.members, RLimitFields[2]);
    }
  }

  lemma SameMount(ms: seq<Member>, ns: seq<Member>, d: Mount)
    requires RecordAlike(ms, ns, MountFields)
    ensures MountMeaning((), ms, d) == MountMeaning((), ns, d)
  {
    SameScalars(ms, ns, MountFields, 0);
    BlindStrings();
    SameLists(StringsIn, ms, ns, MountFields, 1);
    SameScalars(ms, ns, MountFields, 2);
    SameScalars(ms, ns, MountFields, 3);
  }

  lemma BlindMounts()
    ensures Blind(MountsIn, AList(ARecord(MountFields)))
  {
    forall v, w | Alike(v, w, AList(ARecord(MountFields))) ensures MountsIn(v) == MountsIn(w) {
      if v != w {
        ListParts(v, w, ARecord(MountFields));
        forall i | 0 <= i < |v.items| ensures MountIn(v.items[i]) == MountIn(w.items[i]) {
          assert Alike(v.items[i], w.items[i], ARecord(MountFields));
          if v.items[i] != w.items[i] {
            RecordParts(v.items[i], w.items[i], MountFields);
            SameMount(v.items[i].members, w.items[i].members, NewMount);
          }
        }
        GatherSame(MountIn, v.items, w.items);
      }
    }
  }

  lemma SameNamespace(ms: seq<Member>, ns: seq<Member>, d: Namespace)
    requires RecordAlike(ms, ns, NamespaceFields)
    ensures NamespaceMeaning((), ms, d) == NamespaceMeaning((), ns, d)
  {
    SameScalars(ms, ns, NamespaceFields, 0);
    SameScalars(ms, ns, NamespaceFields, 1);
  }

  lemma BlindNamespaces()
    ensures Blind(NamespacesIn, AList(ARecord(NamespaceFields)))
  {
    forall v, w | Alike(v, w, AList(ARecord(NamespaceFields))) ensures NamespacesIn(v) == NamespacesIn(w) {
      if v != w {
        ListParts(v, w, ARecord(NamespaceFields));
        forall i | 0 <= i < |v.items| ensures NamespaceIn(v.items[i]) == NamespaceIn(w.items[i]) {
          assert Alike(v.items[i], w.items[i], ARecord(NamespaceFields));
          if v.items[i] != w.items[i] {
            RecordParts(v.items[i], w.items[i], NamespaceFields);
            SameNamespace(v.items[i].members, w.items[i].members, NewNamespace);
          }
        }
        GatherSame(NamespaceIn, v.items, w.items);
      }
    }
  }

  lemma SameMapping(ms: seq<Member>, ns: seq<Member>, d: IdMapping)
    requires RecordAlike(ms, ns, MappingFields)
    ensures MappingMeaning((), ms, d) == MappingMeaning((), ns, d)
  {
    SameScalars(ms, ns, MappingFields, 0);
    SameScalars(ms, ns, MappingFields, 1);
    SameScalars(ms, ns, MappingFields, 2);
  }

  lemma BlindMappings()
    ensures Blind(MappingsIn, AList(ARecord(MappingFields)))
  {
    forall v, w | Alike(v, w, AList(ARecord(MappingFields))) ensures MappingsIn(v) == MappingsIn(w) {
      if v != w {
        ListParts(v, w, ARecord(MappingFields));
        forall i | 0 <= i < |v.items| ensures MappingIn(v.items[i]) == MappingIn(w.items[i]) {
          assert Alike(v.items[i], w.items[i], ARecord(MappingFields));
          if v.items[i] != w.items[i] {
            RecordParts(v.items[i], w.items[i], MappingFields);
            SameMapping(v.items[i].members, w.items[i].members, NewMapping);
          }
        }
        GatherSame(MappingIn, v.items, w.items);
      }
    }
  }

  lemma SameDevice(ms: seq<Member>, ns: seq<Member>, d: Device)
    requires RecordAlike(ms, ns, DeviceFields)
    ensures DeviceMeaning((), ms, d) == DeviceMeaning((), ns, d)
  {
    SameScalars(ms, ns, DeviceFields, 0);
    SameScalars(ms, ns, DeviceFields, 1);
    SameScalars(ms, ns, DeviceFields, 2);
    SameScalars(ms, ns, DeviceFields, 3);
    SameScalars(ms, ns, DeviceFields, 4);
    SameScalars(ms, ns, DeviceFields, 5);
    SameScalars(ms, ns, DeviceFields, 6);
  }

  lemma BlindDevices()
    ensures Blind(DevicesIn, AList(ARecord(DeviceFields)))
  {
    forall v, w | Alike(v, w, AList(ARecord(DeviceFields))) ensures DevicesIn(v) == DevicesIn(w) {
      if v != w {
        ListParts(v, w, ARecord(DeviceFields));
        forall i | 0 <= i < |v.items| ensures DeviceIn(v.items[i]) == DeviceIn(w.items[i]) {
          assert Alike(v.items[i], w.items[i], ARecord(DeviceFields));
          if v.items[i] != w.items[i] {
            RecordParts(v.items[i], w.items[i], DeviceFields);
            SameDevice(v.items[i].members, w.items[i].members, NewDevice);
          }
        }
        GatherSame(DeviceIn, v.items, w.items);
      }
    }
  }

  lemma SameConsole(ms: seq<Member>, ns: seq<Member>, c: Console)
    requires RecordAlike(ms, ns, ConsoleFields)
    ensures ConsoleMeaning((), ms, c) == ConsoleMeaning((), ns, c)
  {
    SameScalars(ms, ns, ConsoleFields, 0);
    SameScalars(ms, ns, ConsoleFields, 1);
  }

  lemma SameUser(ms: seq<Member>, ns: seq<Member>, u: User)
    requires RecordAlike(ms, ns, UserFields)
    ensures UserMeaning((), ms, u) == UserMeaning((), ns, u)
  {
    SameScalars(ms, ns, UserFields, 0);
    SameScalars(ms, ns, UserFields, 1);
    SameScalars(ms, ns, UserFields, 2);
    BlindGids();
    SameLists(GidsIn, ms, ns, UserFields, 3);
  }

  lemma SameCapability(ms: seq<Member>, ns: seq<Member>, i: nat)
    requires RecordAlike(ms, ns, CapabilityFields) && i < 5
    ensures CapabilityIn(ms, CapabilityFields[i].key) == CapabilityIn(ns, CapabilityFields[i].key)
  {
    BlindStrings();
    SameFind(ms, ns, CapabilityFields[i]);
  }

  lemma SameCapabilities(ms: seq<Member>, ns: seq<Member>, c: Capabilities)
    requires RecordAlike(ms, ns, CapabilityFields)
    ensures CapabilitiesMeaning(ms, c) == CapabilitiesMeaning(ns, c)
  {
    SameCapability(ms, ns, 0);
    SameCapability(ms, ns, 1);
    SameCapability(ms, ns, 2);
    SameCapability(ms, ns, 3);
    SameCapability(ms, ns, 4);
  }

  lemma {:induction false} SameAllCapabilities(vs: seq<Value>, ws: seq<Value>, c: Capabilities)
    requires AlikeSeq(vs, ws, ARecord(CapabilityFields))
    ensures AllCapabilities(vs, c) == AllCapabilities(ws, c)
  {
    if vs != [] {
      assert Alike(vs[0], ws[0], ARecord(CapabilityFields));
      var d := if vs[0].Obj? then CapabilitiesMeaning(vs[0].members, c) else c;
      if vs[0] != ws[0] {
        RecordParts(vs[0], ws[0], CapabilityFields);
        SameCapabilities(vs[0].members, ws[0].members, c);
      }
      SameAllCapabilities(vs[1..], ws[1..], d);
    }
  }

  lemma {:induction false} SameAllRLimits(whole: seq<Member>, other: seq<Member>, vs: seq<Value>, ws: seq<Value>)
    requires |vs| == |ws|
    requires Find(whole, "rlimits").Some? == Find(other, "rlimits").Some?
    requires Find(whole, "rlimits").Some? ==> RLimitsIn(Find(whole, "rlimits").value) == RLimitsIn(Find(other, "rlimits").value)
    ensures AllRLimits(whole, vs) == AllRLimits(other, ws)
  {
    if vs != [] { SameAllRLimits(whole, other, vs[1..], ws[1..]); }
  }

  lemma ProcessParts(ms: seq<Member>, ns: seq<Member>)
    requires RecordAlike(ms, ns, ProcessFields)
    ensures RecordAlike(ms, ns, PlainProcessFields) && FieldAlike(ms, ns, RLimitsField)
  {
    assert ProcessFields[9] == RLimitsField;
    forall i | 0 <= i < |PlainProcessFields| ensures FieldAlike(ms, ns, PlainProcessFields[i]) {
      assert ProcessFields[i] == PlainProcessFields[i];
    }
  }

  lemma SameProcessRLimits(ms: seq<Member>, ns: seq<Member>)
    requires FieldAlike(ms, ns, RLimitsField)
    ensures AllRLimits(ms, At(ms, "rlimits")) == AllRLimits(ns, At(ns, "rlimits"))
  {
    BlindRLimits();
    SameFind(ms, ns, RLimitsField);
    FieldParts(ms, ns, RLimitsField);
    SameAllRLimits(ms, ns, At(ms, "rlimits"), At(ns, "rlimits"));
  }

  lemma SameProcessLists(ms: seq<Member>, ns: seq<Member>, c: Capabilities)
    requires RecordAlike(ms, ns, PlainProcessFields)
    ensures Gather(StringsIn, At(ms, "args")) == Gather(StringsIn, At(ns, "args"))
    ensures Gather(StringsIn, At(ms, "env")) == Gather(StringsIn, At(ns, "env"))
    ensures AllCapabilities(At(ms, "capabilities"), c) == AllCapabilities(At(ns, "capabilities"), c)
  {
    BlindStrings();
    SameLists(StringsIn, ms, ns, PlainProcessFields, 0);
    SameLists(StringsIn, ms, ns, PlainProcessFields, 4);
    FieldParts(ms, ns, PlainProcessFields[3]);
    SameAllCapabilities(At(ms, "capabilities"), At(ns, "capabilities"), c);
  }

  lemma SameProcessScalars(ms: seq<Member>, ns: seq<Member>)
    requires RecordAlike(ms, ns, PlainProcessFields)
    ensures At(ms, "cwd") == At(ns, "cwd") && At(ms, "noNewPrivileges") == At(ns, "noNewPrivileges")
    ensures At(ms, "oomScoreAdj") == At(ns, "oomScoreAdj") && At(ms, "terminal") == At(ns, "terminal")
  {
    SameScalars(ms, ns, PlainProcessFields, 2);
    SameScalars(ms, ns, PlainProcessFields, 5);
    SameScalars(ms, ns, PlainProcessFields, 6);
    SameScalars(ms, ns, PlainProcessFields, 7);
  }

  lemma SameProcessObjects(ms: seq<Member>, ns: seq<Member>, p: Process)
    requires RecordAlike(ms, ns, PlainProcessFields)
    ensures ConsoleMeaning((), Inside(At(ms, "consoleSize")), p.console) == ConsoleMeaning((), Inside(At(ns, "consoleSize")), p.console)
    ensures UserMeaning((), Inside(At(ms, "user")), p.user) == UserMeaning((), Inside(At(ns, "user")), p.user)
  {
    SameObjects(ms, ns, PlainProcessFields, 1, ConsoleFields);
    SameConsole(Inside(At(ms, "consoleSize")), Inside(At(ns, "consoleSize")), p.console);
    SameObjects(ms, ns, PlainProcessFields, 8, UserFields);
    SameUser(Inside(At(ms, "user")), Inside(At(ns, "user")), p.user);
  }

  lemma SameProcess(ms: seq<Member>, ns: seq<Member>, p: Process)
    requires RecordAlike(ms, ns, ProcessFields)
    ensures ProcessMeaning(ms, ms, p) == ProcessMeaning(ns, ns, p)
  {
    ProcessParts(ms, ns);
    SameProcessRLimits(ms, ns);
    SameProcessLists(ms, ns, p.caps);
    SameProcessScalars(ms, ns);
    SameProcessObjects(ms, ns, p);
  }

  lemma {:induction false} SameAllProcesses(vs: seq<Value>, ws: seq<Value>, p: Process)
    requires AlikeSeq(vs, ws, ARecord(ProcessFields))
    ensures AllProcesses(vs, p) == AllProcesses(ws, p)
  {
    if vs != [] {
      assert Alike(vs[0], ws[0], ARecord(ProcessFields));
      var q := if vs[0].Obj? then ProcessMeaning(vs[0].members, vs[0].members, p) else p;
      if vs[0] != ws[0] {
        RecordParts(vs[0], ws[0], ProcessFields);
        SameProcess(vs[0].members, ws[0].members, p);
      }
      SameAllProcesses(vs[1..], ws[1..], q);
    }
  }

  lemma SameRoot(ms: seq<Member>, ns: seq<Member>, r: Root)
    requires RecordAlike(ms, ns, RootFields)
    ensures RootMeaning((), ms, r) == RootMeaning((), ns, r)
  {
    SameScalars(ms, ns, RootFields, 0);
    SameScalars(ms, ns, RootFields, 1);
  }

  lemma SameResources(ms: seq<Member>, ns: seq<Member>, x: Memory)
    requires RecordAlike(ms, ns, ResourcesFields)
    ensures ResourcesMeaning((), ms, x) == ResourcesMeaning((), ns, x)
  {
    SameObjects(ms, ns, ResourcesFields, 0, MemoryFields);
    SameScalars(Inside(At(ms, "memory")), Inside(At(ns, "memory")), MemoryFields, 0);
    SameScalars(Inside(At(ms, "memory")), Inside(At(ns, "memory")), MemoryFields, 1);
  }

  /** Everything but the order of the mappings. */
  lemma SameLinux(ms: seq<Member>, ns: seq<Member>, x: Linux)
    requires RecordAlike(ms, ns, LinuxFields)
    ensures var r, s := LinuxMeaning((), ms, x), LinuxMeaning((), ns, x); r == s.(uidMappings := r.uidMappings)
  {
    BlindNamespaces();
    SameLists(NamespacesIn, ms, ns, LinuxFields, 0);
    BlindDevices();
    SameLists(DevicesIn, ms, ns, LinuxFields, 3);
    SameScalars(ms, ns, LinuxFields, 4);
    SameObjects(ms, ns, LinuxFields, 5, ResourcesFields);
    SameResources(Inside(At(ms, "resources")), Inside(At(ns, "resources")), x.memory);
  }

  lemma SameAnnotations(ms: seq<Member>, ns: seq<Member>, cmds: seq<string>)
    requires RecordAlike(ms, ns, AnnotationFields)
    ensures AnnotationsMeaning((), ms, cmds) == AnnotationsMeaning((), ns, cmds)
  {
    BlindStrings();
    SameLists(StringsIn, ms, ns, AnnotationFields, 0);
  }

  /** The members of the document's "linux" objects. */
  function LinuxMembers(v: Value): seq<Member>
    requires v.Obj?
  {
    Inside(At(v.members, "linux"))
  }

  lemma SameConfig(ms: seq<Member>, ns: seq<Member>, b: Config)
    requires RecordAlike(ms, ns, ConfigFields)
    ensures RecordAlike(Inside(At(ms, "linux")), Inside(At(ns, "linux")), LinuxFields)
    ensures var r, s := ConfigMeaning((), ms, b), ConfigMeaning((), ns, b);
            r == s.(linux := s.linux.(uidMappings := r.linux.uidMappings))
  {
    SameObjects(ms, ns, ConfigFields, 0, AnnotationFields);
    SameAnnotations(Inside(At(ms, "annotations")), Inside(At(ns, "annotations")), b.cmds);
    BlindMounts();
    SameLists(MountsIn, ms, ns, ConfigFields, 1);
    SameScalars(ms, ns, ConfigFields, 2);
    FieldParts(ms, ns, ConfigFields[3]);
    SameAllProcesses(At(ms, "process"), At(ns, "process"), b.process);
    SameObjects(ms, ns, ConfigFields, 4, RootFields);
    SameRoot(Inside(At(ms, "root")), Inside(At(ns, "root")), b.root);
    SameObjects(ms, ns, ConfigFields, 5, LinuxFields);
    SameLinux(Inside(At(ms, "linux")), Inside(At(ns, "linux")), b.linux);
  }

  // ---- the mappings ----

  /** The keys of the two kinds of mappings, in document order. */
  function MappingKeys(ms: seq<Member>): seq<bool> {
    if ms == [] then []
    else (if ms[0].key == "uidMappings" then [true] else if ms[0].key == "gidMappings" then [false] else []) + MappingKeys(ms[1..])
  }

  lemma BagCons<T>(x: seq<T>, e: seq<T>, p: seq<T>, q: seq<T>)
    requires multiset(e) == multiset(p) + multiset(q)
    ensures multiset(x + e) == multiset(x + p) + multiset(q)
    ensures multiset(x + e) == multiset(p) + multiset(x + q)
  {
  }

  lemma {:induction false} EitherIsBoth<T>(f: Value -> seq<T>, ms: seq<Member>, a: string, b: string)
    requires a != b
    ensures multiset(Gather(f, AtEither(ms, a, b))) == multiset(Gather(f, At(ms, a))) + multiset(Gather(f, At(ms, b)))
  {
    if ms != [] {
      var x, e, p, q := ms[0].value, AtEither(ms[1..], a, b), At(ms[1..], a), At(ms[1..], b);
      EitherIsBoth(f, ms[1..], a, b);
      GatherCons(f, x, e);
      if ms[0].key == a {
        GatherCons(f, x, p);
        assert At(ms, b) == q;
        BagCons(f(x), Gather(f, e), Gather(f, p), Gather(f, q));
      } else if ms[0].key == b {
        GatherCons(f, x, q);
        assert At(ms, a) == p;
        BagCons(f(x), Gather(f, e), Gather(f, p), Gather(f, q));
      } else {
        assert At(ms, a) == p && At(ms, b) == q && AtEither(ms, a, b) == e;
      }
    }
  }

  lemma GatherCons<T>(f: Value -> seq<T>, x: Value, vs: seq<Value>)
    ensures Gather(f, [x] + vs) == f(x) + Gather(f, vs)
    ensures [] + vs == vs
  {
    assert ([x] + vs)[1..] == vs;
  }

  /** Alike documents load alike: the same verdict, and the same bundle but for the order
      of the mappings, which are a rearrangement of each other. */
  lemma AlikeLoadsAlike(v: Value, w: Value, b: Config)
    requires Alike(v, w, ConfigKind)
    ensures LoadConfig(v, b).ok == LoadConfig(w, b).ok
    ensures LoadConfig(v, b).ok ==>
              var r, s := LoadConfig(v, b).acc, LoadConfig(w, b).acc;
              && r == s.(linux := s.linux.(uidMappings := r.linux.uidMappings))
              && multiset(r.linux.uidMappings) == multiset(s.linux.uidMappings)
  {
    AcceptedIffConforms(v, b);
    AcceptedIffConforms(w, b);
    AlikeConforms(v, w, ConfigKind);
    if LoadConfig(v, b).ok && v != w {
      LoaderComputesMeaning(v, b);
      LoaderComputesMeaning(w, b);
      SameConfig(v.members, w.members, b);
      SameMappingBag(LinuxMembers(v), LinuxMembers(w), b.linux);
    }
  }

  lemma SameMappingBag(ms: seq<Member>, ns: seq<Member>, x: Linux)
    requires RecordAlike(ms, ns, LinuxFields)
    ensures multiset(LinuxMeaning((), ms, x).uidMappings) == multiset(LinuxMeaning((), ns, x).uidMappings)
  {
    BlindMappings();
    SameLists(MappingsIn, ms, ns, LinuxFields, 1);
    SameLists(MappingsIn, ms, ns, LinuxFields, 2);
    EitherIsBoth(MappingsIn, ms, "uidMappings", "gidMappings");
    EitherIsBoth(MappingsIn, ns, "uidMappings", "gidMappings");
  }
}
