/** Extensibility: members the loader does not recognise change nothing, wherever they are. */
module BundleUnknown {
  import opened Wrappers
  import opened Json
  import opened BundleModel
  import opened BundleSchema
  import opened BundleMeaning
  import opened BundleValues
  import opened BundleAlike
  import opened BundleOrder

  /** Where the table has the key, if it does. */
  function FieldOf(fields: seq<Field>, key: string): (r: Option<nat>)
    ensures r.Some? ==> r.value < |fields| && fields[r.value].key == key
    ensures r.None? ==> forall i :: 0 <= i < |fields| ==> fields[i].key != key
  {
    if fields == [] then None
    else if fields[0].key == key then Some(0)
    else match FieldOf(fields[1..], key) case None => None case Some(i) => Some(i + 1)
  }

  /** The value without the members that the kind has no field for, at every level. */
  function Erase(v: Value, k: Kind): Value
    decreases k
  {
    match k
    case AList(item) => if v.Arr? then Arr(seq(|v.items|, i requires 0 <= i < |v.items| => Erase(v.items[i], item))) else v
    case ARecord(fields) => if v.Obj? then Obj(EraseMembers(v.members, k)) else v
    case _ => v
  }

  function EraseMembers(ms: seq<Member>, k: Kind): seq<Member>
    requires k.ARecord?
    decreases k, |ms|
  {
    if ms == [] then []
    else EraseMember(ms[0], k) + EraseMembers(ms[1..], k)
  }

  function EraseMember(m: Member, k: Kind): seq<Member>
    requires k.ARecord?
    decreases k, 0
  {
    match FieldOf(k.fields, m.key)
    case None => []
    case Some(i) => [Member(m.key, Erase(m.value, k.fields[i].kind))]
  }

  /** Every table names a key once, at every level. */
  predicate Tidy(k: Kind)
    decreases k
  {
    match k
    case AList(item) => Tidy(item)
    case ARecord(fields) => DistinctFields(fields) && forall i :: 0 <= i < |fields| ==> TidyField(fields[i])
    case _ => true
  }

  predicate TidyField(f: Field)
    decreases f
  {
    Tidy(f.kind)
  }

  predicate DistinctFields(fields: seq<Field>) {
    forall i, j :: 0 <= i < j < |fields| ==> fields[i].key != fields[j].key
  }

  // ---- erasing keeps what is under the known keys ----

  lemma EraseStep(m: Member, k: Kind, i: nat)
    requires k.ARecord? && i < |k.fields| && DistinctFields(k.fields)
    ensures At(EraseMember(m, k), k.fields[i].key) == if m.key == k.fields[i].key then [Erase(m.value, k.fields[i].kind)] else []
  {
    if m.key == k.fields[i].key {
      var j := FieldOf(k.fields, m.key).value;
      assert j == i;
      assert EraseMember(m, k) == [Member(m.key, Erase(m.value, k.fields[i].kind))];
    }
    if EraseMember(m, k) != [] { AtOne(EraseMember(m, k)[0], k.fields[i].key); }
  }

  lemma {:induction false} ErasedField(ms: seq<Member>, k: Kind, i: nat)
    requires k.ARecord? && i < |k.fields| && Tidy(k)
    ensures FieldAlike(ms, EraseMembers(ms, k), k.fields[i])
    decreases k, |ms|
  {
    var f := k.fields[i];
    if ms == [] {
      SameField([], f);
    } else {
      ErasedField(ms[1..], k, i);
      EraseStep(ms[0], k, i);
      AtOne(ms[0], f.key);
      assert TidyField(f);
      assert FieldAlike([ms[0]], EraseMember(ms[0], k), f) by {
        if ms[0].key == f.key { ErasedAlike(ms[0].value, f.kind); }
        assert AlikeSeq(At([ms[0]], f.key), At(EraseMember(ms[0], k), f.key), f.kind);
      }
      JoinedField([ms[0]], EraseMember(ms[0], k), ms[1..], EraseMembers(ms[1..], k), f);
      assert ms == [ms[0]] + ms[1..];
    }
  }

  lemma {:induction false} ErasedAlike(v: Value, k: Kind)
    requires Tidy(k)
    ensures Alike(v, Erase(v, k), k)
    decreases k
  {
    match k
    case AList(item) =>
      if v.Arr? {
        forall i | 0 <= i < |v.items| ensures Alike(v.items[i], Erase(v, k).items[i], item) { ErasedAlike(v.items[i], item); }
        assert AlikeSeq(v.items, Erase(v, k).items, item);
      }
    case ARecord(fields) =>
      if v.Obj? {
        forall i | 0 <= i < |fields| ensures FieldAlike(v.members, Erase(v, k).members, fields[i]) { ErasedField(v.members, k, i); }
      }
    case _ =>
  }

  /** Inserting a member under an unknown key, anywhere in an object, leaves nothing after
      erasing. */
  lemma {:induction false} InsertedIsErased(a: seq<Member>, m: Member, b: seq<Member>, k: Kind)
    requires k.ARecord? && FieldOf(k.fields, m.key).None?
    ensures EraseMembers(a + [m] + b, k) == EraseMembers(a + b, k)
    ensures Erase(Obj(a + [m] + b), k) == Erase(Obj(a + b), k)
    decreases |a|
  {
    if a == [] {
      assert a + [m] + b == [m] + b && ([m] + b)[1..] == b && a + b == b;
      assert EraseMembers([m] + b, k) == EraseMember(m, k) + EraseMembers(b, k);
    } else {
      assert (a + [m] + b)[1..] == a[1..] + [m] + b && (a + b)[1..] == a[1..] + b;
      InsertedIsErased(a[1..], m, b, k);
    }
  }

  // ---- the schema is tidy ----

  lemma TidyLeaves()
    ensures Tidy(Strings) && Tidy(ARecord(ConsoleFields)) && Tidy(ARecord(UserFields)) && Tidy(ARecord(RootFields))
  {
  }

  lemma TidyCapabilities()
    ensures Tidy(ARecord(CapabilityFields)) && Tidy(RLimitsField.kind)
  {
    assert Tidy(ARecord(RLimitFields));
  }

  lemma DistinctPlainProcessFields()
    ensures DistinctFields(PlainProcessFields)
  {
    forall i, j | 0 <= i < j < |PlainProcessFields| ensures PlainProcessFields[i].key != PlainProcessFields[j].key {
      ProcessKeyAt(i);
      ProcessKeyAt(j);
    }
  }

  /** The number that tells the keys of a process apart. */
  lemma ProcessKeyAt(i: nat)
    requires i < |PlainProcessFields|
    ensures ProcessKey(PlainProcessFields[i].key) == if i < 7 then i + 1 else i + 2
  {
  }

  lemma TidyProcess()
    ensures Tidy(ARecord(ProcessFields))
  {
    DistinctPlainProcessFields();
    TidyLeaves();
    TidyCapabilities();
    forall i, j | 0 <= i < j < |ProcessFields| ensures ProcessFields[i].key != ProcessFields[j].key {
      if j == 9 {
        ProcessKeyAt(i);
        assert ProcessKey(RLimitsField.key) == 8;
      } else {
        assert PlainProcessFields[i].key != PlainProcessFields[j].key;
      }
    }
    forall i | 0 <= i < |ProcessFields| ensures TidyField(ProcessFields[i]) {
      if i < 9 { assert ProcessFields[i] == PlainProcessFields[i]; }
    }
  }

  lemma TidyMountsAndDevices()
    ensures Tidy(AList(ARecord(MountFields))) && Tidy(AList(ARecord(DeviceFields)))
  {
    TidyLeaves();
    assert Tidy(ARecord(MountFields));
    assert Tidy(ARecord(DeviceFields));
  }

  lemma TidyLinux()
    ensures Tidy(ARecord(LinuxFields))
  {
    TidyMountsAndDevices();
    assert Tidy(ARecord(NamespaceFields));
    assert Tidy(ARecord(MappingFields));
    assert Tidy(ARecord(MemoryFields));
    assert Tidy(ARecord(ResourcesFields));
    assert Tidy(AList(ARecord(NamespaceFields)));
    assert Tidy(AList(ARecord(MappingFields)));
  }

  lemma TidyConfig()
    ensures Tidy(ConfigKind)
  {
    TidyLeaves();
    TidyProcess();
    TidyMountsAndDevices();
    TidyLinux();
    assert Tidy(ARecord(AnnotationFields));
  }

  // ---- the order of the mappings is kept ----

  lemma {:induction false} MappingKeysConcat(a: seq<Member>, b: seq<Member>)
    ensures MappingKeys(a + b) == MappingKeys(a) + MappingKeys(b)
  {
    if a == [] {
      assert a + b == b;
    } else {
      assert (a + b)[1..] == a[1..] + b;
      MappingKeysConcat(a[1..], b);
    }
  }

  lemma {:induction false} MappingKeysErased(ms: seq<Member>)
    ensures MappingKeys(EraseMembers(ms, ARecord(LinuxFields))) == MappingKeys(ms)
  {
    if ms != [] {
      var k := ARecord(LinuxFields);
      MappingKeysErased(ms[1..]);
      MappingKeysConcat(EraseMember(ms[0], k), EraseMembers(ms[1..], k));
      assert LinuxFields[1].key == "uidMappings" && LinuxFields[2].key == "gidMappings";
      assert MappingKeys(ms) == MappingKeys([ms[0]]) + MappingKeys(ms[1..]) by {
        assert ms == [ms[0]] + ms[1..];
        MappingKeysConcat([ms[0]], ms[1..]);
      }
      assert MappingKeys(EraseMember(ms[0], k)) == MappingKeys([ms[0]]);
    }
  }

  lemma OrderErasedObject(v: Value)
    ensures MappingKeys(Inside([Erase(v, ARecord(LinuxFields))])) == MappingKeys(Inside([v]))
  {
    if v.Obj? {
      InsideOne(v);
      InsideOne(Erase(v, ARecord(LinuxFields)));
      MappingKeysErased(v.members);
    }
  }

  lemma OrderErasedOne(m: Member)
    ensures MappingKeys(Inside(At(EraseMember(m, ConfigKind), "linux"))) == MappingKeys(Inside(At([m], "linux")))
  {
    TidyConfig();
    EraseStep(m, ConfigKind, 5);
    AtOne(m, "linux");
    OrderErasedObject(m.value);
  }

  lemma {:induction false} OrderErased(ms: seq<Member>, k: Kind)
    requires k == ConfigKind
    ensures MappingKeys(Inside(At(EraseMembers(ms, k), "linux"))) == MappingKeys(Inside(At(ms, "linux")))
  {
    if ms != [] {
      OrderErased(ms[1..], k);
      OrderErasedOne(ms[0]);
      AtConcat(EraseMember(ms[0], k), EraseMembers(ms[1..], k), "linux");
      OrderJoined(At(EraseMember(ms[0], k), "linux"), At(EraseMembers(ms[1..], k), "linux"));
      assert ms == [ms[0]] + ms[1..];
      AtConcat([ms[0]], ms[1..], "linux");
      OrderJoined(At([ms[0]], "linux"), At(ms[1..], "linux"));
    }
  }

  lemma OrderJoined(a: seq<Value>, b: seq<Value>)
    ensures MappingKeys(Inside(a + b)) == MappingKeys(Inside(a)) + MappingKeys(Inside(b))
  {
    InsideConcat(a, b);
    MappingKeysConcat(Inside(a), Inside(b));
  }

  // ---- the theorems ----

  /** Leaving out all unknown members, at every level, changes neither the verdict nor the
      bundle. */
  lemma UnknownChangesNothing(v: Value, b: Config)
    ensures LoadConfig(v, b).ok == LoadConfig(Erase(v, ConfigKind), b).ok
    ensures LoadConfig(v, b).ok ==> LoadConfig(v, b).acc == LoadConfig(Erase(v, ConfigKind), b).acc
  {
    var w := Erase(v, ConfigKind);
    TidyConfig();
    ErasedAlike(v, ConfigKind);
    AlikeLoadsAlike(v, w, b);
    if LoadConfig(v, b).ok {
      OrderErased(v.members, ConfigKind);
      AlikeLoadsSame(v, w, b);
    }
  }

  /** Two documents that differ only in unknown members, inserted or removed anywhere, load
      the same. */
  lemma OnlyKnownMembersCount(v: Value, w: Value, b: Config)
    requires Erase(v, ConfigKind) == Erase(w, ConfigKind)
    ensures LoadConfig(v, b).ok == LoadConfig(w, b).ok
    ensures LoadConfig(v, b).ok ==> LoadConfig(v, b).acc == LoadConfig(w, b).acc
  {
    UnknownChangesNothing(v, b);
    UnknownChangesNothing(w, b);
  }
}
