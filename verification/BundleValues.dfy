/** The loader computes the meaning: on every accepted configuration the fields it leaves
    behind are those of `BundleMeaning`. */
module BundleValues {
  import opened Json
  import opened BundleModel
  import opened BundleMeaning

  // ---- one member in front of others ----

  lemma AtOne(m: Member, key: string)
    ensures At([m], key) == if m.key == key then [m.value] else []
  {
    assert [m][1..] == [];
  }

  lemma Single(v: Value)
    ensures forall none :: LastString([v], none) == if v.Str? then v.s else none
    ensures forall none :: LastInt([v], none) == if v.Int? then v.n else none
    ensures forall none :: LastFlag([v], none) == if v.Bool? then v.flag else none
  {
    assert [v][1..] == [];
  }

  /** Scalars under any key of a single member. */
  lemma OneMember(m: Member)
    ensures forall key, none :: LastString(At([m], key), none) == if m.key == key && m.value.Str? then m.value.s else none
    ensures forall key, none :: LastInt(At([m], key), none) == if m.key == key && m.value.Int? then m.value.n else none
    ensures forall key, none :: LastFlag(At([m], key), none) == if m.key == key && m.value.Bool? then m.value.flag else none
    ensures forall key :: At([m], key) == if m.key == key then [m.value] else []
  {
    forall key ensures At([m], key) == if m.key == key then [m.value] else [] { AtOne(m, key); }
    Single(m.value);
  }

  lemma {:induction false} LastStringConcat(a: seq<Value>, b: seq<Value>, none: string)
    ensures LastString(a + b, none) == LastString(b, LastString(a, none))
    decreases |a|
  {
    if a == [] {
      assert a + b == b;
    } else {
      assert (a + b)[1..] == a[1..] + b;
      LastStringConcat(a[1..], b, if a[0].Str? then a[0].s else none);
    }
  }

  lemma {:induction false} LastIntConcat(a: seq<Value>, b: seq<Value>, none: int)
    ensures LastInt(a + b, none) == LastInt(b, LastInt(a, none))
    decreases |a|
  {
    if a == [] {
      assert a + b == b;
    } else {
      assert (a + b)[1..] == a[1..] + b;
      LastIntConcat(a[1..], b, if a[0].Int? then a[0].n else none);
    }
  }

  lemma {:induction false} LastFlagConcat(a: seq<Value>, b: seq<Value>, none: bool)
    ensures LastFlag(a + b, none) == LastFlag(b, LastFlag(a, none))
    decreases |a|
  {
    if a == [] {
      assert a + b == b;
    } else {
      assert (a + b)[1..] == a[1..] + b;
      LastFlagConcat(a[1..], b, if a[0].Bool? then a[0].flag else none);
    }
  }

  /** A scalar under a key, when a member is put in front. */
  lemma StringCons(m: Member, ms: seq<Member>, key: string, none: string)
    ensures LastString(At([m] + ms, key), none) == LastString(At(ms, key), LastString(At([m], key), none))
  {
    AtConcat([m], ms, key);
    LastStringConcat(At([m], key), At(ms, key), none);
  }

  lemma IntCons(m: Member, ms: seq<Member>, key: string, none: int)
    ensures LastInt(At([m] + ms, key), none) == LastInt(At(ms, key), LastInt(At([m], key), none))
  {
    AtConcat([m], ms, key);
    LastIntConcat(At([m], key), At(ms, key), none);
  }

  lemma FlagCons(m: Member, ms: seq<Member>, key: string, none: bool)
    ensures LastFlag(At([m] + ms, key), none) == LastFlag(At(ms, key), LastFlag(At([m], key), none))
  {
    AtConcat([m], ms, key);
    LastFlagConcat(At([m], key), At(ms, key), none);
  }

  lemma ListCons<T>(f: Value -> seq<T>, m: Member, ms: seq<Member>, key: string, acc: seq<T>)
    ensures acc + Gather(f, At([m] + ms, key)) == acc + Gather(f, At([m], key)) + Gather(f, At(ms, key))
  {
    AtConcat([m], ms, key);
    GatherConcat(f, At([m], key), At(ms, key));
  }

  lemma GatherOne<T>(f: Value -> seq<T>, v: Value)
    ensures Gather(f, [v]) == f(v)
  {
    assert [v][1..] == [];
    assert f(v) + [] == f(v);
  }

  // ---- plain lists ----

  lemma StringsMean(v: Value, acc: seq<string>)
    requires LoadStrings(v, acc).ok
    ensures LoadStrings(v, acc).acc == acc + StringsIn(v)
  {
    FoldItemsGathers(StringItem, StringIn, v.items, acc);
  }

  lemma GidsMean(v: Value, acc: seq<int>)
    requires LoadGids(v, acc).ok
    ensures LoadGids(v, acc).acc == acc + GidsIn(v)
  {
    FoldItemsGathers(GidItem, GidIn, v.items, acc);
  }

  lemma RLimitsMean(v: Value, acc: seq<RLimit>)
    requires LoadRLimits(v, acc).ok
    ensures LoadRLimits(v, acc).acc == acc + RLimitsIn(v)
  {
    FoldItemsGathers(RLimitItem, RLimitIn, v.items, acc);
  }

  // ---- records that are list items ----

  lemma MountSequential()
    ensures Sequential(MountMeaning, ())
  {
    forall m: Member, ms: seq<Member>, d: Mount
      ensures MountMeaning((), [m] + ms, d) == MountMeaning((), ms, MountMeaning((), [m], d)) {
      StringCons(m, ms, "destination", d.destination);
      StringCons(m, ms, "source", d.source);
      StringCons(m, ms, "type", d.kind);
      ListCons(StringsIn, m, ms, "options", d.options);
    }
  }

  lemma MountOne(d: Mount, m: Member)
    requires MountMember((), d, m).ok
    ensures MountMember((), d, m).acc == MountMeaning((), [m], d)
  {
    AtOne(m, "destination"); AtOne(m, "source"); AtOne(m, "type"); AtOne(m, "options");
    Single(m.value);
    if m.key == "options" {
      StringsMean(m.value, d.options);
      GatherOne(StringsIn, m.value);
    }
  }

  lemma MountMeans(ms: seq<Member>, d: Mount)
    requires Fold(MountMember, (), ms, d).ok
    ensures Fold(MountMember, (), ms, d).acc == MountMeaning((), ms, d)
  {
    MountSequential();
    forall d: Mount, m: Member | MountMember((), d, m).ok ensures MountMember((), d, m).acc == MountMeaning((), [m], d) { MountOne(d, m); }
    FoldMeans(MountMember, MountMeaning, (), ms, d);
  }

  lemma MountsMean(v: Value, acc: seq<Mount>)
    requires LoadMounts(v, acc).ok
    ensures LoadMounts(v, acc).acc == acc + MountsIn(v)
  {
    forall acc, v | MountItem(acc, v).ok ensures MountItem(acc, v).acc == acc + MountIn(v) { MountMeans(v.members, NewMount); }
    FoldItemsGathers(MountItem, MountIn, v.items, acc);
  }

  lemma NamespaceMeans(ms: seq<Member>, d: Namespace)
    requires Fold(NamespaceMember, (), ms, d).ok
    ensures Fold(NamespaceMember, (), ms, d).acc == NamespaceMeaning((), ms, d)
  {
    forall m: Member, ms: seq<Member>, d: Namespace
      ensures NamespaceMeaning((), [m] + ms, d) == NamespaceMeaning((), ms, NamespaceMeaning((), [m], d)) {
      StringCons(m, ms, "type", d.kind);
      StringCons(m, ms, "path", d.path);
    }
    forall d: Namespace, m: Member | NamespaceMember((), d, m).ok
      ensures NamespaceMember((), d, m).acc == NamespaceMeaning((), [m], d) { OneMember(m); }
    FoldMeans(NamespaceMember, NamespaceMeaning, (), ms, d);
  }

  lemma NamespacesMean(v: Value, acc: seq<Namespace>)
    requires LoadNamespaces(v, acc).ok
    ensures LoadNamespaces(v, acc).acc == acc + NamespacesIn(v)
  {
    forall acc, v | NamespaceItem(acc, v).ok ensures NamespaceItem(acc, v).acc == acc + NamespaceIn(v) { NamespaceMeans(v.members, NewNamespace); }
    FoldItemsGathers(NamespaceItem, NamespaceIn, v.items, acc);
  }

  lemma MappingSequential()
    ensures Sequential(MappingMeaning, ())
  {
    forall m: Member, ms: seq<Member>, d: IdMapping
      ensures MappingMeaning((), [m] + ms, d) == MappingMeaning((), ms, MappingMeaning((), [m], d)) {
      IntCons(m, ms, "containerID", d.containerId);
      IntCons(m, ms, "hostID", d.hostId);
      IntCons(m, ms, "size", d.size);
    }
  }

  lemma MappingOne(d: IdMapping, m: Member)
    requires MappingMember((), d, m).ok
    ensures MappingMember((), d, m).acc == MappingMeaning((), [m], d)
  {
    AtOne(m, "containerID"); AtOne(m, "hostID"); AtOne(m, "size");
    Single(m.value);
  }

  lemma MappingMeans(ms: seq<Member>, d: IdMapping)
    requires Fold(MappingMember, (), ms, d).ok
    ensures Fold(MappingMember, (), ms, d).acc == MappingMeaning((), ms, d)
  {
    MappingSequential();
    forall d: IdMapping, m: Member | MappingMember((), d, m).ok
      ensures MappingMember((), d, m).acc == MappingMeaning((), [m], d) { MappingOne(d, m); }
    FoldMeans(MappingMember, MappingMeaning, (), ms, d);
  }

  lemma MappingsMean(v: Value, acc: seq<IdMapping>)
    requires LoadMappings(v, acc).ok
    ensures LoadMappings(v, acc).acc == acc + MappingsIn(v)
  {
    forall acc, v | MappingItem(acc, v).ok ensures MappingItem(acc, v).acc == acc + MappingIn(v) { MappingMeans(v.members, NewMapping); }
    FoldItemsGathers(MappingItem, MappingIn, v.items, acc);
  }

  lemma DeviceSequential()
    ensures Sequential(DeviceMeaning, ())
  {
    forall m: Member, ms: seq<Member>, d: Device
      ensures DeviceMeaning((), [m] + ms, d) == DeviceMeaning((), ms, DeviceMeaning((), [m], d)) {
      StringCons(m, ms, "type", d.kind);
      StringCons(m, ms, "path", d.path);
      IntCons(m, ms, "major", d.major);
      IntCons(m, ms, "minor", d.minor);
      IntCons(m, ms, "fileMode", d.fileMode);
      IntCons(m, ms, "uid", d.uid);
      IntCons(m, ms, "gid", d.gid);
    }
  }

  /** Which of these keys it is, counted from one. */
  function DeviceKey(key: string): nat {
    if key == "type" then 1
    else if key == "path" then 2
    else if key == "major" then 3
    else if key == "minor" then 4
    else if key == "fileMode" then 5
    else if key == "uid" then 6
    else if key == "gid" then 7
    else 0
  }

  lemma DeviceKeyExact(key: string)
    ensures key == "type" <==> DeviceKey(key) == 1
    ensures key == "path" <==> DeviceKey(key) == 2
    ensures key == "major" <==> DeviceKey(key) == 3
    ensures key == "minor" <==> DeviceKey(key) == 4
    ensures key == "fileMode" <==> DeviceKey(key) == 5
    ensures key == "uid" <==> DeviceKey(key) == 6
    ensures key == "gid" <==> DeviceKey(key) == 7
  {
  }

  lemma DeviceOne(d: Device, m: Member)
    requires DeviceMember((), d, m).ok
    ensures DeviceMember((), d, m).acc == DeviceMeaning((), [m], d)
  {
    DeviceKeyExact(m.key);
    OneMember(m);
  }

  lemma DeviceMeans(ms: seq<Member>, d: Device)
    requires Fold(DeviceMember, (), ms, d).ok
    ensures Fold(DeviceMember, (), ms, d).acc == DeviceMeaning((), ms, d)
  {
    DeviceSequential();
    forall d: Device, m: Member | DeviceMember((), d, m).ok
      ensures DeviceMember((), d, m).acc == DeviceMeaning((), [m], d) { DeviceOne(d, m); }
    FoldMeans(DeviceMember, DeviceMeaning, (), ms, d);
  }

  lemma DevicesMean(v: Value, acc: seq<Device>)
    requires LoadDevices(v, acc).ok
    ensures LoadDevices(v, acc).acc == acc + DevicesIn(v)
  {
    forall acc, v | DeviceItem(acc, v).ok ensures DeviceItem(acc, v).acc == acc + DeviceIn(v) { DeviceMeans(v.members, NewDevice); }
    FoldItemsGathers(DeviceItem, DeviceIn, v.items, acc);
  }

  // ---- objects inside objects ----

  lemma {:induction false} SequentialConcat<E(!new), A(!new)>(mean: (E, seq<Member>, A) -> A, e: E, a: seq<Member>, b: seq<Member>, x: A)
    requires Sequential(mean, e)
    ensures mean(e, a + b, x) == mean(e, b, mean(e, a, x))
    decreases |a|
  {
    if a == [] {
      assert a + b == b;
    } else {
      assert a + b == [a[0]] + (a[1..] + b);
      assert a == [a[0]] + a[1..];
      SequentialConcat(mean, e, a[1..], b, mean(e, [a[0]], x));
    }
  }

  /** Objects under one key, when a member is put in front. */
  lemma ObjectCons<A(!new)>(mean: ((), seq<Member>, A) -> A, m: Member, ms: seq<Member>, key: string, x: A)
    requires Sequential(mean, ())
    ensures mean((), Inside(At([m] + ms, key)), x) == mean((), Inside(At(ms, key)), mean((), Inside(At([m], key)), x))
  {
    AtConcat([m], ms, key);
    InsideConcat(At([m], key), At(ms, key));
    SequentialConcat(mean, (), Inside(At([m], key)), Inside(At(ms, key)), x);
  }

  lemma InsideOne(v: Value)
    requires v.Obj?
    ensures Inside([v]) == v.members
  {
    assert [v][1..] == [];
    assert v.members + [] == v.members;
  }

  lemma ConsoleSequential()
    ensures Sequential(ConsoleMeaning, ())
  {
    forall m: Member, ms: seq<Member>, c: Console
      ensures ConsoleMeaning((), [m] + ms, c) == ConsoleMeaning((), ms, ConsoleMeaning((), [m], c)) {
      IntCons(m, ms, "width", c.width);
      IntCons(m, ms, "height", c.height);
    }
  }

  lemma ConsoleMeans(v: Value, c: Console)
    requires LoadConsole(v, c).ok
    ensures LoadConsole(v, c).acc == ConsoleMeaning((), v.members, c)
  {
    ConsoleSequential();
    forall c: Console, m: Member | ConsoleMember((), c, m).ok
      ensures ConsoleMember((), c, m).acc == ConsoleMeaning((), [m], c) { OneMember(m); }
    FoldMeans(ConsoleMember, ConsoleMeaning, (), v.members, c);
  }

  lemma UserSequential()
    ensures Sequential(UserMeaning, ())
  {
    forall m: Member, ms: seq<Member>, u: User
      ensures UserMeaning((), [m] + ms, u) == UserMeaning((), ms, UserMeaning((), [m], u)) {
      IntCons(m, ms, "uid", u.uid);
      IntCons(m, ms, "gid", u.gid);
      IntCons(m, ms, "umask", u.umask);
      ListCons(GidsIn, m, ms, "additionalGids", u.additionalGids);
    }
  }

  lemma UserOne(u: User, m: Member)
    requires UserMember((), u, m).ok
    ensures UserMember((), u, m).acc == UserMeaning((), [m], u)
  {
    AtOne(m, "uid"); AtOne(m, "gid"); AtOne(m, "umask"); AtOne(m, "additionalGids");
    Single(m.value);
    if m.key == "additionalGids" {
      GidsMean(m.value, u.additionalGids);
      GatherOne(GidsIn, m.value);
    }
  }

  lemma UserMeans(v: Value, u: User)
    requires LoadUser(v, u).ok
    ensures LoadUser(v, u).acc == UserMeaning((), v.members, u)
  {
    UserSequential();
    forall u: User, m: Member | UserMember((), u, m).ok ensures UserMember((), u, m).acc == UserMeaning((), [m], u) { UserOne(u, m); }
    FoldMeans(UserMember, UserMeaning, (), v.members, u);
  }

  lemma CapabilityMeans(ms: seq<Member>, key: string, acc: seq<string>)
    requires LoadCapability(ms, key, acc).ok
    ensures LoadCapability(ms, key, acc).acc == acc + CapabilityIn(ms, key)
  {
    if Find(ms, key).Some? { StringsMean(Find(ms, key).value, acc); }
  }

  lemma CapabilitiesMean(v: Value, c: Capabilities)
    requires LoadCapabilities(v, c).ok
    ensures LoadCapabilities(v, c).acc == CapabilitiesMeaning(v.members, c)
  {
    CapabilityMeans(v.members, "effective", c.effective);
    CapabilityMeans(v.members, "bounding", c.bounding);
    CapabilityMeans(v.members, "inheritable", c.inheritable);
    CapabilityMeans(v.members, "permitted", c.permitted);
    CapabilityMeans(v.members, "ambient", c.ambient);
  }

  lemma {:induction false} AllCapabilitiesConcat(a: seq<Value>, b: seq<Value>, c: Capabilities)
    ensures AllCapabilities(a + b, c) == AllCapabilities(b, AllCapabilities(a, c))
    decreases |a|
  {
    if a == [] {
      assert a + b == b;
    } else {
      assert (a + b)[1..] == a[1..] + b;
      AllCapabilitiesConcat(a[1..], b, if a[0].Obj? then CapabilitiesMeaning(a[0].members, c) else c);
    }
  }

  lemma {:induction false} AllRLimitsConcat(whole: seq<Member>, a: seq<Value>, b: seq<Value>)
    ensures AllRLimits(whole, a + b) == AllRLimits(whole, a) + AllRLimits(whole, b)
  {
    if a == [] {
      assert a + b == b;
    } else {
      assert (a + b)[1..] == a[1..] + b;
      AllRLimitsConcat(whole, a[1..], b);
    }
  }

  lemma ProcessListsCons(whole: seq<Member>, m: Member, ms: seq<Member>, p: Process)
    ensures p.envs + Gather(StringsIn, At([m] + ms, "env")) == p.envs + Gather(StringsIn, At([m], "env")) + Gather(StringsIn, At(ms, "env"))
    ensures p.args + Gather(StringsIn, At([m] + ms, "args")) == p.args + Gather(StringsIn, At([m], "args")) + Gather(StringsIn, At(ms, "args"))
    ensures p.rlimits + AllRLimits(whole, At([m] + ms, "rlimits")) ==
            p.rlimits + AllRLimits(whole, At([m], "rlimits")) + AllRLimits(whole, At(ms, "rlimits"))
    ensures AllCapabilities(At([m] + ms, "capabilities"), p.caps) ==
            AllCapabilities(At(ms, "capabilities"), AllCapabilities(At([m], "capabilities"), p.caps))
  {
    ListCons(StringsIn, m, ms, "env", p.envs);
    ListCons(StringsIn, m, ms, "args", p.args);
    AtConcat([m], ms, "rlimits");
    AllRLimitsConcat(whole, At([m], "rlimits"), At(ms, "rlimits"));
    AtConcat([m], ms, "capabilities");
    AllCapabilitiesConcat(At([m], "capabilities"), At(ms, "capabilities"), p.caps);
  }

  lemma ProcessCons(whole: seq<Member>, m: Member, ms: seq<Member>, p: Process)
    ensures ProcessMeaning(whole, [m] + ms, p) == ProcessMeaning(whole, ms, ProcessMeaning(whole, [m], p))
  {
    FlagCons(m, ms, "terminal", p.terminal);
    ConsoleSequential();
    ObjectCons(ConsoleMeaning, m, ms, "consoleSize", p.console);
    StringCons(m, ms, "cwd", p.cwd);
    ProcessListsCons(whole, m, ms, p);
    FlagCons(m, ms, "noNewPrivileges", p.noNewPrivileges);
    IntCons(m, ms, "oomScoreAdj", p.oomScoreAdj);
    UserSequential();
    ObjectCons(UserMeaning, m, ms, "user", p.user);
  }

  lemma ProcessSequential(whole: seq<Member>)
    ensures Sequential(ProcessMeaning, whole)
  {
    forall m: Member, ms: seq<Member>, p: Process
      ensures ProcessMeaning(whole, [m] + ms, p) == ProcessMeaning(whole, ms, ProcessMeaning(whole, [m], p)) {
      ProcessCons(whole, m, ms, p);
    }
    forall p: Process ensures ProcessMeaning(whole, [], p) == p { }
  }

  /** Which of these keys it is, counted from one. */
  function ProcessKey(key: string): nat {
    if key == "args" then 1
    else if key == "consoleSize" then 2
    else if key == "cwd" then 3
    else if key == "capabilities" then 4
    else if key == "env" then 5
    else if key == "noNewPrivileges" then 6
    else if key == "oomScoreAdj" then 7
    else if key == "rlimits" then 8
    else if key == "terminal" then 9
    else if key == "user" then 10
    else 0
  }

  lemma ProcessKeyExact(key: string)
    ensures key == "args" <==> ProcessKey(key) == 1
    ensures key == "consoleSize" <==> ProcessKey(key) == 2
    ensures key == "cwd" <==> ProcessKey(key) == 3
    ensures key == "capabilities" <==> ProcessKey(key) == 4
    ensures key == "env" <==> ProcessKey(key) == 5
    ensures key == "noNewPrivileges" <==> ProcessKey(key) == 6
    ensures key == "oomScoreAdj" <==> ProcessKey(key) == 7
    ensures key == "rlimits" <==> ProcessKey(key) == 8
    ensures key == "terminal" <==> ProcessKey(key) == 9
    ensures key == "user" <==> ProcessKey(key) == 10
  {
  }

  lemma NothingInside(p: Process)
    ensures ConsoleMeaning((), Inside([]), p.console) == p.console && UserMeaning((), Inside([]), p.user) == p.user
  {
  }

  /** A member changes no field but its own. */
  lemma ProcessOther(whole: seq<Member>, p: Process, m: Member)
    ensures var q, k := ProcessMeaning(whole, [m], p), ProcessKey(m.key);
            && (k != 1 ==> q.args == p.args) && (k != 2 ==> q.console == p.console) && (k != 3 ==> q.cwd == p.cwd)
            && (k != 4 ==> q.caps == p.caps) && (k != 5 ==> q.envs == p.envs)
            && (k != 6 ==> q.noNewPrivileges == p.noNewPrivileges) && (k != 7 ==> q.oomScoreAdj == p.oomScoreAdj)
            && (k != 8 ==> q.rlimits == p.rlimits) && (k != 9 ==> q.terminal == p.terminal) && (k != 10 ==> q.user == p.user)
  {
    ProcessKeyExact(m.key);
    AtOne(m, "args"); AtOne(m, "consoleSize"); AtOne(m, "cwd"); AtOne(m, "capabilities"); AtOne(m, "env");
    AtOne(m, "noNewPrivileges"); AtOne(m, "oomScoreAdj"); AtOne(m, "rlimits"); AtOne(m, "terminal"); AtOne(m, "user");
    NothingInside(p);
  }

  lemma CapabilitiesOne(v: Value, c: Capabilities)
    requires v.Obj?
    ensures AllCapabilities([v], c) == CapabilitiesMeaning(v.members, c)
  {
    assert [v][1..] == [];
  }

  lemma RLimitsOne(whole: seq<Member>, v: Value)
    requires Find(whole, "rlimits").Some?
    ensures AllRLimits(whole, [v]) == RLimitsIn(Find(whole, "rlimits").value)
  {
    assert [v][1..] == [];
  }

  lemma ProcessOwn(whole: seq<Member>, p: Process, m: Member)
    requires ProcessMember(whole, p, m).ok
    ensures var q, r, k := ProcessMeaning(whole, [m], p), ProcessMember(whole, p, m).acc, ProcessKey(m.key);
            && (k == 1 ==> r == p.(args := q.args)) && (k == 2 ==> r == p.(console := q.console))
            && (k == 4 ==> r == p.(caps := q.caps)) && (k == 5 ==> r == p.(envs := q.envs))
            && (k == 8 ==> r == p.(rlimits := q.rlimits)) && (k == 10 ==> r == p.(user := q.user))
  {
    ProcessKeyExact(m.key);
    AtOne(m, m.key);
    var v, k := m.value, ProcessKey(m.key);
    if k == 1 {
      StringsMean(v, p.args);
      GatherOne(StringsIn, v);
    } else if k == 2 {
      ConsoleMeans(v, p.console);
      InsideOne(v);
    } else if k == 4 {
      CapabilitiesMean(v, p.caps);
      CapabilitiesOne(v, p.caps);
    } else if k == 5 {
      StringsMean(v, p.envs);
      GatherOne(StringsIn, v);
    } else if k == 8 {
      RLimitsMean(Find(whole, "rlimits").value, p.rlimits);
      RLimitsOne(whole, v);
    } else if k == 10 {
      UserMeans(v, p.user);
      InsideOne(v);
    }
  }

  lemma ProcessScalar(whole: seq<Member>, p: Process, m: Member)
    requires ProcessMember(whole, p, m).ok
    ensures var q, r, k := ProcessMeaning(whole, [m], p), ProcessMember(whole, p, m).acc, ProcessKey(m.key);
            && (k == 3 ==> r == p.(cwd := q.cwd)) && (k == 6 ==> r == p.(noNewPrivileges := q.noNewPrivileges))
            && (k == 7 ==> r == p.(oomScoreAdj := q.oomScoreAdj)) && (k == 9 ==> r == p.(terminal := q.terminal))
            && (k == 0 ==> r == p)
  {
    ProcessKeyExact(m.key);
    AtOne(m, m.key);
    Single(m.value);
  }

  lemma ProcessOne(whole: seq<Member>, p: Process, m: Member)
    requires ProcessMember(whole, p, m).ok
    ensures ProcessMember(whole, p, m).acc == ProcessMeaning(whole, [m], p)
  {
    ProcessOther(whole, p, m);
    ProcessOwn(whole, p, m);
    ProcessScalar(whole, p, m);
  }

  lemma ProcessMeans(v: Value, p: Process)
    requires LoadProcess(v, p).ok
    ensures LoadProcess(v, p).acc == ProcessMeaning(v.members, v.members, p)
  {
    var whole := v.members;
    ProcessSequential(whole);
    forall p: Process, m: Member | ProcessMember(whole, p, m).ok
      ensures ProcessMember(whole, p, m).acc == ProcessMeaning(whole, [m], p) { ProcessOne(whole, p, m); }
    FoldMeans(ProcessMember, ProcessMeaning, whole, whole, p);
  }

  lemma RootSequential()
    ensures Sequential(RootMeaning, ())
  {
    forall m: Member, ms: seq<Member>, r: Root
      ensures RootMeaning((), [m] + ms, r) == RootMeaning((), ms, RootMeaning((), [m], r)) {
      StringCons(m, ms, "path", r.path);
      FlagCons(m, ms, "readonly", r.readonly);
    }
  }

  lemma RootMeans(v: Value, r: Root)
    requires LoadRoot(v, r).ok
    ensures LoadRoot(v, r).acc == RootMeaning((), v.members, r)
  {
    RootSequential();
    forall r: Root, m: Member | RootMember((), r, m).ok ensures RootMember((), r, m).acc == RootMeaning((), [m], r) { OneMember(m); }
    FoldMeans(RootMember, RootMeaning, (), v.members, r);
  }

  lemma MemorySequential()
    ensures Sequential(MemoryMeaning, ())
  {
    forall m: Member, ms: seq<Member>, x: Memory
      ensures MemoryMeaning((), [m] + ms, x) == MemoryMeaning((), ms, MemoryMeaning((), [m], x)) {
      IntCons(m, ms, "limit", x.limit);
      IntCons(m, ms, "reservation", x.reservation);
    }
  }

  lemma MemoryMeans(v: Value, x: Memory)
    requires LoadMemory(v, x).ok
    ensures LoadMemory(v, x).acc == MemoryMeaning((), v.members, x)
  {
    MemorySequential();
    forall x: Memory, m: Member | MemoryMember((), x, m).ok
      ensures MemoryMember((), x, m).acc == MemoryMeaning((), [m], x) { OneMember(m); }
    FoldMeans(MemoryMember, MemoryMeaning, (), v.members, x);
  }

  lemma ResourcesSequential()
    ensures Sequential(ResourcesMeaning, ())
  {
    MemorySequential();
    forall m: Member, ms: seq<Member>, x: Memory
      ensures ResourcesMeaning((), [m] + ms, x) == ResourcesMeaning((), ms, ResourcesMeaning((), [m], x)) {
      ObjectCons(MemoryMeaning, m, ms, "memory", x);
    }
  }

  lemma ResourcesMean(v: Value, x: Memory)
    requires LoadResources(v, x).ok
    ensures LoadResources(v, x).acc == ResourcesMeaning((), v.members, x)
  {
    ResourcesSequential();
    forall x: Memory, m: Member | ResourcesMember((), x, m).ok
      ensures ResourcesMember((), x, m).acc == ResourcesMeaning((), [m], x) {
      OneMember(m);
      if m.key == "memory" {
        MemoryMeans(m.value, x);
        InsideOne(m.value);
      }
    }
    FoldMeans(ResourcesMember, ResourcesMeaning, (), v.members, x);
  }

  lemma MappingsCons(m: Member, ms: seq<Member>, acc: seq<IdMapping>)
    ensures acc + Gather(MappingsIn, AtEither([m] + ms, "uidMappings", "gidMappings")) ==
            acc + Gather(MappingsIn, AtEither([m], "uidMappings", "gidMappings")) + Gather(MappingsIn, AtEither(ms, "uidMappings", "gidMappings"))
  {
    AtEitherConcat([m], ms, "uidMappings", "gidMappings");
    GatherConcat(MappingsIn, AtEither([m], "uidMappings", "gidMappings"), AtEither(ms, "uidMappings", "gidMappings"));
  }

  lemma LinuxCons(m: Member, ms: seq<Member>, x: Linux)
    ensures LinuxMeaning((), [m] + ms, x) == LinuxMeaning((), ms, LinuxMeaning((), [m], x))
  {
    var a, b, c := LinuxMeaning((), [m] + ms, x), LinuxMeaning((), ms, LinuxMeaning((), [m], x)), LinuxMeaning((), [m], x);
    assert a.namespaces == b.namespaces by { ListCons(NamespacesIn, m, ms, "namespaces", x.namespaces); }
    assert a.uidMappings == b.uidMappings by { MappingsCons(m, ms, x.uidMappings); }
    assert a.devices == b.devices by { ListCons(DevicesIn, m, ms, "devices", x.devices); }
    assert a.cgroupsPath == b.cgroupsPath by { StringCons(m, ms, "cgroupsPath", x.cgroupsPath); }
    assert a.memory == b.memory by {
      ResourcesSequential();
      ObjectCons(ResourcesMeaning, m, ms, "resources", x.memory);
    }
  }

  lemma LinuxSequential()
    ensures Sequential(LinuxMeaning, ())
  {
    forall m: Member, ms: seq<Member>, x: Linux
      ensures LinuxMeaning((), [m] + ms, x) == LinuxMeaning((), ms, LinuxMeaning((), [m], x)) { LinuxCons(m, ms, x); }
    forall x: Linux ensures LinuxMeaning((), [], x) == x { }
  }

  /** Which of these keys it is, counted from one. */
  function LinuxKey(key: string): nat {
    if key == "namespaces" then 1
    else if key == "uidMappings" then 2
    else if key == "gidMappings" then 3
    else if key == "devices" then 4
    else if key == "cgroupsPath" then 5
    else if key == "resources" then 6
    else 0
  }

  lemma LinuxKeyExact(key: string)
    ensures key == "namespaces" <==> LinuxKey(key) == 1
    ensures key == "uidMappings" <==> LinuxKey(key) == 2
    ensures key == "gidMappings" <==> LinuxKey(key) == 3
    ensures key == "devices" <==> LinuxKey(key) == 4
    ensures key == "cgroupsPath" <==> LinuxKey(key) == 5
    ensures key == "resources" <==> LinuxKey(key) == 6
  {
  }

  lemma EitherOne(m: Member, k: string, l: string)
    ensures AtEither([m], k, l) == if m.key == k || m.key == l then [m.value] else []
  {
    assert [m][1..] == [];
  }

  lemma LinuxOther(x: Linux, m: Member)
    ensures var q, k := LinuxMeaning((), [m], x), LinuxKey(m.key);
            && (k != 1 ==> q.namespaces == x.namespaces) && (k != 2 && k != 3 ==> q.uidMappings == x.uidMappings)
            && (k != 4 ==> q.devices == x.devices) && (k != 5 ==> q.cgroupsPath == x.cgroupsPath)
            && (k != 6 ==> q.memory == x.memory) && q.gidMappings == x.gidMappings
  {
    LinuxKeyExact(m.key);
    AtOne(m, "namespaces"); AtOne(m, "devices"); AtOne(m, "cgroupsPath"); AtOne(m, "resources");
    EitherOne(m, "uidMappings", "gidMappings");
    ResourcesSequential();
  }

  lemma LinuxLists(x: Linux, m: Member)
    requires LinuxMember((), x, m).ok
    ensures var q, r, k := LinuxMeaning((), [m], x), LinuxMember((), x, m).acc, LinuxKey(m.key);
            && (k == 1 ==> r == x.(namespaces := q.namespaces))
            && (k == 4 ==> r == x.(devices := q.devices))
  {
    LinuxKeyExact(m.key);
    AtOne(m, m.key);
    var v, k := m.value, LinuxKey(m.key);
    if k == 1 {
      NamespacesMean(v, x.namespaces);
      GatherOne(NamespacesIn, v);
    } else if k == 4 {
      DevicesMean(v, x.devices);
      GatherOne(DevicesIn, v);
    }
  }

  /** Both kinds of mappings land in the one list. */
  lemma LinuxMappings(x: Linux, m: Member)
    requires LinuxMember((), x, m).ok
    ensures var q, r, k := LinuxMeaning((), [m], x), LinuxMember((), x, m).acc, LinuxKey(m.key);
            k == 2 || k == 3 ==> r == x.(uidMappings := q.uidMappings)
  {
    LinuxKeyExact(m.key);
    EitherOne(m, "uidMappings", "gidMappings");
    if LinuxKey(m.key) == 2 || LinuxKey(m.key) == 3 {
      MappingsMean(m.value, x.uidMappings);
      GatherOne(MappingsIn, m.value);
    }
  }

  lemma LinuxRest(x: Linux, m: Member)
    requires LinuxMember((), x, m).ok
    ensures var q, r, k := LinuxMeaning((), [m], x), LinuxMember((), x, m).acc, LinuxKey(m.key);
            && (k == 0 ==> r == x) && (k == 5 ==> r == x.(cgroupsPath := q.cgroupsPath))
            && (k == 6 ==> r == x.(memory := q.memory))
  {
    LinuxKeyExact(m.key);
    AtOne(m, m.key);
    Single(m.value);
    if LinuxKey(m.key) == 6 {
      ResourcesMean(m.value, x.memory);
      InsideOne(m.value);
    }
  }

  lemma LinuxOne(x: Linux, m: Member)
    requires LinuxMember((), x, m).ok
    ensures LinuxMember((), x, m).acc == LinuxMeaning((), [m], x)
  {
    LinuxOther(x, m);
    LinuxLists(x, m);
    LinuxMappings(x, m);
    LinuxRest(x, m);
  }

  lemma LinuxMeans(v: Value, x: Linux)
    requires LoadLinux(v, x).ok
    ensures LoadLinux(v, x).acc == LinuxMeaning((), v.members, x)
  {
    LinuxSequential();
    forall x: Linux, m: Member | LinuxMember((), x, m).ok
      ensures LinuxMember((), x, m).acc == LinuxMeaning((), [m], x) { LinuxOne(x, m); }
    FoldMeans(LinuxMember, LinuxMeaning, (), v.members, x);
  }

  lemma AnnotationsSequential()
    ensures Sequential(AnnotationsMeaning, ())
  {
    forall m: Member, ms: seq<Member>, cmds: seq<string>
      ensures AnnotationsMeaning((), [m] + ms, cmds) == AnnotationsMeaning((), ms, AnnotationsMeaning((), [m], cmds)) {
      ListCons(StringsIn, m, ms, AllowCommands, cmds);
    }
    forall cmds: seq<string> ensures AnnotationsMeaning((), [], cmds) == cmds { }
  }

  lemma AnnotationsMean(v: Value, cmds: seq<string>)
    requires LoadAnnotations(v, cmds).ok
    ensures LoadAnnotations(v, cmds).acc == AnnotationsMeaning((), v.members, cmds)
  {
    AnnotationsSequential();
    forall cmds: seq<string>, m: Member | AnnotationMember((), cmds, m).ok
      ensures AnnotationMember((), cmds, m).acc == AnnotationsMeaning((), [m], cmds) {
      OneMember(m);
      if m.key == AllowCommands {
        StringsMean(m.value, cmds);
        GatherOne(StringsIn, m.value);
      }
    }
    FoldMeans(AnnotationMember, AnnotationsMeaning, (), v.members, cmds);
  }

  lemma {:induction false} AllProcessesConcat(a: seq<Value>, b: seq<Value>, p: Process)
    ensures AllProcesses(a + b, p) == AllProcesses(b, AllProcesses(a, p))
    decreases |a|
  {
    if a == [] {
      assert a + b == b;
    } else {
      assert (a + b)[1..] == a[1..] + b;
      AllProcessesConcat(a[1..], b, if a[0].Obj? then ProcessMeaning(a[0].members, a[0].members, p) else p);
    }
  }

  lemma ConfigCons(m: Member, ms: seq<Member>, b: Config)
    ensures ConfigMeaning((), [m] + ms, b) == ConfigMeaning((), ms, ConfigMeaning((), [m], b))
  {
    StringCons(m, ms, "ociVersion", b.ociVersion);
    AnnotationsSequential();
    ObjectCons(AnnotationsMeaning, m, ms, "annotations", b.cmds);
    AtConcat([m], ms, "process");
    AllProcessesConcat(At([m], "process"), At(ms, "process"), b.process);
    RootSequential();
    ObjectCons(RootMeaning, m, ms, "root", b.root);
    ListCons(MountsIn, m, ms, "mounts", b.mounts);
    LinuxSequential();
    ObjectCons(LinuxMeaning, m, ms, "linux", b.linux);
  }

  /** Which of these keys it is, counted from one. */
  function ConfigKey(key: string): nat {
    if key == "annotations" then 1
    else if key == "mounts" then 2
    else if key == "ociVersion" then 3
    else if key == "process" then 4
    else if key == "root" then 5
    else if key == "linux" then 6
    else 0
  }

  lemma ConfigKeyExact(key: string)
    ensures key == "annotations" <==> ConfigKey(key) == 1
    ensures key == "mounts" <==> ConfigKey(key) == 2
    ensures key == "ociVersion" <==> ConfigKey(key) == 3
    ensures key == "process" <==> ConfigKey(key) == 4
    ensures key == "root" <==> ConfigKey(key) == 5
    ensures key == "linux" <==> ConfigKey(key) == 6
  {
  }

  lemma ConfigOther(b: Config, m: Member)
    ensures var q, k := ConfigMeaning((), [m], b), ConfigKey(m.key);
            && (k != 1 ==> q.cmds == b.cmds) && (k != 2 ==> q.mounts == b.mounts) && (k != 3 ==> q.ociVersion == b.ociVersion)
            && (k != 4 ==> q.process == b.process) && (k != 5 ==> q.root == b.root) && (k != 6 ==> q.linux == b.linux)
  {
    ConfigKeyExact(m.key);
    AtOne(m, "annotations"); AtOne(m, "mounts"); AtOne(m, "ociVersion"); AtOne(m, "process"); AtOne(m, "root"); AtOne(m, "linux");
    AnnotationsSequential();
    LinuxSequential();
    RootSequential();
  }

  lemma ProcessesOne(v: Value, p: Process)
    requires v.Obj?
    ensures AllProcesses([v], p) == ProcessMeaning(v.members, v.members, p)
  {
    assert [v][1..] == [];
  }

  lemma ConfigOwn(b: Config, m: Member)
    requires ConfigMember((), b, m).ok
    ensures var q, r, k := ConfigMeaning((), [m], b), ConfigMember((), b, m).acc, ConfigKey(m.key);
            && (k == 0 ==> r == b) && (k == 1 ==> r == b.(cmds := q.cmds)) && (k == 2 ==> r == b.(mounts := q.mounts))
            && (k == 3 ==> r == b.(ociVersion := q.ociVersion)) && (k == 4 ==> r == b.(process := q.process))
            && (k == 5 ==> r == b.(root := q.root)) && (k == 6 ==> r == b.(linux := q.linux))
  {
    ConfigKeyExact(m.key);
    AtOne(m, m.key);
    Single(m.value);
    var v, k := m.value, ConfigKey(m.key);
    if k == 1 {
      AnnotationsMean(v, b.cmds);
      InsideOne(v);
    } else if k == 2 {
      MountsMean(v, b.mounts);
      GatherOne(MountsIn, v);
    } else if k == 4 {
      ProcessMeans(v, b.process);
      ProcessesOne(v, b.process);
    } else if k == 5 {
      RootMeans(v, b.root);
      InsideOne(v);
    } else if k == 6 {
      LinuxMeans(v, b.linux);
      InsideOne(v);
    }
  }

  lemma ConfigOne(b: Config, m: Member)
    requires ConfigMember((), b, m).ok
    ensures ConfigMember((), b, m).acc == ConfigMeaning((), [m], b)
  {
    ConfigOther(b, m);
    ConfigOwn(b, m);
  }

  /** On every accepted document, and whatever the bundle held before, each field ends up
      with exactly what `ConfigMeaning` says. */
  lemma LoaderComputesMeaning(v: Value, b: Config)
    requires LoadConfig(v, b).ok
    ensures LoadConfig(v, b).acc == ConfigMeaning((), v.members, b)
  {
    forall m: Member, ms: seq<Member>, b: Config
      ensures ConfigMeaning((), [m] + ms, b) == ConfigMeaning((), ms, ConfigMeaning((), [m], b)) { ConfigCons(m, ms, b); }
    LinuxSequential();
    AnnotationsSequential();
    forall b: Config ensures ConfigMeaning((), [], b) == b { }
    forall b: Config, m: Member | ConfigMember((), b, m).ok
      ensures ConfigMember((), b, m).acc == ConfigMeaning((), [m], b) { ConfigOne(b, m); }
    FoldMeans(ConfigMember, ConfigMeaning, (), v.members, b);
  }
}
