/** `Bundle::load` (src/bundle.cpp) as it runs: loops over members and items that assign
    the fields of the object and stop at the first failure. Every loop is proved against
    the fold of the same name in `BundleModel`, and so accepts exactly what conforms to the
    schema and leaves exactly what the document means. */
module BundleObject {
  import opened Wrappers
  import opened Json
  import opened BundleModel
  import opened BundleSchema
  import opened BundleMeaning
  import opened BundleValues

  /** The character the loaders switch on; keys in the parsed document end with a zero. */
  function Initial(key: string): char { if key == "" then 0 as char else key[0] }

  /** `get_int`: the value is written only on success. */
  method ReadInt(v: Value, w: Width, current: int) returns (ok: bool, value: int)
    ensures ok <==> Conforms(v, AnInt(w))
    ensures if ok then v == Int(value) else value == current
    ensures v.Int? && w == I32 ==> (ok <==> IsOfBits(v.n, 32, true))
    ensures v.Int? && w == U32 ==> (ok <==> IsOfBits(v.n, 32, false))
    ensures v.Int? && w == I64 ==> (ok <==> IsOfBits(v.n, 64, true))
    ensures v.Int? && w == U64 ==> (ok <==> IsOfBits(v.n, 64, false))
  {
    if v.Int? { FitsByBits(v.n); }
    value := current;
    if !v.Int? { return false, current; }
    var buffer := v.n;
    if IsSigned(w) {
      if buffer < Min(I64) || buffer > Max(I64) { return false, current; }
    } else {
      if buffer < Min(U64) || buffer > Max(U64) { return false, current; }
    }
    if buffer < Min(w) || buffer > Max(w) { return false, current; }
    return true, buffer;
  }

  /** Append the strings of an array, one by one. */
  method ReadStrings(v: Value, current: seq<string>) returns (ok: bool, list: seq<string>)
    ensures Out(ok, list) == LoadStrings(v, current)
    ensures ok <==> Conforms(v, Strings)
    ensures ok ==> list == current + StringsIn(v)
  {
    StringsConform(v, current);
    if LoadStrings(v, current).ok { StringsMean(v, current); }
    list := current;
    if !v.Arr? { return false, list; }
    for i := 0 to |v.items|
      invariant FoldItems(StringItem, v.items, current) == FoldItems(StringItem, v.items[i..], list)
    {
      var item := v.items[i];
      if !item.Str? { return false, list; }
      list := list + [item.s];
    }
    return true, list;
  }

  /** Append the group ids of an array, each a 32-bit integer. */
  method ReadGids(v: Value, current: seq<int>) returns (ok: bool, list: seq<int>)
    ensures Out(ok, list) == LoadGids(v, current)
    ensures ok <==> Conforms(v, AList(AnInt(I32)))
    ensures ok ==> list == current + GidsIn(v)
  {
    GidsConform(v, current);
    if LoadGids(v, current).ok { GidsMean(v, current); }
    list := current;
    if !v.Arr? { return false, list; }
    for i := 0 to |v.items|
      invariant FoldItems(GidItem, v.items, current) == FoldItems(GidItem, v.items[i..], list)
    {
      var item := v.items[i];
      var good, gid := ReadInt(item, I32, 0);
      if !good { return false, list; }
      list := list + [gid];
    }
    return true, list;
  }

  /** Append the limits of an array; type, soft and hard are looked up by key. */
  method ReadRLimits(v: Value, current: seq<RLimit>) returns (ok: bool, list: seq<RLimit>)
    ensures Out(ok, list) == LoadRLimits(v, current)
    ensures ok <==> Conforms(v, AList(ARecord(RLimitFields)))
    ensures ok ==> list == current + RLimitsIn(v)
  {
    RLimitsConform(v, current);
    if LoadRLimits(v, current).ok { RLimitsMean(v, current); }
    list := current;
    if !v.Arr? { return false, list; }
    for i := 0 to |v.items|
      invariant FoldItems(RLimitItem, v.items, current) == FoldItems(RLimitItem, v.items[i..], list)
    {
      var item := v.items[i];
      if !item.Obj? { return false, list; }
      var kind, soft, hard := Find(item.members, "type"), Find(item.members, "soft"), Find(item.members, "hard");
      if kind.None? || !kind.value.Str? { return false, list; }
      if soft.None? || GetInt(soft.value, I64).None? { return false, list; }
      if hard.None? || GetInt(hard.value, I64).None? { return false, list; }
      list := list + [RLimit(kind.value.s, soft.value.n, hard.value.n)];
    }
    return true, list;
  }

  /** The members of one mount. */
  method ReadMount(members: seq<Member>) returns (ok: bool, desc: Mount)
    ensures Out(ok, desc) == Fold(MountMember, (), members, NewMount)
  {
    desc := NewMount;
    for i := 0 to |members|
      invariant Fold(MountMember, (), members, NewMount) == Fold(MountMember, (), members[i..], desc)
    {
      var key, element := members[i].key, members[i].value;
      match Initial(key)
      case 'd' =>
        if key == "destination" {
          if !element.Str? { return false, desc; }
          desc := desc.(destination := element.s);
        }
      case 'o' =>
        if key == "options" {
          var good, x := ReadStrings(element, desc.options);
          desc := desc.(options := x);
          if !good { return false, desc; }
        }
      case 's' =>
        if key == "source" {
          if !element.Str? { return false, desc; }
          desc := desc.(source := element.s);
        }
      case 't' =>
        if key == "type" {
          if !element.Str? { return false, desc; }
          desc := desc.(kind := element.s);
        }
      case _ =>
    }
    return true, desc;
  }

  /** The members of one namespace. */
  method ReadNamespace(members: seq<Member>) returns (ok: bool, desc: Namespace)
    ensures Out(ok, desc) == Fold(NamespaceMember, (), members, NewNamespace)
  {
    desc := NewNamespace;
    for i := 0 to |members|
      invariant Fold(NamespaceMember, (), members, NewNamespace) == Fold(NamespaceMember, (), members[i..], desc)
    {
      var key, element := members[i].key, members[i].value;
      match Initial(key)
      case 'p' =>
        if key == "path" {
          if !element.Str? { return false, desc; }
          desc := desc.(path := element.s);
        }
      case 't' =>
        if key == "type" {
          if !element.Str? { return false, desc; }
          desc := desc.(kind := element.s);
        }
      case _ =>
    }
    return true, desc;
  }

  /** The members of one id mapping. */
  method ReadMapping(members: seq<Member>) returns (ok: bool, desc: IdMapping)
    ensures Out(ok, desc) == Fold(MappingMember, (), members, NewMapping)
  {
    desc := NewMapping;
    for i := 0 to |members|
      invariant Fold(MappingMember, (), members, NewMapping) == Fold(MappingMember, (), members[i..], desc)
    {
      var key, element := members[i].key, members[i].value;
      match Initial(key)
      case 'c' =>
        if key == "containerID" {
          var good, n := ReadInt(element, U32, desc.containerId);
          if !good { return false, desc; }
          desc := desc.(containerId := n);
        }
      case 'h' =>
        if key == "hostID" {
          var good, n := ReadInt(element, U32, desc.hostId);
          if !good { return false, desc; }
          desc := desc.(hostId := n);
        }
      case 's' =>
        if key == "size" {
          var good, n := ReadInt(element, U32, desc.size);
          if !good { return false, desc; }
          desc := desc.(size := n);
        }
      case _ =>
    }
    return true, desc;
  }

  /** The members of one device. */
  method ReadDevice(members: seq<Member>) returns (ok: bool, desc: Device)
    ensures Out(ok, desc) == Fold(DeviceMember, (), members, NewDevice)
  {
    desc := NewDevice;
    for i := 0 to |members|
      invariant Fold(DeviceMember, (), members, NewDevice) == Fold(DeviceMember, (), members[i..], desc)
    {
      var key, element := members[i].key, members[i].value;
      match Initial(key)
      case 't' =>
        if key == "type" {
          if !element.Str? { return false, desc; }
          desc := desc.(kind := element.s);
        }
      case 'p' =>
        if key == "path" {
          if !element.Str? { return false, desc; }
          desc := desc.(path := element.s);
        }
      case 'm' =>
        if key == "major" {
          var good, n := ReadInt(element, I64, desc.major);
          if !good { return false, desc; }
          desc := desc.(major := n);
        } else if key == "minor" {
          var good, n := ReadInt(element, I64, desc.minor);
          if !good { return false, desc; }
          desc := desc.(minor := n);
        }
      case 'f' =>
        if key == "fileMode" {
          var good, n := ReadInt(element, U32, desc.fileMode);
          if !good { return false, desc; }
          desc := desc.(fileMode := n);
        }
      case 'u' =>
        if key == "uid" {
          var good, n := ReadInt(element, U32, desc.uid);
          if !good { return false, desc; }
          desc := desc.(uid := n);
        }
      case 'g' =>
        if key == "gid" {
          var good, n := ReadInt(element, U32, desc.gid);
          if !good { return false, desc; }
          desc := desc.(gid := n);
        }
      case _ =>
    }
    return true, desc;
  }

  /** Append the mounts of an array. */
  method ReadMounts(v: Value, current: seq<Mount>) returns (ok: bool, list: seq<Mount>)
    ensures Out(ok, list) == LoadMounts(v, current)
    ensures ok <==> Conforms(v, AList(ARecord(MountFields)))
    ensures ok ==> list == current + MountsIn(v)
  {
    MountsConform(v, current);
    if LoadMounts(v, current).ok { MountsMean(v, current); }
    list := current;
    if !v.Arr? { return false, list; }
    for i := 0 to |v.items|
      invariant FoldItems(MountItem, v.items, current) == FoldItems(MountItem, v.items[i..], list)
    {
      var item := v.items[i];
      if !item.Obj? { return false, list; }
      var good, desc := ReadMount(item.members);
      if !good { return false, list; }
      list := list + [desc];
    }
    return true, list;
  }

  /** Append the namespaces of an array. */
  method ReadNamespaces(v: Value, current: seq<Namespace>) returns (ok: bool, list: seq<Namespace>)
    ensures Out(ok, list) == LoadNamespaces(v, current)
    ensures ok <==> Conforms(v, AList(ARecord(NamespaceFields)))
    ensures ok ==> list == current + NamespacesIn(v)
  {
    NamespacesConform(v, current);
    if LoadNamespaces(v, current).ok { NamespacesMean(v, current); }
    list := current;
    if !v.Arr? { return false, list; }
    for i := 0 to |v.items|
      invariant FoldItems(NamespaceItem, v.items, current) == FoldItems(NamespaceItem, v.items[i..], list)
    {
      var item := v.items[i];
      if !item.Obj? { return false, list; }
      var good, desc := ReadNamespace(item.members);
      if !good { return false, list; }
      list := list + [desc];
    }
    return true, list;
  }

  /** Append the id mappings of an array. */
  method ReadMappings(v: Value, current: seq<IdMapping>) returns (ok: bool, list: seq<IdMapping>)
    ensures Out(ok, list) == LoadMappings(v, current)
    ensures ok <==> Conforms(v, AList(ARecord(MappingFields)))
    ensures ok ==> list == current + MappingsIn(v)
  {
    MappingsConform(v, current);
    if LoadMappings(v, current).ok { MappingsMean(v, current); }
    list := current;
    if !v.Arr? { return false, list; }
    for i := 0 to |v.items|
      invariant FoldItems(MappingItem, v.items, current) == FoldItems(MappingItem, v.items[i..], list)
    {
      var item := v.items[i];
      if !item.Obj? { return false, list; }
      var good, desc := ReadMapping(item.members);
      if !good { return false, list; }
      list := list + [desc];
    }
    return true, list;
  }

  /** Append the devices of an array. */
  method ReadDevices(v: Value, current: seq<Device>) returns (ok: bool, list: seq<Device>)
    ensures Out(ok, list) == LoadDevices(v, current)
    ensures ok <==> Conforms(v, AList(ARecord(DeviceFields)))
    ensures ok ==> list == current + DevicesIn(v)
  {
    DevicesConform(v, current);
    if LoadDevices(v, current).ok { DevicesMean(v, current); }
    list := current;
    if !v.Arr? { return false, list; }
    for i := 0 to |v.items|
      invariant FoldItems(DeviceItem, v.items, current) == FoldItems(DeviceItem, v.items[i..], list)
    {
      var item := v.items[i];
      if !item.Obj? { return false, list; }
      var good, desc := ReadDevice(item.members);
      if !good { return false, list; }
      list := list + [desc];
    }
    return true, list;
  }

  /** The console size. */
  method ReadConsole(v: Value, current: Console) returns (ok: bool, desc: Console)
    ensures Out(ok, desc) == LoadConsole(v, current)
    ensures ok <==> Conforms(v, ARecord(ConsoleFields))
    ensures ok ==> desc == ConsoleMeaning((), v.members, current)
  {
    ConsoleConforms(v, current);
    if LoadConsole(v, current).ok { ConsoleMeans(v, current); }
    desc := current;
    if !v.Obj? { return false, desc; }
    for i := 0 to |v.members|
      invariant Fold(ConsoleMember, (), v.members, current) == Fold(ConsoleMember, (), v.members[i..], desc)
    {
      var key, element := v.members[i].key, v.members[i].value;
      match Initial(key)
      case 'h' =>
        if key == "height" {
          var good, n := ReadInt(element, U32, desc.height);
          if !good { return false, desc; }
          desc := desc.(height := n);
        }
      case 'w' =>
        if key == "width" {
          var good, n := ReadInt(element, U32, desc.width);
          if !good { return false, desc; }
          desc := desc.(width := n);
        }
      case _ =>
    }
    return true, desc;
  }

  /** The user. */
  method ReadUser(v: Value, current: User) returns (ok: bool, desc: User)
    ensures Out(ok, desc) == LoadUser(v, current)
    ensures ok <==> Conforms(v, ARecord(UserFields))
    ensures ok ==> desc == UserMeaning((), v.members, current)
  {
    UserConforms(v, current);
    if LoadUser(v, current).ok { UserMeans(v, current); }
    desc := current;
    if !v.Obj? { return false, desc; }
    for i := 0 to |v.members|
      invariant Fold(UserMember, (), v.members, current) == Fold(UserMember, (), v.members[i..], desc)
    {
      var key, element := v.members[i].key, v.members[i].value;
      match Initial(key)
      case 'u' =>
        if key == "uid" {
          var good, n := ReadInt(element, I32, desc.uid);
          if !good { return false, desc; }
          desc := desc.(uid := n);
        } else if key == "umask" {
          var good, n := ReadInt(element, I32, desc.umask);
          if !good { return false, desc; }
          desc := desc.(umask := n);
        }
      case 'g' =>
        if key == "gid" {
          var good, n := ReadInt(element, I32, desc.gid);
          if !good { return false, desc; }
          desc := desc.(gid := n);
        }
      case 'a' =>
        if key == "additionalGids" {
          var good, x := ReadGids(element, desc.additionalGids);
          desc := desc.(additionalGids := x);
          if !good { return false, desc; }
        }
      case _ =>
    }
    return true, desc;
  }

  /** The memory limits. */
  method ReadMemory(v: Value, current: Memory) returns (ok: bool, desc: Memory)
    ensures Out(ok, desc) == LoadMemory(v, current)
  {
    desc := current;
    if !v.Obj? { return false, desc; }
    for i := 0 to |v.members|
      invariant Fold(MemoryMember, (), v.members, current) == Fold(MemoryMember, (), v.members[i..], desc)
    {
      var key, element := v.members[i].key, v.members[i].value;
      match Initial(key)
      case 'l' =>
        if key == "limit" {
          var good, n := ReadInt(element, U64, desc.limit);
          if !good { return false, desc; }
          desc := desc.(limit := n);
        }
      case 'r' =>
        if key == "reservation" {
          var good, n := ReadInt(element, U64, desc.reservation);
          if !good { return false, desc; }
          desc := desc.(reservation := n);
        }
      case _ =>
    }
    return true, desc;
  }

  /** The resources: only memory is looked into. */
  method ReadResources(v: Value, current: Memory) returns (ok: bool, desc: Memory)
    ensures Out(ok, desc) == LoadResources(v, current)
    ensures ok <==> Conforms(v, ARecord(ResourcesFields))
    ensures ok ==> desc == ResourcesMeaning((), v.members, current)
  {
    ResourcesConform(v, current);
    if LoadResources(v, current).ok { ResourcesMean(v, current); }
    desc := current;
    if !v.Obj? { return false, desc; }
    for i := 0 to |v.members|
      invariant Fold(ResourcesMember, (), v.members, current) == Fold(ResourcesMember, (), v.members[i..], desc)
    {
      var key, element := v.members[i].key, v.members[i].value;
      match Initial(key)
      case 'm' =>
        if key == "memory" {
          var good, x := ReadMemory(element, desc);
          desc := x;
          if !good { return false, desc; }
        }
      case _ =>
    }
    return true, desc;
  }

  /** One optional capability list. */
  method ReadCapability(members: seq<Member>, key: string, current: seq<string>) returns (ok: bool, list: seq<string>)
    ensures Out(ok, list) == LoadCapability(members, key, current)
  {
    list := current;
    var names := Find(members, key);
    if names.None? { return true, list; }
    ok, list := ReadStrings(names.value, list);
  }

  /** The five capability lists, in the order they are asked for. */
  method ReadCapabilities(v: Value, current: Capabilities) returns (ok: bool, caps: Capabilities)
    ensures Out(ok, caps) == LoadCapabilities(v, current)
    ensures ok <==> Conforms(v, ARecord(CapabilityFields))
    ensures ok ==> caps == CapabilitiesMeaning(v.members, current)
  {
    CapabilitiesConform(v, current);
    if LoadCapabilities(v, current).ok { CapabilitiesMean(v, current); }
    caps := current;
    if !v.Obj? { return false, caps; }
    var list;
    ok, list := ReadCapability(v.members, "effective", caps.effective);
    caps := caps.(effective := list);
    if !ok { return; }
    ok, list := ReadCapability(v.members, "bounding", caps.bounding);
    caps := caps.(bounding := list);
    if !ok { return; }
    ok, list := ReadCapability(v.members, "inheritable", caps.inheritable);
    caps := caps.(inheritable := list);
    if !ok { return; }
    ok, list := ReadCapability(v.members, "permitted", caps.permitted);
    caps := caps.(permitted := list);
    if !ok { return; }
    ok, list := ReadCapability(v.members, "ambient", caps.ambient);
    caps := caps.(ambient := list);
  }

  lemma ConfigLoads(v: Value, b: Config)
    ensures LoadConfig(v, b).ok <==> Conforms(v, ConfigKind)
    ensures LoadConfig(v, b).ok ==> v.Obj? && LoadConfig(v, b).acc == ConfigMeaning((), v.members, b)
  {
    AcceptedIffConforms(v, b);
    if LoadConfig(v, b).ok { LoaderComputesMeaning(v, b); }
  }

  /** The fields of the object, grouped as the header groups them. */
  class Bundle {
    var ociVersion: string
    var cmds: seq<string>
    var process: Process
    var root: Root
    var mounts: seq<Mount>
    var linux: Linux

    constructor ()
      ensures View() == NewConfig
      ensures ociVersion == "" && cmds == [] && mounts == []
      ensures process == Process(false, Console(0, 0), "", [], [], [], Capabilities([], [], [], [], []), false, 0, User(0, 0, 0, []))
      ensures root == Root("", false) && linux == Linux([], [], [], [], "", Memory(0, 0))
    {
      ociVersion, cmds, process := "", [], NewProcess;
      root, mounts, linux := NewConfig.root, [], NewConfig.linux;
    }

    function View(): Config
      reads this
    {
      Config(ociVersion, cmds, process, root, mounts, linux)
    }

    /** One member of the process object; the limits are looked up by key in the whole. */
    method LoadProcessMember(members: seq<Member>, key: string, element: Value) returns (ok: bool)
      modifies this`process
      ensures Out(ok, process) == ProcessMember(members, old(process), Member(key, element))
    {
      ProcessKeyExact(key);
      ok := true;
      match Initial(key)
      case 'a' =>
        if key == "args" {
          var good, x := ReadStrings(element, process.args);
          process := process.(args := x);
          if !good { return false; }
        }
      case 'c' =>
        if key == "consoleSize" {
          var good, x := ReadConsole(element, process.console);
          process := process.(console := x);
          if !good { return false; }
        } else if key == "cwd" {
          if !element.Str? { return false; }
          process := process.(cwd := element.s);
        } else if key == "capabilities" {
          var good, x := ReadCapabilities(element, process.caps);
          process := process.(caps := x);
          if !good { return false; }
        }
      case 'e' =>
        if key == "env" {
          var good, x := ReadStrings(element, process.envs);
          process := process.(envs := x);
          if !good { return false; }
        }
      case 'n' =>
        if key == "noNewPrivileges" {
          if !element.Bool? { return false; }
          process := process.(noNewPrivileges := element.flag);
        }
      case 'o' =>
        if key == "oomScoreAdj" {
          var good, n := ReadInt(element, I32, process.oomScoreAdj);
          if !good { return false; }
          process := process.(oomScoreAdj := n);
        }
      case 't' =>
        if key == "terminal" {
          if !element.Bool? { return false; }
          process := process.(terminal := element.flag);
        }
      case 'u' =>
        if key == "user" {
          var good, x := ReadUser(element, process.user);
          process := process.(user := x);
          if !good { return false; }
        }
      case 'r' =>
        if key == "rlimits" {
          var limits := Find(members, "rlimits");
          if limits.None? { return false; }
          var good, x := ReadRLimits(limits.value, process.rlimits);
          process := process.(rlimits := x);
          if !good { return false; }
        }
      case _ =>
    }

    /** The process object. */
    method LoadProcess(members: seq<Member>) returns (ok: bool)
      modifies this`process
      ensures Out(ok, process) == Fold(ProcessMember, members, members, old(process))
      ensures ok <==> Conforms(Obj(members), ARecord(ProcessFields))
      ensures ok ==> process == ProcessMeaning(members, members, old(process))
    {
      ProcessConforms(Obj(members), process);
      if Fold(ProcessMember, members, members, process).ok { ProcessMeans(Obj(members), process); }
      for i := 0 to |members|
        invariant Fold(ProcessMember, members, members, old(process)) == Fold(ProcessMember, members, members[i..], process)
      {
        ok := LoadProcessMember(members, members[i].key, members[i].value);
        if !ok { return; }
      }
      return true;
    }

    /** The root file system. */
    method LoadRoot(members: seq<Member>) returns (ok: bool)
      modifies this`root
      ensures Out(ok, root) == Fold(RootMember, (), members, old(root))
      ensures ok <==> Conforms(Obj(members), ARecord(RootFields))
      ensures ok ==> root == RootMeaning((), members, old(root))
    {
      RootConforms(Obj(members), root);
      if Fold(RootMember, (), members, root).ok { RootMeans(Obj(members), root); }
      for i := 0 to |members|
        invariant Fold(RootMember, (), members, old(root)) == Fold(RootMember, (), members[i..], root)
      {
        var key, element := members[i].key, members[i].value;
        match Initial(key)
        case 'p' =>
          if key == "path" {
            if !element.Str? { return false; }
            root := root.(path := element.s);
          }
        case 'r' =>
          if key == "readonly" {
            if !element.Bool? { return false; }
            root := root.(readonly := element.flag);
          }
        case _ =>
      }
      return true;
    }

    /** One member of the linux section; group mappings end up among the user mappings. */
    method LoadLinuxMember(key: string, element: Value) returns (ok: bool)
      modifies this`linux
      ensures Out(ok, linux) == LinuxMember((), old(linux), Member(key, element))
    {
      ok := true;
      match Initial(key)
      case 'n' =>
        if key == "namespaces" {
          var good, x := ReadNamespaces(element, linux.namespaces);
          linux := linux.(namespaces := x);
          if !good { return false; }
        }
      case 'u' =>
        if key == "uidMappings" {
          var good, x := ReadMappings(element, linux.uidMappings);
          linux := linux.(uidMappings := x);
          if !good { return false; }
        }
      case 'g' =>
        if key == "gidMappings" {
          var good, x := ReadMappings(element, linux.uidMappings);
          linux := linux.(uidMappings := x);
          if !good { return false; }
        }
      case 'd' =>
        if key == "devices" {
          var good, x := ReadDevices(element, linux.devices);
          linux := linux.(devices := x);
          if !good { return false; }
        }
      case 'c' =>
        if key == "cgroupsPath" {
          if !element.Str? { return false; }
          linux := linux.(cgroupsPath := element.s);
        }
      case 'r' =>
        if key == "resources" {
          var good, x := ReadResources(element, linux.memory);
          linux := linux.(memory := x);
          if !good { return false; }
        }
      case _ =>
    }

    /** The linux section. */
    method LoadLinux(members: seq<Member>) returns (ok: bool)
      modifies this`linux
      ensures Out(ok, linux) == Fold(LinuxMember, (), members, old(linux))
      ensures ok <==> Conforms(Obj(members), ARecord(LinuxFields))
      ensures ok ==> linux == LinuxMeaning((), members, old(linux))
    {
      LinuxConforms(Obj(members), linux);
      if Fold(LinuxMember, (), members, linux).ok { LinuxMeans(Obj(members), linux); }
      for i := 0 to |members|
        invariant Fold(LinuxMember, (), members, old(linux)) == Fold(LinuxMember, (), members[i..], linux)
      {
        ok := LoadLinuxMember(members[i].key, members[i].value);
        if !ok { return; }
      }
      return true;
    }

    /** The annotations: one of them lists the commands that may be run. */
    method LoadAnnotations(members: seq<Member>) returns (ok: bool)
      modifies this`cmds
      ensures Out(ok, cmds) == Fold(AnnotationMember, (), members, old(cmds))
      ensures ok <==> Conforms(Obj(members), ARecord(AnnotationFields))
      ensures ok ==> cmds == AnnotationsMeaning((), members, old(cmds))
    {
      AnnotationsConform(Obj(members), cmds);
      if Fold(AnnotationMember, (), members, cmds).ok { AnnotationsMean(Obj(members), cmds); }
      for i := 0 to |members|
        invariant Fold(AnnotationMember, (), members, old(cmds)) == Fold(AnnotationMember, (), members[i..], cmds)
      {
        var key, element := members[i].key, members[i].value;
        match Initial(key)
        case 'o' =>
          if key == AllowCommands {
            var good, x := ReadStrings(element, cmds);
            cmds := x;
            if !good { return false; }
          }
        case _ =>
      }
      return true;
    }

    /** The whole document. A text that is missing or no JSON object is refused; any other
        document is accepted exactly if it conforms, and then every field holds what the
        document says. */
    method Load(document: Option<Value>) returns (ok: bool)
      modifies this
      ensures ok <==> document.Some? && Conforms(document.value, ConfigKind)
      ensures ok ==> View() == ConfigMeaning((), document.value.members, old(View()))
      ensures document.None? ==> View() == old(View())
      ensures document.Some? ==> Out(ok, View()) == LoadConfig(document.value, old(View()))
    {
      if document.Some? { ConfigLoads(document.value, View()); }
      if document.None? || !document.value.Obj? { return false; }
      var members := document.value.members;
      for i := 0 to |members|
        invariant Fold(ConfigMember, (), members, old(View())) == Fold(ConfigMember, (), members[i..], View())
      {
        ok := LoadMember(members[i].key, members[i].value);
        if !ok { return false; }
      }
      return true;
    }

    /** One top-level member, dispatched on the first character of its key. */
    method LoadMember(key: string, element: Value) returns (ok: bool)
      modifies this
      ensures Out(ok, View()) == ConfigMember((), old(View()), Member(key, element))
    {
      ok := true;
      match Initial(key)
      case 'a' =>
        if key == "annotations" {
          if !element.Obj? { return false; }
          ok := LoadAnnotations(element.members);
        }
      case 'm' =>
        if key == "mounts" {
          ok, mounts := ReadMounts(element, mounts);
        }
      case 'o' =>
        if key == "ociVersion" {
          if !element.Str? { return false; }
          ociVersion := element.s;
        }
      case 'p' =>
        if key == "process" {
          if !element.Obj? { return false; }
          ok := LoadProcess(element.members);
        }
      case 'r' =>
        if key == "root" {
          if !element.Obj? { return false; }
          ok := LoadRoot(element.members);
        }
      case 'l' =>
        if key == "linux" {
          if !element.Obj? { return false; }
          ok := LoadLinux(element.members);
        }
      case _ =>
    }
  }
}
