/** The bundle configuration (include/bundle.h) and what loading `config.json` does to it
    (src/bundle.cpp), as failing folds over members in document order.

    An outcome carries the data even when it is a failure: fields that were assigned before
    the failing member keep their new values. */
module BundleModel {
  import opened Wrappers
  import opened Json
  import opened Bits

  // ---- integers of a given width ----

  datatype Width = I32 | U32 | I64 | U64

  function Min(w: Width): int {
    match w
    case I32 => -0x8000_0000
    case I64 => -0x8000_0000_0000_0000
    case _ => 0
  }

  function Max(w: Width): int {
    match w
    case I32 => 0x7FFF_FFFF
    case U32 => 0xFFFF_FFFF
    case I64 => 0x7FFF_FFFF_FFFF_FFFF
    case U64 => 0xFFFF_FFFF_FFFF_FFFF
  }

  predicate IsSigned(w: Width) { w == I32 || w == I64 }

  /** `get_int`: first the 64-bit value of the right signedness, then the range of T. */
  function GetInt(v: Value, w: Width): Option<int> {
    if !v.Int? then None
    else
      var wide := if IsSigned(w) then I64 else U64;
      if v.n < Min(wide) || v.n > Max(wide) then None
      else if v.n < Min(w) || v.n > Max(w) then None
      else Some(v.n)
  }

  /** An integer of so many bits, in two's complement when it is signed. */
  predicate IsOfBits(n: int, bits: nat, signed: bool)
    requires bits > 0
  {
    if signed then -Pow2(bits - 1) <= n < Pow2(bits - 1) else 0 <= n < Pow2(bits)
  }

  /** The ranges of the four types. */
  predicate Fits(n: int, w: Width) {
    match w
    case I32 => -2147483648 <= n <= 2147483647
    case U32 => 0 <= n <= 4294967295
    case I64 => -9223372036854775808 <= n <= 9223372036854775807
    case U64 => 0 <= n <= 18446744073709551615
  }

  lemma FitsByBits(n: int)
    ensures Fits(n, I32) <==> IsOfBits(n, 32, true)
    ensures Fits(n, U32) <==> IsOfBits(n, 32, false)
    ensures Fits(n, I64) <==> IsOfBits(n, 64, true)
    ensures Fits(n, U64) <==> IsOfBits(n, 64, false)
  {
    Pow2Values();
  }

  /** It stores exactly the JSON integer, and only when it has that many bits. */
  lemma GetIntExact(v: Value, n: int)
    ensures GetInt(v, I32) == Some(n) <==> v == Int(n) && IsOfBits(n, 32, true)
    ensures GetInt(v, U32) == Some(n) <==> v == Int(n) && IsOfBits(n, 32, false)
    ensures GetInt(v, I64) == Some(n) <==> v == Int(n) && IsOfBits(n, 64, true)
    ensures GetInt(v, U64) == Some(n) <==> v == Int(n) && IsOfBits(n, 64, false)
  {
    FitsByBits(n);
  }

  // ---- the data ----

  datatype Console = Console(width: int, height: int)
  datatype Capabilities = Capabilities(
    effective: seq<string>, bounding: seq<string>, inheritable: seq<string>, permitted: seq<string>, ambient: seq<string>)
  datatype RLimit = RLimit(kind: string, soft: int, hard: int)
  datatype User = User(uid: int, gid: int, umask: int, additionalGids: seq<int>)
  datatype Process = Process(
    terminal: bool, console: Console, cwd: string, envs: seq<string>, args: seq<string>, rlimits: seq<RLimit>,
    caps: Capabilities, noNewPrivileges: bool, oomScoreAdj: int, user: User)
  datatype Root = Root(path: string, readonly: bool)
  datatype Mount = Mount(destination: string, source: string, kind: string, options: seq<string>)
  datatype Namespace = Namespace(kind: string, path: string)
  datatype IdMapping = IdMapping(containerId: int, hostId: int, size: int)
  datatype Device = Device(kind: string, path: string, major: int, minor: int, fileMode: int, uid: int, gid: int)
  datatype Memory = Memory(limit: int, reservation: int)
  datatype Linux = Linux(
    namespaces: seq<Namespace>, uidMappings: seq<IdMapping>, gidMappings: seq<IdMapping>, devices: seq<Device>,
    cgroupsPath: string, memory: Memory)
  datatype Config = Config(
    ociVersion: string, cmds: seq<string>, process: Process, root: Root, mounts: seq<Mount>, linux: Linux)

  const NewMount := Mount("", "", "", [])
  const NewNamespace := Namespace("", "")
  const NewMapping := IdMapping(0, 0, 0)
  const NewDevice := Device("", "", 0, 0, 0, 0, 0)
  const NewProcess :=
    Process(false, Console(0, 0), "", [], [], [], Capabilities([], [], [], [], []), false, 0, User(0, 0, 0, []))

  /** A default-constructed bundle. */
  const NewConfig :=
    Config("", [], NewProcess, Root("", false), [], Linux([], [], [], [], "", Memory(0, 0)))

  // ---- failing folds ----

  datatype Out<+A> = Out(ok: bool, acc: A)

  function Fold<E, A>(f: (E, A, Member) -> Out<A>, e: E, ms: seq<Member>, a: A): Out<A> {
    if ms == [] then Out(true, a) else
    var r := f(e, a, ms[0]);
    if !r.ok then r else Fold(f, e, ms[1..], r.acc)
  }

  function FoldItems<A>(f: (A, Value) -> Out<A>, xs: seq<Value>, a: A): Out<A> {
    if xs == [] then Out(true, a) else
    var r := f(a, xs[0]);
    if !r.ok then r else FoldItems(f, xs[1..], r.acc)
  }

  /** Assign an integer field, or fail and leave it. */
  function IntOr(v: Value, w: Width, old_: int): Out<int> {
    match GetInt(v, w)
    case Some(n) => Out(true, n)
    case None => Out(false, old_)
  }

  function StrOr(v: Value, old_: string): Out<string> {
    if v.Str? then Out(true, v.s) else Out(false, old_)
  }

  function BoolOr(v: Value, old_: bool): Out<bool> {
    if v.Bool? then Out(true, v.flag) else Out(false, old_)
  }

  // ---- lists of plain values ----

  function StringItem(acc: seq<string>, v: Value): Out<seq<string>> {
    if v.Str? then Out(true, acc + [v.s]) else Out(false, acc)
  }

  function LoadStrings(v: Value, acc: seq<string>): Out<seq<string>> {
    if v.Arr? then FoldItems(StringItem, v.items, acc) else Out(false, acc)
  }

  function GidItem(acc: seq<int>, v: Value): Out<seq<int>> {
    match GetInt(v, I32)
    case Some(n) => Out(true, acc + [n])
    case None => Out(false, acc)
  }

  function LoadGids(v: Value, acc: seq<int>): Out<seq<int>> {
    if v.Arr? then FoldItems(GidItem, v.items, acc) else Out(false, acc)
  }

  // ---- process (src/bundle.cpp:43-308) ----

  function ConsoleMember(e: (), c: Console, m: Member): Out<Console> {
    if m.key == "height" then var r := IntOr(m.value, U32, c.height); Out(r.ok, c.(height := r.acc))
    else if m.key == "width" then var r := IntOr(m.value, U32, c.width); Out(r.ok, c.(width := r.acc))
    else Out(true, c)
  }

  function LoadConsole(v: Value, c: Console): Out<Console> {
    if v.Obj? then Fold(ConsoleMember, (), v.members, c) else Out(false, c)
  }

  /** One optional list of capability names, looked up by key. */
  function LoadCapability(ms: seq<Member>, key: string, acc: seq<string>): Out<seq<string>> {
    match Find(ms, key)
    case None => Out(true, acc)
    case Some(v) => LoadStrings(v, acc)
  }

  function LoadCapabilities(v: Value, c: Capabilities): Out<Capabilities> {
    if !v.Obj? then Out(false, c) else
    var ms := v.members;
    var r := LoadCapability(ms, "effective", c.effective);
    var c := c.(effective := r.acc);
    if !r.ok then Out(false, c) else
    var r := LoadCapability(ms, "bounding", c.bounding);
    var c := c.(bounding := r.acc);
    if !r.ok then Out(false, c) else
    var r := LoadCapability(ms, "inheritable", c.inheritable);
    var c := c.(inheritable := r.acc);
    if !r.ok then Out(false, c) else
    var r := LoadCapability(ms, "permitted", c.permitted);
    var c := c.(permitted := r.acc);
    if !r.ok then Out(false, c) else
    var r := LoadCapability(ms, "ambient", c.ambient);
    Out(r.ok, c.(ambient := r.acc))
  }

  /** The three fields of a limit are required and found by key. */
  function RLimitOf(v: Value): Option<RLimit> {
    if !v.Obj? then None else
    match (Find(v.members, "type"), Find(v.members, "soft"), Find(v.members, "hard"))
    case (Some(Str(kind)), Some(Int(soft)), Some(Int(hard))) =>
      if GetInt(Int(soft), I64).Some? && GetInt(Int(hard), I64).Some? then Some(RLimit(kind, soft, hard)) else None
    case _ => None
  }

  function RLimitItem(acc: seq<RLimit>, v: Value): Out<seq<RLimit>> {
    match RLimitOf(v)
    case Some(l) => Out(true, acc + [l])
    case None => Out(false, acc)
  }

  function LoadRLimits(v: Value, acc: seq<RLimit>): Out<seq<RLimit>> {
    if v.Arr? then FoldItems(RLimitItem, v.items, acc) else Out(false, acc)
  }

  function UserMember(e: (), u: User, m: Member): Out<User> {
    if m.key == "uid" then var r := IntOr(m.value, I32, u.uid); Out(r.ok, u.(uid := r.acc))
    else if m.key == "umask" then var r := IntOr(m.value, I32, u.umask); Out(r.ok, u.(umask := r.acc))
    else if m.key == "gid" then var r := IntOr(m.value, I32, u.gid); Out(r.ok, u.(gid := r.acc))
    else if m.key == "additionalGids" then
      var r := LoadGids(m.value, u.additionalGids); Out(r.ok, u.(additionalGids := r.acc))
    else Out(true, u)
  }

  function LoadUser(v: Value, u: User): Out<User> {
    if v.Obj? then Fold(UserMember, (), v.members, u) else Out(false, u)
  }

  /** The limits are looked up again by key in the whole process object, so a repeated
      "rlimits" member loads the first one twice. */
  function ProcessMember(whole: seq<Member>, p: Process, m: Member): Out<Process> {
    if m.key == "args" then var r := LoadStrings(m.value, p.args); Out(r.ok, p.(args := r.acc))
    else if m.key == "consoleSize" then var r := LoadConsole(m.value, p.console); Out(r.ok, p.(console := r.acc))
    else if m.key == "cwd" then var r := StrOr(m.value, p.cwd); Out(r.ok, p.(cwd := r.acc))
    else if m.key == "capabilities" then var r := LoadCapabilities(m.value, p.caps); Out(r.ok, p.(caps := r.acc))
    else if m.key == "env" then var r := LoadStrings(m.value, p.envs); Out(r.ok, p.(envs := r.acc))
    else if m.key == "noNewPrivileges" then
      var r := BoolOr(m.value, p.noNewPrivileges); Out(r.ok, p.(noNewPrivileges := r.acc))
    else if m.key == "oomScoreAdj" then var r := IntOr(m.value, I32, p.oomScoreAdj); Out(r.ok, p.(oomScoreAdj := r.acc))
    else if m.key == "rlimits" then
      match Find(whole, "rlimits")
      case None => Out(false, p)
      case Some(v) => var r := LoadRLimits(v, p.rlimits); Out(r.ok, p.(rlimits := r.acc))
    else if m.key == "terminal" then var r := BoolOr(m.value, p.terminal); Out(r.ok, p.(terminal := r.acc))
    else if m.key == "user" then var r := LoadUser(m.value, p.user); Out(r.ok, p.(user := r.acc))
    else Out(true, p)
  }

  function LoadProcess(v: Value, p: Process): Out<Process> {
    if v.Obj? then Fold(ProcessMember, v.members, v.members, p) else Out(false, p)
  }

  // ---- root and mounts (310-398) ----

  function RootMember(e: (), r: Root, m: Member): Out<Root> {
    if m.key == "path" then var x := StrOr(m.value, r.path); Out(x.ok, r.(path := x.acc))
    else if m.key == "readonly" then var x := BoolOr(m.value, r.readonly); Out(x.ok, r.(readonly := x.acc))
    else Out(true, r)
  }

  function LoadRoot(v: Value, r: Root): Out<Root> {
    if v.Obj? then Fold(RootMember, (), v.members, r) else Out(false, r)
  }

  function MountMember(e: (), d: Mount, m: Member): Out<Mount> {
    if m.key == "destination" then var r := StrOr(m.value, d.destination); Out(r.ok, d.(destination := r.acc))
    else if m.key == "options" then var r := LoadStrings(m.value, d.options); Out(r.ok, d.(options := r.acc))
    else if m.key == "source" then var r := StrOr(m.value, d.source); Out(r.ok, d.(source := r.acc))
    else if m.key == "type" then var r := StrOr(m.value, d.kind); Out(r.ok, d.(kind := r.acc))
    else Out(true, d)
  }

  function MountItem(acc: seq<Mount>, v: Value): Out<seq<Mount>> {
    if !v.Obj? then Out(false, acc) else
    var r := Fold(MountMember, (), v.members, NewMount);
    if r.ok then Out(true, acc + [r.acc]) else Out(false, acc)
  }

  function LoadMounts(v: Value, acc: seq<Mount>): Out<seq<Mount>> {
    if v.Arr? then FoldItems(MountItem, v.items, acc) else Out(false, acc)
  }

  // ---- linux (401-668) ----

  function NamespaceMember(e: (), d: Namespace, m: Member): Out<Namespace> {
    if m.key == "path" then var r := StrOr(m.value, d.path); Out(r.ok, d.(path := r.acc))
    else if m.key == "type" then var r := StrOr(m.value, d.kind); Out(r.ok, d.(kind := r.acc))
    else Out(true, d)
  }

  function NamespaceItem(acc: seq<Namespace>, v: Value): Out<seq<Namespace>> {
    if !v.Obj? then Out(false, acc) else
    var r := Fold(NamespaceMember, (), v.members, NewNamespace);
    if r.ok then Out(true, acc + [r.acc]) else Out(false, acc)
  }

  function LoadNamespaces(v: Value, acc: seq<Namespace>): Out<seq<Namespace>> {
    if v.Arr? then FoldItems(NamespaceItem, v.items, acc) else Out(false, acc)
  }

  function MappingMember(e: (), d: IdMapping, m: Member): Out<IdMapping> {
    if m.key == "containerID" then var r := IntOr(m.value, U32, d.containerId); Out(r.ok, d.(containerId := r.acc))
    else if m.key == "hostID" then var r := IntOr(m.value, U32, d.hostId); Out(r.ok, d.(hostId := r.acc))
    else if m.key == "size" then var r := IntOr(m.value, U32, d.size); Out(r.ok, d.(size := r.acc))
    else Out(true, d)
  }

  function MappingItem(acc: seq<IdMapping>, v: Value): Out<seq<IdMapping>> {
    if !v.Obj? then Out(false, acc) else
    var r := Fold(MappingMember, (), v.members, NewMapping);
    if r.ok then Out(true, acc + [r.acc]) else Out(false, acc)
  }

  function LoadMappings(v: Value, acc: seq<IdMapping>): Out<seq<IdMapping>> {
    if v.Arr? then FoldItems(MappingItem, v.items, acc) else Out(false, acc)
  }

  function DeviceMember(e: (), d: Device, m: Member): Out<Device> {
    if m.key == "type" then var r := StrOr(m.value, d.kind); Out(r.ok, d.(kind := r.acc))
    else if m.key == "path" then var r := StrOr(m.value, d.path); Out(r.ok, d.(path := r.acc))
    else if m.key == "major" then var r := IntOr(m.value, I64, d.major); Out(r.ok, d.(major := r.acc))
    else if m.key == "minor" then var r := IntOr(m.value, I64, d.minor); Out(r.ok, d.(minor := r.acc))
    else if m.key == "fileMode" then var r := IntOr(m.value, U32, d.fileMode); Out(r.ok, d.(fileMode := r.acc))
    else if m.key == "uid" then var r := IntOr(m.value, U32, d.uid); Out(r.ok, d.(uid := r.acc))
    else if m.key == "gid" then var r := IntOr(m.value, U32, d.gid); Out(r.ok, d.(gid := r.acc))
    else Out(true, d)
  }

  function DeviceItem(acc: seq<Device>, v: Value): Out<seq<Device>> {
    if !v.Obj? then Out(false, acc) else
    var r := Fold(DeviceMember, (), v.members, NewDevice);
    if r.ok then Out(true, acc + [r.acc]) else Out(false, acc)
  }

  function LoadDevices(v: Value, acc: seq<Device>): Out<seq<Device>> {
    if v.Arr? then FoldItems(DeviceItem, v.items, acc) else Out(false, acc)
  }

  function MemoryMember(e: (), x: Memory, m: Member): Out<Memory> {
    if m.key == "limit" then var r := IntOr(m.value, U64, x.limit); Out(r.ok, x.(limit := r.acc))
    else if m.key == "reservation" then var r := IntOr(m.value, U64, x.reservation); Out(r.ok, x.(reservation := r.acc))
    else Out(true, x)
  }

  function LoadMemory(v: Value, x: Memory): Out<Memory> {
    if v.Obj? then Fold(MemoryMember, (), v.members, x) else Out(false, x)
  }

  /** Devices under resources are recognised and ignored. */
  function ResourcesMember(e: (), x: Memory, m: Member): Out<Memory> {
    if m.key == "memory" then LoadMemory(m.value, x) else Out(true, x)
  }

  function LoadResources(v: Value, x: Memory): Out<Memory> {
    if v.Obj? then Fold(ResourcesMember, (), v.members, x) else Out(false, x)
  }

  /** Group mappings are appended to the user mappings, and the list of group mappings
      stays empty. */
  function LinuxMember(e: (), x: Linux, m: Member): Out<Linux> {
    if m.key == "namespaces" then var r := LoadNamespaces(m.value, x.namespaces); Out(r.ok, x.(namespaces := r.acc))
    else if m.key == "uidMappings" then var r := LoadMappings(m.value, x.uidMappings); Out(r.ok, x.(uidMappings := r.acc))
    else if m.key == "gidMappings" then var r := LoadMappings(m.value, x.uidMappings); Out(r.ok, x.(uidMappings := r.acc))
    else if m.key == "devices" then var r := LoadDevices(m.value, x.devices); Out(r.ok, x.(devices := r.acc))
    else if m.key == "cgroupsPath" then var r := StrOr(m.value, x.cgroupsPath); Out(r.ok, x.(cgroupsPath := r.acc))
    else if m.key == "resources" then var r := LoadResources(m.value, x.memory); Out(r.ok, x.(memory := r.acc))
    else Out(true, x)
  }

  function LoadLinux(v: Value, x: Linux): Out<Linux> {
    if v.Obj? then Fold(LinuxMember, (), v.members, x) else Out(false, x)
  }

  // ---- the whole document (695-817) ----

  const AllowCommands := "org.wasmedge.exec.allow_commands"

  function AnnotationMember(e: (), cmds: seq<string>, m: Member): Out<seq<string>> {
    if m.key == AllowCommands then LoadStrings(m.value, cmds) else Out(true, cmds)
  }

  function LoadAnnotations(v: Value, cmds: seq<string>): Out<seq<string>> {
    if v.Obj? then Fold(AnnotationMember, (), v.members, cmds) else Out(false, cmds)
  }

  function ConfigMember(e: (), b: Config, m: Member): Out<Config> {
    if m.key == "annotations" then var r := LoadAnnotations(m.value, b.cmds); Out(r.ok, b.(cmds := r.acc))
    else if m.key == "mounts" then var r := LoadMounts(m.value, b.mounts); Out(r.ok, b.(mounts := r.acc))
    else if m.key == "ociVersion" then var r := StrOr(m.value, b.ociVersion); Out(r.ok, b.(ociVersion := r.acc))
    else if m.key == "process" then var r := LoadProcess(m.value, b.process); Out(r.ok, b.(process := r.acc))
    else if m.key == "root" then var r := LoadRoot(m.value, b.root); Out(r.ok, b.(root := r.acc))
    else if m.key == "linux" then var r := LoadLinux(m.value, b.linux); Out(r.ok, b.(linux := r.acc))
    else Out(true, b)
  }

  /** `Bundle::load` on a parsed document. */
  function LoadConfig(v: Value, b: Config): Out<Config> {
    if v.Obj? then Fold(ConfigMember, (), v.members, b) else Out(false, b)
  }
}
