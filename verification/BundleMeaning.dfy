/** What an accepted configuration means, field by field and without a loop over members:
    a scalar is the last value under its key, a list is the concatenation, in document
    order, of all arrays under its key, and repeated objects act like one long object. The
    exceptions are lists that are looked up by name: of a repeated capability list only the
    first counts, and repeated "rlimits" load the first once for each of them. */
module BundleMeaning {
  import opened Wrappers
  import opened Json
  import opened BundleModel

  /** The values under a key, in document order. */
  function At(ms: seq<Member>, key: string): seq<Value> {
    if ms == [] then [] else (if ms[0].key == key then [ms[0].value] else []) + At(ms[1..], key)
  }

  function AtEither(ms: seq<Member>, a: string, b: string): seq<Value> {
    if ms == [] then []
    else (if ms[0].key == a || ms[0].key == b then [ms[0].value] else []) + AtEither(ms[1..], a, b)
  }

  /** The members of all objects among the values, one object after the other. */
  function Inside(vs: seq<Value>): seq<Member> {
    if vs == [] then [] else (if vs[0].Obj? then vs[0].members else []) + Inside(vs[1..])
  }

  /** The last string among the values, if there is one. */
  function LastString(vs: seq<Value>, none: string): string {
    if vs == [] then none else LastString(vs[1..], if vs[0].Str? then vs[0].s else none)
  }

  function LastInt(vs: seq<Value>, none: int): int {
    if vs == [] then none else LastInt(vs[1..], if vs[0].Int? then vs[0].n else none)
  }

  function LastFlag(vs: seq<Value>, none: bool): bool {
    if vs == [] then none else LastFlag(vs[1..], if vs[0].Bool? then vs[0].flag else none)
  }

  /** The lists that the values stand for, joined. */
  function Gather<T>(f: Value -> seq<T>, vs: seq<Value>): seq<T> {
    if vs == [] then [] else f(vs[0]) + Gather(f, vs[1..])
  }

  function StringIn(v: Value): seq<string> { if v.Str? then [v.s] else [] }
  function StringsIn(v: Value): seq<string> { if v.Arr? then Gather(StringIn, v.items) else [] }

  function GidIn(v: Value): seq<int> { if v.Int? then [v.n] else [] }
  function GidsIn(v: Value): seq<int> { if v.Arr? then Gather(GidIn, v.items) else [] }

  /** A limit's own members are looked up by key. */
  function RLimitIn(v: Value): seq<RLimit> {
    if !v.Obj? then [] else
    match (Find(v.members, "type"), Find(v.members, "soft"), Find(v.members, "hard"))
    case (Some(Str(kind)), Some(Int(soft)), Some(Int(hard))) => [RLimit(kind, soft, hard)]
    case _ => []
  }
  function RLimitsIn(v: Value): seq<RLimit> { if v.Arr? then Gather(RLimitIn, v.items) else [] }

  // ---- one object each ----

  function MountMeaning(e: (), ms: seq<Member>, d: Mount): Mount {
    Mount(LastString(At(ms, "destination"), d.destination), LastString(At(ms, "source"), d.source),
          LastString(At(ms, "type"), d.kind), d.options + Gather(StringsIn, At(ms, "options")))
  }
  function MountIn(v: Value): seq<Mount> { if v.Obj? then [MountMeaning((), v.members, Mount("", "", "", []))] else [] }
  function MountsIn(v: Value): seq<Mount> { if v.Arr? then Gather(MountIn, v.items) else [] }

  function NamespaceMeaning(e: (), ms: seq<Member>, d: Namespace): Namespace {
    Namespace(LastString(At(ms, "type"), d.kind), LastString(At(ms, "path"), d.path))
  }
  function NamespaceIn(v: Value): seq<Namespace> { if v.Obj? then [NamespaceMeaning((), v.members, Namespace("", ""))] else [] }
  function NamespacesIn(v: Value): seq<Namespace> { if v.Arr? then Gather(NamespaceIn, v.items) else [] }

  function MappingMeaning(e: (), ms: seq<Member>, d: IdMapping): IdMapping {
    IdMapping(LastInt(At(ms, "containerID"), d.containerId), LastInt(At(ms, "hostID"), d.hostId), LastInt(At(ms, "size"), d.size))
  }
  function MappingIn(v: Value): seq<IdMapping> { if v.Obj? then [MappingMeaning((), v.members, IdMapping(0, 0, 0))] else [] }
  function MappingsIn(v: Value): seq<IdMapping> { if v.Arr? then Gather(MappingIn, v.items) else [] }

  function DeviceMeaning(e: (), ms: seq<Member>, d: Device): Device {
    Device(LastString(At(ms, "type"), d.kind), LastString(At(ms, "path"), d.path), LastInt(At(ms, "major"), d.major),
           LastInt(At(ms, "minor"), d.minor), LastInt(At(ms, "fileMode"), d.fileMode), LastInt(At(ms, "uid"), d.uid),
           LastInt(At(ms, "gid"), d.gid))
  }
  function DeviceIn(v: Value): seq<Device> { if v.Obj? then [DeviceMeaning((), v.members, Device("", "", 0, 0, 0, 0, 0))] else [] }
  function DevicesIn(v: Value): seq<Device> { if v.Arr? then Gather(DeviceIn, v.items) else [] }

  function ConsoleMeaning(e: (), ms: seq<Member>, c: Console): Console {
    Console(LastInt(At(ms, "width"), c.width), LastInt(At(ms, "height"), c.height))
  }

  function UserMeaning(e: (), ms: seq<Member>, u: User): User {
    User(LastInt(At(ms, "uid"), u.uid), LastInt(At(ms, "gid"), u.gid), LastInt(At(ms, "umask"), u.umask),
         u.additionalGids + Gather(GidsIn, At(ms, "additionalGids")))
  }

  /** Capabilities are looked up by key: the first list of that name counts. */
  function CapabilityIn(ms: seq<Member>, key: string): seq<string> {
    match Find(ms, key)
    case None => []
    case Some(v) => StringsIn(v)
  }

  function CapabilitiesMeaning(ms: seq<Member>, c: Capabilities): Capabilities {
    Capabilities(c.effective + CapabilityIn(ms, "effective"), c.bounding + CapabilityIn(ms, "bounding"),
                 c.inheritable + CapabilityIn(ms, "inheritable"), c.permitted + CapabilityIn(ms, "permitted"),
                 c.ambient + CapabilityIn(ms, "ambient"))
  }

  /** Several capability objects, one after the other. */
  function AllCapabilities(vs: seq<Value>, c: Capabilities): Capabilities {
    if vs == [] then c
    else AllCapabilities(vs[1..], if vs[0].Obj? then CapabilitiesMeaning(vs[0].members, c) else c)
  }

  /** Each "rlimits" member loads the first one of the whole object. */
  function AllRLimits(whole: seq<Member>, vs: seq<Value>): seq<RLimit> {
    if vs == [] then []
    else (match Find(whole, "rlimits") case None => [] case Some(v) => RLimitsIn(v)) + AllRLimits(whole, vs[1..])
  }

  function ProcessMeaning(whole: seq<Member>, ms: seq<Member>, p: Process): Process {
    Process(LastFlag(At(ms, "terminal"), p.terminal),
            ConsoleMeaning((), Inside(At(ms, "consoleSize")), p.console),
            LastString(At(ms, "cwd"), p.cwd),
            p.envs + Gather(StringsIn, At(ms, "env")),
            p.args + Gather(StringsIn, At(ms, "args")),
            p.rlimits + AllRLimits(whole, At(ms, "rlimits")),
            AllCapabilities(At(ms, "capabilities"), p.caps),
            LastFlag(At(ms, "noNewPrivileges"), p.noNewPrivileges),
            LastInt(At(ms, "oomScoreAdj"), p.oomScoreAdj),
            UserMeaning((), Inside(At(ms, "user")), p.user))
  }

  function AllProcesses(vs: seq<Value>, p: Process): Process {
    if vs == [] then p
    else AllProcesses(vs[1..], if vs[0].Obj? then ProcessMeaning(vs[0].members, vs[0].members, p) else p)
  }

  function RootMeaning(e: (), ms: seq<Member>, r: Root): Root {
    Root(LastString(At(ms, "path"), r.path), LastFlag(At(ms, "readonly"), r.readonly))
  }

  function MemoryMeaning(e: (), ms: seq<Member>, x: Memory): Memory {
    Memory(LastInt(At(ms, "limit"), x.limit), LastInt(At(ms, "reservation"), x.reservation))
  }

  function ResourcesMeaning(e: (), ms: seq<Member>, x: Memory): Memory {
    MemoryMeaning((), Inside(At(ms, "memory")), x)
  }

  /** User and group mappings share one list, in document order. */
  function LinuxMeaning(e: (), ms: seq<Member>, x: Linux): Linux {
    Linux(x.namespaces + Gather(NamespacesIn, At(ms, "namespaces")),
          x.uidMappings + Gather(MappingsIn, AtEither(ms, "uidMappings", "gidMappings")),
          x.gidMappings,
          x.devices + Gather(DevicesIn, At(ms, "devices")),
          LastString(At(ms, "cgroupsPath"), x.cgroupsPath),
          ResourcesMeaning((), Inside(At(ms, "resources")), x.memory))
  }

  function AnnotationsMeaning(e: (), ms: seq<Member>, cmds: seq<string>): seq<string> {
    cmds + Gather(StringsIn, At(ms, "org.wasmedge.exec.allow_commands"))
  }

  function ConfigMeaning(e: (), ms: seq<Member>, b: Config): Config {
    Config(LastString(At(ms, "ociVersion"), b.ociVersion),
           AnnotationsMeaning((), Inside(At(ms, "annotations")), b.cmds),
           AllProcesses(At(ms, "process"), b.process),
           RootMeaning((), Inside(At(ms, "root")), b.root),
           b.mounts + Gather(MountsIn, At(ms, "mounts")),
           LinuxMeaning((), Inside(At(ms, "linux")), b.linux))
  }

  // ---- joining ----

  lemma JoinParts<T>(a: seq<T>, b: seq<T>, c: seq<T>)
    ensures a + (b + c) == (a + b) + c
  {
  }

  lemma {:induction false} AtConcat(a: seq<Member>, b: seq<Member>, key: string)
    ensures At(a + b, key) == At(a, key) + At(b, key)
  {
    if a == [] {
      assert a + b == b;
    } else {
      assert (a + b)[1..] == a[1..] + b;
      AtConcat(a[1..], b, key);
      JoinParts(if a[0].key == key then [a[0].value] else [], At(a[1..], key), At(b, key));
    }
  }

  lemma {:induction false} AtEitherConcat(a: seq<Member>, b: seq<Member>, k: string, l: string)
    ensures AtEither(a + b, k, l) == AtEither(a, k, l) + AtEither(b, k, l)
  {
    if a == [] {
      assert a + b == b;
    } else {
      assert (a + b)[1..] == a[1..] + b;
      AtEitherConcat(a[1..], b, k, l);
      JoinParts(if a[0].key == k || a[0].key == l then [a[0].value] else [], AtEither(a[1..], k, l), AtEither(b, k, l));
    }
  }

  lemma {:induction false} InsideConcat(a: seq<Value>, b: seq<Value>)
    ensures Inside(a + b) == Inside(a) + Inside(b)
  {
    if a == [] {
      assert a + b == b;
    } else {
      assert (a + b)[1..] == a[1..] + b;
      InsideConcat(a[1..], b);
      JoinParts(if a[0].Obj? then a[0].members else [], Inside(a[1..]), Inside(b));
    }
  }

  lemma {:induction false} GatherConcat<T>(f: Value -> seq<T>, a: seq<Value>, b: seq<Value>)
    ensures Gather(f, a + b) == Gather(f, a) + Gather(f, b)
  {
    if a == [] {
      assert a + b == b;
    } else {
      assert (a + b)[1..] == a[1..] + b;
      GatherConcat(f, a[1..], b);
      JoinParts(f(a[0]), Gather(f, a[1..]), Gather(f, b));
    }
  }

  // ---- folds follow the meaning ----

  /** A fold whose steps append is one big append. */
  lemma {:induction false} FoldItemsGathers<T(!new)>(f: (seq<T>, Value) -> Out<seq<T>>, g: Value -> seq<T>, xs: seq<Value>, a: seq<T>)
    requires forall a: seq<T>, v: Value :: f(a, v).ok ==> f(a, v).acc == a + g(v)
    requires FoldItems(f, xs, a).ok
    ensures FoldItems(f, xs, a).acc == a + Gather(g, xs)
  {
    if xs != [] {
      assert f(a, xs[0]).ok;
      FoldItemsGathers(f, g, xs[1..], f(a, xs[0]).acc);
    }
  }

  /** A meaning that treats members one after the other. */
  ghost predicate Sequential<E(!new), A(!new)>(mean: (E, seq<Member>, A) -> A, e: E) {
    && (forall a: A :: mean(e, [], a) == a)
    && (forall m: Member, ms: seq<Member>, a: A {:trigger mean(e, [m] + ms, a)} :: mean(e, [m] + ms, a) == mean(e, ms, mean(e, [m], a)))
  }

  lemma {:induction false} FoldMeans<E(!new), A(!new)>(f: (E, A, Member) -> Out<A>, mean: (E, seq<Member>, A) -> A, e: E, ms: seq<Member>, a: A)
    requires Sequential(mean, e)
    requires forall a: A, m: Member :: f(e, a, m).ok ==> f(e, a, m).acc == mean(e, [m], a)
    requires Fold(f, e, ms, a).ok
    ensures Fold(f, e, ms, a).acc == mean(e, ms, a)
  {
    if ms != [] {
      assert f(e, a, ms[0]).ok;
      FoldMeans(f, mean, e, ms[1..], f(e, a, ms[0]).acc);
      assert ms == [ms[0]] + ms[1..];
    }
  }
}
