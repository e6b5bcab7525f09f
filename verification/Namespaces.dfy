/** Entering and leaving namespaces (src/runw.cpp:443-534). */
module Namespaces {
  import opened Wrappers
  import opened BundleModel
  import opened Bits

  datatype Flag = NewCgroup | NewIpc | NewNs | NewNet | NewPid | NewTime | NewUts | NewUser

  /** The flag of a namespace type; an unknown type has none and is skipped. */
  function FlagOf(kind: string): Option<Flag> {
    if kind == "cgroup" then Some(NewCgroup)
    else if kind == "ipc" then Some(NewIpc)
    else if kind == "mount" then Some(NewNs)
    else if kind == "network" then Some(NewNet)
    else if kind == "pid" then Some(NewPid)
    else if kind == "time" then Some(NewTime)
    else if kind == "uts" then Some(NewUts)
    else if kind == "user" then Some(NewUser)
    else None
  }

  /** The bit of a flag, as the kernel's sched.h defines it. */
  function Bit(f: Flag): nat {
    match f
    case NewTime => 0x0000_0080
    case NewNs => 0x0002_0000
    case NewCgroup => 0x0200_0000
    case NewUts => 0x0400_0000
    case NewIpc => 0x0800_0000
    case NewUser => 0x1000_0000
    case NewPid => 0x2000_0000
    case NewNet => 0x4000_0000
  }

  /** Which binary digit that is. */
  function Place(f: Flag): nat {
    match f
    case NewTime => 7
    case NewNs => 17
    case NewCgroup => 25
    case NewUts => 26
    case NewIpc => 27
    case NewUser => 28
    case NewPid => 29
    case NewNet => 30
  }

  lemma SmallPowers()
    ensures Pow2(7) == 0x80 && Pow2(17) == 0x2_0000 && Pow2(25) == 0x200_0000
    ensures Pow2(26) == 0x400_0000 && Pow2(27) == 0x800_0000 && Pow2(28) == 0x1000_0000
    ensures Pow2(29) == 0x2000_0000 && Pow2(30) == 0x4000_0000
  {
    Pow2Sum(7, 10);
    assert Pow2(7) == 128 && Pow2(10) == 1024;
    Pow2Sum(8, 17);
    assert Pow2(8) == 256;
    assert Pow2(26) == 2 * Pow2(25) && Pow2(27) == 2 * Pow2(26) && Pow2(28) == 2 * Pow2(27);
    assert Pow2(29) == 2 * Pow2(28) && Pow2(30) == 2 * Pow2(29);
  }

  lemma OneBit(f: Flag, j: nat)
    ensures BitAt(Bit(f), j) <==> j == Place(f)
  {
    SmallPowers();
    Pow2Bits(Place(f), j);
  }

  const Flags := [NewTime, NewNs, NewCgroup, NewUts, NewIpc, NewUser, NewPid, NewNet]

  /** The bits of those flags of a set that are listed, joined by bitwise or. */
  function WordOf(s: set<Flag>, listed: seq<Flag>): nat {
    if listed == [] then 0 else Or(if listed[0] in s then Bit(listed[0]) else 0, WordOf(s, listed[1..]))
  }

  /** The bits of some flags in one word. */
  function Word(s: set<Flag>): nat { WordOf(s, Flags) }

  lemma {:induction false} WordOfBits(s: set<Flag>, listed: seq<Flag>, j: nat)
    ensures BitAt(WordOf(s, listed), j) <==> exists f :: f in s && f in listed && j == Place(f)
  {
    if listed == [] {
      ZeroBits(j);
    } else {
      var g, rest := listed[0], listed[1..];
      WordOfBits(s, rest, j);
      OrBits(if g in s then Bit(g) else 0, WordOf(s, rest), j);
      OneBit(g, j);
      ZeroBits(j);
      assert listed == [g] + rest;
    }
  }

  lemma AllFlags(f: Flag)
    ensures f in Flags
  {
    assert f == Flags[0] || f == Flags[1] || f == Flags[2] || f == Flags[3] || f == Flags[4] || f == Flags[5] || f == Flags[6] || f == Flags[7];
  }

  /** A digit of the word is 1 exactly for the flags of the set. */
  lemma WordBits(s: set<Flag>, j: nat)
    ensures BitAt(Word(s), j) <==> exists f :: f in s && j == Place(f)
  {
    WordOfBits(s, Flags, j);
    forall f ensures f in Flags { AllFlags(f); }
  }

  /** Adding a flag to the set is the bitwise or with its bit. */
  lemma WordMore(s: set<Flag>, f: Flag)
    ensures Word(s + {f}) == Or(Word(s), Bit(f))
  {
    forall j: nat ensures BitAt(Word(s + {f}), j) <==> BitAt(Or(Word(s), Bit(f)), j) {
      WordBits(s, j);
      WordBits(s + {f}, j);
      OrBits(Word(s), Bit(f), j);
      OneBit(f, j);
    }
    SameBits(Word(s + {f}), Or(Word(s), Bit(f)));
  }

  lemma NoWord(s: set<Flag>)
    ensures Word(s) == 0 <==> s == {}
  {
    if f :| f in s {
      WordBits(s, Place(f));
      ZeroBits(Place(f));
    } else {
      EmptyWord(Flags);
    }
  }

  lemma {:induction false} EmptyWord(listed: seq<Flag>)
    ensures WordOf({}, listed) == 0
  {
    if listed != [] { EmptyWord(listed[1..]); }
  }

  /** The dispatch on the first character finds the flag of every type name. */
  method Lookup(kind: string) returns (flag: Option<Flag>)
    requires kind != ""
    ensures flag == FlagOf(kind)
    ensures flag == Some(NewCgroup) <==> kind == "cgroup"
    ensures flag == Some(NewIpc) <==> kind == "ipc"
    ensures flag == Some(NewNs) <==> kind == "mount"
    ensures flag == Some(NewNet) <==> kind == "network"
    ensures flag == Some(NewPid) <==> kind == "pid"
    ensures flag == Some(NewTime) <==> kind == "time"
    ensures flag == Some(NewUts) <==> kind == "uts"
    ensures flag == Some(NewUser) <==> kind == "user"
  {
    flag := None;
    match kind[0]
    case 'c' =>
      if kind == "cgroup" { flag := Some(NewCgroup); }
    case 'i' =>
      if kind == "ipc" { flag := Some(NewIpc); }
    case 'm' =>
      if kind == "mount" { flag := Some(NewNs); }
    case 'n' =>
      if kind == "network" { flag := Some(NewNet); }
    case 'p' =>
      if kind == "pid" { flag := Some(NewPid); }
    case 't' =>
      if kind == "time" { flag := Some(NewTime); }
    case 'u' =>
      if kind == "uts" { flag := Some(NewUts); }
      else if kind == "user" { flag := Some(NewUser); }
    case _ =>
  }

  lemma FlagsApart(k: string, l: string)
    requires FlagOf(k).Some? && FlagOf(k) == FlagOf(l)
    ensures k == l
  {
  }

  // ---- what a list of descriptors asks for ----

  datatype Target = Target(path: string, flag: Flag)

  predicate Named(n: Namespace) { FlagOf(n.kind).Some? && n.path != "" }

  predicate Own(n: Namespace) { FlagOf(n.kind).Some? && n.path == "" }

  function TargetOf(n: Namespace): seq<Target> { if Named(n) then [Target(n.path, FlagOf(n.kind).value)] else [] }

  /** The recognised entries with a path, in list order. */
  function Targets(ns: seq<Namespace>): seq<Target> {
    if ns == [] then [] else TargetOf(ns[0]) + Targets(ns[1..])
  }

  lemma JoinThree<T>(a: seq<T>, b: seq<T>, c: seq<T>)
    ensures a + (b + c) == a + b + c
  {
  }

  /** The flags of the recognised entries without a path, joined. */
  function Mask(ns: seq<Namespace>): set<Flag> {
    set i | 0 <= i < |ns| && Own(ns[i]) :: FlagOf(ns[i].kind).value
  }

  lemma {:induction false} TargetsConcat(a: seq<Namespace>, b: seq<Namespace>)
    ensures Targets(a + b) == Targets(a) + Targets(b)
  {
    if a == [] {
      assert a + b == b;
    } else {
      assert (a + b)[1..] == a[1..] + b;
      TargetsConcat(a[1..], b);
      JoinThree(TargetOf(a[0]), Targets(a[1..]), Targets(b));
    }
  }

  lemma MaskMore(ns: seq<Namespace>, n: Namespace)
    ensures Mask(ns + [n]) == if Own(n) then Mask(ns) + {FlagOf(n.kind).value} else Mask(ns)
  {
    var all := ns + [n];
    assert forall i :: 0 <= i < |ns| ==> all[i] == ns[i];
    assert all[|ns|] == n;
  }

  /** One more entry of the list. */
  lemma OneMore(ns: seq<Namespace>, n: Namespace)
    ensures Mask(ns + [n]) == if Own(n) then Mask(ns) + {FlagOf(n.kind).value} else Mask(ns)
    ensures Targets(ns + [n]) == if Named(n) then Targets(ns) + [Target(n.path, FlagOf(n.kind).value)] else Targets(ns)
  {
    MaskMore(ns, n);
    assert [n][1..] == [];
    TargetsConcat(ns, [n]);
  }

  lemma MaskOfKind(ns: seq<Namespace>, kind: string, f: Flag)
    requires FlagOf(kind) == Some(f)
    ensures f in Mask(ns) <==> Namespace(kind, "") in ns
  {
    if f in Mask(ns) {
      var i :| 0 <= i < |ns| && Own(ns[i]) && FlagOf(ns[i].kind).value == f;
      FlagsApart(kind, ns[i].kind);
    }
  }

  /** A flag is in the mask exactly if its type is listed without a path. */
  lemma MaskExactly(ns: seq<Namespace>)
    ensures NewCgroup in Mask(ns) <==> Namespace("cgroup", "") in ns
    ensures NewIpc in Mask(ns) <==> Namespace("ipc", "") in ns
    ensures NewNs in Mask(ns) <==> Namespace("mount", "") in ns
    ensures NewNet in Mask(ns) <==> Namespace("network", "") in ns
    ensures NewPid in Mask(ns) <==> Namespace("pid", "") in ns
    ensures NewTime in Mask(ns) <==> Namespace("time", "") in ns
    ensures NewUts in Mask(ns) <==> Namespace("uts", "") in ns
    ensures NewUser in Mask(ns) <==> Namespace("user", "") in ns
  {
    MaskOfKind(ns, "cgroup", NewCgroup);
    MaskOfKind(ns, "ipc", NewIpc);
    MaskOfKind(ns, "mount", NewNs);
    MaskOfKind(ns, "network", NewNet);
    MaskOfKind(ns, "pid", NewPid);
    MaskOfKind(ns, "time", NewTime);
    MaskOfKind(ns, "uts", NewUts);
    MaskOfKind(ns, "user", NewUser);
  }

  lemma FlagInWord(s: set<Flag>, f: Flag)
    ensures BitAt(Word(s), Place(f)) <==> f in s
  {
    WordBits(s, Place(f));
  }

  /** The word passed to unshare, digit by digit: CLONE_NEWTIME is 2^7, CLONE_NEWNS 2^17,
      CLONE_NEWCGROUP 2^25 and so on up to CLONE_NEWNET, 2^30; no other digit is ever set. */
  lemma WordExactly(ns: seq<Namespace>, j: nat)
    ensures BitAt(Word(Mask(ns)), j) <==>
            || (j == 7 && Namespace("time", "") in ns) || (j == 17 && Namespace("mount", "") in ns)
            || (j == 25 && Namespace("cgroup", "") in ns) || (j == 26 && Namespace("uts", "") in ns)
            || (j == 27 && Namespace("ipc", "") in ns) || (j == 28 && Namespace("user", "") in ns)
            || (j == 29 && Namespace("pid", "") in ns) || (j == 30 && Namespace("network", "") in ns)
  {
    MaskExactly(ns);
    WordBits(Mask(ns), j);
    FlagInWord(Mask(ns), NewTime);
    FlagInWord(Mask(ns), NewNs);
    FlagInWord(Mask(ns), NewCgroup);
    FlagInWord(Mask(ns), NewUts);
    FlagInWord(Mask(ns), NewIpc);
    FlagInWord(Mask(ns), NewUser);
    FlagInWord(Mask(ns), NewPid);
    FlagInWord(Mask(ns), NewNet);
  }

  // ---- the kernel, as a log of calls ----

  datatype Call =
    | Opened(path: string, fd: int)
    | Unshared(mask: nat)
    | Entered(fd: int, flag: Flag, ok: bool)
    | Closed(fd: int)

  lemma {:induction false} Unused(fds: set<int>) returns (bound: nat)
    ensures forall fd :: fd in fds ==> fd < bound
  {
    if fd :| fd in fds {
      var rest := Unused(fds - {fd});
      bound := if fd >= rest then fd + 1 else rest;
      forall x | x in fds ensures x < bound { if x != fd { assert x in fds - {fd}; } }
    } else {
      bound := 0;
    }
  }

  class Kernel {
    var log: seq<Call>
    var open: set<int>

    constructor ()
      ensures log == [] && open == {}
    {
      log, open := [], {};
    }

    /** Opening may fail; a descriptor it gives is not in use. */
    method Open(path: string) returns (fd: int)
      modifies this
      ensures log == old(log) + [Opened(path, fd)]
      ensures fd >= 0 ==> fd !in old(open) && open == old(open) + {fd}
      ensures fd < 0 ==> open == old(open)
    {
      var fails: bool := *;
      if fails {
        fd := -1;
      } else {
        ghost var bound := Unused(open);
        assert bound !in open;
        fd :| fd >= 0 && fd !in open;
        open := open + {fd};
      }
      log := log + [Opened(path, fd)];
    }

    method Unshare(mask: nat)
      modifies this`log
      ensures log == old(log) + [Unshared(mask)]
    {
      log := log + [Unshared(mask)];
    }

    method SetNs(fd: int, flag: Flag) returns (ok: bool)
      requires fd in open
      modifies this`log
      ensures log == old(log) + [Entered(fd, flag, ok)]
    {
      ok := *;
      log := log + [Entered(fd, flag, ok)];
    }

    method Close(fd: int)
      requires fd in open
      modifies this
      ensures log == old(log) + [Closed(fd)] && open == old(open) - {fd}
    {
      log := log + [Closed(fd)];
      open := open - {fd};
    }
  }

  // ---- the calls of a whole setup ----

  function Opens(ts: seq<Target>, fds: seq<int>): seq<Call>
    requires |fds| <= |ts|
  {
    seq(|fds|, i requires 0 <= i < |fds| => Opened(ts[i].path, fds[i]))
  }

  /** Enter and close each descriptor in turn. */
  function Rounds(ts: seq<Target>, fds: seq<int>, oks: seq<bool>): seq<Call>
    requires |oks| <= |fds| <= |ts|
  {
    if oks == [] then []
    else
      var n := |oks| - 1;
      Rounds(ts, fds, oks[..n]) + [Entered(fds[n], ts[n].flag, oks[n]), Closed(fds[n])]
  }

  /** An open descriptor and the flag to enter it with. */
  datatype Descriptor = Descriptor(fd: int, flag: Flag)

  predicate Distinct(fds: seq<int>) { forall i, j :: 0 <= i < j < |fds| ==> fds[i] != fds[j] }

  function SetOf(fds: seq<int>): set<int> { set fd | fd in fds }

  /** The descriptors opened so far, beside the targets they are for. */
  predicate Opening(ts: seq<Target>, pairs: seq<Descriptor>, fds: seq<int>, before: set<int>) {
    && |ts| == |pairs| == |fds| && Distinct(fds)
    && (forall i :: 0 <= i < |fds| ==> pairs[i] == Descriptor(fds[i], ts[i].flag) && fds[i] !in before)
  }

  lemma OpenedOneMore(ts: seq<Target>, pairs: seq<Descriptor>, fds: seq<int>, before: set<int>, t: Target, fd: int)
    requires Opening(ts, pairs, fds, before) && fd !in before + SetOf(fds)
    ensures Opening(ts + [t], pairs + [Descriptor(fd, t.flag)], fds + [fd], before)
    ensures Opens(ts + [t], fds + [fd]) == Opens(ts, fds) + [Opened(t.path, fd)]
    ensures SetOf(fds + [fd]) == SetOf(fds) + {fd}
  {
  }

  /** Where collecting flags and opening paths has got to after some entries. */
  ghost predicate Collected(ns: seq<Namespace>, mask: nat, pairs: seq<Descriptor>, fds: seq<int>, before: set<int>, open: set<int>,
                            start: seq<Call>, log: seq<Call>) {
    && mask == Word(Mask(ns)) && Opening(Targets(ns), pairs, fds, before)
    && open == before + SetOf(fds) && log == start + Opens(Targets(ns), fds)
  }

  lemma CollectedSkip(ns: seq<Namespace>, n: Namespace, mask: nat, pairs: seq<Descriptor>, fds: seq<int>, before: set<int>, open: set<int>,
                     start: seq<Call>, log: seq<Call>)
    requires Collected(ns, mask, pairs, fds, before, open, start, log) && FlagOf(n.kind).None?
    ensures Collected(ns + [n], mask, pairs, fds, before, open, start, log)
  {
    OneMore(ns, n);
  }

  lemma CollectedOwn(ns: seq<Namespace>, n: Namespace, mask: nat, pairs: seq<Descriptor>, fds: seq<int>, before: set<int>, open: set<int>,
                     start: seq<Call>, log: seq<Call>)
    requires Collected(ns, mask, pairs, fds, before, open, start, log) && Own(n)
    ensures Collected(ns + [n], Or(mask, Bit(FlagOf(n.kind).value)), pairs, fds, before, open, start, log)
  {
    OneMore(ns, n);
    WordMore(Mask(ns), FlagOf(n.kind).value);
  }

  lemma CollectedNamed(ns: seq<Namespace>, n: Namespace, mask: nat, pairs: seq<Descriptor>, fds: seq<int>, before: set<int>, open: set<int>,
                     start: seq<Call>, log: seq<Call>, fd: int)
    requires Collected(ns, mask, pairs, fds, before, open, start, log) && Named(n) && fd !in open
    ensures Collected(ns + [n], mask, pairs + [Descriptor(fd, FlagOf(n.kind).value)], fds + [fd], before, open + {fd}, start, log + [Opened(n.path, fd)])
  {
    OneMore(ns, n);
    OpenedOneMore(Targets(ns), pairs, fds, before, Target(n.path, FlagOf(n.kind).value), fd);
    JoinThree(start, Opens(Targets(ns), fds), [Opened(n.path, fd)]);
  }

  lemma OpenFailed(ns: seq<Namespace>, i: nat, mask: nat, pairs: seq<Descriptor>, fds: seq<int>, before: set<int>, open: set<int>,
                   start: seq<Call>, log: seq<Call>)
    requires i < |ns| && Named(ns[i])
    requires Collected(ns[..i], mask, pairs, fds, before, open, start, log)
    ensures |fds| < |Targets(ns)| && Targets(ns)[|fds|].path == ns[i].path && Distinct(fds)
    ensures log == start + Opens(Targets(ns), fds)
  {
    assert ns[..i + 1] == ns[..i] + [ns[i]];
    OneMore(ns[..i], ns[i]);
    TargetsPrefix(ns, i + 1);
    assert Opens(Targets(ns), fds) == Opens(Targets(ns[..i]), fds);
  }

  /** Adds a flag to the mask, or opens the path to enter later. */
  method UpdateFlags(flag: Flag, path: string, unshareFlags: nat, setNsFlags: seq<Descriptor>, kernel: Kernel)
    returns (ok: bool, mask: nat, pairs: seq<Descriptor>, ghost fd: int)
    modifies kernel
    ensures path == "" ==> ok && mask == Or(unshareFlags, Bit(flag)) && pairs == setNsFlags && unchanged(kernel)
    ensures path != "" ==> mask == unshareFlags && kernel.log == old(kernel.log) + [Opened(path, fd)] && (ok <==> fd >= 0)
    ensures path != "" && ok ==>
              pairs == setNsFlags + [Descriptor(fd, flag)] && fd !in old(kernel.open) && kernel.open == old(kernel.open) + {fd}
  {
    if path == "" {
      return true, Or(unshareFlags, Bit(flag)), setNsFlags, 0;
    }
    var descriptor := kernel.Open(path);
    if descriptor < 0 {
      return false, unshareFlags, setNsFlags, descriptor;
    }
    return true, unshareFlags, setNsFlags + [Descriptor(descriptor, flag)], descriptor;
  }

  /** One entry of the list. */
  method Collect(ns: seq<Namespace>, i: nat, unshareFlags: nat, setNsFlags: seq<Descriptor>, kernel: Kernel,
                 ghost opens: seq<int>, ghost before: set<int>, ghost start: seq<Call>)
    returns (ok: bool, mask: nat, pairs: seq<Descriptor>, ghost fds: seq<int>, ghost bad: int)
    requires i < |ns| && ns[i].kind != ""
    requires Collected(ns[..i], unshareFlags, setNsFlags, opens, before, kernel.open, start, kernel.log)
    modifies kernel
    ensures ok ==> Collected(ns[..i + 1], mask, pairs, fds, before, kernel.open, start, kernel.log)
    ensures !ok ==> Distinct(fds) && |fds| < |Targets(ns)| && bad < 0
                    && kernel.log == start + Opens(Targets(ns), fds) + [Opened(Targets(ns)[|fds|].path, bad)]
  {
    ok, mask, pairs, fds, bad := true, unshareFlags, setNsFlags, opens, 0;
    var flag := Lookup(ns[i].kind);
    ghost var open, log := kernel.open, kernel.log;
    assert ns[..i + 1] == ns[..i] + [ns[i]];
    if flag.None? {
      CollectedSkip(ns[..i], ns[i], mask, pairs, fds, before, open, start, log);
      return;
    }
    ghost var fd;
    ok, mask, pairs, fd := UpdateFlags(flag.value, ns[i].path, mask, pairs, kernel);
    if !ok {
      OpenFailed(ns, i, unshareFlags, setNsFlags, fds, before, open, start, log);
      bad := fd;
      return;
    }
    if ns[i].path == "" {
      CollectedOwn(ns[..i], ns[i], unshareFlags, setNsFlags, fds, before, open, start, log);
      assert Collected(ns[..i + 1], mask, pairs, fds, before, kernel.open, start, kernel.log);
      return;
    }
    CollectedNamed(ns[..i], ns[i], unshareFlags, setNsFlags, fds, before, open, start, log, fd);
    fds := fds + [fd];
    assert Collected(ns[..i + 1], mask, pairs, fds, before, kernel.open, start, kernel.log);
  }

  /** Collects the flags and opens the paths; the first failure to open ends it. */
  method OpenAll(ns: seq<Namespace>, kernel: Kernel) returns (ok: bool, mask: nat, pairs: seq<Descriptor>, ghost fds: seq<int>, ghost bad: int)
    requires forall i :: 0 <= i < |ns| ==> ns[i].kind != ""
    modifies kernel
    ensures |fds| <= |Targets(ns)|
    ensures ok ==> Collected(ns, mask, pairs, fds, old(kernel.open), kernel.open, old(kernel.log), kernel.log)
    ensures !ok ==> Distinct(fds) && |fds| < |Targets(ns)| && bad < 0
                    && kernel.log == old(kernel.log) + Opens(Targets(ns), fds) + [Opened(Targets(ns)[|fds|].path, bad)]
  {
    ok, mask, pairs, fds, bad := true, 0, [], [], 0;
    ghost var start, before := kernel.log, kernel.open;
    CollectedNone(before, start);
    assert ns[..0] == [];
    for i := 0 to |ns|
      invariant ok && Collected(ns[..i], mask, pairs, fds, before, kernel.open, start, kernel.log)
    {
      ok, mask, pairs, fds, bad := Collect(ns, i, mask, pairs, kernel, fds, before, start);
      if !ok { return; }
    }
    assert ns[..|ns|] == ns;
  }

  lemma CollectedNone(before: set<int>, start: seq<Call>)
    ensures Collected([], 0, [], [], before, before, start, start)
  {
    EmptyWord(Flags);
    assert Mask([]) == {};
  }

  lemma TargetsPrefix(ns: seq<Namespace>, i: nat)
    requires i <= |ns|
    ensures Targets(ns[..i]) <= Targets(ns)
  {
    assert ns == ns[..i] + ns[i..];
    TargetsConcat(ns[..i], ns[i..]);
  }

  method EnterOne(fd: int, flag: Flag, kernel: Kernel) returns (entered: bool)
    requires fd in kernel.open
    modifies kernel
    ensures kernel.log == old(kernel.log) + [Entered(fd, flag, entered), Closed(fd)]
    ensures kernel.open == old(kernel.open) - {fd}
  {
    entered := kernel.SetNs(fd, flag);
    kernel.Close(fd);
  }

  /** Enters and closes every descriptor, going on after a failure. */
  method EnterAll(pairs: seq<Descriptor>, kernel: Kernel, ghost ts: seq<Target>, ghost fds: seq<int>, ghost before: set<int>)
    returns (failed: bool, ghost oks: seq<bool>)
    requires Opening(ts, pairs, fds, before) && kernel.open == before + SetOf(fds)
    modifies kernel
    ensures |oks| == |fds| && (failed <==> exists j :: 0 <= j < |oks| && !oks[j])
    ensures kernel.open == before
    ensures kernel.log == old(kernel.log) + Rounds(ts, fds, oks)
  {
    failed, oks := false, [];
    for i := 0 to |pairs|
      invariant |oks| == i && (failed <==> exists j :: 0 <= j < i && !oks[j])
      invariant kernel.open == before + SetOf(fds[i..])
      invariant kernel.log == old(kernel.log) + Rounds(ts, fds, oks)
    {
      assert fds[i..] == [fds[i]] + fds[i + 1..];
      var entered := EnterOne(pairs[i].fd, pairs[i].flag, kernel);
      if !entered {
        failed := true;
      }
      RoundMore(ts, fds, oks, entered);
      JoinThree(old(kernel.log), Rounds(ts, fds, oks), [Entered(fds[i], ts[i].flag, entered), Closed(fds[i])]);
      CloseOne(fds, i, before);
      oks := oks + [entered];
    }
  }

  lemma RoundMore(ts: seq<Target>, fds: seq<int>, oks: seq<bool>, ok: bool)
    requires |oks| < |fds| <= |ts|
    ensures var n := |oks|;
            Rounds(ts, fds, oks + [ok]) == Rounds(ts, fds, oks) + [Entered(fds[n], ts[n].flag, ok), Closed(fds[n])]
  {
    assert (oks + [ok])[..|oks|] == oks;
  }

  lemma CloseOne(fds: seq<int>, i: nat, before: set<int>)
    requires i < |fds| && Distinct(fds) && fds[i] !in before
    ensures before + SetOf(fds[i..]) - {fds[i]} == before + SetOf(fds[i + 1..])
  {
  }

  /** Opens the paths, leaves the namespaces of the others, then enters and closes every
      descriptor. If an open fails, nothing else is called. Otherwise every descriptor is
      tried and closed once, in list order, whatever failed before it, and the result is
      whether all of them were entered. */
  method Setup(ns: seq<Namespace>, kernel: Kernel) returns (ok: bool, ghost fds: seq<int>, ghost oks: seq<bool>)
    requires forall i :: 0 <= i < |ns| ==> ns[i].kind != ""
    modifies kernel
    ensures |fds| <= |Targets(ns)| && |oks| <= |fds| && Distinct(fds)
    ensures |fds| < |Targets(ns)| ==>
              && !ok && oks == []
              && exists fd :: fd < 0 && kernel.log == old(kernel.log) + Opens(Targets(ns), fds) + [Opened(Targets(ns)[|fds|].path, fd)]
    ensures |fds| == |Targets(ns)| ==>
              && |oks| == |fds| && (ok <==> forall i :: 0 <= i < |oks| ==> oks[i])
              && kernel.open == old(kernel.open)
              && kernel.log == old(kernel.log) + Opens(Targets(ns), fds) + Left(ns) + Rounds(Targets(ns), fds, oks)
  {
    var good, unshareFlags, setNsFlags;
    ghost var bad;
    good, unshareFlags, setNsFlags, fds, bad := OpenAll(ns, kernel);
    if !good {
      return false, fds, [];
    }
    if unshareFlags != 0 {
      kernel.Unshare(unshareFlags);
    }
    assert kernel.log == old(kernel.log) + Opens(Targets(ns), fds) + Left(ns);
    var setNsFailed;
    setNsFailed, oks := EnterAll(setNsFlags, kernel, Targets(ns), fds, old(kernel.open));
    ok := !setNsFailed;
  }

  /** The one call that leaves the namespaces, if there are any to leave. */
  function Left(ns: seq<Namespace>): seq<Call> { if Word(Mask(ns)) != 0 then [Unshared(Word(Mask(ns)))] else [] }

  /** It is made exactly when some entry of a known type has no path. */
  lemma LeftExactly(ns: seq<Namespace>)
    ensures Left(ns) != [] <==>
            || Namespace("cgroup", "") in ns || Namespace("ipc", "") in ns || Namespace("mount", "") in ns
            || Namespace("network", "") in ns || Namespace("pid", "") in ns || Namespace("time", "") in ns
            || Namespace("uts", "") in ns || Namespace("user", "") in ns
  {
    NoWord(Mask(ns));
    MaskExactly(ns);
    if f :| f in Mask(ns) {
      AllFlags(f);
    }
  }

  // ---- what the calls amount to ----

  /** The descriptors entered, with their flags, in the order of the log. */
  function Entries(log: seq<Call>): seq<Descriptor> {
    if log == [] then []
    else (if log[0].Entered? then [Descriptor(log[0].fd, log[0].flag)] else []) + Entries(log[1..])
  }

  function Closes(log: seq<Call>): seq<int> {
    if log == [] then [] else (if log[0].Closed? then [log[0].fd] else []) + Closes(log[1..])
  }

  lemma {:induction false} EntriesConcat(a: seq<Call>, b: seq<Call>)
    ensures Entries(a + b) == Entries(a) + Entries(b)
  {
    if a == [] {
      assert a + b == b;
    } else {
      assert (a + b)[1..] == a[1..] + b;
      EntriesConcat(a[1..], b);
      var h := if a[0].Entered? then [Descriptor(a[0].fd, a[0].flag)] else [];
      JoinThree(h, Entries(a[1..]), Entries(b));
    }
  }

  lemma {:induction false} ClosesConcat(a: seq<Call>, b: seq<Call>)
    ensures Closes(a + b) == Closes(a) + Closes(b)
  {
    if a == [] {
      assert a + b == b;
    } else {
      assert (a + b)[1..] == a[1..] + b;
      ClosesConcat(a[1..], b);
      var h := if a[0].Closed? then [a[0].fd] else [];
      JoinThree(h, Closes(a[1..]), Closes(b));
    }
  }

  lemma LogConcat(a: seq<Call>, b: seq<Call>)
    ensures Entries(a + b) == Entries(a) + Entries(b) && Closes(a + b) == Closes(a) + Closes(b)
  {
    EntriesConcat(a, b);
    ClosesConcat(a, b);
  }

  lemma {:induction false} QuietLog(a: seq<Call>)
    requires forall i :: 0 <= i < |a| ==> a[i].Opened? || a[i].Unshared?
    ensures Entries(a) == [] && Closes(a) == []
  {
    if a != [] { QuietLog(a[1..]); }
  }

  lemma RoundLog(fd: int, flag: Flag, ok: bool)
    ensures Entries([Entered(fd, flag, ok), Closed(fd)]) == [Descriptor(fd, flag)] && Closes([Entered(fd, flag, ok), Closed(fd)]) == [fd]
  {
    assert [Entered(fd, flag, ok), Closed(fd)][1..] == [Closed(fd)] && [Closed(fd)][1..] == [];
    assert Entries([Closed(fd)]) == [] && Closes([Closed(fd)]) == [fd];
  }

  lemma {:induction false} RoundsLog(ts: seq<Target>, fds: seq<int>, oks: seq<bool>)
    requires |oks| <= |fds| <= |ts|
    ensures Closes(Rounds(ts, fds, oks)) == fds[..|oks|]
    ensures Entries(Rounds(ts, fds, oks)) == seq(|oks|, i requires 0 <= i < |oks| => Descriptor(fds[i], ts[i].flag))
    decreases |oks|
  {
    if oks != [] {
      var n := |oks| - 1;
      RoundsLog(ts, fds, oks[..n]);
      RoundLog(fds[n], ts[n].flag, oks[n]);
      LogConcat(Rounds(ts, fds, oks[..n]), [Entered(fds[n], ts[n].flag, oks[n]), Closed(fds[n])]);
    }
  }

  /** In a setup whose opens all succeed, whatever fails later, each descriptor is entered
      once with its own flag and closed once, both in the order of the list. */
  lemma EachOnceInOrder(ns: seq<Namespace>, fds: seq<int>, oks: seq<bool>)
    requires |oks| == |fds| == |Targets(ns)| && Distinct(fds)
    ensures var log := Opens(Targets(ns), fds) + Left(ns) + Rounds(Targets(ns), fds, oks);
            && Closes(log) == fds
            && |Entries(log)| == |fds|
            && (forall i :: 0 <= i < |fds| ==> Entries(log)[i] == Descriptor(fds[i], Targets(ns)[i].flag))
            && (forall i :: 0 <= i < |fds| ==> multiset(Closes(log))[fds[i]] == 1)
  {
    SetupLog(Targets(ns), Left(ns), fds, oks);
    forall i | 0 <= i < |fds| ensures multiset(fds)[fds[i]] == 1 { OnceEach(fds, i); }
  }

  lemma SetupLog(ts: seq<Target>, left: seq<Call>, fds: seq<int>, oks: seq<bool>)
    requires |oks| == |fds| == |ts| && forall i :: 0 <= i < |left| ==> left[i].Unshared?
    ensures var log := Opens(ts, fds) + left + Rounds(ts, fds, oks);
            && Closes(log) == fds
            && Entries(log) == seq(|oks|, i requires 0 <= i < |oks| => Descriptor(fds[i], ts[i].flag))
  {
    QuietLog(Opens(ts, fds) + left);
    RoundsLog(ts, fds, oks);
    LogConcat(Opens(ts, fds) + left, Rounds(ts, fds, oks));
  }

  lemma OnceEach(fds: seq<int>, i: nat)
    requires i < |fds| && Distinct(fds)
    ensures multiset(fds)[fds[i]] == 1
  {
    assert fds == fds[..i] + [fds[i]] + fds[i + 1..];
    assert fds[i] !in fds[..i] && fds[i] !in fds[i + 1..];
  }
}
