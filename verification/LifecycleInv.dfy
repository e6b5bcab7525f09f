/** What every step of the lifecycle protocol keeps. */
module LifecycleInv {
  import opened Wrappers
  import opened StateText
  import opened Lifecycle

  function Rank(s: Status): nat {
    match s
    case Unknown => 0
    case Creating => 1
    case Created => 2
    case Running => 3
    case Stopped => 4
  }

  // ---- one create on its own ----

  /** The server is failing, or has failed, for this reason. */
  predicate FailsFor(s: Server, cause: Cause) {
    s == SrvClean(cause) || s == SrvExit(Failed(cause)) || s == SrvExit(Removed(cause))
  }

  /** All processes that this create ever had are gone. */
  predicate Dead(c: Create) {
    && c.server.SrvExit? && c.child.KidExit? && (c.daemon.DmnNone? || c.daemon.DmnExit?)
    && (c.wasm.WsmNone? || c.wasm.WsmExit?)
  }

  /** Which processes exist follows from how far their parents have come. */
  predicate FamilyInv(c: Create) {
    && (BeforeFork(c.server) || FailsFor(c.server, Early) ==> c.child.KidNone?)
    && (c.child.KidNone? ==> !c.server.SrvWait? && !c.server.SrvRead?)
    && (BeforeFork(c.server) && !c.server.SrvFork? ==> c.fifo.None?)
    && (c.server.SrvFork? || !c.child.KidNone? ==> c.fifo.Some?)
    && (!c.daemon.DmnNone? ==> c.child.KidExit?)
    && (!c.wasm.WsmNone? ==> c.daemon.DmnExit? || c.daemon == DmnReport(0))
    && (c.daemon == DmnReport(0) ==> !c.wasm.WsmNone?)
    && (c.daemon.DmnReady? || !c.wasm.WsmNone? ==> c.instantiated)
  }

  /** No wasm process of this create is running or will ever run. */
  predicate Quiet(c: Create) {
    c.wasm.WsmExit? || (c.wasm.WsmNone? && c.daemon.DmnExit?)
  }

  /** What a code on the pipe, or one already read, says about the module. */
  predicate CodeInv(c: Create, code: Int32) {
    (code == 0 ==> c.instantiated) && (code != 0 ==> Quiet(c))
  }

  predicate PipeInv(c: Create) {
    && (forall k :: 0 <= k < |c.pipe| ==> CodeInv(c, c.pipe[k]))
    && (c.codeRead.Some? ==> CodeInv(c, c.codeRead.value))
    && (FailsFor(c.server, NonZero) ==> c.codeRead.Some? && c.codeRead.value != 0)
    && (c.server == SrvExit(ReadZero) ==> c.codeRead == Some(0))
    && (c.server == SrvExit(ReadEnd) ==> Dead(c))
    && (FailsFor(c.server, ReadError) ==> c.readFailed)
    && (c.codeRead.Some? ==> c.server == SrvExit(ReadZero) || FailsFor(c.server, NonZero) || c.server == SrvExit(ServerKilled))
    && (c.readFailed ==> FailsFor(c.server, ReadError) || c.server == SrvExit(ServerKilled))
    && (BeforeFork(c.server) ==> c.pipe == [])
  }

  /** How many versions have been published, against the status in memory: the file is
      at most one step behind. */
  predicate ProgressInv(c: Create) {
    var r := Rank(c.mem.status);
    && c.published <= r <= c.published + 1
    && (c.server.SrvLoad? ==> r == 0 && c.published == 0)
    && (c.server.SrvCheck? || c.server.SrvTemp? || c.server.SrvRename? ==> r == 1 && c.published == 0)
    && (c.server.SrvMkfifo? || c.server.SrvOpen? || c.server.SrvFork? || !c.child.KidNone? ==> r >= 1 && c.published >= 1)
    && (c.wasm.WsmNone? ==> r <= 1)
    && (c.wasm.WsmPidFile? || c.wasm.WsmMark? ==> r == 1 && c.published == 1)
    && (c.wasm.WsmSetup? ==> r == 2 && c.published == 1)
    && (c.wasm.WsmCheck? || c.wasm.WsmTemp? || c.wasm.WsmRename? ==> r >= 2 && c.published == r - 1)
    && (c.wasm.WsmSelect? || c.wasm.WsmRead? ==> r == 2 && c.published == 2)
    && (c.wasm.WsmRun? ==> r == 3 && c.published == 3)
  }

  predicate PidInv(c: Create) {
    && PlainTimes(c.mem)
    && (Rank(c.mem.status) <= 1 ==> c.mem.pid == -1)
    && (!c.wasm.WsmNone? ==> c.pid > 0)
    && (c.pidFile.Some? ==> c.pidFile.value == c.pid && !c.wasm.WsmNone?)
    && (Rank(c.mem.status) >= 2 || c.wasm.WsmMark? ==> c.pidFile.Some?)
    && (Rank(c.mem.status) >= 2 ==> c.mem.pid == c.pid)
  }

  predicate CreateInv(c: Create) { FamilyInv(c) && PipeInv(c) && ProgressInv(c) && PidInv(c) }

  /** What is never taken back, whichever step a create takes. */
  predicate Grows(a: Create, b: Create) {
    && a.mem.id == b.mem.id
    && a.published <= b.published
    && Rank(a.mem.status) <= Rank(b.mem.status)
    && (a.pidFile.Some? ==> b.pidFile == a.pidFile && b.pid == a.pid)
    && (a.fifo.Some? ==> b.fifo == a.fifo && b.past == a.past)
    && (a.codeRead.Some? ==> b.codeRead == a.codeRead)
    && (a.instantiated ==> b.instantiated)
    && (a.readFailed ==> b.readFailed)
    && (Quiet(a) ==> Quiet(b))
  }

  lemma ServerSetupPipe(sh: Shared, c: Create, i: nat, s: ServerStep, gone: set<nat>, sh': Shared, c': Create)
    requires FamilyInv(c) && PipeInv(c) && BeforeFork(c.server)
    requires ServerNext(sh, c, i, s, gone) == Some((sh', c'))
    ensures PipeInv(c')
  {
    assert c'.pipe == c.pipe;
  }

  lemma ServerSetupFamily(sh: Shared, c: Create, i: nat, s: ServerStep, gone: set<nat>, sh': Shared, c': Create)
    requires FamilyInv(c) && BeforeFork(c.server)
    requires ServerNext(sh, c, i, s, gone) == Some((sh', c'))
    ensures FamilyInv(c') && |sh.fifos| <= |sh'.fifos|
  {
  }

  lemma ServerSetupProgress(sh: Shared, c: Create, i: nat, s: ServerStep, gone: set<nat>, sh': Shared, c': Create)
    requires FamilyInv(c) && ProgressInv(c) && BeforeFork(c.server)
    requires ServerNext(sh, c, i, s, gone) == Some((sh', c'))
    ensures ProgressInv(c')
  {
  }

  lemma ServerSetupPid(sh: Shared, c: Create, i: nat, s: ServerStep, gone: set<nat>, sh': Shared, c': Create)
    requires PidInv(c) && ProgressInv(c) && BeforeFork(c.server)
    requires ServerNext(sh, c, i, s, gone) == Some((sh', c'))
    ensures PidInv(c')
  {
  }

  lemma ServerSetupGrows(sh: Shared, c: Create, i: nat, s: ServerStep, gone: set<nat>, sh': Shared, c': Create)
    requires FamilyInv(c) && ProgressInv(c) && (c.codeRead.Some? ==> !c.server.SrvRead?) && BeforeFork(c.server)
    requires ServerNext(sh, c, i, s, gone) == Some((sh', c'))
    ensures Grows(c, c')
  {
  }

  lemma ServerSetupKeeps(sh: Shared, c: Create, i: nat, s: ServerStep, gone: set<nat>, sh': Shared, c': Create)
    requires CreateInv(c) && BeforeFork(c.server)
    requires ServerNext(sh, c, i, s, gone) == Some((sh', c'))
    ensures CreateInv(c') && Grows(c, c') && |sh.fifos| <= |sh'.fifos|
  {
    ServerSetupPipe(sh, c, i, s, gone, sh', c');
    ServerSetupFamily(sh, c, i, s, gone, sh', c');
    ServerSetupProgress(sh, c, i, s, gone, sh', c');
    ServerSetupPid(sh, c, i, s, gone, sh', c');
    ServerSetupGrows(sh, c, i, s, gone, sh', c');
  }

  lemma ServerReadPipe(sh: Shared, c: Create, i: nat, s: ServerStep, gone: set<nat>, sh': Shared, c': Create)
    requires FamilyInv(c) && PipeInv(c) && (c.server.SrvWait? || c.server.SrvRead?) && !s.ServerDies?
    requires ServerNext(sh, c, i, s, gone) == Some((sh', c'))
    ensures PipeInv(c')
  {
    if s.ReadCode? {
      assert CodeInv(c, c.pipe[0]);
      assert forall k :: 0 <= k < |c'.pipe| ==> c'.pipe[k] == c.pipe[k + 1];
    } else {
      assert c'.pipe == c.pipe;
    }
  }

  lemma ServerReadFamily(sh: Shared, c: Create, i: nat, s: ServerStep, gone: set<nat>, sh': Shared, c': Create)
    requires FamilyInv(c) && (c.server.SrvWait? || c.server.SrvRead?) && !s.ServerDies?
    requires ServerNext(sh, c, i, s, gone) == Some((sh', c'))
    ensures FamilyInv(c') && |sh.fifos| <= |sh'.fifos|
  {
  }

  lemma ServerReadProgress(sh: Shared, c: Create, i: nat, s: ServerStep, gone: set<nat>, sh': Shared, c': Create)
    requires FamilyInv(c) && ProgressInv(c) && (c.server.SrvWait? || c.server.SrvRead?) && !s.ServerDies?
    requires ServerNext(sh, c, i, s, gone) == Some((sh', c'))
    ensures ProgressInv(c')
  {
  }

  lemma ServerReadPid(sh: Shared, c: Create, i: nat, s: ServerStep, gone: set<nat>, sh': Shared, c': Create)
    requires PidInv(c) && ProgressInv(c) && (c.server.SrvWait? || c.server.SrvRead?) && !s.ServerDies?
    requires ServerNext(sh, c, i, s, gone) == Some((sh', c'))
    ensures PidInv(c')
  {
  }

  lemma ServerReadGrows(sh: Shared, c: Create, i: nat, s: ServerStep, gone: set<nat>, sh': Shared, c': Create)
    requires FamilyInv(c) && ProgressInv(c) && (c.codeRead.Some? ==> !c.server.SrvRead?) && (c.server.SrvWait? || c.server.SrvRead?) && !s.ServerDies?
    requires ServerNext(sh, c, i, s, gone) == Some((sh', c'))
    ensures Grows(c, c')
  {
  }

  lemma ServerReadKeeps(sh: Shared, c: Create, i: nat, s: ServerStep, gone: set<nat>, sh': Shared, c': Create)
    requires CreateInv(c) && (c.server.SrvWait? || c.server.SrvRead?) && !s.ServerDies?
    requires ServerNext(sh, c, i, s, gone) == Some((sh', c'))
    ensures CreateInv(c') && Grows(c, c') && |sh.fifos| <= |sh'.fifos|
  {
    ServerReadPipe(sh, c, i, s, gone, sh', c');
    ServerReadFamily(sh, c, i, s, gone, sh', c');
    ServerReadProgress(sh, c, i, s, gone, sh', c');
    ServerReadPid(sh, c, i, s, gone, sh', c');
    ServerReadGrows(sh, c, i, s, gone, sh', c');
  }

  lemma ServerEndPipe(sh: Shared, c: Create, i: nat, s: ServerStep, gone: set<nat>, sh': Shared, c': Create)
    requires FamilyInv(c) && PipeInv(c) && !BeforeFork(c.server) && (s.CleanDone? || s.CleanFails? || s.ServerDies?)
    requires ServerNext(sh, c, i, s, gone) == Some((sh', c'))
    ensures PipeInv(c')
  {
    assert c'.pipe == c.pipe;
  }

  lemma ServerEndFamily(sh: Shared, c: Create, i: nat, s: ServerStep, gone: set<nat>, sh': Shared, c': Create)
    requires FamilyInv(c) && !BeforeFork(c.server) && (s.CleanDone? || s.CleanFails? || s.ServerDies?)
    requires ServerNext(sh, c, i, s, gone) == Some((sh', c'))
    ensures FamilyInv(c') && |sh.fifos| <= |sh'.fifos|
  {
  }

  lemma ServerEndProgress(sh: Shared, c: Create, i: nat, s: ServerStep, gone: set<nat>, sh': Shared, c': Create)
    requires FamilyInv(c) && ProgressInv(c) && !BeforeFork(c.server) && (s.CleanDone? || s.CleanFails? || s.ServerDies?)
    requires ServerNext(sh, c, i, s, gone) == Some((sh', c'))
    ensures ProgressInv(c')
  {
  }

  lemma ServerEndPid(sh: Shared, c: Create, i: nat, s: ServerStep, gone: set<nat>, sh': Shared, c': Create)
    requires PidInv(c) && ProgressInv(c) && !BeforeFork(c.server) && (s.CleanDone? || s.CleanFails? || s.ServerDies?)
    requires ServerNext(sh, c, i, s, gone) == Some((sh', c'))
    ensures PidInv(c')
  {
  }

  lemma ServerEndGrows(sh: Shared, c: Create, i: nat, s: ServerStep, gone: set<nat>, sh': Shared, c': Create)
    requires FamilyInv(c) && ProgressInv(c) && (c.codeRead.Some? ==> !c.server.SrvRead?) && !BeforeFork(c.server) && (s.CleanDone? || s.CleanFails? || s.ServerDies?)
    requires ServerNext(sh, c, i, s, gone) == Some((sh', c'))
    ensures Grows(c, c')
  {
  }

  lemma ServerEndKeeps(sh: Shared, c: Create, i: nat, s: ServerStep, gone: set<nat>, sh': Shared, c': Create)
    requires CreateInv(c) && !BeforeFork(c.server) && (s.CleanDone? || s.CleanFails? || s.ServerDies?)
    requires ServerNext(sh, c, i, s, gone) == Some((sh', c'))
    ensures CreateInv(c') && Grows(c, c') && |sh.fifos| <= |sh'.fifos|
  {
    ServerEndPipe(sh, c, i, s, gone, sh', c');
    ServerEndFamily(sh, c, i, s, gone, sh', c');
    ServerEndProgress(sh, c, i, s, gone, sh', c');
    ServerEndPid(sh, c, i, s, gone, sh', c');
    ServerEndGrows(sh, c, i, s, gone, sh', c');
  }

  lemma ServerKeeps(sh: Shared, c: Create, i: nat, s: ServerStep, gone: set<nat>, sh': Shared, c': Create)
    requires CreateInv(c) && ServerNext(sh, c, i, s, gone) == Some((sh', c'))
    ensures CreateInv(c') && Grows(c, c') && |sh.fifos| <= |sh'.fifos|
  {
    if BeforeFork(c.server) {
      ServerSetupKeeps(sh, c, i, s, gone, sh', c');
    } else if s.CleanDone? || s.CleanFails? || s.ServerDies? {
      ServerEndKeeps(sh, c, i, s, gone, sh', c');
    } else {
      ServerReadKeeps(sh, c, i, s, gone, sh', c');
    }
  }

  lemma ChildKeeps(c: Create, s: ChildStep, c': Create)
    requires CreateInv(c) && ChildNext(c, s) == Some(c')
    ensures CreateInv(c') && Grows(c, c')
  {
    assert c'.pipe == c.pipe;
  }

  lemma DaemonKeepsPipe(c: Create, s: DaemonStep, c': Create)
    requires FamilyInv(c) && PipeInv(c) && DaemonNext(c, s) == Some(c')
    ensures PipeInv(c')
  {
    forall k | 0 <= k < |c'.pipe| ensures CodeInv(c', c'.pipe[k]) {
      if k < |c.pipe| { assert CodeInv(c, c.pipe[k]); }
    }
  }

  lemma DaemonKeepsRest(c: Create, s: DaemonStep, c': Create)
    requires FamilyInv(c) && ProgressInv(c) && PidInv(c) && DaemonNext(c, s) == Some(c')
    ensures FamilyInv(c') && ProgressInv(c') && PidInv(c') && Grows(c, c')
  {
  }

  lemma DaemonKeeps(c: Create, s: DaemonStep, c': Create)
    requires CreateInv(c) && DaemonNext(c, s) == Some(c')
    ensures CreateInv(c') && Grows(c, c')
  {
    DaemonKeepsPipe(c, s, c');
    DaemonKeepsRest(c, s, c');
  }

  lemma WasmUpdateKeeps(sh: Shared, c: Create, i: nat, s: WasmStep, ready: bool, writers: bool, sh': Shared, c': Create)
    requires CreateInv(c) && WasmNext(sh, c, i, s, ready, writers) == Some((sh', c'))
    requires s.PidFileOk? || s.SetCreated? || s.SetupOk? || s.UpdateCheck? || s.UpdateTemp? || s.UpdateRename?
    ensures CreateInv(c') && Grows(c, c') && |sh.fifos| <= |sh'.fifos|
  {
    assert c'.pipe == c.pipe;
  }

  lemma WasmGateKeeps(sh: Shared, c: Create, i: nat, s: WasmStep, ready: bool, writers: bool, sh': Shared, c': Create)
    requires CreateInv(c) && WasmNext(sh, c, i, s, ready, writers) == Some((sh', c'))
    requires s.SelectOk? || s.ReadByte? || s.ReadNothing? || s.ReadInterrupt? || s.Finish?
    ensures CreateInv(c') && Grows(c, c') && |sh.fifos| <= |sh'.fifos|
  {
    assert c'.pipe == c.pipe;
  }

  lemma WasmEndKeeps(sh: Shared, c: Create, i: nat, s: WasmStep, ready: bool, writers: bool, sh': Shared, c': Create)
    requires CreateInv(c) && WasmNext(sh, c, i, s, ready, writers) == Some((sh', c'))
    requires s.Report? || s.WasmFails? || s.WasmDies?
    ensures CreateInv(c') && Grows(c, c') && |sh.fifos| <= |sh'.fifos|
  {
    forall k | 0 <= k < |c'.pipe| ensures CodeInv(c', c'.pipe[k]) {
      if k < |c.pipe| { assert CodeInv(c, c.pipe[k]); }
    }
  }

  lemma WasmKeeps(sh: Shared, c: Create, i: nat, s: WasmStep, ready: bool, writers: bool, sh': Shared, c': Create)
    requires CreateInv(c) && WasmNext(sh, c, i, s, ready, writers) == Some((sh', c'))
    ensures CreateInv(c') && Grows(c, c') && |sh.fifos| <= |sh'.fifos|
  {
    if s.Report? || s.WasmFails? || s.WasmDies? {
      WasmEndKeeps(sh, c, i, s, ready, writers, sh', c');
    } else if s.SelectOk? || s.ReadByte? || s.ReadNothing? || s.ReadInterrupt? || s.Finish? {
      WasmGateKeeps(sh, c, i, s, ready, writers, sh', c');
    } else {
      WasmUpdateKeeps(sh, c, i, s, ready, writers, sh', c');
    }
  }

  // ---- all creates and calls together ----

  /** What a call has loaded, opened or taken stays recorded. */
  predicate CallGrows(a: Call, b: Call) {
    match a
    case Start(_, seen, fd, took) =>
      && b.Start?
      && (seen.Some? ==> b.seen == seen) && (fd.Some? ==> b.fd == fd) && (took.Some? ==> b.took == took)
    case Kill(_, seen, target) =>
      b.Kill? && (seen.Some? ==> b.seen == seen) && (target.Some? ==> b.target == target)
    case Delete(_, _) => b.Delete?
  }

  /** Later worlds remember earlier ones. */
  ghost predicate Extends(w: World, w': World) {
    && |w.creates| <= |w'.creates|
    && (forall i :: 0 <= i < |w.creates| ==> Grows(w.creates[i], w'.creates[i]))
    && |w.calls| <= |w'.calls|
    && (forall c :: 0 <= c < |w.calls| ==> CallGrows(w.calls[c], w'.calls[c]))
    && |w.sh.fifos| <= |w'.sh.fifos|
  }

  ghost predicate CreatesInv(w: World) { forall i :: 0 <= i < |w.creates| ==> CreateInv(w.creates[i]) }

  /** The phase of a call says what it has recorded. */
  predicate CallInv(c: Call) {
    match c
    case Start(st, seen, fd, took) =>
      && (st.StLoad? ==> seen.None?)
      && (st.StOpen? ==> seen.Some?)
      && (st.StLoad? || st.StOpen? ==> fd.None?)
      && (st.StLoad? || st.StOpen? || st.StUnlink? ==> took.None?)
      && (fd.Some? ==> seen.Some?)
      && (st.StUnlink? || st.StWrite? || st.StClose? || st.StDone? ==> fd.Some?)
      && (st.StWrite? || st.StClose? || st.StDone? ==> took.Some?)
      && (took.Some? ==> fd.Some?)
    case Kill(kl, seen, target) =>
      && (kl.KlLoad? ==> seen.None? && target.None?)
      && (kl.KlSend? || kl.KlDone? ==> target.Some?)
      && (target.Some? ==> seen.Some?)
    case Delete(_, _) => true
  }

  ghost predicate CallsInv(w: World) { forall c :: 0 <= c < |w.calls| ==> CallInv(w.calls[c]) }

  lemma WasmProcessKeeps(w: World, i: nat, x: WasmStep)
    requires i < |w.creates| && CreateInv(w.creates[i]) && ProcessNext(w, i, WasmDo(x)).Some?
    ensures var (sh, c) := ProcessNext(w, i, WasmDo(x)).value;
            CreateInv(c) && Grows(w.creates[i], c) && |w.sh.fifos| <= |sh.fifos|
  {
    var c := w.creates[i];
    var r := ProcessNext(w, i, WasmDo(x)).value;
    WasmKeeps(w.sh, c, i, x, IsReady(w, c), IsWritten(w, c), r.0, r.1);
  }

  lemma ProcessKeeps(w: World, i: nat, p: ProcessStep)
    requires i < |w.creates| && CreateInv(w.creates[i]) && ProcessNext(w, i, p).Some?
    ensures var (sh, c) := ProcessNext(w, i, p).value;
            CreateInv(c) && Grows(w.creates[i], c) && |w.sh.fifos| <= |sh.fifos|
  {
    var r := ProcessNext(w, i, p).value;
    match p
    case ServerDo(x) => ServerKeeps(w.sh, w.creates[i], i, x, DepartedEntry(w), r.0, r.1);
    case ChildDo(x) => ChildKeeps(w.creates[i], x, r.1);
    case DaemonDo(x) => DaemonKeeps(w.creates[i], x, r.1);
    case WasmDo(x) => WasmProcessKeeps(w, i, x);
  }

  lemma CallKeeps(w: World, c: Call, s: CallStep)
    requires CallInv(c) && CallNext(w, c, s).Some?
    ensures var (sh, c') := CallNext(w, c, s).value;
            CallInv(c') && CallGrows(c, c') && |sh.fifos| == |w.sh.fifos|
  {
  }

  lemma SetCreateExtends(w: World, i: nat, sh: Shared, c: Create)
    requires CreatesInv(w) && CallsInv(w) && i < |w.creates|
    requires CreateInv(c) && Grows(w.creates[i], c) && |w.sh.fifos| <= |sh.fifos|
    ensures var w' := SetCreate(w, i, sh, c); CreatesInv(w') && CallsInv(w') && Extends(w, w')
  {
  }

  lemma SetCallExtends(w: World, c: nat, sh: Shared, call: Call)
    requires CreatesInv(w) && CallsInv(w) && c < |w.calls|
    requires CallInv(call) && CallGrows(w.calls[c], call) && |w.sh.fifos| == |sh.fifos|
    ensures var w' := World(sh, w.creates, w.calls[c := call]); CreatesInv(w') && CallsInv(w') && Extends(w, w')
  {
  }

  /** What a process step makes of the world. */
  lemma ProcessStepped(w: World, i: nat, p: ProcessStep, w': World)
    requires Next(w, ProcessDo(i, p)) == Some(w')
    ensures i < |w.creates| && ProcessNext(w, i, p).Some?
    ensures var (sh, c) := ProcessNext(w, i, p).value; w' == SetCreate(w, i, sh, c)
  {
  }

  lemma BeginExtends(w: World, id: string, bundle: string)
    requires CreatesInv(w) && CallsInv(w)
    ensures var w' := World(w.sh.(dir := true), w.creates + [NewCreate(id, bundle)], w.calls);
            CreatesInv(w') && CallsInv(w') && Extends(w, w')
  {
    assert CreateInv(NewCreate(id, bundle));
  }

  lemma ProcessExtends(w: World, i: nat, p: ProcessStep)
    requires CreatesInv(w) && CallsInv(w) && i < |w.creates| && ProcessNext(w, i, p).Some?
    ensures var (sh, c) := ProcessNext(w, i, p).value;
            var w' := SetCreate(w, i, sh, c); CreatesInv(w') && CallsInv(w') && Extends(w, w')
  {
    ProcessKeeps(w, i, p);
    var r := ProcessNext(w, i, p).value;
    SetCreateExtends(w, i, r.0, r.1);
  }

  lemma CallExtends(w: World, c: nat, x: CallStep)
    requires CreatesInv(w) && CallsInv(w) && c < |w.calls| && CallNext(w, w.calls[c], x).Some?
    ensures var (sh, call) := CallNext(w, w.calls[c], x).value;
            var w' := World(sh, w.creates, w.calls[c := call]); CreatesInv(w') && CallsInv(w') && Extends(w, w')
  {
    CallKeeps(w, w.calls[c], x);
    var r := CallNext(w, w.calls[c], x).value;
    SetCallExtends(w, c, r.0, r.1);
  }

  /** Every step keeps each create's own invariant and forgets nothing. */
  lemma StepExtends(w: World, s: Step, w': World)
    requires CreatesInv(w) && CallsInv(w) && Next(w, s) == Some(w')
    ensures CreatesInv(w') && CallsInv(w') && Extends(w, w')
  {
    match s
    case Begin(id, bundle) => BeginExtends(w, id, bundle);
    case ProcessDo(i, p) => ProcessExtends(w, i, p);
    case Remove(_, _) =>
    case NewCall(_) =>
    case CallDo(c, x) => CallExtends(w, c, x);
  }
}
