/** What a create shows, read off the steps its processes have taken: over every run, each
    code on the pipe, each recorded time and each published field is that of the step it
    comes from. */
module LifecycleTrace {
  import opened Wrappers
  import opened StateText
  import opened Lifecycle
  import opened LifecycleInv
  import opened LifecycleShared
  import opened LifecycleTheorems

  /** The steps that the processes of create number i took among the first k. */
  ghost function Done(steps: seq<Step>, k: nat, i: nat): set<ProcessStep>
    requires k <= |steps|
  {
    set n | 0 <= n < k && steps[n].ProcessDo? && steps[n].i == i :: steps[n].process
  }

  // ---- the State object ----

  /** The fields a status has are those of the steps that set them. */
  predicate Recorded(v: View, done: set<ProcessStep>) {
    && PlainTimes(v)
    && (v.status in {Creating, Created, Running, Stopped} ==> ServerDo(BundleOk(v.cgroup)) in done)
    && (v.status in {Created, Running, Stopped} ==> WasmDo(SetCreated(v.created)) in done && DaemonDo(ForkWasm(v.pid)) in done)
    && (v.status in {Running, Stopped} ==> Opened(v.started, done))
    && (v.status == Stopped ==> WasmDo(Finish(v.exitCode, v.finished)) in done)
  }

  /** The gate was passed at this time. */
  predicate Opened(now: Timestamp, done: set<ProcessStep>) {
    WasmDo(ReadByte(now)) in done || WasmDo(ReadNothing(now)) in done || WasmDo(ReadInterrupt(now)) in done
  }

  /** A step that sets fields has set them, and no other step of its kind has been taken. */
  ghost predicate Shown(v: View, done: set<ProcessStep>) {
    && (forall flag :: ServerDo(BundleOk(flag)) in done ==> v.status != Unknown && v.cgroup == flag)
    && (forall now :: WasmDo(SetCreated(now)) in done ==> v.status in {Created, Running, Stopped} && v.created == now)
    && (forall now :: WasmDo(ReadByte(now)) in done ==> v.status in {Running, Stopped} && v.started == now)
    && (forall now :: WasmDo(ReadNothing(now)) in done ==> v.status in {Running, Stopped} && v.started == now)
    && (forall now :: WasmDo(ReadInterrupt(now)) in done ==> v.status in {Running, Stopped} && v.started == now)
    && (forall code, now :: WasmDo(Finish(code, now)) in done ==> v.status == Stopped && v.exitCode == code && v.finished == now)
  }

  // ---- the daemon and the wasm process ----

  /** The daemon's word: 0 after it has forked the wasm process, anything else after a
      failure to load the module or to fork. */
  ghost predicate DaemonSays(done: set<ProcessStep>, code: Int32) {
    if code == 0 then exists pid :: DaemonDo(ForkWasm(pid)) in done
    else DaemonDo(RunFails) in done || DaemonDo(ForkWasmFails) in done
  }

  predicate GaveUp(done: set<ProcessStep>) { WasmDo(WasmFails(true)) in done || WasmDo(WasmFails(false)) in done }

  /** The wasm process's word: not 0 after it has given up, and otherwise the module's own
      exit code, once the stopped version has been published. */
  predicate WasmSays(c: Create, done: set<ProcessStep>, code: Int32) {
    if GaveUp(done) then code != 0
    else c.published == 4 && PlainTimes(c.mem) && WasmDo(Finish(code, c.mem.finished)) in done
  }

  ghost predicate DaemonTrace(c: Create, done: set<ProcessStep>) {
    && (DaemonDo(Instantiate) in done <==> c.instantiated)
    && (forall pid :: DaemonDo(ForkWasm(pid)) in done ==> !c.wasm.WsmNone? && c.pid == pid)
    && (!c.wasm.WsmNone? ==> DaemonDo(ForkWasm(c.pid)) in done)
    && (DaemonDo(RunFails) in done || DaemonDo(ForkWasmFails) in done ==>
          c.wasm.WsmNone? && (c.daemon.DmnExit? || (c.daemon.DmnReport? && c.daemon.code != 0)))
    && (c.daemon.DmnReport? ==> DaemonSays(done, c.daemon.code))
    && (DaemonDo(Tell) in done ==> c.daemon.DmnExit?)
    && (!c.wasm.WsmNone? || DaemonDo(RunFails) in done || DaemonDo(ForkWasmFails) in done ==>
          c.daemon.DmnReport? || DaemonDo(Tell) in done || DaemonDo(DaemonDies) in done)
  }

  predicate WasmTrace(c: Create, done: set<ProcessStep>) {
    && (WasmDo(PidFileOk) in done <==> c.pidFile.Some?)
    && (GaveUp(done) ==> c.published < 4 && (c.wasm.WsmReport? || c.wasm.WsmExit?))
    && (c.wasm.WsmReport? ==> WasmSays(c, done, c.wasm.code))
    && (WasmDo(Report) in done ==> c.wasm.WsmExit?)
    && (GaveUp(done) || c.published == 4 ==> c.wasm.WsmReport? || WasmDo(Report) in done || WasmDo(WasmDies) in done)
  }

  // ---- the pipe ----

  /** Everything written to the pipe so far, in order. */
  function Written(c: Create): seq<Int32> { (if c.codeRead.Some? then [c.codeRead.value] else []) + c.pipe }

  /** Each of the two writers has written its word once it has told it, and nobody else has
      written anything. */
  ghost predicate PipeTrace(c: Create, done: set<ProcessStep>) {
    var codes := Written(c);
    && |codes| == (if DaemonDo(Tell) in done then 1 else 0) + (if WasmDo(Report) in done then 1 else 0)
    && (DaemonDo(Tell) in done && WasmDo(Report) !in done ==> DaemonSays(done, codes[0]))
    && (DaemonDo(Tell) !in done && WasmDo(Report) in done ==> WasmSays(c, done, codes[0]))
    && (DaemonDo(Tell) in done && WasmDo(Report) in done ==>
          || (DaemonSays(done, codes[0]) && WasmSays(c, done, codes[1]))
          || (WasmSays(c, done, codes[0]) && DaemonSays(done, codes[1])))
  }

  ghost predicate Traced(c: Create, done: set<ProcessStep>) {
    Recorded(c.mem, done) && Shown(c.mem, done) && DaemonTrace(c, done) && WasmTrace(c, done) && PipeTrace(c, done)
  }

  // ---- every step keeps it ----

  lemma RecordedMore(v: View, done: set<ProcessStep>, p: ProcessStep)
    requires Recorded(v, done)
    ensures Recorded(v, done + {p})
  {
  }

  /** A step that sets a field of the State object. */
  predicate SetsField(p: ProcessStep) {
    match p
    case ServerDo(x) => x.BundleOk?
    case WasmDo(x) => x.SetCreated? || x.ReadByte? || x.ReadNothing? || x.ReadInterrupt? || x.Finish?
    case _ => false
  }

  lemma ShownMore(v: View, done: set<ProcessStep>, p: ProcessStep)
    requires Shown(v, done) && !SetsField(p)
    ensures Shown(v, done + {p})
  {
  }

  lemma SameFields(v: View, done: set<ProcessStep>, p: ProcessStep)
    requires Recorded(v, done) && Shown(v, done) && !SetsField(p)
    ensures Recorded(v, done + {p}) && Shown(v, done + {p})
  {
    RecordedMore(v, done, p);
    ShownMore(v, done, p);
  }

  lemma BundleRecords(v: View, flag: bool, done: set<ProcessStep>)
    requires v.status == Unknown && Recorded(v, done) && Shown(v, done)
    ensures var v', done' := v.(status := Creating, cgroup := flag), done + {ServerDo(BundleOk(flag))};
            Recorded(v', done') && Shown(v', done')
  {
  }

  lemma ServerSets(sh: Shared, c: Create, i: nat, s: ServerStep, gone: set<nat>, sh': Shared, c': Create)
    requires ProgressInv(c) && ServerNext(sh, c, i, s, gone) == Some((sh', c'))
    ensures if s.BundleOk? then c.mem.status == Unknown && c'.mem == c.mem.(status := Creating, cgroup := s.cgroup) else c'.mem == c.mem
  {
  }

  lemma ServerRecords(sh: Shared, c: Create, i: nat, s: ServerStep, gone: set<nat>, sh': Shared, c': Create, done: set<ProcessStep>)
    requires CreateInv(c) && Recorded(c.mem, done) && Shown(c.mem, done) && ServerNext(sh, c, i, s, gone) == Some((sh', c'))
    ensures Recorded(c'.mem, done + {ServerDo(s)}) && Shown(c'.mem, done + {ServerDo(s)})
  {
    ServerSets(sh, c, i, s, gone, sh', c');
    if s.BundleOk? { BundleRecords(c.mem, s.cgroup, done); } else { SameFields(c.mem, done, ServerDo(s)); }
  }

  lemma ServerLeaves(sh: Shared, c: Create, i: nat, s: ServerStep, gone: set<nat>, sh': Shared, c': Create)
    requires FamilyInv(c) && ServerNext(sh, c, i, s, gone) == Some((sh', c'))
    ensures c'.daemon == c.daemon && c'.wasm == c.wasm && c'.instantiated == c.instantiated
    ensures c'.pid == c.pid && c'.pidFile == c.pidFile
    ensures !c.wasm.WsmNone? ==> c'.mem == c.mem && c'.published == c.published
  {
  }

  lemma ServerTraces(sh: Shared, c: Create, i: nat, s: ServerStep, gone: set<nat>, sh': Shared, c': Create, done: set<ProcessStep>)
    requires CreateInv(c) && DaemonTrace(c, done) && WasmTrace(c, done) && ServerNext(sh, c, i, s, gone) == Some((sh', c'))
    ensures DaemonTrace(c', done + {ServerDo(s)}) && WasmTrace(c', done + {ServerDo(s)})
  {
    ServerLeaves(sh, c, i, s, gone, sh', c');
    ServerKeeps(sh, c, i, s, gone, sh', c');
    OtherDaemonTrace(c, c', done, ServerDo(s));
    OtherWasmTrace(c, c', done, ServerDo(s));
  }

  /** A step of another process leaves the daemon's trace as it is. */
  lemma OtherDaemonTrace(c: Create, c': Create, done: set<ProcessStep>, p: ProcessStep)
    requires DaemonTrace(c, done) && !p.DaemonDo?
    requires c'.daemon == c.daemon && c'.instantiated == c.instantiated && c'.pid == c.pid
    requires c'.wasm.WsmNone? == c.wasm.WsmNone?
    ensures DaemonTrace(c', done + {p})
  {
  }

  lemma OtherWasmTrace(c: Create, c': Create, done: set<ProcessStep>, p: ProcessStep)
    requires WasmTrace(c, done) && !p.WasmDo? && c'.wasm == c.wasm && c'.pidFile == c.pidFile
    requires if c.wasm.WsmNone? then c'.published < 4 else c'.mem == c.mem && c'.published == c.published
    ensures WasmTrace(c', done + {p})
  {
  }

  lemma ServerKeepsWritten(sh: Shared, c: Create, i: nat, s: ServerStep, gone: set<nat>, sh': Shared, c': Create)
    requires CreateInv(c) && ServerNext(sh, c, i, s, gone) == Some((sh', c'))
    ensures Written(c') == Written(c)
  {
  }

  /** What has been said stays said. */
  lemma WordsStay(done: set<ProcessStep>, p: ProcessStep, code: Int32)
    requires DaemonSays(done, code)
    ensures DaemonSays(done + {p}, code)
  {
    if code == 0 {
      var pid :| DaemonDo(ForkWasm(pid)) in done;
      assert DaemonDo(ForkWasm(pid)) in done + {p};
    }
  }

  lemma WasmWordsStay(c: Create, c': Create, done: set<ProcessStep>, p: ProcessStep, code: Int32)
    requires WasmSays(c, done, code) && c'.mem == c.mem && c'.published == c.published
    requires p.WasmDo? ==> !p.wasm.WasmFails?
    ensures WasmSays(c', done + {p}, code)
  {
  }

  /** Nothing is written, and nobody tells anything. */
  lemma PipeStays(c: Create, c': Create, done: set<ProcessStep>, p: ProcessStep)
    requires PipeTrace(c, done) && Written(c') == Written(c) && p != DaemonDo(Tell) && p != WasmDo(Report)
    requires WasmDo(Report) in done ==> c'.mem == c.mem && c'.published == c.published && !p.WasmDo?
    ensures PipeTrace(c', done + {p})
  {
    var codes, done' := Written(c), done + {p};
    assert DaemonDo(Tell) in done' <==> DaemonDo(Tell) in done;
    assert WasmDo(Report) in done' <==> WasmDo(Report) in done;
    forall k | 0 <= k < |codes| && DaemonSays(done, codes[k]) ensures DaemonSays(done', codes[k]) {
      WordsStay(done, p, codes[k]);
    }
    forall k | 0 <= k < |codes| && WasmDo(Report) in done && WasmSays(c, done, codes[k]) ensures WasmSays(c', done', codes[k]) {
      WasmWordsStay(c, c', done, p, codes[k]);
    }
  }

  lemma ServerPipes(sh: Shared, c: Create, i: nat, s: ServerStep, gone: set<nat>, sh': Shared, c': Create, done: set<ProcessStep>)
    requires CreateInv(c) && WasmTrace(c, done) && PipeTrace(c, done)
    requires ServerNext(sh, c, i, s, gone) == Some((sh', c'))
    ensures PipeTrace(c', done + {ServerDo(s)})
  {
    ServerLeaves(sh, c, i, s, gone, sh', c');
    ServerKeepsWritten(sh, c, i, s, gone, sh', c');
    PipeStays(c, c', done, ServerDo(s));
  }

  lemma ServerKeepsTrace(sh: Shared, c: Create, i: nat, s: ServerStep, gone: set<nat>, sh': Shared, c': Create, done: set<ProcessStep>)
    requires CreateInv(c) && Traced(c, done) && ServerNext(sh, c, i, s, gone) == Some((sh', c'))
    ensures Traced(c', done + {ServerDo(s)})
  {
    ServerRecords(sh, c, i, s, gone, sh', c', done);
    ServerTraces(sh, c, i, s, gone, sh', c', done);
    ServerPipes(sh, c, i, s, gone, sh', c', done);
  }

  lemma ChildKeepsTrace(c: Create, s: ChildStep, c': Create, done: set<ProcessStep>)
    requires FamilyInv(c) && ProgressInv(c) && Traced(c, done) && ChildNext(c, s) == Some(c')
    ensures Traced(c', done + {ChildDo(s)})
  {
    SameFields(c.mem, done, ChildDo(s));
    if s.Detach? {
      assert DaemonTrace(c', done + {ChildDo(s)});
    } else {
      OtherDaemonTrace(c, c', done, ChildDo(s));
    }
    OtherWasmTrace(c, c', done, ChildDo(s));
    PipeStays(c, c', done, ChildDo(s));
  }

  lemma DaemonTraces(c: Create, s: DaemonStep, c': Create, done: set<ProcessStep>)
    requires FamilyInv(c) && DaemonTrace(c, done) && WasmTrace(c, done) && DaemonNext(c, s) == Some(c')
    ensures DaemonTrace(c', done + {DaemonDo(s)}) && WasmTrace(c', done + {DaemonDo(s)})
  {
  }

  lemma DaemonTells(c: Create, c': Create, code: Int32, done: set<ProcessStep>)
    requires PipeTrace(c, done) && DaemonSays(done, code) && DaemonDo(Tell) !in done
    requires c'.mem == c.mem && c'.published == c.published && Written(c') == Written(c) + [code]
    ensures PipeTrace(c', done + {DaemonDo(Tell)})
  {
    var codes, done' := Written(c), done + {DaemonDo(Tell)};
    WordsStay(done, DaemonDo(Tell), code);
    if WasmDo(Report) in done {
      WasmWordsStay(c, c', done, DaemonDo(Tell), codes[0]);
    }
  }

  lemma DaemonPipes(c: Create, s: DaemonStep, c': Create, done: set<ProcessStep>)
    requires DaemonTrace(c, done) && PipeTrace(c, done) && DaemonNext(c, s) == Some(c')
    ensures PipeTrace(c', done + {DaemonDo(s)})
  {
    if s.Tell? {
      assert Written(c') == Written(c) + [c.daemon.code];
      DaemonTells(c, c', c.daemon.code, done);
    } else {
      PipeStays(c, c', done, DaemonDo(s));
    }
  }

  lemma DaemonKeepsTrace(c: Create, s: DaemonStep, c': Create, done: set<ProcessStep>)
    requires FamilyInv(c) && Traced(c, done) && DaemonNext(c, s) == Some(c')
    ensures Traced(c', done + {DaemonDo(s)})
  {
    SameFields(c.mem, done, DaemonDo(s));
    DaemonTraces(c, s, c', done);
    DaemonPipes(c, s, c', done);
  }

  // ---- the wasm process ----

  lemma WasmLeaves(sh: Shared, c: Create, i: nat, s: WasmStep, ready: bool, writers: bool, sh': Shared, c': Create)
    requires WasmNext(sh, c, i, s, ready, writers) == Some((sh', c'))
    ensures c'.daemon == c.daemon && c'.instantiated == c.instantiated && c'.pid == c.pid
    ensures WasmAlive(c) && !c'.wasm.WsmNone?
    ensures !SetsField(WasmDo(s)) ==> c'.mem == c.mem
    ensures Written(c') == if s.Report? then Written(c) + [c.wasm.code] else Written(c)
  {
    if s.Report? { assert Written(c') == Written(c) + [c.wasm.code]; }
  }

  lemma WasmSetsCreated(v: View, now: Timestamp, pid: Int32, done: set<ProcessStep>)
    requires v.status == Creating && Recorded(v, done) && Shown(v, done) && DaemonDo(ForkWasm(pid)) in done
    ensures var v', done' := v.(status := Created, created := now, pid := pid), done + {WasmDo(SetCreated(now))};
            Recorded(v', done') && Shown(v', done')
  {
  }

  lemma WasmOpens(v: View, now: Timestamp, s: WasmStep, done: set<ProcessStep>)
    requires v.status == Created && Recorded(v, done) && Shown(v, done)
    requires s == ReadByte(now) || s == ReadNothing(now) || s == ReadInterrupt(now)
    ensures var v', done' := v.(status := Running, started := now), done + {WasmDo(s)};
            Recorded(v', done') && Shown(v', done')
  {
  }

  lemma WasmFinishes(v: View, code: Int32, now: Timestamp, done: set<ProcessStep>)
    requires v.status == Running && Recorded(v, done) && Shown(v, done)
    ensures var v', done' := v.(status := Stopped, exitCode := code, finished := now), done + {WasmDo(Finish(code, now))};
            Recorded(v', done') && Shown(v', done')
  {
  }

  lemma WasmSets(sh: Shared, c: Create, i: nat, s: WasmStep, ready: bool, writers: bool, sh': Shared, c': Create)
    requires ProgressInv(c) && WasmNext(sh, c, i, s, ready, writers) == Some((sh', c'))
    ensures s.SetCreated? ==>
              c.mem.status == Creating && c'.mem == c.mem.(status := Created, created := s.now, pid := c.pid)
    ensures s.ReadByte? || s.ReadNothing? || s.ReadInterrupt? ==>
              c.mem.status == Created && c'.mem == c.mem.(status := Running, started := s.now)
    ensures s.Finish? ==>
              c.mem.status == Running && c'.mem == c.mem.(status := Stopped, exitCode := s.code, finished := s.now)
  {
  }

  lemma WasmRecords(sh: Shared, c: Create, i: nat, s: WasmStep, ready: bool, writers: bool, sh': Shared, c': Create, done: set<ProcessStep>)
    requires CreateInv(c) && DaemonTrace(c, done) && Recorded(c.mem, done) && Shown(c.mem, done)
    requires WasmNext(sh, c, i, s, ready, writers) == Some((sh', c'))
    ensures Recorded(c'.mem, done + {WasmDo(s)}) && Shown(c'.mem, done + {WasmDo(s)})
  {
    WasmLeaves(sh, c, i, s, ready, writers, sh', c');
    WasmSets(sh, c, i, s, ready, writers, sh', c');
    if s.SetCreated? {
      WasmSetsCreated(c.mem, s.now, c.pid, done);
    } else if s.ReadByte? || s.ReadNothing? || s.ReadInterrupt? {
      WasmOpens(c.mem, s.now, s, done);
    } else if s.Finish? {
      WasmFinishes(c.mem, s.code, s.now, done);
    } else {
      SameFields(c.mem, done, WasmDo(s));
    }
  }

  lemma WasmKeepsOwn(sh: Shared, c: Create, i: nat, s: WasmStep, ready: bool, writers: bool, sh': Shared, c': Create, done: set<ProcessStep>)
    requires CreateInv(c) && WasmTrace(c, done) && Recorded(c.mem, done)
    requires WasmNext(sh, c, i, s, ready, writers) == Some((sh', c'))
    ensures WasmTrace(c', done + {WasmDo(s)})
  {
  }

  lemma WasmTells(c: Create, c': Create, code: Int32, done: set<ProcessStep>)
    requires PipeTrace(c, done) && WasmSays(c, done, code) && WasmDo(Report) !in done
    requires c'.mem == c.mem && c'.published == c.published && Written(c') == Written(c) + [code]
    ensures PipeTrace(c', done + {WasmDo(Report)})
  {
    var codes, done' := Written(c), done + {WasmDo(Report)};
    WasmWordsStay(c, c', done, WasmDo(Report), code);
    if DaemonDo(Tell) in done {
      WordsStay(done, WasmDo(Report), codes[0]);
    }
  }

  lemma WasmPipes(sh: Shared, c: Create, i: nat, s: WasmStep, ready: bool, writers: bool, sh': Shared, c': Create, done: set<ProcessStep>)
    requires WasmTrace(c, done) && PipeTrace(c, done)
    requires WasmNext(sh, c, i, s, ready, writers) == Some((sh', c'))
    ensures PipeTrace(c', done + {WasmDo(s)})
  {
    WasmLeaves(sh, c, i, s, ready, writers, sh', c');
    if s.Report? {
      WasmTells(c, c', c.wasm.code, done);
    } else {
      PipeStays(c, c', done, WasmDo(s));
    }
  }

  lemma WasmKeepsTrace(sh: Shared, c: Create, i: nat, s: WasmStep, ready: bool, writers: bool, sh': Shared, c': Create, done: set<ProcessStep>)
    requires CreateInv(c) && Traced(c, done) && WasmNext(sh, c, i, s, ready, writers) == Some((sh', c'))
    ensures Traced(c', done + {WasmDo(s)})
  {
    WasmLeaves(sh, c, i, s, ready, writers, sh', c');
    WasmRecords(sh, c, i, s, ready, writers, sh', c', done);
    OtherDaemonTrace(c, c', done, WasmDo(s));
    WasmKeepsOwn(sh, c, i, s, ready, writers, sh', c', done);
    WasmPipes(sh, c, i, s, ready, writers, sh', c', done);
  }

  lemma ProcessKeepsTrace(w: World, i: nat, p: ProcessStep, done: set<ProcessStep>)
    requires i < |w.creates| && CreateInv(w.creates[i]) && Traced(w.creates[i], done) && ProcessNext(w, i, p).Some?
    ensures Traced(ProcessNext(w, i, p).value.1, done + {p})
  {
    var c, r := w.creates[i], ProcessNext(w, i, p).value;
    match p
    case ServerDo(x) => ServerKeepsTrace(w.sh, c, i, x, DepartedEntry(w), r.0, r.1, done);
    case ChildDo(x) => ChildKeepsTrace(c, x, r.1, done);
    case DaemonDo(x) => DaemonKeepsTrace(c, x, r.1, done);
    case WasmDo(x) => WasmKeepsTrace(w.sh, c, i, x, IsReady(w, c), IsWritten(w, c), r.0, r.1, done);
  }

  // ---- over every run ----

  lemma DoneGrows(steps: seq<Step>, k: nat, i: nat)
    requires k < |steps|
    ensures Done(steps, k + 1, i) ==
            Done(steps, k, i) + (if steps[k].ProcessDo? && steps[k].i == i then {steps[k].process} else {})
  {
  }

  lemma OthersKeep(w: World, s: Step, w': World, i: nat)
    requires Next(w, s) == Some(w') && !(s.ProcessDo? && s.i == i)
    ensures i < |w.creates| ==> i < |w'.creates| && w'.creates[i] == w.creates[i]
    ensures |w.creates| <= i < |w'.creates| ==> i == |w.creates| && s.Begin? && w'.creates[i] == NewCreate(s.id, s.bundle)
  {
  }

  lemma NewTraced(id: string, bundle: string)
    ensures Traced(NewCreate(id, bundle), {})
  {
    assert Written(NewCreate(id, bundle)) == [];
  }

  ghost predicate TracedAt(w: World, i: nat, done: set<ProcessStep>) {
    if i < |w.creates| then Traced(w.creates[i], done) else done == {}
  }

  lemma StepTraced(w: World, s: Step, w': World, i: nat, done: set<ProcessStep>)
    requires CreatesInv(w) && Next(w, s) == Some(w') && TracedAt(w, i, done)
    ensures TracedAt(w', i, done + (if s.ProcessDo? && s.i == i then {s.process} else {}))
  {
    if s.ProcessDo? && s.i == i {
      ProcessStepped(w, i, s.process, w');
      ProcessKeepsTrace(w, i, s.process, done);
    } else {
      assert done + {} == done;
      OthersKeep(w, s, w', i);
      if |w.creates| <= i < |w'.creates| { NewTraced(s.id, s.bundle); }
    }
  }

  /** Over every run, the state of every create is what its steps say. */
  lemma {:induction false} RunTraced(ws: seq<World>, steps: seq<Step>, k: nat, i: nat)
    requires IsRun(ws, steps) && k < |ws|
    ensures TracedAt(ws[k], i, Done(steps, k, i))
  {
    if k > 0 {
      RunTraced(ws, steps, k - 1, i);
      RunInv(ws, steps, k - 1);
      DoneGrows(steps, k - 1, i);
      StepTraced(ws[k - 1], steps[k - 1], ws[k - 1 + 1], i, Done(steps, k - 1, i));
    }
  }

  // ---- the codes ----

  /** Where a code on the pipe comes from: the daemon, after forking the wasm process or
      after failing to; or the wasm process, after giving up or with the module's own exit
      code once the stopped version has been published. */
  ghost predicate Explained(c: Create, done: set<ProcessStep>, code: Int32) {
    || (code == 0 && DaemonDo(Tell) in done && exists pid :: DaemonDo(ForkWasm(pid)) in done)
    || (code != 0 && DaemonDo(Tell) in done && (DaemonDo(RunFails) in done || DaemonDo(ForkWasmFails) in done))
    || (code != 0 && WasmDo(Report) in done && (WasmDo(WasmFails(true)) in done || WasmDo(WasmFails(false)) in done))
    || (c.published == 4 && WasmDo(Report) in done && exists now :: WasmDo(Finish(code, now)) in done)
  }

  lemma WordExplained(c: Create, done: set<ProcessStep>, code: Int32)
    requires (DaemonDo(Tell) in done && DaemonSays(done, code)) || (WasmDo(Report) in done && WasmSays(c, done, code))
    ensures Explained(c, done, code)
  {
  }

  lemma WrittenExplained(c: Create, done: set<ProcessStep>, k: nat)
    requires PipeTrace(c, done) && k < |Written(c)|
    ensures Explained(c, done, Written(c)[k])
  {
    WordExplained(c, done, Written(c)[k]);
  }

  /** Every code that was ever on the pipe of a create, read or not, is one that its steps
      explain. */
  lemma CodesExplained(ws: seq<World>, steps: seq<Step>, k: nat, i: nat, code: Int32)
    requires IsRun(ws, steps) && k < |ws| && i < |ws[k].creates|
    requires code in ws[k].creates[i].pipe || ws[k].creates[i].codeRead == Some(code)
    ensures Explained(ws[k].creates[i], Done(steps, k, i), code)
  {
    RunTraced(ws, steps, k, i);
    var c := ws[k].creates[i];
    assert code in Written(c);
    var n :| 0 <= n < |Written(c)| && Written(c)[n] == code;
    WrittenExplained(c, Done(steps, k, i), n);
  }

  /** A zero from the wasm process is the module's: without a finished run of the module
      the only zero there can be is the daemon's. */
  lemma ZeroMeansForked(ws: seq<World>, steps: seq<Step>, k: nat, i: nat)
    requires IsRun(ws, steps) && k < |ws| && i < |ws[k].creates|
    requires 0 in ws[k].creates[i].pipe || ws[k].creates[i].codeRead == Some(0)
    ensures exists pid :: DaemonDo(ForkWasm(pid)) in Done(steps, k, i)
    ensures || DaemonDo(Tell) in Done(steps, k, i)
            || (ws[k].creates[i].published == 4 && exists now :: WasmDo(Finish(0, now)) in Done(steps, k, i))
  {
    CodesExplained(ws, steps, k, i, 0);
    RunTraced(ws, steps, k, i);
    RunInv(ws, steps, k);
    assert CreateInv(ws[k].creates[i]);
  }

  lemma WasmWordWritten(c: Create, done: set<ProcessStep>) returns (code: Int32)
    requires PipeTrace(c, done) && WasmDo(Report) in done
    ensures WasmSays(c, done, code) && (code in c.pipe || c.codeRead == Some(code))
  {
    var codes := Written(c);
    assert WasmSays(c, done, codes[0]) || WasmSays(c, done, codes[1]);
    assert forall n :: 0 <= n < |codes| ==> codes[n] in c.pipe || c.codeRead == Some(codes[n]);
    code := if WasmSays(c, done, codes[0]) then codes[0] else codes[1];
  }

  /** The create of a wasm process that gave up never publishes a stopped version; the process
      is about to report, was killed before it could, or has put a code other than 0 on the
      pipe. */
  lemma FailureReported(ws: seq<World>, steps: seq<Step>, k: nat, i: nat)
    requires IsRun(ws, steps) && k < |ws| && i < |ws[k].creates|
    requires WasmDo(WasmFails(true)) in Done(steps, k, i) || WasmDo(WasmFails(false)) in Done(steps, k, i)
    ensures ws[k].creates[i].published < 4
    ensures || ws[k].creates[i].wasm.WsmReport? || WasmDo(WasmDies) in Done(steps, k, i)
            || exists code :: code != 0 && (code in ws[k].creates[i].pipe || ws[k].creates[i].codeRead == Some(code))
    ensures WasmDo(Report) in Done(steps, k, i) ==>
              exists code :: code != 0 && (code in ws[k].creates[i].pipe || ws[k].creates[i].codeRead == Some(code))
  {
    RunTraced(ws, steps, k, i);
    if WasmDo(Report) in Done(steps, k, i) { var code := WasmWordWritten(ws[k].creates[i], Done(steps, k, i)); }
  }

  /** A module whose stopped version was published has its exit code on the pipe, unless the
      process is still about to report it or was killed before. */
  lemma ExitReported(ws: seq<World>, steps: seq<Step>, k: nat, i: nat)
    requires IsRun(ws, steps) && k < |ws| && i < |ws[k].creates| && ws[k].creates[i].published == 4
    ensures || ws[k].creates[i].wasm == WsmReport(ws[k].creates[i].mem.exitCode)
            || WasmDo(WasmDies) in Done(steps, k, i)
            || ws[k].creates[i].mem.exitCode in ws[k].creates[i].pipe
            || ws[k].creates[i].codeRead == Some(ws[k].creates[i].mem.exitCode)
  {
    RunTraced(ws, steps, k, i);
    var c, done := ws[k].creates[i], Done(steps, k, i);
    if WasmDo(Report) in done { var code := WasmWordWritten(c, done); }
  }

  /** Nobody writes more than its one word. */
  lemma WordsCounted(ws: seq<World>, steps: seq<Step>, k: nat, i: nat)
    requires IsRun(ws, steps) && k < |ws| && i < |ws[k].creates|
    ensures |ws[k].creates[i].pipe| + (if ws[k].creates[i].codeRead.Some? then 1 else 0) ==
            (if DaemonDo(Tell) in Done(steps, k, i) then 1 else 0) + (if WasmDo(Report) in Done(steps, k, i) then 1 else 0)
  {
    RunTraced(ws, steps, k, i);
  }

  // ---- the fields ----

  /** A module ends once: no create has two steps that record an end. */
  lemma FinishOnce(ws: seq<World>, steps: seq<Step>, m: nat, n: nat, i: nat, s: WasmStep, t: WasmStep)
    requires IsRun(ws, steps) && m < |steps| && n < |steps|
    requires steps[m] == ProcessDo(i, WasmDo(s)) && s.Finish?
    requires steps[n] == ProcessDo(i, WasmDo(t)) && t.Finish?
    ensures m == n
  {
    if m < n {
      Finishing(ws, steps, n, i, t);
      Finished(ws, steps, m, n, i, s);
    } else if n < m {
      Finishing(ws, steps, m, i, s);
      Finished(ws, steps, n, m, i, t);
    }
  }

  lemma Finishing(ws: seq<World>, steps: seq<Step>, n: nat, i: nat, t: WasmStep)
    requires IsRun(ws, steps) && n < |steps| && steps[n] == ProcessDo(i, WasmDo(t)) && t.Finish?
    ensures i < |ws[n].creates| && ws[n].creates[i].mem.status == Running
  {
    RunInv(ws, steps, n);
    assert Next(ws[n], steps[n]) == Some(ws[n + 1]);
    ProcessStepped(ws[n], i, WasmDo(t), ws[n + 1]);
    var c, r := ws[n].creates[i], ProcessNext(ws[n], i, WasmDo(t)).value;
    assert CreateInv(c);
    WasmSets(ws[n].sh, c, i, t, IsReady(ws[n], c), IsWritten(ws[n], c), r.0, r.1);
  }

  lemma Finished(ws: seq<World>, steps: seq<Step>, m: nat, n: nat, i: nat, s: WasmStep)
    requires IsRun(ws, steps) && m < n < |ws| && steps[m] == ProcessDo(i, WasmDo(s)) && s.Finish?
    requires i < |ws[n].creates|
    ensures ws[n].creates[i].mem.status == Stopped
  {
    RunTraced(ws, steps, n, i);
    assert WasmDo(s) in Done(steps, n, i);
  }

  /** The create was begun with this id and bundle path. */
  ghost predicate BegunWith(ws: seq<World>, steps: seq<Step>, k: nat, i: nat, id: string, bundle: string)
    requires k <= |steps| < |ws|
  {
    exists n :: 0 <= n < k && steps[n] == Begin(id, bundle) && |ws[n].creates| == i && |ws[n + 1].creates| == i + 1
  }

  lemma ServerIdentity(sh: Shared, c: Create, i: nat, s: ServerStep, gone: set<nat>, sh': Shared, c': Create)
    requires ServerNext(sh, c, i, s, gone) == Some((sh', c'))
    ensures c'.mem.id == c.mem.id && c'.mem.bundle == c.mem.bundle
  {
  }

  lemma WasmIdentity(sh: Shared, c: Create, i: nat, s: WasmStep, ready: bool, writers: bool, sh': Shared, c': Create)
    requires WasmNext(sh, c, i, s, ready, writers) == Some((sh', c'))
    ensures c'.mem.id == c.mem.id && c'.mem.bundle == c.mem.bundle
  {
  }

  lemma SameIdentity(w: World, i: nat, p: ProcessStep)
    requires i < |w.creates| && ProcessNext(w, i, p).Some?
    ensures var c' := ProcessNext(w, i, p).value.1; c'.mem.id == w.creates[i].mem.id && c'.mem.bundle == w.creates[i].mem.bundle
  {
    var c, r := w.creates[i], ProcessNext(w, i, p).value;
    match p
    case ServerDo(x) => ServerIdentity(w.sh, c, i, x, DepartedEntry(w), r.0, r.1);
    case ChildDo(x) =>
    case DaemonDo(x) =>
    case WasmDo(x) => WasmIdentity(w.sh, c, i, x, IsReady(w, c), IsWritten(w, c), r.0, r.1);
  }

  lemma {:induction false} RunIdentity(ws: seq<World>, steps: seq<Step>, k: nat, i: nat)
    requires IsRun(ws, steps) && k < |ws| && i < |ws[k].creates|
    ensures BegunWith(ws, steps, k, i, ws[k].creates[i].mem.id, ws[k].creates[i].mem.bundle)
  {
    if k > 0 {
      var w, s, w' := ws[k - 1], steps[k - 1], ws[k];
      assert Next(w, s) == Some(ws[k - 1 + 1]);
      if s.ProcessDo? && s.i == i {
        ProcessStepped(w, i, s.process, w');
        SameIdentity(w, i, s.process);
        RunIdentity(ws, steps, k - 1, i);
      } else {
        OthersKeep(w, s, w', i);
        if i < |w.creates| { RunIdentity(ws, steps, k - 1, i); }
      }
    }
  }

  /** What `state.json` holds is what the steps of its create recorded. */
  ghost predicate FileTraced(w: World, steps: seq<Step>, k: nat)
    requires k <= |steps|
  {
    w.sh.state.Some? ==>
      var File(i, v) := w.sh.state.value;
      && i < |w.creates|
      && v.id == w.creates[i].mem.id && v.bundle == w.creates[i].mem.bundle
      && Recorded(v, Done(steps, k, i))
  }

  lemma StepFileTraced(w: World, s: Step, w': World, steps: seq<Step>, k: nat)
    requires k < |steps| && steps[k] == s && Next(w, s) == Some(w') && CreatesInv(w) && FileTraced(w, steps, k)
    requires s.ProcessDo? && s.i < |w'.creates| ==> Recorded(w'.creates[s.i].mem, Done(steps, k + 1, s.i))
    ensures FileTraced(w', steps, k + 1)
  {
    if w'.sh.state == w.sh.state {
      if w.sh.state.Some? { FileTraceStays(w, s, w', steps, k, w.sh.state.value.owner, w.sh.state.value.view); }
    } else if s.ProcessDo? {
      PublishedIsOwn(w, s.i, s.process, w');
    } else {
      OthersRemoveState(w, s, w');
    }
  }

  lemma RecordedNow(ws: seq<World>, steps: seq<Step>, k: nat, i: nat)
    requires IsRun(ws, steps) && k < |ws| && i < |ws[k].creates|
    ensures Recorded(ws[k].creates[i].mem, Done(steps, k, i))
  {
    RunTraced(ws, steps, k, i);
  }

  lemma {:induction false} RunFileTraced(ws: seq<World>, steps: seq<Step>, k: nat)
    requires IsRun(ws, steps) && k < |ws|
    ensures FileTraced(ws[k], steps, k)
  {
    if k > 0 {
      RunFileTraced(ws, steps, k - 1);
      RunInv(ws, steps, k - 1);
      var s := steps[k - 1];
      if s.ProcessDo? && s.i < |ws[k].creates| { RecordedNow(ws, steps, k, s.i); }
      StepFileTraced(ws[k - 1], s, ws[k - 1 + 1], steps, k - 1);
    }
  }

  lemma PublishedIsOwn(w: World, i: nat, p: ProcessStep, w': World)
    requires CreatesInv(w) && Next(w, ProcessDo(i, p)) == Some(w') && w'.sh.state != w.sh.state
    ensures i < |w'.creates| && w'.sh.state == Some(File(i, w'.creates[i].mem))
  {
    ProcessStepped(w, i, p, w');
    PublishedIsVersion(w, i, p);
  }

  lemma FileTraceStays(w: World, s: Step, w': World, steps: seq<Step>, k: nat, i: nat, v: View)
    requires k < |steps| && steps[k] == s && Next(w, s) == Some(w') && i < |w.creates|
    requires v.id == w.creates[i].mem.id && v.bundle == w.creates[i].mem.bundle && Recorded(v, Done(steps, k, i))
    ensures i < |w'.creates| && v.id == w'.creates[i].mem.id && v.bundle == w'.creates[i].mem.bundle
    ensures Recorded(v, Done(steps, k + 1, i))
  {
    DoneGrows(steps, k, i);
    if s.ProcessDo? && s.i == i {
      ProcessStepped(w, i, s.process, w');
      SameIdentity(w, i, s.process);
      RecordedMore(v, Done(steps, k, i), s.process);
    } else {
      OthersKeep(w, s, w', i);
    }
  }

  /** Over every run, every field that `state.json` shows for its status comes from the step
      that set it: the id and the bundle path from the start of the create, the cgroup flag
      from reading the bundle, the pid from the fork, and times and exit code from the steps
      that marked it created, running and stopped. */
  lemma PublishedFields(ws: seq<World>, steps: seq<Step>, k: nat)
    requires IsRun(ws, steps) && k < |ws| && ws[k].sh.state.Some?
    ensures var File(i, v) := ws[k].sh.state.value; var done := Done(steps, k, i);
            && PlainTimes(v)
            && BegunWith(ws, steps, k, i, v.id, v.bundle)
            && ServerDo(BundleOk(v.cgroup)) in done
            && (v.status in {Created, Running, Stopped} ==>
                  WasmDo(SetCreated(v.created)) in done && DaemonDo(ForkWasm(v.pid)) in done)
            && (v.status in {Running, Stopped} ==>
                  || WasmDo(ReadByte(v.started)) in done || WasmDo(ReadNothing(v.started)) in done
                  || WasmDo(ReadInterrupt(v.started)) in done)
            && (v.status == Stopped ==> WasmDo(Finish(v.exitCode, v.finished)) in done)
  {
    RunFileTraced(ws, steps, k);
    RunInv(ws, steps, k);
    var File(i, v) := ws[k].sh.state.value;
    assert FileOk(ws[k], ws[k].sh.state.value);
    RunIdentity(ws, steps, k, i);
  }
}
