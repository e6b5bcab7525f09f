/** What the world was like at the moments that matter: over every run, what a start, a
    delete, a gate or an update came to is traced back to the moment that allowed it. */
module LifecycleMoments {
  import opened Wrappers
  import opened StateText
  import opened StateLaws
  import opened Lifecycle
  import opened LifecycleInv
  import opened LifecycleShared
  import opened LifecycleTheorems
  import opened LifecycleTrace

  // ---- calls and their steps ----

  /** The steps that call number c took among the first k. */
  ghost function Asked(steps: seq<Step>, k: nat, c: nat): set<CallStep>
    requires k <= |steps|
  {
    set n | 0 <= n < k && steps[n].CallDo? && steps[n].c == c :: steps[n].what
  }

  predicate CallTraced(call: Call, asked: set<CallStep>) {
    match call
    case Start(st, seen, fd, took) =>
      && (seen.Some? ==> StartLoad in asked) && (fd.Some? ==> StartOpen in asked) && (took.Some? ==> StartUnlink in asked)
      && (st.StClose? || st.StDone? ==> StartWrite in asked)
    case Kill(kl, seen, target) => (target.Some? ==> KillLoad in asked) && (kl.KlDone? ==> KillSend in asked)
    case Delete(dl, force) => dl.DlRemove? ==> DeleteFound in asked || (force && DeleteForced in asked)
  }

  lemma CallKeepsTrace(w: World, c: Call, s: CallStep, asked: set<CallStep>)
    requires CallTraced(c, asked) && CallNext(w, c, s).Some?
    ensures CallTraced(CallNext(w, c, s).value.1, asked + {s})
  {
  }

  lemma AskedGrows(steps: seq<Step>, k: nat, c: nat)
    requires k < |steps|
    ensures Asked(steps, k + 1, c) == Asked(steps, k, c) + (if steps[k].CallDo? && steps[k].c == c then {steps[k].what} else {})
  {
  }

  ghost predicate CallTracedAt(w: World, c: nat, asked: set<CallStep>) {
    if c < |w.calls| then CallTraced(w.calls[c], asked) else asked == {}
  }

  lemma OtherCalls(w: World, s: Step, w': World, c: nat)
    requires Next(w, s) == Some(w') && !(s.CallDo? && s.c == c)
    ensures c < |w.calls| ==> c < |w'.calls| && w'.calls[c] == w.calls[c]
    ensures |w.calls| <= c < |w'.calls| ==> IsNew(w'.calls[c])
  {
  }

  lemma StepCallTraced(w: World, s: Step, w': World, c: nat, asked: set<CallStep>)
    requires Next(w, s) == Some(w') && CallTracedAt(w, c, asked)
    ensures CallTracedAt(w', c, asked + (if s.CallDo? && s.c == c then {s.what} else {}))
  {
    if s.CallDo? && s.c == c {
      CallKeepsTrace(w, w.calls[c], s.what, asked);
    } else {
      OtherCalls(w, s, w', c);
      assert asked + {} == asked;
    }
  }

  lemma {:induction false} RunCallTraced(ws: seq<World>, steps: seq<Step>, k: nat, c: nat)
    requires IsRun(ws, steps) && k < |ws|
    ensures CallTracedAt(ws[k], c, Asked(steps, k, c))
  {
    if k > 0 {
      RunCallTraced(ws, steps, k - 1, c);
      AskedGrows(steps, k - 1, c);
      StepCallTraced(ws[k - 1], steps[k - 1], ws[k - 1 + 1], c, Asked(steps, k - 1, c));
    }
  }

  lemma CallGrowsOn(a: Call, b: Call, c: Call)
    requires CallGrows(a, b) && CallGrows(b, c)
    ensures CallGrows(a, c)
  {
  }

  lemma StepCallGrows(w: World, s: Step, w': World, c: nat)
    requires Inv(w) && Next(w, s) == Some(w') && c < |w.calls|
    ensures c < |w'.calls| && CallGrows(w.calls[c], w'.calls[c])
  {
    StepExtends(w, s, w');
  }

  lemma {:induction false} RunCallGrows(ws: seq<World>, steps: seq<Step>, m: nat, k: nat, c: nat)
    requires IsRun(ws, steps) && m <= k < |ws| && c < |ws[m].calls|
    ensures c < |ws[k].calls| && CallGrows(ws[m].calls[c], ws[k].calls[c])
    decreases k - m
  {
    if m < k {
      RunCallGrows(ws, steps, m, k - 1, c);
      RunInv(ws, steps, k - 1);
      StepCallGrows(ws[k - 1], steps[k - 1], ws[k - 1 + 1], c);
      CallGrowsOn(ws[m].calls[c], ws[k - 1].calls[c], ws[k].calls[c]);
    }
  }

  // ---- starts ----

  /** Some process of a create that opened this FIFO is alive and is not removing anything. */
  ghost predicate Served(w: World, f: nat) {
    exists i :: 0 <= i < |w.creates| && w.creates[i].fifo == Some(f) && !Gone(w.creates[i])
  }

  predicate Gone(c: Create) {
    && (c.server.SrvExit? || c.server.SrvClean?) && !c.child.KidRun?
    && (c.daemon.DmnNone? || c.daemon.DmnExit? || c.daemon.DmnClean?) && (c.wasm.WsmNone? || c.wasm.WsmExit?)
  }

  lemma ReaderServes(w: World, f: nat)
    requires HasReader(w, f)
    ensures Served(w, f)
  {
    var i :| 0 <= i < |w.creates| && HoldsReadEnd(w.creates[i], f);
    assert !Gone(w.creates[i]);
  }

  lemma OpenMoment(w: World, c: nat, w': World)
    requires Next(w, CallDo(c, StartOpen)) == Some(w')
    ensures c < |w'.calls| && w'.calls[c].Start? && w'.calls[c].fd.Some? && Served(w, w'.calls[c].fd.value)
    ensures w.sh.entry == w'.calls[c].fd
  {
    ReaderServes(w, w.sh.entry.value);
  }

  lemma WriteMoment(w: World, c: nat, w': World)
    requires Next(w, CallDo(c, StartWrite)) == Some(w')
    ensures c < |w'.calls| && w'.calls[c].Start? && w'.calls[c].fd.Some? && Served(w, w'.calls[c].fd.value)
  {
    ReaderServes(w, w.calls[c].fd.value);
  }

  /** At step m the start opened this FIFO by its entry, and somebody was there to read it. */
  ghost predicate OpenedServed(ws: seq<World>, steps: seq<Step>, m: nat, c: nat, f: nat)
    requires m < |steps| < |ws|
  {
    steps[m] == CallDo(c, StartOpen) && ws[m].sh.entry == Some(f) && Served(ws[m], f)
  }

  ghost predicate WroteServed(ws: seq<World>, steps: seq<Step>, m: nat, c: nat, f: nat)
    requires m < |steps| < |ws|
  {
    steps[m] == CallDo(c, StartWrite) && Served(ws[m], f)
  }

  /** In every run, a start that has opened a FIFO opened the one `exec.fifo` named at that
      moment while a process of its create was there to read, and one that has written did
      so while there was one, too. */
  lemma StartWasServed(ws: seq<World>, steps: seq<Step>, k: nat, c: nat)
    requires IsRun(ws, steps) && k < |ws| && c < |ws[k].calls| && ws[k].calls[c].Start? && ws[k].calls[c].fd.Some?
    ensures exists m :: 0 <= m < k && OpenedServed(ws, steps, m, c, ws[k].calls[c].fd.value)
    ensures ws[k].calls[c].st.StClose? || ws[k].calls[c].st.StDone? ==>
              exists m :: 0 <= m < k && WroteServed(ws, steps, m, c, ws[k].calls[c].fd.value)
  {
    RunCallTraced(ws, steps, k, c);
    OpenWasServed(ws, steps, k, c);
    if ws[k].calls[c].st.StClose? || ws[k].calls[c].st.StDone? { WriteWasServed(ws, steps, k, c); }
  }

  lemma OpenWasServed(ws: seq<World>, steps: seq<Step>, k: nat, c: nat)
    requires IsRun(ws, steps) && k < |ws| && c < |ws[k].calls| && ws[k].calls[c].Start? && ws[k].calls[c].fd.Some?
    requires StartOpen in Asked(steps, k, c)
    ensures exists m :: 0 <= m < k && OpenedServed(ws, steps, m, c, ws[k].calls[c].fd.value)
  {
    var m :| 0 <= m < k && steps[m].CallDo? && steps[m].c == c && steps[m].what == StartOpen;
    assert steps[m] == CallDo(c, StartOpen);
    OpenMoment(ws[m], c, ws[m + 1]);
    RunCallGrows(ws, steps, m + 1, k, c);
    assert OpenedServed(ws, steps, m, c, ws[k].calls[c].fd.value);
  }

  lemma WriteWasServed(ws: seq<World>, steps: seq<Step>, k: nat, c: nat)
    requires IsRun(ws, steps) && k < |ws| && c < |ws[k].calls| && ws[k].calls[c].Start? && ws[k].calls[c].fd.Some?
    requires StartWrite in Asked(steps, k, c)
    ensures exists m :: 0 <= m < k && WroteServed(ws, steps, m, c, ws[k].calls[c].fd.value)
  {
    var m :| 0 <= m < k && steps[m].CallDo? && steps[m].c == c && steps[m].what == StartWrite;
    assert steps[m] == CallDo(c, StartWrite);
    WriteMoment(ws[m], c, ws[m + 1]);
    RunCallGrows(ws, steps, m + 1, k, c);
    assert WroteServed(ws, steps, m, c, ws[k].calls[c].fd.value);
  }

  /** The version was in `state.json` at step m, and its printed text loads. */
  ghost predicate LoadedAt(ws: seq<World>, m: nat, f: File)
    requires m < |ws|
  {
    ws[m].sh.state == Some(f) && LoadText(Fresh, PrintText(f.view)).ok
  }

  lemma LoadMoment(ws: seq<World>, steps: seq<Step>, m: nat, c: nat)
    requires IsRun(ws, steps) && m < |steps| && steps[m] == CallDo(c, StartLoad)
    ensures c < |ws[m + 1].calls| && ws[m + 1].calls[c].Start? && ws[m + 1].calls[c].seen.Some?
    ensures LoadedAt(ws, m, ws[m + 1].calls[c].seen.value)
  {
    assert Next(ws[m], steps[m]) == Some(ws[m + 1]);
    LoadsThroughText(ws, steps, m);
  }

  /** What a start goes by is a version that was in `state.json` and could be loaded. */
  lemma StartHadLoaded(ws: seq<World>, steps: seq<Step>, k: nat, c: nat)
    requires IsRun(ws, steps) && k < |ws| && c < |ws[k].calls| && ws[k].calls[c].Start? && ws[k].calls[c].seen.Some?
    ensures exists m :: 0 <= m < k && LoadedAt(ws, m, ws[k].calls[c].seen.value)
  {
    RunCallTraced(ws, steps, k, c);
    var m :| 0 <= m < k && steps[m].CallDo? && steps[m].c == c && steps[m].what == StartLoad;
    assert steps[m] == CallDo(c, StartLoad);
    LoadMoment(ws, steps, m, c);
    RunCallGrows(ws, steps, m + 1, k, c);
  }

  // ---- deletes ----

  /** A delete that was not forced and is removing things has found the directory there. */
  lemma UnforcedDeleteFound(ws: seq<World>, steps: seq<Step>, k: nat, c: nat)
    requires IsRun(ws, steps) && k < |ws| && c < |ws[k].calls| && ws[k].calls[c] == Delete(DlRemove, false)
    ensures exists m :: 0 <= m < k && ws[m].sh.dir && steps[m] == CallDo(c, DeleteFound)
  {
    RunCallTraced(ws, steps, k, c);
    var m :| 0 <= m < k && steps[m].CallDo? && steps[m].c == c && steps[m].what == DeleteFound;
    assert steps[m] == CallDo(c, DeleteFound);
    assert Next(ws[m], steps[m]) == Some(ws[m + 1]);
  }

  // ---- creates ----

  /** A create that finds the directory changes nothing; one that does not finds nothing of an
      earlier create left, makes the directory, and is the only thing new. */
  lemma BeginAlone(ws: seq<World>, steps: seq<Step>, k: nat, id: string, bundle: string)
    requires IsRun(ws, steps) && k < |steps| && steps[k] == Begin(id, bundle)
    ensures ws[k].sh.dir ==> ws[k + 1] == ws[k]
    ensures !ws[k].sh.dir ==>
              && ws[k].sh.state.None? && ws[k].sh.entry.None? && ws[k].sh.temps == {}
              && ws[k + 1].sh.dir && ws[k + 1].sh.state.None? && ws[k + 1].sh.entry.None? && ws[k + 1].sh.temps == {}
              && ws[k + 1].calls == ws[k].calls && |ws[k + 1].creates| == |ws[k].creates| + 1
              && ws[k + 1].creates[..|ws[k].creates|] == ws[k].creates
  {
    assert Next(ws[k], steps[k]) == Some(ws[k + 1]);
    RunInv(ws, steps, k);
  }

  /** Between two creates that both made the directory it was gone. */
  lemma OneAtATime(ws: seq<World>, steps: seq<Step>, m: nat, n: nat)
    requires IsRun(ws, steps) && m < n < |steps| && steps[m].Begin? && steps[n].Begin?
    requires |ws[n + 1].creates| > |ws[n].creates|
    ensures exists t :: m < t <= n && !ws[t].sh.dir && ws[t].sh.state.None? && ws[t].sh.entry.None?
  {
    BeginAlone(ws, steps, n, steps[n].id, steps[n].bundle);
    assert !ws[n].sh.dir;
  }

  /** An `exec.fifo` is never replaced by another: it can only go, and only where there is
      none can one be made, a FIFO that was never there before. */
  lemma EntryNeverReplaced(w: World, s: Step, w': World)
    requires Inv(w) && Next(w, s) == Some(w') && w'.sh.entry != w.sh.entry
    ensures w.sh.entry.Some? ==> w'.sh.entry.None?
    ensures w.sh.entry.None? ==> w.sh.dir && w'.sh.entry == Some(|w.sh.fifos|) && |w'.sh.fifos| == |w.sh.fifos| + 1
  {
    match s
    case ProcessDo(i, p) =>
      ProcessStepped(w, i, p, w');
      ProcessEntry(w, i, p);
    case _ => OthersEntry(w, s, w');
  }

  lemma ServerEntry(sh: Shared, c: Create, i: nat, s: ServerStep, gone: set<nat>, sh': Shared, c': Create)
    requires ServerNext(sh, c, i, s, gone) == Some((sh', c')) && sh'.entry != sh.entry
    ensures sh.entry.None? && sh.dir && sh'.entry == Some(|sh.fifos|) && |sh'.fifos| == |sh.fifos| + 1
  {
  }

  lemma WasmEntry(sh: Shared, c: Create, i: nat, s: WasmStep, ready: bool, writers: bool, sh': Shared, c': Create)
    requires WasmNext(sh, c, i, s, ready, writers) == Some((sh', c'))
    ensures sh'.entry == sh.entry
  {
  }

  lemma ProcessEntry(w: World, i: nat, p: ProcessStep)
    requires i < |w.creates| && ProcessNext(w, i, p).Some?
    ensures var sh' := ProcessNext(w, i, p).value.0; sh'.entry != w.sh.entry ==>
              w.sh.entry.None? && w.sh.dir && sh'.entry == Some(|w.sh.fifos|) && |sh'.fifos| == |w.sh.fifos| + 1
  {
    var c, r := w.creates[i], ProcessNext(w, i, p).value;
    match p
    case ServerDo(x) => if r.0.entry != w.sh.entry { ServerEntry(w.sh, c, i, x, DepartedEntry(w), r.0, r.1); }
    case ChildDo(x) =>
    case DaemonDo(x) =>
    case WasmDo(x) => WasmEntry(w.sh, c, i, x, IsReady(w, c), IsWritten(w, c), r.0, r.1);
  }

  lemma OthersEntry(w: World, s: Step, w': World)
    requires Next(w, s) == Some(w') && !s.ProcessDo?
    ensures w'.sh.entry == w.sh.entry || w'.sh.entry.None?
  {
  }

  // ---- updates ----

  /** How far the tests for the file have been made. */
  predicate Checked(c: Create, done: set<ProcessStep>) {
    && (c.server.SrvTemp? || c.server.SrvRename? || c.published >= 1 ==> ServerDo(CheckOk) in done)
    && (c.wasm.WsmTemp? || c.wasm.WsmRename? || c.published >= 2 ==> WasmDo(UpdateCheck) in done)
  }

  /** A process that failed while the directory was its own to remove is removing it, has
      ended that, or was killed. */
  predicate CleansUp(c: Create, done: set<ProcessStep>) {
    && (ServerDo(ServerFails(true)) in done || ServerDo(ServerFails(false)) in done || ServerDo(ReadFail) in done ==>
          c.server.SrvClean? || (c.server.SrvExit? && (ServerDo(CleanDone) in done || ServerDo(CleanFails) in done || ServerDo(ServerDies) in done)))
    && (ChildDo(ChildFails) in done ==>
          c.child.KidClean? || (c.child.KidExit? && (ChildDo(ChildCleaned) in done || ChildDo(ChildDies) in done)))
    && (DaemonDo(ConsoleFails) in done ==>
          c.daemon.DmnClean? || (c.daemon.DmnExit? && (DaemonDo(DaemonCleaned) in done || DaemonDo(DaemonDies) in done)))
  }

  lemma ServerCleansUp(sh: Shared, c: Create, i: nat, s: ServerStep, gone: set<nat>, sh': Shared, c': Create, done: set<ProcessStep>)
    requires FamilyInv(c) && CleansUp(c, done) && ServerNext(sh, c, i, s, gone) == Some((sh', c'))
    ensures CleansUp(c', done + {ServerDo(s)})
  {
  }

  lemma ChildCleansUp(c: Create, s: ChildStep, c': Create, done: set<ProcessStep>)
    requires FamilyInv(c) && CleansUp(c, done) && ChildNext(c, s) == Some(c')
    ensures CleansUp(c', done + {ChildDo(s)})
  {
  }

  lemma DaemonCleansUp(c: Create, s: DaemonStep, c': Create, done: set<ProcessStep>)
    requires CleansUp(c, done) && DaemonNext(c, s) == Some(c')
    ensures CleansUp(c', done + {DaemonDo(s)})
  {
  }

  lemma ProcessCleansUp(w: World, i: nat, p: ProcessStep, done: set<ProcessStep>)
    requires i < |w.creates| && CreateInv(w.creates[i]) && CleansUp(w.creates[i], done) && ProcessNext(w, i, p).Some?
    ensures CleansUp(ProcessNext(w, i, p).value.1, done + {p})
  {
    var c, r := w.creates[i], ProcessNext(w, i, p).value;
    match p
    case ServerDo(x) => ServerCleansUp(w.sh, c, i, x, DepartedEntry(w), r.0, r.1, done);
    case ChildDo(x) => ChildCleansUp(c, x, r.1, done);
    case DaemonDo(x) => DaemonCleansUp(c, x, r.1, done);
    case WasmDo(x) => WasmLeaves(w.sh, c, i, x, IsReady(w, c), IsWritten(w, c), r.0, r.1);
                      WasmLeavesParents(w.sh, c, i, x, IsReady(w, c), IsWritten(w, c), r.0, r.1);
  }

  lemma WasmLeavesParents(sh: Shared, c: Create, i: nat, s: WasmStep, ready: bool, writers: bool, sh': Shared, c': Create)
    requires WasmNext(sh, c, i, s, ready, writers) == Some((sh', c'))
    ensures c'.server == c.server && c'.child == c.child
  {
  }

  lemma ServerChecked(sh: Shared, c: Create, i: nat, s: ServerStep, gone: set<nat>, sh': Shared, c': Create, done: set<ProcessStep>)
    requires CreateInv(c) && Checked(c, done) && ServerNext(sh, c, i, s, gone) == Some((sh', c'))
    ensures Checked(c', done + {ServerDo(s)})
  {
  }

  lemma WasmChecked(sh: Shared, c: Create, i: nat, s: WasmStep, ready: bool, writers: bool, sh': Shared, c': Create, done: set<ProcessStep>)
    requires CreateInv(c) && Checked(c, done) && WasmNext(sh, c, i, s, ready, writers) == Some((sh', c'))
    ensures Checked(c', done + {WasmDo(s)})
  {
  }

  lemma ProcessChecked(w: World, i: nat, p: ProcessStep, done: set<ProcessStep>)
    requires i < |w.creates| && CreateInv(w.creates[i]) && Checked(w.creates[i], done) && ProcessNext(w, i, p).Some?
    ensures Checked(ProcessNext(w, i, p).value.1, done + {p})
  {
    var c, r := w.creates[i], ProcessNext(w, i, p).value;
    match p
    case ServerDo(x) => ServerChecked(w.sh, c, i, x, DepartedEntry(w), r.0, r.1, done);
    case ChildDo(x) =>
    case DaemonDo(x) =>
    case WasmDo(x) => WasmChecked(w.sh, c, i, x, IsReady(w, c), IsWritten(w, c), r.0, r.1, done);
  }

  ghost predicate CheckedAt(w: World, i: nat, done: set<ProcessStep>) {
    if i < |w.creates| then Checked(w.creates[i], done) && CleansUp(w.creates[i], done) else done == {}
  }

  lemma StepChecked(w: World, s: Step, w': World, i: nat, done: set<ProcessStep>)
    requires CreatesInv(w) && Next(w, s) == Some(w') && CheckedAt(w, i, done)
    ensures CheckedAt(w', i, done + (if s.ProcessDo? && s.i == i then {s.process} else {}))
  {
    if s.ProcessDo? && s.i == i {
      ProcessStepped(w, i, s.process, w');
      ProcessChecked(w, i, s.process, done);
      ProcessCleansUp(w, i, s.process, done);
    } else {
      assert done + {} == done;
      OthersKeep(w, s, w', i);
    }
  }

  lemma {:induction false} RunChecked(ws: seq<World>, steps: seq<Step>, k: nat, i: nat)
    requires IsRun(ws, steps) && k < |ws|
    ensures CheckedAt(ws[k], i, Done(steps, k, i))
  {
    if k > 0 {
      RunChecked(ws, steps, k - 1, i);
      RunInv(ws, steps, k - 1);
      DoneGrows(steps, k - 1, i);
      StepChecked(ws[k - 1], steps[k - 1], ws[k - 1 + 1], i, Done(steps, k - 1, i));
    }
  }

  lemma TookStep(steps: seq<Step>, k: nat, i: nat, p: ProcessStep) returns (m: nat)
    requires k <= |steps| && p in Done(steps, k, i)
    ensures m < k && steps[m] == ProcessDo(i, p)
  {
    m :| 0 <= m < k && steps[m].ProcessDo? && steps[m].i == i && steps[m].process == p;
  }

  /** A create publishes its first version only after having seen no `state.json`, and a
      further one only after having seen one: an update never makes up a file that was not
      there when it looked. */
  lemma PublishedAfterCheck(ws: seq<World>, steps: seq<Step>, k: nat, i: nat)
    requires IsRun(ws, steps) && k < |ws| && i < |ws[k].creates|
    ensures ws[k].creates[i].published >= 1 ==>
              exists m :: 0 <= m < k && steps[m] == ProcessDo(i, ServerDo(CheckOk)) && ws[m].sh.state.None?
    ensures ws[k].creates[i].published >= 2 ==>
              exists m :: 0 <= m < k && steps[m] == ProcessDo(i, WasmDo(UpdateCheck)) && ws[m].sh.state.Some?
  {
    RunChecked(ws, steps, k, i);
    if ws[k].creates[i].published >= 1 {
      var m := TookStep(steps, k, i, ServerDo(CheckOk));
      assert Next(ws[m], steps[m]) == Some(ws[m + 1]);
    }
    if ws[k].creates[i].published >= 2 {
      var m := TookStep(steps, k, i, WasmDo(UpdateCheck));
      assert Next(ws[m], steps[m]) == Some(ws[m + 1]);
    }
  }

  /** In every run, a server, child or daemon whose failure leaves the directory to it is
      removing it, has ended the removal, or was killed. */
  lemma FailureCleansUp(ws: seq<World>, steps: seq<Step>, k: nat, i: nat)
    requires IsRun(ws, steps) && k < |ws| && i < |ws[k].creates|
    ensures var c, done := ws[k].creates[i], Done(steps, k, i);
            && (ServerDo(ServerFails(true)) in done || ServerDo(ServerFails(false)) in done || ServerDo(ReadFail) in done ==>
                  || c.server.SrvClean? || ServerDo(CleanDone) in done || ServerDo(CleanFails) in done || ServerDo(ServerDies) in done)
            && (ChildDo(ChildFails) in done ==> c.child.KidClean? || ChildDo(ChildCleaned) in done || ChildDo(ChildDies) in done)
            && (DaemonDo(ConsoleFails) in done ==>
                  c.daemon.DmnClean? || DaemonDo(DaemonCleaned) in done || DaemonDo(DaemonDies) in done)
  {
    RunChecked(ws, steps, k, i);
  }

  // ---- the gate ----

  /** The read that opens the gate: of a byte; of nothing, with no start holding the FIFO
      open; or an interrupted one. */
  ghost predicate GateRead(w: World, c: Create, s: WasmStep) {
    && c.fifo.Some?
    && (s.ReadByte? || s.ReadNothing? ==> c.fifo.value < |w.sh.fifos|)
    && (s.ReadByte? ==> w.sh.fifos[c.fifo.value].bytes > 0)
    && (s.ReadNothing? ==> w.sh.fifos[c.fifo.value].bytes == 0 && NobodyHolds(w, c.fifo.value))
  }

  ghost predicate NobodyHolds(w: World, f: nat) {
    forall d :: 0 <= d < |w.calls| && w.calls[d].Start? && w.calls[d].fd == Some(f) ==>
      w.calls[d].st.StDone? || w.calls[d].st.StFailed?
  }

  lemma HeldByWriter(w: World, f: nat)
    requires CallsInv(w) && !HasWriter(w, f)
    ensures NobodyHolds(w, f)
  {
    forall d | 0 <= d < |w.calls| && w.calls[d].Start? && w.calls[d].fd == Some(f)
      ensures w.calls[d].st.StDone? || w.calls[d].st.StFailed?
    {
      assert CallInv(w.calls[d]) && !HoldsOpen(w.calls[d], f);
    }
  }

  lemma GateMoment(w: World, i: nat, s: WasmStep, w': World)
    requires Inv(w) && Next(w, ProcessDo(i, WasmDo(s))) == Some(w') && (s.ReadByte? || s.ReadNothing? || s.ReadInterrupt?)
    ensures i < |w.creates| && GateRead(w, w.creates[i], s)
  {
    ProcessStepped(w, i, WasmDo(s), w');
    var c := w.creates[i];
    assert CreateInv(c);
    if s.ReadNothing? { HeldByWriter(w, c.fifo.value); }
  }

  ghost predicate GateReadAt(ws: seq<World>, steps: seq<Step>, m: nat, i: nat)
    requires m < |steps| < |ws|
  {
    && steps[m].ProcessDo? && steps[m].i == i && steps[m].process.WasmDo?
    && (steps[m].process.wasm.ReadByte? || steps[m].process.wasm.ReadNothing? || steps[m].process.wasm.ReadInterrupt?)
    && i < |ws[m].creates| && GateRead(ws[m], ws[m].creates[i], steps[m].process.wasm)
  }

  /** In every run, a create that is running or has stopped passed its gate by such a read. */
  lemma GatePassed(ws: seq<World>, steps: seq<Step>, k: nat, i: nat)
    requires IsRun(ws, steps) && k < |ws| && i < |ws[k].creates| && ws[k].creates[i].mem.status in {Running, Stopped}
    ensures exists m :: 0 <= m < k && GateReadAt(ws, steps, m, i)
  {
    RunTraced(ws, steps, k, i);
    var now, done := ws[k].creates[i].mem.started, Done(steps, k, i);
    var s :=
      if WasmDo(ReadByte(now)) in done then ReadByte(now)
      else if WasmDo(ReadNothing(now)) in done then ReadNothing(now) else ReadInterrupt(now);
    var m := TookStep(steps, k, i, WasmDo(s));
    RunInv(ws, steps, m);
    assert Next(ws[m], steps[m]) == Some(ws[m + 1]);
    GateMoment(ws[m], i, s, ws[m + 1]);
    assert GateReadAt(ws, steps, m, i);
  }

  // ---- what may go wrong ----

  ghost predicate May(w: World, i: nat, p: ProcessStep) { Next(w, ProcessDo(i, p)).Some? }

  /** Wherever a create has come to, each of its processes that is alive may be killed there,
      and each call it is about to make may fail. */
  lemma AnyProcessMayFail(w: World, i: nat, tidy: bool)
    requires i < |w.creates|
    ensures var c := w.creates[i];
            && (!c.server.SrvExit? ==> May(w, i, ServerDo(ServerDies)))
            && (c.server in {SrvLoad, SrvCheck, SrvTemp, SrvRename, SrvMkfifo, SrvOpen, SrvFork} ==>
                  May(w, i, ServerDo(ServerFails(tidy))))
            && (c.server == SrvRead ==> May(w, i, ServerDo(ReadEintr)) && May(w, i, ServerDo(ReadFail)))
            && (c.server.SrvClean? ==> May(w, i, ServerDo(CleanFails)))
            && (c.child in {KidRun, KidClean} ==> May(w, i, ChildDo(ChildDies)))
            && (c.child == KidRun ==> May(w, i, ChildDo(ChildFails)))
  {
  }

  lemma AnyDaemonMayFail(w: World, i: nat, tidy: bool)
    requires i < |w.creates|
    ensures var c := w.creates[i];
            && (c.daemon != DmnNone && c.daemon != DmnExit ==> May(w, i, DaemonDo(DaemonDies)))
            && (c.daemon == DmnStart ==> May(w, i, DaemonDo(ConsoleFails)) && May(w, i, DaemonDo(RunFails)))
            && (c.daemon == DmnReady ==> May(w, i, DaemonDo(ForkWasmFails)))
            && (c.wasm != WsmNone && c.wasm != WsmExit ==> May(w, i, WasmDo(WasmDies)))
            && (c.wasm in {WsmPidFile, WsmSetup, WsmCheck, WsmTemp, WsmRename, WsmSelect, WsmRead} ==>
                  May(w, i, WasmDo(WasmFails(tidy))))
  {
  }

  /** Every call that has not ended may fail. */
  lemma AnyCallMayFail(w: World, c: nat)
    requires c < |w.calls|
    ensures var call := w.calls[c];
            && (call.Start? && call.st != StDone && call.st != StFailed ==> Next(w, CallDo(c, StartFails)).Some?)
            && (call.Kill? && (call.kl == KlLoad || call.kl == KlSend) ==> Next(w, CallDo(c, KillFails)).Some?)
            && (call.Delete? && call.dl != DlDone ==> Next(w, CallDo(c, DeleteEnds)).Some?)
  {
  }
}
