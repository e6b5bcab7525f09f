/** What failing and succeeding creates leave behind: when the directory is gone, that it
    can be removed, and what a success at the end of the pipe means. */
module LifecycleRemoval {
  import opened Wrappers
  import opened Lifecycle
  import opened LifecycleInv
  import opened LifecycleShared
  import opened LifecycleTheorems
  import opened LifecycleSingle

  // ---- a finished removal ----

  predicate Finishes(s: Step, i: nat) { s == ProcessDo(i, ServerDo(CleanDone)) }

  lemma DoneRemoves(w: World, i: nat, w': World)
    requires Next(w, ProcessDo(i, ServerDo(CleanDone))) == Some(w')
    ensures !w'.sh.dir
  {
  }

  /** Once a server has finished its removal, the directory and everything in it are gone
      until a new create begins. */
  lemma FinishedRemoval(ws: seq<World>, steps: seq<Step>, m: nat, k: nat, i: nat)
    requires IsRun(ws, steps) && m < k < |ws| && Finishes(steps[m], i)
    requires forall n :: m < n < k ==> !steps[n].Begin?
    ensures !ws[k].sh.dir && ws[k].sh.state.None? && ws[k].sh.entry.None? && ws[k].sh.temps == {}
  {
    DoneRemoves(ws[m], i, ws[m + 1]);
    OnlyCreateRevives(ws, steps, m + 1, k);
    RunInv(ws, steps, k);
  }

  predicate HasRemoved(w: World, i: nat) { i < |w.creates| && w.creates[i].server.SrvExit? && w.creates[i].server.verdict.Removed? }

  /** Only a finished removal lets a server say so. */
  lemma ServerSaysRemoved(sh: Shared, c: Create, i: nat, s: ServerStep, gone: set<nat>, sh': Shared, c': Create)
    requires ServerNext(sh, c, i, s, gone) == Some((sh', c'))
    ensures c'.server.SrvExit? && c'.server.verdict.Removed? ==> s.CleanDone?
  {
  }

  lemma StepSaysRemoved(w: World, s: Step, w': World, i: nat)
    requires Next(w, s) == Some(w') && HasRemoved(w', i) && !HasRemoved(w, i)
    ensures Finishes(s, i)
  {
    match s
    case Begin(_, _) =>
    case ProcessDo(j, p) =>
      ProcessStepped(w, j, p, w');
      if j == i { ProcessSaysRemoved(w, i, p); }
    case Remove(_, _) =>
    case NewCall(_) =>
    case CallDo(_, _) =>
  }

  lemma ProcessSaysRemoved(w: World, i: nat, p: ProcessStep)
    requires i < |w.creates| && ProcessNext(w, i, p).Some? && !HasRemoved(w, i)
    ensures var c := ProcessNext(w, i, p).value.1; c.server.SrvExit? && c.server.verdict.Removed? ==> p == ServerDo(CleanDone)
  {
    var c, r := w.creates[i], ProcessNext(w, i, p).value;
    match p
    case ServerDo(x) => ServerSaysRemoved(w.sh, c, i, x, DepartedEntry(w), r.0, r.1);
    case ChildDo(_) =>
    case DaemonDo(_) =>
    case WasmDo(x) => WasmMakesNoFifo(w.sh, c, i, x, IsReady(w, c), IsWritten(w, c), r.0, r.1);
  }

  /** A server that reports its directory removed has had a moment when it was. */
  lemma {:induction false} RemovedMeansGone(ws: seq<World>, steps: seq<Step>, k: nat, i: nat)
    requires IsRun(ws, steps) && k < |ws| && HasRemoved(ws[k], i)
    ensures exists m :: 0 <= m < k && Finishes(steps[m], i) && !ws[m + 1].sh.dir
  {
    if k > 0 {
      if HasRemoved(ws[k - 1], i) {
        RemovedMeansGone(ws, steps, k - 1, i);
      } else {
        StepSaysRemoved(ws[k - 1], steps[k - 1], ws[k - 1 + 1], i);
        DoneRemoves(ws[k - 1], i, ws[k - 1 + 1]);
      }
    }
  }

  /** A directory that is gone comes back only with one more create. */
  ghost predicate GoneOrMore(w: World, w': World) {
    |w.creates| <= |w'.creates| && (!w.sh.dir ==> !w'.sh.dir || |w.creates| < |w'.creates|)
  }

  lemma StepGoneOrMore(w: World, s: Step, w': World)
    requires SharedInv(w.sh) && Next(w, s) == Some(w')
    ensures GoneOrMore(w, w')
  {
    CreatesOnlyGrow(w, s, w');
    if !w.sh.dir && !s.Begin? { StepFromGone(w, s, w'); }
  }

  lemma {:induction false} GoneAlongOne(ws: seq<World>, j: nat, k: nat)
    requires j <= k < |ws| && forall m :: 0 <= m < |ws| - 1 ==> GoneOrMore(ws[m], ws[m + 1])
    ensures |ws[j].creates| <= |ws[k].creates|
    ensures !ws[j].sh.dir && |ws[j].creates| == |ws[k].creates| ==> !ws[k].sh.dir
    decreases k - j
  {
    if j < k {
      GoneAlongOne(ws, j, k - 1);
      assert GoneOrMore(ws[k - 1], ws[k - 1 + 1]);
    }
  }

  lemma FinishedStep(w: World, i: nat, w': World)
    requires Next(w, ProcessDo(i, ServerDo(CleanDone))) == Some(w')
    ensures i < |w'.creates|
  {
  }

  /** With one create, a server that reports its directory removed has it removed for good. */
  lemma RemovedForGood(ws: seq<World>, steps: seq<Step>, k: nat)
    requires IsRun(ws, steps) && k < |ws| && |ws[k].creates| == 1 && HasRemoved(ws[k], 0)
    ensures !ws[k].sh.dir
  {
    RemovedMeansGone(ws, steps, k, 0);
    var m :| 0 <= m < k && Finishes(steps[m], 0) && !ws[m + 1].sh.dir;
    FinishedStep(ws[m], 0, ws[m + 1]);
    forall m | 0 <= m < |ws| - 1 ensures GoneOrMore(ws[m], ws[m + 1]) {
      RunInv(ws, steps, m);
      StepGoneOrMore(ws[m], steps[m], ws[m + 1]);
    }
    GoneAlongOne(ws, m + 1, k);
  }

  // ---- the verdict of create ----

  /** In every interleaving of the two writers of the pipe: when the first code the server
      read was zero the module had been instantiated, and create succeeds. When it was not
      zero, no wasm process is left or will come, and the server is removing the directory,
      has removed it, has given up on an error, or was killed; it says removed only if there
      was a moment when the directory was gone. The only other successes are the end of the
      pipe, which means that every process of the create is gone, and an interrupted read. A
      version beyond creating means that the module was instantiated, whatever the server
      said. */
  lemma CreateVerdict(ws: seq<World>, steps: seq<Step>, k: nat, i: nat)
    requires IsRun(ws, steps) && k < |ws| && i < |ws[k].creates|
    ensures var c := ws[k].creates[i];
            && (c.server == SrvExit(ReadZero) ==> c.codeRead == Some(0) && c.instantiated)
            && (ReportsSuccess(c) && c.server != SrvExit(ReadZero) ==> c.codeRead.None?)
            && (c.server == SrvExit(ReadEnd) ==> Dead(c))
            && (c.codeRead.Some? && c.codeRead.value != 0 ==>
                  (FailsFor(c.server, NonZero) || c.server == SrvExit(ServerKilled)) && Quiet(c))
            && (c.published >= 2 ==> c.instantiated)
    ensures HasRemoved(ws[k], i) ==> exists m :: 0 <= m < k && Finishes(steps[m], i) && !ws[m + 1].sh.dir
    ensures HasRemoved(ws[k], i) && |ws[k].creates| == 1 ==> !ws[k].sh.dir
  {
    RunInv(ws, steps, k);
    assert CreateInv(ws[k].creates[i]);
    if HasRemoved(ws[k], i) {
      RemovedMeansGone(ws, steps, k, i);
      if |ws[k].creates| == 1 { RemovedForGood(ws, steps, k); }
    }
  }

  // ---- nothing is put back ----

  /** What there is to remove. */
  function Items(sh: Shared): set<Item> {
    (if sh.state.Some? then {TheState} else {}) + (if sh.entry.Some? then {TheFifo} else {})
    + (set o | o in sh.temps :: TheTemp(o)) + (if sh.dir then {TheDirectory} else {})
  }

  predicate Shrinks(sh: Shared, sh': Shared) {
    && (sh'.state.Some? ==> sh.state.Some?) && (sh'.entry.Some? ==> sh.entry.Some?)
    && sh'.temps <= sh.temps && (sh'.dir ==> sh.dir)
  }

  lemma FewerItems(sh: Shared, sh': Shared)
    requires Shrinks(sh, sh')
    ensures Items(sh') <= Items(sh)
  {
  }

  lemma RetiredServerShrinks(sh: Shared, c: Create, i: nat, s: ServerStep, gone: set<nat>, sh': Shared, c': Create)
    requires CreateInv(c) && Retired(c) && ServerNext(sh, c, i, s, gone) == Some((sh', c'))
    ensures Shrinks(sh, sh')
  {
  }

  lemma RetiredWasmShrinks(sh: Shared, c: Create, i: nat, s: WasmStep, ready: bool, writers: bool, sh': Shared, c': Create)
    requires CreateInv(c) && Retired(c) && WasmNext(sh, c, i, s, ready, writers) == Some((sh', c'))
    ensures Shrinks(sh, sh')
  {
  }

  lemma RetiredShrinks(w: World, i: nat, p: ProcessStep)
    requires i < |w.creates| && CreateInv(w.creates[i]) && Retired(w.creates[i]) && ProcessNext(w, i, p).Some?
    ensures Shrinks(w.sh, ProcessNext(w, i, p).value.0)
  {
    var c, r := w.creates[i], ProcessNext(w, i, p).value;
    match p
    case ServerDo(x) => RetiredServerShrinks(w.sh, c, i, x, DepartedEntry(w), r.0, r.1);
    case ChildDo(_) =>
    case DaemonDo(_) =>
    case WasmDo(x) => RetiredWasmShrinks(w.sh, c, i, x, IsReady(w, c), IsWritten(w, c), r.0, r.1);
  }

  /** After a non-zero code no process of that create puts anything back into the directory,
      however the removal is interleaved. */
  lemma NothingPutBack(ws: seq<World>, steps: seq<Step>, j: nat, k: nat, i: nat, p: ProcessStep)
    requires IsRun(ws, steps) && j <= k < |steps| && i < |ws[j].creates|
    requires ws[j].creates[i].codeRead.Some? && ws[j].creates[i].codeRead.value != 0
    requires steps[k] == ProcessDo(i, p)
    ensures Items(ws[k + 1].sh) <= Items(ws[k].sh)
  {
    NothingWrittenAfterNonZero(ws, steps, j, k, i);
    RunInv(ws, steps, k);
    assert Next(ws[k], steps[k]) == Some(ws[k + 1]);
    RetiredStepShrinks(ws[k], i, p, ws[k + 1]);
  }

  lemma RetiredStepShrinks(w: World, i: nat, p: ProcessStep, w': World)
    requires CreatesInv(w) && i < |w.creates| && Retired(w.creates[i]) && Next(w, ProcessDo(i, p)) == Some(w')
    ensures Items(w'.sh) <= Items(w.sh)
  {
    RetiredShrinks(w, i, p);
    FewerItems(w.sh, w'.sh);
  }

  lemma OthersShrink(w: World, s: Step, w': World)
    requires Next(w, s) == Some(w') && !s.ProcessDo? && (s.Begin? ==> w.sh.dir)
    ensures Shrinks(w.sh, w'.sh)
  {
  }

  /** What a step does to a container whose create has retired. */
  ghost predicate KeepsShrinking(w: World, w': World) {
    Single(w') && w.creates != [] && Retired(w.creates[0]) ==>
      w'.creates != [] && Retired(w'.creates[0]) && Single(w) && Items(w'.sh) <= Items(w.sh)
  }

  lemma StepShrinks(w: World, s: Step, w': World)
    requires Inv(w) && Next(w, s) == Some(w')
    ensures KeepsShrinking(w, w')
  {
    if Single(w') && w.creates != [] && Retired(w.creates[0]) {
      SingleBackwards(w, s, w');
      RetiredStep(w, s, w', 0);
      if s.ProcessDo? { RetiredShrinks(w, 0, s.process); } else { OthersShrink(w, s, w'); }
      FewerItems(w.sh, w'.sh);
    }
  }

  lemma {:induction false} ShrinkingAlong(ws: seq<World>, j: nat, k: nat)
    requires j <= k < |ws| && forall m :: 0 <= m < |ws| - 1 ==> KeepsShrinking(ws[m], ws[m + 1])
    requires forall m :: j <= m <= k ==> Single(ws[m])
    requires ws[j].creates != [] && Retired(ws[j].creates[0])
    ensures ws[k].creates != [] && Retired(ws[k].creates[0]) && Items(ws[k].sh) <= Items(ws[j].sh)
    decreases k - j
  {
    if j < k {
      ShrinkingAlong(ws, j, k - 1);
      assert KeepsShrinking(ws[k - 1], ws[k - 1 + 1]);
    }
  }

  /** For one create: from the moment a non-zero code is read, the directory only empties,
      whatever starts and kills do meanwhile. */
  lemma OnlyEmpties(ws: seq<World>, steps: seq<Step>, j: nat, k: nat)
    requires IsRun(ws, steps) && j <= k < |ws| && Single(ws[k]) && ws[j].creates != []
    requires ws[j].creates[0].codeRead.Some? && ws[j].creates[0].codeRead.value != 0
    ensures Items(ws[k].sh) <= Items(ws[j].sh)
  {
    NothingWrittenAfterNonZero(ws, steps, j, j, 0);
    forall m | 0 <= m < |ws| - 1 ensures KeepsShrinking(ws[m], ws[m + 1]) {
      RunInv(ws, steps, m);
      StepShrinks(ws[m], steps[m], ws[m + 1]);
    }
    forall m | j <= m <= k ensures Single(ws[m]) { AllSingle(ws, steps, m, k); }
    ShrinkingAlong(ws, j, k);
  }

  // ---- the removal can be completed ----

  /** A path on which the server of create number i does nothing but remove. */
  ghost predicate OnlyRemoves(steps: seq<Step>, i: nat) {
    forall k :: 0 <= k < |steps| ==> (steps[k].Remove? && steps[k].who == ServerR(i)) || Finishes(steps[k], i)
  }

  ghost predicate Completes(ws: seq<World>, steps: seq<Step>, w: World, i: nat, cause: Cause) {
    && IsPath(ws, steps) && OnlyRemoves(steps, i) && ws[0] == w
    && i < |ws[|ws| - 1].creates| && ws[|ws| - 1].creates[i].server == SrvExit(Removed(cause))
    && !ws[|ws| - 1].sh.dir && ws[|ws| - 1].sh.state.None? && ws[|ws| - 1].sh.entry.None?
  }

  ghost predicate CanComplete(w: World, i: nat, cause: Cause) {
    exists ws: seq<World>, steps: seq<Step> :: Completes(ws, steps, w, i, cause)
  }

  lemma CompleteAfter(w: World, s: Step, w': World, i: nat, cause: Cause)
    requires Next(w, s) == Some(w') && CanComplete(w', i, cause)
    requires (s.Remove? && s.who == ServerR(i)) || Finishes(s, i)
    ensures CanComplete(w, i, cause)
  {
    var ws, steps :| Completes(ws, steps, w', i, cause);
    var vs, ts := [w] + ws, [s] + steps;
    forall k | 0 <= k < |ts|
      ensures Next(vs[k], ts[k]) == Some(vs[k + 1]) && ((ts[k].Remove? && ts[k].who == ServerR(i)) || Finishes(ts[k], i)) {
      if k > 0 { assert ts[k] == steps[k - 1] && vs[k] == ws[k - 1] && vs[k + 1] == ws[k]; }
    }
    assert vs[|vs| - 1] == ws[|ws| - 1];
    assert Completes(vs, ts, w, i, cause);
  }

  lemma EmptyCompletes(w: World, i: nat)
    requires i < |w.creates| && w.creates[i].server.SrvClean?
    requires w.sh.state.None? && w.sh.entry.None? && w.sh.temps == {}
    ensures CanComplete(w, i, w.creates[i].server.cause)
  {
    var cause := w.creates[i].server.cause;
    var w' := SetCreate(w, i, w.sh.(dir := false), w.creates[i].(server := SrvExit(Removed(cause))));
    assert Next(w, ProcessDo(i, ServerDo(CleanDone))) == Some(w');
    assert Completes([w'], [], w', i, cause);
    CompleteAfter(w, ProcessDo(i, ServerDo(CleanDone)), w', i, cause);
  }

  /** Whatever lies in the directory, a cleaning server can take away one thing after the
      other until the directory itself is gone. */
  lemma {:induction false} RemovalCanFinish(w: World, i: nat)
    requires i < |w.creates| && w.creates[i].server.SrvClean?
    ensures CanComplete(w, i, w.creates[i].server.cause)
    decreases |w.sh.temps|, w.sh.state.Some?, w.sh.entry.Some?
  {
    if o :| o in w.sh.temps {
      RemoveOne(w, i, TheTemp(o), w.sh.(temps := w.sh.temps - {o}));
    } else if w.sh.state.Some? {
      RemoveOne(w, i, TheState, w.sh.(state := None));
    } else if w.sh.entry.Some? {
      RemoveOne(w, i, TheFifo, w.sh.(entry := None));
    } else {
      EmptyCompletes(w, i);
    }
  }

  lemma {:induction false} RemoveOne(w: World, i: nat, item: Item, sh: Shared)
    requires i < |w.creates| && w.creates[i].server.SrvClean? && RemoveNext(w.sh, item) == Some(sh)
    requires || |sh.temps| < |w.sh.temps|
             || (sh.temps == w.sh.temps && sh.state.None? && w.sh.state.Some?)
             || (sh.temps == w.sh.temps && sh.state == w.sh.state && sh.entry.None? && w.sh.entry.Some?)
    ensures CanComplete(w, i, w.creates[i].server.cause)
    decreases |w.sh.temps|, w.sh.state.Some?, w.sh.entry.Some?, 0
  {
    var w' := w.(sh := sh);
    assert Next(w, Remove(ServerR(i), item)) == Some(w');
    RemovalCanFinish(w', i);
    CompleteAfter(w, Remove(ServerR(i), item), w', i, w.creates[i].server.cause);
  }

  // ---- a success at the end of the pipe ----

  lemma DeadIsRetired(c: Create)
    requires CreateInv(c) && Dead(c)
    ensures Retired(c) && !ChildAlive(c) && !DaemonAlive(c) && !WasmAlive(c)
  {
  }

  ghost predicate StaysDead(w: World, w': World, i: nat) {
    i < |w.creates| && Dead(w.creates[i]) ==> i < |w'.creates| && w'.creates[i] == w.creates[i]
  }

  lemma DeadServer(sh: Shared, c: Create, i: nat, s: ServerStep, gone: set<nat>)
    requires Dead(c)
    ensures ServerNext(sh, c, i, s, gone).None?
  {
  }

  lemma DeadOthers(sh: Shared, c: Create, i: nat, s: ChildStep, d: DaemonStep, x: WasmStep, ready: bool, writers: bool)
    requires Dead(c)
    ensures ChildNext(c, s).None? && DaemonNext(c, d).None? && WasmNext(sh, c, i, x, ready, writers).None?
  {
  }

  lemma StepStaysDead(w: World, s: Step, w': World, i: nat)
    requires Next(w, s) == Some(w')
    ensures StaysDead(w, w', i)
  {
    if s.ProcessDo? && s.i == i && i < |w.creates| && Dead(w.creates[i]) {
      var c := w.creates[i];
      match s.process
      case ServerDo(x) => DeadServer(w.sh, c, i, x, DepartedEntry(w));
      case ChildDo(x) => DeadOthers(w.sh, c, i, x, Tell, Report, false, false);
      case DaemonDo(x) => DeadOthers(w.sh, c, i, Detach, x, Report, false, false);
      case WasmDo(x) => DeadOthers(w.sh, c, i, Detach, Tell, x, IsReady(w, c), IsWritten(w, c));
    }
  }

  lemma {:induction false} DeadAlong(ws: seq<World>, j: nat, k: nat, i: nat)
    requires j <= k < |ws| && forall m :: 0 <= m < |ws| - 1 ==> StaysDead(ws[m], ws[m + 1], i)
    requires i < |ws[j].creates| && Dead(ws[j].creates[i])
    ensures i < |ws[k].creates| && ws[k].creates[i] == ws[j].creates[i]
    decreases k - j
  {
    if j < k {
      DeadAlong(ws, j, k - 1, i);
      assert StaysDead(ws[k - 1], ws[k - 1 + 1], i);
    }
  }

  /** A create that succeeded at the end of the pipe has no process left, and never does
      anything again: it will publish no version, and what it had published is all. */
  lemma EndOfPipe(ws: seq<World>, steps: seq<Step>, j: nat, k: nat, i: nat)
    requires IsRun(ws, steps) && j <= k < |ws| && i < |ws[j].creates| && ws[j].creates[i].server == SrvExit(ReadEnd)
    ensures i < |ws[k].creates| && ws[k].creates[i] == ws[j].creates[i]
    ensures var c := ws[k].creates[i]; Retired(c) && !ChildAlive(c) && !DaemonAlive(c) && !WasmAlive(c)
  {
    RunInv(ws, steps, j);
    assert CreateInv(ws[j].creates[i]);
    DeadIsRetired(ws[j].creates[i]);
    forall m | 0 <= m < |ws| - 1 ensures StaysDead(ws[m], ws[m + 1], i) { StepStaysDead(ws[m], steps[m], ws[m + 1], i); }
    DeadAlong(ws, j, k, i);
  }

  // ---- success without a module ----

  ghost predicate SucceedsBare(ws: seq<World>, steps: seq<Step>, w: World, i: nat) {
    && IsPath(ws, steps) && ws[0] == w && i < |ws[|ws| - 1].creates|
    && var c := ws[|ws| - 1].creates[i]; (c.server == SrvExit(ReadZero) || c.server == SrvExit(ReadEnd)) && !c.instantiated
  }

  ghost predicate CanSucceedBare(w: World, i: nat) {
    exists ws: seq<World>, steps: seq<Step> :: SucceedsBare(ws, steps, w, i)
  }

  /** The module is there, or a code that says it is not comes first, or it is too late for
      an uninterrupted success. */
  predicate Covered(c: Create) {
    || c.instantiated || (c.server.SrvRead? && c.pipe != []) || c.server.SrvClean?
    || (c.server.SrvExit? && c.server != SrvExit(ReadZero) && c.server != SrvExit(ReadEnd))
  }

  lemma ServerCovers(sh: Shared, c: Create, i: nat, s: ServerStep, gone: set<nat>, sh': Shared, c': Create)
    requires CreateInv(c) && Covered(c) && ServerNext(sh, c, i, s, gone) == Some((sh', c'))
    ensures Covered(c')
  {
    if c.server.SrvRead? && c.pipe != [] { assert CodeInv(c, c.pipe[0]); }
  }

  lemma WasmCovers(sh: Shared, c: Create, i: nat, s: WasmStep, ready: bool, writers: bool, sh': Shared, c': Create)
    requires Covered(c) && WasmNext(sh, c, i, s, ready, writers) == Some((sh', c'))
    ensures Covered(c')
  {
  }

  lemma ProcessCovers(w: World, i: nat, p: ProcessStep)
    requires i < |w.creates| && CreateInv(w.creates[i]) && Covered(w.creates[i]) && ProcessNext(w, i, p).Some?
    ensures Covered(ProcessNext(w, i, p).value.1)
  {
    var c, r := w.creates[i], ProcessNext(w, i, p).value;
    match p
    case ServerDo(x) => ServerCovers(w.sh, c, i, x, DepartedEntry(w), r.0, r.1);
    case ChildDo(_) =>
    case DaemonDo(_) =>
    case WasmDo(x) => WasmCovers(w.sh, c, i, x, IsReady(w, c), IsWritten(w, c), r.0, r.1);
  }

  ghost predicate CoveredIn(w: World, i: nat) {
    CreatesInv(w) && CallsInv(w) && i < |w.creates| && Covered(w.creates[i])
  }

  lemma StepCovers(w: World, s: Step, w': World, i: nat)
    requires CoveredIn(w, i) && Next(w, s) == Some(w')
    ensures CoveredIn(w', i)
  {
    StepExtends(w, s, w');
    match s
    case ProcessDo(j, p) =>
      ProcessStepped(w, j, p, w');
      if j == i { ProcessCovers(w, i, p); }
    case _ => CreatesOnlyGrow(w, s, w');
  }

  lemma {:induction false} CoveredAlong(ws: seq<World>, i: nat, k: nat)
    requires k < |ws| && CoveredIn(ws[0], i) && forall m :: 0 <= m < |ws| - 1 && CoveredIn(ws[m], i) ==> CoveredIn(ws[m + 1], i)
    ensures CoveredIn(ws[k], i)
  {
    if k > 0 {
      CoveredAlong(ws, i, k - 1);
      assert CoveredIn(ws[k - 1 + 1], i);
    }
  }

  lemma NeverBare(ws: seq<World>, steps: seq<Step>, i: nat)
    requires IsPath(ws, steps) && CoveredIn(ws[0], i)
    ensures CoveredIn(ws[|ws| - 1], i)
  {
    forall m | 0 <= m < |ws| - 1 && CoveredIn(ws[m], i) ensures CoveredIn(ws[m + 1], i) { StepCovers(ws[m], steps[m], ws[m + 1], i); }
    CoveredAlong(ws, i, |ws| - 1);
  }

  lemma BareAfter(w: World, s: Step, w': World, i: nat)
    requires Next(w, s) == Some(w') && CanSucceedBare(w', i)
    ensures CanSucceedBare(w, i)
  {
    var ws, steps :| SucceedsBare(ws, steps, w', i);
    var vs, ts := [w] + ws, [s] + steps;
    forall k | 0 <= k < |ts| ensures Next(vs[k], ts[k]) == Some(vs[k + 1]) {
      if k > 0 { assert ts[k] == steps[k - 1] && vs[k] == ws[k - 1] && vs[k + 1] == ws[k]; }
    }
    assert vs[|vs| - 1] == ws[|ws| - 1];
    assert SucceedsBare(vs, ts, w, i);
  }

  /** A server that reads an empty pipe of a create without a module. */
  predicate Bare(w: World, i: nat) {
    i < |w.creates| && FamilyInv(w.creates[i]) && w.creates[i].server.SrvRead? && !w.creates[i].instantiated && w.creates[i].pipe == []
  }

  lemma BareDaemonDies(w: World, i: nat)
    requires Bare(w, i) && !ChildAlive(w.creates[i])
    ensures CanSucceedBare(w, i)
  {
    var c := w.creates[i];
    if DaemonAlive(c) {
      var w' := SetCreate(w, i, w.sh, c.(daemon := DmnExit));
      assert Next(w, ProcessDo(i, DaemonDo(DaemonDies))) == Some(w');
      BareEnds(w', i);
      BareAfter(w, ProcessDo(i, DaemonDo(DaemonDies)), w', i);
    } else {
      BareEnds(w, i);
    }
  }

  lemma BareEnds(w: World, i: nat)
    requires i < |w.creates| && w.creates[i].server.SrvRead? && !w.creates[i].instantiated && w.creates[i].pipe == []
    requires !ChildAlive(w.creates[i]) && !DaemonAlive(w.creates[i]) && w.creates[i].wasm.WsmNone?
    ensures CanSucceedBare(w, i)
  {
    var w' := SetCreate(w, i, w.sh, w.creates[i].(server := SrvExit(ReadEnd)));
    assert Next(w, ProcessDo(i, ServerDo(ReadEof))) == Some(w');
    assert SucceedsBare([w'], [], w', i);
    BareAfter(w, ProcessDo(i, ServerDo(ReadEof)), w', i);
  }

  /** From a server about to read, an uninterrupted success without an instantiated module
      can still come if and only if there is no module yet and nothing in the pipe. */
  lemma BareSuccessExactly(w: World, i: nat)
    requires Inv(w) && i < |w.creates| && w.creates[i].server.SrvRead?
    ensures CanSucceedBare(w, i) <==> !w.creates[i].instantiated && w.creates[i].pipe == []
  {
    var c := w.creates[i];
    assert CreateInv(c);
    if c.instantiated || c.pipe != [] {
      forall ws: seq<World>, steps: seq<Step> | IsPath(ws, steps) && ws[0] == w ensures !SucceedsBare(ws, steps, w, i) {
        NeverBare(ws, steps, i);
      }
    } else if ChildAlive(c) {
      var w' := SetCreate(w, i, w.sh, c.(child := KidExit));
      assert Next(w, ProcessDo(i, ChildDo(ChildDies))) == Some(w');
      BareDaemonDies(w', i);
      BareAfter(w, ProcessDo(i, ChildDo(ChildDies)), w', i);
    } else {
      BareDaemonDies(w, i);
    }
  }
}
