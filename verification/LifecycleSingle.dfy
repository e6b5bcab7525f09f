/** The lifecycle of one container: one create, no delete, any number of starts and kills. */
module LifecycleSingle {
  import opened Wrappers
  import opened StateText
  import opened Lifecycle
  import opened LifecycleInv
  import opened LifecycleShared
  import opened LifecycleTheorems
  import opened LifecycleStory

  /** At most one create has begun and no delete was ever called. */
  ghost predicate Single(w: World) {
    |w.creates| <= 1 && forall c :: 0 <= c < |w.calls| ==> !w.calls[c].Delete?
  }

  function Published(w: World): nat { if w.creates == [] then 0 else w.creates[0].published }

  predicate BeforeFifo(s: Server) { s.SrvLoad? || s.SrvCheck? || s.SrvTemp? || s.SrvRename? || s.SrvMkfifo? }

  /** The file holds the last version published; a missing file means that no update is
      still to come, unless the server's read of the pipe failed. */
  ghost predicate SingleInv(w: World) {
    && (w.creates == [] ==> !w.sh.dir && w.sh.fifos == [])
    && (w.sh.state.Some? ==> Rank(w.sh.state.value.view.status) == Published(w))
    && |w.sh.fifos| <= 1
    && (w.creates != [] ==>
          && (BeforeFifo(w.creates[0].server) ==> w.sh.fifos == [])
          && (w.sh.state.None? && Published(w) > 0 && !w.creates[0].readFailed ==> Retired(w.creates[0])))
  }

  lemma SingleBackwards(w: World, s: Step, w': World)
    requires Next(w, s) == Some(w') && Single(w') && CallsInv(w)
    ensures Single(w)
  {
    forall c | 0 <= c < |w.calls| ensures !w.calls[c].Delete? {
      if s.CallDo? && s.c == c { CallKeeps(w, w.calls[c], s.what); }
      assert !w'.calls[c].Delete?;
    }
  }

  lemma ProcessMakesFifo(w: World, p: ProcessStep)
    requires |w.creates| == 1 && ProcessNext(w, 0, p).Some? && |w.sh.fifos| <= 1
    requires BeforeFifo(w.creates[0].server) ==> w.sh.fifos == []
    ensures var (sh, c) := ProcessNext(w, 0, p).value;
            |sh.fifos| <= 1 && (BeforeFifo(c.server) ==> sh.fifos == [])
  {
    var c, r := w.creates[0], ProcessNext(w, 0, p).value;
    match p
    case ServerDo(x) => ServerMakesFifo(w.sh, c, 0, x, DepartedEntry(w), r.0, r.1);
    case ChildDo(_) =>
    case DaemonDo(_) =>
    case WasmDo(x) => WasmMakesNoFifo(w.sh, c, 0, x, IsReady(w, c), IsWritten(w, c), r.0, r.1);
  }

  lemma ServerMakesFifo(sh: Shared, c: Create, i: nat, s: ServerStep, gone: set<nat>, sh': Shared, c': Create)
    requires ServerNext(sh, c, i, s, gone) == Some((sh', c')) && |sh.fifos| <= 1 && (BeforeFifo(c.server) ==> sh.fifos == [])
    ensures |sh'.fifos| <= 1 && (BeforeFifo(c'.server) ==> sh'.fifos == [])
  {
  }

  lemma WasmMakesNoFifo(sh: Shared, c: Create, i: nat, s: WasmStep, ready: bool, writers: bool, sh': Shared, c': Create)
    requires WasmNext(sh, c, i, s, ready, writers) == Some((sh', c'))
    ensures c'.server == c.server && |sh'.fifos| == |sh.fifos|
  {
  }

  lemma ProcessKeepsSingle(w: World, p: ProcessStep)
    requires CreatesInv(w) && SingleInv(w) && |w.creates| == 1 && ProcessNext(w, 0, p).Some?
    ensures var (sh, c) := ProcessNext(w, 0, p).value; SingleInv(SetCreate(w, 0, sh, c))
  {
    ProcessMakesFifo(w, p);
    ProcessPublishes(w, 0, p);
    ProcessKeeps(w, 0, p);
    if Retired(w.creates[0]) { RetiredStays(w, 0, p); }
  }

  lemma RemoveKeepsSingle(w: World, r: Remover, item: Item)
    requires Inv(w) && Single(w) && SingleInv(w) && Removing(w, r) && RemoveNext(w.sh, item).Some?
    ensures SingleInv(w.(sh := RemoveNext(w.sh, item).value))
  {
    var c := w.creates[0];
    if !c.readFailed { CleaningIsRetired(c); }
  }

  lemma BeginKeepsSingle(w: World, id: string, bundle: string)
    requires SharedInv(w.sh) && SingleInv(w) && !w.sh.dir && w.creates == []
    ensures SingleInv(World(w.sh.(dir := true), w.creates + [NewCreate(id, bundle)], w.calls))
  {
  }

  /** Calls leave `state.json` alone and make no FIFO. */
  lemma CallLeavesState(w: World, c: Call, s: CallStep)
    requires CallNext(w, c, s).Some?
    ensures var sh := CallNext(w, c, s).value.0;
            sh.state == w.sh.state && sh.dir == w.sh.dir && |sh.fifos| == |w.sh.fifos|
  {
  }

  lemma CallsKeepSingle(w: World, w': World)
    requires SingleInv(w) && w'.creates == w.creates && w'.sh.state == w.sh.state && w'.sh.dir == w.sh.dir
    requires |w'.sh.fifos| == |w.sh.fifos|
    ensures SingleInv(w')
  {
  }

  lemma StepKeepsSingle(w: World, s: Step, w': World)
    requires Inv(w) && Single(w) && SingleInv(w) && Next(w, s) == Some(w') && Single(w')
    ensures SingleInv(w')
  {
    match s
    case Begin(id, bundle) => if !w.sh.dir { BeginKeepsSingle(w, id, bundle); }
    case ProcessDo(i, p) => ProcessStepKeepsSingle(w, i, p, w');
    case Remove(r, item) => RemoveKeepsSingle(w, r, item);
    case NewCall(call) => NewCallKeepsSingle(w, call, w');
    case CallDo(c, x) => CallStepKeepsSingle(w, c, x, w');
  }

  lemma ProcessStepKeepsSingle(w: World, i: nat, p: ProcessStep, w': World)
    requires CreatesInv(w) && SingleInv(w) && |w.creates| <= 1 && Next(w, ProcessDo(i, p)) == Some(w')
    ensures SingleInv(w')
  {
    ProcessStepped(w, i, p, w');
    assert i == 0;
    ProcessKeepsSingle(w, p);
  }

  lemma NewCallKeepsSingle(w: World, call: Call, w': World)
    requires SingleInv(w) && Next(w, NewCall(call)) == Some(w')
    ensures SingleInv(w')
  {
    CallsKeepSingle(w, w');
  }

  lemma CallStepKeepsSingle(w: World, c: nat, x: CallStep, w': World)
    requires SingleInv(w) && Next(w, CallDo(c, x)) == Some(w')
    ensures SingleInv(w')
  {
    CallLeavesState(w, w.calls[c], x);
    CallsKeepSingle(w, w');
  }

  lemma {:induction false} RunSingle(ws: seq<World>, steps: seq<Step>, k: nat)
    requires IsRun(ws, steps) && k < |ws| && Single(ws[k])
    ensures SingleInv(ws[k])
  {
    if k > 0 {
      RunInv(ws, steps, k - 1);
      SingleBackwards(ws[k - 1], steps[k - 1], ws[k - 1 + 1]);
      RunSingle(ws, steps, k - 1);
      StepKeepsSingle(ws[k - 1], steps[k - 1], ws[k - 1 + 1]);
    }
  }

  // ---- the story state.json tells ----

  function AnyShown(w: World): Option<Status> { if w.sh.state.Some? then Some(w.sh.state.value.view.status) else None }

  /** The statuses `state.json` shows up to a moment, whoever wrote them, without repetitions
      and gaps. */
  function Story(ws: seq<World>, k: nat): seq<Status>
    requires k < |ws|
  {
    Told(if k == 0 then [] else Story(ws, k - 1), AnyShown(ws[k]))
  }

  lemma {:induction false} OneTeller(ws: seq<World>, k: nat)
    requires k < |ws| && forall m :: 0 <= m <= k ==> AnyShown(ws[m]) == Shown(ws[m], 0)
    ensures Story(ws, k) == StoryOf(ws, 0, k)
  {
    if k > 0 { OneTeller(ws, k - 1); }
  }

  lemma {:induction false} AllSingle(ws: seq<World>, steps: seq<Step>, j: nat, k: nat)
    requires IsRun(ws, steps) && j <= k < |ws| && Single(ws[k])
    ensures Single(ws[j])
    decreases k - j
  {
    if j < k {
      RunInv(ws, steps, k - 1);
      SingleBackwards(ws[k - 1], steps[k - 1], ws[k - 1 + 1]);
      AllSingle(ws, steps, j, k - 1);
    }
  }

  /** In every interleaving, the statuses seen in `state.json` are creating, created,
      running, stopped, in this order, none skipped and none repeated: exactly as many as
      the create has published. */
  lemma LifecycleOrder(ws: seq<World>, steps: seq<Step>, k: nat)
    requires IsRun(ws, steps) && k < |ws| && Single(ws[k])
    ensures Published(ws[k]) <= 4 && Story(ws, k) == Order[..Published(ws[k])]
  {
    forall m | 0 <= m <= k ensures AnyShown(ws[m]) == Shown(ws[m], 0) {
      AllSingle(ws, steps, m, k);
      RunInv(ws, steps, m);
    }
    OneTeller(ws, k);
    OrderPerCreate(ws, steps, 0, k);
  }

  /** What a step says about a missing file, without saying which step it was. */
  ghost predicate KeepsGone(w: World, w': World) {
    && (Single(w') ==> Single(w))
    && (w.creates != [] ==> w'.creates != [] && (w.creates[0].readFailed ==> w'.creates[0].readFailed))
    && (Single(w') && w.creates != [] && w.sh.state.None? && Published(w) > 0 && !w.creates[0].readFailed ==>
          w'.sh.state.None? && Published(w') == Published(w))
  }

  lemma StepKeepsGone(w: World, s: Step, w': World)
    requires Inv(w) && (Single(w) ==> SingleInv(w)) && Next(w, s) == Some(w')
    ensures KeepsGone(w, w')
  {
    CreatesOnlyGrow(w, s, w');
    StepKeeps(w, s, w');
    if Single(w') {
      SingleBackwards(w, s, w');
      if w.creates != [] && w.sh.state.None? && Published(w) > 0 && !w.creates[0].readFailed { GoneStep(w, s, w'); }
    }
  }

  lemma RunKeepsGone(ws: seq<World>, steps: seq<Step>, k: nat)
    requires IsRun(ws, steps) && k < |steps|
    ensures KeepsGone(ws[k], ws[k + 1])
  {
    RunInv(ws, steps, k);
    if Single(ws[k]) { RunSingle(ws, steps, k); }
    StepKeepsGone(ws[k], steps[k], ws[k + 1]);
  }

  lemma {:induction false} GoneAlong(ws: seq<World>, j: nat, k: nat)
    requires j <= k < |ws| && forall m :: 0 <= m < |ws| - 1 ==> KeepsGone(ws[m], ws[m + 1])
    requires Single(ws[k]) && Published(ws[j]) > 0 && ws[j].sh.state.None?
    requires ws[k].creates != [] && !ws[k].creates[0].readFailed
    ensures Single(ws[j]) && ws[k].sh.state.None? && Published(ws[k]) == Published(ws[j])
    decreases k - j
  {
    if j < k {
      assert KeepsGone(ws[k - 1], ws[k - 1 + 1]);
      BegunAlong(ws, j, k - 1);
      GoneAlong(ws, j, k - 1);
    }
  }

  /** A create that has published something has begun, and stays begun. */
  lemma {:induction false} BegunAlong(ws: seq<World>, j: nat, k: nat)
    requires j <= k < |ws| && forall m :: 0 <= m < |ws| - 1 ==> KeepsGone(ws[m], ws[m + 1])
    requires ws[j].creates != []
    ensures ws[k].creates != []
    decreases k - j
  {
    if j < k {
      BegunAlong(ws, j, k - 1);
      assert KeepsGone(ws[k - 1], ws[k - 1 + 1]);
    }
  }

  /** Once `state.json` has been there and is gone it stays gone, unless the server's read
      of the pipe failed. */
  lemma GoneStaysGone(ws: seq<World>, steps: seq<Step>, j: nat, k: nat)
    requires IsRun(ws, steps) && j <= k < |ws| && Single(ws[k])
    requires Published(ws[j]) > 0 && ws[j].sh.state.None?
    requires ws[k].creates != [] && !ws[k].creates[0].readFailed
    ensures Single(ws[j]) && ws[k].sh.state.None? && Published(ws[k]) == Published(ws[j])
  {
    forall m | 0 <= m < |ws| - 1 ensures KeepsGone(ws[m], ws[m + 1]) { RunKeepsGone(ws, steps, m); }
    GoneAlong(ws, j, k);
  }

  lemma GoneProcessStep(w: World, p: ProcessStep)
    requires CreatesInv(w) && |w.creates| == 1 && ProcessNext(w, 0, p).Some?
    requires Retired(w.creates[0]) && w.sh.state.None?
    ensures var (sh, c) := ProcessNext(w, 0, p).value;
            var w' := SetCreate(w, 0, sh, c); w'.sh.state.None? && Published(w') == Published(w)
  {
    RetiredStays(w, 0, p);
  }

  lemma GoneStep(w: World, s: Step, w': World)
    requires Inv(w) && Single(w) && Single(w') && Next(w, s) == Some(w')
    requires w.creates != [] && Retired(w.creates[0]) && w.sh.state.None?
    ensures w'.sh.state.None? && Published(w') == Published(w)
  {
    match s
    case ProcessDo(i, p) => GoneByProcess(w, i, p, w');
    case _ => GoneByOther(w, s, w');
  }

  lemma GoneByProcess(w: World, i: nat, p: ProcessStep, w': World)
    requires CreatesInv(w) && |w.creates| == 1 && Next(w, ProcessDo(i, p)) == Some(w')
    requires Retired(w.creates[0]) && w.sh.state.None?
    ensures w'.sh.state.None? && Published(w') == Published(w)
  {
    GoneProcessStep(w, p);
  }

  lemma GoneByOther(w: World, s: Step, w': World)
    requires Next(w, s) == Some(w') && !s.ProcessDo? && w.creates != [] && w.sh.state.None?
    ensures w'.sh.state.None? && Published(w') == Published(w)
  {
    OthersRemoveState(w, s, w');
  }

  lemma CreatesOnlyGrow(w: World, s: Step, w': World)
    requires Next(w, s) == Some(w')
    ensures |w.creates| <= |w'.creates|
  {
  }

  // ---- starts of one container ----

  /** Within one create at most one of any number of racing starts succeeds. */
  lemma AtMostOneStart(ws: seq<World>, steps: seq<Step>, k: nat)
    requires IsRun(ws, steps) && k < |ws| && Single(ws[k])
    ensures |Succeeded(ws[k])| <= 1
  {
    StartsTakeEntries(ws, steps, k);
    RunSingle(ws, steps, k);
  }

  lemma TheOneFifo(w: World, c: nat)
    requires GateInv(w) && StartsInv(w) && |w.sh.fifos| <= 1 && |w.creates| == 1 && c < |w.calls|
    requires CreateInv(w.creates[0]) && CallInv(w.calls[c])
    requires BeforeGate(w.creates[0]) && w.calls[c].Start? && w.calls[c].st.StDone?
    ensures w.creates[0].fifo == Some(0) && w.calls[c].fd == Some(0) && |w.sh.fifos| == 1 && !Passed(w, 0)
  {
    assert w.creates[0].fifo.Some? && w.calls[c].fd.Some?;
  }

  /** In a single container no start is lost, without exception. */
  lemma NoStartLostSingle(ws: seq<World>, steps: seq<Step>, k: nat, c: nat)
    requires IsRun(ws, steps) && k < |ws| && Single(ws[k]) && c < |ws[k].calls| && ws[k].creates != []
    requires BeforeGate(ws[k].creates[0])
    requires ws[k].calls[c].Start? && ws[k].calls[c].st.StDone?
    ensures ws[k].creates[0].fifo == Some(0) && |ws[k].sh.fifos| == 1 && ws[k].sh.fifos[0].bytes > 0
    ensures Ready(ws[k], ws[k].creates[0])
  {
    RunInv(ws, steps, k);
    RunSingle(ws, steps, k);
    TheOneFifo(ws[k], c);
    ByteStays(ws[k], c);
  }
}
