/** Safety of the container lifecycle over every run: any number of creates, starts, kills
    and deletes of one container id, in any interleaving. */
module LifecycleTheorems {
  import opened Wrappers
  import opened StateText
  import opened StateLaws
  import opened Lifecycle
  import opened LifecycleInv
  import opened LifecycleShared

  // ---- kills ----

  /** A kill aims at the pid of a version it read under created or running. */
  ghost predicate KillsInv(w: World) {
    forall c :: 0 <= c < |w.calls| && w.calls[c].Kill? && w.calls[c].target.Some? ==>
      && w.calls[c].seen.Some?
      && w.calls[c].seen.value.view.status in {Created, Running}
      && w.calls[c].target.value == w.calls[c].seen.value.view.pid
  }

  lemma KillLoads(w: World, c: Call, s: CallStep)
    requires CallInv(c) && CallNext(w, c, s).Some?
    ensures var c' := CallNext(w, c, s).value.1;
            c'.Kill? && c'.target.Some? && c'.target != c.target ==>
              c'.seen.Some? && c'.seen.value.view.status in {Created, Running} && c'.target.value == c'.seen.value.view.pid
    ensures var c' := CallNext(w, c, s).value.1;
            c'.Kill? && c'.target.Some? && c'.target == c.target ==> c'.seen == c.seen
  {
  }

  lemma StepKeepsKills(w: World, s: Step, w': World)
    requires CallsInv(w) && FilesInv(w) && KillsInv(w) && Next(w, s) == Some(w')
    ensures KillsInv(w')
  {
    if s.CallDo? {
      CallKeeps(w, w.calls[s.c], s.what);
      KillLoads(w, w.calls[s.c], s.what);
    }
  }

  // ---- every run keeps the invariant ----

  ghost predicate Inv(w: World) {
    && CreatesInv(w) && CallsInv(w) && SharedInv(w.sh) && FilesInv(w)
    && GateInv(w) && FifoInv(w) && StartsInv(w) && EntryInv(w) && PastInv(w) && KillsInv(w)
  }

  lemma StepKeeps(w: World, s: Step, w': World)
    requires Inv(w) && Next(w, s) == Some(w')
    ensures Inv(w') && Extends(w, w')
  {
    StepExtends(w, s, w');
    StepKeepsShared(w, s, w');
    StepKeepsFiles(w, s, w');
    StepKeepsGate(w, s, w');
    StepKeepsFifos(w, s, w');
    StepKeepsStarts(w, s, w');
    StepKeepsEntries(w, s, w');
    StepKeepsPast(w, s, w');
    StepKeepsKills(w, s, w');
  }

  lemma NoCreatesYet(w: World)
    requires w.creates == [] && w.calls == [] && w.sh.state.None?
    ensures CreatesInv(w) && CallsInv(w) && FilesInv(w) && GateInv(w) && PastInv(w)
  {
  }

  lemma NoFifosYet(w: World)
    requires w.creates == [] && w.calls == [] && w.sh.fifos == [] && w.sh.entry.None?
    ensures FifoInv(w) && StartsInv(w) && EntryInv(w) && KillsInv(w)
  {
  }

  lemma InitInv()
    ensures Inv(Init)
  {
    NoCreatesYet(Init);
    NoFifosYet(Init);
    assert SharedInv(Init.sh);
  }

  /** Every world of every run satisfies every invariant. */
  lemma {:induction false} RunInv(ws: seq<World>, steps: seq<Step>, k: nat)
    requires IsRun(ws, steps) && k < |ws|
    ensures Inv(ws[k])
  {
    if k == 0 {
      InitInv();
    } else {
      RunInv(ws, steps, k - 1);
      StepKeeps(ws[k - 1], steps[k - 1], ws[k - 1 + 1]);
    }
  }

  // ---- the start gate ----

  /** Whenever `state.json` says running or stopped, some start had loaded a version and
      then opened for writing the very FIFO that this create waits on, and had not left it
      before the create opened its end. */
  lemma StartGate(ws: seq<World>, steps: seq<Step>, k: nat)
    requires IsRun(ws, steps) && k < |ws|
    requires ws[k].sh.state.Some? && ws[k].sh.state.value.view.status in {Running, Stopped}
    ensures ws[k].sh.state.value.owner < |ws[k].creates|
    ensures exists c :: && 0 <= c < |ws[k].calls| && ws[k].calls[c].Start? && ws[k].calls[c].seen.Some?
                        && ws[k].calls[c].fd.Some?
                        && ws[k].calls[c].fd == ws[k].creates[ws[k].sh.state.value.owner].fifo
                        && c !in ws[k].creates[ws[k].sh.state.value.owner].past
  {
    RunInv(ws, steps, k);
    var w := ws[k];
    var create := w.creates[w.sh.state.value.owner];
    assert CreateInv(create) && AtOrPastGate(create);
    var c :| 0 <= c < |w.calls| && w.calls[c].Start? && w.calls[c].fd.Some? && w.calls[c].fd == create.fifo && c !in create.past;
    assert CallInv(w.calls[c]);
  }

  /** A wasm process that is alive and has not yet passed the gate. */
  predicate BeforeGate(c: Create) { WasmAlive(c) && Rank(c.mem.status) < 3 }

  /** While nobody has passed the gate of a FIFO, a start that succeeded on it has left its
      byte there. */
  lemma ByteStays(w: World, c: nat)
    requires Inv(w) && c < |w.calls| && w.calls[c].Start? && w.calls[c].st.StDone?
    requires w.calls[c].fd.Some? && !Passed(w, w.calls[c].fd.value)
    ensures w.calls[c].fd.value < |w.sh.fifos| && w.sh.fifos[w.calls[c].fd.value].bytes > 0
  {
    var f := w.sh.fifos[w.calls[c].fd.value];
    assert f.written > 0 && f.consumed == 0 && f.written == f.bytes + f.consumed;
  }

  // ---- racing starts ----

  ghost function Succeeded(w: World): set<nat> {
    set c: nat | c < |w.calls| && w.calls[c].Start? && w.calls[c].st.StDone?
  }

  /** Distinct members with distinct tickets below n: there are at most n of them. */
  lemma {:induction false} Pigeonhole(s: set<nat>, ticket: map<nat, nat>, n: nat)
    requires s <= ticket.Keys
    requires forall c :: c in s ==> ticket[c] < n
    requires forall c, d :: c in s && d in s && c != d ==> ticket[c] != ticket[d]
    ensures |s| <= n
  {
    if s != {} {
      var c :| c in s;
      if n == 0 {
        assert false;
      } else {
        var rest := s - {c};
        // hand the last ticket to c, so that the others keep below n - 1
        var swapped := map d | d in rest :: if ticket[d] == n - 1 then ticket[c] else ticket[d];
        Pigeonhole(rest, swapped, n - 1);
      }
    }
  }

  /** Over every run, deletes and re-creates included, successful starts never outnumber the
      `exec.fifo` entries that were made: each took one by its unlink, no two the same. */
  lemma StartsTakeEntries(ws: seq<World>, steps: seq<Step>, k: nat)
    requires IsRun(ws, steps) && k < |ws|
    ensures |Succeeded(ws[k])| <= |ws[k].sh.fifos|
    ensures forall c, d :: c in Succeeded(ws[k]) && d in Succeeded(ws[k]) && c != d ==>
              ws[k].calls[c].took.Some? && ws[k].calls[c].took != ws[k].calls[d].took
  {
    RunInv(ws, steps, k);
    EntriesBound(ws[k]);
  }

  lemma EntriesBound(w: World)
    requires CallsInv(w) && EntryInv(w)
    ensures |Succeeded(w)| <= |w.sh.fifos|
    ensures forall c, d :: c in Succeeded(w) && d in Succeeded(w) && c != d ==>
              w.calls[c].took.Some? && w.calls[c].took != w.calls[d].took
  {
    assert forall c :: c in Succeeded(w) ==> CallInv(w.calls[c]);
    var ticket := map c | c in Succeeded(w) :: w.calls[c].took.value;
    forall c, d | c in Succeeded(w) && d in Succeeded(w) && c != d ensures w.calls[c].took != w.calls[d].took {
      if c < d { assert w.calls[c].took != w.calls[d].took; } else { assert w.calls[d].took != w.calls[c].took; }
    }
    Pigeonhole(Succeeded(w), ticket, |w.sh.fifos|);
  }

  // ---- the verdict of create ----

  predicate ReportsSuccess(c: Create) {
    c.server.SrvExit? && (c.server.verdict.ReadZero? || c.server.verdict.ReadEnd? || c.server.verdict.ReadInterrupted?)
  }

  // ---- who may write state.json ----

  /** A process past all its updates, none of whose relatives can still make one. */
  predicate Retired(c: Create) {
    && !c.server.SrvLoad? && !c.server.SrvCheck? && !c.server.SrvTemp? && !c.server.SrvRename?
    && (c.wasm.WsmExit? || c.wasm.WsmReport?
        || (c.wasm.WsmNone? && !c.daemon.DmnStart? && !c.daemon.DmnReady? && !c.child.KidRun?
            && (c.child.KidNone? ==> !BeforeFork(c.server))))
  }

  lemma RetiredServer(sh: Shared, c: Create, i: nat, s: ServerStep, gone: set<nat>, sh': Shared, c': Create)
    requires CreateInv(c) && Retired(c) && ServerNext(sh, c, i, s, gone) == Some((sh', c'))
    ensures Retired(c') && sh'.state == sh.state && c'.published == c.published
  {
  }

  lemma RetiredWasm(sh: Shared, c: Create, i: nat, s: WasmStep, ready: bool, writers: bool, sh': Shared, c': Create)
    requires CreateInv(c) && Retired(c) && WasmNext(sh, c, i, s, ready, writers) == Some((sh', c'))
    ensures Retired(c') && sh'.state == sh.state && c'.published == c.published
  {
  }

  lemma RetiredStays(w: World, i: nat, p: ProcessStep)
    requires i < |w.creates| && CreateInv(w.creates[i]) && Retired(w.creates[i]) && ProcessNext(w, i, p).Some?
    ensures var (sh, c) := ProcessNext(w, i, p).value;
            Retired(c) && sh.state == w.sh.state && c.published == w.creates[i].published
  {
    var c, r := w.creates[i], ProcessNext(w, i, p).value;
    match p
    case ServerDo(x) => RetiredServer(w.sh, c, i, x, DepartedEntry(w), r.0, r.1);
    case ChildDo(_) =>
    case DaemonDo(_) =>
    case WasmDo(x) =>
      RetiredWasm(w.sh, c, i, x, IsReady(w, c), IsWritten(w, c), r.0, r.1);
  }

  lemma QuietIsRetired(c: Create)
    requires CreateInv(c) && Quiet(c)
    ensures Retired(c)
  {
  }

  /** Whoever removes the directory on behalf of a create does so after its last update,
      unless the server's pipe read failed outright. */
  lemma CleaningIsRetired(c: Create)
    requires CreateInv(c) && (c.server.SrvClean? || c.child.KidClean? || c.daemon.DmnClean?) && !c.readFailed
    ensures Retired(c)
  {
    if c.server.SrvClean? {
      assert c.server == SrvClean(c.server.cause);
      if c.server.cause.NonZero? { QuietIsRetired(c); }
    }
  }

  lemma RetiredStep(w: World, s: Step, w': World, i: nat)
    requires CreatesInv(w) && Next(w, s) == Some(w') && i < |w.creates| && Retired(w.creates[i])
    ensures i < |w'.creates| && Retired(w'.creates[i]) && w'.creates[i].published == w.creates[i].published
  {
    if s.ProcessDo? && s.i == i { RetiredStays(w, i, s.process); }
  }

  ghost predicate KeepsRetired(w: World, w': World, i: nat) {
    i < |w.creates| && Retired(w.creates[i]) ==>
      i < |w'.creates| && Retired(w'.creates[i]) && w'.creates[i].published == w.creates[i].published
  }

  lemma RunKeepsRetired(ws: seq<World>, steps: seq<Step>, k: nat, i: nat)
    requires IsRun(ws, steps) && k < |steps|
    ensures KeepsRetired(ws[k], ws[k + 1], i)
  {
    RunInv(ws, steps, k);
    if i < |ws[k].creates| && Retired(ws[k].creates[i]) { RetiredStep(ws[k], steps[k], ws[k + 1], i); }
  }

  lemma {:induction false} RetiredAlong(ws: seq<World>, j: nat, k: nat, i: nat)
    requires j <= k < |ws| && forall m :: 0 <= m < |ws| - 1 ==> KeepsRetired(ws[m], ws[m + 1], i)
    requires i < |ws[j].creates| && Retired(ws[j].creates[i])
    ensures i < |ws[k].creates| && Retired(ws[k].creates[i])
    ensures ws[k].creates[i].published == ws[j].creates[i].published
    decreases k - j
  {
    if j < k {
      RetiredAlong(ws, j, k - 1, i);
      assert KeepsRetired(ws[k - 1], ws[k - 1 + 1], i);
    }
  }

  /** After the server has read a non-zero code, no process of that create ever publishes a
      version of `state.json` again. */
  lemma NothingWrittenAfterNonZero(ws: seq<World>, steps: seq<Step>, j: nat, k: nat, i: nat)
    requires IsRun(ws, steps) && j <= k < |ws| && i < |ws[j].creates|
    requires ws[j].creates[i].codeRead.Some? && ws[j].creates[i].codeRead.value != 0
    ensures i < |ws[k].creates| && Retired(ws[k].creates[i])
    ensures ws[k].creates[i].published == ws[j].creates[i].published
  {
    RunInv(ws, steps, j);
    assert CreateInv(ws[j].creates[i]);
    QuietIsRetired(ws[j].creates[i]);
    forall m | 0 <= m < |ws| - 1 ensures KeepsRetired(ws[m], ws[m + 1], i) { RunKeepsRetired(ws, steps, m, i); }
    RetiredAlong(ws, j, k, i);
  }

  lemma StepFromGone(w: World, s: Step, w': World)
    requires SharedInv(w.sh) && Next(w, s) == Some(w') && !w.sh.dir && !s.Begin?
    ensures !w'.sh.dir
  {
  }

  /** Once the directory is gone, only a new create brings it, and `state.json`, back. */
  lemma {:induction false} OnlyCreateRevives(ws: seq<World>, steps: seq<Step>, j: nat, k: nat)
    requires IsRun(ws, steps) && j <= k < |ws| && !ws[j].sh.dir
    requires forall m :: j <= m < k ==> !steps[m].Begin?
    ensures !ws[k].sh.dir && ws[k].sh.state.None? && ws[k].sh.entry.None?
    decreases k - j
  {
    RunInv(ws, steps, k);
    if j < k {
      OnlyCreateRevives(ws, steps, j, k - 1);
      RunInv(ws, steps, k - 1);
      StepFromGone(ws[k - 1], steps[k - 1], ws[k - 1 + 1]);
    }
  }

  // ---- pid file and kill ----

  /** Whenever `state.json` says created or running, the pid file already holds the pid it
      names. */
  lemma PidFileFirst(ws: seq<World>, steps: seq<Step>, k: nat)
    requires IsRun(ws, steps) && k < |ws|
    requires ws[k].sh.state.Some? && ws[k].sh.state.value.view.status in {Created, Running}
    ensures ws[k].sh.state.value.owner < |ws[k].creates|
    ensures ws[k].creates[ws[k].sh.state.value.owner].pidFile == Some(ws[k].sh.state.value.view.pid)
  {
    RunInv(ws, steps, k);
  }

  /** What a start or a kill loads is what reading the printed text of the file gives. */
  lemma LoadsThroughText(ws: seq<World>, steps: seq<Step>, k: nat)
    requires IsRun(ws, steps) && k < |ws| && ws[k].sh.state.Some?
    ensures var v := ws[k].sh.state.value.view;
            && Reloaded(v).ok == LoadText(Fresh, PrintText(v)).ok
            && (Reloaded(v).ok ==> Reloaded(v).view == LoadText(Fresh, PrintText(v)).view)
  {
    StatePlain(ws, steps, k);
    ReloadedFromText(ws[k].sh.state.value.view);
  }

  /** A kill that looks while `state.json` says creating or stopped sends nothing: the pid it
      loads is -1. */
  lemma KillRefused(ws: seq<World>, steps: seq<Step>, k: nat, c: nat)
    requires IsRun(ws, steps) && k < |ws| && c < |ws[k].calls|
    requires ws[k].sh.state.Some? && ws[k].sh.state.value.view.status !in {Created, Running}
    ensures CallNext(ws[k], ws[k].calls[c], KillLoad).None?
    ensures var loaded := LoadText(Fresh, PrintText(ws[k].sh.state.value.view)); loaded.ok ==> loaded.view.pid == -1
  {
    StatePlain(ws, steps, k);
    NoPidLoaded(ws[k].sh.state.value.view);
  }

  lemma StatePlain(ws: seq<World>, steps: seq<Step>, k: nat)
    requires IsRun(ws, steps) && k < |ws| && ws[k].sh.state.Some?
    ensures PlainTimes(ws[k].sh.state.value.view)
  {
    RunInv(ws, steps, k);
  }

  lemma NoPidLoaded(v: View)
    requires PlainTimes(v) && v.status !in {Created, Running}
    ensures LoadText(Fresh, PrintText(v)).ok ==> LoadText(Fresh, PrintText(v)).view.pid == -1
  {
    if LoadText(Fresh, PrintText(v)).ok { LoadedPid(v); }
  }

  /** A signal goes only to the pid that a wasm process recorded for itself, and only after
      a version with status created or running was read. */
  lemma KillTargetsContainer(ws: seq<World>, steps: seq<Step>, k: nat, c: nat)
    requires IsRun(ws, steps) && k < |ws| && c < |ws[k].calls|
    requires ws[k].calls[c].Kill? && ws[k].calls[c].kl.KlDone?
    ensures var call := ws[k].calls[c];
            && call.target.Some? && call.seen.Some?
            && call.seen.value.view.status in {Created, Running}
            && call.seen.value.owner < |ws[k].creates|
            && ws[k].creates[call.seen.value.owner].pidFile == call.target
            && call.target.value > 0
  {
    RunInv(ws, steps, k);
    assert CallInv(ws[k].calls[c]);
    assert SeenBy(ws[k].calls[c]).Some?;
  }
}
