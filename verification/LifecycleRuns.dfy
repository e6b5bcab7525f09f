/** Runs that show what the protocol does not promise. */
module LifecycleRuns {
  import opened Wrappers
  import Utf8
  import opened StateText
  import opened StateLaws
  import opened Lifecycle
  import opened LifecycleInv
  import opened LifecycleTheorems
  import opened LifecycleSingle
  import opened LifecycleRemoval

  ghost predicate Reachable(w: World) {
    exists ws: seq<World>, steps: seq<Step> :: IsRun(ws, steps) && ws[|ws| - 1] == w
  }

  lemma Origin()
    ensures Reachable(Init)
  {
    assert IsRun([Init], []) && [Init][0] == Init;
  }

  lemma AppendStep(ws: seq<World>, steps: seq<Step>, s: Step, w: World)
    requires IsPath(ws, steps) && Next(ws[|ws| - 1], s) == Some(w)
    ensures IsPath(ws + [w], steps + [s])
  {
    var vs, ts := ws + [w], steps + [s];
    forall k | 0 <= k < |ts| ensures Next(vs[k], ts[k]) == Some(vs[k + 1]) {
      if k < |steps| { assert ts[k] == steps[k] && vs[k] == ws[k] && vs[k + 1] == ws[k + 1]; }
    }
  }

  lemma Append(ws: seq<World>, steps: seq<Step>, s: Step, w: World) returns (vs: seq<World>, ts: seq<Step>)
    requires IsRun(ws, steps) && Next(ws[|ws| - 1], s) == Some(w)
    ensures IsRun(vs, ts) && ws <= vs && vs[|vs| - 1] == w
  {
    AppendStep(ws, steps, s, w);
    vs, ts := ws + [w], steps + [s];
  }

  lemma Go(w: World, s: Step) returns (w': World)
    requires Reachable(w) && Next(w, s).Some?
    ensures w' == Next(w, s).value && Reachable(w')
  {
    w' := Next(w, s).value;
    var ws, steps :| IsRun(ws, steps) && ws[|ws| - 1] == w;
    var vs, ts := Append(ws, steps, s, w');
  }

  lemma GoServer(w: World, i: nat, x: ServerStep) returns (w': World)
    requires Reachable(w) && i < |w.creates| && ServerNext(w.sh, w.creates[i], i, x, DepartedEntry(w)).Some?
    ensures var r := ServerNext(w.sh, w.creates[i], i, x, DepartedEntry(w)).value; w' == SetCreate(w, i, r.0, r.1)
    ensures Reachable(w')
  {
    w' := Go(w, ProcessDo(i, ServerDo(x)));
  }

  lemma GoChild(w: World, i: nat, x: ChildStep) returns (w': World)
    requires Reachable(w) && i < |w.creates| && ChildNext(w.creates[i], x).Some?
    ensures w' == SetCreate(w, i, w.sh, ChildNext(w.creates[i], x).value)
    ensures Reachable(w')
  {
    w' := Go(w, ProcessDo(i, ChildDo(x)));
  }

  lemma GoDaemon(w: World, i: nat, x: DaemonStep) returns (w': World)
    requires Reachable(w) && i < |w.creates| && DaemonNext(w.creates[i], x).Some?
    ensures w' == SetCreate(w, i, w.sh, DaemonNext(w.creates[i], x).value)
    ensures Reachable(w')
  {
    w' := Go(w, ProcessDo(i, DaemonDo(x)));
  }

  lemma GoWasm(w: World, i: nat, x: WasmStep) returns (w': World)
    requires Reachable(w) && i < |w.creates|
    requires WasmNext(w.sh, w.creates[i], i, x, IsReady(w, w.creates[i]), IsWritten(w, w.creates[i])).Some?
    ensures var r := WasmNext(w.sh, w.creates[i], i, x, IsReady(w, w.creates[i]), IsWritten(w, w.creates[i])).value;
            w' == SetCreate(w, i, r.0, r.1)
    ensures Reachable(w')
  {
    w' := Go(w, ProcessDo(i, WasmDo(x)));
  }

  // ---- stages of a create ----

  const Named := Fresh.(id := "c", bundle := "b")

  /** A create that begins where there is no directory, up to making its FIFO. */
  function PreparedCreate(): Create { NewCreate("c", "b").(server := SrvMkfifo, mem := MarkCreating(Named), published := 1) }

  lemma Prepare(w: World) returns (w': World)
    requires Reachable(w) && !w.sh.dir && w.sh.state.None? && w.sh.entry.None? && w.sh.temps == {}
    ensures Reachable(w')
    ensures w'.creates == w.creates + [PreparedCreate()] && w'.calls == w.calls
    ensures w'.sh == w.sh.(dir := true, state := Some(File(|w.creates|, MarkCreating(Named))))
  {
    var i := |w.creates|;
    w' := Go(w, Begin("c", "b"));
    w' := GoServer(w', i, BundleOk(false));
    w' := GoServer(w', i, CheckOk);
    w' := GoServer(w', i, TempOk);
    w' := GoServer(w', i, RenameOk);
    assert w.sh.temps + {ByServer(i)} - {ByServer(i)} == {};
  }

  lemma MakeFifo(w: World, i: nat) returns (w': World)
    requires Reachable(w) && i < |w.creates| && w.creates[i].server.SrvMkfifo? && w.sh.dir && w.sh.entry.None?
    ensures Reachable(w')
    ensures w' == SetCreate(w, i, w.sh.(entry := Some(|w.sh.fifos|), fifos := w.sh.fifos + [Fifo(0, 0, 0)]), w.creates[i].(server := SrvOpen))
  {
    w' := GoServer(w, i, MkfifoOk);
  }

  lemma OpenFifo(w: World, i: nat) returns (w': World)
    requires Reachable(w) && i < |w.creates| && w.creates[i].server.SrvOpen? && w.sh.entry.Some?
    ensures Reachable(w')
    ensures w' == SetCreate(w, i, w.sh, w.creates[i].(server := SrvFork, fifo := w.sh.entry, past := DepartedEntry(w)))
  {
    w' := GoServer(w, i, OpenOk);
  }

  lemma Fork(w: World, i: nat) returns (w': World)
    requires Reachable(w) && i < |w.creates| && w.creates[i].server.SrvFork?
    ensures Reachable(w')
    ensures w' == SetCreate(w, i, w.sh, w.creates[i].(server := SrvWait, child := KidExit, daemon := DmnStart))
  {
    w' := GoServer(w, i, ForkOk);
    w' := GoChild(w', i, Detach);
  }

  lemma Launch(w: World, i: nat) returns (w': World)
    requires Reachable(w) && i < |w.creates| && w.creates[i].daemon.DmnStart?
    ensures Reachable(w')
    ensures w' == SetCreate(w, i, w.sh, w.creates[i].(daemon := DmnReport(0), wasm := WsmPidFile, pid := 5, instantiated := true))
  {
    w' := GoDaemon(w, i, Instantiate);
    w' := GoDaemon(w', i, ForkWasm(5));
  }

  lemma Mark(w: World, i: nat) returns (w': World)
    requires Reachable(w) && i < |w.creates| && w.creates[i].wasm.WsmPidFile?
    ensures Reachable(w')
    ensures var c := w.creates[i];
            w' == SetCreate(w, i, w.sh, c.(wasm := WsmCheck, pidFile := Some(c.pid), mem := MarkCreated(c.mem, "", c.pid)))
  {
    w' := GoWasm(w, i, PidFileOk);
    w' := GoWasm(w', i, SetCreated(""));
    w' := GoWasm(w', i, SetupOk);
  }

  lemma Update(w: World, i: nat) returns (w': World)
    requires Reachable(w) && i < |w.creates| && w.creates[i].wasm.WsmCheck? && w.sh.dir && w.sh.state.Some? && w.sh.temps == {}
    ensures Reachable(w')
    ensures var c := w.creates[i];
            w' == SetCreate(w, i, w.sh.(state := Some(File(i, c.mem))), c.(wasm := AfterPublish(c.mem), published := c.published + 1))
  {
    w' := GoWasm(w, i, UpdateCheck);
    w' := GoWasm(w', i, UpdateTemp);
    w' := GoWasm(w', i, UpdateRename);
    assert {ByWasm(i)} - {ByWasm(i)} == {};
    assert w.sh.temps + {ByWasm(i)} - {ByWasm(i)} == w.sh.temps;
  }

  // ---- stages of a start ----

  const NewStart := Start(StLoad, None, None, None)

  predicate Loadable(v: View) { v.id == "c" && v.bundle == "b" && v.status != Unknown }

  lemma LetterSurvives(c: char)
    requires 'a' <= c <= 'z'
    ensures Survives([c])
  {
    Utf8.RunAscii(Utf8.Done, [c]);
  }

  lemma LoadableLoads(v: View)
    requires Loadable(v)
    ensures Reloaded(v).ok
  {
    assert "c" == ['c'] && "b" == ['b'];
    LetterSurvives('c');
    LetterSurvives('b');
  }

  /** A start comes and loads the state. */
  lemma Come(w: World) returns (w': World)
    requires Reachable(w) && w.sh.state.Some? && Loadable(w.sh.state.value.view)
    ensures Reachable(w') && w' == World(w.sh, w.creates, w.calls + [Start(StOpen, w.sh.state, None, None)])
  {
    w' := Go(w, NewCall(NewStart));
    LoadableLoads(w.sh.state.value.view);
    w' := Go(w', CallDo(|w.calls|, StartLoad));
  }

  lemma OpenWrite(w: World, c: nat, i: nat) returns (w': World)
    requires Reachable(w) && c < |w.calls| && w.calls[c].Start? && w.calls[c].st.StOpen?
    requires w.sh.entry.Some? && i < |w.creates| && HoldsReadEnd(w.creates[i], w.sh.entry.value)
    ensures Reachable(w') && w' == World(w.sh, w.creates, w.calls[c := w.calls[c].(st := StUnlink, fd := w.sh.entry)])
  {
    w' := Go(w, CallDo(c, StartOpen));
  }

  /** It takes the entry away, writes its byte and is done. */
  lemma Release(w: World, c: nat, i: nat, f: nat) returns (w': World)
    requires Reachable(w) && c < |w.calls| && w.calls[c].Start? && w.calls[c].st.StUnlink? && w.calls[c].fd == Some(f)
    requires w.sh.entry.Some? && i < |w.creates| && HoldsReadEnd(w.creates[i], f) && f < |w.sh.fifos|
    ensures Reachable(w')
    ensures var x := w.sh.fifos[f];
            w' == World(w.sh.(entry := None, fifos := w.sh.fifos[f := x.(bytes := x.bytes + 1, written := x.written + 1)]), w.creates,
                        w.calls[c := w.calls[c].(st := StDone, took := w.sh.entry)])
  {
    w' := Go(w, CallDo(c, StartUnlink));
    assert HoldsReadEnd(w'.creates[i], f);
    w' := Go(w', CallDo(c, StartWrite));
    w' := Go(w', CallDo(c, StartClose));
  }

  // ---- opening is enough to start the container ----

  const CreatedView := MarkCreated(MarkCreating(Named), "", 5)

  /** One create whose wasm process waits at its gate. */
  lemma WaitingContainer() returns (w: World)
    ensures Reachable(w) && |w.creates| == 1 && w.calls == []
    ensures w.sh == Shared(true, Some(File(0, CreatedView)), Some(0), {}, [Fifo(0, 0, 0)])
    ensures var c := w.creates[0];
            c.server.SrvWait? && c.wasm.WsmSelect? && c.fifo == Some(0) && c.past == {} && c.mem == CreatedView && c.published == 2
  {
    Origin();
    w := Prepare(Init);
    assert [] + [PreparedCreate()] == [PreparedCreate()];
    w := MakeFifo(w, 0);
    assert [] + [Fifo(0, 0, 0)] == [Fifo(0, 0, 0)];
    w := OpenFifo(w, 0);
    w := Fork(w, 0);
    w := Launch(w, 0);
    w := Mark(w, 0);
    w := Update(w, 0);
  }

  /** A start opens its FIFO and fails. */
  lemma OpenedAndGone() returns (w: World)
    ensures Reachable(w) && |w.creates| == 1
    ensures w.sh == Shared(true, Some(File(0, CreatedView)), Some(0), {}, [Fifo(0, 0, 0)])
    ensures var c := w.creates[0];
            c.server.SrvWait? && c.wasm.WsmSelect? && c.fifo == Some(0) && c.past == {} && c.mem == CreatedView && c.published == 2
    ensures w.calls == [Start(StFailed, w.sh.state, Some(0), None)]
  {
    w := WaitingContainer();
    w := Come(w);
    assert [] + [Start(StOpen, w.sh.state, None, None)] == [Start(StOpen, w.sh.state, None, None)];
    w := OpenWrite(w, 0, 0);
    w := Go(w, CallDo(0, StartFails));
  }

  lemma PassEmpty(w: World) returns (w': World)
    requires Reachable(w) && |w.creates| == 1 && w.sh.fifos == [Fifo(0, 0, 0)]
    requires var c := w.creates[0]; c.wasm.WsmSelect? && c.fifo == Some(0) && c.past == {}
    requires w.calls == [Start(StFailed, w.sh.state, Some(0), None)]
    ensures Reachable(w')
    ensures w' == SetCreate(w, 0, w.sh, w.creates[0].(wasm := WsmCheck, mem := MarkRunning(w.creates[0].mem, "")))
  {
    assert !HasWriter(w, 0);
    assert OpenedFor(w, w.creates[0]) by { assert w.calls[0].Start? && w.calls[0].fd == Some(0) && 0 !in w.creates[0].past; }
    w' := GoWasm(w, 0, SelectOk);
    assert !HasWriter(w', 0);
    w' := GoWasm(w', 0, ReadNothing(""));
  }

  /** The container runs although no start ever wrote to it, and none succeeded: one only
      opened the FIFO and failed. */
  lemma OpeningStarts() returns (ws: seq<World>, steps: seq<Step>)
    ensures IsRun(ws, steps)
    ensures var w := ws[|ws| - 1];
            && w.sh.state.Some? && w.sh.state.value.view.status == Running
            && |w.sh.fifos| == 1 && w.sh.fifos[0].written == 0 && Succeeded(w) == {}
  {
    var w := OpenedAndGone();
    w := PassEmpty(w);
    w := Update(w, 0);
    ws, steps :| IsRun(ws, steps) && ws[|ws| - 1] == w;
  }

  // ---- success without a module ----

  /** One create whose daemon has begun and whose server waits for it. */
  lemma ForkedContainer() returns (w: World)
    ensures Reachable(w) && |w.creates| == 1 && w.calls == []
    ensures w.sh == Shared(true, Some(File(0, MarkCreating(Named))), Some(0), {}, [Fifo(0, 0, 0)])
    ensures w.creates[0] == PreparedCreate().(server := SrvWait, child := KidExit, daemon := DmnStart, fifo := Some(0))
  {
    Origin();
    w := Prepare(Init);
    assert [] + [PreparedCreate()] == [PreparedCreate()];
    w := MakeFifo(w, 0);
    assert [] + [Fifo(0, 0, 0)] == [Fifo(0, 0, 0)];
    w := OpenFifo(w, 0);
    w := Fork(w, 0);
    assert DepartedEntry(w) == {};
  }

  /** A failed console socket ends the daemon without a word: create succeeds at the end of
      the pipe, with `state.json` gone and nothing instantiated. */
  lemma EndOfPipeSucceeds() returns (ws: seq<World>, steps: seq<Step>)
    ensures IsRun(ws, steps) && |ws[|ws| - 1].creates| == 1
    ensures var c := ws[|ws| - 1].creates[0];
            ReportsSuccess(c) && c.server == SrvExit(ReadEnd) && !c.instantiated && Dead(c) && ws[|ws| - 1].sh.state.None?
  {
    var w := ForkedContainer();
    w := GoDaemon(w, 0, ConsoleFails);
    w := Go(w, Remove(DaemonR(0), TheState));
    w := GoDaemon(w, 0, DaemonCleaned);
    w := GoServer(w, 0, Waited);
    w := GoServer(w, 0, ReadEof);
    ws, steps :| IsRun(ws, steps) && ws[|ws| - 1] == w;
  }

  /** An interrupted read lets create succeed before the daemon has done anything. */
  lemma InterruptSucceeds() returns (ws: seq<World>, steps: seq<Step>)
    ensures IsRun(ws, steps) && |ws[|ws| - 1].creates| == 1
    ensures var c := ws[|ws| - 1].creates[0]; ReportsSuccess(c) && c.server == SrvExit(ReadInterrupted) && !c.instantiated
  {
    var w := ForkedContainer();
    w := GoServer(w, 0, Waited);
    w := GoServer(w, 0, ReadEintr);
    ws, steps :| IsRun(ws, steps) && ws[|ws| - 1] == w;
  }

  /** In every run, a create with this verdict has its module instantiated. */
  ghost predicate MeansInstantiated(v: Verdict) {
    forall ws: seq<World>, steps: seq<Step>, k: nat, i: nat ::
      IsRun(ws, steps) && k < |ws| && i < |ws[k].creates| && ws[k].creates[i].server == SrvExit(v) ==> ws[k].creates[i].instantiated
  }

  /** Of the three ways to succeed, exactly the zero code means an instantiated module. */
  lemma SuccessMeansInstantiated(v: Verdict)
    requires v.ReadZero? || v.ReadEnd? || v.ReadInterrupted?
    ensures MeansInstantiated(v) <==> v == ReadZero
  {
    if v == ReadZero {
      forall ws: seq<World>, steps: seq<Step>, k: nat, i: nat
        | IsRun(ws, steps) && k < |ws| && i < |ws[k].creates| && ws[k].creates[i].server == SrvExit(v)
        ensures ws[k].creates[i].instantiated { CreateVerdict(ws, steps, k, i); }
    } else if v == ReadEnd {
      var ws, steps := EndOfPipeSucceeds();
      assert ws[|ws| - 1].creates[0].server == SrvExit(v);
    } else {
      var ws, steps := InterruptSucceeds();
      assert ws[|ws| - 1].creates[0].server == SrvExit(v);
    }
  }

  // ---- a failed create that leaves its directory ----

  /** The daemon reports a failure, the server reads it and its removal fails: create has
      failed, all its processes are gone, and everything is still there. */
  lemma IgnoredErrorLeaves() returns (ws: seq<World>, steps: seq<Step>)
    ensures IsRun(ws, steps) && |ws[|ws| - 1].creates| == 1
    ensures var w := ws[|ws| - 1];
            && w.creates[0].server == SrvExit(Failed(NonZero)) && Dead(w.creates[0])
            && w.sh.dir && w.sh.state.Some? && w.sh.entry.Some?
  {
    var w := ForkedContainer();
    w := GoDaemon(w, 0, RunFails);
    w := GoDaemon(w, 0, Tell);
    w := GoServer(w, 0, Waited);
    w := GoServer(w, 0, ReadCode);
    w := GoServer(w, 0, CleanFails);
    ws, steps :| IsRun(ws, steps) && ws[|ws| - 1] == w;
  }

  lemma EarlyErrorLeaves() returns (ws: seq<World>, steps: seq<Step>)
    ensures IsRun(ws, steps) && |ws[|ws| - 1].creates| == 1
    ensures ws[|ws| - 1].creates[0].server == SrvExit(Failed(Early)) && ws[|ws| - 1].sh.dir
  {
    Origin();
    var w := Prepare(Init);
    w := GoServer(w, 0, ServerFails(true));
    w := GoServer(w, 0, CleanFails);
    ws, steps :| IsRun(ws, steps) && ws[|ws| - 1] == w;
  }

  lemma ReadErrorLeaves() returns (ws: seq<World>, steps: seq<Step>)
    ensures IsRun(ws, steps) && |ws[|ws| - 1].creates| == 1
    ensures ws[|ws| - 1].creates[0].server == SrvExit(Failed(ReadError)) && ws[|ws| - 1].sh.dir
  {
    var w := ForkedContainer();
    w := GoServer(w, 0, Waited);
    w := GoServer(w, 0, ReadFail);
    w := GoServer(w, 0, CleanFails);
    ws, steps :| IsRun(ws, steps) && ws[|ws| - 1] == w;
  }

  /** In every run with one create, a server with this verdict has no directory left. */
  ghost predicate MeansGone(v: Verdict) {
    forall w :: Reachable(w) && |w.creates| == 1 && w.creates[0].server == SrvExit(v) ==> !w.sh.dir
  }

  /** Whatever made create fail, its directory is sure to be gone exactly if the removal
      finished: an error of the removal is ignored and can leave everything. */
  lemma FailureMeansGone(v: Verdict)
    requires v.Removed? || v.Failed?
    ensures MeansGone(v) <==> v.Removed?
  {
    if v.Removed? {
      forall w | Reachable(w) && |w.creates| == 1 && w.creates[0].server == SrvExit(v) ensures !w.sh.dir {
        var ws, steps :| IsRun(ws, steps) && ws[|ws| - 1] == w;
        RemovedForGood(ws, steps, |ws| - 1);
      }
    } else {
      var ws, steps;
      match v.cause
      case Early => ws, steps := EarlyErrorLeaves();
      case ReadError => ws, steps := ReadErrorLeaves();
      case NonZero => ws, steps := IgnoredErrorLeaves();
      assert Reachable(ws[|ws| - 1]);
    }
  }

  // ---- two creates on one FIFO ----

  const Gone := Delete(DlRemove, false)

  /** The first create has made its FIFO, not opened it, and a delete has taken everything
      away. */
  lemma DeletedContainer() returns (w: World)
    ensures Reachable(w) && w.creates == [PreparedCreate().(server := SrvOpen)] && w.calls == [Gone]
    ensures w.sh == Shared(false, None, None, {}, [Fifo(0, 0, 0)])
  {
    Origin();
    w := Prepare(Init);
    assert [] + [PreparedCreate()] == [PreparedCreate()];
    w := MakeFifo(w, 0);
    assert [] + [Fifo(0, 0, 0)] == [Fifo(0, 0, 0)];
    w := Go(w, NewCall(Delete(DlCheck, false)));
    assert [] + [Delete(DlCheck, false)] == [Delete(DlCheck, false)];
    w := Go(w, CallDo(0, DeleteFound));
    w := Empty(w);
  }

  lemma Empty(w: World) returns (w': World)
    requires Reachable(w) && w.calls == [Gone] && w.sh.temps == {}
    ensures Reachable(w') && w' == w.(sh := w.sh.(dir := false, state := None, entry := None))
  {
    w' := Go(w, Remove(DeleteR(0), TheState));
    w' := Go(w', Remove(DeleteR(0), TheFifo));
    w' := Go(w', Remove(DeleteR(0), TheDirectory));
  }

  /** A second create makes its FIFO, and both open it to read. */
  lemma SharedFifo() returns (w: World)
    ensures Reachable(w) && |w.creates| == 2 && w.calls == [Gone]
    ensures w.sh == Shared(true, Some(File(1, MarkCreating(Named))), Some(1), {}, [Fifo(0, 0, 0), Fifo(0, 0, 0)])
    ensures forall i :: 0 <= i < 2 ==> w.creates[i] == PreparedCreate().(server := SrvFork, fifo := Some(1))
  {
    w := DeletedContainer();
    w := Prepare(w);
    w := MakeFifo(w, 1);
    assert [Fifo(0, 0, 0)] + [Fifo(0, 0, 0)] == [Fifo(0, 0, 0), Fifo(0, 0, 0)];
    assert DepartedEntry(w) == {};
    w := OpenFifo(w, 0);
    assert DepartedEntry(w) == {};
    w := OpenFifo(w, 1);
  }

  /** The wasm process of the first waits at the gate, that of the second has just begun. */
  lemma SharedWait() returns (w: World)
    ensures Reachable(w) && |w.creates| == 2 && w.calls == [Gone]
    ensures w.sh == Shared(true, Some(File(0, CreatedView)), Some(1), {}, [Fifo(0, 0, 0), Fifo(0, 0, 0)])
    ensures forall i :: 0 <= i < 2 ==> w.creates[i].server.SrvWait? && w.creates[i].fifo == Some(1) && w.creates[i].past == {}
    ensures w.creates[0].wasm.WsmSelect? && w.creates[0].mem == CreatedView
    ensures w.creates[1].wasm.WsmPidFile? && w.creates[1].mem == MarkCreating(Named)
  {
    w := SharedFifo();
    w := Fork(w, 0);
    w := Launch(w, 0);
    w := Mark(w, 0);
    w := Update(w, 0);
    w := Fork(w, 1);
    w := Launch(w, 1);
  }

  lemma TakeByte(w: World) returns (w': World)
    requires Reachable(w) && |w.creates| == 2 && |w.sh.fifos| == 2 && w.sh.fifos[1] == Fifo(1, 1, 0)
    requires w.creates[0].wasm.WsmSelect? && w.creates[0].fifo == Some(1)
    ensures Reachable(w') && w'.calls == w.calls && |w'.creates| == 2 && w'.creates[1] == w.creates[1]
    ensures |w'.sh.fifos| == 2 && w'.sh.fifos[1].bytes == 0
  {
    w' := GoWasm(w, 0, SelectOk);
    w' := GoWasm(w', 0, ReadByte(""));
  }

  /** A start succeeded on the FIFO of the second create, whose wasm process has yet to come
      to its gate, and the byte is gone: the first create read it. */
  lemma SharedFifoLosesByte() returns (ws: seq<World>, steps: seq<Step>)
    ensures IsRun(ws, steps)
    ensures var w := ws[|ws| - 1];
            && |w.creates| == 2 && BeforeGate(w.creates[1]) && w.creates[1].fifo == Some(1)
            && |w.calls| == 2 && w.calls[1].Start? && w.calls[1].st.StDone? && w.calls[1].fd == Some(1)
            && |w.sh.fifos| == 2 && w.sh.fifos[1].bytes == 0
  {
    var w := SharedWait();
    w := Come(w);
    w := OpenWrite(w, 1, 0);
    w := Release(w, 1, 0, 1);
    w := TakeByte(w);
    ws, steps :| IsRun(ws, steps) && ws[|ws| - 1] == w;
  }

  // ---- state.json comes back ----

  /** The server's pipe read has failed while the wasm process is past its test that the
      file exists, and the server has removed it. */
  lemma RemovedDuringUpdate() returns (w: World)
    ensures Reachable(w) && |w.creates| == 1 && w.calls == [] && w.sh.dir && w.sh.state.None? && w.sh.temps == {}
    ensures w.creates[0].wasm.WsmTemp? && w.creates[0].published == 1 && w.creates[0].mem == CreatedView
  {
    w := ForkedContainer();
    w := Launch(w, 0);
    w := Mark(w, 0);
    w := GoWasm(w, 0, UpdateCheck);
    w := GoServer(w, 0, Waited);
    w := GoServer(w, 0, ReadFail);
    w := Go(w, Remove(ServerR(0), TheState));
  }

  /** The exception of `GoneStaysGone` is real: when the server's pipe read fails while the
      wasm process is between testing for the file and renaming, the server removes
      `state.json` and the update brings it back. */
  lemma ReadFailureRevives() returns (ws: seq<World>, steps: seq<Step>, j: nat)
    ensures IsRun(ws, steps) && j < |ws|
    ensures Single(ws[|ws| - 1]) && Published(ws[j]) > 0
    ensures ws[j].sh.state.None? && ws[|ws| - 1].sh.state.Some?
  {
    var w := RemovedDuringUpdate();
    ws, steps :| IsRun(ws, steps) && ws[|ws| - 1] == w;
    j := |ws| - 1;
    var v := SetCreate(w, 0, w.sh.(temps := {ByWasm(0)}), w.creates[0].(wasm := WsmRename));
    assert w.sh.temps + {ByWasm(0)} == {ByWasm(0)};
    ws, steps := Append(ws, steps, ProcessDo(0, WasmDo(UpdateTemp)), v);
    ws, steps := Finish(ws, steps, v);
  }

  lemma Finish(ws: seq<World>, steps: seq<Step>, w: World) returns (vs: seq<World>, ts: seq<Step>)
    requires IsRun(ws, steps) && ws[|ws| - 1] == w && |w.creates| == 1 && w.calls == []
    requires w.creates[0].wasm.WsmRename? && ByWasm(0) in w.sh.temps
    ensures IsRun(vs, ts) && ws <= vs && Single(vs[|vs| - 1]) && vs[|vs| - 1].sh.state.Some?
  {
    var s := ProcessDo(0, WasmDo(UpdateRename));
    vs, ts := Append(ws, steps, s, Next(w, s).value);
  }
}
