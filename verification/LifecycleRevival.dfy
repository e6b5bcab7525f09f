/** When a missing `state.json` can come back without a new create. */
module LifecycleRevival {
  import opened Wrappers
  import opened Lifecycle
  import opened LifecycleInv
  import opened LifecycleShared
  import opened LifecycleTheorems

  /** An update of this create is past its test that the file exists (or, for the first
      version, that it does not), and the temporary file it needs has not been removed. */
  predicate InFlight(sh: Shared, c: Create, i: nat) {
    || c.server.SrvLoad? || c.server.SrvCheck? || c.server.SrvTemp?
    || (c.server.SrvRename? && ByServer(i) in sh.temps)
    || c.wasm.WsmTemp?
    || (c.wasm.WsmRename? && ByWasm(i) in sh.temps)
  }

  ghost predicate CanReturn(w: World) {
    w.sh.dir && exists i :: 0 <= i < |w.creates| && InFlight(w.sh, w.creates[i], i)
  }

  ghost predicate NoBegin(steps: seq<Step>) { forall k :: 0 <= k < |steps| ==> !steps[k].Begin? }

  // ---- it cannot come back unless an update is in flight ----

  lemma ServerTakesOff(sh: Shared, c: Create, i: nat, s: ServerStep, gone: set<nat>, sh': Shared, c': Create)
    requires ServerNext(sh, c, i, s, gone) == Some((sh', c')) && sh.state.None? && !InFlight(sh, c, i)
    ensures sh'.state.None? && !InFlight(sh', c', i) && sh'.temps <= sh.temps && (sh'.dir ==> sh.dir)
  {
  }

  lemma WasmTakesOff(sh: Shared, c: Create, i: nat, s: WasmStep, ready: bool, writers: bool, sh': Shared, c': Create)
    requires WasmNext(sh, c, i, s, ready, writers) == Some((sh', c')) && sh.state.None? && !InFlight(sh, c, i)
    ensures sh'.state.None? && !InFlight(sh', c', i) && sh'.temps <= sh.temps && (sh'.dir ==> sh.dir)
  {
  }

  lemma ProcessTakesOff(w: World, i: nat, p: ProcessStep)
    requires i < |w.creates| && ProcessNext(w, i, p).Some? && w.sh.state.None? && !InFlight(w.sh, w.creates[i], i)
    ensures var (sh, c) := ProcessNext(w, i, p).value;
            sh.state.None? && !InFlight(sh, c, i) && sh.temps <= w.sh.temps && (sh.dir ==> w.sh.dir)
  {
    var c, r := w.creates[i], ProcessNext(w, i, p).value;
    match p
    case ServerDo(x) => ServerTakesOff(w.sh, c, i, x, DepartedEntry(w), r.0, r.1);
    case ChildDo(_) =>
    case DaemonDo(_) =>
    case WasmDo(x) =>
      WasmTakesOff(w.sh, c, i, x, IsReady(w, c), IsWritten(w, c), r.0, r.1);
  }

  lemma FewerTemps(sh: Shared, sh': Shared, c: Create, i: nat)
    requires sh'.temps <= sh.temps && !InFlight(sh, c, i)
    ensures !InFlight(sh', c, i)
  {
  }

  /** Everything but a process step can only take temporary files away. */
  lemma OthersOnlyRemove(w: World, s: Step, w': World)
    requires Next(w, s) == Some(w') && !s.ProcessDo? && !s.Begin?
    ensures w'.creates == w.creates && w'.sh.temps <= w.sh.temps && (w'.sh.dir ==> w.sh.dir)
  {
  }

  lemma StaysMissingStep(w: World, s: Step, w': World)
    requires SharedInv(w.sh) && Next(w, s) == Some(w') && !s.Begin?
    requires w.sh.state.None? && !CanReturn(w)
    ensures w'.sh.state.None? && !CanReturn(w')
  {
    if !w.sh.dir {
      StepFromGone(w, s, w');
      StepKeepsShared(w, s, w');
    } else if s.ProcessDo? {
      ProcessTakesOff(w, s.i, s.process);
      SetCreateNoFlight(w, s.i, w'.sh, w'.creates[s.i]);
    } else {
      OthersRemoveState(w, s, w');
      OthersOnlyRemove(w, s, w');
      forall i | 0 <= i < |w'.creates| ensures !InFlight(w'.sh, w'.creates[i], i) {
        FewerTemps(w.sh, w'.sh, w.creates[i], i);
      }
    }
  }

  lemma SetCreateNoFlight(w: World, i: nat, sh: Shared, c: Create)
    requires i < |w.creates| && sh.temps <= w.sh.temps && !InFlight(sh, c, i)
    requires forall j :: 0 <= j < |w.creates| ==> !InFlight(w.sh, w.creates[j], j)
    ensures !CanReturn(SetCreate(w, i, sh, c))
  {
    forall j | 0 <= j < |w.creates| ensures !InFlight(sh, SetCreate(w, i, sh, c).creates[j], j) {
      if j != i { FewerTemps(w.sh, sh, w.creates[j], j); }
    }
  }

  ghost predicate Missing(w: World) { Inv(w) && w.sh.state.None? && !CanReturn(w) }

  lemma StepKeepsMissing(w: World, s: Step, w': World)
    requires Next(w, s) == Some(w') && !s.Begin? && Missing(w)
    ensures Missing(w')
  {
    StepKeeps(w, s, w');
    StaysMissingStep(w, s, w');
  }

  lemma {:induction false} MissingAlong(ws: seq<World>, k: nat)
    requires k < |ws| && Missing(ws[0]) && forall m :: 0 <= m < |ws| - 1 && Missing(ws[m]) ==> Missing(ws[m + 1])
    ensures Missing(ws[k])
  {
    if k > 0 {
      MissingAlong(ws, k - 1);
      assert Missing(ws[k - 1 + 1]);
    }
  }

  lemma StaysMissing(ws: seq<World>, steps: seq<Step>, k: nat)
    requires IsPath(ws, steps) && NoBegin(steps) && k < |ws| && Missing(ws[0])
    ensures Missing(ws[k])
  {
    forall m | 0 <= m < |ws| - 1 && Missing(ws[m]) ensures Missing(ws[m + 1]) { StepKeepsMissing(ws[m], steps[m], ws[m + 1]); }
    MissingAlong(ws, k);
  }

  // ---- it can come back when one is ----

  lemma PrependStep(w: World, s: Step, ws: seq<World>, steps: seq<Step>)
    requires IsPath(ws, steps) && NoBegin(steps) && Next(w, s) == Some(ws[0]) && !s.Begin?
    ensures IsPath([w] + ws, [s] + steps) && NoBegin([s] + steps)
  {
    var vs, ts := [w] + ws, [s] + steps;
    forall k | 0 <= k < |ts| ensures Next(vs[k], ts[k]) == Some(vs[k + 1]) {
      if k > 0 { assert ts[k] == steps[k - 1] && vs[k] == ws[k - 1] && vs[k + 1] == ws[k]; }
    }
  }

  /** The steps that finish an update in flight. */
  function Remaining(c: Create): nat {
    if c.wasm.WsmRename? then 1
    else if c.wasm.WsmTemp? then 2
    else if c.server.SrvRename? then 1
    else if c.server.SrvTemp? then 2
    else if c.server.SrvCheck? then 3
    else 4
  }

  function Finisher(c: Create): ProcessStep {
    if c.wasm.WsmRename? then WasmDo(UpdateRename)
    else if c.wasm.WsmTemp? then WasmDo(UpdateTemp)
    else if c.server.SrvRename? then ServerDo(RenameOk)
    else if c.server.SrvTemp? then ServerDo(TempOk)
    else if c.server.SrvCheck? then ServerDo(CheckOk)
    else ServerDo(BundleOk(false))
  }

  lemma FinishStep(w: World, i: nat)
    requires w.sh.dir && w.sh.state.None? && i < |w.creates| && CreateInv(w.creates[i])
    requires InFlight(w.sh, w.creates[i], i)
    ensures ProcessNext(w, i, Finisher(w.creates[i])).Some?
    ensures var (sh, c) := ProcessNext(w, i, Finisher(w.creates[i])).value;
            || sh.state.Some?
            || (sh.dir && sh.state.None? && InFlight(sh, c, i) && CreateInv(c) && Remaining(c) < Remaining(w.creates[i]))
  {
    ProcessKeeps(w, i, Finisher(w.creates[i]));
  }

  lemma {:induction false} FinishUpdate(w: World, i: nat) returns (ws: seq<World>, steps: seq<Step>)
    requires w.sh.dir && w.sh.state.None? && i < |w.creates| && CreateInv(w.creates[i])
    requires InFlight(w.sh, w.creates[i], i)
    ensures IsPath(ws, steps) && NoBegin(steps) && ws[0] == w && ws[|ws| - 1].sh.state.Some?
    decreases Remaining(w.creates[i])
  {
    FinishStep(w, i);
    var s := ProcessDo(i, Finisher(w.creates[i]));
    var r := ProcessNext(w, i, Finisher(w.creates[i])).value;
    var w' := SetCreate(w, i, r.0, r.1);
    var vs, ts := [w'], [];
    if r.0.state.None? { vs, ts := FinishUpdate(w', i); }
    PrependStep(w, s, vs, ts);
    ws, steps := [w] + vs, [s] + ts;
  }

  /** A missing `state.json` can come back without a new create if and only if the directory
      is there and some update is in flight. */
  lemma ReturnsExactly(w: World)
    requires Inv(w) && w.sh.state.None?
    ensures CanReturn(w) <==>
            exists ws: seq<World>, steps: seq<Step> :: IsPath(ws, steps) && NoBegin(steps) && ws[0] == w && ws[|ws| - 1].sh.state.Some?
  {
    if CanReturn(w) {
      var i :| 0 <= i < |w.creates| && InFlight(w.sh, w.creates[i], i);
      var ws, steps := FinishUpdate(w, i);
    } else {
      forall ws: seq<World>, steps: seq<Step> | IsPath(ws, steps) && NoBegin(steps) && ws[0] == w ensures ws[|ws| - 1].sh.state.None? {
        StaysMissing(ws, steps, |ws| - 1);
      }
    }
  }
}
