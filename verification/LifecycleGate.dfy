/** Exactly when the start gate of a waiting wasm process can be passed. */
module LifecycleGate {
  import opened Wrappers
  import opened StateText
  import opened Lifecycle
  import opened LifecycleInv
  import opened LifecycleShared
  import opened LifecycleTheorems

  predicate Opens(s: Step) { s.CallDo? && s.what.StartOpen? }

  ghost predicate NoOpen(steps: seq<Step>) { forall k :: 0 <= k < |steps| ==> !Opens(steps[k]) }

  /** The path takes create number i past the gate, and no start opens anything on it. */
  ghost predicate PassesGate(ws: seq<World>, steps: seq<Step>, w: World, i: nat) {
    && IsPath(ws, steps) && NoOpen(steps) && ws[0] == w
    && i < |ws[|ws| - 1].creates| && ws[|ws| - 1].creates[i].mem.status == Running
  }

  ghost predicate CanPass(w: World, i: nat) { exists ws: seq<World>, steps: seq<Step> :: PassesGate(ws, steps, w, i) }

  // ---- without an opener it never is ----

  /** A create that reads a FIFO which no start has opened for it. */
  ghost predicate Shut(w: World, i: nat) {
    Inv(w) && i < |w.creates| && w.creates[i].fifo.Some? && !OpenedFor(w, w.creates[i])
  }

  lemma CallOpens(w: World, c: Call, s: CallStep)
    requires CallNext(w, c, s).Some? && !s.StartOpen? && c.Start?
    ensures var c' := CallNext(w, c, s).value.1; c'.Start? && c'.fd == c.fd
  {
  }

  lemma CallKind(w: World, c: Call, s: CallStep)
    requires CallNext(w, c, s).Some?
    ensures c.Start? == CallNext(w, c, s).value.1.Start?
  {
  }

  /** Only a start's open gives a start a FIFO. */
  lemma NobodyOpens(w: World, s: Step, w': World, d: nat)
    requires Next(w, s) == Some(w') && !Opens(s) && d < |w'.calls| && w'.calls[d].Start? && w'.calls[d].fd.Some?
    ensures d < |w.calls| && w.calls[d].Start? && w.calls[d].fd == w'.calls[d].fd
  {
    if s.CallDo? && s.c == d {
      CallKind(w, w.calls[d], s.what);
      CallOpens(w, w.calls[d], s.what);
    }
  }

  lemma StepKeepsShut(w: World, s: Step, w': World, i: nat)
    requires Shut(w, i) && Next(w, s) == Some(w') && !Opens(s)
    ensures Shut(w', i)
  {
    StepKeeps(w, s, w');
    assert Grows(w.creates[i], w'.creates[i]);
    if OpenedFor(w', w'.creates[i]) {
      var d :| 0 <= d < |w'.calls| && w'.calls[d].Start? && w'.calls[d].fd.Some? && w'.calls[d].fd == w'.creates[i].fifo && d !in w'.creates[i].past;
      NobodyOpens(w, s, w', d);
      assert OpenedFor(w, w.creates[i]);
    }
  }

  lemma {:induction false} ShutAlong(ws: seq<World>, k: nat, i: nat)
    requires k < |ws| && Shut(ws[0], i) && forall m :: 0 <= m < |ws| - 1 && Shut(ws[m], i) ==> Shut(ws[m + 1], i)
    ensures Shut(ws[k], i)
  {
    if k > 0 {
      ShutAlong(ws, k - 1, i);
      assert Shut(ws[k - 1 + 1], i);
    }
  }

  lemma StaysShut(ws: seq<World>, steps: seq<Step>, i: nat)
    requires IsPath(ws, steps) && NoOpen(steps) && Shut(ws[0], i)
    ensures Shut(ws[|ws| - 1], i)
  {
    forall m | 0 <= m < |ws| - 1 && Shut(ws[m], i) ensures Shut(ws[m + 1], i) { StepKeepsShut(ws[m], steps[m], ws[m + 1], i); }
    ShutAlong(ws, |ws| - 1, i);
  }

  lemma ShutIsWaiting(w: World, i: nat)
    requires Shut(w, i)
    ensures Rank(w.creates[i].mem.status) < 3
  {
    assert !AtOrPastGate(w.creates[i]);
  }

  // ---- with one it can be ----

  lemma PassAfter(w: World, s: Step, w': World, i: nat)
    requires Next(w, s) == Some(w') && !Opens(s) && CanPass(w', i)
    ensures CanPass(w, i)
  {
    var ws, steps :| PassesGate(ws, steps, w', i);
    var vs, ts := [w] + ws, [s] + steps;
    forall k | 0 <= k < |ts| ensures Next(vs[k], ts[k]) == Some(vs[k + 1]) && !Opens(ts[k]) {
      if k > 0 { assert ts[k] == steps[k - 1] && vs[k] == ws[k - 1] && vs[k + 1] == ws[k]; }
    }
    assert vs[|vs| - 1] == ws[|ws| - 1];
    assert PassesGate(vs, ts, w, i);
  }

  lemma AlreadyPassed(w: World, i: nat)
    requires i < |w.creates| && w.creates[i].mem.status == Running
    ensures CanPass(w, i)
  {
    assert PassesGate([w], [], w, i);
  }

  function GateRead(w: World, c: Create): WasmStep
    requires c.fifo.Some? && c.fifo.value < |w.sh.fifos|
  {
    if w.sh.fifos[c.fifo.value].bytes > 0 then ReadByte("") else ReadNothing("")
  }

  lemma ReadPasses(w: World, i: nat)
    requires i < |w.creates| && w.creates[i].wasm.WsmRead?
    requires w.creates[i].fifo.Some? && w.creates[i].fifo.value < |w.sh.fifos|
    requires w.sh.fifos[w.creates[i].fifo.value].bytes > 0 || !HasWriter(w, w.creates[i].fifo.value)
    ensures CanPass(w, i)
  {
    var p := WasmDo(GateRead(w, w.creates[i]));
    var r := ProcessNext(w, i, p).value;
    var w' := SetCreate(w, i, r.0, r.1);
    AlreadyPassed(w', i);
    PassAfter(w, ProcessDo(i, p), w', i);
  }

  lemma ReadyPasses(w: World, i: nat)
    requires i < |w.creates| && w.creates[i].wasm.WsmSelect?
    requires w.creates[i].fifo.Some? && w.creates[i].fifo.value < |w.sh.fifos| && Ready(w, w.creates[i])
    ensures CanPass(w, i)
  {
    var w' := SetCreate(w, i, w.sh, w.creates[i].(wasm := WsmRead));
    assert Next(w, ProcessDo(i, WasmDo(SelectOk))) == Some(w');
    assert w'.calls == w.calls && w'.creates[i].fifo == w.creates[i].fifo;
    ReadPasses(w', i);
    PassAfter(w, ProcessDo(i, WasmDo(SelectOk)), w', i);
  }

  /** The starts that hold the FIFO open. */
  function Holders(w: World, f: nat): set<nat> { set c: nat | c < |w.calls| && HoldsOpen(w.calls[c], f) }

  lemma NobodyHolds(w: World, f: nat)
    ensures Holders(w, f) == {} ==> !HasWriter(w, f)
  {
    assert forall c: nat :: c < |w.calls| && HoldsOpen(w.calls[c], f) ==> c in Holders(w, f);
  }

  lemma HolderLeaves(w: World, c: nat, f: nat) returns (w': World)
    requires c in Holders(w, f)
    ensures Next(w, CallDo(c, StartFails)) == Some(w')
    ensures w'.sh == w.sh && w'.creates == w.creates && |w'.calls| == |w.calls|
    ensures Holders(w', f) == Holders(w, f) - {c}
    ensures forall d :: 0 <= d < |w.calls| && w.calls[d].Start? ==> w'.calls[d].Start? && w'.calls[d].fd == w.calls[d].fd
  {
    w' := World(w.sh, w.creates, w.calls[c := w.calls[c].(st := StFailed)]);
  }

  /** Once every start that holds the FIFO has let it go, select returns. */
  lemma {:induction false} OpenedPasses(w: World, i: nat, f: nat)
    requires i < |w.creates| && w.creates[i].wasm.WsmSelect?
    requires w.creates[i].fifo == Some(f) && f < |w.sh.fifos| && OpenedFor(w, w.creates[i])
    ensures CanPass(w, i)
    decreases |Holders(w, f)|
  {
    if c :| c in Holders(w, f) {
      var w' := HolderLeaves(w, c, f);
      assert OpenedFor(w', w'.creates[i]) by {
        var d :| 0 <= d < |w.calls| && w.calls[d].Start? && w.calls[d].fd.Some? && w.calls[d].fd == w.creates[i].fifo && d !in w.creates[i].past;
        assert w'.calls[d].Start? && w'.calls[d].fd == w.calls[d].fd;
      }
      OpenedPasses(w', i, f);
      PassAfter(w, CallDo(c, StartFails), w', i);
    } else {
      NobodyHolds(w, f);
      ReadyPasses(w, i);
    }
  }

  // ---- the theorems ----

  /** A wasm process that waits at its gate can get past it without any further open if and
      only if some start has opened its FIFO for it, whether or not a byte was written. */
  lemma GateExact(w: World, i: nat)
    requires Inv(w) && i < |w.creates| && w.creates[i].wasm.WsmSelect?
    ensures CanPass(w, i) <==> OpenedFor(w, w.creates[i])
  {
    assert CreateInv(w.creates[i]);
    if OpenedFor(w, w.creates[i]) {
      OpenedPasses(w, i, w.creates[i].fifo.value);
    } else {
      forall ws: seq<World>, steps: seq<Step> | PassesGate(ws, steps, w, i) ensures false {
        StaysShut(ws, steps, i);
        ShutIsWaiting(ws[|ws| - 1], i);
      }
    }
  }

  /** No start is lost, deletes and re-creates included: a start that succeeded on the FIFO
      of a create has opened it for that create, whenever the create opened its own end and
      whichever status the start had read. So select returns as soon as no start holds the
      FIFO, and a wasm process waiting at the gate can pass. */
  lemma NoStartLost(ws: seq<World>, steps: seq<Step>, k: nat, i: nat, c: nat)
    requires IsRun(ws, steps) && k < |ws| && i < |ws[k].creates| && c < |ws[k].calls|
    requires ws[k].calls[c].Start? && ws[k].calls[c].st.StDone? && ws[k].calls[c].fd == ws[k].creates[i].fifo
    ensures ws[k].creates[i].fifo.Some? && ws[k].creates[i].fifo.value < |ws[k].sh.fifos|
    ensures OpenedFor(ws[k], ws[k].creates[i])
    ensures Ready(ws[k], ws[k].creates[i]) || HasWriter(ws[k], ws[k].creates[i].fifo.value)
    ensures ws[k].creates[i].wasm.WsmSelect? ==> CanPass(ws[k], i)
  {
    RunInv(ws, steps, k);
    assert CallInv(ws[k].calls[c]);
    TakenOpens(ws[k], i);
    if ws[k].creates[i].wasm.WsmSelect? { GateExact(ws[k], i); }
  }
}
