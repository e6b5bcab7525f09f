/** Conservation of the bytes that starts send through a FIFO, over every run. */
module LifecycleBytes {
  import opened Wrappers
  import opened Lifecycle
  import opened LifecycleInv
  import opened LifecycleShared
  import opened LifecycleTheorems

  /** The step is the write of some start into this FIFO. */
  predicate WritesTo(w: World, s: Step, f: nat) {
    s.CallDo? && s.what.StartWrite? && s.c < |w.calls| && w.calls[s.c].Start? && w.calls[s.c].fd == Some(f)
  }

  /** The step is the read of a byte from this FIFO by some wasm process. */
  predicate ReadsFrom(w: World, s: Step, f: nat) {
    s.ProcessDo? && s.process.WasmDo? && s.process.wasm.ReadByte? && s.i < |w.creates| && w.creates[s.i].fifo == Some(f)
  }

  function In(w: World, s: Step, f: nat): nat { if WritesTo(w, s, f) then 1 else 0 }
  function Out(w: World, s: Step, f: nat): nat { if ReadsFrom(w, s, f) then 1 else 0 }

  function Writes(ws: seq<World>, steps: seq<Step>, f: nat, k: nat): nat
    requires k <= |steps| <= |ws|
  {
    if k == 0 then 0 else Writes(ws, steps, f, k - 1) + In(ws[k - 1], steps[k - 1], f)
  }

  function Reads(ws: seq<World>, steps: seq<Step>, f: nat, k: nat): nat
    requires k <= |steps| <= |ws|
  {
    if k == 0 then 0 else Reads(ws, steps, f, k - 1) + Out(ws[k - 1], steps[k - 1], f)
  }

  function Bytes(sh: Shared, f: nat): nat { if f < |sh.fifos| then sh.fifos[f].bytes else 0 }

  lemma ServerLeavesBytes(sh: Shared, c: Create, i: nat, s: ServerStep, gone: set<nat>, f: nat)
    requires ServerNext(sh, c, i, s, gone).Some?
    ensures Bytes(ServerNext(sh, c, i, s, gone).value.0, f) == Bytes(sh, f)
  {
  }

  lemma WasmTakesBytes(sh: Shared, c: Create, i: nat, s: WasmStep, ready: bool, writers: bool, f: nat)
    requires WasmNext(sh, c, i, s, ready, writers).Some?
    ensures Bytes(WasmNext(sh, c, i, s, ready, writers).value.0, f) + (if s.ReadByte? && c.fifo == Some(f) then 1 else 0) == Bytes(sh, f)
  {
  }

  lemma ProcessTakesBytes(w: World, i: nat, p: ProcessStep, f: nat)
    requires i < |w.creates| && ProcessNext(w, i, p).Some?
    ensures Bytes(ProcessNext(w, i, p).value.0, f) + (if ReadsFrom(w, ProcessDo(i, p), f) then 1 else 0) == Bytes(w.sh, f)
  {
    var c := w.creates[i];
    match p
    case ServerDo(x) => ServerLeavesBytes(w.sh, c, i, x, DepartedEntry(w), f);
    case ChildDo(_) =>
    case DaemonDo(_) =>
    case WasmDo(x) => WasmTakesBytes(w.sh, c, i, x, IsReady(w, c), IsWritten(w, c), f);
  }

  lemma CallAddsBytes(w: World, c: Call, s: CallStep, f: nat)
    requires CallNext(w, c, s).Some?
    ensures Bytes(CallNext(w, c, s).value.0, f) == Bytes(w.sh, f) + if s.StartWrite? && c.Start? && c.fd == Some(f) then 1 else 0
  {
  }

  lemma StepBalances(w: World, s: Step, w': World, f: nat)
    requires Next(w, s) == Some(w')
    ensures Bytes(w'.sh, f) + Out(w, s, f) == Bytes(w.sh, f) + In(w, s, f)
  {
    match s
    case ProcessDo(i, p) => ProcessTakesBytes(w, i, p, f);
    case CallDo(c, x) => CallAddsBytes(w, w.calls[c], x, f);
    case _ =>
  }

  predicate Balanced(ws: seq<World>, steps: seq<Step>, f: nat) {
    && |ws| == |steps| + 1 && Bytes(ws[0].sh, f) == 0
    && forall k :: 0 <= k < |steps| ==> Bytes(ws[k + 1].sh, f) + Out(ws[k], steps[k], f) == Bytes(ws[k].sh, f) + In(ws[k], steps[k], f)
  }

  lemma RunIsBalanced(ws: seq<World>, steps: seq<Step>, f: nat)
    requires IsRun(ws, steps)
    ensures Balanced(ws, steps, f)
  {
    forall k | 0 <= k < |steps|
      ensures Bytes(ws[k + 1].sh, f) + Out(ws[k], steps[k], f) == Bytes(ws[k].sh, f) + In(ws[k], steps[k], f) {
      StepBalances(ws[k], steps[k], ws[k + 1], f);
    }
  }

  lemma {:induction false} BalancedSum(ws: seq<World>, steps: seq<Step>, f: nat, k: nat)
    requires Balanced(ws, steps, f) && k < |ws|
    ensures Writes(ws, steps, f, k) == Bytes(ws[k].sh, f) + Reads(ws, steps, f, k)
  {
    if k > 0 {
      BalancedSum(ws, steps, f, k - 1);
      assert Bytes(ws[k - 1 + 1].sh, f) + Out(ws[k - 1], steps[k - 1], f) == Bytes(ws[k - 1].sh, f) + In(ws[k - 1], steps[k - 1], f);
    }
  }

  /** At every moment of every run, the writes that starts have made into a FIFO are the
      bytes still in it and the bytes wasm processes have read from it. */
  lemma BytesConserved(ws: seq<World>, steps: seq<Step>, f: nat, k: nat)
    requires IsRun(ws, steps) && k < |ws|
    ensures Writes(ws, steps, f, k) == Bytes(ws[k].sh, f) + Reads(ws, steps, f, k)
  {
    RunIsBalanced(ws, steps, f);
    BalancedSum(ws, steps, f, k);
  }

  // ---- whose byte it was ----

  /** The reads from this FIFO by creates other than number i. */
  function OtherReads(ws: seq<World>, steps: seq<Step>, f: nat, i: nat, k: nat): nat
    requires k <= |steps| <= |ws|
  {
    if k == 0 then 0
    else OtherReads(ws, steps, f, i, k - 1) + (if steps[k - 1].ProcessDo? && steps[k - 1].i == i then 0 else Out(ws[k - 1], steps[k - 1], f))
  }

  predicate OwnRead(s: Step, i: nat) { s.ProcessDo? && s.i == i && s.process.WasmDo? && s.process.wasm.ReadByte? }

  lemma {:induction false} NoOwnReads(ws: seq<World>, steps: seq<Step>, f: nat, i: nat, k: nat)
    requires k <= |steps| <= |ws| && forall m :: 0 <= m < k ==> !OwnRead(steps[m], i)
    ensures OtherReads(ws, steps, f, i, k) == Reads(ws, steps, f, k)
  {
    if k > 0 {
      NoOwnReads(ws, steps, f, i, k - 1);
      assert !OwnRead(steps[k - 1], i);
    }
  }

  lemma {:induction false} SomeOtherRead(ws: seq<World>, steps: seq<Step>, f: nat, i: nat, k: nat)
    requires k <= |steps| <= |ws| && OtherReads(ws, steps, f, i, k) > 0
    ensures exists m :: 0 <= m < k && ReadsFrom(ws[m], steps[m], f) && steps[m].i != i
  {
    if OtherReads(ws, steps, f, i, k - 1) > 0 {
      SomeOtherRead(ws, steps, f, i, k - 1);
    } else {
      assert ReadsFrom(ws[k - 1], steps[k - 1], f) && steps[k - 1].i != i;
    }
  }

  /** How far a create has come in a world it may not have begun in. */
  function RankIn(w: World, i: nat): nat { if i < |w.creates| then Rank(w.creates[i].mem.status) else 0 }

  ghost predicate RankGrows(ws: seq<World>, i: nat) {
    forall m :: 0 <= m < |ws| - 1 ==> RankIn(ws[m], i) <= RankIn(ws[m + 1], i)
  }

  lemma RunRankGrows(ws: seq<World>, steps: seq<Step>, i: nat)
    requires IsRun(ws, steps)
    ensures RankGrows(ws, i)
  {
    forall m | 0 <= m < |ws| - 1 ensures RankIn(ws[m], i) <= RankIn(ws[m + 1], i) {
      RunInv(ws, steps, m);
      StepExtends(ws[m], steps[m], ws[m + 1]);
    }
  }

  lemma {:induction false} RankAlong(ws: seq<World>, i: nat, m: nat, k: nat)
    requires RankGrows(ws, i) && m <= k < |ws|
    ensures RankIn(ws[m], i) <= RankIn(ws[k], i)
    decreases k - m
  {
    if m < k {
      RankAlong(ws, i, m, k - 1);
      assert RankIn(ws[k - 1], i) <= RankIn(ws[k - 1 + 1], i);
    }
  }

  lemma ReadRaisesRank(w: World, s: Step, w': World, i: nat)
    requires Next(w, s) == Some(w') && OwnRead(s, i)
    ensures RankIn(w', i) == 3
  {
  }

  /** A create that has not passed the gate has read nothing. */
  lemma NotYetRead(ws: seq<World>, steps: seq<Step>, i: nat, k: nat)
    requires IsRun(ws, steps) && k < |ws| && RankIn(ws[k], i) < 3
    ensures forall m :: 0 <= m < k ==> !OwnRead(steps[m], i)
  {
    RunRankGrows(ws, steps, i);
    forall m | 0 <= m < k ensures !OwnRead(steps[m], i) {
      if OwnRead(steps[m], i) {
        ReadRaisesRank(ws[m], steps[m], ws[m + 1], i);
        RankAlong(ws, i, m + 1, k);
      }
    }
  }

  /** Exactly when the byte of a successful start is missing for a create that has yet to
      pass its gate: when other creates that read the same FIFO have taken every byte. */
  lemma ByteMissingExactly(ws: seq<World>, steps: seq<Step>, k: nat, i: nat, c: nat)
    requires IsRun(ws, steps) && k < |ws| && i < |ws[k].creates| && c < |ws[k].calls|
    requires Rank(ws[k].creates[i].mem.status) < 3
    requires ws[k].calls[c].Start? && ws[k].calls[c].st.StDone? && ws[k].calls[c].fd == ws[k].creates[i].fifo
    ensures ws[k].creates[i].fifo.Some? && ws[k].creates[i].fifo.value < |ws[k].sh.fifos|
    ensures var f := ws[k].creates[i].fifo.value;
            && Writes(ws, steps, f, k) > 0
            && (ws[k].sh.fifos[f].bytes == 0 <==> OtherReads(ws, steps, f, i, k) == Writes(ws, steps, f, k))
            && (ws[k].sh.fifos[f].bytes == 0 ==> exists m :: 0 <= m < k && ReadsFrom(ws[m], steps[m], f) && steps[m].i != i)
  {
    RunInv(ws, steps, k);
    assert CallInv(ws[k].calls[c]);
    var f := ws[k].creates[i].fifo.value;
    BytesConserved(ws, steps, f, k);
    NotYetRead(ws, steps, i, k);
    NoOwnReads(ws, steps, f, i, k);
    RunIsCounted(ws, steps, f);
    CountedSum(ws, steps, f, k);
    if ws[k].sh.fifos[f].bytes == 0 { SomeOtherRead(ws, steps, f, i, k); }
  }

  // ---- the count of writes that is kept with a FIFO ----

  function Written(sh: Shared, f: nat): nat { if f < |sh.fifos| then sh.fifos[f].written else 0 }

  lemma ProcessLeavesWritten(w: World, i: nat, p: ProcessStep, f: nat)
    requires i < |w.creates| && ProcessNext(w, i, p).Some?
    ensures Written(ProcessNext(w, i, p).value.0, f) == Written(w.sh, f)
  {
    var c, r := w.creates[i], ProcessNext(w, i, p).value;
    match p
    case ServerDo(x) => ServerEffect(w.sh, c, i, x, DepartedEntry(w), r.0, r.1);
    case ChildDo(_) =>
    case DaemonDo(_) =>
    case WasmDo(x) => WasmEffect(w.sh, c, i, x, IsReady(w, c), IsWritten(w, c), r.0, r.1);
  }

  lemma CallAddsWritten(w: World, c: Call, s: CallStep, f: nat)
    requires CallNext(w, c, s).Some?
    ensures Written(CallNext(w, c, s).value.0, f) == Written(w.sh, f) + if s.StartWrite? && c.Start? && c.fd == Some(f) then 1 else 0
  {
  }

  lemma StepCounts(w: World, s: Step, w': World, f: nat)
    requires Next(w, s) == Some(w')
    ensures Written(w'.sh, f) == Written(w.sh, f) + In(w, s, f)
  {
    match s
    case ProcessDo(i, p) => ProcessLeavesWritten(w, i, p, f);
    case CallDo(c, x) => CallAddsWritten(w, w.calls[c], x, f);
    case _ =>
  }

  predicate Counted(ws: seq<World>, steps: seq<Step>, f: nat) {
    && |ws| == |steps| + 1 && Written(ws[0].sh, f) == 0
    && forall k :: 0 <= k < |steps| ==> Written(ws[k + 1].sh, f) == Written(ws[k].sh, f) + In(ws[k], steps[k], f)
  }

  lemma RunIsCounted(ws: seq<World>, steps: seq<Step>, f: nat)
    requires IsRun(ws, steps)
    ensures Counted(ws, steps, f)
  {
    forall k | 0 <= k < |steps| ensures Written(ws[k + 1].sh, f) == Written(ws[k].sh, f) + In(ws[k], steps[k], f) {
      StepCounts(ws[k], steps[k], ws[k + 1], f);
    }
  }

  lemma {:induction false} CountedSum(ws: seq<World>, steps: seq<Step>, f: nat, k: nat)
    requires Counted(ws, steps, f) && k < |ws|
    ensures Writes(ws, steps, f, k) == Written(ws[k].sh, f)
  {
    if k > 0 {
      CountedSum(ws, steps, f, k - 1);
      assert Written(ws[k - 1 + 1].sh, f) == Written(ws[k - 1].sh, f) + In(ws[k - 1], steps[k - 1], f);
    }
  }
}
