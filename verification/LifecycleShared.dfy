/** Invariants that tie the files and FIFOs to the processes that use them. */
module LifecycleShared {
  import opened Wrappers
  import opened StateText
  import opened Lifecycle
  import opened LifecycleInv

  // ---- the directory and the bytes in the FIFOs ----

  /** Nothing is in a directory that does not exist, and no byte is made up or lost. */
  predicate SharedInv(sh: Shared) {
    && (!sh.dir ==> sh.state.None? && sh.entry.None? && sh.temps == {})
    && (sh.entry.Some? ==> sh.entry.value < |sh.fifos|)
    && (forall f :: 0 <= f < |sh.fifos| ==> sh.fifos[f].written == sh.fifos[f].bytes + sh.fifos[f].consumed)
  }

  lemma StepKeepsShared(w: World, s: Step, w': World)
    requires SharedInv(w.sh) && Next(w, s) == Some(w')
    ensures SharedInv(w'.sh)
  {
    match s
    case Begin(_, _) =>
    case ProcessDo(i, p) => ProcessKeepsShared(w, i, p);
    case Remove(_, item) => RemoveKeepsShared(w.sh, item);
    case NewCall(_) =>
    case CallDo(c, x) => CallKeepsShared(w, w.calls[c], x);
  }

  lemma ServerKeepsShared(sh: Shared, c: Create, i: nat, s: ServerStep, gone: set<nat>, sh': Shared, c': Create)
    requires SharedInv(sh) && ServerNext(sh, c, i, s, gone) == Some((sh', c'))
    ensures SharedInv(sh')
  {
  }

  lemma WasmKeepsShared(sh: Shared, c: Create, i: nat, s: WasmStep, ready: bool, writers: bool, sh': Shared, c': Create)
    requires SharedInv(sh) && WasmNext(sh, c, i, s, ready, writers) == Some((sh', c'))
    ensures SharedInv(sh')
  {
  }

  lemma ProcessKeepsShared(w: World, i: nat, p: ProcessStep)
    requires i < |w.creates| && SharedInv(w.sh) && ProcessNext(w, i, p).Some?
    ensures SharedInv(ProcessNext(w, i, p).value.0)
  {
    var c, r := w.creates[i], ProcessNext(w, i, p).value;
    match p
    case ServerDo(x) => ServerKeepsShared(w.sh, c, i, x, DepartedEntry(w), r.0, r.1);
    case ChildDo(_) =>
    case DaemonDo(_) =>
    case WasmDo(x) => WasmKeepsShared(w.sh, c, i, x, IsReady(w, c), IsWritten(w, c), r.0, r.1);
  }

  lemma RemoveKeepsShared(sh: Shared, item: Item)
    requires SharedInv(sh) && RemoveNext(sh, item).Some?
    ensures SharedInv(RemoveNext(sh, item).value)
  {
  }

  lemma CallKeepsShared(w: World, c: Call, s: CallStep)
    requires SharedInv(w.sh) && CallNext(w, c, s).Some?
    ensures SharedInv(CallNext(w, c, s).value.0)
  {
  }

  // ---- every version of state.json is a true picture of its create ----

  /** A version that the create has published: it lies no further than the create has come,
      and under created and later it carries the pid that is already in the pid file. */
  predicate VersionOf(c: Create, v: View) {
    && 1 <= Rank(v.status) <= c.published
    && v.id == c.mem.id
    && PlainTimes(v)
    && (Rank(v.status) == 1 ==> v.pid == -1)
    && (Rank(v.status) >= 2 ==> c.pidFile == Some(c.pid) && v.pid == c.pid && c.pid > 0)
  }

  predicate FileOk(w: World, f: File) {
    f.owner < |w.creates| && VersionOf(w.creates[f.owner], f.view)
  }

  function SeenBy(c: Call): Option<File> {
    match c
    case Start(_, seen, _, _) => seen
    case Kill(_, seen, _) => seen
    case Delete(_, _) => None
  }

  ghost predicate FilesInv(w: World) {
    && (w.sh.state.Some? ==> FileOk(w, w.sh.state.value))
    && (forall c :: 0 <= c < |w.calls| && SeenBy(w.calls[c]).Some? ==> FileOk(w, SeenBy(w.calls[c]).value))
  }

  lemma VersionStays(a: Create, b: Create, v: View)
    requires VersionOf(a, v) && Grows(a, b)
    ensures VersionOf(b, v)
  {
  }

  lemma FileStays(w: World, w': World, f: File)
    requires FileOk(w, f) && Extends(w, w')
    ensures FileOk(w', f)
  {
    VersionStays(w.creates[f.owner], w'.creates[f.owner], f.view);
  }

  /** A process either leaves the file and its count alone or publishes the next version. */
  predicate PublishesNext(sh: Shared, c: Create, i: nat, sh': Shared, c': Create) {
    if c'.published == c.published then sh'.state == sh.state
    else sh'.state == Some(File(i, c'.mem)) && Rank(c'.mem.status) == c'.published == c.published + 1
  }

  lemma ServerPublishes(sh: Shared, c: Create, i: nat, s: ServerStep, gone: set<nat>, sh': Shared, c': Create)
    requires ProgressInv(c) && ServerNext(sh, c, i, s, gone) == Some((sh', c'))
    ensures PublishesNext(sh, c, i, sh', c')
  {
  }

  lemma WasmPublishes(sh: Shared, c: Create, i: nat, s: WasmStep, ready: bool, writers: bool, sh': Shared, c': Create)
    requires ProgressInv(c) && WasmNext(sh, c, i, s, ready, writers) == Some((sh', c'))
    ensures PublishesNext(sh, c, i, sh', c')
  {
  }

  lemma ProcessPublishes(w: World, i: nat, p: ProcessStep)
    requires i < |w.creates| && CreateInv(w.creates[i]) && ProcessNext(w, i, p).Some?
    ensures var (sh, c) := ProcessNext(w, i, p).value; PublishesNext(w.sh, w.creates[i], i, sh, c)
  {
    var c, r := w.creates[i], ProcessNext(w, i, p).value;
    match p
    case ServerDo(x) => ServerPublishes(w.sh, c, i, x, DepartedEntry(w), r.0, r.1);
    case ChildDo(_) =>
    case DaemonDo(_) =>
    case WasmDo(x) =>
      WasmPublishes(w.sh, c, i, x, IsReady(w, c), IsWritten(w, c), r.0, r.1);
  }

  /** The State object of a create that has just published it is a version of that create. */
  lemma OwnVersion(c: Create)
    requires CreateInv(c) && Rank(c.mem.status) == c.published >= 1
    ensures VersionOf(c, c.mem)
  {
  }

  /** What a process publishes is its own State object, at the rank it has then reached. */
  lemma PublishedIsVersion(w: World, i: nat, p: ProcessStep)
    requires i < |w.creates| && CreateInv(w.creates[i]) && ProcessNext(w, i, p).Some?
    requires ProcessNext(w, i, p).value.0.state != w.sh.state
    ensures var (sh, c) := ProcessNext(w, i, p).value; sh.state == Some(File(i, c.mem)) && VersionOf(c, c.mem)
  {
    ProcessPublishes(w, i, p);
    ProcessKeeps(w, i, p);
    OwnVersion(ProcessNext(w, i, p).value.1);
  }

  /** Besides processes, only removals touch `state.json`. */
  lemma OthersRemoveState(w: World, s: Step, w': World)
    requires Next(w, s) == Some(w') && !s.ProcessDo?
    ensures w'.sh.state == w.sh.state || w'.sh.state.None?
  {
  }

  lemma StateStaysTrue(w: World, s: Step, w': World)
    requires CreatesInv(w) && CallsInv(w) && FilesInv(w) && Next(w, s) == Some(w') && Extends(w, w')
    ensures w'.sh.state.Some? ==> FileOk(w', w'.sh.state.value)
  {
    if !s.ProcessDo? { OthersRemoveState(w, s, w'); }
    if w'.sh.state == w.sh.state {
      if w.sh.state.Some? { FileStays(w, w', w.sh.state.value); }
    } else if s.ProcessDo? {
      PublishedIsVersion(w, s.i, s.process);
    }
  }

  lemma StepKeepsFiles(w: World, s: Step, w': World)
    requires CreatesInv(w) && CallsInv(w) && FilesInv(w) && Next(w, s) == Some(w')
    ensures FilesInv(w')
  {
    StepExtends(w, s, w');
    StateStaysTrue(w, s, w');
    forall c | 0 <= c < |w'.calls| && SeenBy(w'.calls[c]).Some? ensures FileOk(w', SeenBy(w'.calls[c]).value) {
      if c < |w.calls| && SeenBy(w'.calls[c]) == SeenBy(w.calls[c]) {
        FileStays(w, w', SeenBy(w.calls[c]).value);
      } else if c < |w.calls| {
        SeenIsState(w, s, w', c);
        FileStays(w, w', w.sh.state.value);
      }
    }
  }

  /** A call that has just loaded a version loaded the current one. */
  lemma SeenIsState(w: World, s: Step, w': World, c: nat)
    requires CallsInv(w) && Next(w, s) == Some(w') && c < |w.calls| && c < |w'.calls|
    requires SeenBy(w'.calls[c]) != SeenBy(w.calls[c])
    ensures SeenBy(w'.calls[c]) == w.sh.state && w.sh.state.Some?
  {
  }

  // ---- the start gate ----

  /** Some create that reads this FIFO has passed the gate. */
  ghost predicate Passed(w: World, f: nat) {
    exists i :: 0 <= i < |w.creates| && w.creates[i].fifo == Some(f) && Rank(w.creates[i].mem.status) >= 3
  }

  /** Some start that has this FIFO open, or had it, got as far as its unlink. */
  ghost predicate Taken(w: World, f: nat) {
    exists c :: 0 <= c < |w.calls| && w.calls[c].Start? && w.calls[c].fd == Some(f) && w.calls[c].took.Some?
  }

  predicate AtOrPastGate(c: Create) { c.wasm.WsmRead? || Rank(c.mem.status) >= 3 }

  ghost predicate GateInv(w: World) {
    forall i :: 0 <= i < |w.creates| ==>
      && (w.creates[i].fifo.Some? ==> w.creates[i].fifo.value < |w.sh.fifos|)
      && (AtOrPastGate(w.creates[i]) ==> w.creates[i].fifo.Some? && OpenedFor(w, w.creates[i]))
  }

  ghost predicate FifoInv(w: World) {
    forall f :: 0 <= f < |w.sh.fifos| ==>
      && (w.sh.fifos[f].written > 0 ==> Taken(w, f))
      && (w.sh.fifos[f].consumed > 0 ==> Passed(w, f))
  }

  ghost predicate StartsInv(w: World) {
    forall c :: 0 <= c < |w.calls| && w.calls[c].Start? && w.calls[c].fd.Some? ==>
      && w.calls[c].fd.value < |w.sh.fifos|
      && (w.calls[c].st.StClose? || w.calls[c].st.StDone? ==> w.sh.fifos[w.calls[c].fd.value].written > 0)
  }

  /** A start that came and went before a create opened the FIFO gave up before its unlink. */
  predicate GaveUp(c: Call) { c.Start? && c.st.StFailed? && c.took.None? }

  ghost predicate PastInv(w: World) {
    forall i :: 0 <= i < |w.creates| ==>
      forall d :: d in w.creates[i].past ==> d < |w.calls| && GaveUp(w.calls[d])
  }

  lemma OpenedForStays(w: World, w': World, c: Create, c': Create)
    requires Extends(w, w') && OpenedFor(w, c) && Grows(c, c')
    ensures OpenedFor(w', c')
  {
    var d :| 0 <= d < |w.calls| && w.calls[d].Start? && w.calls[d].fd.Some? && w.calls[d].fd == c.fifo && d !in c.past;
    assert CallGrows(w.calls[d], w'.calls[d]);
  }

  lemma TakenStays(w: World, w': World, f: nat)
    requires Extends(w, w') && Taken(w, f)
    ensures Taken(w', f)
  {
    var c :| 0 <= c < |w.calls| && w.calls[c].Start? && w.calls[c].fd == Some(f) && w.calls[c].took.Some?;
    assert CallGrows(w.calls[c], w'.calls[c]);
  }

  lemma PassedStays(w: World, w': World, f: nat)
    requires Extends(w, w') && Passed(w, f)
    ensures Passed(w', f)
  {
    var i :| 0 <= i < |w.creates| && w.creates[i].fifo == Some(f) && Rank(w.creates[i].mem.status) >= 3;
    assert Grows(w.creates[i], w'.creates[i]);
  }

  /** Whoever took an entry took it after every create that reads its FIFO had opened it. */
  lemma TakenOpens(w: World, i: nat)
    requires PastInv(w) && i < |w.creates| && w.creates[i].fifo.Some? && Taken(w, w.creates[i].fifo.value)
    ensures OpenedFor(w, w.creates[i])
  {
    var c :| 0 <= c < |w.calls| && w.calls[c].Start? && w.calls[c].fd == w.creates[i].fifo && w.calls[c].took.Some?;
    assert c !in w.creates[i].past;
  }

  /** Only the wasm process comes to the gate. */
  lemma OthersKeepGate(w: World, i: nat, p: ProcessStep)
    requires i < |w.creates| && CreateInv(w.creates[i]) && !p.WasmDo?
    requires ProcessNext(w, i, p).Some? && AtOrPastGate(ProcessNext(w, i, p).value.1)
    ensures AtOrPastGate(w.creates[i])
  {
    var c, r := w.creates[i], ProcessNext(w, i, p).value;
    match p
    case ServerDo(x) => ServerKeepsGate(w.sh, c, i, x, DepartedEntry(w), r.0, r.1);
    case ChildDo(_) =>
    case DaemonDo(x) => DaemonKeepsGate(c, x, r.1);
    case WasmDo(_) =>
  }

  lemma ServerKeepsGate(sh: Shared, c: Create, i: nat, s: ServerStep, gone: set<nat>, sh': Shared, c': Create)
    requires CreateInv(c) && ServerNext(sh, c, i, s, gone) == Some((sh', c'))
    ensures AtOrPastGate(c') ==> AtOrPastGate(c)
  {
  }

  lemma DaemonKeepsGate(c: Create, s: DaemonStep, c': Create)
    requires DaemonNext(c, s) == Some(c')
    ensures AtOrPastGate(c') ==> AtOrPastGate(c)
  {
  }

  /** The wasm process comes to the gate only through select. */
  lemma GateNeedsSelect(w: World, i: nat, x: WasmStep)
    requires i < |w.creates| && CreateInv(w.creates[i])
    requires ProcessNext(w, i, WasmDo(x)).Some? && AtOrPastGate(ProcessNext(w, i, WasmDo(x)).value.1)
    requires !AtOrPastGate(w.creates[i])
    ensures w.creates[i].fifo.Some? && w.creates[i].fifo.value < |w.sh.fifos| && Ready(w, w.creates[i])
  {
    assert x.SelectOk?;
  }

  /** And select needs an opener. */
  lemma ReadyIsOpened(w: World, i: nat)
    requires i < |w.creates| && FifoInv(w) && SharedInv(w.sh) && PastInv(w)
    requires w.creates[i].fifo.Some? && w.creates[i].fifo.value < |w.sh.fifos| && Ready(w, w.creates[i])
    ensures OpenedFor(w, w.creates[i])
  {
    var f := w.creates[i].fifo.value;
    if w.sh.fifos[f].bytes > 0 { TakenOpens(w, i); }
  }

  lemma ProcessAtGate(w: World, i: nat, p: ProcessStep)
    requires i < |w.creates| && CreateInv(w.creates[i]) && GateInv(w) && FifoInv(w) && SharedInv(w.sh) && PastInv(w)
    requires ProcessNext(w, i, p).Some? && AtOrPastGate(ProcessNext(w, i, p).value.1)
    ensures w.creates[i].fifo.Some? && OpenedFor(w, w.creates[i])
  {
    if !p.WasmDo? {
      OthersKeepGate(w, i, p);
    } else if !AtOrPastGate(w.creates[i]) {
      GateNeedsSelect(w, i, p.wasm);
      ReadyIsOpened(w, i);
    }
  }

  lemma ProcessFifo(w: World, i: nat, p: ProcessStep)
    requires i < |w.creates| && ProcessNext(w, i, p).Some?
    ensures var c := ProcessNext(w, i, p).value.1;
            || (c.fifo == w.creates[i].fifo && c.past == w.creates[i].past)
            || (c.fifo == w.sh.entry && c.fifo.Some? && c.past == Departed(w, c.fifo.value))
  {
    var c, r := w.creates[i], ProcessNext(w, i, p).value;
    match p
    case ServerDo(x) => ServerEffect(w.sh, c, i, x, DepartedEntry(w), r.0, r.1);
    case ChildDo(_) =>
    case DaemonDo(_) =>
    case WasmDo(x) => WasmEffect(w.sh, c, i, x, IsReady(w, c), IsWritten(w, c), r.0, r.1);
  }

  /** What the server can do to the FIFOs: make one more, and open one. */
  lemma ServerEffect(sh: Shared, c: Create, i: nat, s: ServerStep, gone: set<nat>, sh': Shared, c': Create)
    requires ServerNext(sh, c, i, s, gone) == Some((sh', c'))
    ensures (c'.fifo == c.fifo && c'.past == c.past) || (c'.fifo == sh.entry && c'.fifo.Some? && c'.past == gone)
    ensures || (sh'.entry == sh.entry && sh'.fifos == sh.fifos)
            || (sh'.entry == Some(|sh.fifos|) && sh'.fifos == sh.fifos + [Fifo(0, 0, 0)])
  {
  }

  /** What the wasm process can do to them: take one byte, on its way past the gate. */
  lemma WasmEffect(sh: Shared, c: Create, i: nat, s: WasmStep, ready: bool, writers: bool, sh': Shared, c': Create)
    requires WasmNext(sh, c, i, s, ready, writers) == Some((sh', c'))
    ensures c'.fifo == c.fifo && c'.past == c.past && sh'.entry == sh.entry
    ensures || sh'.fifos == sh.fifos
            || (&& c.fifo.Some? && c.fifo.value < |sh.fifos| && sh.fifos[c.fifo.value].bytes > 0 && Rank(c'.mem.status) == 3
                && var f := sh.fifos[c.fifo.value];
                   sh'.fifos == sh.fifos[c.fifo.value := f.(bytes := f.bytes - 1, consumed := f.consumed + 1)])
  {
  }

  lemma SetCreateKeepsGate(w: World, i: nat, sh: Shared, c: Create)
    requires GateInv(w) && i < |w.creates| && Extends(w, SetCreate(w, i, sh, c))
    requires c.fifo.Some? ==> c.fifo.value < |sh.fifos|
    requires AtOrPastGate(c) ==> w.creates[i].fifo.Some? && OpenedFor(w, w.creates[i])
    ensures GateInv(SetCreate(w, i, sh, c))
  {
    var w' := SetCreate(w, i, sh, c);
    forall j | 0 <= j < |w'.creates| && AtOrPastGate(w'.creates[j])
      ensures w'.creates[j].fifo.Some? && OpenedFor(w', w'.creates[j]) {
      assert Grows(w.creates[j], w'.creates[j]);
      OpenedForStays(w, w', w.creates[j], w'.creates[j]);
    }
  }

  lemma ProcessKeepsGate(w: World, i: nat, p: ProcessStep)
    requires CreatesInv(w) && CallsInv(w) && GateInv(w) && FifoInv(w) && SharedInv(w.sh) && PastInv(w)
    requires i < |w.creates| && ProcessNext(w, i, p).Some?
    ensures var (sh, c) := ProcessNext(w, i, p).value; GateInv(SetCreate(w, i, sh, c))
  {
    var r := ProcessNext(w, i, p).value;
    ProcessKeeps(w, i, p);
    SetCreateExtends(w, i, r.0, r.1);
    ProcessFifo(w, i, p);
    if AtOrPastGate(r.1) { ProcessAtGate(w, i, p); }
    SetCreateKeepsGate(w, i, r.0, r.1);
  }

  /** Creates that stay as they are, and perhaps a new one. */
  lemma CallsKeepGate(w: World, w': World)
    requires GateInv(w) && Extends(w, w') && w.creates <= w'.creates
    requires forall j :: |w.creates| <= j < |w'.creates| ==> !AtOrPastGate(w'.creates[j]) && w'.creates[j].fifo.None?
    ensures GateInv(w')
  {
    forall j | 0 <= j < |w'.creates| && AtOrPastGate(w'.creates[j])
      ensures w'.creates[j].fifo.Some? && OpenedFor(w', w'.creates[j]) {
      OpenedForStays(w, w', w.creates[j], w'.creates[j]);
    }
  }

  lemma StepKeepsGate(w: World, s: Step, w': World)
    requires CreatesInv(w) && CallsInv(w) && GateInv(w) && FifoInv(w) && SharedInv(w.sh) && PastInv(w) && Next(w, s) == Some(w')
    ensures GateInv(w')
  {
    StepExtends(w, s, w');
    match s
    case Begin(_, _) => CallsKeepGate(w, w');
    case ProcessDo(i, p) => ProcessKeepsGate(w, i, p);
    case Remove(_, _) => CallsKeepGate(w, w');
    case NewCall(_) => CallsKeepGate(w, w');
    case CallDo(_, _) => CallsKeepGate(w, w');
  }

  // ---- who came before a create opened its FIFO ----

  /** A start that gave up does nothing more. */
  lemma GaveUpStops(w: World, c: Call, s: CallStep)
    requires GaveUp(c)
    ensures CallNext(w, c, s).None?
  {
  }

  /** The entry's FIFO has been left only by starts that gave up. */
  lemma DepartedGaveUp(w: World, d: nat)
    requires CallsInv(w) && EntryInv(w) && w.sh.entry.Some? && d in Departed(w, w.sh.entry.value)
    ensures GaveUp(w.calls[d])
  {
    assert CallInv(w.calls[d]);
  }

  lemma ProcessKeepsPast(w: World, i: nat, p: ProcessStep)
    requires CallsInv(w) && EntryInv(w) && PastInv(w) && i < |w.creates| && ProcessNext(w, i, p).Some?
    ensures var (sh, c) := ProcessNext(w, i, p).value; PastInv(SetCreate(w, i, sh, c))
  {
    var c := ProcessNext(w, i, p).value.1;
    ProcessFifo(w, i, p);
    forall d | d in c.past ensures d < |w.calls| && GaveUp(w.calls[d]) {
      if c.past == w.creates[i].past { } else { DepartedGaveUp(w, d); }
    }
  }

  lemma CallKeepsPast(w: World, c: nat, x: CallStep)
    requires PastInv(w) && c < |w.calls| && CallNext(w, w.calls[c], x).Some?
    ensures var (sh, call) := CallNext(w, w.calls[c], x).value; PastInv(World(sh, w.creates, w.calls[c := call]))
  {
    assert !GaveUp(w.calls[c]) by { if GaveUp(w.calls[c]) { GaveUpStops(w, w.calls[c], x); } }
  }

  lemma StepKeepsPast(w: World, s: Step, w': World)
    requires CallsInv(w) && EntryInv(w) && PastInv(w) && Next(w, s) == Some(w')
    ensures PastInv(w')
  {
    match s
    case Begin(_, _) =>
    case ProcessDo(i, p) => ProcessKeepsPast(w, i, p);
    case Remove(_, _) =>
    case NewCall(_) =>
    case CallDo(c, x) => CallKeepsPast(w, c, x);
  }

  /** Among the processes only the wasm process moves a byte, out of the FIFO it reads. */
  lemma ProcessBytes(w: World, i: nat, p: ProcessStep, f: nat)
    requires i < |w.creates| && CreateInv(w.creates[i]) && ProcessNext(w, i, p).Some?
    requires f < |ProcessNext(w, i, p).value.0.fifos|
    ensures var (sh, c) := ProcessNext(w, i, p).value;
            if f >= |w.sh.fifos| then sh.fifos[f] == Fifo(0, 0, 0)
            else
              && sh.fifos[f].written == w.sh.fifos[f].written
              && (sh.fifos[f] != w.sh.fifos[f] ==> c.fifo == Some(f) && Rank(c.mem.status) == 3)
  {
    var c, r := w.creates[i], ProcessNext(w, i, p).value;
    match p
    case ServerDo(x) => ServerEffect(w.sh, c, i, x, DepartedEntry(w), r.0, r.1);
    case ChildDo(_) =>
    case DaemonDo(_) =>
    case WasmDo(x) => WasmEffect(w.sh, c, i, x, IsReady(w, c), IsWritten(w, c), r.0, r.1);
  }

  /** Among the calls only a start that has the FIFO open moves a byte, into it. */
  lemma CallBytes(w: World, c: Call, s: CallStep, f: nat)
    requires CallInv(c) && CallNext(w, c, s).Some? && f < |w.sh.fifos|
    ensures var sh := CallNext(w, c, s).value.0;
            && |sh.fifos| == |w.sh.fifos|
            && sh.fifos[f].consumed == w.sh.fifos[f].consumed
            && sh.fifos[f].written >= w.sh.fifos[f].written
            && (sh.fifos[f] != w.sh.fifos[f] ==> c.Start? && c.fd == Some(f) && c.took.Some?)
  {
  }

  /** Which steps move bytes: a start's write and the wasm process's read. */
  lemma WhoMovesBytes(w: World, s: Step, w': World, f: nat)
    requires CreatesInv(w) && CallsInv(w) && Next(w, s) == Some(w') && f < |w'.sh.fifos|
    ensures |w.sh.fifos| <= |w'.sh.fifos|
    ensures f >= |w.sh.fifos| ==> w'.sh.fifos[f] == Fifo(0, 0, 0)
    ensures f < |w.sh.fifos| ==>
              || w'.sh.fifos[f] == w.sh.fifos[f]
              || (w'.sh.fifos[f].consumed == w.sh.fifos[f].consumed && w.sh.fifos[f].written <= w'.sh.fifos[f].written && Taken(w, f))
              || (w'.sh.fifos[f].written == w.sh.fifos[f].written && Passed(w', f))
  {
    match s
    case Begin(_, _) =>
    case ProcessDo(i, p) =>
      ProcessEntry(w, i, p);
      ProcessBytes(w, i, p, f);
      assert w'.creates[i] == ProcessNext(w, i, p).value.1;
    case Remove(_, _) =>
    case NewCall(_) =>
    case CallDo(c, x) =>
      CallKeeps(w, w.calls[c], x);
      CallBytes(w, w.calls[c], x, f);
  }

  lemma StepKeepsFifos(w: World, s: Step, w': World)
    requires CreatesInv(w) && CallsInv(w) && StartsInv(w) && FifoInv(w) && Next(w, s) == Some(w')
    ensures FifoInv(w')
  {
    StepExtends(w, s, w');
    forall f | 0 <= f < |w'.sh.fifos|
      ensures w'.sh.fifos[f].written > 0 ==> Taken(w', f)
      ensures w'.sh.fifos[f].consumed > 0 ==> Passed(w', f)
    {
      WhoMovesBytes(w, s, w', f);
      if f < |w.sh.fifos| {
        if Taken(w, f) { TakenStays(w, w', f); }
        if Passed(w, f) { PassedStays(w, w', f); }
      }
    }
  }

  /** A start that has the FIFO open got it from the entry, and closes it only once its
      byte is written. */
  lemma CallStarts(w: World, c: Call, s: CallStep)
    requires CallInv(c) && CallNext(w, c, s).Some?
    ensures var (sh, c') := CallNext(w, c, s).value;
            c'.Start? && c'.fd.Some? ==>
              && (c'.fd == c.fd || c'.fd == w.sh.entry)
              && (c'.st.StClose? && c'.fd.value < |w.sh.fifos| ==> sh.fifos[c'.fd.value].written > 0)
              && (c'.st.StDone? ==> c.st.StClose? && c'.fd == c.fd)
  {
  }

  lemma StepKeepsStarts(w: World, s: Step, w': World)
    requires CreatesInv(w) && CallsInv(w) && StartsInv(w) && SharedInv(w.sh) && Next(w, s) == Some(w')
    ensures StartsInv(w')
  {
    StepExtends(w, s, w');
    forall c | 0 <= c < |w'.calls| && w'.calls[c].Start? && w'.calls[c].fd.Some?
      ensures w'.calls[c].fd.value < |w'.sh.fifos|
      ensures w'.calls[c].st.StClose? || w'.calls[c].st.StDone? ==> w'.sh.fifos[w'.calls[c].fd.value].written > 0
    {
      if s.CallDo? && s.c == c { CallStarts(w, w.calls[c], s.what); }
      if w'.calls[c].fd.value < |w'.sh.fifos| { WhoMovesBytes(w, s, w', w'.calls[c].fd.value); }
    }
  }

  // ---- unlink decides between racing starts ----

  /** Every successful unlink took an entry of its own, and none that is still there; nor is
      there an entry any more for the FIFO that its start has open. */
  ghost predicate EntryInv(w: World) {
    && (forall c :: 0 <= c < |w.calls| && w.calls[c].Start? && w.calls[c].took.Some? ==>
          && w.calls[c].took.value < |w.sh.fifos| && w.calls[c].took != w.sh.entry
          && w.calls[c].fd.Some? && w.calls[c].fd.value < |w.sh.fifos| && w.calls[c].fd != w.sh.entry)
    && (forall c, d :: 0 <= c < d < |w.calls| && w.calls[c].Start? && w.calls[d].Start? && w.calls[c].took.Some? ==>
          w.calls[c].took != w.calls[d].took)
  }

  /** Creates never touch what starts have taken; they can only add a new entry. */
  lemma ProcessEntry(w: World, i: nat, p: ProcessStep)
    requires i < |w.creates| && ProcessNext(w, i, p).Some?
    ensures var sh := ProcessNext(w, i, p).value.0;
            && (sh.entry == w.sh.entry || sh.entry == Some(|w.sh.fifos|))
            && |w.sh.fifos| <= |sh.fifos|
  {
    var c, r := w.creates[i], ProcessNext(w, i, p).value;
    match p
    case ServerDo(x) => ServerEffect(w.sh, c, i, x, DepartedEntry(w), r.0, r.1);
    case ChildDo(_) =>
    case DaemonDo(_) =>
    case WasmDo(x) => WasmEffect(w.sh, c, i, x, IsReady(w, c), IsWritten(w, c), r.0, r.1);
  }

  /** A start takes the entry that is there, and it is there no more. */
  lemma CallEntry(w: World, c: Call, s: CallStep)
    requires CallInv(c) && CallNext(w, c, s).Some?
    ensures var (sh, c') := CallNext(w, c, s).value;
            && |w.sh.fifos| == |sh.fifos|
            && (c'.Start? <==> c.Start?)
            && (c.Start? && c'.took != c.took ==> c'.took == w.sh.entry && sh.entry.None?)
            && (c.Start? && c'.took == c.took ==> sh.entry == w.sh.entry)
            && (!c.Start? ==> sh.entry == w.sh.entry)
            && (c'.Start? && c'.took.Some? ==> c'.fd == c.fd && c'.fd.Some?)
  {
  }

  lemma SetCallKeepsEntries(w: World, c: nat, sh: Shared, call: Call)
    requires EntryInv(w) && SharedInv(w.sh) && StartsInv(w)
    requires c < |w.calls| && |w.sh.fifos| == |sh.fifos| && (call.Start? <==> w.calls[c].Start?)
    requires call.Start? && call.took.Some? ==> call.fd == w.calls[c].fd && call.fd.Some?
    requires call.Start? && call.took != w.calls[c].took ==> call.took == w.sh.entry && sh.entry.None?
    requires call.Start? && call.took == w.calls[c].took ==> sh.entry == w.sh.entry
    requires !call.Start? ==> sh.entry == w.sh.entry
    ensures EntryInv(World(sh, w.creates, w.calls[c := call]))
  {
  }

  lemma FewerEntries(w: World, w': World)
    requires EntryInv(w) && w'.calls == w.calls && |w.sh.fifos| <= |w'.sh.fifos|
    requires w'.sh.entry == w.sh.entry || w'.sh.entry.None? || w'.sh.entry == Some(|w.sh.fifos|)
    ensures EntryInv(w')
  {
  }

  lemma StepKeepsEntries(w: World, s: Step, w': World)
    requires CallsInv(w) && SharedInv(w.sh) && StartsInv(w) && EntryInv(w) && Next(w, s) == Some(w')
    ensures EntryInv(w')
  {
    match s
    case Begin(_, _) => FewerEntries(w, w');
    case ProcessDo(i, p) =>
      ProcessEntry(w, i, p);
      FewerEntries(w, w');
    case Remove(_, _) => FewerEntries(w, w');
    case NewCall(_) =>
    case CallDo(c, x) =>
      CallEntry(w, w.calls[c], x);
      var r := CallNext(w, w.calls[c], x).value;
      SetCallKeepsEntries(w, c, r.0, r.1);
  }
}
