/** The container lifecycle protocol (src/runw.cpp) for one container id, as a machine of
    interleaved atomic steps.

    Any number of create, start, kill and delete commands run at the same time. A create
    is up to four processes: the server that answers the caller, a short-lived child, the
    daemon that prepares the module, and the wasm process that runs it. They share the
    container directory, `state.json`, the `exec.fifo` entry and the FIFO objects behind it.

    What the environment is trusted with: rename and unlink are atomic; a temporary name
    is fresh and its contents are complete before the rename (`AtomicPublish` takes the
    writing of a file in pieces to the single step here); a write of a few bytes to a pipe is
    whole; select on the FIFO returns only after some writer has opened it for this reader;
    the pid file path is private to its create. Every system call may fail, every process
    may be killed at any point, and removing a directory tree is many separate steps. */
module Lifecycle {
  import opened Wrappers
  import opened StateText
  import opened StateLaws

  // ---- one create ----

  datatype Cause = Early | ReadError | NonZero

  /** A failed create ends with its directory removed, or with the error of the removal
      ignored. */
  datatype Verdict = Removed(cause: Cause) | Failed(cause: Cause) | ReadZero | ReadEnd | ReadInterrupted | ServerKilled

  datatype Server =
    | SrvLoad | SrvCheck | SrvTemp | SrvRename | SrvMkfifo | SrvOpen | SrvFork
    | SrvWait | SrvRead | SrvClean(cause: Cause) | SrvExit(verdict: Verdict)

  datatype Child = KidNone | KidRun | KidClean | KidExit

  datatype Daemon = DmnNone | DmnStart | DmnReady | DmnClean | DmnReport(code: Int32) | DmnExit

  datatype Wasm =
    | WsmNone | WsmPidFile | WsmMark | WsmSetup
    | WsmCheck | WsmTemp | WsmRename
    | WsmSelect | WsmRead | WsmRun
    | WsmReport(code: Int32) | WsmExit

  /** `mem` is the State object, first of the server and then of the wasm process. `past` are
      the starts that had come to the FIFO and gone before this create opened it to read. The
      last four fields record what has happened: they are read by no step. */
  datatype Create = Create(
    server: Server,
    child: Child,
    daemon: Daemon,
    wasm: Wasm,
    mem: View,
    pid: Int32,
    pidFile: Option<Int32>,
    fifo: Option<nat>,
    past: set<nat>,
    pipe: seq<Int32>,
    instantiated: bool,
    published: nat,
    codeRead: Option<Int32>,
    readFailed: bool)

  predicate BeforeFork(s: Server) {
    s.SrvLoad? || s.SrvCheck? || s.SrvTemp? || s.SrvRename? || s.SrvMkfifo? || s.SrvOpen? || s.SrvFork?
  }

  predicate ChildAlive(c: Create) { c.child.KidRun? || c.child.KidClean? }
  predicate DaemonAlive(c: Create) { !c.daemon.DmnNone? && !c.daemon.DmnExit? }
  predicate WasmAlive(c: Create) { !c.wasm.WsmNone? && !c.wasm.WsmExit? }

  // ---- what the processes share ----

  /** A version of `state.json`: which create wrote it, and its contents. */
  datatype File = File(owner: nat, view: View)

  datatype Owner = ByServer(i: nat) | ByWasm(i: nat)

  /** A FIFO object. Bytes stay in it whether or not it still has a directory entry. */
  datatype Fifo = Fifo(bytes: nat, written: nat, consumed: nat)

  datatype Shared = Shared(
    dir: bool,
    state: Option<File>,
    entry: Option<nat>,
    temps: set<Owner>,
    fifos: seq<Fifo>)

  // ---- commands other than create ----

  datatype StartPhase = StLoad | StOpen | StUnlink | StWrite | StClose | StDone | StFailed
  datatype KillPhase = KlLoad | KlSend | KlDone | KlFailed
  datatype DeletePhase = DlCheck | DlRemove | DlDone

  /** `seen` is the version a command loaded, `fd` the FIFO a start opened, `took` the entry
      its unlink removed and `target` the pid a kill is going to signal. */
  datatype Call =
    | Start(st: StartPhase, seen: Option<File>, fd: Option<nat>, took: Option<nat>)
    | Kill(kl: KillPhase, seen: Option<File>, target: Option<Int32>)
    | Delete(dl: DeletePhase, force: bool)

  datatype World = World(sh: Shared, creates: seq<Create>, calls: seq<Call>)

  const Init := World(Shared(false, None, None, {}, []), [], [])

  // ---- the FIFO as the kernel shows it ----

  predicate HoldsOpen(c: Call, f: nat) {
    c.Start? && c.fd == Some(f) && (c.st.StUnlink? || c.st.StWrite? || c.st.StClose?)
  }

  ghost predicate HasWriter(w: World, f: nat) {
    exists c :: 0 <= c < |w.calls| && HoldsOpen(w.calls[c], f)
  }

  /** The starts that opened the FIFO and have closed it again. */
  function Departed(w: World, f: nat): set<nat> {
    set c: nat | c < |w.calls| && w.calls[c].Start? && w.calls[c].fd == Some(f) && !HoldsOpen(w.calls[c], f)
  }

  /** Some start has opened the FIFO since this create did, or held it open then. */
  ghost predicate OpenedFor(w: World, c: Create) {
    exists d :: 0 <= d < |w.calls| && w.calls[d].Start? && w.calls[d].fd.Some? && w.calls[d].fd == c.fifo && d !in c.past
  }

  /** A process closes the FIFO before it starts to remove the directory. */
  predicate HoldsReadEnd(c: Create, f: nat) {
    && c.fifo == Some(f)
    && ((!c.server.SrvExit? && !c.server.SrvClean?) || c.child.KidRun? || (DaemonAlive(c) && !c.daemon.DmnClean?) || WasmAlive(c))
  }

  ghost predicate HasReader(w: World, f: nat) {
    exists i :: 0 <= i < |w.creates| && HoldsReadEnd(w.creates[i], f)
  }

  /** Select returns: a byte is there, or writers have come for this reader and all have
      gone. A read end opened after the last writer left hears nothing of it. */
  ghost predicate Ready(w: World, c: Create)
    requires c.fifo.Some? && c.fifo.value < |w.sh.fifos|
  {
    w.sh.fifos[c.fifo.value].bytes > 0 || (OpenedFor(w, c) && !HasWriter(w, c.fifo.value))
  }

  // ---- steps ----

  datatype ServerStep =
    | BundleOk(cgroup: bool) | CheckOk | TempOk | RenameOk | MkfifoOk | OpenOk | ForkOk
    | Waited | ReadCode | ReadEof | ReadEintr | ReadFail | ServerFails(tidy: bool)
    | CleanDone | CleanFails | ServerDies

  datatype ChildStep = Detach | ChildFails | ChildCleaned | ChildDies

  datatype DaemonStep =
    | ConsoleFails | RunFails | Instantiate | ForkWasm(pid: Int32) | ForkWasmFails | Tell | DaemonCleaned | DaemonDies

  datatype WasmStep =
    | PidFileOk | SetCreated(now: Timestamp) | SetupOk | UpdateCheck | UpdateTemp | UpdateRename
    | SelectOk | ReadByte(now: Timestamp) | ReadNothing(now: Timestamp) | ReadInterrupt(now: Timestamp)
    | Finish(code: Int32, now: Timestamp) | Report | WasmFails(tidy: bool) | WasmDies

  datatype Remover = ServerR(i: nat) | ChildR(i: nat) | DaemonR(i: nat) | DeleteR(c: nat)

  datatype Item = TheState | TheFifo | TheTemp(o: Owner) | TheDirectory

  datatype CallStep =
    | StartLoad | StartOpen | StartUnlink | StartWrite | StartClose | StartFails
    | KillLoad | KillSend | KillFails
    | DeleteFound | DeleteForced | DeleteEnds

  datatype ProcessStep =
    | ServerDo(server: ServerStep)
    | ChildDo(child: ChildStep)
    | DaemonDo(daemon: DaemonStep)
    | WasmDo(wasm: WasmStep)

  datatype Step =
    | Begin(id: string, bundle: string)
    | ProcessDo(i: nat, process: ProcessStep)
    | Remove(who: Remover, item: Item)
    | NewCall(call: Call)
    | CallDo(c: nat, what: CallStep)

  /** The rename of a finished temporary file onto `state.json`. */
  function Publish(sh: Shared, temp: Owner, f: File): Shared {
    sh.(state := Some(f), temps := sh.temps - {temp})
  }

  /** What a failed update leaves behind: it may take its temporary file with it or not. */
  function Untidy(temps: set<Owner>, o: Owner, tidy: bool): set<Owner> { if tidy then temps - {o} else temps }

  /** The create server (src/runw.cpp:600-687). A failure before the fork, a failed pipe
      read and a non-zero code all lead to removing the directory, which ends with taking
      away the empty directory, or with an error that is ignored. `gone` are the starts that
      have come to the FIFO of the entry and gone. */
  function ServerNext(sh: Shared, c: Create, i: nat, s: ServerStep, gone: set<nat>): Option<(Shared, Create)> {
    match s
    case BundleOk(flag) =>
      if !c.server.SrvLoad? then None
      else Some((sh, c.(server := SrvCheck, mem := MarkCreating(c.mem.(cgroup := flag)))))
    case CheckOk =>
      if !c.server.SrvCheck? || sh.state.Some? then None else Some((sh, c.(server := SrvTemp)))
    case TempOk =>
      if !c.server.SrvTemp? || !sh.dir then None
      else Some((sh.(temps := sh.temps + {ByServer(i)}), c.(server := SrvRename)))
    case RenameOk =>
      if !c.server.SrvRename? || ByServer(i) !in sh.temps then None
      else Some((Publish(sh, ByServer(i), File(i, c.mem)), c.(server := SrvMkfifo, published := c.published + 1)))
    case MkfifoOk =>
      if !c.server.SrvMkfifo? || !sh.dir || sh.entry.Some? then None
      else Some((sh.(entry := Some(|sh.fifos|), fifos := sh.fifos + [Fifo(0, 0, 0)]), c.(server := SrvOpen)))
    case OpenOk =>
      if !c.server.SrvOpen? || sh.entry.None? then None
      else Some((sh, c.(server := SrvFork, fifo := sh.entry, past := gone)))
    case ForkOk =>
      if !c.server.SrvFork? then None else Some((sh, c.(server := SrvWait, child := KidRun)))
    case Waited =>
      // waitpid may also be interrupted, and is then not repeated
      if !c.server.SrvWait? then None else Some((sh, c.(server := SrvRead)))
    case ReadCode =>
      if !c.server.SrvRead? || c.pipe == [] then None
      else
        var code := c.pipe[0];
        var next := if code != 0 then SrvClean(NonZero) else SrvExit(ReadZero);
        Some((sh, c.(server := next, pipe := c.pipe[1..], codeRead := Some(code))))
    case ReadEof =>
      if !c.server.SrvRead? || c.pipe != [] || ChildAlive(c) || DaemonAlive(c) || WasmAlive(c) then None
      else Some((sh, c.(server := SrvExit(ReadEnd))))
    case ReadEintr =>
      if !c.server.SrvRead? then None else Some((sh, c.(server := SrvExit(ReadInterrupted))))
    case ReadFail =>
      if !c.server.SrvRead? then None else Some((sh, c.(server := SrvClean(ReadError), readFailed := true)))
    case ServerFails(tidy) =>
      if !BeforeFork(c.server) then None
      else Some((sh.(temps := Untidy(sh.temps, ByServer(i), tidy)), c.(server := SrvClean(Early))))
    case CleanDone =>
      if !c.server.SrvClean? || sh.state.Some? || sh.entry.Some? || sh.temps != {} then None
      else Some((sh.(dir := false), c.(server := SrvExit(Removed(c.server.cause)))))
    case CleanFails =>
      if !c.server.SrvClean? then None else Some((sh, c.(server := SrvExit(Failed(c.server.cause)))))
    case ServerDies =>
      if c.server.SrvExit? then None else Some((sh, c.(server := SrvExit(ServerKilled))))
  }

  /** The child between the two forks (src/runw.cpp:689-702): when it fails, its own scope
      guard removes the directory. */
  function ChildNext(c: Create, s: ChildStep): Option<Create> {
    match s
    case Detach => if !c.child.KidRun? then None else Some(c.(child := KidExit, daemon := DmnStart))
    case ChildFails => if !c.child.KidRun? then None else Some(c.(child := KidClean))
    case ChildCleaned => if !c.child.KidClean? then None else Some(c.(child := KidExit))
    case ChildDies => if !ChildAlive(c) then None else Some(c.(child := KidExit))
  }

  /** The daemon (src/runw.cpp:704-742 and 277-434). A console-socket failure removes the
      directory and says nothing on the pipe. */
  function DaemonNext(c: Create, s: DaemonStep): Option<Create> {
    match s
    case ConsoleFails => if !c.daemon.DmnStart? then None else Some(c.(daemon := DmnClean))
    case RunFails => if !c.daemon.DmnStart? then None else Some(c.(daemon := DmnReport(1)))
    case Instantiate => if !c.daemon.DmnStart? then None else Some(c.(daemon := DmnReady, instantiated := true))
    case ForkWasm(pid) =>
      if !c.daemon.DmnReady? || pid <= 0 then None
      else Some(c.(daemon := DmnReport(0), wasm := WsmPidFile, pid := pid))
    case ForkWasmFails => if !c.daemon.DmnReady? then None else Some(c.(daemon := DmnReport(1)))
    case Tell =>
      if !c.daemon.DmnReport? then None else Some(c.(daemon := DmnExit, pipe := c.pipe + [c.daemon.code]))
    case DaemonCleaned => if !c.daemon.DmnClean? then None else Some(c.(daemon := DmnExit))
    case DaemonDies => if !DaemonAlive(c) then None else Some(c.(daemon := DmnExit))
  }

  function AfterPublish(v: View): Wasm {
    if v.status == Created then WsmSelect
    else if v.status == Running then WsmRun
    else WsmReport(v.exitCode)
  }

  predicate CanFail(p: Wasm) {
    p.WsmPidFile? || p.WsmSetup? || p.WsmCheck? || p.WsmTemp? || p.WsmRename? || p.WsmSelect? || p.WsmRead?
  }

  /** The wasm process (src/runw.cpp:436-593). `ready` is the FIFO's answer to select and
      `writers` says whether some start still holds it open. */
  function WasmNext(sh: Shared, c: Create, i: nat, s: WasmStep, ready: bool, writers: bool): Option<(Shared, Create)> {
    match s
    case PidFileOk =>
      if !c.wasm.WsmPidFile? then None else Some((sh, c.(wasm := WsmMark, pidFile := Some(c.pid))))
    case SetCreated(now) =>
      if !c.wasm.WsmMark? then None else Some((sh, c.(wasm := WsmSetup, mem := MarkCreated(c.mem, now, c.pid))))
    case SetupOk =>
      if !c.wasm.WsmSetup? then None else Some((sh, c.(wasm := WsmCheck)))
    case UpdateCheck =>
      if !c.wasm.WsmCheck? || sh.state.None? then None else Some((sh, c.(wasm := WsmTemp)))
    case UpdateTemp =>
      if !c.wasm.WsmTemp? || !sh.dir then None
      else Some((sh.(temps := sh.temps + {ByWasm(i)}), c.(wasm := WsmRename)))
    case UpdateRename =>
      if !c.wasm.WsmRename? || ByWasm(i) !in sh.temps then None
      else Some((Publish(sh, ByWasm(i), File(i, c.mem)), c.(wasm := AfterPublish(c.mem), published := c.published + 1)))
    case SelectOk =>
      if !c.wasm.WsmSelect? || !ready then None else Some((sh, c.(wasm := WsmRead)))
    case ReadByte(now) =>
      if !c.wasm.WsmRead? || c.fifo.None? || c.fifo.value >= |sh.fifos| || sh.fifos[c.fifo.value].bytes == 0 then None
      else
        var f := sh.fifos[c.fifo.value];
        Some((sh.(fifos := sh.fifos[c.fifo.value := f.(bytes := f.bytes - 1, consumed := f.consumed + 1)]),
              c.(wasm := WsmCheck, mem := MarkRunning(c.mem, now))))
    case ReadNothing(now) =>
      if !c.wasm.WsmRead? || c.fifo.None? || c.fifo.value >= |sh.fifos| || sh.fifos[c.fifo.value].bytes > 0 || writers then None
      else Some((sh, c.(wasm := WsmCheck, mem := MarkRunning(c.mem, now))))
    case ReadInterrupt(now) =>
      if !c.wasm.WsmRead? then None else Some((sh, c.(wasm := WsmCheck, mem := MarkRunning(c.mem, now))))
    case Finish(code, now) =>
      if !c.wasm.WsmRun? then None else Some((sh, c.(wasm := WsmCheck, mem := MarkStopped(c.mem, now, code))))
    case Report =>
      if !c.wasm.WsmReport? then None else Some((sh, c.(wasm := WsmExit, pipe := c.pipe + [c.wasm.code])))
    case WasmFails(tidy) =>
      if !CanFail(c.wasm) then None
      else Some((sh.(temps := Untidy(sh.temps, ByWasm(i), tidy)), c.(wasm := WsmReport(1))))
    case WasmDies =>
      if !WasmAlive(c) then None else Some((sh, c.(wasm := WsmExit)))
  }

  /** One removal inside a remove_all; the directory itself goes only when it is empty. */
  function RemoveNext(sh: Shared, item: Item): Option<Shared> {
    match item
    case TheState => Some(sh.(state := None))
    case TheFifo => Some(sh.(entry := None))
    case TheTemp(o) => Some(sh.(temps := sh.temps - {o}))
    case TheDirectory =>
      if sh.state.Some? || sh.entry.Some? || sh.temps != {} then None else Some(sh.(dir := false))
  }

  predicate Removing(w: World, r: Remover) {
    match r
    case ServerR(i) => i < |w.creates| && w.creates[i].server.SrvClean?
    case ChildR(i) => i < |w.creates| && w.creates[i].child.KidClean?
    case DaemonR(i) => i < |w.creates| && w.creates[i].daemon.DmnClean?
    case DeleteR(c) => c < |w.calls| && w.calls[c].Delete? && w.calls[c].dl.DlRemove?
  }

  predicate IsNew(c: Call) {
    match c
    case Start(st, seen, fd, took) => st == StLoad && seen == None && fd == None && took == None
    case Kill(kl, seen, target) => kl == KlLoad && seen == None && target == None
    case Delete(dl, _) => dl == DlCheck
  }

  /** A start (src/runw.cpp:806-848), a kill (784-803) or a delete (745-768). What loading the
      file gives is what reading its printed text gives (`LoadsThroughText`). */
  ghost function CallNext(w: World, c: Call, s: CallStep): Option<(Shared, Call)> {
    var sh := w.sh;
    match s
    case StartLoad =>
      if !(c.Start? && c.st.StLoad?) || sh.state.None? || !Reloaded(sh.state.value.view).ok then None
      else Some((sh, c.(st := StOpen, seen := sh.state)))
    case StartOpen =>
      if !(c.Start? && c.st.StOpen?) || sh.entry.None? || !HasReader(w, sh.entry.value) then None
      else Some((sh, c.(st := StUnlink, fd := sh.entry)))
    case StartUnlink =>
      if !(c.Start? && c.st.StUnlink?) || sh.entry.None? then None
      else Some((sh.(entry := None), c.(st := StWrite, took := sh.entry)))
    case StartWrite =>
      if !(c.Start? && c.st.StWrite?) || c.fd.None? || c.fd.value >= |sh.fifos| || !HasReader(w, c.fd.value) then None
      else
        var f := sh.fifos[c.fd.value];
        Some((sh.(fifos := sh.fifos[c.fd.value := f.(bytes := f.bytes + 1, written := f.written + 1)]), c.(st := StClose)))
    case StartClose =>
      if !(c.Start? && c.st.StClose?) then None else Some((sh, c.(st := StDone)))
    case StartFails =>
      if !c.Start? || c.st.StDone? || c.st.StFailed? then None else Some((sh, c.(st := StFailed)))
    case KillLoad =>
      if !(c.Kill? && c.kl.KlLoad?) || sh.state.None? then None
      else
        var loaded := Reloaded(sh.state.value.view);
        if !loaded.ok || loaded.view.pid < 0 then None
        else Some((sh, c.(kl := KlSend, seen := sh.state, target := Some(loaded.view.pid))))
    case KillSend =>
      if !(c.Kill? && c.kl.KlSend?) then None else Some((sh, c.(kl := KlDone)))
    case KillFails =>
      if !(c.Kill? && (c.kl.KlLoad? || c.kl.KlSend?)) then None else Some((sh, c.(kl := KlFailed)))
    case DeleteFound =>
      if !(c.Delete? && c.dl.DlCheck?) || !sh.dir then None else Some((sh, c.(dl := DlRemove)))
    case DeleteForced =>
      if !(c.Delete? && c.dl.DlCheck? && c.force) then None else Some((sh, c.(dl := DlRemove)))
    case DeleteEnds =>
      if !c.Delete? || c.dl.DlDone? then None else Some((sh, c.(dl := DlDone)))
  }

  function NewCreate(id: string, bundle: string): Create {
    Create(SrvLoad, KidNone, DmnNone, WsmNone, Fresh.(id := id, bundle := bundle), 0, None, None, {}, [], false, 0, None, false)
  }

  function SetCreate(w: World, i: nat, sh: Shared, c: Create): World
    requires i < |w.creates|
  {
    World(sh, w.creates[i := c], w.calls)
  }

  function DepartedEntry(w: World): set<nat> { if w.sh.entry.None? then {} else Departed(w, w.sh.entry.value) }

  /** What select and read tell the wasm process of a create. */
  ghost predicate IsReady(w: World, c: Create) { c.fifo.Some? && c.fifo.value < |w.sh.fifos| && Ready(w, c) }

  ghost predicate IsWritten(w: World, c: Create) { c.fifo.Some? && c.fifo.value < |w.sh.fifos| && HasWriter(w, c.fifo.value) }

  /** A step of one of the processes of create number i. */
  ghost function ProcessNext(w: World, i: nat, p: ProcessStep): Option<(Shared, Create)>
    requires i < |w.creates|
  {
    var c := w.creates[i];
    match p
    case ServerDo(x) => ServerNext(w.sh, c, i, x, DepartedEntry(w))
    case ChildDo(x) =>
      var r := ChildNext(c, x);
      if r.None? then None else Some((w.sh, r.value))
    case DaemonDo(x) =>
      var r := DaemonNext(c, x);
      if r.None? then None else Some((w.sh, r.value))
    case WasmDo(x) =>
      WasmNext(w.sh, c, i, x, IsReady(w, c), IsWritten(w, c))
  }

  /** One step of the whole system; None when the step is not possible. A create that
      finds the directory present fails and leaves everything as it was. */
  ghost function Next(w: World, s: Step): Option<World> {
    match s
    case Begin(id, bundle) =>
      if w.sh.dir then Some(w)
      else Some(World(w.sh.(dir := true), w.creates + [NewCreate(id, bundle)], w.calls))
    case ProcessDo(i, p) =>
      if i >= |w.creates| then None else
      var r := ProcessNext(w, i, p);
      if r.None? then None else Some(SetCreate(w, i, r.value.0, r.value.1))
    case Remove(r, item) =>
      if !Removing(w, r) then None else
      var sh := RemoveNext(w.sh, item);
      if sh.None? then None else Some(w.(sh := sh.value))
    case NewCall(call) =>
      if !IsNew(call) then None else Some(w.(calls := w.calls + [call]))
    case CallDo(c, x) =>
      if c >= |w.calls| then None else
      var r := CallNext(w, w.calls[c], x);
      if r.None? then None else Some(World(r.value.0, w.creates, w.calls[c := r.value.1]))
  }

  // ---- runs ----

  /** Worlds joined by steps. */
  ghost predicate IsPath(ws: seq<World>, steps: seq<Step>) {
    && |ws| == |steps| + 1
    && forall k :: 0 <= k < |steps| ==> Next(ws[k], steps[k]) == Some(ws[k + 1])
  }

  /** A run is a path from the empty system. */
  ghost predicate IsRun(ws: seq<World>, steps: seq<Step>) {
    IsPath(ws, steps) && ws[0] == Init
  }
}
