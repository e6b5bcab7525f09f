# runw in Dafny

runw is an OCI container runtime for WebAssembly. This project models its hard core in
Dafny 4.11 and proves what that core is for: the container lifecycle as a protocol of many
processes over shared files, the text format of `state.json`, the loader of `config.json`,
the wait for a systemd job, unit naming, and namespace setup. `dafny verify dfyconfig.toml`
checks all of it.

## How it is laid out

- `Lifecycle*.dfy`: the protocol. `Lifecycle` is the machine of interleaved steps,
  `LifecycleInv` and `LifecycleShared` its invariants, `LifecycleTheorems` the results for
  any number of creates, starts, kills and deletes of one container id,
  `LifecycleGate` the exact condition of the start gate, `LifecycleBytes` the conservation of
  FIFO bytes, `LifecycleRemoval` what failed and successful creates leave behind,
  `LifecycleStory` the order of what is shown of each create, `LifecycleSingle` the results
  for one create without delete, `LifecycleRevival` the exact
  condition for `state.json` to come back, `LifecycleTrace` where every code and every
  published field comes from, `LifecycleMoments` what the world was like when a start, an
  update, a delete or a gate went ahead, and `LifecycleRuns` the runs that show what is not promised.
- `AtomicFile.dfy`: temporary file, rename and readers, at the level of inodes;
  `AtomicPublish.dfy` takes its histories to the lifecycle's single step of publishing.
- `Utf8`, `Utf8Exact`, `Decimal`, `Json`, `JsonText`, `JsonGrammar`: a character-level JSON
  reader, that it reads back the text of every value, and that it takes nothing outside the
  grammar.
- `Escaping`, `StateText`, `StateLaws`, `StateObject`: the printer and loader of
  `state.json`, their laws, and the State object whose methods are proved against them.
- `BundleModel` (the loader as a failing fold), `BundleObject` (the same as a class with
  loops that assign fields), `BundleSchema` (what is accepted), `BundleMeaning` and
  `BundleValues` (what is loaded), `BundleRepeats` (repeated keys), `BundleAlike`,
  `BundleOrder` and `BundleUnknown` (what makes no difference).
- `CgroupScope`, `JobWait`, `Namespaces`: the rest of container setup; `Bits` has the binary
  digits that integer widths and flag masks are stated with.

## What the environment is trusted with

- Rename and unlink are atomic. A temporary file name is fresh, and the file's contents are
  complete before it is renamed; the code checks neither write.
- `select` on the read end of the FIFO returns only for a byte, or once writers that were
  there when the end was opened, or came later, have all gone, as on Linux. A write of a few
  bytes to a pipe is whole.
- The pid file path belongs to one create. Forked processes have positive pids.
- Message handlers of the bus are called only while it processes messages, and a handler's
  negative answer to a signal counts as processed.
- A descriptor that `open` returns is not already in use.
- Clock values are strings of printable ASCII without quote and backslash, which is what the
  format at src/state.cpp:223-224 produces.
- JSON is RFC 8259 as the parser library reads it: the whole text must be valid UTF-8,
  integers beyond the 64-bit ranges and unpaired surrogate escapes are refused, key lookup
  finds the first occurrence, and there is no limit on depth. A number with a fraction or
  exponent is taken as it stands, while the library refuses one beyond the range of a
  double. A `string` in the model is a sequence of bytes.

Everything else may go wrong at any point: every system call may fail and every process may
be killed between any two steps. Removing a directory tree is many separate removals.

## Where the code differs from what one would expect

The model follows the code.

- An interrupted `waitpid` or `read` is not repeated, because `continue` leaves the
  `do … while (false)`; an interrupted pipe read counts as success of create, and so does
  the end of the pipe (`InterruptSucceeds`, `EndOfPipeSucceeds`), so that only a zero code
  means an instantiated module (`SuccessMeansInstantiated`).
- A zero-byte read from the FIFO passes the start gate, so opening the FIFO is enough to
  start the container (`OpeningStarts`, `GateExact`).
- Between making and opening the FIFO a create can come to share the FIFO of a later one,
  and then take the byte that was meant for it (`SharedFifoLosesByte`, `ByteMissingExactly`).
- The error of a failed removal is ignored, so a failed create may leave its directory
  (`IgnoredErrorLeaves`); it is sure to be gone exactly if the removal finished
  (`FailureMeansGone`), which it always can (`RemovalCanFinish`).
- When the server's own read of the pipe fails, it removes the directory while the wasm
  process may be in the middle of an update, and `state.json` can come back
  (`ReadFailureRevives`, `ReturnsExactly`).
- Group mappings are appended to the user mappings (`SwapReordersMappings`, `SwapExactly`).
- `rlimits` is looked up again by key for each occurrence, and of a repeated capability list
  only the first counts. So a repeated member can be of any type and still be accepted, and
  the lists are the joined arrays of their keys exactly up to one occurrence
  (`LimitLoadedTwice`, `LimitsJoinExactly`, `NamesJoinExactly`, `AcceptedIffEvery`).
- The search for the second colon of a cgroups path starts at an index of another string, so
  the help text's own example keeps its colon (`DocumentedExample`).
- A path without a colon names both the scope and the slice.
- Delete does not look at the status.

## Model

| member | source | states |
|---|---|---|
| `LifecycleTheorems.StepKeeps` | src/runw.cpp:436-848 | every step of server, child, daemon, wasm process, start, kill and delete keeps the joint invariant, and what has been recorded is never forgotten |
| `LifecycleMoments.AnyProcessMayFail` | src/runw.cpp:600-702 | wherever a create has come to, its server and child may be killed there and each of their calls may fail |
| `LifecycleMoments.AnyDaemonMayFail` | src/runw.cpp:277-742 | the same for daemon and wasm process |
| `LifecycleTheorems.RunInv` | src/runw.cpp:436-848 | the invariant holds in every world of every run from the empty system |
| `LifecycleTrace.RunTraced` | src/runw.cpp:436-742 | over every run, the state of every create is what the steps its processes took say: the fields of the State object and the steps that set them determine each other, the daemon stands ready to say 0 exactly after its fork, and the pipe has received one word from each writer that has told its word and nothing else |
| `LifecycleTheorems.StartGate` | src/runw.cpp:545-574 | in every run, when `state.json` says running or stopped, some start had loaded a version and opened for writing the very FIFO of that create, and had not left it before the create opened its end |
| `LifecycleMoments.GatePassed` | src/runw.cpp:557-570 | in every run, a create that is running or stopped passed its gate by a read: of a byte that was in its FIFO, of nothing while the FIFO was empty and no start held it open, or an interrupted one |
| `LifecycleGate.GateExact` | src/runw.cpp:545-570 | from every world, a wasm process waiting at the gate can come to running without any further open if and only if some start has opened the FIFO for it, written or not |
| `LifecycleRuns.OpeningStarts` | src/runw.cpp:555-574 | a concrete run in which `state.json` says running although no byte was ever written and no start succeeded |
| `LifecycleGate.NoStartLost` | src/runw.cpp:823-847 | in every run, deletes and re-creates included, a start that succeeded on the FIFO of a create has opened it for that create: select returns as soon as no start holds the FIFO, and a process waiting at the gate can pass |
| `LifecycleBytes.ByteMissingExactly` | src/runw.cpp:558-566 | the byte of a successful start is missing for a create before its gate if and only if other creates that read the same FIFO have taken every byte written to it |
| `LifecycleRuns.SharedFifoLosesByte` | src/runw.cpp:631-646 | a concrete run of two creates on one FIFO in which the first reads the byte of the second's start |
| `LifecycleSingle.NoStartLostSingle` | src/runw.cpp:823-847 | for one create the byte is there and the gate is free, also for a start made while the status was creating |
| `LifecycleBytes.BytesConserved` | src/runw.cpp:558-566 | at every moment of every run, the writes made into a FIFO equal the bytes in it plus the bytes read from it |
| `LifecycleTheorems.StartsTakeEntries` | src/runw.cpp:823-847 | over every run the successful starts are at most as many as the `exec.fifo` entries made; each took an entry of its own by its unlink |
| `LifecycleMoments.StartWasServed` | src/runw.cpp:823-843 | in every run, a start opened the FIFO that `exec.fifo` named at that moment, and opened and wrote it only while some process of a create that reads it was alive |
| `LifecycleMoments.StartHadLoaded` | src/runw.cpp:806-819 | what a start goes by is a version that was in `state.json` at an earlier moment and whose text loads |
| `LifecycleMoments.EntryNeverReplaced` | src/runw.cpp:631-846 | an `exec.fifo` is never replaced: it can only go, and where there is none only a FIFO that was never there before can come |
| `LifecycleSingle.AtMostOneStart` | src/runw.cpp:816-847 | within one create at most one of any number of racing starts succeeds |
| `LifecycleRemoval.CreateVerdict` | src/runw.cpp:658-687 | whatever the order of the two writers: a zero code read means the module was instantiated; the other successes are end of pipe, with every process gone, and interrupted read; after a non-zero code no wasm process is left or will come, and the server is removing the directory, has removed it, ignored an error or was killed; it says removed only if the directory was gone at some moment, and with one create it still is; a version beyond creating means the module was instantiated |
| `LifecycleTrace.CodesExplained` | src/runw.cpp:677-738 | over every run, each code on the pipe or read from it is the daemon's 0 after its fork of the wasm process, the daemon's non-zero code after a failed load or fork, a non-zero code of a wasm process that gave up, or the exit code of the module's one end, after the stopped version was published |
| `LifecycleTrace.ZeroMeansForked` | src/runw.cpp:658-687 | a zero on the pipe or read means that the wasm process was forked, and unless the daemon has told its word, that the module ended with code 0 and its stopped version was published |
| `LifecycleTrace.FailureReported` | src/runw.cpp:532-591 | in every run, a wasm process that fails at any point is about to report, was killed before it could, or has put a non-zero code on the pipe, and its create never publishes a stopped version |
| `LifecycleTrace.ExitReported` | src/runw.cpp:585-593 | in every run, once the stopped version is published the module's exit code is on the pipe or read, unless the process is still about to report it or was killed |
| `LifecycleTrace.WordsCounted` | src/runw.cpp:735-738 | as many codes have been written to the pipe as writers have told their word |
| `LifecycleRuns.IgnoredErrorLeaves` | src/runw.cpp:607-613 | a concrete run in which create fails on a non-zero code, all its processes are gone, and directory, `state.json` and `exec.fifo` are still there |
| `LifecycleRuns.FailureMeansGone` | src/runw.cpp:607-613 | whatever made create fail, in every run with one create its directory is sure to be gone if and only if the verdict is that of a finished removal |
| `LifecycleRemoval.FinishedRemoval` | src/runw.cpp:607-613 | once a server has finished its removal, the directory and all in it are gone until a new create |
| `LifecycleRemoval.RemovedMeansGone` | src/runw.cpp:607-613 | a server that ends with its directory removed has had a moment when it was gone |
| `LifecycleRemoval.RemovedForGood` | src/runw.cpp:607-613 | with one create, a server that ends with its directory removed has it gone from then on |
| `LifecycleRemoval.NothingPutBack` | src/runw.cpp:677-681 | after a non-zero code no step of that create's processes puts anything into the directory |
| `LifecycleRemoval.OnlyEmpties` | src/runw.cpp:677-681 | for one create, from a non-zero code on the directory only empties, whatever starts and kills do |
| `LifecycleRemoval.RemovalCanFinish` | src/runw.cpp:607-613 | from every world, a cleaning server can take everything away by its own steps alone and end with the directory gone |
| `LifecycleRemoval.EndOfPipe` | src/runw.cpp:669-687 | a success at the end of the pipe means that no process of the create is alive and nothing of it ever changes again |
| `LifecycleRuns.EndOfPipeSucceeds` | src/runw.cpp:669-687 | a concrete run in which create succeeds at the end of the pipe with nothing instantiated and `state.json` gone |
| `LifecycleRuns.InterruptSucceeds` | src/runw.cpp:669-687 | a concrete run in which an interrupted read lets create succeed with nothing instantiated |
| `LifecycleRemoval.BareSuccessExactly` | src/runw.cpp:669-687 | from every world with the server about to read, an uninterrupted success without an instantiated module can still come if and only if there is no module yet and the pipe is empty |
| `LifecycleRuns.SuccessMeansInstantiated` | src/runw.cpp:669-687 | of the three ways to succeed, exactly the zero code means, in every run, that the module was instantiated |
| `LifecycleTheorems.CleaningIsRetired` | src/runw.cpp:607-613 | whoever removes the directory for a create does so after that create's last update, unless the server's pipe read failed |
| `LifecycleTheorems.NothingWrittenAfterNonZero` | src/runw.cpp:677-681 | after the server has read a non-zero code, no process of that create ever publishes `state.json` again |
| `LifecycleTheorems.OnlyCreateRevives` | src/runw.cpp:600-613 | once the directory is gone, neither it nor `state.json` nor `exec.fifo` comes back without a new create |
| `LifecycleMoments.BeginAlone` | src/runw.cpp:600-605 | a create that finds the directory changes nothing; otherwise it finds nothing of an earlier create and makes an empty directory |
| `LifecycleMoments.OneAtATime` | src/runw.cpp:600-605 | between two creates that both made the directory there was a moment when it and all in it were gone |
| `LifecycleMoments.PublishedAfterCheck` | src/runw.cpp:54-102 | in every run, a create publishes its first version only after it has seen no `state.json`, and a later one only after it has seen one |
| `LifecycleMoments.UnforcedDeleteFound` | src/runw.cpp:745-768 | a delete without force that is removing things has found the directory there |
| `LifecycleMoments.FailureCleansUp` | src/runw.cpp:607-733 | in every run, a server, child or daemon whose failure leaves the directory to it is removing it, has ended the removal, or was killed |
| `LifecycleRevival.ReturnsExactly` | src/runw.cpp:79-102 | a missing `state.json` can come back without a new create if and only if the directory is there and some create has yet to make its first version, or has an update past its existence test whose temporary file is still to be made or in place |
| `LifecycleRuns.ReadFailureRevives` | src/runw.cpp:669-682 | a concrete run of one create in which the server's failed pipe read removes `state.json` and an update brings it back |
| `LifecycleTheorems.PidFileFirst` | src/runw.cpp:436-442 | whenever `state.json` says created or running, the pid file already holds the same pid |
| `LifecycleTheorems.KillTargetsContainer` | src/runw.cpp:784-803 | a signal goes only to the positive pid a wasm process recorded for itself, and only after a version with status created or running was read |
| `LifecycleTheorems.LoadsThroughText` | src/runw.cpp:784-787 | in every run, what a start or kill loads from `state.json` is what reading its printed text gives |
| `LifecycleTheorems.KillRefused` | src/runw.cpp:789-796 | a kill that looks while the status is creating or stopped fails, since the pid stays -1 through print and load |
| `LifecycleSingle.LifecycleOrder` | src/runw.cpp:539-591 | for one create, the statuses seen in `state.json` along any interleaving are a prefix of creating, created, running, stopped, none skipped or repeated, as many as were published |
| `LifecycleStory.OrderPerCreate` | src/runw.cpp:539-591 | in every run, deletes and re-creates included, the statuses that `state.json` shows of any one create are a prefix of the same four, none skipped or repeated, as many as it has published |
| `LifecycleStory.FileLagsByOne` | src/runw.cpp:570-591 | in every run, the file is at most one step behind the status its create holds in memory and never ahead |
| `LifecycleTrace.PublishedFields` | src/runw.cpp:436-591 | in every run, each field that `state.json` shows for its status comes from a step of its create: id and bundle path from its beginning, the cgroup flag from the step that set it once the bundle was read, the pid from the fork, created, started and finished times and the exit code from the steps that marked it so |
| `LifecycleTrace.FinishOnce` | src/runw.cpp:585-593 | in every run a create has at most one step that records an end, so exit code and finish time are those of that one |
| `LifecycleSingle.GoneStaysGone` | src/runw.cpp:607-613 | for one create, a `state.json` that has gone stays gone unless the server's pipe read failed |
| `AtomicFile.WholeFileBehindTheName` | src/runw.cpp:54-102 | at every moment the name points to one whole text of one writer |
| `AtomicFile.ReaderSeesOneVersion` | src/runw.cpp:104-124 | a reader outputs a prefix of one published text, and all of it if no rename fell between its size query and its open |
| `AtomicFile.ReaderGotWhatWasThere` | src/runw.cpp:104-124 | in every history, a finished read is a prefix of the text that was behind the name when the reader opened it, and all of it if nothing was renamed between its size query and its open |
| `AtomicPublish.HistorySimulated` | src/runw.cpp:54-102 | every history of writers, pieces, renames and readers is followed by the lifecycle's files, in which each action publishes, removes, makes a temporary file or is not seen |
| `AtomicPublish.ServerRenameIsAStep` | src/runw.cpp:70-75 | the rename of a writer that works for a server is possible as that server's publishing step and has the same effect |
| `AtomicPublish.WasmRenameIsAStep` | src/runw.cpp:95-100 | the same for the updates of a wasm process |
| `AtomicPublish.NameShowsVersion` | src/runw.cpp:54-102 | at every moment the name is there exactly if those files hold a version, and shows that version's printed text, whole |
| `AtomicFile.TornReadIsRefused` | src/runw.cpp:850-866 | a reader's output is one whole printed state but for the newline, or it cannot be loaded |
| `Escaping.JsonEscape` | src/state.cpp:10-48 | the loop produces the escaped text, never longer than the buffer reserved |
| `Escaping.EscapedLength` | src/state.cpp:10-12 | the escaped text of n bytes has between n and 2n bytes |
| `Escaping.UnescapedEscaped` | src/state.cpp:10-48 | unescaping undoes escaping on every byte string |
| `Escaping.EscapedInjective` | src/state.cpp:10-48 | different strings escape differently |
| `Escaping.StringBodyOfEscaped` | src/state.cpp:14-43 | a JSON reader that meets the escaped text and a quote ends at that quote with the original string, or refuses exactly when a control character was copied through |
| `StateText.ParseStatusExact` | src/state.cpp:50-81 | on every string, the dispatch on a sum of two characters agrees with plain comparison |
| `StateLaws.StatusNames` | src/state.cpp:50-81 | a string stands for creating, created, running or stopped if and only if it is that word |
| `StateText.PrintAsMembers` | src/state.cpp:194-214 | the printed text is an object of the printed members, whose keys the next two rows give |
| `StateLaws.KeysByStatus` | src/state.cpp:194-214 | under every status the printed members hold version, id, status name, bundle path and cgroup flag; the pid exactly under created and running, the creation time under created, running and stopped, the start time under running and stopped, exit code and finish time under stopped |
| `StateLaws.NoOtherKey` | src/state.cpp:194-214 | no other key is printed |
| `StateText.ReadObjectText` | src/state.cpp:94-101 | the character-level reader gets back exactly the members of such a text, or refuses it for a raw control character |
| `StateLaws.ReadPrinted` | src/state.cpp:94-214 | the printed text reads back as its members with only the newline left over |
| `StateLaws.PrintedUtf8` | src/state.cpp:194-214 | the printed text is valid UTF-8 exactly when id and bundle path are |
| `StateLaws.RoundTrip` | src/state.cpp:94-214 | loading the printed text succeeds exactly for a real status and surviving id and bundle path, restores identity, status, the pid exactly under created and running, the creation time but under creating, the start time under running and stopped, exit code and finish time under stopped, defaults elsewhere, and printing again gives the same text |
| `StateLaws.LoadedPid` | src/state.cpp:144-150 | a reader gets the recorded pid under created and running and -1 otherwise |
| `StateLaws.LoadsExactly` | src/state.cpp:103-181 | a document loads if and only if it has version 1.0.2, one of the four status names, id, bundle path and cgroup flag of the right types, and the members of its status, integers within 64 signed bits |
| `StateLaws.LoadedFields` | src/state.cpp:103-181 | a load that succeeds takes every field its status has from the document, integers by their low 32 bits, and leaves the others as they were |
| `StateLaws.TruncationRejected` | src/state.cpp:94-112 | no prefix that stops before the closing brace is accepted, whatever the id and bundle path contain |
| `Json.ReadValueExtend` | src/state.cpp:97-101 | what is read from a text does not change when more text follows a value that ends by itself |
| `JsonText.ReadTextBack` | src/bundle.cpp:34-63 | the text of any value, nested arrays and objects, all 64-bit integers, other numbers and every string included, with any white space between its tokens, reads back as that value before any text that does not continue a number |
| `JsonText.DocumentOfText` | src/bundle.cpp:34-35 | such a text with white space around it is a document of that value |
| `JsonText.StringBodyOfSpelling` | src/state.cpp:97-101 | every string, control characters included, has a quoted text that reads back as it |
| `JsonText.ReadUnit` | src/state.cpp:97-101 | four hexadecimal digits that name no surrogate read as the UTF-8 form of their value |
| `JsonText.ReadPair` | src/state.cpp:97-101 | two escapes that form a surrogate pair read as the UTF-8 form of the code point they stand for |
| `JsonGrammar.ReadValueSound` | src/bundle.cpp:34-63 | whatever is read as a value is a text of that value by the grammar of RFC 8259, written down apart from the reader |
| `JsonGrammar.DocumentSound` | src/bundle.cpp:34-35 | a document that is accepted is a grammatical text of its value and white space |
| `Utf8Exact.AcceptedExactly` | src/state.cpp:97-101 | a text passes the UTF-8 check if and only if it is the encoding of some sequence of code points without surrogates |
| `Utf8Exact.DecodeEncode` | src/state.cpp:97-101 | the encoding of a code point decodes to it and has the length RFC 3629 gives |
| `StateObject.State.constructor` | include/state.h:35-37 | a new State has the given id and bundle path, status unknown, pid -1, exit code 0, no times and no cgroup flag |
| `StateObject.State.Print` | src/state.cpp:194-214 | appends exactly the text of the current fields to the stream |
| `StateObject.State.LoadFields` | src/state.cpp:103-181 | assigns field by field what the document holds; what was assigned before a failure stays |
| `StateObject.State.Load` | src/state.cpp:94-188 | loads the text, then the configuration the loaded bundle path names, and nothing of the latter when the former fails |
| `StateObject.State.LoadBundle` | src/state.cpp:190-192 | reads the configuration file of the bundle path into the bundle object |
| `StateObject.State.SetSystemdCgroup` | include/state.h:48-48 | changes the cgroup flag alone |
| `StateObject.State.SetCreating` | src/state.cpp:216-216 | changes the status alone |
| `StateObject.State.SetCreated` | src/state.cpp:218-234 | sets status created, creation time and the caller's own pid, and nothing else |
| `StateObject.State.SetRunning` | src/state.cpp:236-245 | sets status running and start time, and nothing else |
| `StateObject.State.SetStopped` | src/state.cpp:247-257 | sets status stopped, exit code and finish time, and nothing else |
| `BundleModel.GetIntExact` | src/bundle.cpp:15-27 | for each of the four types, an integer is stored exactly as in the document, if and only if it has 32 or 64 bits, in two's complement when signed |
| `BundleObject.ReadInt` | src/bundle.cpp:15-27 | succeeds exactly for an integer of 32 or 64 bits, signed or not as the type is, assigns it through the reference, and leaves the reference alone otherwise |
| `BundleObject.ReadStrings` | src/bundle.cpp:47-63 | succeeds exactly on an array of strings and then has appended all of them in order; the loop stops at the first other value |
| `BundleObject.ReadGids` | src/bundle.cpp:277-296 | succeeds exactly on an array of 32-bit integers and then has appended all of them |
| `BundleObject.ReadConsole` | src/bundle.cpp:66-96 | succeeds exactly on a conforming object and then holds the last height and width |
| `BundleObject.ReadCapabilities` | src/bundle.cpp:105-157 | succeeds exactly if each of the five optional lists, found by key, is one of strings, and then has appended them; the first bad one ends it |
| `BundleObject.ReadRLimits` | src/bundle.cpp:196-231 | succeeds exactly if every limit has type, soft and hard of the right kinds, and then has appended all of them |
| `BundleObject.ReadUser` | src/bundle.cpp:243-300 | succeeds exactly on a conforming object and then holds the last ids and all additional groups |
| `BundleObject.ReadMounts` | src/bundle.cpp:340-398 | succeeds exactly on an array of conforming mounts and then has appended what each means, from defaults |
| `BundleObject.ReadNamespaces` | src/bundle.cpp:405-442 | succeeds exactly on an array of conforming namespaces and then has appended what each means |
| `BundleObject.ReadMappings` | src/bundle.cpp:444-528 | succeeds exactly on an array of conforming mappings and then has appended what each means to the list given |
| `BundleObject.ReadDevices` | src/bundle.cpp:530-600 | succeeds exactly on an array of conforming devices and then has appended what each means |
| `BundleObject.ReadResources` | src/bundle.cpp:611-660 | succeeds exactly if the memory limits conform and then holds the last of each; devices under resources are skipped |
| `BundleObject.Bundle.LoadProcess` | src/bundle.cpp:43-308 | succeeds exactly on a conforming process, whose meaning the fields then hold; otherwise the members before the first failure are loaded |
| `BundleObject.Bundle.LoadRoot` | src/bundle.cpp:310-338 | succeeds exactly on a conforming root, whose meaning the fields then hold |
| `BundleObject.Bundle.LoadLinux` | src/bundle.cpp:401-668 | succeeds exactly on a conforming linux object, whose meaning the fields then hold, both mappings in one list |
| `BundleObject.Bundle.LoadAnnotations` | src/bundle.cpp:698-731 | succeeds exactly if the one annotation recognised lists strings, and then has appended them to the commands |
| `BundleObject.Bundle.Load` | src/bundle.cpp:30-819 | succeeds if and only if there is a document and it conforms to the schema, and then every field holds what the document means; a missing document changes nothing |
| `BundleSchema.AcceptedIffConforms` | src/bundle.cpp:30-819 | loading succeeds if and only if the recognised members at every level have the right type and range, of capability lists and `rlimits` and of a limit's own members the first of each name |
| `BundleRepeats.AcceptedIffEvery` | src/bundle.cpp:30-819 | a document that repeats no key looked up by name is accepted if and only if every recognised member at every level has the right type and range |
| `BundleRepeats.LimitLoadedTwice` | src/bundle.cpp:196-231 | a concrete process with two `rlimits` members, the second no list, that is accepted and loads the one limit twice |
| `BundleRepeats.LimitsJoinExactly` | src/bundle.cpp:196-231 | the limits loaded from every accepted process with n `rlimits` members are their joined arrays if and only if n is at most one |
| `BundleRepeats.NamesJoinExactly` | src/bundle.cpp:105-157 | the names loaded from n lists of one capability are their joined arrays in every case if and only if n is at most one |
| `BundleValues.ProcessMeans` | src/bundle.cpp:43-308 | an accepted process gives each scalar its last value and each list the joined arrays of its key, except that of a capability list only the first counts and that the first `rlimits` is loaded once per occurrence |
| `BundleValues.LinuxMeans` | src/bundle.cpp:401-668 | the same for the linux object, with both mappings joined in document order |
| `BundleValues.LoaderComputesMeaning` | src/bundle.cpp:30-819 | on every accepted document and earlier bundle, every field ends up with its declared meaning: last scalar, joined arrays in document order, and for lists looked up by name the first |
| `BundleAlike.AlikeConforms` | src/bundle.cpp:695-817 | documents with the same values under every known key are accepted or refused together |
| `BundleAlike.AlikeLoadsAlike` | src/bundle.cpp:695-817 | such documents give the same verdict and the same bundle but for the order of the mappings |
| `BundleOrder.PermutedIsReordered` | src/bundle.cpp:695-817 | every permutation of members with distinct keys is covered by the relation of the next rows |
| `BundleOrder.OrderIndependence` | src/bundle.cpp:43-817 | permuting members with distinct keys at any depth keeps the verdict and the bundle, except that the list of mappings may be rearranged, and not even that if the two mapping keys keep their order |
| `BundleOrder.SwapExactly` | src/bundle.cpp:444-528 | a reordering of an accepted document loads the same bundle if and only if the mapping keys keep their order or the two lists of mappings commute |
| `BundleOrder.SwapReordersMappings` | src/bundle.cpp:444-528 | a concrete document whose reordering loads a different list |
| `BundleUnknown.InsertedIsErased` | src/bundle.cpp:695-817 | a member under an unknown key, inserted anywhere in an object, disappears in the erased document |
| `BundleUnknown.UnknownChangesNothing` | src/bundle.cpp:43-817 | leaving out all unknown members at every level changes neither verdict nor bundle |
| `BundleUnknown.OnlyKnownMembersCount` | src/bundle.cpp:43-817 | documents that differ only in unknown members load the same |
| `CgroupScope.Names` | src/cgroup.cpp:147-167 | scope and slice for an empty path, one without a colon and one with; the scope ends in ".scope", and a rest prefix:name gives prefix-name if and only if the prefix is longer than the slice |
| `CgroupScope.Rejoined` | src/cgroup.cpp:158-166 | slice, colon and unit rejoin to the path except for at most one colon turned into a dash |
| `CgroupScope.ColonFree` | src/cgroup.cpp:158-164 | the unit is free of colons exactly when the rest had none, or a single one beyond the index of the first |
| `CgroupScope.ThreeParts` | src/cgroup.cpp:158-164 | the unit of slice:prefix:name is prefix-name if and only if the prefix is longer than the slice |
| `CgroupScope.DocumentedExample` | src/runw.cpp:898-900 | the documented example path keeps its second colon |
| `JobWait.JobStatusChecker.Callback` | src/cgroup.cpp:50-66 | a readable message about the awaited path ends the wait and records any result but "done" |
| `JobWait.JobStatusChecker.Check` | src/cgroup.cpp:25-47 | the loop answers with the first event that decides, for every stream of events |
| `JobWait.SuccessExactly` | src/cgroup.cpp:25-66 | success if and only if some message removes the awaited path with "done" and before it came neither an error of the bus nor another message about that path |
| `JobWait.OthersDoNotMatter` | src/cgroup.cpp:50-66 | messages about other jobs and unreadable ones never affect the result |
| `JobWait.Settled` | src/cgroup.cpp:25-47 | a decided wait does not depend on later events, and an undecided one only on those |
| `JobWait.Enter` | src/cgroup.cpp:130-235 | messages between registration and wait are neither missed nor compared with an unset path |
| `JobWait.FinishedDuringCall` | src/cgroup.cpp:222-235 | a job that ends before the wait begins is answered from the queue, whatever the bus does later |
| `Namespaces.Lookup` | src/runw.cpp:460-520 | the dispatch gives each of the eight flags for exactly the one type name it belongs to |
| `Namespaces.UpdateFlags` | src/runw.cpp:446-459 | joins the bit of the flag to the mask by bitwise or, or opens the path and remembers the descriptor |
| `Namespaces.OpenAll` | src/runw.cpp:460-520 | opens the paths of recognised entries in list order and stops at the first failure |
| `Namespaces.EnterAll` | src/runw.cpp:524-534 | enters and closes every descriptor, going on after failures, and reports whether any failed |
| `Namespaces.Setup` | src/runw.cpp:443-534 | a failed open ends it with no further call; otherwise the calls are exactly the opens, at most one unshare, and one enter and close per descriptor in order, every descriptor is closed again, and success means all were entered |
| `Namespaces.MaskExactly` | src/runw.cpp:446-451 | each of the eight flags is to be left if and only if its type name is listed without a path |
| `Namespaces.WordMore` | src/runw.cpp:446-451 | or-ing a flag's bit into the word of a set of flags gives the word of the set with that flag |
| `Namespaces.WordExactly` | src/runw.cpp:446-523 | the integer passed to unshare has binary digit 30 if and only if "network" is listed without a path, digit 29 for "pid", and so on for the eight kernel flags, and no other digit |
| `Namespaces.LeftExactly` | src/runw.cpp:521-523 | unshare is called if and only if one of the eight types is listed without a path |
| `Namespaces.EachOnceInOrder` | src/runw.cpp:524-534 | each descriptor is entered once with its own flag and closed exactly once, in list order |

## Left out

- The WebAssembly VM, the ahead-of-time compiler and its cache: opaque libraries; the model keeps whether the module was instantiated and an arbitrary exit code.
- The bus wrappers (src/sdbus.cpp) and the bus itself: thin foreign calls; the model has a queue of messages and a list of what the next calls do.
- `CGroup::finalize`, the mode probe and cgroup `readAll`: system probing and a path that is extracted and never used.
- `getTempFilename`: random names; a fresh name is an assumption.
- Signal names and number parsing: easy lookups; the signal is given.
- Command line, logging, console socket details and clock values: input and output only; a console socket failure is one early exit of the daemon.
- Builds for Solaris, Windows and macOS: the model is the Linux build with all eight namespace flags defined.
- A member with an empty key in `config.json` and a namespace with an empty type: the code reads the first character of an empty string there; in the model an empty key is not recognised and `Namespaces.Setup` asks for non-empty types.
- Liveness: nothing says that a process makes progress; the results are about what can never happen, and about when a step is possible.
- JobWait.JobStatusChecker.Check: streams of events are finite; one that ends undecided leaves the wait pending, and `JobWait.Settled` ties it to every longer stream.
- The child and the daemon also remove the directory when they fail; the model lets them stop at any point and does not record whether they finished.
- Bytes in a FIFO object that no process holds any more are still counted as being in it.
- StateObject.State.Load: the file system is a parameter, the joined path of bundle and file name being the pair of the two.
