/** How `state.json` is replaced and read (src/runw.cpp:54-124, 850-866).

    A writer fills a temporary file of its own, in as many pieces as it likes, and renames
    it into place. A reader asks for the size by name, opens by name and reads that many
    bytes from what it opened. Files are inodes; the name is an entry that points to one.
    Any number of writers, readers and removals interleave. */
module AtomicFile {
  import opened Wrappers
  import opened StateText
  import opened StateLaws

  datatype WriterPhase = Naming | Filling | Renamed | GivenUp

  /** `text` is what the writer has to say; `inode` is its temporary file. */
  datatype Writer = Writer(phase: WriterPhase, text: string, inode: nat)

  datatype ReaderPhase = Asking | Opening | Reading | Finished | NotFound

  /** `size` and `askedAt` are the answer to the size query and the number of renames then;
      `openedAt` is the number of renames when the file was opened. */
  datatype Reader = Reader(phase: ReaderPhase, size: nat, askedAt: nat, openedAt: nat, inode: nat, output: string)

  datatype Store = Store(
    entry: Option<nat>,
    inodes: seq<string>,
    renames: nat,
    writers: seq<Writer>,
    readers: seq<Reader>)

  const Empty := Store(None, [], 0, [], [])

  datatype Action =
    | NewWriter(text: string)
    | MakeTemp(i: nat)
    | Append(i: nat, piece: string)
    | Rename(i: nat)
    | GiveUp(i: nat)
    | Unlink
    | NewReader
    | AskSize(r: nat)
    | OpenFile(r: nat)
    | ReadBack(r: nat)
    | Miss(r: nat)

  function Shorter(n: nat, s: string): nat { if n < |s| then n else |s| }

  function SetWriter(s: Store, i: nat, w: Writer): Store
    requires i < |s.writers|
  {
    s.(writers := s.writers[i := w])
  }

  function SetReader(s: Store, r: nat, x: Reader): Store
    requires r < |s.readers|
  {
    s.(readers := s.readers[r := x])
  }

  function WriterNext(s: Store, i: nat, a: Action): Option<Store>
    requires i < |s.writers|
  {
    var w := s.writers[i];
    match a
    case MakeTemp(_) =>
      if !w.phase.Naming? then None
      else Some(SetWriter(s.(inodes := s.inodes + [""]), i, w.(phase := Filling, inode := |s.inodes|)))
    case Append(_, piece) =>
      // the next piece of the text, in order
      if !w.phase.Filling? || w.inode >= |s.inodes| || !(s.inodes[w.inode] + piece <= w.text) then None
      else Some(s.(inodes := s.inodes[w.inode := s.inodes[w.inode] + piece]))
    case Rename(_) =>
      // the stream is closed, so the whole text is in the file
      if !w.phase.Filling? || w.inode >= |s.inodes| || s.inodes[w.inode] != w.text then None
      else Some(SetWriter(s.(entry := Some(w.inode), renames := s.renames + 1), i, w.(phase := Renamed)))
    case GiveUp(_) =>
      if w.phase.Renamed? then None else Some(SetWriter(s, i, w.(phase := GivenUp)))
    case _ => None
  }

  function ReaderNext(s: Store, r: nat, a: Action): Option<Store>
    requires r < |s.readers|
  {
    var x := s.readers[r];
    match a
    case AskSize(_) =>
      if !x.phase.Asking? || s.entry.None? || s.entry.value >= |s.inodes| then None
      else Some(SetReader(s, r, x.(phase := Opening, size := |s.inodes[s.entry.value]|, askedAt := s.renames)))
    case OpenFile(_) =>
      if !x.phase.Opening? || s.entry.None? then None
      else Some(SetReader(s, r, x.(phase := Reading, inode := s.entry.value, openedAt := s.renames)))
    case ReadBack(_) =>
      if !x.phase.Reading? || x.inode >= |s.inodes| then None
      else
        var data := s.inodes[x.inode];
        Some(SetReader(s, r, x.(phase := Finished, output := data[..Shorter(x.size, data)])))
    case Miss(_) =>
      if x.phase.Finished? then None else Some(SetReader(s, r, x.(phase := NotFound)))
    case _ => None
  }

  function Next(s: Store, a: Action): Option<Store> {
    match a
    case NewWriter(text) => Some(s.(writers := s.writers + [Writer(Naming, text, 0)]))
    case NewReader => Some(s.(readers := s.readers + [Reader(Asking, 0, 0, 0, 0, "")]))
    case Unlink => Some(s.(entry := None))
    case MakeTemp(i) => if i < |s.writers| then WriterNext(s, i, a) else None
    case Append(i, _) => if i < |s.writers| then WriterNext(s, i, a) else None
    case Rename(i) => if i < |s.writers| then WriterNext(s, i, a) else None
    case GiveUp(i) => if i < |s.writers| then WriterNext(s, i, a) else None
    case AskSize(r) => if r < |s.readers| then ReaderNext(s, r, a) else None
    case OpenFile(r) => if r < |s.readers| then ReaderNext(s, r, a) else None
    case ReadBack(r) => if r < |s.readers| then ReaderNext(s, r, a) else None
    case Miss(r) => if r < |s.readers| then ReaderNext(s, r, a) else None
  }

  ghost predicate IsHistory(ss: seq<Store>, actions: seq<Action>) {
    && |ss| == |actions| + 1
    && ss[0] == Empty
    && forall k :: 0 <= k < |actions| ==> Next(ss[k], actions[k]) == Some(ss[k + 1])
  }

  // ---- what every action keeps ----

  /** The inode is the finished work of some writer that has renamed it. */
  ghost predicate Published(s: Store, n: nat) {
    exists i :: 0 <= i < |s.writers| && s.writers[i].phase.Renamed? && s.writers[i].inode == n
                && n < |s.inodes| && s.inodes[n] == s.writers[i].text
  }

  ghost predicate WritersInv(s: Store) {
    && (forall i :: 0 <= i < |s.writers| && (s.writers[i].phase.Filling? || s.writers[i].phase.Renamed?) ==>
          && s.writers[i].inode < |s.inodes|
          && s.inodes[s.writers[i].inode] <= s.writers[i].text
          && (s.writers[i].phase.Renamed? ==> s.inodes[s.writers[i].inode] == s.writers[i].text))
    && (forall i, j :: 0 <= i < j < |s.writers| && OwnsInode(s.writers[i]) && OwnsInode(s.writers[j]) ==>
          s.writers[i].inode != s.writers[j].inode)
  }

  predicate OwnsInode(w: Writer) { w.phase.Filling? || w.phase.Renamed? }

  ghost predicate ReaderInv(s: Store, x: Reader) {
    && (x.phase.Opening? ==> x.askedAt <= s.renames && (x.askedAt == s.renames && s.entry.Some? ==>
          s.entry.value < |s.inodes| && x.size == |s.inodes[s.entry.value]|))
    && (x.phase.Reading? || x.phase.Finished? ==>
          && Published(s, x.inode)
          && x.askedAt <= x.openedAt
          && (x.askedAt == x.openedAt ==> x.inode < |s.inodes| && x.size == |s.inodes[x.inode]|))
    && (x.phase.Finished? ==> x.inode < |s.inodes| && x.output == s.inodes[x.inode][..Shorter(x.size, s.inodes[x.inode])])
  }

  ghost predicate Inv(s: Store) {
    && WritersInv(s)
    && (s.entry.Some? ==> Published(s, s.entry.value))
    && (forall r :: 0 <= r < |s.readers| ==> ReaderInv(s, s.readers[r]))
  }

  /** A published inode is never written again. */
  lemma PublishedStays(s: Store, a: Action, s': Store, n: nat)
    requires WritersInv(s) && Published(s, n) && Next(s, a) == Some(s')
    ensures Published(s', n) && s'.inodes[n] == s.inodes[n]
  {
    var i :| 0 <= i < |s.writers| && s.writers[i].phase.Renamed? && s.writers[i].inode == n
             && n < |s.inodes| && s.inodes[n] == s.writers[i].text;
    assert s'.writers[i] == s.writers[i];
    if a.Append? && a.i != i {
      assert s.writers[a.i].inode != s.writers[i].inode by {
        assert OwnsInode(s.writers[a.i]) && OwnsInode(s.writers[i]);
        if a.i < i { } else { }
      }
    }
  }

  lemma AppendKeepsWriters(s: Store, i: nat, piece: string)
    requires WritersInv(s) && i < |s.writers| && s.writers[i].phase.Filling? && s.writers[i].inode < |s.inodes|
    requires s.inodes[s.writers[i].inode] + piece <= s.writers[i].text
    ensures WritersInv(s.(inodes := s.inodes[s.writers[i].inode := s.inodes[s.writers[i].inode] + piece]))
  {
    var w := s.writers[i];
    forall j | 0 <= j < |s.writers| && j != i && OwnsInode(s.writers[j]) ensures s.writers[j].inode != w.inode {
      assert OwnsInode(w);
      if j < i { } else { }
    }
  }

  lemma TempKeepsWriters(s: Store, i: nat)
    requires WritersInv(s) && i < |s.writers|
    ensures WritersInv(SetWriter(s.(inodes := s.inodes + [""]), i, s.writers[i].(phase := Filling, inode := |s.inodes|)))
  {
  }

  lemma PhaseKeepsWriters(s: Store, i: nat, phase: WriterPhase)
    requires WritersInv(s) && i < |s.writers|
    requires phase.GivenUp? || (phase.Renamed? && OwnsInode(s.writers[i]) && s.inodes[s.writers[i].inode] == s.writers[i].text)
    ensures WritersInv(SetWriter(s, i, s.writers[i].(phase := phase)))
  {
  }

  lemma WritersKept(s: Store, a: Action, s': Store)
    requires WritersInv(s) && Next(s, a) == Some(s')
    ensures WritersInv(s')
  {
    if a.Append? {
      AppendKeepsWriters(s, a.i, a.piece);
    } else if a.MakeTemp? {
      TempKeepsWriters(s, a.i);
    } else if a.Rename? || a.GiveUp? {
      PhaseKeepsWriters(s, a.i, s'.writers[a.i].phase);
    }
  }

  lemma EntryKept(s: Store, a: Action, s': Store)
    requires Inv(s) && Next(s, a) == Some(s')
    ensures s'.entry.Some? ==> Published(s', s'.entry.value)
  {
    if a.Rename? {
      var w := s'.writers[a.i];
      assert w.phase.Renamed? && w.inode == s'.entry.value && s'.inodes[w.inode] == w.text;
    } else if s.entry.Some? {
      PublishedStays(s, a, s', s.entry.value);
    }
  }

  /** A reader at rest is not disturbed by what others do. */
  lemma ReaderUndisturbed(s: Store, a: Action, s': Store, x: Reader)
    requires Inv(s) && Next(s, a) == Some(s') && ReaderInv(s, x)
    ensures ReaderInv(s', x)
  {
    if x.phase.Reading? || x.phase.Finished? { PublishedStays(s, a, s', x.inode); }
    if x.phase.Opening? && s.entry.Some? { PublishedStays(s, a, s', s.entry.value); }
    assert s.renames <= s'.renames;
    assert s'.renames == s.renames ==> s'.entry == s.entry || s'.entry.None?;
  }

  /** A reader that moves opens what the name points to: a published inode. */
  lemma ReaderMoves(s: Store, r: nat, a: Action)
    requires Inv(s) && r < |s.readers| && ReaderNext(s, r, a).Some?
    ensures var s' := ReaderNext(s, r, a).value;
            && s' == SetReader(s, r, s'.readers[r])
            && ReaderInv(s, s'.readers[r])
  {
    assert ReaderInv(s, s.readers[r]);
  }

  lemma ReadersOnlyChangeReaders(s: Store, r: nat, x: Reader, y: Reader)
    requires r < |s.readers|
    ensures ReaderInv(s, y) <==> ReaderInv(SetReader(s, r, x), y)
  {
    var s' := SetReader(s, r, x);
    forall n ensures Published(s, n) <==> Published(s', n) { }
  }

  lemma StepKeeps(s: Store, a: Action, s': Store)
    requires Inv(s) && Next(s, a) == Some(s')
    ensures Inv(s')
  {
    WritersKept(s, a, s');
    EntryKept(s, a, s');
    forall r | 0 <= r < |s'.readers| ensures ReaderInv(s', s'.readers[r]) {
      if r < |s.readers| {
        assert ReaderInv(s, s.readers[r]);
        if s'.readers[r] == s.readers[r] {
          ReaderUndisturbed(s, a, s', s.readers[r]);
        } else {
          ReaderMoves(s, r, a);
          ReadersOnlyChangeReaders(s, r, s'.readers[r], s'.readers[r]);
        }
      }
    }
  }

  lemma {:induction false} HistoryInv(ss: seq<Store>, actions: seq<Action>, k: nat)
    requires IsHistory(ss, actions) && k < |ss|
    ensures Inv(ss[k])
  {
    if k > 0 {
      HistoryInv(ss, actions, k - 1);
      StepKeeps(ss[k - 1], actions[k - 1], ss[k]);
    }
  }

  // ---- the guarantees ----

  /** At every moment the name points to one whole text of one writer, never to a mixture
      or a part: whoever opens it, the loader included, sees that text. */
  lemma WholeFileBehindTheName(ss: seq<Store>, actions: seq<Action>, k: nat)
    requires IsHistory(ss, actions) && k < |ss| && ss[k].entry.Some?
    ensures exists i :: && 0 <= i < |ss[k].writers| && ss[k].writers[i].phase.Renamed?
                        && ss[k].entry.value < |ss[k].inodes|
                        && ss[k].inodes[ss[k].entry.value] == ss[k].writers[i].text
  {
    HistoryInv(ss, actions, k);
  }

  /** What a finished reader outputs is a prefix of a single text that was published, and
      the whole of it whenever no rename fell between its size query and its open. */
  lemma ReaderSeesOneVersion(ss: seq<Store>, actions: seq<Action>, k: nat, r: nat)
    requires IsHistory(ss, actions) && k < |ss| && r < |ss[k].readers| && ss[k].readers[r].phase.Finished?
    ensures exists i :: && 0 <= i < |ss[k].writers| && ss[k].writers[i].phase.Renamed?
                        && ss[k].readers[r].output <= ss[k].writers[i].text
                        && (ss[k].readers[r].askedAt == ss[k].readers[r].openedAt ==>
                              ss[k].readers[r].output == ss[k].writers[i].text)
  {
    HistoryInv(ss, actions, k);
    var s, x := ss[k], ss[k].readers[r];
    assert ReaderInv(s, x);
    var i :| 0 <= i < |s.writers| && s.writers[i].phase.Renamed? && s.writers[i].inode == x.inode
             && x.inode < |s.inodes| && s.inodes[x.inode] == s.writers[i].text;
  }

  // ---- the same in terms of what was done ----

  ghost predicate AskedOn(ss: seq<Store>, actions: seq<Action>, m: nat, r: nat, renames: nat)
    requires m < |actions| < |ss|
  {
    actions[m] == AskSize(r) && ss[m].renames == renames
  }

  ghost predicate OpenedOn(ss: seq<Store>, actions: seq<Action>, n: nat, r: nat, renames: nat, inode: nat)
    requires n < |actions| < |ss|
  {
    actions[n] == OpenFile(r) && ss[n].renames == renames && ss[n].entry == Some(inode)
  }

  /** What a reader has noted are the answers it got when it asked and when it opened. */
  ghost predicate Noted(ss: seq<Store>, actions: seq<Action>, k: nat, r: nat)
    requires k <= |actions| < |ss| && r < |ss[k].readers|
  {
    var x := ss[k].readers[r];
    && (x.phase.Opening? ==> exists m :: 0 <= m < k && AskedOn(ss, actions, m, r, x.askedAt))
    && (x.phase.Reading? || x.phase.Finished? ==>
          exists m, n :: 0 <= m < n < k && AskedOn(ss, actions, m, r, x.askedAt) && OpenedOn(ss, actions, n, r, x.openedAt, x.inode))
  }

  lemma ReaderStep(s: Store, a: Action, s': Store, r: nat)
    requires Next(s, a) == Some(s') && r < |s'.readers|
    ensures r >= |s.readers| ==> s'.readers[r].phase.Asking?
    ensures r < |s.readers| ==>
              var x, y := s.readers[r], s'.readers[r];
              || y == x || y.phase.NotFound?
              || (a == AskSize(r) && y.phase.Opening? && y.askedAt == s.renames)
              || (a == OpenFile(r) && x.phase.Opening? && y.phase.Reading? && y.askedAt == x.askedAt && y.openedAt == s.renames
                  && s.entry == Some(y.inode))
              || (x.phase.Reading? && y.phase.Finished? && y == x.(phase := Finished, output := y.output))
  {
  }

  lemma {:induction false} HistoryNoted(ss: seq<Store>, actions: seq<Action>, k: nat, r: nat)
    requires IsHistory(ss, actions) && k < |ss| && r < |ss[k].readers|
    ensures Noted(ss, actions, k, r)
  {
    if k > 0 {
      var s, a, s' := ss[k - 1], actions[k - 1], ss[k - 1 + 1];
      ReaderStep(s, a, s', r);
      if r < |s.readers| {
        HistoryNoted(ss, actions, k - 1, r);
        var x, y := s.readers[r], s'.readers[r];
        if a == AskSize(r) && y.phase.Opening? && y != x {
          assert AskedOn(ss, actions, k - 1, r, y.askedAt);
        } else if a == OpenFile(r) && y.phase.Reading? && y != x {
          var m :| 0 <= m < k - 1 && AskedOn(ss, actions, m, r, x.askedAt);
          assert OpenedOn(ss, actions, k - 1, r, y.openedAt, y.inode);
        }
      }
    }
  }

  lemma {:induction false} NoRenameBetween(ss: seq<Store>, actions: seq<Action>, m: nat, n: nat)
    requires IsHistory(ss, actions) && m <= n < |ss| && forall t :: m <= t < n ==> !actions[t].Rename?
    ensures ss[n].renames == ss[m].renames
    decreases n - m
  {
    if m < n {
      NoRenameBetween(ss, actions, m, n - 1);
      assert Next(ss[n - 1], actions[n - 1]) == Some(ss[n - 1 + 1]);
    }
  }

  lemma {:induction false} PublishedAlong(ss: seq<Store>, actions: seq<Action>, n: nat, k: nat, inode: nat)
    requires IsHistory(ss, actions) && n <= k < |ss| && Published(ss[n], inode)
    ensures Published(ss[k], inode) && ss[k].inodes[inode] == ss[n].inodes[inode]
    decreases k - n
  {
    if n < k {
      PublishedAlong(ss, actions, n, k - 1, inode);
      HistoryInv(ss, actions, k - 1);
      PublishedStays(ss[k - 1], actions[k - 1], ss[k - 1 + 1], inode);
    }
  }

  /** What a reader got, from what was done: it is a prefix of the text that was behind the
      name when the reader opened it, and all of that text if nothing was renamed between
      the size query and the open. */
  ghost predicate ReadAt(ss: seq<Store>, actions: seq<Action>, m: nat, n: nat, r: nat, output: string)
    requires m < n < |actions| < |ss|
  {
    && actions[m] == AskSize(r) && actions[n] == OpenFile(r)
    && ss[n].entry.Some? && ss[n].entry.value < |ss[n].inodes|
    && var text := ss[n].inodes[ss[n].entry.value];
    && output <= text
    && ((forall t :: m <= t < n ==> !actions[t].Rename?) ==> output == text)
  }

  lemma ReaderGotWhatWasThere(ss: seq<Store>, actions: seq<Action>, k: nat, r: nat)
    requires IsHistory(ss, actions) && k < |ss| && r < |ss[k].readers| && ss[k].readers[r].phase.Finished?
    ensures exists m, n :: 0 <= m < n < k && ReadAt(ss, actions, m, n, r, ss[k].readers[r].output)
  {
    HistoryNoted(ss, actions, k, r);
    var x := ss[k].readers[r];
    var m, n :| 0 <= m < n < k && AskedOn(ss, actions, m, r, x.askedAt) && OpenedOn(ss, actions, n, r, x.openedAt, x.inode);
    HistoryInv(ss, actions, k);
    HistoryInv(ss, actions, n);
    assert ReaderInv(ss[k], x);
    PublishedAlong(ss, actions, n, k, x.inode);
    if forall t :: m <= t < n ==> !actions[t].Rename? { NoRenameBetween(ss, actions, m, n); }
    assert ReadAt(ss, actions, m, n, r, x.output);
  }

  ghost predicate IsPrinted(text: string) { exists v :: PlainTimes(v) && PrintText(v) == text }

  /** The text of one printed state, complete but perhaps for its final newline. */
  ghost predicate IsNearlyWhole(output: string) {
    exists text :: IsPrinted(text) && output <= text && |output| >= |text| - 1
  }

  lemma PrefixIsRefused(text: string, output: string)
    requires IsPrinted(text) && output <= text && |output| < |text| - 1
    ensures !LoadText(Fresh, output).ok
  {
    var v :| PlainTimes(v) && PrintText(v) == text;
    TruncationRejected(v, |output|);
    assert output == PrintText(v)[..|output|];
  }

  /** When the writers publish printed states, a reader's output is nearly the whole of one
      of them, or it cannot be loaded at all. */
  lemma TornReadIsRefused(ss: seq<Store>, actions: seq<Action>, k: nat, r: nat)
    requires IsHistory(ss, actions) && k < |ss| && r < |ss[k].readers| && ss[k].readers[r].phase.Finished?
    requires forall i :: 0 <= i < |ss[k].writers| ==> IsPrinted(ss[k].writers[i].text)
    ensures IsNearlyWhole(ss[k].readers[r].output) || !LoadText(Fresh, ss[k].readers[r].output).ok
  {
    ReaderSeesOneVersion(ss, actions, k, r);
    var out := ss[k].readers[r].output;
    var i :| 0 <= i < |ss[k].writers| && ss[k].writers[i].phase.Renamed? && out <= ss[k].writers[i].text;
    var text := ss[k].writers[i].text;
    if |out| < |text| - 1 { PrefixIsRefused(text, out); }
  }
}
