/** The single step by which the lifecycle publishes a version stands for the whole business
    of temporary file, pieces and rename: every history of the file level is one of steps
    that publish, remove or change nothing that can be seen. */
module AtomicPublish {
  import opened Wrappers
  import opened StateText
  import A = AtomicFile
  import L = Lifecycle

  /** What a writer is doing: whose update it is, and the version it has to publish. */
  datatype Plan = Plan(owner: L.Owner, file: L.File)

  /** Every writer prints its version. */
  predicate Prints(s: A.Store, plan: nat -> Plan) {
    forall i :: 0 <= i < |s.writers| ==> s.writers[i].text == PrintText(plan(i).file.view)
  }

  /** A process makes one update at a time. */
  predicate OneByOne(s: A.Store, plan: nat -> Plan) {
    forall i, j :: 0 <= i < |s.writers| && 0 <= j < |s.writers| && i != j ==>
      s.writers[i].phase.Filling? && s.writers[j].phase.Filling? ==> plan(i).owner != plan(j).owner
  }

  /** The version behind the name, and the temporary files in use. */
  ghost predicate Shows(s: A.Store, plan: nat -> Plan, sh: L.Shared) {
    && (s.entry.None? <==> sh.state.None?)
    && (s.entry.Some? ==> exists i :: 0 <= i < |s.writers| && Behind(s, i) && sh.state == Some(plan(i).file))
    && (forall i :: 0 <= i < |s.writers| && s.writers[i].phase.Filling? ==> plan(i).owner in sh.temps)
  }

  /** The name points to what this writer renamed. */
  predicate Behind(s: A.Store, i: nat)
    requires i < |s.writers|
  {
    s.entry.Some? && s.writers[i].phase.Renamed? && s.writers[i].inode == s.entry.value
  }

  /** What an action of the file level is to the lifecycle. */
  function Abstract(sh: L.Shared, a: A.Action, plan: nat -> Plan): L.Shared {
    match a
    case MakeTemp(i) => sh.(temps := sh.temps + {plan(i).owner})
    case Rename(i) => L.Publish(sh, plan(i).owner, plan(i).file)
    case Unlink => sh.(state := None)
    case _ => sh
  }

  lemma RenameSimulated(s: A.Store, i: nat, s': A.Store, plan: nat -> Plan, sh: L.Shared)
    requires A.Next(s, A.Rename(i)) == Some(s') && OneByOne(s, plan) && Shows(s, plan, sh)
    ensures Shows(s', plan, Abstract(sh, A.Rename(i), plan))
  {
    assert Behind(s', i);
    var sh' := Abstract(sh, A.Rename(i), plan);
    forall j | 0 <= j < |s'.writers| && s'.writers[j].phase.Filling? ensures plan(j).owner in sh'.temps {
      assert j != i && s.writers[j].phase.Filling? && s.writers[i].phase.Filling?;
    }
  }

  /** A rename keeps no other writer from being behind the name; nothing else does. */
  lemma StillBehind(s: A.Store, a: A.Action, s': A.Store, i: nat)
    requires A.Next(s, a) == Some(s') && !a.Rename? && !a.Unlink? && i < |s.writers| && Behind(s, i)
    ensures s'.entry == s.entry && i < |s'.writers| && Behind(s', i)
  {
  }

  lemma OthersSimulated(s: A.Store, a: A.Action, s': A.Store, plan: nat -> Plan, sh: L.Shared)
    requires A.Next(s, a) == Some(s') && !a.Rename? && Shows(s, plan, sh)
    ensures Shows(s', plan, Abstract(sh, a, plan))
  {
    if s.entry.Some? && !a.Unlink? {
      var i :| 0 <= i < |s.writers| && Behind(s, i) && sh.state == Some(plan(i).file);
      StillBehind(s, a, s', i);
    }
    forall j | 0 <= j < |s'.writers| && s'.writers[j].phase.Filling? ensures plan(j).owner in Abstract(sh, a, plan).temps {
      if j < |s.writers| && s.writers[j].phase.Filling? { } else { assert a == A.MakeTemp(j); }
    }
  }

  lemma StepSimulated(s: A.Store, a: A.Action, s': A.Store, plan: nat -> Plan, sh: L.Shared)
    requires A.Next(s, a) == Some(s') && OneByOne(s, plan) && Shows(s, plan, sh)
    ensures Shows(s', plan, Abstract(sh, a, plan))
  {
    match a
    case Rename(i) => RenameSimulated(s, i, s', plan, sh);
    case _ => OthersSimulated(s, a, s', plan, sh);
  }

  /** The lifecycle's files after some actions: each is a publication, a removal or a new
      temporary file, or is not seen at all. */
  function Trace(actions: seq<A.Action>, plan: nat -> Plan, k: nat): L.Shared
    requires k <= |actions|
  {
    if k == 0 then L.Init.sh else Abstract(Trace(actions, plan, k - 1), actions[k - 1], plan)
  }

  /** Every history of the file level is one of the lifecycle's files. */
  lemma {:induction false} HistorySimulated(ss: seq<A.Store>, actions: seq<A.Action>, plan: nat -> Plan, k: nat)
    requires A.IsHistory(ss, actions) && k < |ss| && forall m :: 0 <= m < |ss| ==> OneByOne(ss[m], plan)
    ensures Shows(ss[k], plan, Trace(actions, plan, k))
  {
    if k > 0 {
      HistorySimulated(ss, actions, plan, k - 1);
      StepSimulated(ss[k - 1], actions[k - 1], ss[k], plan, Trace(actions, plan, k - 1));
    }
  }

  lemma ShowsText(s: A.Store, plan: nat -> Plan, sh: L.Shared)
    requires A.WritersInv(s) && Prints(s, plan) && Shows(s, plan, sh) && sh.state.Some?
    ensures s.entry.Some? && s.entry.value < |s.inodes| && s.inodes[s.entry.value] == PrintText(sh.state.value.view)
  {
    var i :| 0 <= i < |s.writers| && Behind(s, i) && sh.state == Some(plan(i).file);
  }

  /** At every moment there is a name exactly if the lifecycle's files hold a version, and
      whoever opens it sees that version's printed text, whole. */
  lemma NameShowsVersion(ss: seq<A.Store>, actions: seq<A.Action>, plan: nat -> Plan, k: nat)
    requires A.IsHistory(ss, actions) && k < |ss| && Prints(ss[k], plan)
    requires forall m :: 0 <= m < |ss| ==> OneByOne(ss[m], plan)
    ensures var s, sh := ss[k], Trace(actions, plan, k);
            && (s.entry.Some? <==> sh.state.Some?)
            && (sh.state.Some? ==> s.entry.value < |s.inodes| && s.inodes[s.entry.value] == PrintText(sh.state.value.view))
  {
    A.HistoryInv(ss, actions, k);
    HistorySimulated(ss, actions, plan, k);
    if Trace(actions, plan, k).state.Some? { ShowsText(ss[k], plan, Trace(actions, plan, k)); }
  }

  // ---- the visible actions are steps of the lifecycle ----

  /** The rename of a writer that works for a server is that server's step of publishing. */
  lemma ServerRenameIsAStep(s: A.Store, k: nat, plan: nat -> Plan, w: L.World, i: nat)
    requires Shows(s, plan, w.sh) && k < |s.writers| && s.writers[k].phase.Filling?
    requires i < |w.creates| && w.creates[i].server.SrvRename? && plan(k) == Plan(L.ByServer(i), L.File(i, w.creates[i].mem))
    ensures var next := L.Next(w, L.ProcessDo(i, L.ServerDo(L.RenameOk)));
            next.Some? && next.value.sh == Abstract(w.sh, A.Rename(k), plan)
  {
  }

  /** And the rename of one that works for a wasm process is that process's. */
  lemma WasmRenameIsAStep(s: A.Store, k: nat, plan: nat -> Plan, w: L.World, i: nat)
    requires Shows(s, plan, w.sh) && k < |s.writers| && s.writers[k].phase.Filling?
    requires i < |w.creates| && w.creates[i].wasm.WsmRename? && plan(k) == Plan(L.ByWasm(i), L.File(i, w.creates[i].mem))
    ensures var next := L.Next(w, L.ProcessDo(i, L.WasmDo(L.UpdateRename)));
            next.Some? && next.value.sh == Abstract(w.sh, A.Rename(k), plan)
  {
  }

  /** Making the temporary file is a step too, where there is a directory. */
  lemma TempIsAStep(k: nat, plan: nat -> Plan, w: L.World, i: nat)
    requires w.sh.dir && i < |w.creates|
    ensures w.creates[i].server.SrvTemp? && plan(k).owner == L.ByServer(i) ==>
              var next := L.Next(w, L.ProcessDo(i, L.ServerDo(L.TempOk)));
              next.Some? && next.value.sh == Abstract(w.sh, A.MakeTemp(k), plan)
    ensures w.creates[i].wasm.WsmTemp? && plan(k).owner == L.ByWasm(i) ==>
              var next := L.Next(w, L.ProcessDo(i, L.WasmDo(L.UpdateTemp)));
              next.Some? && next.value.sh == Abstract(w.sh, A.MakeTemp(k), plan)
  {
  }

  /** And so is taking the name away, for whoever removes the directory. */
  lemma UnlinkIsAStep(plan: nat -> Plan, w: L.World, r: L.Remover)
    requires L.Removing(w, r)
    ensures var next := L.Next(w, L.Remove(r, L.TheState)); next.Some? && next.value.sh == Abstract(w.sh, A.Unlink, plan)
  {
  }
}
