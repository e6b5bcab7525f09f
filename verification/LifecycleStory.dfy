/** The story `state.json` tells of each create, with any number of creates and deletes. */
module LifecycleStory {
  import opened Wrappers
  import opened StateText
  import opened Lifecycle
  import opened LifecycleInv
  import opened LifecycleShared
  import opened LifecycleTheorems

  const Order := [Creating, Created, Running, Stopped]

  function PublishedBy(w: World, i: nat): nat { if i < |w.creates| then w.creates[i].published else 0 }

  /** The status `state.json` shows, if it is there and this create wrote it. */
  function Shown(w: World, i: nat): Option<Status> {
    if w.sh.state.Some? && w.sh.state.value.owner == i then Some(w.sh.state.value.view.status) else None
  }

  /** A story goes on when something new is shown. */
  function Told(before: seq<Status>, shown: Option<Status>): seq<Status> {
    if shown.None? || (before != [] && before[|before| - 1] == shown.value) then before else before + [shown.value]
  }

  /** The statuses that one create shows up to a moment, without repetitions and gaps. */
  function StoryOf(ws: seq<World>, i: nat, k: nat): seq<Status>
    requires k < |ws|
  {
    Told(if k == 0 then [] else StoryOf(ws, i, k - 1), Shown(ws[k], i))
  }

  // ---- the file always shows its owner's last version ----

  predicate ShowsLast(w: World) {
    w.sh.state.Some? ==> Rank(w.sh.state.value.view.status) == PublishedBy(w, w.sh.state.value.owner) >= 1
  }

  lemma ProcessShowsLast(w: World, i: nat, p: ProcessStep)
    requires CreatesInv(w) && ShowsLast(w) && i < |w.creates| && ProcessNext(w, i, p).Some?
    ensures var (sh, c) := ProcessNext(w, i, p).value;
            var w' := SetCreate(w, i, sh, c);
            && ShowsLast(w')
            && (c.published == w.creates[i].published || (c.published == w.creates[i].published + 1 && Shown(w', i).Some?))
  {
    ProcessPublishes(w, i, p);
  }

  /** Each create's count of versions stays, or grows by the one the file then shows. */
  ghost predicate TellsNext(w: World, w': World, i: nat) {
    || PublishedBy(w', i) == PublishedBy(w, i)
    || (PublishedBy(w', i) == PublishedBy(w, i) + 1 && Shown(w', i).Some?)
  }

  lemma OthersTell(w: World, s: Step, w': World)
    requires Next(w, s) == Some(w') && !s.ProcessDo? && (w.sh.state.Some? ==> w.sh.state.value.owner < |w.creates|)
    ensures w.creates <= w'.creates && (forall j :: |w.creates| <= j < |w'.creates| ==> w'.creates[j].published == 0)
    ensures w'.sh.state == w.sh.state || w'.sh.state.None?
  {
  }

  lemma StepTells(w: World, s: Step, w': World, i: nat)
    requires Inv(w) && ShowsLast(w) && Next(w, s) == Some(w')
    ensures ShowsLast(w') && TellsNext(w, w', i)
  {
    match s
    case ProcessDo(j, p) =>
      ProcessStepped(w, j, p, w');
      ProcessShowsLast(w, j, p);
    case _ => OthersTell(w, s, w');
  }

  lemma {:induction false} RunShowsLast(ws: seq<World>, steps: seq<Step>, k: nat)
    requires IsRun(ws, steps) && k < |ws|
    ensures ShowsLast(ws[k])
  {
    if k > 0 {
      RunShowsLast(ws, steps, k - 1);
      RunInv(ws, steps, k - 1);
      StepTells(ws[k - 1], steps[k - 1], ws[k - 1 + 1], 0);
    }
  }

  // ---- the order ----

  lemma OrderByRank(s: Status)
    requires Rank(s) >= 1
    ensures Order[Rank(s) - 1] == s
  {
  }

  lemma ToldNext(before: seq<Status>, w: World, w': World, i: nat)
    requires TellsNext(w, w', i) && ShowsLast(w') && PublishedBy(w', i) <= 4 && before == Order[..PublishedBy(w, i)]
    ensures Told(before, Shown(w', i)) == Order[..PublishedBy(w', i)]
  {
    var p, p' := PublishedBy(w, i), PublishedBy(w', i);
    if Shown(w', i).Some? { OrderByRank(Shown(w', i).value); }
    if p' != p { assert Order[..p'] == Order[..p] + [Order[p]]; }
  }

  lemma AtMostFour(w: World, i: nat)
    requires CreatesInv(w)
    ensures PublishedBy(w, i) <= 4
  {
    if i < |w.creates| { assert CreateInv(w.creates[i]); }
  }

  lemma {:induction false} ToldAlong(ws: seq<World>, i: nat, k: nat)
    requires k < |ws| && ws[0] == Init
    requires forall m :: 0 <= m < |ws| ==> ShowsLast(ws[m]) && PublishedBy(ws[m], i) <= 4
    requires forall m :: 0 <= m < |ws| - 1 ==> TellsNext(ws[m], ws[m + 1], i)
    ensures StoryOf(ws, i, k) == Order[..PublishedBy(ws[k], i)]
  {
    if k > 0 {
      ToldAlong(ws, i, k - 1);
      assert TellsNext(ws[k - 1], ws[k - 1 + 1], i);
      ToldNext(StoryOf(ws, i, k - 1), ws[k - 1], ws[k], i);
    }
  }

  /** In every run, deletes and other creates of the same id included, the statuses that
      `state.json` shows of one create are creating, created, running, stopped, in this order,
      none skipped and none repeated: exactly as many as the create has published. */
  lemma OrderPerCreate(ws: seq<World>, steps: seq<Step>, i: nat, k: nat)
    requires IsRun(ws, steps) && k < |ws|
    ensures PublishedBy(ws[k], i) <= 4 && StoryOf(ws, i, k) == Order[..PublishedBy(ws[k], i)]
  {
    forall m | 0 <= m < |ws| ensures ShowsLast(ws[m]) && PublishedBy(ws[m], i) <= 4 {
      RunInv(ws, steps, m);
      RunShowsLast(ws, steps, m);
      AtMostFour(ws[m], i);
    }
    forall m | 0 <= m < |ws| - 1 ensures TellsNext(ws[m], ws[m + 1], i) {
      RunInv(ws, steps, m);
      StepTells(ws[m], steps[m], ws[m + 1], i);
    }
    ToldAlong(ws, i, k);
  }

  /** The file is at most one step behind the status its create holds in memory, and never
      ahead of it. */
  lemma FileLagsByOne(ws: seq<World>, steps: seq<Step>, k: nat)
    requires IsRun(ws, steps) && k < |ws| && ws[k].sh.state.Some?
    ensures ws[k].sh.state.value.owner < |ws[k].creates|
    ensures var f := ws[k].sh.state.value;
            var shown, held := Rank(f.view.status), Rank(ws[k].creates[f.owner].mem.status);
            shown <= held <= shown + 1
  {
    RunInv(ws, steps, k);
    RunShowsLast(ws, steps, k);
    assert CreateInv(ws[k].creates[ws[k].sh.state.value.owner]);
  }
}
