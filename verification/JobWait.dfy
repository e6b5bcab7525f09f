/** Waiting for a systemd job (src/cgroup.cpp:18-71, 130-134, 222-235). The bus is the list
    of what its next calls will do; a list that ends leaves the wait pending. */
module JobWait {
  import opened Wrappers

  /** A message for the handler: a removed job, or one whose arguments do not read. */
  datatype Signal = JobRemoved(path: string, unit: string, result: string) | Malformed

  datatype Event =
    | ProcessFailed(code: int)
    | Dispatched(signal: Signal)
    /** some other work was done */
    | Worked
    /** nothing to do, and the wait for more ends well */
    | Idle
    | WaitFailed(code: int)

  datatype Verdict = Done | Failed(code: int) | Pending

  const EFAULT := 14

  // ---- what the wait should say ----

  predicate Answers(e: Event, path: string) { e.Dispatched? && e.signal.JobRemoved? && e.signal.path == path }

  predicate BusError(e: Event) { e.ProcessFailed? || e.WaitFailed? }

  predicate Decides(e: Event, path: string) { Answers(e, path) || BusError(e) }

  function Decision(e: Event): Verdict {
    match e
    case Dispatched(JobRemoved(_, _, result)) => if result == "done" then Done else Failed(14)
    case ProcessFailed(code) => Failed(code)
    case WaitFailed(code) => Failed(code)
    case _ => Pending
  }

  /** The first event that decides anything decides. */
  function Outcome(path: string, events: seq<Event>): Verdict {
    if events == [] then Pending
    else if Decides(events[0], path) then Decision(events[0])
    else Outcome(path, events[1..])
  }

  predicate FirstAt(path: string, events: seq<Event>, k: nat) {
    k < |events| && Decides(events[k], path) && forall i :: 0 <= i < k ==> !Decides(events[i], path)
  }

  lemma {:induction false} OutcomeAt(path: string, events: seq<Event>, k: nat)
    requires FirstAt(path, events, k)
    ensures Outcome(path, events) == Decision(events[k])
  {
    if k > 0 {
      assert forall i :: 0 <= i < k - 1 ==> events[1..][i] == events[i + 1];
      OutcomeAt(path, events[1..], k - 1);
    }
  }

  lemma {:induction false} NoneDecides(path: string, events: seq<Event>)
    requires forall i :: 0 <= i < |events| ==> !Decides(events[i], path)
    ensures Outcome(path, events) == Pending
  {
    if events != [] { NoneDecides(path, events[1..]); }
  }

  lemma {:induction false} SomeFirst(path: string, events: seq<Event>) returns (k: nat)
    requires exists i :: 0 <= i < |events| && Decides(events[i], path)
    ensures FirstAt(path, events, k)
  {
    k := 0;
    while !Decides(events[k], path)
      invariant k < |events| && forall i :: 0 <= i < k ==> !Decides(events[i], path)
      decreases |events| - k
    {
      var j :| 0 <= j < |events| && Decides(events[j], path);
      assert j > k;
      k := k + 1;
    }
  }

  /** No error of the bus and no message about the awaited job. */
  predicate IsNeutral(e: Event, path: string) {
    match e
    case ProcessFailed(_) => false
    case WaitFailed(_) => false
    case Dispatched(JobRemoved(p, _, _)) => p != path
    case _ => true
  }

  /** The wait succeeds if and only if the first message about the awaited job says "done"
      and no bus error came before it. */
  lemma {:induction false} SuccessExactly(path: string, events: seq<Event>)
    ensures Outcome(path, events) == Done <==>
            exists k: nat, unit :: && k < |events| && events[k] == Dispatched(JobRemoved(path, unit, "done"))
                                   && forall i :: 0 <= i < k ==> IsNeutral(events[i], path)
  {
    if k: nat, unit :| k < |events| && events[k] == Dispatched(JobRemoved(path, unit, "done"))
                       && forall i :: 0 <= i < k ==> IsNeutral(events[i], path)
    {
      assert FirstAt(path, events, k);
    }
    if exists i :: 0 <= i < |events| && Decides(events[i], path) {
      var k := SomeFirst(path, events);
      OutcomeAt(path, events, k);
      forall j: nat | FirstAt(path, events, j) ensures Outcome(path, events) == Decision(events[j]) { OutcomeAt(path, events, j); }
    } else {
      NoneDecides(path, events);
    }
  }

  /** What is left without the messages about other jobs. */
  function OwnEvents(path: string, events: seq<Event>): seq<Event> {
    if events == [] then []
    else (if events[0].Dispatched? && !Answers(events[0], path) then [] else [events[0]]) + OwnEvents(path, events[1..])
  }

  /** Messages about other jobs, and ones that do not read, never affect the result. */
  lemma {:induction false} OthersDoNotMatter(path: string, events: seq<Event>)
    ensures Outcome(path, events) == Outcome(path, OwnEvents(path, events))
  {
    if events != [] {
      var rest := OwnEvents(path, events[1..]);
      OthersDoNotMatter(path, events[1..]);
      if events[0].Dispatched? && !Answers(events[0], path) {
        assert OwnEvents(path, events) == rest;
      } else {
        assert OwnEvents(path, events) == [events[0]] + rest && ([events[0]] + rest)[1..] == rest;
      }
    }
  }

  /** A wait that has ended ends the same whatever the bus does later. */
  lemma {:induction false} Settled(path: string, events: seq<Event>, more: seq<Event>)
    ensures Outcome(path, events) != Pending ==> Outcome(path, events + more) == Outcome(path, events)
    ensures Outcome(path, events) == Pending ==> Outcome(path, events + more) == Outcome(path, more)
  {
    if events == [] {
      assert events + more == more;
    } else {
      assert (events + more)[1..] == events[1..] + more;
      Settled(path, events[1..], more);
    }
  }

  // ---- the bus ----

  function AsEvents(signals: seq<Signal>): seq<Event> {
    seq(|signals|, i requires 0 <= i < |signals| => Dispatched(signals[i]))
  }

  class Bus {
    /** whether the handler is registered */
    var matched: bool
    /** received and not yet dispatched */
    var queue: seq<Signal>
    /** what happens once the queue is empty */
    var future: seq<Event>

    constructor (future: seq<Event>)
      ensures !matched && queue == [] && this.future == future
    {
      matched, queue, this.future := false, [], future;
    }

    ghost function Upcoming(): seq<Event>
      reads this
    {
      AsEvents(queue) + future
    }

    /** Messages come in; only a registered handler makes the bus keep them. */
    method Receive(signals: seq<Signal>)
      modifies this`queue
      ensures queue == old(queue) + if matched then signals else []
    {
      if matched { queue := queue + signals; }
    }

    method MatchSignal(failure: Option<int>) returns (r: Option<int>)
      modifies this`matched
      ensures r == failure && (matched <==> old(matched) || failure.None?)
    {
      if failure.None? { matched := true; }
      return failure;
    }

    /** One round of processing, with the handler called on a dispatched message. The handler
        compares paths, so it may only run once a path is set. */
    method Process(checker: JobStatusChecker) returns (r: Processed)
      requires checker.path.Some?
      modifies this`queue, this`future, checker`terminated, checker`error
      ensures r == Ended ==> old(Upcoming()) == []
      ensures r != Ended ==> old(Upcoming()) != [] && r == Round(old(Upcoming())[0])
      ensures Upcoming() == if r == Work then old(Upcoming())[1..] else old(Upcoming())
      ensures r != Work ==> checker.terminated == old(checker.terminated) && checker.error == old(checker.error)
      ensures r == Work ==> checker.Flags() == AfterEvent(old(Upcoming())[0], checker.path.value, old(checker.Flags()))
      ensures r == Nothing ==> queue == []
    {
      if queue != [] {
        checker.Callback(queue[0]);
        assert AsEvents(queue)[1..] == AsEvents(queue[1..]);
        queue := queue[1..];
        return Work;
      }
      assert Upcoming() == future;
      if future == [] { return Ended; }
      var e := future[0];
      match e
      case ProcessFailed(code) =>
        return Broken(code);
      case Dispatched(signal) =>
        checker.Callback(signal);
        future := future[1..];
        assert Upcoming() == future;
        return Work;
      case Worked =>
        future := future[1..];
        assert Upcoming() == future;
        return Work;
      case _ =>
        return Nothing;
    }

    method Wait() returns (r: Option<int>)
      requires queue == [] && future != [] && (future[0].Idle? || future[0].WaitFailed?)
      modifies this`future
      ensures future == old(future)[1..]
      ensures r == if old(future)[0].Idle? then None else Some(old(future)[0].code)
    {
      r := if future[0].Idle? then None else Some(future[0].code);
      future := future[1..];
    }
  }

  /** What one call of the bus's process gives; Ended if the list of events has run out. */
  datatype Processed = Ended | Nothing | Work | Broken(code: int)

  function Round(e: Event): Processed {
    match e
    case ProcessFailed(code) => Broken(code)
    case Dispatched(_) => Work
    case Worked => Work
    case _ => Nothing
  }

  datatype Heard = Heard(terminated: bool, error: bool)

  /** What hearing an event does to the two flags. */
  function AfterEvent(e: Event, path: string, f: Heard): Heard {
    if Answers(e, path) then Heard(true, f.error || e.signal.result != "done") else f
  }

  class JobStatusChecker {
    var path: Option<string>
    var terminated: bool
    var error: bool

    constructor ()
      ensures Valid() && path == None && !terminated
    {
      path, terminated, error := None, false, false;
    }

    /** Only the end of the wait can bring an error. */
    predicate Valid()
      reads this
    {
      error ==> terminated
    }

    ghost function Flags(): Heard
      reads this
    {
      Heard(terminated, error)
    }

    /** The handler. */
    method Callback(signal: Signal)
      requires path.Some?
      modifies this`terminated, this`error
      ensures Flags() == AfterEvent(Dispatched(signal), path.value, old(Flags()))
    {
      if signal == Malformed { return; }
      if signal.path == path.value {
        terminated := true;
        if signal.result != "done" {
          error := true;
        }
      }
    }

    /** Waits until the handler has heard of the job. A checker whose wait is over answers
        from its flags; a new one answers with the first event that decides. */
    method Check(bus: Bus, path: string) returns (r: Verdict)
      requires Valid()
      modifies this, bus`queue, bus`future
      ensures Valid() && this.path == Some(path)
      ensures r == if old(terminated) then (if old(error) then Failed(14) else Done)
                   else Outcome(path, old(bus.Upcoming()))
    {
      this.path := Some(path);
      while !terminated
        invariant this.path == Some(path)
        invariant old(terminated) ==> terminated && error == old(error)
        invariant !terminated ==> !error && Outcome(path, bus.Upcoming()) == Outcome(path, old(bus.Upcoming()))
        invariant terminated && !old(terminated) ==> Outcome(path, old(bus.Upcoming())) == if error then Failed(EFAULT) else Done
        decreases !terminated, |bus.Upcoming()|
      {
        var processed := bus.Process(this);
        match processed
        case Ended => return Pending;
        case Broken(code) => return Failed(code);
        case Work =>
        case Nothing =>
          assert bus.Upcoming() == bus.future;
          var failure := bus.Wait();
          assert bus.Upcoming() == bus.future;
          if failure.Some? { return Failed(failure.value); }
      }
      if error { return Failed(EFAULT); }
      return Done;
    }
  }

  /** The order of calls in entering a cgroup: the handler is registered before the unit is
      asked for, and the job's path is set before anything is dispatched. Messages that come
      in between are neither missed nor compared with an unset path, so the answer is the
      one for all messages since the registration. */
  method Enter(bus: Bus, early: seq<Signal>, setup: Option<int>, between: seq<Signal>, reply: Reply) returns (r: Verdict)
    requires !bus.matched && bus.queue == []
    modifies bus
    ensures setup.Some? ==> r == Failed(setup.value)
    ensures setup.None? && reply.NoReply? ==> r == Failed(reply.code)
    ensures setup.None? && reply.Object? ==> r == Outcome(reply.path, AsEvents(between) + old(bus.future))
  {
    bus.Receive(early);
    var checker := new JobStatusChecker();
    var failure := bus.MatchSignal(setup);
    if failure.Some? { return Failed(failure.value); }
    bus.Receive(between);
    if reply.NoReply? { return Failed(reply.code); }
    assert bus.queue == between;
    r := checker.Check(bus, reply.path);
  }

  /** The answer to the call: the path of the job, or an error. */
  datatype Reply = Object(path: string) | NoReply(code: int)

  /** A job that is over before the wait begins is answered from the queue. */
  lemma FinishedDuringCall(path: string, between: seq<Signal>, k: nat, future: seq<Event>)
    requires k < |between| && between[k].JobRemoved? && between[k].path == path
    requires forall i :: 0 <= i < k ==> between[i].JobRemoved? ==> between[i].path != path
    ensures Outcome(path, AsEvents(between) + future) == if between[k].result == "done" then Done else Failed(14)
  {
    assert FirstAt(path, AsEvents(between), k);
    OutcomeAt(path, AsEvents(between), k);
    Settled(path, AsEvents(between), future);
  }
}
