/** Event loops as a protocol of small atomic steps. Clones of a handle share the stop flag and
    the action; every `start` makes a channel and a task that receives from it. Posting,
    handling, stopping and starting interleave in any way. */
module EventLoop {
  import opened Wrappers

  type Event = int

  /** Where the spawned task is: about to test the flag, waiting for an event, inside
      `on_receive`, about to call `on_error`, or gone. */
  datatype Phase = Testing | Waiting | Handling(event: Event) | Reporting(event: Event) | Exited(closed: bool)

  /** A started loop with its channel. `accepted`, `begun`, `failed` and `reported` record what
      happened, oldest first; `late` counts the handlers begun once the flag was set. */
  datatype Loop = Loop(
    phase: Phase, capacity: nat, queue: seq<Event>, otherSenders: nat,
    accepted: seq<Event>, begun: seq<Event>, failed: seq<Event>, reported: seq<Event>, late: nat)
  {
    /** The task keeps a sender to its own channel for as long as it runs. */
    function Senders(): nat {
      otherSenders + if phase.Exited? then 0 else 1
    }
  }

  /** `starting` are calls of `start` that have seen the flag unset and not yet spawned;
      `stopping` counts the calls of `stop` between their swap and `on_stop`. */
  datatype State = State(stopped: bool, stopping: nat, onStops: nat, starting: nat, onStarts: nat, loops: map<nat, Loop>)

  datatype Step =
    | StartTest                                  // `start`: test the flag; refused when it is set
    | StartSpawn(loop: nat, capacity: nat)       // `on_start`, channel, task
    | StopSwap                                   // `stop`: swap the flag
    | StopNotify                                 // `on_stop`
    | Post(loop: nat, event: Event)              // a send that finds room
    | TakeSender(loop: nat)                      // `get_sender`, or a clone of a sender
    | DropSender(loop: nat)
    | TestFlag(loop: nat)
    | Receive(loop: nat)
    | SeeClosed(loop: nat)                       // `recv` answers `None`
    | Handled(loop: nat, ok: bool)
    | Report(loop: nat)                          // `on_error`

  function Init(): State {
    State(false, 0, 0, 0, 0, map[])
  }

  predicate Enabled(s: State, step: Step) {
    match step
    case StartTest => true
    case StartSpawn(l, capacity) => s.starting > 0 && l !in s.loops && capacity > 0
    case StopSwap => true
    case StopNotify => s.stopping > 0
    case Post(l, _) => l in s.loops && !s.loops[l].phase.Exited? && |s.loops[l].queue| < s.loops[l].capacity
    case TakeSender(l) => l in s.loops && s.loops[l].Senders() > 0
    case DropSender(l) => l in s.loops && s.loops[l].otherSenders > 0
    case TestFlag(l) => l in s.loops && s.loops[l].phase == Testing
    case Receive(l) => l in s.loops && s.loops[l].phase == Waiting && s.loops[l].queue != []
    case SeeClosed(l) =>
      l in s.loops && s.loops[l].phase == Waiting && s.loops[l].queue == [] && s.loops[l].Senders() == 0
    case Handled(l, _) => l in s.loops && s.loops[l].phase.Handling?
    case Report(l) => l in s.loops && s.loops[l].phase.Reporting?
  }

  function With(s: State, l: nat, loop: Loop): State {
    s.(loops := s.loops[l := loop])
  }

  function Next(s: State, step: Step): State
    requires Enabled(s, step)
  {
    match step
    case StartTest => if s.stopped then s else s.(starting := s.starting + 1)
    case StartSpawn(l, capacity) =>
      With(s.(starting := s.starting - 1, onStarts := s.onStarts + 1), l,
           Loop(Testing, capacity, [], 1, [], [], [], [], 0))
    case StopSwap => if s.stopped then s else s.(stopped := true, stopping := s.stopping + 1)
    case StopNotify => s.(stopping := s.stopping - 1, onStops := s.onStops + 1)
    case Post(l, e) =>
      var x := s.loops[l];
      With(s, l, x.(queue := x.queue + [e], accepted := x.accepted + [e]))
    case TakeSender(l) => With(s, l, s.loops[l].(otherSenders := s.loops[l].otherSenders + 1))
    case DropSender(l) => With(s, l, s.loops[l].(otherSenders := s.loops[l].otherSenders - 1))
    case TestFlag(l) => With(s, l, s.loops[l].(phase := if s.stopped then Exited(false) else Waiting))
    case Receive(l) =>
      var x := s.loops[l];
      With(s, l, x.(phase := Handling(x.queue[0]), queue := x.queue[1..], begun := x.begun + [x.queue[0]],
                    late := if s.stopped then x.late + 1 else x.late))
    case SeeClosed(l) => With(s, l, s.loops[l].(phase := Exited(true)))
    case Handled(l, ok) =>
      var x := s.loops[l];
      if ok then With(s, l, x.(phase := Testing))
      else With(s, l, x.(phase := Reporting(x.phase.event), failed := x.failed + [x.phase.event]))
    case Report(l) =>
      var x := s.loops[l];
      With(s, l, x.(phase := Testing, reported := x.reported + [x.phase.event]))
  }

  // ---------------------------------------------------------------------------
  // What holds in every reachable state
  // ---------------------------------------------------------------------------

  predicate LoopInv(stopped: bool, x: Loop) {
    // first in, first out, each at most once
    && x.accepted == x.begun + x.queue
    && |x.queue| <= x.capacity && x.capacity > 0
    // every handler error is reported once, and the loop goes on
    && x.failed == x.reported + (if x.phase.Reporting? then [x.phase.event] else [])
    && (x.phase.Handling? || x.phase.Reporting? ==> x.begun != [] && x.begun[|x.begun| - 1] == x.phase.event)
    // it ends only by the flag, never by a closed channel
    && (x.phase.Exited? ==> stopped && !x.phase.closed)
    // at most the event it was already waiting for is handled after the flag is set
    && x.late <= 1
    && (!stopped || x.phase == Waiting ==> x.late == 0)
  }

  predicate Inv(s: State) {
    && s.stopping + s.onStops == (if s.stopped then 1 else 0)
    && (forall l | l in s.loops :: LoopInv(s.stopped, s.loops[l]))
  }

  /** The steps of the loop's own task, and posts to it. */
  lemma OwnStepKeepsInv(s: State, step: Step, l: nat)
    requires l in s.loops && LoopInv(s.stopped, s.loops[l]) && Enabled(s, step)
    requires !step.StartTest? && !step.StopSwap? && !step.StopNotify? && step.loop == l
    ensures LoopInv(s.stopped, Next(s, step).loops[l])
  {
    var x := s.loops[l];
    match step {
      case Post(_, e) => assert (x.begun + x.queue) + [e] == x.begun + (x.queue + [e]);
      case Receive(_) => assert x.begun + x.queue == (x.begun + [x.queue[0]]) + x.queue[1..];
      case _ =>
    }
  }

  lemma LoopStepKeepsInv(s: State, step: Step, l: nat)
    requires l in s.loops && LoopInv(s.stopped, s.loops[l]) && Enabled(s, step)
    ensures var s' := Next(s, step); l in s'.loops && LoopInv(s'.stopped, s'.loops[l])
  {
    if !step.StartTest? && !step.StopSwap? && !step.StopNotify? && step.loop == l { OwnStepKeepsInv(s, step, l); }
  }

  lemma StepKeepsInv(s: State, step: Step)
    requires Inv(s) && Enabled(s, step)
    ensures Inv(Next(s, step))
  {
    forall l | l in Next(s, step).loops
      ensures LoopInv(Next(s, step).stopped, Next(s, step).loops[l])
    {
      if l in s.loops {
        assert LoopInv(s.stopped, s.loops[l]);
        LoopStepKeepsInv(s, step, l);
      }
    }
  }

  function Run(s: State, steps: seq<Step>): Option<State>
    decreases |steps|
  {
    if steps == [] then Some(s)
    else if Enabled(s, steps[0]) then Run(Next(s, steps[0]), steps[1..])
    else None
  }

  lemma {:induction false} RunKeepsInv(s: State, steps: seq<Step>)
    requires Inv(s) && Run(s, steps).Some?
    ensures Inv(Run(s, steps).value)
    decreases |steps|
  {
    if steps != [] {
      StepKeepsInv(s, steps[0]);
      RunKeepsInv(Next(s, steps[0]), steps[1..]);
    }
  }

  /** Handlers begin on the accepted events in order and at most once each; every handler that
      failed has been reported, once and in order, or is just about to be; the loop ends only
      after a stop and begins at most one handler after it. */
  predicate Promise(stopped: bool, x: Loop) {
    && x.begun <= x.accepted && x.accepted[|x.begun|..] == x.queue
    && x.reported <= x.failed && |x.failed| - |x.reported| == (if x.phase.Reporting? then 1 else 0)
    && (x.phase.Exited? ==> stopped && !x.phase.closed)
    && x.late <= 1
  }

  lemma InvGivesPromise(stopped: bool, x: Loop)
    requires LoopInv(stopped, x)
    ensures Promise(stopped, x)
  {
  }

  /** The main result, for any interleaving: every loop keeps its promise, and `on_stop` is
      called once, by the time the first `stop` has returned, however often and from however
      many clones `stop` is called. */
  lemma EventLoopRuns(steps: seq<Step>)
    requires Run(Init(), steps).Some?
    ensures Promises(Run(Init(), steps).value)
  {
    RunKeepsInv(Init(), steps);
    InvGivesPromises(Run(Init(), steps).value);
  }

  predicate Promises(s: State) {
    && (forall l | l in s.loops :: Promise(s.stopped, s.loops[l]))
    && s.onStops <= 1
    && (s.stopped && s.stopping == 0 <==> s.onStops == 1)
  }

  lemma InvGivesPromises(s: State)
    requires Inv(s)
    ensures Promises(s)
  {
    forall l | l in s.loops ensures Promise(s.stopped, s.loops[l]) {
      InvGivesPromise(s.stopped, s.loops[l]);
    }
  }

  /** Since a running task holds a sender, its `recv` never answers `None`. */
  lemma NeverSeesClosed(s: State, l: nat)
    ensures !Enabled(s, SeeClosed(l))
  {
  }

  /** `stop` does not wake a loop that waits on an empty channel: the task cannot take a step of
      its own until somebody posts, and it then handles that one event before it ends. */
  lemma StoppedLoopStillWaits(s: State, l: nat, step: Step)
    requires Inv(s) && s.stopped && l in s.loops && s.loops[l].phase == Waiting && s.loops[l].queue == []
    requires Enabled(s, step)
    ensures var x := Next(s, step).loops[l];
      x.phase == Waiting && (x.queue == [] || exists e :: step == Post(l, e) && x.queue == [e])
  {
  }

  /** From any state of a stopped loop, posts and turns of its own lead it to its end in at most
      five steps, with at most one more handler. */
  lemma StoppedLoopCanEnd(s: State, l: nat, e: Event) returns (steps: seq<Step>)
    requires Inv(s) && s.stopped && l in s.loops
    ensures |steps| <= 5 && Run(s, steps).Some?
    ensures l in Run(s, steps).value.loops && Run(s, steps).value.loops[l].phase == Exited(false)
  {
    assert LoopInv(s.stopped, s.loops[l]);
    var phase := s.loops[l].phase;
    if phase.Exited? {
      steps := [];
    } else if phase == Testing {
      steps := EndFromTesting(s, l);
    } else if phase.Handling? {
      steps := EndFromTesting(Next(s, Handled(l, true)), l);
      steps := Before(s, Handled(l, true), steps);
    } else if phase.Reporting? {
      steps := EndFromTesting(Next(s, Report(l)), l);
      steps := Before(s, Report(l), steps);
    } else {
      var t := if s.loops[l].queue == [] then Next(s, Post(l, e)) else s;
      var u := Next(t, Receive(l));
      steps := EndFromTesting(Next(u, Handled(l, true)), l);
      steps := Before(u, Handled(l, true), steps);
      steps := Before(t, Receive(l), steps);
      if s.loops[l].queue == [] { steps := Before(s, Post(l, e), steps); }
    }
  }

  lemma EndFromTesting(s: State, l: nat) returns (steps: seq<Step>)
    requires s.stopped && l in s.loops && s.loops[l].phase == Testing
    ensures |steps| == 1 && Run(s, steps).Some? && Run(s, steps).value == Next(s, TestFlag(l))
  {
    steps := [TestFlag(l)];
    assert steps[1..] == [];
    assert Run(Next(s, TestFlag(l)), []) == Some(Next(s, TestFlag(l)));
  }

  lemma Before(s: State, step: Step, rest: seq<Step>) returns (steps: seq<Step>)
    requires Enabled(s, step)
    ensures |steps| == |rest| + 1 && Run(s, steps) == Run(Next(s, step), rest)
  {
    steps := [step] + rest;
    assert steps[1..] == rest;
  }
}
