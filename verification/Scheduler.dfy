/**
 The task scheduler that plugins get (maubot/scheduler.py), as a machine whose
 steps are the slices of coroutine code that the event loop runs in between
 awaits, in any order.

 Cancelling a task marks it; the error is delivered where the task awaits.  A
 sleeping or fresh task can only end then, a task inside a user's function lets
 the error pass or swallows it.
 */
module Scheduler {

  type TaskId = nat

  datatype Kind =
    | Periodic(background: bool, catchErrors: bool)  // `_call_periodically`
    | Delayed(catchErrors: bool)                     // `_call_with_delay`
    | Sub(parent: TaskId)                            // `_call_periodically_background`

  datatype Phase =
    | Created
    | Sleeping
    | Calling      // in the user's function
    | Finished(cancelled: bool)

  datatype Task = Task(kind: Kind, phase: Phase, cancelling: bool)

  /** A function registered as `root` is called, or its coroutine entered, within a task. */
  datatype Entry = Entry(root: TaskId, within: TaskId)

  datatype State = State(
    next: TaskId,
    info: map<TaskId, Task>,
    tasks: set<TaskId>,       // the scheduler's own set
    callbacks: set<TaskId>,   // finished tasks whose done-callback has not run
    log: seq<Entry>)

  const INITIAL: State := State(0, map[], {}, {}, [])

  datatype Outcome = Returns | Errors | Cancels

  datatype Step =
    | RunPeriodically(background: bool, catchErrors: bool)
    | RunLater(catchErrors: bool)
    | Begin(t: TaskId)                // the first slice of a task
    | Wake(t: TaskId, ok: bool)       // the sleep ends; in background mode `func()` itself may raise
    | End(t: TaskId, o: Outcome)      // the function ends of its own accord
    | Deliver(t: TaskId)              // CancelledError reaches the task and ends it
    | Swallow(t: TaskId)              // CancelledError reaches the function, which catches it
    | Callback(t: TaskId)             // the event loop runs a done-callback
    | Cancel(t: TaskId)               // whoever got the task from the scheduler cancels it
    | Stop

  predicate Live(info: map<TaskId, Task>, t: TaskId) {
    t in info && !info[t].phase.Finished?
  }

  predicate InPhase(s: State, t: TaskId, p: Phase, cancelling: bool) {
    t in s.info && s.info[t].phase == p && s.info[t].cancelling == cancelling
  }

  predicate Enabled(s: State, step: Step) {
    match step
    case RunPeriodically(_, _) => true
    case RunLater(_) => true
    case Begin(t) => InPhase(s, t, Created, false)
    case Wake(t, _) => InPhase(s, t, Sleeping, false)
    case End(t, _) => t in s.info && s.info[t].phase == Calling
    case Deliver(t) => Live(s.info, t) && s.info[t].cancelling
    case Swallow(t) => InPhase(s, t, Calling, true)
    case Callback(t) => t in s.callbacks
    case Cancel(t) => t in s.info
    case Stop => true
  }

  /** `create_task` and `_register_task` */
  function Register(s: State, kind: Kind): State {
    s.(next := s.next + 1, info := s.info[s.next := Task(kind, Created, false)], tasks := s.tasks + {s.next})
  }

  function Enter(s: State, t: TaskId, p: Phase): State
    requires t in s.info
  {
    s.(info := s.info[t := s.info[t].(phase := p)],
       callbacks := if p.Finished? then s.callbacks + {t} else s.callbacks)
  }

  function Log(s: State, root: TaskId, within: TaskId): State {
    s.(log := s.log + [Entry(root, within)])
  }

  /** Where a task goes when its function ends. */
  function PhaseAfter(kind: Kind, o: Outcome): Phase {
    match o
    case Cancels => Finished(true)
    case Returns => if kind.Periodic? then Sleeping else Finished(false)
    case Errors => if kind.Periodic? && kind.catchErrors then Sleeping else Finished(false)
  }

  /** `task.cancel()`, which does nothing to a finished task */
  function Mark(info: map<TaskId, Task>, t: TaskId): map<TaskId, Task> {
    if Live(info, t) then info[t := info[t].(cancelling := true)] else info
  }

  /** What `stop` amounts to. */
  function MarkAll(info: map<TaskId, Task>, tasks: set<TaskId>): map<TaskId, Task> {
    map t | t in info :: if t in tasks && !info[t].phase.Finished? then info[t].(cancelling := true) else info[t]
  }

  function Next(s: State, step: Step): State
    requires Enabled(s, step)
  {
    match step
    case RunPeriodically(background, catchErrors) => Register(s, Periodic(background, catchErrors))
    case RunLater(catchErrors) => Register(s, Delayed(catchErrors))
    case Begin(t) =>
      if s.info[t].kind.Sub? then Log(Enter(s, t, Calling), s.info[t].kind.parent, t) else Enter(s, t, Sleeping)
    case Wake(t, ok) =>
      var kind := s.info[t].kind;
      var called := Log(s, t, t);
      if !(kind.Periodic? && kind.background) then Enter(called, t, Calling)
      else if ok then Register(called, Sub(t))
      else Enter(called, t, PhaseAfter(kind, Errors))
    case End(t, o) => Enter(s, t, PhaseAfter(s.info[t].kind, o))
    case Deliver(t) => Enter(s, t, Finished(true))
    case Swallow(t) => s.(info := s.info[t := s.info[t].(cancelling := false)])
    case Callback(t) => s.(callbacks := s.callbacks - {t}, tasks := s.tasks - {t})
    case Cancel(t) => s.(info := Mark(s.info, t))
    case Stop => s.(info := MarkAll(s.info, s.tasks))
  }

  predicate IsRun(s: State, steps: seq<Step>)
    decreases |steps|
  {
    steps == [] || (Enabled(s, steps[0]) && IsRun(Next(s, steps[0]), steps[1..]))
  }

  function After(s: State, steps: seq<Step>): State
    requires IsRun(s, steps)
    decreases |steps|
  {
    if steps == [] then s else After(Next(s, steps[0]), steps[1..])
  }

  /** The registration a task belongs to. */
  function Root(info: map<TaskId, Task>, t: TaskId): TaskId
    requires t in info
  {
    if info[t].kind.Sub? then info[t].kind.parent else t
  }

  // ---------------------------------------------------------------------
  // What every step keeps
  // ---------------------------------------------------------------------

  /** `tasks` is the live tasks and the finished ones whose callback is due. */
  ghost predicate Tracked(info: map<TaskId, Task>, tasks: set<TaskId>, callbacks: set<TaskId>, next: TaskId) {
    && tasks <= info.Keys
    && (forall t | t in info :: t < next && (t in tasks <==> Live(info, t) || t in callbacks))
    && (forall t | t in callbacks :: t in info && info[t].phase.Finished?)
  }

  /** Sub-tasks belong to periodic tasks, and do not sleep. */
  ghost predicate Parented(info: map<TaskId, Task>) {
    forall t | t in info && info[t].kind.Sub? ::
      info[t].kind.parent in info && info[info[t].kind.parent].kind.Periodic? && info[t].phase != Sleeping
  }

  /** A loop that catches errors ends by cancellation only. */
  ghost predicate Persistent(info: map<TaskId, Task>) {
    forall t | t in info && info[t].kind.Periodic? && info[t].kind.catchErrors && info[t].phase.Finished? ::
      info[t].phase.cancelled
  }

  ghost predicate Inv(s: State) {
    Tracked(s.info, s.tasks, s.callbacks, s.next) && Parented(s.info) && Persistent(s.info)
  }

  lemma {:induction false} InitialInv()
    ensures Inv(INITIAL)
  {
  }

  lemma {:induction false} LogKeeps(s: State, root: TaskId, within: TaskId)
    ensures Inv(s) ==> Inv(Log(s, root, within))
  {
  }

  lemma {:induction false} NoSubSleeps(s: State, t: TaskId)
    requires Inv(s) && t in s.info && s.info[t].phase == Sleeping
    ensures !s.info[t].kind.Sub?
  {
  }

  lemma {:induction false} RegisterKeeps(s: State, kind: Kind)
    requires Inv(s)
    requires kind.Sub? ==> kind.parent in s.info && s.info[kind.parent].kind.Periodic?
    ensures Inv(Register(s, kind))
  {
  }

  lemma {:induction false} EnterKeeps(s: State, t: TaskId, p: Phase)
    requires Inv(s) && Live(s.info, t)
    requires s.info[t].kind.Sub? ==> p != Sleeping
    requires s.info[t].kind.Periodic? && s.info[t].kind.catchErrors ==> p != Finished(false)
    ensures Inv(Enter(s, t, p))
  {
  }

  /** Steps that only mark or unmark tasks. */
  lemma {:induction false} MarksKeep(s: State, info: map<TaskId, Task>)
    requires Inv(s) && info.Keys == s.info.Keys
    requires forall t | t in info :: info[t] == s.info[t].(cancelling := info[t].cancelling)
    ensures Inv(s.(info := info))
  {
  }

  lemma {:induction false} StepKeepsInv(s: State, step: Step)
    requires Inv(s) && Enabled(s, step)
    ensures Inv(Next(s, step))
  {
    hide Register, Enter, Parented, Persistent;
    match step {
      case RunPeriodically(background, catchErrors) => RegisterKeeps(s, Periodic(background, catchErrors));
      case RunLater(catchErrors) => RegisterKeeps(s, Delayed(catchErrors));
      case Begin(t) =>
        EnterKeeps(s, t, if s.info[t].kind.Sub? then Calling else Sleeping);
        LogKeeps(Enter(s, t, Calling), Root(s.info, t), t);
      case Wake(t, ok) =>
        NoSubSleeps(s, t);
        LogKeeps(s, t, t);
        if !(s.info[t].kind.Periodic? && s.info[t].kind.background) {
          EnterKeeps(Log(s, t, t), t, Calling);
        } else if ok {
          RegisterKeeps(Log(s, t, t), Sub(t));
        } else {
          EnterKeeps(Log(s, t, t), t, PhaseAfter(s.info[t].kind, Errors));
        }
      case End(t, o) => EnterKeeps(s, t, PhaseAfter(s.info[t].kind, o));
      case Deliver(t) => EnterKeeps(s, t, Finished(true));
      case Swallow(_) => MarksKeep(s, Next(s, step).info);
      case Callback(t) => assert !Live(s.info, t);
      case Cancel(_) => MarksKeep(s, Next(s, step).info);
      case Stop => MarksKeep(s, Next(s, step).info);
    }
  }

  lemma {:induction false} RunKeepsInv(s: State, steps: seq<Step>)
    requires Inv(s) && IsRun(s, steps)
    ensures Inv(After(s, steps))
    decreases |steps|
  {
    if steps != [] {
      StepKeepsInv(s, steps[0]);
      RunKeepsInv(Next(s, steps[0]), steps[1..]);
    }
  }

  /** In every reachable state. */
  lemma {:induction false} TasksAreTracked(steps: seq<Step>)
    requires IsRun(INITIAL, steps)
    ensures var s := After(INITIAL, steps);
            && s.tasks == (set t | t in s.info && (Live(s.info, t) || t in s.callbacks))
            && forall t | t in s.info && s.info[t].kind.Periodic? && s.info[t].kind.catchErrors && s.info[t].phase.Finished? ::
                 s.info[t].phase.cancelled
  {
    RunKeepsInv(INITIAL, steps);
  }

  // ---------------------------------------------------------------------
  // Stop is final
  // ---------------------------------------------------------------------

  /** Every live task of a registration before `n` is marked, and later tasks belong to later ones. */
  ghost predicate Doomed(info: map<TaskId, Task>, n: TaskId) {
    && (forall t | Live(info, t) && Root(info, t) < n :: info[t].cancelling)
    && (forall t | t in info && t >= n :: Root(info, t) >= n)
  }

  /** What was logged between two states belongs to registrations from `n` on. */
  ghost predicate OnlyNewCalls(before: seq<Entry>, after: seq<Entry>, n: TaskId) {
    && |before| <= |after| && after[..|before|] == before
    && forall k | |before| <= k < |after| :: after[k].root >= n
  }

  /** No function registered before `n` catches its cancellation. */
  predicate NoneSwallows(steps: seq<Step>, n: TaskId) {
    forall k | 0 <= k < |steps| :: steps[k].Swallow? ==> steps[k].t >= n
  }

  lemma {:induction false} StopDooms(s: State)
    requires Inv(s)
    ensures Doomed(Next(s, Stop).info, s.next)
  {
  }

  lemma {:induction false} RegisterKeepsDoomed(s: State, kind: Kind, n: TaskId)
    requires Inv(s) && Doomed(s.info, n) && n <= s.next && (kind.Sub? ==> kind.parent >= n)
    ensures Doomed(Register(s, kind).info, n)
  {
  }

  lemma {:induction false} EnterKeepsDoomed(s: State, t: TaskId, p: Phase, n: TaskId)
    requires Doomed(s.info, n) && Live(s.info, t)
    ensures Doomed(Enter(s, t, p).info, n)
  {
  }

  lemma {:induction false} MarksKeepDoomed(s: State, info: map<TaskId, Task>, n: TaskId)
    requires Doomed(s.info, n) && info.Keys == s.info.Keys
    requires forall t | t in info :: info[t] == s.info[t].(cancelling := info[t].cancelling)
    requires forall t | t in info && s.info[t].cancelling && Root(s.info, t) < n :: info[t].cancelling
    ensures Doomed(info, n)
  {
  }

  /** An unmarked live task belongs to a later registration. */
  lemma {:induction false} UnmarkedIsLater(info: map<TaskId, Task>, t: TaskId, n: TaskId)
    requires Doomed(info, n) && Live(info, t) && (!info[t].cancelling || t >= n)
    ensures Root(info, t) >= n
  {
  }

  lemma {:induction false} StepKeepsDoomed(s: State, step: Step, n: TaskId)
    requires Inv(s) && Enabled(s, step) && Doomed(s.info, n) && n <= s.next
    requires step.Swallow? ==> step.t >= n
    ensures Doomed(Next(s, step).info, n) && n <= Next(s, step).next
    ensures OnlyNewCalls(s.log, Next(s, step).log, n)
  {
    hide Inv, Doomed;
    match step {
      case RunPeriodically(background, catchErrors) => RegisterKeepsDoomed(s, Periodic(background, catchErrors), n);
      case RunLater(catchErrors) => RegisterKeepsDoomed(s, Delayed(catchErrors), n);
      case Begin(t) =>
        UnmarkedIsLater(s.info, t, n);
        EnterKeepsDoomed(s, t, Calling, n);
        EnterKeepsDoomed(s, t, Sleeping, n);
      case Wake(t, ok) =>
        UnmarkedIsLater(s.info, t, n);
        NoSubSleeps(s, t);
        LogKeeps(s, t, t);
        RegisterKeepsDoomed(Log(s, t, t), Sub(t), n);
        EnterKeepsDoomed(Log(s, t, t), t, Calling, n);
        EnterKeepsDoomed(Log(s, t, t), t, PhaseAfter(s.info[t].kind, Errors), n);
      case End(t, o) => EnterKeepsDoomed(s, t, PhaseAfter(s.info[t].kind, o), n);
      case Deliver(t) => EnterKeepsDoomed(s, t, Finished(true), n);
      case Swallow(t) =>
        UnmarkedIsLater(s.info, t, n);
        MarksKeepDoomed(s, Next(s, step).info, n);
      case Callback(_) =>
      case Cancel(_) => MarksKeepDoomed(s, Next(s, step).info, n);
      case Stop => MarksKeepDoomed(s, Next(s, step).info, n);
    }
  }

  lemma {:induction false} RunKeepsDoomed(s: State, steps: seq<Step>, n: TaskId)
    requires Inv(s) && IsRun(s, steps) && Doomed(s.info, n) && n <= s.next && NoneSwallows(steps, n)
    ensures OnlyNewCalls(s.log, After(s, steps).log, n)
    decreases |steps|
  {
    hide Inv, Doomed, Enabled, Next;
    if steps != [] {
      StepKeepsInv(s, steps[0]);
      StepKeepsDoomed(s, steps[0], n);
      var t := Next(s, steps[0]);
      RunKeepsDoomed(t, steps[1..], n);
      assert After(s, steps).log[..|s.log|] == t.log[..|s.log|];
    }
  }

  /**
   After `stop`, whatever the event loop does and whatever is registered later:
   unless a function registered before swallows its cancellation, none of them
   is called or entered again.
   */
  lemma {:induction false} StopIsFinal(steps: seq<Step>, later: seq<Step>)
    requires IsRun(INITIAL, steps)
    requires var s := After(INITIAL, steps); IsRun(Next(s, Stop), later) && NoneSwallows(later, s.next)
    ensures var s := After(INITIAL, steps);
            OnlyNewCalls(s.log, After(Next(s, Stop), later).log, s.next)
  {
    hide Inv, Doomed, OnlyNewCalls;
    var s := After(INITIAL, steps);
    assert Inv(INITIAL) by {
      InitialInv();
    }
    RunKeepsInv(INITIAL, steps);
    StopDooms(s);
    StepKeepsInv(s, Stop);
    RunKeepsDoomed(Next(s, Stop), later, s.next);
  }

  /** The condition cannot be dropped: a loop whose function swallows it calls that function again. */
  lemma {:induction false} SwallowRevives(s: State, t: TaskId)
    requires Live(s.info, t) && s.info[t].phase == Calling && s.info[t].kind.Periodic? && t in s.tasks
    ensures var steps := [Swallow(t), End(t, Returns), Wake(t, true)];
            IsRun(Next(s, Stop), steps) && After(Next(s, Stop), steps).log == s.log + [Entry(t, t)]
  {
    var a := Next(s, Stop);
    var b := Next(a, Swallow(t));
    var c := Next(b, End(t, Returns));
    var d := Next(c, Wake(t, true));
    var steps := [Swallow(t), End(t, Returns), Wake(t, true)];
    assert steps[1..] == [End(t, Returns), Wake(t, true)];
    assert steps[1..][1..] == [Wake(t, true)];
    assert steps[1..][1..][1..] == [];
    assert IsRun(c, [Wake(t, true)]) && After(c, [Wake(t, true)]) == d;
    assert IsRun(b, steps[1..]) && After(b, steps[1..]) == d;
  }

  /** No live task of a registration before `n` can start a call, not even if it swallows cancellations. */
  ghost predicate Spent(info: map<TaskId, Task>, n: TaskId) {
    && (forall t | Live(info, t) && Root(info, t) < n ::
          if info[t].phase == Calling then !info[t].kind.Periodic? else info[t].cancelling)
    && (forall t | t in info && t >= n :: Root(info, t) >= n)
  }

  lemma {:induction false} RegisterKeepsSpent(s: State, kind: Kind, n: TaskId)
    requires Inv(s) && Spent(s.info, n) && n <= s.next && (kind.Sub? ==> kind.parent >= n)
    ensures Spent(Register(s, kind).info, n)
  {
  }

  lemma {:induction false} EnterKeepsSpent(s: State, t: TaskId, p: Phase, n: TaskId)
    requires Spent(s.info, n) && Live(s.info, t) && (p.Finished? || Root(s.info, t) >= n)
    ensures Spent(Enter(s, t, p).info, n)
  {
  }

  lemma {:induction false} MarksKeepSpent(s: State, info: map<TaskId, Task>, n: TaskId)
    requires Spent(s.info, n) && info.Keys == s.info.Keys
    requires forall t | t in info :: info[t] == s.info[t].(cancelling := info[t].cancelling)
    requires forall t | t in info && s.info[t].cancelling && s.info[t].phase != Calling :: info[t].cancelling
    ensures Spent(info, n)
  {
  }

  lemma {:induction false} CallerIsLater(info: map<TaskId, Task>, t: TaskId, n: TaskId)
    requires Spent(info, n) && Live(info, t)
    requires if info[t].phase == Calling then info[t].kind.Periodic? else !info[t].cancelling
    ensures Root(info, t) >= n
  {
  }

  lemma {:induction false} StepKeepsSpent(s: State, step: Step, n: TaskId)
    requires Inv(s) && Enabled(s, step) && Spent(s.info, n) && n <= s.next
    ensures Spent(Next(s, step).info, n) && n <= Next(s, step).next
    ensures OnlyNewCalls(s.log, Next(s, step).log, n)
  {
    hide Inv, Spent;
    match step {
      case RunPeriodically(background, catchErrors) => RegisterKeepsSpent(s, Periodic(background, catchErrors), n);
      case RunLater(catchErrors) => RegisterKeepsSpent(s, Delayed(catchErrors), n);
      case Begin(t) =>
        CallerIsLater(s.info, t, n);
        EnterKeepsSpent(s, t, Calling, n);
        EnterKeepsSpent(s, t, Sleeping, n);
      case Wake(t, ok) =>
        CallerIsLater(s.info, t, n);
        NoSubSleeps(s, t);
        LogKeeps(s, t, t);
        RegisterKeepsSpent(Log(s, t, t), Sub(t), n);
        EnterKeepsSpent(Log(s, t, t), t, Calling, n);
        EnterKeepsSpent(Log(s, t, t), t, PhaseAfter(s.info[t].kind, Errors), n);
      case End(t, o) =>
        if s.info[t].kind.Periodic? {
          CallerIsLater(s.info, t, n);
        }
        EnterKeepsSpent(s, t, PhaseAfter(s.info[t].kind, o), n);
      case Deliver(t) => EnterKeepsSpent(s, t, Finished(true), n);
      case Swallow(_) => MarksKeepSpent(s, Next(s, step).info, n);
      case Callback(_) =>
      case Cancel(_) => MarksKeepSpent(s, Next(s, step).info, n);
      case Stop => MarksKeepSpent(s, Next(s, step).info, n);
    }
  }

  lemma {:induction false} RunKeepsSpent(s: State, steps: seq<Step>, n: TaskId)
    requires Inv(s) && IsRun(s, steps) && Spent(s.info, n) && n <= s.next
    ensures OnlyNewCalls(s.log, After(s, steps).log, n)
    decreases |steps|
  {
    hide Inv, Spent, Enabled, Next;
    if steps != [] {
      StepKeepsInv(s, steps[0]);
      StepKeepsSpent(s, steps[0], n);
      var t := Next(s, steps[0]);
      RunKeepsSpent(t, steps[1..], n);
      assert After(s, steps).log[..|s.log|] == t.log[..|s.log|];
    }
  }

  lemma {:induction false} StopSpends(s: State)
    requires Inv(s) && forall t | Live(s.info, t) && s.info[t].kind.Periodic? :: s.info[t].phase != Calling
    ensures Spent(Next(s, Stop).info, s.next)
  {
  }

  /**
   Exactly when `stop` is final whatever functions do with their cancellation:
   when no loop is inside its function at that moment.
   */
  lemma {:induction false} StopIsFinalWhateverHappens(steps: seq<Step>)
    requires IsRun(INITIAL, steps)
    ensures var s := After(INITIAL, steps);
            (forall later | IsRun(Next(s, Stop), later) :: OnlyNewCalls(s.log, After(Next(s, Stop), later).log, s.next))
            <==> forall t | Live(s.info, t) && s.info[t].kind.Periodic? :: s.info[t].phase != Calling
  {
    var s := After(INITIAL, steps);
    InitialInv();
    RunKeepsInv(INITIAL, steps);
    StepKeepsInv(s, Stop);
    if t :| Live(s.info, t) && s.info[t].kind.Periodic? && s.info[t].phase == Calling {
      SwallowRevives(s, t);
      var later := [Swallow(t), End(t, Returns), Wake(t, true)];
      var log := After(Next(s, Stop), later).log;
      assert log[|s.log|] == Entry(t, t);
      assert !OnlyNewCalls(s.log, log, s.next);
    } else {
      StopSpends(s);
      forall later | IsRun(Next(s, Stop), later)
        ensures OnlyNewCalls(s.log, After(Next(s, Stop), later).log, s.next)
      {
        RunKeepsSpent(Next(s, Stop), later, s.next);
      }
    }
  }

  // ---------------------------------------------------------------------
  // One-shot tasks
  // ---------------------------------------------------------------------

  /** How often a task called a function or entered a coroutine. */
  function Calls(log: seq<Entry>, t: TaskId): nat {
    if log == [] then 0 else Calls(log[..|log| - 1], t) + (if log[|log| - 1].within == t then 1 else 0)
  }

  lemma {:induction false} CallsAppend(log: seq<Entry>, e: Entry, t: TaskId)
    ensures Calls(log + [e], t) == Calls(log, t) + (if e.within == t then 1 else 0)
  {
    assert (log + [e])[..|log|] == log;
  }

  /** How often a step of a run makes the task call its function or enter its coroutine. */
  function Turns(steps: seq<Step>, t: TaskId, sub: bool): nat
    decreases |steps|
  {
    if steps == [] then 0
    else Turns(steps[1..], t, sub) + (if (if sub then steps[0] == Begin(t) else steps[0].Wake? && steps[0].t == t) then 1 else 0)
  }

  /** The log attributes every call to the registration its task belongs to. */
  ghost predicate Attributed(s: State) {
    forall k | 0 <= k < |s.log| :: s.log[k].within in s.info && s.log[k].root == Root(s.info, s.log[k].within)
  }

  /** Where a delayed or background task is tells whether it has called. */
  ghost predicate CalledByPhase(s: State, t: TaskId) {
    t in s.info && !s.info[t].kind.Periodic? ==>
      match s.info[t].phase
      case Created => Calls(s.log, t) == 0
      case Sleeping => Calls(s.log, t) == 0
      case Calling => Calls(s.log, t) == 1
      case Finished(_) => Calls(s.log, t) <= 1
  }

  lemma {:induction false} CallsOfUnknown(s: State, t: TaskId)
    requires Attributed(s) && t !in s.info
    ensures Calls(s.log, t) == 0
  {
    NoCalls(s.log, t);
  }

  lemma {:induction false} NoCalls(log: seq<Entry>, t: TaskId)
    requires forall k | 0 <= k < |log| :: log[k].within != t
    ensures Calls(log, t) == 0
  {
    if log != [] {
      NoCalls(log[..|log| - 1], t);
    }
  }

  lemma {:induction false} StepCalls(s: State, step: Step, t: TaskId)
    requires Inv(s) && Enabled(s, step) && t in Next(s, step).info
    ensures Calls(Next(s, step).log, t) == Calls(s.log, t) + Turns([step], t, Next(s, step).info[t].kind.Sub?)
  {
    hide Calls, Parented, Persistent;
    if step.Wake? {
      NoSubSleeps(s, step.t);
      CallsAppend(s.log, Entry(step.t, step.t), t);
    } else if step.Begin? {
      CallsAppend(s.log, Entry(Root(s.info, step.t), step.t), t);
    }
    assert [step][1..] == [];
  }

  lemma {:induction false} StepAttributes(s: State, step: Step)
    requires Inv(s) && Enabled(s, step) && Attributed(s)
    ensures Attributed(Next(s, step))
  {
    hide Parented, Persistent;
    if step.Wake? {
      NoSubSleeps(s, step.t);
    }
  }

  lemma {:induction false} StepKeepsCalled(s: State, step: Step, t: TaskId)
    requires Inv(s) && Enabled(s, step) && Attributed(s) && CalledByPhase(s, t)
    ensures CalledByPhase(Next(s, step), t)
  {
    hide Calls, Parented, Persistent, Attributed;
    if step.Wake? {
      NoSubSleeps(s, step.t);
    }
    if t in Next(s, step).info {
      StepCalls(s, step, t);
      if t !in s.info {
        CallsOfUnknown(s, t);
      }
    }
    assert [step][1..] == [];
  }

  lemma {:induction false} KindStays(s: State, step: Step, t: TaskId)
    requires Inv(s) && Enabled(s, step) && t in s.info
    ensures t in Next(s, step).info && Next(s, step).info[t].kind == s.info[t].kind
  {
  }

  lemma {:induction false} RunCalls(s: State, steps: seq<Step>, t: TaskId)
    requires Inv(s) && IsRun(s, steps) && Attributed(s) && CalledByPhase(s, t)
    ensures Attributed(After(s, steps)) && CalledByPhase(After(s, steps), t)
    ensures t in s.info ==> t in After(s, steps).info && After(s, steps).info[t].kind == s.info[t].kind
    ensures t in After(s, steps).info ==>
              Calls(After(s, steps).log, t) == Calls(s.log, t) + Turns(steps, t, After(s, steps).info[t].kind.Sub?)
    decreases |steps|
  {
    hide Inv, Enabled, Next, Calls, Attributed, CalledByPhase;
    if steps != [] {
      var u := Next(s, steps[0]);
      StepKeepsInv(s, steps[0]);
      StepAttributes(s, steps[0]);
      StepKeepsCalled(s, steps[0], t);
      if t in s.info {
        KindStays(s, steps[0], t);
      }
      RunCalls(u, steps[1..], t);
      assert [steps[0]][1..] == [];
      if t in u.info {
        StepCalls(s, steps[0], t);
      } else {
        UnknownTakesNoTurn(s, steps[0], t);
        CallsOfUnknown(s, t);
        CallsOfUnknown(u, t);
      }
    }
  }

  lemma {:induction false} UnknownTakesNoTurn(s: State, step: Step, t: TaskId)
    requires Inv(s) && Enabled(s, step) && t !in Next(s, step).info
    ensures t !in s.info && Turns([step], t, true) == 0 && Turns([step], t, false) == 0
  {
    assert [step][1..] == [];
  }

  /**
   What calls what, in every run: a loop and a delayed task call once each time
   they wake, a background task enters its coroutine when it begins; each call is
   logged for its own registration; a delayed or background task runs at most once,
   and has run exactly when it is in its function.
   */
  lemma {:induction false} CallsExactly(steps: seq<Step>, t: TaskId)
    requires IsRun(INITIAL, steps)
    ensures var s := After(INITIAL, steps);
            && Attributed(s)
            && (t in s.info ==> Calls(s.log, t) == Turns(steps, t, s.info[t].kind.Sub?))
            && CalledByPhase(s, t)
  {
    hide Attributed, CalledByPhase, IsRun, After, Turns;
    assert Attributed(INITIAL) && CalledByPhase(INITIAL, t) && Calls(INITIAL.log, t) == 0 by {
      NothingYet(t);
    }
    InitialInv();
    RunCalls(INITIAL, steps, t);
  }

  lemma {:induction false} NothingYet(t: TaskId)
    ensures Attributed(INITIAL) && CalledByPhase(INITIAL, t) && Calls(INITIAL.log, t) == 0
  {
  }

  // ---------------------------------------------------------------------
  // Background calls and the end of tasks
  // ---------------------------------------------------------------------

  function SubsOf(info: map<TaskId, Task>, t: TaskId): set<TaskId> {
    set u | u in info && info[u].kind == Sub(t)
  }

  /** How often a loop in background mode gets a coroutine from its function. */
  function Spawns(s: State, steps: seq<Step>, t: TaskId): nat
    requires IsRun(s, steps)
    decreases |steps|
  {
    if steps == [] then 0
    else Spawns(Next(s, steps[0]), steps[1..], t) +
         (if steps[0] == Wake(t, true) && s.info[t].kind.Periodic? && s.info[t].kind.background then 1 else 0)
  }

  lemma {:induction false} StepSpawns(s: State, step: Step, t: TaskId)
    requires Inv(s) && Enabled(s, step)
    ensures var spawned := step == Wake(t, true) && s.info[t].kind.Periodic? && s.info[t].kind.background;
            |SubsOf(Next(s, step).info, t)| == |SubsOf(s.info, t)| + (if spawned then 1 else 0)
  {
    hide Parented, Persistent;
    var spawned := step == Wake(t, true) && s.info[t].kind.Periodic? && s.info[t].kind.background;
    assert SubsOf(Next(s, step).info, t) == SubsOf(s.info, t) + (if spawned then {s.next} else {});
  }

  /** In every run a loop in background mode has one task for each of those coroutines, and no other loop has any. */
  lemma {:induction false} OneTaskEach(s: State, steps: seq<Step>, t: TaskId)
    requires Inv(s) && IsRun(s, steps)
    ensures |SubsOf(After(s, steps).info, t)| == |SubsOf(s.info, t)| + Spawns(s, steps, t)
    decreases |steps|
  {
    hide Inv, Enabled, Next, SubsOf;
    if steps != [] {
      StepKeepsInv(s, steps[0]);
      StepSpawns(s, steps[0], t);
      OneTaskEach(Next(s, steps[0]), steps[1..], t);
    }
  }

  /** Only a loop goes back to sleep, after a return or an error that it catches; everything else ends. */
  lemma {:induction false} SleepsOrEnds(s: State, t: TaskId, o: Outcome)
    requires Enabled(s, End(t, o))
    ensures var u := Next(s, End(t, o));
            if s.info[t].kind.Periodic? && (o == Returns || (o == Errors && s.info[t].kind.catchErrors))
            then u.info[t] == s.info[t].(phase := Sleeping) && u.callbacks == s.callbacks
            else u.info[t] == s.info[t].(phase := Finished(o == Cancels)) && u.callbacks == s.callbacks + {t}
  {
  }

  /** In background mode the function itself may raise: the loop sleeps on if it catches errors, and ends otherwise. */
  lemma {:induction false} FailsToSpawn(s: State, t: TaskId)
    requires Enabled(s, Wake(t, false)) && s.info[t].kind.Periodic? && s.info[t].kind.background
    ensures var u := Next(s, Wake(t, false));
            if s.info[t].kind.catchErrors
            then u.info == s.info && u.callbacks == s.callbacks
            else u.info == s.info[t := s.info[t].(phase := Finished(false))] && u.callbacks == s.callbacks + {t}
  {
  }

  /**
   No task is stuck: an unmarked one can begin, wake or end as its phase has it, a
   marked one can take its cancellation, or swallow it in its function, and every
   callback that is due can run.
   */
  lemma {:induction false} NoTaskIsStuck(s: State, t: TaskId)
    requires t in s.info
    ensures !s.info[t].cancelling ==>
              match s.info[t].phase
              case Created => Enabled(s, Begin(t))
              case Sleeping => Enabled(s, Wake(t, true)) && Enabled(s, Wake(t, false))
              case Calling => forall o :: Enabled(s, End(t, o))
              case Finished(_) => true
    ensures s.info[t].cancelling && !s.info[t].phase.Finished? ==>
              Enabled(s, Deliver(t)) && (s.info[t].phase == Calling ==> Enabled(s, Swallow(t)))
    ensures t in s.callbacks ==> Enabled(s, Callback(t))
    ensures Enabled(s, Cancel(t)) && Enabled(s, Stop)
  {
  }

  // ---------------------------------------------------------------------
  // Cancelling one task
  // ---------------------------------------------------------------------

  lemma {:induction false} StepCallsNothing(s: State, step: Step, t: TaskId)
    requires Inv(s) && Enabled(s, step) && t in s.info && (Live(s.info, t) ==> s.info[t].cancelling) && step != Swallow(t)
    ensures var u := Next(s, step);
            t in u.info && (Live(u.info, t) ==> u.info[t].cancelling) && Calls(u.log, t) == Calls(s.log, t)
  {
    hide Calls, Parented, Persistent;
    KindStays(s, step, t);
    StepCalls(s, step, t);
    assert [step][1..] == [];
  }

  lemma {:induction false} CancelledCallsNothing(s: State, later: seq<Step>, t: TaskId)
    requires Inv(s) && IsRun(s, later) && t in s.info && (Live(s.info, t) ==> s.info[t].cancelling) && Swallow(t) !in later
    ensures Calls(After(s, later).log, t) == Calls(s.log, t)
    decreases |later|
  {
    hide Inv, Enabled, Next, Calls;
    if later != [] {
      StepKeepsInv(s, later[0]);
      StepCallsNothing(s, later[0], t);
      CancelledCallsNothing(Next(s, later[0]), later[1..], t);
    }
  }

  /** In every run: a task that is cancelled calls nothing any more unless its function swallows that. */
  lemma {:induction false} CancelIsFinal(steps: seq<Step>, t: TaskId, later: seq<Step>)
    requires IsRun(INITIAL, steps) && t in After(INITIAL, steps).info
    requires IsRun(Next(After(INITIAL, steps), Cancel(t)), later) && Swallow(t) !in later
    ensures Calls(After(Next(After(INITIAL, steps), Cancel(t)), later).log, t) == Calls(After(INITIAL, steps).log, t)
  {
    hide Inv, IsRun, After, Calls;
    var s := After(INITIAL, steps);
    InitialInv();
    RunKeepsInv(INITIAL, steps);
    StepKeepsInv(s, Cancel(t));
    CancelledCallsNothing(Next(s, Cancel(t)), later, t);
  }

  // ---------------------------------------------------------------------
  // The scheduler object
  // ---------------------------------------------------------------------

  lemma {:induction false} MarkOneMore(info: map<TaskId, Task>, done: set<TaskId>, t: TaskId)
    ensures MarkAll(info, {}) == info
    ensures Mark(MarkAll(info, done), t) == MarkAll(info, done + {t})
  {
  }

  class BasicScheduler {
    var next: TaskId
    var info: map<TaskId, Task>
    var tasks: set<TaskId>
    var callbacks: set<TaskId>
    var log: seq<Entry>

    function Abs(): State
      reads this
    {
      State(next, info, tasks, callbacks, log)
    }

    constructor ()
      ensures Abs() == INITIAL
    {
      next, info, tasks, callbacks, log := 0, map[], {}, {}, [];
    }

    /** `create_task`, then `_register_task` */
    method RegisterTask(kind: Kind) returns (t: TaskId)
      modifies this
      ensures Abs() == Register(old(Abs()), kind) && t == old(next) && t in tasks
    {
      t := next;
      next := next + 1;
      info := info[t := Task(kind, Created, false)];
      tasks := tasks + {t};
    }

    /** `stop` */
    method Stop()
      modifies this
      ensures Abs() == Next(old(Abs()), Step.Stop)
    {
      var todo := tasks;
      MarkOneMore(info, {}, 0);
      assert tasks - todo == {};
      while todo != {}
        invariant todo <= tasks
        invariant Abs() == old(Abs()).(info := MarkAll(old(info), tasks - todo))
      {
        var t :| t in todo;
        MarkOneMore(old(info), tasks - todo, t);
        info := Mark(info, t);
        assert tasks - (todo - {t}) == tasks - todo + {t};
        todo := todo - {t};
      }
      assert tasks - todo == tasks;
    }
  }
}
