/**
 The task supervisor (core/prototypes/go/dizzy_spec.go:365-439) as interleaved steps of the main
 goroutine, one outer and one inner goroutine per proposal, and the timers.
 */
module Supervisor {
  import opened Options
  import Sieve

  datatype Outcome =
    | Evaluated(title: string, result: Sieve.SieveResult)
    | Recovered(title: string)
    | TimedOut(title: string)

  const CRASH := "Simulate Crash"
  const SLOW := "Simulate Timeout"

  /** The goroutine that waits for the evaluation or the timer and writes the result. */
  datatype OuterPc = NotSpawned | Spawned | Launched | Selecting | Chosen(outcome: Outcome) | Wrote | Cancelled | Exited

  /** The goroutine that evaluates the proposal and sends the outcome. */
  datatype InnerPc = Idle | Running | Sleeping | Evaluating | Recovering | Sending(outcome: Outcome) | Finished

  /** One proposal: its goroutines, the channel of capacity one between them, whether its timer expired, its
      slot of the result slice, and how often that slot was written. */
  datatype Task = Task(
    proposal: Sieve.Proposal, outer: OuterPc, inner: InnerPc, channel: seq<Outcome>, expired: bool,
    result: Option<Outcome>, writes: nat)

  datatype MainPc = Spawning(next: nat, added: bool) | Waiting | Returned

  datatype System = System(tasks: seq<Task>, waitGroup: nat, main: MainPc)

  datatype Action =
    | MainStep
    | OuterStep(i: nat) | TakeReply(i: nat) | TakeTimeout(i: nat)
    | InnerStep(i: nat)
    | Expire(i: nat)

  function Start(proposals: seq<Sieve.Proposal>): System {
    System(
      seq(|proposals|, i requires 0 <= i < |proposals| => Task(proposals[i], NotSpawned, Idle, [], false, None, 0)),
      0, Spawning(0, false))
  }

  // --- steps -------------------------------------------------------------------------------------

  predicate InnerCanStep(t: Task) {
    t.inner != Idle && t.inner != Finished && (t.inner.Sending? ==> |t.channel| < 1)
  }

  function InnerNext(t: Task): Task
    requires InnerCanStep(t)
  {
    match t.inner
    case Running =>
      t.(inner := if t.proposal.title == CRASH then Recovering
                  else if t.proposal.title == SLOW then Sleeping
                  else Evaluating)
    case Sleeping => t.(inner := Evaluating)
    case Evaluating =>
      t.(inner := Sending(Evaluated(t.proposal.title, Sieve.Procedural(Sieve.Go, Sieve.Go, t.proposal))))
    case Recovering => t.(inner := Sending(Recovered(t.proposal.title)))
    case Sending(o) => t.(inner := Finished, channel := t.channel + [o])
  }

  /** The steps of the outer goroutine apart from the select. */
  predicate OuterCanStep(t: Task) {
    t.outer == Spawned || t.outer == Launched || t.outer.Chosen? || t.outer == Wrote || t.outer == Cancelled
  }

  function OuterNext(t: Task): Task
    requires OuterCanStep(t)
  {
    match t.outer
    case Spawned => t.(outer := Launched, inner := Running)
    case Launched => t.(outer := Selecting)
    case Chosen(o) => t.(outer := Wrote, result := Some(o), writes := t.writes + 1)
    case Wrote => t.(outer := Cancelled)
    case Cancelled => t.(outer := Exited)
  }

  /** Whether the action, one of a task, can happen to this task. */
  predicate TaskCan(t: Task, a: Action) {
    match a
    case MainStep => false
    case OuterStep(_) => OuterCanStep(t)
    case TakeReply(_) => t.outer == Selecting && t.channel != []
    case TakeTimeout(_) => t.outer == Selecting && t.expired
    case InnerStep(_) => InnerCanStep(t)
    case Expire(_) => t.outer == Selecting && !t.expired
  }

  function TaskAfter(t: Task, a: Action): Task
    requires TaskCan(t, a)
  {
    match a
    case OuterStep(_) => OuterNext(t)
    case TakeReply(_) => t.(outer := Chosen(t.channel[0]), channel := t.channel[1..])
    case TakeTimeout(_) => t.(outer := Chosen(TimedOut(t.proposal.title)))
    case InnerStep(_) => InnerNext(t)
    case Expire(_) => t.(expired := true)
  }

  /** The action signals the wait group that its task is done. */
  predicate Signals(t: Task, a: Action) {
    a.OuterStep? && t.outer == Cancelled
  }

  predicate Enabled(s: System, a: Action) {
    if a == MainStep then (s.main.Spawning? && s.main.next <= |s.tasks|) || (s.main.Waiting? && s.waitGroup == 0)
    else a.i < |s.tasks| && TaskCan(s.tasks[a.i], a) && (Signals(s.tasks[a.i], a) ==> s.waitGroup > 0)
  }

  function With(s: System, i: nat, t: Task): System
    requires i < |s.tasks|
  {
    s.(tasks := s.tasks[i := t])
  }

  function MainNext(s: System): System
    requires Enabled(s, MainStep)
  {
    match s.main
    case Spawning(next, added) =>
      if next == |s.tasks| then s.(main := Waiting)
      else if !added then s.(waitGroup := s.waitGroup + 1, main := Spawning(next, true))
      else With(s, next, s.tasks[next].(outer := Spawned)).(main := Spawning(next + 1, false))
    case Waiting => s.(main := Returned)
  }

  function Step(s: System, a: Action): System
    requires Enabled(s, a)
  {
    if a == MainStep then MainNext(s)
    else
      var t := s.tasks[a.i];
      With(s, a.i, TaskAfter(t, a)).(waitGroup := if Signals(t, a) then s.waitGroup - 1 else s.waitGroup)
  }

  ghost predicate Runs(s: System, actions: seq<Action>, t: System)
    decreases |actions|
  {
    if actions == [] then t == s
    else Enabled(s, actions[0]) && Runs(Step(s, actions[0]), actions[1..], t)
  }

  // --- the invariant -----------------------------------------------------------------------------

  /** What the evaluation of a proposal can send. */
  predicate Sendable(p: Sieve.Proposal, o: Outcome) {
    if p.title == "Simulate Crash" then o == Recovered(p.title)
    else o == Evaluated(p.title, Sieve.Procedural(Sieve.Go, Sieve.Go, p))
  }

  /** What may be written for a task: its own outcome, or a timeout once its timer expired. */
  predicate Legal(t: Task, o: Outcome) {
    Sendable(t.proposal, o) || (o == TimedOut(t.proposal.title) && t.expired)
  }

  predicate BeforeSelect(pc: OuterPc) {
    pc == NotSpawned || pc == Spawned
  }

  predicate AfterWrite(pc: OuterPc) {
    pc == Wrote || pc == Cancelled || pc == Exited
  }

  ghost predicate InnerOk(t: Task) {
    match t.inner
    case Idle => BeforeSelect(t.outer) && t.channel == []
    case Running => t.channel == []
    case Sleeping => t.channel == [] && t.proposal.title != CRASH
    case Evaluating => t.channel == [] && t.proposal.title != CRASH
    case Recovering => t.channel == [] && t.proposal.title == CRASH
    case Sending(o) => t.channel == [] && Sendable(t.proposal, o)
    case Finished =>
      && |t.channel| <= 1 && (forall o :: o in t.channel ==> Sendable(t.proposal, o))
      && (t.outer == Launched || t.outer == Selecting ==> |t.channel| == 1)
  }

  ghost predicate OuterOk(t: Task) {
    && (BeforeSelect(t.outer) ==> t.inner == Idle)
    && (t.outer.Chosen? ==> Legal(t, t.outer.outcome))
    && (if AfterWrite(t.outer) then t.result.Some? && Legal(t, t.result.value) && t.writes == 1
        else t.result.None? && t.writes == 0)
  }

  ghost predicate TaskOk(t: Task) {
    InnerOk(t) && OuterOk(t)
  }

  predicate Active(t: Task) {
    t.outer != NotSpawned && t.outer != Exited
  }

  function CountActive(tasks: seq<Task>): nat {
    if tasks == [] then 0 else CountActive(tasks[..|tasks| - 1]) + if Active(tasks[|tasks| - 1]) then 1 else 0
  }

  ghost predicate MainOk(s: System) {
    match s.main
    case Spawning(next, added) =>
      && next <= |s.tasks| && (added ==> next < |s.tasks|)
      && (forall i :: 0 <= i < |s.tasks| ==> (s.tasks[i].outer == NotSpawned <==> i >= next))
      && s.waitGroup == CountActive(s.tasks) + if added then 1 else 0
    case Waiting =>
      (forall i :: 0 <= i < |s.tasks| ==> s.tasks[i].outer != NotSpawned) && s.waitGroup == CountActive(s.tasks)
    case Returned => (forall i :: 0 <= i < |s.tasks| ==> s.tasks[i].outer == Exited) && s.waitGroup == 0
  }

  ghost predicate TasksOk(tasks: seq<Task>) {
    forall i :: 0 <= i < |tasks| ==> TaskOk(tasks[i])
  }

  ghost predicate Inv(s: System) {
    TasksOk(s.tasks) && MainOk(s)
  }

  lemma {:induction false} CountAfterUpdate(tasks: seq<Task>, i: nat, t: Task)
    requires i < |tasks|
    ensures CountActive(tasks[i := t]) + (if Active(tasks[i]) then 1 else 0)
            == CountActive(tasks) + if Active(t) then 1 else 0
  {
    var n := |tasks| - 1;
    if i == n {
      assert tasks[i := t][..n] == tasks[..n];
    } else {
      assert tasks[i := t][..n] == tasks[..n][i := t];
      CountAfterUpdate(tasks[..n], i, t);
    }
  }

  lemma {:induction false} CountZero(tasks: seq<Task>)
    ensures CountActive(tasks) == 0 <==> forall i :: 0 <= i < |tasks| ==> !Active(tasks[i])
  {
    if tasks != [] {
      var n := |tasks| - 1;
      CountZero(tasks[..n]);
      if forall i :: 0 <= i < |tasks| ==> !Active(tasks[i]) {
        assert forall i :: 0 <= i < n ==> !Active(tasks[..n][i]);
      }
      if CountActive(tasks) == 0 {
        forall i | 0 <= i < |tasks| ensures !Active(tasks[i]) {
          if i < n { assert !Active(tasks[..n][i]); }
        }
      }
    }
  }

  lemma InnerNextOk(t: Task)
    requires TaskOk(t) && InnerCanStep(t)
    ensures TaskOk(InnerNext(t)) && InnerNext(t).outer == t.outer
  {
    hide Sieve.Procedural;
  }

  lemma OuterNextOk(t: Task)
    requires TaskOk(t) && OuterCanStep(t)
    ensures TaskOk(OuterNext(t))
    ensures Active(t) && (Active(OuterNext(t)) <==> t.outer != Cancelled) && OuterNext(t).outer != NotSpawned
  {
    hide Sendable, Sieve.Procedural;
  }

  lemma TaskStaysOk(t: Task, a: Action)
    requires TaskOk(t) && TaskCan(t, a)
    ensures TaskOk(TaskAfter(t, a))
    ensures t.outer == NotSpawned <==> TaskAfter(t, a).outer == NotSpawned
    ensures Active(TaskAfter(t, a)) <==> Active(t) && !Signals(t, a)
    ensures t.outer == Exited ==> TaskAfter(t, a).outer == Exited && !Signals(t, a)
    ensures Signals(t, a) ==> Active(t)
  {
    hide Sendable;
    match a
    case OuterStep(_) => OuterNextOk(t);
    case InnerStep(_) => InnerNextOk(t);
    case TakeReply(_) => assert t.channel[0] in t.channel;
    case _ =>
  }

  lemma TaskStepKeepsInv(s: System, a: Action)
    requires Inv(s) && a != MainStep && Enabled(s, a)
    ensures Inv(Step(s, a))
  {
    hide TaskOk, TaskCan, TaskAfter, Signals, Active, CountActive;
    var t := s.tasks[a.i];
    TaskStaysOk(t, a);
    CountAfterUpdate(s.tasks, a.i, TaskAfter(t, a));
  }

  lemma MainStepKeepsInv(s: System)
    requires Inv(s) && Enabled(s, MainStep)
    ensures Inv(Step(s, MainStep))
  {
    if s.main.Spawning? && s.main.added && s.main.next < |s.tasks| {
      var t := s.tasks[s.main.next];
      assert TaskOk(t);
      CountAfterUpdate(s.tasks, s.main.next, t.(outer := Spawned));
    }
    if s.main.Waiting? { CountZero(s.tasks); }
  }

  lemma StepKeepsInv(s: System, a: Action)
    requires Inv(s) && Enabled(s, a)
    ensures Inv(Step(s, a))
  {
    if a == MainStep { MainStepKeepsInv(s); } else { TaskStepKeepsInv(s, a); }
  }

  lemma {:induction false} StartInv(proposals: seq<Sieve.Proposal>)
    ensures Inv(Start(proposals))
  {
    CountZero(Start(proposals).tasks);
  }

  // --- the measure -------------------------------------------------------------------------------

  function OuterLeft(pc: OuterPc): nat {
    match pc
    case NotSpawned => 7
    case Spawned => 6
    case Launched => 5
    case Selecting => 4
    case Chosen(_) => 3
    case Wrote => 2
    case Cancelled => 1
    case Exited => 0
  }

  function InnerLeft(pc: InnerPc): nat {
    match pc
    case Idle => 5
    case Running => 4
    case Sleeping => 3
    case Evaluating => 2
    case Recovering => 2
    case Sending(_) => 1
    case Finished => 0
  }

  function TaskLeft(t: Task): nat {
    OuterLeft(t.outer) + InnerLeft(t.inner) + if t.expired then 0 else 1
  }

  function TasksLeft(tasks: seq<Task>): nat {
    if tasks == [] then 0 else TasksLeft(tasks[..|tasks| - 1]) + TaskLeft(tasks[|tasks| - 1])
  }

  function MainLeft(s: System): nat {
    match s.main
    case Spawning(next, added) => if next < |s.tasks| then 2 * (|s.tasks| - next) + 2 - (if added then 1 else 0) else 2
    case Waiting => 1
    case Returned => 0
  }

  /** A bound on the steps still to come. */
  function Left(s: System): nat {
    TasksLeft(s.tasks) + MainLeft(s)
  }

  lemma {:induction false} LeftAfterUpdate(tasks: seq<Task>, i: nat, t: Task)
    requires i < |tasks|
    ensures TasksLeft(tasks[i := t]) + TaskLeft(tasks[i]) == TasksLeft(tasks) + TaskLeft(t)
  {
    var n := |tasks| - 1;
    if i == n {
      assert tasks[i := t][..n] == tasks[..n];
    } else {
      assert tasks[i := t][..n] == tasks[..n][i := t];
      LeftAfterUpdate(tasks[..n], i, t);
    }
  }

  lemma {:induction false} LeftBound(tasks: seq<Task>)
    ensures TasksLeft(tasks) <= 13 * |tasks|
  {
    if tasks != [] { LeftBound(tasks[..|tasks| - 1]); }
  }

  /** The proposal stays, and a written result is never written again. */
  ghost predicate Keeps(t: Task, u: Task) {
    u.proposal == t.proposal && (t.result.Some? ==> u.result == t.result && u.writes == t.writes)
  }

  lemma TaskMoves(t: Task, a: Action)
    requires TaskOk(t) && TaskCan(t, a)
    ensures TaskLeft(TaskAfter(t, a)) < TaskLeft(t) && Keeps(t, TaskAfter(t, a))
  {
    hide Sendable, Legal, Sieve.Procedural;
  }

  ghost predicate AllKeep(s: System, u: System) {
    |u.tasks| == |s.tasks| && forall i :: 0 <= i < |s.tasks| ==> Keeps(s.tasks[i], u.tasks[i])
  }

  lemma StepMoves(s: System, a: Action)
    requires Inv(s) && Enabled(s, a)
    ensures Left(Step(s, a)) < Left(s) && AllKeep(s, Step(s, a))
  {
    hide TaskOk, TaskCan, TaskAfter, Signals, CountActive, TasksLeft, TaskLeft;
    if a != MainStep {
      TaskMoves(s.tasks[a.i], a);
      LeftAfterUpdate(s.tasks, a.i, TaskAfter(s.tasks[a.i], a));
    } else if s.main.Spawning? && s.main.added {
      var t := s.tasks[s.main.next];
      SpawnLowers(t);
      LeftAfterUpdate(s.tasks, s.main.next, t.(outer := Spawned));
    }
  }

  lemma SpawnLowers(t: Task)
    requires t.outer == NotSpawned
    ensures TaskLeft(t.(outer := Spawned)) < TaskLeft(t)
  {
  }

  lemma {:induction false} RunKeeps(s: System, actions: seq<Action>, u: System)
    requires Inv(s) && Runs(s, actions, u)
    ensures Inv(u) && AllKeep(s, u) && |actions| + Left(u) <= Left(s)
    decreases |actions|
  {
    if actions != [] {
      hide Inv, Left, Step, Enabled;
      StepKeepsInv(s, actions[0]);
      StepMoves(s, actions[0]);
      RunKeeps(Step(s, actions[0]), actions[1..], u);
    }
  }

  // --- every interleaving ------------------------------------------------------------------------

  lemma WrittenWhenReturned(s: System, i: nat)
    requires Inv(s) && s.main == Returned && i < |s.tasks|
    ensures s.tasks[i].writes == 1 && s.tasks[i].result.Some? && Legal(s.tasks[i], s.tasks[i].result.value)
  {
    assert TaskOk(s.tasks[i]) && s.tasks[i].outer == Exited;
  }

  /** When the supervisor returns, every slot has been written exactly once, with the outcome of its own
      proposal or, if its timer expired, a timeout; and no goroutine that is still running ever writes a
      slot again. */
  lemma ResultsAreFinal(proposals: seq<Sieve.Proposal>, actions: seq<Action>, s: System, more: seq<Action>,
                        later: System)
    requires Runs(Start(proposals), actions, s) && s.main == Returned && Runs(s, more, later)
    ensures |s.tasks| == |later.tasks| == |proposals|
    ensures forall i :: 0 <= i < |proposals| ==>
              && s.tasks[i].proposal == proposals[i] && s.tasks[i].result.Some? && s.tasks[i].writes == 1
              && Legal(s.tasks[i], s.tasks[i].result.value)
              && later.tasks[i].result == s.tasks[i].result && later.tasks[i].writes == 1
  {
    hide Runs, Legal, Left, TaskOk;
    StartInv(proposals);
    RunKeeps(Start(proposals), actions, s);
    RunKeeps(s, more, later);
    forall i | 0 <= i < |proposals|
      ensures s.tasks[i].result.Some? && s.tasks[i].writes == 1 && Legal(s.tasks[i], s.tasks[i].result.value)
    {
      WrittenWhenReturned(s, i);
    }
  }

  /** The send into the channel never blocks an evaluation, whether or not anyone still waits for it. */
  lemma SendsNeverBlock(proposals: seq<Sieve.Proposal>, actions: seq<Action>, s: System)
    requires Runs(Start(proposals), actions, s)
    ensures forall i :: 0 <= i < |s.tasks| && s.tasks[i].inner.Sending? ==> Enabled(s, InnerStep(i))
  {
    StartInv(proposals);
    RunKeeps(Start(proposals), actions, s);
    hide Runs, Sendable;
    forall i | 0 <= i < |s.tasks| && s.tasks[i].inner.Sending? ensures Enabled(s, InnerStep(i)) {
      assert TaskOk(s.tasks[i]);
    }
  }

  /** All is over: the supervisor returned and every evaluation ended. */
  ghost predicate Over(s: System) {
    s.main == Returned && forall i :: 0 <= i < |s.tasks| ==> s.tasks[i].inner == Finished
  }

  /** Something can happen that is not the expiry of a timer. */
  ghost predicate Busy(s: System) {
    exists a: Action :: !a.Expire? && Enabled(s, a)
  }

  /** A task that has not exited can go on without its timer. */
  lemma UnfinishedTaskCanStep(t: Task, i: nat) returns (a: Action)
    requires TaskOk(t) && Active(t)
    ensures a != MainStep && a.i == i && !a.Expire? && TaskCan(t, a)
  {
    hide Sendable;
    if OuterCanStep(t) {
      a := OuterStep(i);
    } else if t.channel != [] {
      a := TakeReply(i);
    } else {
      a := InnerStep(i);
    }
  }

  lemma ReturnedMeansInactive(s: System, i: nat)
    requires Inv(s) && i < |s.tasks|
    ensures s.main == Returned ==> !Active(s.tasks[i])
  {
  }

  lemma ActiveMeansBusy(s: System, i: nat)
    requires Inv(s) && i < |s.tasks| && Active(s.tasks[i])
    ensures Busy(s)
  {
    hide TaskOk, TaskCan;
    assert TaskOk(s.tasks[i]);
    var a := UnfinishedTaskCanStep(s.tasks[i], i);
    ReturnedMeansInactive(s, i);
    CountZero(s.tasks);
    assert Enabled(s, a);
  }

  lemma InnerMeansBusy(s: System, i: nat)
    requires Inv(s) && i < |s.tasks| && s.tasks[i].inner != Finished && s.tasks[i].inner != Idle
    ensures Busy(s)
  {
    hide Sendable;
    assert TaskOk(s.tasks[i]);
    assert Enabled(s, InnerStep(i));
  }

  lemma NotOverMeansBusy(s: System)
    requires Inv(s) && !Over(s)
    ensures Busy(s)
  {
    if s.main.Spawning? {
      assert Enabled(s, MainStep);
    } else if i: nat :| i < |s.tasks| && Active(s.tasks[i]) {
      ActiveMeansBusy(s, i);
    } else if s.main.Waiting? {
      CountZero(s.tasks);
      assert Enabled(s, MainStep);
    } else {
      var i: nat :| i < |s.tasks| && s.tasks[i].inner != Finished;
      assert TaskOk(s.tasks[i]) && s.tasks[i].outer == Exited;
      InnerMeansBusy(s, i);
    }
  }

  lemma OverMeansIdle(s: System)
    requires Inv(s) && Over(s)
    ensures !Busy(s)
  {
  }

  /** Every interleaving ends: it has at most 15 steps a proposal and 2 more, and it stops exactly when the
      supervisor returned and every evaluation ended, even if no timer ever fires. */
  lemma EveryRunEnds(proposals: seq<Sieve.Proposal>, actions: seq<Action>, s: System)
    requires Runs(Start(proposals), actions, s)
    ensures |actions| <= 15 * |proposals| + 2
    ensures !Busy(s) <==> Over(s)
  {
    StartInv(proposals);
    RunKeeps(Start(proposals), actions, s);
    LeftBound(Start(proposals).tasks);
    hide Runs, Inv;
    if Over(s) { OverMeansIdle(s); } else { NotOverMeansBusy(s); }
  }

  // --- every outcome is possible -----------------------------------------------------------------

  lemma {:induction false} RunsConcat(s: System, a: seq<Action>, t: System, b: seq<Action>, u: System)
    requires Runs(s, a, t) && Runs(t, b, u)
    ensures Runs(s, a + b, u)
    decreases |a|
  {
    hide Step, Enabled;
    if a == [] {
      assert a + b == b;
    } else {
      assert (a + b)[1..] == a[1..] + b;
      RunsConcat(Step(s, a[0]), a[1..], t, b, u);
    }
  }

  /** The task takes these steps, none of which signals the wait group. */
  ghost predicate TaskRuns(t: Task, i: nat, actions: seq<Action>, u: Task)
    decreases |actions|
  {
    if actions == [] then u == t
    else
      && actions[0] != MainStep && actions[0].i == i && TaskCan(t, actions[0]) && !Signals(t, actions[0])
      && TaskRuns(TaskAfter(t, actions[0]), i, actions[1..], u)
  }

  lemma {:induction false} LocalRun(s: System, i: nat, actions: seq<Action>, u: Task)
    requires i < |s.tasks| && TaskRuns(s.tasks[i], i, actions, u)
    ensures Runs(s, actions, With(s, i, u))
    decreases |actions|
  {
    hide TaskCan, TaskAfter, Signals;
    if actions == [] {
      assert s.tasks[i := s.tasks[i]] == s.tasks;
    } else {
      var t := TaskAfter(s.tasks[i], actions[0]);
      assert Step(s, actions[0]) == With(s, i, t);
      LocalRun(With(s, i, t), i, actions[1..], u);
      assert s.tasks[i := t][i := u] == s.tasks[i := u];
    }
  }

  lemma StepFirst(t: Task, i: nat, a: Action, rest: seq<Action>, u: Task)
    requires a != MainStep && a.i == i && TaskCan(t, a) && !Signals(t, a) && TaskRuns(TaskAfter(t, a), i, rest, u)
    ensures TaskRuns(t, i, [a] + rest, u)
  {
    assert ([a] + rest)[1..] == rest;
  }

  /** What the evaluation of the proposal sends. */
  ghost function Own(p: Sieve.Proposal): Outcome {
    if p.title == "Simulate Crash" then Recovered(p.title)
    else Evaluated(p.title, Sieve.Procedural(Sieve.Go, Sieve.Go, p))
  }

  ghost function SpawnedTask(p: Sieve.Proposal): Task {
    Task(p, Spawned, Idle, [], false, None, 0)
  }

  /** A task that has written this outcome and is about to signal. */
  ghost predicate Written(t: Task, p: Sieve.Proposal, o: Outcome) {
    t.proposal == p && t.outer == Cancelled && t.result == Some(o)
  }

  lemma FinishFrom(t: Task, i: nat, o: Outcome) returns (actions: seq<Action>, u: Task)
    requires t.outer == Chosen(o)
    ensures TaskRuns(t, i, actions, u) && Written(u, t.proposal, o)
  {
    var t1 := TaskAfter(t, OuterStep(i));
    u := TaskAfter(t1, OuterStep(i));
    StepFirst(t1, i, OuterStep(i), [], u);
    StepFirst(t, i, OuterStep(i), [OuterStep(i)], u);
    actions := [OuterStep(i)] + [OuterStep(i)];
  }

  lemma LateTask(p: Sieve.Proposal, i: nat) returns (actions: seq<Action>, u: Task)
    ensures TaskRuns(SpawnedTask(p), i, actions, u) && Written(u, p, TimedOut(p.title))
  {
    var t0 := SpawnedTask(p);
    var t1 := TaskAfter(t0, OuterStep(i));
    var t2 := TaskAfter(t1, OuterStep(i));
    var t3 := TaskAfter(t2, Expire(i));
    var t4 := TaskAfter(t3, TakeTimeout(i));
    var rest, v := FinishFrom(t4, i, TimedOut(p.title));
    StepFirst(t3, i, TakeTimeout(i), rest, v);
    StepFirst(t2, i, Expire(i), [TakeTimeout(i)] + rest, v);
    StepFirst(t1, i, OuterStep(i), [Expire(i)] + ([TakeTimeout(i)] + rest), v);
    StepFirst(t0, i, OuterStep(i), [OuterStep(i)] + ([Expire(i)] + ([TakeTimeout(i)] + rest)), v);
    actions, u := [OuterStep(i)] + ([OuterStep(i)] + ([Expire(i)] + ([TakeTimeout(i)] + rest))), v;
  }

  /** From the evaluation to the reply. */
  lemma EvaluatedTask(t: Task, i: nat) returns (actions: seq<Action>, u: Task)
    requires t.outer == Selecting && t.channel == []
    requires if t.proposal.title == "Simulate Crash" then t.inner == Recovering else t.inner == Evaluating
    ensures TaskRuns(t, i, actions, u) && Written(u, t.proposal, Own(t.proposal))
  {
    hide Sieve.Procedural;
    var t1 := TaskAfter(t, InnerStep(i));
    var t2 := TaskAfter(t1, InnerStep(i));
    assert t2.channel == [Own(t.proposal)];
    var t3 := TaskAfter(t2, TakeReply(i));
    var rest, v := FinishFrom(t3, i, Own(t.proposal));
    StepFirst(t2, i, TakeReply(i), rest, v);
    StepFirst(t1, i, InnerStep(i), [TakeReply(i)] + rest, v);
    StepFirst(t, i, InnerStep(i), [InnerStep(i)] + ([TakeReply(i)] + rest), v);
    actions, u := [InnerStep(i)] + ([InnerStep(i)] + ([TakeReply(i)] + rest)), v;
  }

  /** A slow proposal sleeps before its evaluation; any other goes on at once. */
  lemma RunningTask(t: Task, i: nat) returns (actions: seq<Action>, u: Task)
    requires t.outer == Selecting && t.channel == [] && t.inner == Running
    ensures TaskRuns(t, i, actions, u) && Written(u, t.proposal, Own(t.proposal))
  {
    hide Sieve.Procedural, Own;
    var t1 := TaskAfter(t, InnerStep(i));
    if t.proposal.title == "Simulate Timeout" {
      assert t1.inner == Sleeping;
      var t2 := TaskAfter(t1, InnerStep(i));
      var rest, v := EvaluatedTask(t2, i);
      StepFirst(t1, i, InnerStep(i), rest, v);
      StepFirst(t, i, InnerStep(i), [InnerStep(i)] + rest, v);
      actions, u := [InnerStep(i)] + ([InnerStep(i)] + rest), v;
    } else {
      var rest, v := EvaluatedTask(t1, i);
      StepFirst(t, i, InnerStep(i), rest, v);
      actions, u := [InnerStep(i)] + rest, v;
    }
  }

  lemma TimelyTask(p: Sieve.Proposal, i: nat) returns (actions: seq<Action>, u: Task)
    ensures TaskRuns(SpawnedTask(p), i, actions, u) && Written(u, p, Own(p))
  {
    hide Sieve.Procedural, Own;
    var t0 := SpawnedTask(p);
    var t1 := TaskAfter(t0, OuterStep(i));
    var t2 := TaskAfter(t1, OuterStep(i));
    var rest, v := RunningTask(t2, i);
    StepFirst(t1, i, OuterStep(i), rest, v);
    StepFirst(t0, i, OuterStep(i), [OuterStep(i)] + rest, v);
    actions, u := [OuterStep(i)] + ([OuterStep(i)] + rest), v;
  }

  /** The outcome of the i-th slot when these proposals are late. */
  ghost function Wanted(p: Sieve.Proposal, late: bool): Outcome {
    if late then TimedOut(p.title) else Own(p)
  }

  /** The first `k` tasks are done with these outcomes, the others not yet spawned. */
  ghost predicate DoneUpTo(s: System, proposals: seq<Sieve.Proposal>, late: seq<bool>, k: nat)
    requires |late| == |proposals|
  {
    && k <= |proposals| == |s.tasks| && s.waitGroup == 0 && s.main == Spawning(k, false)
    && (forall j :: 0 <= j < k ==> s.tasks[j].result == Some(Wanted(proposals[j], late[j])))
    && forall j :: k <= j < |proposals| ==> s.tasks[j] == SpawnedTask(proposals[j]).(outer := NotSpawned)
  }

  lemma OneTaskMore(s: System, proposals: seq<Sieve.Proposal>, late: seq<bool>, k: nat)
    returns (actions: seq<Action>, t: System)
    requires |late| == |proposals| && k < |proposals| && DoneUpTo(s, proposals, late, k)
    ensures Runs(s, actions, t) && DoneUpTo(t, proposals, late, k + 1)
  {
    hide Own, Sieve.Procedural, TaskRuns;
    var s1 := Step(s, MainStep);
    var s2 := Step(s1, MainStep);
    assert s2.tasks[k] == SpawnedTask(proposals[k]);
    var acts, u;
    if late[k] { acts, u := LateTask(proposals[k], k); } else { acts, u := TimelyTask(proposals[k], k); }
    LocalRun(s2, k, acts, u);
    var s3 := With(s2, k, u);
    t := Step(s3, OuterStep(k));
    TwoRuns(s, s1, s2);
    OneRun(s3, OuterStep(k));
    RunsConcat(s, [MainStep, MainStep], s2, acts, s3);
    RunsConcat(s, [MainStep, MainStep] + acts, s3, [OuterStep(k)], t);
    actions := [MainStep, MainStep] + acts + [OuterStep(k)];
  }

  lemma OneRun(s: System, a: Action)
    requires Enabled(s, a)
    ensures Runs(s, [a], Step(s, a))
  {
    hide Step, Enabled;
    assert [a][1..] == [];
  }

  lemma TwoRuns(s: System, t: System, u: System)
    requires Enabled(s, MainStep) && t == Step(s, MainStep) && Enabled(t, MainStep) && u == Step(t, MainStep)
    ensures Runs(s, [MainStep, MainStep], u)
  {
    hide Step, Enabled;
    OneRun(t, MainStep);
    assert [MainStep, MainStep][1..] == [MainStep];
  }

  lemma {:induction false} AllTasks(proposals: seq<Sieve.Proposal>, late: seq<bool>, k: nat)
    returns (actions: seq<Action>, s: System)
    requires |late| == |proposals| && k <= |proposals|
    ensures Runs(Start(proposals), actions, s) && DoneUpTo(s, proposals, late, k)
  {
    hide Runs, Own;
    if k == 0 {
      actions, s := [], Start(proposals);
      NoRun(s);
    } else {
      var before, t := AllTasks(proposals, late, k - 1);
      var more, u := OneTaskMore(t, proposals, late, k - 1);
      RunsConcat(Start(proposals), before, t, more, u);
      actions, s := before + more, u;
    }
  }

  lemma NoRun(s: System)
    ensures Runs(s, [], s)
  {
  }

  /** Nothing in `ResultsAreFinal` is too generous: for any choice of late proposals, slow or not, some interleaving
      returns a timeout in exactly their slots and every other proposal's own outcome in its slot. */
  lemma EveryOutcomeIsPossible(proposals: seq<Sieve.Proposal>, late: seq<bool>)
    requires |late| == |proposals|
    ensures exists actions, s :: && Runs(Start(proposals), actions, s) && s.main == Returned
                                 && |s.tasks| == |proposals|
                                 && forall i :: 0 <= i < |proposals| ==>
                                      s.tasks[i].result == Some(Wanted(proposals[i], late[i]))
  {
    hide Runs, Own;
    var actions, s := AllTasks(proposals, late, |proposals|);
    var t := Step(s, MainStep);
    var u := Step(t, MainStep);
    TwoRuns(s, t, u);
    RunsConcat(Start(proposals), actions, s, [MainStep, MainStep], u);
    assert u.main == Returned && u.tasks == s.tasks;
  }
}
