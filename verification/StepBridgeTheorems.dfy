/** What every run of the bridge keeps, and why the handler cannot wedge itself. */
module StepBridgeTheorems {
  import opened Options
  import opened StepBridge

  // ---- whom a task waits for ----------------------------------------------------------------------------------

  /** Same tasks with the same parents, and perhaps more of them. */
  ghost predicate Extends(tasks: seq<Task>, tasks': seq<Task>) {
    |tasks| <= |tasks'| && forall t :: 0 <= t < |tasks| ==>
      tasks'[t].parent == tasks[t].parent && tasks'[t].inBody == tasks[t].inBody
  }

  lemma {:induction false} StartedExtends(tasks: seq<Task>, tasks': seq<Task>, t: nat, c: nat)
    requires Extends(tasks, tasks') && Started(tasks, t, c)
    ensures Started(tasks', t, c)
    decreases c
  {
    if tasks[c].parent.value != t {
      StartedExtends(tasks, tasks', t, tasks[c].parent.value);
    }
  }

  /** The flag passes from a task to the tasks it starts. */
  ghost predicate Inherits(tasks: seq<Task>) {
    forall c :: 0 <= c < |tasks| && tasks[c].parent.Some? ==>
      tasks[c].parent.value < c && (tasks[tasks[c].parent.value].inBody ==> tasks[c].inBody)
  }

  lemma {:induction false} StartedInherits(tasks: seq<Task>, t: nat, c: nat)
    requires Inherits(tasks) && Started(tasks, t, c) && tasks[t].inBody
    ensures tasks[c].inBody
    decreases c
  {
    if tasks[c].parent.value != t {
      StartedInherits(tasks, t, tasks[c].parent.value);
    }
  }

  /** An operation waits only on work it started. */
  ghost predicate WaitsBelow(tasks: seq<Task>) {
    forall t: nat :: t < |tasks| && tasks[t].state.WaitingOn? ==> Started(tasks, t, tasks[t].state.child)
  }

  /** No task of a step body waits for the queue. */
  ghost predicate NoneNested(tasks: seq<Task>) {
    forall t :: 0 <= t < |tasks| && tasks[t].inBody ==> !tasks[t].state.WaitingOrder? && !tasks[t].state.WaitingReply?
  }

  ghost predicate BodyFlagged(s: State) {
    s.handler.InBody? && s.handler.op.Some? ==>
      s.handler.op.value < |s.tasks| && s.tasks[s.handler.op.value].inBody
  }

  ghost predicate Unnested(s: State) {
    Inherits(s.tasks) && WaitsBelow(s.tasks) && NoneNested(s.tasks) && BodyFlagged(s)
  }

  lemma SetUnnested(s: State, t: nat, state: TaskState)
    requires Unnested(s) && IsTask(s, t)
    requires state.WaitingOn? ==> Started(s.tasks, t, state.child)
    requires state.WaitingOrder? || state.WaitingReply? ==> !s.tasks[t].inBody
    ensures Unnested(SetState(s, t, state))
  {
    var tasks' := SetState(s, t, state).tasks;
    forall u: nat | u < |tasks'| && tasks'[u].state.WaitingOn? ensures Started(tasks', u, tasks'[u].state.child) {
      StartedExtends(s.tasks, tasks', u, tasks'[u].state.child);
    }
  }

  lemma NewTaskUnnested(s: State, task: Task)
    requires Unnested(s) && task.state == Running
    requires task.parent.Some? ==> task.parent.value < |s.tasks| && (s.tasks[task.parent.value].inBody ==> task.inBody)
    ensures Unnested(s.(tasks := s.tasks + [task]))
  {
    var tasks' := s.tasks + [task];
    forall u: nat | u < |tasks'| && tasks'[u].state.WaitingOn? ensures Started(tasks', u, tasks'[u].state.child) {
      StartedExtends(s.tasks, tasks', u, tasks'[u].state.child);
    }
  }

  lemma SameUnnested(s: State, s': State)
    requires Unnested(s) && s'.tasks == s.tasks
    requires s'.handler.InBody? && s'.handler.op.Some? ==> s'.handler == s.handler
    ensures Unnested(s')
  {
  }

  lemma WaiterOutside(s: State)
    requires Exclusive(s) && Unnested(s)
    ensures forall i :: 0 <= i < |s.waiters| ==> !s.tasks[s.waiters[i]].inBody
  {
  }

  lemma TaskEventUnnested(s: State, e: Event)
    requires Exclusive(s) && Unnested(s) && Enabled(s, e)
    requires e.RequestStep? || e.TakeTurn? || e.CancelTask? || e.Deliver? || e.FinishTask?
    ensures Unnested(Step(true, s, e))
  {
    WaiterOutside(s);
    hide Unnested, Exclusive, Without;
    match e
    case RequestStep(t) =>
      if !s.tasks[t].inBody {
        SetUnnested(s, t, WaitingReply(s.issued));
        SetUnnested(s, t, WaitingOrder);
        SameUnnested(SetState(s, t, WaitingReply(s.issued)), Ask(s, t));
        SameUnnested(SetState(s, t, WaitingOrder), SetState(s, t, WaitingOrder).(waiters := s.waiters + [t]));
      }
    case TakeTurn(t) =>
      SetUnnested(s, t, WaitingReply(s.issued));
      SameUnnested(SetState(s, t, WaitingReply(s.issued)), Step(true, s, e));
    case CancelTask(t) =>
      SetUnnested(s, t, Running);
      SameUnnested(SetState(s, t, Running), Step(true, s, e));
    case Deliver(r) =>
      if s.holder.Some? && Awaits(s, s.holder.value, r) {
        SetUnnested(s, s.holder.value, Running);
        SameUnnested(SetState(s, s.holder.value, Running), Step(true, s, e));
      } else {
        SameUnnested(s, Step(true, s, e));
      }
    case FinishTask(t) =>
      SetUnnested(s, t, Done);
      SameUnnested(SetState(s, t, Done), Step(true, s, e));
  }

  lemma ScheduleUnnested(s: State)
    requires Unnested(s) && Enabled(s, Schedule)
    ensures Unnested(Step(true, s, Schedule))
  {
    NewTaskUnnested(s, Task(true, None, Running));
  }

  lemma StepUnnested(s: State, e: Event)
    requires Exclusive(s) && Unnested(s) && Enabled(s, e)
    ensures Unnested(Step(true, s, e))
  {
    hide Unnested, Exclusive, Ask, Without, DeliverTo, Cancel, Started;
    match e
    case Spawn(t) => NewTaskUnnested(s, Task(s.tasks[t].inBody, Some(t), Running));
    case Schedule => ScheduleUnnested(s);
    case Wait(t, c) => SetUnnested(s, t, WaitingOn(c));
    case Resume(t) => SetUnnested(s, t, Running);
    case Dequeue => SameUnnested(s, Step(true, s, e));
    case CallBody => SameUnnested(s, Step(true, s, e));
    case BodyReturns => SameUnnested(s, Step(true, s, e));
    case BodyGone => SameUnnested(s, Step(true, s, e));
    case StepReturns(_) => SameUnnested(s, Step(true, s, e));
    case StopLoop => SameUnnested(s, Step(true, s, e));
    case _ => TaskEventUnnested(s, e);
  }

  // ---- runs -----------------------------------------------------------------------------------------------------

  lemma {:induction false} RunKeeps(refuse: bool, s: State, events: seq<Event>)
    requires Legal(refuse, s, events) && Ordered(s) && Exclusive(s)
    ensures Ordered(After(refuse, s, events)) && Exclusive(After(refuse, s, events))
    decreases |events|
  {
    hide Ordered, Exclusive, Step, Enabled;
    if events != [] {
      StepOrdered(refuse, s, events[0]);
      StepExclusive(refuse, s, events[0]);
      RunKeeps(refuse, Step(refuse, s, events[0]), events[1..]);
    }
  }

  lemma {:induction false} RunUnnested(s: State, events: seq<Event>)
    requires Legal(true, s, events) && Exclusive(s) && Unnested(s)
    ensures Unnested(After(true, s, events))
    decreases |events|
  {
    hide Unnested, Exclusive, Step, Enabled;
    if events != [] {
      StepExclusive(true, s, events[0]);
      StepUnnested(s, events[0]);
      RunUnnested(Step(true, s, events[0]), events[1..]);
    }
  }

  lemma {:induction false} OneMoreEvent(refuse: bool, s: State, events: seq<Event>, e: Event)
    requires Legal(refuse, s, events) && Enabled(After(refuse, s, events), e)
    ensures Legal(refuse, s, events + [e])
    ensures After(refuse, s, events + [e]) == Step(refuse, After(refuse, s, events), e)
    decreases |events|
  {
    hide Step, Enabled;
    if events == [] {
      assert [e][1..] == [];
    } else {
      assert (events + [e])[1..] == events[1..] + [e];
      OneMoreEvent(refuse, Step(refuse, s, events[0]), events[1..], e);
    }
  }

  // ---- requests ---------------------------------------------------------------------------------------------------

  /** Only operations of steps have no parent but the agent run, and a task has the flag of the one that started it. */
  ghost predicate FlagsPass(tasks: seq<Task>) {
    && tasks != [] && tasks[0].parent.None?
    && forall c :: 0 <= c < |tasks| ==>
         if tasks[c].parent.None? then tasks[c].inBody <==> c != 0
         else tasks[c].parent.value < c && tasks[c].inBody == tasks[tasks[c].parent.value].inBody
  }

  lemma SameFlags(tasks: seq<Task>, tasks': seq<Task>)
    requires FlagsPass(tasks) && |tasks'| == |tasks| && Extends(tasks, tasks')
    ensures FlagsPass(tasks')
  {
  }

  lemma NewTaskFlags(tasks: seq<Task>, task: Task)
    requires FlagsPass(tasks)
    requires if task.parent.None? then task.inBody
             else task.parent.value < |tasks| && task.inBody == tasks[task.parent.value].inBody
    ensures FlagsPass(tasks + [task])
  {
  }

  lemma StepFlags(refuse: bool, s: State, e: Event)
    requires FlagsPass(s.tasks) && Enabled(s, e)
    ensures FlagsPass(Step(refuse, s, e).tasks)
  {
    hide FlagsPass, Started, Without;
    match e
    case Spawn(t) => NewTaskFlags(s.tasks, Task(s.tasks[t].inBody, Some(t), Running));
    case Schedule => NewTaskFlags(s.tasks, Task(true, None, Running));
    case _ => SameFlags(s.tasks, Step(refuse, s, e).tasks);
  }

  lemma {:induction false} RunFlags(refuse: bool, s: State, events: seq<Event>)
    requires Legal(refuse, s, events) && FlagsPass(s.tasks)
    ensures FlagsPass(After(refuse, s, events).tasks)
    decreases |events|
  {
    hide FlagsPass, Step, Enabled;
    if events != [] {
      StepFlags(refuse, s, events[0]);
      RunFlags(refuse, Step(refuse, s, events[0]), events[1..]);
    }
  }

  lemma {:induction false} FlaggedUnlessStartedByTheRun(tasks: seq<Task>, c: nat)
    requires FlagsPass(tasks) && c < |tasks|
    ensures tasks[c].inBody <==> c != 0 && !Started(tasks, 0, c)
    decreases c
  {
    if tasks[c].parent.Some? && tasks[c].parent.value != 0 {
      FlaggedUnlessStartedByTheRun(tasks, tasks[c].parent.value);
    }
  }

  /** The request of `t` is the newest on the queue, and `t` holds the lock and waits for its reply. */
  ghost predicate Queued(s: State, s': State, t: nat) {
    && s'.queue == s.queue + [Request(s.issued)] && s'.issued == s.issued + 1
    && s'.holder == Some(t) && s'.waiters == s.waiters && Awaits(s', t, s.issued)
  }

  /** `t` is the last to wait for the lock. */
  ghost predicate Waits(s: State, s': State, t: nat) {
    && s'.queue == s.queue && s'.issued == s.issued
    && s'.holder == s.holder && s'.waiters == s.waiters + [t] && In(s', t, WaitingOrder)
  }

  /** In every run: a running task that asks for a step is refused, and nothing changes, exactly when the agent run did
      not start it, directly or through its tasks. Otherwise its request is queued at once exactly when nobody holds
      the lock or waits for it, and else it waits behind those that do. No other task changes. */
  lemma RequestIsQueuedUnlessNested(events: seq<Event>, t: nat)
    requires Legal(true, Initial, events) && Enabled(After(true, Initial, events), RequestStep(t))
    ensures Legal(true, Initial, events + [RequestStep(t)])
    ensures var s, s' := After(true, Initial, events), After(true, Initial, events + [RequestStep(t)]);
            && (s' == s <==> t != 0 && !Started(s.tasks, 0, t))
            && (t == 0 || Started(s.tasks, 0, t) ==>
                  if s.holder.None? && s.waiters == [] then Queued(s, s', t) else Waits(s, s', t))
            && s'.handler == s.handler && s'.replied == s.replied && s'.delivered == s.delivered
            && s'.loopRunning && |s'.tasks| == |s.tasks|
            && forall u :: 0 <= u < |s.tasks| && u != t ==> s'.tasks[u] == s.tasks[u]
  {
    var s := After(true, Initial, events);
    OneMoreEvent(true, Initial, events, RequestStep(t));
    RunFlags(true, Initial, events);
    FlaggedUnlessStartedByTheRun(s.tasks, t);
    hide After, Legal, Started, FlagsPass;
  }

  /** In every run: any task that is not done can be cancelled while the loop runs. Then it runs and waits for nothing,
      another task can have the lock if it had it, and its request stays on the queue. */
  lemma CancelledTaskWaitsForNothing(refuse: bool, events: seq<Event>, t: nat)
    requires Legal(refuse, Initial, events)
    requires var s := After(refuse, Initial, events); s.loopRunning && IsTask(s, t) && s.tasks[t].state != Done
    ensures Legal(refuse, Initial, events + [CancelTask(t)])
    ensures var s, s' := After(refuse, Initial, events), After(refuse, Initial, events + [CancelTask(t)]);
            && In(s', t, Running) && t !in s'.waiters
            && s'.holder == (if s.holder == Some(t) then None else s.holder)
            && s'.queue == s.queue && s'.issued == s.issued && |s'.tasks| == |s.tasks|
            && (forall u :: 0 <= u < |s.tasks| && u != t ==> s'.tasks[u] == s.tasks[u])
            && (forall u :: u in s'.waiters <==> u in s.waiters && u != t)
  {
    var s := After(refuse, Initial, events);
    OneMoreEvent(refuse, Initial, events, CancelTask(t));
    RunKeeps(refuse, Initial, events);
    WithoutExactly(s.waiters, t);
    hide After, Legal, Without, Ordered;
    if t in s.waiters {
      var i :| 0 <= i < |s.waiters| && s.waiters[i] == t;
      assert In(s, t, WaitingOrder);
    }
  }

  lemma {:induction false} WithoutExactly(waiters: seq<nat>, t: nat)
    ensures forall u :: u in Without(waiters, t) <==> u in waiters && u != t
  {
    if waiters != [] {
      WithoutExactly(waiters[1..], t);
    }
  }

  /** In every run: a task that starts waiting for one it started goes on exactly when that one is done. */
  lemma WaitsUntilDone(refuse: bool, events: seq<Event>, t: nat, c: nat)
    requires Legal(refuse, Initial, events) && Enabled(After(refuse, Initial, events), Wait(t, c))
    ensures Legal(refuse, Initial, events + [Wait(t, c)])
    ensures var s, s' := After(refuse, Initial, events), After(refuse, Initial, events + [Wait(t, c)]);
            && In(s', t, WaitingOn(c)) && c != t && c < |s'.tasks| == |s.tasks| && s'.tasks[c] == s.tasks[c]
            && (Enabled(s', Resume(t)) <==> In(s', c, Done))
            && (In(s', c, Done) ==> Step(refuse, s', Resume(t)) == s)
  {
    OneMoreEvent(refuse, Initial, events, Wait(t, c));
    hide After, Legal;
    var s := After(refuse, Initial, events);
    var tasks' := s.tasks[t := s.tasks[t].(state := WaitingOn(c))];
    assert tasks'[t := s.tasks[t].(state := Running)] == s.tasks;
  }

  /** In every run: a task that is started runs at once, beside all others, and counts as started by its parent. */
  lemma SpawnedTaskRuns(refuse: bool, events: seq<Event>, t: nat)
    requires Legal(refuse, Initial, events) && Enabled(After(refuse, Initial, events), Spawn(t))
    ensures Legal(refuse, Initial, events + [Spawn(t)])
    ensures var s, s' := After(refuse, Initial, events), After(refuse, Initial, events + [Spawn(t)]);
            && |s'.tasks| == |s.tasks| + 1 && s'.tasks[..|s.tasks|] == s.tasks
            && In(s', |s.tasks|, Running) && Started(s'.tasks, t, |s.tasks|)
            && s'.tasks[|s.tasks|].inBody == s.tasks[t].inBody
            && s'.(tasks := s.tasks) == s
  {
    OneMoreEvent(refuse, Initial, events, Spawn(t));
    hide After, Legal;
  }

  /** In every run the queue is first in, first out: an event adds one item at its end, takes its first, or leaves it.
      */
  lemma QueueIsFirstInFirstOut(refuse: bool, events: seq<Event>, e: Event)
    requires Legal(refuse, Initial, events) && Enabled(After(refuse, Initial, events), e)
    ensures Legal(refuse, Initial, events + [e])
    ensures var queue, queue' := After(refuse, Initial, events).queue, After(refuse, Initial, events + [e]).queue;
            if e.Dequeue? then queue != [] && queue' == queue[1..]
            else queue <= queue' && |queue'| <= |queue| + 1
  {
    OneMoreEvent(refuse, Initial, events, e);
    hide After, Legal, Started, Without;
  }

  /** The end of the run is on the queue, or the handler has taken it. */
  ghost predicate EndAnnounced(s: State) {
    && s.tasks != []
    && (s.tasks[0].state.Done? <==> Finished in s.queue || s.handler.Returned?)
  }

  lemma StepAnnounces(refuse: bool, s: State, e: Event)
    requires EndAnnounced(s) && Exclusive(s) && Enabled(s, e)
    ensures EndAnnounced(Step(refuse, s, e))
  {
    hide Started, Without;
    if e.Dequeue? {
      assert s.queue == [s.queue[0]] + s.queue[1..];
    }
  }

  lemma {:induction false} RunAnnounces(refuse: bool, s: State, events: seq<Event>)
    requires Legal(refuse, s, events) && EndAnnounced(s) && Ordered(s) && Exclusive(s)
    ensures EndAnnounced(After(refuse, s, events))
    decreases |events|
  {
    hide EndAnnounced, Ordered, Exclusive, Step, Enabled;
    if events != [] {
      StepAnnounces(refuse, s, events[0]);
      StepOrdered(refuse, s, events[0]);
      StepExclusive(refuse, s, events[0]);
      RunAnnounces(refuse, Step(refuse, s, events[0]), events[1..]);
    }
  }

  /** In every run: the handler has returned, or will find the end on its queue, exactly when the agent run is done. */
  lemma HandlerReturnsWithTheRun(refuse: bool, events: seq<Event>)
    requires Legal(refuse, Initial, events)
    ensures var s := After(refuse, Initial, events);
            In(s, 0, Done) <==> Finished in s.queue || s.handler.Returned?
  {
    RunAnnounces(refuse, Initial, events);
  }

  /** A step of the agent run, from its request to its reply. Its operation asks for a step too, and is refused. */
  const ServedRequest: seq<Event> :=
    [RequestStep(0), Dequeue, CallBody, Schedule, RequestStep(1), FinishTask(1), BodyReturns, StepReturns(false),
     Deliver(0)]

  const ServingBody := Initial.(
    tasks := [Task(false, None, WaitingReply(0)), Task(true, None, Running)],
    holder := Some(0), issued := 1, handler := InBody(0, Some(1)))

  const StepServed := Initial.(
    tasks := [Task(false, None, Running), Task(true, None, Done)], issued := 1, replied := [0], delivered := {0})

  lemma BodyIsReached()
    ensures var s1 := Step(true, Initial, RequestStep(0));
            && Enabled(Initial, RequestStep(0)) && Enabled(s1, Dequeue)
            && var s2 := Step(true, s1, Dequeue);
            && Enabled(s2, CallBody)
            && var s3 := Step(true, s2, CallBody);
            && Enabled(s3, Schedule) && Step(true, s3, Schedule) == ServingBody
  {
  }

  lemma BodyIsLeft()
    ensures Enabled(ServingBody, RequestStep(1)) && Step(true, ServingBody, RequestStep(1)) == ServingBody
    ensures Enabled(ServingBody, FinishTask(1))
    ensures var s5 := Step(true, ServingBody, FinishTask(1));
            && Enabled(s5, BodyReturns)
            && var s6 := Step(true, s5, BodyReturns);
            && Enabled(s6, StepReturns(false))
            && var s7 := Step(true, s6, StepReturns(false));
            && Enabled(s7, Deliver(0)) && Step(true, s7, Deliver(0)) == StepServed
  {
  }

  lemma BodyIsServed() returns (rest: seq<Event>)
    ensures rest == [RequestStep(1), FinishTask(1), BodyReturns, StepReturns(false), Deliver(0)]
    ensures Legal(true, ServingBody, rest) && After(true, ServingBody, rest) == StepServed
  {
    BodyIsLeft();
    var s5 := Step(true, ServingBody, FinishTask(1));
    var s6 := Step(true, s5, BodyReturns);
    var s7 := Step(true, s6, StepReturns(false));
    hide Step, Enabled;
    Unfold(true, s7, Deliver(0), []);
    Unfold(true, s6, StepReturns(false), [Deliver(0)]);
    Unfold(true, s5, BodyReturns, [StepReturns(false), Deliver(0)]);
    Unfold(true, ServingBody, FinishTask(1), [BodyReturns, StepReturns(false), Deliver(0)]);
    Unfold(true, ServingBody, RequestStep(1), [FinishTask(1), BodyReturns, StepReturns(false), Deliver(0)]);
    rest := [RequestStep(1), FinishTask(1), BodyReturns, StepReturns(false), Deliver(0)];
    assert [RequestStep(1)] + [FinishTask(1), BodyReturns, StepReturns(false), Deliver(0)] == rest;
  }

  /** The step is served: its request is answered, and the agent run goes on with the lock free again. */
  lemma StepIsServed()
    ensures Legal(true, Initial, ServedRequest) && After(true, Initial, ServedRequest) == StepServed
  {
    BodyIsReached();
    var rest := BodyIsServed();
    var s1 := Step(true, Initial, RequestStep(0));
    var s2 := Step(true, s1, Dequeue);
    var s3 := Step(true, s2, CallBody);
    hide Step, Enabled;
    Unfold(true, s3, Schedule, rest);
    Unfold(true, s2, CallBody, [Schedule] + rest);
    Unfold(true, s1, Dequeue, [CallBody] + ([Schedule] + rest));
    Unfold(true, Initial, RequestStep(0), [Dequeue] + ([CallBody] + ([Schedule] + rest)));
    assert [RequestStep(0)] + ([Dequeue] + ([CallBody] + ([Schedule] + rest))) == ServedRequest;
  }

  /** In every run: the handler answered the requests numbered 0, 1, 2 and so on, each once and in the order they
      were queued; what it took off the queue and has not answered is at most the one it is servicing; the rest
      still waits in order. */
  lemma AnsweredOnceInOrder(refuse: bool, events: seq<Event>)
    requires Legal(refuse, Initial, events)
    ensures var s := After(refuse, Initial, events);
            && Taken(s) <= s.issued
            && (forall i :: 0 <= i < |s.replied| ==> s.replied[i] == i)
            && (Busy(s.handler) ==> s.handler.request == |s.replied|)
            && Requests(s.queue) == Numbers(Taken(s), s.issued)
  {
    RunKeeps(refuse, Initial, events);
    hide After;
  }

  /** At most one task awaits a reply, so at most one request that nobody gave up on is queued or being serviced,
      and it is the newest. */
  lemma OneRequestOutstanding(refuse: bool, events: seq<Event>, t: nat, request: nat, u: nat, other: nat)
    requires Legal(refuse, Initial, events)
    requires Awaits(After(refuse, Initial, events), t, request) && Awaits(After(refuse, Initial, events), u, other)
    ensures t == u && request == other && request + 1 == After(refuse, Initial, events).issued
  {
    RunKeeps(refuse, Initial, events);
    hide After;
  }

  // ---- the handler is never blocked on the queue --------------------------------------------------------------------

  /** The last task of a chain of waits. */
  function ChainEnd(tasks: seq<Task>, t: nat): (end: nat)
    requires t < |tasks|
    ensures end < |tasks|
    decreases |tasks| - t
  {
    if tasks[t].state.WaitingOn? && t < tasks[t].state.child < |tasks| then ChainEnd(tasks, tasks[t].state.child) else t
  }

  lemma {:induction false} ChainStaysInBody(tasks: seq<Task>, t: nat)
    requires t < |tasks| && Inherits(tasks) && WaitsBelow(tasks) && NoneNested(tasks) && tasks[t].inBody
    ensures tasks[ChainEnd(tasks, t)].state == Running || tasks[ChainEnd(tasks, t)].state == Done
    decreases |tasks| - t
  {
    if tasks[t].state.WaitingOn? {
      StartedInherits(tasks, t, tasks[t].state.child);
      ChainStaysInBody(tasks, tasks[t].state.child);
    }
  }

  /** While the handler is blocked in a step body, whatever that body finally waits for is a task that can run or
      has finished: never one that waits for the queue the handler is not reading. */
  lemma NeverBlockedOnTheQueue(events: seq<Event>)
    requires Legal(true, Initial, events)
    ensures var s := After(true, Initial, events);
            s.handler.InBody? && s.handler.op.Some? ==>
              && s.handler.op.value < |s.tasks|
              && var end := s.tasks[ChainEnd(s.tasks, s.handler.op.value)].state; end == Running || end == Done
  {
    RunUnnested(Initial, events);
    var s := After(true, Initial, events);
    if s.handler.InBody? && s.handler.op.Some? {
      ChainStaysInBody(s.tasks, s.handler.op.value);
    }
  }

  /** The handler can move, or code on the running loop that its step body waits for can. */
  ghost predicate Unblocked(s: State) {
    match s.handler
    case Returned => true
    case Suspended => true
    case Idle => s.queue != []
    case InStep(_) => Enabled(s, StepReturns(false))
    case InBody(_, op) =>
      || Enabled(s, BodyGone)
      || Enabled(s, Schedule)
      || Enabled(s, BodyReturns)
      || (op.Some? && IsTask(s, op.value) && s.loopRunning &&
          var end := ChainEnd(s.tasks, op.value);
          Enabled(s, FinishTask(end)) || exists t :: Enabled(s, Resume(t)))
  }

  /** Only an empty queue can hold the handler up. */
  lemma OnlyTheQueueHoldsTheHandler(events: seq<Event>)
    requires Legal(true, Initial, events)
    ensures var s := After(true, Initial, events);
            Unblocked(s) <==> !(s.handler.Idle? && s.queue == [])
  {
    var s := After(true, Initial, events);
    RunUnnested(Initial, events);
    NeverBlockedOnTheQueue(events);
    hide After, Legal, Unnested;
    if s.handler.InBody? && s.handler.op.Some? && s.loopRunning {
      BodyMoves(s, s.handler.op.value) by {
        UnnestedWaitsBelow(s);
      }
    }
  }

  lemma UnnestedWaitsBelow(s: State)
    requires Unnested(s)
    ensures WaitsBelow(s.tasks)
  {
  }

  lemma BodyMoves(s: State, op: nat)
    requires s.loopRunning && WaitsBelow(s.tasks) && op < |s.tasks|
    requires var end := s.tasks[ChainEnd(s.tasks, op)].state; end == Running || end == Done
    ensures s.tasks[op].state == Done || Enabled(s, FinishTask(ChainEnd(s.tasks, op)))
        || exists t :: Enabled(s, Resume(t))
  {
    if s.tasks[ChainEnd(s.tasks, op)].state == Done && s.tasks[op].state != Done {
      var t := BeforeEnd(s, op);
      assert Enabled(s, Resume(t));
    }
    hide WaitsBelow;
  }

  lemma {:induction false} BeforeEnd(s: State, t: nat) returns (waiter: nat)
    requires t < |s.tasks| && s.loopRunning && WaitsBelow(s.tasks)
    requires s.tasks[t].state != Done && s.tasks[ChainEnd(s.tasks, t)].state == Done
    ensures Enabled(s, Resume(waiter))
    decreases |s.tasks| - t
  {
    var c := s.tasks[t].state.child;
    assert Started(s.tasks, t, c);
    if s.tasks[c].state == Done {
      waiter := t;
    } else {
      waiter := BeforeEnd(s, c);
    }
  }

  // ---- tasks that wait are served ------------------------------------------------------------------------------

  /** A task that waits for its turn is among the waiters, and a reply is delivered to whoever waits for it. */
  ghost predicate Registered(s: State) {
    && (forall t: nat :: t < |s.tasks| && s.tasks[t].state.WaitingOrder? ==> t in s.waiters)
    && (forall r :: r in s.delivered ==> r in s.replied)
    && (s.holder.Some? ==> s.issued - 1 !in s.delivered)
  }

  lemma {:induction false} WithoutOthers(waiters: seq<nat>, t: nat)
    ensures forall w :: w in waiters && w != t ==> w in Without(waiters, t)
  {
    if waiters != [] {
      WithoutOthers(waiters[1..], t);
    }
  }

  lemma NotYetDelivered(s: State)
    requires Ordered(s) && Registered(s)
    ensures s.issued !in s.delivered
  {
  }

  lemma AskRegistered(s: State, t: nat, waiters: seq<nat>)
    requires Ordered(s) && Registered(s) && IsTask(s, t)
    requires forall w :: w in s.waiters && w != t ==> w in waiters
    ensures Registered(Ask(s, t).(waiters := waiters))
  {
    NotYetDelivered(s);
  }

  lemma CancelRegistered(s: State, t: nat)
    requires Registered(s) && IsTask(s, t)
    ensures Registered(Cancel(s, t))
  {
    WithoutOthers(s.waiters, t);
  }

  lemma DeliverRegistered(s: State, r: nat)
    requires Exclusive(s) && Registered(s) && r in s.replied
    ensures Registered(DeliverTo(s, r))
  {
  }

  lemma AskKeepsTurn(s: State, t: nat, e: Event)
    requires Ordered(s) && Exclusive(s) && Registered(s) && Enabled(s, e) && (e == RequestStep(t) || e == TakeTurn(t))
    ensures Registered(Step(true, s, e))
  {
    if e.TakeTurn? {
      AskRegistered(s, t, s.waiters[1..]);
    } else if !s.tasks[t].inBody && s.holder == None && s.waiters == [] {
      AskRegistered(s, t, s.waiters);
      assert Ask(s, t).(waiters := s.waiters) == Ask(s, t);
    }
  }

  lemma StepRegistered(s: State, e: Event)
    requires Ordered(s) && Exclusive(s) && Registered(s) && Enabled(s, e)
    ensures Registered(Step(true, s, e))
  {
    hide Ordered, Ask, Without, Started, Requests;
    match e
    case RequestStep(t) => AskKeepsTurn(s, t, e);
    case TakeTurn(t) => AskKeepsTurn(s, t, e);
    case CancelTask(t) => CancelRegistered(s, t);
    case Deliver(r) => DeliverRegistered(s, r);
    case _ => hide Cancel, DeliverTo;
  }

  lemma {:induction false} RunRegistered(s: State, events: seq<Event>)
    requires Legal(true, s, events) && Ordered(s) && Exclusive(s) && Registered(s)
    ensures Registered(After(true, s, events))
    decreases |events|
  {
    hide Ordered, Exclusive, Registered, Step, Enabled;
    if events != [] {
      StepOrdered(true, s, events[0]);
      StepExclusive(true, s, events[0]);
      StepRegistered(s, events[0]);
      RunRegistered(Step(true, s, events[0]), events[1..]);
    }
  }

  /** A move that brings a waiting task nearer to its turn or its reply. */
  predicate Serves(e: Event) {
    e.TakeTurn? || e.Deliver? || e.Dequeue? || e.Schedule? || e.BodyReturns? || e.StepReturns? || e.Resume?
        || e.FinishTask?
  }

  /** Whoever waits for the order lock or for a reply, on a running loop: someone can take the next turn, or the
      reply can be delivered, or the handler can move, or code its step body waits for can; unless the handler has
      left, and then the run is being cancelled. */
  lemma WaitingTasksAreServed(events: seq<Event>, t: nat)
    requires Legal(true, Initial, events)
    requires var s := After(true, Initial, events);
             s.loopRunning && IsTask(s, t) && (s.tasks[t].state.WaitingOrder? || s.tasks[t].state.WaitingReply?)
    ensures var s := After(true, Initial, events);
            s.handler.Returned? || s.handler.Suspended? || exists e :: Serves(e) && Enabled(s, e)
  {
    var s := After(true, Initial, events);
    RunKeeps(true, Initial, events);
    RunRegistered(Initial, events);
    OnlyTheQueueHoldsTheHandler(events);
    hide After, Legal, Ordered, Exclusive, Registered, Unblocked, Enabled, Serves;
    if !s.handler.Returned? && !s.handler.Suspended? {
      Served(s, t);
    }
  }

  lemma Served(s: State, t: nat)
    requires Ordered(s) && Exclusive(s) && Registered(s) && s.loopRunning
    requires Unblocked(s) || (s.handler.Idle? && s.queue == [])
    requires IsTask(s, t) && (s.tasks[t].state.WaitingOrder? || s.tasks[t].state.WaitingReply?)
    requires !s.handler.Returned? && !s.handler.Suspended?
    ensures exists e :: Serves(e) && Enabled(s, e)
  {
    if s.holder.None? {
      TurnIsFree(s, t);
    } else if s.issued - 1 in s.replied {
      assert Serves(Deliver(s.issued - 1)) && Enabled(s, Deliver(s.issued - 1));
    } else if s.handler.Idle? {
      IdleHasWork(s);
      assert Serves(Dequeue) && Enabled(s, Dequeue);
    } else {
      BusyMoves(s);
    }
  }

  lemma TurnIsFree(s: State, t: nat)
    requires Exclusive(s) && Registered(s) && s.loopRunning && s.holder.None?
    requires IsTask(s, t) && (s.tasks[t].state.WaitingOrder? || s.tasks[t].state.WaitingReply?)
    ensures exists e :: Serves(e) && Enabled(s, e)
  {
    assert t in s.waiters;
    assert Serves(TakeTurn(s.waiters[0])) && Enabled(s, TakeTurn(s.waiters[0]));
  }

  lemma IdleHasWork(s: State)
    requires Ordered(s) && s.handler.Idle? && s.issued > 0 && s.issued - 1 !in s.replied
    ensures s.queue != []
  {
    AnsweredAre(s.replied, s.issued - 1);
    assert |Requests(s.queue)| == s.issued - |s.replied|;
  }

  lemma AnsweredAre(replied: seq<nat>, r: nat)
    requires replied == Numbers(0, |replied|)
    ensures r < |replied| ==> r in replied
  {
    if r < |replied| {
      assert replied[r] == r;
    }
  }

  lemma BusyMoves(s: State)
    requires Unblocked(s) && s.loopRunning && Busy(s.handler)
    ensures exists e :: Serves(e) && Enabled(s, e)
  {
    if s.handler.InStep? {
      assert Enabled(s, StepReturns(false)) && Serves(StepReturns(false));
    } else if s.handler.op.None? {
      assert Enabled(s, Schedule) && Serves(Schedule);
    } else if Enabled(s, BodyReturns) {
      assert Serves(BodyReturns);
    } else {
      var end := ChainEnd(s.tasks, s.handler.op.value);
      if Enabled(s, FinishTask(end)) {
        assert Serves(FinishTask(end));
      } else {
        var u :| Enabled(s, Resume(u));
        assert Serves(Resume(u));
      }
    }
  }

  /** Once the loop has stopped, nothing moves any more exactly when the handler is done, or waits on an empty
      queue: `consume` has no liveness check there, so an invocation whose loop stops between two steps hangs. */
  lemma StoppedLoopIsFinal(s: State)
    requires !s.loopRunning
    ensures (forall e :: !Enabled(s, e)) <==>
            s.handler.Returned? || s.handler.Suspended? || (s.handler.Idle? && s.queue == [])
  {
    if s.handler.InBody? {
      assert Enabled(s, BodyGone);
    }
    if s.handler.InStep? {
      assert Enabled(s, CallBody);
    }
    if s.handler.Idle? && s.queue != [] {
      assert Enabled(s, Dequeue);
    }
  }

  /** After the loop stopped the handler leaves the step body it is in with its next move and enters none again, and no
      task moves and nothing is asked any more. */
  lemma StoppedLoopRunsNoBody(refuse: bool, s: State, e: Event)
    requires !s.loopRunning && Enabled(s, e)
    ensures var s' := Step(refuse, s, e);
            && !s'.loopRunning && s'.tasks == s.tasks && s'.issued == s.issued && !s'.handler.InBody?
            && (s.handler.InBody? ==> s' == s.(handler := InStep(s.handler.request)))
  {
    hide Without, Started;
  }

  /** Such a stop is reachable. */
  lemma StopStrandsIdleHandler(refuse: bool)
    ensures Legal(refuse, Initial, [StopLoop])
    ensures var s := After(refuse, Initial, [StopLoop]); s.handler.Idle? && forall e :: !Enabled(s, e)
  {
    var s := Step(refuse, Initial, StopLoop);
    assert [StopLoop][1..] == [];
    assert Legal(refuse, s, []);
    StoppedLoopIsFinal(s);
  }

  // ---- without the refusal ----------------------------------------------------------------------------------------

  /** The handler runs the operation of task 1, which waits behind the request the handler is servicing. */
  ghost predicate Wedged(s: State) {
    && s.handler == InBody(0, Some(1)) && s.replied == [] && s.holder == Some(0)
    && In(s, 0, WaitingReply(0)) && In(s, 1, WaitingOrder)
    && s.loopRunning && Exclusive(s)
  }

  predicate EndsNothing(e: Event) {
    e != CancelTask(0) && e != CancelTask(1) && e != StopLoop
  }

  const NestedRequest: seq<Event> := [RequestStep(0), Dequeue, CallBody, Schedule, RequestStep(1)]

  /** If nested requests were queued instead of refused, a step body that asks for a step would block the handler
      for good: only a cancellation of one of the two tasks, or the loop stopping, ends it. */
  lemma NestingWedges()
    ensures Legal(false, Initial, NestedRequest) && Wedged(After(false, Initial, NestedRequest))
    ensures forall s, e :: Wedged(s) && Enabled(s, e) && EndsNothing(e) ==> Wedged(Step(false, s, e))
  {
    var s1 := Step(false, Initial, RequestStep(0));
    var s2 := Step(false, s1, Dequeue);
    var s3 := Step(false, s2, CallBody);
    var s4 := Step(false, s3, Schedule);
    NestedStates();
    hide Step, Enabled, Wedged;
    Unfold(false, s4, RequestStep(1), []);
    Unfold(false, s3, Schedule, [RequestStep(1)]);
    Unfold(false, s2, CallBody, [Schedule, RequestStep(1)]);
    Unfold(false, s1, Dequeue, [CallBody, Schedule, RequestStep(1)]);
    Unfold(false, Initial, RequestStep(0), [Dequeue, CallBody, Schedule, RequestStep(1)]);
    assert [RequestStep(0)] + [Dequeue, CallBody, Schedule, RequestStep(1)] == NestedRequest;
    forall s, e | Wedged(s) && Enabled(s, e) && EndsNothing(e) ensures Wedged(Step(false, s, e)) {
      WedgedStep(s, e);
    }
  }

  lemma NestedStates()
    ensures Enabled(Initial, RequestStep(0))
    ensures var s1 := Step(false, Initial, RequestStep(0));
            && Enabled(s1, Dequeue)
            && var s2 := Step(false, s1, Dequeue);
            && Enabled(s2, CallBody)
            && var s3 := Step(false, s2, CallBody);
            && Enabled(s3, Schedule)
            && var s4 := Step(false, s3, Schedule);
            && Enabled(s4, RequestStep(1)) && Wedged(Step(false, s4, RequestStep(1)))
  {
  }

  lemma Unfold(refuse: bool, s: State, e: Event, rest: seq<Event>)
    requires Enabled(s, e) && Legal(refuse, Step(refuse, s, e), rest)
    ensures Legal(refuse, s, [e] + rest)
    ensures After(refuse, s, [e] + rest) == After(refuse, Step(refuse, s, e), rest)
  {
    assert ([e] + rest)[1..] == rest;
  }

  lemma WedgedStep(s: State, e: Event)
    requires Wedged(s) && Enabled(s, e) && EndsNothing(e)
    ensures Wedged(Step(false, s, e))
  {
    StepExclusive(false, s, e);
  }
}
