/** The bridge between the handler thread, which may create durable steps, and the agent loop, whose tasks ask for
    them. A state is what the queue, the order lock, the handler and the loop's tasks look like; an event is one
    atomic move of one of them. */
module StepBridge {
  import opened Options

  /** What a loop task is doing. It may wait for its turn to ask, for the reply to its request, or for a task. */
  datatype TaskState = Running | WaitingOrder | WaitingReply(request: nat) | WaitingOn(child: nat) | Done

  /** `inBody` is the context flag a step's operation runs under, inherited by the tasks it starts. */
  datatype Task = Task(inBody: bool, parent: Option<nat>, state: TaskState)

  datatype Item = Request(id: nat) | Finished

  /** The handler waits on the queue, runs the SDK's step code, or is blocked in a step body on `op`, which is
      `None` until the loop has created the operation's task. */
  datatype Handler = Idle | InStep(request: nat) | InBody(request: nat, op: Option<nat>) | Returned | Suspended

  datatype State = State(
    tasks: seq<Task>,
    holder: Option<nat>,
    waiters: seq<nat>,
    queue: seq<Item>,
    issued: nat,
    handler: Handler,
    replied: seq<nat>,
    delivered: set<nat>,
    loopRunning: bool)

  datatype Event =
    | Spawn(task: nat)
    | Wait(task: nat, child: nat)
    | Resume(task: nat)
    | FinishTask(task: nat)
    | RequestStep(task: nat)
    | TakeTurn(task: nat)
    | CancelTask(task: nat)
    | Deliver(request: nat)
    | Dequeue
    | CallBody
    | Schedule
    | BodyReturns
    | BodyGone
    | StepReturns(suspends: bool)
    | StopLoop

  /** The root task is the agent run. */
  const Initial := State([Task(false, None, Running)], None, [], [], 0, Idle, [], {}, true)

  predicate IsTask(s: State, t: nat) {
    t < |s.tasks|
  }

  predicate In(s: State, t: nat, state: TaskState) {
    IsTask(s, t) && s.tasks[t].state == state
  }

  /** `t` started `c`, directly or through tasks it started. */
  predicate Started(tasks: seq<Task>, t: nat, c: nat)
    decreases c
  {
    c < |tasks| && t < c && tasks[c].parent.Some? &&
    (tasks[c].parent.value == t || (tasks[c].parent.value < c && Started(tasks, t, tasks[c].parent.value)))
  }

  function SetState(s: State, t: nat, state: TaskState): State
    requires IsTask(s, t)
  {
    s.(tasks := s.tasks[t := s.tasks[t].(state := state)])
  }

  /** The lock is taken, the request queued, and the task waits for the reply. */
  function Ask(s: State, t: nat): State
    requires IsTask(s, t)
  {
    SetState(s, t, WaitingReply(s.issued)).(
      holder := Some(t), queue := s.queue + [Request(s.issued)], issued := s.issued + 1)
  }

  function Without(waiters: seq<nat>, t: nat): seq<nat> {
    if waiters == [] then [] else (if waiters[0] == t then [] else [waiters[0]]) + Without(waiters[1..], t)
  }

  /** `refuse` is whether a request from inside a step body is refused, as `run_step` does. */
  predicate Enabled(s: State, e: Event) {
    match e
    case Spawn(t) => s.loopRunning && In(s, t, Running)
    case Wait(t, c) => s.loopRunning && In(s, t, Running) && Started(s.tasks, t, c)
    case Resume(t) =>
      s.loopRunning && IsTask(s, t) && s.tasks[t].state.WaitingOn? && In(s, s.tasks[t].state.child, Done)
    case FinishTask(t) => s.loopRunning && In(s, t, Running)
    case RequestStep(t) => s.loopRunning && In(s, t, Running)
    case TakeTurn(t) => s.loopRunning && s.holder == None && s.waiters != [] && s.waiters[0] == t && IsTask(s, t)
    case CancelTask(t) => s.loopRunning && IsTask(s, t) && s.tasks[t].state != Done
    case Deliver(r) => s.loopRunning && r in s.replied && r !in s.delivered
    case Dequeue => s.handler.Idle? && s.queue != []
    case CallBody => s.handler.InStep?
    case Schedule => s.loopRunning && s.handler.InBody? && s.handler.op.None?
    case BodyReturns => s.handler.InBody? && s.handler.op.Some? && In(s, s.handler.op.value, Done)
    case BodyGone => s.handler.InBody? && !s.loopRunning
    case StepReturns(_) => s.handler.InStep?
    case StopLoop => s.loopRunning
  }

  /** Cancelling a waiting task takes it out of whatever it waits in; its request, if any, stays queued. */
  function Cancel(s: State, t: nat): State
    requires IsTask(s, t)
  {
    var s' := SetState(s, t, Running);
    match s.tasks[t].state
    case WaitingOrder => s'.(waiters := Without(s.waiters, t))
    case WaitingReply(_) => s'.(holder := None)
    case _ => s'
  }

  predicate Awaits(s: State, t: nat, request: nat) {
    In(s, t, WaitingReply(request))
  }

  function DeliverTo(s: State, r: nat): State {
    var s' := s.(delivered := s.delivered + {r});
    if s.holder.Some? && Awaits(s, s.holder.value, r) then SetState(s', s.holder.value, Running).(holder := None)
    else s'
  }

  function Step(refuse: bool, s: State, e: Event): State
    requires Enabled(s, e)
  {
    match e
    case Spawn(t) => s.(tasks := s.tasks + [Task(s.tasks[t].inBody, Some(t), Running)])
    case Wait(t, c) => SetState(s, t, WaitingOn(c))
    case Resume(t) => SetState(s, t, Running)
    case FinishTask(t) =>
      var s' := SetState(s, t, Done);
      if t == 0 then s'.(queue := s.queue + [Finished]) else s'
    case RequestStep(t) =>
      if refuse && s.tasks[t].inBody then s
      else if s.holder == None && s.waiters == [] then Ask(s, t)
      else SetState(s, t, WaitingOrder).(waiters := s.waiters + [t])
    case TakeTurn(t) => Ask(s, t).(waiters := s.waiters[1..])
    case CancelTask(t) => Cancel(s, t)
    case Deliver(r) => DeliverTo(s, r)
    case Dequeue =>
      s.(queue := s.queue[1..], handler := if s.queue[0].Finished? then Returned else InStep(s.queue[0].id))
    case CallBody => if s.loopRunning then s.(handler := InBody(s.handler.request, None)) else s
    case Schedule =>
      s.(tasks := s.tasks + [Task(true, None, Running)],
         handler := InBody(s.handler.request, Some(|s.tasks|)))
    case BodyReturns => s.(handler := InStep(s.handler.request))
    case BodyGone => s.(handler := InStep(s.handler.request))
    case StepReturns(suspends) =>
      s.(replied := s.replied + [s.handler.request], handler := if suspends then Suspended else Idle)
    case StopLoop => s.(loopRunning := false)
  }

  ghost predicate Legal(refuse: bool, s: State, events: seq<Event>)
    decreases |events|
  {
    events == [] || (Enabled(s, events[0]) && Legal(refuse, Step(refuse, s, events[0]), events[1..]))
  }

  ghost function After(refuse: bool, s: State, events: seq<Event>): State
    requires Legal(refuse, s, events)
    decreases |events|
  {
    if events == [] then s else After(refuse, Step(refuse, s, events[0]), events[1..])
  }

  // ---- the queue: in order, one reply each --------------------------------------------------------------------

  function Requests(queue: seq<Item>): seq<nat> {
    if queue == [] then [] else (if queue[0].Request? then [queue[0].id] else []) + Requests(queue[1..])
  }

  lemma {:induction false} RequestsConcat(a: seq<Item>, b: seq<Item>)
    ensures Requests(a + b) == Requests(a) + Requests(b)
  {
    if a == [] {
      assert a + b == b;
    } else {
      var first := if a[0].Request? then [a[0].id] else [];
      assert (a + b)[0] == a[0] && (a + b)[1..] == a[1..] + b;
      RequestsConcat(a[1..], b);
      assert Requests(a + b) == first + (Requests(a[1..]) + Requests(b));
    }
  }

  /** The requests from number `from` up to `to`, in the order they were queued. */
  function Numbers(from: nat, to: nat): (ns: seq<nat>)
    requires from <= to
    ensures |ns| == to - from && forall i :: 0 <= i < |ns| ==> ns[i] == from + i
  {
    seq(to - from, i requires 0 <= i < to - from => from + i)
  }

  predicate Busy(h: Handler) {
    h.InStep? || h.InBody?
  }

  /** How many requests the handler has taken off the queue. */
  function Taken(s: State): nat {
    |s.replied| + if Busy(s.handler) then 1 else 0
  }

  ghost predicate Ordered(s: State) {
    && Taken(s) <= s.issued
    && Requests(s.queue) == Numbers(Taken(s), s.issued)
    && s.replied == Numbers(0, |s.replied|)
    && (Busy(s.handler) ==> s.handler.request == |s.replied|)
  }

  lemma AskOrdered(s: State, t: nat)
    requires Ordered(s) && IsTask(s, t)
    ensures Ordered(Ask(s, t))
  {
    RequestsConcat(s.queue, [Request(s.issued)]);
    hide Requests;
    assert Requests([Request(s.issued)]) == [s.issued] by {
      OneRequest(s.issued);
    }
  }

  lemma OneRequest(r: nat)
    ensures Requests([Request(r)]) == [r] && Requests([Finished]) == []
  {
    assert [Request(r)][1..] == [] && [Finished][1..] == [];
  }

  lemma DequeueOrdered(refuse: bool, s: State)
    requires Ordered(s) && Enabled(s, Dequeue)
    ensures Ordered(Step(refuse, s, Dequeue))
  {
    if s.queue[0].Request? {
      assert Requests(s.queue)[0] == s.queue[0].id;
      assert Requests(s.queue)[1..] == Requests(s.queue[1..]);
    }
  }

  lemma FinishOrdered(refuse: bool, s: State, t: nat)
    requires Ordered(s) && Enabled(s, FinishTask(t))
    ensures Ordered(Step(refuse, s, FinishTask(t)))
  {
    RequestsConcat(s.queue, [Finished]);
    OneRequest(0);
    hide Requests;
  }

  lemma ReplyOrdered(refuse: bool, s: State, suspends: bool)
    requires Ordered(s) && Enabled(s, StepReturns(suspends))
    ensures Ordered(Step(refuse, s, StepReturns(suspends)))
  {
    hide Requests;
  }

  lemma StepOrdered(refuse: bool, s: State, e: Event)
    requires Ordered(s) && Enabled(s, e)
    ensures Ordered(Step(refuse, s, e))
  {
    hide Requests, Numbers, Without, Ask;
    match e
    case FinishTask(t) => FinishOrdered(refuse, s, t);
    case RequestStep(t) => AskOrdered(s, t);
    case TakeTurn(t) => AskOrdered(s, t);
    case Dequeue => DequeueOrdered(refuse, s);
    case StepReturns(suspends) => ReplyOrdered(refuse, s, suspends);
    case _ =>
  }

  // ---- the lock: one uncancelled request at a time ----------------------------------------------------------------

  ghost predicate Exclusive(s: State) {
    && (s.holder.Some? ==> s.issued > 0 && Awaits(s, s.holder.value, s.issued - 1))
    && (forall t: nat :: t < |s.tasks| && s.tasks[t].state.WaitingReply? ==> s.holder == Some(t))
    && (forall i :: 0 <= i < |s.waiters| ==> In(s, s.waiters[i], WaitingOrder))
    && (forall i, j :: 0 <= i < j < |s.waiters| ==> s.waiters[i] != s.waiters[j])
  }

  lemma {:induction false} WithoutKeeps(waiters: seq<nat>, t: nat)
    ensures forall w :: w in Without(waiters, t) ==> w in waiters && w != t
    ensures (forall i, j :: 0 <= i < j < |waiters| ==> waiters[i] != waiters[j]) ==>
              forall i, j :: 0 <= i < j < |Without(waiters, t)| ==> Without(waiters, t)[i] != Without(waiters, t)[j]
  {
    if waiters != [] {
      WithoutKeeps(waiters[1..], t);
      var rest := Without(waiters[1..], t);
      forall i | 0 <= i < |rest| && (forall i, j :: 0 <= i < j < |waiters| ==> waiters[i] != waiters[j])
        ensures rest[i] != waiters[0]
      {
        var w := rest[i];
        assert w in rest;
        var k :| 0 <= k < |waiters[1..]| && waiters[1..][k] == w;
        assert waiters[k + 1] == w;
      }
    }
  }

  lemma AskExclusive(s: State, t: nat, waiters: seq<nat>)
    requires Exclusive(s) && IsTask(s, t) && s.holder == None
    requires (waiters == s.waiters && t !in s.waiters)
        || (s.waiters != [] && s.waiters[0] == t && waiters == s.waiters[1..])
    ensures Exclusive(Ask(s, t).(waiters := waiters))
  {
    forall i | 0 <= i < |waiters| ensures waiters[i] != t && In(s, waiters[i], WaitingOrder) {
      assert waiters[i] in waiters;
    }
  }

  lemma RequestExclusive(refuse: bool, s: State, t: nat)
    requires Exclusive(s) && Enabled(s, RequestStep(t))
    ensures Exclusive(Step(refuse, s, RequestStep(t)))
  {
    if !(refuse && s.tasks[t].inBody) && s.holder == None && s.waiters == [] {
      AskExclusive(s, t, []);
      hide Exclusive, Ask;
      assert Ask(s, t).(waiters := []) == Ask(s, t) by {
        AskKeepsWaiters(s, t);
      }
    }
  }

  lemma AskKeepsWaiters(s: State, t: nat)
    requires IsTask(s, t)
    ensures Ask(s, t).waiters == s.waiters
  {
  }

  lemma SetExclusive(s: State, t: nat, state: TaskState)
    requires Exclusive(s) && IsTask(s, t) && (state.Running? || state.WaitingOn? || state.Done?)
    requires !s.tasks[t].state.WaitingOrder?
    ensures Exclusive(SetState(s, t, state).(holder := if s.holder == Some(t) then None else s.holder))
  {
  }

  lemma NewTaskExclusive(s: State, task: Task)
    requires Exclusive(s) && task.state == Running
    ensures Exclusive(s.(tasks := s.tasks + [task]))
  {
  }

  lemma SameExclusive(s: State, s': State)
    requires Exclusive(s) && s'.tasks == s.tasks && s'.holder == s.holder && s'.waiters == s.waiters
        && s'.issued == s.issued
    ensures Exclusive(s')
  {
  }

  lemma NotHolding(s: State, t: nat)
    requires Exclusive(s) && IsTask(s, t) && !s.tasks[t].state.WaitingReply?
    ensures s.holder != Some(t)
  {
  }

  lemma DeliverExclusive(s: State, r: nat)
    requires Exclusive(s)
    ensures Exclusive(DeliverTo(s, r))
  {
    if s.holder.Some? && Awaits(s, s.holder.value, r) {
      SetExclusive(s.(delivered := s.delivered + {r}), s.holder.value, Running);
    }
  }

  lemma StepExclusive(refuse: bool, s: State, e: Event)
    requires Exclusive(s) && Enabled(s, e)
    ensures Exclusive(Step(refuse, s, e))
  {
    hide Exclusive, Ask, Without, DeliverTo, Cancel;
    match e
    case Spawn(t) => NewTaskExclusive(s, Task(s.tasks[t].inBody, Some(t), Running));
    case Schedule => ScheduleExclusive(refuse, s);
    case Wait(t, c) =>
      NotHolding(s, t);
      SetExclusive(s, t, WaitingOn(c));
    case Resume(t) =>
      NotHolding(s, t);
      SetExclusive(s, t, Running);
    case FinishTask(t) => FinishExclusive(refuse, s, t);
    case RequestStep(t) => RequestExclusive(refuse, s, t);
    case TakeTurn(t) => AskExclusive(s, t, s.waiters[1..]);
    case CancelTask(t) => CancelExclusive(s, t);
    case Deliver(r) => DeliverExclusive(s, r);
    case _ => SameExclusive(s, Step(refuse, s, e));
  }

  lemma ScheduleExclusive(refuse: bool, s: State)
    requires Exclusive(s) && Enabled(s, Schedule)
    ensures Exclusive(Step(refuse, s, Schedule))
  {
    NewTaskExclusive(s, Task(true, None, Running));
  }

  lemma FinishExclusive(refuse: bool, s: State, t: nat)
    requires Exclusive(s) && Enabled(s, FinishTask(t))
    ensures Exclusive(Step(refuse, s, FinishTask(t)))
  {
    hide Exclusive;
    NotHolding(s, t);
    SetExclusive(s, t, Done);
    SameExclusive(SetState(s, t, Done), Step(refuse, s, FinishTask(t)));
  }

  lemma CancelExclusive(s: State, t: nat)
    requires Exclusive(s) && Enabled(s, CancelTask(t))
    ensures Exclusive(Cancel(s, t))
  {
    var s' := Cancel(s, t);
    WithoutKeeps(s.waiters, t);
    forall i | 0 <= i < |s'.waiters| ensures In(s', s'.waiters[i], WaitingOrder) {
      var w := s'.waiters[i];
      assert w in s'.waiters;
      assert w in s.waiters;
    }
  }
}
