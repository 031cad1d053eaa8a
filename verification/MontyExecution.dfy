/** Driving a sandboxed snippet to completion: the executor answers each suspension of the sandbox, defers
    calls as tasks or bare coroutines, and settles them at a barrier or when the sandbox asks.
    The sandbox is a deterministic function of the payloads it was resumed with. */
module MontyExecution {
  import opened Options

  datatype Outcome = Returned(value: string) | Raised(error: string)

  datatype Snapshot =
    | NameLookup
    | Function(callId: int, name: string, kwargs: string, positional: bool, os: bool)
    | Future(ids: seq<int>)
    | Complete(output: string)
    | Aborted(error: string)

  /** What `resume` is called with. */
  datatype Resume =
    | Undefined
    | Auto
    | Answer(outcome: Outcome)
    | Deferred
    | Results(results: map<int, Outcome>)

  type Sandbox = seq<Resume> -> Snapshot

  /** The dispatch callback: a call's outcome depends on its name and arguments only, and a call may be refused
      before its coroutine exists, depending on how many were accepted. */
  datatype Host = Host(
    valid: set<string>,
    sequential: set<string>,
    outcome: (string, string) -> Outcome,
    refuses: nat -> Option<string>)

  /** The answer given without dispatching, if any. */
  function Rejection(host: Host, call: Snapshot): Option<Resume>
    requires call.Function?
  {
    if call.os then Some(Auto)
    else if call.name !in host.valid then Some(Answer(Raised("NameError: Unknown function: " + call.name)))
    else if call.positional then
      Some(Answer(Raised("TypeError: " + call.name + "() does not accept positional arguments; use keyword arguments")))
    else None
  }

  /** What answers a call, after so many accepted ones. An operating-system call is left to the sandbox. A name that is
      not offered and positional arguments are errors at the call site. What is left is dispatched unless the host
      refuses it; a sequential call gets its outcome at once, any other is deferred. */
  ghost predicate AnswersCall(host: Host, call: Snapshot, accepted: nat, payload: Resume)
    requires call.Function?
  {
    var wellFormed := call.name in host.valid && !call.positional;
    && (payload == Auto <==> call.os)
    && (payload == Deferred <==>
          !call.os && wellFormed && call.name !in host.sequential && host.refuses(accepted).None?)
    && (!call.os && call.name !in host.valid ==>
          payload == Answer(Raised("NameError: Unknown function: " + call.name)))
    && (!call.os && call.name in host.valid && call.positional ==>
          payload == Answer(Raised(
            "TypeError: " + call.name + "() does not accept positional arguments; use keyword arguments")))
    && (!call.os && wellFormed && host.refuses(accepted).Some? ==>
          payload == Answer(Raised(host.refuses(accepted).value)))
    && (!call.os && wellFormed && host.refuses(accepted).None? && call.name in host.sequential ==>
          payload == Answer(host.outcome(call.name, call.kwargs)))
  }

  // ---- the reference: every call settled where it is made -------------------------------------

  datatype Ref = Ref(history: seq<Resume>, owed: map<int, Outcome>, used: set<int>, accepted: nat)

  const RefStart := Ref([], map[], {}, 0)

  function RefDispatch(host: Host, r: Ref, call: Snapshot): Ref
    requires call.Function?
  {
    match host.refuses(r.accepted)
    case Some(error) => r.(history := r.history + [Answer(Raised(error))])
    case None =>
      var outcome := host.outcome(call.name, call.kwargs);
      var taken := r.(used := r.used + {call.callId}, accepted := r.accepted + 1);
      if call.name in host.sequential then taken.(history := r.history + [Answer(outcome)])
      else taken.(history := r.history + [Deferred], owed := r.owed[call.callId := outcome])
  }

  function RefResults(r: Ref, ids: seq<int>): map<int, Outcome> {
    map id | id in ids && id in r.owed :: r.owed[id]
  }

  function RefStep(sandbox: Sandbox, host: Host, r: Ref): Ref {
    match sandbox(r.history)
    case NameLookup => r.(history := r.history + [Undefined])
    case Function(_, _, _, _, _) =>
      var call := sandbox(r.history);
      var rejection := Rejection(host, call);
      if rejection.Some? then r.(history := r.history + [rejection.value]) else RefDispatch(host, r, call)
    case Future(ids) =>
      r.(history := r.history + [Results(RefResults(r, ids))], owed := r.owed - (set id | id in ids))
    case Complete(_) => r
    case Aborted(_) => r
  }

  function RefRun(sandbox: Sandbox, host: Host, steps: nat): Ref {
    if steps == 0 then RefStart else RefStep(sandbox, host, RefRun(sandbox, host, steps - 1))
  }

  ghost predicate Distinct<T>(items: seq<T>) {
    forall i, j :: 0 <= i < j < |items| ==> items[i] != items[j]
  }

  /** What the executor relies on the sandbox for: call ids are fresh, and a future snapshot names
      distinct calls that were deferred and not delivered yet. */
  ghost predicate AsksProperly(sandbox: Sandbox, r: Ref) {
    match sandbox(r.history)
    case Function(id, _, _, _, _) => id !in r.used
    case Future(ids) => Distinct(ids) && (forall id :: id in ids ==> id in r.owed)
    case _ => true
  }

  ghost predicate SandboxContract(sandbox: Sandbox, host: Host) {
    forall steps: nat :: AsksProperly(sandbox, RefRun(sandbox, host, steps))
  }

  // ---- the executor ---------------------------------------------------------------------------

  /** A dispatched call's body: not started, running, settled, or cancelled before it settled. */
  datatype Status = Bare | Running | Settled | Dropped

  datatype Body = Body(outcome: Outcome, status: Status)

  datatype Exit = Output(value: string) | Error(error: string) | Interrupted

  datatype Phase =
    | Driving
    | Barrier(awaited: int)
    | Inline(callId: int)
    | Collecting(next: nat, results: map<int, Outcome>)
    | AwaitingOne(next: nat, results: map<int, Outcome>, cid: int)
    | Gathering(results: map<int, Outcome>)
    | Interrupting(waitFor: set<int>)
    | Cleaning(exit: Exit)
    | Exited(exit: Exit)

  /** `pending` and `preResolved` are the executor's two tables; `pending` keeps insertion order. */
  datatype State = State(
    history: seq<Resume>,
    accepted: nat,
    bodies: map<int, Body>,
    pending: seq<int>,
    preResolved: map<int, Outcome>,
    phase: Phase)

  const Start := State([], 0, map[], [], map[], Driving)

  datatype Setup = Setup(sandbox: Sandbox, host: Host, globalSequential: bool)

  datatype Event = Advance | Settles(id: int) | Cancel | Unwinds(id: int)

  function With(s: State, id: int, status: Status): map<int, Body>
    requires id in s.bodies
  {
    s.bodies[id := s.bodies[id].(status := status)]
  }

  predicate IsSettled(s: State, id: int) {
    id in s.bodies && s.bodies[id].status.Settled?
  }

  function Remove(ids: seq<int>, id: int): seq<int> {
    if ids == [] then [] else if ids[0] == id then ids[1..] else [ids[0]] + Remove(ids[1..], id)
  }

  function Without(ids: seq<int>, gone: set<int>): seq<int> {
    if ids == [] then [] else (if ids[0] in gone then [] else [ids[0]]) + Without(ids[1..], gone)
  }

  /** Awaiting a bare coroutine starts it. */
  function Started(s: State, id: int): map<int, Body>
    requires id in s.bodies
  {
    if s.bodies[id].status.Bare? then With(s, id, Running) else s.bodies
  }

  /** The barrier's loop head: pop and await the next pending call, or dispatch the sequential one. */
  function BarrierTurn(u: Setup, s: State, call: Snapshot): State
    requires call.Function?
  {
    if s.pending != [] && s.pending[0] in s.bodies then
      s.(bodies := Started(s, s.pending[0]), pending := s.pending[1..], phase := Barrier(s.pending[0]))
    else
      match u.host.refuses(s.accepted)
      case Some(error) => s.(history := s.history + [Answer(Raised(error))], phase := Driving)
      case None =>
        s.(accepted := s.accepted + 1,
           bodies := s.bodies[call.callId := Body(u.host.outcome(call.name, call.kwargs), Running)],
           phase := Inline(call.callId))
  }

  function Defer(u: Setup, s: State, call: Snapshot): State
    requires call.Function?
  {
    match u.host.refuses(s.accepted)
    case Some(error) => s.(history := s.history + [Answer(Raised(error))])
    case None =>
      var status := if u.globalSequential then Bare else Running;
      s.(accepted := s.accepted + 1,
         bodies := s.bodies[call.callId := Body(u.host.outcome(call.name, call.kwargs), status)],
         pending := s.pending + [call.callId],
         history := s.history + [Deferred])
  }

  function Drive(u: Setup, s: State): State {
    match u.sandbox(s.history)
    case NameLookup => s.(history := s.history + [Undefined])
    case Function(_, _, _, _, _) =>
      var call := u.sandbox(s.history);
      var rejection := Rejection(u.host, call);
      if rejection.Some? then s.(history := s.history + [rejection.value])
      else if call.name in u.host.sequential then BarrierTurn(u, s, call)
      else Defer(u, s, call)
    case Future(_) => s.(phase := Collecting(0, map[]))
    case Complete(output) => BeginCleaning(s, Output(output))
    case Aborted(error) => BeginCleaning(s, Error(error))
  }

  function Collect(u: Setup, s: State, ids: seq<int>): State
    requires s.phase.Collecting? && s.phase.next <= |ids|
  {
    var Collecting(next, results) := s.phase;
    if next < |ids| then
      var cid := ids[next];
      if cid in s.preResolved then
        s.(preResolved := s.preResolved - {cid}, phase := Collecting(next + 1, results[cid := s.preResolved[cid]]))
      else if u.globalSequential && cid in s.pending && cid in s.bodies then
        s.(bodies := Started(s, cid), pending := Remove(s.pending, cid), phase := AwaitingOne(next, results, cid))
      else s.(phase := Collecting(next + 1, results))
    else if forall id :: id in ids ==> id in results then
      s.(history := s.history + [Results(results)], phase := Driving)
    else s.(phase := Gathering(results))
  }

  function Gathered(s: State, ids: seq<int>): map<int, Outcome>
    requires s.phase.Gathering?
  {
    map id | id in ids && (id in s.phase.results || id in s.bodies) ::
      if id in s.phase.results then s.phase.results[id] else s.bodies[id].outcome
  }

  /** The executor's next step, when what it awaits has settled. */
  predicate CanAdvance(u: Setup, s: State) {
    match s.phase
    case Driving => true
    case Barrier(awaited) => IsSettled(s, awaited) && u.sandbox(s.history).Function?
    case Inline(id) => IsSettled(s, id)
    case Collecting(next, _) => u.sandbox(s.history).Future? && next <= |u.sandbox(s.history).ids|
    case AwaitingOne(_, _, cid) => IsSettled(s, cid)
    case Gathering(results) =>
      u.sandbox(s.history).Future? && forall id :: id in u.sandbox(s.history).ids ==> id in results || IsSettled(s, id)
    case Interrupting(waitFor) => forall id :: id in waitFor ==> id in s.bodies ==> !s.bodies[id].status.Running?
    case Cleaning(_) => forall id :: id in s.pending ==> id in s.bodies ==> !s.bodies[id].status.Running?
    case Exited(_) => false
  }

  function AdvanceStep(u: Setup, s: State): State
    requires CanAdvance(u, s)
  {
    match s.phase
    case Driving => Drive(u, s)
    case Barrier(awaited) =>
      BarrierTurn(u, s.(preResolved := s.preResolved[awaited := s.bodies[awaited].outcome]), u.sandbox(s.history))
    case Inline(id) => s.(history := s.history + [Answer(s.bodies[id].outcome)], phase := Driving)
    case Collecting(_, _) => Collect(u, s, u.sandbox(s.history).ids)
    case AwaitingOne(next, results, cid) => s.(phase := Collecting(next + 1, results[cid := s.bodies[cid].outcome]))
    case Gathering(results) =>
      var ids := u.sandbox(s.history).ids;
      s.(history := s.history + [Results(Gathered(s, ids))],
         pending := Without(s.pending, (set id | id in ids) - results.Keys),
         phase := Driving)
    case Interrupting(_) => BeginCleaning(s, Interrupted)
    case Cleaning(exit) => s.(phase := Exited(exit))
  }

  /** The `finally` block: running tasks get a cancellation and are awaited, bare coroutines are closed. */
  function BeginCleaning(s: State, exit: Exit): State {
    s.(bodies := map id | id in s.bodies ::
         if id in s.pending && s.bodies[id].status.Bare? then s.bodies[id].(status := Dropped) else s.bodies[id],
       phase := Cleaning(exit))
  }

  /** What the executor is suspended on, which a cancellation of the run is passed on to. */
  function Awaited(u: Setup, s: State): set<int> {
    match s.phase
    case Barrier(awaited) => {awaited}
    case Inline(id) => {id}
    case AwaitingOne(_, _, cid) => {cid}
    case Gathering(results) =>
      if u.sandbox(s.history).Future? then (set id | id in u.sandbox(s.history).ids && id !in results) else {}
    case _ => {}
  }

  ghost predicate Enabled(u: Setup, s: State, e: Event) {
    match e
    case Advance => CanAdvance(u, s)
    case Settles(id) => id in s.bodies && s.bodies[id].status.Running?
    case Cancel => Awaited(u, s) != {}
    case Unwinds(id) =>
      && id in s.bodies && s.bodies[id].status.Running?
      && ((s.phase.Interrupting? && id in s.phase.waitFor) || (s.phase.Cleaning? && id in s.pending))
  }

  function Step(u: Setup, s: State, e: Event): State
    requires e.Advance? ==> CanAdvance(u, s)
    requires e.Settles? || e.Unwinds? ==> e.id in s.bodies
  {
    match e
    case Advance => AdvanceStep(u, s)
    case Settles(id) => s.(bodies := With(s, id, Settled))
    case Cancel => s.(phase := Interrupting(Awaited(u, s)))
    case Unwinds(id) => s.(bodies := With(s, id, Dropped))
  }

  ghost predicate Reaches(u: Setup, first: State, events: seq<Event>, last: State)
    decreases |events|
  {
    if events == [] then first == last
    else Enabled(u, first, events[0]) && Reaches(u, Step(u, first, events[0]), events[1..], last)
  }
}
