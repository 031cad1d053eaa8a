/** A run of `run_code` snippets with and without early launches. The cold session is what the snippets see when
    nothing is launched early; the speculative run adds the store, and hands a dispatch the outcome of the launch
    it claimed. */
module SpeculativeRun {
  import opened Options
  import opened PythonDict
  import opened PythonRepr
  import opened CanonicalKey
  import opened SpeculationStore

  /** How a nested call settled. */
  datatype Outcome = Outcome(content: string, metadata: string, error: Option<string>, denied: Option<string>)

  datatype CallPart = CallPart(toolName: string, args: Value)

  datatype ReturnPart = ReturnPart(toolName: string, content: string, metadata: string, denied: bool)

  /** One `run_code` call. Nested call `n` of parent `p` has the id `p__n`. `renames` is the tool map of the step
      that fed it. */
  datatype Execution = Execution(
    parent: string,
    renames: map<string, string>,
    callCount: nat,
    budgetExhausted: bool,
    nestedCalls: map<nat, CallPart>,
    nestedReturns: map<nat, ReturnPart>)

  /** What the sandbox gets back: a value, an error, a refusal, or nothing as the awaited task was cancelled. */
  datatype Payload = Given(content: string) | Failed(error: string) | Refused | Cancelled

  /** A dispatched call: the number of its execution, and its nested id. */
  datatype CallId = CallId(run: nat, n: nat)

  datatype Delivery = Delivery(call: CallId, payload: Payload)

  datatype Pending = Pending(part: CallPart, begun: bool)

  /** What executions and the sandbox see. */
  datatype Session = Session(
    renames: map<string, string>,
    executions: seq<Execution>,
    pending: map<CallId, Pending>,
    delivered: seq<Delivery>)

  datatype World = World(
    session: Session,
    step: int,
    observed: int,
    store: Store,
    claims: Dict<CallId, Launch>,
    launches: seq<Launch>,
    adopted: multiset<Launch>,
    evicted: multiset<Launch>,
    abandoned: multiset<Launch>,
    leaked: multiset<Launch>)

  /** `tools` is what a wrapped tool answers, from its name and what its arguments mean. */
  datatype Setup = Setup(p: Printable, cap: nat, maxToolCalls: nat, tools: (string, Meaning) -> Outcome)

  datatype Event =
    | StashStep(renames: map<string, string>)
    | NextStep
    | Observe
    | PartStart(id: string)
    | Rekey(id: string, newId: string)
    | LaunchOne(id: string, extracted: Extracted)
    | StartExecution(parent: string)
    | Feed(run: nat)
    | Dispatch(run: nat, name: string, kwargs: Value)
    | Begin(call: CallId, eligible: bool)
    | Settle(call: CallId)
    | Abandon(call: CallId)
    | Complete(run: nat)
    | CloseStore

  // ---- what both runs do to the session ---------------------------------------------------------------------

  /** The call as the tool map of its execution names it. */
  function PartOf(s: Session, run: nat, name: string, kwargs: Value): CallPart
    requires run < |s.executions|
  {
    CallPart(Original(s.executions[run].renames, name), kwargs)
  }

  predicate HasBudget(setup: Setup, s: Session, run: nat) {
    run < |s.executions| && s.executions[run].callCount < setup.maxToolCalls
  }

  function NextId(s: Session, run: nat): CallId
    requires run < |s.executions|
  {
    CallId(run, s.executions[run].callCount + 1)
  }

  /** `next_tool_call_id`, and the refusal at the call site when the budget is spent. */
  function Reserve(setup: Setup, s: Session, run: nat, name: string, kwargs: Value): Session {
    if run >= |s.executions| then s
    else
      var e := s.executions[run];
      if !HasBudget(setup, s, run) then
        s.(executions := s.executions[run := e.(budgetExhausted := true)],
           delivered := s.delivered + [Delivery(NextId(s, run), Refused)])
      else
        s.(executions := s.executions[run := e.(callCount := e.callCount + 1)],
           pending := s.pending[NextId(s, run) := Pending(PartOf(s, run, name, kwargs), false)])
  }

  predicate Ready(s: Session, call: CallId, begun: bool) {
    call in s.pending && s.pending[call].begun == begun && call.run < |s.executions|
  }

  /** The call's coroutine starts: the call is recorded. */
  function Record(s: Session, call: CallId): Session {
    if Ready(s, call, false) then
      var e := s.executions[call.run];
      s.(executions := s.executions[call.run := e.(nestedCalls := e.nestedCalls[call.n := s.pending[call].part])],
         pending := s.pending[call := s.pending[call].(begun := true)])
    else s
  }

  /** `finish`: the return is recorded and the sandbox gets the value or the error. */
  function Finish(s: Session, call: CallId, outcome: Outcome): Session
    requires Ready(s, call, true)
  {
    var part := s.pending[call].part;
    var e := s.executions[call.run];
    var denials :=
      if outcome.denied.Some? then
        e.nestedReturns[call.n := ReturnPart(part.toolName, outcome.denied.value, "", true)]
      else e.nestedReturns;
    var (records, payload) :=
      if outcome.error.Some? then (denials, Failed(outcome.error.value))
      else (denials[call.n := ReturnPart(part.toolName, outcome.content, outcome.metadata, false)],
            Given(outcome.content));
    s.(executions := s.executions[call.run := e.(nestedReturns := records)],
       pending := s.pending - {call},
       delivered := s.delivered + [Delivery(call, payload)])
  }

  /** One more feed of an execution, with the tool map of the current step. */
  function Refeed(s: Session, run: nat): Session {
    if run < |s.executions| then
      s.(executions := s.executions[run := s.executions[run].(renames := s.renames)])
    else s
  }

  function Drop(s: Session, call: CallId): Session {
    s.(pending := s.pending - {call})
  }

  // ---- the cold run --------------------------------------------------------------------------------------------

  /** Every dispatch runs its own call. */
  ghost function ColdStep(setup: Setup, s: Session, e: Event): Session {
    match e
    case StashStep(renames) => s.(renames := renames)
    case StartExecution(parent) =>
      s.(executions := s.executions + [Execution(parent, s.renames, 0, false, map[], map[])])
    case Feed(run) => Refeed(s, run)
    case Dispatch(run, name, kwargs) => Reserve(setup, s, run, name, kwargs)
    case Begin(call, _) => Record(s, call)
    case Settle(call) =>
      if Ready(s, call, true) then
        Finish(s, call, setup.tools(s.pending[call].part.toolName, MeaningOf(s.pending[call].part.args)))
      else s
    case Abandon(call) => Drop(s, call)
    case _ => s
  }

  ghost function ColdRun(setup: Setup, s: Session, events: seq<Event>): Session
    decreases |events|
  {
    if events == [] then s else ColdRun(setup, ColdStep(setup, s, events[0]), events[1..])
  }

  // ---- the speculative run ---------------------------------------------------------------------------------------

  function ContextOf(setup: Setup, w: World): Context {
    Context(setup.p, setup.cap, w.session.renames, w.step)
  }

  /** `observe` meets a new model step: launches too old for a retry to claim are cancelled. */
  ghost function Observed(w: World): World {
    if w.observed == w.step then w
    else
      w.(observed := w.step,
         store := RetireStale(w.store, w.step),
         evicted := w.evicted + Queued(Stale(w.store.parts, w.step)))
  }

  /** A watch is replaced; whatever the one it replaces still held is out of reach and keeps running. */
  ghost function Replace(w: World, id: string, watch: Watch): World {
    w.(store := w.store.(parts := Put(w.store.parts, id, watch)),
       leaked := w.leaked + WatchBag(Get(w.store.parts, id, NewWatch(0))))
  }

  ghost function Rekeyed(w: World, id: string, newId: string): World {
    if id == newId || !Has(w.store.parts, id) then w
    else
      var watch := Get(w.store.parts, id, NewWatch(0));
      Replace(w.(store := w.store.(parts := Delete(w.store.parts, id))), newId, watch)
  }

  function LaunchBelowCap(setup: Setup, w: World, id: string, call: Extracted): World {
    var c := ContextOf(setup, w);
    if WatchOf(c, w.store, id).launched >= setup.cap then w
    else
      w.(store := LaunchInto(c, w.store, id, call), launches := w.launches + [NewLaunch(c, w.store, call)])
  }

  /** `dispatch_tool_call`: the budget first, then a claim if there is one. */
  function Dispatched(setup: Setup, w: World, run: nat, name: string, kwargs: Value): World {
    var w' := w.(session := Reserve(setup, w.session, run, name, kwargs));
    if !HasBudget(setup, w.session, run) then w'
    else
      var (l, parts) := Claim(w.store.parts, w.session.executions[run].parent, Key(setup.p, name, kwargs));
      if l.None? then w'
      else
        w'.(store := w.store.(parts := parts), claims := w.claims + [(NextId(w.session, run), l.value)])
  }

  function NoteHit(watch: Watch): Watch {
    watch.(hits := watch.hits + 1)
  }

  function NoteMiss(watch: Watch): Watch {
    watch.(misses := watch.misses + 1)
  }

  function Noted(w: World, id: string, note: Watch -> Watch): World {
    w.(store := w.store.(parts := Put(w.store.parts, id, note(Get(w.store.parts, id, NewWatch(w.step))))))
  }

  function ParentOf(s: Session, call: CallId): string
    requires call.run < |s.executions|
  {
    s.executions[call.run].parent
  }

  function Begun(w: World, call: CallId, eligible: bool): World {
    if !Ready(w.session, call, false) then w
    else
      var w' := w.(session := Record(w.session, call));
      if Has(w.claims, call) || !eligible then w' else Noted(w', ParentOf(w.session, call), NoteMiss)
  }

  const NoLaunch := Launch(0, "", "", Number(NoneType, "None"), 0)

  /** `adopt` resolves a claimed launch; a call without one has run by itself. */
  ghost function Settled(setup: Setup, w: World, call: CallId): World {
    if !Ready(w.session, call, true) then w
    else if !Has(w.claims, call) then
      var part := w.session.pending[call].part;
      w.(session := Finish(w.session, call, setup.tools(part.toolName, MeaningOf(part.args))))
    else
      var l := Get(w.claims, call, NoLaunch);
      if l in w.evicted then
        var s := w.session;
        w.(session := s.(pending := s.pending - {call}, delivered := s.delivered + [Delivery(call, Cancelled)]))
      else
        var adopted := Noted(w, ParentOf(w.session, call), NoteHit);
        adopted.(session := Finish(w.session, call, setup.tools(l.originalName, MeaningOf(l.kwargs))),
                 store := adopted.store.(adopted := w.store.adopted + 1),
                 claims := Delete(w.claims, call),
                 adopted := w.adopted + multiset{l})
  }

  ghost function Abandoned(w: World, call: CallId): World {
    var w' := w.(session := Drop(w.session, call));
    if !Has(w.claims, call) then w'
    else w'.(claims := Delete(w.claims, call), abandoned := w.abandoned + multiset{Get(w.claims, call, NoLaunch)})
  }

  ghost function Completed(w: World, run: nat): World {
    if run >= |w.session.executions| then w
    else
      var id := w.session.executions[run].parent;
      w.(store := EvictPart(w.store, id), evicted := w.evicted + WatchBag(Get(w.store.parts, id, NewWatch(0))))
  }

  ghost function Step(setup: Setup, w: World, e: Event): World {
    match e
    case StashStep(_) => w.(session := ColdStep(setup, w.session, e))
    case NextStep => w.(step := w.step + 1)
    case Observe => Observed(w)
    case PartStart(id) => Replace(Observed(w), id, NewWatch(w.step))
    case Rekey(id, newId) => Rekeyed(w, id, newId)
    case LaunchOne(id, extracted) => LaunchBelowCap(setup, w, id, extracted)
    case StartExecution(_) => w.(session := ColdStep(setup, w.session, e))
    case Feed(_) => w.(session := ColdStep(setup, w.session, e))
    case Dispatch(run, name, kwargs) => Dispatched(setup, w, run, name, kwargs)
    case Begin(call, eligible) => Begun(w, call, eligible)
    case Settle(call) => Settled(setup, w, call)
    case Abandon(call) => Abandoned(w, call)
    case Complete(run) => Completed(w, run)
    case CloseStore => w.(store := Close(w.store), evicted := w.evicted + Queued(w.store.parts))
  }

  ghost function Run(setup: Setup, w: World, events: seq<Event>): World
    decreases |events|
  {
    if events == [] then w else Run(setup, Step(setup, w, events[0]), events[1..])
  }

  function EmptySession(renames: map<string, string>): Session {
    Session(renames, [], map[], [])
  }

  ghost function Initial(renames: map<string, string>, step: int): World {
    World(EmptySession(renames), step, step, Store([], 0, 0, 0), [], [],
          multiset{}, multiset{}, multiset{}, multiset{})
  }

  // ---- what holds at every state ----------------------------------------------------------------------------------

  ghost function ClaimBag(l: Launch): multiset<Launch> {
    multiset{l}
  }

  ghost function Places(w: World): multiset<Launch> {
    Queued(w.store.parts) + Bag(w.claims, ClaimBag) + w.abandoned + w.adopted + w.evicted + w.leaked
  }

  /** Every launch is in exactly one place, and the counters count. */
  ghost predicate Accounted(w: World) {
    && multiset(w.launches) == Places(w)
    && |w.launches| == w.store.launched
    && (forall i :: 0 <= i < |w.launches| ==> w.launches[i].serial == i)
    && |w.adopted| == w.store.adopted
    && |w.evicted| == w.store.evicted
  }

  /** The prefetch loop is a run of single launches, so what holds of every run holds across it. */
  lemma {:induction false} PrelaunchIsARun(
    setup: Setup, w: World, id: string, calls: seq<Extracted>, demanded: Dict<string, nat>)
    returns (events: seq<Event>)
    ensures forall e :: e in events ==> e.LaunchOne? && e.id == id && e.extracted in calls
    ensures Run(setup, w, events).store == Prelaunch(ContextOf(setup, w), w.store, id, calls, demanded)
    ensures Run(setup, w, events).session == w.session
    decreases |calls|
  {
    events := [];
    if calls == [] {
      return;
    }
    var c := ContextOf(setup, w);
    var key := KeyOf(setup.p, calls[0]);
    var met := Meet(c, calls, demanded);
    PrelaunchTurns(c, w.store, id, calls, demanded);
    hide KeyOf, InFlight, LaunchInto, Prelaunch, Step, WatchOf, Meet;
    if Get(demanded, key, 0) + 1 <= InFlight(w.store.parts, key) {
      events := PrelaunchIsARun(setup, w, id, calls[1..], met);
    } else if WatchOf(c, w.store, id).launched < setup.cap {
      var e := LaunchOne(id, calls[0]);
      var next := Step(setup, w, e);
      LaunchStep(setup, w, id, calls[0]);
      var rest := PrelaunchIsARun(setup, next, id, calls[1..], met);
      RunHead(setup, w, e, rest);
      events := [e] + rest;
    }
  }

  lemma LaunchStep(setup: Setup, w: World, id: string, call: Extracted)
    requires WatchOf(ContextOf(setup, w), w.store, id).launched < setup.cap
    ensures var next := Step(setup, w, LaunchOne(id, call));
            && next.store == LaunchInto(ContextOf(setup, w), w.store, id, call)
            && next.session == w.session && ContextOf(setup, next) == ContextOf(setup, w)
  {
    hide LaunchInto;
  }

  lemma RunHead(setup: Setup, w: World, e: Event, rest: seq<Event>)
    ensures Run(setup, w, [e] + rest) == Run(setup, Step(setup, w, e), rest)
  {
    hide Step;
    assert ([e] + rest)[1..] == rest;
  }
}
