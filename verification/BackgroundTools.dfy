/** Background tool calls: tasks hand their outcomes over in completion order, and node boundaries deliver them. */
module BackgroundTools {
  import opened Options

  /** A follow-up for the model, or an error that ends the run. */
  datatype Outcome = FollowUp(text: string) | Failure(error: string)

  datatype Handed = Handed(call: nat, outcome: Outcome)

  /** What a node produced: another node, the end of the run, or an end that asks the caller to run tools. */
  datatype NodeResult = NextNode | End | DeferredEnd

  /** `Waiting` is `after_node_run` blocked on the next outcome; `Ended` and `Paused` are an end handed to the
      agent run; `Raised` an error handed to it; `Closing` the task group being cancelled. */
  datatype Phase = Running | Waiting | Ended | Paused | Raised(error: string) | Closing(way: Way) | Finished(way: Way)

  datatype Way = ByEnd | ByPause | ByError(error: string)

  /** `calls` counts the calls started, `counted` the successes core counted. `completed` and `delivered` are the
      history: what tasks handed over and what boundaries took, in order. */
  datatype State = State(
    phase: Phase,
    live: int,
    usage: int,
    stream: seq<Handed>,
    pending: nat,
    calls: nat,
    liveCalls: set<nat>,
    counted: set<nat>,
    completed: seq<Handed>,
    delivered: seq<Handed>)

  datatype Event =
    | StartCall
    | CoreCounts(call: nat)
    | TaskEnds(call: nat, outcome: Outcome)
    | TaskCancelled(call: nat)
    | NodeEnds(result: NodeResult)
    | Receive
    | Enqueue
    | TakePending
    | RunEnds
    | GroupExits

  const Initial := State(Running, 0, 0, [], 0, 0, {}, {}, [], [])

  /** How many outcomes a sweep takes: all that arrived, or those up to the first error. */
  function SweepLength(stream: seq<Handed>): (n: nat)
    ensures n <= |stream|
    ensures forall i :: 0 <= i < n - 1 ==> stream[i].outcome.FollowUp?
    ensures n < |stream| ==> n > 0 && stream[n - 1].outcome.Failure?
  {
    if stream == [] then 0 else if stream[0].outcome.Failure? then 1 else 1 + SweepLength(stream[1..])
  }

  /** Takes the first `n` outcomes: follow-ups become pending messages, an error is raised. */
  function Take(s: State, n: nat): State
    requires n <= |s.stream|
  {
    var s' := s.(stream := s.stream[n..], delivered := s.delivered + s.stream[..n]);
    if n > 0 && s.stream[n - 1].outcome.Failure? then
      s'.(phase := Raised(s.stream[n - 1].outcome.error), pending := s.pending + n - 1)
    else s'.(pending := s.pending + n)
  }

  function AfterNode(s: State, result: NodeResult): State {
    if result.DeferredEnd? then s.(phase := Paused)
    else
      var swept := Take(s, SweepLength(s.stream));
      if swept.phase.Raised? then swept
      else if result.NextNode? then swept
      else if swept.live > 0 && swept.pending == 0 then swept.(phase := Waiting)
      else swept.(phase := Ended)
  }

  predicate Enabled(s: State, e: Event) {
    match e
    case StartCall => s.phase.Running?
    case CoreCounts(c) => c in s.liveCalls && c !in s.counted
    case TaskEnds(c, _) => c in s.liveCalls
    case TaskCancelled(c) => c in s.liveCalls && s.phase.Closing?
    case NodeEnds(_) => s.phase.Running?
    case Receive => s.phase.Waiting? && s.stream != []
    case Enqueue => s.phase.Running? || s.phase.Waiting? || s.phase.Ended?
    case TakePending => s.phase.Running? || (s.phase.Ended? && s.pending > 0)
    case RunEnds => s.phase.Paused? || s.phase.Raised? || (s.phase.Ended? && s.pending == 0)
    case GroupExits => s.phase.Closing? && s.live == 0
  }

  function WayOf(phase: Phase): Way {
    match phase
    case Paused => ByPause
    case Raised(error) => ByError(error)
    case _ => ByEnd
  }

  /** After the group is done an error nobody took still ends a run that would have returned. */
  function Leftover(way: Way, stream: seq<Handed>): Way {
    var n := SweepLength(stream);
    if !way.ByError? && n > 0 && stream[n - 1].outcome.Failure? then ByError(stream[n - 1].outcome.error) else way
  }

  function Released(s: State, c: nat): State {
    s.(live := s.live - 1, usage := s.usage - 1, liveCalls := s.liveCalls - {c})
  }

  function Step(s: State, e: Event): State
    requires Enabled(s, e)
  {
    match e
    case StartCall =>
      s.(live := s.live + 1, usage := s.usage + 1, calls := s.calls + 1, liveCalls := s.liveCalls + {s.calls})
    case CoreCounts(c) => s.(usage := s.usage + 1, counted := s.counted + {c})
    case TaskEnds(c, outcome) =>
      Released(s, c).(stream := s.stream + [Handed(c, outcome)], completed := s.completed + [Handed(c, outcome)])
    case TaskCancelled(c) => Released(s, c)
    case NodeEnds(result) => AfterNode(s, result)
    case Receive =>
      var taken := Take(s, 1);
      if taken.phase.Raised? then taken else taken.(phase := Ended)
    case Enqueue => s.(pending := s.pending + 1)
    case TakePending => s.(pending := 0, phase := Running)
    case RunEnds => s.(phase := Closing(WayOf(s.phase)))
    case GroupExits => s.(phase := Finished(Leftover(s.phase.way, s.stream)))
  }

  ghost predicate Legal(s: State, events: seq<Event>)
    decreases |events|
  {
    events == [] || (Enabled(s, events[0]) && Legal(Step(s, events[0]), events[1..]))
  }

  ghost function After(s: State, events: seq<Event>): State
    requires Legal(s, events)
    decreases |events|
  {
    if events == [] then s else After(Step(s, events[0]), events[1..])
  }

  lemma {:induction false} OneMore(s: State, events: seq<Event>, e: Event)
    requires Legal(s, events) && Enabled(After(s, events), e)
    ensures Legal(s, events + [e]) && After(s, events + [e]) == Step(After(s, events), e)
    decreases |events|
  {
    hide Step, Enabled;
    if events != [] {
      assert (events + [e])[1..] == events[1..] + [e];
      OneMore(Step(s, events[0]), events[1..], e);
    } else {
      assert [e][1..] == [];
      assert Legal(Step(s, e), []);
    }
  }

  // ---- what every state keeps ----------------------------------------------------------------------------------

  ghost predicate Reserved(s: State) {
    && s.live == |s.liveCalls|
    && s.usage == s.live + |s.counted|
    && (forall c :: c in s.liveCalls ==> c < s.calls)
  }

  /** Outcomes come from different calls, none of them live, and wait behind those already delivered. */
  ghost predicate HandedOnce(s: State) {
    && s.completed == s.delivered + s.stream
    && (forall i :: 0 <= i < |s.completed| ==> s.completed[i].call !in s.liveCalls && s.completed[i].call < s.calls)
    && (forall i, j :: 0 <= i < j < |s.completed| ==> s.completed[i].call != s.completed[j].call)
  }

  /** Before the group is cancelled every call that is not live has handed over. */
  ghost predicate NoneDropped(s: State) {
    !s.phase.Closing? && !s.phase.Finished? ==>
      forall c: nat :: c < s.calls && c !in s.liveCalls ==> HasHanded(s, c)
  }

  predicate Settled(s: State) {
    s.live == 0 && s.stream == []
  }

  ghost predicate EndsSettled(s: State) {
    && (s.phase.Ended? ==> s.pending > 0 || Settled(s))
    && (s.phase == Closing(ByEnd) || s.phase == Finished(ByEnd) ==>
          Settled(s) && forall c: nat :: c < s.calls ==> HasHanded(s, c))
  }

  /** Delivering moves outcomes and nothing else. */
  lemma OnlyDelivers(s: State, e: Event)
    requires Enabled(s, e) && (e.NodeEnds? || e.Receive?)
    ensures var s' := Step(s, e);
            && s'.live == s.live && s'.usage == s.usage && s'.calls == s.calls && s'.liveCalls == s.liveCalls
            && s'.counted == s.counted && s'.completed == s.completed
            && s'.delivered + s'.stream == s.delivered + s.stream
            && !s'.phase.Closing? && !s'.phase.Finished?
  {
    hide SweepLength;
  }

  lemma StepReserved(s: State, e: Event)
    requires Reserved(s) && Enabled(s, e)
    ensures Reserved(Step(s, e))
  {
    hide AfterNode, Take, SweepLength, Leftover;
    match e
    case StartCall => StartReserved(s);
    case TaskEnds(c, _) => ReleaseReserved(s, c);
    case TaskCancelled(c) => ReleaseReserved(s, c);
    case NodeEnds(_) => OnlyDelivers(s, e);
    case Receive => OnlyDelivers(s, e);
    case CoreCounts(c) => CountReserved(s, c);
    case _ =>
  }

  lemma StartReserved(s: State)
    requires Reserved(s) && Enabled(s, StartCall)
    ensures Reserved(Step(s, StartCall))
  {
    assert s.calls !in s.liveCalls;
  }

  lemma CountReserved(s: State, c: nat)
    requires Reserved(s) && Enabled(s, CoreCounts(c))
    ensures Reserved(Step(s, CoreCounts(c)))
  {
  }

  lemma ReleaseReserved(s: State, c: nat)
    requires Reserved(s) && c in s.liveCalls
    ensures Reserved(Released(s, c))
  {
    assert |s.liveCalls - {c}| == |s.liveCalls| - 1;
  }

  lemma StepHandedOnce(s: State, e: Event)
    requires Reserved(s) && HandedOnce(s) && Enabled(s, e)
    ensures HandedOnce(Step(s, e))
  {
    hide AfterNode, Take, SweepLength, Leftover;
    match e
    case NodeEnds(_) => OnlyDelivers(s, e);
    case Receive => OnlyDelivers(s, e);
    case _ =>
  }

  predicate HasHanded(s: State, c: nat) {
    exists i :: 0 <= i < |s.completed| && s.completed[i].call == c
  }

  lemma EndNoneDropped(s: State, c: nat, outcome: Outcome)
    requires NoneDropped(s) && Enabled(s, TaskEnds(c, outcome))
    ensures NoneDropped(Step(s, TaskEnds(c, outcome)))
  {
    var s' := Step(s, TaskEnds(c, outcome));
    if !s.phase.Closing? && !s.phase.Finished? {
      forall d: nat | d < s'.calls && d !in s'.liveCalls ensures HasHanded(s', d) {
        if d == c {
          assert s'.completed[|s.completed|].call == c;
        } else {
          assert HasHanded(s, d);
          var i :| 0 <= i < |s.completed| && s.completed[i].call == d;
          assert s'.completed[i].call == d;
        }
      }
    }
  }

  lemma SameNoneDropped(s: State, s': State)
    requires NoneDropped(s) && s'.liveCalls == s.liveCalls && s'.calls == s.calls && s'.completed == s.completed
    requires s.phase.Closing? || s.phase.Finished? ==> s'.phase.Closing? || s'.phase.Finished?
    ensures NoneDropped(s')
  {
    hide HasHanded;
    assert forall d: nat :: HasHanded(s', d) <==> HasHanded(s, d) by {
      forall d: nat ensures HasHanded(s', d) <==> HasHanded(s, d) {
        SameHanded(s, s', d);
      }
    }
  }

  lemma SameHanded(s: State, s': State, d: nat)
    requires s'.completed == s.completed
    ensures HasHanded(s', d) <==> HasHanded(s, d)
  {
  }

  lemma StepNoneDropped(s: State, e: Event)
    requires NoneDropped(s) && Enabled(s, e)
    ensures NoneDropped(Step(s, e))
  {
    hide NoneDropped, AfterNode, Take, SweepLength, Leftover;
    var s' := Step(s, e);
    match e
    case TaskEnds(c, outcome) => EndNoneDropped(s, c, outcome);
    case StartCall => StartNoneDropped(s);
    case TaskCancelled(c) => ClosingNoneDropped(s');
    case NodeEnds(_) =>
      OnlyDelivers(s, e);
      SameNoneDropped(s, s');
    case Receive =>
      OnlyDelivers(s, e);
      SameNoneDropped(s, s');
    case _ => SameNoneDropped(s, s');
  }

  lemma StartNoneDropped(s: State)
    requires NoneDropped(s) && Enabled(s, StartCall)
    ensures NoneDropped(Step(s, StartCall))
  {
    var s' := Step(s, StartCall);
    forall d: nat | d < s'.calls && d !in s'.liveCalls ensures HasHanded(s', d) {
      assert HasHanded(s, d);
    }
  }

  lemma ClosingNoneDropped(s: State)
    requires s.phase.Closing?
    ensures NoneDropped(s)
  {
  }

  lemma NodeEndsSettled(s: State, result: NodeResult)
    requires Reserved(s) && Enabled(s, NodeEnds(result))
    ensures EndsSettled(Step(s, NodeEnds(result)))
  {
    hide HasHanded;
  }

  lemma NoLiveCalls(s: State)
    requires Reserved(s) && s.live == 0
    ensures s.liveCalls == {}
  {
  }

  lemma RunEndsSettled(s: State)
    requires Reserved(s) && NoneDropped(s) && EndsSettled(s) && Enabled(s, RunEnds)
    ensures EndsSettled(Step(s, RunEnds))
  {
    var s' := Step(s, RunEnds);
    if s.phase.Ended? {
      NoLiveCalls(s);
      forall c: nat | c < s.calls ensures HasHanded(s', c) {
        assert HasHanded(s, c);
      }
    }
  }

  lemma GroupExitsSettled(s: State)
    requires EndsSettled(s) && Enabled(s, GroupExits)
    ensures EndsSettled(Step(s, GroupExits))
  {
    var s' := Step(s, GroupExits);
    if s'.phase == Finished(ByEnd) {
      assert s.phase == Closing(ByEnd);
      forall c: nat | c < s.calls ensures HasHanded(s', c) {
        SameHanded(s, s', c);
      }
    }
  }

  lemma TaskSettled(s: State, c: nat, e: Event)
    requires Reserved(s) && EndsSettled(s) && Enabled(s, e) && (e == TaskCancelled(c) || (e.TaskEnds? && e.call == c))
    ensures EndsSettled(Step(s, e))
  {
    hide HasHanded;
    if s.live == 0 {
      NoLiveCalls(s);
      assert false;
    }
  }

  lemma StepSettled(s: State, e: Event)
    requires Reserved(s) && NoneDropped(s) && EndsSettled(s) && Enabled(s, e)
    ensures EndsSettled(Step(s, e))
  {
    match e
    case NodeEnds(result) => NodeEndsSettled(s, result);
    case RunEnds => RunEndsSettled(s);
    case GroupExits => GroupExitsSettled(s);
    case TaskEnds(c, _) => TaskSettled(s, c, e);
    case TaskCancelled(c) => TaskSettled(s, c, e);
    case Receive => ReceiveSettled(s);
    case _ => OtherSettled(s, e);
  }

  lemma ReceiveSettled(s: State)
    requires Enabled(s, Receive)
    ensures EndsSettled(Step(s, Receive))
  {
    hide HasHanded;
  }

  lemma OtherSettled(s: State, e: Event)
    requires Reserved(s) && EndsSettled(s) && Enabled(s, e)
    requires e.StartCall? || e.CoreCounts? || e.Enqueue? || e.TakePending?
    ensures EndsSettled(Step(s, e))
  {
    var s' := Step(s, e);
    if e.CoreCounts? && s.live == 0 {
      NoLiveCalls(s);
      assert false;
    }
    hide HasHanded;
  }

  lemma {:induction false} RunKeeps(s: State, events: seq<Event>)
    requires Legal(s, events) && Reserved(s) && HandedOnce(s) && NoneDropped(s) && EndsSettled(s)
    ensures var s' := After(s, events); Reserved(s') && HandedOnce(s') && NoneDropped(s') && EndsSettled(s')
    decreases |events|
  {
    hide Reserved, HandedOnce, NoneDropped, EndsSettled, Step, Enabled;
    if events != [] {
      StepReserved(s, events[0]);
      StepHandedOnce(s, events[0]);
      StepNoneDropped(s, events[0]);
      StepSettled(s, events[0]);
      RunKeeps(Step(s, events[0]), events[1..]);
    }
  }

  // ---- the main results -------------------------------------------------------------------------------------------

  /** In every interleaving of tasks and node boundaries the reservations are the live calls, so the usage is that
      plus the successes core counted; no call hands over twice; and what was delivered is the first part of
      what tasks handed over, in their order of completion. */
  lemma OutcomesAreDeliveredInOrder(events: seq<Event>)
    requires Legal(Initial, events)
    ensures var s := After(Initial, events);
            && s.live == |s.liveCalls| && s.usage == s.live + |s.counted|
            && (forall i, j :: 0 <= i < j < |s.completed| ==> s.completed[i].call != s.completed[j].call)
            && |s.delivered| <= |s.completed| && s.delivered == s.completed[..|s.delivered|]
            && s.stream == s.completed[|s.delivered|..]
  {
    RunKeeps(Initial, events);
    hide After, Legal;
  }

  /** An end that is not a deferred-tool pause is handed on only when nothing is live and everything was delivered,
      or a follow-up is pending, which makes another model request. */
  lemma EndWaitsForCalls(events: seq<Event>)
    requires Legal(Initial, events)
    ensures var s := After(Initial, events);
            s.phase.Ended? ==> s.pending > 0 || (s.live == 0 && s.delivered == s.completed)
  {
    RunKeeps(Initial, events);
    hide After, Legal;
  }

  /** A run that returns through its end has delivered one outcome of every call it started. */
  lemma ReturnedRunLostNothing(events: seq<Event>, call: nat)
    requires Legal(Initial, events) && After(Initial, events).phase == Finished(ByEnd)
    requires call < After(Initial, events).calls
    ensures var s := After(Initial, events);
            exists i :: 0 <= i < |s.delivered| && s.delivered[i].call == call
  {
    RunKeeps(Initial, events);
    hide After, Legal;
    var s := After(Initial, events);
    assert HasHanded(s, call);
    assert s.completed == s.delivered + [];
  }

  /** An error a task handed over ends the run, unless an error ended it already, even when it arrived only after
      the last boundary. */
  lemma ErrorsEndTheRun(events: seq<Event>)
    requires Legal(Initial, events) && After(Initial, events).phase.Finished?
    requires !After(Initial, events).phase.way.ByError?
    ensures var s := After(Initial, events);
            forall i :: 0 <= i < |s.completed| ==> s.completed[i].outcome.FollowUp?
  {
    RunKeeps(Initial, events);
    RunErrors(Initial, events);
    hide After, Legal;
    var s := After(Initial, events);
    AllFollowUps(s);
  }

  /** The first `n` outcomes that arrived are follow-ups and the next is an error: they are taken, and it is raised. */
  ghost predicate RaisesAt(s: State, s': State, n: nat) {
    && n < |s.stream| && FollowUps(s.stream[..n])
    && s.stream[n].outcome.Failure? && s'.phase == Raised(s.stream[n].outcome.error)
    && s'.delivered == s.delivered + s.stream[..n + 1] && s'.stream == s.stream[n + 1..]
    && s'.pending == s.pending + n
  }

  /** What a node boundary does, in terms of what had arrived. A deferred-tool pause takes nothing. Any other takes
      every outcome that arrived, up to the first error, which it raises; each follow-up it takes is pending. Without
      an error a next node goes on, and an end is handed on unless calls are live and nothing is pending. */
  ghost predicate TakesWhatArrived(s: State, s': State, result: NodeResult) {
    if result.DeferredEnd? then s' == s.(phase := Paused)
    else if FollowUps(s.stream) then
      && s'.delivered == s.delivered + s.stream && s'.stream == [] && s'.pending == s.pending + |s.stream|
      && s'.live == s.live
      && s'.phase == (if result.NextNode? then Running
                      else if s.live > 0 && s'.pending == 0 then Waiting else Ended)
    else exists n: nat :: RaisesAt(s, s', n)
  }

  lemma SweepTakesWhatArrived(s: State, result: NodeResult)
    requires s.phase.Running?
    ensures TakesWhatArrived(s, AfterNode(s, result), result)
  {
    if !result.DeferredEnd? {
      SweepsToTheFirstError(s.stream);
      var n := SweepLength(s.stream);
      hide SweepLength, FollowUps;
      if FollowUps(s.stream) {
        assert s.stream[..n] == s.stream;
      } else {
        assert s.stream[..n - 1 + 1] == s.stream[..n];
        assert RaisesAt(s, AfterNode(s, result), n - 1);
      }
    }
  }

  /** In every run a node boundary does just that. */
  lemma BoundaryTakesWhatArrived(events: seq<Event>, result: NodeResult)
    requires Legal(Initial, events) && Enabled(After(Initial, events), NodeEnds(result))
    ensures Legal(Initial, events + [NodeEnds(result)])
    ensures TakesWhatArrived(After(Initial, events), After(Initial, events + [NodeEnds(result)]), result)
  {
    OneMore(Initial, events, NodeEnds(result));
    hide After, Legal, AfterNode, TakesWhatArrived;
    SweepTakesWhatArrived(After(Initial, events), result);
  }

  lemma SweepsToTheFirstError(stream: seq<Handed>)
    ensures var n := SweepLength(stream);
            if FollowUps(stream) then n == |stream|
            else 0 < n && FollowUps(stream[..n - 1]) && stream[n - 1].outcome.Failure?
  {
  }

  /** A run that ends while a call is live waits for its outcome, whose follow-up makes another model request. */
  const WaitingRun: seq<Event> := [StartCall] + ([CoreCounts(0)] + ([NodeEnds(End)] + AwaitedEvents))

  const AwaitedEvents: seq<Event> :=
    [TaskEnds(0, FollowUp("done"))] + ([Receive] + ([TakePending] + ([NodeEnds(End)] + ([RunEnds] + [GroupExits]))))

  /** A run that pauses for deferred tools drops the calls that are still live. */
  const PausingRun: seq<Event> := [StartCall, Enqueue, NodeEnds(DeferredEnd), RunEnds, TaskCancelled(0), GroupExits]

  /** `e` leads from `s` to `s'`. */
  ghost predicate Leads(s: State, e: Event, s': State) {
    Enabled(s, e) && Step(s, e) == s'
  }

  lemma Unfold(s: State, e: Event, s': State, rest: seq<Event>)
    requires Leads(s, e, s') && Legal(s', rest)
    ensures Legal(s, [e] + rest) && After(s, [e] + rest) == After(s', rest)
  {
    assert ([e] + rest)[1..] == rest;
  }

  lemma NoEvents(s: State)
    ensures Legal(s, []) && After(s, []) == s
  {
  }

  const DoneCall := Handed(0, FollowUp("done"))

  const Awaiting := State(Waiting, 1, 2, [], 0, 1, {0}, {0}, [], [])

  const AwaitedCall := State(Running, 0, 1, [], 0, 1, {}, {0}, [DoneCall], [DoneCall])

  const OneLive := State(Running, 1, 1, [], 0, 1, {0}, {}, [], [])

  lemma CallStarts()
    ensures Leads(Initial, StartCall, OneLive)
  {
  }

  lemma CallIsCounted()
    ensures Leads(OneLive, CoreCounts(0), Awaiting.(phase := Running))
  {
    hide AfterNode, Take;
  }

  lemma EndMustWait()
    ensures Leads(Awaiting.(phase := Running), NodeEnds(End), Awaiting)
  {
  }

  lemma AwaitedStates()
    ensures var s := State(Waiting, 0, 1, [DoneCall], 0, 1, {}, {0}, [DoneCall], []);
            && Leads(Awaiting, TaskEnds(0, FollowUp("done")), s)
            && Leads(s, Receive, AwaitedCall.(phase := Ended, pending := 1))
    ensures Leads(AwaitedCall.(phase := Ended, pending := 1), TakePending, AwaitedCall)
    ensures Leads(AwaitedCall, NodeEnds(End), AwaitedCall.(phase := Ended))
    ensures Leads(AwaitedCall.(phase := Ended), RunEnds, AwaitedCall.(phase := Closing(ByEnd)))
    ensures Leads(AwaitedCall.(phase := Closing(ByEnd)), GroupExits, AwaitedCall.(phase := Finished(ByEnd)))
  {
    assert [DoneCall][1..] == [] && [DoneCall][..1] == [DoneCall];
  }

  lemma OutcomeIsAwaited()
    ensures Legal(Awaiting, AwaitedEvents) && After(Awaiting, AwaitedEvents) == AwaitedCall.(phase := Finished(ByEnd))
  {
    AwaitedStates();
    NoEvents(AwaitedCall.(phase := Finished(ByEnd)));
    hide Leads, Legal, After;
    var s := State(Waiting, 0, 1, [DoneCall], 0, 1, {}, {0}, [DoneCall], []);
    Unfold(AwaitedCall.(phase := Closing(ByEnd)), GroupExits, AwaitedCall.(phase := Finished(ByEnd)), []);
    assert [GroupExits] + [] == [GroupExits];
    var last := [GroupExits];
    Unfold(AwaitedCall.(phase := Ended), RunEnds, AwaitedCall.(phase := Closing(ByEnd)), last);
    Unfold(AwaitedCall, NodeEnds(End), AwaitedCall.(phase := Ended), [RunEnds] + last);
    Unfold(AwaitedCall.(phase := Ended, pending := 1), TakePending, AwaitedCall, [NodeEnds(End)] + ([RunEnds] + last));
    var rest := [TakePending] + ([NodeEnds(End)] + ([RunEnds] + last));
    Unfold(s, Receive, AwaitedCall.(phase := Ended, pending := 1), rest);
    Unfold(Awaiting, TaskEnds(0, FollowUp("done")), s, [Receive] + rest);
  }

  lemma WaitingRunDelivers()
    ensures Legal(Initial, WaitingRun) && After(Initial, WaitingRun) == AwaitedCall.(phase := Finished(ByEnd))
  {
    CallStarts();
    CallIsCounted();
    EndMustWait();
    OutcomeIsAwaited();
    hide Leads, Legal, After;
    Unfold(Awaiting.(phase := Running), NodeEnds(End), Awaiting, AwaitedEvents);
    Unfold(OneLive, CoreCounts(0), Awaiting.(phase := Running), [NodeEnds(End)] + AwaitedEvents);
    Unfold(Initial, StartCall, OneLive, [CoreCounts(0)] + ([NodeEnds(End)] + AwaitedEvents));
  }

  const Dropped := State(Closing(ByPause), 0, 0, [], 1, 1, {}, {}, [], [])

  lemma PausingStates()
    ensures Leads(OneLive, Enqueue, OneLive.(pending := 1))
    ensures Leads(OneLive.(pending := 1), NodeEnds(DeferredEnd), OneLive.(pending := 1, phase := Paused))
    ensures Leads(OneLive.(pending := 1, phase := Paused), RunEnds, OneLive.(pending := 1, phase := Closing(ByPause)))
    ensures Leads(OneLive.(pending := 1, phase := Closing(ByPause)), TaskCancelled(0), Dropped)
    ensures Leads(Dropped, GroupExits, Dropped.(phase := Finished(ByPause)))
  {
  }

  lemma PausingRunDrops()
    ensures Legal(Initial, PausingRun) && After(Initial, PausingRun) == Dropped.(phase := Finished(ByPause))
  {
    CallStarts();
    PausingStates();
    NoEvents(Dropped.(phase := Finished(ByPause)));
    hide Leads, Legal, After;
    var asked := OneLive.(pending := 1);
    Unfold(Dropped, GroupExits, Dropped.(phase := Finished(ByPause)), []);
    assert [GroupExits] + [] == [GroupExits];
    var last := [GroupExits];
    Unfold(asked.(phase := Closing(ByPause)), TaskCancelled(0), Dropped, last);
    Unfold(asked.(phase := Paused), RunEnds, asked.(phase := Closing(ByPause)), [TaskCancelled(0)] + last);
    var rest := [RunEnds] + ([TaskCancelled(0)] + last);
    Unfold(asked, NodeEnds(DeferredEnd), asked.(phase := Paused), rest);
    Unfold(OneLive, Enqueue, asked, [NodeEnds(DeferredEnd)] + rest);
    Unfold(Initial, StartCall, OneLive, [Enqueue] + ([NodeEnds(DeferredEnd)] + rest));
    assert [StartCall] + ([Enqueue] + ([NodeEnds(DeferredEnd)] + rest)) == PausingRun;
  }

  // ---- errors -------------------------------------------------------------------------------------------------------

  ghost predicate FollowUps(outcomes: seq<Handed>) {
    forall i :: 0 <= i < |outcomes| ==> outcomes[i].outcome.FollowUp?
  }

  predicate Failed(phase: Phase) {
    phase.Raised? || (phase.Closing? && phase.way.ByError?) || (phase.Finished? && phase.way.ByError?)
  }

  /** An error that was taken has ended the run. */
  ghost predicate ErrorsRaised(s: State) {
    && (Failed(s.phase) || FollowUps(s.delivered))
    && (s.phase.Finished? ==> s.liveCalls == {} && (s.phase.way.ByError? || FollowUps(s.stream)))
  }

  lemma SweptAll(stream: seq<Handed>)
    ensures SweepLength(stream) == 0 || stream[SweepLength(stream) - 1].outcome.FollowUp? ==> FollowUps(stream)
  {
  }

  lemma ExitErrors(s: State)
    requires Reserved(s) && ErrorsRaised(s) && Enabled(s, GroupExits)
    ensures ErrorsRaised(Step(s, GroupExits))
  {
    SweptAll(s.stream);
    NoLiveCalls(s);
  }

  lemma StepErrors(s: State, e: Event)
    requires Reserved(s) && ErrorsRaised(s) && Enabled(s, e)
    ensures ErrorsRaised(Step(s, e))
  {
    match e
    case GroupExits => ExitErrors(s);
    case _ =>
  }

  lemma {:induction false} RunErrors(s: State, events: seq<Event>)
    requires Legal(s, events) && Reserved(s) && ErrorsRaised(s)
    ensures ErrorsRaised(After(s, events))
    decreases |events|
  {
    hide ErrorsRaised, Reserved, Step, Enabled;
    if events != [] {
      StepReserved(s, events[0]);
      StepErrors(s, events[0]);
      RunErrors(Step(s, events[0]), events[1..]);
    }
  }

  lemma AllFollowUps(s: State)
    requires HandedOnce(s) && ErrorsRaised(s) && s.phase.Finished? && !s.phase.way.ByError?
    ensures FollowUps(s.completed)
  {
  }
}
