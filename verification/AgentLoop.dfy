/** The background event loop shared by the invocations of a warm execution environment: it is reused while it runs,
    and given up when a run on it did not start or did not unwind in time. */
module AgentLoops {
  import opened Options

  /** The loop is known to the handler only through what it can observe: whether it runs. */
  class EventLoop {
    var running: bool

    constructor ()
      ensures running
    {
      running := true;
    }
  }

  // ---- invocations -----------------------------------------------------------------------------------------------

  datatype RunState = Scheduled | Active | Done

  datatype Run = Run(loop: nat, state: RunState)

  /** Where the one active `run_durable` call is. */
  datatype Phase =
    | NoCall
    | Obtained(loop: nat)
    | Starting(run: nat)
    | TimedOut(run: nat)
    | Consuming(run: nat)
    | Cancelling(run: nat)
    | Awaiting(run: nat)

  /** `running[l]` is whether loop `l` can still run callbacks; `published` is the one `get` may hand out. */
  datatype State = State(
    running: seq<bool>,
    published: Option<nat>,
    retired: set<nat>,
    runs: seq<Run>,
    phase: Phase,
    returned: set<nat>)

  datatype Event =
    | Invoke
    | Schedule
    | Starts(run: nat)
    | SeeStarted
    | StartTimeout
    | LeaveTimedOut
    | ConsumeEnds
    | RequestCancel
    | WaitEnds(late: bool)
    | RunEnds(run: nat)
    | LoopStops(loop: nat)

  const Initial := State([], None, {}, [], NoCall, {})

  predicate Usable(s: State, l: nat) {
    l < |s.running| && s.running[l]
  }

  /** What `get` hands out. */
  function Handed(s: State): nat {
    if s.published.Some? && Usable(s, s.published.value) then s.published.value else |s.running|
  }

  function Withdraw(s: State, l: nat): State {
    if s.published == Some(l) then s.(published := None, retired := s.retired + {l}) else s
  }

  function Leave(s: State, run: nat): State {
    s.(phase := NoCall, returned := s.returned + {run})
  }

  predicate CurrentRun(s: State, run: nat) {
    run < |s.runs| && s.runs[run].loop < |s.running|
  }

  predicate Enabled(s: State, e: Event) {
    match e
    case Invoke => s.phase.NoCall?
    case Schedule => s.phase.Obtained?
    case Starts(r) => r < |s.runs| && s.runs[r].state.Scheduled? && Usable(s, s.runs[r].loop)
    case SeeStarted => s.phase.Starting? && CurrentRun(s, s.phase.run) && !s.runs[s.phase.run].state.Scheduled?
    case StartTimeout => s.phase.Starting? && CurrentRun(s, s.phase.run)
    case LeaveTimedOut => s.phase.TimedOut? && CurrentRun(s, s.phase.run)
    case ConsumeEnds => s.phase.Consuming?
    case RequestCancel => s.phase.Cancelling? && CurrentRun(s, s.phase.run)
    case WaitEnds(_) => s.phase.Awaiting? && CurrentRun(s, s.phase.run)
    case RunEnds(r) => r < |s.runs| && s.runs[r].state.Active? && Usable(s, s.runs[r].loop)
    case LoopStops(l) => Usable(s, l)
  }

  function Step(s: State, e: Event): State
    requires Enabled(s, e)
  {
    match e
    case Invoke =>
      var l := Handed(s);
      if l < |s.running| then s.(phase := Obtained(l))
      else s.(running := s.running + [true], published := Some(l), phase := Obtained(l))
    case Schedule =>
      // Handing the run to a loop that has stopped since raises, and nothing was started.
      if !Usable(s, s.phase.loop) then s.(phase := NoCall)
      else s.(runs := s.runs + [Run(s.phase.loop, Scheduled)], phase := Starting(|s.runs|))
    case Starts(r) => s.(runs := s.runs[r := s.runs[r].(state := Active)])
    case SeeStarted => s.(phase := Consuming(s.phase.run))
    case StartTimeout => Withdraw(s, s.runs[s.phase.run].loop).(phase := TimedOut(s.phase.run))
    case LeaveTimedOut =>
      // A run that started after all is cancelled and awaited like any other.
      if s.runs[s.phase.run].state.Scheduled? then Leave(s, s.phase.run) else s.(phase := Cancelling(s.phase.run))
    case ConsumeEnds => s.(phase := Cancelling(s.phase.run))
    case RequestCancel =>
      var l := s.runs[s.phase.run].loop;
      if Usable(s, l) then s.(phase := Awaiting(s.phase.run)) else Leave(Withdraw(s, l), s.phase.run)
    case WaitEnds(late) =>
      var r := s.runs[s.phase.run];
      if r.state.Done? && !late then Leave(s, s.phase.run) else Leave(Withdraw(s, r.loop), s.phase.run)
    case RunEnds(r) => s.(runs := s.runs[r := s.runs[r].(state := Done)])
    case LoopStops(l) => s.(running := s.running[l := false])
  }

  ghost predicate Legal(s: State, events: seq<Event>)
    decreases |events|
  {
    events == [] || (Enabled(s, events[0]) && Legal(Step(s, events[0]), events[1..]))
  }

  ghost function After(s: State, events: seq<Event>): State
    requires Legal(s, events)
    decreases |events|
  {
    if events == [] then s else After(Step(s, events[0]), events[1..])
  }

  // ---- what every state keeps -------------------------------------------------------------------------------------

  /** The run of the active call, if it has one. */
  predicate IsCurrent(p: Phase, run: nat) {
    match p
    case NoCall => false
    case Obtained(_) => false
    case Starting(r) => r == run
    case TimedOut(r) => r == run
    case Consuming(r) => r == run
    case Cancelling(r) => r == run
    case Awaiting(r) => r == run
  }

  /** Over for this loop: the run is done, or its loop is never handed out again. */
  predicate Over(s: State, run: nat)
    requires run < |s.runs|
  {
    s.runs[run].state.Done? || s.runs[run].loop in s.retired || !Usable(s, s.runs[run].loop)
  }

  predicate InOrder(s: State, q: nat, r: nat)
    requires q < |s.runs| && r < |s.runs|
  {
    s.runs[q].loop == s.runs[r].loop ==> s.runs[q].state.Done?
  }

  ghost predicate Sound(s: State) {
    && (s.published.Some? ==> s.published.value < |s.running| && s.published.value !in s.retired)
    && (forall l :: l in s.retired ==> l < |s.running|)
    && (forall r :: 0 <= r < |s.runs| ==> s.runs[r].loop < |s.running|)
    && (forall r: nat :: r < |s.runs| && !IsCurrent(s.phase, r) ==> Over(s, r))
    && (forall q: nat, r: nat :: q < r < |s.runs| ==> InOrder(s, q, r))
    && (forall r :: r in s.returned ==> r < |s.runs| && !IsCurrent(s.phase, r))
    && (s.phase.Obtained? ==>
          && s.phase.loop < |s.running| && s.phase.loop !in s.retired
          && (Usable(s, s.phase.loop) ==> s.published == Some(s.phase.loop)))
    && (s.phase.TimedOut? ==> s.phase.run < |s.runs| && (s.runs[s.phase.run].state.Scheduled? ==> Over(s, s.phase.run)))
    && (forall r: nat :: IsCurrent(s.phase, r) ==> r < |s.runs| && (Usable(s, s.runs[r].loop) ==>
          s.runs[r].loop in s.retired || s.published == Some(s.runs[r].loop)))
  }

  lemma ScheduleSound(s: State)
    requires Sound(s) && Enabled(s, Schedule)
    ensures Sound(Step(s, Schedule))
  {
    var s' := Step(s, Schedule);
    if Usable(s, s.phase.loop) {
      forall q: nat | q < |s.runs| ensures InOrder(s', q, |s.runs|) && Over(s', q) {
        assert Over(s, q);
      }
    }
    forall q: nat, r: nat | q < r < |s.runs| ensures InOrder(s', q, r) {
      assert InOrder(s, q, r);
    }
  }

  lemma InvokeSound(s: State)
    requires Sound(s) && Enabled(s, Invoke)
    ensures Sound(Step(s, Invoke))
  {
    var s' := Step(s, Invoke);
    forall r: nat | r < |s.runs| ensures Over(s', r) {
      assert Over(s, r);
    }
    forall q: nat, r: nat | q < r < |s.runs| ensures InOrder(s', q, r) {
      assert InOrder(s, q, r);
    }
  }

  lemma RunMovesSound(s: State, e: Event)
    requires Sound(s) && Enabled(s, e) && (e.Starts? || e.RunEnds?)
    ensures Sound(Step(s, e))
  {
    var s' := Step(s, e);
    forall r: nat | r < |s.runs| && !IsCurrent(s.phase, r) ensures Over(s', r) {
      assert Over(s, r);
    }
    forall q: nat, r: nat | q < r < |s.runs| ensures InOrder(s', q, r) {
      assert InOrder(s, q, r);
    }
  }

  lemma LoopStopsSound(s: State, l: nat)
    requires Sound(s) && Enabled(s, LoopStops(l))
    ensures Sound(Step(s, LoopStops(l)))
  {
    var s' := Step(s, LoopStops(l));
    forall r: nat | r < |s.runs| && !IsCurrent(s.phase, r) ensures Over(s', r) {
      assert Over(s, r);
    }
    forall q: nat, r: nat | q < r < |s.runs| ensures InOrder(s', q, r) {
      assert InOrder(s, q, r);
    }
  }

  lemma HandlerMovesSound(s: State, e: Event)
    requires Sound(s) && Enabled(s, e)
    requires e.SeeStarted? || e.StartTimeout? || e.LeaveTimedOut? || e.ConsumeEnds? || e.RequestCancel? || e.WaitEnds?
    ensures Sound(Step(s, e))
  {
    var s' := Step(s, e);
    assert forall r: nat :: IsCurrent(s.phase, r) <==> r == s.phase.run;
    forall r: nat | r < |s.runs| && !IsCurrent(s'.phase, r) ensures Over(s', r) {
      assert IsCurrent(s.phase, r) || Over(s, r);
    }
    forall q: nat, r: nat | q < r < |s.runs| ensures InOrder(s', q, r) {
      assert InOrder(s, q, r);
    }
  }

  lemma StepSound(s: State, e: Event)
    requires Sound(s) && Enabled(s, e)
    ensures Sound(Step(s, e))
  {
    hide Sound;
    match e
    case Invoke => InvokeSound(s);
    case Schedule => ScheduleSound(s);
    case Starts(_) => RunMovesSound(s, e);
    case RunEnds(_) => RunMovesSound(s, e);
    case LoopStops(l) => LoopStopsSound(s, l);
    case _ => HandlerMovesSound(s, e);
  }

  lemma {:induction false} RunSound(s: State, events: seq<Event>)
    requires Sound(s) && Legal(s, events)
    ensures Sound(After(s, events))
    decreases |events|
  {
    hide Sound, Step, Enabled;
    if events != [] {
      StepSound(s, events[0]);
      RunSound(Step(s, events[0]), events[1..]);
    }
  }

  // ---- the main results -------------------------------------------------------------------------------------------

  /** Over any sequence of invocations, whatever times out and whichever loops stop: when a call has returned or
      raised, its run is done, or the run's loop was withdrawn or runs nothing any more. */
  lemma ReturnedRunsAreOver(events: seq<Event>, run: nat)
    requires Legal(Initial, events) && run in After(Initial, events).returned
    ensures run < |After(Initial, events).runs| && Over(After(Initial, events), run)
  {
    RunSound(Initial, events);
  }

  /** No run starts on a loop where an earlier run is unfinished, even when it starts late, on a loop withdrawn
      because it did not start in time. */
  lemma NoRunStartsBesideAnother(events: seq<Event>, run: nat, earlier: nat)
    requires Legal(Initial, events) && Enabled(After(Initial, events), Starts(run)) && earlier < run
    requires After(Initial, events).runs[earlier].loop == After(Initial, events).runs[run].loop
    ensures After(Initial, events).runs[earlier].state.Done?
  {
    RunSound(Initial, events);
    assert InOrder(After(Initial, events), earlier, run);
  }

  /** Two unfinished runs never share a loop. */
  lemma OneUnfinishedRunPerLoop(events: seq<Event>, q: nat, r: nat)
    requires Legal(Initial, events) && q < |After(Initial, events).runs| && r < |After(Initial, events).runs|
    requires !After(Initial, events).runs[q].state.Done? && !After(Initial, events).runs[r].state.Done?
    requires After(Initial, events).runs[q].loop == After(Initial, events).runs[r].loop
    ensures q == r
  {
    RunSound(Initial, events);
    assert q < r ==> InOrder(After(Initial, events), q, r);
    assert r < q ==> InOrder(After(Initial, events), r, q);
  }

  /** A withdrawn loop is never handed out again. */
  lemma RetiredStaysRetired(events: seq<Event>, later: seq<Event>, l: nat)
    requires Legal(Initial, events) && l in After(Initial, events).retired
    requires Legal(After(Initial, events), later)
    ensures var s := After(After(Initial, events), later);
            l in s.retired && Handed(s) != l && s.phase != Obtained(l)
  {
    RunSound(Initial, events);
    RunSound(After(Initial, events), later);
    RetiredGrows(After(Initial, events), later);
  }

  lemma {:induction false} RetiredGrows(s: State, events: seq<Event>)
    requires Legal(s, events)
    ensures s.retired <= After(s, events).retired
    decreases |events|
  {
    if events != [] {
      RetiredGrows(Step(s, events[0]), events[1..]);
    }
  }

  lemma {:induction false} OneMoreEvent(s: State, events: seq<Event>, e: Event)
    requires Legal(s, events) && Enabled(After(s, events), e)
    ensures Legal(s, events + [e]) && After(s, events + [e]) == Step(After(s, events), e)
    decreases |events|
  {
    hide Step, Enabled;
    if events == [] {
      assert [e][1..] == [];
      assert Legal(Step(s, e), []);
    } else {
      assert (events + [e])[1..] == events[1..] + [e];
      OneMoreEvent(Step(s, events[0]), events[1..], e);
    }
  }

  /** The active call gives up on loop `l`: its run did not start in time, or could not be cancelled because the loop
      had stopped, or did not finish unwinding in time. */
  predicate GivesUp(s: State, e: Event, l: nat) {
    match s.phase
    case Starting(r) => e.StartTimeout? && r < |s.runs| && s.runs[r].loop == l
    case Cancelling(r) => e.RequestCancel? && r < |s.runs| && s.runs[r].loop == l && !Usable(s, l)
    case Awaiting(r) => e.WaitEnds? && r < |s.runs| && s.runs[r].loop == l && (e.late || !s.runs[r].state.Done?)
    case _ => false
  }

  /** Over any sequence of invocations: the published loop stays published until the active call gives up on it, or an
      invocation finds it stopped and makes another. So a run that unwinds in time leaves its loop to the next one. */
  lemma LoopIsKeptUnlessGivenUp(events: seq<Event>, e: Event)
    requires Legal(Initial, events) && Enabled(After(Initial, events), e)
    requires After(Initial, events).published.Some?
    ensures Legal(Initial, events + [e])
    ensures var s, s' := After(Initial, events), After(Initial, events + [e]);
            var l := s.published.value;
            && (s'.published.None? <==> GivesUp(s, e, l))
            && s'.retired == (if GivesUp(s, e, l) then s.retired + {l} else s.retired)
            && (e.Invoke? && !Usable(s, l) ==> s'.published == Some(|s.running|))
            && (!GivesUp(s, e, l) && !(e.Invoke? && !Usable(s, l)) ==> s'.published == s.published)
  {
    OneMoreEvent(Initial, events, e);
    RunSound(Initial, events);
    hide After, Legal;
  }

  /** The active call returns or raises: its run has not started when it gives up, or cannot be cancelled, or the wait
      for its end is over. */
  predicate Leaves(s: State, e: Event) {
    match s.phase
    case TimedOut(r) => e.LeaveTimedOut? && r < |s.runs| && s.runs[r].state.Scheduled?
    case Cancelling(r) => e.RequestCancel? && r < |s.runs| && !Usable(s, s.runs[r].loop)
    case Awaiting(_) => e.WaitEnds?
    case _ => false
  }

  /** Over any sequence of invocations: a call leaves its run behind exactly then, and until then no other call
      begins. */
  lemma CallLeavesExactlyWhen(events: seq<Event>, e: Event, run: nat)
    requires Legal(Initial, events) && Enabled(After(Initial, events), e)
    ensures Legal(Initial, events + [e])
    ensures var s, s' := After(Initial, events), After(Initial, events + [e]);
            && (run in s'.returned && run !in s.returned ==> IsCurrent(s.phase, run) && Leaves(s, e))
            && (IsCurrent(s.phase, run) ==>
                  if Leaves(s, e) then run in s'.returned && s'.phase.NoCall? else IsCurrent(s'.phase, run))
            && (e.Invoke? <==> s.phase.NoCall? && !s'.phase.NoCall?)
  {
    OneMoreEvent(Initial, events, e);
    RunSound(Initial, events);
    hide After, Legal;
  }

  /** An invocation whose run ends and unwinds in time. */
  const CleanRun: seq<Event> :=
    [Invoke, Schedule, Starts(0), SeeStarted, ConsumeEnds, RequestCancel, RunEnds(0), WaitEnds(false)]

  /** One whose run starts late: it is cancelled and awaited all the same. */
  const LateRun: seq<Event> :=
    [Invoke, Schedule, StartTimeout, Starts(0), LeaveTimedOut, RequestCancel, RunEnds(0), WaitEnds(false)]

  /** `e` leads from `s` to `s'`. */
  ghost predicate Leads(s: State, e: Event, s': State) {
    Enabled(s, e) && Step(s, e) == s'
  }

  lemma Unfold(s: State, e: Event, s': State, rest: seq<Event>)
    requires Leads(s, e, s') && Legal(s', rest)
    ensures Legal(s, [e] + rest) && After(s, [e] + rest) == After(s', rest)
  {
    assert ([e] + rest)[1..] == rest;
  }

  lemma NoEvents(s: State)
    ensures Legal(s, []) && After(s, []) == s
  {
  }

  /** An invocation on the first loop, once it has one run in the given state. */
  function OneRun(published: Option<nat>, retired: set<nat>, state: RunState, phase: Phase): State {
    State([true], published, retired, [Run(0, state)], phase, {})
  }

  /** The end of both: the run is cancelled, finishes, and the wait for it ends in time. */
  lemma UnwindsInTime(published: Option<nat>, retired: set<nat>)
    ensures var s := OneRun(published, retired, Active, Cancelling(0));
            var rest := [RequestCancel, RunEnds(0), WaitEnds(false)];
            Legal(s, rest) && After(s, rest) == State([true], published, retired, [Run(0, Done)], NoCall, {0})
  {
    var s1 := OneRun(published, retired, Active, Cancelling(0));
    var s2 := OneRun(published, retired, Active, Awaiting(0));
    var s3 := OneRun(published, retired, Done, Awaiting(0));
    var s4 := State([true], published, retired, [Run(0, Done)], NoCall, {0});
    assert Leads(s1, RequestCancel, s2) && Leads(s2, RunEnds(0), s3) && Leads(s3, WaitEnds(false), s4);
    hide Leads, Legal, After;
    NoEvents(s4);
    Unfold(s3, WaitEnds(false), s4, []);
    Unfold(s2, RunEnds(0), s3, [WaitEnds(false)]);
    Unfold(s1, RequestCancel, s2, [RunEnds(0), WaitEnds(false)]);
    assert [RequestCancel] + [RunEnds(0), WaitEnds(false)] == [RequestCancel, RunEnds(0), WaitEnds(false)];
  }

  lemma CleanStates()
    ensures var s1 := State([true], Some(0), {}, [], Obtained(0), {});
            && Leads(Initial, Invoke, s1)
            && Leads(s1, Schedule, OneRun(Some(0), {}, Scheduled, Starting(0)))
    ensures Leads(OneRun(Some(0), {}, Scheduled, Starting(0)), Starts(0), OneRun(Some(0), {}, Active, Starting(0)))
    ensures Leads(OneRun(Some(0), {}, Active, Starting(0)), SeeStarted, OneRun(Some(0), {}, Active, Consuming(0)))
    ensures Leads(OneRun(Some(0), {}, Active, Consuming(0)), ConsumeEnds, OneRun(Some(0), {}, Active, Cancelling(0)))
  {
  }

  /** After the clean run the next invocation gets the same loop. */
  lemma CleanRunKeepsTheLoop()
    ensures Legal(Initial, CleanRun)
    ensures var s := After(Initial, CleanRun);
            s == State([true], Some(0), {}, [Run(0, Done)], NoCall, {0}) && Handed(s) == 0
  {
    var s1 := State([true], Some(0), {}, [], Obtained(0), {});
    var s2 := OneRun(Some(0), {}, Scheduled, Starting(0));
    var s3 := OneRun(Some(0), {}, Active, Starting(0));
    var s4 := OneRun(Some(0), {}, Active, Consuming(0));
    var s5 := OneRun(Some(0), {}, Active, Cancelling(0));
    CleanStates();
    UnwindsInTime(Some(0), {});
    hide Leads, Legal, After, OneRun;
    var rest := [RequestCancel, RunEnds(0), WaitEnds(false)];
    Unfold(s4, ConsumeEnds, s5, rest);
    Unfold(s3, SeeStarted, s4, [ConsumeEnds] + rest);
    Unfold(s2, Starts(0), s3, [SeeStarted] + ([ConsumeEnds] + rest));
    Unfold(s1, Schedule, s2, [Starts(0)] + ([SeeStarted] + ([ConsumeEnds] + rest)));
    Unfold(Initial, Invoke, s1, [Schedule] + ([Starts(0)] + ([SeeStarted] + ([ConsumeEnds] + rest))));
    assert [Invoke] + ([Schedule] + ([Starts(0)] + ([SeeStarted] + ([ConsumeEnds] + rest)))) == CleanRun;
  }

  lemma LateStates()
    ensures var s1 := State([true], Some(0), {}, [], Obtained(0), {});
            && Leads(Initial, Invoke, s1)
            && Leads(s1, Schedule, OneRun(Some(0), {}, Scheduled, Starting(0)))
    ensures Leads(OneRun(Some(0), {}, Scheduled, Starting(0)), StartTimeout, OneRun(None, {0}, Scheduled, TimedOut(0)))
    ensures Leads(OneRun(None, {0}, Scheduled, TimedOut(0)), Starts(0), OneRun(None, {0}, Active, TimedOut(0)))
    ensures Leads(OneRun(None, {0}, Active, TimedOut(0)), LeaveTimedOut, OneRun(None, {0}, Active, Cancelling(0)))
  {
  }

  /** After the late one it gets a fresh loop. */
  lemma LateRunLosesTheLoop()
    ensures Legal(Initial, LateRun)
    ensures var s := After(Initial, LateRun);
            s == State([true], None, {0}, [Run(0, Done)], NoCall, {0}) && Handed(s) == 1
  {
    var s1 := State([true], Some(0), {}, [], Obtained(0), {});
    var s2 := OneRun(Some(0), {}, Scheduled, Starting(0));
    var s3 := OneRun(None, {0}, Scheduled, TimedOut(0));
    var s4 := OneRun(None, {0}, Active, TimedOut(0));
    var s5 := OneRun(None, {0}, Active, Cancelling(0));
    LateStates();
    UnwindsInTime(None, {0});
    hide Leads, Legal, After, OneRun;
    var rest := [RequestCancel, RunEnds(0), WaitEnds(false)];
    Unfold(s4, LeaveTimedOut, s5, rest);
    Unfold(s3, Starts(0), s4, [LeaveTimedOut] + rest);
    Unfold(s2, StartTimeout, s3, [Starts(0)] + ([LeaveTimedOut] + rest));
    Unfold(s1, Schedule, s2, [StartTimeout] + ([Starts(0)] + ([LeaveTimedOut] + rest)));
    Unfold(Initial, Invoke, s1, [Schedule] + ([StartTimeout] + ([Starts(0)] + ([LeaveTimedOut] + rest))));
    assert [Invoke] + ([Schedule] + ([StartTimeout] + ([Starts(0)] + ([LeaveTimedOut] + rest)))) == LateRun;
  }

  // ---- the object that hands loops out ---------------------------------------------------------------------------

  /** `_AgentLoop`. `made` are the loops it ever made; their positions are the numbers the states above use. */
  class AgentLoop {
    var loop: EventLoop?
    ghost var made: seq<EventLoop>
    ghost var retired: set<EventLoop>

    /** The object and its loops are what the state says. */
    ghost predicate Shows(s: State)
      reads this, made
    {
      && |made| == |s.running| && (forall i :: 0 <= i < |made| ==> made[i].running == s.running[i])
      && (forall i, j :: 0 <= i < j < |made| ==> made[i] != made[j])
      && (s.published.None? <==> loop == null)
      && (s.published.Some? ==> s.published.value < |made| && made[s.published.value] == loop)
      && (forall i :: 0 <= i < |made| ==> (made[i] in retired <==> i in s.retired))
    }

    constructor ()
      ensures Shows(Initial)
    {
      loop, made, retired := null, [], {};
    }

    /** A loop confirmed to be running: the published one, or a fresh one. */
    method Get(ghost s: State) returns (l: EventLoop)
      requires Shows(s) && Sound(s) && Enabled(s, Invoke)
      modifies this`loop, this`made
      ensures Shows(Step(s, Invoke)) && made[Handed(s)] == l
      ensures l == loop && l.running && l !in retired
      ensures old(loop) != null && old(loop.running) ==> l == old(loop)
      ensures !(old(loop) != null && old(loop.running)) ==> fresh(l)
    {
      if loop != null && loop.running {
        return loop;
      }
      l := new EventLoop();
      loop := l;
      assert forall i :: i in s.retired ==> i < |s.running|;
      made := made + [l];
    }

    /** The published loop is withdrawn; a loop withdrawn before is left alone. */
    method Retire(l: EventLoop, ghost s: State, ghost at: nat)
      requires Shows(s) && at < |made| && made[at] == l
      modifies this`loop, this`retired
      ensures Shows(Withdraw(s, at))
      ensures old(loop) == l ==> loop == null && retired == old(retired) + {l}
      ensures old(loop) != l ==> loop == old(loop) && retired == old(retired)
    {
      if loop != l {
        return;
      }
      loop := null;
      retired := retired + {l};
    }
  }
}
