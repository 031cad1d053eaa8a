/** The capability object of one run, as its tasks and hooks update it. Every method is proved against a step of
    `BackgroundTools`. */
module BackgroundRuns {
  import opened Options
  import opened BackgroundTools

  class BackgroundRun {
    var phase: Phase
    var live: int
    var usage: int
    var stream: seq<Handed>
    var pending: nat
    var calls: nat
    ghost var liveCalls: set<nat>
    ghost var counted: set<nat>
    ghost var completed: seq<Handed>
    ghost var delivered: seq<Handed>

    ghost function View(): State
      reads this
    {
      State(phase, live, usage, stream, pending, calls, liveCalls, counted, completed, delivered)
    }

    /** Some run of tasks and node boundaries leads here. */
    ghost predicate Reached()
      reads this
    {
      exists events :: Legal(Initial, events) && After(Initial, events) == View()
    }

    twostate lemma StaysReached(e: Event)
      requires old(Reached()) && Enabled(old(View()), e) && View() == Step(old(View()), e)
      ensures Reached()
    {
      var events :| Legal(Initial, events) && After(Initial, events) == old(View());
      OneMore(Initial, events, e);
    }

    constructor ()
      ensures View() == Initial && Reached()
    {
      phase, live, usage, stream, pending, calls := Running, 0, 0, [], 0, 0;
      liveCalls, counted, completed, delivered := {}, {}, [], [];
      new;
      assert Legal(Initial, []) && After(Initial, []) == View();
    }

    /** What holds of every run holds of the object. */
    lemma Keeps()
      requires Reached()
      ensures live == |liveCalls| && usage == live + |counted| && completed == delivered + stream
      ensures phase.Ended? ==> pending > 0 || (live == 0 && delivered == completed)
    {
      var events :| Legal(Initial, events) && After(Initial, events) == View();
      OutcomesAreDeliveredInOrder(events);
      EndWaitsForCalls(events);
    }


    /** `wrap_tool_execute` up to the start of the task. */
    method Start() returns (call: nat)
      requires Enabled(View(), StartCall) && Reached()
      modifies this
      ensures call == old(calls) && View() == Step(old(View()), StartCall) && Reached()
    {
      call := calls;
      calls := calls + 1;
      usage := usage + 1;
      live := live + 1;
      liveCalls := liveCalls + {call};
      StaysReached(StartCall);
    }

    /** The end of a task: its outcome is sent and its reservation released without a pause in between. */
    method HandOver(call: nat, outcome: Outcome)
      requires Enabled(View(), TaskEnds(call, outcome)) && Reached()
      modifies this
      ensures View() == Step(old(View()), TaskEnds(call, outcome)) && Reached()
    {
      stream := stream + [Handed(call, outcome)];
      completed := completed + [Handed(call, outcome)];
      live := live - 1;
      usage := usage - 1;
      liveCalls := liveCalls - {call};
      StaysReached(TaskEnds(call, outcome));
    }

    /** Takes the oldest outcome that arrived. */
    method DeliverNext() returns (error: Option<string>)
      requires stream != []
      modifies this`stream, this`delivered, this`pending, this`phase
      ensures View() == Take(old(View()), 1)
      ensures error.None? <==> old(stream)[0].outcome.FollowUp?
    {
      var handed := stream[0];
      stream := stream[1..];
      delivered := delivered + [handed];
      if handed.outcome.Failure? {
        phase := Raised(handed.outcome.error);
        return Some(handed.outcome.error);
      }
      pending := pending + 1;
      error := None;
    }

    /** `after_node_run`, up to where it returns, raises, or waits for an outcome. */
    method AfterNodeRun(result: NodeResult)
      requires Enabled(View(), NodeEnds(result)) && Reached()
      modifies this
      ensures View() == Step(old(View()), NodeEnds(result)) && Reached()
    {
      if result.DeferredEnd? {
        phase := Paused;
        StaysReached(NodeEnds(result));
        return;
      }
      ghost var before := View();
      ghost var n := 0;
      while stream != []
        invariant n <= |before.stream| && View() == Take(before, n)
        invariant n > 0 ==> before.stream[n - 1].outcome.FollowUp?
        invariant SweepLength(before.stream) == n + SweepLength(before.stream[n..])
        decreases |stream|
      {
        TakeMore(before, n);
        var error := DeliverNext();
        n := n + 1;
        if error.Some? {
          StaysReached(NodeEnds(result));
          return;
        }
      }
      if result.End? {
        phase := if live > 0 && pending == 0 then Waiting else Ended;
      }
      StaysReached(NodeEnds(result));
    }

    /** The end of the wait in `after_node_run`. */
    method TakeAwaited()
      requires Enabled(View(), BackgroundTools.Event.Receive) && Reached()
      modifies this
      ensures View() == Step(old(View()), BackgroundTools.Event.Receive) && Reached()
    {
      var error := DeliverNext();
      if error.None? {
        phase := Ended;
      }
      StaysReached(BackgroundTools.Event.Receive);
    }
  }

  lemma TakeMore(s: State, n: nat)
    requires n < |s.stream| && (n > 0 ==> s.stream[n - 1].outcome.FollowUp?)
    ensures Take(s, n + 1) == Take(Take(s, n), 1)
    ensures SweepLength(s.stream[n..]) ==
            if s.stream[n].outcome.Failure? then 1 else 1 + SweepLength(s.stream[n + 1..])
  {
    assert s.stream[n..][..1] == [s.stream[n]];
    assert s.stream[n..][1..] == s.stream[n + 1..];
    assert s.stream[..n + 1] == s.stream[..n] + [s.stream[n]];
  }
}
