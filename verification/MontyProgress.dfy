/** The executor gets on with every step it takes, and awaits calls in the order in which they were deferred. */
module MontyProgress {
  import opened Options
  import opened MontyExecution
  import opened MontyConfluence
  import opened MontyTheorems

  // ---- progress -----------------------------------------------------------------------------------------------------

  /** How many ids the future snapshot asks for, if that is what the sandbox waits in. */
  function Asked(u: Setup, s: State): nat {
    if u.sandbox(s.history).Future? then |u.sandbox(s.history).ids| else 0
  }

  /** How many steps may be left before the next payload, or before the exit. */
  function Rank(u: Setup, s: State): int {
    match s.phase
    case Driving => 2 * Asked(u, s) + |s.pending| + 10
    case Barrier(_) => |s.pending| + 2
    case Inline(_) => 1
    case Collecting(next, _) => 2 * (Asked(u, s) - next) + 3
    case AwaitingOne(next, _, _) => 2 * (Asked(u, s) - next) + 2
    case Gathering(_) => 1
    case Interrupting(_) => 2
    case Cleaning(_) => 1
    case Exited(_) => 0
  }

  /** `s'` has one payload more than `s`, or is nearer to one. */
  ghost predicate GetsOn(u: Setup, s: State, s': State) {
    || |s'.history| == |s.history| + 1
    || (s'.history == s.history && 0 <= Rank(u, s') < Rank(u, s))
  }

  lemma DriveGetsOn(u: Setup, s: State)
    requires s.phase.Driving?
    ensures GetsOn(u, s, Drive(u, s))
  {
    hide Rejection;
  }

  lemma CollectGetsOn(u: Setup, s: State, ids: seq<int>)
    requires s.phase.Collecting? && s.phase.next <= |ids| && u.sandbox(s.history) == Future(ids)
    ensures GetsOn(u, s, Collect(u, s, ids))
  {
    hide Remove;
  }

  lemma AdvanceLowersRank(u: Setup, s: State, r: Ref)
    requires Inv(u, s, r) && CanAdvance(u, s)
    ensures GetsOn(u, s, AdvanceStep(u, s)) && 0 <= Rank(u, s)
  {
    hide Tables, Outcomes, Known, Statuses, Remove, Without, Distinct, Rejection, Gathered, Started;
    if s.phase.Driving? {
      DriveGetsOn(u, s);
      hide Drive, GetsOn, Inv;
    } else if s.phase.Collecting? {
      CollectGetsOn(u, s, u.sandbox(s.history).ids);
      hide Collect, GetsOn, Inv;
    }
  }

  /** In every run: when the executor takes a step, it makes a payload or comes nearer to one or to its exit; so between
      two events of the bodies it takes finitely many steps before it resumes the sandbox, waits, or is done. */
  lemma AdvanceMakesProgress(u: Setup, events: seq<Event>, s: State)
    requires SandboxContract(u.sandbox, u.host) && Reaches(u, Start, events, s) && CanAdvance(u, s)
    ensures GetsOn(u, s, Step(u, s, Advance)) && 0 <= Rank(u, s)
  {
    StartTracks(u);
    ReachableTracks(u, Start, events, s);
    var r := RefRun(u.sandbox, u.host, |s.history|);
    AdvanceLowersRank(u, s, r);
    hide RefRun, Reaches, SandboxContract, Rank, GetsOn;
  }

  // ---- order --------------------------------------------------------------------------------------------------------

  /** Payload `k` deferred the call `id`. */
  ghost predicate DeferredAs(sandbox: Sandbox, history: seq<Resume>, k: nat, id: int) {
    && k < |history| && history[k] == Deferred
    && sandbox(history[..k]).Function? && sandbox(history[..k]).callId == id
  }

  /** `a` was deferred before `b`. */
  ghost predicate Before(sandbox: Sandbox, history: seq<Resume>, a: int, b: int) {
    forall k: nat, l: nat :: DeferredAs(sandbox, history, k, a) && DeferredAs(sandbox, history, l, b) ==> k < l
  }

  ghost predicate InOrder(sandbox: Sandbox, history: seq<Resume>, ids: seq<int>) {
    forall i, j :: 0 <= i < j < |ids| ==> Before(sandbox, history, ids[i], ids[j])
  }

  /** The call a barrier awaits, then those that are pending. */
  function Line(s: State): seq<int> {
    (if s.phase.Barrier? then [s.phase.awaited] else []) + s.pending
  }

  lemma {:induction false} RemoveKeepsOrder(sandbox: Sandbox, history: seq<Resume>, ids: seq<int>, id: int)
    requires InOrder(sandbox, history, ids)
    ensures InOrder(sandbox, history, Remove(ids, id)) && forall x :: x in Remove(ids, id) ==> x in ids
  {
    hide Before;
    if ids != [] {
      var rest := ids[1..];
      assert InOrder(sandbox, history, rest);
      RemoveKeepsOrder(sandbox, history, rest, id);
      forall x | x in rest ensures Before(sandbox, history, ids[0], x) {
        var k :| 0 <= k < |rest| && rest[k] == x;
        assert ids[k + 1] == x;
      }
    }
  }

  lemma {:induction false} WithoutKeepsOrder(sandbox: Sandbox, history: seq<Resume>, ids: seq<int>, gone: set<int>)
    requires InOrder(sandbox, history, ids)
    ensures InOrder(sandbox, history, Without(ids, gone)) && forall x :: x in Without(ids, gone) ==> x in ids
  {
    hide Before;
    if ids != [] {
      var rest := ids[1..];
      assert InOrder(sandbox, history, rest);
      WithoutKeepsOrder(sandbox, history, rest, gone);
      forall x | x in rest ensures Before(sandbox, history, ids[0], x) {
        var k :| 0 <= k < |rest| && rest[k] == x;
        assert ids[k + 1] == x;
      }
    }
  }

  /** One more payload that defers none of these calls changes nothing of their order. */
  lemma PayloadKeepsOrder(sandbox: Sandbox, history: seq<Resume>, payload: Resume, ids: seq<int>)
    requires InOrder(sandbox, history, ids)
    requires payload == Deferred && sandbox(history).Function? ==> sandbox(history).callId !in ids
    ensures InOrder(sandbox, history + [payload], ids)
  {
    var more := history + [payload];
    forall k: nat, id | id in ids ensures DeferredAs(sandbox, more, k, id) <==> DeferredAs(sandbox, history, k, id) {
      assert k <= |history| ==> more[..k] == history[..k];
      assert history[..|history|] == history;
    }
    hide DeferredAs;
    forall i, j | 0 <= i < j < |ids| ensures Before(sandbox, more, ids[i], ids[j]) {
      assert Before(sandbox, history, ids[i], ids[j]);
      assert ids[i] in ids && ids[j] in ids;
    }
  }

  /** A call that is deferred now joins the end of the line. */
  lemma DeferralKeepsOrder(sandbox: Sandbox, history: seq<Resume>, ids: seq<int>, id: int)
    requires InOrder(sandbox, history, ids) && id !in ids
    requires sandbox(history).Function? && sandbox(history).callId == id
    requires forall k: nat :: !DeferredAs(sandbox, history, k, id)
    ensures InOrder(sandbox, history + [Deferred], ids + [id])
  {
    var more := history + [Deferred];
    PayloadKeepsOrder(sandbox, history, Deferred, ids);
    forall i, l: nat, k: nat | 0 <= i < |ids| && DeferredAs(sandbox, more, k, ids[i]) && DeferredAs(sandbox, more, l,
    id) ensures k < l
    {
      assert k <= |history| ==> more[..k] == history[..k];
      assert l <= |history| ==> more[..l] == history[..l];
      assert history[..|history|] == history;
      assert l < |history| ==> DeferredAs(sandbox, history, l, id);
      assert ids[i] in ids;
    }
    hide DeferredAs;
    forall i, j | 0 <= i < j < |ids + [id]| ensures Before(sandbox, more, (ids + [id])[i], (ids + [id])[j]) {
      if j < |ids| {
        assert Before(sandbox, more, ids[i], ids[j]);
      }
    }
  }

  /** Whatever was deferred is among the calls the sandbox has used. */
  ghost predicate UsedWhenDeferred(sandbox: Sandbox, r: Ref) {
    forall k: nat, id :: DeferredAs(sandbox, r.history, k, id) ==> id in r.used
  }

  lemma RefStepUses(sandbox: Sandbox, host: Host, r: Ref)
    requires UsedWhenDeferred(sandbox, r)
    ensures UsedWhenDeferred(sandbox, RefStep(sandbox, host, r))
  {
    var next := RefStep(sandbox, host, r);
    forall k: nat, id | DeferredAs(sandbox, next.history, k, id) ensures id in next.used {
      assert k <= |r.history| ==> next.history[..k] == r.history[..k];
      assert r.history[..|r.history|] == r.history;
      if k < |r.history| {
        assert DeferredAs(sandbox, r.history, k, id);
      }
    }
  }

  lemma {:induction false} RefRunUses(sandbox: Sandbox, host: Host, steps: nat)
    ensures UsedWhenDeferred(sandbox, RefRun(sandbox, host, steps))
  {
    if steps > 0 {
      RefRunUses(sandbox, host, steps - 1);
      RefStepUses(sandbox, host, RefRun(sandbox, host, steps - 1));
    }
  }

  ghost predicate LineInOrder(u: Setup, s: State) {
    Ending(s.phase) || InOrder(u.sandbox, s.history, Line(s))
  }

  lemma BarrierKeepsLine(u: Setup, s: State, early: map<int, Outcome>, call: Snapshot)
    requires InOrder(u.sandbox, s.history, s.pending) && u.sandbox(s.history) == call && call.Function?
    ensures LineInOrder(u, BarrierTurn(u, s.(preResolved := early), call))
  {
    var s' := BarrierTurn(u, s.(preResolved := early), call);
    if s.pending != [] && s.pending[0] in s.bodies {
      assert Line(s') == s.pending;
    } else if u.host.refuses(s.accepted).Some? {
      PayloadKeepsOrder(u.sandbox, s.history, Answer(Raised(u.host.refuses(s.accepted).value)), s.pending);
      assert Line(s') == s.pending;
    } else {
      assert Line(s') == s.pending;
    }
  }

  lemma DriveKeepsLine(u: Setup, s: State, r: Ref)
    requires InvLive(u, s, r) && AsksProperly(u.sandbox, r) && UsedWhenDeferred(u.sandbox, r) && s.phase.Driving?
    requires InOrder(u.sandbox, s.history, s.pending)
    ensures LineInOrder(u, Drive(u, s))
  {
    var s' := Drive(u, s);
    var asked := u.sandbox(s.history);
    if asked.Function? && Rejection(u.host, asked).None? && asked.name in u.host.sequential {
      assert s.(preResolved := s.preResolved) == s;
      BarrierKeepsLine(u, s, s.preResolved, asked);
    } else if asked.Function? && Rejection(u.host, asked).None? && u.host.refuses(s.accepted).None? {
      assert asked.callId !in s.pending;
      DeferralKeepsOrder(u.sandbox, s.history, s.pending, asked.callId);
      assert Line(s') == s.pending + [asked.callId];
    } else if s'.history != s.history {
      PayloadKeepsOrder(u.sandbox, s.history, s'.history[|s.history|], s.pending);
      assert s'.history == s.history + [s'.history[|s.history|]] && Line(s') == s.pending;
    } else {
      assert Ending(s'.phase) || Line(s') == s.pending;
    }
    hide InvLive, InOrder, Before;
  }

  lemma CollectKeepsLine(u: Setup, s: State, ids: seq<int>)
    requires s.phase.Collecting? && s.phase.next <= |ids| && u.sandbox(s.history) == Future(ids)
    requires InOrder(u.sandbox, s.history, s.pending)
    ensures LineInOrder(u, Collect(u, s, ids))
  {
    hide Before, InOrder;
    var s' := Collect(u, s, ids);
    assert Line(s') == s'.pending;
    if s.phase.next < |ids| {
      RemoveKeepsOrder(u.sandbox, s.history, s.pending, ids[s.phase.next]);
    } else if s'.history != s.history {
      PayloadKeepsOrder(u.sandbox, s.history, Results(s.phase.results), s.pending);
    }
  }

  lemma GatheringKeepsLine(u: Setup, s: State)
    requires s.phase.Gathering? && CanAdvance(u, s) && InOrder(u.sandbox, s.history, s.pending)
    ensures LineInOrder(u, AdvanceStep(u, s))
  {
    var s', ids := AdvanceStep(u, s), u.sandbox(s.history).ids;
    hide Before, InOrder, Without, CanAdvance;
    WithoutKeepsOrder(u.sandbox, s.history, s.pending, (set id | id in ids) - s.phase.results.Keys);
    PayloadKeepsOrder(u.sandbox, s.history, Results(Gathered(s, ids)), s'.pending);
    assert Line(s') == s'.pending;
  }

  lemma OthersKeepLine(u: Setup, s: State, r: Ref)
    requires InvLive(u, s, r) && CanAdvance(u, s) && !s.phase.Driving? && InOrder(u.sandbox, s.history, Line(s))
    ensures LineInOrder(u, AdvanceStep(u, s))
  {
    hide InvLive, Before;
    if s.phase.Barrier? {
      assert s.pending == Line(s)[1..];
      BarrierKeepsLine(u, s, s.preResolved[s.phase.awaited := s.bodies[s.phase.awaited].outcome], u.sandbox(s.history));
    } else {
      assert Line(s) == s.pending;
      hide InOrder;
      if s.phase.Collecting? {
        CollectKeepsLine(u, s, u.sandbox(s.history).ids);
      } else if s.phase.Gathering? {
        GatheringKeepsLine(u, s);
      } else if s.phase.Inline? {
        PayloadKeepsOrder(u.sandbox, s.history, Answer(s.bodies[s.phase.callId].outcome), s.pending);
        assert Line(AdvanceStep(u, s)) == s.pending;
      } else {
        assert Line(AdvanceStep(u, s)) == s.pending;
      }
    }
  }

  lemma StepKeepsLine(u: Setup, s: State, e: Event)
    requires SandboxContract(u.sandbox, u.host) && Tracks(u, s) && LineInOrder(u, s) && Enabled(u, s, e)
    ensures LineInOrder(u, Step(u, s, e))
  {
    var r := RefRun(u.sandbox, u.host, |s.history|);
    RefRunUses(u.sandbox, u.host, |s.history|);
    assert AsksProperly(u.sandbox, r);
    hide RefRun, SandboxContract, AsksProperly, UsedWhenDeferred, InOrder;
    if e.Advance? && !Ending(s.phase) {
      if s.phase.Driving? {
        assert Line(s) == s.pending;
        DriveKeepsLine(u, s, r);
      } else {
        OthersKeepLine(u, s, r);
      }
    }
  }

  lemma {:induction false} LineStaysInOrder(u: Setup, first: State, events: seq<Event>, last: State)
    requires SandboxContract(u.sandbox, u.host) && Tracks(u, first) && LineInOrder(u, first)
    requires Reaches(u, first, events, last)
    ensures LineInOrder(u, last)
    decreases |events|
  {
    if events != [] {
      var next := Step(u, first, events[0]);
      StepKeepsLine(u, first, events[0]);
      assert Reaches(u, first, [events[0]], next);
      ReachableTracks(u, first, [events[0]], next);
      hide LineInOrder, Tracks, Step, SandboxContract;
      LineStaysInOrder(u, next, events[1..], last);
    }
  }

  /** In every run: a barrier awaits a call that was deferred before all that are still pending, and those are in the
      order in which the sandbox made them. */
  lemma BarrierAwaitsTheOldest(u: Setup, events: seq<Event>, s: State)
    requires SandboxContract(u.sandbox, u.host) && Reaches(u, Start, events, s) && !Ending(s.phase)
    ensures forall i, j :: 0 <= i < j < |s.pending| ==> Before(u.sandbox, s.history, s.pending[i], s.pending[j])
    ensures s.phase.Barrier? ==> forall id :: id in s.pending ==> Before(u.sandbox, s.history, s.phase.awaited, id)
  {
    StartTracks(u);
    LineStaysInOrder(u, Start, events, s);
    hide Reaches, SandboxContract, Before;
    if s.phase.Barrier? {
      var line := Line(s);
      forall i | 0 <= i < |s.pending| ensures line[i + 1] == s.pending[i] {
      }
      forall id | id in s.pending ensures Before(u.sandbox, s.history, s.phase.awaited, id) {
        var i :| 0 <= i < |s.pending| && s.pending[i] == id;
        assert line[i + 1] == id && line[0] == s.phase.awaited;
      }
      forall i, j | 0 <= i < j < |s.pending| ensures Before(u.sandbox, s.history, s.pending[i], s.pending[j]) {
        assert line[i + 1] == s.pending[i] && line[j + 1] == s.pending[j];
      }
    } else {
      assert Line(s) == s.pending;
    }
  }
}
