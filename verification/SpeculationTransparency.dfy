/** When early launches change nothing a snippet can see: executions, recorded calls and returns, refusals and the
    order and content of what the sandbox receives are those of the cold run over the same events. */
module SpeculationTransparency {
  import opened Options
  import opened PythonDict
  import opened PythonRepr
  import opened CanonicalKey
  import opened SpeculationStore
  import opened SpeculativeRun
  import opened SpeculationConservation

  // ---- what makes a claimed launch interchangeable with the call that claims it ------------------------------------

  ghost predicate FiledQueue(p: Printable, key: string, q: seq<Launch>) {
    forall l :: l in q ==> Key(p, l.sandboxName, l.kwargs) == key
  }

  ghost predicate FiledWatch(p: Printable, watch: Watch) {
    forall entry :: entry in watch.calls ==> FiledQueue(p, entry.0, entry.1)
  }

  ghost predicate Filed(p: Printable, parts: Dict<string, Watch>) {
    forall part :: part in parts ==> FiledWatch(p, part.1)
  }

  ghost predicate SameArgs(l: Launch, part: CallPart) {
    MeaningOf(l.kwargs) == MeaningOf(part.args)
  }

  ghost predicate Numbered(s: Session) {
    forall call :: call in s.pending ==> call.run < |s.executions| && call.n <= s.executions[call.run].callCount
  }

  ghost predicate MatchedClaim(s: Session, claim: (CallId, Launch)) {
    claim.0 in s.pending && SameArgs(claim.1, s.pending[claim.0].part)
  }

  ghost predicate Matched(s: Session, claims: Dict<CallId, Launch>) {
    && (forall i, j :: 0 <= i < j < |claims| ==> claims[i].0 != claims[j].0)
    && (forall i :: 0 <= i < |claims| ==> MatchedClaim(s, claims[i]))
  }

  ghost predicate Sound(setup: Setup, w: World) {
    && Accounted(w)
    && Numbered(w.session)
    && Filed(setup.p, w.store.parts)
    && Matched(w.session, w.claims)
  }

  // ---- filing ------------------------------------------------------------------------------------------------------

  lemma PutFiled(p: Printable, parts: Dict<string, Watch>, id: string, watch: Watch)
    requires Filed(p, parts) && FiledWatch(p, watch)
    ensures Filed(p, Put(parts, id, watch))
  {
    hide FiledWatch;
  }

  lemma DeleteFiled(p: Printable, parts: Dict<string, Watch>, id: string)
    requires Filed(p, parts)
    ensures Filed(p, Delete(parts, id))
  {
    hide FiledWatch;
  }

  lemma GetFiled(p: Printable, parts: Dict<string, Watch>, id: string, step: int)
    requires Filed(p, parts)
    ensures FiledWatch(p, Get(parts, id, NewWatch(step)))
  {
    if Has(parts, id) {
      assert parts[Find(parts, id)] in parts;
    }
  }

  lemma FiledInQueue(p: Printable, watch: Watch, key: string)
    requires FiledWatch(p, watch)
    ensures FiledQueue(p, key, Queue(watch, key))
  {
    hide FiledQueue;
    if Has(watch.calls, key) {
      assert watch.calls[Find(watch.calls, key)] in watch.calls;
    } else {
      assert FiledQueue(p, key, []) by {
        NothingFiled(p, key);
      }
    }
  }

  lemma NothingFiled(p: Printable, key: string)
    ensures FiledQueue(p, key, [])
  {
  }

  lemma RefiledWatch(p: Printable, watch: Watch, key: string, q: seq<Launch>, watch': Watch)
    requires FiledWatch(p, watch) && FiledQueue(p, key, q) && watch'.calls == Put(watch.calls, key, q)
    ensures FiledWatch(p, watch')
  {
    hide FiledQueue;
  }

  lemma LaunchFiled(setup: Setup, w: World, id: string, call: Extracted)
    requires Filed(setup.p, w.store.parts)
    ensures Filed(setup.p, LaunchBelowCap(setup, w, id, call).store.parts)
  {
    var c := ContextOf(setup, w);
    var l := NewLaunch(c, w.store, call);
    var watch := WatchOf(c, w.store, id);
    var key := KeyOf(c.p, call);
    assert Key(c.p, l.sandboxName, l.kwargs) == key;
    GetFiled(setup.p, w.store.parts, id, w.step);
    FiledInQueue(setup.p, watch, key);
    OneMoreFiled(setup.p, key, Queue(watch, key), l);
    hide FiledQueue, Queue, KeyOf, FiledWatch, Filed;
    RefiledWatch(setup.p, watch, key, Queue(watch, key) + [l], File(watch, key, l));
    PutFiled(setup.p, w.store.parts, id, File(watch, key, l));
  }

  lemma OneMoreFiled(p: Printable, key: string, q: seq<Launch>, l: Launch)
    requires FiledQueue(p, key, q) && Key(p, l.sandboxName, l.kwargs) == key
    ensures FiledQueue(p, key, q + [l])
  {
    hide Key;
  }

  lemma OneLessFiled(p: Printable, key: string, q: seq<Launch>)
    requires FiledQueue(p, key, q) && q != []
    ensures FiledQueue(p, key, q[1..]) && Key(p, q[0].sandboxName, q[0].kwargs) == key
  {
    hide Key;
    var first := q[0];
    assert first in q;
  }

  lemma ClaimFiled(p: Printable, parts: Dict<string, Watch>, parent: string, key: string)
    requires Filed(p, parts)
    ensures Filed(p, Claim(parts, parent, key).1)
    ensures var l := Claim(parts, parent, key).0; l.Some? ==> Key(p, l.value.sandboxName, l.value.kwargs) == key
  {
    var i := Claimed(parts, parent, key);
    if i < |parts| {
      var part := parts[i];
      assert part in parts;
      FiledInQueue(p, part.1, key);
      OneLessFiled(p, key, Queue(part.1, key));
      hide FiledQueue, Queue, Claimed, Key;
      RefiledWatch(p, part.1, key, Queue(part.1, key)[1..], PopFront(part.1, key));
      hide FiledWatch, PopFront;
    }
  }

  // ---- one step ---------------------------------------------------------------------------------------------------

  lemma DispatchSound(setup: Setup, w: World, run: nat, name: string, kwargs: Value)
    requires Sound(setup, w)
    ensures Sound(setup, Dispatched(setup, w, run, name, kwargs))
  {
    hide Accounted, Numbered, Key, Claim, Queued, Filed, Matched, Reserve;
    DispatchedPlaces(setup, w, run, name, kwargs);
    ReserveNumbered(setup, w.session, run, name, kwargs);
    if HasBudget(setup, w.session, run) {
      ReserveMatched(setup, w.session, run, name, kwargs, w.claims);
      ClaimSound(setup, w, run, name, kwargs);
    } else {
      RefusalMatched(setup, w.session, run, name, kwargs, w.claims);
    }
  }

  lemma ClaimSound(setup: Setup, w: World, run: nat, name: string, kwargs: Value)
    requires Sound(setup, w) && HasBudget(setup, w.session, run)
    requires Matched(Reserve(setup, w.session, run, name, kwargs), w.claims)
    ensures var w' := Dispatched(setup, w, run, name, kwargs);
            && Filed(setup.p, w'.store.parts)
            && Matched(w'.session, w'.claims)
  {
    var key := Key(setup.p, name, kwargs);
    var parent := w.session.executions[run].parent;
    ClaimFiled(setup.p, w.store.parts, parent, key);
    Claiming(w.store.parts, parent, key, key);
    hide Claim, Queued, Filed, Key, Accounted, Numbered, Matched, Reserve, MeaningOf;
    var (l, parts) := Claim(w.store.parts, parent, key);
    if l.Some? {
      KeyIdentity(setup.p, l.value.sandboxName, l.value.kwargs, name, kwargs);
      assert SameArgs(l.value, PartOf(w.session, run, name, kwargs));
      NewClaimMatched(setup, w.session, run, name, kwargs, w.claims, l.value);
    }
  }

  lemma ReserveNumbered(setup: Setup, s: Session, run: nat, name: string, kwargs: Value)
    requires Numbered(s)
    ensures Numbered(Reserve(setup, s, run, name, kwargs))
    ensures Reserve(setup, s, run, name, kwargs).renames == s.renames
  {
  }

  lemma RefusalMatched(setup: Setup, s: Session, run: nat, name: string, kwargs: Value, claims: Dict<CallId, Launch>)
    requires Matched(s, claims) && !HasBudget(setup, s, run)
    ensures Matched(Reserve(setup, s, run, name, kwargs), claims)
  {
    hide SameArgs;
    forall i | 0 <= i < |claims| ensures MatchedClaim(Reserve(setup, s, run, name, kwargs), claims[i]) {
      assert MatchedClaim(s, claims[i]);
    }
  }

  /** The id of a new call is not in use. */
  lemma NextIdFresh(s: Session, run: nat)
    requires Numbered(s) && run < |s.executions|
    ensures NextId(s, run) !in s.pending
  {
  }

  lemma ReserveMatched(setup: Setup, s: Session, run: nat, name: string, kwargs: Value, claims: Dict<CallId, Launch>)
    requires Numbered(s) && Matched(s, claims) && HasBudget(setup, s, run)
    ensures Matched(Reserve(setup, s, run, name, kwargs), claims)
  {
    NextIdFresh(s, run);
    hide SameArgs, Numbered;
    forall i | 0 <= i < |claims| ensures MatchedClaim(Reserve(setup, s, run, name, kwargs), claims[i]) {
      assert MatchedClaim(s, claims[i]);
    }
  }

  lemma NewClaimMatched(setup: Setup, s: Session, run: nat, name: string, kwargs: Value, claims: Dict<CallId, Launch>,
      l: Launch)
    requires Numbered(s) && Matched(s, claims) && HasBudget(setup, s, run)
    requires Matched(Reserve(setup, s, run, name, kwargs), claims)
    requires SameArgs(l, PartOf(s, run, name, kwargs))
    ensures Matched(Reserve(setup, s, run, name, kwargs), claims + [(NextId(s, run), l)])
  {
    NextIdFresh(s, run);
    hide SameArgs, Numbered;
    forall i | 0 <= i < |claims| ensures claims[i].0 != NextId(s, run) {
      assert MatchedClaim(s, claims[i]);
    }
  }

  lemma RecordMatched(s: Session, call: CallId, claims: Dict<CallId, Launch>)
    requires Numbered(s) && Matched(s, claims)
    ensures Numbered(Record(s, call)) && Matched(Record(s, call), claims)
  {
    hide SameArgs;
    forall i | 0 <= i < |claims| ensures MatchedClaim(Record(s, call), claims[i]) {
      assert MatchedClaim(s, claims[i]);
    }
  }

  /** A resolved call leaves the pending calls and the claims together. */
  lemma ReleaseMatched(s: Session, s': Session, call: CallId, claims: Dict<CallId, Launch>)
    requires Numbered(s) && Matched(s, claims)
    requires s'.pending == s.pending - {call} && |s'.executions| == |s.executions|
    requires forall r :: 0 <= r < |s.executions| ==> s'.executions[r].callCount == s.executions[r].callCount
    ensures Numbered(s') && Matched(s', Delete(claims, call))
  {
    hide SameArgs;
    var left := Delete(claims, call);
    forall i | 0 <= i < |left| ensures MatchedClaim(s', left[i]) {
      var j := if i < Find(claims, call) then i else i + 1;
      assert left[i] == claims[j] && MatchedClaim(s, claims[j]);
    }
  }

  lemma FinishKeepsCounts(s: Session, call: CallId, outcome: Outcome)
    requires Ready(s, call, true)
    ensures var s' := Finish(s, call, outcome);
            && s'.pending == s.pending - {call} && |s'.executions| == |s.executions| && s'.renames == s.renames
            && forall r :: 0 <= r < |s.executions| ==> s'.executions[r].callCount == s.executions[r].callCount
  {
  }

  lemma NoteSound(setup: Setup, w: World, id: string, note: Watch -> Watch)
    requires Filed(setup.p, w.store.parts) && (note == NoteHit || note == NoteMiss)
    ensures Filed(setup.p, Noted(w, id, note).store.parts)
    ensures Queued(Noted(w, id, note).store.parts) == Queued(w.store.parts)
  {
    Noting(w, id, note);
    GetFiled(setup.p, w.store.parts, id, w.step);
    var watch := Get(w.store.parts, id, NewWatch(w.step));
    assert FiledWatch(setup.p, note(watch)) by {
      assert note(watch).calls == watch.calls;
    }
    PutFiled(setup.p, w.store.parts, id, note(watch));
  }

  lemma BeginSound(setup: Setup, w: World, call: CallId, eligible: bool)
    requires Sound(setup, w)
    ensures Sound(setup, Begun(w, call, eligible)) && Begun(w, call, eligible).session == Record(w.session, call)
  {
    BegunPlaces(w, call, eligible);
    RecordMatched(w.session, call, w.claims);
    hide Accounted, Numbered, Matched, Queued, Filed;
    if Ready(w.session, call, false) {
      NoteSound(setup, w.(session := Record(w.session, call)), ParentOf(w.session, call), NoteMiss);
    }
  }

  /** The call settles from a launch that ran the very tool the call names. */
  ghost predicate Own(w: World, e: Event) {
    e.Settle? && Ready(w.session, e.call, true) && Has(w.claims, e.call) ==>
      Get(w.claims, e.call, NoLaunch).originalName == w.session.pending[e.call].part.toolName
  }

  lemma SettleSound(setup: Setup, w: World, call: CallId)
    requires Sound(setup, w)
    ensures Sound(setup, Settled(setup, w, call))
  {
    SettledPlaces(setup, w, call);
    if Ready(w.session, call, true) {
      var part, l := w.session.pending[call].part, Get(w.claims, call, NoLaunch);
      var cold, warm := setup.tools(part.toolName, MeaningOf(part.args)),
          setup.tools(l.originalName, MeaningOf(l.kwargs));
      var outcome := if Has(w.claims, call) then warm else cold;
      FinishKeepsCounts(w.session, call, outcome);
      ReleaseMatched(w.session, Finish(w.session, call, outcome), call, w.claims);
      NoteSound(setup, w, ParentOf(w.session, call), NoteHit);
      if Has(w.claims, call) {
        ClaimedNotEvicted(w, call);
      }
      hide Accounted, Numbered, Matched, Queued, Filed, Finish, MeaningOf;
    }
  }

  /** Resolving a call from a launch of its own tool is resolving it from its own outcome: the arguments mean the
      same, as their keys agree, and the launch was not cancelled. */
  lemma SettleTransparent(setup: Setup, w: World, call: CallId)
    requires Sound(setup, w) && Own(w, Settle(call))
    ensures Settled(setup, w, call).session == ColdStep(setup, w.session, Settle(call))
  {
    if Ready(w.session, call, true) && Has(w.claims, call) {
      ClaimedNotEvicted(w, call);
      assert MatchedClaim(w.session, w.claims[Find(w.claims, call)]);
    }
    hide Accounted, Numbered, Matched, Queued, Filed, Finish, MeaningOf;
  }

  lemma AbandonSound(setup: Setup, w: World, call: CallId)
    requires Sound(setup, w)
    ensures Sound(setup, Abandoned(w, call)) && Abandoned(w, call).session == Drop(w.session, call)
  {
    AbandonedPlaces(w, call);
    ReleaseMatched(w.session, Drop(w.session, call), call, w.claims);
    hide Accounted, Numbered, Matched, Queued, Filed;
  }

  lemma LaunchSound(setup: Setup, w: World, id: string, call: Extracted)
    requires Sound(setup, w)
    ensures Sound(setup, LaunchBelowCap(setup, w, id, call))
  {
    var c := ContextOf(setup, w);
    LaunchFiled(setup, w, id, call);
    LaunchedPlaces(setup, w, id, call);
    Launching(c, w.store, id, call, "");
    hide Accounted, Numbered, Matched, Queued, Filed, LaunchInto;
  }

  /** Dropping watches only takes launches away. */
  ghost predicate Shrinks(p: Printable, parts: Dict<string, Watch>, parts': Dict<string, Watch>) {
    (Filed(p, parts) ==> Filed(p, parts')) && Queued(parts') <= Queued(parts)
  }

  lemma ObserveShrinks(p: Printable, w: World)
    ensures Shrinks(p, w.store.parts, Observed(w).store.parts)
  {
    Retiring(w.store.parts, w.step);
    RetiredParts(w.store.parts, w.step);
    hide Queued, FiledWatch, WaitingAll;
  }

  lemma ReplaceShrinks(p: Printable, w: World, id: string, step: int)
    ensures Shrinks(p, w.store.parts, Replace(w, id, NewWatch(step)).store.parts)
  {
    EmptyWatch(step, "");
    EmptyWatch(0, "");
    BagPut(w.store.parts, id, NewWatch(step), NewWatch(0), WatchBag);
    hide Bag, WatchBag;
    if Filed(p, w.store.parts) {
      NothingFiledYet(p, step);
      PutFiled(p, w.store.parts, id, NewWatch(step));
    }
  }

  lemma NothingFiledYet(p: Printable, step: int)
    ensures FiledWatch(p, NewWatch(step))
  {
  }

  lemma RekeyShrinks(p: Printable, w: World, id: string, newId: string)
    ensures Shrinks(p, w.store.parts, Rekeyed(w, id, newId).store.parts)
  {
    var watch := Get(w.store.parts, id, NewWatch(0));
    var left := Delete(w.store.parts, id);
    EmptyWatch(0, "");
    BagDelete(w.store.parts, id, NewWatch(0), WatchBag);
    BagPut(left, newId, watch, NewWatch(0), WatchBag);
    hide Bag, WatchBag;
    if Filed(p, w.store.parts) {
      GetFiled(p, w.store.parts, id, 0);
      DeleteFiled(p, w.store.parts, id);
      hide Filed, FiledWatch;
      PutFiled(p, left, newId, watch);
    }
  }

  lemma EvictShrinks(p: Printable, w: World, run: nat)
    ensures Shrinks(p, w.store.parts, Completed(w, run).store.parts)
  {
    if run < |w.session.executions| {
      var id := w.session.executions[run].parent;
      EmptyWatch(0, "");
      BagDelete(w.store.parts, id, NewWatch(0), WatchBag);
      if Filed(p, w.store.parts) {
        DeleteFiled(p, w.store.parts, id);
      }
      hide Bag, WatchBag, Filed;
    }
  }

  lemma CloseShrinks(p: Printable, w: World)
    ensures Shrinks(p, w.store.parts, Close(w.store).parts)
  {
    assert Queued([]) == multiset{};
    hide Bag;
  }

  lemma ShrinkSound(setup: Setup, w: World, w': World)
    requires Sound(setup, w) && Accounted(w')
    requires Shrinks(setup.p, w.store.parts, w'.store.parts) && w'.session == w.session && w'.claims == w.claims
    ensures Sound(setup, w')
  {
    hide Accounted, Numbered, Matched, Queued, Filed;
  }

  lemma ShrinkTwice(p: Printable, parts: Dict<string, Watch>, parts': Dict<string, Watch>, parts'': Dict<string, Watch>)
    requires Shrinks(p, parts, parts') && Shrinks(p, parts', parts'')
    ensures Shrinks(p, parts, parts'')
  {
    hide Queued, Filed;
  }

  lemma StoreEventShrinks(setup: Setup, w: World, e: Event)
    requires e.Observe? || e.PartStart? || e.Rekey? || e.Complete? || e.CloseStore?
    ensures Shrinks(setup.p, w.store.parts, Step(setup, w, e).store.parts)
  {
    hide Shrinks, Observed, Replace, Rekeyed, Completed, Close;
    match e
    case Observe => ObserveShrinks(setup.p, w);
    case PartStart(id) =>
      ObserveShrinks(setup.p, w);
      ReplaceShrinks(setup.p, Observed(w), id, w.step);
      ShrinkTwice(setup.p, w.store.parts, Observed(w).store.parts,
                  Replace(Observed(w), id, NewWatch(w.step)).store.parts);
    case Rekey(id, newId) => RekeyShrinks(setup.p, w, id, newId);
    case Complete(run) => EvictShrinks(setup.p, w, run);
    case CloseStore => CloseShrinks(setup.p, w);
  }

  lemma SoundIsAccounted(setup: Setup, w: World)
    requires Sound(setup, w)
    ensures Accounted(w)
  {
  }

  lemma StoreEventSound(setup: Setup, w: World, e: Event)
    requires Sound(setup, w)
    requires e.Observe? || e.PartStart? || e.Rekey? || e.Complete? || e.CloseStore?
    ensures Sound(setup, Step(setup, w, e)) && Step(setup, w, e).session == w.session
  {
    hide Accounted, Queued, Filed, Sound, EvictPart, Close, RetireStale, WatchBag, Shrinks;
    hide LaunchBelowCap, Dispatched, Begun, Settled, Abandoned, ColdStep, Bag;
    SoundIsAccounted(setup, w);
    StepAccounts(setup, w, e);
    StoreEventShrinks(setup, w, e);
    ShrinkSound(setup, w, Step(setup, w, e));
  }

  lemma StepSound(setup: Setup, w: World, e: Event)
    requires Sound(setup, w)
    ensures Sound(setup, Step(setup, w, e))
  {
    hide Sound, Dispatched, Begun, Settled, Abandoned, LaunchBelowCap, ColdStep, Observed, Replace, Rekeyed, Completed;
    match e
    case StashStep(_) => SessionSound(setup, w, e);
    case NextStep => NextSound(setup, w);
    case LaunchOne(id, extracted) => LaunchSound(setup, w, id, extracted);
    case StartExecution(_) => SessionSound(setup, w, e);
    case Feed(_) => SessionSound(setup, w, e);
    case Dispatch(run, name, kwargs) => DispatchSound(setup, w, run, name, kwargs);
    case Begin(call, eligible) => BeginSound(setup, w, call, eligible);
    case Settle(call) => SettleSound(setup, w, call);
    case Abandon(call) => AbandonSound(setup, w, call);
    case _ => StoreEventSound(setup, w, e);
  }

  lemma StepTransparent(setup: Setup, w: World, e: Event)
    requires Sound(setup, w) && Own(w, e)
    ensures Step(setup, w, e).session == ColdStep(setup, w.session, e)
  {
    match e
    case Settle(call) =>
      SettleTransparent(setup, w, call);
      hide Sound, Settled, ColdStep, Own;
    case Begin(call, eligible) =>
      BeginSound(setup, w, call, eligible);
      hide Sound, Begun, Record;
    case _ =>
      hide Sound, Own;
      OtherTransparent(setup, w, e);
  }

  lemma OtherTransparent(setup: Setup, w: World, e: Event)
    requires !e.Settle? && !e.Begin?
    ensures Step(setup, w, e).session == ColdStep(setup, w.session, e)
  {
    if e.Dispatch? {
      hide Claim, Reserve, Key;
    } else if e.Abandon? {
      hide Drop;
    } else {
      hide LaunchBelowCap, Finish, Record, Reserve, Bag, Queued, WatchBag, EvictPart, RetireStale, Close;
    }
  }

  lemma NextSound(setup: Setup, w: World)
    requires Sound(setup, w)
    ensures Sound(setup, Step(setup, w, NextStep))
  {
    hide Filed, Queued, Bag, SameArgs, Numbered, Matched;
  }

  lemma SessionSound(setup: Setup, w: World, e: Event)
    requires Sound(setup, w) && (e.StashStep? || e.StartExecution? || e.Feed?)
    ensures Sound(setup, Step(setup, w, e))
  {
    hide Filed, Queued, Bag, SameArgs;
    var s' := ColdStep(setup, w.session, e);
    forall i | 0 <= i < |w.claims| ensures MatchedClaim(s', w.claims[i]) {
      assert MatchedClaim(w.session, w.claims[i]);
    }
  }
}
