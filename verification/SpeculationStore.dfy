/** The store of early launches: a watch per streamed `run_code` part, each filing its launches first in, first
    out under the claim key of the call. */
module SpeculationStore {
  import opened Options
  import opened PythonDict
  import opened PythonRepr
  import opened CanonicalKey

  const MAX_SPECULATIONS_PER_PART: nat := 32

  /** A call read off the code: a sandbox function and literal keyword arguments. */
  datatype Extracted = Extracted(name: string, kwargs: Value)

  /** An early launch. `serial` counts launches over the whole run, `step` is the model step it started in. */
  datatype Launch = Launch(serial: nat, sandboxName: string, originalName: string, kwargs: Value, step: int)

  datatype Watch = Watch(
    runStep: int,
    demanded: Dict<string, nat>,
    launched: nat,
    calls: Dict<string, seq<Launch>>,
    hits: nat,
    misses: nat)

  datatype Store = Store(parts: Dict<string, Watch>, launched: nat, adopted: nat, evicted: nat)

  /** What a launch reads from its surroundings. */
  datatype Context = Context(p: Printable, cap: nat, renames: map<string, string>, step: int)

  function NewWatch(step: int): Watch {
    Watch(step, [], 0, [], 0, 0)
  }

  function Original(renames: map<string, string>, name: string): string {
    if name in renames then renames[name] else name
  }

  function KeyOf(p: Printable, call: Extracted): string {
    Key(p, call.name, call.kwargs)
  }

  // ---- the stream and prefetch side --------------------------------------------------------------------

  function Queue(w: Watch, key: string): seq<Launch> {
    Get(w.calls, key, [])
  }

  function Depth(key: string): Watch -> nat {
    (w: Watch) => |Queue(w, key)|
  }

  /** `_in_flight`: launches waiting under a key, over every part. */
  function InFlight(parts: Dict<string, Watch>, key: string): nat {
    Total(parts, Depth(key))
  }

  function NewLaunch(c: Context, s: Store, call: Extracted): Launch {
    Launch(s.launched, call.name, Original(c.renames, call.name), call.kwargs, c.step)
  }

  function File(w: Watch, key: string, l: Launch): Watch {
    w.(launched := w.launched + 1, calls := Put(w.calls, key, Queue(w, key) + [l]))
  }

  function WatchOf(c: Context, s: Store, id: string): Watch {
    Get(s.parts, id, NewWatch(c.step))
  }

  function LaunchInto(c: Context, s: Store, id: string, call: Extracted): Store {
    var w := File(WatchOf(c, s, id), KeyOf(c.p, call), NewLaunch(c, s, call));
    s.(parts := Put(s.parts, id, w), launched := s.launched + 1)
  }

  /** The launch loop of `prelaunch_for_execution`; `demanded` counts the occurrences met so far. */
  function Prelaunch(c: Context, s: Store, id: string, calls: seq<Extracted>, demanded: Dict<string, nat>): Store
    decreases |calls|
  {
    if calls == [] then s
    else
      var key := KeyOf(c.p, calls[0]);
      var n := Get(demanded, key, 0) + 1;
      var demanded' := Put(demanded, key, n);
      if n <= InFlight(s.parts, key) then Prelaunch(c, s, id, calls[1..], demanded')
      else if WatchOf(c, s, id).launched >= c.cap then s
      else Prelaunch(c, LaunchInto(c, s, id, calls[0]), id, calls[1..], demanded')
  }

  function Demand(w: Watch, key: string, n: nat): Watch {
    w.(demanded := Put(w.demanded, key, n))
  }

  /** The launch loop of `_scan`; `seen` counts the occurrences met so far. */
  function Scan(c: Context, s: Store, id: string, calls: seq<Extracted>, seen: Dict<string, nat>): Store
    decreases |calls|
  {
    if calls == [] then s
    else
      var key := KeyOf(c.p, calls[0]);
      var n := Get(seen, key, 0) + 1;
      var seen' := Put(seen, key, n);
      var w := WatchOf(c, s, id);
      if n <= Get(w.demanded, key, 0) then Scan(c, s, id, calls[1..], seen')
      else if w.launched >= c.cap then s
      else
        var s' := s.(parts := Put(s.parts, id, Demand(w, key, n)));
        if n <= InFlight(s'.parts, key) then Scan(c, s', id, calls[1..], seen')
        else Scan(c, LaunchInto(c, s', id, calls[0]), id, calls[1..], seen')
  }

  // ---- the execution side ---------------------------------------------------------------------------------

  /** The first part from position `i` that holds a launch under `key` and is, or is not, the claiming part. */
  function Holder(parts: Dict<string, Watch>, parent: string, key: string, own: bool, i: nat): (at: nat)
    requires i <= |parts|
    ensures i <= at <= |parts|
    ensures at < |parts| ==> (parts[at].0 == parent) == own && Queue(parts[at].1, key) != []
    ensures forall j :: i <= j < at ==> (parts[j].0 == parent) != own || Queue(parts[j].1, key) == []
    decreases |parts| - i
  {
    if i == |parts| || ((parts[i].0 == parent) == own && Queue(parts[i].1, key) != []) then i
    else Holder(parts, parent, key, own, i + 1)
  }

  /** Its own part first, then the others in insertion order. */
  function Claimed(parts: Dict<string, Watch>, parent: string, key: string): (at: nat)
    ensures at < |parts| ==> Queue(parts[at].1, key) != []
  {
    var own := Holder(parts, parent, key, true, 0);
    if own < |parts| then own else Holder(parts, parent, key, false, 0)
  }

  function PopFront(w: Watch, key: string): Watch
    requires Queue(w, key) != []
  {
    w.(calls := Put(w.calls, key, Queue(w, key)[1..]))
  }

  function Claim(parts: Dict<string, Watch>, parent: string, key: string): (Option<Launch>, Dict<string, Watch>) {
    var i := Claimed(parts, parent, key);
    if i < |parts| then
      (Some(Queue(parts[i].1, key)[0]), parts[i := (parts[i].0, PopFront(parts[i].1, key))])
    else (None, parts)
  }

  /** Launches still waiting in a watch, and in the whole store. */
  ghost function QueueBag(q: seq<Launch>): multiset<Launch> {
    multiset(q)
  }

  ghost function WatchBag(w: Watch): multiset<Launch> {
    Bag(w.calls, QueueBag)
  }

  ghost function Queued(parts: Dict<string, Watch>): multiset<Launch> {
    Bag(parts, WatchBag)
  }

  function QueueLength(q: seq<Launch>): nat {
    |q|
  }

  function Waiting(w: Watch): nat {
    Total(w.calls, QueueLength)
  }

  /** `_retire_stale`: drops the parts made before the step before `step`. */
  function Fresh(parts: Dict<string, Watch>, step: int): Dict<string, Watch> {
    if parts == [] then []
    else if parts[0].1.runStep >= step - 1 then [parts[0]] + Fresh(parts[1..], step)
    else Fresh(parts[1..], step)
  }

  function Stale(parts: Dict<string, Watch>, step: int): Dict<string, Watch> {
    if parts == [] then []
    else if parts[0].1.runStep >= step - 1 then Stale(parts[1..], step)
    else [parts[0]] + Stale(parts[1..], step)
  }

  function WaitingAll(parts: Dict<string, Watch>): nat {
    Total(parts, Waiting)
  }

  function RetireStale(s: Store, step: int): Store {
    s.(parts := Fresh(s.parts, step), evicted := s.evicted + WaitingAll(Stale(s.parts, step)))
  }

  function EvictPart(s: Store, id: string): Store {
    s.(parts := Delete(s.parts, id), evicted := s.evicted + Waiting(Get(s.parts, id, NewWatch(0))))
  }

  function Close(s: Store): Store {
    s.(parts := [], evicted := s.evicted + WaitingAll(s.parts))
  }

  // ---- what one operation does to the bag of waiting launches ------------------------------------------------

  lemma EmptyWatch(step: int, key: string)
    ensures WatchBag(NewWatch(step)) == multiset{} && Depth(key)(NewWatch(step)) == 0
  {
  }

  lemma Filing(w: Watch, key: string, l: Launch, other: string)
    ensures WatchBag(File(w, key, l)) == WatchBag(w) + multiset{l}
    ensures Queue(File(w, key, l), other) == if other == key then Queue(w, key) + [l] else Queue(w, other)
  {
    BagPut(w.calls, key, Queue(w, key) + [l], [], QueueBag);
    GetPut(w.calls, key, Queue(w, key) + [l], other, []);
  }

  lemma Popping(w: Watch, key: string, other: string)
    requires Queue(w, key) != []
    ensures Queue(w, key)[0] in WatchBag(w)
    ensures WatchBag(PopFront(w, key)) == WatchBag(w) - multiset{Queue(w, key)[0]}
    ensures Queue(PopFront(w, key), other) == if other == key then Queue(w, key)[1..] else Queue(w, other)
  {
    PoppingBag(w, key);
    GetPut(w.calls, key, Queue(w, key)[1..], other, []);
    hide Bag, Put, Has, WatchBag;
  }

  lemma PoppingBag(w: Watch, key: string)
    requires Queue(w, key) != []
    ensures Queue(w, key)[0] in WatchBag(w)
    ensures WatchBag(PopFront(w, key)) == WatchBag(w) - multiset{Queue(w, key)[0]}
  {
    var q := Queue(w, key);
    BagPut(w.calls, key, q[1..], [], QueueBag);
    hide Bag, Put, Has;
    assert q == [q[0]] + q[1..];
    assert q[0] in multiset(q);
  }

  lemma Launching(c: Context, s: Store, id: string, call: Extracted, key: string)
    ensures Queued(LaunchInto(c, s, id, call).parts) == Queued(s.parts) + multiset{NewLaunch(c, s, call)}
    ensures InFlight(LaunchInto(c, s, id, call).parts, key) ==
            InFlight(s.parts, key) + if key == KeyOf(c.p, call) then 1 else 0
    ensures WatchOf(c, LaunchInto(c, s, id, call), id) ==
            File(WatchOf(c, s, id), KeyOf(c.p, call), NewLaunch(c, s, call))
  {
    var w := WatchOf(c, s, id);
    var w' := File(w, KeyOf(c.p, call), NewLaunch(c, s, call));
    EmptyWatch(c.step, key);
    Filing(w, KeyOf(c.p, call), NewLaunch(c, s, call), key);
    BagPut(s.parts, id, w', NewWatch(c.step), WatchBag);
    TotalPut(s.parts, id, w', NewWatch(c.step), Depth(key));
    GetPut(s.parts, id, w', id, NewWatch(c.step));
  }

  /** A claim takes one waiting launch of that key, and fails only when there is none in any part. */
  lemma Claiming(parts: Dict<string, Watch>, parent: string, key: string, other: string)
    ensures var (l, parts') := Claim(parts, parent, key);
            && (l == None <==> InFlight(parts, key) == 0)
            && (l == None ==> parts' == parts)
            && (l.Some? ==> l.value in Queued(parts) && Queued(parts') == Queued(parts) - multiset{l.value})
            && InFlight(parts', other) == InFlight(parts, other) - if l.Some? && other == key then 1 else 0
  {
    var i := Claimed(parts, parent, key);
    if i < |parts| {
      var w := parts[i].1;
      Popping(w, key, other);
      BagUpdate(parts, i, parts[i].0, PopFront(w, key), WatchBag);
      TotalUpdate(parts, i, parts[i].0, PopFront(w, key), Depth(other));
      SomeWaiting(parts, key, i);
    } else {
      NoneWaiting(parts, key);
    }
  }

  /** Which launch a claim takes: the oldest of the claiming part under the key, if there is one, and else the oldest of
      the first part that has one. */
  lemma ClaimTakesOwnFirst(parts: Dict<string, Watch>, parent: string, key: string, i: nat)
    requires i < |parts| && Queue(parts[i].1, key) != []
    requires parts[i].0 != parent ==>
               forall j :: 0 <= j < |parts| && parts[j].0 == parent ==> Queue(parts[j].1, key) == []
    requires forall j :: 0 <= j < i && (parts[i].0 == parent ==> parts[j].0 == parent) ==> Queue(parts[j].1, key) == []
    ensures var (l, parts') := Claim(parts, parent, key);
            && l == Some(Queue(parts[i].1, key)[0])
            && |parts'| == |parts| && (forall j :: 0 <= j < |parts| && j != i ==> parts'[j] == parts[j])
            && parts'[i].0 == parts[i].0 && Queue(parts'[i].1, key) == Queue(parts[i].1, key)[1..]
            && forall other :: other != key ==> Queue(parts'[i].1, other) == Queue(parts[i].1, other)
  {
    assert Claimed(parts, parent, key) == i;
    forall other
      ensures Queue(PopFront(parts[i].1, key), other) ==
              if other == key then Queue(parts[i].1, key)[1..] else Queue(parts[i].1, other)
    {
      Popping(parts[i].1, key, other);
    }
    hide Queue, PopFront;
  }

  lemma {:induction false} NoneWaiting(parts: Dict<string, Watch>, key: string)
    requires forall j :: 0 <= j < |parts| ==> Queue(parts[j].1, key) == []
    ensures InFlight(parts, key) == 0
  {
    if parts != [] {
      NoneWaiting(parts[1..], key);
    }
  }

  lemma SomeWaiting(parts: Dict<string, Watch>, key: string, i: nat)
    requires i < |parts| && Queue(parts[i].1, key) != []
    ensures InFlight(parts, key) > 0
  {
    TotalUpdate(parts, i, parts[i].0, NewWatch(0), Depth(key));
    EmptyWatch(0, key);
  }

  lemma {:induction false} Retiring(parts: Dict<string, Watch>, step: int)
    ensures Queued(parts) == Queued(Fresh(parts, step)) + Queued(Stale(parts, step))
  {
    if parts != [] {
      Retiring(parts[1..], step);
      hide WatchBag;
      assert ([parts[0]] + Fresh(parts[1..], step))[1..] == Fresh(parts[1..], step);
      assert ([parts[0]] + Stale(parts[1..], step))[1..] == Stale(parts[1..], step);
    }
  }

  lemma {:induction false} RetiredParts(parts: Dict<string, Watch>, step: int)
    ensures forall part :: part in Fresh(parts, step) ==> part in parts && part.1.runStep >= step - 1
  {
    if parts != [] {
      RetiredParts(parts[1..], step);
    }
  }

  lemma WaitingIsBagSize(w: Watch)
    ensures Waiting(w) == |WatchBag(w)|
  {
    TotalIsBagSize(w.calls, QueueLength, QueueBag);
  }

  lemma WaitingAllIsBagSize(parts: Dict<string, Watch>)
    ensures WaitingAll(parts) == |Queued(parts)|
  {
    forall i | 0 <= i < |parts| ensures Waiting(parts[i].1) == |WatchBag(parts[i].1)| {
      WaitingIsBagSize(parts[i].1);
    }
    TotalIsBagSize(parts, Waiting, WatchBag);
  }

  /** Every launch the three evicting operations drop is counted as evicted. */
  lemma EvictionsAreCounted(s: Store, step: int, id: string)
    ensures RetireStale(s, step).evicted == s.evicted + |Queued(Stale(s.parts, step))|
    ensures EvictPart(s, id).evicted == s.evicted + |WatchBag(Get(s.parts, id, NewWatch(0)))|
    ensures Queued(EvictPart(s, id).parts) == Queued(s.parts) - WatchBag(Get(s.parts, id, NewWatch(0)))
    ensures WatchBag(Get(s.parts, id, NewWatch(0))) <= Queued(s.parts)
    ensures Close(s).evicted == s.evicted + |Queued(s.parts)|
  {
    WaitingAllIsBagSize(s.parts);
    WaitingAllIsBagSize(Stale(s.parts, step));
    WaitingIsBagSize(Get(s.parts, id, NewWatch(0)));
    EmptyWatch(0, "");
    BagDelete(s.parts, id, NewWatch(0), WatchBag);
  }

  // ---- the prefetch launches exactly the deficit ------------------------------------------------------------------

  function Occurrences(p: Printable, calls: seq<Extracted>, key: string): nat {
    if calls == [] then 0
    else (if KeyOf(p, calls[0]) == key then 1 else 0) + Occurrences(p, calls[1..], key)
  }

  function Max(a: int, b: int): int {
    if a < b then b else a
  }

  ghost predicate MetAreInFlight(s: Store, demanded: Dict<string, nat>) {
    forall k :: Get(demanded, k, 0) <= InFlight(s.parts, k)
  }

  /** Occurrences of a key met so far and still to come. */
  function Wanted(c: Context, calls: seq<Extracted>, demanded: Dict<string, nat>, k: string): nat {
    Get(demanded, k, 0) + Occurrences(c.p, calls, k)
  }

  ghost predicate DeficitLaunched(c: Context, s: Store, s': Store, calls: seq<Extracted>, demanded: Dict<string, nat>) {
    forall k :: InFlight(s'.parts, k) == Max(InFlight(s.parts, k), Wanted(c, calls, demanded, k))
  }

  ghost predicate NoOverlaunch(c: Context, s: Store, s': Store, calls: seq<Extracted>, demanded: Dict<string, nat>) {
    forall k :: InFlight(s.parts, k) <= InFlight(s'.parts, k)
                <= Max(InFlight(s.parts, k), Wanted(c, calls, demanded, k))
  }

  function Meet(c: Context, calls: seq<Extracted>, demanded: Dict<string, nat>): Dict<string, nat>
    requires calls != []
  {
    var key := KeyOf(c.p, calls[0]);
    Put(demanded, key, Get(demanded, key, 0) + 1)
  }

  lemma Meeting(c: Context, calls: seq<Extracted>, demanded: Dict<string, nat>, k: string)
    requires calls != []
    ensures Get(Meet(c, calls, demanded), k, 0) ==
            Get(demanded, k, 0) + if k == KeyOf(c.p, calls[0]) then 1 else 0
    ensures Wanted(c, calls[1..], Meet(c, calls, demanded), k) == Wanted(c, calls, demanded, k)
  {
    hide KeyOf;
    GetPut(demanded, KeyOf(c.p, calls[0]), Get(demanded, KeyOf(c.p, calls[0]), 0) + 1, k, 0);
  }

  /** One step of the loop: `mid` has at most one more launch than `s`, of the key just met, and only if that
      key's occurrences so far outnumbered its launches in flight. */
  ghost predicate Covers(c: Context, s: Store, mid: Store, calls: seq<Extracted>, demanded: Dict<string, nat>)
    requires calls != []
  {
    forall k :: InFlight(mid.parts, k) == Max(InFlight(s.parts, k), Get(Meet(c, calls, demanded), k, 0))
  }

  lemma CoverStep(c: Context, s: Store, mid: Store, s': Store, calls: seq<Extracted>, demanded: Dict<string, nat>)
    requires calls != [] && Covers(c, s, mid, calls, demanded)
    requires NoOverlaunch(c, mid, s', calls[1..], Meet(c, calls, demanded))
    ensures NoOverlaunch(c, s, s', calls, demanded)
    ensures DeficitLaunched(c, mid, s', calls[1..], Meet(c, calls, demanded))
        ==> DeficitLaunched(c, s, s', calls, demanded)
  {
    hide InFlight, Wanted, Meet, Get;
    forall k
      ensures InFlight(s.parts, k) <= InFlight(s'.parts, k) <= Max(InFlight(s.parts, k), Wanted(c, calls, demanded, k))
      ensures Max(InFlight(mid.parts, k), Wanted(c, calls[1..], Meet(c, calls, demanded), k)) ==
              Max(InFlight(s.parts, k), Wanted(c, calls, demanded, k))
    {
      CoverStepAt(c, s, mid, s', calls, demanded, k);
    }
  }

  lemma CoverStepAt(
    c: Context, s: Store, mid: Store, s': Store, calls: seq<Extracted>, demanded: Dict<string, nat>, k: string)
    requires calls != [] && Covers(c, s, mid, calls, demanded)
    requires NoOverlaunch(c, mid, s', calls[1..], Meet(c, calls, demanded))
    ensures InFlight(s.parts, k) <= InFlight(s'.parts, k) <= Max(InFlight(s.parts, k), Wanted(c, calls, demanded, k))
    ensures Max(InFlight(mid.parts, k), Wanted(c, calls[1..], Meet(c, calls, demanded), k)) ==
            Max(InFlight(s.parts, k), Wanted(c, calls, demanded, k))
  {
    Meeting(c, calls, demanded, k);
    assert Wanted(c, calls, demanded, k) >= Get(Meet(c, calls, demanded), k, 0);
    hide InFlight, Wanted, Meet, Get;
    assert InFlight(mid.parts, k) == Max(InFlight(s.parts, k), Get(Meet(c, calls, demanded), k, 0));
    assert InFlight(mid.parts, k) <= InFlight(s'.parts, k);
  }

  /** A store with one more launch of the key just met covers it when the key's launches had run out. */
  lemma LaunchCovers(c: Context, s: Store, id: string, calls: seq<Extracted>, demanded: Dict<string, nat>)
    requires calls != [] && MetAreInFlight(s, demanded)
    requires Get(demanded, KeyOf(c.p, calls[0]), 0) + 1 > InFlight(s.parts, KeyOf(c.p, calls[0]))
    ensures Covers(c, s, LaunchInto(c, s, id, calls[0]), calls, demanded)
  {
    hide InFlight, LaunchInto, KeyOf, Meet;
    var mid := LaunchInto(c, s, id, calls[0]);
    forall k ensures InFlight(mid.parts, k) == Max(InFlight(s.parts, k), Get(Meet(c, calls, demanded), k, 0)) {
      Meeting(c, calls, demanded, k);
      Launching(c, s, id, calls[0], k);
      assert Get(demanded, k, 0) <= InFlight(s.parts, k);
    }
  }

  lemma SkipCovers(c: Context, s: Store, calls: seq<Extracted>, demanded: Dict<string, nat>)
    requires calls != [] && MetAreInFlight(s, demanded)
    requires Get(demanded, KeyOf(c.p, calls[0]), 0) + 1 <= InFlight(s.parts, KeyOf(c.p, calls[0]))
    ensures Covers(c, s, s, calls, demanded)
  {
    hide InFlight, LaunchInto, KeyOf, Meet;
    forall k ensures InFlight(s.parts, k) == Max(InFlight(s.parts, k), Get(Meet(c, calls, demanded), k, 0)) {
      Meeting(c, calls, demanded, k);
      assert Get(demanded, k, 0) <= InFlight(s.parts, k);
    }
  }

  lemma CoveredAreInFlight(c: Context, s: Store, mid: Store, calls: seq<Extracted>, demanded: Dict<string, nat>)
    requires calls != [] && Covers(c, s, mid, calls, demanded)
    ensures MetAreInFlight(mid, Meet(c, calls, demanded))
  {
    hide InFlight, Meet;
  }

  /** What the loop leaves: no launch too many, the cap kept, and none missing unless the cap was reached. */
  ghost predicate Prefetched(c: Context, s: Store, s': Store, id: string, calls: seq<Extracted>,
      demanded: Dict<string, nat>) {
    && NoOverlaunch(c, s, s', calls, demanded)
    && WatchOf(c, s, id).launched <= WatchOf(c, s', id).launched <= Max(c.cap, WatchOf(c, s, id).launched)
    && (DeficitLaunched(c, s, s', calls, demanded) || WatchOf(c, s', id).launched >= c.cap)
  }

  lemma PrefetchedStep(c: Context, s: Store, mid: Store, s': Store, id: string, calls: seq<Extracted>,
      demanded: Dict<string, nat>)
    requires calls != [] && Covers(c, s, mid, calls, demanded)
    requires Prefetched(c, mid, s', id, calls[1..], Meet(c, calls, demanded))
    requires WatchOf(c, s, id).launched <= WatchOf(c, mid, id).launched <= Max(c.cap, WatchOf(c, s, id).launched)
    ensures Prefetched(c, s, s', id, calls, demanded)
  {
    CoverStep(c, s, mid, s', calls, demanded);
    hide NoOverlaunch, DeficitLaunched, Covers, WatchOf, Meet;
  }

  lemma PrelaunchTurns(c: Context, s: Store, id: string, calls: seq<Extracted>, demanded: Dict<string, nat>)
    requires calls != []
    ensures var key := KeyOf(c.p, calls[0]);
            Prelaunch(c, s, id, calls, demanded) ==
            if Get(demanded, key, 0) + 1 <= InFlight(s.parts, key) then
              Prelaunch(c, s, id, calls[1..], Meet(c, calls, demanded))
            else if WatchOf(c, s, id).launched >= c.cap then s
            else Prelaunch(c, LaunchInto(c, s, id, calls[0]), id, calls[1..], Meet(c, calls, demanded))
  {
    hide KeyOf, InFlight, LaunchInto;
  }

  lemma LaunchedMore(c: Context, s: Store, id: string, call: Extracted)
    ensures WatchOf(c, LaunchInto(c, s, id, call), id).launched == WatchOf(c, s, id).launched + 1
  {
    Launching(c, s, id, call, "");
  }

  /** With no claim in between, the loop brings each key's launches in flight up to its occurrences and no
      further, unless the part reaches its cap. */
  lemma {:induction false} PrelaunchDeficit(c: Context, s: Store, id: string, calls: seq<Extracted>,
      demanded: Dict<string, nat>)
    requires MetAreInFlight(s, demanded)
    ensures Prefetched(c, s, Prelaunch(c, s, id, calls, demanded), id, calls, demanded)
    decreases |calls|
  {
    if calls == [] {
      NoCalls(c, s, demanded);
    } else {
      var key, met := KeyOf(c.p, calls[0]), Meet(c, calls, demanded);
      var next := LaunchInto(c, s, id, calls[0]);
      PrelaunchTurns(c, s, id, calls, demanded);
      LaunchedMore(c, s, id, calls[0]);
      hide InFlight, LaunchInto, KeyOf, Prefetched, Covers, MetAreInFlight, Prelaunch, Meet, WatchOf, Get;
      if Get(demanded, key, 0) + 1 <= InFlight(s.parts, key) {
        SkipCovers(c, s, calls, demanded);
        CoveredAreInFlight(c, s, s, calls, demanded);
        PrelaunchDeficit(c, s, id, calls[1..], met);
        PrefetchedStep(c, s, s, Prelaunch(c, s, id, calls[1..], met), id, calls, demanded);
      } else if WatchOf(c, s, id).launched < c.cap {
        LaunchCovers(c, s, id, calls, demanded);
        CoveredAreInFlight(c, s, next, calls, demanded);
        PrelaunchDeficit(c, next, id, calls[1..], met);
        PrefetchedStep(c, s, next, Prelaunch(c, next, id, calls[1..], met), id, calls, demanded);
      } else {
        NothingLaunched(c, s, id, calls, demanded);
      }
    }
  }

  lemma NothingLaunched(c: Context, s: Store, id: string, calls: seq<Extracted>, demanded: Dict<string, nat>)
    requires WatchOf(c, s, id).launched >= c.cap
    ensures Prefetched(c, s, s, id, calls, demanded)
  {
    hide InFlight, Wanted, WatchOf;
  }

  lemma NoCalls(c: Context, s: Store, demanded: Dict<string, nat>)
    requires MetAreInFlight(s, demanded)
    ensures forall id :: Prefetched(c, s, s, id, [], demanded)
  {
    hide InFlight, WatchOf, Get;
  }
}
