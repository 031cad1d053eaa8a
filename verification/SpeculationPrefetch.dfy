/** What the launch loops leave for the snippet, and what a snippet that dispatches the extracted calls finds. */
module SpeculationPrefetch {
  import opened Options
  import opened PythonDict
  import opened PythonRepr
  import opened CanonicalKey
  import opened SpeculationStore

  /** Before the sandbox takes a step: every key has as many launches in flight as the snippet has occurrences
      of it, or as many as were waiting before if that is more, and nothing else was started. Only the part's
      cap can leave some out. */
  lemma PrefetchLaunchesTheDeficit(c: Context, s: Store, id: string, calls: seq<Extracted>)
    ensures var s' := Prelaunch(c, s, id, calls, []);
            && (WatchOf(c, s', id).launched < c.cap ==>
                  forall k :: InFlight(s'.parts, k) == Max(InFlight(s.parts, k), Occurrences(c.p, calls, k)))
            && (forall k :: InFlight(s.parts, k) <= InFlight(s'.parts, k)
                            <= Max(InFlight(s.parts, k), Occurrences(c.p, calls, k)))
            && WatchOf(c, s', id).launched <= Max(c.cap, WatchOf(c, s, id).launched)
  {
    var s' := Prelaunch(c, s, id, calls, []);
    PrelaunchDeficit(c, s, id, calls, []);
    forall k ensures Wanted(c, calls, [], k) == Occurrences(c.p, calls, k) {
    }
    hide InFlight, Wanted, Prelaunch;
    forall k ensures InFlight(s.parts, k) <= InFlight(s'.parts, k)
                     <= Max(InFlight(s.parts, k), Occurrences(c.p, calls, k)) {
      assert Wanted(c, calls, [], k) == Occurrences(c.p, calls, k);
    }
  }

  // ---- dispatches --------------------------------------------------------------------------------------------

  /** The claims of a run of dispatches from one part, in order, with nothing launched or evicted in between. */
  function ClaimAll(p: Printable, parts: Dict<string, Watch>, parent: string, calls: seq<Extracted>)
    : (claims: (seq<Option<Launch>>, Dict<string, Watch>))
    ensures |claims.0| == |calls|
    decreases |calls|
  {
    if calls == [] then ([], parts)
    else
      var (first, parts') := Claim(parts, parent, KeyOf(p, calls[0]));
      var (rest, parts'') := ClaimAll(p, parts', parent, calls[1..]);
      ([first] + rest, parts'')
  }

  ghost predicate AllHit(claims: seq<Option<Launch>>) {
    forall i :: 0 <= i < |claims| ==> claims[i].Some?
  }

  ghost predicate Stocked(p: Printable, parts: Dict<string, Watch>, calls: seq<Extracted>) {
    forall k :: Occurrences(p, calls, k) <= InFlight(parts, k)
  }

  /** No dispatch misses exactly when every key has at least as many launches waiting, in any part, as dispatches. */
  lemma {:induction false} NeverMisses(p: Printable, parts: Dict<string, Watch>, parent: string, calls: seq<Extracted>)
    ensures AllHit(ClaimAll(p, parts, parent, calls).0) <==> Stocked(p, parts, calls)
    decreases |calls|
  {
    if calls != [] {
      var key := KeyOf(p, calls[0]);
      var (first, parts') := Claim(parts, parent, key);
      var rest := ClaimAll(p, parts', parent, calls[1..]).0;
      NeverMisses(p, parts', parent, calls[1..]);
      StockedStep(p, parts, parent, calls);
      assert ClaimAll(p, parts, parent, calls).0 == [first] + rest;
      hide Claim, Stocked, ClaimAll;
      if AllHit([first] + rest) {
        assert ([first] + rest)[0].Some?;
        forall i | 0 <= i < |rest| ensures rest[i].Some? {
          assert ([first] + rest)[i + 1].Some?;
        }
      }
    }
  }

  lemma StockedStep(p: Printable, parts: Dict<string, Watch>, parent: string, calls: seq<Extracted>)
    requires calls != []
    ensures var (l, parts') := Claim(parts, parent, KeyOf(p, calls[0]));
            Stocked(p, parts, calls) <==> l.Some? && Stocked(p, parts', calls[1..])
  {
    var key := KeyOf(p, calls[0]);
    var (l, parts') := Claim(parts, parent, key);
    forall k ensures l.Some? ==>
        (Occurrences(p, calls, k) <= InFlight(parts, k) <==> Occurrences(p, calls[1..], k) <= InFlight(parts', k)) {
      Claiming(parts, parent, key, k);
      OccurrencesStep(p, calls, k);
    }
    Claiming(parts, parent, key, key);
    OccurrencesStep(p, calls, key);
    hide Claim, InFlight, Occurrences, KeyOf;
    if Stocked(p, parts, calls) {
      assert l.Some?;
      forall k ensures Occurrences(p, calls[1..], k) <= InFlight(parts', k) {
        assert Occurrences(p, calls, k) <= InFlight(parts, k);
      }
    }
    if l.Some? && Stocked(p, parts', calls[1..]) {
      forall k ensures Occurrences(p, calls, k) <= InFlight(parts, k) {
        assert Occurrences(p, calls[1..], k) <= InFlight(parts', k);
      }
    }
  }

  lemma OccurrencesStep(p: Printable, calls: seq<Extracted>, k: string)
    requires calls != []
    ensures Occurrences(p, calls, k) == Occurrences(p, calls[1..], k) + if KeyOf(p, calls[0]) == k then 1 else 0
  {
  }

  /** Together: after a prefetch below its cap, a snippet that dispatches what was extracted from it, in any
      order, waits for no cold call. */
  lemma PrefetchedSnippetNeverMisses(c: Context, s: Store, id: string, calls: seq<Extracted>,
      dispatched: seq<Extracted>)
    requires forall k :: Occurrences(c.p, dispatched, k) <= Occurrences(c.p, calls, k)
    requires WatchOf(c, Prelaunch(c, s, id, calls, []), id).launched < c.cap
    ensures AllHit(ClaimAll(c.p, Prelaunch(c, s, id, calls, []).parts, id, dispatched).0)
  {
    var s' := Prelaunch(c, s, id, calls, []);
    PrefetchLaunchesTheDeficit(c, s, id, calls);
    hide InFlight, Prelaunch, Occurrences;
    forall k ensures Occurrences(c.p, dispatched, k) <= InFlight(s'.parts, k) {
      assert InFlight(s'.parts, k) >= Occurrences(c.p, calls, k);
    }
    NeverMisses(c.p, s'.parts, id, dispatched);
  }

  /** The launches handed to the dispatches of one key. */
  function Taken(p: Printable, calls: seq<Extracted>, claims: seq<Option<Launch>>, key: string): seq<Option<Launch>>
    requires |calls| == |claims|
  {
    if calls == [] then []
    else (if KeyOf(p, calls[0]) == key then [claims[0]] else []) + Taken(p, calls[1..], claims[1..], key)
  }

  function Somes(q: seq<Launch>): seq<Option<Launch>> {
    seq(|q|, i requires 0 <= i < |q| => Some(q[i]))
  }

  /** The k-th dispatch of a key takes the k-th launch its own part filed under it. */
  lemma {:induction false} FirstInFirstOut(p: Printable, parts: Dict<string, Watch>, parent: string,
      calls: seq<Extracted>, key: string)
    requires Has(parts, parent)
    requires forall k :: Occurrences(p, calls, k) <= |Queue(Get(parts, parent, NewWatch(0)), k)|
    ensures Taken(p, calls, ClaimAll(p, parts, parent, calls).0, key) ==
            Somes(Queue(Get(parts, parent, NewWatch(0)), key)[..Occurrences(p, calls, key)])
    decreases |calls|
  {
    var w := Get(parts, parent, NewWatch(0));
    if calls != [] {
      var first := KeyOf(p, calls[0]);
      OccurrencesStep(p, calls, first);
      assert Occurrences(p, calls, first) <= |Queue(w, first)|;
      OwnFirst(parts, parent, first);
      var (l, parts') := Claim(parts, parent, first);
      var w' := Get(parts', parent, NewWatch(0));
      forall k ensures Occurrences(p, calls[1..], k) <= |Queue(w', k)| {
        OccurrencesStep(p, calls, k);
        Popping(w, first, k);
        assert Occurrences(p, calls, k) <= |Queue(w, k)|;
      }
      FirstInFirstOut(p, parts', parent, calls[1..], key);
      Popping(w, first, key);
      OccurrencesStep(p, calls, key);
      var claims := ClaimAll(p, parts, parent, calls).0;
      assert claims[0] == l && claims[1..] == ClaimAll(p, parts', parent, calls[1..]).0;
      hide Queue, ClaimAll, Claim, KeyOf, Occurrences;
      TakeOne(Queue(w, key), Occurrences(p, calls, key), Occurrences(p, calls[1..], key), l, first == key);
    }
  }

  lemma TakeOne(q: seq<Launch>, n: nat, m: nat, l: Option<Launch>, taken: bool)
    requires n <= |q| && n == m + if taken then 1 else 0
    requires taken ==> l == Some(q[0])
    ensures Somes(q[..n]) == (if taken then [l] else []) + Somes((if taken then q[1..] else q)[..m])
  {
  }

  lemma OwnFirst(parts: Dict<string, Watch>, parent: string, key: string)
    requires Has(parts, parent) && Queue(Get(parts, parent, NewWatch(0)), key) != []
    ensures var (l, parts') := Claim(parts, parent, key);
            var w := Get(parts, parent, NewWatch(0));
            && l == Some(Queue(w, key)[0])
            && Has(parts', parent) && Get(parts', parent, NewWatch(0)) == PopFront(w, key)
  {
    var i := Find(parts, parent);
    assert Holder(parts, parent, key, true, 0) == i;
    var w := Get(parts, parent, NewWatch(0));
    assert parts[i] == (parent, w);
    GetPut(parts, parent, PopFront(w, key), parent, NewWatch(0));
  }

  // ---- the stream scan -------------------------------------------------------------------------------------------

  function Demanded(c: Context, s: Store, id: string, k: string): nat {
    Get(WatchOf(c, s, id).demanded, k, 0)
  }

  ghost predicate SeenAreDemanded(c: Context, s: Store, id: string, seen: Dict<string, nat>) {
    forall k :: Get(seen, k, 0) <= Demanded(c, s, id, k)
  }

  ghost predicate DemandMet(c: Context, s: Store, s': Store, id: string, calls: seq<Extracted>,
      seen: Dict<string, nat>) {
    forall k :: Demanded(c, s', id, k) == Max(Demanded(c, s, id, k), Wanted(c, calls, seen, k))
  }

  /** The demand recorded for one key. */
  function Note(c: Context, s: Store, id: string, key: string, n: nat): Store {
    s.(parts := Put(s.parts, id, Demand(WatchOf(c, s, id), key, n)))
  }

  lemma Noting(c: Context, s: Store, id: string, key: string, n: nat, k: string)
    ensures Demanded(c, Note(c, s, id, key, n), id, k) == if k == key then n else Demanded(c, s, id, k)
    ensures WatchOf(c, Note(c, s, id, key, n), id).launched == WatchOf(c, s, id).launched
    ensures InFlight(Note(c, s, id, key, n).parts, k) == InFlight(s.parts, k)
  {
    var w := WatchOf(c, s, id);
    GetPut(w.demanded, key, n, k, 0);
    GetPut(s.parts, id, Demand(w, key, n), id, NewWatch(c.step));
    TotalPut(s.parts, id, Demand(w, key, n), NewWatch(c.step), Depth(k));
  }

  /** What one turn of the scan loop leaves: the key met is demanded as often as it was seen. */
  ghost predicate Notes(c: Context, s: Store, mid: Store, id: string, calls: seq<Extracted>, seen: Dict<string, nat>)
    requires calls != []
  {
    forall k :: Demanded(c, mid, id, k) == Max(Demanded(c, s, id, k), Get(Meet(c, calls, seen), k, 0))
  }

  lemma NoteStep(c: Context, s: Store, mid: Store, s': Store, id: string, calls: seq<Extracted>,
      seen: Dict<string, nat>)
    requires calls != [] && Notes(c, s, mid, id, calls, seen)
    ensures SeenAreDemanded(c, mid, id, Meet(c, calls, seen))
    ensures DemandMet(c, mid, s', id, calls[1..], Meet(c, calls, seen)) ==> DemandMet(c, s, s', id, calls, seen)
  {
    var met := Meet(c, calls, seen);
    forall k ensures Wanted(c, calls[1..], met, k) == Wanted(c, calls, seen, k) >= Get(met, k, 0) {
      Meeting(c, calls, seen, k);
    }
    hide Demanded, Wanted, Meet;
  }

  lemma Skipping(c: Context, s: Store, id: string, calls: seq<Extracted>, seen: Dict<string, nat>)
    requires calls != [] && SeenAreDemanded(c, s, id, seen)
    requires Get(seen, KeyOf(c.p, calls[0]), 0) + 1 <= Demanded(c, s, id, KeyOf(c.p, calls[0]))
    ensures Notes(c, s, s, id, calls, seen)
  {
    forall k ensures Get(Meet(c, calls, seen), k, 0) <= Demanded(c, s, id, k) {
      Meeting(c, calls, seen, k);
    }
    hide Demanded, Meet;
  }

  lemma LaunchKeepsDemand(c: Context, s: Store, id: string, call: Extracted, k: string)
    ensures Demanded(c, LaunchInto(c, s, id, call), id, k) == Demanded(c, s, id, k)
    ensures WatchOf(c, LaunchInto(c, s, id, call), id).launched == WatchOf(c, s, id).launched + 1
  {
    Launching(c, s, id, call, k);
  }

  lemma RecordingAt(c: Context, s: Store, id: string, calls: seq<Extracted>, seen: Dict<string, nat>, k: string)
    requires calls != [] && Get(seen, k, 0) <= Demanded(c, s, id, k)
    requires Get(seen, KeyOf(c.p, calls[0]), 0) + 1 > Demanded(c, s, id, KeyOf(c.p, calls[0]))
    ensures Demanded(c, Note(c, s, id, KeyOf(c.p, calls[0]), Get(seen, KeyOf(c.p, calls[0]), 0) + 1), id, k) ==
            Max(Demanded(c, s, id, k), Get(Meet(c, calls, seen), k, 0))
  {
    hide Demanded, Meet, Note, KeyOf;
    Meeting(c, calls, seen, k);
    Noting(c, s, id, KeyOf(c.p, calls[0]), Get(seen, KeyOf(c.p, calls[0]), 0) + 1, k);
  }

  lemma Recording(c: Context, s: Store, id: string, calls: seq<Extracted>, seen: Dict<string, nat>)
    requires calls != [] && SeenAreDemanded(c, s, id, seen)
    requires Get(seen, KeyOf(c.p, calls[0]), 0) + 1 > Demanded(c, s, id, KeyOf(c.p, calls[0]))
    ensures Notes(c, s, Note(c, s, id, KeyOf(c.p, calls[0]), Get(seen, KeyOf(c.p, calls[0]), 0) + 1), id, calls, seen)
  {
    var key := KeyOf(c.p, calls[0]);
    var n := Get(seen, key, 0) + 1;
    var noted := Note(c, s, id, key, n);
    forall k ensures Demanded(c, noted, id, k) == Max(Demanded(c, s, id, k), Get(Meet(c, calls, seen), k, 0)) {
      assert Get(seen, k, 0) <= Demanded(c, s, id, k);
      RecordingAt(c, s, id, calls, seen, k);
    }
    hide Demanded, Meet, Note, KeyOf;
  }

  lemma LaunchKeepsNotes(c: Context, s: Store, mid: Store, id: string, calls: seq<Extracted>, seen: Dict<string, nat>)
    requires calls != [] && Notes(c, s, mid, id, calls, seen)
    ensures Notes(c, s, LaunchInto(c, mid, id, calls[0]), id, calls, seen)
  {
    forall k ensures Demanded(c, LaunchInto(c, mid, id, calls[0]), id, k) == Demanded(c, mid, id, k) {
      LaunchKeepsDemand(c, mid, id, calls[0], k);
    }
    hide Demanded, Meet, LaunchInto;
  }

  /** One turn of the loop, when it does not stop at the cap. */
  function Turn(c: Context, s: Store, id: string, calls: seq<Extracted>, seen: Dict<string, nat>): Store
    requires calls != []
  {
    var key := KeyOf(c.p, calls[0]);
    var n := Get(seen, key, 0) + 1;
    var noted := Note(c, s, id, key, n);
    if n <= Demanded(c, s, id, key) then s
    else if n <= InFlight(noted.parts, key) then noted
    else LaunchInto(c, noted, id, calls[0])
  }

  predicate Stops(c: Context, s: Store, id: string, calls: seq<Extracted>, seen: Dict<string, nat>)
    requires calls != []
  {
    var key := KeyOf(c.p, calls[0]);
    Get(seen, key, 0) + 1 > Demanded(c, s, id, key) && WatchOf(c, s, id).launched >= c.cap
  }

  lemma ScanTurns(c: Context, s: Store, id: string, calls: seq<Extracted>, seen: Dict<string, nat>)
    requires calls != []
    ensures SpeculationStore.Scan(c, s, id, calls, seen) ==
            if Stops(c, s, id, calls, seen) then s
            else SpeculationStore.Scan(c, Turn(c, s, id, calls, seen), id, calls[1..], Meet(c, calls, seen))
  {
    hide LaunchInto, KeyOf, InFlight;
  }

  lemma TurnNotes(c: Context, s: Store, id: string, calls: seq<Extracted>, seen: Dict<string, nat>)
    requires calls != [] && SeenAreDemanded(c, s, id, seen)
    ensures Notes(c, s, Turn(c, s, id, calls, seen), id, calls, seen)
  {
    hide KeyOf, InFlight, LaunchInto, Notes, Note, SeenAreDemanded, Demanded;
    var key := KeyOf(c.p, calls[0]);
    var n := Get(seen, key, 0) + 1;
    var noted := Note(c, s, id, key, n);
    if n <= Demanded(c, s, id, key) {
      Skipping(c, s, id, calls, seen);
    } else {
      Recording(c, s, id, calls, seen);
      LaunchKeepsNotes(c, s, noted, id, calls, seen);
    }
  }

  lemma TurnKeepsCap(c: Context, s: Store, id: string, calls: seq<Extracted>, seen: Dict<string, nat>)
    requires calls != [] && !Stops(c, s, id, calls, seen)
    ensures WatchOf(c, Turn(c, s, id, calls, seen), id).launched <= Max(c.cap, WatchOf(c, s, id).launched)
  {
    hide InFlight, LaunchInto, Note;
    var key := KeyOf(c.p, calls[0]);
    var n := Get(seen, key, 0) + 1;
    var noted := Note(c, s, id, key, n);
    Noting(c, s, id, key, n, key);
    LaunchKeepsDemand(c, noted, id, calls[0], key);
    var turn := Turn(c, s, id, calls, seen);
    assert turn == s || turn == noted || turn == LaunchInto(c, noted, id, calls[0]);
  }

  /** After a scan, a part demands each key as often as the longest text scanned so far spells it, unless the
      part reached its cap. */
  lemma {:induction false} ScanTracksDemand(c: Context, s: Store, id: string, calls: seq<Extracted>,
      seen: Dict<string, nat>)
    requires SeenAreDemanded(c, s, id, seen)
    ensures var s' := SpeculationStore.Scan(c, s, id, calls, seen);
            && (DemandMet(c, s, s', id, calls, seen) || WatchOf(c, s', id).launched >= c.cap)
            && WatchOf(c, s', id).launched <= Max(c.cap, WatchOf(c, s, id).launched)
    decreases |calls|
  {
    if calls == [] {
      assert DemandMet(c, s, s, id, [], seen);
    } else {
      ScanTurns(c, s, id, calls, seen);
      if !Stops(c, s, id, calls, seen) {
        var next := Turn(c, s, id, calls, seen);
        TurnNotes(c, s, id, calls, seen);
        TurnKeepsCap(c, s, id, calls, seen);
        hide SpeculationStore.Scan, DemandMet, SeenAreDemanded, Notes, WatchOf, Turn, Stops, Meet;
        NoteStep(c, s, next, SpeculationStore.Scan(c, next, id, calls[1..], Meet(c, calls, seen)), id, calls, seen);
        ScanTracksDemand(c, next, id, calls[1..], Meet(c, calls, seen));
      }
    }
  }
}
