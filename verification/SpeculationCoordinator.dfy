/** The coordinator object the stream watcher and `run_code` dispatch share, updating its parts in place.
    Every method is proved against the operations of `SpeculationStore`. */
module SpeculationCoordinators {
  import opened Options
  import opened PythonDict
  import opened PythonRepr
  import opened CanonicalKey
  import opened SpeculationStore
  import opened SpeculationTransparency
  import opened SpeculationCap

  lemma DropOne<T>(s: seq<T>, i: nat)
    requires i < |s|
    ensures s[i..] == [s[i]] + s[i + 1..] && s[i..][0] == s[i] && s[i..][1..] == s[i + 1..]
  {
  }

  lemma PrelaunchStep(c: Context, s: Store, id: string, calls: seq<Extracted>, i: nat, demanded: Dict<string, nat>)
    requires i < |calls|
    ensures var key := KeyOf(c.p, calls[i]);
            var n := Get(demanded, key, 0) + 1;
            Prelaunch(c, s, id, calls[i..], demanded) ==
            if n <= InFlight(s.parts, key) then Prelaunch(c, s, id, calls[i + 1..], Put(demanded, key, n))
            else if WatchOf(c, s, id).launched >= c.cap then s
            else Prelaunch(c, LaunchInto(c, s, id, calls[i]), id, calls[i + 1..], Put(demanded, key, n))
  {
    hide KeyOf, InFlight, LaunchInto;
    DropOne(calls, i);
  }

  lemma ScanStep(c: Context, s: Store, id: string, calls: seq<Extracted>, i: nat, seen: Dict<string, nat>)
    requires i < |calls|
    ensures var key := KeyOf(c.p, calls[i]);
            var n := Get(seen, key, 0) + 1;
            var seen' := Put(seen, key, n);
            var w := WatchOf(c, s, id);
            var noted := s.(parts := Put(s.parts, id, Demand(w, key, n)));
            SpeculationStore.Scan(c, s, id, calls[i..], seen) ==
            if n <= Get(w.demanded, key, 0) then SpeculationStore.Scan(c, s, id, calls[i + 1..], seen')
            else if w.launched >= c.cap then s
            else if n <= InFlight(noted.parts, key) then SpeculationStore.Scan(c, noted, id, calls[i + 1..], seen')
            else SpeculationStore.Scan(c, LaunchInto(c, noted, id, calls[i]), id, calls[i + 1..], seen')
  {
    hide KeyOf, InFlight, LaunchInto, Put, WatchOf;
    DropOne(calls, i);
  }

  lemma {:induction false} RetireStep(parts: Dict<string, Watch>, i: nat, step: int)
    requires i < |parts|
    ensures Fresh(parts[i..], step) ==
            if parts[i].1.runStep >= step - 1 then [parts[i]] + Fresh(parts[i + 1..], step)
            else Fresh(parts[i + 1..], step)
    ensures WaitingAll(Stale(parts[i..], step)) ==
            (if parts[i].1.runStep >= step - 1 then 0 else Waiting(parts[i].1))
                + WaitingAll(Stale(parts[i + 1..], step))
  {
    hide Waiting;
    DropOne(parts, i);
    var rest := Stale(parts[i + 1..], step);
    assert ([parts[i]] + rest)[1..] == rest;
  }

  lemma AppendPart(kept: Dict<string, Watch>, part: (string, Watch), rest: Dict<string, Watch>)
    ensures kept + ([part] + rest) == (kept + [part]) + rest
  {
  }

  lemma NothingToRetire(step: int)
    ensures Fresh([], step) == [] && WaitingAll(Stale([], step)) == 0
  {
  }

  /** Every launch waits under its own key, in a part within its cap. */
  ghost predicate ValidParts(p: Printable, cap: nat, parts: Dict<string, Watch>) {
    Filed(p, parts) && Capped(cap, parts)
  }

  lemma LaunchKeepsValid(c: Context, s: Store, id: string, call: Extracted)
    requires ValidParts(c.p, c.cap, s.parts) && WatchOf(c, s, id).launched < c.cap
    ensures ValidParts(c.p, c.cap, LaunchInto(c, s, id, call).parts)
  {
    var l, watch, key := NewLaunch(c, s, call), WatchOf(c, s, id), KeyOf(c.p, call);
    GetFiled(c.p, s.parts, id, c.step);
    FiledInQueue(c.p, watch, key);
    OneMoreFiled(c.p, key, Queue(watch, key), l);
    RefiledWatch(c.p, watch, key, Queue(watch, key) + [l], File(watch, key, l));
    GetCapped(c.cap, s.parts, id, c.step);
    Filing(watch, key, l, "");
    assert CappedWatch(c.cap, File(watch, key, l)) by {
      hide WatchBag, Queue;
    }
    hide FiledQueue, Queue, KeyOf, FiledWatch, Filed, Capped, CappedWatch;
    PutFiled(c.p, s.parts, id, File(watch, key, l));
    PutCapped(c.cap, s.parts, id, File(watch, key, l));
  }

  lemma DemandKeepsValid(p: Printable, cap: nat, parts: Dict<string, Watch>, id: string, step: int, key: string, n: nat)
    requires ValidParts(p, cap, parts)
    ensures ValidParts(p, cap, Put(parts, id, Demand(Get(parts, id, NewWatch(step)), key, n)))
  {
    var watch := Get(parts, id, NewWatch(step));
    GetFiled(p, parts, id, step);
    GetCapped(cap, parts, id, step);
    assert Demand(watch, key, n).calls == watch.calls && WatchBag(Demand(watch, key, n)) == WatchBag(watch);
    hide FiledQueue, WatchBag;
    PutFiled(p, parts, id, Demand(watch, key, n));
    PutCapped(cap, parts, id, Demand(watch, key, n));
  }

  lemma FreshKeepsValid(p: Printable, cap: nat, parts: Dict<string, Watch>, step: int)
    requires ValidParts(p, cap, parts)
    ensures ValidParts(p, cap, Fresh(parts, step))
  {
    RetiredParts(parts, step);
    hide FiledWatch, CappedWatch;
  }

  class SpeculationCoordinator {
    var parts: Dict<string, Watch>
    var launched: nat
    var adopted: nat
    var evicted: nat

    ghost function View(): Store
      reads this
    {
      Store(parts, launched, adopted, evicted)
    }

    ghost predicate Valid(p: Printable, cap: nat)
      reads this`parts
    {
      ValidParts(p, cap, parts)
    }

    constructor ()
      ensures View() == Store([], 0, 0, 0) && forall p, cap :: Valid(p, cap)
    {
      parts, launched, adopted, evicted := [], 0, 0, 0;
    }

    method Launch(c: Context, id: string, call: Extracted)
      requires Valid(c.p, c.cap) && WatchOf(c, View(), id).launched < c.cap
      modifies this`parts, this`launched
      ensures View() == LaunchInto(c, old(View()), id, call) && Valid(c.p, c.cap)
    {
      LaunchKeepsValid(c, View(), id, call);
      hide ValidParts;
      var watch := Get(parts, id, NewWatch(c.step));
      var l := SpeculationStore.Launch(launched, call.name, Original(c.renames, call.name), call.kwargs, c.step);
      parts := Put(parts, id, File(watch, KeyOf(c.p, call), l));
      launched := launched + 1;
    }

    method PrelaunchForExecution(c: Context, id: string, calls: seq<Extracted>)
      requires Valid(c.p, c.cap)
      modifies this`parts, this`launched
      ensures View() == Prelaunch(c, old(View()), id, calls, []) && Valid(c.p, c.cap)
    {
      hide KeyOf, InFlight, LaunchInto, Prelaunch, ValidParts;
      var demanded: Dict<string, nat> := [];
      assert calls[0..] == calls;
      for i := 0 to |calls|
        invariant Prelaunch(c, View(), id, calls[i..], demanded) == Prelaunch(c, old(View()), id, calls, [])
        invariant Valid(c.p, c.cap)
      {
        var key := KeyOf(c.p, calls[i]);
        PrelaunchStep(c, View(), id, calls, i, demanded);
        var n := Get(demanded, key, 0) + 1;
        demanded := Put(demanded, key, n);
        if n > InFlight(parts, key) {
          if Get(parts, id, NewWatch(c.step)).launched >= c.cap {
            return;
          }
          Launch(c, id, calls[i]);
        }
      }
      assert calls[|calls|..] == [];
      NothingToPrelaunch(c, View(), id, demanded);
    }

    method Scan(c: Context, id: string, calls: seq<Extracted>)
      requires Valid(c.p, c.cap)
      modifies this`parts, this`launched
      ensures View() == SpeculationStore.Scan(c, old(View()), id, calls, []) && Valid(c.p, c.cap)
    {
      hide KeyOf, InFlight, LaunchInto, SpeculationStore.Scan, ValidParts;
      var seen: Dict<string, nat> := [];
      assert calls[0..] == calls;
      for i := 0 to |calls|
        invariant SpeculationStore.Scan(c, View(), id, calls[i..], seen) ==
                  SpeculationStore.Scan(c, old(View()), id, calls, [])
        invariant Valid(c.p, c.cap)
      {
        var key := KeyOf(c.p, calls[i]);
        ScanStep(c, View(), id, calls, i, seen);
        var n := Get(seen, key, 0) + 1;
        seen := Put(seen, key, n);
        var watch := Get(parts, id, NewWatch(c.step));
        if n > Get(watch.demanded, key, 0) {
          if watch.launched >= c.cap {
            return;
          }
          DemandKeepsValid(c.p, c.cap, parts, id, c.step, key, n);
          GetPut(parts, id, Demand(watch, key, n), id, NewWatch(c.step));
          parts := Put(parts, id, Demand(watch, key, n));
          if n > InFlight(parts, key) {
            Launch(c, id, calls[i]);
          }
        }
      }
      assert calls[|calls|..] == [];
      NothingToScan(c, View(), id, seen);
    }

    /** Pops the oldest matching launch: from the claiming part, then from the others in insertion order. */
    method Claim(parent: string, key: string, ghost p: Printable, ghost cap: nat)
      returns (claimed: Option<SpeculationStore.Launch>)
      requires Valid(p, cap)
      modifies this`parts
      ensures (claimed, parts) == SpeculationStore.Claim(old(parts), parent, key)
      ensures View() == old(View()).(parts := parts) && Valid(p, cap)
      ensures claimed.Some? ==> Key(p, claimed.value.sandboxName, claimed.value.kwargs) == key
    {
      ClaimFiled(p, parts, parent, key);
      ClaimCapped(cap, parts, parent, key);
      hide Queue, PopFront, Filed, Capped, Key;
      for i := 0 to |parts|
        invariant parts == old(parts) && View() == old(View())
        invariant Holder(parts, parent, key, true, 0) == Holder(parts, parent, key, true, i)
      {
        if parts[i].0 == parent && Queue(parts[i].1, key) != [] {
          claimed := Some(Queue(parts[i].1, key)[0]);
          parts := parts[i := (parts[i].0, PopFront(parts[i].1, key))];
          return;
        }
      }
      for i := 0 to |parts|
        invariant parts == old(parts) && View() == old(View())
        invariant Holder(parts, parent, key, true, 0) == |parts|
        invariant Holder(parts, parent, key, false, 0) == Holder(parts, parent, key, false, i)
      {
        if parts[i].0 != parent && Queue(parts[i].1, key) != [] {
          claimed := Some(Queue(parts[i].1, key)[0]);
          parts := parts[i := (parts[i].0, PopFront(parts[i].1, key))];
          return;
        }
      }
      claimed := None;
    }

    /** Cancels a watch's launches, one by one. */
    method CancelWatch(watch: Watch)
      modifies this`evicted
      ensures View() == old(View()).(evicted := old(evicted) + Waiting(watch))
    {
      assert watch.calls[0..] == watch.calls;
      for i := 0 to |watch.calls|
        invariant evicted + Total(watch.calls[i..], QueueLength) == old(evicted) + Waiting(watch)
        invariant View() == old(View()).(evicted := evicted)
      {
        DropOne(watch.calls, i);
        var before := evicted;
        for j := 0 to |watch.calls[i].1|
          invariant evicted == before + j
          invariant View() == old(View()).(evicted := evicted)
        {
          evicted := evicted + 1;
        }
      }
    }

    method RetireStale(step: int, ghost p: Printable, ghost cap: nat)
      requires Valid(p, cap)
      modifies this`parts, this`evicted
      ensures View() == SpeculationStore.RetireStale(old(View()), step) && Valid(p, cap)
    {
      FreshKeepsValid(p, cap, parts, step);
      hide Waiting, ValidParts, Fresh, Stale, WaitingAll;
      var items := parts;
      var kept: Dict<string, Watch> := [];
      assert items[0..] == items;
      for i := 0 to |items|
        invariant kept + Fresh(items[i..], step) == Fresh(items, step)
        invariant evicted + WaitingAll(Stale(items[i..], step)) == old(evicted) + WaitingAll(Stale(items, step))
        invariant launched == old(launched) && adopted == old(adopted)
      {
        RetireStep(items, i, step);
        if items[i].1.runStep >= step - 1 {
          AppendPart(kept, items[i], Fresh(items[i + 1..], step));
          kept := kept + [items[i]];
        } else {
          CancelWatch(items[i].1);
        }
      }
      NothingToRetire(step);
      assert items[|items|..] == [] && kept + [] == kept;
      parts := kept;
    }

    method EvictPart(id: string, ghost p: Printable, ghost cap: nat)
      requires Valid(p, cap)
      modifies this`parts, this`evicted
      ensures View() == SpeculationStore.EvictPart(old(View()), id) && Valid(p, cap)
    {
      DeleteFiled(p, parts, id);
      DeleteCapped(cap, parts, id);
      hide Filed, Capped;
      if Has(parts, id) {
        var watch := Get(parts, id, NewWatch(0));
        parts := Delete(parts, id);
        CancelWatch(watch);
      }
    }

    method Close()
      modifies this`parts, this`evicted
      ensures View() == SpeculationStore.Close(old(View()))
    {
      hide Waiting;
      var closed := parts;
      parts := [];
      assert closed[0..] == closed;
      for i := 0 to |closed|
        invariant evicted + WaitingAll(closed[i..]) == old(evicted) + WaitingAll(closed)
        invariant View() == old(View()).(parts := [], evicted := evicted)
      {
        DropOne(closed, i);
        CancelWatch(closed[i].1);
      }
    }
  }

  lemma NothingToPrelaunch(c: Context, s: Store, id: string, demanded: Dict<string, nat>)
    ensures Prelaunch(c, s, id, [], demanded) == s
  {
  }

  lemma NothingToScan(c: Context, s: Store, id: string, seen: Dict<string, nat>)
    ensures SpeculationStore.Scan(c, s, id, [], seen) == s
  {
  }
}
