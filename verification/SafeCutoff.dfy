/** Cutting a history between a tool call and its return would orphan one of them. */
module SafeCutoff {
  import opened Options
  import opened Messages

  const TOOL_PAIR_SEARCH_RANGE := 5

  /** A call at `i` answered at `j`. */
  ghost predicate PairAt(m: seq<Message>, i: int, j: int) {
    i < j && exists id :: CallAt(m, i, id) && ReturnAt(m, j, id)
  }

  /** What `_is_safe_cutoff` looks at: calls within five messages of the cut, and all their later returns. */
  ghost predicate WindowSafe(m: seq<Message>, cutoff: int) {
    cutoff >= |m| ||
    forall i, j :: cutoff - TOOL_PAIR_SEARCH_RANGE <= i < cutoff + TOOL_PAIR_SEARCH_RANGE && PairAt(m, i, j) ==>
      (i < cutoff <==> j < cutoff)
  }

  /** What a safe cut is for: no call on one side with its return on the other. */
  ghost predicate NoStraddle(m: seq<Message>, cutoff: int) {
    forall i, j :: PairAt(m, i, j) ==> !(i < cutoff <= j)
  }

  /** A pair across the cut whose call is too far back to be seen. */
  ghost predicate FarStraddle(m: seq<Message>, cutoff: int) {
    cutoff < |m| && exists i, j :: PairAt(m, i, j) && i < cutoff <= j && i < cutoff - TOOL_PAIR_SEARCH_RANGE
  }

  /** Cutting is safe exactly when the window finds nothing and no pair straddles the cut from further away. */
  lemma WindowIsTheGuard(m: seq<Message>, cutoff: int)
    ensures NoStraddle(m, cutoff) <==> WindowSafe(m, cutoff) && !FarStraddle(m, cutoff)
  {
  }

  lemma NearPairsAreSeen(m: seq<Message>, cutoff: int)
    requires forall i, j :: PairAt(m, i, j) ==> j - i <= TOOL_PAIR_SEARCH_RANGE
    ensures WindowSafe(m, cutoff) ==> NoStraddle(m, cutoff)
  {
    WindowIsTheGuard(m, cutoff);
  }

  lemma SafeAtZero(m: seq<Message>)
    ensures WindowSafe(m, 0)
  {
  }

  function CallIds(parts: seq<ResponsePart>): (ids: set<string>)
    ensures forall id :: id in ids <==>
              id != "" && exists k :: 0 <= k < |parts| && parts[k].ToolCall? && parts[k].id == id
  {
    set k | 0 <= k < |parts| && parts[k].ToolCall? && parts[k].id != "" :: parts[k].id
  }

  predicate Returns(msg: Message, ids: set<string>) {
    msg.Request? && exists k :: 0 <= k < |msg.parts| && msg.parts[k].ToolReturn? && msg.parts[k].id in ids
  }

  lemma PairFound(m: seq<Message>, i: nat, j: nat)
    requires i < j < |m| && m[i].Response?
    ensures PairAt(m, i, j) <==> Returns(m[j], CallIds(m[i].replies))
  {
    var ids := CallIds(m[i].replies);
    if Returns(m[j], ids) {
      var k :| 0 <= k < |m[j].parts| && m[j].parts[k].ToolReturn? && m[j].parts[k].id in ids;
      assert CallAt(m, i, m[j].parts[k].id) && ReturnAt(m, j, m[j].parts[k].id);
    }
    if PairAt(m, i, j) {
      var id :| CallAt(m, i, id) && ReturnAt(m, j, id);
      var k :| 0 <= k < |m[j].parts| && m[j].parts[k].ToolReturn? && m[j].parts[k].id == id;
      assert m[j].parts[k].id in ids;
    }
  }

  lemma PairBounds(m: seq<Message>)
    ensures forall i, j :: PairAt(m, i, j) ==> 0 <= i < j < |m| && m[i].Response?
  {
  }

  /** `_is_safe_cutoff`. */
  method IsSafeCutoff(m: seq<Message>, cutoff: nat) returns (safe: bool)
    ensures safe <==> WindowSafe(m, cutoff)
  {
    if cutoff >= |m| {
      return true;
    }
    PairBounds(m);
    hide PairAt;
    var i := if cutoff > TOOL_PAIR_SEARCH_RANGE then cutoff - TOOL_PAIR_SEARCH_RANGE else 0;
    var start := i;
    var end := if |m| < cutoff + TOOL_PAIR_SEARCH_RANGE then |m| else cutoff + TOOL_PAIR_SEARCH_RANGE;
    while i < end
      invariant start <= i <= end || i == start
      invariant forall h, j :: start <= h < i && PairAt(m, h, j) ==> (h < cutoff <==> j < cutoff)
    {
      if m[i].Response? {
        var ids := CallIds(m[i].replies);
        var j := i + 1;
        while j < |m|
          invariant i < j <= |m|
          invariant forall k :: i < k < j && PairAt(m, i, k) ==> (i < cutoff <==> k < cutoff)
        {
          PairFound(m, i, j);
          if Returns(m[j], ids) && (i < cutoff) != (j < cutoff) {
            return false;
          }
          j := j + 1;
        }
      }
      i := i + 1;
    }
    safe := true;
  }

  /** The nearest safe cut at or below `from`. */
  ghost function LastSafe(m: seq<Message>, from: nat): (cutoff: nat)
    ensures cutoff <= from && WindowSafe(m, cutoff)
    ensures forall j :: cutoff < j <= from ==> !WindowSafe(m, j)
  {
    SafeAtZero(m);
    if WindowSafe(m, from) then from else LastSafe(m, from - 1)
  }

  method WalkBack(m: seq<Message>, from: nat) returns (cutoff: nat)
    ensures cutoff == LastSafe(m, from)
  {
    hide WindowSafe;
    cutoff := from;
    while true
      invariant cutoff <= from && forall j :: cutoff < j <= from ==> !WindowSafe(m, j)
      decreases cutoff
    {
      var safe := IsSafeCutoff(m, cutoff);
      SafeAtZero(m);
      if safe {
        return;
      }
      cutoff := cutoff - 1;
    }
  }

  /** Where a cut that keeps `keep` messages goes. */
  ghost function SafeCut(m: seq<Message>, keep: nat): (cutoff: nat)
    ensures cutoff <= |m| && WindowSafe(m, cutoff)
  {
    SafeAtZero(m);
    if keep == 0 then |m| else if |m| <= keep then 0 else LastSafe(m, |m| - keep)
  }

  /** `find_safe_cutoff`. */
  method FindSafeCutoff(m: seq<Message>, keep: nat) returns (cutoff: nat)
    ensures cutoff == SafeCut(m, keep)
  {
    if keep == 0 {
      return |m|;
    }
    if |m| <= keep {
      return 0;
    }
    cutoff := WalkBack(m, |m| - keep);
  }

  /** Every return directly follows each earlier call of its id. */
  ghost predicate Direct(m: seq<Message>) {
    forall i, j :: PairAt(m, i, j) ==> j == i + 1
  }

  /** With returns right after their calls, the cut keeps what was asked, or one message more. */
  lemma KeepsAtMostOneMore(m: seq<Message>, keep: nat)
    requires Direct(m) && 0 < keep < |m|
    ensures keep <= |m[SafeCut(m, keep)..]| <= keep + 1
  {
    var target := |m| - keep;
    PairBounds(m);
    if !WindowSafe(m, target) {
      var i, j :| PairAt(m, i, j) && (i < target) != (j < target);
      assert i == target - 1 && m[target - 1].Response?;
      assert WindowSafe(m, target - 1) by {
        forall h, k | PairAt(m, h, k) ensures h < target - 1 <==> k < target - 1 {
          assert k == h + 1;
          ReturnsAreRequests(m, h, k);
        }
      }
    }
  }

  lemma ReturnsAreRequests(m: seq<Message>, i: int, j: int)
    requires PairAt(m, i, j)
    ensures 0 <= j < |m| && m[j].Request?
  {
  }

  /** Every cut more than five messages behind a call and not behind its return is also straddled by a pair whose
      call is near. */
  ghost predicate FarPairsAreCovered(m: seq<Message>) {
    forall i, j, cutoff :: PairAt(m, i, j) && i + TOOL_PAIR_SEARCH_RANGE < cutoff <= j ==> NearStraddle(m, cutoff)
  }

  ghost predicate NearStraddle(m: seq<Message>, cutoff: int) {
    exists i, j :: PairAt(m, i, j) && cutoff - TOOL_PAIR_SEARCH_RANGE <= i < cutoff <= j
  }

  lemma WindowSeesNear(m: seq<Message>, cutoff: int)
    requires cutoff < |m|
    ensures WindowSafe(m, cutoff) <==> !NearStraddle(m, cutoff)
  {
  }

  /** Of one history, whatever number of messages is asked for: the cut never separates a call from its return
      exactly when no far pair is open at a place where no near pair is. */
  lemma CutsAreCleanExactlyWhen(m: seq<Message>)
    ensures (forall keep: nat :: NoStraddle(m, SafeCut(m, keep))) <==> FarPairsAreCovered(m)
  {
    PairBounds(m);
    if FarPairsAreCovered(m) {
      forall keep: nat ensures NoStraddle(m, SafeCut(m, keep)) {
        CoveredIsClean(m, SafeCut(m, keep));
      }
    }
    if forall keep: nat :: NoStraddle(m, SafeCut(m, keep)) {
      forall i, j, cutoff | PairAt(m, i, j) && i + TOOL_PAIR_SEARCH_RANGE < cutoff <= j
          ensures NearStraddle(m, cutoff) {
        WindowSeesNear(m, cutoff);
        assert WindowSafe(m, cutoff) ==> SafeCut(m, |m| - cutoff) == cutoff;
        assert NoStraddle(m, SafeCut(m, |m| - cutoff));
      }
    }
  }

  lemma CoveredIsClean(m: seq<Message>, cutoff: nat)
    requires FarPairsAreCovered(m) && WindowSafe(m, cutoff) && cutoff <= |m|
    ensures NoStraddle(m, cutoff)
  {
    PairBounds(m);
    if cutoff < |m| {
      WindowSeesNear(m, cutoff);
    }
    hide PairAt;
  }

  /** Beyond the window the guarantee fails: a call answered six messages later is cut from its return. */
  lemma FarPairIsCut(call: ResponsePart, reply: RequestPart)
    requires call.ToolCall? && call.id != "" && reply.ToolReturn? && reply.id == call.id
    ensures var plain := Request([], None, false);
            var m := [Response([call]), plain, plain, plain, plain, plain, Request([reply], None, false)];
            WindowSafe(m, 6) && !NoStraddle(m, 6)
  {
    var plain := Request([], None, false);
    var m := [Response([call]), plain, plain, plain, plain, plain, Request([reply], None, false)];
    assert m[0].replies[0] == call && m[6].parts[0] == reply;
    assert CallAt(m, 0, call.id) && ReturnAt(m, 6, call.id);
    assert PairAt(m, 0, 6);
    PairBounds(m);
  }
}
