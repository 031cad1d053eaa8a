/** Blanking tool results in place: the oldest ones, or file reads a newer read supersedes. */
module Clearing {
  import opened Options
  import opened Messages
  import opened TokenCutoff

  const CLEARED_TOOL_ARGS := "{}"

  /** A matched call and return, in the order returns appear. */
  datatype Pair = Pair(id: string, name: string, call: ResponsePart, order: nat)

  type CallTable = map<string, ResponsePart>

  predicate IsCall(reply: ResponsePart) {
    reply.ToolCall? && reply.id != ""
  }

  /** The calls by id, a later one replacing an earlier one. */
  function AddCalls(calls: CallTable, replies: seq<ResponsePart>): CallTable
    decreases |replies|
  {
    if replies == [] then calls
    else AddCalls(if IsCall(replies[0]) then calls[replies[0].id := replies[0]] else calls, replies[1..])
  }

  function AllCalls(calls: CallTable, m: seq<Message>): CallTable
    decreases |m|
  {
    if m == [] then calls
    else AllCalls(if m[0].Response? then AddCalls(calls, m[0].replies) else calls, m[1..])
  }

  /** The ids of the returns that have a call, in order of appearance. */
  function ReturnIds(calls: CallTable, parts: seq<RequestPart>): seq<string> {
    if parts == [] then []
    else (if parts[0].ToolReturn? && parts[0].id in calls then [parts[0].id] else []) + ReturnIds(calls, parts[1..])
  }

  function AllReturnIds(calls: CallTable, m: seq<Message>): seq<string> {
    if m == [] then []
    else (if m[0].Request? then ReturnIds(calls, m[0].parts) else []) + AllReturnIds(calls, m[1..])
  }

  /** One pair for each of the ids, numbered in order. */
  ghost predicate Numbered(calls: CallTable, ids: seq<string>, pairs: seq<Pair>) {
    && |pairs| == |ids|
    && forall q :: 0 <= q < |pairs| ==>
        ids[q] in calls && calls[ids[q]].ToolCall? && pairs[q] == Pair(ids[q], calls[ids[q]].name, calls[ids[q]], q)
  }

  /** The pairs of a history: one for each answered return, in order. */
  ghost predicate PairsOf(m: seq<Message>, pairs: seq<Pair>) {
    Numbered(AllCalls(map[], m), AllReturnIds(AllCalls(map[], m), m), pairs)
  }

  // ---- the pairs, said of the parts ---------------------------------------------------------------------------------

  ghost predicate IsCallUnder(reply: ResponsePart, id: string) {
    reply.ToolCall? && reply.id == id && id != ""
  }

  ghost predicate NoCall(replies: seq<ResponsePart>, from: nat, id: string) {
    forall k :: from <= k < |replies| ==> !IsCallUnder(replies[k], id)
  }

  ghost predicate NoCallFrom(m: seq<Message>, from: nat, id: string) {
    forall i :: from <= i < |m| && m[i].Response? ==> NoCall(m[i].replies, 0, id)
  }

  /** Reply `k` of message `i` is the last call of the history under `id`. */
  ghost predicate LastCall(m: seq<Message>, i: nat, k: nat, id: string) {
    && i < |m| && m[i].Response? && k < |m[i].replies| && IsCallUnder(m[i].replies[k], id)
    && NoCall(m[i].replies, k + 1, id) && NoCallFrom(m, i + 1, id)
  }

  lemma {:induction false} AddNoCall(calls: CallTable, replies: seq<ResponsePart>, id: string)
    requires NoCall(replies, 0, id)
    ensures id in AddCalls(calls, replies) <==> id in calls
    ensures id in calls ==> AddCalls(calls, replies)[id] == calls[id]
    decreases |replies|
  {
    if replies != [] {
      assert !IsCallUnder(replies[0], id);
      assert NoCall(replies[1..], 0, id) by {
        assert forall k :: 0 <= k < |replies[1..]| ==> replies[1..][k] == replies[k + 1];
      }
      AddNoCall(if IsCall(replies[0]) then calls[replies[0].id := replies[0]] else calls, replies[1..], id);
    }
  }

  lemma {:induction false} AddLastCall(calls: CallTable, replies: seq<ResponsePart>, k: nat, id: string)
    requires k < |replies| && IsCallUnder(replies[k], id) && NoCall(replies, k + 1, id)
    ensures id in AddCalls(calls, replies) && AddCalls(calls, replies)[id] == replies[k]
    decreases |replies|
  {
    var rest, known := replies[1..], if IsCall(replies[0]) then calls[replies[0].id := replies[0]] else calls;
    assert forall l :: 0 <= l < |rest| ==> rest[l] == replies[l + 1];
    if k == 0 {
      AddNoCall(known, rest, id);
    } else {
      AddLastCall(known, rest, k - 1, id);
    }
  }

  lemma {:induction false} AllNoCall(calls: CallTable, m: seq<Message>, id: string)
    requires NoCallFrom(m, 0, id)
    ensures id in AllCalls(calls, m) <==> id in calls
    ensures id in calls ==> AllCalls(calls, m)[id] == calls[id]
    decreases |m|
  {
    hide NoCall, AddCalls;
    if m != [] {
      assert forall i :: 0 <= i < |m[1..]| ==> m[1..][i] == m[i + 1];
      var known := calls;
      if m[0].Response? {
        AddNoCall(calls, m[0].replies, id);
        known := AddCalls(calls, m[0].replies);
      }
      AllNoCall(known, m[1..], id);
    }
  }

  lemma {:induction false} AllLastCall(calls: CallTable, m: seq<Message>, i: nat, k: nat, id: string)
    requires LastCall(m, i, k, id)
    ensures id in AllCalls(calls, m) && AllCalls(calls, m)[id] == m[i].replies[k]
    decreases |m|
  {
    hide NoCall, AddCalls;
    assert forall j :: 0 <= j < |m[1..]| ==> m[1..][j] == m[j + 1];
    var known := if m[0].Response? then AddCalls(calls, m[0].replies) else calls;
    if i == 0 {
      AddLastCall(calls, m[0].replies, k, id);
      AllNoCall(known, m[1..], id);
    } else {
      AllLastCall(known, m[1..], i - 1, k, id);
    }
  }

  /** Each id that is called has a last call. */
  lemma {:induction false} FindLastCall(m: seq<Message>, id: string) returns (i: nat, k: nat)
    requires !NoCallFrom(m, 0, id)
    ensures LastCall(m, i, k, id)
  {
    i :| i < |m| && m[i].Response? && !NoCall(m[i].replies, 0, id);
    while !NoCallFrom(m, i + 1, id)
      invariant i < |m| && m[i].Response? && !NoCall(m[i].replies, 0, id)
      decreases |m| - i
    {
      var next :| i + 1 <= next < |m| && m[next].Response? && !NoCall(m[next].replies, 0, id);
      i := next;
    }
    k :| 0 <= k < |m[i].replies| && IsCallUnder(m[i].replies[k], id);
    while !NoCall(m[i].replies, k + 1, id)
      invariant k < |m[i].replies| && IsCallUnder(m[i].replies[k], id)
      decreases |m[i].replies| - k
    {
      var next :| k + 1 <= next < |m[i].replies| && IsCallUnder(m[i].replies[next], id);
      k := next;
    }
  }

  /** The place of a request part: its message and its number there. */
  type Place = (nat, nat)

  /** The return at a place has an id under which the history calls a tool. */
  ghost predicate IsAnswer(m: seq<Message>, at: Place) {
    && at.0 < |m| && m[at.0].Request? && at.1 < |m[at.0].parts|
    && m[at.0].parts[at.1].ToolReturn? && !NoCallFrom(m, 0, m[at.0].parts[at.1].id)
  }

  predicate Precedes(a: Place, b: Place) {
    a.0 < b.0 || (a.0 == b.0 && a.1 < b.1)
  }

  ghost predicate InPlace(m: seq<Message>, at: Place, id: string) {
    at.0 < |m| && m[at.0].Request? && at.1 < |m[at.0].parts| && m[at.0].parts[at.1].ToolReturn?
    && m[at.0].parts[at.1].id == id
  }

  /** The places of the answered returns of message `i` from part `k` on. */
  function PlacesIn(calls: CallTable, m: seq<Message>, i: nat, k: nat): seq<Place>
    requires i < |m| && m[i].Request? && k <= |m[i].parts|
    decreases |m[i].parts| - k
  {
    var parts := m[i].parts;
    if k == |parts| then []
    else (if parts[k].ToolReturn? && parts[k].id in calls then [(i, k)] else []) + PlacesIn(calls, m, i, k + 1)
  }

  function PlacesFrom(calls: CallTable, m: seq<Message>, i: nat): seq<Place>
    requires i <= |m|
    decreases |m| - i
  {
    if i == |m| then [] else (if m[i].Request? then PlacesIn(calls, m, i, 0) else []) + PlacesFrom(calls, m, i + 1)
  }

  ghost predicate Ascending(places: seq<Place>) {
    forall p, q :: 0 <= p < q < |places| ==> Precedes(places[p], places[q])
  }

  ghost predicate Hold(m: seq<Message>, places: seq<Place>, ids: seq<string>) {
    |places| == |ids| && forall q :: 0 <= q < |places| ==> InPlace(m, places[q], ids[q])
  }

  lemma {:induction false} PlacesInHold(calls: CallTable, m: seq<Message>, i: nat, k: nat)
    requires i < |m| && m[i].Request? && k <= |m[i].parts|
    ensures Hold(m, PlacesIn(calls, m, i, k), ReturnIds(calls, m[i].parts[k..]))
    ensures Ascending(PlacesIn(calls, m, i, k))
    decreases |m[i].parts| - k
  {
    var parts := m[i].parts;
    if k < |parts| {
      PlacesInHold(calls, m, i, k + 1);
      PlacesInAre(calls, m, i, k + 1);
      assert parts[k..][0] == parts[k] && parts[k..][1..] == parts[k + 1..];
      var rest, ids := PlacesIn(calls, m, i, k + 1), ReturnIds(calls, parts[k + 1..]);
      if parts[k].ToolReturn? && parts[k].id in calls {
        assert PlacesIn(calls, m, i, k) == [(i, k)] + rest;
        assert ReturnIds(calls, parts[k..]) == [parts[k].id] + ids;
        hide PlacesIn, ReturnIds;
        OnePlaceMore(m, (i, k), parts[k].id, rest, ids);
      } else {
        assert PlacesIn(calls, m, i, k) == rest && ReturnIds(calls, parts[k..]) == ids;
      }
    }
  }

  lemma OnePlaceMore(m: seq<Message>, at: Place, id: string, rest: seq<Place>, ids: seq<string>)
    requires Hold(m, rest, ids) && Ascending(rest) && InPlace(m, at, id)
    requires forall other :: other in rest ==> Precedes(at, other)
    ensures Hold(m, [at] + rest, [id] + ids) && Ascending([at] + rest)
  {
    assert forall q :: 0 <= q < |rest| ==> rest[q] in rest;
    hide InPlace, Precedes;
  }

  lemma {:induction false} PlacesInAre(calls: CallTable, m: seq<Message>, i: nat, k: nat)
    requires i < |m| && m[i].Request? && k <= |m[i].parts|
    ensures forall at: Place :: at in PlacesIn(calls, m, i, k) <==>
              && at.0 == i && k <= at.1 < |m[i].parts|
              && m[i].parts[at.1].ToolReturn? && m[i].parts[at.1].id in calls
    decreases |m[i].parts| - k
  {
    if k < |m[i].parts| {
      PlacesInAre(calls, m, i, k + 1);
    }
  }

  lemma HoldConcat(m: seq<Message>, p: seq<Place>, q: seq<Place>, a: seq<string>, b: seq<string>)
    requires Hold(m, p, a) && Hold(m, q, b)
    ensures Hold(m, p + q, a + b)
  {
  }

  lemma AscendingConcat(p: seq<Place>, q: seq<Place>, i: nat)
    requires Ascending(p) && Ascending(q)
    requires (forall at :: at in p ==> at.0 == i) && forall at :: at in q ==> at.0 > i
    ensures Ascending(p + q)
  {
  }

  lemma {:induction false} PlacesAre(calls: CallTable, m: seq<Message>, i: nat)
    requires i <= |m|
    ensures forall at: Place :: at in PlacesFrom(calls, m, i) <==>
              && i <= at.0 < |m| && m[at.0].Request? && at.1 < |m[at.0].parts|
              && m[at.0].parts[at.1].ToolReturn? && m[at.0].parts[at.1].id in calls
    decreases |m| - i
  {
    hide PlacesIn;
    if i < |m| {
      PlacesAre(calls, m, i + 1);
      if m[i].Request? {
        PlacesInAre(calls, m, i, 0);
      }
    }
  }

  lemma {:induction false} PlacesHold(calls: CallTable, m: seq<Message>, i: nat)
    requires i <= |m|
    ensures Hold(m, PlacesFrom(calls, m, i), AllReturnIds(calls, m[i..]))
    ensures Ascending(PlacesFrom(calls, m, i))
    decreases |m| - i
  {
    hide ReturnIds, PlacesIn;
    if i < |m| {
      PlacesHold(calls, m, i + 1);
      AllReturnIdsStep(calls, m, i);
      hide AllReturnIds;
      if m[i].Request? {
        PlacesInHold(calls, m, i, 0);
        PlacesInAre(calls, m, i, 0);
        PlacesAre(calls, m, i + 1);
        hide Hold, Ascending;
        assert m[i].parts[0..] == m[i].parts;
        HoldConcat(m, PlacesIn(calls, m, i, 0), PlacesFrom(calls, m, i + 1), ReturnIds(calls, m[i].parts),
          AllReturnIds(calls, m[i + 1..]));
        AscendingConcat(PlacesIn(calls, m, i, 0), PlacesFrom(calls, m, i + 1), i);
      }
    }
  }

  /** Pair `q` is that of the return at its place: with the last call of its id. */
  ghost predicate PairOf(m: seq<Message>, at: Place, pair: Pair, q: nat) {
    && InPlace(m, at, pair.id) && pair.order == q && pair.call.ToolCall? && pair.name == pair.call.name
    && exists i: nat, k: nat :: LastCall(m, i, k, pair.id) && m[i].replies[k] == pair.call
  }

  /** One pair for each return whose id is called, in the order of the returns, with the last call of that id. */
  ghost predicate PairsInOrder(m: seq<Message>, places: seq<Place>, pairs: seq<Pair>) {
    && Ascending(places) && |places| == |pairs|
    && (forall at: Place :: at in places <==> IsAnswer(m, at))
    && forall q: nat :: q < |pairs| ==> PairOf(m, places[q], pairs[q], q)
  }

  lemma CallsAreLast(m: seq<Message>, id: string)
    ensures id in AllCalls(map[], m) <==> !NoCallFrom(m, 0, id)
    ensures id in AllCalls(map[], m) ==>
              exists i: nat, k: nat :: LastCall(m, i, k, id) && m[i].replies[k] == AllCalls(map[], m)[id]
  {
    hide NoCallFrom, AllCalls;
    if NoCallFrom(m, 0, id) {
      AllNoCall(map[], m, id);
    } else {
      var i, k := FindLastCall(m, id);
      AllLastCall(map[], m, i, k, id);
    }
  }

  lemma PairsExactly(m: seq<Message>, pairs: seq<Pair>)
    requires PairsOf(m, pairs)
    ensures exists places :: PairsInOrder(m, places, pairs)
  {
    var calls := AllCalls(map[], m);
    var places := PlacesFrom(calls, m, 0);
    PlacesHold(calls, m, 0);
    PlacesAre(calls, m, 0);
    assert m[0..] == m;
    forall id ensures id in calls <==> !NoCallFrom(m, 0, id) {
      CallsAreLast(m, id);
    }
    hide AllCalls, AllReturnIds, PlacesFrom, NoCallFrom, LastCall, Ascending;
    forall q: nat | q < |pairs| ensures PairOf(m, places[q], pairs[q], q) {
      CallsAreLast(m, pairs[q].id);
    }
    assert PairsInOrder(m, places, pairs);
  }

  ghost predicate OnlyCalls(calls: CallTable) {
    forall id :: id in calls ==> calls[id].ToolCall?
  }

  method CollectCalls(m: seq<Message>) returns (calls: CallTable)
    ensures calls == AllCalls(map[], m) && OnlyCalls(calls)
  {
    calls := map[];
    assert m[0..] == m;
    for i := 0 to |m|
      invariant AllCalls(calls, m[i..]) == AllCalls(map[], m) && OnlyCalls(calls)
    {
      assert m[i..][1..] == m[i + 1..];
      if m[i].Response? {
        calls := CollectReplies(calls, m[i].replies);
      }
    }
  }

  method CollectReplies(known: CallTable, replies: seq<ResponsePart>) returns (calls: CallTable)
    requires OnlyCalls(known)
    ensures calls == AddCalls(known, replies) && OnlyCalls(calls)
  {
    calls := known;
    assert replies[0..] == replies;
    for k := 0 to |replies|
      invariant AddCalls(calls, replies[k..]) == AddCalls(known, replies) && OnlyCalls(calls)
    {
      assert replies[k..][1..] == replies[k + 1..];
      if IsCall(replies[k]) {
        calls := calls[replies[k].id := replies[k]];
      }
    }
  }

  /** `iter_tool_pairs`. */
  method IterToolPairs(m: seq<Message>) returns (pairs: seq<Pair>)
    ensures PairsOf(m, pairs)
    ensures exists places :: PairsInOrder(m, places, pairs)
  {
    hide Numbered, AllReturnIds, AllCalls, PairsInOrder;
    var calls := CollectCalls(m);
    pairs := MatchReturns(calls, m);
    PairsExactly(m, pairs);
  }

  method MatchReturns(calls: CallTable, m: seq<Message>) returns (pairs: seq<Pair>)
    requires OnlyCalls(calls)
    ensures Numbered(calls, AllReturnIds(calls, m), pairs)
  {
    hide Numbered, ReturnIds, AllReturnIds, OnlyCalls;
    pairs := [];
    ghost var ids: seq<string> := [];
    NoPairs(calls);
    assert m[0..] == m && ids + AllReturnIds(calls, m) == AllReturnIds(calls, m);
    for i := 0 to |m|
      invariant ids + AllReturnIds(calls, m[i..]) == AllReturnIds(calls, m)
      invariant Numbered(calls, ids, pairs)
    {
      AllReturnIdsStep(calls, m, i);
      if m[i].Request? {
        Reassociate(ids, ReturnIds(calls, m[i].parts), AllReturnIds(calls, m[i + 1..]));
        pairs, ids := AddPairs(calls, m[i].parts, pairs, ids);
      } else {
        assert [] + AllReturnIds(calls, m[i + 1..]) == AllReturnIds(calls, m[i + 1..]);
      }
    }
    AllReturnIdsEnd(calls, m);
    assert ids + [] == ids;
  }

  lemma AllReturnIdsStep(calls: CallTable, m: seq<Message>, i: nat)
    requires i < |m|
    ensures AllReturnIds(calls, m[i..]) ==
            (if m[i].Request? then ReturnIds(calls, m[i].parts) else []) + AllReturnIds(calls, m[i + 1..])
  {
    hide ReturnIds;
    assert m[i..][0] == m[i] && m[i..][1..] == m[i + 1..];
  }

  lemma AllReturnIdsEnd(calls: CallTable, m: seq<Message>)
    ensures AllReturnIds(calls, m[|m|..]) == []
  {
  }

  lemma Reassociate(a: seq<string>, b: seq<string>, c: seq<string>)
    ensures (a + b) + c == a + (b + c) && [] + c == c
  {
  }

  lemma NoPairs(calls: CallTable)
    ensures Numbered(calls, [], [])
  {
  }

  /** The pairs one request adds. */
  method AddPairs(calls: CallTable, parts: seq<RequestPart>, known: seq<Pair>, ghost knownIds: seq<string>)
    returns (pairs: seq<Pair>, ghost ids: seq<string>)
    requires OnlyCalls(calls) && Numbered(calls, knownIds, known)
    ensures ids == knownIds + ReturnIds(calls, parts) && Numbered(calls, ids, pairs)
  {
    pairs, ids := known, knownIds;
    assert parts[0..] == parts;
    for k := 0 to |parts|
      invariant ids + ReturnIds(calls, parts[k..]) == knownIds + ReturnIds(calls, parts)
      invariant Numbered(calls, ids, pairs)
    {
      assert parts[k..][1..] == parts[k + 1..];
      if parts[k].ToolReturn? && parts[k].id in calls {
        pairs := pairs + [Pair(parts[k].id, calls[parts[k].id].name, calls[parts[k].id], |pairs|)];
        ids := ids + [parts[k].id];
      }
    }
  }

  // ---- blanking ---------------------------------------------------------------------------------------------------

  function ClearedPart(part: RequestPart, ids: set<string>, placeholder: string): RequestPart {
    if part.ToolReturn? && !part.typed && part.id in ids then ToolReturn(part.id, placeholder, part.typed) else part
  }

  function ClearedReply(reply: ResponsePart, ids: set<string>): ResponsePart {
    if reply.ToolCall? && reply.id in ids then ToolCall(reply.id, reply.name, CLEARED_TOOL_ARGS) else reply
  }

  function ClearedMessage(msg: Message, returnIds: set<string>, inputIds: set<string>,
      placeholder: string): (r: Message)
    ensures r.Request? <==> msg.Request?
  {
    match msg
    case Request(parts, instructions, baseline) =>
      Request(seq(|parts|, k requires 0 <= k < |parts| => ClearedPart(parts[k], returnIds, placeholder)),
          instructions, baseline)
    case Response(replies) =>
      Response(seq(|replies|, k requires 0 <= k < |replies| => ClearedReply(replies[k], inputIds)))
  }

  function Cleared(m: seq<Message>, returnIds: set<string>, inputIds: set<string>,
      placeholder: string): (r: seq<Message>)
    ensures |r| == |m|
  {
    seq(|m|, i requires 0 <= i < |m| => ClearedMessage(m[i], returnIds, inputIds, placeholder))
  }

  /** The results under `returnIds` have the placeholder for their content, and the calls under `inputIds` no arguments.
      Returns with structured content, and everything else, are as they were. */
  ghost predicate Blanks(
    m: seq<Message>, returnIds: set<string>, inputIds: set<string>, placeholder: string, out: seq<Message>)
  {
    && |out| == |m|
    && (forall i :: 0 <= i < |m| && m[i].Request? ==>
          && out[i].Request? && |out[i].parts| == |m[i].parts|
          && out[i].instructions == m[i].instructions && out[i].baseline == m[i].baseline
          && forall k :: 0 <= k < |m[i].parts| ==>
               var part := m[i].parts[k];
               if part.ToolReturn? && part.id in returnIds && !part.typed then
                 out[i].parts[k] == ToolReturn(part.id, placeholder, false)
               else out[i].parts[k] == part)
    && (forall i :: 0 <= i < |m| && m[i].Response? ==>
          && out[i].Response? && |out[i].replies| == |m[i].replies|
          && forall k :: 0 <= k < |m[i].replies| ==>
               var reply := m[i].replies[k];
               if reply.ToolCall? && reply.id in inputIds then out[i].replies[k] == ToolCall(reply.id, reply.name, "{}")
               else out[i].replies[k] == reply)
  }

  lemma ClearedBlanks(m: seq<Message>, returnIds: set<string>, inputIds: set<string>, placeholder: string)
    ensures Blanks(m, returnIds, inputIds, placeholder, Cleared(m, returnIds, inputIds, placeholder))
  {
  }

  /** `rebuild_with_cleared`. */
  method RebuildWithCleared(m: seq<Message>, returnIds: set<string>, inputIds: set<string>, placeholder: string)
    returns (out: seq<Message>)
    ensures out == Cleared(m, returnIds, inputIds, placeholder)
    ensures Blanks(m, returnIds, inputIds, placeholder, out)
  {
    ClearedBlanks(m, returnIds, inputIds, placeholder);
    hide Blanks;
    out := [];
    for i := 0 to |m|
      invariant out == Cleared(m, returnIds, inputIds, placeholder)[..i]
    {
      match m[i]
      case Request(parts, instructions, baseline) =>
        var rebuilt: seq<RequestPart> := [];
        for k := 0 to |parts|
          invariant |rebuilt| == k
          invariant forall h :: 0 <= h < k ==> rebuilt[h] == ClearedPart(parts[h], returnIds, placeholder)
        {
          if parts[k].ToolReturn? && !parts[k].typed && parts[k].id in returnIds && parts[k].content != placeholder {
            rebuilt := rebuilt + [ToolReturn(parts[k].id, placeholder, parts[k].typed)];
          } else {
            rebuilt := rebuilt + [parts[k]];
          }
        }
        assert Request(rebuilt, instructions, baseline) == ClearedMessage(m[i], returnIds, inputIds, placeholder);
        out := out + [Request(rebuilt, instructions, baseline)];
      case Response(replies) =>
        var rebuilt: seq<ResponsePart> := [];
        for k := 0 to |replies|
          invariant |rebuilt| == k && forall h :: 0 <= h < k ==> rebuilt[h] == ClearedReply(replies[h], inputIds)
        {
          if replies[k].ToolCall? && replies[k].id in inputIds && replies[k].args != CLEARED_TOOL_ARGS {
            rebuilt := rebuilt + [ToolCall(replies[k].id, replies[k].name, CLEARED_TOOL_ARGS)];
          } else {
            rebuilt := rebuilt + [replies[k]];
          }
        }
        assert Response(rebuilt) == ClearedMessage(m[i], returnIds, inputIds, placeholder);
        out := out + [Response(rebuilt)];
    }
  }

  /** Blanking leaves every call and every return where it was, under its id. */
  lemma ClearingKeepsIds(m: seq<Message>, returnIds: set<string>, inputIds: set<string>, placeholder: string, i: int,
      id: string)
    ensures CallAt(Cleared(m, returnIds, inputIds, placeholder), i, id) <==> CallAt(m, i, id)
    ensures ReturnAt(Cleared(m, returnIds, inputIds, placeholder), i, id) <==> ReturnAt(m, i, id)
  {
    var r := Cleared(m, returnIds, inputIds, placeholder);
    if 0 <= i < |m| {
      assert r[i] == ClearedMessage(m[i], returnIds, inputIds, placeholder);
      if m[i].Request? {
        forall k | 0 <= k < |m[i].parts|
          ensures r[i].parts[k].ToolReturn? == m[i].parts[k].ToolReturn?
          ensures m[i].parts[k].ToolReturn? ==> r[i].parts[k].id == m[i].parts[k].id
        {
        }
      } else {
        forall k | 0 <= k < |m[i].replies|
          ensures r[i].replies[k].ToolCall? == m[i].replies[k].ToolCall?
          ensures m[i].replies[k].ToolCall? ==> r[i].replies[k].id == m[i].replies[k].id
        {
        }
      }
    }
  }

  // ---- which results are cleared ----------------------------------------------------------------------------------

  /** Not among the newest `keep`, and not of an excluded tool. */
  ghost predicate IsOld(pairs: seq<Pair>, keep: nat, exclude: set<string>, q: int) {
    0 <= q < |pairs| && q + keep < |pairs| && pairs[q].name !in exclude
  }

  /** The ids of the old pairs before position `upTo`. */
  ghost predicate OldIds(ids: set<string>, pairs: seq<Pair>, keep: nat, exclude: set<string>, upTo: int) {
    forall id :: id in ids <==> exists q :: q < upTo && IsOld(pairs, keep, exclude, q) && pairs[q].id == id
  }

  lemma OldIdsStep(ids: set<string>, pairs: seq<Pair>, keep: nat, exclude: set<string>, q: nat)
    requires OldIds(ids, pairs, keep, exclude, q) && q + keep < |pairs|
    ensures OldIds(if pairs[q].name !in exclude then ids + {pairs[q].id} else ids, pairs, keep, exclude, q + 1)
  {
    var ids' := if pairs[q].name !in exclude then ids + {pairs[q].id} else ids;
    forall id ensures id in ids' <==> exists r :: r < q + 1 && IsOld(pairs, keep, exclude, r) && pairs[r].id == id {
      if pairs[q].name !in exclude {
        assert IsOld(pairs, keep, exclude, q);
      }
    }
  }

  /** The id set of `ClearToolResults.compact`. */
  method ClearableIds(pairs: seq<Pair>, keep: nat, exclude: set<string>) returns (ids: set<string>)
    ensures OldIds(ids, pairs, keep, exclude, |pairs|)
  {
    ids := {};
    var count := if |pairs| > keep then |pairs| - keep else 0;
    assert OldIds(ids, pairs, keep, exclude, 0) by {
      assert forall q :: q < 0 ==> !IsOld(pairs, keep, exclude, q);
    }
    hide OldIds;
    for q := 0 to count
      invariant OldIds(ids, pairs, keep, exclude, q)
    {
      OldIdsStep(ids, pairs, keep, exclude, q);
      if pairs[q].name !in exclude {
        ids := ids + {pairs[q].id};
      }
    }
    OldIdsEnd(ids, pairs, keep, exclude, count);
  }

  lemma OldIdsEnd(ids: set<string>, pairs: seq<Pair>, keep: nat, exclude: set<string>, count: nat)
    requires OldIds(ids, pairs, keep, exclude, count) && count + keep >= |pairs|
    ensures OldIds(ids, pairs, keep, exclude, |pairs|)
  {
    assert forall q :: IsOld(pairs, keep, exclude, q) ==> q < count;
  }

  /** Ids used once. */
  ghost predicate Distinct(pairs: seq<Pair>) {
    forall q, r :: 0 <= q < r < |pairs| ==> pairs[q].id != pairs[r].id
  }

  /** One of the newest `keep` results is blanked exactly when its id was used before, by an old result. */
  lemma NewestStay(pairs: seq<Pair>, keep: nat, exclude: set<string>, ids: set<string>, q: nat)
    requires OldIds(ids, pairs, keep, exclude, |pairs|) && q < |pairs| && q + keep >= |pairs|
    ensures pairs[q].id in ids <==> exists r :: r < q && IsOld(pairs, keep, exclude, r) && pairs[r].id == pairs[q].id
  {
    if pairs[q].id in ids {
      var r :| r < |pairs| && IsOld(pairs, keep, exclude, r) && pairs[r].id == pairs[q].id;
      assert r < q;
    }
  }

  /** A call repeated under its id: with one result to keep, both are blanked. */
  lemma ReusedIdLosesTheNewest(pairs: seq<Pair>, id: string, call: ResponsePart, name: string)
    requires pairs == [Pair(id, name, call, 0), Pair(id, name, call, 1)]
    ensures forall ids :: OldIds(ids, pairs, 1, {}, |pairs|) ==> pairs[1].id in ids
  {
    forall ids | OldIds(ids, pairs, 1, {}, |pairs|) ensures pairs[1].id in ids {
      assert IsOld(pairs, 1, {}, 0);
      NewestStay(pairs, 1, {}, ids, 1);
    }
  }

  /** With ids used once, exactly the results beyond the newest `keep` are blanked, except those of excluded tools. */
  lemma ExactlyTheOldest(pairs: seq<Pair>, keep: nat, exclude: set<string>, ids: set<string>, q: nat)
    requires OldIds(ids, pairs, keep, exclude, |pairs|) && Distinct(pairs) && q < |pairs|
    ensures pairs[q].id in ids <==> q + keep < |pairs| && pairs[q].name !in exclude
  {
    if pairs[q].id in ids {
      var r :| r < |pairs| && IsOld(pairs, keep, exclude, r) && pairs[r].id == pairs[q].id;
      assert r == q;
    }
    assert IsOld(pairs, keep, exclude, q) <==> q + keep < |pairs| && pairs[q].name !in exclude;
  }

  type FileKey = ResponsePart -> Option<string>

  /** A newer read of the same file follows. */
  ghost predicate Superseded(pairs: seq<Pair>, key: FileKey, q: int) {
    0 <= q < |pairs| && key(pairs[q].call).Some? &&
    exists r :: q < r < |pairs| && key(pairs[r].call) == key(pairs[q].call)
  }

  ghost predicate SupersededIds(ids: set<string>, pairs: seq<Pair>, key: FileKey, upTo: int) {
    forall id :: id in ids <==> exists q :: q < upTo && Superseded(pairs, key, q) && pairs[q].id == id
  }

  /** The last position of each key so far. */
  ghost predicate Latest(latest: map<string, nat>, pairs: seq<Pair>, key: FileKey, upTo: nat)
    requires upTo <= |pairs|
  {
    && (forall q :: 0 <= q < upTo && key(pairs[q].call).Some? ==>
          key(pairs[q].call).value in latest && latest[key(pairs[q].call).value] >= q)
    && (forall k :: k in latest ==> latest[k] < upTo && key(pairs[latest[k]].call) == Some(k))
  }

  lemma LatestIsNotSuperseded(latest: map<string, nat>, pairs: seq<Pair>, key: FileKey, q: nat)
    requires Latest(latest, pairs, key, |pairs|) && q < |pairs| && key(pairs[q].call).Some?
    ensures latest[key(pairs[q].call).value] != q <==> Superseded(pairs, key, q)
  {
    var r := latest[key(pairs[q].call).value];
    assert key(pairs[r].call) == key(pairs[q].call);
  }

  lemma SupersededStep(ids: set<string>, pairs: seq<Pair>, key: FileKey, q: nat)
    requires SupersededIds(ids, pairs, key, q) && q < |pairs|
    ensures SupersededIds(if Superseded(pairs, key, q) then ids + {pairs[q].id} else ids, pairs, key, q + 1)
  {
    var ids' := if Superseded(pairs, key, q) then ids + {pairs[q].id} else ids;
    hide Superseded;
    forall id ensures id in ids' <==> exists r :: r < q + 1 && Superseded(pairs, key, r) && pairs[r].id == id {
      if Superseded(pairs, key, q) && id == pairs[q].id {
        assert q < q + 1 && Superseded(pairs, key, q) && pairs[q].id == id;
      }
    }
  }

  /** The id set of `DeduplicateFileReads.compact`. */
  method SupersededReads(pairs: seq<Pair>, key: FileKey) returns (ids: set<string>)
    requires forall q :: 0 <= q < |pairs| ==> pairs[q].order == q
    ensures SupersededIds(ids, pairs, key, |pairs|)
  {
    var latest: map<string, nat> := map[];
    for q := 0 to |pairs|
      invariant Latest(latest, pairs, key, q)
    {
      var k := key(pairs[q].call);
      if k.Some? {
        latest := latest[k.value := pairs[q].order];
      }
    }
    ids := {};
    assert SupersededIds(ids, pairs, key, 0) by {
      assert forall q :: q < 0 ==> !Superseded(pairs, key, q);
    }
    hide SupersededIds, Superseded;
    for q := 0 to |pairs|
      invariant SupersededIds(ids, pairs, key, q)
    {
      SupersededStep(ids, pairs, key, q);
      var k := key(pairs[q].call);
      if k.Some? {
        LatestIsNotSuperseded(latest, pairs, key, q);
        if latest[k.value] != pairs[q].order {
          ids := ids + {pairs[q].id};
        }
      } else {
        NoKeyIsNotSuperseded(pairs, key, q);
      }
    }
  }

  lemma NoKeyIsNotSuperseded(pairs: seq<Pair>, key: FileKey, q: nat)
    requires q < |pairs| && key(pairs[q].call).None?
    ensures !Superseded(pairs, key, q)
  {
  }

  /** With ids used once, exactly the reads with a newer read of the same file are blanked: each file's last read
      stays. */
  lemma ExactlyTheSuperseded(pairs: seq<Pair>, key: FileKey, ids: set<string>, q: nat)
    requires SupersededIds(ids, pairs, key, |pairs|) && Distinct(pairs) && q < |pairs|
    ensures pairs[q].id in ids <==> Superseded(pairs, key, q)
  {
    hide Superseded;
    assert forall r :: Superseded(pairs, key, r) ==> 0 <= r < |pairs| by {
      forall r | Superseded(pairs, key, r) ensures 0 <= r < |pairs| {
        SupersededBounds(pairs, key, r);
      }
    }
    if pairs[q].id in ids {
      var r :| r < |pairs| && Superseded(pairs, key, r) && pairs[r].id == pairs[q].id;
      assert r == q;
    }
  }

  lemma SupersededBounds(pairs: seq<Pair>, key: FileKey, q: int)
    requires Superseded(pairs, key, q)
    ensures 0 <= q < |pairs|
  {
  }

  // ---- the two strategies -----------------------------------------------------------------------------------------

  /** Too little is gained to give up the prompt cache for. */
  predicate TooLittle(m: seq<Message>, cleared: seq<Message>, minReclaim: Option<nat>, tokenizer: Tokenizer) {
    minReclaim.Some? && Estimate(tokenizer, m) - Estimate(tokenizer, cleared) < minReclaim.value
  }

  /** `result` is `m` with `ids`, the old results of its `pairs`, blanked, unless that gains too little. */
  ghost predicate OldBlanked(
    m: seq<Message>, keep: nat, exclude: set<string>, clearInputs: bool, placeholder: string,
    minReclaim: Option<nat>, tokenizer: Tokenizer, result: seq<Message>, pairs: seq<Pair>, ids: set<string>)
  {
    && PairsOf(m, pairs) && OldIds(ids, pairs, keep, exclude, |pairs|)
    && var cleared := Cleared(m, ids, if clearInputs then ids else {}, placeholder);
       result == if ids == {} || TooLittle(m, cleared, minReclaim, tokenizer) then m else cleared
  }

  /** `ClearToolResults.compact`: blanks exactly the old results, all of them or, when that gains too little, none. */
  method ClearToolResults(
    m: seq<Message>, keep: nat, exclude: set<string>, clearInputs: bool, placeholder: string,
    minReclaim: Option<nat>, tokenizer: Tokenizer)
    returns (result: seq<Message>)
    ensures exists pairs, ids ::
              OldBlanked(m, keep, exclude, clearInputs, placeholder, minReclaim, tokenizer, result, pairs, ids)
  {
    hide PairsOf, OldIds, Cleared;
    var pairs := IterToolPairs(m);
    var ids := ClearableIds(pairs, keep, exclude);
    if ids == {} {
      result := m;
    } else {
      result := RebuildWithCleared(m, ids, if clearInputs then ids else {}, placeholder);
      if TooLittle(m, result, minReclaim, tokenizer) {
        result := m;
      }
    }
    assert OldBlanked(m, keep, exclude, clearInputs, placeholder, minReclaim, tokenizer, result, pairs, ids);
  }

  lemma PairsAreOrdered(m: seq<Message>, pairs: seq<Pair>)
    requires PairsOf(m, pairs)
    ensures forall q :: 0 <= q < |pairs| ==> pairs[q].order == q
  {
  }

  /** `result` is `m` with `ids`, the superseded reads of its `pairs`, blanked. */
  ghost predicate SupersededBlanked(
    m: seq<Message>, key: FileKey, placeholder: string, result: seq<Message>, pairs: seq<Pair>, ids: set<string>)
  {
    && PairsOf(m, pairs) && SupersededIds(ids, pairs, key, |pairs|)
    && result == if ids == {} then m else Cleared(m, ids, {}, placeholder)
  }

  /** `DeduplicateFileReads.compact`: blanks exactly the superseded reads. */
  method DeduplicateFileReads(m: seq<Message>, key: FileKey, placeholder: string) returns (result: seq<Message>)
    ensures exists pairs, ids :: SupersededBlanked(m, key, placeholder, result, pairs, ids)
  {
    var pairs := IterToolPairs(m);
    PairsAreOrdered(m, pairs);
    hide PairsOf, SupersededIds, Cleared;
    var ids := SupersededReads(pairs, key);
    if ids == {} {
      result := m;
    } else {
      result := RebuildWithCleared(m, ids, {}, placeholder);
    }
    assert SupersededBlanked(m, key, placeholder, result, pairs, ids);
  }
}
