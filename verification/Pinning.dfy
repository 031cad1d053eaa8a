/** Pinned parts survive compaction: whatever a strategy drops is put back, exactly as often as it is missing. */
module Pinning {
  import opened Options
  import opened Messages

  function PinnedOf(parts: seq<RequestPart>): seq<RequestPart> {
    if parts == [] then [] else (if IsPinned(parts[0]) then [parts[0]] else []) + PinnedOf(parts[1..])
  }

  /** `collect_pinned`. */
  function Pins(m: seq<Message>): seq<RequestPart> {
    if m == [] then [] else (if m[0].Request? then PinnedOf(m[0].parts) else []) + Pins(m[1..])
  }

  /** How often each pinned part occurs. */
  function PinBag(m: seq<Message>): multiset<RequestPart> {
    multiset(Pins(m))
  }

  predicate SystemOnly(msg: Message) {
    msg.Request? && msg.parts != [] && forall k :: 0 <= k < |msg.parts| ==> msg.parts[k].SystemPrompt?
  }

  /** The leading run of system-only requests. */
  function LeadingContext(m: seq<Message>): (n: nat)
    ensures n <= |m|
    ensures forall i :: 0 <= i < n ==> SystemOnly(m[i])
    ensures n < |m| ==> !SystemOnly(m[n])
  {
    if m == [] || !SystemOnly(m[0]) then 0 else 1 + LeadingContext(m[1..])
  }

  /** The first position of `part`. */
  function Position(parts: seq<RequestPart>, part: RequestPart): (k: nat)
    ensures k <= |parts| && (k < |parts| ==> parts[k] == part)
    ensures forall j :: 0 <= j < k ==> parts[j] != part
  {
    if parts == [] || parts[0] == part then 0 else 1 + Position(parts[1..], part)
  }

  /** The parts of `pinned` with no partner in `surviving`, each survivor partnering one of them. */
  function Missing(pinned: seq<RequestPart>, surviving: seq<RequestPart>): seq<RequestPart> {
    if pinned == [] then []
    else
      var k := Position(surviving, pinned[0]);
      if k < |surviving| then Missing(pinned[1..], surviving[..k] + surviving[k + 1..])
      else [pinned[0]] + Missing(pinned[1..], surviving)
  }

  /** The missing pins go into one request after the leading context. */
  function Reinject(original: seq<Message>, compacted: seq<Message>): seq<Message> {
    var missing := Missing(Pins(original), Pins(compacted));
    if missing == [] then compacted
    else
      var i := LeadingContext(compacted);
      compacted[..i] + [Request(missing, None, false)] + compacted[i..]
  }

  /** The matching loops of `reinject_pinned`. */
  method FindMissing(pinned: seq<RequestPart>, survivors: seq<RequestPart>) returns (missing: seq<RequestPart>)
    ensures missing == Missing(pinned, survivors)
  {
    hide Position;
    var surviving := survivors;
    missing := [];
    assert pinned[0..] == pinned;
    for i := 0 to |pinned|
      invariant missing + Missing(pinned[i..], surviving) == Missing(pinned, survivors)
    {
      var j := 0;
      while j < |surviving| && surviving[j] != pinned[i]
        invariant j <= |surviving| && forall k :: 0 <= k < j ==> surviving[k] != pinned[i]
      {
        j := j + 1;
      }
      assert j == Position(surviving, pinned[i]);
      assert pinned[i..][1..] == pinned[i + 1..];
      if j < |surviving| {
        surviving := surviving[..j] + surviving[j + 1..];
      } else {
        missing := missing + [pinned[i]];
      }
    }
  }

  method LeadingContextLen(m: seq<Message>) returns (count: nat)
    ensures count == LeadingContext(m)
  {
    count := 0;
    assert m[0..] == m;
    while count < |m| && SystemOnly(m[count])
      invariant count <= |m| && LeadingContext(m) == count + LeadingContext(m[count..])
    {
      assert m[count..][1..] == m[count + 1..];
      count := count + 1;
    }
  }

  /** `reinject_pinned`. */
  method ReinjectPinned(original: seq<Message>, compacted: seq<Message>) returns (result: seq<Message>)
    ensures result == Reinject(original, compacted)
  {
    hide Pins;
    var pinned := Pins(original);
    if pinned == [] {
      return compacted;
    }
    var missing := FindMissing(pinned, Pins(compacted));
    if missing == [] {
      return compacted;
    }
    var index := LeadingContextLen(compacted);
    result := compacted[..index] + [Request(missing, None, false)] + compacted[index..];
  }

  // ---- counting pins ---------------------------------------------------------------------------------------------

  lemma {:induction false} PinsConcat(a: seq<Message>, b: seq<Message>)
    ensures Pins(a + b) == Pins(a) + Pins(b)
  {
    if a == [] {
      assert a + b == b;
    } else {
      assert (a + b)[1..] == a[1..] + b;
      PinsConcat(a[1..], b);
    }
  }

  lemma {:induction false} PinnedOfPins(parts: seq<RequestPart>)
    requires forall part :: part in parts ==> IsPinned(part)
    ensures PinnedOf(parts) == parts
  {
    if parts != [] {
      PinnedOfPins(parts[1..]);
    }
  }

  lemma {:induction false} PinsArePinned(m: seq<Message>)
    ensures forall part :: part in Pins(m) ==> IsPinned(part)
  {
    if m != [] {
      PinsArePinned(m[1..]);
      if m[0].Request? {
        PinnedArePinned(m[0].parts);
      }
    }
  }

  lemma {:induction false} PinnedArePinned(parts: seq<RequestPart>)
    ensures forall part :: part in PinnedOf(parts) ==> IsPinned(part)
  {
    if parts != [] {
      PinnedArePinned(parts[1..]);
    }
  }

  lemma {:induction false} MissingIsTheDifference(pinned: seq<RequestPart>, surviving: seq<RequestPart>)
    ensures multiset(Missing(pinned, surviving)) == multiset(pinned) - multiset(surviving)
    ensures forall part :: part in Missing(pinned, surviving) ==> part in pinned
    decreases |pinned|
  {
    if pinned != [] {
      assert pinned == [pinned[0]] + pinned[1..];
      var k := Position(surviving, pinned[0]);
      if k < |surviving| {
        var rest := surviving[..k] + surviving[k + 1..];
        assert surviving == surviving[..k] + [pinned[0]] + surviving[k + 1..];
        MissingIsTheDifference(pinned[1..], rest);
        assert multiset(surviving) == multiset(rest) + multiset{pinned[0]};
      } else {
        assert pinned[0] !in surviving;
        MissingIsTheDifference(pinned[1..], surviving);
      }
    }
  }

  lemma InsertedPins(m: seq<Message>, i: nat, parts: seq<RequestPart>)
    requires i <= |m| && forall part :: part in parts ==> IsPinned(part)
    ensures PinBag(m[..i] + [Request(parts, None, false)] + m[i..]) == PinBag(m) + multiset(parts)
  {
    var pin := Request(parts, None, false);
    PinsOfOne(pin);
    PinnedOfPins(parts);
    hide Pins, PinnedOf;
    PinsOfThree(m[..i], pin, m[i..]);
    assert m[..i] + m[i..] == m;
    BagOfThree(Pins(m[..i]), parts, Pins(m[i..]));
  }

  lemma PinsOfThree(a: seq<Message>, msg: Message, b: seq<Message>)
    ensures Pins(a + [msg] + b) == Pins(a) + Pins([msg]) + Pins(b) && Pins(a + b) == Pins(a) + Pins(b)
  {
    hide Pins;
    PinsConcat(a + [msg], b);
    PinsConcat(a, [msg]);
    PinsConcat(a, b);
  }

  lemma BagOfThree<T>(a: seq<T>, b: seq<T>, c: seq<T>)
    ensures multiset(a + b + c) == multiset(a + c) + multiset(b)
  {
  }

  lemma PinsOfOne(msg: Message)
    requires msg.Request?
    ensures Pins([msg]) == PinnedOf(msg.parts)
  {
    assert [msg][1..] == [];
  }

  // ---- which parts are pins ---------------------------------------------------------------------------------------

  /** How often a part stands in a request. */
  function Occurrences(parts: seq<RequestPart>, part: RequestPart): nat {
    if parts == [] then 0 else (if parts[0] == part then 1 else 0) + Occurrences(parts[1..], part)
  }

  /** How often a part stands in the requests of a history. */
  function OccurrencesIn(m: seq<Message>, part: RequestPart): nat {
    if m == [] then 0 else (if m[0].Request? then Occurrences(m[0].parts, part) else 0) + OccurrencesIn(m[1..], part)
  }

  lemma {:induction false} PinnedOfExactly(parts: seq<RequestPart>, part: RequestPart)
    ensures multiset(PinnedOf(parts))[part] ==
            if part.UserPrompt? && part.pinned then Occurrences(parts, part) else 0
  {
    if parts != [] {
      PinnedOfExactly(parts[1..], part);
    }
  }

  /** The pins of a history are its pinned user prompts, each as often as it stands there. */
  lemma {:induction false} PinsExactly(m: seq<Message>, part: RequestPart)
    ensures PinBag(m)[part] == if part.UserPrompt? && part.pinned then OccurrencesIn(m, part) else 0
  {
    hide PinnedOf, Occurrences;
    if m != [] {
      PinsExactly(m[1..], part);
      if m[0].Request? {
        PinnedOfExactly(m[0].parts, part);
        assert Pins(m) == PinnedOf(m[0].parts) + Pins(m[1..]);
      } else {
        assert Pins(m) == Pins(m[1..]);
      }
    }
  }

  /** The request stands behind the requests at the start that hold system prompts only, and in front of all else. */
  ghost predicate StandsBehindContext(m: seq<Message>, i: nat) {
    && i <= |m|
    && (forall j :: 0 <= j < i ==>
          m[j].Request? && m[j].parts != [] && forall k :: 0 <= k < |m[j].parts| ==> m[j].parts[k].SystemPrompt?)
    && (i < |m| ==> m[i].Response? || m[i].parts == []
                    || exists k :: 0 <= k < |m[i].parts| && !m[i].parts[k].SystemPrompt?)
  }

  /** `result` is `m` with one request more, at that place, that holds exactly `parts`. */
  ghost predicate AddsAt(m: seq<Message>, i: nat, parts: seq<RequestPart>, result: seq<Message>) {
    StandsBehindContext(m, i) && result == m[..i] + [Request(parts, None, false)] + m[i..]
  }

  /** Where the missing pins go, and which they are. */
  lemma ReinjectExactly(original: seq<Message>, compacted: seq<Message>)
    ensures var result := Reinject(original, compacted);
            if PinBag(original) <= PinBag(compacted) then result == compacted
            else exists i: nat, parts ::
              AddsAt(compacted, i, parts, result) && multiset(parts) == PinBag(original) - PinBag(compacted)
  {
    var missing := Missing(Pins(original), Pins(compacted));
    MissingIsTheDifference(Pins(original), Pins(compacted));
    EmptyDifference(PinBag(original), PinBag(compacted));
    var i := LeadingContext(compacted);
    assert StandsBehindContext(compacted, i);
    hide Pins, Missing, StandsBehindContext;
    if missing == [] {
      assert multiset(missing) == multiset{};
    } else {
      assert multiset(missing)[missing[0]] > 0;
      assert AddsAt(compacted, i, missing, Reinject(original, compacted));
    }
  }

  /** `result` is `m` with one request added. */
  ghost predicate OneRequestMore(m: seq<Message>, result: seq<Message>) {
    exists i :: 0 <= i < |result| && result[i].Request? && m == result[..i] + result[i + 1..]
  }

  lemma Inserted(m: seq<Message>, i: nat, request: Message)
    requires i <= |m| && request.Request?
    ensures OneRequestMore(m, m[..i] + [request] + m[i..])
  {
    var result := m[..i] + [request] + m[i..];
    assert result[i] == request && m == result[..i] + result[i + 1..];
  }

  /** What reinjection does: the pins of the result are those of the compacted history plus exactly the ones it
      lacked, in one request; everything else stays where it was. */
  lemma ReinjectAddsTheDifference(original: seq<Message>, compacted: seq<Message>)
    ensures var result := Reinject(original, compacted);
            && PinBag(result) == PinBag(compacted) + (PinBag(original) - PinBag(compacted))
            && (if PinBag(original) <= PinBag(compacted) then result == compacted
                else OneRequestMore(compacted, result))
  {
    var missing := Missing(Pins(original), Pins(compacted));
    MissingIsTheDifference(Pins(original), Pins(compacted));
    PinsArePinned(original);
    EmptyDifference(PinBag(original), PinBag(compacted));
    hide Pins, Missing, OneRequestMore;
    if missing == [] {
      assert multiset(missing) == multiset{};
    } else {
      assert multiset(missing)[missing[0]] > 0;
      InsertedPins(compacted, LeadingContext(compacted), missing);
      Inserted(compacted, LeadingContext(compacted), Request(missing, None, false));
    }
  }

  lemma EmptyDifference(a: multiset<RequestPart>, b: multiset<RequestPart>)
    ensures a - b == multiset{} <==> a <= b
  {
    if a - b == multiset{} {
      forall part ensures a[part] <= b[part] {
        assert (a - b)[part] == 0;
      }
    }
  }

  lemma ReinjectKeepsPins(original: seq<Message>, compacted: seq<Message>)
    ensures PinBag(original) <= PinBag(Reinject(original, compacted))
    ensures PinBag(compacted) <= PinBag(Reinject(original, compacted))
  {
    ReinjectAddsTheDifference(original, compacted);
    hide Pins;
    forall part ensures PinBag(original)[part] <= PinBag(Reinject(original, compacted))[part] {
    }
  }

  lemma ReinjectIdempotent(original: seq<Message>, compacted: seq<Message>)
    ensures Reinject(original, Reinject(original, compacted)) == Reinject(original, compacted)
  {
    ReinjectKeepsPins(original, compacted);
    ReinjectAddsTheDifference(original, Reinject(original, compacted));
  }

  // ---- escalation -------------------------------------------------------------------------------------------------

  /** A tier may return any history. */
  type Tier = seq<Message> -> seq<Message>

  type Estimator = seq<Message> -> nat

  /** The history after the first `k` tiers. */
  function Stage(original: seq<Message>, tiers: seq<Tier>, k: nat): seq<Message>
    requires k <= |tiers|
  {
    if k == 0 then original else Reinject(original, tiers[k - 1](Stage(original, tiers, k - 1)))
  }

  /** The estimate that decides whether to stop: the anchored baseline, less what the tiers took off. */
  function StageEstimate(original: seq<Message>, tiers: seq<Tier>, baseline: nat, heuristic: Estimator, k: nat): int
    requires k <= |tiers|
  {
    if k == 0 then baseline
    else
      var left := baseline - (heuristic(original) - heuristic(Stage(original, tiers, k)));
      if left > 0 then left else 0
  }

  /** When the baseline is the estimate of the history itself, each stage counts for exactly its own estimate; a
      baseline that is higher by some amount stays higher by it. */
  lemma EstimateIsAnchored(original: seq<Message>, tiers: seq<Tier>, baseline: nat, heuristic: Estimator, k: nat)
    requires k <= |tiers|
    ensures baseline >= heuristic(original) ==>
              StageEstimate(original, tiers, baseline, heuristic, k) - heuristic(Stage(original, tiers, k)) ==
              baseline - heuristic(original)
    ensures baseline < heuristic(original) ==>
              StageEstimate(original, tiers, baseline, heuristic, k) <= heuristic(Stage(original, tiers, k))
    ensures StageEstimate(original, tiers, baseline, heuristic, k) >= 0
  {
  }

  /** The first stage that fits, or the last. */
  ghost predicate StopsAt(original: seq<Message>, tiers: seq<Tier>, baseline: nat, heuristic: Estimator, target: int,
      k: nat) {
    && k <= |tiers|
    && (k == |tiers| || StageEstimate(original, tiers, baseline, heuristic, k) <= target)
    && forall j :: 0 <= j < k ==> StageEstimate(original, tiers, baseline, heuristic, j) > target
  }

  /** `_escalate`. */
  method Escalate(messages: seq<Message>, tiers: seq<Tier>, baseline: nat, heuristic: Estimator, target: int)
    returns (result: seq<Message>, stage: nat)
    ensures StopsAt(messages, tiers, baseline, heuristic, target, stage)
    ensures result == Stage(messages, tiers, stage)
    ensures PinBag(messages) <= PinBag(result)
  {
    hide Reinject, PinBag, StageEstimate, Stage;
    StartStage(messages, tiers, baseline, heuristic);
    result := messages;
    var estimate: int := baseline;
    stage := 0;
    while stage < |tiers|
      invariant stage <= |tiers| && result == Stage(messages, tiers, stage)
      invariant estimate == StageEstimate(messages, tiers, baseline, heuristic, stage)
      invariant forall j :: 0 <= j < stage ==> StageEstimate(messages, tiers, baseline, heuristic, j) > target
    {
      if estimate <= target {
        break;
      }
      var compacted := tiers[stage](result);
      NextStage(messages, tiers, baseline, heuristic, stage);
      result := ReinjectPinned(messages, compacted);
      var reclaimed := heuristic(messages) - heuristic(result);
      estimate := if baseline - reclaimed > 0 then baseline - reclaimed else 0;
      stage := stage + 1;
    }
    PinsSurviveStages(messages, tiers, stage);
  }

  lemma StartStage(original: seq<Message>, tiers: seq<Tier>, baseline: nat, heuristic: Estimator)
    ensures Stage(original, tiers, 0) == original
    ensures StageEstimate(original, tiers, baseline, heuristic, 0) == baseline
  {
  }

  lemma NextStage(original: seq<Message>, tiers: seq<Tier>, baseline: nat, heuristic: Estimator, k: nat)
    requires k < |tiers|
    ensures var next := Reinject(original, tiers[k](Stage(original, tiers, k)));
            && Stage(original, tiers, k + 1) == next
            && var left := baseline - (heuristic(original) - heuristic(next));
               StageEstimate(original, tiers, baseline, heuristic, k + 1) == if left > 0 then left else 0
  {
    hide Reinject;
  }

  /** Wherever escalation stops, and whatever the tiers did, no pinned part of the original is lost. */
  lemma PinsSurviveStages(original: seq<Message>, tiers: seq<Tier>, k: nat)
    requires k <= |tiers|
    ensures PinBag(original) <= PinBag(Stage(original, tiers, k))
  {
    if k > 0 {
      ReinjectKeepsPins(original, tiers[k - 1](Stage(original, tiers, k - 1)));
    }
  }
}
