/** The token estimate and the search for the cut that fits a token target. */
module TokenCutoff {
  import opened Options
  import opened Messages
  import opened SafeCutoff

  const CHARS_PER_TOKEN := 4

  function RequestText(part: RequestPart): seq<string> {
    if part.ToolAvailability? then [] else [part.content]
  }

  function ResponseText(part: ResponsePart): seq<string> {
    match part
    case Text(content) => [content]
    case Thinking(content) => [content]
    case ToolCall(_, name, args) => [name, args]
    case NativeCall(name, args) => [name, args]
    case NativeReturn(name, content) => [name, content]
    case ResponseSpeech(content) => [content]
    case File => []
  }

  /** The last request that replaced the instruction baseline, or 0. */
  function BaselineIndex(m: seq<Message>): (b: nat)
    ensures b == 0 || b < |m|
    ensures b > 0 ==> m[b].Request? && m[b].baseline
    ensures forall i :: b < i < |m| ==> !(m[i].Request? && m[i].baseline)
  {
    if m == [] then 0
    else if m[|m| - 1].Request? && m[|m| - 1].baseline then |m| - 1
    else BaselineIndex(m[..|m| - 1])
  }

  function RequestTexts(parts: seq<RequestPart>, skipDeltas: bool): seq<string> {
    if parts == [] then []
    else (if parts[0].InstructionDelta? && skipDeltas then [] else RequestText(parts[0]))
         + RequestTexts(parts[1..], skipDeltas)
  }

  function ResponseTexts(parts: seq<ResponsePart>): seq<string> {
    if parts == [] then [] else ResponseText(parts[0]) + ResponseTexts(parts[1..])
  }

  function MessageText(msg: Message, skipDeltas: bool): seq<string> {
    match msg
    case Request(parts, _, _) => RequestTexts(parts, skipDeltas)
    case Response(replies) => ResponseTexts(replies)
  }

  /** Text of the messages from `i` on; instruction deltas before the baseline are not sent. */
  function TextFrom(m: seq<Message>, baseline: int, i: nat): seq<string>
    requires i <= |m|
    decreases |m| - i
  {
    if i == |m| then [] else MessageText(m[i], i < baseline) + TextFrom(m, baseline, i + 1)
  }

  predicate Instructs(msg: Message) {
    msg.Request? && msg.instructions.Some? && msg.instructions.value != ""
  }

  /** The newest non-empty instructions. */
  function InstructionsText(m: seq<Message>): seq<string> {
    if m == [] then []
    else
      var last := m[|m| - 1];
      if Instructs(last) then [last.instructions.value]
      else InstructionsText(m[..|m| - 1])
  }

  function CollectText(m: seq<Message>): seq<string> {
    TextFrom(m, BaselineIndex(m), 0) + InstructionsText(m)
  }

  /** A tokenizer counts the tokens of a string; without one, four characters make a token. */
  type Tokenizer = Option<string -> nat>

  function Total(tokenizer: Tokenizer, texts: seq<string>): nat {
    if texts == [] then 0
    else (if tokenizer.Some? then tokenizer.value(texts[0]) else |texts[0]|) + Total(tokenizer, texts[1..])
  }

  function Estimate(tokenizer: Tokenizer, m: seq<Message>): nat {
    var total := Total(tokenizer, CollectText(m));
    if tokenizer.Some? then total else total / CHARS_PER_TOKEN
  }

  // ---- every part counts by itself ----------------------------------------------------------------------------------

  /** What a string counts for. */
  function Size(tokenizer: Tokenizer, text: string): nat {
    if tokenizer.Some? then tokenizer.value(text) else |text|
  }

  /** What a request part counts for; `superseded` is whether a newer instruction baseline replaced it. */
  function RequestWeight(tokenizer: Tokenizer, part: RequestPart, superseded: bool): nat {
    match part
    case ToolAvailability => 0
    case InstructionDelta(content) => if superseded then 0 else Size(tokenizer, content)
    case SystemPrompt(content) => Size(tokenizer, content)
    case UserPrompt(content, _, _) => Size(tokenizer, content)
    case ToolReturn(_, content, _) => Size(tokenizer, content)
    case RetryPrompt(_, content) => Size(tokenizer, content)
    case RequestSpeech(content) => Size(tokenizer, content)
  }

  /** What a response part counts for: its text, and of a call or a provider's tool result the name as well. */
  function ResponseWeight(tokenizer: Tokenizer, part: ResponsePart): nat {
    match part
    case File => 0
    case Text(content) => Size(tokenizer, content)
    case Thinking(content) => Size(tokenizer, content)
    case ResponseSpeech(content) => Size(tokenizer, content)
    case ToolCall(_, name, args) => Size(tokenizer, name) + Size(tokenizer, args)
    case NativeCall(name, args) => Size(tokenizer, name) + Size(tokenizer, args)
    case NativeReturn(name, content) => Size(tokenizer, name) + Size(tokenizer, content)
  }

  function RequestWeights(tokenizer: Tokenizer, parts: seq<RequestPart>, superseded: bool): nat {
    if parts == [] then 0
    else RequestWeight(tokenizer, parts[0], superseded) + RequestWeights(tokenizer, parts[1..], superseded)
  }

  function ResponseWeights(tokenizer: Tokenizer, parts: seq<ResponsePart>): nat {
    if parts == [] then 0 else ResponseWeight(tokenizer, parts[0]) + ResponseWeights(tokenizer, parts[1..])
  }

  /** The sum over the messages, each part counted once wherever it stands. */
  function Weights(tokenizer: Tokenizer, m: seq<Message>, baseline: int, i: nat): nat
    requires i <= |m|
    decreases |m| - i
  {
    if i == |m| then 0
    else
      (match m[i]
       case Request(parts, _, _) => RequestWeights(tokenizer, parts, i < baseline)
       case Response(replies) => ResponseWeights(tokenizer, replies))
      + Weights(tokenizer, m, baseline, i + 1)
  }

  lemma {:induction false} RequestTextsWeigh(tokenizer: Tokenizer, parts: seq<RequestPart>, skip: bool)
    ensures Total(tokenizer, RequestTexts(parts, skip)) == RequestWeights(tokenizer, parts, skip)
  {
    if parts != [] {
      var first := if parts[0].InstructionDelta? && skip then [] else RequestText(parts[0]);
      TotalConcat(tokenizer, first, RequestTexts(parts[1..], skip));
      RequestTextsWeigh(tokenizer, parts[1..], skip);
    }
  }

  lemma {:induction false} ResponseTextsWeigh(tokenizer: Tokenizer, parts: seq<ResponsePart>)
    ensures Total(tokenizer, ResponseTexts(parts)) == ResponseWeights(tokenizer, parts)
  {
    if parts != [] {
      TotalConcat(tokenizer, ResponseText(parts[0]), ResponseTexts(parts[1..]));
      ResponseTextWeighs(tokenizer, parts[0]);
      ResponseTextsWeigh(tokenizer, parts[1..]);
      hide ResponseText, ResponseWeight;
    }
  }

  lemma ResponseTextWeighs(tokenizer: Tokenizer, part: ResponsePart)
    ensures Total(tokenizer, ResponseText(part)) == ResponseWeight(tokenizer, part)
  {
    var texts := ResponseText(part);
    if |texts| == 1 {
      OneText(tokenizer, texts[0]);
      assert texts == [texts[0]];
    } else if |texts| == 2 {
      OneText(tokenizer, texts[1]);
      assert texts[1..] == [texts[1]];
    }
  }

  lemma OneText(tokenizer: Tokenizer, text: string)
    ensures Total(tokenizer, [text]) == Size(tokenizer, text)
  {
    assert [text][1..] == [];
  }

  lemma {:induction false} TextFromWeighs(tokenizer: Tokenizer, m: seq<Message>, baseline: int, i: nat)
    requires i <= |m|
    ensures Total(tokenizer, TextFrom(m, baseline, i)) == Weights(tokenizer, m, baseline, i)
    decreases |m| - i
  {
    hide RequestTexts, ResponseTexts, RequestWeights, ResponseWeights;
    if i < |m| {
      TotalConcat(tokenizer, MessageText(m[i], i < baseline), TextFrom(m, baseline, i + 1));
      if m[i].Request? {
        RequestTextsWeigh(tokenizer, m[i].parts, i < baseline);
      } else {
        ResponseTextsWeigh(tokenizer, m[i].replies);
      }
      TextFromWeighs(tokenizer, m, baseline, i + 1);
    }
  }

  /** `i` is the newest message with instructions, or there is none and `i` is the number of messages. */
  ghost predicate NewestInstructions(m: seq<Message>, i: nat) {
    if i < |m| then Instructs(m[i]) && forall j :: i < j < |m| ==> !Instructs(m[j])
    else i == |m| && forall j :: 0 <= j < |m| ==> !Instructs(m[j])
  }

  lemma {:induction false} InstructionsAreNewest(m: seq<Message>, i: nat)
    requires NewestInstructions(m, i)
    ensures InstructionsText(m) == if i < |m| then [m[i].instructions.value] else []
  {
    if m != [] && i != |m| - 1 {
      var n := |m| - 1;
      assert !Instructs(m[n]);
      InstructionsAreNewest(m[..n], if i < n then i else n);
    }
  }

  /** The estimate is the sum of what the parts count for, and the newest instructions once; without a tokenizer a
      quarter of that number of characters. `b` is the newest request that replaced the instruction baseline, or 0. */
  lemma EveryPartCounts(tokenizer: Tokenizer, m: seq<Message>, i: nat, b: nat)
    requires NewestInstructions(m, i)
    requires b == 0 || (b < |m| && m[b].Request? && m[b].baseline)
    requires forall j :: b < j < |m| ==> !(m[j].Request? && m[j].baseline)
    ensures var total := Weights(tokenizer, m, b, 0)
                         + (if i < |m| then Size(tokenizer, m[i].instructions.value) else 0);
            Estimate(tokenizer, m) == if tokenizer.Some? then total else total / 4
  {
    assert BaselineIndex(m) == b;
    TotalConcat(tokenizer, TextFrom(m, b, 0), InstructionsText(m));
    TextFromWeighs(tokenizer, m, b, 0);
    InstructionsAreNewest(m, i);
    if i < |m| {
      OneText(tokenizer, m[i].instructions.value);
    }
    hide TextFrom, Weights, BaselineIndex, NewestInstructions, InstructionsText;
  }

  // ---- dropping the oldest message never raises the estimate --------------------------------------------------------

  lemma {:induction false} TotalConcat(tokenizer: Tokenizer, a: seq<string>, b: seq<string>)
    ensures Total(tokenizer, a + b) == Total(tokenizer, a) + Total(tokenizer, b)
  {
    if a == [] {
      assert a + b == b;
    } else {
      assert (a + b)[1..] == a[1..] + b;
      TotalConcat(tokenizer, a[1..], b);
    }
  }

  lemma {:induction false} InstructionsOfTail(m: seq<Message>)
    requires m != []
    ensures InstructionsText(m) == InstructionsText(m[1..]) || InstructionsText(m[1..]) == []
    decreases |m|
  {
    if |m| > 1 {
      assert m[1..][..|m| - 2] == m[..|m| - 1][1..];
      InstructionsOfTail(m[..|m| - 1]);
    }
  }

  lemma {:induction false} BaselineOfTail(m: seq<Message>)
    requires m != []
    ensures BaselineIndex(m) > 0 ==> BaselineIndex(m[1..]) == BaselineIndex(m) - 1
    ensures BaselineIndex(m) == 0 ==> BaselineIndex(m[1..]) == 0
    decreases |m|
  {
    if |m| > 1 {
      assert m[1..][..|m| - 2] == m[..|m| - 1][1..];
      BaselineOfTail(m[..|m| - 1]);
    }
  }

  lemma {:induction false} TextOfTail(m: seq<Message>, baseline: int, baseline': int, i: nat)
    requires 1 <= i <= |m| && (baseline == baseline' + 1 || (baseline <= 0 && baseline' <= 0))
    ensures TextFrom(m, baseline, i) == TextFrom(m[1..], baseline', i - 1)
    decreases |m| - i
  {
    hide MessageText;
    if i < |m| {
      assert m[1..][i - 1] == m[i];
      TextOfTail(m, baseline, baseline', i + 1);
    }
  }

  lemma TailEstimate(tokenizer: Tokenizer, m: seq<Message>)
    requires m != []
    ensures Estimate(tokenizer, m[1..]) <= Estimate(tokenizer, m)
  {
    var b := BaselineIndex(m);
    var head, body := MessageText(m[0], 0 < b), TextFrom(m, b, 1);
    assert TextFrom(m, b, 0) == head + body;
    BaselineOfTail(m);
    TextOfTail(m, b, BaselineIndex(m[1..]), 1);
    InstructionsOfTail(m);
    hide MessageText, TextFrom, BaselineIndex, InstructionsText;
    TotalConcat(tokenizer, head, body);
    TotalConcat(tokenizer, head + body, InstructionsText(m));
    TotalConcat(tokenizer, body, InstructionsText(m[1..]));
  }

  /** The estimate is non-increasing over suffixes, although instructions are counted once, from the newest message
      that has them, and deltas only from the newest baseline on. */
  lemma {:induction false} SuffixEstimate(tokenizer: Tokenizer, m: seq<Message>, i: nat, j: nat)
    requires i <= j <= |m|
    ensures Estimate(tokenizer, m[j..]) <= Estimate(tokenizer, m[i..])
    decreases j - i
  {
    if i < j {
      TailEstimate(tokenizer, m[i..]);
      assert m[i..][1..] == m[i + 1..];
      SuffixEstimate(tokenizer, m, i + 1, j);
    }
  }

  // ---- the search -------------------------------------------------------------------------------------------------

  predicate Fits(tokenizer: Tokenizer, m: seq<Message>, target: int, i: nat) {
    i <= |m| && Estimate(tokenizer, m[i..]) <= target
  }

  /** The least index whose suffix fits, or the number of messages. */
  function FirstFit(tokenizer: Tokenizer, m: seq<Message>, target: int, i: nat): (fit: nat)
    requires i <= |m|
    ensures i <= fit <= |m| && (fit == |m| || Fits(tokenizer, m, target, fit))
    ensures forall j :: i <= j < fit ==> !Fits(tokenizer, m, target, j)
    decreases |m| - i
  {
    if i == |m| || Fits(tokenizer, m, target, i) then i else FirstFit(tokenizer, m, target, i + 1)
  }

  /** The greatest safe cut at or below the least index whose suffix fits, which is clamped to the last message. */
  ghost function TokenCut(tokenizer: Tokenizer, m: seq<Message>, target: int): (cutoff: nat)
    ensures cutoff <= |m| && WindowSafe(m, cutoff)
  {
    if m == [] then 0
    else
      var fit := FirstFit(tokenizer, m, target, 0);
      LastSafe(m, if fit < |m| then fit else |m| - 1)
  }

  /** `find_token_cutoff`, by binary search. */
  method FindTokenCutoff(m: seq<Message>, target: int, tokenizer: Tokenizer) returns (cutoff: nat)
    ensures cutoff == TokenCut(tokenizer, m, target)
  {
    hide Estimate;
    if m == [] || Estimate(tokenizer, m) <= target {
      assert m[0..] == m;
      SafeAtZero(m);
      return 0;
    }
    var lo, hi, candidate := 0, |m|, |m|;
    while lo < hi
      invariant lo <= hi <= |m| && candidate == hi
      invariant forall j :: 0 <= j < lo ==> !Fits(tokenizer, m, target, j)
      invariant hi == |m| || Fits(tokenizer, m, target, hi)
    {
      var mid := (lo + hi) / 2;
      if Estimate(tokenizer, m[mid..]) <= target {
        candidate := mid;
        hi := mid;
      } else {
        forall j | lo <= j <= mid ensures !Fits(tokenizer, m, target, j) {
          SuffixEstimate(tokenizer, m, j, mid);
        }
        lo := mid + 1;
      }
    }
    assert candidate == FirstFit(tokenizer, m, target, 0);
    if candidate >= |m| {
      candidate := |m| - 1;
    }
    cutoff := WalkBack(m, candidate);
  }
}
