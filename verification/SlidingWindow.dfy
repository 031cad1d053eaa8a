/** Dropping the oldest messages, and what any mix of cutting and blanking keeps of the pairing of tool calls with
    their returns. */
module SlidingWindow {
  import opened Options
  import opened Messages
  import opened SafeCutoff
  import opened TokenCutoff
  import opened Clearing
  import opened Pinning

  /** `receipt` is the text of the receipt a compaction leaves, when it leaves one, and `reserved` what it may cost. */
  datatype Config = Config(
    keepTokens: Option<nat>,
    keepMessages: nat,
    preserveFirst: bool,
    receipt: Option<string>,
    reserved: nat,
    tokenizer: Tokenizer)

  predicate IsUserTurn(part: RequestPart) {
    part.UserPrompt? && !part.pinned && !part.receipt
  }

  predicate HasUserTurn(msg: Message) {
    msg.Request? && exists k :: 0 <= k < |msg.parts| && IsUserTurn(msg.parts[k])
  }

  predicate ReceiptOnly(msg: Message) {
    msg.Request? && msg.parts != [] &&
    forall k :: 0 <= k < |msg.parts| ==> msg.parts[k].UserPrompt? && msg.parts[k].receipt
  }

  /** The position of the first message with a user turn, or the number of messages. */
  function FirstUser(m: seq<Message>): (i: nat)
    ensures i <= |m| && (i < |m| ==> HasUserTurn(m[i]))
    ensures forall j :: 0 <= j < i ==> !HasUserTurn(m[j])
  {
    if m == [] || HasUserTurn(m[0]) then 0 else 1 + FirstUser(m[1..])
  }

  /** `prepend_first_user_message`. */
  function PrependFirst(m: seq<Message>, cutoff: nat, trimmed: seq<Message>): seq<Message> {
    var i := FirstUser(m);
    if i < |m| && i < cutoff && m[i] !in trimmed then [m[i]] + trimmed else trimmed
  }

  function WithoutReceipts(m: seq<Message>): seq<Message> {
    if m == [] then [] else (if ReceiptOnly(m[0]) then [] else [m[0]]) + WithoutReceipts(m[1..])
  }

  function ReceiptMessage(text: string): Message {
    Request([UserPrompt(text, false, true)], None, false)
  }

  function Less(n: nat, k: nat): nat {
    if n > k then n - k else 0
  }

  ghost function CutOf(c: Config, m: seq<Message>): (cutoff: nat)
    ensures cutoff <= |m| && WindowSafe(m, cutoff)
  {
    if c.keepTokens.Some? then
      TokenCut(c.tokenizer, m, Less(c.keepTokens.value, if c.receipt.Some? then c.reserved else 0))
    else SafeCut(m, Less(c.keepMessages, if c.receipt.Some? then 1 else 0))
  }

  ghost function Slide(c: Config, m: seq<Message>): seq<Message> {
    var cutoff := CutOf(c, m);
    if cutoff == 0 then m
    else
      var trimmed := if c.preserveFirst then PrependFirst(m, cutoff, m[cutoff..]) else m[cutoff..];
      var pinned := Reinject(m, trimmed);
      if c.receipt.Some? then [ReceiptMessage(c.receipt.value)] + WithoutReceipts(pinned) else pinned
  }

  // ---- the steps of a cut, said of the parts ----------------------------------------------------------------------

  /** A request in which the user says something: a prompt that is neither a pin nor a receipt. */
  ghost predicate UserSpeaks(msg: Message) {
    msg.Request? && exists k :: 0 <= k < |msg.parts| && msg.parts[k].UserPrompt?
                                && !msg.parts[k].pinned && !msg.parts[k].receipt
  }

  /** What is put in front is the first message of the history in which the user speaks, when it was cut off and does
      not stand among the kept ones. */
  lemma PrependExactly(m: seq<Message>, cutoff: nat, trimmed: seq<Message>, i: nat)
    requires i <= |m| && (i < |m| ==> UserSpeaks(m[i])) && forall j :: 0 <= j < i ==> !UserSpeaks(m[j])
    ensures PrependFirst(m, cutoff, trimmed) ==
            if i < |m| && i < cutoff && m[i] !in trimmed then [m[i]] + trimmed else trimmed
  {
    forall msg ensures UserSpeaks(msg) <==> HasUserTurn(msg) {
      if HasUserTurn(msg) {
        var k :| 0 <= k < |msg.parts| && IsUserTurn(msg.parts[k]);
      }
      if UserSpeaks(msg) {
        var k :| 0 <= k < |msg.parts| && msg.parts[k].UserPrompt? && !msg.parts[k].pinned && !msg.parts[k].receipt;
        assert IsUserTurn(msg.parts[k]);
      }
    }
    hide HasUserTurn, UserSpeaks;
    assert FirstUser(m) == i;
  }

  /** A request of receipts and nothing else. */
  ghost predicate OnlyReceipts(msg: Message) {
    msg.Request? && msg.parts != [] &&
    forall part :: part in msg.parts ==> part.UserPrompt? && part.receipt
  }

  /** How many of the first `i` messages are not receipts. */
  ghost function OthersBefore(m: seq<Message>, i: nat): nat
    requires i <= |m|
  {
    if i == 0 then 0 else OthersBefore(m, i - 1) + if OnlyReceipts(m[i - 1]) then 0 else 1
  }

  lemma {:induction false} OthersOfTail(m: seq<Message>, i: nat)
    requires i < |m|
    ensures OthersBefore(m, i + 1) == (if OnlyReceipts(m[0]) then 0 else 1) + OthersBefore(m[1..], i)
  {
    hide OnlyReceipts;
    if i > 0 {
      OthersOfTail(m, i - 1);
      assert m[1..][i - 1] == m[i];
    }
  }

  lemma ReceiptOnlyExactly(msg: Message)
    ensures ReceiptOnly(msg) <==> OnlyReceipts(msg)
  {
    if OnlyReceipts(msg) {
      assert forall k :: 0 <= k < |msg.parts| ==> msg.parts[k] in msg.parts;
    }
  }

  /** Earlier receipts go, and every other message stays, in order. */
  lemma {:induction false} WithoutReceiptsExactly(m: seq<Message>)
    ensures |WithoutReceipts(m)| == OthersBefore(m, |m|)
    ensures forall i :: 0 <= i < |m| && !OnlyReceipts(m[i]) ==>
              OthersBefore(m, i) < |WithoutReceipts(m)| && WithoutReceipts(m)[OthersBefore(m, i)] == m[i]
  {
    if m != [] {
      WithoutReceiptsExactly(m[1..]);
      ReceiptOnlyExactly(m[0]);
      hide OnlyReceipts, ReceiptOnly;
      OthersOfTail(m, |m| - 1);
      forall i | 0 <= i < |m| && !OnlyReceipts(m[i])
        ensures OthersBefore(m, i) < |WithoutReceipts(m)| && WithoutReceipts(m)[OthersBefore(m, i)] == m[i]
      {
        if i > 0 {
          assert m[1..][i - 1] == m[i];
          OthersOfTail(m, i - 1);
        }
      }
    }
  }

  /** Cutting by number of messages keeps at least as many as asked for, the receipt included, and no cut splits a pair
      that the window sees. */
  lemma CutKeepsEnough(c: Config, m: seq<Message>)
    requires c.keepTokens.None?
    ensures var kept := |m| - CutOf(c, m);
            && kept + (if c.receipt.Some? then 1 else 0) >= (if c.keepMessages <= |m| then c.keepMessages else |m|)
            && (Direct(m) ==> kept <= c.keepMessages + 1)
            && (Direct(m) && c.receipt.Some? && c.keepMessages > 0 ==> kept <= c.keepMessages)
  {
    var keep := Less(c.keepMessages, if c.receipt.Some? then 1 else 0);
    if Direct(m) && 0 < keep < |m| {
      KeepsAtMostOneMore(m, keep);
    }
    hide Direct, WindowSafe;
  }

  /** `SlidingWindowCompaction.compact`. */
  method Compact(c: Config, m: seq<Message>) returns (result: seq<Message>)
    ensures result == Slide(c, m)
  {
    hide Reinject, WithoutReceipts, PrependFirst;
    var cutoff;
    if c.keepTokens.Some? {
      cutoff := FindTokenCutoff(m, Less(c.keepTokens.value, if c.receipt.Some? then c.reserved else 0), c.tokenizer);
    } else {
      cutoff := FindSafeCutoff(m, Less(c.keepMessages, if c.receipt.Some? then 1 else 0));
    }
    if cutoff == 0 {
      return m;
    }
    var trimmed := m[cutoff..];
    if c.preserveFirst {
      trimmed := PrependFirst(m, cutoff, trimmed);
    }
    result := ReinjectPinned(m, trimmed);
    if c.receipt.Some? {
      result := [ReceiptMessage(c.receipt.value)] + WithoutReceipts(result);
    }
  }

  /** What the kept messages may count for: what a receipt may cost is set aside first. */
  function Room(c: Config): nat
    requires c.keepTokens.Some?
  {
    if c.receipt.None? then c.keepTokens.value
    else if c.reserved <= c.keepTokens.value then c.keepTokens.value - c.reserved
    else 0
  }

  /** Cutting by tokens: `fit` is the first message from which the rest has room, or the last message. The cut is the
      last one up to there that the window finds safe. */
  ghost predicate CutsAtRoom(c: Config, m: seq<Message>, cutoff: nat, fit: nat)
    requires c.keepTokens.Some?
  {
    && cutoff <= fit < |m|
    && (fit == |m| - 1 || Estimate(c.tokenizer, m[fit..]) <= Room(c))
    && (forall i :: 0 <= i < fit ==> Estimate(c.tokenizer, m[i..]) > Room(c))
    && WindowSafe(m, cutoff) && forall j :: cutoff < j <= fit ==> !WindowSafe(m, j)
  }

  lemma CutLeavesRoom(c: Config, m: seq<Message>)
    requires c.keepTokens.Some? && m != []
    ensures exists fit: nat :: CutsAtRoom(c, m, CutOf(c, m), fit)
  {
    hide Estimate, WindowSafe;
    var room := Room(c);
    assert CutOf(c, m) == TokenCut(c.tokenizer, m, room);
    hide CutOf;
    var fit := FirstFit(c.tokenizer, m, room, 0);
    var last: nat := if fit < |m| then fit else |m| - 1;
    assert forall i :: 0 <= i < last ==> !Fits(c.tokenizer, m, room, i);
    assert CutOf(c, m) == LastSafe(m, last);
    hide TokenCut, LastSafe, FirstFit;
    forall i | 0 <= i < last ensures Estimate(c.tokenizer, m[i..]) > room {
      assert !Fits(c.tokenizer, m, room, i);
    }
    assert last == |m| - 1 || Fits(c.tokenizer, m, room, last);
    assert CutsAtRoom(c, m, CutOf(c, m), last);
  }

  lemma {:induction false} WithoutReceiptsMembers(m: seq<Message>)
    ensures forall msg :: msg in WithoutReceipts(m) <==> msg in m && !OnlyReceipts(msg)
  {
    if m != [] {
      WithoutReceiptsMembers(m[1..]);
      ReceiptOnlyExactly(m[0]);
      assert m == [m[0]] + m[1..];
    }
    hide OnlyReceipts, ReceiptOnly;
  }

  lemma {:induction false} ReinjectKeepsMembers(original: seq<Message>, compacted: seq<Message>)
    ensures forall msg :: msg in compacted ==> msg in Reinject(original, compacted)
  {
    var i := LeadingContext(compacted);
    assert compacted == compacted[..i] + compacted[i..];
    hide Missing, Pins;
  }

  lemma KeptIsTrimmed(c: Config, m: seq<Message>, cutoff: nat, i: nat)
    requires i < |m| && cutoff <= |m|
    requires i >= cutoff || (c.preserveFirst && UserSpeaks(m[i]) && forall j :: 0 <= j < i ==> !UserSpeaks(m[j]))
    ensures m[i] in if c.preserveFirst then PrependFirst(m, cutoff, m[cutoff..]) else m[cutoff..]
  {
    hide UserSpeaks;
    if i >= cutoff {
      assert m[cutoff..][i - cutoff] == m[i];
    } else {
      PrependExactly(m, cutoff, m[cutoff..], i);
    }
  }

  /** What a cut keeps: every message from the cut on, and the first in which the user speaks when that is asked for;
      only earlier receipts go, and then a new receipt stands first. */
  lemma SlideKeepsTheRest(c: Config, m: seq<Message>, i: nat)
    requires i < |m| && !OnlyReceipts(m[i])
    requires i >= CutOf(c, m) || (c.preserveFirst && UserSpeaks(m[i]) && forall j :: 0 <= j < i ==> !UserSpeaks(m[j]))
    ensures m[i] in Slide(c, m)
    ensures CutOf(c, m) > 0 && c.receipt.Some? ==>
              Slide(c, m) != [] && Slide(c, m)[0] == Request([UserPrompt(c.receipt.value, false, true)], None, false)
    ensures CutOf(c, m) == 0 ==> Slide(c, m) == m
  {
    hide Reinject, WithoutReceipts, PrependFirst, OnlyReceipts, UserSpeaks, CutOf, WindowSafe;
    var cutoff := CutOf(c, m);
    if cutoff > 0 {
      KeptIsTrimmed(c, m, cutoff, i);
      var trimmed := if c.preserveFirst then PrependFirst(m, cutoff, m[cutoff..]) else m[cutoff..];
      ReinjectKeepsMembers(m, trimmed);
      WithoutReceiptsMembers(Reinject(m, trimmed));
    }
  }

  // ---- pairing ---------------------------------------------------------------------------------------------------

  ghost predicate HasCall(m: seq<Message>, id: string) {
    exists i :: CallAt(m, i, id)
  }

  ghost predicate HasReturn(m: seq<Message>, id: string) {
    exists j :: ReturnAt(m, j, id)
  }

  /** Every return has its call earlier. */
  ghost predicate Answers(m: seq<Message>) {
    forall j, id :: ReturnAt(m, j, id) ==> exists i :: i < j && CallAt(m, i, id)
  }

  /** Each id is called by one message and returned by one. */
  ghost predicate Once(m: seq<Message>) {
    && (forall i, j, id :: CallAt(m, i, id) && CallAt(m, j, id) ==> i == j)
    && (forall i, j, id :: ReturnAt(m, i, id) && ReturnAt(m, j, id) ==> i == j)
  }

  ghost predicate Near(m: seq<Message>) {
    forall i, j, id :: CallAt(m, i, id) && ReturnAt(m, j, id) ==> j - i <= TOOL_PAIR_SEARCH_RANGE
  }

  ghost predicate Paired(m: seq<Message>) {
    Answers(m) && Once(m) && Near(m)
  }

  /** `m'` invents nothing, and keeps the return of every call it keeps. */
  ghost predicate Keeps(m: seq<Message>, m': seq<Message>) {
    && (forall id :: HasCall(m', id) ==> HasCall(m, id))
    && (forall id :: HasReturn(m', id) ==> HasReturn(m, id))
    && (forall id :: HasCall(m', id) && HasReturn(m, id) ==> HasReturn(m', id))
  }

  lemma KeepsTransitive(a: seq<Message>, b: seq<Message>, c: seq<Message>)
    requires Keeps(a, b) && Keeps(b, c)
    ensures Keeps(a, c)
  {
    hide HasCall, HasReturn;
  }

  // ---- cutting ----------------------------------------------------------------------------------------------------

  lemma SuffixAt(m: seq<Message>, c: nat, i: int, id: string)
    requires c <= |m|
    ensures CallAt(m[c..], i, id) <==> i >= 0 && CallAt(m, i + c, id)
    ensures ReturnAt(m[c..], i, id) <==> i >= 0 && ReturnAt(m, i + c, id)
  {
  }

  lemma CutIsClean(m: seq<Message>, c: nat, i: int, j: int, id: string)
    requires Paired(m) && c <= |m| && WindowSafe(m, c)
    requires CallAt(m, i, id) && ReturnAt(m, j, id)
    ensures i < j && (i < c <==> j < c)
  {
    hide CallAt, ReturnAt, WindowSafe;
    assert exists h :: h < j && CallAt(m, h, id);
    assert i < j;
    forall h, k | PairAt(m, h, k) ensures k - h <= TOOL_PAIR_SEARCH_RANGE {
    }
    NearPairsAreSeen(m, c);
    assert PairAt(m, i, j);
  }

  lemma SuffixPaired(m: seq<Message>, c: nat)
    requires Paired(m) && c <= |m| && WindowSafe(m, c)
    ensures Paired(m[c..])
  {
    var t := m[c..];
    forall i, id
      ensures CallAt(t, i, id) <==> i >= 0 && CallAt(m, i + c, id)
      ensures ReturnAt(t, i, id) <==> i >= 0 && ReturnAt(m, i + c, id)
    {
      SuffixAt(m, c, i, id);
    }
    hide CallAt, ReturnAt, WindowSafe;
    forall j, id | ReturnAt(t, j, id) ensures exists i :: i < j && CallAt(t, i, id) {
      assert ReturnAt(m, j + c, id);
      var i :| i < j + c && CallAt(m, i, id);
      CutIsClean(m, c, i, j + c, id);
      assert CallAt(t, i - c, id);
    }
    assert Once(t) by {
      forall i, j, id | CallAt(t, i, id) && CallAt(t, j, id) ensures i == j {
        assert CallAt(m, i + c, id) && CallAt(m, j + c, id);
      }
      forall i, j, id | ReturnAt(t, i, id) && ReturnAt(t, j, id) ensures i == j {
        assert ReturnAt(m, i + c, id) && ReturnAt(m, j + c, id);
      }
    }
    assert Near(t) by {
      forall i, j, id | CallAt(t, i, id) && ReturnAt(t, j, id) ensures j - i <= TOOL_PAIR_SEARCH_RANGE {
        assert CallAt(m, i + c, id) && ReturnAt(m, j + c, id);
      }
    }
  }

  lemma SuffixKeeps(m: seq<Message>, c: nat)
    requires Paired(m) && c <= |m| && WindowSafe(m, c)
    ensures Keeps(m, m[c..])
  {
    var t := m[c..];
    forall id | HasCall(t, id) ensures HasCall(m, id) && (HasReturn(m, id) ==> HasReturn(t, id)) {
      var i :| CallAt(t, i, id);
      SuffixAt(m, c, i, id);
      assert CallAt(m, i + c, id);
      if HasReturn(m, id) {
        var j :| ReturnAt(m, j, id);
        CutIsClean(m, c, i + c, j, id);
        SuffixAt(m, c, j - c, id);
        assert ReturnAt(t, j - c, id);
      }
    }
    forall id | HasReturn(t, id) ensures HasReturn(m, id) {
      var j :| ReturnAt(t, j, id);
      SuffixAt(m, c, j, id);
      assert ReturnAt(m, j + c, id);
    }
  }

  // ---- messages without tool parts --------------------------------------------------------------------------------

  predicate Plain(msg: Message) {
    msg.Request? && forall k :: 0 <= k < |msg.parts| ==> !msg.parts[k].ToolReturn?
  }

  /** The position in `a + [x] + b` of position `i` of `a + b`. */
  function Shift(n: nat, i: int): int {
    if i < n then i else i + 1
  }

  lemma AroundPlain(a: seq<Message>, x: Message, b: seq<Message>, i: int, id: string)
    requires Plain(x)
    ensures CallAt(a + b, i, id) <==> CallAt(a + [x] + b, Shift(|a|, i), id)
    ensures ReturnAt(a + b, i, id) <==> ReturnAt(a + [x] + b, Shift(|a|, i), id)
    ensures !CallAt(a + [x] + b, |a|, id) && !ReturnAt(a + [x] + b, |a|, id)
  {
  }

  /** The same tool ids are called and returned. */
  ghost predicate SameIds(m: seq<Message>, m': seq<Message>) {
    forall id :: (HasCall(m, id) <==> HasCall(m', id)) && (HasReturn(m, id) <==> HasReturn(m', id))
  }

  lemma PlainKeepsIds(a: seq<Message>, x: Message, b: seq<Message>)
    requires Plain(x)
    ensures SameIds(a + b, a + [x] + b)
  {
    var m, m' := a + b, a + [x] + b;
    forall id ensures (HasCall(m, id) <==> HasCall(m', id)) && (HasReturn(m, id) <==> HasReturn(m', id)) {
      PlainKeepsId(a, x, b, id);
    }
  }

  lemma PlainKeepsId(a: seq<Message>, x: Message, b: seq<Message>, id: string)
    requires Plain(x)
    ensures HasCall(a + b, id) <==> HasCall(a + [x] + b, id)
    ensures HasReturn(a + b, id) <==> HasReturn(a + [x] + b, id)
  {
    var m, m', n := a + b, a + [x] + b, |a|;
    forall i
      ensures CallAt(m, i, id) <==> CallAt(m', Shift(n, i), id)
      ensures ReturnAt(m, i, id) <==> ReturnAt(m', Shift(n, i), id)
      ensures !CallAt(m', n, id) && !ReturnAt(m', n, id)
    {
      AroundPlain(a, x, b, i, id);
    }
    hide CallAt, ReturnAt;
    if HasCall(m', id) {
      var i :| CallAt(m', i, id);
      assert CallAt(m, if i < n then i else i - 1, id);
    }
    if HasReturn(m', id) {
      var i :| ReturnAt(m', i, id);
      assert ReturnAt(m, if i < n then i else i - 1, id);
    }
  }

  /** Leaving out a plain message only brings calls and returns closer together. */
  lemma RemovePlain(a: seq<Message>, x: Message, b: seq<Message>)
    requires Plain(x) && Paired(a + [x] + b)
    ensures Paired(a + b)
  {
    var m, m', n := a + b, a + [x] + b, |a|;
    forall i, id
      ensures CallAt(m, i, id) <==> CallAt(m', Shift(n, i), id)
      ensures ReturnAt(m, i, id) <==> ReturnAt(m', Shift(n, i), id)
      ensures !CallAt(m', n, id) && !ReturnAt(m', n, id)
    {
      AroundPlain(a, x, b, i, id);
    }
    hide CallAt, ReturnAt;
    forall j, id | ReturnAt(m, j, id) ensures exists i :: i < j && CallAt(m, i, id) {
      assert ReturnAt(m', Shift(n, j), id);
      var i :| i < Shift(n, j) && CallAt(m', i, id);
      assert i != n;
      assert CallAt(m, if i < n then i else i - 1, id);
    }
    forall i, j, id | CallAt(m, i, id) && CallAt(m, j, id) ensures i == j {
      assert CallAt(m', Shift(n, i), id) && CallAt(m', Shift(n, j), id);
    }
    forall i, j, id | ReturnAt(m, i, id) && ReturnAt(m, j, id) ensures i == j {
      assert ReturnAt(m', Shift(n, i), id) && ReturnAt(m', Shift(n, j), id);
    }
    forall i, j, id | CallAt(m, i, id) && ReturnAt(m, j, id) ensures j - i <= TOOL_PAIR_SEARCH_RANGE {
      assert CallAt(m', Shift(n, i), id) && ReturnAt(m', Shift(n, j), id);
    }
  }

  /** Putting a plain message behind a run of plain messages moves all calls and returns alike. */
  lemma InsertPlain(a: seq<Message>, x: Message, b: seq<Message>)
    requires Plain(x) && Paired(a + b) && forall i :: 0 <= i < |a| ==> Plain(a[i])
    ensures Paired(a + [x] + b)
  {
    var m, m', n := a + b, a + [x] + b, |a|;
    forall i, id | CallAt(m', i, id) || ReturnAt(m', i, id)
      ensures i > n
      ensures CallAt(m', i, id) <==> CallAt(m, i - 1, id)
      ensures ReturnAt(m', i, id) <==> ReturnAt(m, i - 1, id)
    {
      AroundPlain(a, x, b, i - 1, id);
    }
    forall i, id | 0 <= i < n ensures !CallAt(m, i, id) {
      assert m[i] == a[i];
    }
    forall i, id | CallAt(m, i, id) ensures CallAt(m', i + 1, id) {
      AroundPlain(a, x, b, i, id);
    }
    hide CallAt, ReturnAt, Plain;
    forall j, id | ReturnAt(m', j, id) ensures exists i :: i < j && CallAt(m', i, id) {
      assert ReturnAt(m, j - 1, id);
      var i :| i < j - 1 && CallAt(m, i, id);
      assert CallAt(m', i + 1, id);
    }
  }

  lemma {:induction false} RemoveReceipts(a: seq<Message>, b: seq<Message>)
    requires Paired(a + b)
    ensures Paired(a + WithoutReceipts(b)) && SameIds(a + b, a + WithoutReceipts(b))
    decreases |b|
  {
    hide Paired, HasCall, HasReturn, SameIds, ReceiptOnly;
    if b == [] {
      SameIdsItself(a + b);
    } else {
      var rest := b[1..];
      assert a + b == a + [b[0]] + rest;
      assert WithoutReceipts(b) == (if ReceiptOnly(b[0]) then [] else [b[0]]) + WithoutReceipts(rest);
      hide WithoutReceipts;
      if ReceiptOnly(b[0]) {
        ReceiptIsPlain(b[0]);
        RemovePlain(a, b[0], rest);
        PlainKeepsIds(a, b[0], rest);
        RemoveReceipts(a, rest);
        assert WithoutReceipts(b) == WithoutReceipts(rest);
        SameIdsTransitive(a + b, a + rest, a + WithoutReceipts(rest));
      } else {
        RemoveReceipts(a + [b[0]], rest);
        assert a + [b[0]] + WithoutReceipts(rest) == a + WithoutReceipts(b);
      }
    }
  }

  lemma SameIdsItself(m: seq<Message>)
    ensures SameIds(m, m)
  {
  }

  /** The middle history may be compared from either side. */
  lemma SameIdsTransitive(a: seq<Message>, b: seq<Message>, c: seq<Message>)
    requires SameIds(b, a) && SameIds(b, c)
    ensures SameIds(a, c)
  {
    hide HasCall, HasReturn;
  }

  lemma ReceiptIsPlain(msg: Message)
    requires ReceiptOnly(msg)
    ensures Plain(msg)
  {
  }

  // ---- one operation ----------------------------------------------------------------------------------------------

  /** A message put in front answers for itself: it must hold no return. */
  lemma FrontKeepsAnswers(x: Message, m: seq<Message>)
    requires x.Request? && Answers(m)
    ensures Answers([x] + m) <==> Plain(x)
  {
    var m' := [x] + m;
    if Plain(x) {
      assert [] + m == m && [] + [x] + m == m';
      PlainKeepsAnswers([], x, m);
    } else {
      var k :| 0 <= k < |x.parts| && x.parts[k].ToolReturn?;
      assert m'[0].parts[k].ToolReturn?;
      assert ReturnAt(m', 0, x.parts[k].id);
    }
  }

  /** A plain message in between or at either end answers nothing and is not needed for an answer. */
  lemma PlainKeepsAnswers(a: seq<Message>, x: Message, b: seq<Message>)
    requires Plain(x)
    ensures Answers(a + [x] + b) <==> Answers(a + b)
  {
    var m, m', n := a + b, a + [x] + b, |a|;
    forall i, id
      ensures CallAt(m, i, id) <==> CallAt(m', Shift(n, i), id)
      ensures ReturnAt(m, i, id) <==> ReturnAt(m', Shift(n, i), id)
      ensures !CallAt(m', n, id) && !ReturnAt(m', n, id)
    {
      AroundPlain(a, x, b, i, id);
    }
    hide CallAt, ReturnAt;
    if Answers(m') {
      forall j, id | ReturnAt(m, j, id) ensures exists i :: i < j && CallAt(m, i, id) {
        assert ReturnAt(m', Shift(n, j), id);
        var i :| i < Shift(n, j) && CallAt(m', i, id);
        assert CallAt(m, if i < n then i else i - 1, id);
      }
    }
    if Answers(m) {
      forall j, id | ReturnAt(m', j, id) ensures exists i :: i < j && CallAt(m', i, id) {
        var k := if j < n then j else j - 1;
        assert ReturnAt(m, k, id);
        var i :| i < k && CallAt(m, i, id);
        assert CallAt(m', Shift(n, i), id);
      }
    }
  }

  lemma {:induction false} ReceiptsKeepAnswers(a: seq<Message>, b: seq<Message>)
    ensures Answers(a + WithoutReceipts(b)) <==> Answers(a + b)
    decreases |b|
  {
    hide Answers, ReceiptOnly, Plain;
    if b != [] {
      var first, rest := b[0], b[1..];
      var bare := WithoutReceipts(rest);
      assert a + b == a + [first] + rest;
      if ReceiptOnly(first) {
        ReceiptIsPlain(first);
        PlainKeepsAnswers(a, first, rest);
        ReceiptsKeepAnswers(a, rest);
        assert WithoutReceipts(b) == bare;
      } else {
        ReceiptsKeepAnswers(a + [first], rest);
        assert WithoutReceipts(b) == [first] + bare;
        assert a + [first] + bare == a + ([first] + bare);
      }
    }
  }

  /** Prepending the first user message keeps the pairing exactly when nothing is prepended or the message holds no
      tool return. */
  lemma PrependKeepsAnswersExactlyWhen(m: seq<Message>, cutoff: nat, trimmed: seq<Message>)
    requires Answers(trimmed)
    ensures Answers(PrependFirst(m, cutoff, trimmed)) <==>
            PrependFirst(m, cutoff, trimmed) == trimmed || Plain(m[FirstUser(m)])
  {
    hide Answers, Plain;
    var i := FirstUser(m);
    if i < |m| && i < cutoff && m[i] !in trimmed {
      assert |[m[i]] + trimmed| == |trimmed| + 1;
      FrontKeepsAnswers(m[i], trimmed);
    }
  }

  lemma PrependKeepsPairing(m: seq<Message>, cutoff: nat, trimmed: seq<Message>)
    requires Paired(trimmed) && (PrependFirst(m, cutoff, trimmed) == trimmed || Plain(m[FirstUser(m)]))
    ensures Paired(PrependFirst(m, cutoff, trimmed)) && SameIds(trimmed, PrependFirst(m, cutoff, trimmed))
  {
    hide Paired, SameIds, Plain;
    if PrependFirst(m, cutoff, trimmed) == trimmed {
      SameIdsItself(trimmed);
    } else {
      InsertFirst(m[FirstUser(m)], trimmed);
    }
  }

  lemma InsertFirst(x: Message, m: seq<Message>)
    requires Plain(x) && Paired(m)
    ensures Paired([x] + m) && SameIds(m, [x] + m)
  {
    hide Paired, SameIds;
    assert [] + m == m && [] + [x] + m == [x] + m;
    InsertPlain([], x, m);
    PlainKeepsIds([], x, m);
  }

  lemma ReinjectKeepsPairing(original: seq<Message>, m: seq<Message>)
    requires Paired(m)
    ensures Paired(Reinject(original, m)) && SameIds(m, Reinject(original, m))
  {
    hide Paired, SameIds, Pins, Missing, Plain;
    var missing := Missing(Pins(original), Pins(m));
    if missing == [] {
      SameIdsItself(m);
    } else {
      MissingIsTheDifference(Pins(original), Pins(m));
      PinsArePinned(original);
      PinsArePlain(missing);
      var i := LeadingContext(m);
      LeadingIsPlain(m);
      assert m[..i] + m[i..] == m;
      InsertPlain(m[..i], Request(missing, None, false), m[i..]);
      PlainKeepsIds(m[..i], Request(missing, None, false), m[i..]);
    }
  }

  lemma LeadingIsPlain(m: seq<Message>)
    ensures forall i :: 0 <= i < LeadingContext(m) ==> Plain(m[i])
  {
    forall i | 0 <= i < LeadingContext(m) ensures Plain(m[i]) {
      assert SystemOnly(m[i]);
    }
  }

  lemma PinsArePlain(parts: seq<RequestPart>)
    requires forall part :: part in parts ==> IsPinned(part)
    ensures Plain(Request(parts, None, false))
  {
    forall k | 0 <= k < |parts| ensures !parts[k].ToolReturn? {
      assert parts[k] in parts;
    }
  }

  lemma SameIdsKeep(m: seq<Message>, a: seq<Message>, b: seq<Message>)
    requires Keeps(m, a) && SameIds(a, b)
    ensures Keeps(m, b)
  {
    hide HasCall, HasReturn;
  }

  function Trimmed(c: Config, m: seq<Message>, cutoff: nat): seq<Message>
    requires cutoff <= |m|
  {
    if c.preserveFirst then PrependFirst(m, cutoff, m[cutoff..]) else m[cutoff..]
  }

  /** The cut puts the first user message in front of the tail, and that message answers a call. */
  ghost predicate OrphansFirst(c: Config, m: seq<Message>) {
    var cutoff := CutOf(c, m);
    && cutoff > 0 && c.preserveFirst
    && PrependFirst(m, cutoff, m[cutoff..]) != m[cutoff..] && !Plain(m[FirstUser(m)])
  }

  /** What follows the trimming: the missing pins, and the receipt instead of older ones. */
  function Finished(c: Config, m: seq<Message>, trimmed: seq<Message>): seq<Message> {
    var pinned := Reinject(m, trimmed);
    if c.receipt.Some? then [ReceiptMessage(c.receipt.value)] + WithoutReceipts(pinned) else pinned
  }

  lemma FinishedKeepsAnswers(c: Config, m: seq<Message>, trimmed: seq<Message>)
    ensures Answers(Finished(c, m, trimmed)) <==> Answers(trimmed)
  {
    hide Answers, Plain, WithoutReceipts, Reinject, ReceiptMessage;
    var pinned := Reinject(m, trimmed);
    ReinjectKeepsAnswers(m, trimmed);
    if c.receipt.Some? {
      var bare, receipt := WithoutReceipts(pinned), ReceiptMessage(c.receipt.value);
      ReceiptFits(c.receipt.value);
      assert [] + pinned == pinned && [] + bare == bare && [] + [receipt] + bare == [receipt] + bare;
      ReceiptsKeepAnswers([], pinned);
      PlainKeepsAnswers([], receipt, bare);
    }
  }

  lemma ReinjectKeepsAnswers(original: seq<Message>, m: seq<Message>)
    ensures Answers(Reinject(original, m)) <==> Answers(m)
  {
    hide Answers, Pins, Missing, Plain;
    var missing := Missing(Pins(original), Pins(m));
    if missing != [] {
      MissingIsTheDifference(Pins(original), Pins(m));
      PinsArePinned(original);
      PinsArePlain(missing);
      var i := LeadingContext(m);
      assert m[..i] + m[i..] == m;
      PlainKeepsAnswers(m[..i], Request(missing, None, false), m[i..]);
    }
  }

  lemma FinishedKeepsPairing(c: Config, m: seq<Message>, trimmed: seq<Message>)
    requires Paired(trimmed)
    ensures Paired(Finished(c, m, trimmed)) && SameIds(trimmed, Finished(c, m, trimmed))
  {
    hide Paired, SameIds, Reinject, WithoutReceipts, Plain;
    var pinned := Reinject(m, trimmed);
    ReinjectKeepsPairing(m, trimmed);
    if c.receipt.Some? {
      var bare, receipt := WithoutReceipts(pinned), ReceiptMessage(c.receipt.value);
      assert [] + pinned == pinned && [] + bare == bare;
      RemoveReceipts([], pinned);
      ReceiptFits(c.receipt.value);
      InsertFirst(receipt, bare);
      SameIdsChain(trimmed, pinned, bare);
      SameIdsChain(trimmed, bare, [receipt] + bare);
    }
  }

  lemma SameIdsChain(a: seq<Message>, b: seq<Message>, c: seq<Message>)
    requires SameIds(a, b) && SameIds(b, c)
    ensures SameIds(a, c)
  {
    hide HasCall, HasReturn;
  }

  lemma SlideIsFinished(c: Config, m: seq<Message>)
    requires CutOf(c, m) > 0
    ensures Slide(c, m) == Finished(c, m, Trimmed(c, m, CutOf(c, m)))
  {
    hide Reinject, WithoutReceipts, PrependFirst;
  }

  /** A cut keeps every return behind its call exactly when it does not keep a first user message that holds a
      return; and then it keeps the return of every kept call, too. */
  lemma SlideKeepsPairingExactlyWhen(c: Config, m: seq<Message>)
    requires Paired(m)
    ensures Answers(Slide(c, m)) <==> !OrphansFirst(c, m)
    ensures !OrphansFirst(c, m) ==> Paired(Slide(c, m)) && Keeps(m, Slide(c, m))
  {
    var cutoff := CutOf(c, m);
    if cutoff == 0 {
      KeepsItself(m);
    } else {
      SlideIsFinished(c, m);
      SuffixPaired(m, cutoff);
      SuffixKeeps(m, cutoff);
      SlideAnswersExactlyWhen(c, m, cutoff);
      if !OrphansFirst(c, m) {
        SlidePairs(c, m, cutoff);
      }
    }
    hide Answers, Once, Near, Keeps, Slide, OrphansFirst;
  }

  lemma SlideAnswersExactlyWhen(c: Config, m: seq<Message>, cutoff: nat)
    requires 0 < cutoff == CutOf(c, m) && Answers(m[cutoff..])
    ensures Answers(Finished(c, m, Trimmed(c, m, cutoff))) <==> !OrphansFirst(c, m)
  {
    FinishedKeepsAnswers(c, m, Trimmed(c, m, cutoff));
    PrependKeepsAnswersExactlyWhen(m, cutoff, m[cutoff..]);
    hide Answers, Finished, PrependFirst, Plain;
  }

  lemma SlidePairs(c: Config, m: seq<Message>, cutoff: nat)
    requires 0 < cutoff == CutOf(c, m) && Paired(m[cutoff..]) && Keeps(m, m[cutoff..]) && !OrphansFirst(c, m)
    ensures var result := Finished(c, m, Trimmed(c, m, cutoff)); Paired(result) && Keeps(m, result)
  {
    hide Paired, Keeps, SameIds, Finished, PrependFirst, Plain;
    var trimmed := Trimmed(c, m, cutoff);
    if c.preserveFirst {
      PrependKeepsPairing(m, cutoff, m[cutoff..]);
      SameIdsKeep(m, m[cutoff..], trimmed);
    }
    FinishedKeepsPairing(c, m, trimmed);
    SameIdsKeep(m, trimmed, Finished(c, m, trimmed));
  }

  lemma ReceiptFits(text: string)
    ensures Plain(ReceiptMessage(text))
  {
  }

  lemma KeepsItself(m: seq<Message>)
    ensures Keeps(m, m)
  {
  }

  lemma BlankKeepsPairing(m: seq<Message>, returnIds: set<string>, inputIds: set<string>, placeholder: string)
    requires Paired(m)
    ensures Paired(Cleared(m, returnIds, inputIds, placeholder))
    ensures Keeps(m, Cleared(m, returnIds, inputIds, placeholder))
  {
    var r := Cleared(m, returnIds, inputIds, placeholder);
    forall i, id
      ensures CallAt(r, i, id) <==> CallAt(m, i, id)
      ensures ReturnAt(r, i, id) <==> ReturnAt(m, i, id)
    {
      ClearingKeepsIds(m, returnIds, inputIds, placeholder, i, id);
    }
    hide CallAt, ReturnAt, Cleared;
    forall j, id | ReturnAt(r, j, id) ensures exists i :: i < j && CallAt(r, i, id) {
      var i :| i < j && CallAt(m, i, id);
      assert CallAt(r, i, id);
    }
    assert Once(r) && Near(r);
  }

  // ---- any sequence of operations ---------------------------------------------------------------------------------

  /** A sliding-window cut, or the blanking of any set of results and arguments: clearing old results and
      superseded reads are both of this kind. */
  datatype Op = Cut(config: Config) | Blank(returnIds: set<string>, inputIds: set<string>, placeholder: string)

  ghost function ApplyOne(op: Op, m: seq<Message>): seq<Message> {
    match op
    case Cut(config) => Slide(config, m)
    case Blank(returnIds, inputIds, placeholder) => Cleared(m, returnIds, inputIds, placeholder)
  }

  ghost function Apply(ops: seq<Op>, m: seq<Message>): seq<Message>
    decreases |ops|
  {
    if ops == [] then m else Apply(ops[1..], ApplyOne(ops[0], m))
  }

  /** No history on the way has a return without its call. */
  ghost predicate AnswersThroughout(ops: seq<Op>, m: seq<Message>)
    decreases |ops|
  {
    Answers(m) && (ops == [] || AnswersThroughout(ops[1..], ApplyOne(ops[0], m)))
  }

  /** No cut on the way keeps a first user message that holds a return. */
  ghost predicate NoneOrphans(ops: seq<Op>, m: seq<Message>)
    decreases |ops|
  {
    ops == [] ||
    ((ops[0].Cut? ==> !OrphansFirst(ops[0].config, m)) && NoneOrphans(ops[1..], ApplyOne(ops[0], m)))
  }

  lemma OneOp(op: Op, m: seq<Message>)
    requires Paired(m)
    ensures Answers(ApplyOne(op, m)) <==> (op.Cut? ==> !OrphansFirst(op.config, m))
    ensures Answers(ApplyOne(op, m)) ==> Paired(ApplyOne(op, m)) && Keeps(m, ApplyOne(op, m))
  {
    hide Keeps, Slide, OrphansFirst, Cleared, Once, Near, Answers;
    match op
    case Cut(config) => SlideKeepsPairingExactlyWhen(config, m);
    case Blank(returnIds, inputIds, placeholder) => BlankKeepsPairing(m, returnIds, inputIds, placeholder);
  }

  /** Over any sequence of compactions of a history with ids used once and returns within five messages: every return
      has its call earlier, at every stage, exactly when no cut keeps a first user message that holds a return.
      Then every kept call that had a return still has it. */
  lemma {:induction false} CompactionsKeepPairingExactlyWhen(ops: seq<Op>, m: seq<Message>)
    requires Paired(m)
    ensures AnswersThroughout(ops, m) <==> NoneOrphans(ops, m)
    ensures NoneOrphans(ops, m) ==> Paired(Apply(ops, m)) && Keeps(m, Apply(ops, m))
    decreases |ops|
  {
    hide Paired, Keeps, ApplyOne, OrphansFirst, Answers;
    PairedAnswers(m);
    if ops == [] {
      KeepsItself(m);
    } else {
      var next := ApplyOne(ops[0], m);
      OneOp(ops[0], m);
      if Answers(next) {
        CompactionsKeepPairingExactlyWhen(ops[1..], next);
        if NoneOrphans(ops[1..], next) {
          KeepsTransitive(m, next, Apply(ops[1..], next));
        }
      } else {
        NotThroughout(ops[1..], next);
      }
    }
  }

  lemma PairedAnswers(m: seq<Message>)
    requires Paired(m)
    ensures Answers(m)
  {
  }

  lemma NotThroughout(ops: seq<Op>, m: seq<Message>)
    requires !Answers(m)
    ensures !AnswersThroughout(ops, m)
  {
  }

  // ---- histories that never mix -----------------------------------------------------------------------------------

  /** No request mixes a user prompt with a tool return. */
  ghost predicate Unmixed(msg: Message) {
    msg.Request? ==> !((exists k :: 0 <= k < |msg.parts| && msg.parts[k].UserPrompt?) &&
                       (exists k :: 0 <= k < |msg.parts| && msg.parts[k].ToolReturn?))
  }

  ghost predicate AllUnmixed(m: seq<Message>) {
    forall i :: 0 <= i < |m| ==> Unmixed(m[i])
  }

  lemma UserTurnIsPlain(msg: Message)
    requires HasUserTurn(msg) && Unmixed(msg)
    ensures Plain(msg)
  {
  }

  lemma UnmixedNeverOrphans(c: Config, m: seq<Message>)
    requires AllUnmixed(m)
    ensures !OrphansFirst(c, m)
  {
    hide PrependFirst, Unmixed, Plain;
    var cutoff := CutOf(c, m);
    if FirstUser(m) < |m| {
      UserTurnIsPlain(m[FirstUser(m)]);
    } else {
      NothingToPrepend(m, cutoff, m[cutoff..]);
    }
  }

  lemma NothingToPrepend(m: seq<Message>, cutoff: nat, trimmed: seq<Message>)
    requires FirstUser(m) == |m|
    ensures PrependFirst(m, cutoff, trimmed) == trimmed
  {
  }

  /** Every message of a cut history comes from the history, or was made from pins or as a receipt. */
  lemma SlideUnmixed(c: Config, m: seq<Message>)
    requires AllUnmixed(m)
    ensures AllUnmixed(Slide(c, m))
  {
    hide Unmixed, Reinject, WithoutReceipts, PrependFirst;
    var cutoff := CutOf(c, m);
    if cutoff > 0 {
      var trimmed := Trimmed(c, m, cutoff);
      SlideIsFinished(c, m);
      PrependUnmixed(m, cutoff);
      ReinjectUnmixed(m, trimmed);
      if c.receipt.Some? {
        ReceiptsUnmixed(Reinject(m, trimmed));
        ReceiptIsUnmixed(c.receipt.value);
      }
    }
  }

  lemma PrependUnmixed(m: seq<Message>, cutoff: nat)
    requires AllUnmixed(m) && cutoff <= |m|
    ensures AllUnmixed(PrependFirst(m, cutoff, m[cutoff..]))
  {
    hide Unmixed;
  }

  lemma ReinjectUnmixed(original: seq<Message>, m: seq<Message>)
    requires AllUnmixed(m)
    ensures AllUnmixed(Reinject(original, m))
  {
    hide Unmixed, Pins, Missing, Plain;
    var missing := Missing(Pins(original), Pins(m));
    if missing != [] {
      MissingIsTheDifference(Pins(original), Pins(m));
      PinsArePinned(original);
      PinsArePlain(missing);
      PlainIsUnmixed(Request(missing, None, false));
    }
  }

  lemma PlainIsUnmixed(msg: Message)
    requires Plain(msg)
    ensures Unmixed(msg)
  {
  }

  lemma {:induction false} ReceiptsUnmixed(m: seq<Message>)
    requires AllUnmixed(m)
    ensures AllUnmixed(WithoutReceipts(m))
  {
    hide Unmixed, ReceiptOnly;
    if m != [] {
      ReceiptsUnmixed(m[1..]);
    }
  }

  lemma ReceiptIsUnmixed(text: string)
    ensures Unmixed(ReceiptMessage(text))
  {
  }

  lemma BlankStaysUnmixed(msg: Message, returnIds: set<string>, inputIds: set<string>, placeholder: string)
    requires Unmixed(msg)
    ensures Unmixed(ClearedMessage(msg, returnIds, inputIds, placeholder))
  {
    var r := ClearedMessage(msg, returnIds, inputIds, placeholder);
    if msg.Request? {
      forall k | 0 <= k < |msg.parts|
        ensures r.parts[k].UserPrompt? == msg.parts[k].UserPrompt? && r.parts[k].ToolReturn? == msg.parts[k].ToolReturn?
      {
      }
    }
  }

  lemma OneOpUnmixed(op: Op, m: seq<Message>)
    requires AllUnmixed(m)
    ensures AllUnmixed(ApplyOne(op, m))
  {
    match op
    case Cut(config) => SlideUnmixed(config, m);
    case Blank(returnIds, inputIds, placeholder) =>
      var r := Cleared(m, returnIds, inputIds, placeholder);
      forall i | 0 <= i < |m| ensures Unmixed(r[i]) {
        BlankStaysUnmixed(m[i], returnIds, inputIds, placeholder);
      }
  }

  lemma {:induction false} UnmixedNoneOrphans(ops: seq<Op>, m: seq<Message>)
    requires AllUnmixed(m)
    ensures NoneOrphans(ops, m)
    decreases |ops|
  {
    hide AllUnmixed, ApplyOne, OrphansFirst;
    if ops != [] {
      if ops[0].Cut? {
        UnmixedNeverOrphans(ops[0].config, m);
      }
      OneOpUnmixed(ops[0], m);
      UnmixedNoneOrphans(ops[1..], ApplyOne(ops[0], m));
    }
  }

  /** A history in which no request mixes a user prompt with a tool return keeps its pairing through any sequence of
      compactions. */
  lemma CompactionsKeepPairing(ops: seq<Op>, m: seq<Message>)
    requires Paired(m) && AllUnmixed(m)
    ensures Paired(Apply(ops, m)) && Keeps(m, Apply(ops, m))
  {
    UnmixedNoneOrphans(ops, m);
    CompactionsKeepPairingExactlyWhen(ops, m);
  }

  /** A first request that mixes a user turn with a tool return is kept without the call it answers. */
  lemma MixedRequestIsOrphaned(call: ResponsePart, prompt: RequestPart, reply: RequestPart, later: Message)
    requires call.ToolCall? && call.id != "" && IsUserTurn(prompt) && reply.ToolReturn? && reply.id == call.id
    requires later.Response? && forall k :: 0 <= k < |later.replies| ==> !later.replies[k].ToolCall?
    ensures var m := [Response([call]), Request([prompt, reply], None, false), later];
            Answers(m) && WindowSafe(m, 2) && !Answers(PrependFirst(m, 2, m[2..]))
  {
    var mixed := Request([prompt, reply], None, false);
    var m := [Response([call]), mixed, later];
    assert m[0].replies[0] == call && mixed.parts[0] == prompt && mixed.parts[1] == reply;
    assert CallAt(m, 0, call.id);
    PairBounds(m);
    assert m[1..][0] == mixed && FirstUser(m) == 1;
    var r := PrependFirst(m, 2, m[2..]);
    assert r == [mixed, later];
    assert r[0].parts[1] == reply;
    assert ReturnAt(r, 0, call.id);
  }

  // ---- pins ----------------------------------------------------------------------------------------------------

  /** Pins that stand in receipt-only messages. */
  function PinsInReceipts(m: seq<Message>): seq<RequestPart> {
    if m == [] then []
    else (if ReceiptOnly(m[0]) then PinnedOf(m[0].parts) else []) + PinsInReceipts(m[1..])
  }

  lemma {:induction false} DroppedWithReceipts(m: seq<Message>)
    ensures PinBag(m) == PinBag(WithoutReceipts(m)) + multiset(PinsInReceipts(m))
  {
    if m != [] {
      DroppedWithReceipts(m[1..]);
      OneMoreMessage(m[0], m[1..]);
      assert m == [m[0]] + m[1..];
    }
  }

  lemma OneMoreMessage(first: Message, rest: seq<Message>)
    requires PinBag(rest) == PinBag(WithoutReceipts(rest)) + multiset(PinsInReceipts(rest))
    ensures var m := [first] + rest; PinBag(m) == PinBag(WithoutReceipts(m)) + multiset(PinsInReceipts(m))
  {
    var m := [first] + rest;
    assert m[1..] == rest;
    var here := if first.Request? then PinnedOf(first.parts) else [];
    assert WithoutReceipts(m) == (if ReceiptOnly(first) then [] else [first]) + WithoutReceipts(rest);
    assert PinsInReceipts(m) == (if ReceiptOnly(first) then here else []) + PinsInReceipts(rest);
    hide PinnedOf, ReceiptOnly, WithoutReceipts, PinsInReceipts;
    PinBagOfCons(first, rest);
    PinBagOfCons(first, WithoutReceipts(rest));
    hide PinBag;
    if ReceiptOnly(first) {
      assert WithoutReceipts(m) == WithoutReceipts(rest);
      assert multiset(here + PinsInReceipts(rest)) == multiset(here) + multiset(PinsInReceipts(rest));
    }
  }

  lemma PinBagOfCons(first: Message, rest: seq<Message>)
    ensures PinBag([first] + rest) ==
            multiset(if first.Request? then PinnedOf(first.parts) else []) + PinBag(rest)
  {
    assert ([first] + rest)[1..] == rest;
  }

  lemma SplitPins(m: seq<Message>, i: nat)
    requires i <= |m|
    ensures PinBag(m) == PinBag(m[..i]) + PinBag(m[i..])
  {
    assert m == m[..i] + m[i..];
    PinsConcat(m[..i], m[i..]);
    hide Pins;
  }

  lemma MessagePins(m: seq<Message>, i: nat)
    requires i < |m|
    ensures PinBag([m[i]]) <= PinBag(m)
  {
    SplitPins(m, i);
    assert m[i..][..1] == [m[i]];
    SplitPins(m[i..], 1);
    hide Pins;
  }

  /** Trimming invents no pins. */
  lemma TrimmedPins(c: Config, m: seq<Message>, cutoff: nat)
    requires cutoff <= |m|
    ensures PinBag(Trimmed(c, m, cutoff)) <= PinBag(m)
  {
    hide Pins;
    SplitPins(m, cutoff);
    var i := FirstUser(m);
    if i < cutoff {
      assert m[..cutoff][i] == m[i];
      MessagePins(m[..cutoff], i);
      PinsConcat([m[i]], m[cutoff..]);
    }
  }

  lemma ReinjectedPins(m: seq<Message>, trimmed: seq<Message>)
    requires PinBag(trimmed) <= PinBag(m)
    ensures PinBag(Reinject(m, trimmed)) == PinBag(m)
  {
    ReinjectAddsTheDifference(m, trimmed);
    hide Pins, Reinject, OneRequestMore;
  }

  lemma ReceiptMessagePins(text: string, m: seq<Message>)
    ensures Pins([ReceiptMessage(text)] + m) == Pins(m)
  {
    var receipt := ReceiptMessage(text);
    assert ([receipt] + m)[1..] == m && ([receipt] + m)[0] == receipt;
    assert PinnedOf(receipt.parts) == [] by {
      assert receipt.parts[1..] == [];
    }
  }

  lemma NothingTaken(a: multiset<RequestPart>, b: multiset<RequestPart>)
    ensures a + b <= a <==> b == multiset{}
  {
    if a + b <= a {
      forall part ensures b[part] == 0 {
        assert (a + b)[part] <= a[part];
      }
    }
  }

  /** The cut before its receipts are dropped. */
  ghost function Repinned(c: Config, m: seq<Message>): seq<Message> {
    Reinject(m, Trimmed(c, m, CutOf(c, m)))
  }

  /** A cut keeps every pin exactly when it drops no receipt-only message that holds one: it always does without
      receipts, and where no part is both a pin and a receipt. */
  lemma SlideKeepsPinsExactlyWhen(c: Config, m: seq<Message>)
    ensures PinBag(m) <= PinBag(Slide(c, m)) <==>
            CutOf(c, m) == 0 || c.receipt.None? || PinsInReceipts(Repinned(c, m)) == []
  {
    var cutoff := CutOf(c, m);
    if cutoff > 0 {
      var pinned := Repinned(c, m);
      SlideIsFinished(c, m);
      TrimmedPins(c, m, cutoff);
      ReinjectedPins(m, Trimmed(c, m, cutoff));
      if c.receipt.Some? {
        ReceiptMessagePins(c.receipt.value, WithoutReceipts(pinned));
        DroppedWithReceipts(pinned);
        NothingTaken(PinBag(WithoutReceipts(pinned)), multiset(PinsInReceipts(pinned)));
        assert multiset(PinsInReceipts(pinned)) == multiset{} <==> PinsInReceipts(pinned) == [] by {
          assert |multiset(PinsInReceipts(pinned))| == |PinsInReceipts(pinned)|;
        }
      }
    }
    hide Pins, Reinject, Trimmed, WithoutReceipts, PinsInReceipts, Slide, CutOf;
  }

  /** A request whose parts are pins and receipts at once is dropped with the older receipts. */
  lemma PinnedReceiptIsLost(c: Config, text: string)
    requires c.receipt.Some? && c.keepTokens.None? && c.keepMessages <= 1 && !c.preserveFirst
    ensures var pin := UserPrompt(text, true, true);
            var m := [Request([pin], None, false)];
            pin in PinBag(m) && pin !in PinBag(Slide(c, m))
  {
    var pin := UserPrompt(text, true, true);
    var m := [Request([pin], None, false)];
    var receipt := ReceiptMessage(c.receipt.value);
    assert m[1..] == [];
    PinnedOfPins([pin]);
    PinsOfOne(m[0]);
    assert Pins(m) == [pin];
    assert CutOf(c, m) == 1 && m[1..] == [];
    assert Position([], pin) == 0;
    assert Missing([pin], []) == [pin];
    assert Reinject(m, []) == m;
    assert WithoutReceipts(m) == [];
    ReceiptMessagePins(c.receipt.value, []);
    assert [receipt] + [] == [receipt];
  }
}
