/** Eager execution of one streamed `run_code` call: statements that can no longer change are fed to the
    sandbox while the arguments are still arriving, and dispatch runs only what is left. */
module EagerExecution {
  import opened Lines
  import opened Streaming
  import opened Options

  /** The `code` entry of decoded arguments. */
  datatype Field = Absent | NotText | Code(text: string)

  /** One piece of streamed arguments. */
  datatype Args = NoArgs | Text(delta: string) | Object(code: Field, restart: bool)

  datatype Partial = Partial(code: Field, restart: bool)

  datatype Oracle = Oracle(decode: string -> Option<Partial>, parse: Parser)

  /** The task that feeds queued fragments. `Scheduled` has not run yet; `Feeding` owns a popped fragment. */
  datatype Pump = NoPump | Scheduled | Feeding(source: string) | Finished | Cancelled

  /** A streamed call. `fed` and `lost` are its history: fragments the sandbox ran to the end, and fragments
      that left the queue or the pump without running. */
  datatype Call = Call(
    argsText: string,
    argsDict: Option<Field>,
    halted: bool,
    scanWork: nat,
    fedLineCount: int,
    fedPrefix: string,
    queue: seq<string>,
    pump: Pump,
    cancelRequested: bool,
    failed: bool,
    fed: seq<string>,
    lost: seq<string>)

  function NewCall(halted: bool): Call {
    Call("", None, halted, 0, 0, "", [], NoPump, false, false, [], [])
  }

  // ---- stream side -------------------------------------------------------------------------

  predicate Alive(pump: Pump) {
    pump.Scheduled? || pump.Feeding?
  }

  function Discard(c: Call): Call {
    c.(queue := [], lost := c.lost + c.queue, cancelRequested := c.cancelRequested || Alive(c.pump))
  }

  function QueuedLines(queue: seq<string>): nat {
    if queue == [] then 0 else Newlines(queue[0]) + 1 + QueuedLines(queue[1..])
  }

  function DropQueued(c: Call): Call {
    if c.queue == [] then c
    else
      var count := c.fedLineCount - QueuedLines(c.queue);
      c.(fedLineCount := count, fedPrefix := Join(Take(Split(c.fedPrefix), count)), queue := [])
  }

  predicate Continues(code: string, prefix: string) {
    code == prefix || StartsWith(code, prefix + "\n")
  }

  predicate HasEscapedNewline(text: string) {
    exists i :: 0 <= i < |text| - 1 && text[i] == '\\' && text[i + 1] == 'n'
  }

  /** Code continues a prefix exactly when its lines begin with those of the prefix. */
  lemma ContinuesByLines(code: string, prefix: string)
    ensures Continues(code, prefix) <==> Split(prefix) <= Split(code)
  {
    hide Split, Join;
    PrefixTestsAgree(code, prefix);
    JoinSplit(prefix);
    SplitGivesLines(prefix);
    SplitGivesLines(code);
    PrefixTestPassed(Split(prefix), Split(code));
    assert Split(prefix) <= Split(code) ==> Take(Split(code), |Split(prefix)|) == Split(prefix);
  }

  lemma EscapedNewlineStandsThere(text: string)
    ensures HasEscapedNewline(text) <==> exists before, after :: text == before + "\\n" + after
  {
    if HasEscapedNewline(text) {
      var i :| 0 <= i < |text| - 1 && text[i] == '\\' && text[i + 1] == 'n';
      assert text == text[..i] + "\\n" + text[i + 2..];
    }
    if before, after :| text == before + "\\n" + after {
      assert text[|before|] == '\\' && text[|before| + 1] == 'n';
    }
  }

  /** `receive_args`: the new state, and whether a scan is worthwhile. */
  function Receive(c: Call, args: Args, replaceDict: bool): (Call, bool) {
    if c.halted then
      var invalid := args.Object? &&
        (args.code.NotText? || (args.code.Code? && !Continues(args.code.text, c.fedPrefix)));
      var diverged := args.Object? &&
        (args.restart || (c.fedPrefix != "" && (invalid || (replaceDict && !args.code.Code?))));
      (if diverged then Discard(c) else c, false)
    else
      match args
      case NoArgs => (c, false)
      case Text(delta) =>
        if |delta| > MAX_SCAN_CHARS - |c.argsText| then (DropQueued(c.(halted := true)), false)
        else (c.(argsText := c.argsText + delta), HasEscapedNewline(delta))
      case Object(code, restart) =>
        if restart then (Discard(c.(halted := true)), false)
        else if code.Code? && |code.text| > MAX_SCAN_CHARS then
          (if c.fedPrefix != "" && !Continues(code.text, c.fedPrefix) then Discard(c.(halted := true))
           else c.(halted := true), false)
        else if replaceDict && c.fedPrefix != "" && !code.Code? then (Discard(c.(halted := true)), false)
        else
          var known := if c.argsDict.Some? then c.argsDict.value else Absent;
          var relevant := if code.Code? then code else if replaceDict then Absent else known;
          (c.(argsDict := Some(relevant)), true)
  }

  /** The fragments between successive ends, as `'\n'.join(lines[fed:end])`. */
  function Slices(lines: seq<string>, from: int, ends: seq<int>): seq<string>
    decreases |ends|
  {
    if ends == [] then [] else [Join(Drop(Take(lines, ends[0]), from))] + Slices(lines, ends[0], ends[1..])
  }

  function Ends(from: int, closed: seq<Span>): (ends: seq<int>)
    ensures |ends| == |closed|
    ensures forall i :: 0 <= i < |closed| ==> ends[i] == from + closed[i].last
  {
    seq(|closed|, i requires 0 <= i < |closed| => from + closed[i].last)
  }

  function LastEnd(from: int, ends: seq<int>): int {
    if ends == [] then from else ends[|ends| - 1]
  }

  function StartPumpIfIdle(c: Call): Call {
    if c.queue != [] && !Alive(c.pump) then c.(pump := Scheduled, cancelRequested := false) else c
  }

  function ScanCode(c: Call, code: string, parse: Parser): Call {
    var lines := Split(code);
    if c.fedLineCount != 0 && Join(Take(lines, c.fedLineCount)) != c.fedPrefix then Discard(c.(halted := true))
    else
      var ends := Ends(c.fedLineCount, ClosedStatements(parse, Join(Drop(lines, c.fedLineCount))));
      var count := LastEnd(c.fedLineCount, ends);
      StartPumpIfIdle(c.(
        queue := c.queue + Slices(lines, c.fedLineCount, ends),
        fedLineCount := count,
        fedPrefix := Join(Take(lines, count))))
  }

  function Scan(c: Call, o: Oracle): Call {
    if c.argsDict.None? then
      if |c.argsText| > MAX_SCAN_WORK_CHARS - c.scanWork then DropQueued(c.(halted := true))
      else
        var charged := c.(scanWork := c.scanWork + |c.argsText|);
        match o.decode(c.argsText)
        case None => charged
        case Some(args) =>
          if args.restart then Discard(charged.(halted := true))
          else if !args.code.Code? then charged
          else ScanCode(charged, args.code.text, o.parse)
    else if !c.argsDict.value.Code? then c
    else
      var code := c.argsDict.value.text;
      if |code| > MAX_SCAN_WORK_CHARS - c.scanWork then DropQueued(c.(halted := true))
      else ScanCode(c.(scanWork := c.scanWork + |code|), code, o.parse)
  }

  function Stream(c: Call, args: Args, replaceDict: bool, o: Oracle): Call {
    var (received, scan) := Receive(c, args, replaceDict);
    if scan then Scan(received, o) else received
  }

  // ---- pump side ---------------------------------------------------------------------------

  /** One turn of the pump's loop: take the next fragment, or finish. */
  function NextFragment(c: Call): Call {
    if c.queue != [] && !c.failed then c.(pump := Feeding(c.queue[0]), queue := c.queue[1..])
    else c.(pump := Finished)
  }

  function FeedSucceeds(c: Call): Call
    requires c.pump.Feeding?
  {
    NextFragment(c.(fed := c.fed + [c.pump.source]))
  }

  function FeedFails(c: Call): Call
    requires c.pump.Feeding?
  {
    NextFragment(c.(failed := true, queue := []))
  }

  /** The requested cancellation reaches the pump's suspension point. */
  function CancelLands(c: Call): Call
    requires Alive(c.pump)
  {
    c.(pump := Cancelled, lost := (if c.pump.Feeding? then [c.pump.source] else []) + c.lost)
  }

  // ---- dispatch ----------------------------------------------------------------------------

  /** `Fresh` is a restart the model asked for: the whole code runs in a new session. */
  datatype Outcome = Fresh(code: string) | Restarted | Interrupted | Raised | Ran(tail: string)

  predicate Matches(c: Call, code: string) {
    Join(Take(Split(code), c.fedLineCount)) == c.fedPrefix
  }

  /** What dispatch of the final `code` does once the pump it drains has settled. */
  function Dispatch(c: Call, code: string): Outcome {
    if !Matches(c, code) then Restarted
    else if c.pump.Cancelled? then Interrupted
    else if c.failed then Raised
    else Ran(Join(Drop(Split(code), c.fedLineCount)))
  }

  // ---- runs: any interleaving of stream events and pump steps ---------------------------------

  datatype Event =
    | Arrive(args: Args, replaceDict: bool)
    | PumpStarts
    | FeedEnds
    | FeedRaises
    | CancellationLands

  ghost predicate PlainArgs(args: Args) {
    args.Object? && args.code.Code? ==> Plain(args.code.text)
  }

  ghost predicate OracleContract(o: Oracle) {
    && ParserContract(o.parse)
    && (forall text {:trigger o.decode(text)} ::
          o.decode(text).Some? && o.decode(text).value.code.Code? ==> Plain(o.decode(text).value.code.text))
  }

  /** A task whose cancellation was requested before it ever ran does not run; one that is feeding may be
      cancelled, or swallow the cancellation and finish its fragment. */
  ghost predicate Enabled(c: Call, e: Event) {
    match e
    case Arrive(args, _) => PlainArgs(args)
    case PumpStarts => c.pump.Scheduled? && !c.cancelRequested
    case FeedEnds => c.pump.Feeding?
    case FeedRaises => c.pump.Feeding?
    case CancellationLands => c.cancelRequested && Alive(c.pump)
  }

  function Step(c: Call, e: Event, o: Oracle): Call
    requires e.FeedEnds? || e.FeedRaises? ==> c.pump.Feeding?
    requires e.CancellationLands? ==> Alive(c.pump)
  {
    match e
    case Arrive(args, replaceDict) => Stream(c, args, replaceDict, o)
    case PumpStarts => NextFragment(c)
    case FeedEnds => FeedSucceeds(c)
    case FeedRaises => FeedFails(c)
    case CancellationLands => CancelLands(c)
  }

  /** `last` is reached from `first` through `events`. */
  ghost predicate Reaches(first: Call, events: seq<Event>, last: Call, o: Oracle)
    decreases |events|
  {
    if events == [] then first == last
    else Enabled(first, events[0]) && Reaches(Step(first, events[0], o), events[1..], last, o)
  }

  lemma {:induction false} ReachesOneMore(first: Call, events: seq<Event>, last: Call, e: Event, o: Oracle)
    requires Reaches(first, events, last, o) && Enabled(last, e)
    ensures Reaches(first, events + [e], Step(last, e, o), o)
    decreases |events|
  {
    hide Step;
    if events == [] {
      assert Reaches(Step(last, e, o), [], Step(last, e, o), o);
    } else {
      assert (events + [e])[1..] == events[1..] + [e];
      ReachesOneMore(Step(first, events[0], o), events[1..], last, e, o);
    }
  }

  // ---- the invariant ------------------------------------------------------------------------

  function InFlight(c: Call): seq<string> {
    if c.pump.Feeding? then [c.pump.source] else []
  }

  /** Every line taken off the stream so far, in order. */
  function Taken(c: Call): seq<string> {
    LinesOf(c.fed + InFlight(c) + c.lost + c.queue)
  }

  ghost predicate Inv(c: Call) {
    && (c.argsDict.Some? && c.argsDict.value.Code? ==> Plain(c.argsDict.value.text))
    && (c.lost != [] || c.cancelRequested || c.pump.Cancelled? ==> c.halted && c.queue == [])
    && (!c.failed ==>
          && |Taken(c)| == c.fedLineCount
          && Join(Taken(c)) == c.fedPrefix
          && (c.queue != [] ==> Alive(c.pump)))
  }

  lemma {:induction false} QueuedLinesCount(queue: seq<string>)
    ensures QueuedLines(queue) == |LinesOf(queue)|
  {
    if queue != [] {
      CountsLines(queue[0]);
      QueuedLinesCount(queue[1..]);
    }
  }

  /** What passing the prefix test of scan and dispatch means: the taken lines begin the code. */
  lemma PrefixTestPassed(taken: seq<string>, lines: seq<string>)
    requires AreLines(taken) && AreLines(lines) && |lines| >= 1
    ensures Join(Take(lines, |taken|)) == Join(taken) ==> taken <= lines
  {
    if Join(Take(lines, |taken|)) == Join(taken) {
      if |taken| <= |lines| {
        JoinInjective(lines[..|taken|], taken);
      } else {
        JoinInjective(lines, taken);
      }
    }
  }

  ghost predicate RisingEnds(ends: seq<int>, from: int, lineCount: nat) {
    && (forall i :: 0 <= i < |ends| ==> from < ends[i] <= lineCount)
    && (forall i, j :: 0 <= i < j < |ends| ==> ends[i] < ends[j])
  }

  lemma SliceParts(lines: seq<string>, from: int, middle: int, to: int)
    requires 0 <= from <= middle <= to <= |lines|
    ensures lines[from..to] == lines[from..middle] + lines[middle..to]
  {
  }

  lemma {:induction false} SlicesLines(lines: seq<string>, from: nat, ends: seq<int>)
    requires AreLines(lines) && from <= |lines| && RisingEnds(ends, from, |lines|)
    ensures from <= LastEnd(from, ends) <= |lines|
    ensures LinesOf(Slices(lines, from, ends)) == lines[from..LastEnd(from, ends)]
    decreases |ends|
  {
    hide Split, Join;
    if ends != [] {
      var first, rest := ends[0], ends[1..];
      var segment := lines[from..first];
      assert Drop(Take(lines, first), from) == segment;
      SplitJoin(segment);
      SlicesLines(lines, first, rest);
      assert LastEnd(first, rest) == LastEnd(from, ends);
      SliceParts(lines, from, first, LastEnd(first, rest));
    }
  }

  lemma DiscardKeepsInv(c: Call)
    requires Inv(c) && c.halted
    ensures Inv(Discard(c))
  {
    var d := Discard(c);
    assert c.fed + InFlight(c) + c.lost + c.queue == d.fed + InFlight(d) + d.lost + d.queue;
  }

  lemma DropQueuedKeepsInv(c: Call)
    requires Inv(c)
    ensures Inv(DropQueued(c)) && DropQueued(c).halted == c.halted
  {
    if c.queue != [] && !c.failed {
      var kept := LinesOf(c.fed + InFlight(c) + c.lost);
      LinesOfConcat(c.fed + InFlight(c) + c.lost, c.queue);
      QueuedLinesCount(c.queue);
      LinesOfGivesLines(c.fed + InFlight(c) + c.lost + c.queue);
      LinesOfGivesLines(c.queue);
      SplitJoin(Taken(c));
      var d := DropQueued(c);
      assert d.fed + InFlight(d) + d.lost + d.queue == c.fed + InFlight(c) + c.lost;
      assert Taken(c)[..|kept|] == kept;
    }
  }

  /** What the parser closes in the unfed suffix ends after the fed lines and within the code. */
  lemma EndsAreBounded(code: string, n: nat, parse: Parser)
    requires ParserContract(parse) && Plain(code) && n <= |Split(code)|
    ensures RisingEnds(Ends(n, ClosedStatements(parse, Join(Drop(Split(code), n)))), n, |Split(code)|)
  {
    var lines := Split(code);
    var unfed := Join(Drop(lines, n));
    UnfedIsPlain(lines, n, code);
    ClosedStatementsContract(parse, unfed);
    if n < |lines| {
      SplitGivesLines(code);
      SplitJoin(lines[n..]);
    } else {
      assert unfed == "";
    }
  }

  // The slices queued continue the lines taken so far to the first lines of the code.
  lemma SlicesContinue(c: Call, code: string, parse: Parser)
    requires Inv(c) && !c.failed && ParserContract(parse) && Plain(code)
    requires c.fedLineCount != 0 ==> Join(Take(Split(code), c.fedLineCount)) == c.fedPrefix
    ensures var lines, n := Split(code), c.fedLineCount;
            var ends := Ends(n, ClosedStatements(parse, Join(Drop(lines, n))));
            && LastEnd(n, ends) <= |lines|
            && LinesOf(c.fed + InFlight(c) + c.lost + c.queue + Slices(lines, n, ends)) == lines[..LastEnd(n, ends)]
  {
    hide Join, Split, LinesOf, Slices, ClosedStatements;
    var lines, n := Split(code), c.fedLineCount;
    var history := c.fed + InFlight(c) + c.lost + c.queue;
    LinesOfGivesLines(history);
    SplitGivesLines(code);
    assert Taken(c) <= lines by {
      if n != 0 {
        PrefixTestPassed(Taken(c), lines);
      }
    }
    EndsAreBounded(code, n, parse);
    var ends := Ends(n, ClosedStatements(parse, Join(Drop(lines, n))));
    SlicesLines(lines, n, ends);
    LinesOfConcat(history, Slices(lines, n, ends));
    assert Taken(c) == lines[..n];
    assert lines[..n] + lines[n..LastEnd(n, ends)] == lines[..LastEnd(n, ends)];
  }

  lemma ScanCodeKeepsInv(c: Call, code: string, parse: Parser)
    requires Inv(c) && !c.halted && ParserContract(parse) && Plain(code)
    ensures Inv(ScanCode(c, code, parse))
  {
    hide Join, Split, LinesOf, Slices, Ends, ParserContract;
    var lines, n := Split(code), c.fedLineCount;
    if n != 0 && Join(Take(lines, n)) != c.fedPrefix {
      DiscardKeepsInv(c.(halted := true));
    } else if !c.failed {
      SlicesContinue(c, code, parse);
      var slices := Slices(lines, n, Ends(n, ClosedStatements(parse, Join(Drop(lines, n)))));
      var d := ScanCode(c, code, parse);
      assert d.fed + InFlight(d) + d.lost + d.queue == c.fed + InFlight(c) + c.lost + c.queue + slices;
    }
  }

  lemma {:induction false} JoinChars(lines: seq<string>, n: nat)
    requires n <= |lines|
    ensures forall ch :: ch in Join(lines[n..]) ==> ch in Join(lines)
  {
    if n == 0 {
      assert lines[0..] == lines;
    } else if n < |lines| {
      JoinConcat(lines[..n], lines[n..]);
      assert lines[..n] + lines[n..] == lines;
    }
  }

  lemma UnfedIsPlain(lines: seq<string>, n: nat, code: string)
    requires Plain(code) && lines == Split(code)
    ensures Plain(Join(Drop(lines, n)))
  {
    JoinSplit(code);
    if n <= |lines| {
      JoinChars(lines, n);
    }
  }

  lemma ReceiveKeepsInv(c: Call, args: Args, replaceDict: bool)
    requires Inv(c) && PlainArgs(args)
    ensures var (received, scan) := Receive(c, args, replaceDict); Inv(received) && (scan ==> !received.halted)
  {
    HaltKeepsInv(c);
    DiscardKeepsInv(c.(halted := true));
    DropQueuedKeepsInv(c.(halted := true));
    hide Discard, DropQueued, Continues, HasEscapedNewline;
    if args.Text? {
      ArgsKeepInv(c, c.argsText + args.delta, c.argsDict);
    } else if args.Object? {
      ArgsKeepInv(c, c.argsText, Some(args.code));
      ArgsKeepInv(c, c.argsText, Some(Absent));
      ArgsKeepInv(c, c.argsText, Some(if c.argsDict.Some? then c.argsDict.value else Absent));
    }
    hide Inv;
  }

  lemma ArgsKeepInv(c: Call, text: string, dict: Option<Field>)
    requires Inv(c) && (dict.Some? && dict.value.Code? ==> Plain(dict.value.text))
    ensures Inv(c.(argsText := text, argsDict := dict))
  {
    hide Join, LinesOf;
    assert Taken(c.(argsText := text, argsDict := dict)) == Taken(c);
  }

  lemma HaltKeepsInv(c: Call)
    requires Inv(c)
    ensures Inv(c.(halted := true))
  {
    hide LinesOf, Join;
    assert Taken(c.(halted := true)) == Taken(c);
  }

  lemma ScanKeepsInv(c: Call, o: Oracle)
    requires Inv(c) && !c.halted && OracleContract(o)
    ensures Inv(Scan(c, o))
  {
    hide DropQueued, ScanCode, LinesOf, Join;
    DropQueuedKeepsInv(c.(halted := true));
    if c.argsDict.None? {
      var charged := c.(scanWork := c.scanWork + |c.argsText|);
      DiscardKeepsInv(charged.(halted := true));
      var decoded := o.decode(c.argsText);
      if decoded.Some? && decoded.value.code.Code? {
        ScanCodeKeepsInv(charged, decoded.value.code.text, o.parse);
      }
    } else if c.argsDict.value.Code? {
      ScanCodeKeepsInv(c.(scanWork := c.scanWork + |c.argsDict.value.text|), c.argsDict.value.text, o.parse);
    }
  }

  lemma StreamKeepsInv(c: Call, args: Args, replaceDict: bool, o: Oracle)
    requires Inv(c) && PlainArgs(args) && OracleContract(o)
    ensures Inv(Stream(c, args, replaceDict, o))
  {
    var (received, scan) := Receive(c, args, replaceDict);
    ReceiveKeepsInv(c, args, replaceDict);
    if scan {
      ScanKeepsInv(received, o);
    }
  }

  /** The pump moves fragments along: queued, then being fed, then fed. */
  lemma PumpMovesFragments(c: Call, e: Event, o: Oracle)
    requires Inv(c) && Enabled(c, e) && !e.Arrive? && !c.failed && !Step(c, e, o).failed
    ensures var d := Step(c, e, o);
            c.fed + InFlight(c) + c.lost + c.queue == d.fed + InFlight(d) + d.lost + d.queue
  {
    hide LinesOf, Join;
    if c.queue != [] {
      assert c.lost == [] && c.queue == [c.queue[0]] + c.queue[1..];
    }
  }

  lemma PumpKeepsInv(c: Call, e: Event, o: Oracle)
    requires Inv(c) && Enabled(c, e) && !e.Arrive?
    ensures Inv(Step(c, e, o))
  {
    hide LinesOf, Join;
    var d := Step(c, e, o);
    if !c.failed && !d.failed {
      PumpMovesFragments(c, e, o);
    }
  }

  lemma NewCallInv(halted: bool)
    ensures Inv(NewCall(halted))
  {
    assert Taken(NewCall(halted)) == [];
  }

  lemma {:induction false} ReachesKeepsInv(first: Call, events: seq<Event>, last: Call, o: Oracle)
    requires Inv(first) && OracleContract(o) && Reaches(first, events, last, o)
    ensures Inv(last)
    decreases |events|
  {
    if events != [] {
      var e := events[0];
      if e.Arrive? {
        StreamKeepsInv(first, e.args, e.replaceDict, o);
      } else {
        PumpKeepsInv(first, e, o);
      }
      ReachesKeepsInv(Step(first, e, o), events[1..], last, o);
    }
  }

  // ---- the theorems ---------------------------------------------------------------------------

  /** In every run that ends in the tail feed, the lines the sandbox ran, then the lines a discard lost, then the
      tail are the submitted lines, each exactly once and in order. */
  lemma LinesAreConserved(halted: bool, events: seq<Event>, last: Call, o: Oracle, code: string)
    requires OracleContract(o) && Reaches(NewCall(halted), events, last, o)
    requires !Alive(last.pump) && Dispatch(last, code).Ran?
    ensures LinesOf(last.fed) + LinesOf(last.lost) + Drop(Split(code), last.fedLineCount) == Split(code)
    ensures last.queue == []
    ensures |LinesOf(last.fed)| + |LinesOf(last.lost)| == last.fedLineCount
  {
    hide Join, Split, LinesOf, Reaches;
    var first := NewCall(halted);
    NewCallInv(halted);
    ReachesKeepsInv(first, events, last, o);
    assert last.fed + InFlight(last) + last.lost + last.queue == last.fed + last.lost;
    var taken, lines := Taken(last), Split(code);
    LinesOfConcat(last.fed, last.lost);
    LinesOfGivesLines(last.fed + last.lost);
    SplitGivesLines(code);
    PrefixTestPassed(taken, lines);
    assert taken == lines[..last.fedLineCount];
  }

  /** What dispatch does after any run whose pump is done, unless a fragment failed: it sends the code back exactly
      when its lines do not begin with those taken; otherwise it reports an interruption exactly when a cancellation
      landed, and else runs the lines that were not taken. */
  lemma DispatchExactly(halted: bool, events: seq<Event>, last: Call, o: Oracle, code: string)
    requires OracleContract(o) && Reaches(NewCall(halted), events, last, o) && !Alive(last.pump)
    ensures var taken, lines := Taken(last), Split(code);
            if last.failed then Dispatch(last, code) in {Restarted, Interrupted, Raised}
            else if !(taken <= lines) then Dispatch(last, code) == Restarted
            else if last.pump.Cancelled? then Dispatch(last, code) == Interrupted
            else Dispatch(last, code) == Ran(Join(lines[|taken|..]))
  {
    hide Join, Split, LinesOf, Reaches;
    NewCallInv(halted);
    ReachesKeepsInv(NewCall(halted), events, last, o);
    LinesOfGivesLines(last.fed + InFlight(last) + last.lost + last.queue);
    SplitGivesLines(code);
    if !last.failed {
      var taken, lines := Taken(last), Split(code);
      PrefixTestPassed(taken, lines);
      if taken <= lines {
        assert Take(lines, |taken|) == taken && Drop(lines, |taken|) == lines[|taken|..];
      }
    }
  }

  /** A failed fragment is the last: what is queued goes, and while the failure is stored nothing is fed. */
  lemma {:induction false} FailureStopsFeeding(first: Call, events: seq<Event>, last: Call, o: Oracle)
    requires Reaches(first, events, last, o) && first.failed && !first.pump.Feeding?
    ensures last.failed && !last.pump.Feeding? && last.fed == first.fed
    decreases |events|
  {
    if events != [] {
      var e := events[0];
      StepAfterFailure(first, e, o);
      hide Step, Enabled;
      FailureStopsFeeding(Step(first, e, o), events[1..], last, o);
    }
  }

  /** The stream side feeds nothing and forgives nothing. */
  ghost predicate FeedsNothing(c: Call, d: Call) {
    d.failed == c.failed && d.fed == c.fed && (d.pump == c.pump || d.pump.Scheduled?)
  }

  lemma ReceiveFeedsNothing(c: Call, args: Args, replaceDict: bool)
    ensures FeedsNothing(c, Receive(c, args, replaceDict).0)
  {
    hide Join, Split, Take, QueuedLines, Continues, HasEscapedNewline;
  }

  lemma ScanCodeFeedsNothing(c: Call, code: string, parse: Parser)
    ensures FeedsNothing(c, ScanCode(c, code, parse))
  {
    hide Join, Split, Take, Drop, ClosedStatements, Slices, Ends, LastEnd;
  }

  lemma ScanFeedsNothing(c: Call, o: Oracle)
    ensures FeedsNothing(c, Scan(c, o))
  {
    hide Join, Split, Take, QueuedLines, ScanCode;
    if c.argsDict.None? {
      var charged := c.(scanWork := c.scanWork + |c.argsText|);
      var decoded := o.decode(c.argsText);
      if decoded.Some? && decoded.value.code.Code? {
        ScanCodeFeedsNothing(charged, decoded.value.code.text, o.parse);
      }
    } else if c.argsDict.value.Code? {
      var code := c.argsDict.value.text;
      ScanCodeFeedsNothing(c.(scanWork := c.scanWork + |code|), code, o.parse);
    }
  }

  lemma StepAfterFailure(c: Call, e: Event, o: Oracle)
    requires Enabled(c, e) && c.failed && !c.pump.Feeding?
    ensures var d := Step(c, e, o); d.failed && !d.pump.Feeding? && d.fed == c.fed
  {
    if e.Arrive? {
      ReceiveFeedsNothing(c, e.args, e.replaceDict);
      ScanFeedsNothing(Receive(c, e.args, e.replaceDict).0, o);
      hide Receive, Scan;
    }
  }

  lemma FailureDropsTheQueue(halted: bool, events: seq<Event>, c: Call, o: Oracle)
    requires Reaches(NewCall(halted), events, c, o) && Enabled(c, FeedRaises)
    ensures var d := Step(c, FeedRaises, o);
            d.failed && d.queue == [] && d.pump.Finished? && d.fed == c.fed && d.lost == c.lost
  {
  }

  // ---- when a stream event discards: the guards of the branches that do, read off the call and the arguments ------

  /** Decoded code that replaces what is known does not begin with the fed prefix, or is no text. */
  predicate ReplacesPrefix(c: Call, code: Field, replaceDict: bool) {
    && c.fedPrefix != ""
    && (if code.Code? then !Continues(code.text, c.fedPrefix)
        else replaceDict || (c.halted && code.NotText?))
  }

  /** `receive_args` discards: a restart, or an object that replaces the fed prefix. Code of a size that is still
      scanned is left to the scan's own test. */
  predicate ReceiveDiscards(c: Call, args: Args, replaceDict: bool) {
    args.Object? &&
    (args.restart ||
     (ReplacesPrefix(c, args.code, replaceDict) &&
      (args.code.Code? && !c.halted ==> |args.code.text| > MAX_SCAN_CHARS)))
  }

  /** The text arguments a scan would decode, or the object it would read. */
  function TextAfter(c: Call, args: Args): string {
    if args.Text? then c.argsText + args.delta else c.argsText
  }

  function ObjectAfter(c: Call, args: Args, replaceDict: bool): Option<Field> {
    if !args.Object? then c.argsDict
    else if args.code.Code? then Some(args.code)
    else if replaceDict || c.argsDict.None? then Some(Absent)
    else c.argsDict
  }

  /** A scan follows: the call is not halted, and a newline may have closed a statement or an object came. */
  predicate ScanFollows(c: Call, args: Args, replaceDict: bool) {
    !c.halted &&
    match args
    case NoArgs => false
    case Text(delta) => |delta| <= MAX_SCAN_CHARS - |c.argsText| && HasEscapedNewline(delta)
    case Object(code, restart) =>
      && !restart && !(code.Code? && |code.text| > MAX_SCAN_CHARS)
      && !(replaceDict && c.fedPrefix != "" && !code.Code?)
  }

  /** What the scan reads within its budget. */
  function Read(c: Call, args: Args, replaceDict: bool, o: Oracle): Option<Partial> {
    var known := ObjectAfter(c, args, replaceDict);
    if known.None? then
      if |TextAfter(c, args)| > MAX_SCAN_WORK_CHARS - c.scanWork then None else o.decode(TextAfter(c, args))
    else if known.value.Code? && |known.value.text| <= MAX_SCAN_WORK_CHARS - c.scanWork then
      Some(Partial(known.value, false))
    else None
  }

  /** The scan discards: decoded arguments that restart, or code that no longer begins with the fed lines. */
  predicate ScanDiscards(c: Call, args: Partial) {
    args.restart || (args.code.Code? && c.fedLineCount != 0 && !Matches(c, args.code.text))
  }

  predicate Discards(c: Call, args: Args, replaceDict: bool, o: Oracle) {
    || ReceiveDiscards(c, args, replaceDict)
    || (&& ScanFollows(c, args, replaceDict)
        && Read(c, args, replaceDict, o).Some? && ScanDiscards(c, Read(c, args, replaceDict, o).value))
  }

  /** Arguments that discard meet queued statements. */
  predicate DiscardsQueue(c: Call, e: Event, o: Oracle) {
    e.Arrive? && c.queue != [] && Discards(c, e.args, e.replaceDict, o)
  }

  ghost predicate Lossless(first: Call, events: seq<Event>, last: Call, o: Oracle)
    requires Reaches(first, events, last, o)
    decreases |events|
  {
    events == [] ||
    (!DiscardsQueue(first, events[0], o) && Lossless(Step(first, events[0], o), events[1..], last, o))
  }

  lemma {:induction false} QueueHasLines(queue: seq<string>)
    ensures QueuedLines(queue) >= |queue|
  {
    if queue != [] {
      QueueHasLines(queue[1..]);
    }
  }

  /** The queue is kept or returned to the tail. */
  predicate KeepsStatements(c: Call, d: Call) {
    d.lost == c.lost && (c.queue != [] ==> d.queue != [] || d.fedLineCount < c.fedLineCount)
  }

  /** The queue goes away and the fed prefix stays; a pump that is alive is asked to stop. */
  predicate LosesQueue(c: Call, d: Call) {
    && d.lost == c.lost + c.queue && d.queue == [] && d.fedLineCount == c.fedLineCount && d.fedPrefix == c.fedPrefix
    && d.pump == c.pump && (d.cancelRequested <==> c.cancelRequested || Alive(c.pump))
  }

  lemma ScanCodeLosesExactlyWhen(c: Call, code: string, parse: Parser)
    ensures var d := ScanCode(c, code, parse);
            if c.fedLineCount != 0 && !Matches(c, code) then LosesQueue(c, d) else KeepsStatements(c, d)
  {
    hide Join, Split, ClosedStatements, Slices, LastEnd, Ends, Take, Drop;
  }

  lemma DropKeepsStatements(c: Call)
    ensures KeepsStatements(c, DropQueued(c))
  {
    QueueHasLines(c.queue);
    hide Join, Split, Take, QueuedLines;
  }

  /** A scan of a call whose arguments have been added. */
  lemma ScanLosesExactlyWhen(c: Call, o: Oracle)
    ensures var read, d := Read(c, NoArgs, false, o), Scan(c, o);
            if read.Some? && ScanDiscards(c, read.value) then LosesQueue(c, d) else KeepsStatements(c, d)
  {
    hide Join, Split, Take, QueuedLines, ScanCode, DropQueued;
    DropKeepsStatements(c.(halted := true));
    if c.argsDict.None? {
      var charged := c.(scanWork := c.scanWork + |c.argsText|);
      var decoded := o.decode(c.argsText);
      if decoded.Some? && decoded.value.code.Code? {
        ScanCodeLosesExactlyWhen(charged, decoded.value.code.text, o.parse);
      }
    } else if c.argsDict.value.Code? {
      var code := c.argsDict.value.text;
      ScanCodeLosesExactlyWhen(c.(scanWork := c.scanWork + |code|), code, o.parse);
    }
  }

  /** Receiving discards when its guard holds; otherwise it adds the arguments, and says whether a scan follows. */
  lemma ReceiveLosesExactlyWhen(c: Call, args: Args, replaceDict: bool)
    ensures var (received, scan) := Receive(c, args, replaceDict);
            && (ReceiveDiscards(c, args, replaceDict) ==> LosesQueue(c, received) && !scan)
            && (!ReceiveDiscards(c, args, replaceDict) ==> KeepsStatements(c, received))
            && (scan <==> ScanFollows(c, args, replaceDict))
            && (scan ==> received == c.(argsText := TextAfter(c, args), argsDict := ObjectAfter(c, args, replaceDict)))
  {
    DropKeepsStatements(c.(halted := true));
    hide Join, Split, Take, QueuedLines, Continues, HasEscapedNewline, DropQueued;
  }

  /** A stream event takes the queue away exactly when a guard of a discarding branch holds. */
  lemma StreamLosesExactlyWhen(c: Call, args: Args, replaceDict: bool, o: Oracle)
    ensures var d := Stream(c, args, replaceDict, o);
            if Discards(c, args, replaceDict, o) then LosesQueue(c, d) else KeepsStatements(c, d)
    ensures c.halted ==> Stream(c, args, replaceDict, o).pump == c.pump
  {
    var (received, scan) := Receive(c, args, replaceDict);
    ReceiveLosesExactlyWhen(c, args, replaceDict);
    if scan {
      ScanLosesExactlyWhen(received, o);
      assert Read(received, NoArgs, false, o) == Read(c, args, replaceDict, o);
    }
    if c.halted {
      HaltedKeepsPump(c, args, replaceDict);
    }
    hide Receive, Scan, Join, Split, Take, Read, ReceiveDiscards, ScanFollows;
  }

  lemma HaltedKeepsPump(c: Call, args: Args, replaceDict: bool)
    requires c.halted
    ensures Receive(c, args, replaceDict).0.pump == c.pump && !Receive(c, args, replaceDict).1
  {
    hide Continues;
  }

  /** Only a discard of a queue or a cancellation that lands adds to what is lost. */
  lemma WhatAStepLoses(c: Call, e: Event, o: Oracle)
    requires Inv(c) && Enabled(c, e)
    ensures |Step(c, e, o).lost| >= |c.lost|
    ensures e.Arrive? ==> (Step(c, e, o).lost != c.lost <==> DiscardsQueue(c, e, o))
    ensures DiscardsQueue(c, e, o) ==> |Step(c, e, o).lost| > |c.lost|
    ensures !e.Arrive? && !e.CancellationLands? ==> Step(c, e, o).lost == c.lost
    ensures c.pump.Cancelled? || e.CancellationLands? ==> Step(c, e, o).pump.Cancelled?
  {
    hide Stream, Discards;
    if e.Arrive? {
      StreamLosesExactlyWhen(c, e.args, e.replaceDict, o);
    }
  }

  lemma {:induction false} LostOnlyByDiscard(first: Call, events: seq<Event>, last: Call, o: Oracle)
    requires Inv(first) && OracleContract(o) && Reaches(first, events, last, o) && !last.pump.Cancelled?
    ensures |last.lost| >= |first.lost|
    ensures !first.pump.Cancelled?
    ensures last.lost == first.lost <==> Lossless(first, events, last, o)
    decreases |events|
  {
    if events != [] {
      var next := Step(first, events[0], o);
      assert Reaches(first, [events[0]], next, o);
      ReachesKeepsInv(first, [events[0]], next, o);
      WhatAStepLoses(first, events[0], o);
      LostOnlyByDiscard(next, events[1..], last, o);
    }
  }

  /** The snippet runs exactly once, line for line, if and only if no discard met queued statements. */
  lemma ExactlyOnce(halted: bool, events: seq<Event>, last: Call, o: Oracle, code: string)
    requires OracleContract(o) && Reaches(NewCall(halted), events, last, o)
    requires !Alive(last.pump) && Dispatch(last, code).Ran?
    ensures LinesOf(last.fed) + Drop(Split(code), last.fedLineCount) == Split(code)
       <==> Lossless(NewCall(halted), events, last, o)
  {
    hide Join, Split, LinesOf, Reaches, Lossless;
    LinesAreConserved(halted, events, last, o, code);
    LinesOfGivesLines(last.lost);
    NewCallInv(halted);
    LostOnlyByDiscard(NewCall(halted), events, last, o);
    JoinBasics("");
    if last.lost != [] {
      assert |LinesOf(last.fed) + Drop(Split(code), last.fedLineCount)| < |Split(code)|;
    } else {
      assert LinesOf(last.fed) + LinesOf(last.lost) == LinesOf(last.fed);
    }
  }

  /** The same as text, when no discard met queued statements: the fed fragments and the tail, joined by newlines, are
      the submitted code, except when everything was already fed and the tail is an extra empty feed. */
  lemma FragmentsAndTailAreTheCode(halted: bool, events: seq<Event>, last: Call, o: Oracle, code: string)
    requires OracleContract(o) && Reaches(NewCall(halted), events, last, o)
    requires !Alive(last.pump) && Dispatch(last, code).Ran? && Lossless(NewCall(halted), events, last, o)
    ensures var tail := Dispatch(last, code).tail;
            && (Join(last.fed + [tail]) == code <==> last.fed == [] || last.fedLineCount < |Split(code)|)
            && (last.fedLineCount == |Split(code)| ==> Join(last.fed) == code && tail == "")
  {
    hide Join, Split, LinesOf, Reaches, Lossless;
    NewCallInv(halted);
    LostOnlyByDiscard(NewCall(halted), events, last, o);
    LinesAreConserved(halted, events, last, o, code);
    FragmentsJoin(last, code);
  }

  lemma FragmentsJoin(last: Call, code: string)
    requires Dispatch(last, code).Ran? && last.lost == []
    requires LinesOf(last.fed) + LinesOf(last.lost) + Drop(Split(code), last.fedLineCount) == Split(code)
    requires |LinesOf(last.fed)| + |LinesOf(last.lost)| == last.fedLineCount
    ensures var tail := Dispatch(last, code).tail;
            && (Join(last.fed + [tail]) == code <==> last.fed == [] || last.fedLineCount < |Split(code)|)
            && (last.fedLineCount == |Split(code)| ==> Join(last.fed) == code && tail == "")
  {
    hide Join, Split, LinesOf;
    var tail, rest := Dispatch(last, code).tail, Drop(Split(code), last.fedLineCount);
    JoinBasics(tail);
    JoinSplit(code);
    JoinLinesOf(last.fed);
    LinesOfGivesLines(last.fed);
    if last.fed == [] {
      assert last.fed + [tail] == [tail];
      assert LinesOf(last.fed) + rest == rest;
    } else {
      JoinConcat(last.fed, [tail]);
      if last.fedLineCount < |Split(code)| {
        JoinConcat(LinesOf(last.fed), rest);
        assert LinesOf(last.fed) + LinesOf(last.lost) == LinesOf(last.fed);
      } else {
        assert LinesOf(last.fed) + rest == LinesOf(last.fed);
      }
    }
  }

  // ---- the budgets -------------------------------------------------------------------------------------------------

  /** The characters a scan after this event would decode or parse; none when there is no code. */
  function ScanSize(c: Call, args: Args, replaceDict: bool): nat {
    var known := ObjectAfter(c, args, replaceDict);
    if known.None? then |TextAfter(c, args)| else if known.value.Code? then |known.value.text| else 0
  }

  predicate OverBudget(c: Call, args: Args, replaceDict: bool) {
    ScanFollows(c, args, replaceDict) && c.scanWork + ScanSize(c, args, replaceDict) > MAX_SCAN_WORK_CHARS
  }

  /** Text or code of a size that is not scanned at all. */
  predicate Oversized(c: Call, args: Args) {
    || (args.Text? && |c.argsText| + |args.delta| > MAX_SCAN_CHARS)
    || (args.Object? && args.code.Code? && |args.code.text| > MAX_SCAN_CHARS)
  }

  /** Each scan is charged what it reads, within the budget. Scanning stops for good exactly when an event discards, is
      oversized, or overdraws the budget. */
  lemma ScansAreCharged(c: Call, args: Args, replaceDict: bool, o: Oracle)
    requires c.scanWork <= MAX_SCAN_WORK_CHARS
    ensures var d := Stream(c, args, replaceDict, o);
            && d.scanWork == c.scanWork + (if ScanFollows(c, args, replaceDict) && !OverBudget(c, args, replaceDict)
                                           then ScanSize(c, args, replaceDict) else 0)
            && (d.halted <==> c.halted || Discards(c, args, replaceDict, o) || Oversized(c, args)
                              || OverBudget(c, args, replaceDict))
            && d.argsText == (if args.Text? && !c.halted && !Oversized(c, args) then c.argsText + args.delta
                              else c.argsText)
  {
    ReceiveLosesExactlyWhen(c, args, replaceDict);
    ReceiveHaltsExactlyWhen(c, args, replaceDict);
    var (received, scan) := Receive(c, args, replaceDict);
    if scan {
      ScanIsCharged(received, o);
      SameRead(c, args, replaceDict, o);
    }
    hide Receive, Scan, Join, Split, Take, Read, LosesQueue, KeepsStatements;
  }

  lemma ReceiveHaltsExactlyWhen(c: Call, args: Args, replaceDict: bool)
    ensures var d := Receive(c, args, replaceDict).0;
            && d.scanWork == c.scanWork
            && (d.halted <==> c.halted || ReceiveDiscards(c, args, replaceDict) || Oversized(c, args))
            && d.argsText == (if args.Text? && !c.halted && !Oversized(c, args) then c.argsText + args.delta
                              else c.argsText)
  {
    hide Join, Split, Take, QueuedLines, Continues, HasEscapedNewline;
  }

  lemma ScanIsCharged(c: Call, o: Oracle)
    requires !c.halted && c.scanWork <= MAX_SCAN_WORK_CHARS
    ensures var d, size, read := Scan(c, o), ScanSize(c, NoArgs, false), Read(c, NoArgs, false, o);
            var over := c.scanWork + size > MAX_SCAN_WORK_CHARS;
            && d.scanWork == c.scanWork + (if over then 0 else size)
            && (d.halted <==> over || (read.Some? && ScanDiscards(c, read.value)))
            && d.argsText == c.argsText
  {
    hide Join, Split, Take, Drop, QueuedLines, ClosedStatements, Slices, Ends, LastEnd;
  }

  /** In every run the text kept and the work of all scans together stay within their budgets. */
  lemma {:induction false} BudgetsAreKept(first: Call, events: seq<Event>, last: Call, o: Oracle)
    requires Reaches(first, events, last, o)
    requires first.scanWork <= MAX_SCAN_WORK_CHARS && |first.argsText| <= MAX_SCAN_CHARS
    ensures last.scanWork <= MAX_SCAN_WORK_CHARS && |last.argsText| <= MAX_SCAN_CHARS
    decreases |events|
  {
    if events != [] {
      var e := events[0];
      if e.Arrive? {
        ScansAreCharged(first, e.args, e.replaceDict, o);
      }
      hide Stream;
      BudgetsAreKept(Step(first, e, o), events[1..], last, o);
    }
  }

  // ---- what a scan queues ------------------------------------------------------------------------------------------

  /** The code a stream event scans: decoded within the budget, no restart, and beginning with the fed lines. */
  function ScannedCode(c: Call, args: Args, replaceDict: bool, o: Oracle): Option<string> {
    if !ScanFollows(c, args, replaceDict) then None
    else
      var read := Read(c, args, replaceDict, o);
      if read.None? || ScanDiscards(c, read.value) || !read.value.code.Code? then None
      else Some(read.value.code.text)
  }

  /** The parsed statements of the complete lines that have not been taken yet. */
  function Unfed(c: Call, code: string, parse: Parser): seq<Span> {
    CompleteStatements(parse, Join(Drop(Split(code), c.fedLineCount)))
  }

  /** Line `n` on: each settled statement becomes one fragment, holding the lines since the one before it. */
  ghost predicate Fragments(lines: seq<string>, n: int, body: seq<Span>, added: seq<string>) {
    && (forall i: nat :: i < |added| <==> Settled(body, i))
    && |added| <= |body|
    && forall i :: 0 <= i < |added| ==>
         var from, to := n + (if i == 0 then 0 else body[i - 1].last), n + body[i].last;
         0 <= from < to <= |lines| && added[i] == Join(lines[from..to])
  }

  /** The settled statements, and no others, join the queue; the lines they cover count as taken. */
  ghost predicate QueuesSettled(c: Call, d: Call, code: string, parse: Parser) {
    var lines, body := Split(code), Unfed(c, code, parse);
    && c.queue <= d.queue
    && var added := d.queue[|c.queue|..];
    && Fragments(lines, c.fedLineCount, body, added)
    && d.fedLineCount == c.fedLineCount + (if added == [] then 0 else body[|added| - 1].last)
    && d.fedPrefix == Join(Take(lines, d.fedLineCount))
    && (d.queue != [] ==> Alive(d.pump))
  }

  lemma {:induction false} SlicesAt(lines: seq<string>, from: int, ends: seq<int>)
    ensures |Slices(lines, from, ends)| == |ends|
    ensures forall i :: 0 <= i < |ends| ==>
              Slices(lines, from, ends)[i] == Join(Drop(Take(lines, ends[i]), if i == 0 then from else ends[i - 1]))
    decreases |ends|
  {
    hide Join, Take, Drop;
    if ends != [] {
      SlicesAt(lines, ends[0], ends[1..]);
    }
  }

  lemma SlicesAreFragments(lines: seq<string>, n: nat, body: seq<Span>, closed: seq<Span>)
    requires closed <= body && forall i: nat :: i < |closed| <==> Settled(body, i)
    requires RisingEnds(Ends(n, closed), n, |lines|)
    ensures Fragments(lines, n, body, Slices(lines, n, Ends(n, closed)))
  {
    hide Join, Settled, RisingEnds, Take, Drop, Slices, Ends;
    var added := Slices(lines, n, Ends(n, closed));
    SlicesAt(lines, n, Ends(n, closed));
    forall i | 0 <= i < |added|
      ensures var from, to := n + (if i == 0 then 0 else body[i - 1].last), n + body[i].last;
              0 <= from < to <= |lines| && added[i] == Join(lines[from..to])
    {
      SliceBounds(lines, n, body, closed, i);
    }
  }

  lemma SliceBounds(lines: seq<string>, n: nat, body: seq<Span>, closed: seq<Span>, i: nat)
    requires closed <= body && RisingEnds(Ends(n, closed), n, |lines|) && i < |closed|
    ensures var from, to := n + (if i == 0 then 0 else body[i - 1].last), n + body[i].last;
            && (if i == 0 then n else Ends(n, closed)[i - 1]) == from && Ends(n, closed)[i] == to
            && 0 <= from < to <= |lines| && Drop(Take(lines, to), from) == lines[from..to]
  {
    assert body[i] == closed[i] && (i > 0 ==> body[i - 1] == closed[i - 1]);
  }

  /** What a scan that passes the prefix test does, in terms of what is closed. */
  lemma ScanCodeQueues(c: Call, code: string, parse: Parser)
    requires c.fedLineCount != 0 ==> Matches(c, code)
    ensures var lines, n, d := Split(code), c.fedLineCount, ScanCode(c, code, parse);
            var ends := Ends(n, ClosedStatements(parse, Join(Drop(lines, n))));
            && d.queue == c.queue + Slices(lines, n, ends) && d.fedLineCount == LastEnd(n, ends)
            && d.fedPrefix == Join(Take(lines, d.fedLineCount)) && (d.queue != [] ==> Alive(d.pump))
  {
    hide Join, Split, Take, Drop, ClosedStatements, Slices, Ends, LastEnd;
  }

  lemma ScanCodeQueuesSettled(c: Call, code: string, parse: Parser)
    requires Inv(c) && !c.failed && ParserContract(parse) && Plain(code)
    requires c.fedLineCount != 0 ==> Matches(c, code)
    ensures QueuesSettled(c, ScanCode(c, code, parse), code, parse)
  {
    hide Join, Split, LinesOf, ClosedStatements, CompleteStatements, Settled, ParserContract, Inv, Take, Drop, Matches,
         ScanCode, RisingEnds, Fragments, Slices;
    var lines, n := Split(code), c.fedLineCount;
    TakenAreFirst(c, code);
    EndsAreBounded(code, n, parse);
    ScanCodeQueues(c, code, parse);
    var unfed := Join(Drop(lines, n));
    var closed := ClosedStatements(parse, unfed);
    ClosedStatementsExactly(parse, unfed);
    SlicesAreFragments(lines, n, Unfed(c, code, parse), closed);
    SlicesAt(lines, n, Ends(n, closed));
    var slices := Slices(lines, n, Ends(n, closed));
    assert (c.queue + slices)[|c.queue|..] == slices;
  }

  /** The prefix test passed, so as many lines as were taken are there. */
  lemma TakenAreFirst(c: Call, code: string)
    requires Inv(c) && !c.failed && (c.fedLineCount != 0 ==> Matches(c, code))
    ensures 0 <= c.fedLineCount <= |Split(code)|
  {
    hide Join, Split, LinesOf;
    LinesOfGivesLines(c.fed + InFlight(c) + c.lost + c.queue);
    SplitGivesLines(code);
    if c.fedLineCount != 0 {
      PrefixTestPassed(Taken(c), Split(code));
    }
  }

  lemma ReceiveAddsNothing(c: Call, args: Args, replaceDict: bool)
    ensures var d := Receive(c, args, replaceDict).0; d.queue == c.queue || d.queue == []
  {
    hide Join, Split, Take, Continues, HasEscapedNewline;
  }

  lemma SameFeed(c: Call, received: Call, d: Call, code: string, parse: Parser)
    requires received.queue == c.queue && received.fedLineCount == c.fedLineCount
    ensures QueuesSettled(received, d, code, parse) <==> QueuesSettled(c, d, code, parse)
  {
    hide Join, Split, Fragments, CompleteStatements;
  }

  lemma ScanQueuesSettled(c: Call, o: Oracle)
    requires Inv(c) && !c.halted && !c.failed && OracleContract(o)
    ensures var read, d := Read(c, NoArgs, false, o), Scan(c, o);
            if read.Some? && read.value.code.Code? && !ScanDiscards(c, read.value) then
              QueuesSettled(c, d, read.value.code.text, o.parse)
            else d.queue == c.queue || d.queue == []
  {
    hide Join, Split, Take, Drop, LinesOf, QueuedLines, QueuesSettled, ClosedStatements, Slices, Ends, LastEnd;
    if c.argsDict.None? {
      var charged := c.(scanWork := c.scanWork + |c.argsText|);
      var decoded := o.decode(c.argsText);
      if decoded.Some? && decoded.value.code.Code? && !ScanDiscards(c, decoded.value) {
        var code := decoded.value.code.text;
        ScanCodeQueuesSettled(charged, code, o.parse);
        SameFeed(c, charged, ScanCode(charged, code, o.parse), code, o.parse);
      }
    } else if c.argsDict.value.Code? && !ScanDiscards(c, Partial(c.argsDict.value, false)) {
      var code := c.argsDict.value.text;
      var charged := c.(scanWork := c.scanWork + |code|);
      ScanCodeQueuesSettled(charged, code, o.parse);
      SameFeed(c, charged, ScanCode(charged, code, o.parse), code, o.parse);
    }
  }

  /** In every run: a stream event that scans code queues one fragment for each statement that is followed by one on a
      later line, up to the first that is not, and no other event queues anything. */
  lemma OnlySettledStatementsAreQueued(
    halted: bool, events: seq<Event>, c: Call, args: Args, replaceDict: bool, o: Oracle)
    requires OracleContract(o) && Reaches(NewCall(halted), events, c, o) && PlainArgs(args) && !c.failed
    ensures var d, scanned := Stream(c, args, replaceDict, o), ScannedCode(c, args, replaceDict, o);
            if scanned.Some? then QueuesSettled(c, d, scanned.value, o.parse) else d.queue == c.queue || d.queue == []
  {
    NewCallInv(halted);
    ReachesKeepsInv(NewCall(halted), events, c, o);
    var (received, scan) := Receive(c, args, replaceDict);
    ReceiveKeepsInv(c, args, replaceDict);
    ReceiveLosesExactlyWhen(c, args, replaceDict);
    ReceiveAddsNothing(c, args, replaceDict);
    hide Receive, Scan, Join, Split, Take, ReceiveDiscards, ScanFollows, QueuesSettled, Inv, Reaches, LosesQueue,
         KeepsStatements, OracleContract;
    if scan {
      ScanQueuesSettled(received, o);
      SameRead(c, args, replaceDict, o);
      hide Read;
      var scanned := ScannedCode(c, args, replaceDict, o);
      if scanned.Some? {
        SameFeed(c, received, Scan(received, o), scanned.value, o.parse);
      }
    }
  }

  lemma SameRead(c: Call, args: Args, replaceDict: bool, o: Oracle)
    ensures var received := c.(argsText := TextAfter(c, args), argsDict := ObjectAfter(c, args, replaceDict));
            Read(received, NoArgs, false, o) == Read(c, args, replaceDict, o)
  {
  }

  /** Draining changes neither the fed prefix nor its length, so checking them before the drain is enough. */
  lemma DrainKeepsPrefix(c: Call, e: Event, o: Oracle, code: string)
    requires Enabled(c, e) && !e.Arrive?
    ensures Matches(Step(c, e, o), code) == Matches(c, code)
  {
  }

  const DEMO := "a\nb\nc\n"

  function DemoParser(): Parser {
    text => if text == DEMO then Some([Span(1, 1), Span(2, 2), Span(3, 3)]) else None
  }

  lemma DemoLines()
    ensures Split(DEMO) == ["a", "b", "c", ""] && Newlines(DEMO) == 3
    ensures Split("x") == ["x"]
  {
    hide Split;
    SplitLine("a");
    SplitLine("b");
    SplitLine("c");
    SplitLine("");
    SplitLine("x");
    SplitConcat("c", "");
    assert "c" + "\n" + "" == "c\n";
    SplitConcat("b", "c\n");
    assert "b" + "\n" + "c\n" == "b\nc\n";
    SplitConcat("a", "b\nc\n");
    assert "a" + "\n" + "b\nc\n" == DEMO;
    CountsLines(DEMO);
  }

  lemma DemoClosed()
    ensures ClosedStatements(DemoParser(), DEMO) == [Span(1, 1), Span(2, 2)]
  {
    assert LastNewline(DEMO) == 5 && DEMO[..6] == DEMO;
    var body := [Span(1, 1), Span(2, 2), Span(3, 3)];
    assert body[1..] == [Span(2, 2), Span(3, 3)] && body[1..][1..] == [Span(3, 3)];
    assert ClosedPrefix(body[1..]) == [Span(2, 2)];
  }

  lemma DemoSlices(lines: seq<string>)
    requires lines == ["a", "b", "c", ""]
    ensures Slices(lines, 0, [1, 2]) == ["a", "b"]
    ensures Join(Take(lines, 2)) == "a\nb" && Join(Drop(lines, 2)) == "c\n"
    ensures Join(Take(["x"], 2)) == "x"
  {
    assert Drop(Take(lines, 2), 1) == ["b"] && Drop(Take(lines, 1), 0) == ["a"];
    assert [1, 2][1..] == [2];
    assert Slices(lines, 1, [2]) == ["b"];
    assert Take(lines, 2) == ["a", "b"] && ["a", "b"][1..] == ["b"];
    assert Drop(lines, 2) == ["c", ""] && ["c", ""][1..] == [""];
  }

  lemma DemoScan(c: Call)
    requires c.fedLineCount == 0 && c.queue == [] && c.pump.NoPump?
    ensures ScanCode(c, DEMO, DemoParser()) ==
            c.(queue := ["a", "b"], fedLineCount := 2, fedPrefix := "a\nb", pump := Scheduled, cancelRequested := false)
  {
    hide Split, Join, ClosedStatements, Slices;
    DemoLines();
    DemoClosed();
    DemoSlices(Split(DEMO));
    JoinSplit(DEMO);
    assert Drop(Split(DEMO), 0) == Split(DEMO);
    assert Ends(0, ClosedStatements(DemoParser(), DEMO)) == [1, 2];
  }

  lemma DemoDivergence(c: Call)
    requires c.fedLineCount == 2 && c.fedPrefix == "a\nb"
    ensures ScanCode(c, "x", DemoParser()) == Discard(c.(halted := true))
  {
    DemoLines();
    DemoSlices(Split(DEMO));
    hide Split, Join, Slices, ClosedStatements;
  }

  lemma DemoContract(o: Oracle)
    requires o == Oracle(_ => None, DemoParser())
    ensures OracleContract(o)
  {
    DemoLines();
    hide Newlines, Split;
  }

  lemma DemoRun(o: Oracle) returns (events: seq<Event>, last: Call)
    requires o == Oracle(_ => None, DemoParser())
    ensures Reaches(NewCall(false), events, last, o) && last.pump.Finished? && !last.failed
    ensures last.fed == ["a"] && last.lost == ["b"] && last.fedLineCount == 2 && last.fedPrefix == "a\nb"
  {
    hide Reaches, ScanCode;
    var first := NewCall(false);
    var arrives, diverges := Arrive(Object(Code(DEMO), false), true), Arrive(Object(Code("x"), false), true);
    DemoScan(first.(argsDict := Some(Code(DEMO)), scanWork := |DEMO|));
    var scanned := Step(first, arrives, o);
    var feeding := Step(scanned, PumpStarts, o);
    DemoDivergence(feeding.(argsDict := Some(Code("x")), scanWork := feeding.scanWork + 1));
    var discarded := Step(feeding, diverges, o);
    last := Step(discarded, FeedEnds, o);
    events := [arrives] + ([PumpStarts] + ([diverges] + [FeedEnds]));
    FourSteps(first, arrives, PumpStarts, diverges, FeedEnds, o);
  }

  lemma FourSteps(first: Call, e0: Event, e1: Event, e2: Event, e3: Event, o: Oracle)
    requires Enabled(first, e0)
    requires var c1 := Step(first, e0, o); Enabled(c1, e1)
    requires var c2 := Step(Step(first, e0, o), e1, o); Enabled(c2, e2)
    requires var c3 := Step(Step(Step(first, e0, o), e1, o), e2, o); Enabled(c3, e3)
    ensures Reaches(first, [e0] + ([e1] + ([e2] + [e3])), Step(Step(Step(Step(first, e0, o), e1, o), e2, o), e3, o), o)
  {
    var c1 := Step(first, e0, o);
    var c2 := Step(c1, e1, o);
    var c3 := Step(c2, e2, o);
    var c4 := Step(c3, e3, o);
    hide Step;
    assert Reaches(c4, [], c4, o);
    assert Reaches(c3, [e3], c4, o);
    assert Reaches(c2, [e2] + [e3], c4, o);
    assert Reaches(c1, [e1] + ([e2] + [e3]), c4, o);
  }

  /** Without that condition the property is false: the arguments diverge and come back, a tool inside the
      first statement swallows the cancellation, and dispatch runs `c` although `b` never ran. */
  lemma DiscardCanSkipAStatement(o: Oracle)
    requires o == Oracle(_ => None, DemoParser())
    ensures OracleContract(o)
    ensures exists events, last :: Reaches(NewCall(false), events, last, o) && !Alive(last.pump)
              && last.fed == ["a"] && last.lost == ["b"] && Dispatch(last, DEMO) == Ran("c\n")
  {
    DemoContract(o);
    var events, last := DemoRun(o);
    DemoLines();
    DemoSlices(Split(DEMO));
    hide Split, Join, Reaches, OracleContract;
    assert Dispatch(last, DEMO) == Ran("c\n");
  }
}
