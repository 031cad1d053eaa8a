/** The mutable call object the stream and the dispatch share, as the coordinator updates it in place.
    Every method is proved against the step functions of `EagerExecution`. */
module StreamedCodeCalls {
  import opened Lines
  import opened Streaming
  import opened Options
  import opened EagerExecution

  lemma SliceStep(lines: seq<string>, from: int, ends: seq<int>, i: nat)
    requires i < |ends|
    ensures Slices(lines, from, ends[i..]) ==
            [Join(Drop(Take(lines, ends[i]), from))] + Slices(lines, ends[i], ends[i + 1..])
    ensures LastEnd(from, ends[i..]) == LastEnd(ends[i], ends[i + 1..])
  {
    hide Join, Take, Drop;
    assert ends[i..] == [ends[i]] + ends[i + 1..];
  }

  lemma SlicesEnd(lines: seq<string>, from: int)
    ensures Slices(lines, from, []) == [] && LastEnd(from, []) == from
  {
  }

  ghost predicate Reachable(c: Call, o: Oracle) {
    exists halted, events :: Reaches(NewCall(halted), events, c, o)
  }

  lemma StaysReachable(c: Call, e: Event, o: Oracle)
    requires Reachable(c, o) && Enabled(c, e)
    ensures Reachable(Step(c, e, o), o)
  {
    var halted, events :| Reaches(NewCall(halted), events, c, o);
    ReachesOneMore(NewCall(halted), events, c, e, o);
  }

  class StreamedCodeCall {
    var argsText: string
    var argsDict: Option<Field>
    var halted: bool
    var scanWork: nat
    var fedLineCount: int
    var fedPrefix: string
    var queue: seq<string>
    var pump: Pump
    var cancelRequested: bool
    var failed: bool
    ghost var fed: seq<string>
    ghost var lost: seq<string>

    ghost function View(): Call
      reads this
    {
      Call(argsText, argsDict, halted, scanWork, fedLineCount, fedPrefix, queue, pump, cancelRequested, failed, fed,
          lost)
    }

    /** Some run of stream events and pump steps leads here. */
    ghost predicate Reached(o: Oracle)
      reads this
    {
      Reachable(View(), o)
    }

    constructor (halted: bool)
      ensures View() == NewCall(halted) && forall o :: Reached(o)
    {
      this.argsText, this.argsDict, this.halted, this.scanWork := "", None, halted, 0;
      this.fedLineCount, this.fedPrefix, this.queue := 0, "", [];
      this.pump, this.cancelRequested, this.failed := NoPump, false, false;
      this.fed, this.lost := [], [];
      new;
      forall o ensures Reached(o) {
        assert Reaches(NewCall(halted), [], View(), o);
      }
    }

    /** One stream event: the arguments are added, and scanned when that is worthwhile. */
    method Observe(args: Args, replaceDict: bool, o: Oracle)
      requires Reached(o) && PlainArgs(args)
      modifies this
      ensures View() == Stream(old(View()), args, replaceDict, o) && Reached(o)
    {
      StaysReachable(View(), Arrive(args, replaceDict), o);
      hide Receive, EagerExecution.Scan, Reachable;
      var scan := ReceiveArgs(args, replaceDict);
      if scan {
        Scan(o);
      }
    }

    method DropQueued()
      modifies this`fedLineCount, this`fedPrefix, this`queue
      ensures View() == EagerExecution.DropQueued(old(View()))
    {
      if queue == [] {
        return;
      }
      var queuedLines, i := 0, 0;
      while i < |queue|
        invariant 0 <= i <= |queue|
        invariant queuedLines + QueuedLines(queue[i..]) == QueuedLines(queue)
      {
        queuedLines := queuedLines + Newlines(queue[i]) + 1;
        i := i + 1;
      }
      fedLineCount := fedLineCount - queuedLines;
      fedPrefix := Join(Take(Split(fedPrefix), fedLineCount));
      queue := [];
    }

    method Discard()
      modifies this`queue, this`lost, this`cancelRequested
      ensures View() == EagerExecution.Discard(old(View()))
    {
      lost := lost + queue;
      queue := [];
      cancelRequested := cancelRequested || Alive(pump);
    }

    method ReceiveArgs(args: Args, replaceDict: bool) returns (scan: bool)
      modifies this
      ensures (View(), scan) == Receive(old(View()), args, replaceDict)
    {
      scan := false;
      if halted {
        if args.Object? {
          var invalid := args.code.NotText? || (args.code.Code? && !Continues(args.code.text, fedPrefix));
          if args.restart || (fedPrefix != "" && (invalid || (replaceDict && !args.code.Code?))) {
            Discard();
          }
        }
        return;
      }
      match args
      case NoArgs =>
      case Text(delta) =>
        if |delta| > MAX_SCAN_CHARS - |argsText| {
          halted := true;
          DropQueued();
        } else {
          argsText := argsText + delta;
          scan := HasEscapedNewline(delta);
        }
      case Object(code, restart) =>
        if restart {
          halted := true;
          Discard();
        } else if code.Code? && |code.text| > MAX_SCAN_CHARS {
          halted := true;
          if fedPrefix != "" && !Continues(code.text, fedPrefix) {
            Discard();
          }
        } else if replaceDict && fedPrefix != "" && !code.Code? {
          halted := true;
          Discard();
        } else {
          if replaceDict || code.Code? {
            argsDict := Some(if code.Code? then code else Absent);
          } else if argsDict.None? {
            argsDict := Some(Absent);
          }
          scan := true;
        }
    }

    method Scan(o: Oracle)
      modifies this
      ensures View() == EagerExecution.Scan(old(View()), o)
    {
      hide ScanCode, EagerExecution.DropQueued;
      var code;
      if argsDict.None? {
        if |argsText| > MAX_SCAN_WORK_CHARS - scanWork {
          halted := true;
          DropQueued();
          return;
        }
        scanWork := scanWork + |argsText|;
        var args := o.decode(argsText);
        if args.None? {
          return;
        }
        if args.value.restart {
          halted := true;
          Discard();
          return;
        }
        code := args.value.code;
      } else {
        code := argsDict.value;
      }
      if !code.Code? {
        return;
      }
      if argsDict.Some? {
        if |code.text| > MAX_SCAN_WORK_CHARS - scanWork {
          halted := true;
          DropQueued();
          return;
        }
        scanWork := scanWork + |code.text|;
      }
      QueueClosed(code.text, o.parse);
    }

    method QueueSlices(lines: seq<string>, closed: seq<Span>)
      modifies this`queue, this`fedLineCount
      ensures var ends := Ends(old(fedLineCount), closed);
              && queue == old(queue) + Slices(lines, old(fedLineCount), ends)
              && fedLineCount == LastEnd(old(fedLineCount), ends)
    {
      hide Slices, LastEnd, Join, Take, Drop;
      var scanStart := fedLineCount;
      ghost var ends := Ends(scanStart, closed);
      var i := 0;
      assert ends[0..] == ends;
      while i < |closed|
        invariant 0 <= i <= |closed|
        invariant LastEnd(fedLineCount, ends[i..]) == LastEnd(scanStart, ends)
        invariant queue + Slices(lines, fedLineCount, ends[i..]) == old(queue) + Slices(lines, scanStart, ends)
      {
        SliceStep(lines, fedLineCount, ends, i);
        var end := scanStart + closed[i].last;
        queue := queue + [Join(Drop(Take(lines, end), fedLineCount))];
        fedLineCount := end;
        i := i + 1;
      }
      assert ends[|closed|..] == [];
      SlicesEnd(lines, fedLineCount);
    }

    method QueueClosed(code: string, parse: Parser)
      modifies this
      ensures View() == ScanCode(old(View()), code, parse)
    {
      hide Split, Join, ClosedStatements, Slices, LastEnd, Take, Drop;
      var lines := Split(code);
      if fedLineCount != 0 && Join(Take(lines, fedLineCount)) != fedPrefix {
        halted := true;
        Discard();
        return;
      }
      var scanStart := fedLineCount;
      var closed := CollectClosed(parse, Join(Drop(lines, fedLineCount)));
      QueueSlices(lines, closed);
      fedPrefix := Join(Take(lines, fedLineCount));
      if queue != [] && !Alive(pump) {
        pump := Scheduled;
        cancelRequested := false;
      }
    }

    /** The pump's next turn; `succeeded` says how the fragment it was feeding ended. */
    method PumpTurn(succeeded: bool, ghost o: Oracle)
      requires (pump.Scheduled? && !cancelRequested) || pump.Feeding?
      requires Reached(o)
      modifies this
      ensures old(pump).Scheduled? ==> View() == NextFragment(old(View()))
      ensures old(pump).Feeding? ==> View() == if succeeded then FeedSucceeds(old(View())) else FeedFails(old(View()))
      ensures Reached(o)
    {
      StaysReachable(View(), if pump.Scheduled? then PumpStarts else if succeeded then FeedEnds else FeedRaises, o);
      hide Reachable;
      if pump.Feeding? {
        if succeeded {
          fed := fed + [pump.source];
        } else {
          failed := true;
          queue := [];
        }
      }
      if queue != [] && !failed {
        pump := Feeding(queue[0]);
        queue := queue[1..];
      } else {
        pump := Finished;
      }
    }

    /** A requested cancellation lands. */
    method PumpCancelled(ghost o: Oracle)
      requires cancelRequested && Alive(pump) && Reached(o)
      modifies this
      ensures View() == CancelLands(old(View())) && Reached(o)
    {
      StaysReachable(View(), CancellationLands, o);
      hide Reachable;
      lost := (if pump.Feeding? then [pump.source] else []) + lost;
      pump := Cancelled;
    }

    /** Dispatch of the submitted code, up to the drain of the pump: a restart runs all of it anew, and code that no
        longer begins with the fed lines is sent back. Otherwise the pump is drained first. */
    method CallTool(code: string, restart: bool) returns (outcome: Option<Outcome>)
      modifies this
      ensures outcome == if restart then Some(Fresh(code))
                         else if !Matches(old(View()), code) then Some(Restarted)
                         else None
      ensures View() == if outcome.Some? then EagerExecution.Discard(old(View())) else old(View())
    {
      if restart {
        Discard();
        return Some(Fresh(code));
      }
      var lines := Split(code);
      if Join(Take(lines, fedLineCount)) != fedPrefix {
        Discard();
        return Some(Restarted);
      }
      outcome := None;
    }

    /** Dispatch after the drain, which has not changed the prefix. Whatever the run was, the lines the sandbox ran,
        those lost to a discard, and the tail are the submitted lines. */
    method FeedTail(code: string, ghost o: Oracle) returns (outcome: Outcome)
      requires !Alive(pump) && Matches(View(), code)
      ensures outcome == Dispatch(View(), code)
      ensures Reached(o) && OracleContract(o) && outcome.Ran? ==>
                LinesOf(fed) + LinesOf(lost) + Drop(Split(code), fedLineCount) == Split(code)
    {
      if pump.Cancelled? {
        return Interrupted;
      }
      if failed {
        return Raised;
      }
      if Reached(o) && OracleContract(o) {
        var halted, events :| Reaches(NewCall(halted), events, View(), o);
        LinesAreConserved(halted, events, View(), o, code);
      }
      return Ran(Join(Drop(Split(code), fedLineCount)));
    }
  }
}
