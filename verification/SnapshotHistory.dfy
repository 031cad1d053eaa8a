/** Recovering a run's message record from snapshots of its live history, each of which may have lost its oldest
    part to compaction. */
module SnapshotHistory {

  /** A message with its content hash; `summary` marks what compaction put in place of dropped messages. */
  datatype Message = Message(hash: string, summary: bool, body: string)

  function Hashes(ms: seq<Message>): (hs: seq<string>)
    ensures |hs| == |ms| && forall i :: 0 <= i < |ms| ==> hs[i] == ms[i].hash
  {
    seq(|ms|, i requires 0 <= i < |ms| => ms[i].hash)
  }

  function Kept(snapshot: seq<Message>): seq<Message> {
    if snapshot == [] then []
    else (if snapshot[0].summary then [] else [snapshot[0]]) + Kept(snapshot[1..])
  }

  /** How many of the first `i` messages are no summaries. */
  function Originals(snapshot: seq<Message>, i: nat): nat
    requires i <= |snapshot|
  {
    if i == 0 then 0 else Originals(snapshot, i - 1) + if snapshot[i - 1].summary then 0 else 1
  }

  /** What is kept of a snapshot are its messages that are no summaries, in order. */
  lemma {:induction false} KeptExactly(snapshot: seq<Message>)
    ensures |Kept(snapshot)| == Originals(snapshot, |snapshot|)
    ensures forall i :: 0 <= i < |snapshot| && !snapshot[i].summary ==>
              Originals(snapshot, i) < |Kept(snapshot)| && Kept(snapshot)[Originals(snapshot, i)] == snapshot[i]
  {
    if snapshot != [] {
      KeptExactly(snapshot[1..]);
      forall i | 0 <= i < |snapshot|
        ensures Originals(snapshot, i + 1) ==
                (if snapshot[0].summary then 0 else 1) + Originals(snapshot[1..], i)
      {
        OriginalsOfTail(snapshot, i);
      }
      forall i | 0 <= i < |snapshot| && !snapshot[i].summary
        ensures Originals(snapshot, i) < |Kept(snapshot)| && Kept(snapshot)[Originals(snapshot, i)] == snapshot[i]
      {
        if i > 0 {
          assert snapshot[1..][i - 1] == snapshot[i];
          assert Originals(snapshot, i - 1 + 1) ==
                 (if snapshot[0].summary then 0 else 1) + Originals(snapshot[1..], i - 1);
        }
      }
    }
  }

  lemma {:induction false} OriginalsOfTail(snapshot: seq<Message>, i: nat)
    requires i < |snapshot|
    ensures Originals(snapshot, i + 1) == (if snapshot[0].summary then 0 else 1) + Originals(snapshot[1..], i)
  {
    if i > 0 {
      OriginalsOfTail(snapshot, i - 1);
      assert snapshot[1..][i - 1] == snapshot[i];
    }
  }

  /** The last `k` of `history` are the first `k` of `snapshot`. */
  predicate Overlaps(history: seq<string>, snapshot: seq<string>, k: nat) {
    k <= |history| && k <= |snapshot| && history[|history| - k..] == snapshot[..k]
  }

  /** The greatest overlap of at most `k`. */
  function OverlapUpTo(history: seq<string>, snapshot: seq<string>, k: nat): (overlap: nat)
    requires k <= |history| && k <= |snapshot|
    ensures overlap <= k && Overlaps(history, snapshot, overlap)
    ensures forall j :: overlap < j <= k ==> !Overlaps(history, snapshot, j)
  {
    if Overlaps(history, snapshot, k) || k == 0 then k else OverlapUpTo(history, snapshot, k - 1)
  }

  function Shorter(history: seq<string>, snapshot: seq<string>): nat {
    if |history| < |snapshot| then |history| else |snapshot|
  }

  function LongestOverlap(history: seq<string>, snapshot: seq<string>): (overlap: nat)
    ensures Overlaps(history, snapshot, overlap)
    ensures forall j :: overlap < j ==> !Overlaps(history, snapshot, j)
  {
    OverlapUpTo(history, snapshot, Shorter(history, snapshot))
  }

  /** `_overlap_length`. */
  method OverlapLength(history: seq<string>, snapshot: seq<string>) returns (overlap: nat)
    ensures overlap == LongestOverlap(history, snapshot)
  {
    var length: nat := Shorter(history, snapshot);
    while length > 0
      invariant length <= |history| && length <= |snapshot|
      invariant LongestOverlap(history, snapshot) == OverlapUpTo(history, snapshot, length)
    {
      if history[|history| - length..] == snapshot[..length] {
        return length;
      }
      length := length - 1;
    }
    overlap := 0;
  }

  /** One snapshot's contribution. */
  function Extend(history: seq<Message>, snapshot: seq<Message>): seq<Message> {
    history + Kept(snapshot)[LongestOverlap(Hashes(history), Hashes(Kept(snapshot)))..]
  }

  function History(snapshots: seq<seq<Message>>): seq<Message> {
    if snapshots == [] then []
    else Extend(History(snapshots[..|snapshots| - 1]), snapshots[|snapshots| - 1])
  }

  method KeptOf(snapshot: seq<Message>) returns (messages: seq<Message>)
    ensures messages == Kept(snapshot)
  {
    messages := [];
    assert snapshot[0..] == snapshot;
    for i := 0 to |snapshot|
      invariant messages + Kept(snapshot[i..]) == Kept(snapshot)
    {
      assert snapshot[i..][1..] == snapshot[i + 1..];
      if !snapshot[i].summary {
        messages := messages + [snapshot[i]];
      }
    }
  }

  lemma NoHashes()
    ensures Hashes([]) == []
  {
  }

  lemma ExtendedHashes(history: seq<Message>, snapshot: seq<Message>)
    ensures var h, s := Hashes(history), Hashes(Kept(snapshot));
            Hashes(Extend(history, snapshot)) == h + s[LongestOverlap(h, s)..]
  {
    hide LongestOverlap, Kept;
  }

  /** `run_history`. */
  method RunHistory(snapshots: seq<seq<Message>>) returns (history: seq<Message>)
    ensures history == History(snapshots)
  {
    hide Hashes, Kept, LongestOverlap;
    history := [];
    var hashes: seq<string> := [];
    assert hashes == Hashes([]) by {
      NoHashes();
    }
    for i := 0 to |snapshots|
      invariant history == History(snapshots[..i]) && hashes == Hashes(history)
    {
      assert snapshots[..i + 1][..i] == snapshots[..i];
      var messages := KeptOf(snapshots[i]);
      var overlap := OverlapLength(hashes, Hashes(messages));
      ExtendedHashes(history, snapshots[i]);
      history := history + messages[overlap..];
      hashes := hashes + Hashes(messages)[overlap..];
    }
    assert snapshots[..|snapshots|] == snapshots;
  }

  // ---- what one snapshot adds -------------------------------------------------------------------------------------

  predicate IsSuffix(s: seq<string>, t: seq<string>) {
    |s| <= |t| && t[|t| - |s|..] == s
  }

  predicate IsPrefix<T(==)>(s: seq<T>, t: seq<T>) {
    |s| <= |t| && t[..|s|] == s
  }

  /** The history so far stays as it is, and the snapshot's messages stand, complete and in order, at its end. */
  lemma SnapshotIsABlock(history: seq<Message>, snapshot: seq<Message>)
    ensures IsPrefix(history, Extend(history, snapshot))
    ensures IsSuffix(Hashes(Kept(snapshot)), Hashes(Extend(history, snapshot)))
  {
    var h, s := Hashes(history), Hashes(Kept(snapshot));
    var k := LongestOverlap(h, s);
    ExtendedHashes(history, snapshot);
    hide Hashes, Kept, LongestOverlap;
    assert h == h[..|h| - k] + s[..k];
    assert h + s[k..] == h[..|h| - k] + s;
  }

  /** No shorter continuation of the history ends with the snapshot. */
  lemma FewestAppended(history: seq<Message>, snapshot: seq<Message>, extra: seq<string>)
    requires IsSuffix(Hashes(Kept(snapshot)), Hashes(history) + extra)
    ensures |Hashes(history) + extra| >= |Extend(history, snapshot)|
  {
    var h, s := Hashes(history), Hashes(Kept(snapshot));
    var k := LongestOverlap(h, s);
    if |extra| < |s| - k {
      var j := |s| - |extra|;
      var t := h + extra;
      assert t[|t| - |s|..] == h[|h| - j..] + extra;
      assert s[..j] == h[|h| - j..];
      assert Overlaps(h, s, j);
    }
  }

  /** In the recovered history every snapshot appears as one contiguous block. */
  lemma {:induction false} EverySnapshotIsABlock(snapshots: seq<seq<Message>>, i: nat)
    requires i < |snapshots|
    ensures exists p: nat :: BlockAt(Hashes(History(snapshots)), Hashes(Kept(snapshots[i])), p)
  {
    hide Kept, Extend, Hashes, BlockAt, IsPrefix, IsSuffix;
    var n := |snapshots| - 1;
    var before, last := History(snapshots[..n]), snapshots[n];
    var s := Hashes(Kept(snapshots[i]));
    SnapshotIsABlock(before, last);
    assert History(snapshots) == Extend(before, last);
    if i < n {
      EverySnapshotIsABlock(snapshots[..n], i);
      assert snapshots[..n][i] == snapshots[i];
      var p: nat :| BlockAt(Hashes(before), s, p);
      BlockInPrefix(before, Extend(before, last), s, p);
    } else {
      SuffixIsABlock(s, Hashes(Extend(before, last)));
    }
  }

  /** The hashes `s` stand at position `p` of `h`. */
  predicate BlockAt(h: seq<string>, s: seq<string>, p: nat) {
    p + |s| <= |h| && h[p..p + |s|] == s
  }

  lemma SuffixIsABlock(s: seq<string>, h: seq<string>)
    requires IsSuffix(s, h)
    ensures exists p: nat :: BlockAt(h, s, p)
  {
    assert BlockAt(h, s, |h| - |s|);
  }

  lemma BlockInPrefix(a: seq<Message>, b: seq<Message>, s: seq<string>, p: nat)
    requires IsPrefix(a, b) && BlockAt(Hashes(a), s, p)
    ensures BlockAt(Hashes(b), s, p)
  {
    assert forall i :: 0 <= i < |a| ==> b[..|a|][i] == a[i];
    assert forall i :: 0 <= i < |a| ==> Hashes(b)[i] == Hashes(a)[i];
  }

  // ---- windows of one record --------------------------------------------------------------------------------------

  /** A snapshot that kept the messages `from..to` of the record. */
  datatype Window = Window(from: nat, to: nat)

  /** Snapshot `i` is a window that starts no later than the windows before it end, and ends no earlier. */
  ghost predicate WindowAt(record: seq<Message>, windows: seq<Window>, snapshots: seq<seq<Message>>, i: nat)
    requires i < |windows| && i < |snapshots|
  {
    && windows[i].from <= Reached(windows, i) <= windows[i].to <= |record|
    && Kept(snapshots[i]) == record[windows[i].from..windows[i].to]
  }

  /** The snapshots are windows that move forward over the record without gaps, from its start. */
  ghost predicate Windows(record: seq<Message>, windows: seq<Window>, snapshots: seq<seq<Message>>) {
    |windows| == |snapshots| && forall i: nat :: i < |windows| ==> WindowAt(record, windows, snapshots, i)
  }

  /** Where the windows before `i` end. */
  function Reached(windows: seq<Window>, i: nat): nat
    requires i <= |windows|
  {
    if i == 0 then 0 else windows[i - 1].to
  }

  ghost predicate Distinct(record: seq<Message>) {
    forall i, j :: 0 <= i < j < |record| ==> record[i].hash != record[j].hash
  }

  /** The messages two consecutive windows really share are an overlap, and with distinct messages the only one. */
  lemma TrueOverlap(record: seq<Message>, from: nat, reached: nat, to: nat)
    requires from <= reached <= to <= |record|
    ensures var h, s := Hashes(record[..reached]), Hashes(record[from..to]);
            && Overlaps(h, s, reached - from)
            && (Distinct(record) ==> LongestOverlap(h, s) == reached - from)
  {
    var h, s := Hashes(record[..reached]), Hashes(record[from..to]);
    var k := LongestOverlap(h, s);
    SharedIsAnOverlap(record, from, reached, to);
    if Distinct(record) && k > 0 {
      OnlyOverlap(record, from, reached, to, k);
    }
  }

  lemma SharedIsAnOverlap(record: seq<Message>, from: nat, reached: nat, to: nat)
    requires from <= reached <= to <= |record|
    ensures Overlaps(Hashes(record[..reached]), Hashes(record[from..to]), reached - from)
  {
    var h, s, k := Hashes(record[..reached]), Hashes(record[from..to]), reached - from;
    assert forall i :: 0 <= i < k ==> h[|h| - k..][i] == record[from + i].hash == s[..k][i];
  }

  lemma OnlyOverlap(record: seq<Message>, from: nat, reached: nat, to: nat, k: nat)
    requires from <= reached <= to <= |record| && Distinct(record) && k > 0
    requires Overlaps(Hashes(record[..reached]), Hashes(record[from..to]), k)
    ensures k == reached - from
  {
    var h, s := Hashes(record[..reached]), Hashes(record[from..to]);
    assert h[|h| - k..][k - 1] == s[..k][k - 1];
    assert record[reached - 1].hash == record[from + k - 1].hash;
  }

  /** The `k` messages just before `reached`, more of them than the two windows share, come again at the start of
      the new window: what is new in the record looks like what is known. */
  ghost predicate RepeatsBy(record: seq<Message>, from: nat, reached: nat, to: nat, k: nat)
    requires from <= reached <= to <= |record|
  {
    && reached - from < k <= reached && k <= to - from
    && Hashes(record)[reached - k..reached] == Hashes(record)[from..from + k]
  }

  ghost predicate Repeats(record: seq<Message>, from: nat, reached: nat, to: nat)
    requires from <= reached <= to <= |record|
  {
    exists k: nat :: RepeatsBy(record, from, reached, to, k)
  }

  lemma OverlapIsRepetition(record: seq<Message>, from: nat, reached: nat, to: nat, k: nat)
    requires from <= reached <= to <= |record| && k > reached - from
    ensures Overlaps(Hashes(record[..reached]), Hashes(record[from..to]), k)
        <==> RepeatsBy(record, from, reached, to, k)
  {
    var h, s, all := Hashes(record[..reached]), Hashes(record[from..to]), Hashes(record);
    assert h == all[..reached] && s == all[from..to];
    if k <= reached && k <= to - from {
      assert h[|h| - k..] == all[reached - k..reached] && s[..k] == all[from..from + k];
    }
  }

  /** On a history recovered so far, the longest overlap is the true one exactly when nothing repeats. */
  lemma LongestIsTrueUnlessRepeated(record: seq<Message>, from: nat, reached: nat, to: nat)
    requires from <= reached <= to <= |record|
    ensures LongestOverlap(Hashes(record[..reached]), Hashes(record[from..to])) == reached - from <==>
            !Repeats(record, from, reached, to)
    ensures LongestOverlap(Hashes(record[..reached]), Hashes(record[from..to])) >= reached - from
  {
    hide Hashes, RepeatsBy, LongestOverlap, Overlaps;
    SharedIsAnOverlap(record, from, reached, to);
    var longest := LongestOverlap(Hashes(record[..reached]), Hashes(record[from..to]));
    if longest > reached - from {
      OverlapIsRepetition(record, from, reached, to, longest);
    } else {
      forall k: nat | k > reached - from ensures !RepeatsBy(record, from, reached, to, k) {
        OverlapIsRepetition(record, from, reached, to, k);
      }
      assert forall k: nat :: RepeatsBy(record, from, reached, to, k) ==> k > reached - from by {
        RepeatsByMore(record, from, reached, to);
      }
    }
  }

  lemma RepeatsByMore(record: seq<Message>, from: nat, reached: nat, to: nat)
    requires from <= reached <= to <= |record|
    ensures forall k: nat :: RepeatsBy(record, from, reached, to, k) ==> k > reached - from
  {
  }

  /** A step on a history recovered so far recovers the record up to its window's end exactly when nothing
      repeats; otherwise the result is too short. */
  lemma StepRecoversExactlyWhen(record: seq<Message>, from: nat, reached: nat, to: nat, snapshot: seq<Message>)
    requires from <= reached <= to <= |record| && Kept(snapshot) == record[from..to]
    ensures Extend(record[..reached], snapshot) == record[..to] <==> !Repeats(record, from, reached, to)
    ensures Repeats(record, from, reached, to) ==> |Extend(record[..reached], snapshot)| < to
  {
    var k := LongestOverlap(Hashes(record[..reached]), Hashes(record[from..to]));
    LongestIsTrueUnlessRepeated(record, from, reached, to);
    hide Repeats, LongestOverlap;
    assert |Extend(record[..reached], snapshot)| == reached + (to - from) - k;
    if k == reached - from {
      assert record[from..to][k..] == record[reached..to];
    }
  }

  /** What is known of the history when the windows up to one ending at `to` have been added: it is no longer than
      the record so far, and ends with the last window. */
  ghost predicate EndsWith(history: seq<Message>, record: seq<Message>, from: nat, to: nat)
    requires from <= to <= |record|
  {
    |history| <= to && IsSuffix(Hashes(record[from..to]), Hashes(history))
  }

  /** The part of a new window that the last one holds too stands at the end of the history. */
  lemma SharedStandsAtTheEnd(
    record: seq<Message>, history: seq<Message>, last: nat, reached: nat, from: nat, to: nat)
    requires last <= from <= reached <= to <= |record| && EndsWith(history, record, last, reached)
    ensures Overlaps(Hashes(history), Hashes(record[from..to]), reached - from)
  {
    var h, s, k := Hashes(history), Hashes(record[from..to]), reached - from;
    SuffixOfSuffix(h, Hashes(record[last..reached]), k);
    assert forall i :: 0 <= i < k ==> Hashes(record[last..reached])[from - last..][i] == s[..k][i];
  }

  /** So a step never wins back a message that was lost. */
  lemma LossStays(
    record: seq<Message>, history: seq<Message>, last: nat, reached: nat, from: nat, to: nat, snapshot: seq<Message>)
    requires last <= from <= reached <= to <= |record| && Kept(snapshot) == record[from..to]
    requires EndsWith(history, record, last, reached)
    ensures |Extend(history, snapshot)| - to <= |history| - reached
    ensures EndsWith(Extend(history, snapshot), record, from, to)
  {
    SnapshotIsABlock(history, snapshot);
    SharedStandsAtTheEnd(record, history, last, reached, from, to);
    hide Overlaps, IsSuffix, Kept;
  }

  lemma SuffixOfSuffix(h: seq<string>, s: seq<string>, k: nat)
    requires IsSuffix(s, h) && k <= |s|
    ensures h[|h| - k..] == s[|s| - k..]
  {
    assert h[|h| - |s|..][|s| - k..] == h[|h| - k..];
  }

  /** No window starts before an earlier one. */
  ghost predicate Forward(windows: seq<Window>) {
    forall i, j :: 0 <= i < j < |windows| ==> windows[i].from <= windows[j].from
  }

  ghost predicate RepeatsAt(record: seq<Message>, windows: seq<Window>, i: nat)
    requires i < |windows| && windows[i].from <= Reached(windows, i) <= windows[i].to <= |record|
  {
    Repeats(record, windows[i].from, Reached(windows, i), windows[i].to)
  }

  ghost predicate NothingRepeats(record: seq<Message>, windows: seq<Window>, snapshots: seq<seq<Message>>)
    requires Windows(record, windows, snapshots)
  {
    forall i: nat :: i < |windows| ==> WindowAt(record, windows, snapshots, i) && !RepeatsAt(record, windows, i)
  }

  lemma WindowOfPrefix(record: seq<Message>, windows: seq<Window>, snapshots: seq<seq<Message>>, n: nat, i: nat)
    requires i < n <= |windows| && |windows| == |snapshots| && WindowAt(record, windows, snapshots, i)
    ensures WindowAt(record, windows[..n], snapshots[..n], i)
    ensures RepeatsAt(record, windows[..n], i) <==> RepeatsAt(record, windows, i)
  {
    assert Reached(windows[..n], i) == Reached(windows, i);
  }

  lemma WindowsOfPrefix(record: seq<Message>, windows: seq<Window>, snapshots: seq<seq<Message>>)
    requires Windows(record, windows, snapshots) && windows != []
    ensures var n := |windows| - 1;
            && Windows(record, windows[..n], snapshots[..n])
            && Reached(windows[..n], n) == Reached(windows, n)
            && WindowAt(record, windows, snapshots, n)
            && (NothingRepeats(record, windows, snapshots) <==>
                  NothingRepeats(record, windows[..n], snapshots[..n]) && !RepeatsAt(record, windows, n))
  {
    var n := |windows| - 1;
    forall i: nat | i < n
      ensures WindowAt(record, windows[..n], snapshots[..n], i)
      ensures RepeatsAt(record, windows[..n], i) <==> RepeatsAt(record, windows, i)
    {
      WindowOfPrefix(record, windows, snapshots, n, i);
    }
    hide Repeats, Kept;
  }

  /** Where the last window starts. */
  function LastFrom(windows: seq<Window>): nat {
    if windows == [] then 0 else windows[|windows| - 1].from
  }

  lemma ForwardPrefix(windows: seq<Window>)
    requires Forward(windows) && windows != []
    ensures Forward(windows[..|windows| - 1])
    ensures LastFrom(windows[..|windows| - 1]) <= LastFrom(windows)
  {
  }

  lemma LastWindow(record: seq<Message>, windows: seq<Window>, snapshots: seq<seq<Message>>)
    requires Windows(record, windows, snapshots)
    ensures LastFrom(windows) <= Reached(windows, |windows|) <= |record|
    ensures windows != [] ==> WindowAt(record, windows, snapshots, |windows| - 1)
  {
    hide Kept;
    if windows != [] {
      assert WindowAt(record, windows, snapshots, |windows| - 1);
    }
  }

  lemma LastSnapshot(snapshots: seq<seq<Message>>)
    requires snapshots != []
    ensures History(snapshots) == Extend(History(snapshots[..|snapshots| - 1]), snapshots[|snapshots| - 1])
  {
  }

  lemma NothingYet(record: seq<Message>)
    ensures EndsWith([], record, 0, 0)
  {
  }

  /** The last step, with what is known before it. */
  lemma {:induction false} LastStepLoses(
    record: seq<Message>, windows: seq<Window>, snapshots: seq<seq<Message>>)
    requires Windows(record, windows, snapshots) && Forward(windows)
    requires LastFrom(windows) <= Reached(windows, |windows|) <= |record|
    ensures EndsWith(History(snapshots), record, LastFrom(windows), Reached(windows, |windows|))
    ensures windows != [] ==>
              var n := |windows| - 1;
              |History(snapshots)| - windows[n].to <= |History(snapshots[..n])| - Reached(windows, n)
    decreases |windows|
  {
    if windows == [] {
      NothingYet(record);
    } else {
      var n := |windows| - 1;
      WindowsOfPrefix(record, windows, snapshots);
      ForwardPrefix(windows);
      LastWindow(record, windows, snapshots);
      LastWindow(record, windows[..n], snapshots[..n]);
      LastSnapshot(snapshots);
      hide EndsWith, Extend, Kept, Windows, Forward, History, NothingRepeats, Repeats;
      LastStepLoses(record, windows[..n], snapshots[..n]);
      LossStays(record, History(snapshots[..n]), LastFrom(windows[..n]), Reached(windows, n),
                windows[n].from, windows[n].to, snapshots[n]);
    }
  }

  lemma PrefixOfRecord(history: seq<Message>, snapshot: seq<Message>, record: seq<Message>, to: nat)
    requires to <= |record| && Extend(history, snapshot) == record[..to] && |history| <= to
    ensures history == record[..|history|]
  {
    SnapshotIsABlock(history, snapshot);
    hide Extend;
    assert record[..to][..|history|] == record[..|history|];
  }

  /** One more step: exact up to its end exactly when exact before and not repeating. */
  lemma OneMoreStep(
    record: seq<Message>, history: seq<Message>, snapshot: seq<Message>, from: nat, reached: nat, to: nat)
    requires from <= reached <= to <= |record| && Kept(snapshot) == record[from..to]
    requires |history| <= reached && |Extend(history, snapshot)| - to <= |history| - reached
    ensures Extend(history, snapshot) == record[..to] <==>
            history == record[..reached] && !Repeats(record, from, reached, to)
  {
    hide Extend, Repeats, Kept;
    if history == record[..reached] {
      StepRecoversExactlyWhen(record, from, reached, to, snapshot);
    }
    if Extend(history, snapshot) == record[..to] {
      PrefixOfRecord(history, snapshot, record, to);
    }
  }

  lemma NoLongerThanTheRecord(record: seq<Message>, windows: seq<Window>, snapshots: seq<seq<Message>>)
    requires Windows(record, windows, snapshots) && Forward(windows)
    ensures |History(snapshots)| <= Reached(windows, |windows|) <= |record|
  {
    LastWindow(record, windows, snapshots);
    hide History, Windows, Forward;
    LastStepLoses(record, windows, snapshots);
  }

  /** `OneMoreStep` for the last window. */
  lemma LastWindowExactlyWhen(record: seq<Message>, windows: seq<Window>, snapshots: seq<seq<Message>>)
    requires Windows(record, windows, snapshots) && Forward(windows) && windows != []
    ensures var n := |windows| - 1;
            && Reached(windows, n) <= windows[n].to <= |record| && windows[n].from <= Reached(windows, n)
            && (History(snapshots) == record[..windows[n].to] <==>
                  History(snapshots[..n]) == record[..Reached(windows, n)] && !RepeatsAt(record, windows, n))
  {
    var n := |windows| - 1;
    LastWindow(record, windows, snapshots);
    LastStepLoses(record, windows, snapshots);
    WindowsOfPrefix(record, windows, snapshots);
    ForwardPrefix(windows);
    LastSnapshot(snapshots);
    hide Windows, Forward, Repeats, Extend, NothingRepeats, Kept, History, EndsWith, LastFrom;
    NoLongerThanTheRecord(record, windows[..n], snapshots[..n]);
    OneMoreStep(record, History(snapshots[..n]), snapshots[n],
                windows[n].from, Reached(windows, n), windows[n].to);
  }

  /** Over windows that only move forward, with messages that may repeat in any way: the recovered history is never
      longer than the record, and is the record exactly when no window starts with a repetition of what stands
      just before its new part. A message that was lost is never won back. */
  lemma {:induction false} RecordIsRecoveredExactlyWhen(
    record: seq<Message>, windows: seq<Window>, snapshots: seq<seq<Message>>)
    requires Windows(record, windows, snapshots) && Forward(windows)
    ensures |History(snapshots)| <= Reached(windows, |windows|) <= |record|
    ensures History(snapshots) == record[..Reached(windows, |windows|)] <==> NothingRepeats(record, windows, snapshots)
    decreases |windows|
  {
    NoLongerThanTheRecord(record, windows, snapshots);
    if windows != [] {
      var n := |windows| - 1;
      WindowsOfPrefix(record, windows, snapshots);
      ForwardPrefix(windows);
      LastWindowExactlyWhen(record, windows, snapshots);
      hide Windows, Forward, RepeatsAt, NothingRepeats, History, LastFrom;
      RecordIsRecoveredExactlyWhen(record, windows[..n], snapshots[..n]);
    }
  }

  /** From distinct messages the record is recovered exactly, however much of it each snapshot had lost, and even
      from windows that grow backwards. */
  lemma {:induction false} DistinctRecordIsRecovered(
    record: seq<Message>, windows: seq<Window>, snapshots: seq<seq<Message>>)
    requires Distinct(record) && Windows(record, windows, snapshots)
    ensures Reached(windows, |windows|) <= |record|
    ensures History(snapshots) == record[..Reached(windows, |windows|)]
    decreases |windows|
  {
    LastWindow(record, windows, snapshots);
    if windows != [] {
      var n := |windows| - 1;
      WindowsOfPrefix(record, windows, snapshots);
      LastSnapshot(snapshots);
      DistinctRecordIsRecovered(record, windows[..n], snapshots[..n]);
      hide Windows, Repeats, Extend, NothingRepeats, Kept, History, LongestOverlap, Distinct;
      TrueOverlap(record, windows[n].from, Reached(windows, n), windows[n].to);
      LongestIsTrueUnlessRepeated(record, windows[n].from, Reached(windows, n), windows[n].to);
      StepRecoversExactlyWhen(record, windows[n].from, Reached(windows, n), windows[n].to, snapshots[n]);
    }
  }

  lemma KeptAll(a: Message, x: Message)
    requires !a.summary && !x.summary
    ensures Kept([x]) == [x] && Kept([a, x]) == [a, x]
  {
    assert [a, x][1..] == [x] && [x][1..] == [];
  }

  lemma HistoryOfTwo(a: seq<Message>, b: seq<Message>)
    ensures History([a, b]) == Extend(Extend([], a), b)
  {
    hide Extend;
    var snapshots := [a, b];
    assert snapshots[..1] == [a] && [a][..0] == [];
    assert History([a]) == Extend([], a);
  }

  /** With repeated messages a repetition can pass for an overlap, and one of the two is lost. */
  lemma RepetitionIsLost(a: Message, x: Message)
    requires !a.summary && !x.summary && a.hash != x.hash
    ensures var record := [a, x, x];
            && Windows(record, [Window(0, 2), Window(2, 3)], [[a, x], [x]])
            && History([[a, x], [x]]) == [a, x] != record
  {
    hide History, Extend, Kept;
    KeptAll(a, x);
    TwoWindows(a, x);
    HistoryOfTwo([a, x], [x]);
    FirstExtension([a, x]);
    RepeatedExtension(a, x);
  }

  lemma TwoWindows(a: Message, x: Message)
    requires Kept([a, x]) == [a, x] && Kept([x]) == [x]
    ensures Windows([a, x, x], [Window(0, 2), Window(2, 3)], [[a, x], [x]])
  {
    var record := [a, x, x];
    assert record[0..2] == [a, x] && record[2..3] == [x];
  }

  lemma FirstExtension(snapshot: seq<Message>)
    requires Kept(snapshot) == snapshot
    ensures Extend([], snapshot) == snapshot
  {
  }

  lemma RepeatedExtension(a: Message, x: Message)
    requires Kept([x]) == [x]
    ensures Extend([a, x], [x]) == [a, x]
  {
    var h, s := Hashes([a, x]), Hashes([x]);
    assert h[1..] == s[..1];
    assert Overlaps(h, s, 1);
    assert LongestOverlap(h, s) == 1;
  }

  lemma HistoryOfThree(a: seq<Message>, b: seq<Message>, c: seq<Message>)
    ensures History([a, b, c]) == Extend(History([a, b]), c)
  {
    hide Extend;
    assert [a, b, c][..2] == [a, b];
  }

  lemma WholeExtension(a: Message, x: Message)
    requires Kept([a, x, x]) == [a, x, x]
    ensures Extend([a, x], [a, x, x]) == [a, x, x]
  {
    var h, s := Hashes([a, x]), Hashes([a, x, x]);
    assert h[0..] == s[..2];
    assert Overlaps(h, s, 2);
    assert LongestOverlap(h, s) == 2;
  }

  /** A window that reaches back behind a loss can make up for it: what was lost comes with it. */
  lemma BackwardWindowMakesUp(a: Message, x: Message)
    requires !a.summary && !x.summary && a.hash != x.hash
    ensures var record, windows := [a, x, x], [Window(0, 2), Window(2, 3), Window(0, 3)];
            && Windows(record, windows, [[a, x], [x], record]) && !Forward(windows)
            && RepeatsAt(record, windows, 1) && History([[a, x], [x], record]) == record
  {
    ThreeWindows(a, x);
    hide Windows, History, Extend, Kept, RepeatsAt;
    RepetitionIsLost(a, x);
    HistoryOfThree([a, x], [x], [a, x, x]);
    KeptWhole(a, x);
    WholeExtension(a, x);
  }

  lemma KeptWhole(a: Message, x: Message)
    requires !a.summary && !x.summary
    ensures Kept([a, x, x]) == [a, x, x]
  {
    KeptAll(x, x);
    assert [a, x, x][1..] == [x, x];
  }

  lemma ThreeWindows(a: Message, x: Message)
    requires !a.summary && !x.summary
    ensures var record, windows := [a, x, x], [Window(0, 2), Window(2, 3), Window(0, 3)];
            Windows(record, windows, [[a, x], [x], record]) && !Forward(windows) && RepeatsAt(record, windows, 1)
  {
    var record, windows := [a, x, x], [Window(0, 2), Window(2, 3), Window(0, 3)];
    KeptAll(a, x);
    KeptWhole(a, x);
    hide Kept;
    assert record[0..2] == [a, x] && record[2..3] == [x] && record[0..3] == record;
    assert windows[2].from < windows[1].from;
    assert Hashes(record)[1..2] == Hashes(record)[2..3];
    assert RepeatsBy(record, 2, 2, 3, 1);
  }
}
