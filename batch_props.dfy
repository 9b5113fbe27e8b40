/** Properties of the batch loop `SimControl::simulate`, stated on the
    closed-form record BatchLog / BatchCode / BatchKernels that the method
    Control.SimControl.Simulate is proved to produce. Most are proved first
    on RunLog, the record of a run that reaches the loop. */
module BatchProps {
  import opened Signals
  import opened ControlSpec

  // ------------------------------------------------------ iterations started

  /** The numbers of the iterations a log shows starting, in order. */
  function StartedIterations(log: seq<Event>): seq<nat> {
    if log == [] then []
    else
      var last := log[|log| - 1];
      StartedIterations(log[..|log| - 1]) + (if last.Starting? then [last.i] else [])
  }

  lemma {:induction false} StartedIterationsAppend(a: seq<Event>, b: seq<Event>)
    ensures StartedIterations(a + b) == StartedIterations(a) + StartedIterations(b)
  {
    if b == [] {
      assert a + b == a;
    } else {
      var front := b[..|b| - 1];
      assert (a + b)[..|a + b| - 1] == a + front;
      StartedIterationsAppend(a, front);
    }
  }

  lemma StartedIterationsAppend3(a: seq<Event>, b: seq<Event>, c: seq<Event>)
    ensures StartedIterations(a + b + c) ==
            StartedIterations(a) + StartedIterations(b) + StartedIterations(c)
  {
    StartedIterationsAppend(a + b, c);
    StartedIterationsAppend(a, b);
  }

  /** Every Starting event of a log is listed by StartedIterations. */
  lemma {:induction false} StartedIterationsListsAll(log: seq<Event>, j: nat, n: nat)
    requires Starting(j, n) in log
    ensures j in StartedIterations(log)
  {
    if log[|log| - 1] != Starting(j, n) {
      var front := log[..|log| - 1];
      assert log == front + [log[|log| - 1]];
      StartedIterationsListsAll(front, j, n);
    }
  }

  lemma {:induction false} NoStartEvents(log: seq<Event>)
    requires forall m :: 0 <= m < |log| ==> !log[m].Starting?
    ensures StartedIterations(log) == []
  {
    if log != [] {
      NoStartEvents(log[..|log| - 1]);
    }
  }

  /** The sequence 1, 2, ..., k. */
  function UpTo(k: nat): (s: seq<nat>)
    ensures |s| == k
    ensures forall j :: 0 <= j < k ==> s[j] == j + 1
  {
    if k == 0 then [] else UpTo(k - 1) + [k]
  }

  /** A record whose only start event is its first starts that iteration only. */
  lemma {:induction false} StartsOnlyFirst(e: seq<Event>, i: nat, n: nat)
    requires |e| >= 1 && e[0] == Starting(i, n)
    requires forall m :: 1 <= m < |e| ==> !e[m].Starting?
    ensures StartedIterations(e) == [i]
  {
    if |e| == 1 {
      assert e[..0] == [];
    } else {
      StartsOnlyFirst(e[..|e| - 1], i, n);
    }
  }

  /** An iteration starts itself, once, as its first event. */
  lemma IterationStarts(i: nat, n: nat, o: IterOutcome)
    ensures StartedIterations(IterationEvents(i, n, o)) == [i]
  {
    StartsOnlyFirst(IterationEvents(i, n, o), i, n);
  }

  /** The iterations of the first k start in the order 1, 2, ..., k. */
  lemma {:induction false} IterationsStartInOrder(os: seq<IterOutcome>, n: nat, k: nat)
    requires k <= |os|
    ensures StartedIterations(IterationsLog(os, n, k)) == UpTo(k)
  {
    if k > 0 {
      IterationsStartInOrder(os, n, k - 1);
      StartedIterationsAppend(IterationsLog(os, n, k - 1), IterationEvents(k, n, os[k - 1]));
      IterationStarts(k, n, os[k - 1]);
    }
  }

  /** Starts 1..k of a middle part, then possibly k + 1, with nothing else
      started around them. */
  lemma StartsAround(a: seq<Event>, b: seq<Event>, c: seq<Event>, k: nat, last: bool)
    requires StartedIterations(a) == [] && StartedIterations(b) == UpTo(k)
    requires StartedIterations(c) == if last then [k + 1] else []
    ensures StartedIterations(a + b + c) == if last then UpTo(k + 1) else UpTo(k)
  {
    StartedIterationsAppend3(a, b, c);
    assert [] + UpTo(k) == UpTo(k);
    assert UpTo(k) + [] == UpTo(k);
  }

  /** Nothing starts before the loop. */
  lemma NoStartInHead(n: nat)
    ensures StartedIterations([IoInit, SetIterations(n)]) == []
  {
    NoStartEvents([IoInit, SetIterations(n)]);
  }

  /** Nothing starts after the loop. */
  lemma NoStartInNormalEnd()
    ensures StartedIterations(NormalEnd()) == []
  {
    NoStartEvents(NormalEnd());
  }

  /** The starts recorded by a run whose iteration f + 1 is the first fatal
      one: 1, ..., f + 1. */
  lemma FatalPiecesStart(os: seq<IterOutcome>)
    requires FirstFatal(os) < |os|
    ensures StartedIterations([IoInit, SetIterations(|os|)] + IterationsLog(os, |os|, FirstFatal(os)) +
                              IterationEvents(FirstFatal(os) + 1, |os|, os[FirstFatal(os)])) ==
            UpTo(FirstFatal(os) + 1)
  {
    var n := |os|;
    var f := FirstFatal(os);
    NoStartInHead(n);
    IterationsStartInOrder(os, n, f);
    IterationStarts(f + 1, n, os[f]);
    StartsAround([IoInit, SetIterations(n)], IterationsLog(os, n, f), IterationEvents(f + 1, n, os[f]), f, true);
  }

  lemma StartsOfFatalRun(os: seq<IterOutcome>)
    requires FirstFatal(os) < |os|
    ensures StartedIterations(RunLog(os)) == UpTo(FirstFatal(os) + 1)
  {
    FatalPiecesStart(os);
  }

  /** The starts recorded by a run in which no iteration is fatal: 1, ..., n. */
  lemma NormalPiecesStart(os: seq<IterOutcome>)
    requires FirstFatal(os) == |os|
    ensures StartedIterations([IoInit, SetIterations(|os|)] + IterationsLog(os, |os|, |os|) + NormalEnd()) ==
            UpTo(|os|)
  {
    var n := |os|;
    NoStartInHead(n);
    NoStartInNormalEnd();
    IterationsStartInOrder(os, n, n);
    StartsAround([IoInit, SetIterations(n)], IterationsLog(os, n, n), NormalEnd(), n, false);
  }

  lemma StartsOfNormalRun(os: seq<IterOutcome>)
    requires FirstFatal(os) == |os|
    ensures StartedIterations(RunLog(os)) == UpTo(|os|)
  {
    NormalPiecesStart(os);
  }

  /** The starts recorded by a run that reaches the loop. */
  lemma StartsOfRun(os: seq<IterOutcome>)
    ensures StartedIterations(RunLog(os)) == UpTo(Started(os))
  {
    if FirstFatal(os) < |os| {
      StartsOfFatalRun(os);
    } else {
      StartsOfNormalRun(os);
    }
  }

  // ------------------------------------------------ where an iteration's events are

  /** The events of the first j iterations begin those of the first k. */
  lemma {:induction false} IterationsLogPrefix(os: seq<IterOutcome>, n: nat, j: nat, k: nat)
    requires j <= k <= |os|
    ensures StartsWith(IterationsLog(os, n, k), IterationsLog(os, n, j))
  {
    if j == k {
      StartsWithSelf(IterationsLog(os, n, k));
    } else {
      IterationsLogPrefix(os, n, j, k - 1);
      StartsWithExtend(IterationsLog(os, n, k - 1), IterationsLog(os, n, j), IterationEvents(k, n, os[k - 1]));
    }
  }

  lemma NormalRunBegins(os: seq<IterOutcome>, i: nat)
    requires FirstFatal(os) == |os| && i <= |os|
    ensures StartsWith([IoInit, SetIterations(|os|)] + IterationsLog(os, |os|, |os|) + NormalEnd(),
                       [IoInit, SetIterations(|os|)] + IterationsLog(os, |os|, i))
  {
    IterationsLogPrefix(os, |os|, i, |os|);
    StartsWithInMiddle([IoInit, SetIterations(|os|)], IterationsLog(os, |os|, |os|), NormalEnd(),
                       IterationsLog(os, |os|, i));
  }

  lemma FatalRunBegins(os: seq<IterOutcome>, i: nat)
    requires FirstFatal(os) < |os| && i <= FirstFatal(os) + 1
    ensures StartsWith([IoInit, SetIterations(|os|)] + IterationsLog(os, |os|, FirstFatal(os)) +
                       IterationEvents(FirstFatal(os) + 1, |os|, os[FirstFatal(os)]),
                       [IoInit, SetIterations(|os|)] + IterationsLog(os, |os|, i))
  {
    var n := |os|;
    var f := FirstFatal(os);
    var head := [IoInit, SetIterations(n)];
    var last := IterationEvents(f + 1, n, os[f]);
    if i <= f {
      IterationsLogPrefix(os, n, i, f);
      StartsWithInMiddle(head, IterationsLog(os, n, f), last, IterationsLog(os, n, i));
    } else {
      assert i == f + 1;
      AppendAssoc(head, IterationsLog(os, n, f), last);
      StartsWithSelf(head + IterationsLog(os, n, i));
    }
  }

  /** The record of the loop begins with the two loop-entry events and the
      events of iterations 1..i, for every i up to the number that start. */
  lemma RunBegins(os: seq<IterOutcome>, i: nat)
    requires i <= Started(os)
    ensures StartsWith(RunLog(os), [IoInit, SetIterations(|os|)] + IterationsLog(os, |os|, i))
  {
    if FirstFatal(os) == |os| {
      NormalRunBegins(os, i);
    } else {
      FatalRunBegins(os, i);
    }
  }

  /** A record that begins with the loop entry and iterations 1..i holds
      iteration i's events where those of iterations 1..i-1 end. */
  lemma IterationAfterPrefix(log: seq<Event>, os: seq<IterOutcome>, i: nat)
    requires 1 <= i <= |os|
    requires StartsWith(log, [IoInit, SetIterations(|os|)] + IterationsLog(os, |os|, i))
    ensures BlockAt(log, 2 + |IterationsLog(os, |os|, i - 1)|, IterationEvents(i, |os|, os[i - 1]))
  {
    var head := [IoInit, SetIterations(|os|)];
    AppendAssoc(head, IterationsLog(os, |os|, i - 1), IterationEvents(i, |os|, os[i - 1]));
    BlockInPrefix(log, head + IterationsLog(os, |os|, i - 1), IterationEvents(i, |os|, os[i - 1]));
  }

  /** Iteration i's own events, for every i that starts, sit in the record of
      the loop at the place where those of iterations 1..i-1 end. */
  lemma IterationInRun(os: seq<IterOutcome>, i: nat)
    requires 1 <= i <= Started(os)
    ensures BlockAt(RunLog(os), 2 + |IterationsLog(os, |os|, i - 1)|, IterationEvents(i, |os|, os[i - 1]))
  {
    RunBegins(os, i);
    IterationAfterPrefix(RunLog(os), os, i);
  }

  // ---------------------------------------------------------------- io.close()

  /** Only a fatal iteration closes io. */
  lemma NoCloseInIteration(i: nat, n: nat, o: IterOutcome)
    requires !IsFatal(o)
    ensures Close !in IterationEvents(i, n, o)
  {
  }

  lemma {:induction false} NoCloseBeforeFatal(os: seq<IterOutcome>, n: nat, k: nat)
    requires k <= FirstFatal(os)
    ensures Close !in IterationsLog(os, n, k)
  {
    if k > 0 {
      NoCloseBeforeFatal(os, n, k - 1);
      var a := IterationsLog(os, n, k - 1);
      var e := IterationEvents(k, n, os[k - 1]);
      NoCloseInIteration(k, n, os[k - 1]);
      assert IterationsLog(os, n, k) == a + e;
      assert Close !in a + e;
    }
  }

  /** A fatal iteration's events end with the fatal message, io.summary()
      and Close. */
  lemma FatalIterationEnds(i: nat, n: nat, o: IterOutcome)
    requires IsFatal(o)
    ensures EndsWith(IterationEvents(i, n, o), [FatalError, Summary, Close])
  {
    var e := IterationEvents(i, n, o);
    assert e == [Starting(i, n), KernelBuilt(i)] + PhasesThrough(o.phase, i) + [FatalError, Summary, Close];
    EndsWithLast([Starting(i, n), KernelBuilt(i)] + PhasesThrough(o.phase, i), [FatalError, Summary, Close]);
  }

  /** A fatal iteration closes io once, as its last event. */
  lemma FatalIterationCloses(i: nat, n: nat, o: IterOutcome)
    requires IsFatal(o)
    ensures ClosesOnceAtEnd(IterationEvents(i, n, o))
  {
    var e := IterationEvents(i, n, o);
    var body := [Starting(i, n), KernelBuilt(i)] + PhasesThrough(o.phase, i) + [FatalError, Summary];
    assert e == body + [Close];
    assert e[..|e| - 1] == body;
  }

  lemma FatalRunEnds(os: seq<IterOutcome>)
    requires FirstFatal(os) < |os|
    ensures EndsWith(RunLog(os), [FatalError, Summary, Close])
  {
    var n := |os|;
    var f := FirstFatal(os);
    FatalIterationEnds(f + 1, n, os[f]);
    EndsWithTail([IoInit, SetIterations(n)] + IterationsLog(os, n, f), IterationEvents(f + 1, n, os[f]),
                 [FatalError, Summary, Close]);
  }

  /** The pieces of a run with a fatal iteration close io once, at the end. */
  lemma FatalPiecesClose(os: seq<IterOutcome>)
    requires FirstFatal(os) < |os|
    ensures ClosesOnceAtEnd([IoInit, SetIterations(|os|)] + IterationsLog(os, |os|, FirstFatal(os)) +
                            IterationEvents(FirstFatal(os) + 1, |os|, os[FirstFatal(os)]))
  {
    var n := |os|;
    var f := FirstFatal(os);
    FatalIterationCloses(f + 1, n, os[f]);
    NoCloseBeforeFatal(os, n, f);
    ClosesAfter([IoInit, SetIterations(n)], IterationsLog(os, n, f), IterationEvents(f + 1, n, os[f]));
  }

  lemma FatalRunClosesOnce(os: seq<IterOutcome>)
    requires FirstFatal(os) < |os|
    ensures ClosesOnceAtEnd(RunLog(os))
  {
    FatalPiecesClose(os);
  }

  lemma NormalRunEnds(os: seq<IterOutcome>)
    requires FirstFatal(os) == |os|
    ensures EndsWith(RunLog(os), NormalEnd())
  {
    EndsWithLast([IoInit, SetIterations(|os|)] + IterationsLog(os, |os|, |os|), NormalEnd());
  }

  lemma NormalRunClosesOnce(os: seq<IterOutcome>)
    requires FirstFatal(os) == |os|
    ensures ClosesOnceAtEnd(RunLog(os))
  {
    var n := |os|;
    NoCloseBeforeFatal(os, n, n);
    assert NormalEnd()[..3] == [SimDone, ErrorSummary, Bye];
    ClosesAfter([IoInit, SetIterations(n)], IterationsLog(os, n, n), NormalEnd());
  }

  // ------------------------------------------------------------ the properties

  /** Pre-loop failures: no input file, the configuration does not parse, or
      Sim rejects it. The run closes io and returns Exit; no kernel is built. */
  lemma PreLoopFailure(argc: int, parse: Check, init: Check, os: seq<IterOutcome>)
    requires PreLoopFails(argc, parse, init)
    ensures BatchCode(argc, parse, init, os) == Exit
    ensures BatchKernels(argc, parse, init, os) == 0
    ensures argc < 2 ==> BatchLog(argc, parse, init, os) == [IoInit, NoInputFile, Close]
    ensures argc >= 2 && parse.Fail? ==>
      BatchLog(argc, parse, init, os) == [IoInit, ErrorText(parse.err), InitFailed, Close]
    ensures argc >= 2 && parse.Ok? && init.Fail? ==>
      BatchLog(argc, parse, init, os) == [IoInit, ErrorText(init.err), InitFailed, Close]
  {
  }

  /** Once past the pre-loop checks, iteration i (for every i that starts)
      shows its own events, IterationEvents, as one contiguous block of the
      record, after the two events IoInit and SetIterations. */
  lemma IterationInBatchLog(argc: int, parse: Check, init: Check, os: seq<IterOutcome>, i: nat)
    requires !PreLoopFails(argc, parse, init)
    requires 1 <= i <= Started(os)
    ensures BlockAt(BatchLog(argc, parse, init, os), 2 + |IterationsLog(os, |os|, i - 1)|,
                    IterationEvents(i, |os|, os[i - 1]))
  {
    IterationInRun(os, i);
  }

  /** The iterations that start are 1, 2, ..., Started(os), in this order:
      all |os| granted ones when none is fatal, otherwise exactly those up to
      and including the first fatal one. */
  lemma IterationsRunInOrder(argc: int, parse: Check, init: Check, os: seq<IterOutcome>)
    requires !PreLoopFails(argc, parse, init)
    ensures StartedIterations(BatchLog(argc, parse, init, os)) == UpTo(Started(os))
    ensures FirstFatal(os) == |os| ==> Started(os) == |os|
    ensures FirstFatal(os) < |os| ==> Started(os) == FirstFatal(os) + 1
  {
    StartsOfRun(os);
  }

  /** The kernel's three phases and the "done" message of one iteration that
      throws nothing. */
  function CleanIteration(i: nat, n: nat): seq<Event> {
    [Starting(i, n), KernelBuilt(i), PhaseCall(Initialize, i), PhaseCall(Execute, i),
     PhaseCall(Finalize, i), IterationDone(i, n)]
  }

  lemma {:induction false} CleanIterationsLength(os: seq<IterOutcome>, n: nat, k: nat)
    requires k <= |os|
    requires forall j :: 0 <= j < |os| ==> os[j] == NoSignal
    ensures |IterationsLog(os, n, k)| == 6 * k
  {
    if k > 0 {
      CleanIterationsLength(os, n, k - 1);
    }
  }

  /** In a clean run, the block of iteration i starts at 6 * i - 4. */
  lemma CleanBlock(log: seq<Event>, os: seq<IterOutcome>, i: nat)
    requires forall j :: 0 <= j < |os| ==> os[j] == NoSignal
    requires 1 <= i <= |os|
    requires BlockAt(log, 2 + |IterationsLog(os, |os|, i - 1)|, IterationEvents(i, |os|, os[i - 1]))
    ensures BlockAt(log, 6 * i - 4, CleanIteration(i, |os|))
  {
    CleanIterationsLength(os, |os|, i - 1);
    assert IterationEvents(i, |os|, os[i - 1]) == CleanIteration(i, |os|);
  }

  lemma CleanIterationInRun(os: seq<IterOutcome>, i: nat)
    requires forall j :: 0 <= j < |os| ==> os[j] == NoSignal
    requires 1 <= i <= |os|
    ensures BlockAt(RunLog(os), 6 * i - 4, CleanIteration(i, |os|))
  {
    assert FirstFatal(os) == |os|;
    IterationInRun(os, i);
    CleanBlock(RunLog(os), os, i);
  }

  lemma CleanRunShape(os: seq<IterOutcome>)
    requires forall j :: 0 <= j < |os| ==> os[j] == NoSignal
    ensures |RunLog(os)| == 6 * |os| + 6
    ensures StartsWith(RunLog(os), [IoInit, SetIterations(|os|)])
    ensures EndsWith(RunLog(os), NormalEnd())
  {
    var n := |os|;
    assert FirstFatal(os) == n;
    CleanIterationsLength(os, n, n);
    NormalRunEnds(os);
    StartsWithItself([IoInit, SetIterations(n)], IterationsLog(os, n, n) + NormalEnd());
    AppendAssoc([IoInit, SetIterations(n)], IterationsLog(os, n, n), NormalEnd());
  }

  /** No phase of any iteration throws: each of the n granted iterations i
      logs its start, runs initialize, execute and finalize in this order and
      logs "i/n done!"; the run then logs the normal end and returns Success
      after building n kernels. */
  lemma CleanRun(argc: int, parse: Check, init: Check, os: seq<IterOutcome>)
    requires !PreLoopFails(argc, parse, init)
    requires forall j :: 0 <= j < |os| ==> os[j] == NoSignal
    ensures BatchCode(argc, parse, init, os) == Success
    ensures BatchKernels(argc, parse, init, os) == |os|
    ensures var log := BatchLog(argc, parse, init, os);
            |log| == 6 * |os| + 6 &&
            StartsWith(log, [IoInit, SetIterations(|os|)]) &&
            EndsWith(log, [SimDone, ErrorSummary, Bye, Close]) &&
            forall i :: 1 <= i <= |os| ==> BlockAt(log, 6 * i - 4, CleanIteration(i, |os|))
  {
    var n := |os|;
    assert FirstFatal(os) == n;
    AbortBeforeMeans(os, n);
    CleanRunShape(os);
    forall i | 1 <= i <= n ensures BlockAt(RunLog(os), 6 * i - 4, CleanIteration(i, n)) {
      CleanIterationInRun(os, i);
    }
  }

  /** When no iteration is fatal, every granted iteration runs, whatever
      Aborts occur, and the run ends normally; it returns Abort exactly when
      some iteration threw Abort, and Success otherwise. */
  lemma AbortRecovers(argc: int, parse: Check, init: Check, os: seq<IterOutcome>)
    requires !PreLoopFails(argc, parse, init)
    requires forall j :: 0 <= j < |os| ==> !IsFatal(os[j])
    ensures BatchKernels(argc, parse, init, os) == |os|
    ensures BatchCode(argc, parse, init, os) == Abort <==>
      exists j :: 0 <= j < |os| && os[j].Raise? && os[j].sig == Abort
    ensures BatchCode(argc, parse, init, os) == Success <==>
      forall j :: 0 <= j < |os| ==> os[j] == NoSignal
    ensures EndsWith(BatchLog(argc, parse, init, os), [SimDone, ErrorSummary, Bye, Close])
  {
    assert FirstFatal(os) == |os|;
    AbortBeforeMeans(os, |os|);
    NormalRunEnds(os);
    if !forall j :: 0 <= j < |os| ==> os[j] == NoSignal {
      var j :| 0 <= j < |os| && os[j] != NoSignal;
      assert IsAbort(os[j]);
    }
  }

  /** An Abort is never undone: an Abort result stays Abort whatever non-fatal
      iterations are appended. */
  lemma AbortNeverReset(argc: int, parse: Check, init: Check, os: seq<IterOutcome>, more: seq<IterOutcome>)
    requires BatchCode(argc, parse, init, os) == Abort
    requires forall j :: 0 <= j < |more| ==> !IsFatal(more[j])
    ensures BatchCode(argc, parse, init, os + more) == Abort
  {
    var all := os + more;
    assert FirstFatal(os) == |os|;
    AbortBeforeMeans(os, |os|);
    AbortBeforeMeans(all, |all|);
    var j :| 0 <= j < |os| && IsAbort(os[j]);
    assert all[j] == os[j];
    assert forall m :: 0 <= m < |all| ==> !IsFatal(all[m]) by {
      forall m | 0 <= m < |all| ensures !IsFatal(all[m]) {
        if m < |os| {
          assert all[m] == os[m];
        } else {
          assert all[m] == more[m - |os|];
        }
      }
    }
  }

  /** An iteration whose phase p throws Abort skips the phases after p and its
      "done" message, and logs the abort message instead. */
  lemma AbortedIteration(i: nat, n: nat, p: Phase)
    ensures var e := IterationEvents(i, n, Raise(p, Abort));
            e == [Starting(i, n), KernelBuilt(i)] + PhasesThrough(p, i) + [RunAborted] &&
            IterationDone(i, n) !in e && Close !in e &&
            (p != Finalize ==> PhaseCall(Finalize, i) !in e) &&
            (p == Initialize ==> PhaseCall(Execute, i) !in e)
  {
  }

  /** An iteration whose phase p throws a fatal signal skips the phases after
      p and its "done" message, and ends with the fatal message,
      io.summary() and io.close(). */
  lemma FatalIteration(i: nat, n: nat, p: Phase, s: SimSignal)
    requires s != Abort
    ensures var e := IterationEvents(i, n, Raise(p, s));
            e == [Starting(i, n), KernelBuilt(i)] + PhasesThrough(p, i) + [FatalError, Summary, Close] &&
            IterationDone(i, n) !in e && RunAborted !in e &&
            (p != Finalize ==> PhaseCall(Finalize, i) !in e) &&
            (p == Initialize ==> PhaseCall(Execute, i) !in e)
  {
  }

  /** A fatal signal (Exit, or any signal that is not Abort) in iteration
      f + 1 stops the run there: the phases after the one that threw and the
      "done" message of that iteration are skipped, the fatal message,
      io.summary() and io.close() are the last events, the result is Exit, f + 1 kernels were
      built and no later iteration starts. */
  lemma FatalStops(argc: int, parse: Check, init: Check, os: seq<IterOutcome>)
    requires !PreLoopFails(argc, parse, init)
    requires FirstFatal(os) < |os|
    ensures BatchCode(argc, parse, init, os) == Exit
    ensures BatchKernels(argc, parse, init, os) == FirstFatal(os) + 1
    ensures var log := BatchLog(argc, parse, init, os);
            EndsWith(log, [FatalError, Summary, Close]) &&
            forall j :: FirstFatal(os) + 1 < j ==> Starting(j, |os|) !in log
    ensures var f := FirstFatal(os);
            var e := IterationEvents(f + 1, |os|, os[f]);
            IterationDone(f + 1, |os|) !in e &&
            (os[f].phase != Finalize ==> PhaseCall(Finalize, f + 1) !in e) &&
            (os[f].phase == Initialize ==> PhaseCall(Execute, f + 1) !in e)
  {
    var f := FirstFatal(os);
    FatalIteration(f + 1, |os|, os[f].phase, os[f].sig);
    var log := RunLog(os);
    FatalRunEnds(os);
    StartsOfRun(os);
    forall j | FirstFatal(os) + 1 < j ensures Starting(j, |os|) !in log {
      if Starting(j, |os|) in log {
        StartedIterationsListsAll(log, j, |os|);
      }
    }
  }

  /** Every path of `simulate` calls io.close() exactly once, as its last
      action; a run that ends normally logs "Simulation done!", the error
      summary and "Bye!" just before. */
  lemma ClosedOnce(argc: int, parse: Check, init: Check, os: seq<IterOutcome>)
    ensures var log := BatchLog(argc, parse, init, os);
            ClosesOnceAtEnd(log)
    ensures !PreLoopFails(argc, parse, init) && FirstFatal(os) == |os| ==>
            EndsWith(BatchLog(argc, parse, init, os), [SimDone, ErrorSummary, Bye, Close])
  {
    var log := BatchLog(argc, parse, init, os);
    if PreLoopFails(argc, parse, init) {
      assert log[..|log| - 1] == [IoInit] + PreLoopEvents(argc, parse, init)[..|log| - 2];
    } else if FirstFatal(os) < |os| {
      FatalRunEnds(os);
      FatalRunClosesOnce(os);
    } else {
      NormalRunEnds(os);
      NormalRunClosesOnce(os);
    }
  }

  /** Three iterations, the second of which throws Abort from execute: the
      second logs the abort message instead of its "done", the third still
      runs, and the result is Abort. */
  lemma AbortInSecondOfThree(file: Check)
    requires file.Ok?
    ensures var os := [NoSignal, Raise(Execute, Abort), NoSignal];
            BatchLog(2, file, Ok, os) ==
              [IoInit, SetIterations(3)] +
              CleanIteration(1, 3) +
              [Starting(2, 3), KernelBuilt(2), PhaseCall(Initialize, 2), PhaseCall(Execute, 2), RunAborted] +
              CleanIteration(3, 3) +
              [SimDone, ErrorSummary, Bye, Close] &&
            BatchCode(2, file, Ok, os) == Abort
  {
    var os := [NoSignal, Raise(Execute, Abort), NoSignal];
    assert FirstFatalFrom(os, 3) == 3;
    assert FirstFatal(os) == 3;
    assert IsAbort(os[1]);
    var aborted := [Starting(2, 3), KernelBuilt(2), PhaseCall(Initialize, 2), PhaseCall(Execute, 2), RunAborted];
    var l1 := IterationsLog(os, 3, 1);
    var l2 := IterationsLog(os, 3, 2);
    var l3 := IterationsLog(os, 3, 3);
    assert l1 == CleanIteration(1, 3);
    assert l2 == l1 + aborted;
    assert l3 == l2 + CleanIteration(3, 3);
  }
}
