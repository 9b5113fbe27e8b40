/** Closed-form descriptions of what `SimControl::simulate` and
    `SimControl::simulate_online` do, given the collaborators' outcomes.
    The loops in module Control are proved to produce exactly these. */
module ControlSpec {
  import opened Signals

  /** io.close() is the last event of a log and occurs nowhere before it. */
  predicate ClosesOnceAtEnd(log: seq<Event>) {
    |log| > 0 && log[|log| - 1] == Close && Close !in log[..|log| - 1]
  }

  lemma AppendAssoc(a: seq<Event>, b: seq<Event>, c: seq<Event>)
    ensures (a + b) + c == a + (b + c)
  {
  }

  /** Two parts without Close followed by a part that closes io once, at its
      end, close io once, at the end. */
  lemma ClosesAfter(head: seq<Event>, mid: seq<Event>, rest: seq<Event>)
    requires Close !in head && Close !in mid && ClosesOnceAtEnd(rest)
    ensures ClosesOnceAtEnd(head + mid + rest)
  {
    assert (head + mid + rest)[..|head + mid + rest| - 1] == head + mid + rest[..|rest| - 1];
  }

  // ------------------------------------------------ where events are in a log

  /** The events e occur in log, contiguously, from position at. */
  predicate BlockAt(log: seq<Event>, at: nat, e: seq<Event>) {
    at + |e| <= |log| && log[at..at + |e|] == e
  }

  /** log begins with the events p. */
  predicate StartsWith(log: seq<Event>, p: seq<Event>) {
    |p| <= |log| && log[..|p|] == p
  }

  /** log ends with the events e. */
  predicate EndsWith(log: seq<Event>, e: seq<Event>) {
    |e| <= |log| && log[|log| - |e|..] == e
  }

  lemma StartsWithItself(a: seq<Event>, x: seq<Event>)
    ensures StartsWith(a + x, a)
  {
    assert (a + x)[..|a|] == a;
  }

  lemma StartsWithSelf(a: seq<Event>)
    ensures StartsWith(a, a)
  {
    assert a[..|a|] == a;
  }

  lemma StartsWithInMiddle(a: seq<Event>, l: seq<Event>, z: seq<Event>, p: seq<Event>)
    requires StartsWith(l, p)
    ensures StartsWith(a + l + z, a + p)
  {
    assert (a + l + z)[..|a + p|] == a + l[..|p|];
  }

  lemma StartsWithExtend(log: seq<Event>, p: seq<Event>, x: seq<Event>)
    requires StartsWith(log, p)
    ensures StartsWith(log + x, p)
  {
    assert (log + x)[..|p|] == log[..|p|];
  }

  lemma BlockInPrefix(log: seq<Event>, a: seq<Event>, e: seq<Event>)
    requires StartsWith(log, a + e)
    ensures BlockAt(log, |a|, e)
  {
    assert log[|a|..|a| + |e|] == (a + e)[|a|..];
  }

  lemma BlockInMiddle(a: seq<Event>, l: seq<Event>, z: seq<Event>, at: nat, e: seq<Event>)
    requires BlockAt(l, at, e)
    ensures BlockAt(a + l + z, |a| + at, e)
  {
    assert (a + l + z)[|a|..|a| + |l|] == l;
    assert (a + l + z)[|a| + at..|a| + at + |e|] == l[at..at + |e|];
  }

  lemma EndsWithLast(a: seq<Event>, e: seq<Event>)
    ensures EndsWith(a + e, e)
  {
    assert (a + e)[|a|..] == e;
  }

  lemma EndsWithTail(a: seq<Event>, b: seq<Event>, t: seq<Event>)
    requires EndsWith(b, t)
    ensures EndsWith(a + b, t)
  {
    assert (a + b)[|a + b| - |t|..] == b[|b| - |t|..];
  }

  // ---------------------------------------------------------------- batch mode

  /** A pre-loop failure: no input file, the configuration does not parse, or
      `sim.init` rejects it. */
  predicate PreLoopFails(argc: int, parse: Check, init: Check) {
    argc < 2 || parse.Fail? || init.Fail?
  }

  /** A signal the `catch` in `simulate` treats as fatal: everything but Abort
      (Exit and, through `default`, every other value, Success included). */
  predicate IsFatal(o: IterOutcome) {
    o.Raise? && o.sig != Abort
  }

  predicate IsAbort(o: IterOutcome) {
    o.Raise? && o.sig == Abort
  }

  /** The phase calls made in iteration i when phase `last` is the last one
      reached. */
  function PhasesThrough(last: Phase, i: nat): seq<Event> {
    match last
    case Initialize => [PhaseCall(Initialize, i)]
    case Execute => [PhaseCall(Initialize, i), PhaseCall(Execute, i)]
    case Finalize => [PhaseCall(Initialize, i), PhaseCall(Execute, i), PhaseCall(Finalize, i)]
  }

  /** The events of iteration i of n, up to and including the handler's
      reaction to a signal. */
  function IterationEvents(i: nat, n: nat, o: IterOutcome): seq<Event> {
    [Starting(i, n), KernelBuilt(i)] +
    match o
    case NoSignal => PhasesThrough(Finalize, i) + [IterationDone(i, n)]
    case Raise(p, s) =>
      PhasesThrough(p, i) + (if s == Abort then [RunAborted] else [FatalError, Summary, Close])
  }

  /** The index of the first outcome at or after k that is fatal, or |os| if
      none is. */
  function FirstFatalFrom(os: seq<IterOutcome>, k: nat): (f: nat)
    requires k <= |os|
    ensures k <= f <= |os|
    ensures forall j :: k <= j < f ==> !IsFatal(os[j])
    ensures f < |os| ==> IsFatal(os[f])
    decreases |os| - k
  {
    if k == |os| then |os|
    else if IsFatal(os[k]) then k
    else FirstFatalFrom(os, k + 1)
  }

  /** The index of the first outcome that is fatal, or |os| if none is. */
  function FirstFatal(os: seq<IterOutcome>): (f: nat)
    ensures f <= |os|
    ensures forall j :: 0 <= j < f ==> !IsFatal(os[j])
    ensures f < |os| ==> IsFatal(os[f])
  {
    FirstFatalFrom(os, 0)
  }

  /** How many iterations are started: all of them, unless one is fatal, in
      which case those up to and including the first fatal one. */
  function Started(os: seq<IterOutcome>): nat {
    if FirstFatal(os) < |os| then FirstFatal(os) + 1 else |os|
  }

  /** The events of the first k iterations of n. */
  function IterationsLog(os: seq<IterOutcome>, n: nat, k: nat): seq<Event>
    requires k <= |os|
  {
    if k == 0 then [] else IterationsLog(os, n, k - 1) + IterationEvents(k, n, os[k - 1])
  }

  /** A record that goes on with iteration k + 1 holds the first k + 1
      iterations. */
  lemma IterationsLogNext(prefix: seq<Event>, os: seq<IterOutcome>, n: nat, k: nat)
    requires k < |os|
    ensures prefix + IterationsLog(os, n, k) + IterationEvents(k + 1, n, os[k]) ==
            prefix + IterationsLog(os, n, k + 1)
  {
    AppendAssoc(prefix, IterationsLog(os, n, k), IterationEvents(k + 1, n, os[k]));
  }

  /** Some outcome among the first k is an Abort. */
  predicate AbortBefore(os: seq<IterOutcome>, k: nat)
    requires k <= |os|
  {
    k > 0 && (AbortBefore(os, k - 1) || IsAbort(os[k - 1]))
  }

  /** AbortBefore, outright: one of the first k outcomes is an Abort. */
  lemma {:induction false} AbortBeforeMeans(os: seq<IterOutcome>, k: nat)
    requires k <= |os|
    ensures AbortBefore(os, k) <==> exists j :: 0 <= j < k && IsAbort(os[j])
  {
    if k > 0 {
      AbortBeforeMeans(os, k - 1);
      if IsAbort(os[k - 1]) {
        assert 0 <= k - 1 < k && IsAbort(os[k - 1]);
      }
    }
  }

  /** The events of a pre-loop failure, after io.init. */
  function PreLoopEvents(argc: int, parse: Check, init: Check): seq<Event>
    requires PreLoopFails(argc, parse, init)
  {
    if argc < 2 then [NoInputFile, Close]
    else if parse.Fail? then [ErrorText(parse.err), InitFailed, Close]
    else [ErrorText(init.err), InitFailed, Close]
  }

  /** The events after the loop when no iteration is fatal. */
  function NormalEnd(): seq<Event> {
    [SimDone, ErrorSummary, Bye, Close]
  }

  /** The event record of a call of `simulate` that reaches the loop: the
      iterations before the first fatal one and that iteration, whose events
      end with io.close(); or, when none is fatal, all of them and the normal
      end. */
  function RunLog(os: seq<IterOutcome>): seq<Event> {
    var n := |os|;
    var f := FirstFatal(os);
    if f < n then [IoInit, SetIterations(n)] + IterationsLog(os, n, f) + IterationEvents(f + 1, n, os[f])
    else [IoInit, SetIterations(n)] + IterationsLog(os, n, n) + NormalEnd()
  }

  /** The full event record of one call of `simulate`. */
  function BatchLog(argc: int, parse: Check, init: Check, os: seq<IterOutcome>): seq<Event> {
    if PreLoopFails(argc, parse, init) then [IoInit] + PreLoopEvents(argc, parse, init)
    else RunLog(os)
  }

  /** The value `simulate` returns. */
  function BatchCode(argc: int, parse: Check, init: Check, os: seq<IterOutcome>): SimSignal {
    if PreLoopFails(argc, parse, init) || FirstFatal(os) < |os| then Exit
    else if AbortBefore(os, |os|) then Abort
    else Success
  }

  /** The number of kernels `simulate` constructs. */
  function BatchKernels(argc: int, parse: Check, init: Check, os: seq<IterOutcome>): nat {
    if PreLoopFails(argc, parse, init) then 0 else Started(os)
  }

  // ---------------------------------------------------------- interactive mode

  /** The signals whose handler assigns "q" to `cmd`. */
  predicate HandlerQuits(t: Token) {
    t.parse.Parsed? && t.parse.eval.Raised? && (t.parse.eval.sig == Abort || t.parse.eval.sig == Exit)
  }

  /** The index of the first quit token at or after k, or |ts| if there is
      none. */
  function FirstQuitFrom(ts: seq<Token>, k: nat): (q: nat)
    requires k <= |ts|
    ensures k <= q <= |ts|
    ensures forall j :: k <= j < q ==> !IsQuit(ts[j].cmd)
    ensures q < |ts| ==> IsQuit(ts[q].cmd)
    decreases |ts| - k
  {
    if k == |ts| then |ts|
    else if IsQuit(ts[k].cmd) then k
    else FirstQuitFrom(ts, k + 1)
  }

  /** The index of the first quit token, or |ts| if there is none: the number
      of tokens the loop processes. */
  function FirstQuit(ts: seq<Token>): (q: nat)
    ensures q <= |ts|
    ensures forall j :: 0 <= j < q ==> !IsQuit(ts[j].cmd)
    ensures q < |ts| ==> IsQuit(ts[q].cmd)
  {
    FirstQuitFrom(ts, 0)
  }

  /** The events of processing token t as input number `input`. */
  function TokenEvents(input: nat, t: Token): seq<Event> {
    match t.parse
    case Unparsable(e) => [CannotParse(t.cmd), ErrorText(e)]
    case Parsed(Value) => [Evaluate(input), ResultLine(input, true)]
    case Parsed(Raised(_)) => [Evaluate(input), EvalError, ResultLine(input, false)]
  }

  /** The events of processing the first k tokens. */
  function TokensLog(ts: seq<Token>, k: nat): seq<Event>
    requires k <= |ts|
  {
    if k == 0 then [] else TokensLog(ts, k - 1) + TokenEvents(k, ts[k - 1])
  }

  /** A record that goes on with token k + 1 holds the first k + 1 tokens. */
  lemma TokensLogNext(prefix: seq<Event>, ts: seq<Token>, k: nat)
    requires k < |ts|
    ensures prefix + TokensLog(ts, k) + TokenEvents(k + 1, ts[k]) == prefix + TokensLog(ts, k + 1)
  {
    AppendAssoc(prefix, TokensLog(ts, k), TokenEvents(k + 1, ts[k]));
  }

  /** A quit token read as token k, when none came before it, is the first. */
  lemma QuitFound(ts: seq<Token>, k: nat)
    requires 1 <= k <= |ts| && IsQuit(ts[k - 1].cmd) && k - 1 <= FirstQuit(ts)
    ensures FirstQuit(ts) == k - 1 && LoopEnds(ts)
  {
  }

  /** The loop ends by its own test: a quit token is read, or the input ends
      right after a token whose handler set `cmd` to "q" (the failed read
      leaves `cmd` as it was). When it does not hold the model stops at the
      end of input; the source re-processes `cmd`, which is not modelled. */
  predicate LoopEnds(ts: seq<Token>) {
    var q := FirstQuit(ts);
    q < |ts| || (q > 0 && HandlerQuits(ts[q - 1]))
  }

  /** The events after the interactive loop: "Bye!" and io.close() when it
      ends by its own test, nothing when the model stops at the end of
      input. */
  function OnlineEnd(ts: seq<Token>): seq<Event> {
    if LoopEnds(ts) then [Bye, Close] else []
  }

  /** The event record of a call of `simulate_online` whose `sim.init`
      succeeds. */
  function SessionLog(ts: seq<Token>): seq<Event> {
    [IoInit] + TokensLog(ts, FirstQuit(ts)) + OnlineEnd(ts)
  }

  /** The full event record of one call of `simulate_online`. */
  function OnlineLog(init: Check, ts: seq<Token>): seq<Event> {
    if init.Fail? then [IoInit, ErrorText(init.err), SimInitFailed, Close]
    else SessionLog(ts)
  }

  /** How `simulate_online` ends. */
  function OnlineFinish(init: Check, ts: seq<Token>): Finish {
    if init.Fail? then Returned(Sig(Exit))
    else if LoopEnds(ts) then Returned(Zero)
    else InputEnded
  }
}
