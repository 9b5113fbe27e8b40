/** SimControl: the batch iteration loop and the interactive command loop.
    The collaborators (SimIOManager, Sim, ExprParser, KernelT) are replaced by
    their outcomes, passed in as arguments; what the controller does with them
    is recorded in `log`. */
module Control {
  import opened Signals
  import opened ControlSpec

  class SimControl {
    /** Everything the controller has done to io, Sim and the kernels. */
    var log: seq<Event>
    /** io.close() has been called since the last io.init(). */
    var closed: bool
    /** Kernels constructed over the object's life. */
    var kernels: nat
    /** sim.iteration(): the iterations granted so far by next_iteration(). */
    var iteration: nat
    /** The worst recoverable signal seen by `Simulate`. */
    var reterr: SimSignal
    /** The interactive input counter `in`. */
    var input: nat
    /** The local `err`: the error text last left by a collaborator. */
    var err: string

    constructor ()
      ensures log == [] && !closed && kernels == 0 && iteration == 0
      ensures reterr == Success && input == 0 && err == ""
    {
      log, closed, kernels, iteration := [], false, 0, 0;
      reterr, input, err := Success, 0, "";
    }

    /** io.init(...) followed by sim.init_io(&io). */
    method OpenIo()
      modifies this
      ensures log == old(log) + [IoInit] && !closed
      ensures kernels == old(kernels) && iteration == old(iteration)
      ensures reterr == old(reterr) && input == old(input) && err == old(err)
    {
      log := log + [IoInit];
      closed := false;
    }

    /** io.close(). */
    method CloseIo()
      modifies this
      ensures log == old(log) + [Close] && closed
      ensures kernels == old(kernels) && iteration == old(iteration)
      ensures reterr == old(reterr) && input == old(input) && err == old(err)
    {
      log := log + [Close];
      closed := true;
    }

    /** Calls phase p of iteration i's kernel; `thrown` tells whether it threw
        (the signal thrown is o.sig). */
    method CallPhase(p: Phase, i: nat, o: IterOutcome) returns (thrown: bool)
      modifies this`log
      ensures log == old(log) + [PhaseCall(p, i)]
      ensures thrown <==> o.Raise? && o.phase == p
    {
      log := log + [PhaseCall(p, i)];
      thrown := o.Raise? && o.phase == p;
    }

    /** `simulate(argc, argv)`: `parse` and `init` are the outcomes of
        `parser.parse_file(argv[1], err)` and `sim.init(parser.result, err)`,
        and `outcomes[i - 1]` is what the kernel of iteration i does; Sim grants
        |outcomes| iterations. */
    method Simulate(argc: int, parse: Check, init: Check, outcomes: seq<IterOutcome>)
      returns (code: SimSignal)
      modifies this
      ensures log == old(log) + BatchLog(argc, parse, init, outcomes)
      ensures code == BatchCode(argc, parse, init, outcomes)
      ensures kernels == old(kernels) + BatchKernels(argc, parse, init, outcomes)
      ensures closed
      ensures !PreLoopFails(argc, parse, init) ==>
        iteration == Started(outcomes) &&
        reterr == (if AbortBefore(outcomes, FirstFatal(outcomes)) then Abort else Success)
      ensures !PreLoopFails(argc, parse, init) && FirstFatal(outcomes) == |outcomes| ==>
        code == reterr
      ensures PreLoopFails(argc, parse, init) ==> iteration == old(iteration) && reterr == old(reterr)
      ensures argc < 2 ==> err == old(err)
      ensures argc >= 2 && parse.Fail? ==> err == parse.err
      ensures argc >= 2 && parse.Ok? && init.Fail? ==> err == init.err
      ensures !PreLoopFails(argc, parse, init) ==> err == ""
      ensures input == old(input)
    {
      ghost var start := log;
      var ready := Prepare(argc, parse, init);
      if !ready {
        AppendAssoc(start, [IoInit], PreLoopEvents(argc, parse, init));
        return Exit;
      }
      var n := |outcomes|;
      log := log + [SetIterations(n)];
      ghost var head := [IoInit, SetIterations(n)];
      assert log == start + head by {
        AppendAssoc(start, [IoInit], [SetIterations(n)]);
      }
      ghost var body := IterationsLog(outcomes, n, Started(outcomes));
      var fatal := RunIterations(outcomes);
      AppendAssoc(start, head, body);
      if fatal {
        ghost var f := FirstFatal(outcomes);
        ghost var before := IterationsLog(outcomes, n, f);
        ghost var last := IterationEvents(f + 1, n, outcomes[f]);
        assert body == before + last;
        AppendAssoc(head, before, last);
        return Exit;
      }
      log := log + [SimDone, ErrorSummary, Bye];
      CloseIo();
      ghost var end := NormalEnd();
      assert end == [SimDone, ErrorSummary, Bye] + [Close];
      assert log == start + (head + body) + end by {
        AppendAssoc(start + (head + body), [SimDone, ErrorSummary, Bye], [Close]);
      }
      AppendAssoc(start, head + body, end);
      return reterr;
    }

    /** The part of `simulate` before the loop: open io, then check argc, the
        parse of the configuration file and `sim.init`; on a failure log it
        and close io. `ready` tells whether the loop is reached. */
    method Prepare(argc: int, parse: Check, init: Check) returns (ready: bool)
      modifies this
      ensures ready == !PreLoopFails(argc, parse, init)
      ensures ready ==> log == old(log) + [IoInit]
      ensures !ready ==> log == old(log) + [IoInit] + PreLoopEvents(argc, parse, init)
      ensures closed == !ready
      ensures argc < 2 ==> err == old(err)
      ensures argc >= 2 && parse.Fail? ==> err == parse.err
      ensures argc >= 2 && parse.Ok? && init.Fail? ==> err == init.err
      ensures ready ==> err == ""
      ensures kernels == old(kernels) && iteration == old(iteration)
      ensures reterr == old(reterr) && input == old(input)
    {
      OpenIo();
      if argc < 2 {
        log := log + [NoInputFile];
        CloseIo();
        return false;
      }
      // the declaration `std::string err;`
      err := "";
      if parse.Fail? {
        err := parse.err;
        log := log + [ErrorText(err), InitFailed];
        CloseIo();
        return false;
      }
      if init.Fail? {
        err := init.err;
        log := log + [ErrorText(err), InitFailed];
        CloseIo();
        return false;
      }
      return true;
    }

    /** The `while (sim.next_iteration())` loop of `simulate`; `fatal` tells
        whether it left through the fatal `return`, after closing io. */
    method RunIterations(outcomes: seq<IterOutcome>) returns (fatal: bool)
      requires !closed
      modifies this
      ensures fatal <==> FirstFatal(outcomes) < |outcomes|
      ensures log == old(log) + IterationsLog(outcomes, |outcomes|, Started(outcomes))
      ensures kernels == old(kernels) + Started(outcomes)
      ensures iteration == Started(outcomes)
      ensures reterr == if AbortBefore(outcomes, FirstFatal(outcomes)) then Abort else Success
      ensures closed == fatal
      ensures input == old(input) && err == old(err)
    {
      var n := |outcomes|;
      reterr := Success;
      iteration := 0;
      while iteration < n
        invariant iteration <= FirstFatal(outcomes)
        invariant log == old(log) + IterationsLog(outcomes, n, iteration)
        invariant kernels == old(kernels) + iteration
        invariant reterr == if AbortBefore(outcomes, iteration) then Abort else Success
        invariant !closed && input == old(input) && err == old(err)
      {
        var k := iteration;
        iteration := iteration + 1;
        fatal := RunIteration(iteration, n, outcomes[k]);
        IterationsLogNext(old(log), outcomes, n, k);
        if fatal {
          return;
        }
      }
      fatal := false;
    }

    /** One pass of the `while (sim.next_iteration())` body for iteration i of
        n: the `try` block and, when a phase throws, the `catch` block. */
    method RunIteration(i: nat, n: nat, o: IterOutcome) returns (fatal: bool)
      modifies this
      ensures log == old(log) + IterationEvents(i, n, o)
      ensures fatal == IsFatal(o) && closed == (fatal || old(closed))
      ensures kernels == old(kernels) + 1
      ensures reterr == if IsAbort(o) then Abort else old(reterr)
      ensures iteration == old(iteration) && input == old(input) && err == old(err)
    {
      ghost var start := log;
      log := log + [Starting(i, n)];
      kernels := kernels + 1;
      log := log + [KernelBuilt(i)];
      ghost var head := [Starting(i, n), KernelBuilt(i)];
      assert log == start + head;
      ghost var mid := log;
      var thrown := RunPhases(i, o);
      ghost var phases := PhasesThrough(if thrown then o.phase else Finalize, i);
      ghost var tail: seq<Event>;
      fatal := false;
      if !thrown {
        log := log + [IterationDone(i, n)];
        tail := [IterationDone(i, n)];
      } else if o.sig == Abort {
        log := log + [RunAborted];
        reterr := Abort;
        tail := [RunAborted];
      } else {
        log := log + [FatalError, Summary];
        CloseIo();
        fatal := true;
        tail := [FatalError, Summary, Close];
        AppendAssoc(mid + phases, [FatalError, Summary], [Close]);
      }
      assert log == mid + phases + tail;
      AppendAssoc(mid, phases, tail);
      AppendAssoc(start, head, phases + tail);
    }

    /** The `try` block's phase calls: initialize, execute, finalize, stopping
        at the first that throws; `thrown` tells whether one did. */
    method RunPhases(i: nat, o: IterOutcome) returns (thrown: bool)
      modifies this`log
      ensures thrown == o.Raise?
      ensures log == old(log) + PhasesThrough(if thrown then o.phase else Finalize, i)
    {
      thrown := CallPhase(Initialize, i, o);
      if !thrown {
        thrown := CallPhase(Execute, i, o);
      }
      if !thrown {
        thrown := CallPhase(Finalize, i, o);
      }
    }

    /** `simulate_online(argc, argv)`: `init` is the outcome of
        `sim.init(ExprGlobal, err)` and `tokens` what `cin >> cmd` reads, in
        order, each with its parse and evaluation outcome. */
    method SimulateOnline(init: Check, tokens: seq<Token>) returns (finish: Finish)
      modifies this
      ensures log == old(log) + OnlineLog(init, tokens)
      ensures finish == OnlineFinish(init, tokens)
      ensures closed <==> finish.Returned?
      ensures init.Ok? ==> input == 1 + FirstQuit(tokens) && err == ""
      ensures kernels == old(kernels) && iteration == old(iteration) && reterr == old(reterr)
    {
      ghost var start := log;
      input := 1;
      OpenIo();
      if init.Fail? {
        err := init.err;
        log := log + [ErrorText(err), SimInitFailed];
        CloseIo();
        assert log == start + ([IoInit] + [ErrorText(init.err), SimInitFailed] + [Close]);
        return Returned(Sig(Exit));
      }
      err := "";
      ghost var body := TokensLog(tokens, FirstQuit(tokens));
      var quit := ReadEvalLoop(tokens);
      AppendAssoc(start, [IoInit], body);
      if !quit {
        assert OnlineLog(init, tokens) == [IoInit] + body + [];
        return InputEnded;
      }
      log := log + [Bye];
      CloseIo();
      assert log == start + ([IoInit] + body) + [Bye, Close] by {
        AppendAssoc(start + ([IoInit] + body), [Bye], [Close]);
      }
      AppendAssoc(start, [IoInit] + body, [Bye, Close]);
      return Returned(Zero);
    }

    /** The `cin >> cmd` / `while (cmd != "Quit[]" && cmd != "q")` loop of
        `simulate_online`. `quit` tells whether the loop test ended it; when it
        is false the input ended on a command that is not a quit command. */
    method ReadEvalLoop(tokens: seq<Token>) returns (quit: bool)
      requires input == 1 && err == "" && !closed
      modifies this
      ensures log == old(log) + TokensLog(tokens, FirstQuit(tokens))
      ensures quit == LoopEnds(tokens)
      ensures input == 1 + FirstQuit(tokens) && err == "" && !closed
      ensures kernels == old(kernels) && iteration == old(iteration) && reterr == old(reterr)
    {
      var cmd := "";
      // `k` tokens have been read; `atEnd` records that the last read failed
      var k := 0;
      var atEnd := false;
      if k < |tokens| {
        cmd := tokens[k].cmd;
        k := k + 1;
      } else {
        atEnd := true;
      }
      while !IsQuit(cmd) && !atEnd
        invariant k <= |tokens| && 1 <= input <= FirstQuit(tokens) + 1
        invariant !atEnd ==> k >= 1 && input == k && cmd == tokens[k - 1].cmd
        invariant atEnd ==> k == |tokens| && input == k + 1
        invariant atEnd ==> (IsQuit(cmd) <==> k > 0 && HandlerQuits(tokens[k - 1]))
        invariant log == old(log) + TokensLog(tokens, input - 1)
        invariant err == "" && !closed
        invariant kernels == old(kernels) && iteration == old(iteration) && reterr == old(reterr)
        decreases |tokens| - k, !atEnd
      {
        cmd := HandleToken(tokens[k - 1]);
        TokensLogNext(old(log), tokens, k - 1);
        input := input + 1;
        if k < |tokens| {
          cmd := tokens[k].cmd;
          k := k + 1;
        } else {
          atEnd := true;
        }
      }
      if !atEnd {
        QuitFound(tokens, k);
      }
      quit := IsQuit(cmd);
    }

    /** The body of the interactive loop for one non-quit token t, as input
        number `input`: parse it, then evaluate and print it. Returns the value
        `cmd` holds afterwards (the handler may overwrite it). */
    method HandleToken(t: Token) returns (cmd: string)
      requires err == ""
      modifies this`log, this`err
      ensures log == old(log) + TokenEvents(input, t)
      ensures err == ""
      ensures cmd == if t.parse.Parsed? && t.parse.eval.Raised?
                     then (if HandlerQuits(t) then "q" else "")
                     else t.cmd
      ensures t.parse.Parsed? && t.parse.eval.Raised? ==> (IsQuit(cmd) <==> HandlerQuits(t))
    {
      cmd := t.cmd;
      match t.parse {
        case Unparsable(e) =>
          err := e;
          log := log + [CannotParse(cmd), ErrorText(err)];
          err := "";
        case Parsed(ev) =>
          log := log + [Evaluate(input)];
          var hasValue := true;
          if ev.Raised? {
            log := log + [EvalError];
            cmd := if ev.sig == Abort || ev.sig == Exit then "q" else "";
            hasValue := false;
          }
          log := log + [ResultLine(input, hasValue)];
      }
    }
  }
}
