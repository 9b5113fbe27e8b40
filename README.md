# SimControl: the simulation run controller

This project models `SimControl<KernelT>`, the controller at the top of the
simulation kernel framework, and proves properties of that model in Dafny. The
class has two entry points:

- `simulate` is the batch controller. It opens the message sink (`io`), checks
  the arguments, parses the configuration and initialises `Sim`. It then runs
  every iteration that `Sim` grants: a fresh kernel is built and its
  `initialize`, `execute` and `finalize` phases are called. A thrown
  `SimSignal` is escalated: `Abort` skips the rest of the iteration and
  degrades the final result to `Abort`; `Exit`, or any other signal, ends the
  whole run with `Exit`.
- `simulate_online` is the interactive read-eval-print loop. It reads
  whitespace-delimited tokens until `Quit[]` or `q`. Each other token is
  parsed, wrapped in a print expression and evaluated, and the input counter
  advances by one.

The collaborators are replaced by their outcomes, which are given as
arguments:

- the argument count;
- the result of `parser.parse_file` and of `sim.init` (`Check`);
- one `IterOutcome` per granted iteration (`NoSignal` or `Raise(phase, sig)`);
- the token sequence, each token carrying what the parser and the evaluator
  do with it.

What the controller does with `io`, `Sim` and the kernels is recorded as a
sequence of `Event` values.

Files:

- `signals.dfy` (module `Signals`) holds `SimSignal`, the return code, the
  outcome datatypes and `Event`.
- `sim_control.dfy` (module `Control`) holds class `SimControl`. Its fields are
  `log`, `closed`, `kernels`, `iteration`, `reterr`, `input` and `err`. The
  two loops are `while` loops over those fields.
- `control_spec.dfy` (module `ControlSpec`) holds the closed-form
  specification: `BatchLog`, `BatchCode` and `BatchKernels` for `simulate`,
  and `OnlineLog` and `OnlineFinish` for `simulate_online`. The methods
  `Simulate` and `SimulateOnline` are proved to produce exactly these; the
  helper methods they call are each proved against a smaller piece of the
  same definitions (`PreLoopEvents`, `IterationsLog`, `IterationEvents`,
  `TokensLog`, `TokenEvents`).
- `batch_props.dfy` (module `BatchProps`) proves what the batch controller
  promises about those specification functions.
- `online_props.dfy` (module `OnlineProps`) does the same for the interactive
  loop.

Points where the code is followed rather than the prose description of the
system:

- `Success` and `Other` raised by a phase reach the `default` case, so they
  are fatal, exactly like `Exit`.
- In `simulate_online`, "evaluation error!" is logged for every caught signal,
  not only for `Abort` and `Exit`. The "Result[in]:" line is still printed
  after the caught signal.
- The handler's `cmd = "q"` does not end the loop on its own. The next
  `cin >> cmd` overwrites it before the loop test. Only when that read fails
  (the input has ended) does `cmd` keep the "q", and the loop then ends
  normally.
- When the input ends and `cmd` is not a quit command (the last token, or
  `""` after a signal other than Abort or Exit), the model stops there and
  reports `Finish.InputEnded`, with io still open. The source keeps
  re-processing `cmd` (lines 144-173 run again on it), and what those re-runs
  do is not modelled.
- `simulate_online` returns the literal `0` on its normal path. This is
  `ReturnCode.Zero`, kept apart from the signal codes `Sig(s)`, whose integer
  values are not part of this model.

## Model

| member | source | states |
|---|---|---|
| Control.SimControl.constructor | sim_control.h:39 | a new controller has an empty record, io not closed, no kernels, and reterr Success |
| Control.SimControl.OpenIo | sim_control.h:44-45 | io.init and sim.init_io append IoInit and reopen io; no other field changes |
| Control.SimControl.CloseIo | sim_control.h:50 | io.close() appends Close and marks io closed; no other field changes |
| Control.SimControl.CallPhase | sim_control.h:85-87 | one phase call is recorded; it throws exactly when the outcome names that phase |
| Control.SimControl.Simulate | sim_control.h:41-119 | the record grows by exactly BatchLog, the result is BatchCode, BatchKernels kernels are built and io ends closed; past the pre-loop checks, the iteration count is the number started and reterr is Abort iff an Abort came before the first fatal iteration; on a normal end the result is reterr |
| Control.SimControl.Prepare | sim_control.h:44-69 | the loop is reached iff argc >= 2, the parse succeeds and sim.init succeeds; otherwise the failure's messages and io.close() are recorded and io is closed |
| Control.SimControl.RunIterations | sim_control.h:73-111 | the loop leaves through the fatal return iff some outcome is fatal; it records the events of iterations 1..Started in order, builds one kernel per started iteration, and leaves reterr Abort iff an Abort came before the first fatal outcome; io is closed iff the exit was fatal |
| Control.SimControl.RunIteration | sim_control.h:77-110 | one iteration records IterationEvents and builds one kernel; it is fatal iff the outcome raises a signal other than Abort, which closes io; reterr becomes Abort on Abort and is otherwise unchanged |
| Control.SimControl.RunPhases | sim_control.h:85-87 | initialize, execute and finalize are called in order, stopping after the phase that throws; something was thrown iff the outcome raises |
| Control.SimControl.SimulateOnline | sim_control.h:121-180 | the record grows by exactly OnlineLog and the ending is OnlineFinish; io is closed iff the call returns; after a successful sim.init, `in` is one more than the number of tokens processed and err is empty |
| Control.SimControl.ReadEvalLoop | sim_control.h:138-174 | the tokens before the first quit token are processed in order, each under its own input number; the loop ends by its own test iff LoopEnds holds; io stays open |
| Control.SimControl.HandleToken | sim_control.h:144-170 | one token's events are recorded and err is left empty; after a caught signal cmd becomes "q" for Abort or Exit and "" otherwise, and is the token itself when nothing is thrown |
| ControlSpec.FirstFatalFrom | sim_control.h:97-108 | the first fatal outcome at or after k: none before it, and the one found is fatal |
| ControlSpec.FirstFatal | sim_control.h:97-108 | the first outcome whose signal is not Abort, or the number of outcomes when there is none |
| ControlSpec.AbortBeforeMeans | sim_control.h:99-102 | the recursive AbortBefore holds iff one of the first k outcomes is an Abort |
| ControlSpec.IterationsLogNext | sim_control.h:75-111 | one more pass of the loop adds the next iteration's events to the record of the earlier ones |
| ControlSpec.FirstQuitFrom | sim_control.h:142 | the first quit token at or after k: none before it, and the one found is `Quit[]` or `q` |
| ControlSpec.FirstQuit | sim_control.h:142 | the first token that is `Quit[]` or `q`, or the number of tokens when there is none |
| ControlSpec.TokensLogNext | sim_control.h:142-174 | one more pass of the loop adds the next token's events to the record of the earlier ones |
| ControlSpec.QuitFound | sim_control.h:141-173 | a quit token read when none came before ends the loop, and it is the first one |
| Signals.IsQuit | sim_control.h:142 | the loop test: a command ends the interactive loop iff it is `Quit[]` or `q` |
| ControlSpec.PreLoopFails | sim_control.h:47-69 | the run does not reach the loop iff argc < 2, the configuration does not parse, or sim.init fails |
| ControlSpec.PreLoopEvents | sim_control.h:47-69 | the events of each pre-loop failure: "No input file specified!" for argc < 2, otherwise the error text and "Simulation initialization failed!", then io.close() |
| ControlSpec.IsFatal | sim_control.h:97-108 | an outcome is fatal iff it raises a signal other than Abort, since Exit and every other value share the `default` branch |
| ControlSpec.IsAbort | sim_control.h:97-102 | an outcome is recoverable iff it raises Abort |
| ControlSpec.PhasesThrough | sim_control.h:85-87 | the phase calls made up to and including a given phase, in the order initialize, execute, finalize |
| ControlSpec.IterationEvents | sim_control.h:77-110 | one iteration's events: Starting, the kernel built, the phases up to the one that throws; then the "done" message, or "run aborted" for Abort, or the fatal message, io.summary() and io.close() for any other signal |
| ControlSpec.IterationsLog | sim_control.h:75-111 | the events of the first k iterations, in iteration order |
| ControlSpec.Started | sim_control.h:75-108 | the number of iterations started: all granted ones, or up to and including the first fatal one |
| ControlSpec.AbortBefore | sim_control.h:73-102 | reterr: whether an Abort was caught among the first k iterations |
| ControlSpec.NormalEnd | sim_control.h:113-116 | the events after a loop that ends normally: "Simulation done!", the error summary, "Bye!" and io.close() |
| ControlSpec.RunLog | sim_control.h:71-118 | the record of a run that reaches the loop: IoInit and set_iterations, then the iterations up to the first fatal one and that one, or all of them and the normal end |
| ControlSpec.BatchLog | sim_control.h:41-119 | the whole record of one call of simulate: a pre-loop failure's events, or RunLog |
| ControlSpec.BatchCode | sim_control.h:41-119 | the result of simulate: Exit on a pre-loop failure or a fatal signal, otherwise Abort iff some iteration aborted, otherwise Success |
| ControlSpec.BatchKernels | sim_control.h:41-119 | the kernels simulate builds: none on a pre-loop failure, otherwise one per started iteration |
| ControlSpec.HandlerQuits | sim_control.h:160-167 | the handler sets `cmd` to "q" iff evaluation threw Abort or Exit |
| ControlSpec.TokenEvents | sim_control.h:144-170 | one token's events: "Cannot parse command" and the parser's error, or the evaluation, "evaluation error!" when it threw, and the Result line |
| ControlSpec.TokensLog | sim_control.h:142-174 | the events of the first k tokens, token j under input number j |
| ControlSpec.LoopEnds | sim_control.h:141-173 | the loop ends by its own test iff a quit token is read, or the input ends right after a token whose handler set `cmd` to "q" |
| ControlSpec.OnlineEnd | sim_control.h:176-177 | "Bye!" and io.close() after a loop that ends, nothing when the model stops at the end of input |
| ControlSpec.SessionLog | sim_control.h:125-177 | the record after a successful sim.init: IoInit, the tokens before the first quit token, then the end |
| ControlSpec.OnlineLog | sim_control.h:121-180 | the whole record of one call of simulate_online: sim.init's failure or SessionLog |
| ControlSpec.OnlineFinish | sim_control.h:121-180 | how simulate_online ends: Exit when sim.init fails, 0 when the loop ends, otherwise the model stops at the end of input |
| BatchProps.PreLoopFailure | sim_control.h:47-69 | each pre-loop failure returns Exit, builds no kernel and records its own messages followed by io.close(): "No input file" for argc < 2, and the error text plus "initialization failed" for a parse or init failure |
| BatchProps.IterationInBatchLog | sim_control.h:75-92 | every started iteration's events form one contiguous block of the record, placed right after the events of the iterations before it |
| BatchProps.IterationsRunInOrder | sim_control.h:75-111 | the iterations started are exactly 1, 2, ..., Started in this order; that is all of them when none is fatal, and up to the first fatal one otherwise |
| BatchProps.CleanRun | sim_control.h:73-118 | with no signal, each of the n iterations logs its start, builds a kernel, calls initialize, execute and finalize, and logs "i/n done!" at position 6i-4; the record has length 6n+6, ends with the normal end, and the result is Success with n kernels built |
| BatchProps.AbortRecovers | sim_control.h:94-118 | without a fatal outcome every granted iteration runs and the run ends normally; the result is Abort iff some iteration threw Abort, and Success iff none threw at all |
| BatchProps.AbortNeverReset | sim_control.h:101-118 | an Abort result stays Abort whatever non-fatal iterations follow |
| BatchProps.AbortedIteration | sim_control.h:85-102 | an Abort in phase p skips the later phases and the "done" message, and logs "run aborted" instead, with no io.close() |
| BatchProps.FatalIteration | sim_control.h:85-108 | a signal other than Abort in phase p skips the later phases and the "done" message, and ends the iteration with the fatal message, io.summary() and io.close() |
| BatchProps.FatalStops | sim_control.h:103-108 | a signal other than Abort stops the run: the phases after the one that threw and the "done" message are skipped, the record ends with the fatal message, io.summary() and io.close(); the result is Exit, kernels are built only up to that iteration, and no later iteration starts |
| BatchProps.ClosedOnce | sim_control.h:47-116 | every path of simulate that the model expresses calls io.close() exactly once, as its last action; the normal end records "Simulation done!", the error summary and "Bye!" just before it |
| BatchProps.AbortInSecondOfThree | sim_control.h:75-118 | the full record and the result of three iterations whose second aborts in execute |
| OnlineProps.TokenEvaluation | sim_control.h:144-170 | one token is evaluated, under its own input number, iff it parses |
| OnlineProps.TokenInLog | sim_control.h:142-174 | every processed token's events form one contiguous block of the session record, placed right after those of the tokens before it |
| OnlineProps.ExitOnlyOnInitFailure | sim_control.h:130-179 | the result is Exit iff sim.init fails, and the record is then the error, "Sim initialization failed!" and io.close(); any other return is 0 after "Bye!" and io.close() |
| OnlineProps.QuitBeforeParse | sim_control.h:141-179 | a first token `Quit[]` or `q` ends the session before anything is parsed, and returns 0 |
| OnlineProps.EvaluatesParsedTokens | sim_control.h:123-171 | the input numbers evaluated are exactly those of the processed tokens that parse, in order; a token that does not parse is never evaluated, and the counter still moves past it |
| OnlineProps.SignalDoesNotEndLoop | sim_control.h:157-173 | a signal while evaluating token j+1 logs "evaluation error!" and a Result line with no value, and the next non-quit token is still processed as input j+2 |
| OnlineProps.EndOfInputAfterSignal | sim_control.h:160-173 | when the input ends after a token whose evaluation threw, the session returns 0 iff the signal was Abort or Exit; otherwise the model stops there (`InputEnded`) |
| OnlineProps.EndOfInputWithoutSignal | sim_control.h:142-173 | when the input ends after a token that threw nothing, or with no token at all, the model stops there (`InputEnded`) with io still open |
| OnlineProps.ClosedOnReturn | sim_control.h:130-177 | every return of simulate_online has called io.close() exactly once, as the last event; when the model stops at the end of input (`InputEnded`), io has not been closed |
| OnlineProps.UnparsableThenQuit | sim_control.h:144-177 | a token that does not parse and then `Quit[]` give one "Cannot parse command" report with the parser's error, no evaluation, and the normal end |

## Left out

- I/O is reduced to event tags. This covers the `SimIOManager` internals (the
  `sim.log` file, message severities, the contents of the summary and the error
  summary) and the `stringstream` formatting of the iteration messages. Only
  the fact that each `io` call happened, and in what order, is recorded.
- Of the `cout` output of `simulate_online`, only the "Result[in]:" line
  (line 169) is recorded, as `ResultLine`. The prompts `In[in]:` (lines 140
  and 172) and `Out[in]:` (line 154) are not recorded.
- The value `res` printed on the "Result[" line is not modelled. The event
  only records whether evaluation produced a value.
- `ExprParser`, `ExprPrint` and `ExprGlobal` are oracles given with each token
  (`ParseOutcome`, `EvalOutcome`). The same holds for `parse_file` and
  `sim.init` (`Check`).
- Tokenisation is assumed done: input is a sequence of tokens. How `cin >>`
  splits at whitespace is outside the model.
- `Sim` internals such as scopes and the decision in `next_iteration` are not
  modelled. The number of granted iterations is the length of the outcome
  sequence, and `sim.iteration()` is the 1-based loop counter.
- The kernel's computation is not modelled. A kernel phase is its outcome.
- In batch mode a signal can only come from a kernel phase, and in interactive
  mode only from `evaluate`. Signals thrown inside the `try` blocks by the
  kernel constructor, by `io.message`, by the "Starting" message, by the
  `Out[` prompt or by the `ExprPrint` constructor are not modelled.
- Exits that leave `simulate` or `simulate_online` through an uncaught
  exception are not modelled. Both handlers (lines 94 and 157) catch only
  `const SimSignal&`. Two kinds of throw escape them, with no fatal message,
  no `io.summary()` and no `io.close()`. The first is an exception of any
  other type from a kernel phase or from `evaluate`. The second is a
  `SimSignal` thrown outside the `try` blocks, by `sim.next_iteration()`
  (line 75), `parse_file` (line 55), `sim.init` (lines 63 and 130) or
  `parser.parse` (line 144). The close-once properties (ClosedOnce,
  ClosedOnReturn) cover only the paths the model expresses.
- A successful `parse_file`, `sim.init` or `parser.parse` is assumed to leave
  `err` as it was; only a failure's error text is modelled.
- `argv` is not modelled, so neither is the name of the configuration file.
- The `SIM_DEBUG` trace is left out.
- The integer ordinals of `SimSignal` and the `int(...)` conversion are not
  modelled, because the enumeration is defined in `sim.h`, which is not part of
  this model.
- Control.SimControl.SimulateOnline does not model what happens after the
  input ends while `cmd` is not a quit command. The source goes on
  re-parsing and re-evaluating `cmd` against `sim.scope`; a re-run that
  throws Abort or Exit would set `cmd` to "q" and end the loop. The model
  stops at that point and reports `Finish.InputEnded`, leaving io open.
