/** The values the simulation controller works with: the SimSignal severities,
    the integer a run returns, the outcomes of the collaborators it calls
    (parser, Sim, kernel phases, evaluation), and the events it records. */
module Signals {

  /** SimSignal: the value kernels and evaluation throw. `Other` stands for any
      value of the enumeration that is none of the three named ones. */
  datatype SimSignal = Success | Abort | Exit | Other

  /** What an entry point returns: `int(s)` for a signal s, or the literal 0
      that `simulate_online` returns on its normal path. The ordinals of the
      signals are not part of this model. */
  datatype ReturnCode = Sig(signal: SimSignal) | Zero

  /** The outcome of `parser.parse_file` or `sim.init`: success, or failure
      with the text they leave in `err`. */
  datatype Check = Ok | Fail(err: string)

  /** The three phases of a kernel, called in this order. */
  datatype Phase = Initialize | Execute | Finalize

  /** What happens in one batch iteration: every phase returns, or the named
      phase throws the signal `sig`. */
  datatype IterOutcome = NoSignal | Raise(phase: Phase, sig: SimSignal)

  /** The outcome of evaluating `ExprPrint(result->arg[0])`. */
  datatype EvalOutcome = Value | Raised(sig: SimSignal)

  /** The outcome of `parser.parse(cmd, err)` on one interactive token. */
  datatype ParseOutcome = Parsed(eval: EvalOutcome) | Unparsable(err: string)

  /** One whitespace-delimited token read by `cin >> cmd`, together with what
      the parser and evaluator would do with it. */
  datatype Token = Token(cmd: string, parse: ParseOutcome)

  /** How `simulate_online` ends: it returns a code, or the input ended while
      the current command is not a quit command. The model stops there; the
      source goes on re-processing that command, and what those re-runs do is
      not part of this model. */
  datatype Finish = Returned(code: ReturnCode) | InputEnded

  /** The controller's observable actions, in the order they happen. */
  datatype Event =
    | IoInit                        // io.init(...) and sim.init_io(&io)
    | NoInputFile                   // "No input file specified!" (severity Exit)
    | ErrorText(text: string)       // io.message(err)
    | InitFailed                    // "Simulation initialization failed!" (severity Exit)
    | SimInitFailed                 // "Sim initialization failed!" (severity Exit)
    | SetIterations(n: nat)         // io.set_iterations(sim.n_iterations())
    | Starting(i: nat, n: nat)      // "Starting Simulation iteration: i/n"
    | KernelBuilt(i: nat)           // a fresh KernelT for iteration i
    | PhaseCall(p: Phase, i: nat)   // kernel.initialize/execute/finalize(sim)
    | IterationDone(i: nat, n: nat) // "Simulation iteration: i/n done!"
    | RunAborted                    // "Simulation run aborted due to error!"
    | FatalError                    // "Simulation aborted due to fatal error!"
    | Summary                       // io.summary()
    | SimDone                       // "Simulation done!"
    | ErrorSummary                  // io.error_summary()
    | Bye                           // "Bye!"
    | Close                         // io.close()
    | CannotParse(cmd: string)      // "Cannot parse command: " + cmd
    | Evaluate(input: nat)          // resprt->evaluate(&sim.scope) for input number `input`
    | EvalError                     // "evaluation error!"
    | ResultLine(input: nat, hasValue: bool) // "Result[input]:" << res

  /** The two commands that end the interactive loop. */
  predicate IsQuit(cmd: string) {
    cmd == "Quit[]" || cmd == "q"
  }
}
