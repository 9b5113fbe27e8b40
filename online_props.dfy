/** Properties of the interactive loop `SimControl::simulate_online`, stated
    on the closed-form record OnlineLog / OnlineFinish that the method
    Control.SimControl.SimulateOnline is proved to produce. */
module OnlineProps {
  import opened Signals
  import opened ControlSpec

  /** The input numbers a log shows being evaluated, in order. */
  function EvaluatedInputs(log: seq<Event>): seq<nat> {
    if log == [] then []
    else
      var last := log[|log| - 1];
      EvaluatedInputs(log[..|log| - 1]) + (if last.Evaluate? then [last.input] else [])
  }

  lemma {:induction false} EvaluatedInputsAppend(a: seq<Event>, b: seq<Event>)
    ensures EvaluatedInputs(a + b) == EvaluatedInputs(a) + EvaluatedInputs(b)
  {
    if b == [] {
      assert a + b == a;
    } else {
      var front := b[..|b| - 1];
      assert (a + b)[..|a + b| - 1] == a + front;
      EvaluatedInputsAppend(a, front);
    }
  }

  /** The input numbers, among the first k, of the tokens that parse. */
  function ParsedInputs(ts: seq<Token>, k: nat): seq<nat>
    requires k <= |ts|
  {
    if k == 0 then [] else ParsedInputs(ts, k - 1) + (if ts[k - 1].parse.Parsed? then [k] else [])
  }

  lemma EvaluatedSingle(x: Event)
    ensures EvaluatedInputs([x]) == if x.Evaluate? then [x.input] else []
  {
    assert [x][..0] == [];
  }

  /** One token is evaluated, under its own input number, exactly when it
      parses. */
  lemma TokenEvaluation(input: nat, t: Token)
    ensures EvaluatedInputs(TokenEvents(input, t)) == if t.parse.Parsed? then [input] else []
  {
    match t.parse
    case Unparsable(e) =>
      EvaluatedInputsAppend([CannotParse(t.cmd)], [ErrorText(e)]);
      EvaluatedSingle(CannotParse(t.cmd));
      EvaluatedSingle(ErrorText(e));
    case Parsed(Value) =>
      EvaluatedInputsAppend([Evaluate(input)], [ResultLine(input, true)]);
      EvaluatedSingle(Evaluate(input));
      EvaluatedSingle(ResultLine(input, true));
    case Parsed(Raised(_)) =>
      EvaluatedInputsAppend([Evaluate(input), EvalError], [ResultLine(input, false)]);
      EvaluatedInputsAppend([Evaluate(input)], [EvalError]);
      EvaluatedSingle(Evaluate(input));
      EvaluatedSingle(EvalError);
      EvaluatedSingle(ResultLine(input, false));
      assert [Evaluate(input), EvalError] + [ResultLine(input, false)] == TokenEvents(input, t);
      assert [Evaluate(input)] + [EvalError] == [Evaluate(input), EvalError];
  }

  lemma {:induction false} TokensLogEvaluates(ts: seq<Token>, k: nat)
    requires k <= |ts|
    ensures EvaluatedInputs(TokensLog(ts, k)) == ParsedInputs(ts, k)
  {
    if k > 0 {
      var a := TokensLog(ts, k - 1);
      var e := TokenEvents(k, ts[k - 1]);
      calc {
        EvaluatedInputs(TokensLog(ts, k));
        EvaluatedInputs(a + e);
        { EvaluatedInputsAppend(a, e); }
        EvaluatedInputs(a) + EvaluatedInputs(e);
        { TokensLogEvaluates(ts, k - 1); TokenEvaluation(k, ts[k - 1]); }
        ParsedInputs(ts, k - 1) + (if ts[k - 1].parse.Parsed? then [k] else []);
      }
    }
  }

  /** The events of the first j tokens begin those of the first k. */
  lemma {:induction false} TokensLogPrefix(ts: seq<Token>, j: nat, k: nat)
    requires j <= k <= |ts|
    ensures StartsWith(TokensLog(ts, k), TokensLog(ts, j))
  {
    if j == k {
      StartsWithSelf(TokensLog(ts, k));
    } else {
      TokensLogPrefix(ts, j, k - 1);
      StartsWithExtend(TokensLog(ts, k - 1), TokensLog(ts, j), TokenEvents(k, ts[k - 1]));
    }
  }

  /** Token j's events sit where those of tokens 1..j-1 end, in the events of
      any later point. */
  lemma TokenInTokensLog(ts: seq<Token>, k: nat, j: nat)
    requires 1 <= j <= k <= |ts|
    ensures BlockAt(TokensLog(ts, k), |TokensLog(ts, j - 1)|, TokenEvents(j, ts[j - 1]))
  {
    TokensLogPrefix(ts, j, k);
    BlockInPrefix(TokensLog(ts, k), TokensLog(ts, j - 1), TokenEvents(j, ts[j - 1]));
  }

  /** Token j (counting from 1), when it is processed, shows TokenEvents under
      input number j, as one contiguous block of the record, after IoInit. */
  lemma TokenInLog(ts: seq<Token>, j: nat)
    requires 1 <= j <= FirstQuit(ts)
    ensures BlockAt(SessionLog(ts), 1 + |TokensLog(ts, j - 1)|, TokenEvents(j, ts[j - 1]))
  {
    TokenInTokensLog(ts, FirstQuit(ts), j);
    BlockInMiddle([IoInit], TokensLog(ts, FirstQuit(ts)), OnlineEnd(ts),
                  |TokensLog(ts, j - 1)|, TokenEvents(j, ts[j - 1]));
  }

  /** Nothing after the loop is an evaluation. */
  lemma NoEvaluationAtEnd(ts: seq<Token>)
    ensures EvaluatedInputs(OnlineEnd(ts)) == []
  {
    if LoopEnds(ts) {
      EvaluatedInputsAppend([Bye], [Close]);
      EvaluatedSingle(Bye);
      EvaluatedSingle(Close);
      assert [Bye] + [Close] == OnlineEnd(ts);
    }
  }

  lemma {:induction false} NoCloseInTokens(ts: seq<Token>, k: nat)
    requires k <= |ts|
    ensures Close !in TokensLog(ts, k)
  {
    if k > 0 {
      NoCloseInTokens(ts, k - 1);
    }
  }

  /** A session that ends closes io once, at the end. */
  lemma SessionClosesOnce(ts: seq<Token>)
    requires LoopEnds(ts)
    ensures ClosesOnceAtEnd(SessionLog(ts))
  {
    NoCloseInTokens(ts, FirstQuit(ts));
    assert [Bye, Close][..1] == [Bye];
    ClosesAfter([IoInit], TokensLog(ts, FirstQuit(ts)), [Bye, Close]);
  }

  /** With no quit command among the first k tokens, at least k are
      processed. */
  lemma NoQuitBefore(ts: seq<Token>, k: nat)
    requires k <= |ts|
    requires forall m :: 0 <= m < k ==> !IsQuit(ts[m].cmd)
    ensures k <= FirstQuit(ts)
  {
  }

  // ------------------------------------------------------------ the properties

  /** `simulate_online` returns Exit exactly when `sim.init` fails, after
      logging the error, "Sim initialization failed!" and closing io; when it
      returns otherwise, it returns 0 after "Bye!" and io.close(). */
  lemma ExitOnlyOnInitFailure(init: Check, ts: seq<Token>)
    ensures OnlineFinish(init, ts) == Returned(Sig(Exit)) <==> init.Fail?
    ensures init.Fail? ==> OnlineLog(init, ts) == [IoInit, ErrorText(init.err), SimInitFailed, Close]
    ensures init.Ok? && OnlineFinish(init, ts).Returned? ==>
      OnlineFinish(init, ts).code == Zero &&
      |OnlineLog(init, ts)| >= 3 && EndsWith(OnlineLog(init, ts), [Bye, Close])
  {
    if init.Ok? && LoopEnds(ts) {
      EndsWithLast([IoInit] + TokensLog(ts, FirstQuit(ts)), [Bye, Close]);
    }
  }

  /** A first token `q` or `Quit[]` ends the session before anything is
      parsed, whatever the parser would have made of it. */
  lemma QuitBeforeParse(ts: seq<Token>)
    requires |ts| > 0 && IsQuit(ts[0].cmd)
    ensures OnlineLog(Ok, ts) == [IoInit, Bye, Close]
    ensures OnlineFinish(Ok, ts) == Returned(Zero)
  {
    assert FirstQuit(ts) == 0;
  }

  /** The tokens evaluated are exactly the processed tokens that parse, in
      order, each under its own input number: a token that does not parse is
      reported and never evaluated, and the counter moves past it. */
  lemma EvaluatesParsedTokens(ts: seq<Token>)
    ensures EvaluatedInputs(OnlineLog(Ok, ts)) == ParsedInputs(ts, FirstQuit(ts))
  {
    var q := FirstQuit(ts);
    calc {
      EvaluatedInputs(OnlineLog(Ok, ts));
      EvaluatedInputs([IoInit] + TokensLog(ts, q) + OnlineEnd(ts));
      { EvaluatedInputsAppend([IoInit] + TokensLog(ts, q), OnlineEnd(ts)); NoEvaluationAtEnd(ts); }
      EvaluatedInputs([IoInit] + TokensLog(ts, q)) + [];
      { EvaluatedInputsAppend([IoInit], TokensLog(ts, q)); EvaluatedSingle(IoInit); }
      EvaluatedInputs(TokensLog(ts, q));
      { TokensLogEvaluates(ts, q); }
      ParsedInputs(ts, q);
    }
  }

  /** A signal raised while evaluating token j + 1 does not end the session:
      "evaluation error!" and the "Result[j + 1]" line (with no value) are
      logged, and the next token, if it is not a quit command, is processed
      as input j + 2. */
  lemma SignalDoesNotEndLoop(ts: seq<Token>, j: nat)
    requires j + 1 < |ts|
    requires forall m :: 0 <= m <= j + 1 ==> !IsQuit(ts[m].cmd)
    requires ts[j].parse.Parsed? && ts[j].parse.eval.Raised?
    ensures j + 2 <= FirstQuit(ts)
    ensures BlockAt(OnlineLog(Ok, ts), 1 + |TokensLog(ts, j)|,
                    [Evaluate(j + 1), EvalError, ResultLine(j + 1, false)])
    ensures BlockAt(OnlineLog(Ok, ts), 1 + |TokensLog(ts, j + 1)|, TokenEvents(j + 2, ts[j + 1]))
  {
    NoQuitBefore(ts, j + 2);
    assert TokenEvents(j + 1, ts[j]) == [Evaluate(j + 1), EvalError, ResultLine(j + 1, false)];
    TokenInLog(ts, j + 1);
    TokenInLog(ts, j + 2);
  }

  /** When the input ends without a quit token, the failed read leaves `cmd`
      as the last handler set it: after an Abort or Exit in the last
      evaluation ("q") the session ends normally and returns 0; otherwise the
      model stops with InputEnded (the source goes on re-processing `cmd`,
      and what those re-runs do is not part of this model). */
  lemma EndOfInputAfterSignal(ts: seq<Token>, s: SimSignal)
    requires |ts| > 0 && forall m :: 0 <= m < |ts| ==> !IsQuit(ts[m].cmd)
    requires ts[|ts| - 1].parse == Parsed(Raised(s))
    ensures OnlineFinish(Ok, ts) == if s == Abort || s == Exit then Returned(Zero) else InputEnded
  {
    assert FirstQuit(ts) == |ts|;
  }

  /** The input ends without a quit token after a token that raised nothing,
      or before any token: the model stops with InputEnded and io is still
      open (the source goes on re-processing `cmd`, which is not modelled). */
  lemma EndOfInputWithoutSignal(ts: seq<Token>)
    requires forall m :: 0 <= m < |ts| ==> !IsQuit(ts[m].cmd)
    requires ts == [] || !ts[|ts| - 1].parse.Parsed? || ts[|ts| - 1].parse.eval.Value?
    ensures OnlineFinish(Ok, ts) == InputEnded
    ensures Close !in OnlineLog(Ok, ts)
  {
    assert FirstQuit(ts) == |ts|;
    NoCloseInTokens(ts, |ts|);
  }

  /** Every return of `simulate_online` has closed io exactly once, as the last
      event; when the model stops at the end of input, io is still open. */
  lemma ClosedOnReturn(init: Check, ts: seq<Token>)
    ensures OnlineFinish(init, ts).Returned? ==> ClosesOnceAtEnd(OnlineLog(init, ts))
    ensures OnlineFinish(init, ts) == InputEnded ==> Close !in OnlineLog(init, ts)
  {
    var log := OnlineLog(init, ts);
    if init.Fail? {
      assert log[..|log| - 1] == [IoInit, ErrorText(init.err), SimInitFailed];
    } else if LoopEnds(ts) {
      SessionClosesOnce(ts);
    } else {
      NoCloseInTokens(ts, FirstQuit(ts));
      assert log == [IoInit] + TokensLog(ts, FirstQuit(ts));
    }
  }

  /** A token that does not parse, then `Quit[]` (or `q`): one "Cannot parse
      command" report with the parser's error, no evaluation, then the normal
      end. */
  lemma UnparsableThenQuit(cmd: string, e: string, quit: Token)
    requires !IsQuit(cmd) && IsQuit(quit.cmd)
    ensures OnlineLog(Ok, [Token(cmd, Unparsable(e)), quit]) ==
      [IoInit, CannotParse(cmd), ErrorText(e), Bye, Close]
    ensures OnlineFinish(Ok, [Token(cmd, Unparsable(e)), quit]) == Returned(Zero)
  {
    var ts := [Token(cmd, Unparsable(e)), quit];
    assert FirstQuitFrom(ts, 1) == 1;
    assert FirstQuit(ts) == 1;
    assert TokensLog(ts, 1) == [] + [CannotParse(cmd), ErrorText(e)];
  }
}
