/** One evaluation of a dice expression from its text: the postfix form,
    the decoded program and its run, with the postfix form as the first
    trace line. The dice are `SimpleRoll`; the layout of `r` is a
    parameter, `AsWritten` for the original program and `Intended` for the
    corrected one. */
module Engine {
  import opened Outcomes
  import opened Dice
  import opened Lexer
  import opened Postfix
  import opened Evaluator

  /** The conversion to postfix as the original runs it: each token is
      shunted as soon as the tokenizer returns it, and the operator stack
      is drained once the tokenizer returns the end marker. A grouping
      error therefore stops the conversion before a later token can fail
      to scan. */
  function ConvertFrom(lx: Lexer, st: State): (r: Result<seq<string>>)
    ensures r.Err? ==> r.fault == FunctionNameUnterminated || r.fault == UnbalancedGrouping
    decreases Remaining(lx)
  {
    var next :- NextToken(lx);
    match next.token
    case None => Drain(st)
    case Some(t) =>
      assert Remaining(next.lexer) < Remaining(lx);
      var st' :- Shunt(st, t);
      ConvertFrom(next.lexer, st')
  }

  /** The postfix form of an expression. */
  function PostfixOf(input: string): Result<seq<string>> {
    ConvertFrom(Lexer(input, 0), State([], []))
  }

  /** Converting token by token agrees with tokenizing everything first
      and then converting, whenever the whole input tokenizes; when it
      does not, the conversion fails too, though possibly earlier and for
      another reason. */
  lemma {:induction false} ConvertAgrees(lx: Lexer, st: State)
    ensures TokensFrom(lx).Ok? ==>
              ConvertFrom(lx, st) == (var done :- ShuntAll(st, TokensFrom(lx).value); Drain(done))
    ensures TokensFrom(lx).Err? ==> ConvertFrom(lx, st).Err?
    decreases Remaining(lx)
  {
    var next := NextToken(lx);
    if next.Ok? && next.value.token.Some? {
      var t := next.value.token.value;
      assert Remaining(next.value.lexer) < Remaining(lx);
      var shunted := Shunt(st, t);
      if shunted.Ok? {
        ConvertAgrees(next.value.lexer, shunted.value);
      }
      if TokensFrom(lx).Ok? {
        var rest := TokensAfter(lx, next.value, TokensFrom(lx).value);
        assert ([t] + rest)[0] == t && ([t] + rest)[1..] == rest;
      }
    }
  }
  /** Tokenizing everything first and then converting gives the same
      postfix form whenever the input tokenizes. */
  lemma PostfixOfTokens(input: string)
    ensures Tokenize(input).Ok? ==> PostfixOf(input) == ToPostfix(Tokenize(input).value)
    ensures Tokenize(input).Err? ==> PostfixOf(input).Err?
  {
    ConvertAgrees(Lexer(input, 0), State([], []));
  }

  /** `)z` stops at the `)`, which has no `(` to close, before the `z`
      without a `(` after it is scanned. */
  lemma CloseBeforeName()
    ensures Tokenize(")z") == Err(FunctionNameUnterminated)
    ensures PostfixOf(")z") == Err(UnbalancedGrouping)
  {
    CloseThenName();
    assert Shunt(State([], []), ")").Err?;
  }

  /** The two calls of the tokenizer on `)z`. */
  lemma CloseThenName()
    ensures NextToken(Lexer(")z", 0)) == Ok(Next(Some(")"), Lexer(")z", 1)))
    ensures NextToken(Lexer(")z", 1)) == Err(FunctionNameUnterminated)
  {
    var s := ")z";
    assert Trim(s) == s;
    assert !SplitMode(s);
    assert OpenAfter(s, 2).None?;
  }

  /** The trace of an evaluation on the given draws, or why it failed. */
  function Evaluate(input: string, draws: seq<nat>, fuel: nat, layout: Layout): (r: Result<Evaluation>)
    ensures r.Ok? ==> PostfixOf(input).Ok? && |r.value.trace| > 0
                      && r.value.trace[0] == Program(DecodeAll(PostfixOf(input).value))
  {
    var postfix :- PostfixOf(input);
    var program := DecodeAll(postfix);
    var e :- Run(fuel, Machine(program, [], 0, 0, draws), Config(layout, SimpleRoll));
    Ok(Evaluation([Program(program)] + e.trace, e.grandTotal))
  }

  /** Only the grand total of an evaluation. */
  function SimpleResult(input: string, draws: seq<nat>, fuel: nat, layout: Layout): (r: Result<real>)
    ensures r.Ok? <==> Evaluate(input, draws, fuel, layout).Ok?
    ensures r.Ok? ==> r.value == Evaluate(input, draws, fuel, layout).value.grandTotal
  {
    var e :- Evaluate(input, draws, fuel, layout);
    Ok(e.grandTotal)
  }

  /** A finished evaluation's trace is the program, then one line per
      applied symbol, then the grand total, which is the value of the
      evaluation. */
  lemma EvaluateTrace(input: string, draws: seq<nat>, fuel: nat, layout: Layout)
    requires Evaluate(input, draws, fuel, layout).Ok?
    ensures var e := Evaluate(input, draws, fuel, layout).value;
            && |e.trace| >= 2
            && e.trace[0] == Program(DecodeAll(PostfixOf(input).value))
            && e.trace[|e.trace| - 1] == GrandTotal(e.grandTotal)
            && forall i :: 0 < i < |e.trace| - 1 ==> e.trace[i].Applied?
  {
    var program := DecodeAll(PostfixOf(input).value);
    var m := Machine(program, [], 0, 0, draws);
    var cfg := Config(layout, SimpleRoll);
    assert Run(fuel, m, cfg).Ok?;
    ProgramFirst(fuel, m, cfg, Evaluate(input, draws, fuel, layout).value);
  }
  /** Putting the program line in front of a finished run's trace keeps
      every applied line applied and the grand total last. */
  lemma ProgramFirst(fuel: nat, m: Machine, cfg: Config, e: Evaluation)
    requires Run(fuel, m, cfg).Ok?
    requires e == Evaluation([Program(m.instrs)] + Run(fuel, m, cfg).value.trace, Run(fuel, m, cfg).value.grandTotal)
    ensures |e.trace| >= 2 && e.trace[0] == Program(m.instrs)
    ensures e.trace[|e.trace| - 1] == GrandTotal(e.grandTotal)
    ensures forall i :: 0 < i < |e.trace| - 1 ==> e.trace[i].Applied?
  {
    RunTrace(fuel, m, cfg);
    var run := Run(fuel, m, cfg).value;
    forall i | 0 < i < |e.trace| - 1 ensures e.trace[i].Applied? {
      assert e.trace[i] == run.trace[i - 1];
    }
  }

  /** An evaluation fails exactly when the conversion to postfix fails or
      the run of the decoded program does, and for the same reason; on
      success the grand total is the run's. */
  lemma EvaluateVerdict(input: string, draws: seq<nat>, fuel: nat, layout: Layout)
    ensures var r := Evaluate(input, draws, fuel, layout);
            var p := PostfixOf(input);
            && (p.Err? ==> r == Err(p.fault))
            && (p.Ok? ==> Agree(r, Run(fuel, Machine(DecodeAll(p.value), [], 0, 0, draws), Config(layout, SimpleRoll))))
  {
  }
}
