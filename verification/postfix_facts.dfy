/** What the converter guarantees: it accepts exactly the token sequences
    whose grouping is balanced, it emits numbers in input order, and its
    output holds every number and grammar symbol of the input exactly once. */
module PostfixFacts {
  import opened Outcomes
  import opened Grammar
  import opened Numbers
  import opened Postfix

  // ------------------------------------------------------------ token kinds

  lemma SymbolsNotNumeric(t: string)
    requires IsOpToken(t)
    ensures !IsNumeric(t)
  {
    KnownSymbols(t);
    if t == "zCeiling" {
      assert t[0] == 'z';
    } else {
      assert |t| == 1 && t[0] in "^+-*/defgxrp";
    }
    NonNumericText(t);
  }

  lemma PunctuationNotNumeric(t: string)
    requires t in {",", "(", ")"}
    ensures !IsNumeric(t) && !IsOpToken(t) && !IsFunction(t)
  {
    Punctuation(t);
  }

  /** Numbers and grammar symbols: the tokens that reach the output. */
  predicate Meaningful(t: string) {
    IsNumeric(t) || IsOpToken(t)
  }

  /** The operator stack holds only `(` and grammar symbols. */
  predicate StackShape(ops: seq<string>) {
    forall k :: 0 <= k < |ops| ==> ops[k] == "(" || IsOpToken(ops[k])
  }

  function Filter(f: string -> bool, s: seq<string>): (r: seq<string>)
    ensures |r| <= |s|
  {
    if |s| == 0 then [] else if f(s[0]) then [s[0]] + Filter(f, s[1..]) else Filter(f, s[1..])
  }

  lemma FilterOne(f: string -> bool, x: string)
    ensures Filter(f, [x]) == if f(x) then [x] else []
  {
    assert [x][1..] == [];
  }

  lemma {:induction false} FilterAppend(f: string -> bool, a: seq<string>, b: seq<string>)
    ensures Filter(f, a + b) == Filter(f, a) + Filter(f, b)
  {
    if |a| == 0 {
      assert a + b == b;
    } else {
      assert (a + b)[0] == a[0];
      assert (a + b)[1..] == a[1..] + b;
      FilterAppend(f, a[1..], b);
      if f(a[0]) {
        assert Filter(f, a + b) == [a[0]] + Filter(f, a[1..] + b);
        Associative([a[0]], Filter(f, a[1..]), Filter(f, b));
      }
    }
  }

  lemma {:induction false} FilterNone(f: string -> bool, s: seq<string>)
    requires forall k :: 0 <= k < |s| ==> !f(s[k])
    ensures Filter(f, s) == []
  {
    if |s| > 0 { FilterNone(f, s[1..]); }
  }

  function Count(s: seq<string>, t: string): nat {
    if |s| == 0 then 0 else (if s[0] == t then 1 else 0) + Count(s[1..], t)
  }

  lemma {:induction false} CountAppend(a: seq<string>, b: seq<string>, t: string)
    ensures Count(a + b, t) == Count(a, t) + Count(b, t)
  {
    if |a| == 0 {
      assert a + b == b;
    } else {
      assert (a + b)[1..] == a[1..] + b;
      CountAppend(a[1..], b, t);
    }
  }

  lemma {:induction false} CountPositive(s: seq<string>, t: string)
    ensures t in s <==> Count(s, t) > 0
  {
    if |s| > 0 {
      CountPositive(s[1..], t);
      assert s == [s[0]] + s[1..];
    }
  }

  function IsOpen(t: string): bool { t == "(" }
  function NotOpen(t: string): bool { t != "(" }

  // ------------------------------------------------------- balanced grouping

  /** Grouping is balanced: no `)` or `,` outside every `(`, and no `(`
      left open at the end, starting at nesting depth `depth`. */
  predicate Nested(tokens: seq<string>, depth: nat)
    decreases |tokens|
  {
    if |tokens| == 0 then depth == 0
    else if tokens[0] == "(" then Nested(tokens[1..], depth + 1)
    else if tokens[0] == ")" then depth > 0 && Nested(tokens[1..], depth - 1)
    else if tokens[0] == "," then depth > 0 && Nested(tokens[1..], depth)
    else Nested(tokens[1..], depth)
  }

  /** One token: the converter fails exactly on a `)` or `,` with no open
      `(`, and the number of open `(` on the stack tracks the nesting depth. */
  lemma ShuntDepth(st: State, tok: string)
    requires StackShape(st.ops)
    ensures Shunt(st, tok).Ok? <==> !((tok == ")" || tok == ",") && Count(st.ops, "(") == 0)
    ensures Shunt(st, tok).Ok? ==>
              && StackShape(Shunt(st, tok).value.ops)
              && Count(Shunt(st, tok).value.ops, "(") ==
                   if tok == "(" then Count(st.ops, "(") + 1
                   else if tok == ")" then Count(st.ops, "(") - 1
                   else Count(st.ops, "(")
  {
    CountPositive(st.ops, "(");
    if tok in {",", "(", ")"} {
      PunctuationNotNumeric(tok);
    }
    if |tok| == 0 || IsNumeric(tok) {
    } else if IsFunction(tok) {
      FunctionIsSymbol(tok);
      assert Shunt(st, tok) == Ok(State(st.output, [tok] + st.ops));
      CountAppend([tok], st.ops, "(");
    } else if tok == "," {
      if "(" in st.ops { CommaDepth(st); }
    } else if IsOpToken(tok) {
      OperatorDepth(st, tok);
    } else if tok == "(" {
      assert Shunt(st, tok) == Ok(State(st.output, ["("] + st.ops));
      CountAppend(["("], st.ops, "(");
    } else if tok == ")" {
      if "(" in st.ops { CloseDepth(st); }
    } else {
      assert Shunt(st, tok) == Ok(st);
    }
  }

  lemma CommaDepth(st: State)
    requires StackShape(st.ops) && "(" in st.ops
    ensures Shunt(st, ",").Ok?
    ensures StackShape(Shunt(st, ",").value.ops)
    ensures Count(Shunt(st, ",").value.ops, "(") == Count(st.ops, "(")
  {
    var popped, rest := CommaStep(st);
    StackPrefix(st.ops, popped, rest);
    CountAppend(popped, rest, "(");
    CountPositive(popped, "(");
  }

  lemma OperatorDepth(st: State, tok: string)
    requires StackShape(st.ops) && |tok| > 0 && !IsNumeric(tok) && IsOpToken(tok) && !IsFunction(tok)
    ensures Shunt(st, tok).Ok?
    ensures StackShape(Shunt(st, tok).value.ops)
    ensures Count(Shunt(st, tok).value.ops, "(") == Count(st.ops, "(")
  {
    var popped, rest := OperatorStep(st, tok);
    StackPrefix(st.ops, popped, rest);
    CountAppend(popped, rest, "(");
    Punctuation("(");
    assert "(" !in popped by {
      assert forall k :: 0 <= k < |popped| ==> IsOpToken(popped[k]);
    }
    CountPositive(popped, "(");
    PushShape(tok, rest);
  }

  /** Pushing a grammar symbol keeps the shape and the count of `(`. */
  lemma PushShape(tok: string, rest: seq<string>)
    requires IsOpToken(tok) && StackShape(rest)
    ensures StackShape([tok] + rest)
    ensures Count([tok] + rest, "(") == Count(rest, "(")
  {
    Punctuation("(");
    CountAppend([tok], rest, "(");
    assert forall k :: 0 < k < |rest| + 1 ==> ([tok] + rest)[k] == rest[k - 1];
  }

  lemma CloseDepth(st: State)
    requires StackShape(st.ops) && "(" in st.ops
    ensures Shunt(st, ")").Ok?
    ensures StackShape(Shunt(st, ")").value.ops)
    ensures Count(Shunt(st, ")").value.ops, "(") == Count(st.ops, "(") - 1
  {
    var popped, below := CloseParen(st);
    ShapeSuffix(st.ops, |popped| + 1);
    assert st.ops[|popped| + 1..] == below;
    OpenBelow(st.ops, popped, below);
    if |below| > 0 && IsFunction(below[0]) {
      FunctionBelow(below);
      ShapeSuffix(below, 1);
    }
  }

  lemma OpenBelow(ops: seq<string>, popped: seq<string>, below: seq<string>)
    requires ops == popped + ["("] + below && "(" !in popped
    ensures Count(ops, "(") == Count(below, "(") + 1
  {
    CountAppend(popped, ["("] + below, "(");
    CountAppend(["("], below, "(");
    CountPositive(popped, "(");
    assert popped + ["("] + below == popped + (["("] + below);
  }

  lemma FunctionBelow(below: seq<string>)
    requires |below| > 0 && IsFunction(below[0])
    ensures Count(below[1..], "(") == Count(below, "(")
  {
    FunctionIsSymbol(below[0]);
    assert below[0] != "(";
  }

  lemma ShapeSuffix(ops: seq<string>, k: nat)
    requires StackShape(ops) && k <= |ops|
    ensures StackShape(ops[k..])
  {
    assert forall i :: 0 <= i < |ops| - k ==> ops[k..][i] == ops[k + i];
  }

  /** On `)` the converter pops operators into the output down to the
      nearest `(`, discards it, and then emits a function name found on top. */
  lemma CloseParen(st: State) returns (popped: seq<string>, below: seq<string>)
    requires "(" in st.ops
    ensures st.ops == popped + ["("] + below
    ensures "(" !in popped
    ensures Shunt(st, ")") ==
              if |below| > 0 && IsFunction(below[0])
              then Ok(State(st.output + popped + [below[0]], below[1..]))
              else Ok(State(st.output + popped, below))
  {
    PunctuationNotNumeric(")");
    var split := PopToOpen(st.ops).value;
    popped := split.0;
    below := split.1[1..];
    OpenSplit(st.ops, split.0, split.1);
  }

  lemma OpenSplit(ops: seq<string>, popped: seq<string>, rest: seq<string>)
    requires PopToOpen(ops) == Ok((popped, rest))
    ensures ops == popped + ["("] + rest[1..]
  {
    var below := rest[1..];
    assert |rest| > 0 && rest[0] == "(";
    OpenFront(rest);
    Associative(popped, ["("], below);
  }

  lemma OpenFront(rest: seq<string>)
    requires |rest| > 0 && rest[0] == "("
    ensures rest == ["("] + rest[1..]
  {
  }

  /** On an operator token the converter pops every operator that the token
      pops, in stack order, into the output, and then pushes the token. */
  lemma OperatorStep(st: State, tok: string) returns (popped: seq<string>, rest: seq<string>)
    requires |tok| > 0 && IsOpToken(tok) && !IsFunction(tok)
    ensures st.ops == popped + rest
    ensures forall k :: 0 <= k < |popped| ==> Pops(tok, popped[k])
    ensures |rest| == 0 || !Pops(tok, rest[0])
    ensures Shunt(st, tok) == Ok(State(st.output + popped, [tok] + rest))
  {
    SymbolsNotNumeric(tok);
    var split := PopWhile(tok, st.ops);
    popped, rest := split.0, split.1;
  }

  lemma {:induction false} ShuntAllNested(st: State, tokens: seq<string>)
    requires StackShape(st.ops)
    ensures (ShuntAll(st, tokens).Ok? && "(" !in ShuntAll(st, tokens).value.ops)
              <==> Nested(tokens, Count(st.ops, "("))
    decreases |tokens|
  {
    if |tokens| == 0 {
      CountPositive(st.ops, "(");
    } else {
      ShuntDepth(st, tokens[0]);
      if Shunt(st, tokens[0]).Ok? {
        ShuntAllNested(Shunt(st, tokens[0]).value, tokens[1..]);
      }
    }
  }

  /** The converter succeeds exactly on token sequences with balanced
      grouping: an unmatched `)`, a `,` outside any `(`, or a `(` left open
      are the only ways to fail. */
  lemma ConvertsIffNested(tokens: seq<string>)
    ensures ToPostfix(tokens).Ok? <==> Nested(tokens, 0)
    ensures ToPostfix(tokens).Err? ==> ToPostfix(tokens).fault == UnbalancedGrouping
  {
    ShuntAllNested(State([], []), tokens);
    ShuntAllFault(State([], []), tokens);
  }

  lemma {:induction false} ShuntAllFault(st: State, tokens: seq<string>)
    ensures ShuntAll(st, tokens).Err? ==> ShuntAll(st, tokens).fault == UnbalancedGrouping
    decreases |tokens|
  {
    if |tokens| > 0 && Shunt(st, tokens[0]).Ok? {
      ShuntAllFault(Shunt(st, tokens[0]).value, tokens[1..]);
    }
  }

  // ------------------------------------------------ what reaches the output

  lemma ShapeNotNumeric(ops: seq<string>)
    requires StackShape(ops)
    ensures Filter(IsNumeric, ops) == []
  {
    forall k | 0 <= k < |ops| ensures !IsNumeric(ops[k]) {
      if ops[k] == "(" { PunctuationNotNumeric("("); } else { SymbolsNotNumeric(ops[k]); }
    }
    FilterNone(IsNumeric, ops);
  }

  lemma {:induction false} NoOpenKept(popped: seq<string>)
    requires "(" !in popped
    ensures Filter(NotOpen, popped) == popped
  {
    if |popped| > 0 {
      var tail := popped[1..];
      assert popped == [popped[0]] + tail;
      assert NotOpen(popped[0]);
      NoOpenKept(tail);
    }
  }

  /** What one token adds: the numbers emitted grow by the token when it is
      a number, and output plus the symbols still stacked grow by the token
      when it is meaningful. */
  predicate Accounts(st: State, tok: string, st': State) {
    && Filter(IsNumeric, st'.output) == Filter(IsNumeric, st.output) + Filter(IsNumeric, [tok])
    && multiset(st'.output) + multiset(Filter(NotOpen, st'.ops))
         == multiset(st.output) + multiset(Filter(NotOpen, st.ops)) + multiset(Filter(Meaningful, [tok]))
  }

  lemma ShuntAccounts(st: State, tok: string)
    requires StackShape(st.ops) && Shunt(st, tok).Ok?
    ensures Accounts(st, tok, Shunt(st, tok).value)
  {
    if tok in {",", "(", ")"} {
      PunctuationNotNumeric(tok);
    }
    if |tok| == 0 {
      assert !IsOpToken(tok) && !IsNumeric(tok);
      assert Shunt(st, tok).value == st;
    } else if IsNumeric(tok) {
      FilterAppend(IsNumeric, st.output, [tok]);
    } else if IsFunction(tok) {
      FunctionAccounts(st, tok);
    } else if tok == "," {
      CommaAccounts(st);
    } else if IsOpToken(tok) {
      OperatorAccounts(st, tok);
    } else if tok == "(" {
      assert Shunt(st, tok).value == State(st.output, ["("] + st.ops);
      FilterAppend(NotOpen, ["("], st.ops);
    } else if tok == ")" {
      CloseAccounts(st);
    } else {
      assert Shunt(st, tok).value == st;
    }
  }

  lemma FunctionAccounts(st: State, tok: string)
    requires |tok| > 0 && !IsNumeric(tok) && IsFunction(tok)
    ensures Accounts(st, tok, Shunt(st, tok).value)
  {
    FunctionIsSymbol(tok);
    assert Shunt(st, tok).value == State(st.output, [tok] + st.ops);
    FilterAppend(NotOpen, [tok], st.ops);
  }

  lemma CommaAccounts(st: State)
    requires StackShape(st.ops) && "(" in st.ops
    ensures Accounts(st, ",", Shunt(st, ",").value)
  {
    var popped, rest := CommaStep(st);
    StackPrefix(st.ops, popped, rest);
    MoveToOutput(st.output, popped, rest);
    PunctuationNotNumeric(",");
    FilterOne(IsNumeric, ",");
    FilterOne(Meaningful, ",");
  }

  lemma OperatorAccounts(st: State, tok: string)
    requires StackShape(st.ops) && |tok| > 0 && !IsNumeric(tok) && IsOpToken(tok) && !IsFunction(tok)
    ensures Accounts(st, tok, Shunt(st, tok).value)
  {
    var popped, rest := OperatorStep(st, tok);
    StackPrefix(st.ops, popped, rest);
    Punctuation("(");
    assert "(" !in popped by {
      assert forall k :: 0 <= k < |popped| ==> IsOpToken(popped[k]);
    }
    MoveToOutput(st.output, popped, rest);
    PushAccounts(tok, rest);
  }

  /** A pushed grammar symbol is counted once, on the stack. */
  lemma PushAccounts(tok: string, rest: seq<string>)
    requires IsOpToken(tok) && !IsNumeric(tok)
    ensures Filter(IsNumeric, [tok]) == []
    ensures multiset(Filter(NotOpen, [tok] + rest)) == multiset(Filter(NotOpen, rest)) + multiset(Filter(Meaningful, [tok]))
  {
    Punctuation("(");
    FilterAppend(NotOpen, [tok], rest);
    FilterOne(NotOpen, tok);
    FilterOne(IsNumeric, tok);
    FilterOne(Meaningful, tok);
  }

  lemma StackPrefix(ops: seq<string>, popped: seq<string>, rest: seq<string>)
    requires StackShape(ops) && ops == popped + rest
    ensures StackShape(popped) && StackShape(rest)
    ensures Filter(IsNumeric, popped) == []
  {
    assert forall k :: 0 <= k < |popped| ==> popped[k] == ops[k];
    assert forall k :: 0 <= k < |rest| ==> rest[k] == ops[|popped| + k];
    ShapeNotNumeric(popped);
  }

  /** On `,` the converter pops operators into the output down to, but not
      including, the nearest `(`. */
  lemma CommaStep(st: State) returns (popped: seq<string>, rest: seq<string>)
    requires "(" in st.ops
    ensures st.ops == popped + rest && "(" !in popped && |rest| > 0 && rest[0] == "("
    ensures Shunt(st, ",") == Ok(State(st.output + popped, rest))
  {
    PunctuationNotNumeric(",");
    var split := PopToOpen(st.ops).value;
    popped, rest := split.0, split.1;
  }

  lemma CloseAccounts(st: State)
    requires StackShape(st.ops) && "(" in st.ops
    ensures Accounts(st, ")", Shunt(st, ")").value)
  {
    var popped, below := CloseParen(st);
    if |below| > 0 && IsFunction(below[0]) {
      CloseFunctionAccounts(st, popped, below);
    } else {
      ClosePlainAccounts(st, popped, below);
    }
  }

  /** What `)` leaves: the stack below the `(` and the popped operators. */
  lemma CloseCommon(st: State, popped: seq<string>, below: seq<string>)
    requires StackShape(st.ops) && st.ops == popped + ["("] + below && "(" !in popped
    ensures StackShape(below)
    ensures Filter(IsNumeric, st.output + popped) == Filter(IsNumeric, st.output)
    ensures multiset(st.output + popped) + multiset(Filter(NotOpen, below))
              == multiset(st.output) + multiset(Filter(NotOpen, st.ops))
    ensures Filter(IsNumeric, [")"]) == [] && Filter(Meaningful, [")"]) == []
  {
    PunctuationNotNumeric(")");
    var rest := ["("] + below;
    assert st.ops == popped + rest;
    StackPrefix(st.ops, popped, rest);
    MoveToOutput(st.output, popped, rest);
    FilterAppend(NotOpen, ["("], below);
    FilterOne(NotOpen, "(");
    FilterOne(IsNumeric, ")");
    FilterOne(Meaningful, ")");
    ShapeSuffix(rest, 1);
    assert rest[1..] == below;
  }

  lemma ClosePlainAccounts(st: State, popped: seq<string>, below: seq<string>)
    requires StackShape(st.ops) && st.ops == popped + ["("] + below && "(" !in popped
    ensures Accounts(st, ")", State(st.output + popped, below))
  {
    CloseCommon(st, popped, below);
  }

  lemma CloseFunctionAccounts(st: State, popped: seq<string>, below: seq<string>)
    requires StackShape(st.ops) && st.ops == popped + ["("] + below && "(" !in popped
    requires |below| > 0 && IsFunction(below[0])
    ensures Accounts(st, ")", State(st.output + popped + [below[0]], below[1..]))
  {
    CloseCommon(st, popped, below);
    FunctionIsSymbol(below[0]);
    SymbolsNotNumeric(below[0]);
    EmitFunction(st.output + popped, below);
  }

  /** Popped operators move from the stack to the output. */
  lemma MoveToOutput(out: seq<string>, popped: seq<string>, rest: seq<string>)
    requires Filter(IsNumeric, popped) == [] && "(" !in popped
    ensures Filter(IsNumeric, out + popped) == Filter(IsNumeric, out)
    ensures multiset(out + popped) + multiset(Filter(NotOpen, rest))
              == multiset(out) + multiset(Filter(NotOpen, popped + rest))
  {
    FilterAppend(IsNumeric, out, popped);
    FilterAppend(NotOpen, popped, rest);
    NoOpenKept(popped);
  }

  /** Emitting the function name found below a discarded `(` moves it from
      the stack to the output. */
  lemma EmitFunction(out: seq<string>, below: seq<string>)
    requires |below| > 0 && !IsNumeric(below[0]) && below[0] != "("
    ensures Filter(IsNumeric, out + [below[0]]) == Filter(IsNumeric, out)
    ensures multiset(out + [below[0]]) + multiset(Filter(NotOpen, below[1..]))
              == multiset(out) + multiset(Filter(NotOpen, below))
  {
    var f := below[0];
    assert NotOpen(f);
    assert below == [f] + below[1..];
    FilterAppend(NotOpen, [f], below[1..]);
    FilterOne(NotOpen, f);
    FilterAppend(IsNumeric, out, [f]);
    FilterOne(IsNumeric, f);
    assert Filter(NotOpen, below) == [f] + Filter(NotOpen, below[1..]);
    assert multiset(out + [f]) == multiset(out) + multiset{f};
  }

  /** What a run of tokens adds, as `Accounts` does for one token. */
  predicate AccountsAll(st: State, tokens: seq<string>, fin: State) {
    && Filter(IsNumeric, fin.output) == Filter(IsNumeric, st.output) + Filter(IsNumeric, tokens)
    && multiset(fin.output) + multiset(Filter(NotOpen, fin.ops))
         == multiset(st.output) + multiset(Filter(NotOpen, st.ops)) + multiset(Filter(Meaningful, tokens))
  }

  lemma AccountsChain(st: State, t: string, mid: State, rest: seq<string>, fin: State)
    requires Accounts(st, t, mid) && AccountsAll(mid, rest, fin)
    ensures AccountsAll(st, [t] + rest, fin)
  {
    ChainFilter(IsNumeric, st.output, mid.output, fin.output, t, rest);
    ChainMultiset(Meaningful, multiset(st.output) + multiset(Filter(NotOpen, st.ops)),
                  multiset(mid.output) + multiset(Filter(NotOpen, mid.ops)),
                  multiset(fin.output) + multiset(Filter(NotOpen, fin.ops)), t, rest);
  }

  lemma ChainFilter(f: string -> bool, a0: seq<string>, a1: seq<string>, a2: seq<string>,
                    t: string, rest: seq<string>)
    requires Filter(f, a1) == Filter(f, a0) + Filter(f, [t])
    requires Filter(f, a2) == Filter(f, a1) + Filter(f, rest)
    ensures Filter(f, a2) == Filter(f, a0) + Filter(f, [t] + rest)
  {
    FilterAppend(f, [t], rest);
    Associative(Filter(f, a0), Filter(f, [t]), Filter(f, rest));
  }

  lemma Associative(x: seq<string>, y: seq<string>, z: seq<string>)
    ensures (x + y) + z == x + (y + z)
  {
  }

  lemma ChainMultiset(f: string -> bool, m0: multiset<string>, m1: multiset<string>, m2: multiset<string>,
                      t: string, rest: seq<string>)
    requires m1 == m0 + multiset(Filter(f, [t]))
    requires m2 == m1 + multiset(Filter(f, rest))
    ensures m2 == m0 + multiset(Filter(f, [t] + rest))
  {
    FilterAppend(f, [t], rest);
  }

  lemma {:induction false} ShuntAllAccounts(st: State, tokens: seq<string>)
    requires StackShape(st.ops) && ShuntAll(st, tokens).Ok?
    ensures StackShape(ShuntAll(st, tokens).value.ops)
    ensures AccountsAll(st, tokens, ShuntAll(st, tokens).value)
    decreases |tokens|
  {
    if |tokens| > 0 {
      var next := Shunt(st, tokens[0]).value;
      var fin := ShuntAll(st, tokens).value;
      assert ShuntAll(next, tokens[1..]) == Ok(fin);
      ShuntDepth(st, tokens[0]);
      ShuntAccounts(st, tokens[0]);
      ShuntAllAccounts(next, tokens[1..]);
      AccountsChain(st, tokens[0], next, tokens[1..], fin);
      assert tokens == [tokens[0]] + tokens[1..];
    } else {
      assert ShuntAll(st, tokens).value == st;
    }
  }

  /** Numbers reach the output unchanged and in input order. */
  lemma NumeralsInOrder(tokens: seq<string>, out: seq<string>)
    requires ToPostfix(tokens) == Ok(out)
    ensures Filter(IsNumeric, out) == Filter(IsNumeric, tokens)
  {
    var fin := ShuntAll(State([], []), tokens).value;
    ShuntAllAccounts(State([], []), tokens);
    assert out == fin.output + fin.ops;
    FilterAppend(IsNumeric, fin.output, fin.ops);
    ShapeNotNumeric(fin.ops);
  }

  /** The output is a rearrangement of the input's numbers and grammar
      symbols: each appears exactly once, while parentheses, commas and
      unrecognised tokens vanish. */
  lemma OutputPermutesSymbols(tokens: seq<string>, out: seq<string>)
    requires ToPostfix(tokens) == Ok(out)
    ensures multiset(out) == multiset(Filter(Meaningful, tokens))
  {
    var fin := ShuntAll(State([], []), tokens).value;
    ShuntAllAccounts(State([], []), tokens);
    assert out == fin.output + fin.ops;
    NoOpenKept(fin.ops);
  }
}
