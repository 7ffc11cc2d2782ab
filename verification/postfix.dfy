/** The infix-to-postfix converter (shunting yard). Operator stacks are
    sequences with the TOP AT INDEX 0, so popping `k` operators yields the
    first `k` elements in pop order. */
module Postfix {
  import opened Outcomes
  import opened Grammar
  import opened Numbers

  /** Output so far and the operator stack (top first). */
  datatype State = State(output: seq<string>, ops: seq<string>)

  /** Whether `tok` pops `top`: `top` is an operator and `tok` either is
      left-associative and binds no tighter, or is right-associative and
      binds strictly looser. */
  predicate Pops(tok: string, top: string)
    requires IsOpToken(tok)
  {
    && IsOpToken(top)
    && (|| (Associativity(tok) == Left && Precedence(tok) <= Precedence(top))
        || (Associativity(tok) == Right && Precedence(tok) < Precedence(top)))
  }

  /** Pop operators that `tok` pops; returns (popped in pop order, rest). */
  function PopWhile(tok: string, ops: seq<string>): (r: (seq<string>, seq<string>))
    requires IsOpToken(tok)
    ensures ops == r.0 + r.1
    ensures forall k :: 0 <= k < |r.0| ==> Pops(tok, r.0[k])
    ensures |r.1| == 0 || !Pops(tok, r.1[0])
  {
    if |ops| > 0 && Pops(tok, ops[0]) then
      var (popped, rest) := PopWhile(tok, ops[1..]);
      ([ops[0]] + popped, rest)
    else ([], ops)
  }

  /** Pop down to (not including) the nearest `(`; fails when there is none. */
  function PopToOpen(ops: seq<string>): (r: Result<(seq<string>, seq<string>)>)
    ensures r.Ok? <==> "(" in ops
    ensures r.Err? ==> r.fault == UnbalancedGrouping
    ensures r.Ok? ==> && ops == r.value.0 + r.value.1
                      && |r.value.1| > 0 && r.value.1[0] == "("
                      && "(" !in r.value.0
  {
    if |ops| == 0 then Err(UnbalancedGrouping)
    else if ops[0] == "(" then Ok(([], ops))
    else
      var tail := ops[1..];
      assert ops == [ops[0]] + tail;
      var (popped, rest) :- PopToOpen(tail);
      assert [ops[0]] + (popped + rest) == ([ops[0]] + popped) + rest;
      Ok(([ops[0]] + popped, rest))
  }

  /** Consume one token. Empty tokens and tokens that are neither numbers,
      grammar symbols, `,`, `(` nor `)` are ignored. */
  function Shunt(st: State, tok: string): (r: Result<State>)
    ensures r.Err? ==> r.fault == UnbalancedGrouping && tok in {",", ")"} && "(" !in st.ops
  {
    if |tok| == 0 then Ok(st)
    else if IsNumeric(tok) then Ok(State(st.output + [tok], st.ops))
    else if IsFunction(tok) then Ok(State(st.output, [tok] + st.ops))
    else if tok == "," then
      var (popped, rest) :- PopToOpen(st.ops);
      Ok(State(st.output + popped, rest))
    else if IsOpToken(tok) then
      var (popped, rest) := PopWhile(tok, st.ops);
      Ok(State(st.output + popped, [tok] + rest))
    else if tok == "(" then Ok(State(st.output, ["("] + st.ops))
    else if tok == ")" then
      var (popped, rest) :- PopToOpen(st.ops);
      var below := rest[1..];
      if |below| > 0 && IsFunction(below[0]) then Ok(State(st.output + popped + [below[0]], below[1..]))
      else Ok(State(st.output + popped, below))
    else Ok(st)
  }

  /** A number goes to the output; an operator first moves what it pops
      to the output and is then pushed; `,` or `)` with no `(` on the
      stack is unbalanced grouping. */
  lemma ShuntCases(st: State, tok: string)
    ensures |tok| > 0 && IsNumeric(tok) ==> Shunt(st, tok) == Ok(State(st.output + [tok], st.ops))
    ensures |tok| > 0 && !IsNumeric(tok) && IsOpToken(tok) && !IsFunction(tok) ==>
              var (popped, rest) := PopWhile(tok, st.ops);
              Shunt(st, tok) == Ok(State(st.output + popped, [tok] + rest))
    ensures tok in {",", ")"} && "(" !in st.ops ==> Shunt(st, tok) == Err(UnbalancedGrouping)
  {
    if tok in {",", ")"} {
      Punctuation(tok);
      NonNumericText(tok);
    }
  }

  function ShuntAll(st: State, tokens: seq<string>): (r: Result<State>)
    ensures r.Err? ==> r.fault == UnbalancedGrouping
    decreases |tokens|
  {
    if |tokens| == 0 then Ok(st)
    else
      var next :- Shunt(st, tokens[0]);
      ShuntAll(next, tokens[1..])
  }

  /** End of input: the operator stack is emitted top first; a `(` left on
      it is unbalanced grouping. */
  function Drain(st: State): (r: Result<seq<string>>)
    ensures r.Ok? <==> "(" !in st.ops
    ensures r.Ok? ==> r.value == st.output + st.ops
  {
    if "(" in st.ops then Err(UnbalancedGrouping) else Ok(st.output + st.ops)
  }

  /** The postfix form of a token sequence. */
  function ToPostfix(tokens: seq<string>): (r: Result<seq<string>>)
    ensures r.Err? ==> r.fault == UnbalancedGrouping
  {
    var st :- ShuntAll(State([], []), tokens);
    Drain(st)
  }
}
