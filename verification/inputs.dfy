/** The expression texts behind the two programs of module `Findings`:
    `2d6x1r0+1d6` converts to the program that shows the leaking drop,
    and `1d6p(0-1)r1` to the one that shows the lost negative bonus. */
module Inputs {
  import opened Outcomes
  import opened Grammar
  import opened Numbers
  import opened Lexer
  import opened Postfix
  import opened Evaluator
  import opened Findings
  import opened Engine

  /** On the draws 0, 0, 3 the original evaluates `2d6x1r0+1d6` to 1:
      the drop of `2d6x1` stays pending and also drops the one die of
      `1d6`. In the corrected layout `2d6` dropping the lowest shows 1,
      `1d6` shows 4 and the result is 5. */
  lemma LeakFromText()
    ensures PostfixOf(LeakText).Ok? && DecodeAll(PostfixOf(LeakText).value) == LeakProgram
    ensures Evaluate(LeakText, LeakDraws, 20, AsWritten).Ok?
    ensures Evaluate(LeakText, LeakDraws, 20, AsWritten).value.grandTotal == 1.0
    ensures Evaluate(LeakText, LeakDraws, 25, Intended).Ok?
    ensures Evaluate(LeakText, LeakDraws, 25, Intended).value.grandTotal == 5.0
  {
    LeakTokenized();
    var ts := Tokenize(LeakText).value;
    LeakTokensLow(LeakText, ts);
    LeakTokensHigh(LeakText, ts);
    LeakConverted(ts);
    var ps := ToPostfix(ts).value;
    LeakPostfixAt(ps);
    LeakPostfixDecodes(ps);
    LeakDecoded(ps);
    LeakIntended();
    LeakAsWritten();
    PostfixOfTokens(LeakText);
  }

  /** A digit on its own is a number, and goes straight to the output. */
  lemma DigitShunt(st: State, c: char)
    requires IsDigit(c)
    ensures Shunt(st, [c]) == Ok(State(st.output + [[c]], st.ops))
  {
    assert DotIndex([c]) == 1;
    assert [c][..1] == [c];
  }

  /** A one-character operator first moves the operators it pops to the
      output and is then pushed. */
  lemma OperatorShunt(st: State, c: char, popped: seq<string>, rest: seq<string>)
    requires c in {'^', '+', '-', '*', '/', 'd', 'e', 'f', 'g', 'x', 'r', 'p'}
    requires PopWhile([c], st.ops) == (popped, rest)
    ensures Shunt(st, [c]) == Ok(State(st.output + popped, [[c]] + rest))
  {
    NonNumericText([c]);
    FunctionSymbols([c]);
  }

  /** Two operators other than `(` left on the stack go to the output. */
  lemma DrainTwo(ts: seq<string>, st: State, a: char, b: char)
    requires ShuntAll(State([], []), ts) == Ok(st)
    requires st.ops == [[a], [b]] && a != '(' && b != '('
    ensures ToPostfix(ts) == Ok(st.output + st.ops)
  {
    assert [a][0] != "("[0] && [b][0] != "("[0];
  }

  lemma ShuntNext(st: State, tokens: seq<string>, st': State)
    requires |tokens| > 0 && Shunt(st, tokens[0]) == Ok(st')
    ensures ShuntAll(st, tokens) == ShuntAll(st', tokens[1..])
  {
  }

  const LeakText: string := "2d6x1r0+1d6"

  lemma LeakTokenized()
    ensures Tokenize(LeakText).Ok? && |Tokenize(LeakText).value| == |LeakText|
    ensures forall i :: 0 <= i < |LeakText| ==> Tokenize(LeakText).value[i] == [LeakText[i]]
  {
    LeakCharMode();
    LeakSeparated();
    CharModeSingles(LeakText);
  }

  /** The tokens of `2d6x1r0+1d6`, one per character. */
  lemma LeakTokensLow(s: string, ts: seq<string>)
    requires s == LeakText && |ts| == |s| && forall i :: 0 <= i < |s| ==> ts[i] == [s[i]]
    ensures |ts| == 11 && ts[0] == "2" && ts[1] == "d" && ts[2] == "6" && ts[3] == "x" && ts[4] == "1" && ts[5] == "r"
  {
    assert ts[0] == [s[0]];
    assert ts[1] == [s[1]];
    assert ts[2] == [s[2]];
    assert ts[3] == [s[3]];
    assert ts[4] == [s[4]];
    assert ts[5] == [s[5]];
  }

  lemma LeakTokensHigh(s: string, ts: seq<string>)
    requires s == LeakText && |ts| == |s| && forall i :: 0 <= i < |s| ==> ts[i] == [s[i]]
    ensures ts[6] == "0" && ts[7] == "+" && ts[8] == "1" && ts[9] == "d" && ts[10] == "6"
  {
    assert ts[6] == [s[6]];
    assert ts[7] == [s[7]];
    assert ts[8] == [s[8]];
    assert ts[9] == [s[9]];
    assert ts[10] == [s[10]];
  }

  lemma LeakCharMode()
    ensures !SplitMode(LeakText)
  {
    var s := LeakText;
    assert Leading(s) == 0;
    assert s[0..] == s;
    assert Trailing(s) == 0;
    assert Trim(s) == s;
  }

  lemma LeakSeparated()
    ensures Separated(LeakText)
  {
    var s := LeakText;
    forall k | 0 <= k < |s|
      ensures IsClassified(s[k]) && s[k] != 'z' && (IsOperand(s[k]) && k + 1 < |s| ==> IsOperator(s[k + 1]))
    {
      if k % 2 == 0 {
        assert IsOperand(s[k]);
      } else {
        assert IsOperator(s[k]) && s[k] != 'z';
      }
    }
  }

  /** A digit token at `k` goes to the output. */
  lemma DigitAt(st: State, ts: seq<string>, k: nat, c: char, st': State)
    requires k < |ts| && ts[k] == [c] && IsDigit(c)
    requires st'.output == st.output + [[c]] && st'.ops == st.ops
    ensures ShuntAll(st, ts[k..]) == ShuntAll(st', ts[k + 1..])
  {
    DigitShunt(st, c);
    assert ts[k..][1..] == ts[k + 1..];
  }

  /** An operator token at `k` pops what it binds no tighter than, and is
      pushed. */
  lemma OperatorAt(st: State, ts: seq<string>, k: nat, c: char, popped: seq<string>, rest: seq<string>, st': State)
    requires k < |ts| && ts[k] == [c]
    requires c in {'^', '+', '-', '*', '/', 'd', 'e', 'f', 'g', 'x', 'r', 'p'}
    requires PopWhile([c], st.ops) == (popped, rest)
    requires st'.output == st.output + popped && st'.ops == [[c]] + rest
    ensures ShuntAll(st, ts[k..]) == ShuntAll(st', ts[k + 1..])
  {
    OperatorShunt(st, c, popped, rest);
    assert ts[k..][1..] == ts[k + 1..];
  }

  lemma PopsNone(tok: string, ops: seq<string>)
    requires IsOpToken(tok) && |ops| > 0 && !Pops(tok, ops[0])
    ensures PopWhile(tok, ops) == ([], ops)
  {
  }

  lemma PopsOne(tok: string, ops: seq<string>)
    requires IsOpToken(tok) && |ops| == 2 && Pops(tok, ops[0]) && !Pops(tok, ops[1])
    ensures PopWhile(tok, ops) == ([ops[0]], ops[1..])
  {
    PopsNone(tok, ops[1..]);
    assert [ops[0]] + [] == [ops[0]];
  }

  lemma PopsTwo(tok: string, ops: seq<string>)
    requires IsOpToken(tok) && |ops| == 2 && Pops(tok, ops[0]) && Pops(tok, ops[1])
    ensures PopWhile(tok, ops) == (ops, [])
  {
    var tail := ops[1..];
    assert tail[1..] == [];
    assert PopWhile(tok, tail[1..]) == ([], []);
    assert [tail[0]] + [] == [tail[0]];
    assert PopWhile(tok, tail) == ([tail[0]], []);
    assert [ops[0]] + [tail[0]] == ops;
  }

  /** `2d6x1r0+1d6` in postfix: the drop `1 x` binds tighter than `r`,
      which binds tighter than `+`. */
  lemma LeakConverted(ts: seq<string>)
    requires |ts| == 11
    requires ts[0] == "2" && ts[1] == "d" && ts[2] == "6" && ts[3] == "x" && ts[4] == "1" && ts[5] == "r"
    requires ts[6] == "0" && ts[7] == "+" && ts[8] == "1" && ts[9] == "d" && ts[10] == "6"
    ensures ToPostfix(ts) == Ok(["2", "6", "1", "x", "0", "r", "d", "1", "6"] + ["d", "+"])
  {
    var s4 := State(["2", "6"], ["x", "d"]);
    var s8 := State(["2", "6", "1", "x", "0", "r", "d"], ["+"]);
    var s11 := State(["2", "6", "1", "x", "0", "r", "d", "1", "6"], ["d", "+"]);
    assert ts[0..] == ts;
    FirstRoll(ts, '2', 'x', s4);
    LeakMiddle(ts, s4, s8);
    LeakLast(ts, s8, s11);
    assert ShuntAll(s11, ts[11..]) == Ok(s11);
    DrainTwo(ts, s11, s11.ops[0][0], s11.ops[1][0]);
  }

  /** `n d 6 x` or `n d 6 p` at the start: the modifier binds tighter
      than `d`. */
  lemma FirstRoll(ts: seq<string>, c: char, mod: char, s4: State)
    requires |ts| >= 4 && ts[0] == [c] && IsDigit(c) && ts[1] == "d" && ts[2] == "6" && ts[3] == [mod]
    requires mod in {'x', 'p'}
    requires s4 == State([[c], "6"], [[mod], "d"])
    ensures ShuntAll(State([], []), ts[0..]) == ShuntAll(s4, ts[4..])
  {
    var s2 := State([[c]], ["d"]);
    LeadingDice(ts, c, s2);
    SixThenModifier(ts, c, mod, s2, s4);
  }

  /** `n d` at the start: the digit goes out and `d` is pushed. */
  lemma LeadingDice(ts: seq<string>, c: char, s2: State)
    requires |ts| >= 2 && ts[0] == [c] && IsDigit(c) && ts[1] == "d"
    requires s2 == State([[c]], ["d"])
    ensures ShuntAll(State([], []), ts[0..]) == ShuntAll(s2, ts[2..])
  {
    var s0 := State([], []);
    var s1 := State(s0.output + [[c]], []);
    RollSymbols("d");
    DigitAt(s0, ts, 0, c, s1);
    OperatorAt(s1, ts, 1, 'd', [], [], s2);
  }

  /** `6 x` or `6 p` after `n d`: the modifier binds tighter than `d` and
      is pushed above it. */
  lemma SixThenModifier(ts: seq<string>, c: char, mod: char, s2: State, s4: State)
    requires |ts| >= 4 && ts[2] == "6" && ts[3] == [mod] && mod in {'x', 'p'}
    requires s2 == State([[c]], ["d"])
    requires s4 == State([[c], "6"], [[mod], "d"])
    ensures ShuntAll(s2, ts[2..]) == ShuntAll(s4, ts[4..])
  {
    var s3 := State(s2.output + ["6"], s2.ops);
    RollSymbols("d");
    ModifierSymbols([mod]);
    DigitAt(s2, ts, 2, '6', s3);
    PopsNone([mod], s3.ops);
    OperatorAt(s3, ts, 3, mod, [], s3.ops, s4);
  }

  /** `1 r`: `r` pops `x` but not `d`. */
  lemma LeakMiddle(ts: seq<string>, s4: State, s8: State)
    requires |ts| == 11 && ts[4] == "1" && ts[5] == "r" && ts[6] == "0" && ts[7] == "+"
    requires s4 == State(["2", "6"], ["x", "d"])
    requires s8 == State(["2", "6", "1", "x", "0", "r", "d"], ["+"])
    ensures ShuntAll(s4, ts[4..]) == ShuntAll(s8, ts[8..])
  {
    var s6 := State(["2", "6", "1", "x"], ["r", "d"]);
    LeakRepeat(ts, s4, s6);
    LeakPlus(ts, s6, s8);
  }

  lemma LeakRepeat(ts: seq<string>, s4: State, s6: State)
    requires |ts| == 11 && ts[4] == "1" && ts[5] == "r"
    requires s4 == State(["2", "6"], ["x", "d"])
    requires s6 == State(["2", "6", "1", "x"], ["r", "d"])
    ensures ShuntAll(s4, ts[4..]) == ShuntAll(s6, ts[6..])
  {
    var s5 := State(s4.output + ["1"], s4.ops);
    RollSymbols("d");
    ModifierSymbols("x");
    ModifierSymbols("r");
    DigitAt(s4, ts, 4, '1', s5);
    PopsOne("r", s5.ops);
    OperatorAt(s5, ts, 5, 'r', ["x"], ["d"], s6);
  }

  /** `0 +`: `+` pops both `r` and `d`. */
  lemma LeakPlus(ts: seq<string>, s6: State, s8: State)
    requires |ts| == 11 && ts[6] == "0" && ts[7] == "+"
    requires s6 == State(["2", "6", "1", "x"], ["r", "d"])
    requires s8 == State(["2", "6", "1", "x", "0", "r", "d"], ["+"])
    ensures ShuntAll(s6, ts[6..]) == ShuntAll(s8, ts[8..])
  {
    var s7 := State(s6.output + ["0"], s6.ops);
    RollSymbols("d");
    ModifierSymbols("r");
    ArithmeticSymbols("+");
    DigitAt(s6, ts, 6, '0', s7);
    PopsTwo("+", s7.ops);
    OperatorAt(s7, ts, 7, '+', s7.ops, [], s8);
  }

  /** `1 d 6`. */
  lemma LeakLast(ts: seq<string>, s8: State, s11: State)
    requires |ts| == 11 && ts[8] == "1" && ts[9] == "d" && ts[10] == "6"
    requires s8 == State(["2", "6", "1", "x", "0", "r", "d"], ["+"])
    requires s11 == State(["2", "6", "1", "x", "0", "r", "d", "1", "6"], ["d", "+"])
    ensures ShuntAll(s8, ts[8..]) == ShuntAll(s11, ts[11..])
  {
    var s9 := State(s8.output + ["1"], s8.ops);
    var s10 := State(s9.output, ["d"] + s9.ops);
    RollSymbols("d");
    ArithmeticSymbols("+");
    DigitAt(s8, ts, 8, '1', s9);
    PopsNone("d", s9.ops);
    OperatorAt(s9, ts, 9, 'd', [], s9.ops, s10);
    DigitAt(s10, ts, 10, '6', s11);
  }

  /** `(` is pushed. */
  lemma OpenAt(st: State, ts: seq<string>, k: nat, st': State)
    requires k < |ts| && ts[k] == "(" && st'.output == st.output && st'.ops == ["("] + st.ops
    ensures ShuntAll(st, ts[k..]) == ShuntAll(st', ts[k + 1..])
  {
    Punctuation("(");
    NonNumericText("(");
    assert ts[k..][1..] == ts[k + 1..];
  }

  /** `)` with `popped` above the nearest `(` and no function below it
      moves `popped` to the output and drops the `(`. */
  lemma CloseAt(st: State, ts: seq<string>, k: nat, popped: seq<string>, below: seq<string>, st': State)
    requires k < |ts| && ts[k] == ")"
    requires PopToOpen(st.ops) == Ok((popped, ["("] + below))
    requires |below| > 0 && !IsFunction(below[0])
    requires st'.output == st.output + popped && st'.ops == below
    ensures ShuntAll(st, ts[k..]) == ShuntAll(st', ts[k + 1..])
  {
    CloseShunt(st, popped, below);
    ShuntNext(st, ts[k..], st');
    assert ts[k..][1..] == ts[k + 1..];
  }

  lemma CloseShunt(st: State, popped: seq<string>, below: seq<string>)
    requires PopToOpen(st.ops) == Ok((popped, ["("] + below))
    requires |below| > 0 && !IsFunction(below[0])
    ensures Shunt(st, ")") == Ok(State(st.output + popped, below))
  {
    Punctuation(")");
    NonNumericText(")");
    assert ")"[0] != ","[0] && ")"[0] != "("[0];
    CloseBranch(st, ")", popped, below);
  }

  /** The `)` branch of one conversion step, once the token is known to be
      none of the earlier cases. */
  lemma CloseBranch(st: State, tok: string, popped: seq<string>, below: seq<string>)
    requires tok == ")" && !IsNumeric(tok) && !IsFunction(tok) && !IsOpToken(tok) && tok != "," && tok != "("
    requires PopToOpen(st.ops) == Ok((popped, ["("] + below))
    requires |below| > 0 && !IsFunction(below[0])
    ensures Shunt(st, tok) == Ok(State(st.output + popped, below))
  {
    var rest := ["("] + below;
    assert rest[1..] == below;
  }

  /** One operator above the nearest `(`. */
  lemma PopOneToOpen(ops: seq<string>)
    requires |ops| >= 2 && ops[0] != "(" && ops[1] == "("
    ensures PopToOpen(ops) == Ok(([ops[0]], ops[1..]))
  {
    assert PopToOpen(ops[1..]) == Ok(([], ops[1..]));
    assert [ops[0]] + [] == [ops[0]];
    assert ops[1..] == ops[1..][0..];
  }

  const BonusText: string := "1d6p(0-1)r1"

  /** On the draws 0, 0 the original evaluates `1d6p(0-1)r1` to 1: only
      the first of the two dice gets the bonus -1. In the corrected layout
      both dice show 1 with the bonus -1 and the result is 0. */
  lemma BonusFromText()
    ensures PostfixOf(BonusText).Ok? && DecodeAll(PostfixOf(BonusText).value) == BonusProgram
    ensures Evaluate(BonusText, BonusDraws, 16, AsWritten).Ok?
    ensures Evaluate(BonusText, BonusDraws, 16, AsWritten).value.grandTotal == 1.0
    ensures Evaluate(BonusText, BonusDraws, 24, Intended).Ok?
    ensures Evaluate(BonusText, BonusDraws, 24, Intended).value.grandTotal == 0.0
  {
    BonusTokenized();
    var ts := Tokenize(BonusText).value;
    BonusTokensLow(BonusText, ts);
    BonusTokensHigh(BonusText, ts);
    BonusConverted(ts);
    var ps := ToPostfix(ts).value;
    BonusPostfixAt(ps);
    BonusPostfixDecodes(ps);
    BonusDecoded(ps);
    BonusIntended();
    BonusAsWritten();
    PostfixOfTokens(BonusText);
  }

  lemma BonusTokenized()
    ensures Tokenize(BonusText).Ok? && |Tokenize(BonusText).value| == |BonusText|
    ensures forall i :: 0 <= i < |BonusText| ==> Tokenize(BonusText).value[i] == [BonusText[i]]
  {
    BonusCharMode();
    BonusSeparated();
    CharModeSingles(BonusText);
  }

  /** The tokens of `1d6p(0-1)r1`, one per character. */
  lemma BonusTokensLow(s: string, ts: seq<string>)
    requires s == BonusText && |ts| == |s| && forall i :: 0 <= i < |s| ==> ts[i] == [s[i]]
    ensures |ts| == 11 && ts[0] == "1" && ts[1] == "d" && ts[2] == "6" && ts[3] == "p" && ts[4] == "(" && ts[5] == "0"
  {
    assert ts[0] == [s[0]];
    assert ts[1] == [s[1]];
    assert ts[2] == [s[2]];
    assert ts[3] == [s[3]];
    assert ts[4] == [s[4]];
    assert ts[5] == [s[5]];
  }

  lemma BonusTokensHigh(s: string, ts: seq<string>)
    requires s == BonusText && |ts| == |s| && forall i :: 0 <= i < |s| ==> ts[i] == [s[i]]
    ensures ts[6] == "-" && ts[7] == "1" && ts[8] == ")" && ts[9] == "r" && ts[10] == "1"
  {
    assert ts[6] == [s[6]];
    assert ts[7] == [s[7]];
    assert ts[8] == [s[8]];
    assert ts[9] == [s[9]];
    assert ts[10] == [s[10]];
  }

  lemma BonusCharMode()
    ensures !SplitMode(BonusText)
  {
    var s := BonusText;
    assert Leading(s) == 0;
    assert s[0..] == s;
    assert Trailing(s) == 0;
    assert Trim(s) == s;
  }

  lemma BonusSeparated()
    ensures Separated(BonusText)
  {
    var s := BonusText;
    forall k | 0 <= k < |s|
      ensures IsClassified(s[k]) && s[k] != 'z' && (IsOperand(s[k]) && k + 1 < |s| ==> IsOperator(s[k + 1]))
    {
      if k in {0, 2, 5, 7, 10} {
        assert IsOperand(s[k]);
      } else {
        assert IsOperator(s[k]) && s[k] != 'z';
      }
    }
  }

  /** `1d6p(0-1)r1` in postfix: the bracketed `0 1 -` is the operand of
      `p`, and `r` pops `p` but not `d`. */
  lemma BonusConverted(ts: seq<string>)
    requires |ts| == 11
    requires ts[0] == "1" && ts[1] == "d" && ts[2] == "6" && ts[3] == "p" && ts[4] == "(" && ts[5] == "0"
    requires ts[6] == "-" && ts[7] == "1" && ts[8] == ")" && ts[9] == "r" && ts[10] == "1"
    ensures ToPostfix(ts) == Ok(["1", "6", "0", "1", "-", "p", "1"] + ["r", "d"])
  {
    var s4 := State(["1", "6"], ["p", "d"]);
    var s8 := State(["1", "6", "0", "1"], ["-", "(", "p", "d"]);
    var s11 := State(["1", "6", "0", "1", "-", "p", "1"], ["r", "d"]);
    assert ts[0..] == ts;
    FirstRoll(ts, '1', 'p', s4);
    BonusInner(ts, s4, s8);
    BonusLast(ts, s8, s11);
    assert ShuntAll(s11, ts[11..]) == Ok(s11);
    DrainTwo(ts, s11, s11.ops[0][0], s11.ops[1][0]);
  }

  /** `( 0 - 1`: `-` does not pop past the `(`. */
  lemma BonusInner(ts: seq<string>, s4: State, s8: State)
    requires |ts| == 11 && ts[4] == "(" && ts[5] == "0" && ts[6] == "-" && ts[7] == "1"
    requires s4 == State(["1", "6"], ["p", "d"])
    requires s8 == State(["1", "6", "0", "1"], ["-", "(", "p", "d"])
    ensures ShuntAll(s4, ts[4..]) == ShuntAll(s8, ts[8..])
  {
    var s6 := State(["1", "6", "0"], ["(", "p", "d"]);
    BonusOpen(ts, s4, s6);
    BonusMinus(ts, s6, s8);
  }

  lemma BonusOpen(ts: seq<string>, s4: State, s6: State)
    requires |ts| == 11 && ts[4] == "(" && ts[5] == "0"
    requires s4 == State(["1", "6"], ["p", "d"])
    requires s6 == State(["1", "6", "0"], ["(", "p", "d"])
    ensures ShuntAll(s4, ts[4..]) == ShuntAll(s6, ts[6..])
  {
    var s5 := State(s4.output, ["("] + s4.ops);
    OpenAt(s4, ts, 4, s5);
    DigitAt(s5, ts, 5, '0', s6);
  }

  lemma BonusMinus(ts: seq<string>, s6: State, s8: State)
    requires |ts| == 11 && ts[6] == "-" && ts[7] == "1"
    requires s6 == State(["1", "6", "0"], ["(", "p", "d"])
    requires s8 == State(["1", "6", "0", "1"], ["-", "(", "p", "d"])
    ensures ShuntAll(s6, ts[6..]) == ShuntAll(s8, ts[8..])
  {
    var s7 := State(s6.output, ["-"] + s6.ops);
    ArithmeticSymbols("-");
    Punctuation("(");
    PopsNone("-", s6.ops);
    OperatorAt(s6, ts, 6, '-', [], s6.ops, s7);
    DigitAt(s7, ts, 7, '1', s8);
  }

  /** `) r 1`: `)` emits `-`, and `r` pops `p` but not `d`. */
  lemma BonusLast(ts: seq<string>, s8: State, s11: State)
    requires |ts| == 11 && ts[8] == ")" && ts[9] == "r" && ts[10] == "1"
    requires s8 == State(["1", "6", "0", "1"], ["-", "(", "p", "d"])
    requires s11 == State(["1", "6", "0", "1", "-", "p", "1"], ["r", "d"])
    ensures ShuntAll(s8, ts[8..]) == ShuntAll(s11, ts[11..])
  {
    var s9 := State(["1", "6", "0", "1", "-"], ["p", "d"]);
    BonusClose(ts, s8, s9);
    BonusRepeat(ts, s9, s11);
  }

  lemma BonusClose(ts: seq<string>, s8: State, s9: State)
    requires |ts| == 11 && ts[8] == ")"
    requires s8 == State(["1", "6", "0", "1"], ["-", "(", "p", "d"])
    requires s9 == State(["1", "6", "0", "1", "-"], ["p", "d"])
    ensures ShuntAll(s8, ts[8..]) == ShuntAll(s9, ts[9..])
  {
    var ops := s8.ops;
    PopOneToOpen(ops);
    assert ops[1..] == ["("] + ["p", "d"];
    FunctionSymbols("p");
    CloseAt(s8, ts, 8, ["-"], ["p", "d"], s9);
  }

  lemma BonusRepeat(ts: seq<string>, s9: State, s11: State)
    requires |ts| == 11 && ts[9] == "r" && ts[10] == "1"
    requires s9 == State(["1", "6", "0", "1", "-"], ["p", "d"])
    requires s11 == State(["1", "6", "0", "1", "-", "p", "1"], ["r", "d"])
    ensures ShuntAll(s9, ts[9..]) == ShuntAll(s11, ts[11..])
  {
    var s10 := State(s9.output + ["p"], ["r", "d"]);
    RollSymbols("d");
    ModifierSymbols("p");
    ModifierSymbols("r");
    PopsOne("r", s9.ops);
    OperatorAt(s9, ts, 9, 'r', ["p"], ["d"], s10);
    DigitAt(s10, ts, 10, '1', s11);
  }

  /** The postfix form of `BonusText`, decoded token by token. */
  lemma BonusPostfixAt(ps: seq<string>)
    requires ps == ["1", "6", "0", "1", "-", "p", "1"] + ["r", "d"]
    ensures |ps| == 9
    ensures ps[0] == "1" && ps[1] == "6" && ps[2] == "0" && ps[3] == "1" && ps[4] == "-" && ps[5] == "p"
    ensures ps[6] == "1" && ps[7] == "r" && ps[8] == "d"
  {
  }

  lemma BonusPostfixDecodes(ps: seq<string>)
    requires |ps| == 9
    requires ps[0] == "1" && ps[1] == "6" && ps[2] == "0" && ps[3] == "1" && ps[4] == "-" && ps[5] == "p"
    requires ps[6] == "1" && ps[7] == "r" && ps[8] == "d"
    ensures Decode(ps[0]) == Lit(1.0) && Decode(ps[1]) == Lit(6.0) && Decode(ps[2]) == Lit(0.0) && Decode(ps[3]) == Lit(1.0)
    ensures Decode(ps[4]) == Op(Minus) && Decode(ps[5]) == Op(SetBonus) && Decode(ps[6]) == Lit(1.0) && Decode(ps[7]) == Op(Repeat)
    ensures Decode(ps[8]) == RollD
  {
    NumeralsDecode();
    BonusOperatorsDecode();
  }

  /** The postfix form of `1d6p(0-1)r1` decodes to the program of
      `Findings.BonusAsWritten`. */
  lemma BonusDecoded(ps: seq<string>)
    requires |ps| == 9
    requires Decode(ps[0]) == Lit(1.0) && Decode(ps[1]) == Lit(6.0) && Decode(ps[2]) == Lit(0.0) && Decode(ps[3]) == Lit(1.0)
    requires Decode(ps[4]) == Op(Minus) && Decode(ps[5]) == Op(SetBonus) && Decode(ps[6]) == Lit(1.0) && Decode(ps[7]) == Op(Repeat)
    requires Decode(ps[8]) == RollD
    ensures DecodeAll(ps) == BonusProgram
  {
    var d := DecodeAll(ps);
    assert d[0] == Lit(1.0);
    assert d[1] == Lit(6.0);
    assert d[2] == Lit(0.0);
    assert d[3] == Lit(1.0);
    assert d[4] == Op(Minus);
    assert d[5] == Op(SetBonus);
    assert d[6] == Lit(1.0);
    assert d[7] == Op(Repeat);
    assert d[8] == RollD;
    BonusProgramAt(d);
  }

  /** `BonusProgram`, instruction by instruction. */
  lemma BonusProgramAt(d: seq<Instr>)
    requires |d| == 9
    requires d[0] == Lit(1.0) && d[1] == Lit(6.0) && d[2] == Lit(0.0) && d[3] == Lit(1.0)
    requires d[4] == Op(Minus) && d[5] == Op(SetBonus) && d[6] == Lit(1.0) && d[7] == Op(Repeat)
    requires d[8] == RollD
    ensures d == BonusProgram
  {
    forall i | 0 <= i < 9
      ensures d[i] == BonusProgram[i]
    {
      if i == 0 {
      } else if i == 1 {
      } else if i == 2 {
      } else if i == 3 {
      } else if i == 4 {
      } else if i == 5 {
      } else if i == 6 {
      } else if i == 7 {
      } else if i == 8 {
      }
    }
  }

  lemma BonusOperatorsDecode()
    ensures Decode("-") == Op(Minus) && Decode("p") == Op(SetBonus) && Decode("r") == Op(Repeat) && Decode("d") == RollD
  {
    NonNumericText("-");
    NonNumericText("p");
    NonNumericText("r");
    NonNumericText("d");
  }

  lemma NumeralsDecode()
    ensures Decode("0") == Lit(0.0) && Decode("1") == Lit(1.0)
    ensures Decode("2") == Lit(2.0) && Decode("6") == Lit(6.0)
  {
    DigitDecodes('0');
    DigitDecodes('1');
    DigitDecodes('2');
    DigitDecodes('6');
  }

  /** A digit token is the number it names. */
  lemma DigitDecodes(c: char)
    requires IsDigit(c)
    ensures Decode([c]) == Lit(DigitValue(c) as real)
  {
    assert DotIndex([c]) == 1;
    assert [c][..1] == [c];
    assert DigitsValue([c]) == DigitsValue([]) * 10 + DigitValue(c);
  }

  /** The postfix form of `LeakText`, decoded token by token. */
  lemma LeakPostfixAt(ps: seq<string>)
    requires ps == ["2", "6", "1", "x", "0", "r", "d", "1", "6"] + ["d", "+"]
    ensures |ps| == 11
    ensures ps[0] == "2" && ps[1] == "6" && ps[2] == "1" && ps[3] == "x" && ps[4] == "0" && ps[5] == "r"
    ensures ps[6] == "d" && ps[7] == "1" && ps[8] == "6" && ps[9] == "d" && ps[10] == "+"
  {
  }

  lemma LeakPostfixDecodes(ps: seq<string>)
    requires |ps| == 11
    requires ps[0] == "2" && ps[1] == "6" && ps[2] == "1" && ps[3] == "x" && ps[4] == "0" && ps[5] == "r"
    requires ps[6] == "d" && ps[7] == "1" && ps[8] == "6" && ps[9] == "d" && ps[10] == "+"
    ensures Decode(ps[0]) == Lit(2.0) && Decode(ps[1]) == Lit(6.0) && Decode(ps[2]) == Lit(1.0) && Decode(ps[3]) == Op(SetDrop)
    ensures Decode(ps[4]) == Lit(0.0) && Decode(ps[5]) == Op(Repeat) && Decode(ps[6]) == RollD && Decode(ps[7]) == Lit(1.0)
    ensures Decode(ps[8]) == Lit(6.0) && Decode(ps[9]) == RollD && Decode(ps[10]) == Op(Plus)
  {
    NumeralsDecode();
    LeakOperatorsDecode();
  }

  /** The postfix form of `2d6x1r0+1d6` decodes to the program of
      `Findings.LeakAsWritten`. */
  lemma LeakDecoded(ps: seq<string>)
    requires |ps| == 11
    requires Decode(ps[0]) == Lit(2.0) && Decode(ps[1]) == Lit(6.0) && Decode(ps[2]) == Lit(1.0) && Decode(ps[3]) == Op(SetDrop)
    requires Decode(ps[4]) == Lit(0.0) && Decode(ps[5]) == Op(Repeat) && Decode(ps[6]) == RollD && Decode(ps[7]) == Lit(1.0)
    requires Decode(ps[8]) == Lit(6.0) && Decode(ps[9]) == RollD && Decode(ps[10]) == Op(Plus)
    ensures DecodeAll(ps) == LeakProgram
  {
    var d := DecodeAll(ps);
    assert d[0] == Lit(2.0);
    assert d[1] == Lit(6.0);
    assert d[2] == Lit(1.0);
    assert d[3] == Op(SetDrop);
    assert d[4] == Lit(0.0);
    assert d[5] == Op(Repeat);
    assert d[6] == RollD;
    assert d[7] == Lit(1.0);
    assert d[8] == Lit(6.0);
    assert d[9] == RollD;
    assert d[10] == Op(Plus);
    LeakProgramAt(d);
  }

  /** `LeakProgram`, instruction by instruction. */
  lemma LeakProgramAt(d: seq<Instr>)
    requires |d| == 11
    requires d[0] == Lit(2.0) && d[1] == Lit(6.0) && d[2] == Lit(1.0) && d[3] == Op(SetDrop)
    requires d[4] == Lit(0.0) && d[5] == Op(Repeat) && d[6] == RollD && d[7] == Lit(1.0)
    requires d[8] == Lit(6.0) && d[9] == RollD && d[10] == Op(Plus)
    ensures d == LeakProgram
  {
    forall i | 0 <= i < 11
      ensures d[i] == LeakProgram[i]
    {
      if i == 0 {
      } else if i == 1 {
      } else if i == 2 {
      } else if i == 3 {
      } else if i == 4 {
      } else if i == 5 {
      } else if i == 6 {
      } else if i == 7 {
      } else if i == 8 {
      } else if i == 9 {
      } else if i == 10 {
      }
    }
  }

  lemma LeakOperatorsDecode()
    ensures Decode("x") == Op(SetDrop) && Decode("r") == Op(Repeat) && Decode("d") == RollD && Decode("+") == Op(Plus)
  {
    NonNumericText("x");
    NonNumericText("r");
    NonNumericText("d");
    NonNumericText("+");
  }
}
