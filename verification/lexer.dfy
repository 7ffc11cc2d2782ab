/** The tokenizer. It has two modes, chosen by a pre-scan of the input:
    when the trimmed input contains a space it returns the whitespace-split
    pieces, otherwise it scans character by character using the operand
    and operator character classes. */
module Lexer {
  import opened Outcomes

  predicate IsWhiteSpace(c: char) {
    c == ' ' || c == '\t' || c == '\n' || c == '\r' || c == '\U{000B}' || c == '\U{000C}'
  }

  predicate NoWhiteSpace(s: string) {
    forall i :: 0 <= i < |s| ==> !IsWhiteSpace(s[i])
  }

  /** Digits and the decimal point. */
  predicate IsOperand(c: char) {
    ('0' <= c <= '9') || c == '.'
  }

  /** Operator and punctuation characters; `z` starts a function name. */
  predicate IsOperator(c: char) {
    c in {'^', '+', '-', '*', '/', '(', ')', 'd', 'e', 'f', 'g', 'x', 'r', ',', 'z', 'p'}
  }

  predicate IsClassified(c: char) {
    IsOperand(c) || IsOperator(c)
  }

  // ---------------------------------------------------------------- trimming

  /** Number of leading white-space characters. */
  function Leading(s: string): (n: nat)
    ensures n <= |s|
    ensures forall i :: 0 <= i < n ==> IsWhiteSpace(s[i])
    ensures n < |s| ==> !IsWhiteSpace(s[n])
  {
    if |s| == 0 || !IsWhiteSpace(s[0]) then 0 else 1 + Leading(s[1..])
  }

  /** Number of trailing white-space characters. */
  function Trailing(s: string): (n: nat)
    ensures n <= |s|
    ensures forall i :: |s| - n <= i < |s| ==> IsWhiteSpace(s[i])
    ensures n < |s| ==> !IsWhiteSpace(s[|s| - n - 1])
  {
    if |s| == 0 || !IsWhiteSpace(s[|s| - 1]) then 0 else 1 + Trailing(s[..|s| - 1])
  }

  /** `s` without its leading and trailing white space. */
  function Trim(s: string): (r: string)
    ensures exists i, j :: 0 <= i <= j <= |s| && r == s[i..j]
                          && (forall k :: 0 <= k < i ==> IsWhiteSpace(s[k]))
                          && (forall k :: j <= k < |s| ==> IsWhiteSpace(s[k]))
    ensures |r| > 0 ==> !IsWhiteSpace(r[0]) && !IsWhiteSpace(r[|r| - 1])
  {
    var t := s[Leading(s)..];
    var r := t[..|t| - Trailing(t)];
    assert r == s[Leading(s)..|s| - Trailing(t)];
    r
  }

  // --------------------------------------------------------------- splitting

  function WhiteCount(s: string): nat {
    if |s| == 0 then 0 else (if IsWhiteSpace(s[0]) then 1 else 0) + WhiteCount(s[1..])
  }

  /** The white-space characters of `s`, in order. */
  function Separators(s: string): (r: string)
    ensures |r| == WhiteCount(s)
  {
    if |s| == 0 then [] else (if IsWhiteSpace(s[0]) then [s[0]] else []) + Separators(s[1..])
  }

  /** The pieces between white-space characters, empty pieces included (two
      adjacent separators give an empty piece between them). */
  function Split(s: string): (r: seq<string>)
    ensures |r| == 1 + WhiteCount(s)
    ensures forall k :: 0 <= k < |r| ==> NoWhiteSpace(r[k])
  {
    if |s| == 0 then [""]
    else
      var rest := Split(s[1..]);
      if IsWhiteSpace(s[0]) then [""] + rest
      else [[s[0]] + rest[0]] + rest[1..]
  }

  /** Pieces glued back together with one separator between neighbours. */
  function Join(pieces: seq<string>, seps: string): string
    requires |pieces| == |seps| + 1
  {
    if |seps| == 0 then pieces[0]
    else pieces[0] + [seps[0]] + Join(pieces[1..], seps[1..])
  }

  /** Splitting loses nothing: the pieces joined by the separators that
      were removed give back the input. */
  lemma {:induction false} SplitJoin(s: string)
    ensures Join(Split(s), Separators(s)) == s
  {
    if |s| > 0 {
      SplitJoin(s[1..]);
      var rest := Split(s[1..]);
      var seps := Separators(s[1..]);
      if IsWhiteSpace(s[0]) {
        assert Separators(s) == [s[0]] + seps;
        assert Join(Split(s), Separators(s)) == "" + [s[0]] + Join(rest, seps);
      } else {
        assert Separators(s) == seps;
        if |seps| == 0 {
          assert Join(Split(s), Separators(s)) == [s[0]] + rest[0];
        } else {
          assert Join(rest, seps) == rest[0] + [seps[0]] + Join(rest[1..], seps[1..]);
          assert Join(Split(s), Separators(s))
              == ([s[0]] + rest[0]) + [seps[0]] + Join(rest[1..], seps[1..]);
        }
      }
    }
  }

  // ---------------------------------------------------------------- scanning

  datatype Lexer = Lexer(input: string, position: nat)

  /** The result of one call: a token or the end marker, and the new state. */
  datatype Next = Next(token: Option<string>, lexer: Lexer)

  /** Whitespace-split mode is chosen when the trimmed input holds a space. */
  predicate SplitMode(input: string) {
    ' ' in Trim(input)
  }

  function Pieces(input: string): seq<string> {
    Split(Trim(input))
  }

  /** Split mode: the next piece, or the end marker once all are returned. */
  function NextPiece(lx: Lexer): (r: Next)
    ensures r.lexer.input == lx.input
    ensures lx.position < |Pieces(lx.input)| ==>
              r == Next(Some(Pieces(lx.input)[lx.position]), Lexer(lx.input, lx.position + 1))
    ensures lx.position >= |Pieces(lx.input)| ==> r == Next(None, lx)
  {
    var pieces := Pieces(lx.input);
    if lx.position < |pieces| then Next(Some(pieces[lx.position]), Lexer(lx.input, lx.position + 1))
    else Next(None, lx)
  }

  /** Index of the first operator character at or after `i`, or `|s|`. */
  function NextOperator(s: string, i: nat): (q: nat)
    requires i <= |s|
    ensures i <= q <= |s|
    ensures forall k :: i <= k < q ==> !IsOperator(s[k])
    ensures q < |s| ==> IsOperator(s[q])
    decreases |s| - i
  {
    if i == |s| || IsOperator(s[i]) then i else NextOperator(s, i + 1)
  }

  /** The operand loop: from index `i` on, append operand characters and
      advance `position` for each, skip unclassified characters without
      advancing, and stop at the first operator character. */
  function ScanOperand(s: string, i: nat, acc: string, position: nat): (r: (string, nat))
    requires i <= |s|
    ensures position <= r.1 <= position + (|s| - i)
    ensures |acc| <= |r.0|
    decreases |s| - i
  {
    if i == |s| || IsOperator(s[i]) then (acc, position)
    else if IsOperand(s[i]) then ScanOperand(s, i + 1, acc + [s[i]], position + 1)
    else ScanOperand(s, i + 1, acc, position)
  }

  /** When every character up to the next operator is classified the
      operand loop reads exactly that run and moves `position` to its end. */
  lemma {:induction false} ScanOperandRun(s: string, i: nat, acc: string)
    requires i <= |s|
    requires forall k :: i <= k < NextOperator(s, i) ==> IsClassified(s[k])
    ensures ScanOperand(s, i, acc, i) == (acc + s[i..NextOperator(s, i)], NextOperator(s, i))
    decreases |s| - i
  {
    if i < |s| && !IsOperator(s[i]) {
      assert IsOperand(s[i]);
      assert NextOperator(s, i) == NextOperator(s, i + 1);
      var q := NextOperator(s, i);
      ScanOperandRun(s, i + 1, acc + [s[i]]);
      assert ScanOperand(s, i, acc, i) == ScanOperand(s, i + 1, acc + [s[i]], i + 1);
      assert s[i..q] == [s[i]] + s[i + 1..q];
      assert acc + [s[i]] + s[i + 1..q] == acc + s[i..q];
    } else {
      assert NextOperator(s, i) == i;
      assert acc + s[i..i] == acc;
    }
  }

  /** Index of the first `(` at or after `i`; none when the name runs off
      the end of the input. */
  function OpenAfter(s: string, i: nat): (r: Option<nat>)
    requires i <= |s|
    ensures r.None? <==> forall k :: i <= k < |s| ==> s[k] != '('
    ensures r.Some? ==> i <= r.value < |s| && s[r.value] == '('
                        && forall k :: i <= k < r.value ==> s[k] != '('
    decreases |s| - i
  {
    if i == |s| then None
    else if s[i] == '(' then Some(i)
    else OpenAfter(s, i + 1)
  }

  /** Character mode: the next token, the end marker at the end of the input
      or at an unclassified character, or a failure when a `z` name has no
      `(` after it. */
  function NextChar(lx: Lexer): (r: Result<Next>)
    ensures r.Ok? ==> r.value.lexer.input == lx.input
    ensures r.Ok? && r.value.token.None? ==> r.value.lexer == lx
    ensures r.Ok? && r.value.token.Some? ==> |r.value.token.value| >= 1
                                             && lx.position < r.value.lexer.position <= |lx.input|
    ensures (lx.position >= |lx.input| || !IsClassified(lx.input[lx.position])) ==> r == Ok(Next(None, lx))
    ensures lx.position < |lx.input| && IsOperator(lx.input[lx.position]) && lx.input[lx.position] != 'z' ==>
              r == Ok(Next(Some([lx.input[lx.position]]), Lexer(lx.input, lx.position + 1)))
    ensures lx.position < |lx.input| && lx.input[lx.position] == 'z' ==>
              match OpenAfter(lx.input, lx.position + 1)
              case None => r == Err(FunctionNameUnterminated)
              case Some(q) => r == Ok(Next(Some(lx.input[lx.position..q]), Lexer(lx.input, q)))
  {
    var s := lx.input;
    var pos := lx.position;
    if pos < |s| && IsClassified(s[pos]) then
      var c := s[pos];
      if !IsOperator(c) then
        var (token, next) := ScanOperand(s, pos + 1, [c], pos + 1);
        Ok(Next(Some(token), Lexer(s, next)))
      else if c == 'z' then
        match OpenAfter(s, pos + 1)
        case None => Err(FunctionNameUnterminated)
        case Some(q) => Ok(Next(Some(s[pos..q]), Lexer(s, q)))
      else Ok(Next(Some([c]), Lexer(s, pos + 1)))
    else Ok(Next(None, lx))
  }

  /** An operand token is the first operand character followed by the
      operand characters up to the next operator character. */
  lemma OperandToken(lx: Lexer)
    requires lx.position < |lx.input| && IsOperand(lx.input[lx.position])
    requires forall k :: lx.position < k < NextOperator(lx.input, lx.position + 1) ==> IsClassified(lx.input[k])
    ensures var q := NextOperator(lx.input, lx.position + 1);
            NextChar(lx) == Ok(Next(Some(lx.input[lx.position..q]), Lexer(lx.input, q)))
  {
    var s := lx.input;
    var pos := lx.position;
    ScanOperandRun(s, pos + 1, [s[pos]]);
    assert [s[pos]] + s[pos + 1..NextOperator(s, pos + 1)] == s[pos..NextOperator(s, pos + 1)];
  }

  /** One call of the tokenizer: the mode is decided afresh from the input.
      A call keeps the input, returns the end marker without moving, or a
      token with less input left to return; it fails only on an
      unterminated function name in character mode. */
  function NextToken(lx: Lexer): (r: Result<Next>)
    ensures r.Ok? ==> r.value.lexer.input == lx.input
    ensures r.Ok? && r.value.token.None? ==> r.value.lexer == lx
    ensures r.Ok? && r.value.token.Some? ==> Remaining(r.value.lexer) < Remaining(lx)
    ensures r.Err? ==> r.fault == FunctionNameUnterminated && !SplitMode(lx.input)
  {
    if SplitMode(lx.input) then Ok(NextPiece(lx)) else NextChar(lx)
  }

  /** How much input is left to return. */
  function Remaining(lx: Lexer): nat {
    var size := if SplitMode(lx.input) then |Pieces(lx.input)| else |lx.input|;
    if lx.position <= size then size - lx.position else 0
  }

  /** Every token until the end marker. */
  function TokensFrom(lx: Lexer): (r: Result<seq<string>>)
    ensures r.Err? ==> r.fault == FunctionNameUnterminated && !SplitMode(lx.input)
    decreases Remaining(lx)
  {
    var next :- NextToken(lx);
    match next.token
    case None => Ok([])
    case Some(t) =>
      assert Remaining(next.lexer) < Remaining(lx);
      var rest :- TokensFrom(next.lexer);
      Ok([t] + rest)
  }

  function Tokenize(input: string): Result<seq<string>> {
    TokensFrom(Lexer(input, 0))
  }

  /** In split mode the tokens are exactly the pieces of the trimmed input. */
  lemma SplitModeTokens(input: string)
    requires SplitMode(input)
    ensures Tokenize(input) == Ok(Pieces(input))
  {
    PiecesFrom(input, 0);
  }

  lemma {:induction false} PiecesFrom(input: string, k: nat)
    requires SplitMode(input) && k <= |Pieces(input)|
    ensures TokensFrom(Lexer(input, k)) == Ok(Pieces(input)[k..])
    decreases |Pieces(input)| - k
  {
    var lx := Lexer(input, k);
    assert NextToken(lx) == Ok(NextPiece(lx));
    if k < |Pieces(input)| {
      PiecesFrom(input, k + 1);
      assert Pieces(input)[k..] == [Pieces(input)[k]] + Pieces(input)[k + 1..];
    } else {
      assert NextPiece(lx).token == None;
      assert Pieces(input)[k..] == [];
    }
  }

  function Concat(ts: seq<string>): string {
    if |ts| == 0 then [] else ts[0] + Concat(ts[1..])
  }

  predicate AllClassified(s: string) {
    forall k :: 0 <= k < |s| ==> IsClassified(s[k])
  }

  /** In character mode, when every character is classified, the tokens
      glued together give back the input. */
  lemma CharModeCovers(input: string, tokens: seq<string>)
    requires !SplitMode(input) && AllClassified(input)
    requires Tokenize(input) == Ok(tokens)
    ensures Concat(tokens) == input
  {
    CharModeCoversFrom(input, 0, tokens);
  }

  lemma {:induction false} CharModeCoversFrom(input: string, k: nat, tokens: seq<string>)
    requires !SplitMode(input) && AllClassified(input) && k <= |input|
    requires TokensFrom(Lexer(input, k)) == Ok(tokens)
    ensures Concat(tokens) == input[k..]
    decreases |input| - k
  {
    var lx := Lexer(input, k);
    if k < |input| {
      var q := CharStep(input, k);
      var next := Next(Some(input[k..q]), Lexer(input, q));
      var rest := TokensAfter(lx, next, tokens);
      CharModeCoversFrom(input, q, rest);
      SliceJoin(input, k, q);
    } else {
      assert NextChar(lx) == Ok(Next(None, lx));
    }
  }

  lemma SliceJoin(s: string, k: nat, q: nat)
    requires k <= q <= |s|
    ensures s[k..] == s[k..q] + s[q..]
  {
  }

  /** With a classified character at `k` a successful call of the character
      scanner returns the slice up to the new position. */
  lemma CharStep(input: string, k: nat) returns (q: nat)
    requires !SplitMode(input) && AllClassified(input) && k < |input|
    requires NextChar(Lexer(input, k)).Ok?
    ensures k < q <= |input|
    ensures NextChar(Lexer(input, k)) == Ok(Next(Some(input[k..q]), Lexer(input, q)))
  {
    var lx := Lexer(input, k);
    var c := input[k];
    q := NextChar(lx).value.lexer.position;
    if !IsOperator(c) {
      OperandToken(lx);
    } else if c != 'z' {
      assert [c] == input[k..k + 1];
    }
  }

  /** Each character as a token of its own. */
  function Singles(s: string): (r: seq<string>)
    ensures |r| == |s|
  {
    if |s| == 0 then [] else [[s[0]]] + Singles(s[1..])
  }

  lemma {:induction false} SinglesAt(s: string)
    ensures forall i :: 0 <= i < |s| ==> Singles(s)[i] == [s[i]]
  {
    if |s| > 0 {
      SinglesAt(s[1..]);
      assert forall i :: 1 <= i < |s| ==> Singles(s)[i] == Singles(s[1..])[i - 1];
    }
  }

  /** Every character is classified, none starts a function name, and no
      two operand characters are adjacent. */
  predicate Separated(s: string) {
    forall k :: 0 <= k < |s| ==>
      && IsClassified(s[k]) && s[k] != 'z'
      && (IsOperand(s[k]) && k + 1 < |s| ==> IsOperator(s[k + 1]))
  }

  /** In character mode, an input whose operands are single characters
      between operators is returned one character per token. */
  lemma {:induction false} SinglesFrom(input: string, k: nat)
    requires !SplitMode(input) && Separated(input) && k <= |input|
    ensures TokensFrom(Lexer(input, k)) == Ok(Singles(input[k..]))
    decreases |input| - k
  {
    var lx := Lexer(input, k);
    if k < |input| {
      var c := input[k];
      var next := Next(Some([c]), Lexer(input, k + 1));
      if IsOperand(c) {
        assert k + 1 == |input| || IsOperator(input[k + 1]);
        assert ScanOperand(input, k + 1, [c], k + 1) == ([c], k + 1);
      }
      assert NextToken(lx) == Ok(next);
      SinglesFrom(input, k + 1);
      assert input[k..][1..] == input[k + 1..];
    } else {
      assert NextChar(lx) == Ok(Next(None, lx));
      assert input[k..] == [];
    }
  }

  /** In character mode, an input whose operands are single characters
      between operators gives one token per character, in order. */
  lemma CharModeSingles(input: string)
    requires !SplitMode(input) && Separated(input)
    ensures Tokenize(input).Ok? && |Tokenize(input).value| == |input|
    ensures forall i :: 0 <= i < |input| ==> Tokenize(input).value[i] == [input[i]]
  {
    SinglesFrom(input, 0);
    SinglesAt(input);
    assert input[0..] == input;
  }

  /** Unfolds one step of `TokensFrom`. */
  lemma TokensAfter(lx: Lexer, next: Next, tokens: seq<string>) returns (rest: seq<string>)
    requires NextToken(lx) == Ok(next) && next.token.Some?
    requires TokensFrom(lx) == Ok(tokens)
    ensures TokensFrom(next.lexer) == Ok(rest) && tokens == [next.token.value] + rest
  {
    rest := TokensFrom(next.lexer).value;
  }
}
