/** The fixed grammar table of the dice language: every operator and
    function symbol with its associativity, precedence, arity and function
    flag, and the lookups the converter and the evaluator make on it. */
module Grammar {
  import opened Outcomes

  datatype Assoc = Left | Right | NoAssoc

  datatype Symbol = Symbol(text: string, assoc: Assoc, precedence: int, arity: nat, isFunction: bool)

  /** The table in declaration order; lookups take the first entry whose
      text equals the token. */
  const Table: seq<Symbol> := [
    Symbol("^", Right, 4, 2, false),
    Symbol("+", Left, 2, 2, false),
    Symbol("-", Left, 2, 2, false),
    Symbol("*", Left, 3, 2, false),
    Symbol("/", Left, 3, 2, false),
    Symbol("d", Left, 5, 2, false),
    Symbol("e", Left, 5, 2, false),
    Symbol("f", Left, 5, 2, false),
    Symbol("g", Left, 5, 2, false),
    Symbol("x", Left, 7, 1, false),
    Symbol("r", Left, 6, 1, false),
    Symbol("p", Left, 7, 1, false),
    Symbol("zCeiling", NoAssoc, 0, 1, true)
  ]

  /** The first entry of `entries` whose text is `tok`. */
  function FindFirst(entries: seq<Symbol>, tok: string): (r: Option<Symbol>)
    ensures r.None? <==> forall i :: 0 <= i < |entries| ==> entries[i].text != tok
    ensures r.Some? ==> r.value in entries && r.value.text == tok
  {
    if |entries| == 0 then None
    else if entries[0].text == tok then Some(entries[0])
    else FindFirst(entries[1..], tok)
  }

  /** The entry for `tok`, found by dispatching on its text; `LookupIsFirst`
      shows this is the first table entry with that text. */
  function Lookup(tok: string): Option<Symbol> {
    if |tok| == 1 then
      var c := tok[0];
      if c == '^' then Some(Table[0])
      else if c == '+' then Some(Table[1])
      else if c == '-' then Some(Table[2])
      else if c == '*' then Some(Table[3])
      else if c == '/' then Some(Table[4])
      else if c == 'd' then Some(Table[5])
      else if c == 'e' then Some(Table[6])
      else if c == 'f' then Some(Table[7])
      else if c == 'g' then Some(Table[8])
      else if c == 'x' then Some(Table[9])
      else if c == 'r' then Some(Table[10])
      else if c == 'p' then Some(Table[11])
      else None
    else if tok == "zCeiling" then Some(Table[12])
    else None
  }

  predicate IsOpToken(tok: string) {
    Lookup(tok).Some?
  }

  predicate IsFunction(tok: string) {
    exists i :: 0 <= i < |Table| && Table[i].isFunction && Table[i].text == tok
  }

  function Precedence(tok: string): int
    requires IsOpToken(tok)
  {
    Lookup(tok).value.precedence
  }

  function Arity(tok: string): nat
    requires IsOpToken(tok)
  {
    Lookup(tok).value.arity
  }

  function Associativity(tok: string): Assoc
    requires IsOpToken(tok)
  {
    Lookup(tok).value.assoc
  }

  predicate IsRollOperator(tok: string) {
    tok == "d" || tok == "e" || tok == "f" || tok == "g"
  }

  /** No two entries share a text, so "the first entry" is "the entry". */
  lemma TextsDistinct()
    ensures forall i, j :: 0 <= i < j < |Table| ==> Table[i].text != Table[j].text
  {}

  /** Looking up the text of an entry finds that entry. */
  lemma LookupEntry(i: nat)
    requires i < |Table|
    ensures Lookup(Table[i].text) == Some(Table[i])
  {}

  /** The dispatch agrees with taking the first table entry whose text is
      the token. */
  lemma LookupIsFirst(tok: string)
    ensures Lookup(tok) == FindFirst(Table, tok)
  {
    var r := FindFirst(Table, tok);
    if r.Some? {
      var i :| 0 <= i < |Table| && Table[i] == r.value;
      LookupEntry(i);
    } else {
      if Lookup(tok).Some? {
        var i :| 0 <= i < |Table| && Table[i] == Lookup(tok).value;
        assert Table[i].text != tok;
        LookupText(tok);
      }
    }
  }

  lemma LookupText(tok: string)
    ensures Lookup(tok).Some? ==> Lookup(tok).value.text == tok
  {
    if |tok| == 1 { assert tok == [tok[0]]; }
  }

  /** `^` is the one right-associative operator; `*` and `/` bind tighter
      than `+` and `-`, and `^` tighter than both. */
  lemma ArithmeticSymbols(tok: string)
    requires tok in {"^", "+", "-", "*", "/"}
    ensures IsOpToken(tok) && Arity(tok) == 2
    ensures Associativity(tok) == (if tok == "^" then Right else Left)
    ensures Precedence(tok) == (if tok == "^" then 4 else if tok in {"*", "/"} then 3 else 2)
  {
    if tok == "^" { LookupEntry(0); }
    else if tok == "+" { LookupEntry(1); }
    else if tok == "-" { LookupEntry(2); }
    else if tok == "*" { LookupEntry(3); }
    else { LookupEntry(4); }
  }

  /** The four roll operators are binary, left-associative, precedence 5. */
  lemma RollSymbols(tok: string)
    requires IsRollOperator(tok)
    ensures IsOpToken(tok) && Associativity(tok) == Left && Precedence(tok) == 5 && Arity(tok) == 2
  {
    if tok == "d" { LookupEntry(5); }
    else if tok == "e" { LookupEntry(6); }
    else if tok == "f" { LookupEntry(7); }
    else { LookupEntry(8); }
  }

  /** The roll modifiers are unary: `x` and `p` at precedence 7, `r` at 6. */
  lemma ModifierSymbols(tok: string)
    requires tok in {"x", "r", "p"}
    ensures IsOpToken(tok) && Associativity(tok) == Left && Arity(tok) == 1
    ensures Precedence(tok) == (if tok == "r" then 6 else 7)
  {
    if tok == "x" { LookupEntry(9); }
    else if tok == "r" { LookupEntry(10); }
    else { LookupEntry(11); }
  }

  /** `zCeiling` is the one function symbol. */
  lemma FunctionSymbols(tok: string)
    ensures IsFunction(tok) <==> tok == "zCeiling"
    ensures tok == "zCeiling" ==> IsOpToken(tok) && Arity(tok) == 1 && Associativity(tok) == NoAssoc
  {
    if IsFunction(tok) {
      var i :| 0 <= i < |Table| && Table[i].isFunction && Table[i].text == tok;
      OnlyFunction(i);
    }
    if tok == "zCeiling" {
      assert Table[12].isFunction && Table[12].text == tok;
      LookupEntry(12);
    }
  }

  /** The symbols are exactly these thirteen texts. */
  lemma KnownSymbols(tok: string)
    ensures IsOpToken(tok) <==> tok in SymbolTexts
  {
    LookupText(tok);
    if tok in SymbolTexts {
      LookupEntry(IndexOf(tok));
    }
  }

  lemma OnlyFunction(i: nat)
    requires i < |Table| && Table[i].isFunction
    ensures i == 12
  {}

  lemma TableTexts(i: nat)
    requires i < |Table|
    ensures Table[i].text in SymbolTexts
  {}

  const SymbolTexts: set<string> := {"^", "+", "-", "*", "/", "d", "e", "f", "g", "x", "r", "p", "zCeiling"}

  function IndexOf(tok: string): (i: nat)
    requires tok in SymbolTexts
    ensures i < |Table| && Table[i].text == tok
  {
    if tok == "^" then 0 else if tok == "+" then 1 else if tok == "-" then 2
    else if tok == "*" then 3 else if tok == "/" then 4 else if tok == "d" then 5
    else if tok == "e" then 6 else if tok == "f" then 7 else if tok == "g" then 8
    else if tok == "x" then 9 else if tok == "r" then 10 else if tok == "p" then 11
    else 12
  }

  /** Grouping punctuation is not a grammar symbol. */
  lemma Punctuation(tok: string)
    requires tok in {",", "(", ")"}
    ensures !IsOpToken(tok) && !IsFunction(tok)
  {
    KnownSymbols(tok);
    FunctionSymbols(tok);
  }

  /** A function name is a grammar symbol and not grouping punctuation. */
  lemma FunctionIsSymbol(tok: string)
    requires IsFunction(tok)
    ensures IsOpToken(tok) && tok != "(" && tok != ","
  {
    FunctionSymbols(tok);
  }
}
