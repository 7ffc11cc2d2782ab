/** The postfix evaluator. A machine consumes instructions front to back,
    keeping a value stack (top at index 0), the pending drop count (`x`)
    and per-die bonus (`p`) that the next roll will use, and the unused
    random draws. `r` rewrites the program ahead of it; how it lays out
    the repeated rolls is a parameter, so that both the layout of the
    original program and the corrected one can be run (see `Reroll`). */
module Evaluator {
  import opened Outcomes
  import opened Grammar
  import opened Numbers
  import opened Dice

  /** The grammar symbols the evaluator acts on. */
  datatype Sym =
    | Pow | Plus | Minus | Times | Divide
    | RollOp(mode: char) // d, e, f or g
    | SetDrop            // x
    | Repeat             // r
    | SetBonus           // p
    | Ceiling            // zCeiling

  /** A decoded postfix token: a number, a grammar symbol, or a word the
      grammar does not know. */
  datatype Instr = Lit(v: real) | Op(sym: Sym) | Unknown(text: string)

  function SymText(s: Sym): string {
    match s
    case Pow => "^"
    case Plus => "+"
    case Minus => "-"
    case Times => "*"
    case Divide => "/"
    case RollOp(c) => [c]
    case SetDrop => "x"
    case Repeat => "r"
    case SetBonus => "p"
    case Ceiling => "zCeiling"
  }

  predicate Binary(s: Sym) {
    s.Pow? || s.Plus? || s.Minus? || s.Times? || s.Divide?
  }

  function SymArity(s: Sym): nat {
    if Binary(s) || s.RollOp? then 2 else 1
  }

  /** Decode one postfix token: numbers first, as the original tries a
      numeric parse before anything else. */
  function Decode(t: string): (r: Instr)
    ensures r.Lit? <==> IsNumeric(t)
  {
    if IsNumeric(t) then Lit(NumberValue(t))
    else if |t| == 1 then
      match t[0]
      case '^' => Op(Pow)
      case '+' => Op(Plus)
      case '-' => Op(Minus)
      case '*' => Op(Times)
      case '/' => Op(Divide)
      case 'd' => Op(RollOp('d'))
      case 'e' => Op(RollOp('e'))
      case 'f' => Op(RollOp('f'))
      case 'g' => Op(RollOp('g'))
      case 'x' => Op(SetDrop)
      case 'r' => Op(Repeat)
      case 'p' => Op(SetBonus)
      case _ => Unknown(t)
    else if t == "zCeiling" then Op(Ceiling)
    else Unknown(t)
  }

  function DecodeAll(ts: seq<string>): (r: seq<Instr>)
    ensures |r| == |ts|
    ensures forall i :: 0 <= i < |ts| ==> r[i] == Decode(ts[i])
  {
    if |ts| == 0 then [] else [Decode(ts[0])] + DecodeAll(ts[1..])
  }

  /** Decoding agrees with the grammar table: a non-numeric token decodes
      to a symbol exactly when the table lists it, and then the symbol has
      the token's text and the table's arity. */
  lemma DecodeMatchesTable(t: string)
    requires !IsNumeric(t)
    ensures Decode(t).Op? <==> IsOpToken(t)
    ensures Decode(t).Op? ==> SymText(Decode(t).sym) == t && SymArity(Decode(t).sym) == Arity(t)
  {
    if |t| == 1 {
      var c := t[0];
      assert t == [c];
      DecodeSingle(c);
    } else {
      DecodeLong(t);
    }
  }

  lemma DecodeSingle(c: char)
    requires !IsNumeric([c])
    ensures Decode([c]).Op? <==> IsOpToken([c])
    ensures Decode([c]).Op? ==> SymText(Decode([c]).sym) == [c] && SymArity(Decode([c]).sym) == Arity([c])
  {
    if c in "^+-*/" {
      DecodeArithmetic(c);
    } else if c in "defg" {
      DecodeRoll(c);
    } else if c in "xrp" {
      DecodeModifier(c);
    } else {
      DecodeOther(c);
    }
  }

  lemma DecodeLong(t: string)
    requires !IsNumeric(t) && |t| != 1
    ensures Decode(t).Op? <==> IsOpToken(t)
    ensures Decode(t).Op? ==> SymText(Decode(t).sym) == t && SymArity(Decode(t).sym) == Arity(t)
  {
    if t == "zCeiling" {
      DecodeCeiling();
      CeilingInTable(t);
    } else {
      DecodeUnknownLong(t);
    }
  }

  lemma CeilingInTable(t: string)
    requires t == "zCeiling"
    ensures IsOpToken(t) && SymText(Ceiling) == t && SymArity(Ceiling) == Arity(t)
  {
    LookupEntry(12);
  }

  lemma DecodeUnknownLong(t: string)
    requires !IsNumeric(t) && |t| != 1 && t != "zCeiling"
    ensures Decode(t) == Unknown(t) && !IsOpToken(t)
  {}

  lemma DecodeCeiling()
    ensures Decode("zCeiling") == Op(Ceiling)
  {
    NonNumericText("zCeiling");
  }

  lemma DecodeArithmetic(c: char)
    requires c in "^+-*/" && !IsNumeric([c])
    ensures Decode([c]).Op? && IsOpToken([c])
    ensures SymText(Decode([c]).sym) == [c] && SymArity(Decode([c]).sym) == Arity([c])
  {
    ArithmeticSymbols([c]);
  }

  lemma DecodeRoll(c: char)
    requires c in "defg"
    ensures Decode([c]).Op? && IsOpToken([c])
    ensures SymText(Decode([c]).sym) == [c] && SymArity(Decode([c]).sym) == Arity([c])
  {
    NonNumericText([c]);
    RollSymbols([c]);
  }

  lemma DecodeModifier(c: char)
    requires c in "xrp"
    ensures Decode([c]).Op? && IsOpToken([c])
    ensures SymText(Decode([c]).sym) == [c] && SymArity(Decode([c]).sym) == Arity([c])
  {
    NonNumericText([c]);
    ModifierSymbols([c]);
  }

  lemma DecodeOther(c: char)
    requires c !in "^+-*/defgxrp" && !IsNumeric([c])
    ensures !Decode([c]).Op? && !IsOpToken([c])
  {
  }

  /** Every symbol's text decodes back to the symbol. */
  lemma DecodeSymText(s: Sym)
    requires s.RollOp? ==> s.mode in "defg"
    ensures !IsNumeric(SymText(s)) && Decode(SymText(s)) == Op(s)
  {
    NonNumericText(SymText(s));
  }

  datatype Machine = Machine(
    instrs: seq<Instr>,   // instructions still to run, next first
    stack: seq<real>,     // value stack, top first
    drop: int,            // pending `x`: dice to drop from the next roll
    bonus: int,           // pending `p`: bonus per kept die of the next roll
    draws: seq<nat>)      // unused random draws

  /** How `r` lays out each repeated roll. */
  datatype Layout =
    | AsWritten   // the roll first, then the modifiers re-set when positive
    | Intended    // the modifiers set first, then the roll

  /** A roll of `dice` dice with `faces` faces in a mode, with a drop count
      and a per-die bonus, on the given draws; the evaluator is stated for
      any such primitive and run with `SimpleRoll`. */
  type Roller = (int, int, char, int, int, seq<nat>) -> Result<Roll>

  datatype Config = Config(layout: Layout, roller: Roller)

  /** One trace line: the program, an applied symbol with its operands
      (top first) and the stack after it, or the grand total. */
  datatype TraceItem =
    | Program(instrs: seq<Instr>)
    | Applied(operands: seq<real>, symbol: string, after: seq<real>, roll: Option<RollResult>)
    | GrandTotal(total: real)

  datatype Stepped = Stepped(machine: Machine, item: Option<TraceItem>)

  datatype Evaluation = Evaluation(trace: seq<TraceItem>, grandTotal: real)

  function Reverse<T>(s: seq<T>): (r: seq<T>)
    ensures |r| == |s|
  {
    if |s| == 0 then [] else Reverse(s[1..]) + [s[0]]
  }

  /** `Reverse` puts the last element first. */
  lemma {:induction false} ReverseAt<T>(s: seq<T>)
    ensures forall i :: 0 <= i < |s| ==> Reverse(s)[i] == s[|s| - 1 - i]
  {
    if |s| > 0 {
      ReverseAt(s[1..]);
    }
  }

  function Copies<T>(s: seq<T>, n: nat): (r: seq<T>)
    ensures |r| == n * |s|
  {
    if n == 0 then [] else s + Copies(s, n - 1)
  }

  /** The binary arithmetic symbols on operands `a` (deeper) and `b` (top). */
  function Arithmetic(s: Sym, a: real, b: real): (r: Result<real>)
    requires Binary(s)
    ensures r.Err? ==> r.fault in {DivisionByZero, UnsupportedPower}
  {
    match s
    case Pow => Power(a, b)
    case Plus => Ok(a + b)
    case Minus => Ok(a - b)
    case Times => Ok(a * b)
    case Divide => if b == 0.0 then Err(DivisionByZero) else Ok(a / b)
  }

  /** Each arithmetic symbol computes its operation on `a op b`; division
      fails exactly on a zero divisor and otherwise undoes multiplication. */
  lemma ArithmeticFacts(s: Sym, a: real, b: real)
    requires Binary(s)
    ensures var r := Arithmetic(s, a, b);
            && (s.Plus? ==> r == Ok(a + b))
            && (s.Minus? ==> r == Ok(a - b))
            && (s.Times? ==> r == Ok(a * b))
            && (s.Divide? ==> (r.Err? <==> b == 0.0) && (r.Ok? ==> r.value * b == a))
            && (s.Pow? ==> r == Power(a, b))
  {
  }

  /** The instructions `r` puts in front of the program: `n + 1` copies
      of the roll `dice faces op` (none when `n` is negative) followed by
      `n` additions. `x` and `p` are the modifiers pending when `r` runs. */
  function Expand(n: int, dice: real, faces: real, op: Instr, x: int, p: int, layout: Layout): seq<Instr> {
    Copies(Group(dice, faces, op, x, p, layout), if n >= 0 then n + 1 else 0)
      + Copies([Op(Plus)], if n > 0 then n else 0)
  }

  /** One repetition. */
  function Group(dice: real, faces: real, op: Instr, x: int, p: int, layout: Layout): seq<Instr> {
    match layout
    case AsWritten =>
      [Lit(dice), Lit(faces), op]
        + (if p > 0 then [Lit(p as real), Op(SetBonus)] else [])
        + (if x > 0 then [Lit(x as real), Op(SetDrop)] else [])
    case Intended =>
      [Lit(x as real), Op(SetDrop), Lit(p as real), Op(SetBonus), Lit(dice), Lit(faces), op]
  }

  /** The operands of a symbol of arity one or two as the trace lists
      them: top of the stack first. The original pops them onto a second
      stack and then prints that stack reversed, which is the popping
      order. */
  function Operands(stack: seq<real>, arity: nat): seq<real>
    requires 1 <= arity <= 2 && |stack| >= arity
  {
    if arity == 1 then [stack[0]] else [stack[0], stack[1]]
  }

  /** The operands are the top `arity` values of the stack, in stack
      order. */
  lemma OperandsOnTop(stack: seq<real>, arity: nat)
    requires 1 <= arity <= 2 && |stack| >= arity
    ensures Operands(stack, arity) == stack[..arity]
  {
    var top := stack[..arity];
    if arity == 1 {
      assert top == [top[0]];
    } else {
      assert top == [top[0], top[1]];
    }
  }

  /** Run the next instruction. A number is pushed. A symbol needs at
      least its arity of values on the stack; those are popped and the
      symbol applied. */
  function Step(m: Machine, cfg: Config): Result<Stepped>
    requires |m.instrs| > 0
  {
    match m.instrs[0]
    case Lit(v) => Ok(Stepped(m.(instrs := m.instrs[1..], stack := [v] + m.stack), None))
    case Unknown(_) => Err(UnknownSymbol)
    case Op(s) =>
      if |m.stack| < SymArity(s) then Err(TooFewOperands)
      else Apply(s, m.(instrs := m.instrs[1..]), cfg)
  }

  /** Apply symbol `s`, whose operands are on the stack, to a machine whose
      program no longer holds `s`. */
  function Apply(s: Sym, m: Machine, cfg: Config): Result<Stepped>
    requires |m.stack| >= SymArity(s)
  {
    var operands := Operands(m.stack, SymArity(s));
    match s
    case RollOp(c) =>
      var roll :- cfg.roller(Ceil(m.stack[1]), Ceil(m.stack[0]), c, m.drop, m.bonus, m.draws);
      var st := [roll.outcome.total as real] + m.stack[2..];
      Ok(Stepped(Machine(m.instrs, st, 0, 0, roll.rest), Some(Applied(operands, SymText(s), st, Some(roll.outcome)))))
    case SetDrop =>
      var st := m.stack[1..];
      Ok(Stepped(m.(stack := st, drop := Ceil(m.stack[0])), Some(Applied(operands, SymText(s), st, None))))
    case SetBonus =>
      var st := m.stack[1..];
      Ok(Stepped(m.(stack := st, bonus := Ceil(m.stack[0])), Some(Applied(operands, SymText(s), st, None))))
    case Repeat =>
      if |m.stack| < 3 || |m.instrs| == 0 then Err(NothingToRepeat)
      else
        var st := m.stack[3..];
        var program := Expand(Ceil(m.stack[0]), m.stack[2], m.stack[1], m.instrs[0], m.drop, m.bonus, cfg.layout)
                         + m.instrs[1..];
        Ok(Stepped(m.(instrs := program, stack := st), Some(Applied(operands, SymText(s), st, None))))
    case Ceiling =>
      var st := [Ceil(m.stack[0]) as real] + m.stack[1..];
      Ok(Stepped(m.(stack := st), Some(Applied(operands, SymText(s), st, None))))
    case _ =>
      var v :- Arithmetic(s, m.stack[1], m.stack[0]);
      var st := [v] + m.stack[2..];
      Ok(Stepped(m.(stack := st), Some(Applied(operands, SymText(s), st, None))))
  }

  function Items(item: Option<TraceItem>): seq<TraceItem> {
    if item.Some? then [item.value] else []
  }

  /** Run to the end of the program, at most `fuel` steps. The run
      succeeds when exactly one value is left, which is the grand total. */
  function Run(fuel: nat, m: Machine, cfg: Config): (r: Result<Evaluation>)
    ensures |m.instrs| == 0 ==> (r.Ok? <==> |m.stack| == 1)
    ensures |m.instrs| == 0 && |m.stack| == 1 ==> r == Ok(Evaluation([GrandTotal(m.stack[0])], m.stack[0]))
    ensures |m.instrs| == 0 && |m.stack| != 1 ==> r == Err(WrongFinalStackSize)
    decreases fuel
  {
    if |m.instrs| == 0 then
      if |m.stack| == 1 then Ok(Evaluation([GrandTotal(m.stack[0])], m.stack[0]))
      else Err(WrongFinalStackSize)
    else if fuel == 0 then Err(OutOfFuel)
    else
      var s :- Step(m, cfg);
      var tail :- Run(fuel - 1, s.machine, cfg);
      Ok(Evaluation(Items(s.item) + tail.trace, tail.grandTotal))
  }

  /** Up to `k` steps without the trace; a finished program stays put. */
  function Exec(k: nat, m: Machine, cfg: Config): Result<Machine>
    decreases k
  {
    if k == 0 || |m.instrs| == 0 then Ok(m)
    else
      var s :- Step(m, cfg);
      Exec(k - 1, s.machine, cfg)
  }

  /** What every step does: a number is pushed; an unknown word fails; a
      symbol with fewer values than its arity fails; a symbol that
      succeeds is traced with its operands (top first) and the stack it
      leaves; every instruction but `r` just consumes itself. */
  lemma StepFacts(m: Machine, cfg: Config)
    requires |m.instrs| > 0
    ensures var r := Step(m, cfg);
      && (m.instrs[0].Lit? ==>
            r == Ok(Stepped(m.(instrs := m.instrs[1..], stack := [m.instrs[0].v] + m.stack), None)))
      && (m.instrs[0].Unknown? ==> r == Err(UnknownSymbol))
      && (m.instrs[0].Op? && |m.stack| < SymArity(m.instrs[0].sym) ==> r == Err(TooFewOperands))
      && (r.Ok? && m.instrs[0].Op? ==>
            var s := m.instrs[0].sym;
            && SymArity(s) <= |m.stack|
            && r.value.item == Some(Applied(m.stack[..SymArity(s)], SymText(s),
                                            r.value.machine.stack, r.value.item.value.roll)))
      && (r.Ok? && m.instrs[0] != Op(Repeat) ==> r.value.machine.instrs == m.instrs[1..])
  {
    if m.instrs[0].Op? && SymArity(m.instrs[0].sym) <= |m.stack| {
      OperandsOnTop(m.stack, SymArity(m.instrs[0].sym));
    }
  }

  /** A finished run's trace is one line per applied symbol, in order,
      and then the grand total. */
  lemma {:induction false} RunTrace(fuel: nat, m: Machine, cfg: Config)
    requires Run(fuel, m, cfg).Ok?
    ensures var e := Run(fuel, m, cfg).value;
            && |e.trace| > 0
            && e.trace[|e.trace| - 1] == GrandTotal(e.grandTotal)
            && forall i :: 0 <= i < |e.trace| - 1 ==> e.trace[i].Applied?
    decreases fuel
  {
    if |m.instrs| > 0 {
      var s := Step(m, cfg).value;
      StepTraces(m, cfg);
      RunTrace(fuel - 1, s.machine, cfg);
      var tail := Run(fuel - 1, s.machine, cfg).value;
      assert Run(fuel, m, cfg).value.trace == Items(s.item) + tail.trace;
    }
  }

  /** Only symbols leave a trace line. */
  lemma StepTraces(m: Machine, cfg: Config)
    requires |m.instrs| > 0 && Step(m, cfg).Ok?
    ensures forall i :: 0 <= i < |Items(Step(m, cfg).value.item)| ==> Items(Step(m, cfg).value.item)[i].Applied?
  {
  }

  /** Whether two runs reach the same verdict: both fail for the same
      reason, or both succeed with the same grand total. */
  predicate Agree(a: Result<Evaluation>, b: Result<Evaluation>) {
    && (a.Ok? <==> b.Ok?)
    && (a.Ok? ==> a.value.grandTotal == b.value.grandTotal)
    && (a.Err? ==> a.fault == b.fault)
  }

  /** More fuel does not change a run that finished. */
  lemma {:induction false} FuelMonotone(f: nat, g: nat, m: Machine, cfg: Config)
    requires f <= g && Run(f, m, cfg).Ok?
    ensures Run(g, m, cfg) == Run(f, m, cfg)
    decreases f
  {
    if |m.instrs| > 0 {
      var st := Step(m, cfg);
      assert st.Ok?;
      var s := st.value;
      FuelMonotone(f - 1, g - 1, s.machine, cfg);
    }
  }

  /** Running `k` steps first and then the rest of the program reaches the
      verdict of running the whole program. */
  lemma {:induction false} RunAfterExec(fuel: nat, k: nat, m: Machine, m': Machine, cfg: Config)
    requires k <= fuel && Exec(k, m, cfg) == Ok(m')
    ensures Agree(Run(fuel, m, cfg), Run(fuel - k, m', cfg))
    decreases k, 1
  {
    if k == 0 {
      assert m' == m;
    } else if |m.instrs| == 0 {
      assert m' == m;
      RunFinished(fuel, fuel - k, m, cfg);
    } else {
      RunAfterStep(fuel, k, m, m', cfg);
    }
  }

  /** The inductive step of `RunAfterExec`: the first step succeeds, and
      the rest of the `k` steps start from where it leaves the machine. */
  lemma {:induction false} RunAfterStep(fuel: nat, k: nat, m: Machine, m': Machine, cfg: Config)
    requires 0 < k <= fuel && |m.instrs| > 0 && Exec(k, m, cfg) == Ok(m')
    ensures Agree(Run(fuel, m, cfg), Run(fuel - k, m', cfg))
    decreases k, 0
  {
    var st := Step(m, cfg);
    if st.Err? {
      ExecStepErr(k, m, cfg);
      assert false;
    }
    var s := st.value.machine;
    ExecStep(k, m, s, cfg);
    RunOneStep(fuel, m, s, cfg);
    RunAfterExec(fuel - 1, k - 1, s, m', cfg);
    AgreeChain(Run(fuel, m, cfg), Run(fuel - 1, s, cfg), Run(fuel - k, m', cfg));
  }

  /** A finished program's verdict does not depend on the fuel. */
  lemma RunFinished(f: nat, g: nat, m: Machine, cfg: Config)
    requires |m.instrs| == 0
    ensures Run(f, m, cfg) == Run(g, m, cfg)
  {
  }

  lemma AgreeChain(a: Result<Evaluation>, b: Result<Evaluation>, c: Result<Evaluation>)
    requires Agree(a, b) && Agree(b, c)
    ensures Agree(a, c)
  {
  }

  /** One successful step does not change the verdict of a run. */
  lemma RunOneStep(fuel: nat, m: Machine, m': Machine, cfg: Config)
    requires fuel > 0 && |m.instrs| > 0 && Step(m, cfg).Ok? && Step(m, cfg).value.machine == m'
    ensures Agree(Run(fuel, m, cfg), Run(fuel - 1, m', cfg))
  {
  }

  /** A run that fails within its first `k` steps fails for that reason. */
  lemma {:induction false} ExecErrRun(fuel: nat, k: nat, m: Machine, cfg: Config)
    requires k <= fuel && Exec(k, m, cfg).Err?
    ensures Run(fuel, m, cfg).Err? && Run(fuel, m, cfg).fault == Exec(k, m, cfg).fault
    decreases k
  {
    var s := Step(m, cfg);
    if s.Ok? {
      ExecErrRun(fuel - 1, k - 1, s.value.machine, cfg);
    }
  }

  /** `k` steps and then `j` more are `k + j` steps. */
  lemma {:induction false} ExecSplit(k: nat, j: nat, m: Machine, cfg: Config)
    ensures Exec(k + j, m, cfg) == (var mid :- Exec(k, m, cfg); Exec(j, mid, cfg))
    decreases k
  {
    if k == 0 || |m.instrs| == 0 {
      if |m.instrs| == 0 {
        ExecHalted(j, m, cfg);
        ExecHalted(k + j, m, cfg);
      }
    } else {
      var s := Step(m, cfg);
      if s.Ok? {
        ExecSplit(k - 1, j, s.value.machine, cfg);
      }
    }
  }

  lemma ExecHalted(k: nat, m: Machine, cfg: Config)
    requires |m.instrs| == 0
    ensures Exec(k, m, cfg) == Ok(m)
  {
  }

  /** `k` steps that reach `mid`, then `j` more. */
  lemma ExecThen(k: nat, j: nat, m: Machine, mid: Machine, cfg: Config)
    requires Exec(k, m, cfg) == Ok(mid)
    ensures Exec(k + j, m, cfg) == Exec(j, mid, cfg)
  {
    ExecSplit(k, j, m, cfg);
  }

  /** A failure within `k` steps is the failure of any longer run. */
  lemma ExecThenErr(k: nat, j: nat, m: Machine, cfg: Config)
    requires Exec(k, m, cfg).Err?
    ensures Exec(k + j, m, cfg) == Exec(k, m, cfg)
  {
    ExecSplit(k, j, m, cfg);
  }

  /** One successful step inside `Exec`. */
  lemma ExecStep(k: nat, m: Machine, m': Machine, cfg: Config)
    requires k > 0 && |m.instrs| > 0 && Step(m, cfg).Ok? && Step(m, cfg).value.machine == m'
    ensures Exec(k, m, cfg) == Exec(k - 1, m', cfg)
  {
  }

  /** One failing step inside `Exec`. */
  lemma ExecStepErr(k: nat, m: Machine, cfg: Config)
    requires k > 0 && |m.instrs| > 0 && Step(m, cfg).Err?
    ensures Exec(k, m, cfg) == Err(Step(m, cfg).fault)
  {
  }

  /** `+`, `-`, `*`, `/` and `^` replace the top two values `b` (top) and
      `a` with `a op b`. */
  lemma ArithmeticStep(m: Machine, cfg: Config)
    requires |m.instrs| > 0 && m.instrs[0].Op? && Binary(m.instrs[0].sym) && |m.stack| >= 2
    ensures var v := Arithmetic(m.instrs[0].sym, m.stack[1], m.stack[0]);
            && (Step(m, cfg).Ok? <==> v.Ok?)
            && (v.Err? ==> Step(m, cfg) == Err(v.fault))
            && (v.Ok? ==> Step(m, cfg).value.machine
                            == m.(instrs := m.instrs[1..], stack := [v.value] + m.stack[2..]))
  {
  }

  /** A roll pops the faces (top) and the dice count, rounds both up, rolls
      with the pending drop and bonus, pushes the total and clears both
      modifiers. */
  lemma RollStep(m: Machine, cfg: Config)
    requires |m.instrs| > 0 && m.instrs[0].Op? && m.instrs[0].sym.RollOp? && |m.stack| >= 2
    ensures var roll := cfg.roller(Ceil(m.stack[1]), Ceil(m.stack[0]), m.instrs[0].sym.mode, m.drop, m.bonus, m.draws);
            && (Step(m, cfg).Ok? <==> roll.Ok?)
            && (roll.Err? ==> Step(m, cfg) == Err(roll.fault))
            && (roll.Ok? ==> Step(m, cfg).value.machine
                               == Machine(m.instrs[1..], [roll.value.outcome.total as real] + m.stack[2..],
                                          0, 0, roll.value.rest))
            && (roll.Ok? ==> Step(m, cfg).value.item.value.roll == Some(roll.value.outcome))
  {
  }

  /** `x` pops a value and makes its ceiling the pending drop count. */
  lemma DropStep(m: Machine, cfg: Config)
    requires |m.instrs| > 0 && m.instrs[0] == Op(SetDrop) && |m.stack| >= 1
    ensures Step(m, cfg).Ok?
    ensures Step(m, cfg).value.machine
              == m.(instrs := m.instrs[1..], stack := m.stack[1..], drop := Ceil(m.stack[0]))
  {
  }

  /** `p` pops a value and makes its ceiling the pending per-die bonus. */
  lemma BonusStep(m: Machine, cfg: Config)
    requires |m.instrs| > 0 && m.instrs[0] == Op(SetBonus) && |m.stack| >= 1
    ensures Step(m, cfg).Ok?
    ensures Step(m, cfg).value.machine
              == m.(instrs := m.instrs[1..], stack := m.stack[1..], bonus := Ceil(m.stack[0]))
  {
  }

  /** `r` pops the repeat count, the faces and the dice count, takes the
      next instruction as the roll to repeat, and puts the expansion in its
      place; the pending modifiers stay as they were. */
  lemma RepeatStep(m: Machine, cfg: Config)
    requires |m.instrs| > 0 && m.instrs[0] == Op(Repeat) && |m.stack| >= 1
    ensures Step(m, cfg).Ok? <==> |m.stack| >= 3 && |m.instrs| >= 2
    ensures Step(m, cfg).Err? ==> Step(m, cfg) == Err(NothingToRepeat)
    ensures Step(m, cfg).Ok? ==>
              Step(m, cfg).value.machine
                == m.(instrs := Expand(Ceil(m.stack[0]), m.stack[2], m.stack[1], m.instrs[1], m.drop, m.bonus, cfg.layout)
                                  + m.instrs[2..],
                      stack := m.stack[3..])
  {
  }

  /** `zCeiling` rounds the top value up. */
  lemma CeilingStep(m: Machine, cfg: Config)
    requires |m.instrs| > 0 && m.instrs[0] == Op(Ceiling) && |m.stack| >= 1
    ensures Step(m, cfg).Ok?
    ensures Step(m, cfg).value.machine
              == m.(instrs := m.instrs[1..], stack := [Ceil(m.stack[0]) as real] + m.stack[1..])
  {
  }
}
