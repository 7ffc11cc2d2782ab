/** Two runs that show how the layout of `r` in the original program
    departs from the meaning of a repeated roll, next to the same runs in
    the corrected layout. Draws are chosen so that every die is known. */
module Findings {
  import opened Outcomes
  import opened Sorting
  import opened Dice
  import opened Evaluator
  import opened Reroll
  import opened Numbers

  const RollD: Instr := Op(RollOp('d'))
  const Written := Config(AsWritten, SimpleRoll)
  const Corrected := Config(Intended, SimpleRoll)

  // ---------------------------------------------------------------------
  // The drop of a repeated roll leaks into the next roll.
  // Postfix `2 6 1 x 0 r d 1 6 d +`: two six-sided dice dropping the
  // lowest, repeated once (count 0), plus one more six-sided die.

  const LeakTail: seq<Instr> := [Lit(1.0), Lit(6.0), RollD, Op(Plus)]
  const LeakProgram: seq<Instr> :=
    [Lit(2.0), Lit(6.0), Lit(1.0), Op(SetDrop), Lit(0.0), Op(Repeat), RollD] + LeakTail
  const LeakDraws: seq<nat> := [0, 0, 3]

  /** As written, once the expansion has run the drop of 1 is still
      pending, so the last die is dropped and the program totals 1. */
  lemma LeakAsWritten()
    ensures Exec(11, Machine(LeakProgram, [], 0, 0, LeakDraws), Written)
              == Ok(Machine(LeakTail, [1.0], 1, 0, [3]))
    ensures Run(20, Machine(LeakProgram, [], 0, 0, LeakDraws), Written).Ok?
    ensures Run(20, Machine(LeakProgram, [], 0, 0, LeakDraws), Written).value.grandTotal == 1.0
  {
    var m0 := Machine(LeakProgram, [], 0, 0, LeakDraws);
    var m5 := Machine([Op(Repeat), RollD] + LeakTail, [0.0, 6.0, 2.0], 1, 0, LeakDraws);
    var body := [Lit(2.0), Lit(6.0), RollD, Lit(1.0), Op(SetDrop)];
    var m6 := Machine(body + LeakTail, [], 1, 0, LeakDraws);
    var m11 := Machine(LeakTail, [1.0], 1, 0, [3]);
    var end := Machine([], [1.0], 0, 0, []);
    LeakPrefix(Written);
    ExpandOnce(m5, body, Written);
    ExecAfter(6, 5, 1, m0, m5, Written);
    WrittenGroup(m6, body);
    ExecAfter(11, 6, 5, m0, m6, Written);
    TailDropped(m11);
    ExecAfter(15, 11, 4, m0, m11, Written);
    RunAfterExec(20, 15, m0, end, Written);
  }

  /** In the corrected layout the drop applies to the repeated roll only,
      and the program totals 1 + 4. */
  lemma LeakIntended()
    ensures Exec(13, Machine(LeakProgram, [], 0, 0, LeakDraws), Corrected)
              == Ok(Machine(LeakTail, [1.0], 0, 0, [3]))
    ensures Run(25, Machine(LeakProgram, [], 0, 0, LeakDraws), Corrected).Ok?
    ensures Run(25, Machine(LeakProgram, [], 0, 0, LeakDraws), Corrected).value.grandTotal == 5.0
  {
    var m0 := Machine(LeakProgram, [], 0, 0, LeakDraws);
    var m5 := Machine([Op(Repeat), RollD] + LeakTail, [0.0, 6.0, 2.0], 1, 0, LeakDraws);
    var m13 := Machine(LeakTail, [1.0], 0, 0, [3]);
    var end := Machine([], [5.0], 0, 0, []);
    LeakPrefix(Corrected);
    RepeatOnceIntended(m5);
    ExecAfter(13, 5, 8, m0, m5, Corrected);
    TailKept(m13);
    ExecAfter(17, 13, 4, m0, m13, Corrected);
    RunAfterExec(25, 17, m0, end, Corrected);
  }

  /** `0 r d` in the corrected layout, by `RepeatIntended`: one roll of
      `2d6` dropping one, and nothing left pending. */
  lemma RepeatOnceIntended(m: Machine)
    requires m == Machine([Op(Repeat), RollD] + LeakTail, [0.0, 6.0, 2.0], 1, 0, LeakDraws)
    ensures Exec(8, m, Corrected) == Ok(Machine(LeakTail, [1.0], 0, 0, [3]))
  {
    assert Ceil(2.0) == 2 && Ceil(6.0) == 6 && Ceil(0.0) == 0;
    RepeatTwoDropOne();
    assert SumInts([1]) == 1;
    IntendedOnce(m, LeakTail, [1], [3], 1, Machine(LeakTail, [1.0], 0, 0, [3]), Corrected);
  }

  /** `0 r d` on a stack of exactly count, faces and dice, in the
      corrected layout: one roll, whose total is all that is left. */
  lemma IntendedOnce(m: Machine, rest: seq<Instr>, totals: seq<int>, left: seq<nat>, total: int, m': Machine,
                     cfg: Config)
    requires cfg.layout == Intended
    requires |m.stack| == 3 && Ceil(m.stack[0]) == 0 && m.instrs == [Op(Repeat), RollD] + rest
    requires RepeatRolls(1, Ceil(m.stack[2]), Ceil(m.stack[1]), 'd', m.drop, m.bonus, m.draws, cfg.roller)
               == Ok(Repeated(totals, left))
    requires SumInts(totals) == total && m' == Machine(rest, [total as real], 0, 0, left)
    ensures Exec(8, m, cfg) == Ok(m')
  {
    RepeatIntended(m, 0, 'd', rest, cfg, totals, left);
    assert RepeatSteps(0) == 8;
    assert [SumInts(totals) as real] + m.stack[3..] == [total as real];
  }

  lemma RepeatTwoDropOne()
    ensures RepeatRolls(1, 2, 6, 'd', 1, 0, LeakDraws, SimpleRoll) == Ok(Repeated([1], [3]))
  {
    TwoDropOne();
    assert [1] + [] == [1];
    assert RepeatRolls(0, 2, 6, 'd', 1, 0, [3], SimpleRoll) == Ok(Repeated([], [3]));
  }

  /** `2 6 1 x 0` under any layout and dice. */
  lemma LeakPrefix(cfg: Config)
    ensures Exec(5, Machine(LeakProgram, [], 0, 0, LeakDraws), cfg)
              == Ok(Machine([Op(Repeat), RollD] + LeakTail, [0.0, 6.0, 2.0], 1, 0, LeakDraws))
  {
    var p := LeakProgram;
    var m0 := Machine(p, [], 0, 0, LeakDraws);
    var m1 := Machine(p[1..], [2.0], 0, 0, LeakDraws);
    var m2 := Machine(p[2..], [6.0, 2.0], 0, 0, LeakDraws);
    var m3 := Machine(p[3..], [1.0, 6.0, 2.0], 0, 0, LeakDraws);
    var m4 := Machine(p[4..], [6.0, 2.0], 1, 0, LeakDraws);
    var m5 := Machine(p[5..], [0.0, 6.0, 2.0], 1, 0, LeakDraws);
    ExecStep(5, m0, m1, cfg);
    ExecStep(4, m1, m2, cfg);
    ExecStep(3, m2, m3, cfg);
    DropStep(m3, cfg);
    ExecStep(2, m3, m4, cfg);
    ExecStep(1, m4, m5, cfg);
    assert p[5..] == [Op(Repeat), RollD] + LeakTail;
  }

  /** `0 r d` as written: one copy of the roll, followed by the drop
      re-set after it. */
  lemma ExpandOnce(m: Machine, body: seq<Instr>, cfg: Config)
    requires m == Machine([Op(Repeat), RollD] + LeakTail, [0.0, 6.0, 2.0], 1, 0, LeakDraws)
    requires cfg.layout == AsWritten
    requires body == [Lit(2.0), Lit(6.0), RollD, Lit(1.0), Op(SetDrop)]
    ensures Exec(1, m, cfg) == Ok(Machine(body + LeakTail, [], 1, 0, LeakDraws))
  {
    RepeatStep(m, cfg);
    var g := Group(2.0, 6.0, RollD, 1, 0, AsWritten);
    assert g == body;
    assert Copies(g, 1) == g + Copies(g, 0);
    assert Expand(0, 2.0, 6.0, RollD, 1, 0, AsWritten) == body;
    ExecStep(1, m, Machine(body + LeakTail, [], 1, 0, LeakDraws), cfg);
  }

  /** The written repetition rolls `2d6` dropping one and then sets the
      drop to 1 again. */
  lemma WrittenGroup(m: Machine, body: seq<Instr>)
    requires body == [Lit(2.0), Lit(6.0), RollD, Lit(1.0), Op(SetDrop)]
    requires m == Machine(body + LeakTail, [], 1, 0, LeakDraws)
    ensures Exec(5, m, Written) == Ok(Machine(LeakTail, [1.0], 1, 0, [3]))
  {
    var m3 := Machine([Lit(1.0), Op(SetDrop)] + LeakTail, [1.0], 0, 0, [3]);
    var m4 := Machine(LeakTail, [1.0], 1, 0, [3]);
    assert m.instrs == [Lit(2.0), Lit(6.0), RollD] + m3.instrs;
    TwoDropOne();
    assert Ceil(2.0) == 2 && Ceil(6.0) == 6;
    PushRoll(m, m3, 2.0, 6.0, 2, 6, RollResult(Label(2, 'd', 6, Some(1)), [1], [1], 0, 0, 1), Written);
    SetDropNext(m3, m4, 1.0, Written);
    ExecAfter(5, 3, 2, m, m3, Written);
  }

  /** `1 6 d +` with a drop of 1 pending: the only die is dropped. */
  lemma TailDropped(m: Machine)
    requires m == Machine(LeakTail, [1.0], 1, 0, [3])
    ensures Exec(4, m, Written) == Ok(Machine([], [1.0], 0, 0, []))
  {
    var m3 := Machine([Op(Plus)], [0.0, 1.0], 0, 0, []);
    assert m.instrs == [Lit(1.0), Lit(6.0), RollD] + m3.instrs;
    OneDropOne();
    assert Ceil(1.0) == 1 && Ceil(6.0) == 6;
    PushRoll(m, m3, 1.0, 6.0, 1, 6, RollResult(Label(1, 'd', 6, Some(1)), [], [4], 0, 0, 0), Written);
    ArithmeticFacts(Plus, 1.0, 0.0);
    ArithNext(m3, Machine([], [1.0], 0, 0, []), Plus, 1.0, 0.0, 1.0, Written);
    ExecAfter(4, 3, 1, m, m3, Written);
  }

  /** `1 6 d +` with nothing pending: the die shows 4. */
  lemma TailKept(m: Machine)
    requires m == Machine(LeakTail, [1.0], 0, 0, [3])
    ensures Exec(4, m, Corrected) == Ok(Machine([], [5.0], 0, 0, []))
  {
    var m3 := Machine([Op(Plus)], [4.0, 1.0], 0, 0, []);
    assert m.instrs == [Lit(1.0), Lit(6.0), RollD] + m3.instrs;
    OneKept();
    assert Ceil(1.0) == 1 && Ceil(6.0) == 6;
    PushRoll(m, m3, 1.0, 6.0, 1, 6, RollResult(Label(1, 'd', 6, None), [4], [], 0, 0, 4), Corrected);
    ArithmeticFacts(Plus, 1.0, 4.0);
    ArithNext(m3, Machine([], [5.0], 0, 0, []), Plus, 1.0, 4.0, 5.0, Corrected);
    ExecAfter(4, 3, 1, m, m3, Corrected);
  }

  // ---------------------------------------------------------------------
  // A negative bonus reaches the first repetition only.
  // Postfix `1 6 0 1 - p 1 r d`: one six-sided die with a bonus of -1,
  // repeated once (count 1).

  const BonusProgram: seq<Instr> :=
    [Lit(1.0), Lit(6.0), Lit(0.0), Lit(1.0), Op(Minus), Op(SetBonus), Lit(1.0), Op(Repeat), RollD]
  const BonusDraws: seq<nat> := [0, 0]

  /** As written the repetitions after the first carry no bonus, so two
      dice showing 1 total 0 + 1. */
  lemma BonusAsWritten()
    ensures Exec(15, Machine(BonusProgram, [], 0, 0, BonusDraws), Written)
              == Ok(Machine([], [1.0], 0, 0, []))
    ensures Run(16, Machine(BonusProgram, [], 0, 0, BonusDraws), Written).Ok?
    ensures Run(16, Machine(BonusProgram, [], 0, 0, BonusDraws), Written).value.grandTotal == 1.0
  {
    var m0 := Machine(BonusProgram, [], 0, 0, BonusDraws);
    var m7 := Machine([Op(Repeat), RollD], [1.0, 6.0, 1.0], 0, -1, BonusDraws);
    var body := [Lit(1.0), Lit(6.0), RollD, Lit(1.0), Lit(6.0), RollD, Op(Plus)];
    var m8 := Machine(body, [], 0, -1, BonusDraws);
    var end := Machine([], [1.0], 0, 0, []);
    BonusPrefix(Written);
    ExpandBonus(m7, body);
    ExecAfter(8, 7, 1, m0, m7, Written);
    WrittenBonusGroups(m8, body);
    ExecAfter(15, 8, 7, m0, m8, Written);
    RunAfterExec(16, 15, m0, end, Written);
  }

  /** In the corrected layout both repetitions carry the bonus, so the
      same dice total 0 + 0. */
  lemma BonusIntended()
    ensures Exec(23, Machine(BonusProgram, [], 0, 0, BonusDraws), Corrected)
              == Ok(Machine([], [0.0], 0, 0, []))
    ensures Run(24, Machine(BonusProgram, [], 0, 0, BonusDraws), Corrected).Ok?
    ensures Run(24, Machine(BonusProgram, [], 0, 0, BonusDraws), Corrected).value.grandTotal == 0.0
  {
    var m0 := Machine(BonusProgram, [], 0, 0, BonusDraws);
    var m7 := Machine([Op(Repeat), RollD], [1.0, 6.0, 1.0], 0, -1, BonusDraws);
    var end := Machine([], [0.0], 0, 0, []);
    BonusPrefix(Corrected);
    RepeatBonusIntended(m7);
    ExecAfter(23, 7, 16, m0, m7, Corrected);
    RunAfterExec(24, 23, m0, end, Corrected);
  }

  /** `1 r d` in the corrected layout, by `RepeatIntended`. */
  lemma RepeatBonusIntended(m: Machine)
    requires m == Machine([Op(Repeat), RollD], [1.0, 6.0, 1.0], 0, -1, BonusDraws)
    ensures Exec(16, m, Corrected) == Ok(Machine([], [0.0], 0, 0, []))
  {
    assert Ceil(1.0) == 1 && Ceil(6.0) == 6;
    RepeatTwiceMinusOne();
    assert m.instrs == [Op(Repeat), RollD] + [];
    RepeatIntended(m, 1, 'd', [], Corrected, [0, 0], []);
    var after := Machine([], [SumInts([0, 0]) as real] + m.stack[3..], 0, 0, []);
    assert Exec(RepeatSteps(1), m, Corrected) == Ok(after);
    assert SumInts([0, 0]) == 0;
    assert m.stack[3..] == [];
    assert after == Machine([], [0.0], 0, 0, []);
    assert RepeatSteps(1) == 16;
  }

  lemma RepeatTwiceMinusOne()
    ensures RepeatRolls(2, 1, 6, 'd', 0, -1, BonusDraws, SimpleRoll) == Ok(Repeated([0, 0], []))
  {
    OneMinusOne([0, 0], [0]);
    OneMinusOne([0], []);
    assert RepeatRolls(0, 1, 6, 'd', 0, -1, [], SimpleRoll) == Ok(Repeated([], []));
    assert [0] + [] == [0];
    assert RepeatRolls(1, 1, 6, 'd', 0, -1, [0], SimpleRoll) == Ok(Repeated([0], []));
    assert [0] + [0] == [0, 0];
  }

  /** `1 6 0 1 - p 1` under any layout and dice. */
  lemma BonusPrefix(cfg: Config)
    ensures Exec(7, Machine(BonusProgram, [], 0, 0, BonusDraws), cfg)
              == Ok(Machine([Op(Repeat), RollD], [1.0, 6.0, 1.0], 0, -1, BonusDraws))
  {
    var m0 := Machine(BonusProgram, [], 0, 0, BonusDraws);
    var m4 := Machine(BonusProgram[4..], [1.0, 0.0, 6.0, 1.0], 0, 0, BonusDraws);
    var m7 := Machine([Op(Repeat), RollD], [1.0, 6.0, 1.0], 0, -1, BonusDraws);
    FourPushed(m0, m4, cfg);
    MinusOneBonus(m4, m7, cfg);
    ExecAfter(7, 4, 3, m0, m4, cfg);
  }

  lemma FourPushed(m0: Machine, m4: Machine, cfg: Config)
    requires m0 == Machine(BonusProgram, [], 0, 0, BonusDraws)
    requires m4 == Machine(BonusProgram[4..], [1.0, 0.0, 6.0, 1.0], 0, 0, BonusDraws)
    ensures Exec(4, m0, cfg) == Ok(m4)
  {
    var p := BonusProgram;
    var m2 := Machine(p[2..], [6.0, 1.0], 0, 0, BonusDraws);
    assert p == [Lit(1.0), Lit(6.0)] + m2.instrs && m2.instrs == [Lit(0.0), Lit(1.0)] + m4.instrs;
    PushTwo(m0, m2, 1.0, 6.0, cfg);
    PushTwo(m2, m4, 0.0, 1.0, cfg);
    ExecAfter(4, 2, 2, m0, m2, cfg);
  }

  /** `0 1 -` has been pushed; `- p 1` makes the bonus -1. */
  lemma MinusOneBonus(m4: Machine, m7: Machine, cfg: Config)
    requires m4 == Machine(BonusProgram[4..], [1.0, 0.0, 6.0, 1.0], 0, 0, BonusDraws)
    requires m7 == Machine([Op(Repeat), RollD], [1.0, 6.0, 1.0], 0, -1, BonusDraws)
    ensures Exec(3, m4, cfg) == Ok(m7)
  {
    var m5 := Machine([Op(SetBonus), Lit(1.0), Op(Repeat), RollD], [-1.0, 6.0, 1.0], 0, 0, BonusDraws);
    assert m4.instrs == [Op(Minus)] + m5.instrs;
    ArithmeticFacts(Minus, 0.0, 1.0);
    ArithNext(m4, m5, Minus, 0.0, 1.0, -1.0, cfg);
    NegativeBonus(m5, m7, cfg);
    ExecAfter(3, 1, 2, m4, m5, cfg);
  }

  /** `p 1`: the bonus becomes -1 and the repeat count is pushed. */
  lemma NegativeBonus(m: Machine, m': Machine, cfg: Config)
    requires m == Machine([Op(SetBonus), Lit(1.0), Op(Repeat), RollD], [-1.0, 6.0, 1.0], 0, 0, BonusDraws)
    requires m' == Machine([Op(Repeat), RollD], [1.0, 6.0, 1.0], 0, -1, BonusDraws)
    ensures Exec(2, m, cfg) == Ok(m')
  {
    var m1 := Machine([Lit(1.0), Op(Repeat), RollD], [6.0, 1.0], 0, -1, BonusDraws);
    BonusStep(m, cfg);
    assert Ceil(-1.0) == -1;
    ExecStep(2, m, m1, cfg);
    ExecStep(1, m1, m', cfg);
  }

  /** `1 r d` as written: two copies of the roll with no bonus set
      between them. */
  lemma ExpandBonus(m: Machine, body: seq<Instr>)
    requires m == Machine([Op(Repeat), RollD], [1.0, 6.0, 1.0], 0, -1, BonusDraws)
    requires body == [Lit(1.0), Lit(6.0), RollD, Lit(1.0), Lit(6.0), RollD, Op(Plus)]
    ensures Exec(1, m, Written) == Ok(Machine(body, [], 0, -1, BonusDraws))
  {
    RepeatStep(m, Written);
    var g := Group(1.0, 6.0, RollD, 0, -1, AsWritten);
    assert g == [Lit(1.0), Lit(6.0), RollD];
    assert Copies(g, 2) == g + (g + Copies(g, 0));
    assert Copies([Op(Plus)], 1) == [Op(Plus)] + Copies([Op(Plus)], 0);
    assert Ceil(1.0) == 1;
    assert Expand(1, 1.0, 6.0, RollD, 0, -1, AsWritten) == body;
    assert m.instrs[2..] == [];
    ExecStep(1, m, Machine(body, [], 0, -1, BonusDraws), Written);
  }

  /** The two written repetitions and their sum. */
  lemma WrittenBonusGroups(m: Machine, body: seq<Instr>)
    requires body == [Lit(1.0), Lit(6.0), RollD, Lit(1.0), Lit(6.0), RollD, Op(Plus)]
    requires m == Machine(body, [], 0, -1, BonusDraws)
    ensures Exec(7, m, Written) == Ok(Machine([], [1.0], 0, 0, []))
  {
    var m3 := Machine(body[3..], [0.0], 0, 0, [0]);
    var m6 := Machine([Op(Plus)], [1.0, 0.0], 0, 0, []);
    FirstWithBonus(m, m3, body);
    SecondPlain(m3, m6);
    ExecAfter(7, 3, 4, m, m3, Written);
    ArithmeticFacts(Plus, 0.0, 1.0);
    ArithNext(m6, Machine([], [1.0], 0, 0, []), Plus, 0.0, 1.0, 1.0, Written);
    ExecAfter(4, 3, 1, m3, m6, Written);
  }

  /** The first written repetition rolls with the bonus of -1. */
  lemma FirstWithBonus(m: Machine, m': Machine, body: seq<Instr>)
    requires body == [Lit(1.0), Lit(6.0), RollD, Lit(1.0), Lit(6.0), RollD, Op(Plus)]
    requires m == Machine(body, [], 0, -1, BonusDraws)
    requires m' == Machine(body[3..], [0.0], 0, 0, [0])
    ensures Exec(3, m, Written) == Ok(m')
  {
    assert m.instrs == [Lit(1.0), Lit(6.0), RollD] + m'.instrs;
    OneMinusOne([0, 0], [0]);
    assert Ceil(1.0) == 1 && Ceil(6.0) == 6;
    PushRoll(m, m', 1.0, 6.0, 1, 6, RollResult(Label(1, 'd', 6, None), [1], [], 0, -1, 0), Written);
  }

  /** The second written repetition rolls with no bonus. */
  lemma SecondPlain(m: Machine, m': Machine)
    requires m == Machine([Lit(1.0), Lit(6.0), RollD, Op(Plus)], [0.0], 0, 0, [0])
    requires m' == Machine([Op(Plus)], [1.0, 0.0], 0, 0, [])
    ensures Exec(3, m, Written) == Ok(m')
  {
    assert m.instrs == [Lit(1.0), Lit(6.0), RollD] + m'.instrs;
    OnePlain();
    assert Ceil(1.0) == 1 && Ceil(6.0) == 6;
    PushRoll(m, m', 1.0, 6.0, 1, 6, RollResult(Label(1, 'd', 6, None), [1], [], 0, 0, 1), Written);
  }

  /** Two numbers and `d`: the dice are rolled with what is pending, and
      their total replaces the two numbers. */
  lemma PushRoll(m: Machine, m': Machine, a: real, b: real, dice: int, faces: int,
                 outcome: RollResult, cfg: Config)
    requires m.instrs == [Lit(a), Lit(b), RollD] + m'.instrs
    requires Ceil(a) == dice && Ceil(b) == faces
    requires cfg.roller(dice, faces, 'd', m.drop, m.bonus, m.draws) == Ok(Roll(outcome, m'.draws))
    requires m'.stack == [outcome.total as real] + m.stack && m'.drop == 0 && m'.bonus == 0
    ensures Exec(3, m, cfg) == Ok(m')
  {
    var m2 := Machine([RollD] + m'.instrs, [b, a] + m.stack, m.drop, m.bonus, m.draws);
    assert m.instrs == [Lit(a), Lit(b)] + m2.instrs;
    PushTwo(m, m2, a, b, cfg);
    assert m2.stack[2..] == m.stack;
    RollNext(m2, m', cfg, dice, faces, outcome);
    ExecAfter(3, 2, 1, m, m2, cfg);
  }

  /** Two numbers pushed in turn. */
  lemma PushTwo(m: Machine, m': Machine, a: real, b: real, cfg: Config)
    requires m.instrs == [Lit(a), Lit(b)] + m'.instrs && m'.stack == [b, a] + m.stack
    requires m'.drop == m.drop && m'.bonus == m.bonus && m'.draws == m.draws
    ensures Exec(2, m, cfg) == Ok(m')
  {
    var m1 := m.(instrs := [Lit(b)] + m'.instrs, stack := [a] + m.stack);
    assert m.instrs[1..] == m1.instrs && m1.instrs[1..] == m'.instrs;
    assert [b] + m1.stack == m'.stack;
    ExecStep(2, m, m1, cfg);
    ExecStep(1, m1, m', cfg);
  }

  /** A `d` roll whose dice are known. */
  lemma RollNext(m: Machine, m': Machine, cfg: Config, dice: int, faces: int, outcome: RollResult)
    requires m.instrs == [RollD] + m'.instrs && |m.stack| >= 2
    requires Ceil(m.stack[1]) == dice && Ceil(m.stack[0]) == faces
    requires cfg.roller(dice, faces, 'd', m.drop, m.bonus, m.draws) == Ok(Roll(outcome, m'.draws))
    requires m'.stack == [outcome.total as real] + m.stack[2..] && m'.drop == 0 && m'.bonus == 0
    ensures Exec(1, m, cfg) == Ok(m')
  {
    RollStep(m, cfg);
    assert m.instrs[1..] == m'.instrs;
    ExecStep(1, m, m', cfg);
  }

  /** A value and `x`: the value's ceiling becomes the pending drop. */
  lemma SetDropNext(m: Machine, m': Machine, v: real, cfg: Config)
    requires m.instrs == [Lit(v), Op(SetDrop)] + m'.instrs && m'.stack == m.stack
    requires m'.drop == Ceil(v) && m'.bonus == m.bonus && m'.draws == m.draws
    ensures Exec(2, m, cfg) == Ok(m')
  {
    var m1 := m.(instrs := [Op(SetDrop)] + m'.instrs, stack := [v] + m.stack);
    assert m.instrs[1..] == m1.instrs && m1.instrs[1..] == m'.instrs;
    ExecStep(2, m, m1, cfg);
    DropStep(m1, cfg);
    assert m1.stack[1..] == m.stack;
    ExecStep(1, m1, m', cfg);
  }

  /** An arithmetic symbol on `a` and `b` (top) giving `v`. */
  lemma ArithNext(m: Machine, m': Machine, s: Sym, a: real, b: real, v: real, cfg: Config)
    requires Binary(s) && m.instrs == [Op(s)] + m'.instrs
    requires |m.stack| >= 2 && m.stack[0] == b && m.stack[1] == a && Arithmetic(s, a, b) == Ok(v)
    requires m'.stack == [v] + m.stack[2..]
    requires m'.drop == m.drop && m'.bonus == m.bonus && m'.draws == m.draws
    ensures Exec(1, m, cfg) == Ok(m')
  {
    ArithmeticStep(m, cfg);
    assert m.instrs[1..] == m'.instrs;
    ExecStep(1, m, m', cfg);
  }

  lemma TwoDropOne()
    ensures SimpleRoll(2, 6, 'd', 1, 0, [0, 0, 3])
              == Ok(Roll(RollResult(Label(2, 'd', 6, Some(1)), [1], [1], 0, 0, 1), [3]))
  {
    assert RollDie('d', 6, [0, 0, 3]) == Ok(Rolled([1], [0, 3]));
    assert RollDie('d', 6, [0, 3]) == Ok(Rolled([1], [3]));
    assert RollDice(0, 'd', 6, [3]) == Ok(Rolled([], [3]));
    assert [1] + [] == [1];
    assert RollDice(1, 'd', 6, [0, 3]) == Ok(Rolled([1], [3]));
    assert [1] + [1] == [1, 1];
    assert RollDice(2, 'd', 6, [0, 0, 3]) == Ok(Rolled([1, 1], [3]));
    assert Sort([1, 1]) == [1, 1];
  }

  lemma OneDropOne()
    ensures SimpleRoll(1, 6, 'd', 1, 0, [3])
              == Ok(Roll(RollResult(Label(1, 'd', 6, Some(1)), [], [4], 0, 0, 0), []))
  {
    assert [3][1..] == [];
    assert RollDie('d', 6, [3]) == Ok(Rolled([4], []));
    assert RollDice(0, 'd', 6, []) == Ok(Rolled([], []));
    assert [4] + [] == [4];
    assert RollDice(1, 'd', 6, [3]) == Ok(Rolled([4], []));
    assert Sort([4]) == [4];
  }

  lemma OneKept()
    ensures SimpleRoll(1, 6, 'd', 0, 0, [3])
              == Ok(Roll(RollResult(Label(1, 'd', 6, None), [4], [], 0, 0, 4), []))
  {
    assert [3][1..] == [];
    assert RollDie('d', 6, [3]) == Ok(Rolled([4], []));
    assert RollDice(0, 'd', 6, []) == Ok(Rolled([], []));
    assert [4] + [] == [4];
    assert RollDice(1, 'd', 6, [3]) == Ok(Rolled([4], []));
  }

  /** A die showing 1 with a bonus of -1 totals 0. */
  lemma OneMinusOne(draws: seq<nat>, rest: seq<nat>)
    requires |draws| > 0 && draws[0] == 0 && rest == draws[1..]
    ensures SimpleRoll(1, 6, 'd', 0, -1, draws)
              == Ok(Roll(RollResult(Label(1, 'd', 6, None), [1], [], 0, -1, 0), rest))
  {
    assert RollDie('d', 6, draws) == Ok(Rolled([1], rest));
    assert RollDice(0, 'd', 6, rest) == Ok(Rolled([], rest));
    assert [1] + [] == [1];
    assert RollDice(1, 'd', 6, draws) == Ok(Rolled([1], rest));
  }

  lemma OnePlain()
    ensures SimpleRoll(1, 6, 'd', 0, 0, [0])
              == Ok(Roll(RollResult(Label(1, 'd', 6, None), [1], [], 0, 0, 1), []))
  {
    assert [0][1..] == [];
    OneMinusOne([0], []);
  }
}
