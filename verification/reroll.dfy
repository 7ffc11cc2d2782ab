/** What `r` does to a run. `n r op` after `dice faces` repeats the roll
    `dice op faces` `n + 1` times and adds the totals; each repetition is
    meant to use the drop and bonus pending when `r` ran, and the roll
    clears them afterwards like any other roll. The layout of the original
    program re-sets the modifiers after each repetition instead of before
    it, and only when they are positive; module `Findings` runs both
    layouts side by side on two programs that show the difference. */
module Reroll {
  import opened Outcomes
  import opened Grammar
  import opened Numbers
  import opened Dice
  import opened Evaluator

  /** Totals of successive rolls and the draws left over. */
  datatype Repeated = Repeated(totals: seq<int>, rest: seq<nat>)

  /** Reference meaning of a repeated roll: `count` rolls of the same
      dice, one after the other on the remaining draws, each with the same
      drop and bonus. */
  function RepeatRolls(count: nat, dice: int, faces: int, mode: char, drop: int, bonus: int, draws: seq<nat>, roller: Roller)
    : (r: Result<Repeated>)
    ensures r.Ok? ==> |r.value.totals| == count
    decreases count
  {
    if count == 0 then Ok(Repeated([], draws))
    else
      var roll :- roller(dice, faces, mode, drop, bonus, draws);
      var more :- RepeatRolls(count - 1, dice, faces, mode, drop, bonus, roll.rest, roller);
      Ok(Repeated([roll.outcome.total] + more.totals, more.rest))
  }

  function SumInts(s: seq<int>): int {
    if |s| == 0 then 0 else s[0] + SumInts(s[1..])
  }

  function SumReals(s: seq<real>): real {
    if |s| == 0 then 0.0 else s[0] + SumReals(s[1..])
  }

  function AsReals(s: seq<int>): (r: seq<real>)
    ensures |r| == |s|
    ensures forall i :: 0 <= i < |s| ==> r[i] == s[i] as real
  {
    if |s| == 0 then [] else [s[0] as real] + AsReals(s[1..])
  }

  lemma {:induction false} SumRealsAppend(a: seq<real>, b: seq<real>)
    ensures SumReals(a + b) == SumReals(a) + SumReals(b)
  {
    if |a| == 0 {
      assert a + b == b;
    } else {
      assert (a + b)[1..] == a[1..] + b;
      SumRealsAppend(a[1..], b);
    }
  }

  /** Summing the totals in stack order gives the integer sum. */
  lemma {:induction false} SumReversed(s: seq<int>)
    ensures SumReals(Reverse(AsReals(s))) == SumInts(s) as real
  {
    if |s| > 0 {
      SumReversed(s[1..]);
      var rs := AsReals(s);
      assert rs[1..] == AsReals(s[1..]);
      assert Reverse(rs) == Reverse(rs[1..]) + [rs[0]];
      SumRealsAppend(Reverse(rs[1..]), [rs[0]]);
      assert [rs[0]][1..] == [];
    }
  }

  /** One repetition in the corrected layout: it sets the drop, sets the
      bonus, pushes the dice count and faces and rolls. */
  lemma GroupIntended(m: Machine, dice: real, faces: real, c: char, x: int, p: int, tail: seq<Instr>, cfg: Config)
    requires m.instrs == Group(dice, faces, Op(RollOp(c)), x, p, Intended) + tail
    ensures var roll := cfg.roller(Ceil(dice), Ceil(faces), c, x, p, m.draws);
            && (roll.Err? ==> Exec(7, m, cfg) == Err(roll.fault))
            && (roll.Ok? ==> Exec(7, m, cfg)
                               == Ok(Machine(tail, [roll.value.outcome.total as real] + m.stack, 0, 0, roll.value.rest)))
  {
    var g := Group(dice, faces, Op(RollOp(c)), x, p, Intended);
    var m2 := m.(instrs := g[2..] + tail, drop := x);
    var m4 := m2.(instrs := g[4..] + tail, bonus := p);
    var m6 := m4.(instrs := g[6..] + tail, stack := [faces, dice] + m.stack);
    assert g[6..] == [Op(RollOp(c))];
    DropPair(7, m, g, 0, tail, x as real, m2, cfg);
    BonusPair(5, m2, g, 2, tail, p as real, m4, cfg);
    PushPair(3, m4, g, tail, dice, faces, m6, cfg);
    RollLast(m6, c, tail, m.stack, cfg);
  }

  /** A value followed by `x`, which makes it the pending drop. */
  lemma DropPair(k: nat, m: Machine, g: seq<Instr>, i: nat, tail: seq<Instr>, v: real, m': Machine, cfg: Config)
    requires k >= 2 && i + 2 <= |g| && m.instrs == g[i..] + tail
    requires g[i] == Lit(v) && g[i + 1] == Op(SetDrop)
    requires m' == m.(instrs := g[i + 2..] + tail, drop := Ceil(v))
    ensures Exec(k, m, cfg) == Exec(k - 2, m', cfg)
  {
    SliceStep(g, i, tail);
    SliceStep(g, i + 1, tail);
    var m1 := m.(instrs := g[i + 1..] + tail, stack := [v] + m.stack);
    PushThen(k, m, m1, cfg);
    SetDropThen(k - 1, m1, m', cfg);
  }

  /** A value followed by `p`, which makes it the pending bonus. */
  lemma BonusPair(k: nat, m: Machine, g: seq<Instr>, i: nat, tail: seq<Instr>, v: real, m': Machine, cfg: Config)
    requires k >= 2 && i + 2 <= |g| && m.instrs == g[i..] + tail
    requires g[i] == Lit(v) && g[i + 1] == Op(SetBonus)
    requires m' == m.(instrs := g[i + 2..] + tail, bonus := Ceil(v))
    ensures Exec(k, m, cfg) == Exec(k - 2, m', cfg)
  {
    SliceStep(g, i, tail);
    SliceStep(g, i + 1, tail);
    var m1 := m.(instrs := g[i + 1..] + tail, stack := [v] + m.stack);
    PushThen(k, m, m1, cfg);
    SetBonusThen(k - 1, m1, m', cfg);
  }

  /** The dice count and faces pushed in turn. */
  lemma PushPair(k: nat, m: Machine, g: seq<Instr>, tail: seq<Instr>, dice: real, faces: real, m': Machine, cfg: Config)
    requires k >= 2 && |g| == 7 && m.instrs == g[4..] + tail && g[4] == Lit(dice) && g[5] == Lit(faces)
    requires m' == m.(instrs := g[6..] + tail, stack := [faces, dice] + m.stack)
    ensures Exec(k, m, cfg) == Exec(k - 2, m', cfg)
  {
    SliceStep(g, 4, tail);
    SliceStep(g, 5, tail);
    var m1 := m.(instrs := g[5..] + tail, stack := [dice] + m.stack);
    PushThen(k, m, m1, cfg);
    PushThen(k - 1, m1, m', cfg);
  }

  lemma SliceStep(g: seq<Instr>, i: nat, tail: seq<Instr>)
    requires i < |g|
    ensures (g[i..] + tail)[0] == g[i]
    ensures (g[i..] + tail)[1..] == g[i + 1..] + tail
  {
  }

  lemma PushThen(k: nat, m: Machine, m': Machine, cfg: Config)
    requires k > 0 && |m.instrs| > 0 && m.instrs[0].Lit?
    requires m' == m.(instrs := m.instrs[1..], stack := [m.instrs[0].v] + m.stack)
    ensures Exec(k, m, cfg) == Exec(k - 1, m', cfg)
  {
    ExecStep(k, m, m', cfg);
  }

  lemma SetDropThen(k: nat, m: Machine, m': Machine, cfg: Config)
    requires k > 0 && |m.instrs| > 0 && m.instrs[0] == Op(SetDrop) && |m.stack| > 0
    requires m' == m.(instrs := m.instrs[1..], stack := m.stack[1..], drop := Ceil(m.stack[0]))
    ensures Exec(k, m, cfg) == Exec(k - 1, m', cfg)
  {
    DropStep(m, cfg);
    ExecStep(k, m, m', cfg);
  }

  lemma SetBonusThen(k: nat, m: Machine, m': Machine, cfg: Config)
    requires k > 0 && |m.instrs| > 0 && m.instrs[0] == Op(SetBonus) && |m.stack| > 0
    requires m' == m.(instrs := m.instrs[1..], stack := m.stack[1..], bonus := Ceil(m.stack[0]))
    ensures Exec(k, m, cfg) == Exec(k - 1, m', cfg)
  {
    BonusStep(m, cfg);
    ExecStep(k, m, m', cfg);
  }

  lemma RollLast(m: Machine, c: char, tail: seq<Instr>, below: seq<real>, cfg: Config)
    requires m.instrs == [Op(RollOp(c))] + tail && |m.stack| >= 2 && m.stack[2..] == below
    ensures var roll := cfg.roller(Ceil(m.stack[1]), Ceil(m.stack[0]), c, m.drop, m.bonus, m.draws);
            && (roll.Err? ==> Exec(1, m, cfg) == Err(roll.fault))
            && (roll.Ok? ==> Exec(1, m, cfg)
                               == Ok(Machine(tail, [roll.value.outcome.total as real] + below, 0, 0, roll.value.rest)))
  {
    RollStep(m, cfg);
    var roll := cfg.roller(Ceil(m.stack[1]), Ceil(m.stack[0]), c, m.drop, m.bonus, m.draws);
    if roll.Ok? {
      var m' := Machine(tail, [roll.value.outcome.total as real] + below, 0, 0, roll.value.rest);
      ExecStep(1, m, m', cfg);
    } else {
      ExecStepErr(1, m, cfg);
    }
  }

  /** The machine after `count` corrected repetitions, rolled one after
      the other onto `stack`; stated without the evaluator. */
  function AfterGroups(count: nat, dice: int, faces: int, c: char, x: int, p: int,
                       stack: seq<real>, draws: seq<nat>, tail: seq<Instr>, roller: Roller): Result<Machine>
    decreases count
  {
    if count == 0 then Ok(Machine(tail, stack, 0, 0, draws))
    else
      var roll :- roller(dice, faces, c, x, p, draws);
      AfterGroups(count - 1, dice, faces, c, x, p, [roll.outcome.total as real] + stack, roll.rest, tail, roller)
  }

  /** `count` repetitions in the corrected layout run as `AfterGroups`
      says. */
  lemma {:induction false} GroupsIntended(count: nat, m: Machine, dice: real, faces: real, c: char, x: int, p: int,
                                          tail: seq<Instr>, cfg: Config)
    requires count >= 1
    requires m.instrs == Copies(Group(dice, faces, Op(RollOp(c)), x, p, Intended), count) + tail
    ensures Exec(7 * count, m, cfg) == AfterGroups(count, Ceil(dice), Ceil(faces), c, x, p, m.stack, m.draws, tail, cfg.roller)
    decreases count
  {
    FirstGroup(count, m, dice, faces, c, x, p, tail, cfg);
    var roll := cfg.roller(Ceil(dice), Ceil(faces), c, x, p, m.draws);
    if roll.Ok? {
      var later := Copies(Group(dice, faces, Op(RollOp(c)), x, p, Intended), count - 1) + tail;
      var m' := Machine(later, [roll.value.outcome.total as real] + m.stack, 0, 0, roll.value.rest);
      if count > 1 {
        GroupsIntended(count - 1, m', dice, faces, c, x, p, tail, cfg);
      }
    }
  }

  /** The first of `count` repetitions, and what is left of the run and
      of `AfterGroups` after it. */
  lemma FirstGroup(count: nat, m: Machine, dice: real, faces: real, c: char, x: int, p: int, tail: seq<Instr>, cfg: Config)
    requires count >= 1
    requires m.instrs == Copies(Group(dice, faces, Op(RollOp(c)), x, p, Intended), count) + tail
    ensures var roll := cfg.roller(Ceil(dice), Ceil(faces), c, x, p, m.draws);
            var after := AfterGroups(count, Ceil(dice), Ceil(faces), c, x, p, m.stack, m.draws, tail, cfg.roller);
            && (roll.Err? ==> Exec(7 * count, m, cfg) == after)
            && (roll.Ok? ==>
                  var later := Copies(Group(dice, faces, Op(RollOp(c)), x, p, Intended), count - 1) + tail;
                  var m' := Machine(later, [roll.value.outcome.total as real] + m.stack, 0, 0, roll.value.rest);
                  && Exec(7 * count, m, cfg) == Exec(7 * (count - 1), m', cfg)
                  && after == AfterGroups(count - 1, Ceil(dice), Ceil(faces), c, x, p, m'.stack, m'.draws, tail, cfg.roller)
                  && (count == 1 ==> Exec(0, m', cfg) == after))
  {
    var g := Group(dice, faces, Op(RollOp(c)), x, p, Intended);
    var later := Copies(g, count - 1) + tail;
    assert m.instrs == g + later;
    GroupIntended(m, dice, faces, c, x, p, later, cfg);
    var roll := cfg.roller(Ceil(dice), Ceil(faces), c, x, p, m.draws);
    if roll.Ok? {
      var m' := Machine(later, [roll.value.outcome.total as real] + m.stack, 0, 0, roll.value.rest);
      ExecAfter(7 * count, 7, 7 * (count - 1), m, m', cfg);
      if count == 1 {
        assert Copies(g, 0) == [];
        assert later == tail;
      }
    } else {
      ExecAfterErr(7 * count, 7, m, cfg);
    }
  }

  lemma ExecAfter(n: nat, j: nat, k: nat, m: Machine, m': Machine, cfg: Config)
    requires n == j + k && Exec(j, m, cfg) == Ok(m')
    ensures Exec(n, m, cfg) == Exec(k, m', cfg)
  {
    ExecThen(j, k, m, m', cfg);
  }

  lemma ExecAfterErr(n: nat, j: nat, m: Machine, cfg: Config)
    requires j <= n && Exec(j, m, cfg).Err?
    ensures Exec(n, m, cfg) == Exec(j, m, cfg)
  {
    ExecThenErr(j, n - j, m, cfg);
  }

  /** `AfterGroups` is the reference `RepeatRolls` with its totals pushed
      in order, the latest on top. */
  lemma {:induction false} AfterGroupsRepeats(count: nat, dice: int, faces: int, c: char, x: int, p: int,
                                              stack: seq<real>, draws: seq<nat>, tail: seq<Instr>, cfg: Config)
    ensures var rep := RepeatRolls(count, dice, faces, c, x, p, draws, cfg.roller);
            var after := AfterGroups(count, dice, faces, c, x, p, stack, draws, tail, cfg.roller);
            && (rep.Err? ==> after == Err(rep.fault))
            && (rep.Ok? ==> after == Ok(Machine(tail, Reverse(AsReals(rep.value.totals)) + stack, 0, 0, rep.value.rest)))
    decreases count
  {
    if count == 0 {
      assert AsReals([]) == [];
      assert Reverse<real>([]) + stack == stack;
    } else {
      var roll := cfg.roller(dice, faces, c, x, p, draws);
      RepeatRollsStep(count, dice, faces, c, x, p, draws, cfg);
      if roll.Ok? {
        var t := roll.value.outcome.total;
        AfterGroupsRepeats(count - 1, dice, faces, c, x, p, [t as real] + stack, roll.value.rest, tail, cfg);
        var more := RepeatRolls(count - 1, dice, faces, c, x, p, roll.value.rest, cfg.roller);
        if more.Ok? {
          StackOfTotals(t, more.value.totals, stack);
        }
      }
    }
  }

  /** The first repetition and the rest, as `RepeatRolls` chains them. */
  lemma RepeatRollsStep(count: nat, dice: int, faces: int, c: char, x: int, p: int, draws: seq<nat>, cfg: Config)
    requires count >= 1
    ensures var roll := cfg.roller(dice, faces, c, x, p, draws);
            var rep := RepeatRolls(count, dice, faces, c, x, p, draws, cfg.roller);
            && (roll.Err? ==> rep == Err(roll.fault))
            && (roll.Ok? ==>
                  var more := RepeatRolls(count - 1, dice, faces, c, x, p, roll.value.rest, cfg.roller);
                  && (more.Err? ==> rep == Err(more.fault))
                  && (more.Ok? ==> rep == Ok(Repeated([roll.value.outcome.total] + more.value.totals, more.value.rest))))
  {
  }

  lemma StackOfTotals(t: int, more: seq<int>, below: seq<real>)
    ensures Reverse(AsReals([t] + more)) + below == Reverse(AsReals(more)) + ([t as real] + below)
  {
    var ts := [t] + more;
    assert AsReals(ts)[1..] == AsReals(more);
    assert Reverse(AsReals(ts)) == Reverse(AsReals(more)) + [t as real];
  }

  /** `k` additions fold the top `k + 1` values into their sum. */
  lemma {:induction false} AddsFold(k: nat, m: Machine, vs: seq<real>, tail: seq<Instr>, cfg: Config)
    requires |vs| == k + 1 && |vs| <= |m.stack|
    requires m.instrs == Copies([Op(Plus)], k) + tail
    requires m.stack == vs + m.stack[|vs|..]
    ensures Exec(k, m, cfg) == Ok(m.(instrs := tail, stack := [SumReals(vs)] + m.stack[|vs|..]))
    decreases k
  {
    var below := m.stack[|vs|..];
    if k == 0 {
      assert vs[1..] == [];
      assert SumReals(vs) == vs[0];
      assert Copies([Op(Plus)], 0) == [];
      assert m.instrs == tail;
      assert m.stack == [vs[0]] + below;
    } else {
      assert m.instrs == [Op(Plus)] + (Copies([Op(Plus)], k - 1) + tail);
      ArithmeticStep(m, cfg);
      var vs' := [vs[1] + vs[0]] + vs[2..];
      var m' := m.(instrs := Copies([Op(Plus)], k - 1) + tail, stack := vs' + below);
      assert m.stack[2..] == vs[2..] + below;
      assert Step(m, cfg).value.machine == m';
      ExecStep(k, m, m', cfg);
      assert m'.stack[|vs'|..] == below;
      AddsFold(k - 1, m', vs', tail, cfg);
      assert vs'[1..] == vs[2..];
      assert vs[1..][1..] == vs[2..];
      assert SumReals(vs) == vs[0] + (vs[1] + SumReals(vs[2..]));
      assert SumReals(vs') == (vs[1] + vs[0]) + SumReals(vs[2..]);
    }
  }

  /** The steps a corrected `n r op` takes with `n >= 0`: `r` itself,
      seven per repetition and `n` additions. */
  function RepeatSteps(n: nat): nat {
    1 + 7 * (n + 1) + n
  }

  /** The corrected `n r` with `n >= 0` before a roll word: when the
      reference `RepeatRolls` of `n + 1` rolls with the modifiers pending
      at `r` succeeds, the expansion leaves the sum of its totals in place
      of the count, faces and dice, and no modifier pending. */
  lemma RepeatIntended(m: Machine, n: nat, c: char, rest: seq<Instr>, cfg: Config, totals: seq<int>, left: seq<nat>)
    requires cfg.layout == Intended
    requires |m.stack| >= 3 && Ceil(m.stack[0]) == n
    requires m.instrs == [Op(Repeat), Op(RollOp(c))] + rest
    requires RepeatRolls(n + 1, Ceil(m.stack[2]), Ceil(m.stack[1]), c, m.drop, m.bonus, m.draws, cfg.roller)
               == Ok(Repeated(totals, left))
    ensures Exec(RepeatSteps(n), m, cfg) == Ok(Machine(rest, [SumInts(totals) as real] + m.stack[3..], 0, 0, left))
  {
    var m1 := RepeatUnfolds(m, n, c, rest, cfg, RepeatSteps(n));
    GroupsThenAdds(n, m1, m.stack[2], m.stack[1], c, m.drop, m.bonus, rest, cfg);
  }

  /** ... and when it fails, the expansion fails the same way. */
  lemma RepeatIntendedErr(m: Machine, n: nat, c: char, rest: seq<Instr>, cfg: Config)
    requires cfg.layout == Intended
    requires |m.stack| >= 3 && Ceil(m.stack[0]) == n
    requires m.instrs == [Op(Repeat), Op(RollOp(c))] + rest
    requires RepeatRolls(n + 1, Ceil(m.stack[2]), Ceil(m.stack[1]), c, m.drop, m.bonus, m.draws, cfg.roller).Err?
    ensures Exec(RepeatSteps(n), m, cfg)
              == Err(RepeatRolls(n + 1, Ceil(m.stack[2]), Ceil(m.stack[1]), c, m.drop, m.bonus, m.draws, cfg.roller).fault)
  {
    var m1 := RepeatUnfolds(m, n, c, rest, cfg, RepeatSteps(n));
    GroupsThenAdds(n, m1, m.stack[2], m.stack[1], c, m.drop, m.bonus, rest, cfg);
  }

  /** `r` itself: one step puts `n + 1` repetitions in the configured
      layout and `n` additions in front of the rest of the program. */
  lemma RepeatUnfolds(m: Machine, n: nat, c: char, rest: seq<Instr>, cfg: Config, k: nat) returns (m1: Machine)
    requires |m.stack| >= 3 && Ceil(m.stack[0]) == n && k >= 1
    requires m.instrs == [Op(Repeat), Op(RollOp(c))] + rest
    ensures m1.instrs == Copies(Group(m.stack[2], m.stack[1], Op(RollOp(c)), m.drop, m.bonus, cfg.layout), n + 1)
                           + (Copies([Op(Plus)], n) + rest)
    ensures m1.stack == m.stack[3..] && m1.draws == m.draws && m1.drop == m.drop && m1.bonus == m.bonus
    ensures Exec(k, m, cfg) == Exec(k - 1, m1, cfg)
  {
    m1 := RepeatExpands(m, n, c, rest, cfg);
    ExecStep(k, m, m1, cfg);
  }

  /** The step of `r`. */
  lemma RepeatExpands(m: Machine, n: nat, c: char, rest: seq<Instr>, cfg: Config) returns (m1: Machine)
    requires |m.stack| >= 3 && Ceil(m.stack[0]) == n
    requires m.instrs == [Op(Repeat), Op(RollOp(c))] + rest
    ensures m1.instrs == Copies(Group(m.stack[2], m.stack[1], Op(RollOp(c)), m.drop, m.bonus, cfg.layout), n + 1)
                           + (Copies([Op(Plus)], n) + rest)
    ensures m1.stack == m.stack[3..] && m1.draws == m.draws && m1.drop == m.drop && m1.bonus == m.bonus
    ensures Step(m, cfg).Ok? && Step(m, cfg).value.machine == m1
  {
    var g := Group(m.stack[2], m.stack[1], Op(RollOp(c)), m.drop, m.bonus, cfg.layout);
    var e := Expand(n, m.stack[2], m.stack[1], Op(RollOp(c)), m.drop, m.bonus, cfg.layout);
    assert e == Copies(g, n + 1) + Copies([Op(Plus)], n);
    RepeatStep(m, cfg);
    m1 := m.(instrs := e + rest, stack := m.stack[3..]);
    assert m.instrs[1] == Op(RollOp(c)) && m.instrs[2..] == rest;
  }

  /** `n + 1` corrected repetitions followed by `n` additions leave the
      sum of the `RepeatRolls` totals. */
  lemma GroupsThenAdds(n: nat, m: Machine, dice: real, faces: real, c: char, x: int, p: int,
                       rest: seq<Instr>, cfg: Config)
    requires m.instrs == Copies(Group(dice, faces, Op(RollOp(c)), x, p, Intended), n + 1)
                           + (Copies([Op(Plus)], n) + rest)
    ensures var rep := RepeatRolls(n + 1, Ceil(dice), Ceil(faces), c, x, p, m.draws, cfg.roller);
            && (rep.Err? ==> Exec(RepeatSteps(n) - 1, m, cfg) == Err(rep.fault))
            && (rep.Ok? ==> Exec(RepeatSteps(n) - 1, m, cfg)
                              == Ok(Machine(rest, [SumInts(rep.value.totals) as real] + m.stack, 0, 0, rep.value.rest)))
  {
    var adds := Copies([Op(Plus)], n) + rest;
    GroupsPush(n, m, dice, faces, c, x, p, adds, cfg);
    var rep := RepeatRolls(n + 1, Ceil(dice), Ceil(faces), c, x, p, m.draws, cfg.roller);
    if rep.Ok? {
      var vs := Reverse(AsReals(rep.value.totals));
      var m2 := Machine(adds, vs + m.stack, 0, 0, rep.value.rest);
      ExecAfter(RepeatSteps(n) - 1, 7 * (n + 1), n, m, m2, cfg);
      assert m2.stack[|vs|..] == m.stack;
      AddsFold(n, m2, vs, rest, cfg);
      SumReversed(rep.value.totals);
    } else {
      ExecAfterErr(RepeatSteps(n) - 1, 7 * (n + 1), m, cfg);
    }
  }

  /** The repetitions alone push the `RepeatRolls` totals, the latest on
      top. */
  lemma GroupsPush(n: nat, m: Machine, dice: real, faces: real, c: char, x: int, p: int,
                   tail: seq<Instr>, cfg: Config)
    requires m.instrs == Copies(Group(dice, faces, Op(RollOp(c)), x, p, Intended), n + 1) + tail
    ensures var rep := RepeatRolls(n + 1, Ceil(dice), Ceil(faces), c, x, p, m.draws, cfg.roller);
            && (rep.Err? ==> Exec(7 * (n + 1), m, cfg) == Err(rep.fault))
            && (rep.Ok? ==> Exec(7 * (n + 1), m, cfg)
                              == Ok(Machine(tail, Reverse(AsReals(rep.value.totals)) + m.stack, 0, 0, rep.value.rest)))
  {
    GroupsIntended(n + 1, m, dice, faces, c, x, p, tail, cfg);
    AfterGroupsRepeats(n + 1, Ceil(dice), Ceil(faces), c, x, p, m.stack, m.draws, tail, cfg);
  }

  /** Running a program through a corrected `r` whose rolls succeed
      reaches the verdict of the program with the expansion replaced by
      the sum of the totals. */
  lemma RunRepeatIntended(fuel: nat, m: Machine, n: nat, c: char, rest: seq<Instr>, cfg: Config,
                          totals: seq<int>, left: seq<nat>)
    requires cfg.layout == Intended
    requires |m.stack| >= 3 && Ceil(m.stack[0]) == n
    requires m.instrs == [Op(Repeat), Op(RollOp(c))] + rest
    requires fuel >= RepeatSteps(n)
    requires RepeatRolls(n + 1, Ceil(m.stack[2]), Ceil(m.stack[1]), c, m.drop, m.bonus, m.draws, cfg.roller)
               == Ok(Repeated(totals, left))
    ensures Agree(Run(fuel, m, cfg),
                  Run(fuel - RepeatSteps(n), Machine(rest, [SumInts(totals) as real] + m.stack[3..], 0, 0, left), cfg))
  {
    var k := RepeatSteps(n);
    var m' := Machine(rest, [SumInts(totals) as real] + m.stack[3..], 0, 0, left);
    RepeatIntended(m, n, c, rest, cfg, totals, left);
    assert Exec(k, m, cfg) == Ok(m');
    RunAfterExec(fuel, k, m, m', cfg);
  }

  /** A run through a corrected `r` whose rolls fail fails the same way. */
  lemma RunRepeatIntendedErr(fuel: nat, m: Machine, n: nat, c: char, rest: seq<Instr>, cfg: Config)
    requires cfg.layout == Intended
    requires |m.stack| >= 3 && Ceil(m.stack[0]) == n
    requires m.instrs == [Op(Repeat), Op(RollOp(c))] + rest
    requires fuel >= RepeatSteps(n)
    requires RepeatRolls(n + 1, Ceil(m.stack[2]), Ceil(m.stack[1]), c, m.drop, m.bonus, m.draws, cfg.roller).Err?
    ensures Run(fuel, m, cfg)
              == Err(RepeatRolls(n + 1, Ceil(m.stack[2]), Ceil(m.stack[1]), c, m.drop, m.bonus, m.draws, cfg.roller).fault)
  {
    RepeatIntendedErr(m, n, c, rest, cfg);
    ExecErrRun(fuel, RepeatSteps(n), m, cfg);
  }

  // The layout of the original program.

  /** A modifier as a repetition in the original layout re-sets it: kept
      when positive, and otherwise left at the 0 the roll cleared it to. */
  function IfPositive(v: int): int {
    if v > 0 then v else 0
  }

  /** Reference meaning of `n r` in the original layout: the first roll
      uses the drop and bonus pending at `r`, and each of the `n` further
      rolls uses them as re-set after the roll before, that is only where
      positive. */
  function WrittenRolls(n: nat, dice: int, faces: int, mode: char, drop: int, bonus: int, draws: seq<nat>, roller: Roller)
    : (r: Result<Repeated>)
    ensures r.Ok? ==> |r.value.totals| == n + 1
  {
    var first :- roller(dice, faces, mode, drop, bonus, draws);
    var more :- RepeatRolls(n, dice, faces, mode, IfPositive(drop), IfPositive(bonus), first.rest, roller);
    Ok(Repeated([first.outcome.total] + more.totals, more.rest))
  }

  /** The steps of one repetition in the original layout: the roll, and
      two for each modifier it re-sets. */
  function WrittenWidth(x: int, p: int): nat {
    3 + (if p > 0 then 2 else 0) + (if x > 0 then 2 else 0)
  }

  /** The steps of `count` repetitions in the original layout. */
  function GroupsSpan(count: nat, x: int, p: int): nat {
    WrittenWidth(x, p) * count
  }

  lemma SpanStep(count: nat, x: int, p: int)
    requires count >= 1
    ensures GroupsSpan(count, x, p) == WrittenWidth(x, p) + GroupsSpan(count - 1, x, p)
  {
  }

  /** The first roll of `WrittenRolls` and the rest, as it chains them. */
  lemma WrittenRollsStep(n: nat, dice: int, faces: int, c: char, x: int, p: int, draws: seq<nat>, roller: Roller)
    ensures var roll := roller(dice, faces, c, x, p, draws);
            var rep := WrittenRolls(n, dice, faces, c, x, p, draws, roller);
            && (roll.Err? ==> rep == Err(roll.fault))
            && (roll.Ok? ==>
                  var more := RepeatRolls(n, dice, faces, c, IfPositive(x), IfPositive(p), roll.value.rest, roller);
                  && (more.Err? ==> rep == Err(more.fault))
                  && (more.Ok? ==> rep == Ok(Repeated([roll.value.outcome.total] + more.value.totals, more.value.rest))))
  {
  }

  /** The steps an original `n r op` takes with `n >= 0`: `r` itself,
      `n + 1` repetitions and `n` additions. */
  function WrittenSteps(n: nat, x: int, p: int): nat {
    1 + GroupsSpan(n + 1, x, p) + n
  }

  /** The re-setting tail of a repetition in the original layout, run
      right after the roll cleared both modifiers. */
  lemma WrittenSetters(m: Machine, setters: seq<Instr>, tail: seq<Instr>, x: int, p: int, cfg: Config)
    requires setters == (if p > 0 then [Lit(p as real), Op(SetBonus)] else [])
                          + (if x > 0 then [Lit(x as real), Op(SetDrop)] else [])
    requires m.instrs == setters + tail && m.drop == 0 && m.bonus == 0
    ensures Exec(|setters|, m, cfg) == Ok(m.(instrs := tail, drop := IfPositive(x), bonus := IfPositive(p)))
  {
    var i := if p > 0 then 2 else 0;
    var mid := m.(instrs := setters[i..] + tail, bonus := IfPositive(p));
    if p > 0 {
      assert Ceil(p as real) == p;
      BonusPair(|setters|, m, setters, 0, tail, p as real, mid, cfg);
    } else {
      assert mid == m;
    }
    var last := mid.(instrs := tail, drop := IfPositive(x));
    if x > 0 {
      assert Ceil(x as real) == x;
      assert setters[i + 2..] == [];
      DropPair(|setters| - i, mid, setters, i, tail, x as real, last, cfg);
    } else {
      assert setters[i..] == [] && mid == last;
    }
  }

  /** One repetition in the original layout: the roll runs with whatever
      drop and bonus are pending, and the modifiers are then re-set where
      positive. */
  lemma WrittenGroup(m: Machine, dice: real, faces: real, c: char, x: int, p: int, tail: seq<Instr>, cfg: Config)
    requires m.instrs == Group(dice, faces, Op(RollOp(c)), x, p, AsWritten) + tail
    ensures var roll := cfg.roller(Ceil(dice), Ceil(faces), c, m.drop, m.bonus, m.draws);
            && (roll.Err? ==> Exec(WrittenWidth(x, p), m, cfg) == Err(roll.fault))
            && (roll.Ok? ==> Exec(WrittenWidth(x, p), m, cfg)
                               == Ok(Machine(tail, [roll.value.outcome.total as real] + m.stack,
                                             IfPositive(x), IfPositive(p), roll.value.rest)))
  {
    var setters := Group(dice, faces, Op(RollOp(c)), x, p, AsWritten)[3..];
    var w := WrittenWidth(x, p);
    var m2 := m.(instrs := [Op(RollOp(c))] + (setters + tail), stack := [faces, dice] + m.stack);
    WrittenPrefix(m, dice, faces, c, x, p, tail, cfg);
    RollLast(m2, c, setters + tail, m.stack, cfg);
    var roll := cfg.roller(Ceil(dice), Ceil(faces), c, m.drop, m.bonus, m.draws);
    if roll.Ok? {
      var m3 := Machine(setters + tail, [roll.value.outcome.total as real] + m.stack, 0, 0, roll.value.rest);
      ExecAfter(w - 2, 1, w - 3, m2, m3, cfg);
      WrittenSetters(m3, setters, tail, x, p, cfg);
    } else {
      ExecAfterErr(w - 2, 1, m2, cfg);
    }
  }

  /** The two pushes that open a repetition in the original layout. */
  lemma WrittenPrefix(m: Machine, dice: real, faces: real, c: char, x: int, p: int, tail: seq<Instr>, cfg: Config)
    requires m.instrs == Group(dice, faces, Op(RollOp(c)), x, p, AsWritten) + tail
    ensures var setters := Group(dice, faces, Op(RollOp(c)), x, p, AsWritten)[3..];
            && |setters| == WrittenWidth(x, p) - 3
            && Exec(WrittenWidth(x, p), m, cfg)
                 == Exec(WrittenWidth(x, p) - 2,
                         m.(instrs := [Op(RollOp(c))] + (setters + tail), stack := [faces, dice] + m.stack), cfg)
  {
    var g := Group(dice, faces, Op(RollOp(c)), x, p, AsWritten);
    var w := WrittenWidth(x, p);
    assert |g| == w;
    SliceStep(g, 0, tail);
    SliceStep(g, 1, tail);
    SliceStep(g, 2, tail);
    var m1 := m.(instrs := g[1..] + tail, stack := [dice] + m.stack);
    var m2 := m.(instrs := g[2..] + tail, stack := [faces, dice] + m.stack);
    PushThen(w, m, m1, cfg);
    PushThen(w - 1, m1, m2, cfg);
    assert m2.instrs == [Op(RollOp(c))] + (g[3..] + tail);
  }

  /** `count` repetitions in the original layout, entered with the
      modifiers already re-set, push the totals of `RepeatRolls` with
      those modifiers, the latest on top, and leave them re-set. */
  lemma {:induction false} WrittenGroupsPush(count: nat, m: Machine, dice: real, faces: real, c: char, x: int, p: int,
                                             tail: seq<Instr>, cfg: Config)
    requires m.instrs == Copies(Group(dice, faces, Op(RollOp(c)), x, p, AsWritten), count) + tail
    requires m.drop == IfPositive(x) && m.bonus == IfPositive(p)
    ensures var rep := RepeatRolls(count, Ceil(dice), Ceil(faces), c, IfPositive(x), IfPositive(p), m.draws, cfg.roller);
            && (rep.Err? ==> Exec(GroupsSpan(count, x, p), m, cfg) == Err(rep.fault))
            && (rep.Ok? ==> Exec(GroupsSpan(count, x, p), m, cfg)
                              == Ok(Machine(tail, Reverse(AsReals(rep.value.totals)) + m.stack,
                                            IfPositive(x), IfPositive(p), rep.value.rest)))
    decreases count
  {
    var w := WrittenWidth(x, p);
    var g := Group(dice, faces, Op(RollOp(c)), x, p, AsWritten);
    if count == 0 {
      assert Copies(g, 0) == [] && m.instrs == tail;
      assert AsReals([]) == [];
      assert Reverse<real>([]) + m.stack == m.stack;
    } else {
      var later := Copies(g, count - 1) + tail;
      assert m.instrs == g + later;
      WrittenGroup(m, dice, faces, c, x, p, later, cfg);
      RepeatRollsStep(count, Ceil(dice), Ceil(faces), c, IfPositive(x), IfPositive(p), m.draws, cfg);
      var roll := cfg.roller(Ceil(dice), Ceil(faces), c, m.drop, m.bonus, m.draws);
      SpanStep(count, x, p);
      if roll.Ok? {
        var t := roll.value.outcome.total;
        var m' := Machine(later, [t as real] + m.stack, IfPositive(x), IfPositive(p), roll.value.rest);
        ExecAfter(GroupsSpan(count, x, p), w, GroupsSpan(count - 1, x, p), m, m', cfg);
        WrittenGroupsPush(count - 1, m', dice, faces, c, x, p, tail, cfg);
        var more := RepeatRolls(count - 1, Ceil(dice), Ceil(faces), c, IfPositive(x), IfPositive(p), roll.value.rest, cfg.roller);
        if more.Ok? {
          StackOfTotals(t, more.value.totals, m.stack);
        }
      } else {
        ExecAfterErr(GroupsSpan(count, x, p), w, m, cfg);
      }
    }
  }

  /** `n + 1` repetitions in the original layout followed by `n`
      additions, entered with the modifiers of the repetitions pending,
      leave the sum of the `WrittenRolls` totals and the modifiers re-set
      where positive. */
  lemma WrittenGroupsThenAdds(n: nat, m: Machine, dice: real, faces: real, c: char, x: int, p: int,
                              rest: seq<Instr>, cfg: Config)
    requires m.instrs == Copies(Group(dice, faces, Op(RollOp(c)), x, p, AsWritten), n + 1)
                           + (Copies([Op(Plus)], n) + rest)
    requires m.drop == x && m.bonus == p
    ensures var rep := WrittenRolls(n, Ceil(dice), Ceil(faces), c, x, p, m.draws, cfg.roller);
            && (rep.Err? ==> Exec(WrittenSteps(n, x, p) - 1, m, cfg) == Err(rep.fault))
            && (rep.Ok? ==> Exec(WrittenSteps(n, x, p) - 1, m, cfg)
                              == Ok(Machine(rest, [SumInts(rep.value.totals) as real] + m.stack,
                                            IfPositive(x), IfPositive(p), rep.value.rest)))
  {
    WrittenRollsStep(n, Ceil(dice), Ceil(faces), c, x, p, m.draws, cfg.roller);
    var rep := WrittenRolls(n, Ceil(dice), Ceil(faces), c, x, p, m.draws, cfg.roller);
    var roll := cfg.roller(Ceil(dice), Ceil(faces), c, x, p, m.draws);
    if roll.Ok? {
      WrittenAfterFirst(n, m, dice, faces, c, x, p, rest, cfg, roll.value);
      var more := RepeatRolls(n, Ceil(dice), Ceil(faces), c, IfPositive(x), IfPositive(p), roll.value.rest, cfg.roller);
      if more.Ok? {
        assert rep == Ok(Repeated([roll.value.outcome.total] + more.value.totals, more.value.rest));
      } else {
        assert rep == Err(more.fault);
      }
    } else {
      WrittenFirstSteps(n, m, dice, faces, c, x, p, rest, cfg);
      assert rep == Err(roll.fault);
    }
  }

  /** The step count of the repetitions and additions, split after the
      first repetition. */
  lemma WrittenFirstSteps(n: nat, m: Machine, dice: real, faces: real, c: char, x: int, p: int,
                          rest: seq<Instr>, cfg: Config)
    requires m.instrs == Copies(Group(dice, faces, Op(RollOp(c)), x, p, AsWritten), n + 1)
                           + (Copies([Op(Plus)], n) + rest)
    ensures var roll := cfg.roller(Ceil(dice), Ceil(faces), c, m.drop, m.bonus, m.draws);
            && (roll.Err? ==> Exec(WrittenSteps(n, x, p) - 1, m, cfg) == Err(roll.fault))
            && (roll.Ok? ==> Exec(WrittenSteps(n, x, p) - 1, m, cfg)
                               == Exec(GroupsSpan(n, x, p) + n,
                                       Machine(Copies(Group(dice, faces, Op(RollOp(c)), x, p, AsWritten), n)
                                                 + (Copies([Op(Plus)], n) + rest),
                                               [roll.value.outcome.total as real] + m.stack,
                                               IfPositive(x), IfPositive(p), roll.value.rest), cfg))
  {
    var g := Group(dice, faces, Op(RollOp(c)), x, p, AsWritten);
    var later := Copies(g, n) + (Copies([Op(Plus)], n) + rest);
    CopiesFront(g, n, Copies([Op(Plus)], n) + rest);
    SpanStep(n + 1, x, p);
    WrittenFirst(WrittenSteps(n, x, p) - 1, GroupsSpan(n, x, p) + n, m, g, later, dice, faces, c, x, p, cfg);
  }

  /** What the repetitions and additions leave once the first roll has
      succeeded. */
  lemma WrittenAfterFirst(n: nat, m: Machine, dice: real, faces: real, c: char, x: int, p: int,
                          rest: seq<Instr>, cfg: Config, first: Roll)
    requires m.instrs == Copies(Group(dice, faces, Op(RollOp(c)), x, p, AsWritten), n + 1)
                           + (Copies([Op(Plus)], n) + rest)
    requires m.drop == x && m.bonus == p
    requires cfg.roller(Ceil(dice), Ceil(faces), c, x, p, m.draws) == Ok(first)
    ensures var more := RepeatRolls(n, Ceil(dice), Ceil(faces), c, IfPositive(x), IfPositive(p), first.rest, cfg.roller);
            && (more.Err? ==> Exec(WrittenSteps(n, x, p) - 1, m, cfg) == Err(more.fault))
            && (more.Ok? ==> Exec(WrittenSteps(n, x, p) - 1, m, cfg)
                               == Ok(Machine(rest, [SumInts([first.outcome.total] + more.value.totals) as real] + m.stack,
                                             IfPositive(x), IfPositive(p), more.value.rest)))
  {
    var t := first.outcome.total;
    var later := Copies(Group(dice, faces, Op(RollOp(c)), x, p, AsWritten), n) + (Copies([Op(Plus)], n) + rest);
    var m2 := Machine(later, [t as real] + m.stack, IfPositive(x), IfPositive(p), first.rest);
    WrittenFirstSteps(n, m, dice, faces, c, x, p, rest, cfg);
    WrittenLater(n, m2, t, m.stack, dice, faces, c, x, p, rest, cfg);
  }

  lemma CopiesFront<T>(g: seq<T>, n: nat, tail: seq<T>)
    ensures Copies(g, n + 1) + tail == g + (Copies(g, n) + tail)
  {
  }

  /** The first of several repetitions in the original layout, and what
      is left of the run after it. */
  lemma WrittenFirst(k: nat, after: nat, m: Machine, g: seq<Instr>, later: seq<Instr>,
                     dice: real, faces: real, c: char, x: int, p: int, cfg: Config)
    requires g == Group(dice, faces, Op(RollOp(c)), x, p, AsWritten) && m.instrs == g + later
    requires k == WrittenWidth(x, p) + after
    ensures var roll := cfg.roller(Ceil(dice), Ceil(faces), c, m.drop, m.bonus, m.draws);
            && (roll.Err? ==> Exec(k, m, cfg) == Err(roll.fault))
            && (roll.Ok? ==> Exec(k, m, cfg)
                               == Exec(after, Machine(later, [roll.value.outcome.total as real] + m.stack,
                                                      IfPositive(x), IfPositive(p), roll.value.rest), cfg))
  {
    var w := WrittenWidth(x, p);
    WrittenGroup(m, dice, faces, c, x, p, later, cfg);
    var roll := cfg.roller(Ceil(dice), Ceil(faces), c, m.drop, m.bonus, m.draws);
    if roll.Ok? {
      var m2 := Machine(later, [roll.value.outcome.total as real] + m.stack, IfPositive(x), IfPositive(p), roll.value.rest);
      ExecAfter(k, w, after, m, m2, cfg);
    } else {
      ExecAfterErr(k, w, m, cfg);
    }
  }

  /** What follows the first repetition in the original layout: `n` more
      repetitions with the modifiers re-set, and the additions that fold
      their totals and the first total `t` into one sum. */
  lemma WrittenLater(n: nat, m: Machine, t: int, below: seq<real>, dice: real, faces: real, c: char, x: int, p: int,
                     rest: seq<Instr>, cfg: Config)
    requires m.instrs == Copies(Group(dice, faces, Op(RollOp(c)), x, p, AsWritten), n) + (Copies([Op(Plus)], n) + rest)
    requires m.stack == [t as real] + below && m.drop == IfPositive(x) && m.bonus == IfPositive(p)
    ensures var more := RepeatRolls(n, Ceil(dice), Ceil(faces), c, IfPositive(x), IfPositive(p), m.draws, cfg.roller);
            && (more.Err? ==> Exec(GroupsSpan(n, x, p) + n, m, cfg) == Err(more.fault))
            && (more.Ok? ==> Exec(GroupsSpan(n, x, p) + n, m, cfg)
                               == Ok(Machine(rest, [SumInts([t] + more.value.totals) as real] + below,
                                             IfPositive(x), IfPositive(p), more.value.rest)))
  {
    var more := RepeatRolls(n, Ceil(dice), Ceil(faces), c, IfPositive(x), IfPositive(p), m.draws, cfg.roller);
    if more.Ok? {
      WrittenLaterOk(n, m, t, below, dice, faces, c, x, p, rest, cfg, more.value.totals, more.value.rest);
    } else {
      var adds := Copies([Op(Plus)], n) + rest;
      WrittenGroupsPush(n, m, dice, faces, c, x, p, adds, cfg);
      ExecAfterErr(GroupsSpan(n, x, p) + n, GroupsSpan(n, x, p), m, cfg);
    }
  }

  /** `WrittenGroupsPush` for a run of rolls known to succeed. */
  lemma WrittenPushOk(count: nat, m: Machine, dice: real, faces: real, c: char, x: int, p: int,
                      tail: seq<Instr>, cfg: Config, totals: seq<int>, left: seq<nat>)
    requires m.instrs == Copies(Group(dice, faces, Op(RollOp(c)), x, p, AsWritten), count) + tail
    requires m.drop == IfPositive(x) && m.bonus == IfPositive(p)
    requires RepeatRolls(count, Ceil(dice), Ceil(faces), c, IfPositive(x), IfPositive(p), m.draws, cfg.roller)
               == Ok(Repeated(totals, left))
    ensures Exec(GroupsSpan(count, x, p), m, cfg)
              == Ok(Machine(tail, Reverse(AsReals(totals)) + m.stack, IfPositive(x), IfPositive(p), left))
  {
    WrittenGroupsPush(count, m, dice, faces, c, x, p, tail, cfg);
  }

  lemma WrittenLaterOk(n: nat, m: Machine, t: int, below: seq<real>, dice: real, faces: real, c: char, x: int, p: int,
                       rest: seq<Instr>, cfg: Config, more: seq<int>, left: seq<nat>)
    requires m.instrs == Copies(Group(dice, faces, Op(RollOp(c)), x, p, AsWritten), n) + (Copies([Op(Plus)], n) + rest)
    requires m.stack == [t as real] + below && m.drop == IfPositive(x) && m.bonus == IfPositive(p)
    requires RepeatRolls(n, Ceil(dice), Ceil(faces), c, IfPositive(x), IfPositive(p), m.draws, cfg.roller)
               == Ok(Repeated(more, left))
    ensures Exec(GroupsSpan(n, x, p) + n, m, cfg)
              == Ok(Machine(rest, [SumInts([t] + more) as real] + below, IfPositive(x), IfPositive(p), left))
  {
    var span := GroupsSpan(n, x, p);
    var adds := Copies([Op(Plus)], n) + rest;
    WrittenPushOk(n, m, dice, faces, c, x, p, adds, cfg, more, left);
    var totals := [t] + more;
    var vs := Reverse(AsReals(totals));
    StackOfTotals(t, more, below);
    var m3 := Machine(adds, vs + below, IfPositive(x), IfPositive(p), left);
    assert Exec(span, m, cfg) == Ok(m3);
    ExecAfter(span + n, span, n, m, m3, cfg);
    assert m3.stack[|vs|..] == below;
    AddsFold(n, m3, vs, rest, cfg);
    SumReversed(totals);
  }

  /** The original `n r` with `n >= 0` before a roll word: when the
      reference `WrittenRolls` succeeds, the expansion leaves the sum of
      its totals in place of the count, faces and dice, and leaves the
      drop and bonus pending at `r` still pending where positive, for
      whatever roll comes next. */
  lemma RepeatWritten(m: Machine, n: nat, c: char, rest: seq<Instr>, cfg: Config, totals: seq<int>, left: seq<nat>)
    requires cfg.layout == AsWritten
    requires |m.stack| >= 3 && Ceil(m.stack[0]) == n
    requires m.instrs == [Op(Repeat), Op(RollOp(c))] + rest
    requires WrittenRolls(n, Ceil(m.stack[2]), Ceil(m.stack[1]), c, m.drop, m.bonus, m.draws, cfg.roller)
               == Ok(Repeated(totals, left))
    ensures Exec(WrittenSteps(n, m.drop, m.bonus), m, cfg)
              == Ok(Machine(rest, [SumInts(totals) as real] + m.stack[3..], IfPositive(m.drop), IfPositive(m.bonus), left))
  {
    var k := WrittenSteps(n, m.drop, m.bonus);
    var m1 := RepeatUnfolds(m, n, c, rest, cfg, k);
    assert m1.instrs == Copies(Group(m.stack[2], m.stack[1], Op(RollOp(c)), m.drop, m.bonus, AsWritten), n + 1)
                          + (Copies([Op(Plus)], n) + rest);
    WrittenGroupsThenAdds(n, m1, m.stack[2], m.stack[1], c, m.drop, m.bonus, rest, cfg);
    assert Exec(k - 1, m1, cfg)
             == Ok(Machine(rest, [SumInts(totals) as real] + m1.stack, IfPositive(m.drop), IfPositive(m.bonus), left));
  }

  /** ... and when it fails, the expansion fails the same way. */
  lemma RepeatWrittenErr(m: Machine, n: nat, c: char, rest: seq<Instr>, cfg: Config)
    requires cfg.layout == AsWritten
    requires |m.stack| >= 3 && Ceil(m.stack[0]) == n
    requires m.instrs == [Op(Repeat), Op(RollOp(c))] + rest
    requires WrittenRolls(n, Ceil(m.stack[2]), Ceil(m.stack[1]), c, m.drop, m.bonus, m.draws, cfg.roller).Err?
    ensures Exec(WrittenSteps(n, m.drop, m.bonus), m, cfg)
              == Err(WrittenRolls(n, Ceil(m.stack[2]), Ceil(m.stack[1]), c, m.drop, m.bonus, m.draws, cfg.roller).fault)
  {
    var k := WrittenSteps(n, m.drop, m.bonus);
    var m1 := RepeatUnfolds(m, n, c, rest, cfg, k);
    assert m1.instrs == Copies(Group(m.stack[2], m.stack[1], Op(RollOp(c)), m.drop, m.bonus, AsWritten), n + 1)
                          + (Copies([Op(Plus)], n) + rest);
    WrittenGroupsThenAdds(n, m1, m.stack[2], m.stack[1], c, m.drop, m.bonus, rest, cfg);
  }

  /** Running a program through an original `r` whose rolls succeed
      reaches the verdict of the program with the expansion replaced by
      the sum of the totals and the modifiers re-set where positive. */
  lemma RunRepeatWritten(fuel: nat, m: Machine, n: nat, c: char, rest: seq<Instr>, cfg: Config,
                         totals: seq<int>, left: seq<nat>)
    requires cfg.layout == AsWritten
    requires |m.stack| >= 3 && Ceil(m.stack[0]) == n
    requires m.instrs == [Op(Repeat), Op(RollOp(c))] + rest
    requires fuel >= WrittenSteps(n, m.drop, m.bonus)
    requires WrittenRolls(n, Ceil(m.stack[2]), Ceil(m.stack[1]), c, m.drop, m.bonus, m.draws, cfg.roller)
               == Ok(Repeated(totals, left))
    ensures Agree(Run(fuel, m, cfg),
                  Run(fuel - WrittenSteps(n, m.drop, m.bonus),
                      Machine(rest, [SumInts(totals) as real] + m.stack[3..], IfPositive(m.drop), IfPositive(m.bonus), left),
                      cfg))
  {
    var k := WrittenSteps(n, m.drop, m.bonus);
    var m' := Machine(rest, [SumInts(totals) as real] + m.stack[3..], IfPositive(m.drop), IfPositive(m.bonus), left);
    RepeatWritten(m, n, c, rest, cfg, totals, left);
    assert Exec(k, m, cfg) == Ok(m');
    RunAfterExec(fuel, k, m, m', cfg);
  }

  /** A run through an original `r` whose rolls fail fails the same way. */
  lemma RunRepeatWrittenErr(fuel: nat, m: Machine, n: nat, c: char, rest: seq<Instr>, cfg: Config)
    requires cfg.layout == AsWritten
    requires |m.stack| >= 3 && Ceil(m.stack[0]) == n
    requires m.instrs == [Op(Repeat), Op(RollOp(c))] + rest
    requires fuel >= WrittenSteps(n, m.drop, m.bonus)
    requires WrittenRolls(n, Ceil(m.stack[2]), Ceil(m.stack[1]), c, m.drop, m.bonus, m.draws, cfg.roller).Err?
    ensures Run(fuel, m, cfg)
              == Err(WrittenRolls(n, Ceil(m.stack[2]), Ceil(m.stack[1]), c, m.drop, m.bonus, m.draws, cfg.roller).fault)
  {
    RepeatWrittenErr(m, n, c, rest, cfg);
    ExecErrRun(fuel, WrittenSteps(n, m.drop, m.bonus), m, cfg);
  }

  /** With no negative modifier pending the original layout rolls what
      the corrected one rolls; the two differ then only in what they
      leave pending. */
  lemma WrittenRollsAgree(n: nat, dice: int, faces: int, mode: char, drop: int, bonus: int, draws: seq<nat>, roller: Roller)
    requires drop >= 0 && bonus >= 0
    ensures WrittenRolls(n, dice, faces, mode, drop, bonus, draws, roller)
              == RepeatRolls(n + 1, dice, faces, mode, drop, bonus, draws, roller)
  {
    assert IfPositive(drop) == drop && IfPositive(bonus) == bonus;
  }

  /** With no modifier pending at `r` the two layouts reach the same
      machine, or fail the same way. */
  lemma LayoutsAgree(m: Machine, n: nat, c: char, rest: seq<Instr>, roller: Roller)
    requires m.drop == 0 && m.bonus == 0
    requires |m.stack| >= 3 && Ceil(m.stack[0]) == n
    requires m.instrs == [Op(Repeat), Op(RollOp(c))] + rest
    ensures Exec(WrittenSteps(n, 0, 0), m, Config(AsWritten, roller)) == Exec(RepeatSteps(n), m, Config(Intended, roller))
  {
    var rolls := RepeatRolls(n + 1, Ceil(m.stack[2]), Ceil(m.stack[1]), c, 0, 0, m.draws, roller);
    WrittenRollsAgree(n, Ceil(m.stack[2]), Ceil(m.stack[1]), c, 0, 0, m.draws, roller);
    if rolls.Ok? {
      RepeatWritten(m, n, c, rest, Config(AsWritten, roller), rolls.value.totals, rolls.value.rest);
      RepeatIntended(m, n, c, rest, Config(Intended, roller), rolls.value.totals, rolls.value.rest);
    } else {
      RepeatWrittenErr(m, n, c, rest, Config(AsWritten, roller));
      RepeatIntendedErr(m, n, c, rest, Config(Intended, roller));
    }
  }

  /** A negative count repeats nothing: `r` consumes its operands and the
      roll word and the program goes on. */
  lemma RepeatNegative(m: Machine, cfg: Config)
    requires |m.stack| >= 3 && Ceil(m.stack[0]) < 0
    requires |m.instrs| >= 2 && m.instrs[0] == Op(Repeat)
    ensures Exec(1, m, cfg) == Ok(m.(instrs := m.instrs[2..], stack := m.stack[3..]))
  {
    RepeatStep(m, cfg);
    var g := Group(m.stack[2], m.stack[1], m.instrs[1], m.drop, m.bonus, cfg.layout);
    assert Copies(g, 0) == [] && Copies([Op(Plus)], 0) == [];
    assert Expand(Ceil(m.stack[0]), m.stack[2], m.stack[1], m.instrs[1], m.drop, m.bonus, cfg.layout) == [];
    ExecStep(1, m, m.(instrs := m.instrs[2..], stack := m.stack[3..]), cfg);
  }
}
