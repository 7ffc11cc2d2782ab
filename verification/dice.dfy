/** The dice primitive: one group roll with validation, exploding modes,
    drop-lowest and a per-die bonus. Randomness is an explicit sequence of
    draws; a draw `d` lands on face `1 + d % faces`. */
module Dice {
  import opened Outcomes
  import opened Sorting

  /** The description of a roll: dice count, mode letter, faces, and the
      drop annotation, present only when something is dropped. */
  datatype Label = Label(diceCount: int, mode: char, faces: int, dropNote: Option<int>)

  datatype RollResult = RollResult(
    description: Label,
    kept: seq<int>,     // dice counted in the total (sorted when something was dropped)
    drops: seq<int>,    // the dropped lowest dice, ascending
    rerolls: nat,       // dice added by explosions
    bonus: int,         // per-die bonus
    total: int)

  /** A finished roll and the draws it left unused. */
  datatype Roll = Roll(outcome: RollResult, rest: seq<nat>)

  /** Dice in the order they were rolled, and the draws left unused. */
  datatype Rolled = Rolled(dice: seq<int>, rest: seq<nat>)

  const MaxDice := 1000

  function Face(d: nat, faces: int): (v: int)
    requires faces >= 1
    ensures 1 <= v <= faces
  {
    1 + d % faces
  }

  /** The faces the draws `ds` land on. */
  function Faces(ds: seq<nat>, faces: int): (r: seq<int>)
    requires faces >= 1
    ensures |r| == |ds|
    ensures forall i :: 0 <= i < |ds| ==> r[i] == Face(ds[i], faces)
  {
    if |ds| == 0 then [] else [Face(ds[0], faces)] + Faces(ds[1..], faces)
  }

  predicate IsMode(mode: char) {
    mode == 'd' || mode == 'e' || mode == 'f' || mode == 'g'
  }

  /** Whether a die showing `v` explodes: `e` on the top face, `f` on 1,
      `g` on either but only for more than two faces, `d` never. */
  predicate Explodes(mode: char, faces: int, v: int) {
    || (mode == 'e' && v == faces)
    || (mode == 'f' && v == 1)
    || (mode == 'g' && faces > 2 && (v == faces || v == 1))
  }

  function CountExploding(mode: char, faces: int, dice: seq<int>): (n: nat)
    ensures n <= |dice|
  {
    if |dice| == 0 then 0
    else (if Explodes(mode, faces, dice[0]) then 1 else 0) + CountExploding(mode, faces, dice[1..])
  }

  /** One die and its chain of explosions: roll, and while the newest die
      explodes roll another. Fails when the draws run out first. */
  function RollDie(mode: char, faces: int, draws: seq<nat>): (r: Result<Rolled>)
    requires faces >= 2
    ensures r.Err? ==> r.fault == DrawsExhausted
    decreases |draws|
  {
    if |draws| == 0 then Err(DrawsExhausted)
    else
      var v := Face(draws[0], faces);
      if Explodes(mode, faces, v) then
        var more :- RollDie(mode, faces, draws[1..]);
        Ok(Rolled([v] + more.dice, more.rest))
      else Ok(Rolled([v], draws[1..]))
  }

  /** A die fails to settle exactly when every remaining draw explodes;
      otherwise it uses a prefix of the draws, every die but the last
      exploded, and the last did not. */
  lemma {:induction false} RollDieFacts(mode: char, faces: int, draws: seq<nat>)
    requires faces >= 2
    ensures var r := RollDie(mode, faces, draws);
      && (r.Err? <==> forall i :: 0 <= i < |draws| ==> Explodes(mode, faces, Face(draws[i], faces)))
      && (r.Ok? ==> && 1 <= |r.value.dice| <= |draws|
                    && r.value.dice == Faces(draws[..|r.value.dice|], faces)
                    && r.value.rest == draws[|r.value.dice|..])
      && (r.Ok? ==> && !Explodes(mode, faces, r.value.dice[|r.value.dice| - 1])
                    && CountExploding(mode, faces, r.value.dice) == |r.value.dice| - 1)
    decreases |draws|
  {
    if |draws| > 0 {
      var v := Face(draws[0], faces);
      if Explodes(mode, faces, v) {
        RollDieFacts(mode, faces, draws[1..]);
        var r := RollDie(mode, faces, draws[1..]);
        if r.Ok? {
          var more := r.value;
          assert draws[1..][..|more.dice|] == draws[1..|more.dice| + 1];
          assert [v] + more.dice == Faces(draws[..|more.dice| + 1], faces);
          assert draws[1..][|more.dice|..] == draws[|more.dice| + 1..];
          assert ([v] + more.dice)[1..] == more.dice;
        } else {
          forall i | 0 <= i < |draws|
            ensures Explodes(mode, faces, Face(draws[i], faces))
          {
            if i > 0 { assert draws[i] == draws[1..][i - 1]; }
          }
        }
      } else {
        assert [v] == Faces(draws[..1], faces);
        assert forall i :: 1 <= i < |draws| ==> draws[1..][i - 1] == draws[i];
      }
    }
  }

  lemma {:induction false} CountExplodingAppend(mode: char, faces: int, a: seq<int>, b: seq<int>)
    ensures CountExploding(mode, faces, a + b) == CountExploding(mode, faces, a) + CountExploding(mode, faces, b)
  {
    if |a| > 0 {
      assert (a + b)[1..] == a[1..] + b;
      CountExplodingAppend(mode, faces, a[1..], b);
    } else {
      assert a + b == b;
    }
  }

  lemma FacesSplit(ds: seq<nat>, k: nat, j: nat, faces: int)
    requires faces >= 1 && k <= j <= |ds|
    ensures Faces(ds[..j], faces) == Faces(ds[..k], faces) + Faces(ds[k..j], faces)
  {
    assert ds[..j] == ds[..k] + ds[k..j];
    FacesAppend(ds[..k], ds[k..j], faces);
  }

  lemma {:induction false} FacesAppend(a: seq<nat>, b: seq<nat>, faces: int)
    requires faces >= 1
    ensures Faces(a + b, faces) == Faces(a, faces) + Faces(b, faces)
  {
    if |a| == 0 {
      assert a + b == b;
    } else {
      assert (a + b)[0] == a[0];
      assert (a + b)[1..] == a[1..] + b;
      FacesAppend(a[1..], b, faces);
    }
  }

  /** `n` dice, each with its explosions, in the order rolled. */
  function RollDice(n: nat, mode: char, faces: int, draws: seq<nat>): (r: Result<Rolled>)
    requires faces >= 2
    ensures r.Err? ==> r.fault == DrawsExhausted
    decreases n
  {
    if n == 0 then Ok(Rolled([], draws))
    else
      var first :- RollDie(mode, faces, draws);
      var others :- RollDice(n - 1, mode, faces, first.rest);
      Ok(Rolled(first.dice + others.dice, others.rest))
  }

  /** `n` dice use a prefix of the draws, one die per draw, and every die
      beyond the first `n` is the explosion of an earlier one. */
  lemma {:induction false} RollDiceFacts(n: nat, mode: char, faces: int, draws: seq<nat>)
    requires faces >= 2
    ensures var r := RollDice(n, mode, faces, draws);
      r.Ok? ==> && n <= |r.value.dice| <= |draws|
                && r.value.dice == Faces(draws[..|r.value.dice|], faces)
                && r.value.rest == draws[|r.value.dice|..]
                && CountExploding(mode, faces, r.value.dice) == |r.value.dice| - n
    decreases n
  {
    if n > 0 {
      RollDieFacts(mode, faces, draws);
      var first := RollDie(mode, faces, draws);
      if first.Ok? {
        RollDiceFacts(n - 1, mode, faces, first.value.rest);
        var others := RollDice(n - 1, mode, faces, first.value.rest);
        if others.Ok? {
          JoinRolled(faces, draws, first.value, others.value);
          CountExplodingAppend(mode, faces, first.value.dice, others.value.dice);
        }
      }
    }
  }

  /** Dice rolled from the front of the draws followed by dice rolled
      from what they left are dice rolled from the front of the draws. */
  lemma JoinRolled(faces: int, draws: seq<nat>, first: Rolled, others: Rolled)
    requires faces >= 2
    requires |first.dice| <= |draws| && first.dice == Faces(draws[..|first.dice|], faces)
    requires first.rest == draws[|first.dice|..]
    requires |others.dice| <= |first.rest| && others.dice == Faces(first.rest[..|others.dice|], faces)
    requires others.rest == first.rest[|others.dice|..]
    ensures var dice := first.dice + others.dice;
            && |dice| <= |draws|
            && dice == Faces(draws[..|dice|], faces)
            && others.rest == draws[|dice|..]
  {
    var k := |first.dice|;
    var m := |others.dice|;
    RestSlices(draws, k, m, first.rest);
    FacesSplit(draws, k, k + m, faces);
  }

  lemma RestSlices(draws: seq<nat>, k: nat, m: nat, rest: seq<nat>)
    requires k <= |draws| && rest == draws[k..] && m <= |rest|
    ensures rest[..m] == draws[k..k + m] && rest[m..] == draws[k + m..]
  {
  }

  lemma {:induction false} NoExplosionsPlain(faces: int, dice: seq<int>)
    ensures CountExploding('d', faces, dice) == 0
  {
    if |dice| > 0 { NoExplosionsPlain(faces, dice[1..]); }
  }

  /** Kept dice summed one by one, each with the bonus added. */
  function TotalWithBonus(kept: seq<int>, bonus: int): int {
    if |kept| == 0 then 0 else kept[0] + bonus + TotalWithBonus(kept[1..], bonus)
  }

  function Sum(s: seq<int>): int {
    if |s| == 0 then 0 else s[0] + Sum(s[1..])
  }

  lemma {:induction false} TotalIsSumPlusBonus(kept: seq<int>, bonus: int)
    ensures TotalWithBonus(kept, bonus) == Sum(kept) + bonus * |kept|
  {
    if |kept| > 0 { TotalIsSumPlusBonus(kept[1..], bonus); }
  }

  predicate ValidParameters(numDice: int, faces: int, drop: int) {
    0 < numDice <= MaxDice && faces > 1 && drop <= numDice
  }

  /** Roll `numDice` dice of `faces` faces in mode `mode`, drop the lowest
      `drop` when `drop` is positive, and total the kept dice plus `bonus`
      per kept die. `SimpleRollFacts` states what a successful roll holds. */
  function SimpleRoll(numDice: int, faces: int, mode: char, drop: int, bonus: int, draws: seq<nat>): (r: Result<Roll>)
    ensures r.Err? && r.fault == BadRollParameters <==> !ValidParameters(numDice, faces, drop)
    ensures r.Err? && r.fault == UnsupportedRollMode <==> ValidParameters(numDice, faces, drop) && !IsMode(mode)
    ensures r.Err? ==> r.fault in {BadRollParameters, UnsupportedRollMode, DrawsExhausted}
  {
    if !ValidParameters(numDice, faces, drop) then Err(BadRollParameters)
    else if !IsMode(mode) then Err(UnsupportedRollMode)
    else
      var rolled :- RollDice(numDice, mode, faces, draws);
      RollDiceFacts(numDice, mode, faces, draws);
      Ok(Finish(numDice, faces, mode, drop, bonus, rolled))
  }

  /** The dice rolled: drop, total and label them. */
  function Finish(numDice: nat, faces: int, mode: char, drop: int, bonus: int, rolled: Rolled): Roll
    requires numDice <= |rolled.dice| && drop <= numDice
  {
    var (kept, drops) := DropLowest(rolled.dice, drop);
    var description := Label(numDice, mode, faces, if drop > 0 then Some(drop) else None);
    Roll(RollResult(description, kept, drops, |rolled.dice| - numDice, bonus, TotalWithBonus(kept, bonus)), rolled.rest)
  }

  /** What a successful roll holds. It uses a prefix of the draws: one
      die per draw, the requested dice plus one per explosion, split
      between kept and dropped without losing or inventing a die; the
      total is the kept dice plus the bonus for each. Without a drop the
      kept dice are the dice in the order rolled; with one, the dropped
      dice are the `drop` lowest. */
  predicate RollHolds(numDice: int, faces: int, mode: char, drop: int, bonus: int, draws: seq<nat>, r: Roll)
    requires faces >= 1
  {
    var o := r.outcome;
    var used := |o.kept| + |o.drops|;
    && used == numDice + o.rerolls
    && used <= |draws|
    && r.rest == draws[used..]
    && multiset(o.kept) + multiset(o.drops) == multiset(Faces(draws[..used], faces))
    && o.rerolls == CountExploding(mode, faces, Faces(draws[..used], faces))
    && (mode == 'd' ==> o.rerolls == 0)
    && o.total == Sum(o.kept) + bonus * |o.kept|
    && o.bonus == bonus
    && o.description == Label(numDice, mode, faces, if drop > 0 then Some(drop) else None)
    && (drop <= 0 ==> o.drops == [] && o.kept == Faces(draws[..|o.kept|], faces))
    && (drop > 0 ==> && |o.drops| == drop
                     && Sorted(o.drops + o.kept)
                     && forall a, b :: a in o.drops && b in o.kept ==> a <= b)
  }

  /** Every successful roll holds `RollHolds`. */
  lemma SimpleRollFacts(numDice: int, faces: int, mode: char, drop: int, bonus: int, draws: seq<nat>)
    ensures var r := SimpleRoll(numDice, faces, mode, drop, bonus, draws);
            r.Ok? ==> faces >= 2 && RollHolds(numDice, faces, mode, drop, bonus, draws, r.value)
  {
    if ValidParameters(numDice, faces, drop) && IsMode(mode) {
      RollDiceFacts(numDice, mode, faces, draws);
      var rolled := RollDice(numDice, mode, faces, draws);
      if rolled.Ok? {
        FinishFacts(numDice, faces, mode, drop, bonus, draws, rolled.value);
      }
    }
  }

  lemma FinishFacts(numDice: nat, faces: int, mode: char, drop: int, bonus: int, draws: seq<nat>, rolled: Rolled)
    requires faces >= 2 && drop <= numDice
    requires numDice <= |rolled.dice| <= |draws|
    requires rolled.dice == Faces(draws[..|rolled.dice|], faces) && rolled.rest == draws[|rolled.dice|..]
    requires CountExploding(mode, faces, rolled.dice) == |rolled.dice| - numDice
    ensures RollHolds(numDice, faces, mode, drop, bonus, draws, Finish(numDice, faces, mode, drop, bonus, rolled))
  {
    var dice := rolled.dice;
    NoExplosionsPlain(faces, dice);
    DropLowestFacts(dice, drop);
    var (kept, drops) := DropLowest(dice, drop);
    TotalIsSumPlusBonus(kept, bonus);
  }

  /** Split the rolled dice into (kept, dropped): for a positive `drop` the
      dice are sorted and the lowest `drop` dropped, otherwise all are kept
      in the order rolled. */
  function DropLowest(dice: seq<int>, drop: int): (r: (seq<int>, seq<int>))
    requires drop <= |dice|
  {
    if drop > 0 then
      var sorted := Sort(dice);
      (sorted[drop..], sorted[..drop])
    else (dice, [])
  }

  /** Dropping loses no die; a positive drop removes exactly `drop` dice,
      none above any kept die; otherwise nothing is dropped. */
  lemma DropLowestFacts(dice: seq<int>, drop: int)
    requires drop <= |dice|
    ensures var r := DropLowest(dice, drop);
      && multiset(r.0) + multiset(r.1) == multiset(dice)
      && |r.0| + |r.1| == |dice|
      && (drop <= 0 ==> r.0 == dice && r.1 == [])
      && (drop > 0 ==> && |r.1| == drop
                       && Sorted(r.1 + r.0)
                       && forall a, b :: a in r.1 && b in r.0 ==> a <= b)
  {
    if drop > 0 {
      var sorted := Sort(dice);
      SortFacts(dice);
      assert sorted == sorted[..drop] + sorted[drop..];
      SplitOrdered(sorted, drop);
    }
  }
}
