/** Resolution of one attack, and what any sequence of attacks does to a target. */
module Combat {
  import opened Types

  /** The three random draws of one attack. */
  datatype Roll = Roll(part: int, factor: real, block: real)

  predicate ValidRoll(r: Roll) {
    1 <= r.part <= 100 && 0.8 <= r.factor <= 1.2 && 0.0 <= r.block < 1.0
  }

  datatype CombatResult = CombatResult(
    hitPart: nat, cut: real, blunt: real, resultHealth: real,
    wasBlocked: bool, wasKO: bool, wasDeath: bool)

  // Body part and weight, in the order the table is scanned.
  const WEIGHTS: seq<(nat, nat)> :=
    [(CHEST, 30), (2, 20), (HEAD, 10), (3, 10), (4, 10), (5, 10), (6, 10)]

  function Cumulative(n: nat): nat
    requires n <= |WEIGHTS|
  {
    if n == 0 then 0 else Cumulative(n - 1) + WEIGHTS[n - 1].1
  }

  /** The part whose weight interval contains the roll, searching from row `n`. */
  function PartFrom(roll: int, n: nat): nat
    requires n <= |WEIGHTS|
    decreases |WEIGHTS| - n
  {
    if n == |WEIGHTS| then CHEST
    else if roll <= Cumulative(n + 1) then WEIGHTS[n].0
    else PartFrom(roll, n + 1)
  }

  function BodyPart(roll: int): (p: nat)
    ensures p < PARTS
  {
    PartInTable(roll, 0);
    PartFrom(roll, 0)
  }

  lemma {:induction false} PartInTable(roll: int, n: nat)
    requires n <= |WEIGHTS|
    ensures PartFrom(roll, n) < PARTS
    decreases |WEIGHTS| - n
  {
    if n < |WEIGHTS| {
      PartInTable(roll, n + 1);
    }
  }

  lemma {:induction false} CumulativeGrows(m: nat, n: nat)
    requires m < n <= |WEIGHTS|
    ensures Cumulative(m) < Cumulative(n)
  {
    if m < n - 1 {
      CumulativeGrows(m, n - 1);
    }
  }

  /** The part is the one whose interval of the running total holds the roll. */
  lemma {:induction false} PartOfInterval(roll: int, i: nat, n: nat)
    requires i <= n < |WEIGHTS| && Cumulative(n) < roll <= Cumulative(n + 1)
    ensures PartFrom(roll, i) == WEIGHTS[n].0
    decreases n - i
  {
    if i < n {
      if i + 1 < n { CumulativeGrows(i + 1, n); }
      PartOfInterval(roll, i + 1, n);
    }
  }

  /** The table: of a hundred rolls the first thirty hit the chest, the next twenty the stomach,
      and ten each the head, the arms and the legs. */
  lemma PartTable(roll: int)
    requires 1 <= roll <= 100
    ensures BodyPart(roll) ==
            if roll <= 30 then 1 else if roll <= 50 then 2 else if roll <= 60 then 0
            else if roll <= 70 then 3 else if roll <= 80 then 4 else if roll <= 90 then 5 else 6
  {
    Totals();
    var n := if roll <= 30 then 0 else if roll <= 50 then 1 else if roll <= 60 then 2
             else if roll <= 70 then 3 else if roll <= 80 then 4 else if roll <= 90 then 5 else 6;
    hide Cumulative;
    PartOfInterval(roll, 0, n);
  }

  lemma Totals()
    ensures Cumulative(0) == 0 && Cumulative(1) == 30 && Cumulative(2) == 50 && Cumulative(3) == 60
    ensures Cumulative(4) == 70 && Cumulative(5) == 80 && Cumulative(6) == 90 && Cumulative(7) == 100
  {
    assert Cumulative(0) == 0;
    assert Cumulative(1) == 30;
    assert Cumulative(2) == 50;
    assert Cumulative(3) == 60;
    assert Cumulative(4) == 70;
    assert Cumulative(5) == 80;
    assert Cumulative(6) == 90;
  }

  method SelectBodyPart(roll: int) returns (part: nat)
    ensures part == BodyPart(roll)
    ensures forall n :: 0 <= n < |WEIGHTS| && Cumulative(n) < roll <= Cumulative(n + 1) ==> part == WEIGHTS[n].0
  {
    forall n | 0 <= n < |WEIGHTS| && Cumulative(n) < roll <= Cumulative(n + 1)
      ensures BodyPart(roll) == WEIGHTS[n].0
    {
      PartOfInterval(roll, 0, n);
    }
    var cumulative := 0;
    for i := 0 to |WEIGHTS|
      invariant cumulative == Cumulative(i)
      invariant PartFrom(roll, i) == BodyPart(roll)
    {
      cumulative := cumulative + WEIGHTS[i].1;
      if roll <= cumulative {
        return WEIGHTS[i].0;
      }
    }
    return CHEST;
  }

  function Damage(r: Roll): real {
    var total := 20.0 * r.factor * 0.9;
    if r.block < 0.2 then total * 0.5 * 0.3 + total * 0.5 * 0.3 else total * 0.5 + total * 0.5
  }

  /** The target's health after one attack: one part loses the damage. */
  function Struck(h: Parts, r: Roll): Parts {
    h[BodyPart(r.part) := h[BodyPart(r.part)] - Damage(r)]
  }

  predicate KnockedOut(h: Parts) { exists i :: 0 <= i < PARTS && h[i] <= -50.0 }
  predicate Fatal(h: Parts) { h[CHEST] <= -100.0 || h[HEAD] <= -100.0 }

  /** Resolves one attack on `target`; the attacker's stats do not enter. */
  method ResolveCombat(target: Entity, roll: Roll) returns (hit: Entity, result: CombatResult)
    ensures hit == target.(health := Struck(target.health, roll),
                           alive := target.alive && !Fatal(Struck(target.health, roll)))
    ensures result.hitPart == BodyPart(roll.part)
    ensures result.cut + result.blunt == Damage(roll) && result.cut == result.blunt
    ensures result.resultHealth == Struck(target.health, roll)[BodyPart(roll.part)]
    ensures result.wasBlocked <==> roll.block < 0.2
    ensures result.cut + result.blunt == (if roll.block < 0.2 then 5.4 else 18.0) * roll.factor
    ensures result.wasKO <==> KnockedOut(hit.health)
    ensures result.wasKO <==> exists i :: 0 <= i < PARTS && hit.health[i] <= -50.0
    ensures result.wasDeath <==> Fatal(hit.health)
    ensures result.wasDeath <==> hit.health[1] <= -100.0 || hit.health[0] <= -100.0
  {
    var part := SelectBodyPart(roll.part);
    var total := 20.0 * roll.factor * 0.9;
    var cut, blunt := total * 0.5, total * 0.5;
    var blocked := roll.block < 0.2;
    if blocked {
      cut, blunt := cut * 0.3, blunt * 0.3;
    }
    var health: Parts := target.health[part := target.health[part] - (cut + blunt)];
    var ko := false;
    var i := 0;
    while i < PARTS && !ko
      invariant 0 <= i <= PARTS
      invariant !ko ==> forall j :: 0 <= j < i ==> health[j] > -50.0
      invariant ko ==> KnockedOut(health)
      decreases PARTS - i, !ko
    {
      if health[i] <= -50.0 {
        ko := true;
      }
      i := i + 1;
    }
    var death := health[CHEST] <= -100.0 || health[HEAD] <= -100.0;
    hit := target.(health := health, alive := if death then false else target.alive);
    result := CombatResult(part, cut, blunt, health[part], blocked, ko, death);
  }

  // ----- any sequence of attacks

  function Battered(h: Parts, rolls: seq<Roll>): Parts {
    if rolls == [] then h else Struck(Battered(h, rolls[..|rolls| - 1]), rolls[|rolls| - 1])
  }

  function HitsOn(part: nat, rolls: seq<Roll>): (n: nat)
    ensures n <= |rolls|
  {
    if rolls == [] then 0
    else HitsOn(part, rolls[..|rolls| - 1]) + (if BodyPart(rolls[|rolls| - 1].part) == part then 1 else 0)
  }

  lemma DamageBounds(r: Roll)
    requires ValidRoll(r)
    ensures 4.32 <= Damage(r) <= 21.6
  {
    assert 20.0 * r.factor * 0.9 == 18.0 * r.factor;
  }

  /** Whatever the draws, a part that was hit `n` times has lost between 4.32 and
      21.6 points per hit, and a part that was never hit has lost nothing. */
  lemma {:induction false} PartLoss(h: Parts, rolls: seq<Roll>, part: nat)
    requires part < PARTS
    requires forall i :: 0 <= i < |rolls| ==> ValidRoll(rolls[i])
    ensures var n := HitsOn(part, rolls) as real;
            h[part] - 21.6 * n <= Battered(h, rolls)[part] <= h[part] - 4.32 * n
  {
    if rolls != [] {
      PartLoss(h, rolls[..|rolls| - 1], part);
      DamageBounds(rolls[|rolls| - 1]);
    }
  }

  /** From full health a death takes at least ten hits, all of them on one vital part. */
  lemma DeathTakesTenHits(rolls: seq<Roll>)
    requires forall i :: 0 <= i < |rolls| ==> ValidRoll(rolls[i])
    requires Fatal(Battered(FULL_HEALTH, rolls))
    ensures HitsOn(CHEST, rolls) >= 10 || HitsOn(HEAD, rolls) >= 10
  {
    PartLoss(FULL_HEALTH, rolls, CHEST);
    PartLoss(FULL_HEALTH, rolls, HEAD);
  }

  /** Forty-seven hits on a vital part always kill, however often they are blocked. */
  lemma FortySevenHitsKill(rolls: seq<Roll>, part: nat)
    requires part == CHEST || part == HEAD
    requires forall i :: 0 <= i < |rolls| ==> ValidRoll(rolls[i])
    requires HitsOn(part, rolls) >= 47
    ensures Fatal(Battered(FULL_HEALTH, rolls))
  {
    PartLoss(FULL_HEALTH, rolls, part);
  }

  lemma {:induction false} Repeated(r: Roll, n: nat)
    ensures var rolls, part := seq(n, _ => r), BodyPart(r.part);
            && HitsOn(part, rolls) == n
            && Battered(FULL_HEALTH, rolls)[part] == 100.0 - Damage(r) * n as real
            && forall j :: 0 <= j < PARTS && j != part ==> Battered(FULL_HEALTH, rolls)[j] == 100.0
  {
    var rolls := seq(n, _ => r);
    if n > 0 {
      assert rolls[..n - 1] == seq(n - 1, _ => r);
      Repeated(r, n - 1);
    }
  }

  /** Both bounds are reached: ten unblocked hits can kill, and forty-six hits on
      the chest need not. */
  lemma HitBoundsAreTight()
    ensures exists rolls: seq<Roll> ::
      |rolls| == 10 && (forall i :: 0 <= i < 10 ==> ValidRoll(rolls[i])) && Fatal(Battered(FULL_HEALTH, rolls))
    ensures exists rolls: seq<Roll> ::
      && HitsOn(CHEST, rolls) == 46 && (forall i :: 0 <= i < |rolls| ==> ValidRoll(rolls[i]))
      && !Fatal(Battered(FULL_HEALTH, rolls))
  {
    var strong, weak := Roll(1, 1.2, 0.5), Roll(1, 0.8, 0.0);
    assert Cumulative(1) == 30 by { assert Cumulative(0) == 0; }
    assert BodyPart(1) == CHEST;
    Repeated(strong, 10);
    Repeated(weak, 46);
    assert Fatal(Battered(FULL_HEALTH, seq(10, _ => strong)));
    assert !Fatal(Battered(FULL_HEALTH, seq(46, _ => weak)));
  }
}
