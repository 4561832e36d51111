/**
 * The battle simulation engine, `simulate_battle` (desafio3/web/app.py).
 *
 * The random jitter of every attack is an input: `draws` is the stream of
 * values `random.randint(-10, 10)` would return, consumed one per attack.
 * The engine is then a deterministic function of the two hero rows and the
 * stream. The log is a sequence of events, not rendered text.
 *
 * `Resolve` is the specification: it runs the remaining rounds of a fight
 * from a given state. `SimulateBattle` is the loop of the source, proved to
 * compute `Outcome`, and the lemmas state what the source promises about it.
 */
module BattleEngine {
  import opened Wrappers
  import opened Heroes

  /** Hard cap on the number of rounds. */
  const MaxRounds: nat := 20
  /** Bounds of `random.randint(-10, 10)`. */
  const JitterMin: int := -10
  const JitterMax: int := 10

  /** Which side of the request an attack comes from: hero1 or hero2. */
  datatype Side = Challenger | Opponent

  /** A log line: the start of a round, or one attack with the defender's HP shown clamped at 0. */
  datatype Event = RoundStart(round: nat) | Attack(attacker: Side, damage: nat, shownHp: nat)

  /** What `simulate_battle` returns; `winner == None` is a draw. */
  datatype BattleResult = BattleResult(
    winner: Option<HeroId>,
    damage1: nat,   // total damage dealt by hero1
    damage2: nat,   // total damage dealt by hero2
    rounds: nat,
    log: seq<Event>)

  /** The loop's variables: both HPs, both damage totals, the round count, the draws used and the log. */
  datatype Fight = Fight(hp1: int, hp2: int, dealt1: nat, dealt2: nat, rounds: nat, used: nat, log: seq<Event>)

  /** A stream of jitters long enough for 20 full rounds, each within the bounds of `randint`. */
  predicate ValidDraws(draws: seq<int>) {
    |draws| >= 2 * MaxRounds &&
    forall i :: 0 <= i < |draws| ==> JitterMin <= draws[i] <= JitterMax
  }

  /** The damage of one attack: the raw value, floored at 0. Python's `//` by 2 is Dafny's `/` by 2. */
  function Hit(attack: int, defense: int, jitter: int): (d: nat)
    ensures d >= attack - defense / 2 + jitter
    ensures d == 0 || d == attack - defense / 2 + jitter
  {
    if attack - defense / 2 + jitter > 0 then attack - defense / 2 + jitter else 0
  }

  /** The HP shown in the log: `max(0, hp)`. */
  function Shown(hp: int): nat {
    if hp > 0 then hp else 0
  }

  /** The state before the first round. */
  function Opening(a: Hero, b: Hero): Fight {
    Fight(a.health, b.health, 0, 0, 0, 0, [])
  }

  /** The loop guard. */
  predicate InProgress(f: Fight) {
    f.hp1 > 0 && f.hp2 > 0 && f.rounds < MaxRounds
  }

  /** Every round uses at most two draws and the stream covers all twenty rounds. */
  predicate Budget(f: Fight, draws: seq<int>) {
    f.rounds <= MaxRounds && f.used <= 2 * f.rounds && |draws| >= 2 * MaxRounds
  }

  /** A round begins and hero1 attacks hero2. */
  function Strike(f: Fight, a: Hero, b: Hero, draws: seq<int>): Fight
    requires f.used < |draws|
  {
    var d := Hit(a.attack, b.defense, draws[f.used]);
    var hp2 := f.hp2 - d;
    f.(hp2 := hp2, dealt1 := f.dealt1 + d, rounds := f.rounds + 1, used := f.used + 1,
       log := f.log + [RoundStart(f.rounds + 1), Attack(Challenger, d, Shown(hp2))])
  }

  /** hero2 counter-attacks hero1. */
  function Counter(f: Fight, a: Hero, b: Hero, draws: seq<int>): Fight
    requires f.used < |draws|
  {
    var d := Hit(b.attack, a.defense, draws[f.used]);
    var hp1 := f.hp1 - d;
    f.(hp1 := hp1, dealt2 := f.dealt2 + d, used := f.used + 1,
       log := f.log + [Attack(Opponent, d, Shown(hp1))])
  }

  /**
   * The rest of the fight from state `f`: while both are standing and the cap
   * is not reached, hero1 strikes; a felled hero2 ends the fight at once,
   * otherwise hero2 counter-attacks and the next round begins.
   */
  function Resolve(f: Fight, a: Hero, b: Hero, draws: seq<int>): Fight
    requires Budget(f, draws)
    decreases MaxRounds - f.rounds
  {
    if !InProgress(f) then f
    else
      var g := Strike(f, a, b, draws);
      if g.hp2 <= 0 then g else Resolve(Counter(g, a, b, draws), a, b, draws)
  }

  /** The state in which the loop of `simulate_battle` ends. */
  function FinalFight(a: Hero, b: Hero, draws: seq<int>): Fight
    requires |draws| >= 2 * MaxRounds
  {
    Resolve(Opening(a, b), a, b, draws)
  }

  /** The result read off a final state: strictly more HP wins, equal HP is a draw. */
  function Verdict(f: Fight, a: Hero, b: Hero): (r: BattleResult)
    requires a.id != b.id
    ensures r.winner == Some(a.id) <==> f.hp1 > f.hp2
    ensures r.winner == Some(b.id) <==> f.hp2 > f.hp1
    ensures r.winner == None <==> f.hp1 == f.hp2
  {
    var winner := if f.hp1 > f.hp2 then Some(a.id) else if f.hp2 > f.hp1 then Some(b.id) else None;
    BattleResult(winner, f.dealt1, f.dealt2, f.rounds, f.log)
  }

  /** The result of `simulate_battle(a, b)` when the jitters are `draws`. */
  function Outcome(a: Hero, b: Hero, draws: seq<int>): BattleResult
    requires a.id != b.id && |draws| >= 2 * MaxRounds
  {
    Verdict(FinalFight(a, b, draws), a, b)
  }

  /** An attack by hero2 always follows an attack by hero1 that left hero2 standing. */
  ghost predicate CounterFollowsLiveStrike(log: seq<Event>) {
    forall i :: 0 <= i < |log| && log[i].Attack? && log[i].attacker == Opponent ==>
      0 < i && log[i - 1].Attack? && log[i - 1].attacker == Challenger && log[i - 1].shownHp > 0
  }

  /** An attack by hero1 that fells hero2 is the last event of the log. */
  ghost predicate FellingStrikeIsLast(log: seq<Event>) {
    forall i :: 0 <= i < |log| && log[i].Attack? && log[i].attacker == Challenger && log[i].shownHp == 0 ==>
      i == |log| - 1
  }

  /** The log invariant of a fight in progress: as above, and a felling strike means hero2 is down. */
  ghost predicate LogConsistent(f: Fight) {
    CounterFollowsLiveStrike(f.log) &&
    forall i :: 0 <= i < |f.log| && f.log[i].Attack? && f.log[i].attacker == Challenger && f.log[i].shownHp == 0 ==>
      i == |f.log| - 1 && f.hp2 <= 0
  }

  /**
   * The loop of `simulate_battle`, proved to compute `Outcome`. With positive
   * starting HP at least one round is fought; the cap bounds the rounds.
   */
  method SimulateBattle(hero1: Hero, hero2: Hero, draws: seq<int>) returns (result: BattleResult)
    requires hero1.id != hero2.id
    requires ValidDraws(draws)
    ensures result == Outcome(hero1, hero2, draws)
    ensures result.rounds <= MaxRounds
    ensures hero1.health > 0 && hero2.health > 0 ==> 1 <= result.rounds
  {
    var h1Hp, h2Hp := hero1.health, hero2.health;
    var h1DamageTotal, h2DamageTotal: nat := 0, 0;
    var log: seq<Event> := [];
    var rounds: nat := 0;
    var used: nat := 0;
    ghost var goal := FinalFight(hero1, hero2, draws);

    while h1Hp > 0 && h2Hp > 0 && rounds < MaxRounds
      invariant Budget(Fight(h1Hp, h2Hp, h1DamageTotal, h2DamageTotal, rounds, used, log), draws)
      invariant Resolve(Fight(h1Hp, h2Hp, h1DamageTotal, h2DamageTotal, rounds, used, log), hero1, hero2, draws) == goal
      invariant rounds == 0 ==> h1Hp == hero1.health && h2Hp == hero2.health
      decreases MaxRounds - rounds
    {
      ghost var before := Fight(h1Hp, h2Hp, h1DamageTotal, h2DamageTotal, rounds, used, log);
      rounds := rounds + 1;

      var h1Damage := Hit(hero1.attack, hero2.defense, draws[used]);
      used := used + 1;
      h2Hp := h2Hp - h1Damage;
      h1DamageTotal := h1DamageTotal + h1Damage;
      log := log + [RoundStart(rounds), Attack(Challenger, h1Damage, Shown(h2Hp))];
      assert Fight(h1Hp, h2Hp, h1DamageTotal, h2DamageTotal, rounds, used, log) == Strike(before, hero1, hero2, draws);

      if h2Hp <= 0 {
        break;
      }

      var h2Damage := Hit(hero2.attack, hero1.defense, draws[used]);
      used := used + 1;
      h1Hp := h1Hp - h2Damage;
      h2DamageTotal := h2DamageTotal + h2Damage;
      log := log + [Attack(Opponent, h2Damage, Shown(h1Hp))];
    }

    var winner: Option<HeroId>;
    if h1Hp > h2Hp {
      winner := Some(hero1.id);
    } else if h2Hp > h1Hp {
      winner := Some(hero2.id);
    } else {
      winner := None;
    }
    result := BattleResult(winner, h1DamageTotal, h2DamageTotal, rounds, log);
  }

  /** Rounds only grow and never pass the cap; a fight in progress fights at least one more round. */
  lemma {:induction false} ResolveRounds(f: Fight, a: Hero, b: Hero, draws: seq<int>)
    requires Budget(f, draws)
    ensures f.rounds <= Resolve(f, a, b, draws).rounds <= MaxRounds
    ensures InProgress(f) ==> f.rounds < Resolve(f, a, b, draws).rounds
    decreases MaxRounds - f.rounds
  {
    if InProgress(f) {
      var g := Strike(f, a, b, draws);
      if g.hp2 > 0 {
        ResolveRounds(Counter(g, a, b, draws), a, b, draws);
      }
    }
  }

  /** Damage is conserved: what one side lost in HP is what the other dealt. */
  lemma {:induction false} ResolveAccounting(f: Fight, a: Hero, b: Hero, draws: seq<int>)
    requires Budget(f, draws)
    ensures var r := Resolve(f, a, b, draws);
      r.hp1 + r.dealt2 == f.hp1 + f.dealt2 && r.hp2 + r.dealt1 == f.hp2 + f.dealt1 &&
      r.dealt1 >= f.dealt1 && r.dealt2 >= f.dealt2
    decreases MaxRounds - f.rounds
  {
    if InProgress(f) {
      var g := Strike(f, a, b, draws);
      if g.hp2 > 0 {
        ResolveAccounting(Counter(g, a, b, draws), a, b, draws);
      }
    }
  }

  /**
   * From a state where both stand, the fight ends in exactly one of three
   * ways: hero2 felled while hero1 stands, hero1 felled while hero2 stands,
   * or the round cap reached with both standing.
   */
  lemma {:induction false} ResolveEnding(f: Fight, a: Hero, b: Hero, draws: seq<int>)
    requires Budget(f, draws)
    requires f.hp1 > 0 && f.hp2 > 0
    ensures var r := Resolve(f, a, b, draws);
      (r.hp2 <= 0 && r.hp1 > 0) ||
      (r.hp1 <= 0 && r.hp2 > 0) ||
      (r.rounds == MaxRounds && r.hp1 > 0 && r.hp2 > 0)
    decreases MaxRounds - f.rounds
  {
    if InProgress(f) {
      var g := Strike(f, a, b, draws);
      if g.hp2 > 0 {
        var h := Counter(g, a, b, draws);
        if h.hp1 > 0 {
          ResolveEnding(h, a, b, draws);
        }
      }
    }
  }

  /** The log invariant holds in every state the fight passes through. */
  lemma {:induction false} ResolveLog(f: Fight, a: Hero, b: Hero, draws: seq<int>)
    requires Budget(f, draws)
    requires LogConsistent(f)
    ensures LogConsistent(Resolve(f, a, b, draws))
    decreases MaxRounds - f.rounds
  {
    if InProgress(f) {
      var g := Strike(f, a, b, draws);
      assert LogConsistent(g) by {
        var n := |f.log|;
        assert forall i :: 0 <= i < n ==> g.log[i] == f.log[i];
      }
      if g.hp2 > 0 {
        var h := Counter(g, a, b, draws);
        assert LogConsistent(h) by {
          var n := |g.log|;
          assert forall i :: 0 <= i < n ==> h.log[i] == g.log[i];
          assert h.log[n - 1] == Attack(Challenger, g.log[n - 1].damage, Shown(g.hp2));
        }
        ResolveLog(h, a, b, draws);
      }
    }
  }

  /**
   * Round bounds and damage accounting of a whole battle: with positive
   * starting HP, 1 <= rounds <= 20; each final HP is the starting HP minus the
   * opponent's damage total.
   */
  lemma BattleTotals(a: Hero, b: Hero, draws: seq<int>)
    requires a.id != b.id && |draws| >= 2 * MaxRounds
    ensures var r := Outcome(a, b, draws);
      var f := FinalFight(a, b, draws);
      r.rounds <= MaxRounds &&
      (a.health > 0 && b.health > 0 ==> 1 <= r.rounds) &&
      f.hp1 == a.health - r.damage2 && f.hp2 == b.health - r.damage1
  {
    ResolveRounds(Opening(a, b), a, b, draws);
    ResolveAccounting(Opening(a, b), a, b, draws);
  }

  /**
   * With positive starting HP: a felled hero2 means hero1 won and the felling
   * strike closes the log; a felled hero1 means hero2 won; a draw only happens
   * at the round cap with equal HP left on both sides.
   */
  lemma BattleEndings(a: Hero, b: Hero, draws: seq<int>)
    requires a.id != b.id && |draws| >= 2 * MaxRounds
    requires a.health > 0 && b.health > 0
    ensures var r := Outcome(a, b, draws);
      var f := FinalFight(a, b, draws);
      (f.hp2 <= 0 ==> r.winner == Some(a.id) && r.log != [] &&
                      r.log[|r.log| - 1].Attack? && r.log[|r.log| - 1].attacker == Challenger &&
                      r.log[|r.log| - 1].shownHp == 0) &&
      (f.hp1 <= 0 ==> r.winner == Some(b.id)) &&
      (r.winner == None ==> r.rounds == MaxRounds && f.hp1 == f.hp2 > 0)
  {
    var o := Opening(a, b);
    ResolveEnding(o, a, b, draws);
    ResolveLog(o, a, b, draws);
    ResolveRounds(o, a, b, draws);
    var f := FinalFight(a, b, draws);
    if f.hp2 <= 0 {
      FellingStrikeLogged(o, a, b, draws);
    }
  }

  /** If the fight ended with hero2 felled, the last event is hero1's felling strike. */
  lemma {:induction false} FellingStrikeLogged(f: Fight, a: Hero, b: Hero, draws: seq<int>)
    requires Budget(f, draws)
    requires f.hp2 > 0
    requires Resolve(f, a, b, draws).hp2 <= 0
    ensures var r := Resolve(f, a, b, draws);
      r.log != [] && r.log[|r.log| - 1].Attack? && r.log[|r.log| - 1].attacker == Challenger &&
      r.log[|r.log| - 1].shownHp == 0
    decreases MaxRounds - f.rounds
  {
    var g := Strike(f, a, b, draws);
    if g.hp2 > 0 {
      FellingStrikeLogged(Counter(g, a, b, draws), a, b, draws);
    }
  }

  /** The log of every battle: hero2 never counter-attacks once felled, and a felling strike is last. */
  lemma BattleLogShape(a: Hero, b: Hero, draws: seq<int>)
    requires a.id != b.id && |draws| >= 2 * MaxRounds
    ensures CounterFollowsLiveStrike(Outcome(a, b, draws).log)
    ensures FellingStrikeIsLast(Outcome(a, b, draws).log)
  {
    ResolveLog(Opening(a, b), a, b, draws);
  }

  /**
   * Two equal heroes (attack 50, defense 30, 100 HP) with every jitter 0: each
   * blow deals 35, and in round 3 hero2 falls to -5 before it can answer, so
   * hero1 wins with 30 HP left.
   */
  lemma MirrorMatch(a: Hero, b: Hero, draws: seq<int>)
    requires a.id != b.id && |draws| >= 2 * MaxRounds
    requires a.attack == b.attack == 50 && a.defense == b.defense == 30 && a.health == b.health == 100
    requires forall i :: 0 <= i < |draws| ==> draws[i] == 0
    ensures Outcome(a, b, draws).winner == Some(a.id)
    ensures Outcome(a, b, draws).rounds == 3
    ensures Outcome(a, b, draws).damage1 == 105 && Outcome(a, b, draws).damage2 == 70
  {
    var f0 := Opening(a, b);
    var f1 := Counter(Strike(f0, a, b, draws), a, b, draws);
    assert f1.hp1 == 65 && f1.hp2 == 65;
    var f2 := Counter(Strike(f1, a, b, draws), a, b, draws);
    assert f2.hp1 == 30 && f2.hp2 == 30;
    var f3 := Strike(f2, a, b, draws);
    assert f3.hp2 == -5 && f3.hp1 == 30 && f3.rounds == 3;
    assert Resolve(f2, a, b, draws) == f3;
    assert Resolve(f1, a, b, draws) == f3;
    assert FinalFight(a, b, draws) == f3;
  }
}
