/**
 * The battle model: scoring of a meal, the rule that turns two scores and a
 * random draw into a winner, and the combatant list that stages at most two
 * meals for a battle.
 */
module Battle {
  import opened Meals

  /**
   * Penalty subtracted from the score of a LOW-difficulty meal. The two tests
   * of a LOW meal disagree (one subtracts 2, the other 3); this model takes 2.
   */
  const LowPenalty: real := 2.0
  /** Penalty of a MED-difficulty meal; no test fixes it. */
  const MedPenalty: real := 1.0
  /** Penalty of a HIGH-difficulty meal. */
  const HighPenalty: real := 1.0

  function Penalty(d: Difficulty): real
  {
    match d
    case Low => LowPenalty
    case Med => MedPenalty
    case High => HighPenalty
  }

  /**
   * Battle score of a meal: its price times the length of its cuisine, less
   * the penalty of its difficulty. Every penalty lies between 1 and 2.
   */
  function BattleScore(m: Meal): (r: real)
    ensures m.price * (|m.cuisine| as real) - 2.0 <= r <= m.price * (|m.cuisine| as real) - 1.0
  {
    m.price * (|m.cuisine| as real) - Penalty(m.difficulty)
  }

  lemma HighScore(m: Meal)
    requires m.difficulty == High
    ensures BattleScore(m) == m.price * (|m.cuisine| as real) - 1.0
  {
  }

  lemma LowScore(m: Meal)
    requires m.difficulty == Low
    ensures BattleScore(m) == m.price * (|m.cuisine| as real) - 2.0
  {
  }

  lemma MedScore(m: Meal)
    requires m.difficulty == Med
    ensures BattleScore(m) == m.price * (|m.cuisine| as real) - 1.0
  {
  }

  /** A costlier meal of the same cuisine and difficulty scores strictly higher. */
  lemma ScoreGrowsWithPrice(m: Meal, price: real)
    requires m.price < price && |m.cuisine| > 0
    ensures BattleScore(m) < BattleScore(m.(price := price))
  {
    var n := |m.cuisine| as real;
    assert (price - m.price) * n > 0.0;
    assert price * n - m.price * n == (price - m.price) * n;
  }

  /** The score the LOW-price test expects: price times cuisine length, less 3. */
  function LowPriceTestExpectation(m: Meal): real
  {
    m.price * (|m.cuisine| as real) - 3.0
  }

  /** For every LOW meal the expectation of the LOW-price test misses the score by one. */
  lemma LowPriceTestDisagrees(m: Meal)
    requires m.difficulty == Low
    ensures LowPriceTestExpectation(m) == BattleScore(m) - 1.0
  {
  }

  /** The score of a meal when a LOW meal is charged the given penalty instead of LowPenalty. */
  function ScoreUnder(lowPenalty: real, m: Meal): (r: real)
    ensures lowPenalty == LowPenalty ==> r == BattleScore(m)
    ensures m.difficulty != Low ==> r == BattleScore(m)
  {
    m.price * (|m.cuisine| as real) - (if m.difficulty == Low then lowPenalty else Penalty(m.difficulty))
  }

  /**
   * Whatever penalty a LOW meal is charged, the score cannot meet both LOW
   * tests: the one expecting price times cuisine length less 2 (Pizza) and
   * the one expecting LowPriceTestExpectation (Salad).
   */
  lemma LowTestsConflict(penalty: real, m1: Meal, m2: Meal)
    requires m1.difficulty == Low && m2.difficulty == Low
    ensures !(ScoreUnder(penalty, m1) == m1.price * (|m1.cuisine| as real) - 2.0 &&
              ScoreUnder(penalty, m2) == LowPriceTestExpectation(m2))
  {
  }

  /** The meals the battle tests stage, and the scores those tests assert. */
  lemma TestScores()
    ensures BattleScore(Meal(1, "Pizza", "Italian", 10.0, Low)) == 68.0
    ensures BattleScore(Meal(2, "Ramen", "Japanese", 15.0, High)) == 119.0
    ensures BattleScore(Meal(4, "Exotic Dish", "Fusion", 20.0, High)) == 119.0
  {
  }

  /** How far apart two scores are, relative to their sum, clamped to [0, 1]. */
  function Separation(s1: real, s2: real): (r: real)
    ensures 0.0 <= r <= 1.0
    ensures s1 == s2 ==> r == 0.0
  {
    var delta := if s1 >= s2 then s1 - s2 else s2 - s1;
    var sum := s1 + s2;
    if sum == 0.0 then 0.0
    else
      var q := delta / sum;
      if q < 0.0 then 0.0 else if q > 1.0 then 1.0 else q
  }

  lemma SeparationSymmetric(s1: real, s2: real)
    ensures Separation(s1, s2) == Separation(s2, s1)
  {
  }

  /** The score of the combatant at index i (0 or 1). */
  function ScoreAt(s1: real, s2: real, i: nat): real
  {
    if i == 0 then s1 else s2
  }

  /**
   * Index (0 or 1) of the winning combatant: the higher scorer wins when the
   * draw falls below the separation of the scores, the lower scorer otherwise.
   * With equal scores the first combatant counts as the higher one.
   */
  function WinnerIndex(s1: real, s2: real, draw: real): (i: nat)
    ensures i < 2
    ensures s1 == s2 ==> i == (if draw < 0.0 then 0 else 1)
    ensures draw < Separation(s1, s2) ==> ScoreAt(s1, s2, i) >= ScoreAt(s1, s2, 1 - i)
    ensures s1 != s2 && Separation(s1, s2) <= draw ==> ScoreAt(s1, s2, i) < ScoreAt(s1, s2, 1 - i)
  {
    var higher := if s1 >= s2 then 0 else 1;
    if draw < Separation(s1, s2) then higher else 1 - higher
  }

  /** With distinct scores the winner does not depend on the order of staging. */
  lemma WinnerIgnoresOrder(s1: real, s2: real, draw: real)
    requires s1 != s2
    ensures WinnerIndex(s2, s1, draw) == 1 - WinnerIndex(s1, s2, draw)
  {
    SeparationSymmetric(s1, s2);
  }

  /** With the draw 0.1 the battle tests mock, Ramen (119) beats Pizza (68). */
  lemma TestBattleWinner()
    ensures WinnerIndex(68.0, 119.0, 0.1) == 1
  {
    assert Separation(68.0, 119.0) == 51.0 / 187.0;
  }

  /** Errors the battle model raises. */
  datatype BattleError = CombatantListFull | NotEnoughCombatants

  /** The battle model: an ordered list of at most two staged combatants. */
  class BattleModel {
    var combatants: seq<Meal>

    ghost predicate Valid()
      reads this
    {
      |combatants| <= 2
    }

    constructor()
      ensures Valid() && combatants == []
    {
      combatants := [];
    }

    /** Stages a meal after those already staged; fails when two are staged. */
    method PrepCombatant(m: Meal) returns (r: Outcome<BattleError>)
      requires Valid()
      modifies this
      ensures Valid()
      ensures r == (if |old(combatants)| < 2 then Pass else Fail(CombatantListFull))
      ensures combatants == if r.Pass? then old(combatants) + [m] else old(combatants)
    {
      if |combatants| >= 2 {
        return Fail(CombatantListFull);
      }
      combatants := combatants + [m];
      r := Pass;
    }

    /** Empties the combatant list. */
    method ClearCombatants()
      requires Valid()
      modifies this
      ensures Valid() && combatants == []
    {
      combatants := [];
    }

    /** The staged combatants, in the order they were staged. */
    method GetCombatants() returns (cs: seq<Meal>)
      requires Valid()
      ensures cs == combatants && |cs| <= 2
    {
      cs := combatants;
    }

    /**
     * Fights the two staged combatants with the given random draw, leaves the
     * winner alone on the list and returns its name. With fewer than two
     * staged it fails and changes nothing.
     */
    method Battle(draw: real) returns (r: Result<string, BattleError>)
      requires Valid()
      modifies this
      ensures Valid()
      ensures r.Err? <==> |old(combatants)| < 2
      ensures r.Err? ==> r.error == NotEnoughCombatants && combatants == old(combatants)
      ensures r.Ok? ==> |combatants| == 1 && combatants[0] in old(combatants) && r.value == combatants[0].name
      ensures r.Ok? ==>
        var s1, s2 := BattleScore(old(combatants)[0]), BattleScore(old(combatants)[1]);
        combatants == [old(combatants)[WinnerIndex(s1, s2, draw)]]
    {
      if |combatants| < 2 {
        return Err(NotEnoughCombatants);
      }
      var first, second := combatants[0], combatants[1];
      var s1, s2 := BattleScore(first), BattleScore(second);
      var delta := if s1 >= s2 then s1 - s2 else s2 - s1;
      var sum := s1 + s2;
      var separation := 0.0;
      if sum != 0.0 {
        separation := delta / sum;
        if separation < 0.0 {
          separation := 0.0;
        } else if separation > 1.0 {
          separation := 1.0;
        }
      }
      var winner, loser;
      if (draw < separation) == (s1 >= s2) {
        winner, loser := first, second;
      } else {
        winner, loser := second, first;
      }
      // remove the first occurrence of the loser
      if combatants[0] == loser {
        combatants := [combatants[1]];
      } else {
        combatants := [combatants[0]];
      }
      r := Ok(winner.name);
    }
  }

  /**
   * The staging and battle scenarios of the tests, as a client of the model:
   * returns the name of the winner and what is left staged after it.
   */
  method BattleWalkthrough() returns (winnerName: string, remaining: seq<Meal>)
    ensures winnerName == "Ramen" && remaining == [Meal(2, "Ramen", "Japanese", 15.0, High)]
  {
    var pizza := Meal(1, "Pizza", "Italian", 10.0, Low);
    var ramen := Meal(2, "Ramen", "Japanese", 15.0, High);
    var model := new BattleModel();
    var r1 := model.PrepCombatant(pizza);
    var early := model.Battle(0.1);
    assert early == Err(NotEnoughCombatants) && model.combatants == [pizza];
    var r2 := model.PrepCombatant(ramen);
    var cs := model.GetCombatants();
    assert r1 == Pass && r2 == Pass && cs == [pizza, ramen];
    var r3 := model.PrepCombatant(pizza);
    assert r3 == Fail(CombatantListFull) && model.combatants == [pizza, ramen];
    var winner := model.Battle(0.1);
    assert winner.Ok? && winner.value in {"Pizza", "Ramen"};
    TestScores();
    TestBattleWinner();
    assert winner.value == "Ramen";
    assert |model.combatants| == 1;
    winnerName := winner.value;
    remaining := model.GetCombatants();
    model.ClearCombatants();
    cs := model.GetCombatants();
    assert cs == [];
  }
}
