# Meal battles, modelled in Dafny

A model of the meal-battle game's two stateful components, as their tests pin them down.

- **The battle model** (`battle.dfy`, module `Battle`) holds an ordered list of at most two staged meals. It scores a meal as `price × len(cuisine) − penalty(difficulty)` and fights the two staged meals. The class `BattleModel` has a `seq<Meal>` field. `PrepCombatant` appends to it and refuses a third meal. `ClearCombatants` empties it. `Battle` needs two staged meals and leaves only the winner staged. The random draw is a parameter of `Battle`, so the model is deterministic.
- **The kitchen model** (`kitchen.dfy`, module `Kitchen`) stands for the `meals` table. The table is a `map<int, Row>` from id to row. A row holds name, cuisine, price, difficulty, deleted flag, battles and wins. Three pure functions give the new table and the outcome of each state-changing operation: `AfterCreate`, `AfterDelete` and `AfterUpdateStats`. The class `MealTable` does the same steps in place, reading a row before writing it. Its methods are proved to agree with those functions. Lookups by id and by name are pure functions of the table.
- **The leaderboard** (`leaderboard.dfy`, module `Leaderboard`) lists the live meals that have fought, each with its win percentage. It is sorted in descending order of wins or of win percentage, by a verified insertion sort.
- `meals.dfy` (module `Meals`) holds the values the other modules share: `Difficulty`, `Meal`, `Result`, `Outcome`, `Option`.

Invariants proved about the table (`Kitchen.Valid`):
- ids run from 1 to the number of rows;
- names are unique over all rows, deleted ones included, because the name column carries a uniqueness constraint;
- every price is positive;
- no row has more wins than battles.

Every operation preserves `Valid`. A failing operation leaves the table as it was. Every operation except `ClearMeals` removes no row and never clears a deleted flag (`DeletionsKept`). `ClearMeals` is the bulk reset: it drops every row, deleted ones included.

Choices where the tests leave the behaviour open:
- **LOW penalty.** The two LOW-difficulty tests disagree. `test_battle_model.py:33` subtracts 2 and `test_battle_model.py:46` subtracts 3. The model takes 2, as the named constant `Battle.LowPenalty` (see Findings). No test fixes the MED penalty; the model takes 1 (`Battle.MedPenalty`).
- **Winner rule.** The tests only show that the winner is one of the two combatants. The model fixes a rule of its own, parameterised by the draw. The separation of the scores is `|s1 − s2| / (s1 + s2)`, clamped to [0, 1]. The higher scorer wins when the draw is below the separation; the lower scorer wins otherwise. When the scores are equal, the first staged meal counts as the higher one.
- **Lookup by name of a deleted row.** No test covers it. The model reports "not found", treating a deleted row as absent. The lookup by id reports "has been deleted", as `test_kitchen_model.py:247-255` shows.
- **Stats update of a deleted row.** The model reports the row as deleted (`MealDeleted`), as the lookup by id does.
- **`win_pct` as a sort key.** Only `"wins"` and an invalid key are tested. The model also accepts `"win_pct"`, the win-percentage column the leaderboard computes (`test_kitchen_model.py:282`), and sorts on it in descending order.

## Model

| member | source | states |
|---|---|---|
| Battle.BattleScore | HW/docstrings_testing/meal_max/tests/test_battle_model.py:30-54 | a meal scores price × cuisine length − Penalty(difficulty), with LOW 2 (`LowPenalty`), MED 1 (the model's choice, see `MedScore`) and HIGH 1; so every score lies between 2 and 1 below price × cuisine length |
| Battle.LowScore | HW/docstrings_testing/meal_max/tests/test_battle_model.py:30-34 | a LOW meal scores price × cuisine length − 2 |
| Battle.HighScore | HW/docstrings_testing/meal_max/tests/test_battle_model.py:36-40 | a HIGH meal scores price × cuisine length − 1 |
| Battle.MedScore | HW/docstrings_testing/meal_max/tests/test_battle_model.py:30-54 | a MED meal scores price × cuisine length − 1; no test fixes this, it is the model's choice |
| Battle.TestScores | HW/docstrings_testing/meal_max/tests/test_battle_model.py:30-54 | the fixture meals score 68 (Pizza), 119 (Ramen) and 119 (Exotic Dish), as the score tests assert |
| Battle.ScoreGrowsWithPrice | HW/docstrings_testing/meal_max/tests/test_battle_model.py:42-54 | for a non-empty cuisine, a higher price always gives a strictly higher score |
| Battle.LowPriceTestDisagrees | HW/docstrings_testing/meal_max/tests/test_battle_model.py:42-47 | for every LOW meal, the LOW-price test expects exactly one less than the score |
| Battle.ScoreUnder | HW/docstrings_testing/meal_max/tests/test_battle_model.py:30-47 | the score with the LOW penalty as a parameter; it is BattleScore for the model's LOW penalty and for every non-LOW meal |
| Battle.LowTestsConflict | HW/docstrings_testing/meal_max/tests/test_battle_model.py:30-47 | for any LOW penalty and any two LOW meals, the score cannot meet both line 33's expectation (− 2) for the first and line 46's (− 3) for the second |
| Battle.Separation | HW/docstrings_testing/meal_max/tests/test_battle_model.py:90-98 | the separation of two scores lies in [0, 1] and is 0 for equal scores |
| Battle.SeparationSymmetric | HW/docstrings_testing/meal_max/tests/test_battle_model.py:90-98 | the separation does not depend on the order of the two scores |
| Battle.WinnerIndex | HW/docstrings_testing/meal_max/tests/test_battle_model.py:90-98 | the winner is one of the two combatants; a draw below the separation makes the higher scorer win; otherwise, with distinct scores, the lower scorer wins; with equal scores the second combatant wins unless the draw is negative |
| Battle.WinnerIgnoresOrder | HW/docstrings_testing/meal_max/tests/test_battle_model.py:90-98 | with distinct scores, swapping the staging order swaps the winner's index, so the same meal wins |
| Battle.TestBattleWinner | HW/docstrings_testing/meal_max/tests/test_battle_model.py:90-98 | with the mocked draw 0.1, Ramen (119) beats Pizza (68) |
| Battle.BattleModel.constructor | HW/docstrings_testing/meal_max/tests/test_battle_model.py:7-10 | a new battle model has no combatants |
| Battle.BattleModel.PrepCombatant | HW/docstrings_testing/meal_max/tests/test_battle_model.py:60-81 | with fewer than two staged, the meal is appended after the others; with two staged, it fails with CombatantListFull and changes nothing |
| Battle.BattleModel.GetCombatants | HW/docstrings_testing/meal_max/tests/test_battle_model.py:60-74 | returns the staged meals in staging order; there are never more than two |
| Battle.BattleModel.ClearCombatants | HW/docstrings_testing/meal_max/tests/test_battle_model.py:83-88 | the list is empty afterwards |
| Battle.BattleWalkthrough | HW/docstrings_testing/meal_max/tests/test_battle_model.py:60-104 | a client replaying the tests: with only Pizza staged the battle fails and leaves Pizza staged; staging Ramen after it keeps that order, a third meal is refused with the list unchanged, and the battle with draw 0.1 returns "Ramen" and leaves only Ramen staged; clearing then empties the list |
| Battle.BattleModel.Battle | HW/docstrings_testing/meal_max/tests/test_battle_model.py:90-104 | fails with NotEnoughCombatants exactly when fewer than two are staged, changing nothing; otherwise exactly one combatant remains, the winner WinnerIndex chooses from the two, and its name is returned |
| Kitchen.ValidatePrice | HW/docstrings_testing/meal_max/tests/test_kitchen_model.py:86-95 | a price is accepted exactly when it is a positive number; otherwise the error carries the offending value |
| Kitchen.ParseDifficulty | HW/docstrings_testing/meal_max/tests/test_kitchen_model.py:98-103 | exactly "LOW", "MED" and "HIGH" are accepted, each read back to its own spelling; otherwise the error carries the offending text |
| Kitchen.ParseDifficultyName | HW/docstrings_testing/meal_max/tests/test_kitchen_model.py:98-103 | spelling a level and reading it back gives the same level |
| Kitchen.AfterCreate | HW/docstrings_testing/meal_max/tests/test_kitchen_model.py:54-103 | price and then difficulty are checked before the table, whatever the table holds. A taken name fails with a duplicate error naming it. Otherwise exactly the given fields are stored, with no battles, no wins and not deleted, under the next id. A failure leaves the table unchanged, and the table invariant is preserved |
| Kitchen.CreateTwiceIsDuplicate | HW/docstrings_testing/meal_max/tests/test_kitchen_model.py:75-83 | after a successful create, a second create of the same name with valid fields fails with DuplicateName of that name and adds nothing |
| Kitchen.CreateThenGet | HW/docstrings_testing/meal_max/tests/test_kitchen_model.py:183-235 | a meal just created is returned, with exactly the given fields, by the lookup by its new id and by the lookup by its name |
| Kitchen.AfterDelete | HW/docstrings_testing/meal_max/tests/test_kitchen_model.py:105-157 | an unknown id fails with IdNotFound; a deleted row fails with AlreadyDeleted; otherwise only that row's deleted flag is set. Failures change nothing and the invariant is preserved |
| Kitchen.DeleteThenGet | HW/docstrings_testing/meal_max/tests/test_kitchen_model.py:247-255 | after a delete, the lookup by id reports the meal deleted and the lookup by name reports it not found; a second delete fails with AlreadyDeleted and a stats update fails with MealDeleted |
| Kitchen.AfterUpdateStats | HW/docstrings_testing/meal_max/tests/test_kitchen_model.py:301-338 | a result other than "win" or "loss" fails before the lookup, for any id. An unknown id is not found; a deleted row is refused. A win adds one to battles and to wins, a loss to battles only, and nothing else changes. wins ≤ battles is preserved |
| Kitchen.GetMealById | HW/docstrings_testing/meal_max/tests/test_kitchen_model.py:215-255 | a present, live row gives its stored fields; an absent id fails with IdNotFound; a deleted row fails with MealDeleted |
| Kitchen.FindName | HW/docstrings_testing/meal_max/tests/test_kitchen_model.py:183-213 | the id found carries the name; when none is found, no row in range carries it |
| Kitchen.GetMealByName | HW/docstrings_testing/meal_max/tests/test_kitchen_model.py:183-213 | a success gives the stored fields of a live row with that name; a failure is NameNotFound of that name |
| Kitchen.GetMealByNameFinds | HW/docstrings_testing/meal_max/tests/test_kitchen_model.py:183-213 | in a valid table, a row carrying the name is found: returned if live, reported not found if deleted |
| Kitchen.KitchenWalkthrough | HW/docstrings_testing/meal_max/tests/test_kitchen_model.py:54-338 | a client replaying the tests: an invalid price (negative or not a number) and the difficulty "EASY" are refused with the table still empty; "Spaghetti" is created, then refused as a duplicate; a win bumps both counters and "draw" is refused; deleting id 999 is not found; the second delete of id 1 is refused. The final table holds the one deleted Spaghetti row with one battle and one win, which the lookup by id reports as deleted |
| Kitchen.MealTable.constructor | HW/docstrings_testing/meal_max/tests/test_kitchen_model.py:160-174 | a new table is empty and valid |
| Kitchen.MealTable.ClearMeals | HW/docstrings_testing/meal_max/tests/test_kitchen_model.py:160-174 | clearing leaves an empty, valid table |
| Kitchen.MealTable.CreateMeal | HW/docstrings_testing/meal_max/tests/test_kitchen_model.py:54-103 | the new table and outcome are those of AfterCreate, and the table stays valid |
| Kitchen.MealTable.DeleteMeal | HW/docstrings_testing/meal_max/tests/test_kitchen_model.py:105-157 | reads the deleted flag, then sets it; the new table and outcome are those of AfterDelete |
| Kitchen.MealTable.UpdateMealStats | HW/docstrings_testing/meal_max/tests/test_kitchen_model.py:301-338 | checks the result, reads the deleted flag, then bumps the counters; the new table and outcome are those of AfterUpdateStats |
| Leaderboard.ParseSortBy | HW/docstrings_testing/meal_max/tests/test_kitchen_model.py:289-293 | only "wins" and "win_pct" are accepted; any other key fails with InvalidSortBy carrying it |
| Leaderboard.EntryOf | HW/docstrings_testing/meal_max/tests/test_kitchen_model.py:272-282 | a leaderboard line carries the row's id, name, cuisine, price, difficulty, battles and wins, and win_pct × battles = 100 × wins |
| Leaderboard.WinPctBounded | HW/docstrings_testing/meal_max/tests/test_kitchen_model.py:272-276 | the win percentage 100 × wins / battles of a valid row lies in [0, 100] |
| Leaderboard.Listing | HW/docstrings_testing/meal_max/tests/test_kitchen_model.py:281-283 | holds exactly the lines of the rows in range that are not deleted and have battles > 0, in increasing id order |
| Leaderboard.Insert | HW/docstrings_testing/meal_max/tests/test_kitchen_model.py:281-284 | inserting into a descending list keeps it descending and adds exactly the one line |
| Leaderboard.SortDesc | HW/docstrings_testing/meal_max/tests/test_kitchen_model.py:281-284 | the result is a permutation of the input, sorted in descending order of the key |
| Leaderboard.GetLeaderboard | HW/docstrings_testing/meal_max/tests/test_kitchen_model.py:258-293 | an invalid sort key fails with InvalidSortBy. Otherwise the result is sorted in descending order of the chosen key and is a permutation of the listed rows |
| Leaderboard.LeaderboardMembers | HW/docstrings_testing/meal_max/tests/test_kitchen_model.py:258-287 | in a valid table, a line is on the leaderboard exactly when its row is live and has fought, with the row's fields and a win percentage in [0, 100] |
| Leaderboard.LeaderboardOfTestTable | HW/docstrings_testing/meal_max/tests/test_kitchen_model.py:258-278 | the test's three-row table gives Burger (80%), Spaghetti (70%), Sushi (60%) by wins |

## Left out

- The random source (`test_random_utils.py`): an HTTP request to random.org with a timeout, which parses the response text as a float. The draw is a parameter of `Battle`. The request, timeout and parse errors are not modelled.
- Logging the winner (`test_battle_model.py:106-115`), because the log is an external sink.
- The stats update the battle performs through the kitchen model. The battle tests do not exercise it, so the two models are independent.
- SQL statement text, connections, cursors and commits. The table is a map. The read-then-write order of delete and stats update stays as two steps in the method bodies; the statements themselves are not modelled.
- `clear_meals` reads a schema file named by an environment variable and runs it. The model keeps only the effect: the table becomes empty and ids restart at 1.
- Floating point. Prices, scores and win percentages are exact `real`s. The one-decimal rounding of `win_pct` is not modelled.
- Battle.Separation: when the two scores sum to zero, the separation is taken as 0. The division by zero this case would cause is not modelled.
- Kitchen.GetMealByName and Leaderboard.GetLeaderboard scan ids 1 to the number of rows. They see every row only in a valid table, so the completeness lemmas (`GetMealByNameFinds`, `LeaderboardMembers`) require `Valid`.
- The test rows with difficulties "Medium", "Easy" and "Hard" (`test_kitchen_model.py:187`, `263-265`). A row of the model can only hold one of the three levels that create accepts.
- The order of the leaderboard is left to the database's `ORDER BY wins DESC`, and the test's mocked rows come back in id order (`test_kitchen_model.py:262-266`) while it expects them by wins (`272-276`). The model does that sort itself (`SortDesc`), so it does not capture a client that maps the fetched rows in the order they arrive.
- Python's dynamic typing of the price (an int, a float, a bool or anything else). It is reduced to a number or not a number (`PriceArg`).

## Findings

| source | as written | input that shows it | evidently intended | confidence | as-written member | corrected member |
|---|---|---|---|---|---|---|
| HW/docstrings_testing/meal_max/tests/test_battle_model.py:42-47 | expects a LOW meal to score price × cuisine length − 3, while line 33 expects − 2 for the same difficulty | Salad, American, 0.5, LOW: line 46 expects 1.0, the rule of line 33 gives 2.0 | one LOW penalty; the model takes 2, as at line 33 | medium: one of the two tests must fail; not executed | Battle.LowPriceTestDisagrees | Battle.LowScore |
