/**
 * The kitchen model: the meals table as an in-memory map from id to row,
 * the validation of new meals, soft deletion, the lookups by id and by name,
 * and the win/loss statistics.
 *
 * Each operation that changes the table is specified by a pure function from
 * the old table to the new table and the outcome (AfterCreate, AfterDelete,
 * AfterUpdateStats); the class MealTable performs the same steps in place and
 * is proved to agree with them.
 */
module Kitchen {
  import opened Meals

  /** One row of the meals table. */
  datatype Row = Row(name: string, cuisine: string, price: real, difficulty: Difficulty,
                     deleted: bool, battles: nat, wins: nat)

  /** The price argument of a new meal, which need not be a number at all. */
  datatype PriceArg = Number(value: real) | NotANumber(text: string)

  /** The errors the kitchen model raises, each carrying the offending value. */
  datatype Error =
    | InvalidPrice(price: PriceArg)
    | InvalidDifficulty(difficulty: string)
    | DuplicateName(name: string)
    | IdNotFound(id: int)
    | NameNotFound(name: string)
    | AlreadyDeleted(id: int)
    | MealDeleted(id: int)
    | InvalidSortBy(sortBy: string)
    | InvalidResult(result: string)

  type Table = map<int, Row>

  /** Ids are handed out in order from 1 and rows are never physically removed. */
  ghost predicate IdsContiguous(t: Table)
  {
    forall id :: id in t <==> 1 <= id <= |t|
  }

  /** The name column is unique over all rows, deleted ones included. */
  ghost predicate NamesUnique(t: Table)
  {
    forall i, j :: i in t && j in t && t[i].name == t[j].name ==> i == j
  }

  /** A stored row has a positive price and never more wins than battles. */
  predicate RowOk(r: Row)
  {
    r.price > 0.0 && r.wins <= r.battles
  }

  /** The invariant every reachable table satisfies. */
  ghost predicate Valid(t: Table)
  {
    IdsContiguous(t) && NamesUnique(t) && forall id :: id in t ==> RowOk(t[id])
  }

  /** No row disappears and no deleted row comes back. */
  ghost predicate DeletionsKept(t: Table, t': Table)
  {
    forall id :: id in t ==> id in t' && (t[id].deleted ==> t'[id].deleted)
  }

  /** The spelling of each difficulty level. */
  function DifficultyName(d: Difficulty): string
  {
    match d
    case Low => "LOW"
    case Med => "MED"
    case High => "HIGH"
  }

  /** Checks a price argument: it must be a number and positive. */
  function ValidatePrice(p: PriceArg): (r: Result<real, Error>)
    ensures r.Ok? <==> p.Number? && p.value > 0.0
    ensures r.Ok? ==> r.value == p.value
    ensures r.Err? ==> r.error == InvalidPrice(p)
  {
    if p.Number? && p.value > 0.0 then Ok(p.value) else Err(InvalidPrice(p))
  }

  /** Reads a difficulty level; only the three exact spellings are accepted. */
  function ParseDifficulty(s: string): (r: Result<Difficulty, Error>)
    ensures r.Ok? <==> s == "LOW" || s == "MED" || s == "HIGH"
    ensures r.Ok? ==> DifficultyName(r.value) == s
    ensures r.Err? ==> r.error == InvalidDifficulty(s)
  {
    if s == "LOW" then Ok(Low)
    else if s == "MED" then Ok(Med)
    else if s == "HIGH" then Ok(High)
    else Err(InvalidDifficulty(s))
  }

  lemma ParseDifficultyName(d: Difficulty)
    ensures ParseDifficulty(DifficultyName(d)) == Ok(d)
  {
  }

  /** Whether some row, deleted or not, already carries the name. */
  predicate NameTaken(t: Table, name: string)
  {
    exists id :: id in t && t[id].name == name
  }

  /** The row a successful create inserts. */
  function NewRow(name: string, cuisine: string, price: real, d: Difficulty): Row
  {
    Row(name, cuisine, price, d, false, 0, 0)
  }

  /**
   * The table and outcome after creating a meal: the price and then the
   * difficulty are checked before the table is consulted; a name already in
   * the table is a duplicate; otherwise a fresh row gets the next id.
   */
  function AfterCreate(t: Table, name: string, cuisine: string, price: PriceArg, difficulty: string)
    : (r: (Table, Outcome<Error>))
    ensures r.1.Fail? ==> r.0 == t
    ensures ValidatePrice(price).Err? ==> r.1 == Fail(InvalidPrice(price))
    ensures ValidatePrice(price).Ok? && ParseDifficulty(difficulty).Err? ==>
              r.1 == Fail(InvalidDifficulty(difficulty))
    ensures r.1 == Fail(DuplicateName(name)) <==>
              ValidatePrice(price).Ok? && ParseDifficulty(difficulty).Ok? && NameTaken(t, name)
    ensures r.1.Pass? <==>
              ValidatePrice(price).Ok? && ParseDifficulty(difficulty).Ok? && !NameTaken(t, name)
    ensures r.1.Pass? ==>
              r.0 == t[|t| + 1 := NewRow(name, cuisine, price.value, ParseDifficulty(difficulty).value)]
    ensures Valid(t) ==> Valid(r.0) && DeletionsKept(t, r.0)
  {
    match ValidatePrice(price)
    case Err(e) => (t, Fail(e))
    case Ok(p) =>
      match ParseDifficulty(difficulty)
      case Err(e) => (t, Fail(e))
      case Ok(d) =>
        if NameTaken(t, name) then (t, Fail(DuplicateName(name)))
        else
          var t' := t[|t| + 1 := NewRow(name, cuisine, p, d)];
          assert Valid(t) ==> |t'| == |t| + 1 by {
            if Valid(t) { assert |t| + 1 !in t; }
          }
          (t', Pass)
  }

  /**
   * The table and outcome after soft-deleting a meal: an unknown id is not
   * found, a deleted row is already deleted, and otherwise only that row's
   * deleted flag is set.
   */
  function AfterDelete(t: Table, id: int): (r: (Table, Outcome<Error>))
    ensures r.1.Fail? ==> r.0 == t
    ensures r.1 == Fail(IdNotFound(id)) <==> id !in t
    ensures r.1 == Fail(AlreadyDeleted(id)) <==> id in t && t[id].deleted
    ensures r.1.Pass? <==> id in t && !t[id].deleted
    ensures r.1.Pass? ==> r.0.Keys == t.Keys && r.0[id] == t[id].(deleted := true)
    ensures forall other :: other in t && other != id ==> r.0[other] == t[other]
    ensures DeletionsKept(t, r.0)
    ensures Valid(t) ==> Valid(r.0)
  {
    if id !in t then (t, Fail(IdNotFound(id)))
    else if t[id].deleted then (t, Fail(AlreadyDeleted(id)))
    else
      var t' := t[id := t[id].(deleted := true)];
      assert |t'| == |t| by { assert t'.Keys == t.Keys; }
      (t', Pass)
  }

  /**
   * The table and outcome after recording a battle result: a result other
   * than "win" or "loss" is refused before the table is consulted; an unknown
   * or deleted id is refused; a win bumps battles and wins, a loss battles only.
   */
  function AfterUpdateStats(t: Table, id: int, result: string): (r: (Table, Outcome<Error>))
    ensures r.1.Fail? ==> r.0 == t
    ensures result != "win" && result != "loss" ==> r.1 == Fail(InvalidResult(result))
    ensures r.1.Pass? <==> (result == "win" || result == "loss") && id in t && !t[id].deleted
    ensures (result == "win" || result == "loss") && id !in t ==> r.1 == Fail(IdNotFound(id))
    ensures (result == "win" || result == "loss") && id in t && t[id].deleted ==> r.1 == Fail(MealDeleted(id))
    ensures r.1.Pass? ==>
              r.0.Keys == t.Keys &&
              r.0[id].battles == t[id].battles + 1 &&
              r.0[id].wins == (if result == "win" then t[id].wins + 1 else t[id].wins) &&
              r.0[id] == t[id].(battles := r.0[id].battles, wins := r.0[id].wins)
    ensures forall other :: other in t && other != id ==> r.0[other] == t[other]
    ensures DeletionsKept(t, r.0)
    ensures Valid(t) ==> Valid(r.0)
  {
    if result != "win" && result != "loss" then (t, Fail(InvalidResult(result)))
    else if id !in t then (t, Fail(IdNotFound(id)))
    else if t[id].deleted then (t, Fail(MealDeleted(id)))
    else
      var row := t[id];
      var row' := if result == "win" then row.(battles := row.battles + 1, wins := row.wins + 1)
                  else row.(battles := row.battles + 1);
      var t' := t[id := row'];
      assert |t'| == |t| by { assert t'.Keys == t.Keys; }
      (t', Pass)
  }

  /** The meal a row describes. */
  function MealOf(id: int, r: Row): Meal
  {
    Meal(id, r.name, r.cuisine, r.price, r.difficulty)
  }

  /** Looks a meal up by id; a deleted row is reported as deleted. */
  function GetMealById(t: Table, id: int): (r: Result<Meal, Error>)
    ensures r.Ok? <==> id in t && !t[id].deleted
    ensures r.Ok? ==> r.value.id == id && r.value == MealOf(id, t[id])
    ensures r == Err(IdNotFound(id)) <==> id !in t
    ensures r == Err(MealDeleted(id)) <==> id in t && t[id].deleted
  {
    if id !in t then Err(IdNotFound(id))
    else if t[id].deleted then Err(MealDeleted(id))
    else Ok(MealOf(id, t[id]))
  }

  /** The highest id in 1..k whose row carries the name, if any. */
  function FindName(t: Table, name: string, k: int): (r: Option<int>)
    decreases k
    ensures r.Some? ==> 1 <= r.value <= k && r.value in t && t[r.value].name == name
    ensures r.None? ==> forall id :: 1 <= id <= k && id in t ==> t[id].name != name
  {
    if k < 1 then None
    else if k in t && t[k].name == name then Some(k)
    else FindName(t, name, k - 1)
  }

  /** Looks a meal up by name; a deleted row counts as not found. */
  function GetMealByName(t: Table, name: string): (r: Result<Meal, Error>)
    ensures r.Ok? ==> r.value.name == name && r.value.id in t &&
                      !t[r.value.id].deleted && r.value == MealOf(r.value.id, t[r.value.id])
    ensures r.Err? ==> r.error == NameNotFound(name)
  {
    match FindName(t, name, |t|)
    case None => Err(NameNotFound(name))
    case Some(id) => if t[id].deleted then Err(NameNotFound(name)) else Ok(MealOf(id, t[id]))
  }

  /** In a valid table the lookup by name finds exactly the live rows carrying that name. */
  lemma GetMealByNameFinds(t: Table, name: string, id: int)
    requires Valid(t)
    requires id in t && t[id].name == name
    ensures GetMealByName(t, name) == if t[id].deleted then Err(NameNotFound(name)) else Ok(MealOf(id, t[id]))
  {
    var found := FindName(t, name, |t|);
    assert found == Some(id);
  }

  /** A meal just created is found by its id and by its name, as it was given. */
  lemma CreateThenGet(t: Table, name: string, cuisine: string, price: PriceArg, difficulty: string)
    requires Valid(t)
    requires AfterCreate(t, name, cuisine, price, difficulty).1 == Pass
    ensures var t' := AfterCreate(t, name, cuisine, price, difficulty).0;
            var m := Meal(|t| + 1, name, cuisine, price.value, ParseDifficulty(difficulty).value);
            GetMealById(t', |t| + 1) == Ok(m) && GetMealByName(t', name) == Ok(m)
  {
    var t' := AfterCreate(t, name, cuisine, price, difficulty).0;
    GetMealByNameFinds(t', name, |t| + 1);
  }

  /** Creating the same name a second time is a duplicate and adds nothing. */
  lemma CreateTwiceIsDuplicate(t: Table, name: string, cuisine: string, price: PriceArg, difficulty: string,
                               cuisine2: string, price2: PriceArg, difficulty2: string)
    requires AfterCreate(t, name, cuisine, price, difficulty).1 == Pass
    requires ValidatePrice(price2).Ok? && ParseDifficulty(difficulty2).Ok?
    ensures var t' := AfterCreate(t, name, cuisine, price, difficulty).0;
            AfterCreate(t', name, cuisine2, price2, difficulty2) == (t', Fail(DuplicateName(name)))
  {
    var t' := AfterCreate(t, name, cuisine, price, difficulty).0;
    assert t'[|t| + 1].name == name;
  }

  /** Once deleted, a meal is reported deleted by id, unknown by name, and cannot be deleted again. */
  lemma DeleteThenGet(t: Table, id: int)
    requires Valid(t)
    requires AfterDelete(t, id).1 == Pass
    ensures var t' := AfterDelete(t, id).0;
            GetMealById(t', id) == Err(MealDeleted(id)) &&
            GetMealByName(t', t[id].name) == Err(NameNotFound(t[id].name)) &&
            AfterDelete(t', id) == (t', Fail(AlreadyDeleted(id))) &&
            AfterUpdateStats(t', id, "win") == (t', Fail(MealDeleted(id)))
  {
    var t' := AfterDelete(t, id).0;
    GetMealByNameFinds(t', t[id].name, id);
  }

  /**
   * The meals table. Its rows change in place: create inserts, delete sets a
   * flag, a stats update bumps counters, each after a read of the row it
   * touches; clear drops every row.
   */
  class MealTable {
    var rows: Table

    constructor()
      ensures rows == map[] && Valid(rows)
    {
      rows := map[];
    }

    /** Drops every row and starts the table afresh. */
    method ClearMeals()
      modifies this
      ensures rows == map[] && Valid(rows)
    {
      rows := map[];
    }

    method CreateMeal(name: string, cuisine: string, price: PriceArg, difficulty: string)
      returns (r: Outcome<Error>)
      requires Valid(rows)
      modifies this
      ensures Valid(rows) && DeletionsKept(old(rows), rows)
      ensures (rows, r) == AfterCreate(old(rows), name, cuisine, price, difficulty)
    {
      var p := ValidatePrice(price);
      if p.Err? {
        return Fail(p.error);
      }
      var d := ParseDifficulty(difficulty);
      if d.Err? {
        return Fail(d.error);
      }
      // the insert: a name already present violates the uniqueness of the name column
      if NameTaken(rows, name) {
        return Fail(DuplicateName(name));
      }
      rows := rows[|rows| + 1 := NewRow(name, cuisine, p.value, d.value)];
      r := Pass;
    }

    method DeleteMeal(id: int) returns (r: Outcome<Error>)
      requires Valid(rows)
      modifies this
      ensures Valid(rows) && DeletionsKept(old(rows), rows)
      ensures (rows, r) == AfterDelete(old(rows), id)
    {
      // first read the deleted flag of the row ...
      if id !in rows {
        return Fail(IdNotFound(id));
      }
      var deleted := rows[id].deleted;
      if deleted {
        return Fail(AlreadyDeleted(id));
      }
      // ... then set it
      rows := rows[id := rows[id].(deleted := true)];
      r := Pass;
    }

    method UpdateMealStats(id: int, result: string) returns (r: Outcome<Error>)
      requires Valid(rows)
      modifies this
      ensures Valid(rows) && DeletionsKept(old(rows), rows)
      ensures (rows, r) == AfterUpdateStats(old(rows), id, result)
    {
      if result != "win" && result != "loss" {
        return Fail(InvalidResult(result));
      }
      // first read the deleted flag of the row ...
      if id !in rows {
        return Fail(IdNotFound(id));
      }
      var deleted := rows[id].deleted;
      if deleted {
        return Fail(MealDeleted(id));
      }
      // ... then bump its counters
      var row := rows[id];
      if result == "win" {
        rows := rows[id := row.(battles := row.battles + 1, wins := row.wins + 1)];
      } else {
        rows := rows[id := row.(battles := row.battles + 1)];
      }
      r := Pass;
    }
  }

  /**
   * The create, delete and stats scenarios of the tests, as a client of the
   * table: returns the rows left at the end.
   */
  method KitchenWalkthrough() returns (rows: Table)
    ensures rows == map[1 := Row("Spaghetti", "Italian", 12.99, Med, true, 1, 1)]
    ensures GetMealById(rows, 1) == Err(MealDeleted(1))
  {
    var table := new MealTable();
    var bad := table.CreateMeal("Spaghetti", "Italian", Number(-12.99), "MED");
    assert bad == Fail(InvalidPrice(Number(-12.99)));
    bad := table.CreateMeal("Spaghetti", "Italian", NotANumber("invalid"), "MED");
    assert bad == Fail(InvalidPrice(NotANumber("invalid")));
    bad := table.CreateMeal("Spaghetti", "Italian", Number(12.99), "EASY");
    assert bad == Fail(InvalidDifficulty("EASY")) && table.rows == map[];
    var ok := table.CreateMeal("Spaghetti", "Italian", Number(12.99), "MED");
    assert ok == Pass && table.rows == map[1 := Row("Spaghetti", "Italian", 12.99, Med, false, 0, 0)];
    var dup := table.CreateMeal("Spaghetti", "Italian", Number(12.99), "MED");
    assert dup == Fail(DuplicateName("Spaghetti"));
    var win := table.UpdateMealStats(1, "win");
    assert win == Pass && table.rows == map[1 := Row("Spaghetti", "Italian", 12.99, Med, false, 1, 1)];
    var draw := table.UpdateMealStats(1, "draw");
    assert draw == Fail(InvalidResult("draw"));
    var gone := table.DeleteMeal(999);
    assert gone == Fail(IdNotFound(999));
    var del := table.DeleteMeal(1);
    assert del == Pass && table.rows == map[1 := Row("Spaghetti", "Italian", 12.99, Med, true, 1, 1)];
    var again := table.DeleteMeal(1);
    assert again == Fail(AlreadyDeleted(1));
    rows := table.rows;
  }
}
