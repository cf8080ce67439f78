/** Values shared by the kitchen table and the battle model. */
module Meals {

  /** The three difficulty levels a meal may carry. */
  datatype Difficulty = Low | Med | High

  /** A meal as the kitchen model returns it and the battle model stages it. */
  datatype Meal = Meal(id: int, name: string, cuisine: string, price: real, difficulty: Difficulty)

  /** A value, or the error raised instead of producing it. */
  datatype Result<+T, +E> = Ok(value: T) | Err(error: E)

  /** Completion of an operation that returns nothing, or the error it raised. */
  datatype Outcome<+E> = Pass | Fail(error: E)

  /** A value that may be absent. */
  datatype Option<+T> = None | Some(value: T)
}
