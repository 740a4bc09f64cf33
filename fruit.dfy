/**
 * A fruit: a typed item with a position and a carried flag (python/fruit.py).
 * Its fields are changed only by the agents; here it is a record that the
 * environment stores in its fruit list and that agents address by index.
 */
module Fruits {

  /** The display colour table of python/fruit.py:2, with `0` for unknown keys. */
  function Colour(key: string): (c: int)
    ensures key == "A" ==> c == 2
    ensures key == "B" ==> c == 3
    ensures key == "C" ==> c == 4
    ensures key !in {"A", "B", "C"} ==> c == 0
  {
    if key == "A" then 2
    else if key == "B" then 3
    else if key == "C" then 4
    else 0
  }

  datatype Fruit = Fruit(x: int, y: int, key: string, color: int, isCarried: bool)

  /** The constructor `Fruit(x, y, key)`. */
  function NewFruit(x: int, y: int, key: string): (f: Fruit)
    ensures f.x == x && f.y == y && f.key == key
    ensures f.color == Colour(key)
    ensures !f.isCarried
  {
    Fruit(x, y, key, Colour(key), false)
  }
}
