/** Severity levels and the order the priority filter compares them by. */
module Priorities {

  /** The severity levels, declared from the most verbose to the least. */
  datatype Priority = Debug2 | Debug1 | Debug0 | Info | Warn | Err | Crit | Sec

  /** The threshold every new logger starts with. */
  const DefaultPriority: Priority := Info

  /** All levels in declaration order. */
  const Levels: seq<Priority> := [Debug2, Debug1, Debug0, Info, Warn, Err, Crit, Sec]

  /** The position of a level in the declaration order: the integer the source compares. */
  function Rank(p: Priority): (r: nat)
    ensures r < |Levels| && Levels[r] == p
  {
    match p
    case Debug2 => 0
    case Debug1 => 1
    case Debug0 => 2
    case Info => 3
    case Warn => 4
    case Err => 5
    case Crit => 6
    case Sec => 7
  }

  /** `p >= threshold` over the enumeration. */
  predicate AtLeast(p: Priority, threshold: Priority)
  {
    Rank(p) >= Rank(threshold)
  }

  /** The levels a threshold lets through: the threshold itself and every later level. */
  function Admitted(threshold: Priority): seq<Priority>
  {
    Levels[Rank(threshold)..]
  }

  /** The comparison and the declaration order agree: `p >= t` exactly when `p` is declared at or after `t`. */
  lemma AtLeastMeansAdmitted(p: Priority, t: Priority)
    ensures AtLeast(p, t) <==> p in Admitted(t)
  {
  }

  /** The filter's comparison is a total order on levels. */
  lemma AtLeastIsTotalOrder(p: Priority, q: Priority, s: Priority)
    ensures AtLeast(p, p)
    ensures AtLeast(p, q) && AtLeast(q, p) ==> p == q
    ensures AtLeast(p, q) && AtLeast(q, s) ==> AtLeast(p, s)
    ensures AtLeast(p, q) || AtLeast(q, p)
  {
  }
}
