/** Two tasks that take turns. */
module Turns {

  datatype Who = A | B

  ghost function Other(w: Who): Who {
    if w.A? then B else A
  }

  /** Whose turn number `n` is, counting from zero. */
  ghost function Turn(n: nat): Who {
    if n % 2 == 0 then A else B
  }

  /** The values 0, 1, ..., n - 1. */
  ghost function UpTo(n: nat): seq<nat> {
    seq(n, i => i)
  }
}
