/** Sums of real sequences, shared by both clock revisions' telescoping lemmas. */
module Sums {

  /** The sum of `xs`, first element first. */
  function Sum(xs: seq<real>): real
  {
    if xs == [] then 0.0 else xs[0] + Sum(xs[1..])
  }
}
