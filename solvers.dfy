/** What the optimizers learn back from a solver run. */
module Solvers {

  /** The solver's termination condition; only `Optimal` leads to extracted results. */
  datatype Termination = Optimal | Infeasible | Unbounded | MaxTimeLimit | OtherTermination
}
