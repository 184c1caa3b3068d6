/**
 * The column and row status values an LPSolver backend reports and accepts
 * for a basis, in the order LPSolver declares them.
 */
module LPSolver {
  datatype Status = UPPER | LOWER | BASIC | UNKNOWN | SUPERBASIC | FIXED | INF | END | FREE
}
