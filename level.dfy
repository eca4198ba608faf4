/**
 * Severity levels of the logging package. `Level` is a plain integer, so
 * values between and beyond the named constants exist and are ordered
 * numerically like any other integer.
 */
module Levels {

  type Level = int

  /** The value of the constant declared at position `iota` of the block: `0 + 10*iota`. */
  function Declared(iota: nat): (l: Level)
    ensures l >= 0 && l % 10 == 0
    ensures iota > 0 ==> l == Declared(iota - 1) + 10
  {
    0 + 10 * iota
  }

  const ERROR: Level := Declared(0)
  const WARNING: Level := Declared(1)
  const INFO: Level := Declared(2)
  const DEBUG: Level := Declared(3)

  /** The four constants, their values and their strict order. */
  lemma ConstantValues()
    ensures ERROR == 0 && WARNING == 10 && INFO == 20 && DEBUG == 30
    ensures ERROR < WARNING < INFO < DEBUG
  {
  }
}
