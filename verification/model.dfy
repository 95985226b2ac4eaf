/** The account record and its two string enumerations (internal/model/model.go). */
module Model {

  const MinInt64: int := -0x8000_0000_0000_0000
  const MaxInt64: int := 0x7FFF_FFFF_FFFF_FFFF

  /** Go's `int64`. */
  type Int64 = x: int | MinInt64 <= x <= MaxInt64

  /** Go's `type AccountHealth string`: any string, not only the named constants. */
  type AccountHealth = string

  /** Go's `type AccountType string`. */
  type AccountType = string

  const OK: AccountHealth := "ok"
  const WARN: AccountHealth := "Warning"
  const SUB1: AccountHealth := "Substandard 1"
  const SUB2: AccountHealth := "Substandard 2"
  const SUB3: AccountHealth := "Substandard 3"
  const OVERDUE30: AccountHealth := "Overdue by 30 days"
  const OVERDUE90: AccountHealth := "Overdue by 90 days"
  const DELINQUENT: AccountHealth := "Delinquent"

  const SAVING: AccountType := "Savings Account"
  const CURRENT: AccountType := "Current Account"
  const GL: AccountType := "GL Account"
  const OVERDRAFT: AccountType := "Overdraft Account"

  /** The eight health constants in declaration order. */
  const AllHealths: seq<AccountHealth> := [OK, WARN, SUB1, SUB2, SUB3, OVERDUE30, OVERDUE90, DELINQUENT]

  /** The four type constants in declaration order. */
  const AllTypes: seq<AccountType> := [SAVING, CURRENT, GL, OVERDRAFT]

  datatype AccountInfo = AccountInfo(
    name: string,
    crn: Int64,
    balance: Int64,
    holdings: Int64,
    accType: AccountType,
    accHealth: AccountHealth)

  /** No two health constants are the same string. */
  lemma HealthConstantsDistinct()
    ensures |AllHealths| == 8
    ensures forall i, j :: 0 <= i < j < |AllHealths| ==> AllHealths[i] != AllHealths[j]
  {
  }

  /** No two type constants are the same string. */
  lemma TypeConstantsDistinct()
    ensures |AllTypes| == 4
    ensures forall i, j :: 0 <= i < j < |AllTypes| ==> AllTypes[i] != AllTypes[j]
  {
  }

  /** Every enumeration constant is longer than one character, so none of them
      equals a string made of a single rune. */
  lemma ConstantsLongerThanOneRune()
    ensures forall i :: 0 <= i < |AllHealths| ==> |AllHealths[i]| > 1
    ensures forall i :: 0 <= i < |AllTypes| ==> |AllTypes[i]| > 1
  {
  }
}
