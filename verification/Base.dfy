/** Vocabulary shared by all contracts: account names, machine integers, the checked range of an
    asset amount, abort reasons, and the outcome of an action. */
module Base {

  // ---------------------------------------------------------------------------------------------
  // Account names and machine integers

  /** An account name is its 64-bit encoding; names are compared as numbers. */
  type Name = x: int | 0 <= x < 0x1_0000_0000_0000_0000

  type int64 = x: int | -0x8000_0000_0000_0000 <= x < 0x8000_0000_0000_0000

  const TWO63: int := 0x8000_0000_0000_0000
  const TWO64: int := 0x1_0000_0000_0000_0000

  const SYSTEM: Name := 0x5530_ea00_0000_0000      // eosio
  const STAKE: Name := 0x5530_ea03_1934_1400       // eosio.stake
  const TOKEN: Name := 0x5530_ea03_3482_a600       // eosio.token
  const ADMIN: Name := 0x4f8c_993a_6000_0000       // dyadmin
  const COMPANY: Name := 0x4525_534f_c000_0000     // company
  const GOVERNMENT: Name := 0x6536_abce_4a9e_4000  // government

  /** The value a two's complement 64-bit register holds after an operation whose exact result is `x`. */
  function Wrap64(x: int): (r: int64)
    ensures -TWO63 <= x < TWO63 ==> r == x
  {
    (x + TWO63) % TWO64 - TWO63
  }

  /** The register differs from the exact result by a multiple of the register size, and it is the only
      64-bit value that does. */
  lemma WrapCongruent(x: int, r: int64, k: int)
    ensures r == x + k * TWO64 ==> r == Wrap64(x)
    ensures exists m: int :: Wrap64(x) == x + m * TWO64
  {
    assert Wrap64(x) == x + (-((x + TWO63) / TWO64)) * TWO64;
  }

  /** A wrapped operand may be replaced by the exact one: only the last wrap is visible. */
  lemma WrapAbsorbs(x: int, d: int)
    ensures Wrap64(Wrap64(x) + d) == Wrap64(x + d)
  {
  }

  // ---------------------------------------------------------------------------------------------
  // Outcome of an action

  datatype Error =
    | MissingAuth
    | ZeroAmount
    | NotPositive
    | InvalidSymbol
    | InvalidQuantity
    | SymbolMismatch
    | AssetRange
    | TokenExists
    | NoSuchToken
    | NoSuchAccount
    | SelfTransfer
    | SupplyExceeded
    | NoBalance
    | Overdrawn
    | MemoTooLong
    | BalanceNotZero
    | NetNotZero
    | TransferToSelf
    | InsufficientStake
    | NegativeTotal
    | NegativeStake
    | NoRefund
    | RefundTooEarly
    | RowExists
    | RowMissing
    | HasResourceRow
    | TooManyProducers
    | UnsortedProducers
    | NoStake
    | NoAccountType
    | NotRegistered
    | DefaultKey
    | UrlTooLong
    | WeightRange
    | TypeAlreadySet
    | UnknownType
    | Expired
    | NotExpired
    | HashMismatch
    | NotRequested
    | NotProvided
    | NotAuthorized

  /** What an action produces from a given state: the next state, or the check that fired. */
  datatype Result<+T> = Ok(value: T) | Abort(error: Error) {
    predicate IsFailure() {
      Abort?
    }

    function PropagateFailure<U>(): Result<U>
      requires Abort?
    {
      Abort(error)
    }

    function Extract(): T
      requires Ok?
    {
      value
    }
  }

  datatype Guard = Pass | Fail(error: Error) {
    predicate IsFailure() {
      Fail?
    }

    function PropagateFailure<U>(): Result<U>
      requires Fail?
    {
      Abort(error)
    }
  }

  /** `check(condition, message)`. */
  function Check(condition: bool, error: Error): Guard {
    if condition then Pass else Fail(error)
  }

  /** How a method call on a contract object ended. */
  datatype Outcome = Committed | Aborted(error: Error)

  /** A call that did what the specification says; on an abort the half-done writes do not matter, because
      the host discards them. */
  predicate Reaches<T(==)>(outcome: Outcome, after: T, spec: Result<T>) {
    match spec
    case Ok(value) => outcome == Committed && after == value
    case Abort(error) => outcome == Aborted(error)
  }

  /** An action as the host runs it: it reaches the specified state, or it leaves everything as it was. */
  predicate Settles<T(==)>(before: T, outcome: Outcome, after: T, spec: Result<T>) {
    Reaches(outcome, after, spec) && (spec.Abort? ==> after == before)
  }

  /** What the host tells an action: the block time in microseconds, the accounts that signed, the
      accounts that exist, and the symbol codes that are well formed. */
  datatype Context = Context(now: nat, auth: set<Name>, accounts: set<Name>, codes: set<nat>)

  function Seconds(now: nat): nat {
    now / 1_000_000
  }

  // ---------------------------------------------------------------------------------------------
  // Asset amounts

  const MAX_AMOUNT: int := 0x3fff_ffff_ffff_ffff

  predicate InRange(x: int) {
    -MAX_AMOUNT <= x <= MAX_AMOUNT
  }

  /** The result of the library's `+=` and `-=` on asset amounts: out of range aborts. */
  function CheckedAmount(x: int): Result<int64> {
    if InRange(x) then Ok(x) else Abort(AssetRange)
  }

  // ---------------------------------------------------------------------------------------------
  // Table rows that hold an amount

  /** The amount stored under `k`; a missing row counts as zero. */
  function Get0<K>(m: map<K, int>, k: K): int {
    if k in m then m[k] else 0
  }

  /** Writes an amount under `k`, erasing the row when the amount is zero. */
  function Store<K>(m: map<K, int>, k: K, v: int): map<K, int> {
    if v == 0 then m - {k} else m[k := v]
  }
}
