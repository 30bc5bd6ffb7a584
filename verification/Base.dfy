/** Account names, fixed constants and the commit-or-abort result shared by all contracts. */
module Base {

  /** An account name, by its 64-bit value; the contracts only compare names and order them. */
  type Name = nat

  const EOSIO: Name := 0x5530ea0000000000        // get_self() of the system contract
  const LIBRE_USER: Name := 0x8b8f750000000000   // "libre", the second name exempt from permissions
  const EOSIO_LIBRE: Name := 0x5530ea022e3dd400  // the permission contract
  const EOSIO_TOKEN: Name := 0x5530ea033482a600  // the token contract
  const BPAY: Name := 0x3d4de045c7ba8000         // "bpay.libre", the pay account
  const STAKE_LIBRE: Name := 0xc64d05022e3dd400  // owner of the stake table

  const U32: nat := 0x1_0000_0000

  /** Subtraction of 32-bit unsigned values. */
  function Sub32(a: nat, b: nat): nat
  {
    (a - b) % U32
  }

  /** An action either commits a new state or aborts; the host then restores the old state. */
  datatype Option<+T> = None | Some(value: T) {

    predicate IsFailure() {
      None?
    }

    function PropagateFailure<U>(): Option<U>
      requires None?
    {
      None
    }

    function Extract(): T
      requires Some?
    {
      value
    }

    function GetOr(default: T): T {
      if Some? then value else default
    }
  }

  datatype Outcome = Pass | Fail {

    predicate IsFailure() {
      Fail?
    }

    function PropagateFailure<U>(): Option<U>
      requires Fail?
    {
      None
    }
  }

  /** The contracts' `check`: abort the whole action when the condition is false. */
  function Check(condition: bool): Outcome
  {
    if condition then Pass else Fail
  }

  /** What a method reports about the state it leaves: `result` on success, the old state otherwise. */
  ghost predicate Committed<S>(ok: bool, before: S, after: S, result: Option<S>)
  {
    && ok == result.Some?
    && after == result.GetOr(before)
  }
}
