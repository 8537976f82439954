/**
 The `Welcome` contract of the safebox: a custody ledger that keeps, per
 claim hash, the amount attached to the last `deposit` under that hash, and
 pays the whole amount out once to whoever calls `withdraw` with the hash.

 The host context is explicit here: the attached deposit is a parameter of
 `Deposit`, the predecessor account is a parameter of `Withdraw`, the
 `Promise` transfer is a returned `Transfer` record, the "Wrong key" log line
 travels in the `Rejected` outcome, and a failed `assert!` (which makes the
 host revert the whole call) is the `Panicked` outcome.
 */
module Safebox {

  /** `Balance` is a `u128` on the host. */
  const BALANCE_LIMIT: nat := 0x1_0000_0000_0000_0000_0000_0000_0000_0000
  type Balance = n: nat | n < BALANCE_LIMIT

  type Hash = string
  type AccountId = string
  type Records = map<Hash, Balance>

  /** Message of the `assert!` in `withdraw` and line written to the log for an unknown hash. */
  const MISSING_DEPOSIT: string := "Missing deposit"
  const WRONG_KEY: string := "Wrong key"

  /** A transfer the contract asks the host to perform. */
  datatype Transfer = Transfer(receiver: AccountId, amount: Balance)

  /** What one `withdraw` call amounts to. */
  datatype WithdrawOutcome =
    | Paid(transfer: Transfer)   // returns true after scheduling the transfer
    | Rejected(log: string)      // logs and returns false
    | Panicked(message: string)  // the assertion failed: the host reverts the call
  {
    /** The `bool` the call hands back; a reverted call hands back nothing. */
    function Returned(): bool
      requires !Panicked?
    {
      Paid?
    }
  }

  /** A `withdraw` outcome together with the records the call leaves behind. */
  datatype WithdrawResult = WithdrawResult(outcome: WithdrawOutcome, records: Records)

  /** What `get_deposit` reads: the stored amount, 0 for a hash never deposited. */
  function Lookup(records: Records, hash: Hash): (amount: Balance)
    ensures hash in records ==> amount == records[hash]
    ensures hash !in records ==> amount == 0
  {
    if hash in records then records[hash] else 0
  }

  /** The records after `deposit`: the attached amount replaces whatever the hash held. */
  function DepositSpec(records: Records, hash: Hash, attached: Balance): (updated: Records)
    ensures updated.Keys == records.Keys + {hash}
    ensures Lookup(updated, hash) == attached
    ensures forall other :: other != hash ==> Lookup(updated, other) == Lookup(records, other)
  {
    records[hash := attached]
  }

  /** The effect of `withdraw` called by `caller`. */
  function WithdrawSpec(records: Records, hash: Hash, caller: AccountId): (r: WithdrawResult)
    ensures r.outcome.Rejected? <==> hash !in records
    ensures r.outcome.Rejected? ==> r.outcome.log == WRONG_KEY
    ensures r.outcome.Panicked? <==> hash in records && records[hash] == 0
    ensures r.outcome.Panicked? ==> r.outcome.message == MISSING_DEPOSIT
    ensures r.outcome.Paid? <==> Lookup(records, hash) > 0
    ensures r.outcome.Paid? ==> r.outcome.transfer == Transfer(caller, Lookup(records, hash))
    ensures !r.outcome.Panicked? ==> (r.outcome.Returned() <==> hash in records)
    ensures r.records.Keys == records.Keys
    ensures Lookup(r.records, hash) == if r.outcome.Paid? then 0 else Lookup(records, hash)
    ensures forall other :: other != hash ==> Lookup(r.records, other) == Lookup(records, other)
  {
    if hash in records then
      var deposit := records[hash];
      if deposit > 0 then
        WithdrawResult(Paid(Transfer(caller, deposit)), records[hash := 0])
      else
        WithdrawResult(Panicked(MISSING_DEPOSIT), records)
    else
      WithdrawResult(Rejected(WRONG_KEY), records)
  }

  /** The contract's state and its three entry points. */
  class Welcome {
    var records: Records

    /** `Welcome::default()`: no deposits yet. */
    constructor ()
      ensures records == map[]
    {
      records := map[];
    }

    /** `deposit`: stores the attached amount under `hash`, overwriting any earlier amount. */
    method Deposit(hash: Hash, attached: Balance)
      modifies this
      ensures records == DepositSpec(old(records), hash, attached)
      ensures GetDeposit(hash) == attached
      ensures forall other :: other != hash ==> GetDeposit(other) == old(GetDeposit(other))
    {
      records := records[hash := attached];
    }

    /** `get_deposit`: a read of the records. */
    function GetDeposit(hash: Hash): (amount: Balance)
      reads this
      ensures hash in records ==> amount == records[hash]
      ensures hash !in records ==> amount == 0
    {
      Lookup(records, hash)
    }

    /** `withdraw`, called by the account `caller`. */
    method Withdraw(hash: Hash, caller: AccountId) returns (outcome: WithdrawOutcome)
      modifies this
      ensures outcome == WithdrawSpec(old(records), hash, caller).outcome
      ensures records == WithdrawSpec(old(records), hash, caller).records
    {
      if hash in records {
        var deposit := records[hash];
        if !(deposit > 0) {
          // nothing has been changed yet, so reverting leaves the records as they were
          return Panicked(MISSING_DEPOSIT);
        }
        outcome := Paid(Transfer(caller, deposit));
        records := records[hash := 0];
      } else {
        outcome := Rejected(WRONG_KEY);
      }
    }
  }

  /** Depositing twice under one hash keeps only the second amount. */
  lemma DepositReplaces(records: Records, hash: Hash, first: Balance, second: Balance)
    ensures DepositSpec(DepositSpec(records, hash, first), hash, second) == DepositSpec(records, hash, second)
  {
  }

  /** A successful withdrawal leaves a zero entry, so withdrawing again pays nothing and panics. */
  lemma NoDoublePayout(records: Records, hash: Hash, first: AccountId, second: AccountId)
    requires WithdrawSpec(records, hash, first).outcome.Paid?
    ensures var again := WithdrawSpec(WithdrawSpec(records, hash, first).records, hash, second);
      again.outcome == Panicked(MISSING_DEPOSIT) && again.records == WithdrawSpec(records, hash, first).records
  {
  }

  /** An absent hash and a zero entry read alike but withdraw differently. */
  lemma AbsentAndZeroDiffer(records: Records, absent: Hash, zero: Hash, caller: AccountId)
    requires absent !in records
    requires zero in records && records[zero] == 0
    ensures Lookup(records, absent) == Lookup(records, zero) == 0
    ensures WithdrawSpec(records, absent, caller).outcome == Rejected(WRONG_KEY)
    ensures WithdrawSpec(records, zero, caller).outcome == Panicked(MISSING_DEPOSIT)
  {
  }

  /** Deposit a positive amount, then withdraw: the caller receives exactly that amount. */
  lemma DepositThenWithdraw(records: Records, hash: Hash, attached: Balance, caller: AccountId)
    requires attached > 0
    ensures var r := WithdrawSpec(DepositSpec(records, hash, attached), hash, caller);
      r.outcome == Paid(Transfer(caller, attached)) && Lookup(r.records, hash) == 0
  {
  }
}
