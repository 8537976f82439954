# Safebox `Welcome` contract in Dafny

A model of the `Welcome` NEAR contract of near-safebox-test. It is a custody
ledger. It keeps a map `records` from a claim hash to the `u128` amount
attached to the last `deposit` under that hash. `get_deposit` reads an amount
and gives 0 for an unknown hash. `withdraw` pays the whole stored amount to
the calling account and sets the entry to 0. Knowing the hash is the only
authorisation: the caller need not be the depositor.

- `welcome.dfy`, module `Safebox`. The types come first: `Balance` is a `nat`
  below 2^128, and the `Transfer` record stands for the `Promise`. A
  `withdraw` call has one of three outcomes:
  - `Paid`: the call returns `true` and schedules a transfer.
  - `Rejected`: the call logs "Wrong key" and returns `false`.
  - `Panicked`: the `assert!` fails, so the host reverts the call.

  The module has three specification functions over the records map
  (`Lookup`, `DepositSpec`, `WithdrawSpec`). The class `Welcome` holds the
  `records` field and has the methods `Deposit` and `Withdraw`, which update
  that field in place, plus the read-only function `GetDeposit`. Each member
  of the class is proved against its specification function.
- `calls.dfy`, module `Calls`. This module models what the contract does over
  a whole sequence of calls. The host runs calls one at a time, and a
  panicking call leaves no trace. Induction over the call sequence proves the
  custody properties:
  - Every payout for a hash uses up one positive deposit under that hash.
  - Per hash, what was paid plus what is still held never exceeds what was
    held at the start plus what was attached.
  - Keys are only ever created by deposits, and no key is ever removed.
  - After a withdrawal, a second one pays nothing until a new positive
    deposit arrives.
- `scenarios.dfy`, module `Scenarios`. This module restates the contract's two
  unit tests as client methods of the class. Two more scenarios cover an
  unknown hash and a withdrawal done twice.

Three behaviours of the code are modelled as they are:
- `deposit` replaces the stored amount. It does not add to it.
- A zero entry makes `withdraw` abort. It does not return `false`.
- The entry is set to 0 in the same call that schedules the transfer. There is no pending-transfer state.

## Model

| member | source | states |
|---|---|---|
| Safebox.Lookup | contract/src/lib.rs:39-48 | the amount read is the stored one for a present hash and 0 for an absent one |
| Safebox.DepositSpec | contract/src/lib.rs:34-37 | after a deposit the hash is present and reads exactly the attached amount (replace, not sum); every other hash keeps its presence and amount |
| Safebox.WithdrawSpec | contract/src/lib.rs:50-64 | absent hash: rejected with the "Wrong key" log; present with 0: panics with "Missing deposit"; otherwise pays the full stored amount to the caller; a call that does not panic returns true exactly when the hash was present; the key set never changes, the hash reads 0 after a payout and is unchanged otherwise, other hashes are untouched |
| Safebox.Welcome.constructor | contract/src/lib.rs:26-29 | the default contract has no records |
| Safebox.Welcome.Deposit | contract/src/lib.rs:34-37 | the new records are the deposit specification of the old ones; the hash reads the attached amount and every other hash reads as before |
| Safebox.Welcome.GetDeposit | contract/src/lib.rs:39-48 | reads the stored amount, or 0 when the hash is absent, without changing the records |
| Safebox.Welcome.Withdraw | contract/src/lib.rs:50-64 | the outcome and the new records are those of the withdraw specification on the old records; a panic leaves the records as they were |
| Safebox.DepositReplaces | contract/src/lib.rs:34-37 | two deposits under one hash leave the same records as the second alone |
| Safebox.NoDoublePayout | contract/src/lib.rs:52-57 | after a paying withdraw, withdrawing the same hash again panics and changes nothing |
| Safebox.AbsentAndZeroDiffer | contract/src/lib.rs:39-62 | an absent hash and a zero entry both read 0, but withdrawing the first is rejected and the second panics |
| Safebox.DepositThenWithdraw | contract/src/lib.rs:34-57 | depositing a positive amount and then withdrawing pays exactly that amount to the caller and leaves 0 |
| Calls.Step | contract/src/lib.rs:32-64 | a deposit stores exactly its amount under its hash; no call changes the amount of any other hash; one call schedules at most one payout; a withdraw of a positive entry always schedules exactly one, for the full amount to the caller, and zeroes that entry, and no other call pays; only a deposit adds a key; a call that pays nothing and deposits nothing changes nothing |
| Calls.Run | contract/src/lib.rs:32-64 | over a sequence of calls, scheduled payouts are never taken back and keys are never removed |
| Calls.PayoutsBoundedByFundings | contract/src/lib.rs:52-57 | payouts for a hash plus whether it is still funded never exceed whether it was funded at the start plus the positive deposits under it |
| Calls.PaidBoundedByDeposits | contract/src/lib.rs:34-57 | per hash, the amount paid out plus the amount held never exceed the amount held at the start plus the amounts attached to deposits |
| Calls.KeysOnlyFromDeposits | contract/src/lib.rs:34-62 | the keys after any calls are exactly the keys before plus the hashes deposited under |
| Calls.UnfundedStaysUnfunded | contract/src/lib.rs:34-62 | a hash reading 0 keeps reading 0 while no positive deposit under it is made |
| Calls.NoDoublePayoutInHistory | contract/src/lib.rs:52-57 | without positive deposits under a hash, a history pays that hash out at most once, and never when it starts at 0 |
| Calls.NeverFundedNeverPaid | contract/src/lib.rs:52-57 | a hash that starts at 0 and receives no deposit amount is never paid anything |
| Calls.SecondWithdrawPaysNothing | contract/src/lib.rs:52-57 | after a paying withdraw, a later withdraw of the same hash with no positive deposit in between schedules no transfer and changes nothing |
| Scenarios.TestDeposit | contract/src/lib.rs:110-125 | a fresh contract given a 100 NEAR deposit under "secret" reads 100 NEAR |
| Scenarios.TestWithdraw | contract/src/lib.rs:127-148 | after that deposit, a withdraw by carol_near returns true with a 100 NEAR transfer to her account, and the hash then reads 0 |
| Scenarios.WrongKeyScenario | contract/src/lib.rs:59-62 | withdrawing an unknown hash is rejected with the "Wrong key" log, and no entry is created |
| Scenarios.WithdrawTwiceScenario | contract/src/lib.rs:50-64 | deposit then two withdraws: the first pays 100 NEAR, the second panics, and the hash reads 0 |

## Left out

- The `wee_alloc` global allocator, the `near_bindgen` and Borsh derives and `#[payable]` are left out. They are host plumbing and have no ledger semantics.
- `env::attached_deposit` and `env::predecessor_account_id` are left out as host calls. They become the `attached` and `caller` parameters.
- `env::log` is left out as a host call. The "Wrong key" line is carried in the `Rejected` outcome instead.
- The execution of the `Promise` transfer is left out: when it runs, whether it fails, and retries. Only the scheduled `(receiver, amount)` record is modelled.
- The reverting of a panicked call is not modelled as a host mechanism. It appears only as the `Panicked` outcome, which leaves the records unchanged. `withdraw` changes nothing before its assertion, so nothing needs undoing.
- The mocked blockchain context of the tests (`get_context`, `VMContext`) is left out. `ntoy(100)` is the constant `HUNDRED_NEAR`.
- Concurrency and re-entrancy are left out: the host runs one call at a time.
- There are no overflow checks, since the code does no arithmetic on balances.
