/**
 The contract's unit tests `test_deposit` and `test_withdraw`, as clients of
 the class, and two further scenarios: an unknown hash and a double withdraw.
 */
module Scenarios {
  import opened Safebox

  /** `ntoy(100)`: 100 NEAR in yoctoNEAR. */
  const HUNDRED_NEAR: Balance := 100_000_000_000_000_000_000_000_000

  /** The predecessor account of the mocked test context. */
  const CAROL: AccountId := "carol_near"

  /** `test_deposit`: a fresh contract, a deposit of 100 NEAR under "secret", read back. */
  method TestDeposit() returns (read: Balance)
    ensures read == HUNDRED_NEAR
  {
    var contract := new Welcome();
    contract.Deposit("secret", HUNDRED_NEAR);
    read := contract.GetDeposit("secret");
  }

  /** `test_withdraw`: deposit, read 100 NEAR, withdraw as carol_near, read 0. */
  method TestWithdraw() returns (before: Balance, outcome: WithdrawOutcome, after: Balance)
    ensures before == HUNDRED_NEAR
    ensures outcome == Paid(Transfer(CAROL, HUNDRED_NEAR)) && outcome.Returned()
    ensures after == 0
  {
    var contract := new Welcome();
    contract.Deposit("secret", HUNDRED_NEAR);
    before := contract.GetDeposit("secret");
    outcome := contract.Withdraw("secret", CAROL);
    after := contract.GetDeposit("secret");
  }

  /** Withdrawing a hash nobody deposited under: logged and refused, nothing created. */
  method WrongKeyScenario() returns (outcome: WithdrawOutcome, read: Balance, known: bool)
    ensures outcome == Rejected(WRONG_KEY) && !outcome.Returned()
    ensures read == 0 && !known
  {
    var contract := new Welcome();
    outcome := contract.Withdraw("never-deposited", CAROL);
    read := contract.GetDeposit("never-deposited");
    known := "never-deposited" in contract.records;
  }

  /** Withdrawing twice: the second call hits the assertion and is reverted. */
  method WithdrawTwiceScenario() returns (first: WithdrawOutcome, second: WithdrawOutcome, after: Balance)
    ensures first == Paid(Transfer(CAROL, HUNDRED_NEAR))
    ensures second == Panicked(MISSING_DEPOSIT)
    ensures after == 0
  {
    var contract := new Welcome();
    contract.Deposit("k", HUNDRED_NEAR);
    first := contract.Withdraw("k", CAROL);
    second := contract.Withdraw("k", CAROL);
    after := contract.GetDeposit("k");
  }
}
