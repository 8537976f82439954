/**
 The contract over a whole history of calls. The host runs one call at a time
 to completion; a call that panics is reverted and leaves no trace. The state
 pairs the records with the payouts scheduled so far, each payout tagged with
 the hash it was paid out for.
 */
module Calls {
  import opened Safebox

  datatype Call =
    | DepositCall(hash: Hash, attached: Balance)
    | GetDepositCall(hash: Hash)
    | WithdrawCall(hash: Hash, caller: AccountId)

  datatype Payout = Payout(hash: Hash, transfer: Transfer)

  datatype State = State(records: Records, payouts: seq<Payout>)

  /**
   One call: a deposit stores its amount under its hash; a withdraw of a
   positive entry always pays it out in full and zeroes it, and nothing else
   pays; no call touches any other hash.
   */
  function Step(s: State, c: Call): (t: State)
    ensures c.DepositCall? ==> Lookup(t.records, c.hash) == c.attached
    ensures forall h :: h != c.hash ==> Lookup(t.records, h) == Lookup(s.records, h)
    ensures t.records.Keys == if c.DepositCall? then s.records.Keys + {c.hash} else s.records.Keys
    ensures t.payouts == s.payouts || (
      && c.WithdrawCall?
      && Lookup(s.records, c.hash) > 0
      && Lookup(t.records, c.hash) == 0
      && t.payouts == s.payouts + [Payout(c.hash, Transfer(c.caller, Lookup(s.records, c.hash)))])
    ensures !c.DepositCall? && t.payouts == s.payouts ==> t.records == s.records
    ensures c.WithdrawCall? && Lookup(s.records, c.hash) > 0 ==> t.payouts != s.payouts
  {
    match c
    case DepositCall(hash, attached) => State(DepositSpec(s.records, hash, attached), s.payouts)
    case GetDepositCall(_) => s
    case WithdrawCall(hash, caller) =>
      var r := WithdrawSpec(s.records, hash, caller);
      match r.outcome
      case Paid(transfer) => State(r.records, s.payouts + [Payout(hash, transfer)])
      case Rejected(_) => s
      case Panicked(_) => s
  }

  /** The calls in order, from state `s`. Payouts already scheduled are never taken back. */
  function Run(s: State, calls: seq<Call>): (t: State)
    ensures s.payouts <= t.payouts
    ensures s.records.Keys <= t.records.Keys
    decreases |calls|
  {
    if calls == [] then s else Run(Step(s, calls[0]), calls[1..])
  }

  /** How many of the payouts were for `hash`. */
  function PayoutCount(payouts: seq<Payout>, hash: Hash): nat
  {
    if payouts == [] then 0 else
      var last := payouts[|payouts| - 1];
      PayoutCount(payouts[..|payouts| - 1], hash) + (if last.hash == hash then 1 else 0)
  }

  /** The total amount paid out for `hash`. */
  function PaidAmount(payouts: seq<Payout>, hash: Hash): nat
  {
    if payouts == [] then 0 else
      var last := payouts[|payouts| - 1];
      PaidAmount(payouts[..|payouts| - 1], hash) + (if last.hash == hash then last.transfer.amount else 0)
  }

  /** How many calls deposit a positive amount under `hash`. */
  function Fundings(calls: seq<Call>, hash: Hash): nat
  {
    if calls == [] then 0 else
      var funds := calls[0].DepositCall? && calls[0].hash == hash && calls[0].attached > 0;
      (if funds then 1 else 0) + Fundings(calls[1..], hash)
  }

  /** The total amount attached to deposits under `hash`. */
  function DepositedAmount(calls: seq<Call>, hash: Hash): nat
  {
    if calls == [] then 0 else
      var attached := if calls[0].DepositCall? && calls[0].hash == hash then calls[0].attached else 0;
      attached + DepositedAmount(calls[1..], hash)
  }

  /** The hashes the calls deposit under. */
  function DepositedHashes(calls: seq<Call>): set<Hash>
  {
    if calls == [] then {} else
      var created: set<Hash> := if calls[0].DepositCall? then {calls[0].hash} else {};
      created + DepositedHashes(calls[1..])
  }

  /** 1 when `hash` holds a positive amount that a withdraw would pay out. */
  function Funded(records: Records, hash: Hash): nat
  {
    if Lookup(records, hash) > 0 then 1 else 0
  }

  /**
   At most one payout per funding: every payout for `hash` uses up a positive
   amount that was there at the start or that a later deposit put there.
   */
  lemma {:induction false} PayoutsBoundedByFundings(s: State, calls: seq<Call>, hash: Hash)
    ensures var t := Run(s, calls);
      PayoutCount(t.payouts, hash) + Funded(t.records, hash)
      <= PayoutCount(s.payouts, hash) + Funded(s.records, hash) + Fundings(calls, hash)
    decreases |calls|
  {
    if calls != [] {
      var s' := Step(s, calls[0]);
      PayoutsBoundedByFundings(s', calls[1..], hash);
      if s'.payouts != s.payouts {
        assert s'.payouts[..|s'.payouts| - 1] == s.payouts;
      }
    }
  }

  /** Funds out never exceed funds in: per hash, what is paid plus what is held is at most what was held plus what was attached. */
  lemma {:induction false} PaidBoundedByDeposits(s: State, calls: seq<Call>, hash: Hash)
    ensures var t := Run(s, calls);
      PaidAmount(t.payouts, hash) + Lookup(t.records, hash)
      <= PaidAmount(s.payouts, hash) + Lookup(s.records, hash) + DepositedAmount(calls, hash)
    decreases |calls|
  {
    if calls != [] {
      var s' := Step(s, calls[0]);
      PaidBoundedByDeposits(s', calls[1..], hash);
      if s'.payouts != s.payouts {
        assert s'.payouts[..|s'.payouts| - 1] == s.payouts;
      }
    }
  }

  /** Keys are created only by deposits and never removed: a withdrawn hash stays with amount 0. */
  lemma {:induction false} KeysOnlyFromDeposits(s: State, calls: seq<Call>)
    ensures Run(s, calls).records.Keys == s.records.Keys + DepositedHashes(calls)
    decreases |calls|
  {
    if calls != [] {
      KeysOnlyFromDeposits(Step(s, calls[0]), calls[1..]);
    }
  }

  /** With no positive deposit under `hash` in between, two withdrawals pay out at most once. */
  lemma NoDoublePayoutInHistory(records: Records, calls: seq<Call>, hash: Hash)
    requires Fundings(calls, hash) == 0
    ensures PayoutCount(Run(State(records, []), calls).payouts, hash) <= Funded(records, hash) <= 1
  {
    PayoutsBoundedByFundings(State(records, []), calls, hash);
  }

  /** A hash that never held a positive amount and is not funded is never paid out. */
  lemma NeverFundedNeverPaid(records: Records, calls: seq<Call>, hash: Hash)
    requires Lookup(records, hash) == 0
    requires DepositedAmount(calls, hash) == 0
    ensures PaidAmount(Run(State(records, []), calls).payouts, hash) == 0
  {
    PaidBoundedByDeposits(State(records, []), calls, hash);
  }

  /** Without a positive deposit under `hash`, an unfunded hash stays unfunded whatever else is called. */
  lemma {:induction false} UnfundedStaysUnfunded(s: State, calls: seq<Call>, hash: Hash)
    requires Funded(s.records, hash) == 0
    requires Fundings(calls, hash) == 0
    ensures Funded(Run(s, calls).records, hash) == 0
    decreases |calls|
  {
    if calls != [] {
      UnfundedStaysUnfunded(Step(s, calls[0]), calls[1..], hash);
    }
  }

  /**
   After a paying withdraw, a later withdraw of the same hash schedules no
   transfer unless a positive deposit under that hash came in between.
   */
  lemma SecondWithdrawPaysNothing(s: State, hash: Hash, first: AccountId, between: seq<Call>, second: AccountId)
    requires Lookup(s.records, hash) > 0
    requires Fundings(between, hash) == 0
    ensures var paid := Step(s, WithdrawCall(hash, first));
      var before := Run(paid, between);
      |paid.payouts| == |s.payouts| + 1 && Step(before, WithdrawCall(hash, second)) == before
  {
    UnfundedStaysUnfunded(Step(s, WithdrawCall(hash, first)), between, hash);
  }
}
