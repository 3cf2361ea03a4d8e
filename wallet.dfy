/** The player's wallet (Domain/Entities/Wallet.cs): a single balance that
    starts at zero and changes only through four guarded operations. */
module Wallets {
  import opened Common

  /** What one wallet operation does: how it completes and the balance after it. */
  datatype Step = Step(outcome: Outcome, balance: real)

  /** `Deposit(amount)`: a non-positive amount is rejected, otherwise credited. */
  function DepositEffect(balance: real, amount: real): Step {
    if amount <= 0.0 then Step(Fail(InvalidArgument(DepositMessage)), balance)
    else Step(Pass, balance + amount)
  }

  /** `Withdraw(amount)`: a non-positive amount is rejected first, then an
      amount above the balance; the whole balance may be withdrawn. */
  function WithdrawEffect(balance: real, amount: real): Step {
    if amount <= 0.0 then Step(Fail(InvalidArgument(WithdrawalMessage)), balance)
    else if amount > balance then Step(Fail(InvalidOperation(InsufficientFundsMessage)), balance)
    else Step(Pass, balance - amount)
  }

  /** `ApplyWin(amount)`: a negative win is rejected; zero is accepted. */
  function WinEffect(balance: real, amount: real): Step {
    if amount < 0.0 then Step(Fail(InvalidArgument(NegativeWinMessage)), balance)
    else Step(Pass, balance + amount)
  }

  /** The wallet's operations. `ApplyBet` reuses `Withdraw`. */
  datatype Op =
    | Deposit(amount: real)
    | Withdraw(amount: real)
    | ApplyBet(amount: real)
    | ApplyWin(amount: real)

  /** Every operation keeps the balance non-negative, and a rejected one
      leaves it exactly as it was. */
  function Apply(balance: real, op: Op): (s: Step)
    ensures balance >= 0.0 ==> s.balance >= 0.0
    ensures s.outcome.Fail? ==> s.balance == balance
  {
    match op
    case Deposit(a) => DepositEffect(balance, a)
    case Withdraw(a) => WithdrawEffect(balance, a)
    case ApplyBet(a) => WithdrawEffect(balance, a)
    case ApplyWin(a) => WinEffect(balance, a)
  }

  /** The balance after a sequence of operations, where a rejected operation
      is reported to the caller and the next one proceeds from the same balance. */
  function Run(balance: real, ops: seq<Op>): real
    decreases |ops|
  {
    if ops == [] then balance else Run(Apply(balance, ops[0]).balance, ops[1..])
  }

  /** The balance is never negative, whatever operations are applied and
      whether they succeed or are rejected. */
  lemma {:induction false} RunKeepsBalanceNonNegative(balance: real, ops: seq<Op>)
    requires balance >= 0.0
    ensures Run(balance, ops) >= 0.0
    decreases |ops|
  {
    if ops != [] {
      RunKeepsBalanceNonNegative(Apply(balance, ops[0]).balance, ops[1..]);
    }
  }

  /** Running two sequences one after the other is running their concatenation. */
  lemma {:induction false} RunAppend(balance: real, xs: seq<Op>, ys: seq<Op>)
    ensures Run(balance, xs + ys) == Run(Run(balance, xs), ys)
    decreases |xs|
  {
    if xs == [] {
      assert xs + ys == ys;
    } else {
      assert (xs + ys)[0] == xs[0];
      assert (xs + ys)[1..] == xs[1..] + ys;
      RunAppend(Apply(balance, xs[0]).balance, xs[1..], ys);
    }
  }

  /** Depositing an amount and withdrawing it again restores the balance. */
  lemma DepositThenWithdraw(balance: real, amount: real)
    requires balance >= 0.0 && amount > 0.0
    ensures DepositEffect(balance, amount).outcome == Pass
    ensures WithdrawEffect(DepositEffect(balance, amount).balance, amount) == Step(Pass, balance)
  {
  }

  /** A successful withdrawal is undone by depositing the same amount. */
  lemma WithdrawThenDeposit(balance: real, amount: real)
    requires WithdrawEffect(balance, amount).outcome == Pass
    ensures DepositEffect(WithdrawEffect(balance, amount).balance, amount) == Step(Pass, balance)
  {
  }

  /** `Withdraw` succeeds exactly for 0 < amount <= balance; withdrawing the
      whole balance leaves zero. */
  lemma WithdrawAccepts(balance: real, amount: real)
    ensures WithdrawEffect(balance, amount).outcome == Pass <==> 0.0 < amount <= balance
    ensures amount == balance > 0.0 ==> WithdrawEffect(balance, amount) == Step(Pass, 0.0)
  {
  }

  /** Deposit 100 then withdraw 40 leaves 60, from a new wallet. */
  lemma DepositWithdrawScenario()
    ensures Run(0.0, [Deposit(100.0), Withdraw(40.0)]) == 60.0
  {
    assert [Deposit(100.0), Withdraw(40.0)][1..] == [Withdraw(40.0)];
  }

  /** The wallet entity. Its one field is the balance; `Valid` is the
      invariant the operations keep. */
  class Wallet {
    var balance: real

    ghost predicate Valid()
      reads this
    {
      balance >= 0.0
    }

    /** A new wallet holds nothing. */
    constructor ()
      ensures Valid() && balance == 0.0
    {
      balance := 0.0;
    }

    method Deposit(amount: real) returns (o: Outcome)
      requires Valid()
      modifies this
      ensures Valid()
      ensures Step(o, balance) == DepositEffect(old(balance), amount)
    {
      if amount <= 0.0 {
        return Fail(InvalidArgument(DepositMessage));
      }
      balance := balance + amount;
      o := Pass;
    }

    method Withdraw(amount: real) returns (o: Outcome)
      requires Valid()
      modifies this
      ensures Valid()
      ensures Step(o, balance) == WithdrawEffect(old(balance), amount)
    {
      if amount <= 0.0 {
        return Fail(InvalidArgument(WithdrawalMessage));
      }
      if amount > balance {
        return Fail(InvalidOperation(InsufficientFundsMessage));
      }
      balance := balance - amount;
      o := Pass;
    }

    method ApplyBet(amount: real) returns (o: Outcome)
      requires Valid()
      modifies this
      ensures Valid()
      ensures Step(o, balance) == Apply(old(balance), Op.ApplyBet(amount))
    {
      o := Withdraw(amount);
    }

    method ApplyWin(amount: real) returns (o: Outcome)
      requires Valid()
      modifies this
      ensures Valid()
      ensures Step(o, balance) == WinEffect(old(balance), amount)
    {
      if amount < 0.0 {
        return Fail(InvalidArgument(NegativeWinMessage));
      }
      balance := balance + amount;
      o := Pass;
    }
  }
}
